/**
 * `login`: turn a Telegram deep link into a session token. The URL's
 * fragment carries the auth blob as the value of its first `key=value`
 * pair; the decoded blob and the invite code are base64-encoded and
 * exchanged for a token in two requests.
 */
module Login {
  import opened Wrappers
  import opened Text
  import opened Remote
  import opened Trace

  /**
   * `f.split('&').nth(0).unwrap()`, then `.split('=').nth(1)`: the second
   * `=`-piece of the first `&`-piece, or none where the following
   * `unwrap` panics. In plain words: in the text before the first `&`,
   * what lies between the first `=` and the next `=` (or the end); there
   * is none when that text has no `=`.
   */
  function FragmentBlob(fragment: string): (blob: Option<string>)
    ensures var segment := Before(fragment, '&');
      blob == if '=' in segment then Some(Before(After(segment, '='), '=')) else None
  {
    SplitFirst(fragment, '&');
    var segment := Split(fragment, '&')[0];
    SplitFirst(segment, '=');
    var pair := Split(segment, '=');
    if |pair| >= 2 then Some(pair[1]) else None
  }

  /**
   * The text the login payload encodes: `"{decoded}&invite_code={invite_code}"`.
   * Its `&`-pieces are those of the decoded blob (Telegram's init data is
   * itself a list of `&`-separated pairs) followed by those of the
   * `invite_code` pair, which is a single piece when the code holds no
   * `&`. When the blob holds no `&`, the text before the first `&` is the
   * blob.
   */
  function PayloadText(decoded: string, inviteCode: string): (p: string)
    ensures '&' in p
    ensures Split(p, '&') == Split(decoded, '&') + Split("invite_code=" + inviteCode, '&')
    ensures '&' !in inviteCode ==> Split(p, '&') == Split(decoded, '&') + ["invite_code=" + inviteCode]
    ensures '&' !in decoded ==> Before(p, '&') == decoded && After(p, '&') == "invite_code=" + inviteCode
  {
    var rest := "invite_code=" + inviteCode;
    var p := decoded + ['&'] + rest;
    assert p[|decoded|] == '&';
    assert decoded + "&invite_code=" + inviteCode == p;
    SplitAppend(decoded, '&', rest);
    if '&' in decoded then
      if '&' in rest then p else SplitFree(rest, '&'); p
    else
      BeforeCons(decoded, '&', rest);
      if '&' in rest then p else SplitFree(rest, '&'); p
  }

  /**
   * Everything `login` does before its first request: parse the link,
   * take the fragment's blob, percent-decode it and base64-encode it with
   * the invite code. A link without a fragment is `LoginErr`; a first
   * fragment piece without `=` panics.
   */
  function Prepare(lib: Library, link: string, inviteCode: string): (o: Outcome<string>)
    ensures lib.parseUrl(link) == Url(None) ==> o == Failed(LoginErr)
    ensures lib.parseUrl(link) == Invalid ==> o == Failed(UrlErr)
    ensures o.Panicked? <==>
      (lib.parseUrl(link).Url? && lib.parseUrl(link).fragment.Some?
       && '=' !in Before(lib.parseUrl(link).fragment.value, '&'))
    ensures o.Done? <==>
      (lib.parseUrl(link).Url? && lib.parseUrl(link).fragment.Some?
       && FragmentBlob(lib.parseUrl(link).fragment.value).Some?
       && lib.percentDecode(FragmentBlob(lib.parseUrl(link).fragment.value).value).Some?)
    ensures o.Done? ==>
      o.value == lib.base64(PayloadText(lib.percentDecode(FragmentBlob(lib.parseUrl(link).fragment.value).value).value, inviteCode))
  {
    match lib.parseUrl(link)
    case Invalid => Failed(UrlErr)
    case Url(fragment) =>
      if fragment.None? then Failed(LoginErr)
      else
        match FragmentBlob(fragment.value)
        case None => Panicked
        case Some(blob) =>
          match lib.percentDecode(blob)
          case None => Failed(DecodeErr)
          case Some(decoded) => Done(lib.base64(PayloadText(decoded, inviteCode)))
  }

  /**
   * The two requests: `login-telegram` with the payload, then the miniapp
   * login with the `accessToken` the first answered. A token is returned
   * only when both answer 200; otherwise `LoginErr`.
   */
  function Exchange(remote: Remote, payload: string): (r: Run<string>)
    ensures var first, second := LoginTelegram(payload), MiniappLogin(remote.accessToken(payload));
      && (r.outcome.Done? <==> remote.status(first) == Answered(true) && remote.status(second) == Answered(true))
      && (r.outcome.Done? ==> r.outcome.value == remote.accessToken(payload))
      && (Sent(r.effects) == [first] || Sent(r.effects) == [first, second])
      && (forall i :: 0 <= i < |r.effects| ==> r.effects[i].Send?)
      && (Send(second) in r.effects <==> remote.status(first) == Answered(true))
      && (remote.status(first) == Dropped ==> r == Run([Send(first)], Failed(Transport)))
      && (remote.status(first) == Answered(false) ==> r == Run([Send(first)], Failed(LoginErr)))
      && (remote.status(first) == Answered(true) && remote.status(second) == Dropped
          ==> r.outcome == Failed(Transport))
      && (remote.status(first) == Answered(true) && remote.status(second) == Answered(false)
          ==> r.outcome == Failed(LoginErr))
      && !r.outcome.Panicked?
  {
    var first := LoginTelegram(payload);
    match remote.status(first)
    case Dropped => Run([Send(first)], Failed(Transport))
    case Answered(ok) =>
      if !ok then Run([Send(first)], Failed(LoginErr))
      else
        var token := remote.accessToken(payload);
        var second := MiniappLogin(token);
        var tail := [Send(second)];
        assert tail[1..] == [];
        assert Sent(tail) == [second];
        assert [Send(first), Send(second)][1..] == tail;
        assert Sent([Send(first), Send(second)]) == [first] + Sent(tail);
        Run([Send(first), Send(second)],
          match remote.status(second)
          case Dropped => Failed(Transport)
          case Answered(ok2) => if ok2 then Done(token) else Failed(LoginErr))
  }

  /** `login(tg_url, invite_code)`. */
  function Login(remote: Remote, lib: Library, link: string, inviteCode: string): (r: Run<string>)
    ensures !Prepare(lib, link, inviteCode).Done? ==> r.effects == [] && r.outcome == Prepare(lib, link, inviteCode)
    ensures Prepare(lib, link, inviteCode).Done? ==> r == Exchange(remote, Prepare(lib, link, inviteCode).value)
  {
    match Prepare(lib, link, inviteCode)
    case Done(payload) => Exchange(remote, payload)
    case Failed(e) => Run([], Failed(e))
    case Panicked => Run([], Panicked)
  }

  /**
   * The whole of `login`: a token exactly when the link yields a payload
   * and both requests answer 200, and then it is the `accessToken` of the
   * first answer to `base64(decode(blob) + "&invite_code=" + invite_code)`.
   */
  lemma LoginToken(remote: Remote, lib: Library, link: string, inviteCode: string)
    ensures var r := Login(remote, lib, link, inviteCode);
      var p := Prepare(lib, link, inviteCode);
      r.outcome.Done? <==>
        (p.Done?
         && remote.status(LoginTelegram(p.value)) == Answered(true)
         && remote.status(MiniappLogin(remote.accessToken(p.value))) == Answered(true))
    ensures var p := Prepare(lib, link, inviteCode);
      Login(remote, lib, link, inviteCode).outcome.Done? ==>
        Login(remote, lib, link, inviteCode).outcome.value == remote.accessToken(p.value)
  {
  }
}
