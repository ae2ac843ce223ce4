/**
 * One account's single-shot actions: check in, claim mined gems once the
 * cooldown has run out, and convert taps once enough have accrued.
 */
module Session {
  import opened Int64
  import opened Wrappers
  import opened Decimal
  import opened Remote
  import opened Trace

  /** Seconds the bot pauses before the claim and before the conversion request. */
  const CLAIM_PAUSE: nat := 1
  const CONVERT_PAUSE: nat := 1

  /** The two readings of the system clock (milliseconds) one conversion takes: for the tap count, then for the signature. */
  datatype Clock = Clock(first: I64, second: I64)

  // ---------------------------------------------------------------- check-in

  /** `post_check_in`: one POST; whatever status comes back counts as success, only a failed request is an error. */
  function PostCheckIn(remote: Remote, token: string): (r: Run<()>)
    ensures Sent(r.effects) == [CheckIn(token)]
    ensures r.outcome.Failed? <==> remote.status(CheckIn(token)).Dropped?
    ensures !r.outcome.Panicked?
  {
    var c := CheckIn(token);
    Run([Send(c)], if remote.status(c).Dropped? then Failed(Transport) else Done(()))
  }

  // ---------------------------------------------------------------- claim

  /** `get_mining_time`: the remaining cooldown, read only from a 200 response. */
  function GetMiningTime(remote: Remote, token: string): (r: Run<I64>)
    ensures Sent(r.effects) == [GetMining(token)]
    ensures r.outcome.Done? <==> remote.status(GetMining(token)) == Answered(true)
    ensures r.outcome.Done? ==> r.outcome.value == remote.remainTime(token)
    ensures remote.status(GetMining(token)) == Answered(false) ==> r.outcome == Failed(GetMiningErr)
    ensures remote.status(GetMining(token)) == Dropped ==> r.outcome == Failed(Transport)
  {
    var c := GetMining(token);
    Run([Send(c)],
      match remote.status(c)
      case Dropped => Failed(Transport)
      case Answered(ok) => if ok then Done(remote.remainTime(token)) else Failed(GetMiningErr))
  }

  /** The cooldown has run out: zero or less. */
  predicate Claimable(remainTime: int)
  {
    remainTime <= 0
  }

  /**
   * `post_claim_gem`: query the cooldown, and claim (after a pause) exactly
   * when the query succeeded and the cooldown is at most zero. A failed
   * query is returned as the error and nothing is claimed.
   */
  function PostClaimGem(remote: Remote, token: string): (r: Run<()>)
    ensures |r.effects| >= 1 && r.effects[0] == Send(GetMining(token))
    ensures Send(ClaimGem(token)) in r.effects
        <==> remote.status(GetMining(token)) == Answered(true) && Claimable(remote.remainTime(token))
    ensures Send(ClaimGem(token)) in r.effects
        ==> r.effects == [Send(GetMining(token)), Sleep(CLAIM_PAUSE), Send(ClaimGem(token))]
    ensures Send(ClaimGem(token)) !in r.effects ==> r.effects == [Send(GetMining(token))]
    ensures remote.status(GetMining(token)) == Answered(true) && !Claimable(remote.remainTime(token))
        ==> r == Run([Send(GetMining(token))], Done(()))
    ensures Send(ClaimGem(token)) in r.effects && remote.status(ClaimGem(token)).Answered?
        ==> r.outcome == Done(())
    ensures Send(ClaimGem(token)) in r.effects && remote.status(ClaimGem(token)).Dropped?
        ==> r.outcome == Failed(Transport)
    ensures GetMiningTime(remote, token).outcome.Failed?
        ==> r.outcome == Failed(GetMiningTime(remote, token).outcome.error)
    ensures r.outcome.Failed? && Send(ClaimGem(token)) in r.effects
        ==> r.outcome.error == Transport && remote.status(ClaimGem(token)).Dropped?
    ensures !r.outcome.Panicked?
  {
    var query := GetMiningTime(remote, token);
    if !query.outcome.Done? then Run(query.effects, query.outcome.Abandon())
    else if Claimable(query.outcome.value) then
      var c := ClaimGem(token);
      Run(query.effects + [Sleep(CLAIM_PAUSE), Send(c)],
        if remote.status(c).Dropped? then Failed(Transport) else Done(()))
    else Run(query.effects, Done(()))
  }

  // ---------------------------------------------------------------- conversion

  /** `get_tap_earn` succeeds on a 200 response whose `message` is `"ok"`. */
  predicate TapReadOk(remote: Remote, token: string)
  {
    remote.status(GetTapEarn(token)) == Answered(true) && remote.tapEarn(token).message == "ok"
  }

  /** `get_tap_earn`: the tap state, or `TapErr` for any other status or message. */
  function ReadTapEarn(remote: Remote, token: string): (r: Run<TapData>)
    ensures Sent(r.effects) == [GetTapEarn(token)]
    ensures r.outcome.Done? <==> TapReadOk(remote, token)
    ensures r.outcome.Done? ==> r.outcome.value == remote.tapEarn(token).data
    ensures remote.status(GetTapEarn(token)).Answered? && !TapReadOk(remote, token)
        ==> r.outcome == Failed(TapErr)
    ensures remote.status(GetTapEarn(token)).Dropped? ==> r.outcome == Failed(Transport)
  {
    var c := GetTapEarn(token);
    Run([Send(c)],
      match remote.status(c)
      case Dropped => Failed(Transport)
      case Answered(ok) =>
        if ok && remote.tapEarn(token).message == "ok" then Done(remote.tapEarn(token).data) else Failed(TapErr))
  }

  /**
   * `((now - number_tap) / 100 | 0) - 100` on `i64`: wrapping subtraction,
   * truncating division, an OR with zero that changes nothing.
   */
  function TotalTap(now: I64, numberTap: I64): (t: I64)
    ensures MIN <= now - numberTap <= MAX ==> t == Div100(now - numberTap) - 100
  {
    var q := Div100(WrappingSub(now, numberTap));
    Or(q, 0) - 100
  }

  /** `total_tap >= min_ec as i64`: the conversion is due. */
  predicate Eligible(tap: TapData, now: I64)
  {
    TotalTap(now, tap.numberTap) >= tap.minEc
  }

  /**
   * The threshold read as elapsed milliseconds: with `e` the wrapped
   * difference, at least `100 * (min_ec + 100)` when `e` is not negative
   * (the equality case converts), and more than `100 * (min_ec + 99)`
   * when it is, since the division then rounds toward zero.
   */
  lemma EligibleElapsed(tap: TapData, now: I64)
    ensures var e := WrappingSub(now, tap.numberTap);
      Eligible(tap, now) <==> if e >= 0 then e >= 100 * (tap.minEc + 100) else e > 100 * (tap.minEc + 99)
  {
    var e := WrappingSub(now, tap.numberTap);
    assert TotalTap(now, tap.numberTap) == Div100(e) - 100;
  }

  /** Reads a numeral and the `-` that follows it off the front of `s`. */
  function ParseField(s: string): Option<(int, string)>
  {
    match ParseInt(s)
    case None => None
    case Some((n, rest)) => if rest != [] && rest[0] == '-' then Some((n, rest[1..])) else None
  }

  /** Reads a signature back into its three numbers. */
  function ParseSignature(s: string): Option<(int, int, int)>
  {
    match ParseField(s)
    case None => None
    case Some((a, r1)) =>
      match ParseField(r1)
      case None => None
      case Some((b, r2)) =>
        match ParseInt(r2)
        case None => None
        case Some((c, r3)) => if r3 == [] then Some((a, b, c)) else None
  }

  lemma ParseFieldOfDecimal(i: int, rest: string)
    ensures ParseField(IntToDecimal(i) + "-" + rest) == Some((i, rest))
  {
    var tail := "-" + rest;
    assert IntToDecimal(i) + "-" + rest == IntToDecimal(i) + tail;
    IntToDecimalParse(i, tail);
    assert tail[1..] == rest;
  }

  /** Three numerals joined by `-` read back as their numbers. */
  lemma ParseSignatureOf(x: int, y: int, z: int)
    ensures ParseSignature(IntToDecimal(x) + "-" + IntToDecimal(y) + "-" + IntToDecimal(z)) == Some((x, y, z))
  {
    var a, b, c := IntToDecimal(x), IntToDecimal(y), IntToDecimal(z);
    var r1 := b + "-" + c;
    var sig := a + "-" + b + "-" + c;
    assert sig == a + "-" + r1;
    ParseFieldOfDecimal(x, r1);
    assert ParseField(sig) == Some((x, r1));
    ParseFieldOfDecimal(y, c);
    assert ParseField(r1) == Some((y, c));
    assert c == c + [];
    IntToDecimalParse(z, []);
    assert ParseInt(c) == Some((z, []));
  }

  /**
   * `concat_str(s, d)`: `"{s}-{ts}-{d}"`, with `ts` the clock read inside
   * it. The signature determines its three numbers, negative ones
   * included.
   */
  function Signature(numberTap: I64, ts: I64, totalTap: I64): (sig: string)
    ensures ParseSignature(sig) == Some((numberTap as int, ts as int, totalTap as int))
  {
    ParseSignatureOf(numberTap, ts, totalTap);
    IntToDecimal(numberTap) + "-" + IntToDecimal(ts) + "-" + IntToDecimal(totalTap)
  }

  /** The conversion request for the tap state the mock returns: the encrypted signature. */
  function ConvertCall(remote: Remote, lib: Library, token: string, clock: Clock): Call
  {
    var tap := remote.tapEarn(token).data;
    var total := TotalTap(clock.first, tap.numberTap);
    ConvertGem(token, lib.rsaEncrypt(Signature(tap.numberTap, clock.second, total)))
  }

  /**
   * `post_convert_gem`: read the tap state; convert (after a pause) exactly
   * when the read succeeded and the tap count reaches `min_ec`. A failed
   * read is returned as the error and nothing is converted.
   */
  function PostConvertGem(remote: Remote, lib: Library, token: string, clock: Clock): (r: Run<()>)
    ensures |r.effects| >= 1 && r.effects[0] == Send(GetTapEarn(token))
    ensures Send(ConvertCall(remote, lib, token, clock)) in r.effects
        <==> TapReadOk(remote, token) && Eligible(remote.tapEarn(token).data, clock.first)
    ensures !TapReadOk(remote, token) ==> r.effects == [Send(GetTapEarn(token))]
    ensures TapReadOk(remote, token) && Eligible(remote.tapEarn(token).data, clock.first)
        ==> r.effects == [Send(GetTapEarn(token)), Sleep(CONVERT_PAUSE), Send(ConvertCall(remote, lib, token, clock))]
    ensures TapReadOk(remote, token) && !Eligible(remote.tapEarn(token).data, clock.first)
        ==> r == Run([Send(GetTapEarn(token))], Done(()))
    ensures TapReadOk(remote, token) && Eligible(remote.tapEarn(token).data, clock.first)
        && remote.status(ConvertCall(remote, lib, token, clock)).Answered?
        ==> r.outcome == Done(())
    ensures TapReadOk(remote, token) && Eligible(remote.tapEarn(token).data, clock.first)
        && remote.status(ConvertCall(remote, lib, token, clock)).Dropped?
        ==> r.outcome == Failed(Transport)
    ensures !TapReadOk(remote, token)
        ==> r.outcome == Failed(if remote.status(GetTapEarn(token)).Dropped? then Transport else TapErr)
    ensures TapReadOk(remote, token) && r.outcome.Failed?
        ==> r.outcome.error == Transport && remote.status(ConvertCall(remote, lib, token, clock)).Dropped?
    ensures !r.outcome.Panicked?
  {
    var read := ReadTapEarn(remote, token);
    if !read.outcome.Done? then Run(read.effects, read.outcome.Abandon())
    else
      var tap := read.outcome.value;
      var total := TotalTap(clock.first, tap.numberTap);
      if Eligible(tap, clock.first) then
        var c := ConvertGem(token, lib.rsaEncrypt(Signature(tap.numberTap, clock.second, total)));
        Run(read.effects + [Sleep(CONVERT_PAUSE), Send(c)],
          if remote.status(c).Dropped? then Failed(Transport) else Done(()))
      else Run(read.effects, Done(()))
  }
}
