/**
 * The batch claims of the six-hour job: every claimable premium pick and
 * every claimable quest, one request at a time with a pause after each.
 * Each claim request is sent with `.unwrap()`, so a failed request panics
 * and ends the batch.
 */
module Batch {
  import opened Int64
  import opened Remote
  import opened Trace

  /** Seconds the bot pauses after each premium-pick claim and after each quest claim. */
  const PICK_PAUSE: nat := 1
  const QUEST_PAUSE: nat := 3

  // ---------------------------------------------------------------- selection

  /** The claim request for every selected item, in list order. */
  function Claims<T>(items: seq<T>, selected: T -> bool, claim: T -> Call): seq<Call>
    decreases |items|
  {
    if items == [] then []
    else
      var last := items[|items| - 1];
      Claims(items[..|items| - 1], selected, claim) + (if selected(last) then [claim(last)] else [])
  }

  /** How many items are selected. */
  function Count<T>(items: seq<T>, selected: T -> bool): nat
    decreases |items|
  {
    if items == [] then 0
    else Count(items[..|items| - 1], selected) + (if selected(items[|items| - 1]) then 1 else 0)
  }

  lemma ClaimsStep<T>(items: seq<T>, i: nat, selected: T -> bool, claim: T -> Call)
    requires i < |items|
    ensures Claims(items[..i + 1], selected, claim)
         == Claims(items[..i], selected, claim) + (if selected(items[i]) then [claim(items[i])] else [])
    ensures Count(items[..i + 1], selected) == Count(items[..i], selected) + (if selected(items[i]) then 1 else 0)
  {
    assert items[..i + 1][..i] == items[..i];
  }

  lemma {:induction false} ClaimsAppend<T>(a: seq<T>, b: seq<T>, selected: T -> bool, claim: T -> Call)
    ensures Claims(a + b, selected, claim) == Claims(a, selected, claim) + Claims(b, selected, claim)
    decreases |b|
  {
    if b == [] {
      assert a + b == a;
    } else {
      var b' := b[..|b| - 1];
      assert (a + b)[..|a + b| - 1] == a + b';
      ClaimsAppend(a, b', selected, claim);
    }
  }

  /**
   * Exactly the selected items are claimed, in list order and each once:
   * there are as many claims as selected items, and the claim for the
   * selected item at index `i` is the one after the claims for the
   * selected items before it.
   */
  lemma {:induction false} ClaimsExact<T>(items: seq<T>, selected: T -> bool, claim: T -> Call)
    ensures |Claims(items, selected, claim)| == Count(items, selected)
    ensures forall i :: 0 <= i < |items| && selected(items[i]) ==>
      Count(items[..i], selected) < |Claims(items, selected, claim)| &&
      Claims(items, selected, claim)[Count(items[..i], selected)] == claim(items[i])
    decreases |items|
  {
    if items != [] {
      var n := |items| - 1;
      var init := items[..n];
      ClaimsExact(init, selected, claim);
      forall i | 0 <= i < |items| && selected(items[i])
        ensures Count(items[..i], selected) < |Claims(items, selected, claim)|
        ensures Claims(items, selected, claim)[Count(items[..i], selected)] == claim(items[i])
      {
        if i < n {
          assert init[i] == items[i];
          assert init[..i] == items[..i];
        } else {
          assert items[..i] == init;
        }
      }
    }
  }

  // ---------------------------------------------------------------- pacing

  /**
   * Sending claims one by one: each request is followed by the pause,
   * and a request that fails panics (`.send().await.unwrap()`), so
   * nothing after it is sent.
   */
  function Paced(remote: Remote, calls: seq<Call>, pause: nat): (r: Run<()>)
    ensures r.outcome.Done? || r.outcome.Panicked?
    decreases |calls|
  {
    if calls == [] then Run([], Done(()))
    else if remote.status(calls[0]).Dropped? then Run([Send(calls[0])], Panicked)
    else Then(Run([Send(calls[0]), Sleep(pause)], Done(())), Paced(remote, calls[1..], pause))
  }

  lemma {:induction false} PacedAppend(remote: Remote, a: seq<Call>, b: seq<Call>, pause: nat)
    ensures Paced(remote, a + b, pause) == Then(Paced(remote, a, pause), Paced(remote, b, pause))
    decreases |a|
  {
    if a == [] {
      assert a + b == b;
    } else {
      assert (a + b)[0] == a[0];
      assert (a + b)[1..] == a[1..] + b;
      PacedAppend(remote, a[1..], b, pause);
    }
  }

  lemma PacedAnswered(remote: Remote, calls: seq<Call>, pause: nat)
    requires calls != [] && remote.status(calls[0]).Answered?
    ensures Paced(remote, calls, pause)
         == Run([Send(calls[0]), Sleep(pause)] + Paced(remote, calls[1..], pause).effects, Paced(remote, calls[1..], pause).outcome)
  {
  }

  /** When every request goes through, every call is sent in order, each followed by the pause. */
  lemma {:induction false} PacedAllSent(remote: Remote, calls: seq<Call>, pause: nat)
    requires forall k :: 0 <= k < |calls| ==> remote.status(calls[k]).Answered?
    ensures Paced(remote, calls, pause).outcome.Done?
    ensures |Paced(remote, calls, pause).effects| == 2 * |calls|
    ensures forall k :: 0 <= k < |calls| ==>
      Paced(remote, calls, pause).effects[2 * k] == Send(calls[k]) &&
      Paced(remote, calls, pause).effects[2 * k + 1] == Sleep(pause)
    decreases |calls|
  {
    if calls != [] {
      PacedAllSent(remote, calls[1..], pause);
      PacedAnswered(remote, calls, pause);
      var rest := Paced(remote, calls[1..], pause).effects;
      var all := Paced(remote, calls, pause).effects;
      forall k | 0 <= k < |calls|
        ensures all[2 * k] == Send(calls[k]) && all[2 * k + 1] == Sleep(pause)
      {
        if k > 0 {
          assert all[2 * k] == rest[2 * (k - 1)];
          assert all[2 * k + 1] == rest[2 * (k - 1) + 1];
        }
      }
    }
  }

  /** ... and so the requests sent are exactly the calls. */
  lemma {:induction false} PacedAllSentCalls(remote: Remote, calls: seq<Call>, pause: nat)
    requires forall k :: 0 <= k < |calls| ==> remote.status(calls[k]).Answered?
    ensures Sent(Paced(remote, calls, pause).effects) == calls
    decreases |calls|
  {
    if calls != [] {
      PacedAllSentCalls(remote, calls[1..], pause);
      PacedAnswered(remote, calls, pause);
      var rest := Paced(remote, calls[1..], pause).effects;
      SentAppend([Send(calls[0]), Sleep(pause)], rest);
      assert Sent([Send(calls[0]), Sleep(pause)]) == [calls[0]];
      assert calls == [calls[0]] + calls[1..];
    }
  }

  /** When request `j` is the first that fails, the batch panics right after sending it. */
  lemma {:induction false} PacedFirstDropped(remote: Remote, calls: seq<Call>, pause: nat, j: nat)
    requires j < |calls| && remote.status(calls[j]).Dropped?
    requires forall k :: 0 <= k < j ==> remote.status(calls[k]).Answered?
    ensures Paced(remote, calls, pause).outcome.Panicked?
    ensures Paced(remote, calls, pause).effects == Paced(remote, calls[..j], pause).effects + [Send(calls[j])]
    ensures Sent(Paced(remote, calls, pause).effects) == calls[..j + 1]
  {
    var before := calls[..j];
    assert calls == before + calls[j..];
    PacedAppend(remote, before, calls[j..], pause);
    PacedAllSent(remote, before, pause);
    PacedAllSentCalls(remote, before, pause);
    assert calls[j..][0] == calls[j];
    SentAppend(Paced(remote, before, pause).effects, [Send(calls[j])]);
    assert Sent([Send(calls[j])]) == [calls[j]];
    assert calls[..j + 1] == before + [calls[j]];
  }

  /** A batch sends only its own calls and sleeps only its own pause. */
  lemma {:induction false} PacedSendsOnly(remote: Remote, calls: seq<Call>, pause: nat)
    ensures forall i :: 0 <= i < |Paced(remote, calls, pause).effects| ==>
      Paced(remote, calls, pause).effects[i] == Sleep(pause)
      || (Paced(remote, calls, pause).effects[i].Send? && Paced(remote, calls, pause).effects[i].call in calls)
    decreases |calls|
  {
    if calls != [] && remote.status(calls[0]).Answered? {
      PacedSendsOnly(remote, calls[1..], pause);
      PacedAnswered(remote, calls, pause);
      var rest := Paced(remote, calls[1..], pause).effects;
      var all := Paced(remote, calls, pause).effects;
      assert calls == [calls[0]] + calls[1..];
      forall i | 2 <= i < |all|
        ensures all[i] == Sleep(pause) || (all[i].Send? && all[i].call in calls)
      {
        assert all[i] == rest[i - 2];
      }
    }
  }

  /** What holds of every possible claim holds of every claim made. */
  lemma {:induction false} ClaimsKeep<T>(items: seq<T>, selected: T -> bool, claim: T -> Call, p: Call -> bool)
    requires forall x :: p(claim(x))
    ensures forall k :: 0 <= k < |Claims(items, selected, claim)| ==> p(Claims(items, selected, claim)[k])
    decreases |items|
  {
    if items != [] {
      ClaimsKeep(items[..|items| - 1], selected, claim, p);
    }
  }

  /** The loop behind both batch claims: walks `items` in order and claims each selected one. */
  method ClaimSelected<T>(remote: Remote, items: seq<T>, selected: T -> bool, claim: T -> Call, pause: nat)
    returns (r: Run<()>)
    ensures r == Paced(remote, Claims(items, selected, claim), pause)
  {
    var done: seq<Effect> := [];
    var i := 0;
    while i < |items|
      invariant 0 <= i <= |items|
      invariant Paced(remote, Claims(items[..i], selected, claim), pause) == Run(done, Done(()))
    {
      var item := items[i];
      ClaimsStep(items, i, selected, claim);
      if selected(item) {
        var c := claim(item);
        PacedAppend(remote, Claims(items[..i], selected, claim), [c], pause);
        assert [c][1..] == [];
        if remote.status(c).Dropped? {
          done := done + [Send(c)];
          var sofar := items[..i + 1];
          assert items == sofar + items[i + 1..];
          ClaimsAppend(sofar, items[i + 1..], selected, claim);
          PacedAppend(remote, Claims(sofar, selected, claim), Claims(items[i + 1..], selected, claim), pause);
          return Run(done, Panicked);
        }
        done := done + [Send(c), Sleep(pause)];
      } else {
        assert Claims(items[..i], selected, claim) + [] == Claims(items[..i], selected, claim);
      }
      i := i + 1;
    }
    assert items[..i] == items;
    r := Run(done, Done(()));
  }

  // ---------------------------------------------------------------- premium picks

  /** `packageName` of every package with `canClaim`, in array order. */
  function PickClaims(token: string, packages: seq<Package>): seq<Call>
  {
    Claims(packages, (p: Package) => p.canClaim, (p: Package) => PostPremiumPick(token, p.name))
  }

  /**
   * What `claim_premium_pick` does: list the packages, then claim, on a
   * 200 response only. The only error is a failed listing request; a
   * listing with another status ends normally with nothing claimed.
   */
  function PremiumPickRun(remote: Remote, token: string): (r: Run<()>)
    ensures |r.effects| >= 1 && r.effects[0] == Send(GetPremiumPick(token))
    ensures r.outcome.Failed? <==> remote.status(GetPremiumPick(token)) == Dropped
    ensures r.outcome.Failed? ==> r.outcome.error == Transport
    ensures remote.status(GetPremiumPick(token)) == Answered(false) ==> r == Run([Send(GetPremiumPick(token))], Done(()))
  {
    var list := GetPremiumPick(token);
    match remote.status(list)
    case Dropped => Run([Send(list)], Failed(Transport))
    case Answered(ok) =>
      if ok then Then(Run([Send(list)], Done(())), Paced(remote, PickClaims(token, remote.premiumPicks(token)), PICK_PAUSE))
      else Run([Send(list)], Done(()))
  }

  /** `claim_premium_pick`. */
  method ClaimPremiumPick(remote: Remote, token: string) returns (r: Run<()>)
    ensures r == PremiumPickRun(remote, token)
  {
    var list := GetPremiumPick(token);
    var status := remote.status(list);
    if status.Dropped? {
      return Run([Send(list)], Failed(Transport));
    }
    if !status.ok {
      return Run([Send(list)], Done(()));
    }
    var claims := ClaimSelected(remote, remote.premiumPicks(token),
      (p: Package) => p.canClaim, (p: Package) => PostPremiumPick(token, p.name), PICK_PAUSE);
    r := Then(Run([Send(list)], Done(())), claims);
  }

  /**
   * On a 200 listing, the picks claimed are exactly the claimable
   * packages, in array order, each under its own name, up to the first
   * request that fails; when none fails there is one claim per claimable
   * package and the run ends normally. Any other listing claims nothing.
   */
  lemma PremiumPickClaims(remote: Remote, token: string)
    ensures var run := PremiumPickRun(remote, token);
      var claims := PickClaims(token, remote.premiumPicks(token));
      Sent(run.effects)[..1] == [GetPremiumPick(token)] &&
      (remote.status(GetPremiumPick(token)) != Answered(true) ==> Sent(run.effects) == [GetPremiumPick(token)]) &&
      (remote.status(GetPremiumPick(token)) == Answered(true) &&
       (forall k :: 0 <= k < |claims| ==> remote.status(claims[k]).Answered?) ==>
         run.outcome.Done? && Sent(run.effects) == [GetPremiumPick(token)] + claims &&
         |claims| == Count(remote.premiumPicks(token), (p: Package) => p.canClaim))
  {
    var list := GetPremiumPick(token);
    var claims := PickClaims(token, remote.premiumPicks(token));
    var run := PremiumPickRun(remote, token);
    if remote.status(list) == Answered(true) {
      SentAppend([Send(list)], Paced(remote, claims, PICK_PAUSE).effects);
      if forall k :: 0 <= k < |claims| ==> remote.status(claims[k]).Answered? {
        PacedAllSent(remote, claims, PICK_PAUSE);
        PacedAllSentCalls(remote, claims, PICK_PAUSE);
        ClaimsExact(remote.premiumPicks(token), (p: Package) => p.canClaim, (p: Package) => PostPremiumPick(token, p.name));
      }
    }
  }

  // ---------------------------------------------------------------- quests

  predicate QuestClaimable(q: Quest)
  {
    q.status == "claimable"
  }

  /** The quest reward request for every claimable quest of one category, in list order. */
  function QuestClaims(token: string, quests: seq<Quest>): seq<Call>
  {
    Claims(quests, QuestClaimable, (q: Quest) => PostQuestReward(token, q.id))
  }

  /** The categories in the order the bot visits them. */
  function Categories(lists: QuestLists): seq<seq<Quest>>
  {
    [lists.daily, lists.event, lists.top, lists.weekly]
  }

  /** The claims of the given categories, one category after the other. */
  function CategoryClaims(token: string, cats: seq<seq<Quest>>): seq<Call>
    decreases |cats|
  {
    if cats == [] then [] else CategoryClaims(token, cats[..|cats| - 1]) + QuestClaims(token, cats[|cats| - 1])
  }

  /** All quest claims: daily, then event, then top, then weekly. */
  function AllQuestClaims(token: string, lists: QuestLists): seq<Call>
  {
    QuestClaims(token, lists.daily) + QuestClaims(token, lists.event)
      + QuestClaims(token, lists.top) + QuestClaims(token, lists.weekly)
  }

  lemma {:induction false} CategoryClaimsAppend(token: string, a: seq<seq<Quest>>, b: seq<seq<Quest>>)
    ensures CategoryClaims(token, a + b) == CategoryClaims(token, a) + CategoryClaims(token, b)
    decreases |b|
  {
    if b == [] {
      assert a + b == a;
    } else {
      var b', last := b[..|b| - 1], b[|b| - 1];
      var ab := a + b;
      assert ab[..|ab| - 1] == a + b';
      assert ab[|ab| - 1] == last;
      CategoryClaimsAppend(token, a, b');
      assert CategoryClaims(token, ab) == CategoryClaims(token, a + b') + QuestClaims(token, last);
      assert CategoryClaims(token, b) == CategoryClaims(token, b') + QuestClaims(token, last);
    }
  }

  lemma AllQuestClaimsByCategory(token: string, lists: QuestLists)
    ensures AllQuestClaims(token, lists) == CategoryClaims(token, Categories(lists))
  {
    var d, e, t, w := lists.daily, lists.event, lists.top, lists.weekly;
    assert [d][..0] == [];
    assert CategoryClaims(token, [d]) == QuestClaims(token, d);
    assert [d, e][..1] == [d];
    assert CategoryClaims(token, [d, e]) == QuestClaims(token, d) + QuestClaims(token, e);
    assert [d, e, t][..2] == [d, e];
    assert CategoryClaims(token, [d, e, t]) == QuestClaims(token, d) + QuestClaims(token, e) + QuestClaims(token, t);
    assert [d, e, t, w][..3] == [d, e, t];
  }

  /**
   * Exactly the claimable quests are claimed, each with its own `id`:
   * category `c` (0 daily, 1 event, 2 top, 3 weekly) comes after all
   * claims of the earlier categories, and within it claims follow list
   * order.
   */
  lemma QuestClaimPosition(token: string, lists: QuestLists, c: nat, i: nat)
    requires c < 4 && i < |Categories(lists)[c]| && QuestClaimable(Categories(lists)[c][i])
    ensures var cats := Categories(lists);
      var at := |CategoryClaims(token, cats[..c])| + Count(cats[c][..i], QuestClaimable);
      at < |AllQuestClaims(token, lists)| &&
      AllQuestClaims(token, lists)[at] == PostQuestReward(token, cats[c][i].id)
  {
    var cats := Categories(lists);
    AllQuestClaimsByCategory(token, lists);
    assert cats == cats[..c] + [cats[c]] + cats[c + 1..];
    CategoryClaimsAppend(token, cats[..c] + [cats[c]], cats[c + 1..]);
    CategoryClaimsAppend(token, cats[..c], [cats[c]]);
    assert [cats[c]][..0] == [];
    assert CategoryClaims(token, [cats[c]]) == QuestClaims(token, cats[c]);
    ClaimsExact(cats[c], QuestClaimable, (q: Quest) => PostQuestReward(token, q.id));
  }

  /** One claim per claimable quest over all four categories. */
  lemma QuestClaimCount(token: string, lists: QuestLists)
    ensures |AllQuestClaims(token, lists)| ==
      Count(lists.daily, QuestClaimable) + Count(lists.event, QuestClaimable)
      + Count(lists.top, QuestClaimable) + Count(lists.weekly, QuestClaimable)
  {
    var claim := (q: Quest) => PostQuestReward(token, q.id);
    ClaimsExact(lists.daily, QuestClaimable, claim);
    ClaimsExact(lists.event, QuestClaimable, claim);
    ClaimsExact(lists.top, QuestClaimable, claim);
    ClaimsExact(lists.weekly, QuestClaimable, claim);
  }

  /**
   * What `claim_daily_quest` does: list the quests, then claim, on a 200
   * response only. The only error is a failed listing request; a listing
   * with another status ends normally with nothing claimed.
   */
  function DailyQuestRun(remote: Remote, token: string): (r: Run<()>)
    ensures |r.effects| >= 1 && r.effects[0] == Send(GetListQuest(token))
    ensures r.outcome.Failed? <==> remote.status(GetListQuest(token)) == Dropped
    ensures r.outcome.Failed? ==> r.outcome.error == Transport
    ensures remote.status(GetListQuest(token)) == Answered(false) ==> r == Run([Send(GetListQuest(token))], Done(()))
  {
    var list := GetListQuest(token);
    match remote.status(list)
    case Dropped => Run([Send(list)], Failed(Transport))
    case Answered(ok) =>
      if ok then Then(Run([Send(list)], Done(())), Paced(remote, AllQuestClaims(token, remote.questLists(token)), QUEST_PAUSE))
      else Run([Send(list)], Done(()))
  }

  /**
   * On a 200 listing, the quests claimed are exactly the claimable ones,
   * category after category and in list order, up to the first request
   * that fails; when none fails every claim is sent and the run ends
   * normally. Any other listing claims nothing.
   */
  lemma DailyQuestClaims(remote: Remote, token: string)
    ensures var run := DailyQuestRun(remote, token);
      var claims := AllQuestClaims(token, remote.questLists(token));
      Sent(run.effects)[..1] == [GetListQuest(token)] &&
      (remote.status(GetListQuest(token)) != Answered(true) ==> Sent(run.effects) == [GetListQuest(token)]) &&
      (remote.status(GetListQuest(token)) == Answered(true) &&
       (forall k :: 0 <= k < |claims| ==> remote.status(claims[k]).Answered?) ==>
         run.outcome.Done? && Sent(run.effects) == [GetListQuest(token)] + claims)
  {
    var list := GetListQuest(token);
    var claims := AllQuestClaims(token, remote.questLists(token));
    if remote.status(list) == Answered(true) {
      SentAppend([Send(list)], Paced(remote, claims, QUEST_PAUSE).effects);
      if forall k :: 0 <= k < |claims| ==> remote.status(claims[k]).Answered? {
        PacedAllSent(remote, claims, QUEST_PAUSE);
        PacedAllSentCalls(remote, claims, QUEST_PAUSE);
      }
    }
  }

  /** On a 200 listing, the quest run is the listing followed by the four category batches in turn. */
  lemma DailyQuestSteps(remote: Remote, token: string)
    requires remote.status(GetListQuest(token)) == Answered(true)
    ensures var lists := remote.questLists(token);
      DailyQuestRun(remote, token) == Then(Run([Send(GetListQuest(token))], Done(())),
        Then(Then(Then(Paced(remote, QuestClaims(token, lists.daily), QUEST_PAUSE),
                       Paced(remote, QuestClaims(token, lists.event), QUEST_PAUSE)),
                  Paced(remote, QuestClaims(token, lists.top), QUEST_PAUSE)),
             Paced(remote, QuestClaims(token, lists.weekly), QUEST_PAUSE)))
  {
    var lists := remote.questLists(token);
    var d, e, t := QuestClaims(token, lists.daily), QuestClaims(token, lists.event), QuestClaims(token, lists.top);
    PacedAppend(remote, d + e + t, QuestClaims(token, lists.weekly), QUEST_PAUSE);
    PacedAppend(remote, d + e, t, QUEST_PAUSE);
    PacedAppend(remote, d, e, QUEST_PAUSE);
  }

  /**
   * `claim_daily_quest`: the four category loops, one after the other; a
   * claim that panics ends the run before the next category.
   */
  method ClaimDailyQuest(remote: Remote, token: string) returns (r: Run<()>)
    ensures r == DailyQuestRun(remote, token)
  {
    var list := GetListQuest(token);
    var status := remote.status(list);
    if status.Dropped? {
      return Run([Send(list)], Failed(Transport));
    }
    if !status.ok {
      return Run([Send(list)], Done(()));
    }
    DailyQuestSteps(remote, token);
    var lists := remote.questLists(token);
    var claim := (q: Quest) => PostQuestReward(token, q.id);
    var start := Run([Send(list)], Done(()));
    var daily := ClaimSelected(remote, lists.daily, QuestClaimable, claim, QUEST_PAUSE);
    if daily.outcome.Panicked? {
      return Run(start.effects + daily.effects, Panicked);
    }
    var event := ClaimSelected(remote, lists.event, QuestClaimable, claim, QUEST_PAUSE);
    var de := Then(daily, event);
    if event.outcome.Panicked? {
      return Run(start.effects + de.effects, Panicked);
    }
    var top := ClaimSelected(remote, lists.top, QuestClaimable, claim, QUEST_PAUSE);
    var det := Then(de, top);
    if top.outcome.Panicked? {
      return Run(start.effects + det.effects, Panicked);
    }
    var weekly := ClaimSelected(remote, lists.weekly, QuestClaimable, claim, QUEST_PAUSE);
    r := Then(start, Then(det, weekly));
  }
}
