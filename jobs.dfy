/**
 * The three recurring jobs `main` registers for every account, and what
 * one execution of each does. Every step's error is logged and dropped
 * (`.map_err(..).ok()`), so a job body never fails; only a panic ends it
 * early.
 */
module Jobs {
  import opened Remote
  import opened Trace
  import opened Session
  import opened Batch

  datatype Action = CheckInJob | ClaimJob | ConvertJob

  /**
   * A registered job: whose token it uses, what it does, how often it
   * fires and how long its body sleeps before starting (seconds).
   */
  datatype Job = Job(account: string, token: string, action: Action, every: nat, pause: nat)

  const CHECK_IN_EVERY: nat := 60 * 60 * 12
  const CLAIM_EVERY: nat := 60 * 60 * 6
  const CONVERT_EVERY: nat := 60 * 2
  const CHECK_IN_PAUSE: nat := 1
  const CLAIM_JOB_PAUSE: nat := 3
  const CONVERT_JOB_PAUSE: nat := 5

  /**
   * The jobs one account registers, in registration order: all bound to
   * the account's name and token, a 12 h check-in after 1 s, a 6 h claim
   * after 3 s and a 2 min conversion after 5 s.
   */
  function AccountJobs(name: string, token: string): (jobs: seq<Job>)
    ensures |jobs| == 3
    ensures forall k :: 0 <= k < 3 ==> jobs[k].account == name && jobs[k].token == token
    ensures jobs[0].action == CheckInJob && jobs[0].every == 43200 && jobs[0].pause == 1
    ensures jobs[1].action == ClaimJob && jobs[1].every == 21600 && jobs[1].pause == 3
    ensures jobs[2].action == ConvertJob && jobs[2].every == 120 && jobs[2].pause == 5
  {
    [ Job(name, token, CheckInJob, CHECK_IN_EVERY, CHECK_IN_PAUSE),
      Job(name, token, ClaimJob, CLAIM_EVERY, CLAIM_JOB_PAUSE),
      Job(name, token, ConvertJob, CONVERT_EVERY, CONVERT_JOB_PAUSE) ]
  }

  /** One execution of the six-hour job after its pause: claim, then premium picks, then quests. */
  function ClaimSteps(remote: Remote, token: string): Run<()>
  {
    Then(Swallow(PostClaimGem(remote, token)),
      Then(Swallow(PremiumPickRun(remote, token)), Swallow(DailyQuestRun(remote, token))))
  }

  /**
   * One execution of a job's body: its pause first, then its steps. Every
   * step's error is dropped where it occurs, so the body never returns an
   * error, and only the claim job, whose batches `unwrap`, can panic.
   */
  function JobRun(job: Job, remote: Remote, lib: Library, clock: Clock): (r: Run<()>)
    ensures |r.effects| >= 1 && r.effects[0] == Sleep(job.pause)
    ensures !r.outcome.Failed?
    ensures job.action != ClaimJob ==> r.outcome.Done?
    ensures job.action == CheckInJob ==> r == Run([Sleep(job.pause)] + PostCheckIn(remote, job.token).effects, Done(()))
  {
    var pause := Run([Sleep(job.pause)], Done(()));
    match job.action
    case CheckInJob => Then(pause, Swallow(PostCheckIn(remote, job.token)))
    case ClaimJob => Then(pause, ClaimSteps(remote, job.token))
    case ConvertJob => Then(pause, Swallow(PostConvertGem(remote, lib, job.token, clock)))
  }

  /** The closure a job runs on every tick, step by step as the source awaits them. */
  method RunJob(job: Job, remote: Remote, lib: Library, clock: Clock) returns (r: Run<()>)
    ensures r == JobRun(job, remote, lib, clock)
  {
    var effects := [Sleep(job.pause)];
    match job.action {
      case CheckInJob =>
        var s := PostCheckIn(remote, job.token);
        r := Run(effects + s.effects, Done(()));
      case ConvertJob =>
        var s := PostConvertGem(remote, lib, job.token, clock);
        r := Run(effects + s.effects, Done(()));
      case ClaimJob =>
        var s := RunClaimSteps(remote, job.token);
        r := Run(effects + s.effects, s.outcome);
    }
  }

  /** The six-hour job's steps after its pause: each step's error is dropped, a panic ends the job. */
  method RunClaimSteps(remote: Remote, token: string) returns (r: Run<()>)
    ensures r == ClaimSteps(remote, token)
  {
    ClaimStepsEffects(remote, token);
    var claim := PostClaimGem(remote, token);
    var effects := claim.effects;
    var picks := ClaimPremiumPick(remote, token);
    effects := effects + picks.effects;
    if picks.outcome.Panicked? {
      return Run(effects, Panicked);
    }
    var quests := ClaimDailyQuest(remote, token);
    effects := effects + quests.effects;
    r := Run(effects, if quests.outcome.Panicked? then Panicked else Done(()));
  }

  /**
   * The six-hour job: after its pause it always runs the claim and the
   * premium-pick listing, whatever the claim returned; the quest listing
   * runs exactly when the premium-pick batch did not panic.
   */
  lemma ClaimJobSequence(job: Job, remote: Remote, lib: Library, clock: Clock)
    requires job.action == ClaimJob
    ensures var r := JobRun(job, remote, lib, clock);
      var claim, picks, quests := PostClaimGem(remote, job.token), PremiumPickRun(remote, job.token), DailyQuestRun(remote, job.token);
      && r.effects == [Sleep(job.pause)] + claim.effects + picks.effects + (if picks.outcome.Panicked? then [] else quests.effects)
      && Send(GetMining(job.token)) in r.effects
      && Send(GetPremiumPick(job.token)) in r.effects
      && (Send(GetListQuest(job.token)) in r.effects <==> !picks.outcome.Panicked?)
  {
    var token := job.token;
    var claim, picks, quests := PostClaimGem(remote, token), PremiumPickRun(remote, token), DailyQuestRun(remote, token);
    ClaimStepsEffects(remote, token);
    ClaimJobRun(job, remote, lib, clock);
    assert JobRun(job, remote, lib, clock).effects
        == [Sleep(job.pause)] + claim.effects + picks.effects + (if picks.outcome.Panicked? then [] else quests.effects);
    ClaimStepsSends(remote, token);
    ClaimOrder(Sleep(job.pause), claim.effects, picks.effects, quests.effects, picks.outcome.Panicked?, token);
  }

  /** The request each of the claim steps always sends, and where the quest listing can and cannot appear. */
  lemma ClaimStepsSends(remote: Remote, token: string)
    ensures var claim, picks, quests := PostClaimGem(remote, token), PremiumPickRun(remote, token), DailyQuestRun(remote, token);
      && Send(GetMining(token)) in claim.effects && Send(GetListQuest(token)) !in claim.effects
      && Send(GetPremiumPick(token)) in picks.effects
      && (picks.outcome.Panicked? ==> Send(GetListQuest(token)) !in picks.effects)
      && Send(GetListQuest(token)) in quests.effects
  {
    var picks := PremiumPickRun(remote, token);
    if picks.outcome.Panicked? {
      PremiumPickSends(remote, token);
    }
  }

  /** Which requests a pause, a claim, a premium-pick batch and (unless it panicked) a quest batch send between them. */
  lemma ClaimOrder(pause: Effect, claim: seq<Effect>, picks: seq<Effect>, quests: seq<Effect>, panicked: bool, token: string)
    requires pause.Sleep?
    requires Send(GetMining(token)) in claim && Send(GetListQuest(token)) !in claim
    requires Send(GetPremiumPick(token)) in picks && (panicked ==> Send(GetListQuest(token)) !in picks)
    requires Send(GetListQuest(token)) in quests
    ensures var e := [pause] + claim + picks + (if panicked then [] else quests);
      && Send(GetMining(token)) in e
      && Send(GetPremiumPick(token)) in e
      && (Send(GetListQuest(token)) in e <==> !panicked)
  {
  }

  /** The conversion job's body is its pause, then one conversion attempt, whose error is dropped. */
  lemma ConvertJobRun(job: Job, remote: Remote, lib: Library, clock: Clock)
    requires job.action == ConvertJob
    ensures JobRun(job, remote, lib, clock)
         == Run([Sleep(job.pause)] + PostConvertGem(remote, lib, job.token, clock).effects, Done(()))
  {
  }

  /** The six-hour job's body is its pause, then its steps. */
  lemma ClaimJobRun(job: Job, remote: Remote, lib: Library, clock: Clock)
    requires job.action == ClaimJob
    ensures JobRun(job, remote, lib, clock).effects == [Sleep(job.pause)] + ClaimSteps(remote, job.token).effects
  {
  }

  /** The claim steps' effects: the claim's, the premium picks', and the quests' unless the premium batch panicked. */
  lemma ClaimStepsEffects(remote: Remote, token: string)
    ensures var claim, picks, quests := PostClaimGem(remote, token), PremiumPickRun(remote, token), DailyQuestRun(remote, token);
      && ClaimSteps(remote, token).effects == claim.effects + picks.effects + (if picks.outcome.Panicked? then [] else quests.effects)
      && ClaimSteps(remote, token).outcome
         == if picks.outcome.Panicked? || quests.outcome.Panicked? then Panicked else Done(())
  {
    var claim := PostClaimGem(remote, token);
    assert !claim.outcome.Panicked?;
    SwallowedSteps(claim, PremiumPickRun(remote, token), DailyQuestRun(remote, token));
  }

  /** Three steps whose errors are dropped, the first of which cannot panic: the third runs unless the second panicked. */
  lemma SwallowedSteps<A, B, C>(first: Run<A>, second: Run<B>, third: Run<C>)
    requires !first.outcome.Panicked?
    ensures var r := Then(Swallow(first), Then(Swallow(second), Swallow(third)));
      && r.effects == first.effects + second.effects + (if second.outcome.Panicked? then [] else third.effects)
      && r.outcome == if second.outcome.Panicked? || third.outcome.Panicked? then Panicked else Done(())
  {
    if !second.outcome.Panicked? {
      assert first.effects + (second.effects + third.effects) == first.effects + second.effects + third.effects;
    } else {
      assert first.effects + second.effects + [] == first.effects + second.effects;
    }
  }

  /** The premium-pick run sends only its listing and premium-pick claims. */
  lemma PremiumPickSends(remote: Remote, token: string)
    ensures forall i :: 0 <= i < |PremiumPickRun(remote, token).effects| ==>
      PremiumPickRun(remote, token).effects[i] == Send(GetPremiumPick(token))
      || PremiumPickRun(remote, token).effects[i].Sleep?
      || (PremiumPickRun(remote, token).effects[i].Send? && PremiumPickRun(remote, token).effects[i].call.PostPremiumPick?)
  {
    var claims := PickClaims(token, remote.premiumPicks(token));
    PacedSendsOnly(remote, claims, PICK_PAUSE);
    ClaimsKeep(remote.premiumPicks(token), (p: Package) => p.canClaim, (p: Package) => PostPremiumPick(token, p.name),
      (c: Call) => c.PostPremiumPick?);
  }
}
