/**
 * `main`: for every account in `user.json`, make sure it has a token
 * (logging in with its link when it has none), check in and claim once,
 * and register its three recurring jobs; then write the accounts back,
 * tokens included, and start the scheduler. Any `unwrap` that fails on
 * the way panics and ends the program before the file is written.
 */
module Startup {
  import opened Wrappers
  import opened Config
  import opened Remote
  import opened Trace
  import opened Session
  import opened Login
  import opened Jobs

  /** The invite code used when an account has none. */
  const DEFAULT_INVITE_CODE: string := "null"

  /** The job scheduler: the jobs registered so far, and whether it was started. */
  class Scheduler {
    var jobs: seq<Job>
    var started: bool

    constructor ()
      ensures jobs == [] && !started
    {
      jobs := [];
      started := false;
    }

    /** `sched.add(job)`. */
    method Add(job: Job)
      modifies this
      ensures jobs == old(jobs) + [job]
      ensures started == old(started)
    {
      jobs := jobs + [job];
    }

    /** `sched.start()`. */
    method Start()
      modifies this
      ensures started
      ensures jobs == old(jobs)
    {
      started := true;
    }
  }

  // ---------------------------------------------------------------- one account

  /**
   * The token step of the loop: an account with a token is kept as it is;
   * otherwise it logs in with its link and its invite code (`"null"` when
   * it has none) and keeps the token. A missing link or a failed login
   * panics.
   */
  function Resolve(remote: Remote, lib: Library, user: User): (r: Run<User>)
    ensures !r.outcome.Failed?
    ensures user.accessToken.Some? ==> r == Run([], Done(user))
    ensures user.accessToken.None? && user.link.None? ==> r == Run([], Panicked)
    ensures user.accessToken.None? && user.link.Some? ==>
      var login := Login.Login(remote, lib, user.link.value, user.inviteCode.GetOr(DEFAULT_INVITE_CODE));
      && r.effects == login.effects
      && (r.outcome.Done? <==> login.outcome.Done?)
      && (login.outcome.Done? ==> r.outcome.value == user.(accessToken := Some(login.outcome.value)))
    ensures r.outcome.Done? ==>
      r.outcome.value.accessToken.Some? && r.outcome.value.link == user.link && r.outcome.value.inviteCode == user.inviteCode
  {
    if user.accessToken.Some? then Run([], Done(user))
    else if user.link.None? then Run([], Panicked)
    else
      var login := Login.Login(remote, lib, user.link.value, user.inviteCode.GetOr(DEFAULT_INVITE_CODE));
      if login.outcome.Done? then Run(login.effects, Done(user.(accessToken := Some(login.outcome.value))))
      else Run(login.effects, Panicked)
  }

  /** The account gets through the token step. */
  predicate StartsUp(remote: Remote, lib: Library, user: User)
  {
    Resolve(remote, lib, user).outcome.Done?
  }

  /** The account as it is written back: with its token. */
  function Resolved(remote: Remote, lib: Library, user: User): User
    requires StartsUp(remote, lib, user)
  {
    Resolve(remote, lib, user).outcome.value
  }

  /** The token a resolved account runs with. */
  function Token(user: User): string
    requires user.accessToken.Some?
  {
    user.accessToken.value
  }

  /**
   * One pass of the loop body before the jobs are registered: the token
   * step, then (only when it succeeded) one check-in and one claim, whose
   * errors are logged and dropped.
   */
  function AccountStartup(remote: Remote, lib: Library, user: User): (r: Run<User>)
    ensures r.outcome == Resolve(remote, lib, user).outcome
    ensures |Resolve(remote, lib, user).effects| <= |r.effects|
    ensures r.effects[..|Resolve(remote, lib, user).effects|] == Resolve(remote, lib, user).effects
    ensures r.outcome.Done? ==>
      var token := Token(r.outcome.value);
      && Send(CheckIn(token)) in r.effects
      && Send(GetMining(token)) in r.effects
      && r.effects == Resolve(remote, lib, user).effects + PostCheckIn(remote, token).effects + PostClaimGem(remote, token).effects
    ensures !r.outcome.Done? ==> r.effects == Resolve(remote, lib, user).effects
  {
    AfterToken(remote, Resolve(remote, lib, user))
  }

  /** The check-in and the claim that follow a token step that succeeded. */
  function AfterToken(remote: Remote, resolved: Run<User>): (r: Run<User>)
    requires resolved.outcome.Done? ==> resolved.outcome.value.accessToken.Some?
    ensures r.outcome == resolved.outcome
    ensures |resolved.effects| <= |r.effects| && r.effects[..|resolved.effects|] == resolved.effects
    ensures r.outcome.Done? ==>
      var token := Token(r.outcome.value);
      && Send(CheckIn(token)) in r.effects
      && Send(GetMining(token)) in r.effects
      && r.effects == resolved.effects + PostCheckIn(remote, token).effects + PostClaimGem(remote, token).effects
    ensures !r.outcome.Done? ==> r.effects == resolved.effects
  {
    if !resolved.outcome.Done? then resolved
    else
      var token := Token(resolved.outcome.value);
      var check, claim := PostCheckIn(remote, token), PostClaimGem(remote, token);
      var effects := resolved.effects + check.effects + claim.effects;
      assert check.effects == [Send(CheckIn(token))];
      assert Send(CheckIn(token)) in check.effects && Send(GetMining(token)) in claim.effects;
      assert effects[..|resolved.effects|] == resolved.effects;
      Run(effects, resolved.outcome)
  }

  /** An effect of the loop itself: a request or a pause. */
  predicate Io(e: Effect)
  {
    e.Send? || e.Sleep?
  }

  /** A startup step only sends requests and pauses; it neither writes the file nor starts the scheduler. */
  lemma AccountStartupIo(remote: Remote, lib: Library, user: User)
    ensures forall i :: 0 <= i < |AccountStartup(remote, lib, user).effects| ==> Io(AccountStartup(remote, lib, user).effects[i])
  {
    var resolved := Resolve(remote, lib, user);
    ResolveSends(remote, lib, user);
    if resolved.outcome.Done? {
      var token := Token(resolved.outcome.value);
      var check, claim := PostCheckIn(remote, token).effects, PostClaimGem(remote, token).effects;
      assert forall i :: 0 <= i < |check| ==> Io(check[i]);
      assert forall i :: 0 <= i < |claim| ==> Io(claim[i]);
      IoAppend(resolved.effects, check);
      IoAppend(resolved.effects + check, claim);
    }
  }

  /** The token step only sends requests. */
  lemma ResolveSends(remote: Remote, lib: Library, user: User)
    ensures forall i :: 0 <= i < |Resolve(remote, lib, user).effects| ==> Io(Resolve(remote, lib, user).effects[i])
  {
    if user.accessToken.None? && user.link.Some? {
      var login := Login.Login(remote, lib, user.link.value, user.inviteCode.GetOr(DEFAULT_INVITE_CODE));
      assert forall i :: 0 <= i < |login.effects| ==> login.effects[i].Send?;
    }
  }

  lemma IoAppend(a: seq<Effect>, b: seq<Effect>)
    requires forall i :: 0 <= i < |a| ==> Io(a[i])
    requires forall i :: 0 <= i < |b| ==> Io(b[i])
    ensures forall i :: 0 <= i < |a + b| ==> Io((a + b)[i])
  {
  }

  // ---------------------------------------------------------------- the loop

  /** Where the loop stands: what it did, the accounts to write back, the jobs registered, whether it panicked. */
  datatype Progress = Progress(effects: seq<Effect>, copy: map<string, User>, jobs: seq<Job>, panicked: bool)

  /** A pass gets past the token step and the token's `unwrap`. */
  predicate Ok(r: Run<User>)
  {
    r.outcome.Done? && r.outcome.value.accessToken.Some?
  }

  /**
   * The loop over the accounts in the order `order` (the map's iteration
   * order) up to the first panic, with `step` as the first part of each
   * pass. A pass that gets through records the account in the copy and
   * registers its three jobs.
   */
  function Loop(users: map<string, User>, order: seq<string>, step: User -> Run<User>): (r: Progress)
    requires forall k :: 0 <= k < |order| ==> order[k] in users
    ensures forall n :: n in r.copy ==> n in order
    ensures !r.panicked ==> |r.jobs| == 3 * |order|
    decreases |order|
  {
    if order == [] then Progress([], map[], [], false)
    else
      var prev := Loop(users, order[..|order| - 1], step);
      var name := order[|order| - 1];
      if prev.panicked then prev
      else
        var r := step(users[name]);
        if !Ok(r) then Progress(prev.effects + r.effects, prev.copy, prev.jobs, true)
        else
          Progress(prev.effects + r.effects, prev.copy[name := r.outcome.value],
            prev.jobs + AccountJobs(name, Token(r.outcome.value)), false)
  }

  /** The first part of every pass of `main`'s loop. */
  function Body(remote: Remote, lib: Library): User -> Run<User>
  {
    (u: User) => AccountStartup(remote, lib, u)
  }

  /** With `main`'s loop body, a pass gets through exactly when the account gets through its token step. */
  lemma BodyOk(remote: Remote, lib: Library)
    ensures forall u :: Ok(Body(remote, lib)(u)) <==> StartsUp(remote, lib, u)
    ensures forall u :: StartsUp(remote, lib, u) ==> Body(remote, lib)(u).outcome.value == Resolved(remote, lib, u)
  {
  }

  /** The whole of `main` up to its final sleep: the loop, then (without a panic) the file write and the scheduler start. */
  function StartupRun(remote: Remote, lib: Library, users: map<string, User>, order: seq<string>): (r: Progress)
    requires forall k :: 0 <= k < |order| ==> order[k] in users
    ensures !r.panicked ==>
      |r.effects| >= 2 && r.effects[|r.effects| - 2] == WriteConfig(r.copy) && r.effects[|r.effects| - 1] == StartScheduler
    ensures r.panicked ==> r == Loop(users, order, Body(remote, lib))
  {
    var loop := Loop(users, order, Body(remote, lib));
    if loop.panicked then loop
    else loop.(effects := loop.effects + [WriteConfig(loop.copy), StartScheduler])
  }

  predicate Distinct(order: seq<string>)
  {
    forall i, j :: 0 <= i < j < |order| ==> order[i] != order[j]
  }

  /** `order` visits each of `keys` exactly once. */
  predicate Visits(order: seq<string>, keys: set<string>)
  {
    && Distinct(order)
    && (forall k :: 0 <= k < |order| ==> order[k] in keys)
    && (forall n :: n in keys ==> n in order)
  }

  /** A pass of `main`'s loop for an account that gets through its token step. */
  lemma BodyDone(remote: Remote, lib: Library, user: User)
    requires StartsUp(remote, lib, user)
    ensures var resolved := Resolved(remote, lib, user);
      && resolved.accessToken.Some?
      && Ok(Body(remote, lib)(user))
      && Body(remote, lib)(user).outcome.value == resolved
      && Body(remote, lib)(user).effects == Resolve(remote, lib, user).effects
           + PostCheckIn(remote, Token(resolved)).effects + PostClaimGem(remote, Token(resolved)).effects
  {
  }

  /** A pass of `main`'s loop for an account that does not. */
  lemma BodyPanics(remote: Remote, lib: Library, user: User)
    requires !StartsUp(remote, lib, user)
    ensures !Ok(Body(remote, lib)(user)) && Body(remote, lib)(user).effects == Resolve(remote, lib, user).effects
  {
  }

  /** One more pass of the loop. */
  lemma LoopStep(users: map<string, User>, order: seq<string>, name: string, step: User -> Run<User>)
    requires forall k :: 0 <= k < |order| ==> order[k] in users
    requires name in users
    ensures forall k :: 0 <= k < |order + [name]| ==> (order + [name])[k] in users
    ensures var prev, r := Loop(users, order, step), step(users[name]);
      Loop(users, order + [name], step) ==
        if prev.panicked then prev
        else if !Ok(r) then Progress(prev.effects + r.effects, prev.copy, prev.jobs, true)
        else Progress(prev.effects + r.effects, prev.copy[name := r.outcome.value],
          prev.jobs + AccountJobs(name, Token(r.outcome.value)), false)
  {
    assert (order + [name])[..|order|] == order;
  }

  /**
   * The body of `main`'s loop for one account: the first part of the
   * pass (`step`: the token step, the check-in and the claim), then the
   * three jobs. `ok` is false when the pass did not get through, and then
   * no job is registered.
   */
  method Pass(step: User -> Run<User>, name: string, user: User, sched: Scheduler)
    returns (ok: bool, effects: seq<Effect>, resolved: User)
    modifies sched
    ensures ok == Ok(step(user))
    ensures effects == step(user).effects
    ensures ok ==> resolved == step(user).outcome.value && resolved.accessToken.Some?
    ensures ok ==> sched.jobs == old(sched.jobs) + AccountJobs(name, Token(resolved))
    ensures !ok ==> sched.jobs == old(sched.jobs)
    ensures sched.started == old(sched.started)
  {
    var r := step(user);
    effects := r.effects;
    if !Ok(r) {
      return false, effects, user;
    }
    resolved := r.outcome.value;
    var token := resolved.accessToken.value;
    sched.Add(Job(name, token, CheckInJob, CHECK_IN_EVERY, CHECK_IN_PAUSE));
    sched.Add(Job(name, token, ClaimJob, CLAIM_EVERY, CLAIM_JOB_PAUSE));
    sched.Add(Job(name, token, ConvertJob, CONVERT_EVERY, CONVERT_JOB_PAUSE));
    ok := true;
  }

  /** What one pass of the loop adds to the loop's progress. */
  lemma LoopPass(users: map<string, User>, order: seq<string>, name: string, step: User -> Run<User>,
                 prev: Progress, ok: bool, passEffects: seq<Effect>, user: User, jobs: seq<Job>)
    requires forall k :: 0 <= k < |order| ==> order[k] in users
    requires name in users
    requires Loop(users, order, step) == prev && !prev.panicked
    requires ok == Ok(step(users[name]))
    requires passEffects == step(users[name]).effects
    requires ok ==> user == step(users[name]).outcome.value
    requires jobs == if ok then prev.jobs + AccountJobs(name, Token(user)) else prev.jobs
    ensures forall k :: 0 <= k < |order + [name]| ==> (order + [name])[k] in users
    ensures Loop(users, order + [name], step)
         == Progress(prev.effects + passEffects, if ok then prev.copy[name := user] else prev.copy, jobs, !ok)
  {
    LoopStep(users, order, name, step);
  }

  /**
   * `main`. The map's iteration order is unspecified: each pass takes any
   * account not visited yet, and `order` records the order taken.
   */
  method Startup(users: map<string, User>, remote: Remote, lib: Library)
    returns (copy: map<string, User>, effects: seq<Effect>, panicked: bool, sched: Scheduler, ghost order: seq<string>)
    ensures fresh(sched)
    ensures Distinct(order) && (forall k :: 0 <= k < |order| ==> order[k] in users)
    ensures !panicked ==> Visits(order, users.Keys)
    ensures panicked ==> |order| > 0 && !StartsUp(remote, lib, users[order[|order| - 1]])
    ensures StartupRun(remote, lib, users, order) == Progress(effects, copy, sched.jobs, panicked)
    ensures sched.started == !panicked
  {
    sched := new Scheduler();
    copy, effects, panicked, order := RunLoop(users, Body(remote, lib), sched);
    BodyOk(remote, lib);
    if !panicked {
      effects := effects + [WriteConfig(copy), StartScheduler];
      sched.Start();
    }
  }

  /**
   * `main`'s loop over the accounts, in an order of its own choosing:
   * each pass takes an account not visited yet, and the loop stops at the
   * first pass that does not get through.
   */
  method RunLoop(users: map<string, User>, step: User -> Run<User>, sched: Scheduler)
    returns (copy: map<string, User>, effects: seq<Effect>, panicked: bool, ghost order: seq<string>)
    requires sched.jobs == []
    modifies sched
    ensures Distinct(order) && (forall k :: 0 <= k < |order| ==> order[k] in users)
    ensures !panicked ==> Visits(order, users.Keys)
    ensures panicked ==> |order| > 0 && !Ok(step(users[order[|order| - 1]]))
    ensures Loop(users, order, step) == Progress(effects, copy, sched.jobs, panicked)
    ensures sched.started == old(sched.started)
  {
    copy := map[];
    effects := [];
    panicked := false;
    order := [];
    var remaining := users.Keys;
    while remaining != {}
      invariant remaining <= users.Keys
      invariant Distinct(order)
      invariant forall k :: 0 <= k < |order| ==> order[k] in users && order[k] !in remaining
      invariant forall n :: n in users ==> n in remaining || n in order
      invariant Loop(users, order, step) == Progress(effects, copy, sched.jobs, false)
      invariant sched.started == old(sched.started)
      decreases remaining
    {
      var name :| name in remaining;
      var ok;
      ok, effects, copy := Visit(users, order, name, step, effects, copy, sched);
      remaining := remaining - {name};
      order := order + [name];
      if !ok {
        panicked := true;
        assert order[|order| - 1] == name;
        return;
      }
    }
  }

  /** One pass of the loop, for the account `name`, as one more step of `Loop`. */
  method Visit(users: map<string, User>, ghost order: seq<string>, name: string, step: User -> Run<User>,
               effects: seq<Effect>, copy: map<string, User>, sched: Scheduler)
    returns (ok: bool, effects': seq<Effect>, copy': map<string, User>)
    requires forall k :: 0 <= k < |order| ==> order[k] in users
    requires name in users
    requires Loop(users, order, step) == Progress(effects, copy, sched.jobs, false)
    modifies sched
    ensures ok == Ok(step(users[name]))
    ensures forall k :: 0 <= k < |order + [name]| ==> (order + [name])[k] in users
    ensures Loop(users, order + [name], step) == Progress(effects', copy', sched.jobs, !ok)
    ensures sched.started == old(sched.started)
  {
    ghost var before := sched.jobs;
    var passEffects, user;
    ok, passEffects, user := Pass(step, name, users[name], sched);
    LoopPass(users, order, name, step, Progress(effects, copy, before, false), ok, passEffects, user, sched.jobs);
    effects' := effects + passEffects;
    copy' := if ok then copy[name := user] else copy;
  }

  // ---------------------------------------------------------------- the loop, whatever its body

  /** The loop panics exactly when some visited account's pass does not get through. */
  lemma {:induction false} LoopPanics(users: map<string, User>, order: seq<string>, step: User -> Run<User>)
    requires forall k :: 0 <= k < |order| ==> order[k] in users
    ensures Loop(users, order, step).panicked <==> exists k :: 0 <= k < |order| && !Ok(step(users[order[k]]))
    decreases |order|
  {
    if order != [] {
      var init := order[..|order| - 1];
      assert forall k :: 0 <= k < |init| ==> init[k] == order[k];
      LoopPanics(users, init, step);
      if !Ok(step(users[order[|order| - 1]])) {
        assert !Ok(step(users[order[|order| - 1]]));
      }
    }
  }

  /** The loop's effects are those of its passes; when the passes only send requests and pause, so does the loop. */
  lemma {:induction false} LoopIo(users: map<string, User>, order: seq<string>, step: User -> Run<User>)
    requires forall k :: 0 <= k < |order| ==> order[k] in users
    requires forall u, i :: 0 <= i < |step(u).effects| ==> Io(step(u).effects[i])
    ensures forall i :: 0 <= i < |Loop(users, order, step).effects| ==> Io(Loop(users, order, step).effects[i])
    decreases |order|
  {
    if order != [] {
      var init := order[..|order| - 1];
      assert forall k :: 0 <= k < |init| ==> init[k] == order[k];
      LoopIo(users, init, step);
      var prev := Loop(users, init, step);
      var p := Loop(users, order, step);
      if !prev.panicked {
        var r := step(users[order[|order| - 1]]);
        assert p.effects == prev.effects + r.effects;
        forall i | 0 <= i < |p.effects| ensures Io(p.effects[i]) {
          if i < |prev.effects| {
            assert p.effects[i] == prev.effects[i];
          } else {
            assert p.effects[i] == r.effects[i - |prev.effects|];
          }
        }
      }
    }
  }

  /** Without a panic, the copy holds exactly the visited accounts, each as its pass left it. */
  lemma {:induction false} LoopCopy(users: map<string, User>, order: seq<string>, step: User -> Run<User>)
    requires forall k :: 0 <= k < |order| ==> order[k] in users
    ensures var p := Loop(users, order, step);
      !p.panicked ==>
        && (forall n :: n in p.copy <==> n in order)
        && (forall n :: n in p.copy ==> n in users && Ok(step(users[n])) && p.copy[n] == step(users[n]).outcome.value)
    decreases |order|
  {
    if order != [] {
      var init := order[..|order| - 1];
      var name := order[|order| - 1];
      assert forall k :: 0 <= k < |init| ==> init[k] == order[k];
      LoopCopy(users, init, step);
      assert order == init + [name];
      forall n ensures n in order <==> n in init || n == name {
      }
    }
  }

  /** Without a panic, three jobs per visited account, block by block in visiting order. */
  lemma {:induction false} LoopJobs(users: map<string, User>, order: seq<string>, step: User -> Run<User>)
    requires forall k :: 0 <= k < |order| ==> order[k] in users
    ensures var p := Loop(users, order, step);
      !p.panicked ==>
        && |p.jobs| == 3 * |order|
        && (forall k :: 0 <= k < |order| ==> Ok(step(users[order[k]])))
        && (forall k :: 0 <= k < |order| ==>
              p.jobs[3 * k..3 * k + 3] == AccountJobs(order[k], Token(step(users[order[k]]).outcome.value)))
    decreases |order|
  {
    if order != [] {
      var init := order[..|order| - 1];
      assert forall k :: 0 <= k < |init| ==> init[k] == order[k];
      LoopJobs(users, init, step);
      var prev := Loop(users, init, step);
      var p := Loop(users, order, step);
      var name := order[|order| - 1];
      var r := step(users[name]);
      if !p.panicked {
        assert !prev.panicked && Ok(r);
        var block := AccountJobs(name, Token(r.outcome.value));
        assert p.jobs == prev.jobs + block;
        assert |prev.jobs| == 3 * |init|;
        forall k | 0 <= k < |order|
          ensures Ok(step(users[order[k]]))
          ensures p.jobs[3 * k..3 * k + 3] == AccountJobs(order[k], Token(step(users[order[k]]).outcome.value))
        {
          BlockAppend(prev.jobs, block, |init|, k);
          if k < |init| {
            assert order[k] == init[k];
          } else {
            assert order[k] == name;
          }
        }
      }
    }
  }

  /** Block `k` of three jobs after appending one more block of three. */
  lemma BlockAppend(jobs: seq<Job>, block: seq<Job>, n: nat, k: nat)
    requires |jobs| == 3 * n && |block| == 3 && k <= n
    ensures 3 * k + 3 <= |jobs + block|
    ensures (jobs + block)[3 * k..3 * k + 3] == if k < n then jobs[3 * k..3 * k + 3] else block
  {
  }

  /** The accounts whose pass gets through, as their passes leave them. */
  function Reached(users: map<string, User>, step: User -> Run<User>): map<string, User>
  {
    map n | n in users && Ok(step(users[n])) :: step(users[n]).outcome.value
  }

  /** When every account is visited once and the loop does not panic, the copy is all of them, as their passes left them. */
  lemma LoopCopyAll(users: map<string, User>, order: seq<string>, step: User -> Run<User>)
    requires Visits(order, users.Keys)
    ensures var p := Loop(users, order, step);
      !p.panicked ==> p.copy == Reached(users, step) && p.copy.Keys == users.Keys
  {
    LoopCopy(users, order, step);
    var p := Loop(users, order, step);
    if !p.panicked {
      var reached := Reached(users, step);
      forall n | n in users ensures n in p.copy {
        assert n in order;
      }
      assert p.copy.Keys == users.Keys;
      assert forall n :: n in p.copy ==> n in reached && p.copy[n] == reached[n];
      assert reached.Keys == p.copy.Keys;
    }
  }

  /** A sequence visiting each key once is as long as the key set. */
  lemma {:induction false} OrderLength(order: seq<string>, keys: set<string>)
    requires Visits(order, keys)
    ensures |order| == |keys|
    decreases |order|
  {
    if order != [] {
      var last := order[|order| - 1];
      var init := order[..|order| - 1];
      forall n | n in keys - {last} ensures n in init {
        var k :| 0 <= k < |order| && order[k] == n;
        assert k < |init|;
      }
      assert forall k :: 0 <= k < |init| ==> init[k] == order[k] && init[k] != last;
      OrderLength(init, keys - {last});
    }
  }

  // ---------------------------------------------------------------- main, whatever the iteration order

  /** The accounts written back: every account that gets through the token step, with its token. */
  function Snapshot(remote: Remote, lib: Library, users: map<string, User>): map<string, User>
  {
    Reached(users, Body(remote, lib))
  }

  /** The snapshot holds exactly the accounts that get through the token step, each resolved. */
  lemma SnapshotResolved(remote: Remote, lib: Library, users: map<string, User>)
    ensures forall n :: n in Snapshot(remote, lib, users) <==> n in users && StartsUp(remote, lib, users[n])
    ensures forall n :: n in Snapshot(remote, lib, users) ==> Snapshot(remote, lib, users)[n] == Resolved(remote, lib, users[n])
  {
    BodyOk(remote, lib);
  }

  /**
   * With every account visited once, the program panics exactly when
   * some account fails its token step.
   */
  lemma StartupPanics(remote: Remote, lib: Library, users: map<string, User>, order: seq<string>)
    requires Visits(order, users.Keys)
    ensures StartupRun(remote, lib, users, order).panicked <==> exists n :: n in users && !StartsUp(remote, lib, users[n])
  {
    var step := Body(remote, lib);
    LoopPanics(users, order, step);
    BodyOk(remote, lib);
    if exists n :: n in users && !StartsUp(remote, lib, users[n]) {
      var n :| n in users && !StartsUp(remote, lib, users[n]);
      var k :| 0 <= k < |order| && order[k] == n;
      assert !Ok(step(users[order[k]]));
    }
  }

  /** Every pass of `main`'s loop only sends requests and pauses. */
  lemma BodyIo(remote: Remote, lib: Library)
    ensures forall u, i :: 0 <= i < |Body(remote, lib)(u).effects| ==> Io(Body(remote, lib)(u).effects[i])
  {
    forall u ensures forall i :: 0 <= i < |Body(remote, lib)(u).effects| ==> Io(Body(remote, lib)(u).effects[i]) {
      AccountStartupIo(remote, lib, u);
    }
  }

  /**
   * Without a panic, `user.json` is written once, with every account and
   * its token, whatever the iteration order; then the scheduler starts.
   */
  lemma StartupSnapshot(remote: Remote, lib: Library, users: map<string, User>, order: seq<string>)
    requires Visits(order, users.Keys)
    ensures var p := StartupRun(remote, lib, users, order);
      !p.panicked ==>
        && p.copy == Snapshot(remote, lib, users)
        && |p.effects| >= 2
        && p.effects[|p.effects| - 2] == WriteConfig(Snapshot(remote, lib, users))
        && p.effects[|p.effects| - 1] == StartScheduler
  {
    LoopCopyAll(users, order, Body(remote, lib));
  }

  /**
   * Before that, only requests and pauses happen; with a panic nothing
   * else happens at all, so the file is neither written nor the
   * scheduler started.
   */
  lemma StartupIo(remote: Remote, lib: Library, users: map<string, User>, order: seq<string>)
    requires forall k :: 0 <= k < |order| ==> order[k] in users
    ensures var p := StartupRun(remote, lib, users, order);
      && (p.panicked ==> forall i :: 0 <= i < |p.effects| ==> Io(p.effects[i]))
      && (!p.panicked ==> |p.effects| >= 2 && forall i :: 0 <= i < |p.effects| - 2 ==> Io(p.effects[i]))
  {
    var step := Body(remote, lib);
    BodyIo(remote, lib);
    LoopIo(users, order, step);
    var loop := Loop(users, order, step);
    var p := StartupRun(remote, lib, users, order);
    if !loop.panicked {
      assert forall i :: 0 <= i < |p.effects| - 2 ==> p.effects[i] == loop.effects[i];
    }
  }

  /** Without a panic, three jobs are registered for every account, each bound to that account's token. */
  lemma StartupJobs(remote: Remote, lib: Library, users: map<string, User>, order: seq<string>)
    requires Visits(order, users.Keys)
    ensures var p := StartupRun(remote, lib, users, order);
      && |order| == |users|
      && (!p.panicked ==>
        && |p.jobs| == 3 * |users|
        && (forall k :: 0 <= k < |order| ==> order[k] in Snapshot(remote, lib, users))
        && (forall k :: 0 <= k < |order| ==>
              p.jobs[3 * k..3 * k + 3] == AccountJobs(order[k], Token(Snapshot(remote, lib, users)[order[k]]))))
  {
    LoopJobs(users, order, Body(remote, lib));
    OrderLength(order, users.Keys);
  }

  /**
   * The file written back is a fixed point: every account in it carries
   * its token, so a restart on it logs no one in and sees the same
   * accounts.
   */
  lemma SnapshotStable(remote: Remote, lib: Library, users: map<string, User>)
    ensures var snap := Snapshot(remote, lib, users);
      && (forall n :: n in snap ==> snap[n].accessToken.Some? && Resolve(remote, lib, snap[n]) == Run([], Done(snap[n])))
      && Snapshot(remote, lib, snap) == snap
  {
    var snap := Snapshot(remote, lib, users);
    SnapshotResolved(remote, lib, users);
    forall n | n in snap
      ensures snap[n].accessToken.Some? && Resolve(remote, lib, snap[n]) == Run([], Done(snap[n]))
      ensures StartsUp(remote, lib, snap[n]) && Resolved(remote, lib, snap[n]) == snap[n]
    {
      ResolvedFixed(remote, lib, users[n]);
    }
    SnapshotFixed(remote, lib, snap);
  }

  /** Accounts that each resolve to themselves are their own snapshot. */
  lemma SnapshotFixed(remote: Remote, lib: Library, users: map<string, User>)
    requires forall n :: n in users ==> StartsUp(remote, lib, users[n]) && Resolved(remote, lib, users[n]) == users[n]
    ensures Snapshot(remote, lib, users) == users
  {
    BodyOk(remote, lib);
    ReachedFixed(users, Body(remote, lib));
  }

  /** When every pass gets through and leaves its account as it was, the accounts reached are all of them, unchanged. */
  lemma ReachedFixed(users: map<string, User>, step: User -> Run<User>)
    requires forall n :: n in users ==> Ok(step(users[n])) && step(users[n]).outcome.value == users[n]
    ensures Reached(users, step) == users
  {
    var reached := Reached(users, step);
    assert reached.Keys == users.Keys;
    forall n | n in reached
      ensures reached[n] == users[n]
    {
    }
  }

  /** A resolved account resolves to itself, without a request. */
  lemma ResolvedFixed(remote: Remote, lib: Library, user: User)
    requires StartsUp(remote, lib, user)
    ensures var v := Resolved(remote, lib, user);
      v.accessToken.Some? && Resolve(remote, lib, v) == Run([], Done(v))
      && StartsUp(remote, lib, v) && Resolved(remote, lib, v) == v
  {
  }
}
