/**
 * What a step does, in order (`Effect`), and how it ends (`Outcome`): a
 * value, an error returned with `?`, or a panic from an `unwrap`.
 */
module Trace {
  import opened Config
  import opened Remote

  datatype Effect =
    | Send(call: Call)
    | Sleep(seconds: nat)
    | WriteConfig(snapshot: map<string, User>)
    | StartScheduler

  datatype Outcome<T> = Done(value: T) | Failed(error: Error) | Panicked {

    /** The same failure at another result type. */
    function Abandon<U>(): (o: Outcome<U>)
      requires !Done?
      ensures o.Failed? == Failed? && (Failed? ==> o.error == error)
    {
      if Failed? then Failed(error) else Panicked
    }
  }

  datatype Run<T> = Run(effects: seq<Effect>, outcome: Outcome<T>)

  /** Runs `next` after `first` when `first` finished normally (Rust's `?`). */
  function Then<A, B>(first: Run<A>, next: Run<B>): Run<B>
  {
    if first.outcome.Done? then Run(first.effects + next.effects, next.outcome)
    else Run(first.effects, first.outcome.Abandon())
  }

  /** `.map_err(log).ok()`: an error is logged and dropped; a panic still unwinds. */
  function Swallow<T>(r: Run<T>): (s: Run<()>)
    ensures s.effects == r.effects
    ensures s.outcome.Panicked? <==> r.outcome.Panicked?
    ensures !s.outcome.Failed?
  {
    Run(r.effects, if r.outcome.Panicked? then Panicked else Done(()))
  }

  /** The requests among the effects, in order. */
  function Sent(effects: seq<Effect>): seq<Call>
    decreases |effects|
  {
    if effects == [] then []
    else (if effects[0].Send? then [effects[0].call] else []) + Sent(effects[1..])
  }

  lemma {:induction false} SentAppend(a: seq<Effect>, b: seq<Effect>)
    ensures Sent(a + b) == Sent(a) + Sent(b)
    decreases |a|
  {
    if a != [] {
      assert (a + b)[0] == a[0];
      assert (a + b)[1..] == a[1..] + b;
      SentAppend(a[1..], b);
    } else {
      assert a + b == b;
    }
  }
}
