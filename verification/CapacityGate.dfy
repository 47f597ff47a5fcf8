/** The bounded slot gate: every thread's way through `slot()`, one atomic step at a time. */
module CapacityGate {
  type Thread(==,!new)

  /** Where a thread is inside `slot()`.  `Won` and `Lost` have returned from (or been thrown out of)
      the acquire call but have not yet left the waiting count. */
  datatype Place = Acquiring | Won | Lost | Holding | Refused

  /** `overflow` records a release beyond the bound, which would raise. */
  datatype Gate = Gate(free: int, waiting: int, at: map<Thread, Place>, overflow: bool)

  datatype Action =
    | Enter(thread: Thread)
    | Acquire(thread: Thread)
    | TimeOut(thread: Thread)         // or any exception out of acquire
    | LeaveQueue(thread: Thread)      // the `finally` around acquire
    | Exit(thread: Thread)            // the body returned or raised
    | Complain(thread: Thread)        // the timeout error leaves `slot()`

  ghost function Fresh(max: nat): Gate { Gate(max, 0, map[], false) }

  ghost predicate Is(g: Gate, t: Thread, p: Place) { t in g.at && g.at[t] == p }

  ghost predicate Enabled(g: Gate, a: Action)
  {
    match a
    case Enter(t) => t !in g.at
    case Acquire(t) => Is(g, t, Acquiring) && g.free > 0
    case TimeOut(t) => Is(g, t, Acquiring)
    case LeaveQueue(t) => Is(g, t, Won) || Is(g, t, Lost)
    case Exit(t) => Is(g, t, Holding)
    case Complain(t) => Is(g, t, Refused)
  }

  ghost function Step(max: nat, g: Gate, a: Action): Gate
    requires Enabled(g, a)
  {
    match a
    case Enter(t) => g.(waiting := g.waiting + 1, at := g.at[t := Acquiring])
    case Acquire(t) => g.(free := g.free - 1, at := g.at[t := Won])
    case TimeOut(t) => g.(at := g.at[t := Lost])
    case LeaveQueue(t) => g.(waiting := g.waiting - 1, at := g.at[t := if g.at[t] == Won then Holding else Refused])
    case Exit(t) =>
      if g.free >= max then g.(overflow := true, at := g.at - {t}) else g.(free := g.free + 1, at := g.at - {t})
    case Complain(t) => g.(at := g.at - {t})
  }

  /** Threads that own a slot. */
  ghost function Holders(g: Gate): set<Thread> { set t | t in g.at && (g.at[t] == Won || g.at[t] == Holding) }

  /** Threads between entering the waiting count and leaving it. */
  ghost function Waiters(g: Gate): set<Thread>
  {
    set t | t in g.at && (g.at[t] == Acquiring || g.at[t] == Won || g.at[t] == Lost)
  }

  ghost predicate Inv(max: nat, g: Gate)
  {
    g.free >= 0 && g.free + |Holders(g)| == max && g.waiting == |Waiters(g)| && !g.overflow
  }

  lemma StepHolders(max: nat, g: Gate, a: Action)
    requires Enabled(g, a)
    ensures Holders(Step(max, g, a))
         == if a.Acquire? then Holders(g) + {a.thread} else if a.Exit? then Holders(g) - {a.thread} else Holders(g)
    ensures a.Acquire? ==> a.thread !in Holders(g)
    ensures a.Exit? ==> a.thread in Holders(g)
  {
  }

  lemma StepWaiters(max: nat, g: Gate, a: Action)
    requires Enabled(g, a)
    ensures Waiters(Step(max, g, a))
         == if a.Enter? then Waiters(g) + {a.thread} else if a.LeaveQueue? then Waiters(g) - {a.thread} else Waiters(g)
    ensures a.Enter? ==> a.thread !in Waiters(g)
    ensures a.LeaveQueue? ==> a.thread in Waiters(g)
  {
  }

  lemma StepKeepsInv(max: nat, g: Gate, a: Action)
    requires Inv(max, g) && Enabled(g, a)
    ensures Inv(max, Step(max, g, a))
  {
    StepHolders(max, g, a);
    StepWaiters(max, g, a);
  }

  ghost predicate ValidRun(max: nat, g: Gate, acts: seq<Action>)
    decreases acts
  {
    acts == [] || (Enabled(g, acts[0]) && ValidRun(max, Step(max, g, acts[0]), acts[1..]))
  }

  ghost function Run(max: nat, g: Gate, acts: seq<Action>): Gate
    requires ValidRun(max, g, acts)
    decreases acts
  {
    if acts == [] then g else Run(max, Step(max, g, acts[0]), acts[1..])
  }

  lemma {:induction false} RunKeepsInv(max: nat, g: Gate, acts: seq<Action>)
    requires Inv(max, g) && ValidRun(max, g, acts)
    ensures Inv(max, Run(max, g, acts))
    decreases acts
  {
    if acts != [] {
      StepKeepsInv(max, g, acts[0]);
      RunKeepsInv(max, Step(max, g, acts[0]), acts[1..]);
    }
  }

  /** In every interleaving, with timeouts and raising bodies: holders and free slots make up the
      maximum, the waiting count is the number of threads in the queue, and no release overflows. */
  lemma SlotsConserved(max: nat, acts: seq<Action>)
    requires ValidRun(max, Fresh(max), acts)
    ensures var g := Run(max, Fresh(max), acts);
            && 0 <= g.free && |Holders(g)| + g.free == max
            && g.waiting == |Waiters(g)| && !g.overflow
  {
    assert Holders(Fresh(max)) == {} && Waiters(Fresh(max)) == {};
    RunKeepsInv(max, Fresh(max), acts);
  }

  ghost predicate Away(g: Gate, t: Thread) { Is(g, t, Lost) || Is(g, t, Refused) }

  ghost predicate EntersAgain(acts: seq<Action>, t: Thread) { exists i :: 0 <= i < |acts| && acts[i] == Enter(t) }

  /** A thread that timed out holds no slot and releases none until it asks again. */
  lemma {:induction false} TimedOutNeverHolds(max: nat, g: Gate, t: Thread, acts: seq<Action>)
    requires ValidRun(max, g, acts) && (Away(g, t) || t !in g.at) && !EntersAgain(acts, t)
    ensures Away(Run(max, g, acts), t) || t !in Run(max, g, acts).at
    ensures t !in Holders(Run(max, g, acts))
    ensures Acquire(t) !in acts && Exit(t) !in acts
    decreases acts
  {
    if acts != [] {
      var a, rest := acts[0], acts[1..];
      assert a != Enter(t);
      forall i | 0 <= i < |rest| ensures rest[i] != Enter(t) {
        assert rest[i] == acts[i + 1];
      }
      TimedOutNeverHolds(max, Step(max, g, a), t, rest);
      assert acts == [a] + rest;
    }
  }

  /** While a slot is free, a queued thread can take it: a thread is only kept waiting by holders. */
  lemma WaitsOnlyForHolders(max: nat, g: Gate, t: Thread)
    requires Inv(max, g) && Is(g, t, Acquiring) && !Enabled(g, Acquire(t))
    ensures |Holders(g)| == max
  {
  }

  lemma Before(max: nat, g: Gate, a: Action, rest: seq<Action>)
    requires Enabled(g, a) && ValidRun(max, Step(max, g, a), rest)
    ensures ValidRun(max, g, [a] + rest) && Run(max, g, [a] + rest) == Run(max, Step(max, g, a), rest)
  {
    assert ([a] + rest)[1..] == rest;
  }

  /** A thread that gave up can ask again. */
  lemma GivesUpAndAsksAgain(max: nat, g: Gate, t: Thread) returns (acts: seq<Action>)
    requires Is(g, t, Acquiring)
    ensures acts == [TimeOut(t), LeaveQueue(t), Complain(t), Enter(t)] && ValidRun(max, g, acts)
    ensures Is(Run(max, g, acts), t, Acquiring) && Run(max, g, acts).waiting == g.waiting
  {
    var a := Step(max, g, TimeOut(t));
    var b := Step(max, a, LeaveQueue(t));
    var c := Step(max, b, Complain(t));
    Before(max, c, Enter(t), []);
    Before(max, b, Complain(t), [Enter(t)] + []);
    Before(max, a, LeaveQueue(t), [Complain(t)] + ([Enter(t)] + []));
    acts := [TimeOut(t)] + ([LeaveQueue(t)] + ([Complain(t)] + ([Enter(t)] + [])));
    Before(max, g, TimeOut(t), [LeaveQueue(t)] + ([Complain(t)] + ([Enter(t)] + [])));
  }
}
