/** The bounded parallel fetch: up to four times the worker count of jobs in flight, collected
    in whatever order they complete, flushed when enough rows are pending. */
module KisScheduler {
  import opened KisFetch
  import KisResume

  type Job = KisResume.Job

  /** What a submitted fetch returns. */
  datatype Outcome = Fetched(rows: seq<Row>, requests: nat) | Error

  /** The future of the `id`-th job taken from the iterator. */
  datatype Future = Future(id: nat, job: Job, outcome: Outcome)

  /** The three ways a taken job can end. */
  datatype Fate = Failed | Empty | Completed

  ghost function FateOf(o: Outcome): Fate
  {
    if o.Error? then Failed else if o.rows == [] then Empty else Completed
  }

  ghost function RowsOf(o: Outcome): seq<Row> { if o.Fetched? then o.rows else [] }

  ghost function CostOf(o: Outcome): nat { if o.Fetched? then o.requests else 0 }

  /** Rows of the successful futures of `order`, in that order. */
  ghost function RowsIn(order: seq<Future>): seq<Row>
  {
    if order == [] then [] else RowsIn(order[..|order| - 1]) + RowsOf(order[|order| - 1].outcome)
  }

  ghost function RequestsIn(order: seq<Future>): nat
  {
    if order == [] then 0 else RequestsIn(order[..|order| - 1]) + CostOf(order[|order| - 1].outcome)
  }

  /** Jobs of the futures of `order` that met `fate`, in that order. */
  ghost function JobsWith(order: seq<Future>, fate: Fate): seq<Job>
  {
    if order == [] then []
    else
      var last := order[|order| - 1];
      JobsWith(order[..|order| - 1], fate) + (if FateOf(last.outcome) == fate then [last.job] else [])
  }

  lemma SnocRows(order: seq<Future>, f: Future)
    ensures RowsIn(order + [f]) == RowsIn(order) + RowsOf(f.outcome)
    ensures RequestsIn(order + [f]) == RequestsIn(order) + CostOf(f.outcome)
  {
    assert (order + [f])[..|order + [f]| - 1] == order;
  }

  lemma SnocJobs(order: seq<Future>, f: Future, fate: Fate)
    ensures JobsWith(order + [f], fate) == JobsWith(order, fate) + (if FateOf(f.outcome) == fate then [f.job] else [])
  {
    assert (order + [f])[..|order + [f]| - 1] == order;
  }

  ghost function Jobs(order: seq<Future>): seq<Job>
  {
    seq(|order|, i requires 0 <= i < |order| => order[i].job)
  }

  ghost function Fates(order: seq<Future>): multiset<Job>
  {
    multiset(JobsWith(order, Failed)) + multiset(JobsWith(order, Empty)) + multiset(JobsWith(order, Completed))
  }

  lemma SnocFates(order: seq<Future>, f: Future)
    ensures Fates(order + [f]) == Fates(order) + multiset{f.job}
  {
    SnocJobs(order, f, Failed);
    SnocJobs(order, f, Empty);
    SnocJobs(order, f, Completed);
  }

  lemma SnocJob(order: seq<Future>, f: Future)
    ensures multiset(Jobs(order + [f])) == multiset(Jobs(order)) + multiset{f.job}
  {
    assert Jobs(order + [f]) == Jobs(order) + [f.job];
  }

  /** Every collected job ends as exactly one of failed, empty or completed. */
  lemma {:induction false} FatesPartition(order: seq<Future>)
    ensures Fates(order) == multiset(Jobs(order))
  {
    if order != [] {
      var init, last := order[..|order| - 1], order[|order| - 1];
      FatesPartition(init);
      SnocFates(init, last);
      SnocJob(init, last);
      assert order == init + [last];
    }
  }

  lemma {:induction false} SuccessesPay(order: seq<Future>)
    requires forall f | f in order && f.outcome.Fetched? :: f.outcome.requests >= 1
    ensures |order| - |JobsWith(order, Failed)| <= RequestsIn(order)
  {
    if order != [] { SuccessesPay(order[..|order| - 1]); }
  }

  lemma {:induction false} RowsConcat(a: seq<Future>, b: seq<Future>)
    ensures RowsIn(a + b) == RowsIn(a) + RowsIn(b)
    decreases |b|
  {
    if |b| == 0 {
      assert a + b == a;
    } else {
      RowsConcat(a, b[..|b| - 1]);
      RowsConcatStep(a, b[..|b| - 1], b[|b| - 1]);
      assert b == b[..|b| - 1] + [b[|b| - 1]];
    }
  }

  lemma RowsConcatStep(a: seq<Future>, b: seq<Future>, f: Future)
    requires RowsIn(a + b) == RowsIn(a) + RowsIn(b)
    ensures RowsIn(a + (b + [f])) == RowsIn(a) + RowsIn(b + [f])
  {
    var x := RowsOf(f.outcome);
    calc {
      RowsIn(a + (b + [f]));
    ==  { assert a + (b + [f]) == (a + b) + [f]; }
      RowsIn((a + b) + [f]);
    ==  { SnocRows(a + b, f); }
      (RowsIn(a) + RowsIn(b)) + x;
    ==  { Assoc(RowsIn(a), RowsIn(b), x); }
      RowsIn(a) + (RowsIn(b) + x);
    ==  { SnocRows(b, f); }
      RowsIn(a) + RowsIn(b + [f]);
    }
  }

  lemma RowsWithout(a: seq<Future>, f: Future, b: seq<Future>)
    ensures multiset(RowsIn(a + [f] + b)) == multiset(RowsIn(a + b)) + multiset(RowsOf(f.outcome))
  {
    RowsConcat(a + [f], b);
    SnocRows(a, f);
    RowsConcat(a, b);
  }

  /** The rows collected do not depend on the order in which jobs complete. */
  lemma {:induction false} OrderIrrelevant(a: seq<Future>, b: seq<Future>)
    requires multiset(a) == multiset(b)
    ensures multiset(RowsIn(a)) == multiset(RowsIn(b))
    decreases |a|
  {
    if a == [] {
      assert |multiset(b)| == 0;
    } else {
      var init, last := a[..|a| - 1], a[|a| - 1];
      assert a == init + [last];
      assert last in multiset(a);
      var k :| 0 <= k < |b| && b[k] == last;
      var rest := b[..k] + b[k + 1..];
      assert b == b[..k] + [b[k]] + b[k + 1..];
      MultisetSnoc(a, init, last, b, rest);
      OrderIrrelevant(init, rest);
      RowsWithout(b[..k], last, b[k + 1..]);
      SnocRows(init, last);
    }
  }

  lemma {:induction false} JobsPermute(a: seq<Future>, b: seq<Future>)
    requires multiset(a) == multiset(b)
    ensures multiset(Jobs(a)) == multiset(Jobs(b))
    decreases |a|
  {
    if a == [] {
      assert |multiset(b)| == 0;
    } else {
      var init, last := a[..|a| - 1], a[|a| - 1];
      assert a == init + [last];
      assert last in multiset(a);
      var k :| 0 <= k < |b| && b[k] == last;
      var rest := b[..k] + b[k + 1..];
      assert b == b[..k] + [b[k]] + b[k + 1..];
      MultisetSnoc(a, init, last, b, rest);
      JobsPermute(init, rest);
      JobsWithout(b[..k], last, b[k + 1..]);
      SnocJob(init, last);
    }
  }

  lemma JobsWithout(a: seq<Future>, f: Future, b: seq<Future>)
    ensures multiset(Jobs(a + [f] + b)) == multiset(Jobs(a + b)) + multiset{f.job}
  {
    assert Jobs(a + [f] + b) == Jobs(a) + [f.job] + Jobs(b);
    assert Jobs(a + b) == Jobs(a) + Jobs(b);
  }

  lemma MultisetSnoc(a: seq<Future>, init: seq<Future>, last: Future, b: seq<Future>, rest: seq<Future>)
    requires multiset(a) == multiset(b)
    requires multiset(a) == multiset(init) + multiset{last} && multiset(b) == multiset(rest) + multiset{last}
    ensures multiset(init) == multiset(rest)
  {
    assert multiset(init) == multiset(a) - multiset{last};
    assert multiset(rest) == multiset(b) - multiset{last};
  }

  datatype Cap = Unlimited | Limit(requests: nat)

  ghost predicate Taken(jobs: seq<Job>, outcomes: seq<Outcome>, next: nat, f: Future)
  {
    f.id < next <= |jobs| == |outcomes| && f == Future(f.id, jobs[f.id], outcomes[f.id])
  }

  /** The `i`-th job taken is in flight, in the batch or collected. */
  ghost predicate Kept(
    jobs: seq<Job>, outcomes: seq<Outcome>, i: nat, pending: set<Future>, batch: set<Future>, order: seq<Future>)
    requires i < |jobs| == |outcomes|
  {
    var f := Future(i, jobs[i], outcomes[i]); f in pending || f in batch || f in order
  }

  /** `batch` is what `wait` has returned and the loop has still to process: every job taken is
      in flight, in the batch or collected, and in only one of them. */
  ghost predicate AllTracked(
    jobs: seq<Job>, outcomes: seq<Outcome>, next: nat, pending: set<Future>, batch: set<Future>, order: seq<Future>)
  {
    && next <= |jobs| == |outcomes|
    && pending !! batch
    && (forall f {:trigger Taken(jobs, outcomes, next, f)} |
          f in pending || f in batch || f in order :: Taken(jobs, outcomes, next, f))
    && (forall f | f in pending || f in batch :: f !in order)
    && Distinct(order)
    && (forall i {:trigger Kept(jobs, outcomes, i, pending, batch, order)} |
          0 <= i < next :: Kept(jobs, outcomes, i, pending, batch, order))
    && |pending| + |batch| + |order| == next
  }

  lemma CollectTracked(
    jobs: seq<Job>, outcomes: seq<Outcome>, next: nat, pending: set<Future>, batch: set<Future>, order: seq<Future>,
    f: Future)
    requires AllTracked(jobs, outcomes, next, pending, batch, order) && f in batch
    ensures AllTracked(jobs, outcomes, next, pending, batch - {f}, order + [f])
  {
    assert forall g | g in order + [f] :: g in order || g == f;
    assert forall g | g in order :: g in order + [f];
    assert f in order + [f];
    forall i | 0 <= i < next ensures Kept(jobs, outcomes, i, pending, batch - {f}, order + [f]) {
      assert Kept(jobs, outcomes, i, pending, batch, order);
    }
  }

  lemma SubmitTracked(
    jobs: seq<Job>, outcomes: seq<Outcome>, next: nat, pending: set<Future>, order: seq<Future>, f: Future)
    requires AllTracked(jobs, outcomes, next, pending, {}, order) && next < |jobs|
    requires f == Future(next, jobs[next], outcomes[next])
    ensures f !in pending && AllTracked(jobs, outcomes, next + 1, pending + {f}, {}, order)
  {
    forall g | g in pending || g in order ensures Taken(jobs, outcomes, next + 1, g) && g != f {
      assert Taken(jobs, outcomes, next, g);
    }
    forall i | 0 <= i < next + 1 ensures Kept(jobs, outcomes, i, pending + {f}, {}, order) {
      assert i < next ==> Kept(jobs, outcomes, i, pending, {}, order);
    }
  }

  /** The first `n` jobs as futures, in the order in which the iterator yields them. */
  ghost function Submitted(jobs: seq<Job>, outcomes: seq<Outcome>, n: nat): (s: seq<Future>)
    requires n <= |jobs| == |outcomes|
    ensures |s| == n && forall i | 0 <= i < n :: s[i] == Future(i, jobs[i], outcomes[i])
  {
    seq(n, i requires 0 <= i < n => Future(i, jobs[i], outcomes[i]))
  }

  ghost predicate Distinct(s: seq<Future>)
  {
    forall a, b | 0 <= a < b < |s| :: s[a] != s[b]
  }

  lemma {:induction false} DistinctCount(s: seq<Future>, f: Future)
    requires Distinct(s)
    ensures multiset(s)[f] == if f in s then 1 else 0
  {
    if s != [] {
      var init, last := s[..|s| - 1], s[|s| - 1];
      assert s == init + [last];
      DistinctCount(init, f);
    }
  }

  /** Once nothing is in flight, the futures collected are those submitted, in some order. */
  lemma CollectedIsSubmitted(jobs: seq<Job>, outcomes: seq<Outcome>, next: nat, order: seq<Future>)
    requires AllTracked(jobs, outcomes, next, {}, {}, order)
    ensures multiset(order) == multiset(Submitted(jobs, outcomes, next))
  {
    var s := Submitted(jobs, outcomes, next);
    forall f ensures multiset(order)[f] == multiset(s)[f] {
      DistinctCount(order, f);
      DistinctCount(s, f);
      if f in order {
        assert Taken(jobs, outcomes, next, f);
        assert s[f.id] == f;
      }
      assert f in s ==> Kept(jobs, outcomes, f.id, {}, {}, order);
    }
  }

  /** What a finished run has collected does not depend on the order of completion. */
  lemma Settled(jobs: seq<Job>, outcomes: seq<Outcome>, next: nat, order: seq<Future>)
    requires AllTracked(jobs, outcomes, next, {}, {}, order)
    ensures multiset(RowsIn(order)) == multiset(RowsIn(Submitted(jobs, outcomes, next)))
    ensures Fates(order) == multiset(jobs[..next])
  {
    var s := Submitted(jobs, outcomes, next);
    CollectedIsSubmitted(jobs, outcomes, next, order);
    OrderIrrelevant(order, s);
    FatesPartition(order);
    JobsPermute(order, s);
    assert Jobs(s) == jobs[..next];
  }

  // ---------------------------------------------------------------- what a run does, move by move

  /** What a run holds in memory and what it has written, in the order it was written.  `flushing`
      is set between the two transactions of a flush. */
  datatype Books = Books(next: nat, flying: set<Future>, rows: seq<Row>, done: seq<Job>, failed: seq<Job>,
                         copied: seq<Row>, cursors: seq<Job>, flushing: bool)

  const NoBooks := Books(0, {}, [], [], [], [], [], false)

  datatype Move = Submit(f: Future) | Settle(f: Future) | Copy | Record

  ghost predicate Can(jobs: seq<Job>, outcomes: seq<Outcome>, b: Books, m: Move)
  {
    match m
    case Submit(f) => !b.flushing && f.id == b.next && Taken(jobs, outcomes, b.next + 1, f)
    case Settle(f) => !b.flushing && f in b.flying
    case Copy => !b.flushing
    case Record => b.flushing
  }

  function Moved(b: Books, m: Move): Books
  {
    match m
    case Submit(f) => b.(next := b.next + 1, flying := b.flying + {f})
    case Settle(f) =>
      if f.outcome.Error? then b.(flying := b.flying - {f}, failed := b.failed + [f.job])
      else b.(flying := b.flying - {f}, rows := b.rows + f.outcome.rows,
              done := if f.outcome.rows == [] then b.done else b.done + [f.job])
    case Copy => b.(copied := b.copied + b.rows, rows := [], flushing := true)
    case Record => b.(cursors := b.cursors + b.done, done := [], flushing := false)
  }

  ghost function Replay(trace: seq<Move>): Books
  {
    if trace == [] then NoBooks else Moved(Replay(trace[..|trace| - 1]), trace[|trace| - 1])
  }

  ghost predicate Legal(jobs: seq<Job>, outcomes: seq<Outcome>, trace: seq<Move>)
  {
    trace == [] || var init := trace[..|trace| - 1];
      Legal(jobs, outcomes, init) && Can(jobs, outcomes, Replay(init), trace[|trace| - 1])
  }

  /** `trace` is a legal account of how `b` came about. */
  ghost predicate Traced(jobs: seq<Job>, outcomes: seq<Outcome>, trace: seq<Move>, b: Books)
  {
    Legal(jobs, outcomes, trace) && Replay(trace) == b
  }

  lemma SnocMove(jobs: seq<Job>, outcomes: seq<Outcome>, trace: seq<Move>, b: Books, m: Move)
    requires Traced(jobs, outcomes, trace, b) && Can(jobs, outcomes, b, m)
    ensures Traced(jobs, outcomes, trace + [m], Moved(b, m))
  {
    assert (trace + [m])[..|trace + [m]| - 1] == trace;
  }

  /** Nothing collected is lost, duplicated or reordered on its way to the database. */
  ghost predicate Balanced(order: seq<Future>, b: Books, requests: nat)
  {
    && b.copied + b.rows == RowsIn(order)
    && b.cursors + b.done == JobsWith(order, Completed)
    && b.failed == JobsWith(order, Failed)
    && requests == RequestsIn(order)
  }

  lemma SettleBalances(order: seq<Future>, f: Future, b: Books, requests: nat)
    requires Balanced(order, b, requests)
    ensures Balanced(order + [f], Moved(b, Settle(f)), requests + CostOf(f.outcome))
  {
    SnocRows(order, f);
    SnocJobs(order, f, Failed);
    SnocJobs(order, f, Completed);
    Assoc(b.copied, b.rows, RowsOf(f.outcome));
  }

  lemma FlushBalances(order: seq<Future>, b: Books, m: Move, requests: nat)
    requires Balanced(order, b, requests) && (m.Copy? || m.Record?)
    ensures Balanced(order, Moved(b, m), requests)
  {
  }

  /** The first `stored` results have their rows in the table, and a recorded cursor belongs to one
      of them. */
  ghost predicate Durable(order: seq<Future>, b: Books, stored: nat)
  {
    && stored <= |order|
    && b.copied == RowsIn(order[..stored])
    && b.cursors <= JobsWith(order[..stored], Completed)
    && (b.flushing ==> stored == |order| && b.rows == [])
  }

  lemma SettleDurable(order: seq<Future>, f: Future, b: Books, stored: nat)
    requires Durable(order, b, stored) && !b.flushing
    ensures Durable(order + [f], Moved(b, Settle(f)), stored)
  {
    assert (order + [f])[..stored] == order[..stored];
  }

  lemma FlushDurable(order: seq<Future>, b: Books, stored: nat, requests: nat)
    requires Durable(order, b, stored) && Balanced(order, b, requests)
    ensures !b.flushing ==> Durable(order, Moved(b, Copy), |order|)
    ensures b.flushing ==> Durable(order, Moved(b, Record), |order|)
  {
    assert order[..|order|] == order;
    assert JobsWith(order[..stored], Completed) == JobsWith(order, Completed) || !b.flushing;
    if !b.flushing { assert b.cursors <= b.cursors + b.done; }
  }

  /** A run that has collected everything it took, and stopped where it had to. */
  ghost predicate Ended(jobs: seq<Job>, outcomes: seq<Outcome>, cap: Cap, next: nat, order: seq<Future>)
  {
    && AllTracked(jobs, outcomes, next, {}, {}, order)
    && (next == |jobs| || (cap.Limit? && RequestsIn(order) >= cap.requests))
    && (cap.Limit? ==> |order| - |JobsWith(order, Failed)| <= cap.requests)
  }

  /** Successful, in flight or about to be processed: never more than the cap. */
  ghost predicate Capped(order: seq<Future>, b: Books, cap: Cap)
  {
    cap.Limit? ==> |order| - |b.failed| + |b.flying| <= cap.requests
  }

  /** What a run is given, and how far it has come. */
  datatype Plan = Plan(jobs: seq<Job>, outcomes: seq<Outcome>, workers: nat, cap: Cap)

  datatype Account = Account(order: seq<Future>, stored: nat, requests: nat, trace: seq<Move>)

  const NoAccount := Account([], 0, 0, [])

  /** The account once `m` has been made. */
  ghost function Noted(acc: Account, m: Move): Account
  {
    var trace := acc.trace + [m];
    match m
    case Submit(_) => acc.(trace := trace)
    case Settle(f) => Account(acc.order + [f], acc.stored, acc.requests + CostOf(f.outcome), trace)
    case Copy => acc.(stored := |acc.order|, trace := trace)
    case Record => acc.(trace := trace)
  }

  ghost predicate Setup(p: Plan)
  {
    && |p.outcomes| == |p.jobs| && p.workers >= 1
    && forall i | 0 <= i < |p.outcomes| && p.outcomes[i].Fetched? :: p.outcomes[i].requests >= 1
  }

  /** What a run keeps to. */
  datatype Law =
    | Tracking       // every job taken is in exactly one place
    | Balance        // nothing collected is lost, duplicated or reordered on its way to the database
    | Durability     // a cursor is never ahead of its rows
    | Capacity       // the window of futures and the request cap
    | Provenance     // the books are those of the moves made

  ghost predicate Holds(law: Law, p: Plan, pending: set<Future>, batch: set<Future>, b: Books, acc: Account)
  {
    match law
    case Tracking => b.flying == pending + batch && AllTracked(p.jobs, p.outcomes, b.next, pending, batch, acc.order)
    case Balance => Balanced(acc.order, b, acc.requests)
    case Durability => Durable(acc.order, b, acc.stored)
    case Capacity => Setup(p) && |pending| <= 4 * p.workers && Capped(acc.order, b, p.cap)
    case Provenance => Traced(p.jobs, p.outcomes, acc.trace, b)
  }

  /** All of it, between any two database writes. */
  ghost predicate Sound(p: Plan, pending: set<Future>, batch: set<Future>, b: Books, acc: Account)
  {
    forall law :: Holds(law, p, pending, batch, b, acc)
  }

  lemma StartSound(p: Plan)
    requires Setup(p)
    ensures Sound(p, {}, {}, NoBooks, NoAccount)
  {
  }

  lemma SubmitSound(p: Plan, pending: set<Future>, b: Books, acc: Account, f: Future)
    requires Sound(p, pending, {}, b, acc) && |pending| < 4 * p.workers && !b.flushing
    requires b.next < |p.jobs| == |p.outcomes| && f == Future(b.next, p.jobs[b.next], p.outcomes[b.next])
    requires p.cap.Limit? ==> acc.requests + |pending| < p.cap.requests
    ensures Sound(p, pending + {f}, {}, Moved(b, Submit(f)), Noted(acc, Submit(f)))
  {
    forall law ensures Holds(law, p, pending + {f}, {}, Moved(b, Submit(f)), Noted(acc, Submit(f))) {
      assert Holds(law, p, pending, {}, b, acc);
      match law
      case Tracking => SubmitTracked(p.jobs, p.outcomes, b.next, pending, acc.order, f);
      case Capacity => SubmitCapped(p, pending, b, acc, f);
      case Provenance => SnocMove(p.jobs, p.outcomes, acc.trace, b, Submit(f));
      case _ =>
    }
  }

  lemma SubmitCapped(p: Plan, pending: set<Future>, b: Books, acc: Account, f: Future)
    requires Sound(p, pending, {}, b, acc) && (p.cap.Limit? ==> acc.requests + |pending| < p.cap.requests)
    ensures Capped(acc.order, Moved(b, Submit(f)), p.cap)
  {
    assert Holds(Tracking, p, pending, {}, b, acc) && Holds(Balance, p, pending, {}, b, acc);
    assert Holds(Capacity, p, pending, {}, b, acc);
    forall g | g in acc.order && g.outcome.Fetched? ensures g.outcome.requests >= 1 {
      assert Taken(p.jobs, p.outcomes, b.next, g);
    }
    SuccessesPay(acc.order);
    assert b.flying == pending;
  }

  lemma SettleTracked(p: Plan, pending: set<Future>, batch: set<Future>, b: Books, order: seq<Future>, f: Future)
    requires b.flying == pending + batch && AllTracked(p.jobs, p.outcomes, b.next, pending, batch, order) && f in batch
    ensures b.flying - {f} == pending + (batch - {f})
    ensures AllTracked(p.jobs, p.outcomes, b.next, pending, batch - {f}, order + [f])
  {
    CollectTracked(p.jobs, p.outcomes, b.next, pending, batch, order, f);
  }

  lemma SettleCapped(order: seq<Future>, b: Books, cap: Cap, f: Future)
    requires Capped(order, b, cap) && f in b.flying
    ensures Capped(order + [f], Moved(b, Settle(f)), cap)
  {
    assert |b.flying - {f}| == |b.flying| - 1;
  }

  lemma SettleSound(p: Plan, pending: set<Future>, batch: set<Future>, b: Books, acc: Account, f: Future)
    requires Sound(p, pending, batch, b, acc) && !b.flushing && f in batch
    ensures Sound(p, pending, batch - {f}, Moved(b, Settle(f)), Noted(acc, Settle(f)))
  {
    assert Holds(Tracking, p, pending, batch, b, acc) && f in b.flying;
    forall law ensures Holds(law, p, pending, batch - {f}, Moved(b, Settle(f)), Noted(acc, Settle(f))) {
      assert Holds(law, p, pending, batch, b, acc);
      match law
      case Tracking => SettleTracked(p, pending, batch, b, acc.order, f);
      case Balance => SettleBalances(acc.order, f, b, acc.requests);
      case Durability => SettleDurable(acc.order, f, b, acc.stored);
      case Provenance => SnocMove(p.jobs, p.outcomes, acc.trace, b, Settle(f));
      case Capacity => SettleCapped(acc.order, b, p.cap, f);
    }
  }

  lemma FlushSound(p: Plan, pending: set<Future>, batch: set<Future>, b: Books, acc: Account, m: Move)
    requires Sound(p, pending, batch, b, acc) && m == if b.flushing then Record else Copy
    ensures Sound(p, pending, batch, Moved(b, m), Noted(acc, m))
  {
    forall law ensures Holds(law, p, pending, batch, Moved(b, m), Noted(acc, m)) {
      assert Holds(law, p, pending, batch, b, acc);
      match law
      case Balance => FlushBalances(acc.order, b, m, acc.requests);
      case Durability =>
        assert Holds(Balance, p, pending, batch, b, acc);
        FlushDurable(acc.order, b, acc.stored, acc.requests);
      case Provenance => SnocMove(p.jobs, p.outcomes, acc.trace, b, m);
      case _ =>
    }
  }

  lemma WithdrawSound(p: Plan, pending: set<Future>, done: set<Future>, b: Books, acc: Account)
    requires Sound(p, pending, {}, b, acc) && done <= pending
    ensures Sound(p, pending - done, done, b, acc)
  {
    forall law ensures Holds(law, p, pending - done, done, b, acc) {
      assert Holds(law, p, pending, {}, b, acc);
      if law.Tracking? {
        assert pending == (pending - done) + done;
        WithdrawTracked(p.jobs, p.outcomes, b.next, pending, done, acc.order);
      }
    }
  }

  lemma WithdrawTracked(
    jobs: seq<Job>, outcomes: seq<Outcome>, next: nat, pending: set<Future>, done: set<Future>, order: seq<Future>)
    requires AllTracked(jobs, outcomes, next, pending, {}, order) && done <= pending
    ensures AllTracked(jobs, outcomes, next, pending - done, done, order)
  {
    forall i | 0 <= i < next ensures Kept(jobs, outcomes, i, pending - done, done, order) {
      assert Kept(jobs, outcomes, i, pending, {}, order);
    }
  }

  lemma SoundBasics(p: Plan, pending: set<Future>, batch: set<Future>, b: Books, acc: Account)
    requires Sound(p, pending, batch, b, acc)
    ensures b.next <= |p.jobs| == |p.outcomes| && |acc.order| + |pending| + |batch| == b.next && Setup(p)
  {
    assert Holds(Tracking, p, pending, batch, b, acc) && Holds(Capacity, p, pending, batch, b, acc);
  }

  /** A run that has ended holds or has written the rows of exactly the jobs taken, and every one of
      them failed, was empty, or is recorded or about to be recorded as completed. */
  ghost predicate Collected(p: Plan, b: Books, order: seq<Future>)
  {
    && Ended(p.jobs, p.outcomes, p.cap, b.next, order)
    && multiset(b.copied + b.rows) == multiset(RowsIn(Submitted(p.jobs, p.outcomes, b.next)))
    && multiset(b.failed) + multiset(JobsWith(order, Empty)) + multiset(b.cursors + b.done) == multiset(p.jobs[..b.next])
  }

  lemma FlushCollected(p: Plan, b: Books, order: seq<Future>)
    requires Collected(p, b, order)
    ensures Collected(p, Moved(Moved(b, Copy), Record), order)
  {
    assert b.copied + b.rows + [] == b.copied + b.rows && b.cursors + b.done + [] == b.cursors + b.done;
  }

  /** What a run that has nothing in flight has collected. */
  lemma EndSettled(p: Plan, b: Books, acc: Account)
    requires Sound(p, {}, {}, b, acc)
    requires b.next == |p.jobs| || (p.cap.Limit? && acc.requests >= p.cap.requests)
    ensures Collected(p, b, acc.order)
  {
    assert Holds(Tracking, p, {}, {}, b, acc) && Holds(Balance, p, {}, {}, b, acc) && Holds(Capacity, p, {}, {}, b, acc);
    Settled(p.jobs, p.outcomes, b.next, acc.order);
  }

  // ---------------------------------------------------------------- whole runs

  /** The futures in flight, the books, and how they came about. */
  datatype Sched = Sched(pending: set<Future>, books: Books, acc: Account)

  const Idle := Sched({}, NoBooks, NoAccount)

  /** `submit_next` takes another job, and the loop around it asks for one. */
  predicate Room(p: Plan, s: Sched)
  {
    && |s.pending| < 4 * p.workers && s.books.next < |p.jobs|
    && (p.cap.Limit? ==> s.acc.requests + |s.pending| < p.cap.requests)
  }

  ghost function TakeNext(p: Plan, s: Sched): Sched
    requires s.books.next < |p.jobs| == |p.outcomes|
  {
    var f := Future(s.books.next, p.jobs[s.books.next], p.outcomes[s.books.next]);
    Sched(s.pending + {f}, Moved(s.books, Submit(f)), Noted(s.acc, Submit(f)))
  }

  /** Takes jobs for as long as there is room. */
  ghost function Refilled(p: Plan, s: Sched): Sched
    requires |p.jobs| == |p.outcomes|
    decreases |p.jobs| - s.books.next
  {
    if Room(p, s) then Refilled(p, TakeNext(p, s)) else s
  }

  ghost function Flushed(s: Sched): Sched
  {
    s.(books := Moved(Moved(s.books, Copy), Record), acc := Noted(Noted(s.acc, Copy), Record))
  }

  /** One result is booked, and flushed if `threshold` rows are pending. */
  ghost function Booked(threshold: nat, s: Sched, f: Future): Sched
  {
    var b := s.(books := Moved(s.books, Settle(f)), acc := Noted(s.acc, Settle(f)));
    if |b.books.rows| >= threshold then Flushed(b) else b
  }

  ghost function AllBooked(threshold: nat, s: Sched, handed: seq<Future>): Sched
  {
    if handed == [] then s
    else Booked(threshold, AllBooked(threshold, s, handed[..|handed| - 1]), handed[|handed| - 1])
  }

  ghost function Futures(s: seq<Future>): set<Future> { set f | f in s }

  /** One turn of the loop: `wait` hands back `handed`, which is booked in that order. */
  ghost function Turn(p: Plan, threshold: nat, s: Sched, handed: seq<Future>): Sched
    requires |p.jobs| == |p.outcomes|
  {
    Refilled(p, AllBooked(threshold, s.(pending := s.pending - Futures(handed)), handed))
  }

  /** `wait` may hand back any of the futures in flight, at least one, in any order. */
  ghost predicate CanHand(s: Sched, handed: seq<Future>)
  {
    handed != [] && Distinct(handed) && Futures(handed) <= s.pending
  }

  /** `run_parallel_fetches`, given what `wait` hands back turn by turn. */
  ghost function Play(p: Plan, threshold: nat, script: seq<seq<Future>>): Sched
    requires |p.jobs| == |p.outcomes|
  {
    if script == [] then Refilled(p, Idle)
    else Turn(p, threshold, Play(p, threshold, script[..|script| - 1]), script[|script| - 1])
  }

  ghost predicate Playable(p: Plan, threshold: nat, script: seq<seq<Future>>)
    requires |p.jobs| == |p.outcomes|
  {
    script == [] || (
      && Playable(p, threshold, script[..|script| - 1])
      && CanHand(Play(p, threshold, script[..|script| - 1]), script[|script| - 1]))
  }

  /** `script` is a whole run: nothing is left in flight. */
  ghost predicate Ran(p: Plan, threshold: nat, script: seq<seq<Future>>)
    requires |p.jobs| == |p.outcomes|
  {
    Playable(p, threshold, script) && Play(p, threshold, script).pending == {}
  }

  lemma SnocTurn(p: Plan, threshold: nat, script: seq<seq<Future>>, handed: seq<Future>)
    requires |p.jobs| == |p.outcomes| && Playable(p, threshold, script) && CanHand(Play(p, threshold, script), handed)
    ensures Playable(p, threshold, script + [handed])
    ensures Play(p, threshold, script + [handed]) == Turn(p, threshold, Play(p, threshold, script), handed)
  {
    assert (script + [handed])[..|script + [handed]| - 1] == script;
  }

  /** Between two turns. */
  ghost predicate Steady(p: Plan, s: Sched)
  {
    Sound(p, s.pending, {}, s.books, s.acc) && !s.books.flushing
  }

  lemma {:induction false} RefillSteady(p: Plan, s: Sched)
    requires Steady(p, s) && |p.jobs| == |p.outcomes|
    ensures var r := Refilled(p, s);
            && Steady(p, r) && !Room(p, r) && r.books.next >= s.books.next
            && r.books.failed == s.books.failed && r.acc.order == s.acc.order && r.acc.requests == s.acc.requests
    decreases |p.jobs| - s.books.next
  {
    if Room(p, s) {
      var f := Future(s.books.next, p.jobs[s.books.next], p.outcomes[s.books.next]);
      SubmitSound(p, s.pending, s.books, s.acc, f);
      RefillSteady(p, TakeNext(p, s));
    }
  }

  lemma BookedSound(p: Plan, threshold: nat, s: Sched, batch: set<Future>, f: Future)
    requires Sound(p, s.pending, batch, s.books, s.acc) && !s.books.flushing && f in batch
    ensures var r := Booked(threshold, s, f);
            && Sound(p, s.pending, batch - {f}, r.books, r.acc) && !r.books.flushing && r.pending == s.pending
            && r.books.next == s.books.next && r.acc.order == s.acc.order + [f]
            && r.acc.requests == s.acc.requests + CostOf(f.outcome)
  {
    SettleSound(p, s.pending, batch, s.books, s.acc, f);
    var b := s.(books := Moved(s.books, Settle(f)), acc := Noted(s.acc, Settle(f)));
    if |b.books.rows| >= threshold {
      FlushSound(p, b.pending, batch - {f}, b.books, b.acc, Copy);
      FlushSound(p, b.pending, batch - {f}, Moved(b.books, Copy), Noted(b.acc, Copy), Record);
    }
  }

  lemma {:induction false} AllBookedSound(p: Plan, threshold: nat, s: Sched, handed: seq<Future>, rest: set<Future>)
    requires Distinct(handed) && Futures(handed) !! rest && !s.books.flushing
    requires Sound(p, s.pending, Futures(handed) + rest, s.books, s.acc)
    ensures var r := AllBooked(threshold, s, handed);
            && Sound(p, s.pending, rest, r.books, r.acc) && !r.books.flushing && r.pending == s.pending
            && r.books.next == s.books.next && r.acc.order == s.acc.order + handed
  {
    if handed == [] {
      assert Futures(handed) + rest == rest && s.acc.order + handed == s.acc.order;
    } else {
      var init, last := handed[..|handed| - 1], handed[|handed| - 1];
      assert handed == init + [last];
      assert Futures(init) + (rest + {last}) == Futures(handed) + rest;
      AllBookedSound(p, threshold, s, init, rest + {last});
      BookedSound(p, threshold, AllBooked(threshold, s, init), rest + {last}, last);
      assert rest + {last} - {last} == rest;
      assert s.acc.order + init + [last] == s.acc.order + handed;
    }
  }

  lemma TurnSteady(p: Plan, threshold: nat, s: Sched, handed: seq<Future>)
    requires Steady(p, s) && CanHand(s, handed) && |p.jobs| == |p.outcomes|
    ensures var r := Turn(p, threshold, s, handed);
            Steady(p, r) && !Room(p, r) && r.books.next >= s.books.next && r.acc.order == s.acc.order + handed
  {
    var done := Futures(handed);
    WithdrawSound(p, s.pending, done, s.books, s.acc);
    assert done + {} == done;
    AllBookedSound(p, threshold, s.(pending := s.pending - done), handed, {});
    RefillSteady(p, AllBooked(threshold, s.(pending := s.pending - done), handed));
  }

  lemma {:induction false} PlaySteady(p: Plan, threshold: nat, script: seq<seq<Future>>)
    requires Setup(p) && Playable(p, threshold, script)
    ensures Steady(p, Play(p, threshold, script)) && !Room(p, Play(p, threshold, script))
  {
    if script == [] {
      StartSound(p);
      RefillSteady(p, Idle);
    } else {
      PlaySteady(p, threshold, script[..|script| - 1]);
      TurnSteady(p, threshold, Play(p, threshold, script[..|script| - 1]), script[|script| - 1]);
    }
  }

  /** Between two turns no more rows are held back than make up a flush. */
  lemma {:induction false} BacklogBounded(p: Plan, threshold: nat, script: seq<seq<Future>>)
    requires |p.jobs| == |p.outcomes|
    ensures var rows := Play(p, threshold, script).books.rows; |rows| < threshold || rows == []
  {
    if script == [] {
      RefillKeepsRows(p, Idle);
    } else {
      var s, handed := Play(p, threshold, script[..|script| - 1]), script[|script| - 1];
      BacklogBounded(p, threshold, script[..|script| - 1]);
      BookedBacklog(threshold, s.(pending := s.pending - Futures(handed)), handed);
      RefillKeepsRows(p, AllBooked(threshold, s.(pending := s.pending - Futures(handed)), handed));
    }
  }

  lemma {:induction false} RefillKeepsRows(p: Plan, s: Sched)
    requires |p.jobs| == |p.outcomes|
    ensures Refilled(p, s).books.rows == s.books.rows
    decreases |p.jobs| - s.books.next
  {
    if Room(p, s) { RefillKeepsRows(p, TakeNext(p, s)); }
  }

  lemma {:induction false} BookedBacklog(threshold: nat, s: Sched, handed: seq<Future>)
    requires |s.books.rows| < threshold || s.books.rows == []
    ensures var rows := AllBooked(threshold, s, handed).books.rows; |rows| < threshold || rows == []
  {
    if handed != [] { BookedBacklog(threshold, s, handed[..|handed| - 1]); }
  }

  /** Where a whole run ends. */
  lemma RanEnds(p: Plan, threshold: nat, script: seq<seq<Future>>)
    requires Setup(p) && Ran(p, threshold, script)
    ensures var s := Play(p, threshold, script);
            Sound(p, {}, {}, s.books, s.acc) && !s.books.flushing && Collected(p, s.books, s.acc.order)
  {
    PlaySteady(p, threshold, script);
    var s := Play(p, threshold, script);
    SoundBasics(p, {}, {}, s.books, s.acc);
    EndSettled(p, s.books, s.acc);
  }

  /** The futures in flight, in some order. */
  lemma {:induction false} Listed(fs: set<Future>) returns (s: seq<Future>)
    ensures Distinct(s) && Futures(s) == fs && (fs != {} ==> s != [])
    decreases |fs|
  {
    s := [];
    if f :| f in fs {
      var rest := Listed(fs - {f});
      s := rest + [f];
      assert forall k | 0 <= k < |rest| :: rest[k] in Futures(rest);
      assert Futures(s) == Futures(rest) + {f};
    }
  }

  /** `wait` hands back everything at once. */
  lemma HandAll(p: Plan, threshold: nat, script: seq<seq<Future>>) returns (script': seq<seq<Future>>, handed: seq<Future>)
    requires Setup(p) && Playable(p, threshold, script) && Play(p, threshold, script).pending != {}
    ensures script' == script + [handed] && Playable(p, threshold, script')
    ensures Futures(handed) == Play(p, threshold, script).pending && CanHand(Play(p, threshold, script), handed)
    ensures Play(p, threshold, script') == Turn(p, threshold, Play(p, threshold, script), handed)
  {
    handed := Listed(Play(p, threshold, script).pending);
    script' := script + [handed];
    SnocTurn(p, threshold, script, handed);
  }

  /** However far a run has come, it can be brought to its end. */
  lemma {:induction false} RunsOn(p: Plan, threshold: nat, script: seq<seq<Future>>) returns (script': seq<seq<Future>>)
    requires Setup(p) && Playable(p, threshold, script)
    ensures Ran(p, threshold, script')
    decreases |p.jobs| - |Play(p, threshold, script).acc.order|
  {
    var s := Play(p, threshold, script);
    PlaySteady(p, threshold, script);
    SoundBasics(p, s.pending, {}, s.books, s.acc);
    script' := script;
    if s.pending != {} {
      var handed;
      script', handed := HandAll(p, threshold, script);
      TurnSteady(p, threshold, s, handed);
      var r := Play(p, threshold, script');
      SoundBasics(p, r.pending, {}, r.books, r.acc);
      script' := RunsOn(p, threshold, script');
    }
  }

  lemma HandOne(threshold: nat, s: Sched, handed: seq<Future>, f: Future)
    requires Distinct(handed) && f !in handed
    ensures Distinct(handed + [f]) && Futures(handed + [f]) == Futures(handed) + {f}
    ensures AllBooked(threshold, s, handed + [f]) == Booked(threshold, AllBooked(threshold, s, handed), f)
  {
    assert (handed + [f])[..|handed + [f]| - 1] == handed;
    forall k | 0 <= k < |handed| ensures handed[k] != f { assert handed[k] in handed; }
  }

  class ParallelFetch {
    const jobs: seq<Job>
    const outcomes: seq<Outcome>   // what the fetch of each job will return
    const workers: nat
    const cap: Cap
    const flushThreshold: nat

    var next: nat                  // jobs taken from the iterator
    var pending: set<Future>       // submitted futures not yet waited for
    var requests: nat
    var pendingRows: seq<Row>
    var pendingDone: seq<Job>
    var failed: seq<Job>
    var copied: seq<Row>           // rows copied to the table, in order
    var cursors: seq<Job>          // windows recorded as completed, in order
    ghost var books: Books         // the fields above as one value
    ghost var acc: Account         // how they came about

    ghost function Given(): Plan { Plan(jobs, outcomes, workers, cap) }

    ghost predicate Matches()
      reads this
    {
      && next == books.next && pendingRows == books.rows && pendingDone == books.done && failed == books.failed
      && copied == books.copied && cursors == books.cursors && requests == acc.requests
    }

    ghost predicate Valid(batch: set<Future>)
      reads this
    {
      Matches() && Sound(Given(), pending, batch, books, acc)
    }

    ghost function Now(): Sched
      reads this
    {
      Sched(pending, books, acc)
    }

    constructor (jobs: seq<Job>, outcomes: seq<Outcome>, workers: nat, cap: Cap, flushThreshold: nat)
      requires Setup(Plan(jobs, outcomes, workers, cap))
      ensures Valid({}) && Now() == Idle
      ensures Given() == Plan(jobs, outcomes, workers, cap) && this.flushThreshold == flushThreshold
    {
      this.jobs, this.outcomes, this.workers := jobs, outcomes, workers;
      this.cap, this.flushThreshold := cap, flushThreshold;
      next, pending, requests := 0, {}, 0;
      pendingRows, pendingDone, failed, copied, cursors := [], [], [], [], [];
      books, acc := NoBooks, NoAccount;
      StartSound(Plan(jobs, outcomes, workers, cap));
    }

    method SubmitNext() returns (submitted: bool)
      requires Valid({}) && !books.flushing && |pending| < 4 * workers
      modifies this`next, this`pending, this`books, this`acc
      ensures Valid({}) && !books.flushing
      ensures |jobs| == |outcomes| && submitted == Room(Given(), old(Now()))
      ensures Now() == if submitted then TakeNext(Given(), old(Now())) else old(Now())
    {
      SoundBasics(Given(), pending, {}, books, acc);
      if cap.Limit? && requests + |pending| >= cap.requests { return false; }
      if next == |jobs| { return false; }
      Enter(Future(next, jobs[next], outcomes[next]));
      submitted := true;
    }

    /** Puts the next job in flight. */
    method Enter(f: Future)
      requires Valid({}) && !books.flushing && |pending| < 4 * workers && next < |jobs| == |outcomes|
      requires f == Future(next, jobs[next], outcomes[next])
      requires cap.Limit? ==> requests + |pending| < cap.requests
      modifies this`next, this`pending, this`books, this`acc
      ensures Valid({}) && Now() == TakeNext(Given(), old(Now()))
    {
      SubmitSound(Given(), pending, books, acc, f);
      pending := pending + {f};
      next := next + 1;
      books, acc := Moved(books, Submit(f)), Noted(acc, Submit(f));
    }

    /** The first transaction of a flush. */
    method CopyRows(ghost batch: set<Future>)
      requires Valid(batch) && !books.flushing
      modifies this`copied, this`pendingRows, this`books, this`acc
      ensures Valid(batch) && books == Moved(old(books), Copy) && acc == Noted(old(acc), Copy)
    {
      FlushSound(Given(), pending, batch, books, acc, Copy);
      copied := copied + pendingRows;
      pendingRows := [];
      books, acc := Moved(books, Copy), Noted(acc, Copy);
    }

    /** The second transaction of a flush. */
    method UpsertCursors(ghost batch: set<Future>)
      requires Valid(batch) && books.flushing
      modifies this`cursors, this`pendingDone, this`books, this`acc
      ensures Valid(batch) && books == Moved(old(books), Record) && acc == Noted(old(acc), Record)
    {
      FlushSound(Given(), pending, batch, books, acc, Record);
      cursors := cursors + pendingDone;
      pendingDone := [];
      books, acc := Moved(books, Record), Noted(acc, Record);
    }

    /** Rows first, cursors second. */
    method Flush(ghost batch: set<Future>)
      requires Valid(batch) && !books.flushing
      modifies this`copied, this`pendingRows, this`cursors, this`pendingDone, this`books, this`acc
      ensures Valid(batch) && books == Moved(Moved(old(books), Copy), Record)
      ensures acc == Noted(Noted(old(acc), Copy), Record)
      ensures pendingRows == [] && pendingDone == []
      ensures copied == old(copied) + old(pendingRows) && cursors == old(cursors) + old(pendingDone)
    {
      CopyRows(batch);
      UpsertCursors(batch);
    }

    /** Books the result of one completed future. */
    method Book(f: Future, ghost batch: set<Future>)
      requires Valid(batch) && !books.flushing && f in batch
      modifies this`requests, this`pendingRows, this`pendingDone, this`failed, this`books, this`acc
      ensures Valid(batch - {f}) && books == Moved(old(books), Settle(f)) && acc == Noted(old(acc), Settle(f))
    {
      SettleSound(Given(), pending, batch, books, acc, f);
      if f.outcome.Fetched? {
        requests := requests + f.outcome.requests;
        pendingRows := pendingRows + f.outcome.rows;
        if f.outcome.rows != [] {
          pendingDone := pendingDone + [f.job];
        }
      } else {
        failed := failed + [f.job];
      }
      books, acc := Moved(books, Settle(f)), Noted(acc, Settle(f));
    }

    /** Processes one completed future, flushing once enough rows are pending. */
    method Collect(f: Future, ghost batch: set<Future>)
      requires Valid(batch) && !books.flushing && f in batch
      modifies this`requests, this`pendingRows, this`pendingDone, this`failed, this`copied, this`cursors,
               this`books, this`acc
      ensures Valid(batch - {f}) && !books.flushing && Now() == Booked(flushThreshold, old(Now()), f)
    {
      Book(f, batch);
      if |pendingRows| >= flushThreshold {
        Flush(batch - {f});
      }
    }

    method Refill()
      requires Valid({}) && !books.flushing
      modifies this`next, this`pending, this`books, this`acc
      ensures Valid({}) && !books.flushing && |jobs| == |outcomes| && Now() == Refilled(Given(), old(Now()))
    {
      var more := true;
      SoundBasics(Given(), pending, {}, books, acc);
      while more && |pending| < 4 * workers
        invariant Valid({}) && !books.flushing && next <= |jobs|
        invariant Refilled(Given(), Now()) == Refilled(Given(), old(Now()))
        invariant !more ==> !Room(Given(), Now())
        decreases more, |jobs| - next
      {
        more := SubmitNext();
        SoundBasics(Given(), pending, {}, books, acc);
      }
    }

    /** `wait` hands back some of the futures in flight. */
    method Withdraw(done: set<Future>)
      requires Valid({}) && done <= pending
      modifies this`pending
      ensures Valid(done) && pending == old(pending) - done
    {
      WithdrawSound(Given(), pending, done, books, acc);
      pending := pending - done;
    }

    /** Books what `wait` has handed back, in the order of the set's iteration. */
    method Process(done: set<Future>) returns (ghost handed: seq<Future>)
      requires Valid(done) && !books.flushing
      modifies this`requests, this`pendingRows, this`pendingDone, this`failed, this`copied, this`cursors,
               this`books, this`acc
      ensures Valid({}) && !books.flushing
      ensures Distinct(handed) && Futures(handed) == done && Now() == AllBooked(flushThreshold, old(Now()), handed)
    {
      var batch := done;
      handed := [];
      while batch != {}
        invariant Valid(batch) && !books.flushing && batch <= done
        invariant Distinct(handed) && Futures(handed) == done - batch
        invariant Now() == AllBooked(flushThreshold, old(Now()), handed)
        decreases |batch|
      {
        var f :| f in batch;
        Collect(f, batch);
        HandOne(flushThreshold, old(Now()), handed, f);
        batch := batch - {f};
        handed := handed + [f];
      }
    }

    /** `run_parallel_fetches`: exactly the run that `script`, what `wait` hands back turn by turn,
        determines.  Whatever it hands back, at the end nothing is in flight, every job taken was
        collected exactly once, and - unless a request cap stopped it - every job was taken. */
    method Run() returns (ghost script: seq<seq<Future>>)
      requires Valid({}) && Now() == Idle
      modifies this
      ensures Valid({}) && !books.flushing && pending == {} && Collected(Given(), books, acc.order)
      ensures |jobs| == |outcomes| && Ran(Given(), flushThreshold, script) && Now() == Play(Given(), flushThreshold, script)
      ensures cap.Unlimited? ==> next == |jobs|
    {
      script := [];
      SoundBasics(Given(), pending, {}, books, acc);
      Refill();
      while pending != {}
        invariant Valid({}) && !books.flushing
        invariant Playable(Given(), flushThreshold, script) && Now() == Play(Given(), flushThreshold, script)
        decreases |jobs| - |acc.order|
      {
        ghost var before := Now();
        var done: set<Future> :| done <= pending && done != {};
        Withdraw(done);
        ghost var handed := Process(done);
        Refill();
        TurnSteady(Given(), flushThreshold, before, handed);
        SnocTurn(Given(), flushThreshold, script, handed);
        script := script + [handed];
        SoundBasics(Given(), pending, {}, books, acc);
      }
      RanEnds(Given(), flushThreshold, script);
    }

    /** The parallel branch of the ingestion: the run, the final flush and the status.  Every row of
        every successful job is in the table, exactly the completed windows have a cursor, and success
        is reported if and only if no window failed. */
    method Ingest() returns (success: bool, ghost script: seq<seq<Future>>)
      requires Valid({}) && Now() == Idle
      modifies this
      ensures Valid({}) && !books.flushing && pending == {} && pendingRows == [] && pendingDone == []
      ensures Collected(Given(), books, acc.order)
      ensures |jobs| == |outcomes| && Ran(Given(), flushThreshold, script)
      ensures Now() == Flushed(Play(Given(), flushThreshold, script))
      ensures cap.Unlimited? ==> next == |jobs|
      ensures success <==> books.failed == []
    {
      script := Run();
      FlushCollected(Given(), books, acc.order);
      Flush({});
      success := failed == [];
    }
  }
}
