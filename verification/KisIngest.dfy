/** The parallel ingestion as one process of the crash-and-resume model: every database write of
    the scheduler is a step of that model, and what the request cap does and does not count. */
module KisIngest {
  import opened Common
  import opened KisFetch
  import opened KisResume
  import KisScheduler

  type Books = KisScheduler.Books
  type Move = KisScheduler.Move
  type Future = KisScheduler.Future
  type Outcome = KisScheduler.Outcome

  // ---------------------------------------------------------------- the resumable iterator

  predicate Skips(c: Config, table: map<Key, int>, cursors: set<Job>, skip: bool, q: nat)
    requires q < |c.jobs|
  {
    skip && Complete(c, table, cursors, c.jobs[q])
  }

  /** Asked at position `from`, the iterator passes over the windows that look complete and yields
      the one at `to`, or ends there. */
  ghost predicate Yields(c: Config, table: map<Key, int>, cursors: set<Job>, skip: bool, from: nat, to: nat)
  {
    && from <= to <= |c.jobs|
    && (forall q: nat | from <= q < to :: Skips(c, table, cursors, skip, q))
    && (to < |c.jobs| ==> !Skips(c, table, cursors, skip, to))
  }

  /** The keys of a window that the reference table has, and those that the price table has. */
  ghost function ExpectedKeys(c: Config, j: Job): set<Key>
  {
    set k | k in c.core && k.ticker == j.ticker && j.window.start <= k.date <= j.window.end
  }

  ghost function StoredKeys(table: map<Key, int>, j: Job): set<Key>
  {
    set k | k in table && k.ticker == j.ticker && j.window.start <= k.date <= j.window.end
  }

  lemma CountsAreKeys(c: Config, table: map<Key, int>, j: Job)
    ensures Expected(c, j) == |ExpectedKeys(c, j)| && Observed(table, j) == |StoredKeys(table, j)|
    ensures Expected(c, j) == 0 <==> ExpectedKeys(c, j) == {}
  {
    assert ExpectedKeys(c, j) == set k | k in c.core && InJob(k, j);
    assert StoredKeys(table, j) == set k | k in table && InJob(k, j);
  }

  /** One `next` on `iter_resumable_fetch_jobs`: there is exactly one place it can stop. */
  method NextResumable(c: Config, table: map<Key, int>, cursors: set<Job>, skip: bool, from: nat) returns (to: nat)
    requires from <= |c.jobs|
    ensures Yields(c, table, cursors, skip, from, to)
    ensures !skip ==> to == from
    ensures skip && to < |c.jobs| ==> c.jobs[to] !in cursors && 0 < |ExpectedKeys(c, c.jobs[to])|
    ensures skip && to < |c.jobs| ==> |StoredKeys(table, c.jobs[to])| < |ExpectedKeys(c, c.jobs[to])|
    ensures forall q | from <= q < to ::
              || c.jobs[q] in cursors || ExpectedKeys(c, c.jobs[q]) == {}
              || |StoredKeys(table, c.jobs[q])| >= |ExpectedKeys(c, c.jobs[q])|
    ensures forall other | Yields(c, table, cursors, skip, from, other) :: other == to
  {
    to := from;
    while to < |c.jobs| && skip && Complete(c, table, cursors, c.jobs[to])
      invariant from <= to <= |c.jobs| && (!skip ==> to == from)
      invariant forall q: nat | from <= q < to :: Skips(c, table, cursors, skip, q)
    {
      to := to + 1;
    }
    forall q | from <= q < |c.jobs|
      ensures Expected(c, c.jobs[q]) == |ExpectedKeys(c, c.jobs[q])| && Observed(table, c.jobs[q]) == |StoredKeys(table, c.jobs[q])|
      ensures Expected(c, c.jobs[q]) == 0 <==> ExpectedKeys(c, c.jobs[q]) == {}
    {
      CountsAreKeys(c, table, c.jobs[q]);
    }
    forall q | from <= q < to
      ensures c.jobs[q] in cursors || ExpectedKeys(c, c.jobs[q]) == {}
              || |StoredKeys(table, c.jobs[q])| >= |ExpectedKeys(c, c.jobs[q])|
    {
      assert Skips(c, table, cursors, skip, q);
    }
  }

  // ---------------------------------------------------------------- the scheduler's books as a state

  /** A process started on the database of `base`; its iterator yields the job at position `at[i]`
      of the slicing as the scheduler's `i`-th. */
  datatype Setting = Setting(c: Config, base: State, skip: bool, at: seq<nat>)

  /** Where the iterator stands once `n` jobs have been taken. */
  function Position(at: seq<nat>, n: nat): nat
    requires n <= |at|
  {
    if n == 0 then 0 else at[n - 1] + 1
  }

  /** A fetch that succeeds returns the window's rows. */
  ghost predicate Answers(c: Config, j: Job, o: Outcome)
  {
    o.Fetched? ==> TableOf(o.rows) == RowsOf(c, j) && (o.rows == [] <==> RowsOf(c, j) == map[])
  }

  /** The scheduler's jobs are the slicing's at the positions `at`. */
  ghost predicate Laid(x: Setting, jobs: seq<Job>)
  {
    && |x.at| == |jobs|
    && (forall i | 0 <= i < |jobs| :: x.at[i] < |x.c.jobs| && x.c.jobs[x.at[i]] == jobs[i])
    && (forall i, k | 0 <= i < k < |jobs| :: jobs[i] != jobs[k])
  }

  ghost predicate Fits(x: Setting, jobs: seq<Job>, outcomes: seq<Outcome>)
  {
    Laid(x, jobs) && |outcomes| == |jobs| && forall i | 0 <= i < |jobs| :: Answers(x.c, jobs[i], outcomes[i])
  }

  ghost function Elements(s: seq<Job>): set<Job> { set j | j in s }

  ghost function JobsOf(fs: set<Future>): set<Job> { set f | f in fs :: f.job }

  /** The database and the memory of the process, as the resume model sees them. */
  ghost function View(x: Setting, b: Books): State
    requires b.next <= |x.at|
  {
    State(x.base.table + TableOf(b.copied), x.base.cursors + Elements(b.cursors),
          Some(Run(x.skip, Position(x.at, b.next), JobsOf(b.flying), TableOf(b.rows), Elements(b.done),
                   Elements(b.failed), b.flushing)))
  }

  lemma {:induction false} TableConcat(a: seq<Row>, b: seq<Row>)
    ensures TableOf(a + b) == TableOf(a) + TableOf(b)
    decreases |b|
  {
    if b == [] {
      assert a + b == a;
    } else {
      TableConcat(a, b[..|b| - 1]);
      assert (a + b)[..|a + b| - 1] == a + b[..|b| - 1];
    }
  }

  ghost predicate AllTaken(jobs: seq<Job>, outcomes: seq<Outcome>, b: Books)
  {
    b.next <= |jobs| == |outcomes| && forall f | f in b.flying :: KisScheduler.Taken(jobs, outcomes, b.next, f)
  }

  /** Jobs in flight are told apart by their windows. */
  lemma Landed(x: Setting, jobs: seq<Job>, outcomes: seq<Outcome>, b: Books, f: Future)
    requires Fits(x, jobs, outcomes) && AllTaken(jobs, outcomes, b) && f in b.flying
    ensures JobsOf(b.flying - {f}) == JobsOf(b.flying) - {f.job}
  {
    forall g | g in b.flying && g.job == f.job ensures g == f {
      assert KisScheduler.Taken(jobs, outcomes, b.next, f) && KisScheduler.Taken(jobs, outcomes, b.next, g);
      assert jobs[f.id] == jobs[g.id];
    }
    assert forall j | j in JobsOf(b.flying) - {f.job} :: j in JobsOf(b.flying - {f});
  }

  /** The step of the resume model that a settled future is. */
  function Settling(f: Future): Action { if f.outcome.Error? then Lose(f.job) else Collect(f.job) }

  lemma SettleStep(x: Setting, jobs: seq<Job>, outcomes: seq<Outcome>, b: Books, f: Future)
    requires Fits(x, jobs, outcomes) && AllTaken(jobs, outcomes, b) && f in b.flying && !b.flushing
    ensures Enabled(x.c, View(x, b), Settling(f))
    ensures Apply(x.c, View(x, b), Settling(f)) == View(x, KisScheduler.Moved(b, KisScheduler.Settle(f)))
  {
    Landed(x, jobs, outcomes, b, f);
    assert f.job in JobsOf(b.flying);
    assert KisScheduler.Taken(jobs, outcomes, b.next, f);
    if f.outcome.Error? {
      assert Elements(b.failed + [f.job]) == Elements(b.failed) + {f.job};
    } else {
      assert Answers(x.c, jobs[f.id], outcomes[f.id]);
      TableConcat(b.rows, f.outcome.rows);
      assert Elements(b.done + [f.job]) == Elements(b.done) + {f.job};
    }
  }

  /** The first transaction of a flush is `CopyRows`. */
  lemma CopyStep(x: Setting, b: Books)
    requires b.next <= |x.at| && !b.flushing
    ensures Enabled(x.c, View(x, b), CopyRows)
    ensures Apply(x.c, View(x, b), CopyRows) == View(x, KisScheduler.Moved(b, KisScheduler.Copy))
  {
    TableConcat(b.copied, b.rows);
    assert x.base.table + (TableOf(b.copied) + TableOf(b.rows)) == x.base.table + TableOf(b.copied) + TableOf(b.rows);
  }

  /** The second one is `WriteCursors`. */
  lemma RecordStep(x: Setting, b: Books)
    requires b.next <= |x.at| && b.flushing
    ensures Enabled(x.c, View(x, b), WriteCursors)
    ensures Apply(x.c, View(x, b), WriteCursors) == View(x, KisScheduler.Moved(b, KisScheduler.Record))
  {
    assert x.base.cursors + Elements(b.cursors + b.done) == x.base.cursors + Elements(b.cursors) + Elements(b.done);
    assert Elements([]) == {};
  }

  /** Taking the job that the iterator has stopped at. */
  lemma SubmitStep(x: Setting, jobs: seq<Job>, outcomes: seq<Outcome>, b: Books, f: Future, s: State)
    requires Fits(x, jobs, outcomes) && b.next < |jobs| && !b.flushing && s == At(View(x, b), x.at[b.next])
    requires f == KisScheduler.Future(b.next, jobs[b.next], outcomes[b.next])
    requires !Skips(x.c, s.table, s.cursors, x.skip, x.at[b.next])
    ensures Enabled(x.c, s, Take)
    ensures Apply(x.c, s, Take) == View(x, KisScheduler.Moved(b, KisScheduler.Submit(f)))
  {
    assert JobsOf(b.flying + {f}) == JobsOf(b.flying) + {f.job};
  }

  /** `s` with its process at position `q`. */
  function At(s: State, q: nat): State
    requires s.run.Some?
  {
    s.(run := Some(s.run.value.(next := q)))
  }

  // ---------------------------------------------------------------- runs of the scheduler are histories

  /** At every submission of `trace` the iterator stops where the setting says. */
  ghost predicate Iterated(x: Setting, trace: seq<Move>)
  {
    trace == [] || (
      var init, b := trace[..|trace| - 1], KisScheduler.Replay(trace[..|trace| - 1]);
      && Iterated(x, init)
      && (trace[|trace| - 1].Submit? ==> b.next < |x.at| && Stops(x, b, x.at[b.next])))
  }

  ghost predicate Stops(x: Setting, b: Books, to: nat)
    requires b.next <= |x.at|
  {
    Yields(x.c, View(x, b).table, View(x, b).cursors, x.skip, Position(x.at, b.next), to)
  }

  lemma {:induction false} LegalTaken(jobs: seq<Job>, outcomes: seq<Outcome>, trace: seq<Move>)
    requires KisScheduler.Legal(jobs, outcomes, trace) && |jobs| == |outcomes|
    ensures AllTaken(jobs, outcomes, KisScheduler.Replay(trace))
  {
    if trace != [] {
      var init, m := trace[..|trace| - 1], trace[|trace| - 1];
      LegalTaken(jobs, outcomes, init);
      MoveTaken(jobs, outcomes, KisScheduler.Replay(init), m);
    }
  }

  lemma MoveTaken(jobs: seq<Job>, outcomes: seq<Outcome>, b: Books, m: Move)
    requires AllTaken(jobs, outcomes, b) && KisScheduler.Can(jobs, outcomes, b, m)
    ensures AllTaken(jobs, outcomes, KisScheduler.Moved(b, m))
  {
    var b' := KisScheduler.Moved(b, m);
    forall f | f in b'.flying ensures KisScheduler.Taken(jobs, outcomes, b'.next, f) {
      assert f in b.flying ==> KisScheduler.Taken(jobs, outcomes, b.next, f);
    }
  }

  /** Steps that a living process makes. */
  predicate Working(a: Action) { !a.Launch? && !a.Die? && !a.End? }

  ghost predicate WorksOn(acts: seq<Action>, acts': seq<Action>)
  {
    acts <= acts' && forall i | |acts| <= i < |acts'| :: Working(acts'[i])
  }

  /** The iterator passes over windows one `Take` at a time. */
  lemma {:induction false} PassOver(c: Config, ss: seq<State>, acts: seq<Action>, to: nat)
    returns (ss': seq<State>, acts': seq<Action>)
    requires ValidRun(c, ss, acts) && Last(ss).run.Some? && !Last(ss).run.value.flushing
    requires Last(ss).run.value.next <= to <= |c.jobs|
    requires forall q: nat | Last(ss).run.value.next <= q < to ::
               Skips(c, Last(ss).table, Last(ss).cursors, Last(ss).run.value.skip, q)
    ensures ValidRun(c, ss', acts') && WorksOn(acts, acts') && Last(ss') == At(Last(ss), to)
    decreases (to as int) - (Last(ss).run.value.next as int)
  {
    ss', acts' := ss, acts;
    var s := Last(ss);
    if s.run.value.next < to {
      assert Skips(c, s.table, s.cursors, s.run.value.skip, s.run.value.next);
      ss', acts' := Extend(c, ss, acts, Take);
      ss', acts' := PassOver(c, ss', acts', to);
    }
  }

  lemma SubmitIsHistory(x: Setting, jobs: seq<Job>, outcomes: seq<Outcome>, b: Books, f: Future,
                        ss: seq<State>, acts: seq<Action>) returns (ss': seq<State>, acts': seq<Action>)
    requires Fits(x, jobs, outcomes) && b.next < |jobs| && !b.flushing && Stops(x, b, x.at[b.next])
    requires f == KisScheduler.Future(b.next, jobs[b.next], outcomes[b.next])
    requires ValidRun(x.c, ss, acts) && Last(ss) == View(x, b)
    ensures ValidRun(x.c, ss', acts') && WorksOn(acts, acts')
    ensures Last(ss') == View(x, KisScheduler.Moved(b, KisScheduler.Submit(f)))
  {
    ss', acts' := PassOver(x.c, ss, acts, x.at[b.next]);
    SubmitStep(x, jobs, outcomes, b, f, Last(ss'));
    ss', acts' := Extend(x.c, ss', acts', Take);
  }

  /** One move of the scheduler continues a history of the resume model. */
  lemma MoveIsHistory(x: Setting, jobs: seq<Job>, outcomes: seq<Outcome>, b: Books, m: Move,
                      ss: seq<State>, acts: seq<Action>) returns (ss': seq<State>, acts': seq<Action>)
    requires Fits(x, jobs, outcomes) && AllTaken(jobs, outcomes, b) && KisScheduler.Can(jobs, outcomes, b, m)
    requires m.Submit? ==> Stops(x, b, x.at[b.next])
    requires ValidRun(x.c, ss, acts) && Last(ss) == View(x, b)
    ensures KisScheduler.Moved(b, m).next <= |x.at|
    ensures ValidRun(x.c, ss', acts') && WorksOn(acts, acts') && Last(ss') == View(x, KisScheduler.Moved(b, m))
  {
    match m
    case Submit(f) =>
      ss', acts' := SubmitIsHistory(x, jobs, outcomes, b, f, ss, acts);
    case Settle(f) =>
      SettleStep(x, jobs, outcomes, b, f);
      ss', acts' := Extend(x.c, ss, acts, Settling(f));
    case Copy =>
      CopyStep(x, b);
      ss', acts' := Extend(x.c, ss, acts, CopyRows);
    case Record =>
      RecordStep(x, b);
      ss', acts' := Extend(x.c, ss, acts, WriteCursors);
  }

  /** Whatever history left the database behind: a run of the scheduler, up to any of its moves,
      is a continuation of that history by one more process. */
  lemma {:induction false} TraceIsHistory(x: Setting, jobs: seq<Job>, outcomes: seq<Outcome>, trace: seq<Move>,
                                          ss: seq<State>, acts: seq<Action>)
    returns (ss': seq<State>, acts': seq<Action>)
    requires Fits(x, jobs, outcomes) && KisScheduler.Legal(jobs, outcomes, trace) && Iterated(x, trace)
    requires ValidRun(x.c, ss, acts) && Last(ss) == x.base && x.base.run.None?
    ensures KisScheduler.Replay(trace).next <= |x.at|
    ensures ValidRun(x.c, ss', acts') && WorksOn(acts + [Launch(x.skip)], acts')
    ensures Last(ss') == View(x, KisScheduler.Replay(trace))
  {
    if trace == [] {
      ss', acts' := Extend(x.c, ss, acts, Launch(x.skip));
      StartView(x);
    } else {
      var init, m := trace[..|trace| - 1], trace[|trace| - 1];
      ss', acts' := TraceIsHistory(x, jobs, outcomes, init, ss, acts);
      LegalTaken(jobs, outcomes, init);
      ss', acts' := MoveIsHistory(x, jobs, outcomes, KisScheduler.Replay(init), m, ss', acts');
    }
  }

  lemma StartView(x: Setting)
    ensures View(x, KisScheduler.NoBooks)
         == State(x.base.table, x.base.cursors, Some(Run(x.skip, 0, {}, map[], {}, {}, false)))
  {
    assert Elements([]) == {} && JobsOf({}) == {} && TableOf([]) == map[];
  }

  /** A crash of the scheduler after any of its moves leaves no cursor without its rows and no
      window stored in part. */
  lemma CrashAnywhere(x: Setting, p: KisScheduler.Plan, pending: set<Future>, batch: set<Future>, b: Books,
                      acc: KisScheduler.Account, ss: seq<State>, acts: seq<Action>)
    requires Sliced(x.c) && Fits(x, p.jobs, p.outcomes) && Iterated(x, acc.trace)
    requires KisScheduler.Sound(p, pending, batch, b, acc)
    requires ValidRun(x.c, ss, acts) && Last(ss) == x.base && x.base.run.None?
    ensures b.next <= |x.at|
    ensures forall j | j in View(x, b).cursors :: Has(View(x, b).table, x.c, j)
    ensures forall k, j | k in View(x, b).table && j in x.c.jobs && InJob(k, j) :: Has(View(x, b).table, x.c, j)
  {
    assert KisScheduler.Holds(KisScheduler.Provenance, p, pending, batch, b, acc);
    var ss', acts' := TraceIsHistory(x, p.jobs, p.outcomes, acc.trace, ss, acts);
    CursorMeansStored(x.c, ss', acts', |ss'| - 1);
  }

  /** The books of a run that took every job, lost none and has flushed, its iterator at the end. */
  ghost predicate Done(x: Setting, b: Books)
    requires b.next <= |x.at|
  {
    && b.next == |x.at| && b.flying == {} && b.rows == [] && b.done == [] && b.failed == [] && !b.flushing
    && Stops(x, b, |x.c.jobs|)
  }

  /** An ingestion without failed windows, on whatever database earlier runs and crashes left, ends
      with all of the provider's rows; if every run so far skipped what looked complete, with
      exactly the rows of the windows for which the reference calendar expects any. */
  lemma IngestCompletes(x: Setting, p: KisScheduler.Plan, b: Books, acc: KisScheduler.Account,
                        ss: seq<State>, acts: seq<Action>)
    requires Sliced(x.c) && Fits(x, p.jobs, p.outcomes) && Iterated(x, acc.trace)
    requires KisScheduler.Sound(p, {}, {}, b, acc) && b.next <= |x.at| && Done(x, b)
    requires ValidRun(x.c, ss, acts) && Last(ss) == x.base && x.base.run.None?
    ensures !x.skip ==> View(x, b).table == AllRows(x.c)
    ensures x.skip && SkipOnly(acts) ==> View(x, b).table == WantedRows(x.c)
  {
    assert KisScheduler.Holds(KisScheduler.Provenance, p, {}, {}, b, acc);
    var ss', acts' := TraceIsHistory(x, p.jobs, p.outcomes, acc.trace, ss, acts);
    var ss'', acts'' := PassOver(x.c, ss', acts', |x.c.jobs|);
    DoneSucceeds(x, b);
    if !x.skip {
      SuccessStoresAll(x.c, ss'', acts'', |ss''| - 1);
    } else if SkipOnly(acts) {
      WorkersSkip(acts, acts', acts'');
      SkipEndsWithWanted(x.c, ss'', acts'', |ss''| - 1);
    }
  }

  lemma DoneSucceeds(x: Setting, b: Books)
    requires b.next <= |x.at| && Done(x, b)
    ensures Succeeded(x.c, At(View(x, b), |x.c.jobs|))
  {
    assert Elements([]) == {} && JobsOf({}) == {} && TableOf([]) == map[];
  }

  lemma WorkersSkip(acts: seq<Action>, acts': seq<Action>, acts'': seq<Action>)
    requires SkipOnly(acts) && WorksOn(acts + [Launch(true)], acts') && WorksOn(acts', acts'')
    ensures SkipOnly(acts'')
  {
    forall i | 0 <= i < |acts''| && acts''[i].Launch? ensures acts''[i].skip {
      assert i < |acts'| ==> acts''[i] == acts'[i];
      assert i <= |acts| ==> acts'[i] == (acts + [Launch(true)])[i];
    }
  }

  // ---------------------------------------------------------------- what the request cap counts

  function OutcomeOf(r: Fetched): Outcome
  {
    match r
    case Got(rows, requests, _) => KisScheduler.Fetched(rows, requests)
    case Raised(_) => KisScheduler.Error
  }

  /** The future's outcome is what the bisecting fetch makes of its job's provider. */
  ghost predicate Served(ps: seq<Provider>, f: Future)
  {
    f.id < |ps| && f.job.window.start <= f.job.window.end && f.outcome == OutcomeOf(Fetch(ps[f.id], 0, f.job.window))
  }

  /** Against a faithful provider, what the scheduler collects is what the resume model collects. */
  lemma ServedAnswers(c: Config, ps: seq<Provider>, f: Future)
    requires Served(ps, f) && Faithful(ps[f.id], Daily(c.feed, f.job.ticker))
    ensures Answers(c, f.job, f.outcome)
  {
    if f.outcome.Fetched? { CollectIsFetch(c, ps[f.id], 0, f.job); }
  }

  /** The outcomes of all jobs are those of bisecting fetches from faithful providers. */
  ghost predicate Faithfully(c: Config, ps: seq<Provider>, jobs: seq<Job>, outcomes: seq<Outcome>)
  {
    && |ps| == |jobs| == |outcomes|
    && forall i | 0 <= i < |jobs| ::
         Served(ps, KisScheduler.Future(i, jobs[i], outcomes[i])) && Faithful(ps[i], Daily(c.feed, jobs[i].ticker))
  }

  lemma FaithfulFits(x: Setting, ps: seq<Provider>, jobs: seq<Job>, outcomes: seq<Outcome>)
    requires Laid(x, jobs) && Faithfully(x.c, ps, jobs, outcomes)
    ensures Fits(x, jobs, outcomes)
  {
    forall i | 0 <= i < |jobs| ensures Answers(x.c, jobs[i], outcomes[i]) {
      ServedAnswers(x.c, ps, KisScheduler.Future(i, jobs[i], outcomes[i]));
    }
  }

  /** From the provider's days to the table: an ingestion whose requests fail, split and complete in
      any way, but none of whose windows is given up, ends with all of the provider's rows, or with
      those of the expected windows if all runs skip what looks complete. */
  lemma ProviderToTable(x: Setting, ps: seq<Provider>, p: KisScheduler.Plan, b: Books, acc: KisScheduler.Account,
                        ss: seq<State>, acts: seq<Action>)
    requires Sliced(x.c) && Laid(x, p.jobs) && Faithfully(x.c, ps, p.jobs, p.outcomes) && Iterated(x, acc.trace)
    requires KisScheduler.Sound(p, {}, {}, b, acc) && b.next <= |x.at| && Done(x, b)
    requires ValidRun(x.c, ss, acts) && Last(ss) == x.base && x.base.run.None?
    ensures !x.skip ==> View(x, b).table == AllRows(x.c)
    ensures x.skip && SkipOnly(acts) ==> View(x, b).table == WantedRows(x.c)
  {
    FaithfulFits(x, ps, p.jobs, p.outcomes);
    IngestCompletes(x, p, b, acc, ss, acts);
  }

  ghost predicate AllServed(ps: seq<Provider>, order: seq<Future>)
  {
    forall i | 0 <= i < |order| :: Served(ps, order[i])
  }

  function CallsOf(ps: seq<Provider>, f: Future): nat
    requires f.id < |ps|
  {
    Fetch(ps[f.id], 0, f.job.window).calls
  }

  /** Provider calls made for the futures of `order`. */
  ghost function CallsIn(ps: seq<Provider>, order: seq<Future>): nat
    requires AllServed(ps, order)
  {
    if order == [] then 0 else CallsIn(ps, order[..|order| - 1]) + CallsOf(ps, order[|order| - 1])
  }

  /** The provider answers the future's first call. */
  ghost predicate AtOnce(ps: seq<Provider>, f: Future)
    requires f.id < |ps|
  {
    ps[f.id](0, f.job.window).Rows?
  }

  lemma CostOrCalls(ps: seq<Provider>, f: Future)
    requires Served(ps, f)
    ensures if AtOnce(ps, f) then KisScheduler.CostOf(f.outcome) == CallsOf(ps, f) == 1
            else KisScheduler.CostOf(f.outcome) < CallsOf(ps, f)
  {
    FetchCallBound(ps[f.id], 0, f.job.window);
    if Fetch(ps[f.id], 0, f.job.window).Got? {
      var leaves := FetchPartitions(ps[f.id], 0, f.job.window);
      if |leaves| == 1 { OneLeaf(ps[f.id], f.job.window, leaves); }
    }
  }

  lemma OneLeaf(p: Provider, w: Window, leaves: seq<Leaf>)
    requires w.start <= w.end && Accounts(p, 0, w, Fetch(p, 0, w), leaves) && |leaves| == 1
    ensures p(0, w).Rows?
  {
    assert WindowsOf(leaves)[0] == leaves[0].window && leaves[0].n == 0;
    assert leaves[0].window == w;
  }

  /** The count that the cap limits is never above the calls made, and it is the calls made if and
      only if the provider answered every window's first call. */
  lemma {:induction false} CountExactIff(ps: seq<Provider>, order: seq<Future>)
    requires AllServed(ps, order)
    ensures KisScheduler.RequestsIn(order) <= CallsIn(ps, order)
    ensures KisScheduler.RequestsIn(order) == CallsIn(ps, order)
       <==> forall i | 0 <= i < |order| :: AtOnce(ps, order[i])
  {
    if order != [] {
      var init, last := order[..|order| - 1], order[|order| - 1];
      CountExactIff(ps, init);
      assert Served(ps, last);
      CostOrCalls(ps, last);
      assert forall i | 0 <= i < |init| :: init[i] == order[i];
    }
  }

  lemma {:induction false} CallsBound(ps: seq<Provider>, order: seq<Future>, each: nat)
    requires AllServed(ps, order) && forall i | 0 <= i < |order| :: CallsOf(ps, order[i]) <= each
    ensures CallsIn(ps, order) <= each * |order|
  {
    if order != [] {
      CallsBound(ps, order[..|order| - 1], each);
      Distribute(each, |order| - 1, 1);
    }
  }

  lemma Distribute(k: nat, a: nat, b: nat)
    ensures k * a + k * b == k * (a + b)
  {
  }

  /** A capped run makes at most `2 * days - 1` calls for every unit of its cap and for every window
      that failed. */
  lemma CappedCallBound(ps: seq<Provider>, jobs: seq<Job>, outcomes: seq<Outcome>, cap: nat, next: nat,
                        order: seq<Future>, days: nat)
    requires KisScheduler.Ended(jobs, outcomes, KisScheduler.Limit(cap), next, order) && AllServed(ps, order)
    requires days >= 1 && forall i | 0 <= i < |order| :: order[i].job.window.Days() <= days
    ensures CallsIn(ps, order) <= (2 * days - 1) * (cap + |KisScheduler.JobsWith(order, KisScheduler.Failed)|)
  {
    var each := 2 * days - 1;
    forall i | 0 <= i < |order| ensures CallsOf(ps, order[i]) <= each {
      assert Served(ps, order[i]);
      FetchCallBound(ps[order[i].id], 0, order[i].job.window);
    }
    CallsBound(ps, order, each);
    AtMost(each, |order|, cap + |KisScheduler.JobsWith(order, KisScheduler.Failed)|);
  }

  lemma AtMost(k: nat, a: nat, b: nat)
    requires a <= b
    ensures k * a <= k * b
  {
    Distribute(k, a, b - a);
  }

  /** Failures are free: whatever positive cap is set, when every fetch fails the run goes through
      all the jobs, with a call at least for each and a count of zero. */
  lemma FailuresAreFree(ps: seq<Provider>, jobs: seq<Job>, outcomes: seq<Outcome>, cap: KisScheduler.Cap, next: nat,
                        order: seq<Future>)
    requires KisScheduler.Ended(jobs, outcomes, cap, next, order) && AllServed(ps, order)
    requires cap.Limit? ==> cap.requests > 0
    requires forall i | 0 <= i < |outcomes| :: outcomes[i].Error?
    ensures next == |jobs| && KisScheduler.RequestsIn(order) == 0 && CallsIn(ps, order) >= |jobs|
  {
    forall i | 0 <= i < |order| ensures order[i].outcome.Error? {
      assert order[i] in order;
      assert KisScheduler.Taken(jobs, outcomes, next, order[i]);
    }
    OnlyFailures(ps, order);
  }

  lemma {:induction false} OnlyFailures(ps: seq<Provider>, order: seq<Future>)
    requires AllServed(ps, order) && forall i | 0 <= i < |order| :: order[i].outcome.Error?
    ensures KisScheduler.RequestsIn(order) == 0 && CallsIn(ps, order) >= |order|
    ensures |KisScheduler.JobsWith(order, KisScheduler.Failed)| == |order|
  {
    if order != [] {
      var last := order[|order| - 1];
      assert Served(ps, last);
      FetchCallBound(ps[last.id], 0, last.job.window);
      OnlyFailures(ps, order[..|order| - 1]);
    }
  }

  /** Such runs exist for every cap and every number of calls. */
  lemma CapExceeded(cap: nat, calls: nat, threshold: nat)
    returns (ps: seq<Provider>, p: KisScheduler.Plan, script: seq<seq<Future>>)
    requires cap > 0
    ensures p.cap == KisScheduler.Limit(cap) && |p.jobs| == |p.outcomes| && KisScheduler.Ran(p, threshold, script)
    ensures var acc := KisScheduler.Play(p, threshold, script).acc;
            && AllServed(ps, acc.order) && CallsIn(ps, acc.order) >= calls
            && acc.requests == KisScheduler.RequestsIn(acc.order) == 0
  {
    ps, p := FailingPlan(cap, calls);
    assert KisScheduler.Playable(p, threshold, []);
    script := KisScheduler.RunsOn(p, threshold, []);
    KisScheduler.RanEnds(p, threshold, script);
    var s := KisScheduler.Play(p, threshold, script);
    EverythingLost(ps, p, s.books, s.acc);
  }

  /** Providers that never answer. */
  lemma FailingPlan(cap: nat, calls: nat) returns (ps: seq<Provider>, p: KisScheduler.Plan)
    ensures KisScheduler.Setup(p) && p.cap == KisScheduler.Limit(cap) && |p.jobs| == |p.outcomes| == calls
    ensures forall i | 0 <= i < calls ::
              p.outcomes[i].Error? && Served(ps, KisScheduler.Future(i, p.jobs[i], p.outcomes[i]))
  {
    ps := seq(calls, _ => (n: nat, w: Window) => Fails);
    p := KisScheduler.Plan(seq(calls, i => Job(i, Window(0, 0))), seq(calls, _ => KisScheduler.Error), 1, KisScheduler.Limit(cap));
  }

  lemma EverythingLost(ps: seq<Provider>, p: KisScheduler.Plan, b: Books, acc: KisScheduler.Account)
    requires KisScheduler.Sound(p, {}, {}, b, acc) && KisScheduler.Collected(p, b, acc.order)
    requires |p.jobs| == |p.outcomes| && (p.cap.Limit? ==> p.cap.requests > 0)
    requires forall i | 0 <= i < |p.jobs| ::
               p.outcomes[i].Error? && Served(ps, KisScheduler.Future(i, p.jobs[i], p.outcomes[i]))
    ensures AllServed(ps, acc.order) && CallsIn(ps, acc.order) >= |p.jobs|
    ensures acc.requests == KisScheduler.RequestsIn(acc.order) == 0
  {
    assert KisScheduler.Holds(KisScheduler.Tracking, p, {}, {}, b, acc);
    assert KisScheduler.Holds(KisScheduler.Balance, p, {}, {}, b, acc);
    forall i | 0 <= i < |acc.order| ensures Served(ps, acc.order[i]) {
      assert acc.order[i] in acc.order;
      assert KisScheduler.Taken(p.jobs, p.outcomes, b.next, acc.order[i]);
    }
    FailuresAreFree(ps, p.jobs, p.outcomes, p.cap, b.next, acc.order);
  }
}
