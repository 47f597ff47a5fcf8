/** Crash and resume of the KIS ingestion: windows are fetched in any order, rows are copied
    in one transaction, completed-window cursors are written in a second one, and the process
    may die between any two steps.  A later run may skip windows that look complete. */
module KisResume {
  import opened Common
  import opened KisFetch

  /** Primary key of the price table: ticker and date. */
  datatype Key = Key(ticker: int, date: int)
  datatype Job = Job(ticker: int, window: Window)

  predicate InJob(k: Key, j: Job) { k.ticker == j.ticker && j.window.Holds(k.date) }

  /** What every run is given: the sliced jobs, the provider's rows, the reference calendar. */
  datatype Config = Config(jobs: seq<Job>, feed: map<Key, int>, core: set<Key>)

  /** No key belongs to two jobs: the slicing is a partition. */
  ghost predicate Sliced(c: Config)
  {
    forall a, b, k | 0 <= a < |c.jobs| && 0 <= b < |c.jobs| && InJob(k, c.jobs[a]) && InJob(k, c.jobs[b]) :: a == b
  }

  /** The rows a job fetches from the deterministic provider. */
  function RowsOf(c: Config, j: Job): map<Key, int> { map k | k in c.feed && InJob(k, j) :: c.feed[k] }

  function Expected(c: Config, j: Job): nat { |set k | k in c.core && InJob(k, j)| }

  function Observed(table: map<Key, int>, j: Job): nat { |set k | k in table && InJob(k, j)| }

  /** `build_window_completion_query` */
  predicate Complete(c: Config, table: map<Key, int>, cursors: set<Job>, j: Job)
  {
    Expected(c, j) == 0 || Observed(table, j) >= Expected(c, j) || j in cursors
  }

  /** One process: what it holds in memory.  `flushing` is set between the two transactions
      of a flush. */
  datatype Run = Run(skip: bool, next: nat, inflight: set<Job>, rows: map<Key, int>, done: set<Job>,
                     failed: set<Job>, flushing: bool)

  /** Durable state and, while a process lives, its memory. */
  datatype State = State(table: map<Key, int>, cursors: set<Job>, run: Option<Run>)

  datatype Action =
    | Launch(skip: bool)
    | Take
    | Collect(job: Job)
    | Lose(job: Job)
    | CopyRows
    | WriteCursors
    | Die
    | End

  predicate Finished(c: Config, r: Run)
  {
    r.next == |c.jobs| && r.inflight == {} && r.rows == map[] && r.done == {} && !r.flushing
  }

  predicate Enabled(c: Config, s: State, a: Action)
  {
    if a.Launch? then s.run.None?
    else s.run.Some? && var r := s.run.value;
      match a
      case Launch(_) => false
      case Take => r.next < |c.jobs| && !r.flushing
      case Collect(j) => j in r.inflight && !r.flushing
      case Lose(j) => j in r.inflight && !r.flushing
      case CopyRows => !r.flushing
      case WriteCursors => r.flushing
      case Die => true
      case End => Finished(c, r)
  }

  function Apply(c: Config, s: State, a: Action): State
    requires Enabled(c, s, a)
  {
    if a.Launch? then s.(run := Some(Run(a.skip, 0, {}, map[], {}, {}, false)))
    else
      var r := s.run.value;
      match a
      case Launch(_) => s
      case Take =>
        var j := c.jobs[r.next];
        if r.skip && Complete(c, s.table, s.cursors, j) then s.(run := Some(r.(next := r.next + 1)))
        else s.(run := Some(r.(next := r.next + 1, inflight := r.inflight + {j})))
      case Collect(j) =>
        var got := RowsOf(c, j);
        s.(run := Some(r.(inflight := r.inflight - {j}, rows := r.rows + got,
                          done := if got == map[] then r.done else r.done + {j})))
      case Lose(j) => s.(run := Some(r.(inflight := r.inflight - {j}, failed := r.failed + {j})))
      case CopyRows => s.(table := s.table + r.rows, run := Some(r.(rows := map[], flushing := true)))
      case WriteCursors => s.(cursors := s.cursors + r.done, run := Some(r.(done := {}, flushing := false)))
      case Die => s.(run := None)
      case End => s.(run := None)
  }

  const Init := State(map[], {}, None)

  ghost predicate ValidRun(c: Config, ss: seq<State>, acts: seq<Action>)
  {
    && |ss| == |acts| + 1
    && ss[0] == Init
    && forall i {:trigger acts[i]} | 0 <= i < |acts| :: Enabled(c, ss[i], acts[i]) && ss[i + 1] == Apply(c, ss[i], acts[i])
  }

  // ---------------------------------------------------------------- invariant

  ghost predicate Has(m: map<Key, int>, c: Config, j: Job)
  {
    forall k | k in c.feed && InJob(k, j) :: k in m
  }

  /** `m` holds provider rows only, and of each job either all or none. */
  ghost predicate Whole(c: Config, m: map<Key, int>)
  {
    && (forall k | k in m :: k in c.feed && m[k] == c.feed[k])
    && (forall k, j | k in m && j in c.jobs && InJob(k, j) :: Has(m, c, j))
    && (forall k | k in m :: exists j :: j in c.jobs && InJob(k, j))
  }

  ghost predicate Accounted(c: Config, s: State, r: Run, j: Job)
  {
    j in r.inflight || j in r.failed || Has(r.rows, c, j) || Has(s.table, c, j) || (r.skip && Expected(c, j) == 0)
  }

  ghost predicate RunInv(c: Config, s: State, r: Run)
  {
    && r.next <= |c.jobs|
    && Whole(c, r.rows)
    && (forall j | j in r.inflight :: j in c.jobs)
    && (forall j | j in r.done :: j in c.jobs && (Has(r.rows, c, j) || Has(s.table, c, j)))
    && (r.flushing ==> r.rows == map[] && forall j | j in r.done :: Has(s.table, c, j))
    && (forall i | 0 <= i < r.next :: Accounted(c, s, r, c.jobs[i]))
  }

  ghost predicate Inv(c: Config, s: State)
  {
    && Whole(c, s.table)
    && (forall j | j in s.cursors :: j in c.jobs && Has(s.table, c, j))
    && (s.run.Some? ==> RunInv(c, s, s.run.value))
  }

  lemma SameJob(c: Config, i: Job, j: Job, k: Key)
    requires Sliced(c) && i in c.jobs && j in c.jobs && InJob(k, i) && InJob(k, j)
    ensures i == j
  {
    var a :| 0 <= a < |c.jobs| && c.jobs[a] == i;
    var b :| 0 <= b < |c.jobs| && c.jobs[b] == j;
    assert a == b;
  }

  lemma RowsOfWhole(c: Config, j: Job)
    requires Sliced(c) && j in c.jobs
    ensures Whole(c, RowsOf(c, j)) && Has(RowsOf(c, j), c, j)
  {
    var m := RowsOf(c, j);
    forall k, i | k in m && i in c.jobs && InJob(k, i) ensures Has(m, c, i) {
      SameJob(c, i, j, k);
    }
  }

  lemma WholeUnion(c: Config, m: map<Key, int>, n: map<Key, int>)
    requires Whole(c, m) && Whole(c, n)
    ensures Whole(c, m + n)
    ensures forall j :: Has(m, c, j) || Has(n, c, j) ==> Has(m + n, c, j)
  {
    forall k, j | k in m + n && j in c.jobs && InJob(k, j) ensures Has(m + n, c, j) {
      assert k in m || k in n;
      assert Has(m, c, j) || Has(n, c, j);
    }
  }

  /** A job whose window passes the completion test has all its rows stored, unless the
      reference calendar expects none. */
  lemma CompleteIsStored(c: Config, s: State, j: Job)
    requires Inv(c, s) && j in c.jobs && Complete(c, s.table, s.cursors, j) && Expected(c, j) > 0
    ensures Has(s.table, c, j)
  {
    if j !in s.cursors {
      var seen := set k | k in s.table && InJob(k, j);
      if k :| k in seen {
        assert k in s.table && InJob(k, j);
      }
    }
  }

  lemma TakeKeepsInv(c: Config, s: State)
    requires Inv(c, s) && Enabled(c, s, Take)
    ensures Inv(c, Apply(c, s, Take))
  {
    var r := s.run.value;
    var j := c.jobs[r.next];
    var s' := Apply(c, s, Take);
    if r.skip && Complete(c, s.table, s.cursors, j) && Expected(c, j) > 0 { CompleteIsStored(c, s, j); }
    forall i | 0 <= i < s'.run.value.next ensures Accounted(c, s', s'.run.value, c.jobs[i]) {
      if i < r.next { assert Accounted(c, s, r, c.jobs[i]); }
    }
  }

  lemma CollectKeepsInv(c: Config, s: State, j: Job)
    requires Sliced(c) && Inv(c, s) && Enabled(c, s, Collect(j))
    ensures Inv(c, Apply(c, s, Collect(j)))
  {
    var r := s.run.value;
    var s' := Apply(c, s, Collect(j));
    RowsOfWhole(c, j);
    WholeUnion(c, r.rows, RowsOf(c, j));
    assert Has(s'.run.value.rows, c, j);
    forall i | i in s'.run.value.done ensures i in c.jobs && (Has(s'.run.value.rows, c, i) || Has(s.table, c, i)) {
      assert i != j ==> i in r.done;
    }
    forall i | 0 <= i < r.next ensures Accounted(c, s', s'.run.value, c.jobs[i]) {
      assert Accounted(c, s, r, c.jobs[i]);
    }
  }

  lemma LoseKeepsInv(c: Config, s: State, j: Job)
    requires Inv(c, s) && Enabled(c, s, Lose(j))
    ensures Inv(c, Apply(c, s, Lose(j)))
  {
    var s' := Apply(c, s, Lose(j));
    forall i | 0 <= i < s.run.value.next ensures Accounted(c, s', s'.run.value, c.jobs[i]) {
      assert Accounted(c, s, s.run.value, c.jobs[i]);
    }
  }

  lemma CopyKeepsInv(c: Config, s: State)
    requires Inv(c, s) && Enabled(c, s, CopyRows)
    ensures Inv(c, Apply(c, s, CopyRows))
  {
    var r := s.run.value;
    var s' := Apply(c, s, CopyRows);
    WholeUnion(c, s.table, r.rows);
    forall i | 0 <= i < r.next ensures Accounted(c, s', s'.run.value, c.jobs[i]) {
      assert Accounted(c, s, r, c.jobs[i]);
    }
  }

  lemma CursorsKeepInv(c: Config, s: State)
    requires Inv(c, s) && Enabled(c, s, WriteCursors)
    ensures Inv(c, Apply(c, s, WriteCursors))
  {
    var s' := Apply(c, s, WriteCursors);
    forall i | 0 <= i < s.run.value.next ensures Accounted(c, s', s'.run.value, c.jobs[i]) {
      assert Accounted(c, s, s.run.value, c.jobs[i]);
    }
  }

  lemma StepKeepsInv(c: Config, s: State, a: Action)
    requires Sliced(c) && Inv(c, s) && Enabled(c, s, a)
    ensures Inv(c, Apply(c, s, a))
  {
    match a
    case Take => TakeKeepsInv(c, s);
    case Collect(j) => CollectKeepsInv(c, s, j);
    case Lose(j) => LoseKeepsInv(c, s, j);
    case CopyRows => CopyKeepsInv(c, s);
    case WriteCursors => CursorsKeepInv(c, s);
    case _ =>
  }

  lemma {:induction false} HistoryInv(c: Config, ss: seq<State>, acts: seq<Action>, k: nat)
    requires Sliced(c) && ValidRun(c, ss, acts) && k < |ss|
    ensures Inv(c, ss[k])
  {
    if k > 0 {
      HistoryInv(c, ss, acts, k - 1);
      StepKeepsInv(c, ss[k - 1], acts[k - 1]);
    }
  }

  /** At every instant, and so after a crash at any point, a completed-window cursor means that
      all rows of its window are stored; and no window is ever stored in part. */
  lemma CursorMeansStored(c: Config, ss: seq<State>, acts: seq<Action>, k: nat)
    requires Sliced(c) && ValidRun(c, ss, acts) && k < |ss|
    ensures forall j | j in ss[k].cursors :: Has(ss[k].table, c, j)
    ensures forall x, j | x in ss[k].table && j in c.jobs && InJob(x, j) :: Has(ss[k].table, c, j)
  {
    HistoryInv(c, ss, acts, k);
  }

  // ---------------------------------------------------------------- final tables

  /** The provider's rows in all windows. */
  ghost function AllRows(c: Config): map<Key, int>
  {
    map k | k in c.feed && (exists j :: j in c.jobs && InJob(k, j)) :: c.feed[k]
  }

  /** The provider's rows in the windows for which the reference calendar expects any. */
  ghost function WantedRows(c: Config): map<Key, int>
  {
    map k | k in c.feed && (exists j :: j in c.jobs && InJob(k, j) && Expected(c, j) > 0) :: c.feed[k]
  }

  ghost predicate Succeeded(c: Config, s: State)
  {
    s.run.Some? && Finished(c, s.run.value) && s.run.value.failed == {}
  }

  ghost predicate Wanted(c: Config, m: map<Key, int>)
  {
    forall k | k in m :: k in WantedRows(c)
  }

  /** Under skip-existing runs only, nothing outside the wanted windows is ever fetched. */
  ghost predicate SkipInv(c: Config, s: State)
  {
    && Wanted(c, s.table)
    && (s.run.Some? ==>
          && s.run.value.skip && Wanted(c, s.run.value.rows)
          && forall j | j in s.run.value.inflight :: j in c.jobs && Expected(c, j) > 0)
  }

  lemma StepKeepsSkip(c: Config, s: State, a: Action)
    requires SkipInv(c, s) && Enabled(c, s, a) && (a.Launch? ==> a.skip)
    ensures SkipInv(c, Apply(c, s, a))
  {
    if a.Collect? {
      var rows := RowsOf(c, a.job);
      assert forall k | k in rows :: k in c.feed && InJob(k, a.job);
    }
  }

  /** A history in which every run skips windows that look complete. */
  ghost predicate SkipOnly(acts: seq<Action>)
  {
    forall i | 0 <= i < |acts| && acts[i].Launch? :: acts[i].skip
  }

  lemma {:induction false} SkipHistory(c: Config, ss: seq<State>, acts: seq<Action>, k: nat)
    requires ValidRun(c, ss, acts) && k < |ss| && SkipOnly(acts)
    ensures SkipInv(c, ss[k])
  {
    if k > 0 {
      SkipHistory(c, ss, acts, k - 1);
      StepKeepsSkip(c, ss[k - 1], acts[k - 1]);
    }
  }

  /** A successful run leaves every window stored that it was not allowed to skip. */
  lemma SuccessStores(c: Config, s: State, j: Job)
    requires Inv(c, s) && Succeeded(c, s) && j in c.jobs && (Expected(c, j) > 0 || !s.run.value.skip)
    ensures Has(s.table, c, j)
  {
    var i :| 0 <= i < |c.jobs| && c.jobs[i] == j;
    assert Accounted(c, s, s.run.value, c.jobs[i]);
    if Has(s.run.value.rows, c, j) {
      assert forall k | k in c.feed && InJob(k, j) :: k in s.run.value.rows;
    }
  }

  /** A successful resume with skip-existing throughout ends with exactly the wanted rows. */
  lemma SkipEndsWithWanted(c: Config, ss: seq<State>, acts: seq<Action>, k: nat)
    requires Sliced(c) && ValidRun(c, ss, acts) && k < |ss| && Succeeded(c, ss[k]) && SkipOnly(acts)
    ensures ss[k].table == WantedRows(c)
  {
    HistoryInv(c, ss, acts, k);
    SkipHistory(c, ss, acts, k);
    WantedStored(c, ss[k]);
  }

  lemma WantedStored(c: Config, s: State)
    requires Inv(c, s) && SkipInv(c, s) && Succeeded(c, s)
    ensures s.table == WantedRows(c)
  {
    forall x | x in WantedRows(c) ensures x in s.table {
      var j :| j in c.jobs && InJob(x, j) && Expected(c, j) > 0;
      SuccessStores(c, s, j);
    }
    SameTable(c, s.table, WantedRows(c));
  }

  lemma SameTable(c: Config, t: map<Key, int>, m: map<Key, int>)
    requires forall k | k in t :: k in m && k in c.feed && t[k] == c.feed[k]
    requires forall k | k in m :: k in t && k in c.feed && m[k] == c.feed[k]
    ensures t == m
  {
  }

  // ---------------------------------------------------------------- which windows are fetched

  /** In a history of skip-existing runs a window is put in flight only if no cursor records it, the
      reference table expects rows in it, and fewer than those are stored; and a window that the
      iterator comes to and that is so is put in flight. */
  lemma TakenIffMissing(c: Config, ss: seq<State>, acts: seq<Action>, k: nat)
    requires ValidRun(c, ss, acts) && SkipOnly(acts) && k < |acts| && acts[k] == Take
    ensures ss[k].run.Some? && ss[k + 1].run.Some? && ss[k].run.value.next < |c.jobs|
    ensures var j, r, r' := c.jobs[ss[k].run.value.next], ss[k].run.value, ss[k + 1].run.value;
            var expected := set x | x in c.core && x.ticker == j.ticker && j.window.start <= x.date <= j.window.end;
            var stored := set x | x in ss[k].table && x.ticker == j.ticker && j.window.start <= x.date <= j.window.end;
            r'.inflight == if j !in ss[k].cursors && expected != {} && |stored| < |expected| then r.inflight + {j}
                           else r.inflight
  {
    SkipHistory(c, ss, acts, k);
    var j := c.jobs[ss[k].run.value.next];
    assert (set x | x in c.core && x.ticker == j.ticker && j.window.start <= x.date <= j.window.end)
        == set x | x in c.core && InJob(x, j);
    assert (set x | x in ss[k].table && x.ticker == j.ticker && j.window.start <= x.date <= j.window.end)
        == set x | x in ss[k].table && InJob(x, j);
  }

  /** The database changes only in the two transactions of a flush: the first adds the rows held, the
      second the cursors held; a crash writes nothing, and a run that ends normally has taken every window
      and holds nothing back. */
  lemma OnlyFlushesWrite(c: Config, s: State, a: Action)
    requires Enabled(c, s, a)
    ensures Apply(c, s, a).table == if a == CopyRows then s.table + s.run.value.rows else s.table
    ensures Apply(c, s, a).cursors == if a == WriteCursors then s.cursors + s.run.value.done else s.cursors
    ensures a == Die || a == End ==> s.run.Some? && Apply(c, s, a).run.None?
    ensures a == End ==>
              && s.run.value.next == |c.jobs| && s.run.value.inflight == {}
              && s.run.value.rows == map[] && s.run.value.done == {}
  {
  }

  /** Only the iterator puts windows in flight. */
  lemma OnlyTakeFetches(c: Config, s: State, a: Action, j: Job)
    requires Enabled(c, s, a) && Apply(c, s, a).run.Some? && j in Apply(c, s, a).run.value.inflight
    ensures a == Take || (s.run.Some? && j in s.run.value.inflight)
  {
  }

  /** A window with provider rows is on its way to a cursor, or to being reported as failed. */
  ghost predicate Recorded(c: Config, s: State, r: Run, j: Job)
  {
    RowsOf(c, j) == map[] || j in r.inflight || j in r.failed || j in r.done || j in s.cursors
  }

  /** A window without provider rows never gets a cursor, and a run that does not skip records every
      other window it comes to. */
  ghost predicate CursorInv(c: Config, s: State)
  {
    && (forall j | j in s.cursors :: RowsOf(c, j) != map[])
    && (s.run.Some? ==> (forall j | j in s.run.value.done :: RowsOf(c, j) != map[])
                        && s.run.value.next <= |c.jobs|
                        && (!s.run.value.skip ==>
                              forall i | 0 <= i < s.run.value.next :: Recorded(c, s, s.run.value, c.jobs[i])))
  }

  lemma StepKeepsCursorInv(c: Config, s: State, a: Action)
    requires CursorInv(c, s) && Enabled(c, s, a)
    ensures CursorInv(c, Apply(c, s, a))
  {
    var s' := Apply(c, s, a);
    if s.run.Some? && s'.run.Some? && !s.run.value.skip {
      forall i | 0 <= i < s'.run.value.next ensures Recorded(c, s', s'.run.value, c.jobs[i]) {
        if i < s.run.value.next { assert Recorded(c, s, s.run.value, c.jobs[i]); }
      }
    }
  }

  lemma {:induction false} CursorHistory(c: Config, ss: seq<State>, acts: seq<Action>, k: nat)
    requires ValidRun(c, ss, acts) && k < |ss|
    ensures CursorInv(c, ss[k])
  {
    if k > 0 {
      CursorHistory(c, ss, acts, k - 1);
      StepKeepsCursorInv(c, ss[k - 1], acts[k - 1]);
    }
  }

  /** A cursor is only ever written for a window in which the provider has rows, and a successful run
      that does not skip leaves one for each of them: such windows are not fetched again. */
  lemma CursorsExactly(c: Config, ss: seq<State>, acts: seq<Action>, k: nat, j: Job)
    requires ValidRun(c, ss, acts) && k < |ss|
    ensures j in ss[k].cursors ==> exists x :: x in c.feed && InJob(x, j)
    ensures Succeeded(c, ss[k]) && !ss[k].run.value.skip && j in c.jobs
            ==> (j in ss[k].cursors <==> exists x :: x in c.feed && InJob(x, j))
  {
    CursorHistory(c, ss, acts, k);
    if RowsOf(c, j) != map[] {
      var x :| x in RowsOf(c, j);
      assert x in c.feed && InJob(x, j);
    }
    if x :| x in c.feed && InJob(x, j) { assert x in RowsOf(c, j); }
    if Succeeded(c, ss[k]) && !ss[k].run.value.skip && j in c.jobs {
      var i :| 0 <= i < |c.jobs| && c.jobs[i] == j;
      assert Recorded(c, ss[k], ss[k].run.value, c.jobs[i]);
    }
  }

  // ---------------------------------------------------------------- uninterrupted runs

  ghost function Last(ss: seq<State>): State
    requires ss != []
  {
    ss[|ss| - 1]
  }

  lemma Extend(c: Config, ss: seq<State>, acts: seq<Action>, a: Action) returns (ss': seq<State>, acts': seq<Action>)
    requires ValidRun(c, ss, acts) && Enabled(c, Last(ss), a)
    ensures ss' == ss + [Apply(c, Last(ss), a)] && acts' == acts + [a] && ValidRun(c, ss', acts')
  {
    ss', acts' := ss + [Apply(c, Last(ss), a)], acts + [a];
  }

  /** Actions of a run in which nothing dies and no request is lost. */
  predicate Steady(a: Action) { a.Take? || a.Collect? || a.CopyRows? || a.WriteCursors? }

  /** `acts'` continues `acts` with steady actions only. */
  ghost predicate SteadyOn(acts: seq<Action>, acts': seq<Action>)
  {
    acts <= acts' && forall i | |acts| <= i < |acts'| :: Steady(acts'[i])
  }

  /** A process between two jobs, nothing lost so far. */
  ghost predicate Idle(s: State)
  {
    s.run.Some? && var r := s.run.value; r.inflight == {} && r.failed == {} && !r.flushing
  }

  /** Takes the next job and, unless it is skipped, collects it. */
  lemma OneJob(c: Config, ss: seq<State>, acts: seq<Action>) returns (ss': seq<State>, acts': seq<Action>)
    requires ValidRun(c, ss, acts) && Idle(Last(ss)) && Last(ss).run.value.next < |c.jobs|
    ensures ValidRun(c, ss', acts') && SteadyOn(acts, acts') && Idle(Last(ss'))
    ensures Last(ss').run.value.next == Last(ss).run.value.next + 1
    ensures Last(ss').run.value.skip == Last(ss).run.value.skip
  {
    ss', acts' := Extend(c, ss, acts, Take);
    if Last(ss').run.value.inflight != {} {
      ss', acts' := Extend(c, ss', acts', Collect(c.jobs[Last(ss).run.value.next]));
    }
  }

  lemma {:induction false} AllJobs(c: Config, ss: seq<State>, acts: seq<Action>) returns (ss': seq<State>, acts': seq<Action>)
    requires ValidRun(c, ss, acts) && Idle(Last(ss)) && Last(ss).run.value.next <= |c.jobs|
    ensures ValidRun(c, ss', acts') && SteadyOn(acts, acts') && Idle(Last(ss'))
    ensures Last(ss').run.value.next == |c.jobs|
    ensures Last(ss').run.value.skip == Last(ss).run.value.skip
    decreases |c.jobs| - Last(ss).run.value.next
  {
    ss', acts' := ss, acts;
    if Last(ss).run.value.next < |c.jobs| {
      ss', acts' := OneJob(c, ss, acts);
      ss', acts' := AllJobs(c, ss', acts');
    }
  }

  /** After any history, a process that is started and left alone finishes without a failure. */
  lemma Uninterrupted(c: Config, ss: seq<State>, acts: seq<Action>, skip: bool) returns (ss': seq<State>, acts': seq<Action>)
    requires ValidRun(c, ss, acts) && Last(ss).run.None?
    ensures ValidRun(c, ss', acts') && SteadyOn(acts + [Launch(skip)], acts')
    ensures Succeeded(c, Last(ss')) && Last(ss').run.value.skip == skip
  {
    ss', acts' := Extend(c, ss, acts, Launch(skip));
    ss', acts' := AllJobs(c, ss', acts');
    ss', acts' := Extend(c, ss', acts', CopyRows);
    ss', acts' := Extend(c, ss', acts', WriteCursors);
  }

  /** Crash anywhere and resume with skip-existing: whatever crashes, lost requests and completion
      orders came before, a successful resume ends with the very table of one process that was
      started on an empty database and left alone; both hold exactly the wanted rows. */
  lemma ResumeEqualsUninterrupted(c: Config, ss: seq<State>, acts: seq<Action>, k: nat)
    returns (us: seq<State>, uacts: seq<Action>)
    requires Sliced(c) && ValidRun(c, ss, acts) && k < |ss| && Succeeded(c, ss[k]) && SkipOnly(acts)
    ensures ValidRun(c, us, uacts) && SteadyOn([Launch(true)], uacts) && Succeeded(c, Last(us))
    ensures ss[k].table == Last(us).table == WantedRows(c)
  {
    us, uacts := Uninterrupted(c, [Init], [], true);
    assert [] + [Launch(true)] == [Launch(true)];
    SkipEndsWithWanted(c, ss, acts, k);
    SkipEndsWithWanted(c, us, uacts, |us| - 1);
  }

  /** The provider has no rows in a window for which the reference calendar expects none. */
  ghost predicate NothingUnexpected(c: Config)
  {
    forall j, k | j in c.jobs && k in c.feed && InJob(k, j) :: Expected(c, j) > 0
  }

  /** A successful run that may not skip, or that has nothing unexpected to miss, ends with all
      rows, whatever mixture of earlier runs and crashes preceded it. */
  lemma SuccessStoresAll(c: Config, ss: seq<State>, acts: seq<Action>, k: nat)
    requires Sliced(c) && ValidRun(c, ss, acts) && k < |ss| && Succeeded(c, ss[k])
    requires !ss[k].run.value.skip || NothingUnexpected(c)
    ensures ss[k].table == AllRows(c)
  {
    HistoryInv(c, ss, acts, k);
    var t := ss[k].table;
    forall x | x in AllRows(c) ensures x in t {
      var j :| j in c.jobs && InJob(x, j);
      SuccessStores(c, ss[k], j);
    }
    assert t.Keys == AllRows(c).Keys;
  }

  /** A successful history of skip-existing runs, at its `k`-th state. */
  ghost predicate SkipSuccess(c: Config, ss: seq<State>, acts: seq<Action>, k: nat)
  {
    ValidRun(c, ss, acts) && k < |ss| && Succeeded(c, ss[k]) && SkipOnly(acts)
  }

  /** Every successful skip-existing history ends with all of the provider's rows. */
  ghost predicate Lossless(c: Config)
  {
    forall ss: seq<State>, acts, k: nat | SkipSuccess(c, ss, acts, k) :: ss[k].table == AllRows(c)
  }

  /** A window with provider rows for which the reference table expects none loses them in every
      successful skip-existing history - and there is one. */
  lemma UnexpectedIsLost(c: Config, j: Job, x: Key)
    requires Sliced(c) && j in c.jobs && x in c.feed && InJob(x, j) && Expected(c, j) == 0
    ensures !Lossless(c)
  {
    var ss, acts := Uninterrupted(c, [Init], [], true);
    SkipEndsWithWanted(c, ss, acts, |ss| - 1);
    assert x in AllRows(c);
    forall i | i in c.jobs && InJob(x, i) ensures i == j { SameJob(c, i, j, x); }
    assert x !in WantedRows(c);
    assert SkipSuccess(c, ss, acts, |ss| - 1);
  }

  lemma ExpectedIsKept(c: Config)
    requires Sliced(c) && NothingUnexpected(c)
    ensures Lossless(c)
  {
    forall ss: seq<State>, acts, k: nat | SkipSuccess(c, ss, acts, k) ensures ss[k].table == AllRows(c) {
      SuccessStoresAll(c, ss, acts, k);
    }
  }

  /** The reference table expects rows in every window that has a day. */
  ghost predicate CoreCovers(c: Config)
  {
    forall j, k | j in c.jobs && InJob(k, j) :: Expected(c, j) > 0
  }

  /** For a slicing and a reference table: skip-existing loses no row against any provider if and
      only if the reference table has rows in every window.  For a window without any, a feed of
      one row is lost by a run that nothing interrupts. */
  lemma SkipLosslessIff(c: Config)
    requires Sliced(c)
    ensures (forall feed :: Lossless(c.(feed := feed))) <==> CoreCovers(c)
  {
    if CoreCovers(c) {
      forall feed ensures Lossless(c.(feed := feed)) {
        ExpectedIsKept(c.(feed := feed));
      }
    } else {
      var j, k :| j in c.jobs && InJob(k, j) && Expected(c, j) == 0;
      var poor := c.(feed := map[k := 0]);
      UnexpectedIsLost(poor, j, k);
    }
  }

  // ---------------------------------------------------------------- where jobs and rows come from

  /** Tickers times windows: every key of a listed ticker in the range belongs to exactly one job. */
  method IterFetchJobs(tickers: seq<int>, first: int, last: int, windowDays: int) returns (jobs: seq<Job>)
    requires windowDays >= 1
    requires forall a, b | 0 <= a < b < |tickers| :: tickers[a] != tickers[b]
    ensures forall a, b, k | 0 <= a < |jobs| && 0 <= b < |jobs| && InJob(k, jobs[a]) && InJob(k, jobs[b]) :: a == b
    ensures forall k: Key | k.ticker in tickers && first <= k.date <= last :: exists j :: j in jobs && InJob(k, j)
  {
    jobs := [];
    for t := 0 to |tickers|
      invariant forall a | 0 <= a < |jobs| :: jobs[a].ticker in tickers[..t]
      invariant forall a, b, k | 0 <= a < |jobs| && 0 <= b < |jobs| && InJob(k, jobs[a]) && InJob(k, jobs[b]) :: a == b
      invariant forall k: Key | k.ticker in tickers[..t] && first <= k.date <= last :: exists j :: j in jobs && InJob(k, j)
    {
      var ws := IterWindows(first, last, windowDays);
      var mine := seq(|ws|, i requires 0 <= i < |ws| => Job(tickers[t], ws[i]));
      TickerJobs(ws, first, last, tickers[t], mine);
      var before := jobs;
      jobs := jobs + mine;
      forall k: Key | k.ticker in tickers[..t + 1] && first <= k.date <= last ensures exists j :: j in jobs && InJob(k, j) {
        if k.ticker == tickers[t] {
          var j :| j in mine && InJob(k, j);
          assert j in jobs;
        } else {
          assert k.ticker in tickers[..t];
          var j :| j in before && InJob(k, j);
          assert j in jobs;
        }
      }
      assert tickers[t] !in tickers[..t];
      forall a, b, k | 0 <= a < |jobs| && 0 <= b < |jobs| && InJob(k, jobs[a]) && InJob(k, jobs[b]) ensures a == b {
        JoinedJobs(before, mine, a, b, k);
      }
    }
    assert tickers[..|tickers|] == tickers;
  }

  lemma TickerJobs(ws: seq<Window>, first: int, last: int, ticker: int, mine: seq<Job>)
    requires Tiling(ws, first, last)
    requires |mine| == |ws| && forall i | 0 <= i < |ws| :: mine[i] == Job(ticker, ws[i])
    ensures forall a, b, k | 0 <= a < |mine| && 0 <= b < |mine| && InJob(k, mine[a]) && InJob(k, mine[b]) :: a == b
    ensures forall k: Key | k.ticker == ticker && first <= k.date <= last :: exists j :: j in mine && InJob(k, j)
  {
    forall a, b, k | 0 <= a < |mine| && 0 <= b < |mine| && InJob(k, mine[a]) && InJob(k, mine[b]) ensures a == b {
      var i := TilingCovers(ws, first, last, k.date);
    }
    forall k: Key | k.ticker == ticker && first <= k.date <= last ensures exists j :: j in mine && InJob(k, j) {
      var i := TilingCovers(ws, first, last, k.date);
      assert mine[i] in mine && InJob(k, mine[i]);
    }
  }

  lemma JoinedJobs(before: seq<Job>, mine: seq<Job>, a: int, b: int, k: Key)
    requires forall x, y, q | 0 <= x < |before| && 0 <= y < |before| && InJob(q, before[x]) && InJob(q, before[y]) :: x == y
    requires forall x, y, q | 0 <= x < |mine| && 0 <= y < |mine| && InJob(q, mine[x]) && InJob(q, mine[y]) :: x == y
    requires forall x, y | 0 <= x < |before| && 0 <= y < |mine| :: before[x].ticker != mine[y].ticker
    requires var jobs := before + mine; 0 <= a < |jobs| && 0 <= b < |jobs| && InJob(k, jobs[a]) && InJob(k, jobs[b])
    ensures a == b
  {
    var n := |before|;
    if n <= a && n <= b {
      assert InJob(k, mine[a - n]) && InJob(k, mine[b - n]);
    }
  }

  /** The daily feed of one ticker. */
  ghost function Daily(feed: map<Key, int>, ticker: int): int -> seq<Row>
  {
    day => if Key(ticker, day) in feed then [Row(ticker, day, feed[Key(ticker, day)])] else []
  }

  /** What copying rows in order does to an empty table (last write wins). */
  ghost function TableOf(rows: seq<Row>): map<Key, int>
  {
    if rows == [] then map[]
    else var last := rows[|rows| - 1]; TableOf(rows[..|rows| - 1])[Key(last.ticker, last.date) := last.payload]
  }

  lemma SnocTable(rows: seq<Row>, row: Row)
    ensures TableOf(rows + [row]) == TableOf(rows)[Key(row.ticker, row.date) := row.payload]
  {
    assert (rows + [row])[..|rows + [row]| - 1] == rows;
  }

  lemma OneDayMore(c: Config, ticker: int, first: int, last: int)
    requires first <= last
    ensures var k, earlier := Key(ticker, last), RowsOf(c, Job(ticker, Window(first, last - 1)));
            RowsOf(c, Job(ticker, Window(first, last))) == if k in c.feed then earlier[k := c.feed[k]] else earlier
  {
  }

  lemma {:induction false} SpanTable(c: Config, ticker: int, first: int, last: int)
    ensures TableOf(Span(Daily(c.feed, ticker), first, last)) == RowsOf(c, Job(ticker, Window(first, last)))
    ensures Span(Daily(c.feed, ticker), first, last) == [] <==> RowsOf(c, Job(ticker, Window(first, last))) == map[]
    decreases last - first
  {
    var daily := Daily(c.feed, ticker);
    var rows := RowsOf(c, Job(ticker, Window(first, last)));
    if last < first {
      assert rows == map[];
    } else {
      SpanTable(c, ticker, first, last - 1);
      OneDayMore(c, ticker, first, last);
      var k, before := Key(ticker, last), Span(daily, first, last - 1);
      if k in c.feed {
        var row := Row(ticker, last, c.feed[k]);
        SnocTable(before, row);
        assert daily(last) == [row] && Span(daily, first, last) == before + [row];
        assert k in rows;
      } else {
        assert daily(last) == [] && Span(daily, first, last) == before;
      }
    }
  }

  /** What `Collect` adds is what the bisecting fetch returns: against a faithful provider,
      whatever requests failed on the way, a fetched window is exactly that window's rows. */
  lemma CollectIsFetch(c: Config, p: Provider, n: nat, j: Job)
    requires Faithful(p, Daily(c.feed, j.ticker)) && Fetch(p, n, j.window).Got?
    ensures TableOf(Fetch(p, n, j.window).rows) == RowsOf(c, j)
    ensures Fetch(p, n, j.window).rows == [] <==> RowsOf(c, j) == map[]
  {
    FetchTransparent(p, Daily(c.feed, j.ticker), n, j.window);
    SpanTable(c, j.ticker, j.window.start, j.window.end);
    assert j == Job(j.ticker, Window(j.window.start, j.window.end));
  }
}
