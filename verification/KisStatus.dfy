/** What the status that the parallel ingestion reports says about the windows it took.

    The parallel branch reports success when no window failed, also when the request cap kept it from
    taking the last ones.  Results are those that bisecting fetches can return: at least one and at
    most as many requests as the window has days. */
module KisStatus {
  import opened KisFetch
  import opened KisScheduler
  import KisIngest
  import KisResume

  /** The results of fetching each job from its provider. */
  function OutcomesOf(ps: seq<Provider>, jobs: seq<Job>): seq<Outcome>
    requires |ps| == |jobs|
  {
    seq(|jobs|, i requires 0 <= i < |jobs| => KisIngest.OutcomeOf(Fetch(ps[i], 0, jobs[i].window)))
  }

  function PlanOf(ps: seq<Provider>, jobs: seq<Job>, workers: nat, cap: Cap): Plan
    requires |ps| == |jobs|
  {
    Plan(jobs, OutcomesOf(ps, jobs), workers, cap)
  }

  /** Whatever the providers answer and in whatever order, a run without a failed window - the one
      thing the status looks at - has taken all jobs. */
  ghost predicate SuccessMeansAll(jobs: seq<Job>, workers: nat, cap: Cap, threshold: nat)
  {
    forall ps: seq<Provider>, script | |ps| == |jobs| && Ran(PlanOf(ps, jobs, workers, cap), threshold, script) ::
      var b := Play(PlanOf(ps, jobs, workers, cap), threshold, script).books;
      b.failed == [] ==> b.next == |jobs|
  }

  // ---------------------------------------------------------------- requests and days

  function DaysIn(jobs: seq<Job>): int
  {
    if jobs == [] then 0 else DaysIn(jobs[..|jobs| - 1]) + jobs[|jobs| - 1].window.Days()
  }

  ghost predicate NonEmpty(jobs: seq<Job>) { forall j | j in jobs :: j.window.start <= j.window.end }

  lemma {:induction false} DaysGrow(jobs: seq<Job>, n: nat, m: nat)
    requires NonEmpty(jobs) && n <= m <= |jobs|
    ensures DaysIn(jobs[..n]) <= DaysIn(jobs[..m])
    decreases m
  {
    if n < m {
      DaysGrow(jobs, n, m - 1);
      assert jobs[..m][..m - 1] == jobs[..m - 1] && jobs[m - 1] in jobs;
    }
  }

  /** A fetch counts at most one request per day of its window. */
  lemma {:induction false} FetchWithinDays(p: Provider, n: nat, w: Window)
    requires w.start <= w.end && Fetch(p, n, w).Got?
    ensures 1 <= Fetch(p, n, w).requests <= w.Days()
    decreases w.end - w.start
  {
    if p(n, w).Fails? {
      var midpoint := Midpoint(w);
      var left := Fetch(p, n + 1, Window(w.start, midpoint));
      FetchWithinDays(p, n + 1, Window(w.start, midpoint));
      FetchWithinDays(p, left.calls, Window(midpoint + 1, w.end));
    }
  }

  lemma PlanIsSetUp(ps: seq<Provider>, jobs: seq<Job>, workers: nat, cap: Cap)
    requires |ps| == |jobs| && NonEmpty(jobs) && workers >= 1
    ensures Setup(PlanOf(ps, jobs, workers, cap))
    ensures forall i | 0 <= i < |jobs| :: CostWithin(jobs[i], OutcomesOf(ps, jobs)[i])
  {
    forall i | 0 <= i < |jobs| ensures CostWithin(jobs[i], OutcomesOf(ps, jobs)[i])
      && (OutcomesOf(ps, jobs)[i].Fetched? ==> OutcomesOf(ps, jobs)[i].requests >= 1)
    {
      assert jobs[i] in jobs;
      if Fetch(ps[i], 0, jobs[i].window).Got? { FetchWithinDays(ps[i], 0, jobs[i].window); }
    }
  }

  ghost predicate CostWithin(j: Job, o: Outcome) { CostOf(o) <= j.window.Days() }

  lemma {:induction false} RequestsConcat(a: seq<Future>, b: seq<Future>)
    ensures RequestsIn(a + b) == RequestsIn(a) + RequestsIn(b)
    decreases |b|
  {
    if b == [] {
      assert a + b == a;
    } else {
      RequestsConcat(a, b[..|b| - 1]);
      assert (a + b)[..|a + b| - 1] == a + b[..|b| - 1];
    }
  }

  lemma RequestsWithout(a: seq<Future>, f: Future, b: seq<Future>)
    ensures RequestsIn(a + [f] + b) == RequestsIn(a + b) + CostOf(f.outcome)
  {
    RequestsConcat(a + [f], b);
    SnocRows(a, f);
    RequestsConcat(a, b);
  }

  /** The count does not depend on the order in which jobs complete. */
  lemma {:induction false} RequestsPermute(a: seq<Future>, b: seq<Future>)
    requires multiset(a) == multiset(b)
    ensures RequestsIn(a) == RequestsIn(b)
    decreases |a|
  {
    if a == [] {
      assert |multiset(b)| == 0;
    } else {
      var init, last := a[..|a| - 1], a[|a| - 1];
      assert a == init + [last];
      assert last in multiset(a);
      var k :| 0 <= k < |b| && b[k] == last;
      var rest := b[..k] + b[k + 1..];
      assert b == b[..k] + [b[k]] + b[k + 1..];
      MultisetSnoc(a, init, last, b, rest);
      RequestsPermute(init, rest);
      RequestsWithout(b[..k], last, b[k + 1..]);
    }
  }

  lemma {:induction false} RequestsWithinDays(jobs: seq<Job>, outcomes: seq<Outcome>, n: nat)
    requires n <= |jobs| == |outcomes| && forall i | 0 <= i < |jobs| :: CostWithin(jobs[i], outcomes[i])
    ensures RequestsIn(Submitted(jobs, outcomes, n)) <= DaysIn(jobs[..n])
  {
    if n > 0 {
      RequestsWithinDays(jobs, outcomes, n - 1);
      SubmittedSnoc(jobs, outcomes, n - 1);
      assert CostWithin(jobs[n - 1], outcomes[n - 1]);
    }
  }

  lemma SubmittedSnoc(jobs: seq<Job>, outcomes: seq<Outcome>, n: nat)
    requires n < |jobs| == |outcomes|
    ensures RequestsIn(Submitted(jobs, outcomes, n + 1)) == RequestsIn(Submitted(jobs, outcomes, n)) + CostOf(outcomes[n])
    ensures DaysIn(jobs[..n + 1]) == DaysIn(jobs[..n]) + jobs[n].window.Days()
  {
    var f := Future(n, jobs[n], outcomes[n]);
    assert Submitted(jobs, outcomes, n + 1) == Submitted(jobs, outcomes, n) + [f];
    SnocRows(Submitted(jobs, outcomes, n), f);
    assert jobs[..n + 1][..n] == jobs[..n];
  }

  /** Once nothing is in flight, the count is that of the jobs taken. */
  lemma CountOfTaken(p: Plan, b: Books, acc: Account)
    requires Sound(p, {}, {}, b, acc)
    ensures b.next <= |p.jobs| == |p.outcomes| && acc.requests == RequestsIn(Submitted(p.jobs, p.outcomes, b.next))
  {
    assert Holds(Tracking, p, {}, {}, b, acc) && Holds(Balance, p, {}, {}, b, acc);
    CollectedIsSubmitted(p.jobs, p.outcomes, b.next, acc.order);
    RequestsPermute(acc.order, Submitted(p.jobs, p.outcomes, b.next));
  }

  // ---------------------------------------------------------------- when success means all

  /** The first refill takes as many jobs as fit into the futures and the cap. */
  lemma FirstRefill(p: Plan)
    requires Setup(p)
    ensures var s := Refilled(p, Idle);
            && Steady(p, s) && s.books.next <= 4 * p.workers && (p.cap.Limit? ==> s.books.next <= p.cap.requests)
            && (s.books.next == |p.jobs| || s.books.next == 4 * p.workers || (p.cap.Limit? && s.books.next == p.cap.requests))
  {
    StartSound(p);
    RefillSteady(p, Idle);
    var s := Refilled(p, Idle);
    SoundBasics(p, s.pending, {}, s.books, s.acc);
    assert Holds(Tracking, p, s.pending, {}, s.books, s.acc) && Holds(Capacity, p, s.pending, {}, s.books, s.acc);
    assert Holds(Balance, p, s.pending, {}, s.books, s.acc);
    assert s.books.flying == s.pending;
  }

  lemma {:induction false} PlayGrows(p: Plan, threshold: nat, script: seq<seq<Future>>)
    requires Setup(p) && Playable(p, threshold, script)
    ensures Play(p, threshold, script).books.next >= Refilled(p, Idle).books.next
  {
    if script != [] {
      var init := script[..|script| - 1];
      PlayGrows(p, threshold, init);
      PlaySteady(p, threshold, init);
      TurnSteady(p, threshold, Play(p, threshold, init), script[|script| - 1]);
    }
  }

  /** A run that leaves jobs out has used the cap up on those it took. */
  lemma LeftOut(p: Plan, b: Books, acc: Account)
    requires Sound(p, {}, {}, b, acc) && Collected(p, b, acc.order) && p.cap.Limit? && b.next < |p.jobs|
    requires |p.jobs| == |p.outcomes| && forall i | 0 <= i < |p.jobs| :: CostWithin(p.jobs[i], p.outcomes[i])
    ensures DaysIn(p.jobs[..b.next]) >= p.cap.requests
  {
    assert Holds(Balance, p, {}, {}, b, acc);
    CountOfTaken(p, b, acc);
    RequestsWithinDays(p.jobs, p.outcomes, b.next);
  }

  /** A cap above the days of all windows but the last never keeps a window from being taken. */
  lemma AmpleCap(p: Plan, threshold: nat, script: seq<seq<Future>>)
    requires Setup(p) && Ran(p, threshold, script) && p.cap.Limit? && p.jobs != [] && NonEmpty(p.jobs)
    requires forall i | 0 <= i < |p.jobs| :: CostWithin(p.jobs[i], p.outcomes[i])
    requires DaysIn(p.jobs[..|p.jobs| - 1]) < p.cap.requests
    ensures Play(p, threshold, script).books.next == |p.jobs|
  {
    RanEnds(p, threshold, script);
    var s := Play(p, threshold, script);
    SoundBasics(p, {}, {}, s.books, s.acc);
    if s.books.next < |p.jobs| {
      LeftOut(p, s.books, s.acc);
      DaysGrow(p.jobs, s.books.next, |p.jobs| - 1);
    }
  }

  // ---------------------------------------------------------------- when it does not

  /** A provider that answers single days only, and has no rows. */
  const DayByDay: Provider := (n: nat, w: Window) => if w.start >= w.end then Rows([]) else Fails

  lemma {:induction false} DayByDayFetch(n: nat, w: Window)
    requires w.start <= w.end
    ensures Fetch(DayByDay, n, w).Got? && Fetch(DayByDay, n, w).rows == []
    ensures Fetch(DayByDay, n, w).requests == w.Days()
    decreases w.end - w.start
  {
    if w.start < w.end {
      var midpoint := Midpoint(w);
      DayByDayFetch(n + 1, Window(w.start, midpoint));
      DayByDayFetch(Fetch(DayByDay, n + 1, Window(w.start, midpoint)).calls, Window(midpoint + 1, w.end));
    }
  }

  /** Every fetch succeeds with one request per day and finds nothing. */
  ghost predicate FullDays(p: Plan)
  {
    && NonEmpty(p.jobs) && |p.outcomes| == |p.jobs|
    && forall i | 0 <= i < |p.jobs| :: FullDay(p.jobs[i], p.outcomes[i])
  }

  ghost predicate FullDay(j: Job, o: Outcome) { o.Fetched? && o.rows == [] && o.requests == j.window.Days() >= 1 }

  lemma {:induction false} RequestsAreDays(p: Plan, n: nat)
    requires FullDays(p) && n <= |p.jobs|
    ensures RequestsIn(Submitted(p.jobs, p.outcomes, n)) == DaysIn(p.jobs[..n])
  {
    if n > 0 {
      RequestsAreDays(p, n - 1);
      SubmittedSnoc(p.jobs, p.outcomes, n - 1);
      assert FullDay(p.jobs[n - 1], p.outcomes[n - 1]);
    }
  }

  /** Results handed back count at least one request each, and none of them fails. */
  lemma {:induction false} HandedCounts(p: Plan, threshold: nat, s: Sched, handed: seq<Future>)
    requires FullDays(p) && forall f | f in handed :: Taken(p.jobs, p.outcomes, s.books.next, f)
    ensures AllBooked(threshold, s, handed).acc.requests >= s.acc.requests + |handed|
    ensures AllBooked(threshold, s, handed).books.failed == s.books.failed
    ensures AllBooked(threshold, s, handed).books.next == s.books.next
  {
    if handed != [] {
      var f := handed[|handed| - 1];
      assert f in handed && Taken(p.jobs, p.outcomes, s.books.next, f);
      assert FullDay(p.jobs[f.id], p.outcomes[f.id]);
      HandedCounts(p, threshold, s, handed[..|handed| - 1]);
    }
  }

  lemma PendingTaken(p: Plan, s: Sched)
    requires Steady(p, s)
    ensures |p.jobs| == |p.outcomes| && forall f | f in s.pending :: Taken(p.jobs, p.outcomes, s.books.next, f)
  {
    assert Holds(Tracking, p, s.pending, {}, s.books, s.acc);
  }

  /** A run whose every turn has kept to the plan: no failure, and not the last job. */
  ghost predicate Short(p: Plan, s: Sched) { s.books.failed == [] && s.books.next < |p.jobs| }

  lemma SetSize(handed: seq<Future>)
    requires Distinct(handed)
    ensures |Futures(handed)| == |handed|
  {
    if handed != [] {
      var init, last := handed[..|handed| - 1], handed[|handed| - 1];
      SetSize(init);
      assert handed == init + [last];
      assert Futures(handed) == Futures(init) + {last} && last !in Futures(init);
    }
  }

  /** With nothing left in flight the cap is reached, or was when everything was handed back. */
  lemma Exhausts(p: Plan, threshold: nat, s: Sched, handed: seq<Future>)
    requires Setup(p) && FullDays(p) && p.cap.Limit? && Steady(p, s) && Short(p, s)
    requires CanHand(s, handed) && Futures(handed) == s.pending
    requires s.acc.requests + |s.pending| >= p.cap.requests
             || (s.books.next == |p.jobs| - 1 && DaysIn(p.jobs[..|p.jobs| - 1]) >= p.cap.requests)
    ensures Turn(p, threshold, s, handed).pending == {} && Short(p, Turn(p, threshold, s, handed))
  {
    var w := s.(pending := s.pending - Futures(handed));
    var r := AllBooked(threshold, w, handed);
    WithdrawSound(p, s.pending, s.pending, s.books, s.acc);
    assert s.pending - s.pending == {} && Futures(handed) + {} == s.pending;
    AllBookedSound(p, threshold, w, handed, {});
    PendingTaken(p, s);
    HandedCounts(p, threshold, w, handed);
    SetSize(handed);
    if s.books.next == |p.jobs| - 1 {
      CountOfTaken(p, r.books, r.acc);
      RequestsAreDays(p, r.books.next);
    }
    assert !Room(p, r);
  }

  /** One future handed back from a full house makes room for one job at most. */
  lemma OneForOne(p: Plan, threshold: nat, s: Sched, f: Future)
    requires Setup(p) && FullDays(p) && Steady(p, s) && f in s.pending && |s.pending| == 4 * p.workers
    ensures CanHand(s, [f]) && Turn(p, threshold, s, [f]).books.next <= s.books.next + 1
    ensures Turn(p, threshold, s, [f]).books.failed == s.books.failed
  {
    var w := s.(pending := s.pending - Futures([f]));
    var r := AllBooked(threshold, w, [f]);
    assert Futures([f]) == {f} && {f} + {} == {f};
    WithdrawSound(p, s.pending, {f}, s.books, s.acc);
    AllBookedSound(p, threshold, w, [f], {});
    PendingTaken(p, s);
    HandedCounts(p, threshold, w, [f]);
    RefillSteady(p, r);
    RefillOne(p, r);
  }

  lemma RefillOne(p: Plan, s: Sched)
    requires Setup(p) && Steady(p, s) && |s.pending| == 4 * p.workers - 1
    ensures Refilled(p, s).books.next <= s.books.next + 1
  {
    if Room(p, s) {
      var f := Future(s.books.next, p.jobs[s.books.next], p.outcomes[s.books.next]);
      SoundBasics(p, s.pending, {}, s.books, s.acc);
      SubmitSound(p, s.pending, s.books, s.acc, f);
      var t := TakeNext(p, s);
      SoundBasics(p, t.pending, {}, t.books, t.acc);
      assert !Room(p, t);
    }
  }

  /** A run that has not taken the last job can end without it, if the days of the others use up the
      cap: results come back one at a time until only the last job is left to take, then all at once. */
  lemma {:induction false} EndsShort(p: Plan, threshold: nat, script: seq<seq<Future>>) returns (script': seq<seq<Future>>)
    requires Setup(p) && FullDays(p) && p.cap.Limit? && Playable(p, threshold, script)
    requires Short(p, Play(p, threshold, script)) && DaysIn(p.jobs[..|p.jobs| - 1]) >= p.cap.requests
    ensures Ran(p, threshold, script') && Short(p, Play(p, threshold, script'))
    decreases |p.jobs| - |Play(p, threshold, script).acc.order|
  {
    var s := Play(p, threshold, script);
    PlaySteady(p, threshold, script);
    SoundBasics(p, s.pending, {}, s.books, s.acc);
    assert Holds(Capacity, p, s.pending, {}, s.books, s.acc);
    script' := script;
    if s.acc.requests + |s.pending| >= p.cap.requests || s.books.next == |p.jobs| - 1 {
      if s.pending != {} {
        var handed;
        script', handed := HandAll(p, threshold, script);
        Exhausts(p, threshold, s, handed);
      }
    } else {
      var f :| f in s.pending;
      OneForOne(p, threshold, s, f);
      SnocTurn(p, threshold, script, [f]);
      TurnSteady(p, threshold, s, [f]);
      var r := Turn(p, threshold, s, [f]);
      SoundBasics(p, r.pending, {}, r.books, r.acc);
      script' := EndsShort(p, threshold, script + [[f]]);
    }
  }

  /** A run in which nothing fails and the cap keeps a window from being taken. */
  lemma StoppedEarly(jobs: seq<Job>, workers: nat, cap: nat, threshold: nat)
    returns (ps: seq<Provider>, script: seq<seq<Future>>)
    requires NonEmpty(jobs) && workers >= 1
    requires |jobs| > cap || |jobs| > 4 * workers
    requires jobs == [] || DaysIn(jobs[..|jobs| - 1]) >= cap
    ensures |ps| == |jobs| && Ran(PlanOf(ps, jobs, workers, Limit(cap)), threshold, script)
    ensures Short(PlanOf(ps, jobs, workers, Limit(cap)), Play(PlanOf(ps, jobs, workers, Limit(cap)), threshold, script))
  {
    ps := DayByDayPlan(jobs, workers, Limit(cap));
    var p := PlanOf(ps, jobs, workers, Limit(cap));
    StartsShort(p, threshold);
    script := EndsShort(p, threshold, []);
  }

  lemma DayByDayPlan(jobs: seq<Job>, workers: nat, cap: Cap) returns (ps: seq<Provider>)
    requires NonEmpty(jobs) && workers >= 1
    ensures |ps| == |jobs| && Setup(PlanOf(ps, jobs, workers, cap)) && FullDays(PlanOf(ps, jobs, workers, cap))
  {
    ps := seq(|jobs|, _ => DayByDay);
    var p := PlanOf(ps, jobs, workers, cap);
    PlanIsSetUp(ps, jobs, workers, cap);
    forall i | 0 <= i < |jobs| ensures FullDay(p.jobs[i], p.outcomes[i]) {
      assert jobs[i] in jobs;
      DayByDayFetch(0, jobs[i].window);
    }
  }

  lemma StartsShort(p: Plan, threshold: nat)
    requires Setup(p) && p.cap.Limit? && (|p.jobs| > p.cap.requests || |p.jobs| > 4 * p.workers)
    ensures Playable(p, threshold, []) && Short(p, Play(p, threshold, []))
  {
    FirstRefill(p);
    StartSound(p);
    RefillSteady(p, Idle);
  }

  /** All jobs fit into the cap and into the futures put in flight at once, or the days of all windows
      but the last do not use the cap up. */
  predicate CapSpares(jobs: seq<Job>, workers: nat, cap: Cap)
  {
    || cap.Unlimited?
    || (|jobs| <= cap.requests && |jobs| <= 4 * workers)
    || (jobs != [] && DaysIn(jobs[..|jobs| - 1]) < cap.requests)
  }

  lemma SparedRun(p: Plan, threshold: nat, script: seq<seq<Future>>)
    requires Setup(p) && NonEmpty(p.jobs) && Ran(p, threshold, script) && CapSpares(p.jobs, p.workers, p.cap)
    requires forall i | 0 <= i < |p.jobs| :: CostWithin(p.jobs[i], p.outcomes[i])
    ensures Play(p, threshold, script).books.next == |p.jobs|
  {
    RanEnds(p, threshold, script);
    if p.cap.Unlimited? {
    } else if |p.jobs| <= p.cap.requests && |p.jobs| <= 4 * p.workers {
      FirstRefill(p);
      PlayGrows(p, threshold, script);
    } else {
      AmpleCap(p, threshold, script);
    }
  }

  /** For every provider behaviour and every order of completion, reported success means that every
      window was taken if and only if there is no cap, or all jobs fit into the cap and into the
      futures put in flight at once, or the days of all windows but the last do not use the cap up.
      The ingestion takes this branch with two or more workers; with one, its sequential loop reports
      a partial success when it stops at the cap. */
  lemma SuccessMeansAllIff(jobs: seq<Job>, workers: nat, cap: Cap, threshold: nat)
    requires NonEmpty(jobs) && workers >= 1
    ensures SuccessMeansAll(jobs, workers, cap, threshold) <==> CapSpares(jobs, workers, cap)
  {
    if CapSpares(jobs, workers, cap) {
      forall ps: seq<Provider>, script | |ps| == |jobs| && Ran(PlanOf(ps, jobs, workers, cap), threshold, script)
        ensures Play(PlanOf(ps, jobs, workers, cap), threshold, script).books.next == |jobs|
      {
        PlanIsSetUp(ps, jobs, workers, cap);
        SparedRun(PlanOf(ps, jobs, workers, cap), threshold, script);
      }
    } else {
      var ps, script := StoppedEarly(jobs, workers, cap.requests, threshold);
      assert Ran(PlanOf(ps, jobs, workers, cap), threshold, script);
    }
  }
}
