/** The outbox dispatcher: leases, runs, settlement, crashes and the restart reaper.

    Several dispatch tasks may be live in the one worker process.  A task's claim is one
    `Worker`; its program counter follows `_dispatch_analysis_job_outbox` and
    `run_job_sync`.  Job status writes are unconditional, as in the store: nothing checks
    the status a job had before.  A crash kills every worker, but not a COMMIT that was already on
    the wire, so a job can still be admitted while the service is down.  Startup fails closed: the
    sweep refuses to begin when more jobs are active than it may hold, and the service comes up
    only when nothing is left to reap.
*/
module Dispatch {
  import opened Common

  type JobId = int
  type OutboxId = int
  type Wid = int

  /** The outbox lease, in seconds. */
  const LEASE := 300

  /** The most active jobs a restart sweep accepts. */
  const SWEEP_LIMIT := 500

  datatype Status = Queued | Running | Completed | Failed

  predicate Terminal(st: Status) { st.Completed? || st.Failed? }

  datatype RowStatus = Pending | Claimed(at: int) | Delivered
  datatype Row = Row(job: JobId, st: RowStatus)

  datatype Pc =
    | Fetch                    // claimed, about to load the job
    | Waiting                  // inside run_job_sync, waiting for a capacity slot
    | Executing                // marked RUNNING
    | Returned                 // run_job_sync returned
    | Escaped                  // run_job_sync raised
    | Failing(guarded: bool)   // not terminal: about to fail the job
    | Settling(guarded: bool)  // terminal: about to acknowledge
    | Unsettled                // settlement raised: about to release the claim

  datatype Worker = Worker(outbox: OutboxId, job: JobId, at: int, pc: Pc)

  /** `sweeping` is set while a starting process settles the jobs it has read; `starts` counts, per
      job, how often a worker marked it RUNNING. */
  datatype State = State(
    now: int,
    up: bool,
    sweeping: bool,
    jobs: map<JobId, Status>,
    outbox: map<OutboxId, Row>,
    workers: map<Wid, Worker>,
    starts: map<JobId, nat>)

  datatype Action =
    | Admit(job: JobId, outbox: OutboxId)
    | Claim(w: Wid, outbox: OutboxId)
    | Load(w: Wid)
    | SlotTimeout(w: Wid, demo: bool)
    | Start(w: Wid)
    | Report(w: Wid)
    | Finish(w: Wid, ok: bool)
    | Escape(w: Wid)
    | Inspect(w: Wid)
    | FailJob(w: Wid)
    | Fault(w: Wid)
    | Acknowledge(w: Wid)
    | Release(w: Wid)
    | Die(w: Wid)
    | Tick(seconds: nat)
    | Crash
    | Sweep
    | Reap(job: JobId)
    | ForceFail(job: JobId)
    | Restart

  /** The claim query's candidate rows. */
  predicate Claimable(s: State, o: OutboxId)
  {
    && o in s.outbox && s.outbox[o].job in s.jobs && s.jobs[s.outbox[o].job].Queued?
    && (s.outbox[o].st.Pending? || (s.outbox[o].st.Claimed? && s.outbox[o].st.at < s.now - LEASE))
  }

  /** `has_recoverable_analysis_job_outbox` */
  predicate Recoverable(s: State, j: JobId)
  {
    exists o | o in s.outbox :: s.outbox[o].job == j && !s.outbox[o].st.Delivered?
  }

  predicate Reapable(s: State, j: JobId)
  {
    j in s.jobs && !Terminal(s.jobs[j]) && !(s.jobs[j].Queued? && Recoverable(s, j))
  }

  /** The rows the restart sweep reads: queued or running.  A job admitted after the read is queued
      with its row, so there is nothing to reap about it. */
  function Active(s: State): set<JobId> { set j | j in s.jobs && !Terminal(s.jobs[j]) }

  /** The read that begins a sweep raises when more rows are active than it may hold. */
  predicate Sweepable(s: State) { !s.up && |Active(s)| <= SWEEP_LIMIT }

  predicate At(s: State, w: Wid, pc: Pc) { w in s.workers && s.workers[w].pc == pc }

  predicate Enabled(s: State, a: Action)
  {
    match a
    case Admit(j, o) => j !in s.jobs && o !in s.outbox
    case Claim(w, o) => s.up && w !in s.workers && Claimable(s, o)
    case Load(w) => At(s, w, Fetch)
    case SlotTimeout(w, _) => At(s, w, Waiting)
    case Start(w) => At(s, w, Waiting)
    case Report(w) => At(s, w, Executing)
    case Finish(w, _) => At(s, w, Executing)
    case Escape(w) => At(s, w, Waiting) || At(s, w, Executing) || At(s, w, Returned)
    case Inspect(w) => At(s, w, Returned) || At(s, w, Escaped)
    case FailJob(w) => At(s, w, Failing(true)) || At(s, w, Failing(false))
    case Fault(w) => At(s, w, Escaped) || At(s, w, Failing(true)) || At(s, w, Failing(false)) || At(s, w, Settling(true))
    case Acknowledge(w) => At(s, w, Settling(true)) || At(s, w, Settling(false))
    case Release(w) => At(s, w, Unsettled)
    case Die(w) => w in s.workers
    case Tick(_) => true
    case Crash => s.up || s.sweeping
    case Sweep => Sweepable(s) && !s.sweeping
    case Reap(j) => s.sweeping && Reapable(s, j)
    case ForceFail(j) => s.sweeping && j in s.jobs && !Terminal(s.jobs[j])
    case Restart => s.sweeping && forall j | j in s.jobs :: !Reapable(s, j)
  }

  function SetPc(s: State, w: Wid, pc: Pc): State
    requires w in s.workers
  {
    s.(workers := s.workers[w := s.workers[w].(pc := pc)])
  }

  /** Worker `w` overwrites its job's status, whatever it was, and moves on. */
  function Write(s: State, w: Wid, st: Status, pc: Pc): State
    requires w in s.workers
  {
    SetPc(s.(jobs := s.jobs[s.workers[w].job := st]), w, pc)
  }

  function After(s: State, seconds: nat): State { s.(now := s.now + seconds) }

  function Drop(s: State, w: Wid): State { s.(workers := s.workers - {w}) }

  /** UPDATE ... WHERE outbox_id = %s AND status = 'claimed': any claim, not just the caller's. */
  function Settle(s: State, o: OutboxId, st: RowStatus): State
  {
    if o in s.outbox && s.outbox[o].st.Claimed? then s.(outbox := s.outbox[o := s.outbox[o].(st := st)]) else s
  }

  function Apply(s: State, a: Action): State
    requires Enabled(s, a)
  {
    match a
    case Admit(j, o) =>
      s.(jobs := s.jobs[j := Queued], outbox := s.outbox[o := Row(j, Pending)], starts := s.starts[j := 0])
    case Claim(w, o) =>
      s.(outbox := s.outbox[o := s.outbox[o].(st := Claimed(s.now))],
         workers := s.workers[w := Worker(o, s.outbox[o].job, s.now, Fetch)])
    case Load(w) => SetPc(s, w, if s.workers[w].job in s.jobs then Waiting else Unsettled)
    case SlotTimeout(w, demo) => Write(s, w, if demo then Completed else Failed, Returned)
    case Start(w) =>
      var j := s.workers[w].job;
      Write(s, w, Running, Executing).(starts := s.starts[j := (if j in s.starts then s.starts[j] else 0) + 1])
    case Report(w) => Write(s, w, Running, Executing)
    case Finish(w, ok) => Write(s, w, if ok then Completed else Failed, Returned)
    case Escape(w) => SetPc(s, w, Escaped)
    case Inspect(w) =>
      var guarded := s.workers[w].pc.Escaped?;
      var j := s.workers[w].job;
      SetPc(s, w, if j in s.jobs && Terminal(s.jobs[j]) then Settling(guarded) else Failing(guarded))
    case FailJob(w) => Write(s, w, Failed, Settling(true))
    case Fault(w) => SetPc(s, w, Unsettled)
    case Acknowledge(w) => Drop(Settle(s, s.workers[w].outbox, Delivered), w)
    case Release(w) => Drop(Settle(s, s.workers[w].outbox, Pending), w)
    case Die(w) => Drop(s, w)
    case Tick(d) => After(s, d)
    case Crash => s.(up := false, sweeping := false, workers := map[])
    case Sweep => s.(sweeping := true)
    case Reap(j) => s.(jobs := s.jobs[j := Failed])
    case ForceFail(j) => s.(jobs := s.jobs[j := Failed])
    case Restart => s.(up := true, sweeping := false)
  }

  const Init := State(0, true, false, map[], map[], map[], map[])

  ghost predicate ValidRun(run: seq<State>, acts: seq<Action>)
  {
    && |run| == |acts| + 1
    && run[0] == Init
    && forall i {:trigger acts[i]} | 0 <= i < |acts| :: Enabled(run[i], acts[i]) && run[i + 1] == Apply(run[i], acts[i])
  }

  // ------------------------------------------------- what holds in every run

  ghost function JobsOf(outbox: map<OutboxId, Row>): set<JobId> { set o | o in outbox :: outbox[o].job }

  /** Every job has exactly one outbox row, and no delivered row names a queued job. */
  ghost predicate RowsInv(jobs: map<JobId, Status>, outbox: map<OutboxId, Row>)
  {
    && JobsOf(outbox) == jobs.Keys
    && (forall o, p | o in outbox && p in outbox && o != p :: outbox[o].job != outbox[p].job)
    && (forall o | o in outbox && outbox[o].st.Delivered? :: outbox[o].job in jobs && !jobs[outbox[o].job].Queued?)
  }

  /** Program counters at which the job has certainly left the queue. */
  predicate Left(pc: Pc) { pc.Executing? || pc.Returned? || pc.Settling? }

  ghost predicate WorkerInv(s: State, w: Wid)
    requires w in s.workers
  {
    var k := s.workers[w];
    && k.outbox in s.outbox && s.outbox[k.outbox].job == k.job && k.job in s.jobs
    && k.at <= s.now
    && (Left(k.pc) ==> !s.jobs[k.job].Queued?)
  }

  ghost predicate Inv(s: State)
  {
    && RowsInv(s.jobs, s.outbox)
    && (forall w | w in s.workers :: WorkerInv(s, w))
    && s.starts.Keys == s.jobs.Keys
    && (forall o | o in s.outbox && s.outbox[o].st.Claimed? :: s.outbox[o].st.at <= s.now)
    && (s.up || s.workers == map[]) && !(s.up && s.sweeping)
  }

  /** A job that has left the queue never returns to it. */
  lemma LeavesQueueForGood(s: State, a: Action, j: JobId)
    requires Enabled(s, a) && j in s.jobs && !s.jobs[j].Queued?
    ensures j in Apply(s, a).jobs && !Apply(s, a).jobs[j].Queued?
  {
  }

  lemma WriteKeepsRows(jobs: map<JobId, Status>, outbox: map<OutboxId, Row>, j: JobId, st: Status)
    requires RowsInv(jobs, outbox) && j in jobs && !st.Queued?
    ensures RowsInv(jobs[j := st], outbox)
  {
    assert jobs[j := st].Keys == jobs.Keys;
  }

  lemma RowStatusKeepsRows(jobs: map<JobId, Status>, outbox: map<OutboxId, Row>, o: OutboxId, st: RowStatus)
    requires RowsInv(jobs, outbox) && o in outbox
    requires st.Delivered? ==> outbox[o].job in jobs && !jobs[outbox[o].job].Queued?
    ensures RowsInv(jobs, outbox[o := outbox[o].(st := st)])
  {
    var outbox' := outbox[o := outbox[o].(st := st)];
    assert forall p | p in outbox :: p in outbox' && outbox'[p].job == outbox[p].job;
    assert JobsOf(outbox') == JobsOf(outbox);
  }

  lemma AdmitKeepsRows(jobs: map<JobId, Status>, outbox: map<OutboxId, Row>, j: JobId, o: OutboxId)
    requires RowsInv(jobs, outbox) && j !in jobs && o !in outbox
    ensures RowsInv(jobs[j := Queued], outbox[o := Row(j, Pending)])
  {
    var outbox' := outbox[o := Row(j, Pending)];
    assert forall p | p in outbox :: p in outbox' && outbox'[p] == outbox[p] && outbox[p].job in JobsOf(outbox);
    assert o in outbox' && outbox'[o].job == j;
    assert forall k | k in JobsOf(outbox) + {j} :: k in JobsOf(outbox');
    assert JobsOf(outbox') == JobsOf(outbox) + {j} == jobs[j := Queued].Keys;
  }

  lemma StepKeepsRows(s: State, a: Action)
    requires Inv(s) && Enabled(s, a)
    ensures RowsInv(Apply(s, a).jobs, Apply(s, a).outbox)
  {
    match a
    case Admit(j, o) => AdmitKeepsRows(s.jobs, s.outbox, j, o);
    case Claim(w, o) => RowStatusKeepsRows(s.jobs, s.outbox, o, Claimed(s.now));
    case SlotTimeout(w, _) => WorkerWrites(s, w, Apply(s, a).jobs[s.workers[w].job]);
    case Start(w) => WorkerWrites(s, w, Running);
    case Report(w) => WorkerWrites(s, w, Running);
    case Finish(w, _) => WorkerWrites(s, w, Apply(s, a).jobs[s.workers[w].job]);
    case FailJob(w) => WorkerWrites(s, w, Failed);
    case Acknowledge(w) => WorkerSettles(s, w, Delivered);
    case Release(w) => WorkerSettles(s, w, Pending);
    case Reap(j) => WriteKeepsRows(s.jobs, s.outbox, j, Failed);
    case ForceFail(j) => WriteKeepsRows(s.jobs, s.outbox, j, Failed);
    case _ =>
  }

  lemma WorkerWrites(s: State, w: Wid, st: Status)
    requires Inv(s) && w in s.workers && !st.Queued?
    ensures RowsInv(s.jobs[s.workers[w].job := st], s.outbox)
  {
    assert WorkerInv(s, w);
    WriteKeepsRows(s.jobs, s.outbox, s.workers[w].job, st);
  }

  lemma WorkerSettles(s: State, w: Wid, st: RowStatus)
    requires Inv(s) && w in s.workers && !st.Claimed? && (st.Delivered? ==> s.workers[w].pc.Settling?)
    ensures RowsInv(s.jobs, Settle(s, s.workers[w].outbox, st).outbox)
  {
    assert WorkerInv(s, w);
    RowStatusKeepsRows(s.jobs, s.outbox, s.workers[w].outbox, st);
  }

  /** The worker that acts. */
  predicate Acts(a: Action, w: Wid)
  {
    match a
    case Claim(v, _) => v == w
    case Load(v) => v == w
    case SlotTimeout(v, _) => v == w
    case Start(v) => v == w
    case Report(v) => v == w
    case Finish(v, _) => v == w
    case Escape(v) => v == w
    case Inspect(v) => v == w
    case FailJob(v) => v == w
    case Fault(v) => v == w
    case Acknowledge(v) => v == w
    case Release(v) => v == w
    case Die(v) => v == w
    case _ => false
  }

  lemma OwnStepKeepsWorker(s: State, a: Action, w: Wid)
    requires Enabled(s, a) && Acts(a, w) && w in Apply(s, a).workers
    requires w in s.workers ==> WorkerInv(s, w)
    ensures WorkerInv(Apply(s, a), w)
  {
  }

  lemma OtherStepKeepsWorker(s: State, a: Action, w: Wid)
    requires Enabled(s, a) && !Acts(a, w) && w in Apply(s, a).workers
    requires w in s.workers && WorkerInv(s, w)
    ensures WorkerInv(Apply(s, a), w)
  {
    RowKeepsJob(s, a, s.workers[w].outbox);
    if !s.jobs[s.workers[w].job].Queued? { LeavesQueueForGood(s, a, s.workers[w].job); }
  }

  /** A claim stamp is never in the future. */
  lemma StampStep(s: State, a: Action, o: OutboxId)
    requires Enabled(s, a) && o in Apply(s, a).outbox && Apply(s, a).outbox[o].st.Claimed?
    requires o in s.outbox && s.outbox[o].st.Claimed? ==> s.outbox[o].st.at <= s.now
    ensures Apply(s, a).outbox[o].st.at <= Apply(s, a).now
  {
  }

  lemma StepKeepsInv(s: State, a: Action)
    requires Inv(s) && Enabled(s, a)
    ensures Inv(Apply(s, a))
  {
    var s' := Apply(s, a);
    StepKeepsRows(s, a);
    forall w | w in s.workers ensures s.workers[w].job in s.jobs { assert WorkerInv(s, w); }
    forall w | w in s'.workers ensures WorkerInv(s', w) {
      if Acts(a, w) { OwnStepKeepsWorker(s, a, w); } else { OtherStepKeepsWorker(s, a, w); }
    }
    StepKeepsStarts(s, a);
    forall o | o in s'.outbox && s'.outbox[o].st.Claimed? ensures s'.outbox[o].st.at <= s'.now { StampStep(s, a, o); }
  }

  lemma StepKeepsStarts(s: State, a: Action)
    requires Enabled(s, a) && s.starts.Keys == s.jobs.Keys
    requires forall k | k in s.workers :: s.workers[k].job in s.jobs
    requires (s.up || s.workers == map[]) && !(s.up && s.sweeping)
    ensures Apply(s, a).starts.Keys == Apply(s, a).jobs.Keys
    ensures (Apply(s, a).up || Apply(s, a).workers == map[]) && !(Apply(s, a).up && Apply(s, a).sweeping)
  {
  }

  lemma {:induction false} RunInv(run: seq<State>, acts: seq<Action>, k: nat)
    requires ValidRun(run, acts) && k < |run|
    ensures Inv(run[k])
  {
    if k > 0 {
      RunInv(run, acts, k - 1);
      StepKeepsInv(run[k - 1], acts[k - 1]);
    }
  }

  /** The one outbox row of a job. */
  lemma RowOf(s: State, j: JobId) returns (o: OutboxId)
    requires Inv(s) && j in s.jobs
    ensures o in s.outbox && s.outbox[o].job == j
  {
    assert j in JobsOf(s.outbox);
    o :| o in s.outbox && s.outbox[o].job == j;
  }

  /** A queued job has exactly one outbox row; the row is pending or claimed, so the restart
      reaper leaves the job alone, and it is claimable as soon as a lease has passed. */
  lemma QueuedIsRecoverable(s: State, j: JobId) returns (o: OutboxId)
    requires Inv(s) && j in s.jobs && s.jobs[j].Queued?
    ensures o in s.outbox && s.outbox[o].job == j && !s.outbox[o].st.Delivered?
    ensures forall p | p in s.outbox && s.outbox[p].job == j :: p == o
    ensures !Reapable(s, j)
    ensures forall d: nat | d > LEASE :: Claimable(After(s, d), o)
  {
    o := RowOf(s, j);
  }

  /** No job is stranded: recoverability holds in every reachable state - crashes, restarts,
      duplicate claims and faults included, and without any assumption about leases. */
  lemma NoQueuedJobStranded(run: seq<State>, acts: seq<Action>, k: nat, j: JobId) returns (o: OutboxId)
    requires ValidRun(run, acts) && k < |run| && j in run[k].jobs && run[k].jobs[j].Queued?
    ensures o in run[k].outbox && run[k].outbox[o].job == j && !run[k].outbox[o].st.Delivered?
    ensures !Reapable(run[k], j)
    ensures forall d: nat | d > LEASE :: Claimable(After(run[k], d), o)
  {
    RunInv(run, acts, k);
    o := QueuedIsRecoverable(run[k], j);
  }

  /** `j` is queued, and a row of it becomes claimable once a lease has passed. */
  ghost predicate ClaimableLater(s: State, j: JobId)
  {
    && j in s.jobs && s.jobs[j].Queued?
    && exists o :: o in s.outbox && s.outbox[o].job == j && Claimable(After(s, LEASE + 1), o)
  }

  /** No worker, no running job, and every job that is not settled is queued with a row that is
      claimable once a lease has passed. */
  ghost predicate Clean(s: State)
  {
    s.up && s.workers == map[] && forall j | j in s.jobs :: Terminal(s.jobs[j]) || ClaimableLater(s, j)
  }

  /** A service that has come up is clean. */
  lemma RestartIsClean(run: seq<State>, acts: seq<Action>, k: nat)
    requires ValidRun(run, acts) && k < |acts| && acts[k].Restart?
    ensures Clean(run[k + 1])
  {
    RunInv(run, acts, k);
    RestartCleans(run[k]);
  }

  lemma RestartCleans(s: State)
    requires Inv(s) && Enabled(s, Restart)
    ensures Clean(Apply(s, Restart))
  {
    var s' := Apply(s, Restart);
    StepKeepsInv(s, Restart);
    forall j | j in s'.jobs ensures Terminal(s'.jobs[j]) || ClaimableLater(s', j) {
      assert !Reapable(s, j);
      if !Terminal(s'.jobs[j]) {
        var o := QueuedIsRecoverable(s', j);
        assert Claimable(After(s', LEASE + 1), o);
      }
    }
  }

  ghost predicate Leads(s: State, acts: seq<Action>, s': State)
    decreases |acts|
  {
    if acts == [] then s == s' else Enabled(s, acts[0]) && Leads(Apply(s, acts[0]), acts[1..], s')
  }

  /** The jobs that some worker marks RUNNING along `acts`. */
  ghost function StartedAlong(s: State, acts: seq<Action>): set<JobId>
    decreases |acts|
  {
    if acts == [] || !Enabled(s, acts[0]) then {}
    else StartedBy(s, acts[0]) + StartedAlong(Apply(s, acts[0]), acts[1..])
  }

  function StartedBy(s: State, a: Action): set<JobId>
  {
    if a.Start? && a.w in s.workers then {s.workers[a.w].job} else {}
  }

  /** Only jobs of `started` are running or executed. */
  ghost predicate NoGhosts(s: State, started: set<JobId>)
  {
    && (forall j | j in s.jobs && s.jobs[j].Running? :: j in started)
    && (forall w | w in s.workers && s.workers[w].pc.Executing? :: s.workers[w].job in started)
  }

  /** The steps that make a job running or a worker execute it. */
  lemma RunningStep(s: State, a: Action, j: JobId)
    requires Enabled(s, a) && j in Apply(s, a).jobs && Apply(s, a).jobs[j].Running?
    ensures (j in s.jobs && s.jobs[j].Running?)
            || j in StartedBy(s, a)
            || (a.Report? && s.workers[a.w].job == j && s.workers[a.w].pc.Executing?)
  {
  }

  lemma ExecutingStep(s: State, a: Action, w: Wid)
    requires Enabled(s, a) && w in Apply(s, a).workers && Apply(s, a).workers[w].pc.Executing?
    ensures w in s.workers && s.workers[w].job == Apply(s, a).workers[w].job
    ensures s.workers[w].pc.Executing? || a == Start(w)
  {
  }

  lemma NoGhostsStep(s: State, a: Action, started: set<JobId>)
    requires Enabled(s, a) && NoGhosts(s, started)
    ensures NoGhosts(Apply(s, a), started + StartedBy(s, a))
  {
    var s' := Apply(s, a);
    forall j | j in s'.jobs && s'.jobs[j].Running? ensures j in started + StartedBy(s, a) { RunningStep(s, a, j); }
    forall w | w in s'.workers && s'.workers[w].pc.Executing?
      ensures s'.workers[w].job in started + StartedBy(s, a)
    {
      ExecutingStep(s, a, w);
    }
  }

  lemma {:induction false} NoGhostsAlong(s: State, acts: seq<Action>, s': State, started: set<JobId>)
    requires Leads(s, acts, s') && NoGhosts(s, started)
    ensures NoGhosts(s', started + StartedAlong(s, acts))
    decreases |acts|
  {
    if acts != [] {
      NoGhostsStep(s, acts[0], started);
      NoGhostsAlong(Apply(s, acts[0]), acts[1..], s', started + StartedBy(s, acts[0]));
      assert started + StartedBy(s, acts[0]) + StartedAlong(Apply(s, acts[0]), acts[1..])
          == started + StartedAlong(s, acts);
    } else {
      assert started + StartedAlong(s, acts) == started;
    }
  }

  /** No spinner outlives a restart: a job seen RUNNING after a restart was started after it. */
  lemma RunningSinceRestart(s: State, acts: seq<Action>, s': State)
    requires Inv(s) && Enabled(s, Restart) && Leads(Apply(s, Restart), acts, s')
    ensures NoGhosts(s', StartedAlong(Apply(s, Restart), acts))
  {
    RestartCleans(s);
    CleanHasNoGhosts(Apply(s, Restart), {});
    NoGhostsAlong(Apply(s, Restart), acts, s', {});
    assert {} + StartedAlong(Apply(s, Restart), acts) == StartedAlong(Apply(s, Restart), acts);
  }

  lemma CleanHasNoGhosts(s: State, started: set<JobId>)
    requires Clean(s)
    ensures NoGhosts(s, started)
  {
    forall j | j in s.jobs ensures !s.jobs[j].Running? { assert Terminal(s.jobs[j]) || ClaimableLater(s, j); }
  }

  /** Once a job has left the queue its row is never claimed again, in any continuation:
      a lost acknowledgement cannot start the job a second time. */
  lemma {:induction false} NeverClaimedAgain(run: seq<State>, acts: seq<Action>, i: nat, k: nat, o: OutboxId, w: Wid)
    requires ValidRun(run, acts) && i <= k < |run| && o in run[i].outbox
    requires run[i].outbox[o].job in run[i].jobs && !run[i].jobs[run[i].outbox[o].job].Queued?
    ensures o in run[k].outbox && run[k].outbox[o].job == run[i].outbox[o].job
    ensures run[k].outbox[o].job in run[k].jobs && !run[k].jobs[run[k].outbox[o].job].Queued?
    ensures !Enabled(run[k], Claim(w, o))
  {
    if i < k {
      NeverClaimedAgain(run, acts, i, k - 1, o, w);
      RunInv(run, acts, k - 1);
      LeavesQueueForGood(run[k - 1], acts[k - 1], run[i].outbox[o].job);
      RowKeepsJob(run[k - 1], acts[k - 1], o);
    }
  }

  lemma RowKeepsJob(s: State, a: Action, o: OutboxId)
    requires Enabled(s, a) && o in s.outbox
    ensures o in Apply(s, a).outbox && Apply(s, a).outbox[o].job == s.outbox[o].job
  {
  }

  // ------------------------------------------------- where a status comes from

  /** The step that a worker of `j` ends its run of the job with. */
  ghost predicate Ends(s: State, a: Action, j: JobId, ok: bool)
  {
    exists w :: w in s.workers && s.workers[w].job == j && (a == Finish(w, ok) || a == SlotTimeout(w, ok))
  }

  /** The steps that fail `j` from outside its run: its dispatcher's or the restart sweep's. */
  ghost predicate GivenUp(s: State, a: Action, j: JobId)
  {
    a == Reap(j) || a == ForceFail(j) || exists w :: w in s.workers && s.workers[w].job == j && a == FailJob(w)
  }

  lemma StatusWritten(s: State, a: Action, j: JobId)
    requires Enabled(s, a) && j in Apply(s, a).jobs && (j in s.jobs ==> Apply(s, a).jobs[j] != s.jobs[j])
    ensures match Apply(s, a).jobs[j]
            case Queued => a.Admit? && a.job == j && j !in s.jobs
            case Running => (a.Start? || a.Report?) && a.w in s.workers && s.workers[a.w].job == j
            case Completed => Ends(s, a, j, true)
            case Failed => Ends(s, a, j, false) || GivenUp(s, a, j)
  {
    if a.Finish? || a.SlotTimeout? || a.FailJob? { assert a.w in s.workers && s.workers[a.w].job == j; }
  }

  /** A job is completed only by a worker of that very job whose analysis succeeded, or whose wait for
      a slot ran out on a demonstration: never by the sweep, a dispatcher's failure path or another
      job's worker. */
  lemma {:induction false} CompletedByItsRun(run: seq<State>, acts: seq<Action>, k: nat, j: JobId) returns (i: nat)
    requires ValidRun(run, acts) && k < |run| && j in run[k].jobs && run[k].jobs[j] == Completed
    ensures i < k && Ends(run[i], acts[i], j, true)
    decreases k
  {
    if j in run[k - 1].jobs && run[k - 1].jobs[j] == Completed {
      i := CompletedByItsRun(run, acts, k - 1, j);
    } else {
      i := k - 1;
      StatusWritten(run[i], acts[i], j);
    }
  }

  /** A job is failed only by a worker of that job whose analysis failed or whose wait ran out, by its
      dispatcher, or by the sweep. */
  lemma {:induction false} FailedByItsRunOrGivenUp(run: seq<State>, acts: seq<Action>, k: nat, j: JobId) returns (i: nat)
    requires ValidRun(run, acts) && k < |run| && j in run[k].jobs && run[k].jobs[j] == Failed
    ensures i < k && (Ends(run[i], acts[i], j, false) || GivenUp(run[i], acts[i], j))
    decreases k
  {
    if j in run[k - 1].jobs && run[k - 1].jobs[j] == Failed {
      i := FailedByItsRunOrGivenUp(run, acts, k - 1, j);
    } else {
      i := k - 1;
      StatusWritten(run[i], acts[i], j);
    }
  }

  /** Every ending shows. */
  lemma EndingShows(s: State, a: Action, j: JobId)
    requires Enabled(s, a)
    ensures Ends(s, a, j, true) ==> j in Apply(s, a).jobs && Apply(s, a).jobs[j] == Completed
    ensures Ends(s, a, j, false) || GivenUp(s, a, j) ==> j in Apply(s, a).jobs && Apply(s, a).jobs[j] == Failed
  {
    if Ends(s, a, j, true) || Ends(s, a, j, false) || (GivenUp(s, a, j) && a.FailJob?) {
      WrittenStatus(s, a);
    }
  }

  lemma WrittenStatus(s: State, a: Action)
    requires Enabled(s, a) && (a.Finish? || a.SlotTimeout? || a.FailJob?)
    ensures var j := s.workers[a.w].job;
            && j in Apply(s, a).jobs
            && (a == Finish(a.w, true) || a == SlotTimeout(a.w, true) ==> Apply(s, a).jobs[j] == Completed)
            && (a == Finish(a.w, false) || a == SlotTimeout(a.w, false) || a == FailJob(a.w) ==> Apply(s, a).jobs[j] == Failed)
  {
  }

  /** The run of `j` was cut off: nobody works on it, and it is failed by the time the service is up. */
  ghost predicate CutOff(s: State, j: JobId)
  {
    && j in s.jobs && (s.jobs[j] == Running || s.jobs[j] == Failed) && (s.up ==> s.jobs[j] == Failed)
    && forall w | w in s.workers :: s.workers[w].job != j
  }

  lemma CutOffStep(s: State, a: Action, j: JobId)
    requires Enabled(s, a) && CutOff(s, j) && (s.jobs[j] == Running ==> !s.up)
    ensures CutOff(Apply(s, a), j)
  {
    if a.Restart? { assert !Reapable(s, j); }
  }

  /** A job that was running when the process died is reported as failed as soon as the service has
      come up again, and for good. */
  lemma {:induction false} InterruptedFails(run: seq<State>, acts: seq<Action>, i: nat, k: nat, j: JobId)
    requires ValidRun(run, acts) && i < k < |run| && acts[i] == Crash && j in run[i].jobs && run[i].jobs[j] == Running
    ensures CutOff(run[k], j)
    ensures run[k].up ==> run[k].jobs[j] == Failed
    decreases k
  {
    if k > i + 1 {
      InterruptedFails(run, acts, i, k - 1, j);
      CutOffStep(run[k - 1], acts[k - 1], j);
    }
  }

  /** A worker comes to give its row back only by an error while settling, or when the job it loads does
      not exist: a run that escapes is settled like any other. */
  lemma UnsettledOnlyByFault(s: State, a: Action, w: Wid)
    requires Enabled(s, a) && At(Apply(s, a), w, Unsettled) && !At(s, w, Unsettled)
    ensures w in s.workers && (a == Fault(w) || (a == Load(w) && s.workers[w].job !in s.jobs))
  {
  }

  /** Executing workers have started their jobs. */
  ghost predicate ExecutingStarted(s: State)
  {
    forall w | w in s.workers && s.workers[w].pc.Executing? ::
      s.workers[w].job in s.starts && s.starts[s.workers[w].job] >= 1
  }

  lemma StartsGrow(s: State, a: Action, j: JobId)
    requires Enabled(s, a) && j in s.starts && s.starts.Keys == s.jobs.Keys
    ensures j in Apply(s, a).starts && Apply(s, a).starts[j] >= s.starts[j]
  {
  }

  lemma StepKeepsStarted(s: State, a: Action)
    requires Inv(s) && Enabled(s, a) && ExecutingStarted(s)
    ensures ExecutingStarted(Apply(s, a))
  {
    var s' := Apply(s, a);
    forall w | w in s'.workers && s'.workers[w].pc.Executing?
      ensures s'.workers[w].job in s'.starts && s'.starts[s'.workers[w].job] >= 1
    {
      ExecutingStep(s, a, w);
      if a != Start(w) {
        StartsGrow(s, a, s.workers[w].job);
      }
    }
  }

  lemma {:induction false} StartedBeforeFinish(run: seq<State>, acts: seq<Action>, k: nat)
    requires ValidRun(run, acts) && k < |run|
    ensures ExecutingStarted(run[k])
  {
    if k > 0 {
      StartedBeforeFinish(run, acts, k - 1);
      StartedNext(run, acts, k - 1);
    }
  }

  lemma StartedNext(run: seq<State>, acts: seq<Action>, k: nat)
    requires ValidRun(run, acts) && k < |acts| && ExecutingStarted(run[k])
    ensures ExecutingStarted(run[k + 1])
  {
    RunInv(run, acts, k);
    StepKeepsStarted(run[k], acts[k]);
  }

  /** An analysis reports a result only for a job that was started. */
  lemma FinishedWasStarted(run: seq<State>, acts: seq<Action>, k: nat)
    requires ValidRun(run, acts) && k < |acts| && acts[k].Finish?
    ensures acts[k].w in run[k].workers
    ensures var j := run[k].workers[acts[k].w].job; j in run[k].starts && run[k].starts[j] >= 1
  {
    StartedBeforeFinish(run, acts, k);
    assert At(run[k], acts[k].w, Executing);
  }

  /** A delivered row stays delivered. */
  lemma DeliveredForGood(s: State, a: Action, o: OutboxId)
    requires Enabled(s, a) && o in s.outbox && s.outbox[o].st.Delivered?
    requires s.outbox[o].job in s.jobs && !s.jobs[s.outbox[o].job].Queued?
    ensures o in Apply(s, a).outbox && Apply(s, a).outbox[o] == s.outbox[o]
  {
  }

  /** A claim holds for exactly 300 seconds: as long as the job stays queued and the row claimed, others
      can claim it as soon as more than that has passed, and not before. */
  lemma ClaimHolds(s: State, w: Wid, o: OutboxId, d: nat, v: Wid)
    requires Enabled(s, Claim(w, o)) && v !in s.workers && v != w
    ensures Enabled(After(Apply(s, Claim(w, o)), d), Claim(v, o)) <==> d > 300
  {
  }

  // ------------------------------------------------- under the lease hypothesis

  /** The hypothesis: no live worker's job is still queued after its lease has run out.
      The code does not guarantee it: a job may wait far longer for a capacity slot. */
  ghost predicate LeaseOk(s: State)
  {
    forall w | w in s.workers :: LeaseOkFor(s, w)
  }

  ghost predicate LeaseOkFor(s: State, w: Wid)
    requires w in s.workers
  {
    var k := s.workers[w];
    k.job in s.jobs && s.jobs[k.job].Queued? ==> s.now <= k.at + LEASE
  }

  ghost predicate LeasedRun(run: seq<State>, acts: seq<Action>)
  {
    && ValidRun(run, acts)
    && forall i {:trigger acts[i]} | 0 <= i < |acts| :: LeaseOk(run[i])
  }

  /** No two live dispatchers hold the same row. */
  ghost predicate Exclusive(s: State)
  {
    forall v, w | v in s.workers && w in s.workers && v != w :: s.workers[v].outbox != s.workers[w].outbox
  }

  ghost predicate PcAgrees(pc: Pc, st: Status)
  {
    && (pc.Fetch? || pc.Waiting? ==> st.Queued?)
    && (pc.Executing? ==> st.Running?)
    && (pc.Returned? || pc.Settling? ==> Terminal(st))
    && (pc.Failing? ==> !Terminal(st))
  }

  ghost predicate HeldInv(s: State, w: Wid)
    requires w in s.workers
  {
    var k := s.workers[w];
    && k.outbox in s.outbox && s.outbox[k.outbox] == Row(k.job, Claimed(k.at))
    && k.job in s.jobs && PcAgrees(k.pc, s.jobs[k.job])
  }

  ghost predicate DeliveredTerminal(s: State)
  {
    forall o | o in s.outbox && s.outbox[o].st.Delivered? :: s.outbox[o].job in s.jobs && Terminal(s.jobs[s.outbox[o].job])
  }

  ghost predicate StartedOnce(s: State)
  {
    forall j | j in s.starts && j in s.jobs :: s.starts[j] <= (if s.jobs[j].Queued? then 0 else 1)
  }

  ghost predicate LeaseInv(s: State)
  {
    && Inv(s)
    && Exclusive(s)
    && (forall w | w in s.workers :: HeldInv(s, w))
    && DeliveredTerminal(s)
    && StartedOnce(s)
  }

  /** Different workers hold different rows of different jobs. */
  ghost predicate Apart(s: State, w: Wid)
    requires w in s.workers
  {
    forall v | v in s.workers && v != w ::
      s.workers[v].outbox != s.workers[w].outbox && s.workers[v].job != s.workers[w].job
  }

  lemma HoldersApart(s: State, w: Wid)
    requires LeaseInv(s) && w in s.workers
    ensures Apart(s, w)
  {
    forall v | v in s.workers && v != w ensures s.workers[v].job != s.workers[w].job {
      assert HeldInv(s, v) && HeldInv(s, w);
    }
  }

  lemma ClaimIsNew(s: State, w: Wid, o: OutboxId)
    requires LeaseInv(s) && LeaseOk(s) && Enabled(s, Claim(w, o))
    ensures forall v | v in s.workers :: s.workers[v].outbox != o
  {
    forall v | v in s.workers ensures s.workers[v].outbox != o {
      assert HeldInv(s, v) && LeaseOkFor(s, v);
    }
  }

  lemma OwnStepKeepsHeld(s: State, a: Action, w: Wid)
    requires Enabled(s, a) && Acts(a, w) && w in s.workers && w in Apply(s, a).workers && HeldInv(s, w)
    ensures HeldInv(Apply(s, a), w)
    ensures Apply(s, a).workers[w].outbox == s.workers[w].outbox
  {
  }

  lemma OtherStepKeepsHeld(s: State, a: Action, w: Wid)
    requires Enabled(s, a) && !Acts(a, w) && w in s.workers && w in Apply(s, a).workers
    requires HeldInv(s, w) && Apart(s, w) && s.up && !s.sweeping
    requires a.Claim? ==> a.outbox != s.workers[w].outbox
    ensures HeldInv(Apply(s, a), w)
    ensures Apply(s, a).workers[w] == s.workers[w]
  {
    OtherStepSparesRow(s, a, w);
    OtherStepSparesJob(s, a, w);
  }

  lemma OtherStepSparesRow(s: State, a: Action, w: Wid)
    requires Enabled(s, a) && !Acts(a, w) && w in s.workers && Apart(s, w) && s.workers[w].outbox in s.outbox
    requires a.Claim? ==> a.outbox != s.workers[w].outbox
    ensures s.workers[w].outbox in Apply(s, a).outbox
    ensures Apply(s, a).outbox[s.workers[w].outbox] == s.outbox[s.workers[w].outbox]
    ensures w in Apply(s, a).workers ==> Apply(s, a).workers[w] == s.workers[w]
  {
  }

  lemma OtherStepSparesJob(s: State, a: Action, w: Wid)
    requires Enabled(s, a) && !Acts(a, w) && w in s.workers && Apart(s, w) && s.workers[w].job in s.jobs && !s.sweeping
    ensures s.workers[w].job in Apply(s, a).jobs && Apply(s, a).jobs[s.workers[w].job] == s.jobs[s.workers[w].job]
  {
  }

  /** After a step worker `w` holds its row, and the row it held before if it was there. */
  lemma WorkerKeepsHeld(s: State, a: Action, w: Wid)
    requires LeaseInv(s) && Enabled(s, a) && w in Apply(s, a).workers
    requires a.Claim? ==> forall v | v in s.workers :: s.workers[v].outbox != a.outbox
    ensures HeldInv(Apply(s, a), w)
    ensures if w in s.workers then Apply(s, a).workers[w].outbox == s.workers[w].outbox
            else a.Claim? && Apply(s, a).workers[w].outbox == a.outbox && w == a.w
  {
    if w in s.workers {
      HoldersApart(s, w);
      assert HeldInv(s, w);
      if Acts(a, w) { OwnStepKeepsHeld(s, a, w); } else { OtherStepKeepsHeld(s, a, w); }
    }
  }

  lemma StepKeepsExclusive(s: State, a: Action)
    requires LeaseInv(s) && LeaseOk(s) && Enabled(s, a)
    ensures Exclusive(Apply(s, a))
    ensures forall w | w in Apply(s, a).workers :: HeldInv(Apply(s, a), w)
  {
    var s' := Apply(s, a);
    if a.Claim? { ClaimIsNew(s, a.w, a.outbox); }
    forall w | w in s'.workers
      ensures HeldInv(s', w)
      ensures if w in s.workers then s'.workers[w].outbox == s.workers[w].outbox
              else a.Claim? && s'.workers[w].outbox == a.outbox && w == a.w
    {
      WorkerKeepsHeld(s, a, w);
    }
  }

  lemma StepKeepsDelivered(s: State, a: Action)
    requires LeaseInv(s) && Enabled(s, a)
    ensures DeliveredTerminal(Apply(s, a))
  {
    var s' := Apply(s, a);
    forall o | o in s'.outbox && s'.outbox[o].st.Delivered?
      ensures s'.outbox[o].job in s'.jobs && Terminal(s'.jobs[s'.outbox[o].job])
    {
      if w :| w in s.workers && s.workers[w].outbox == o {
        HoldersApart(s, w);
        OwnRowDelivered(s, a, w);
      } else if o in s.outbox {
        forall w | w in s.workers ensures s.workers[w].job != s.outbox[o].job { assert HeldInv(s, w); }
        RowUntouched(s, a, o);
      }
    }
  }

  /** A held row becomes delivered only by its holder, after the job is terminal. */
  lemma OwnRowDelivered(s: State, a: Action, w: Wid)
    requires Enabled(s, a) && w in s.workers && HeldInv(s, w) && Apart(s, w)
    requires s.workers[w].outbox in Apply(s, a).outbox && Apply(s, a).outbox[s.workers[w].outbox].st.Delivered?
    ensures Apply(s, a).outbox[s.workers[w].outbox].job == s.workers[w].job
    ensures s.workers[w].job in Apply(s, a).jobs && Terminal(Apply(s, a).jobs[s.workers[w].job])
  {
    assert a.Acknowledge?;
  }

  /** A delivered row nobody holds keeps its terminal job. */
  lemma RowUntouched(s: State, a: Action, o: OutboxId)
    requires Enabled(s, a) && DeliveredTerminal(s) && o in s.outbox
    requires forall w | w in s.workers :: s.workers[w].outbox != o && s.workers[w].job != s.outbox[o].job
    requires o in Apply(s, a).outbox && Apply(s, a).outbox[o].st.Delivered?
    ensures Apply(s, a).outbox[o].job in Apply(s, a).jobs && Terminal(Apply(s, a).jobs[Apply(s, a).outbox[o].job])
  {
    assert s.outbox[o].st.Delivered?;
  }

  lemma StepKeepsStartedOnce(s: State, a: Action)
    requires Enabled(s, a) && StartedOnce(s) && s.starts.Keys == s.jobs.Keys
    requires a.Start? ==> HeldInv(s, a.w)
    ensures StartedOnce(Apply(s, a))
  {
  }

  lemma StepKeepsLeaseInv(s: State, a: Action)
    requires LeaseInv(s) && LeaseOk(s) && Enabled(s, a)
    ensures LeaseInv(Apply(s, a))
  {
    StepKeepsInv(s, a);
    StepKeepsExclusive(s, a);
    StepKeepsDelivered(s, a);
    if a.Start? { assert HeldInv(s, a.w); }
    StepKeepsStartedOnce(s, a);
  }

  /** Under the lease hypothesis, in every reachable state of every run: rows are held by at
      most one live dispatcher, a delivered row's job is terminal, and no job was ever
      started twice. */
  lemma {:induction false} LeasedRunIsSafe(run: seq<State>, acts: seq<Action>, k: nat)
    requires LeasedRun(run, acts) && k < |run|
    ensures LeaseInv(run[k])
    ensures Exclusive(run[k]) && DeliveredTerminal(run[k])
    ensures forall j | j in run[k].starts :: run[k].starts[j] <= 1
  {
    if k > 0 {
      LeasedRunIsSafe(run, acts, k - 1);
      StepKeepsLeaseInv(run[k - 1], acts[k - 1]);
    }
  }

  /** Under the lease hypothesis a job whose wait for a slot ran out was never started. */
  lemma TimedOutNeverStarted(run: seq<State>, acts: seq<Action>, k: nat)
    requires LeasedRun(run, acts) && k < |acts| && acts[k].SlotTimeout?
    ensures acts[k].w in run[k].workers
    ensures var j := run[k].workers[acts[k].w].job;
            && j in run[k].jobs && run[k].jobs[j] == Queued && j in run[k].starts && run[k].starts[j] == 0
            && j in run[k + 1].starts && run[k + 1].starts[j] == 0
  {
    LeasedRunIsSafe(run, acts, k);
    assert HeldInv(run[k], acts[k].w);
  }

  lemma TerminalStays(s: State, a: Action, j: JobId)
    requires LeaseInv(s) && Enabled(s, a) && j in s.jobs && Terminal(s.jobs[j])
    ensures j in Apply(s, a).jobs && Apply(s, a).jobs[j] == s.jobs[j]
  {
    forall w | w in s.workers ensures HeldInv(s, w) {}
  }

  /** Under the lease hypothesis an outcome is final: a completed job is never failed or run again, and
      a failed one never completed. */
  lemma {:induction false} OutcomeIsFinal(run: seq<State>, acts: seq<Action>, i: nat, k: nat, j: JobId)
    requires LeasedRun(run, acts) && i <= k < |run| && j in run[i].jobs
    requires run[i].jobs[j] == Completed || run[i].jobs[j] == Failed
    ensures j in run[k].jobs && run[k].jobs[j] == run[i].jobs[j]
    decreases k
  {
    if i < k {
      OutcomeIsFinal(run, acts, i, k - 1, j);
      LeasedRunIsSafe(run, acts, k - 1);
      TerminalStays(run[k - 1], acts[k - 1], j);
    }
  }

  /** The hypothesis is exact: from a safe state of a running service, every possible next
      step keeps claims exclusive if and only if no live lease has run out on a queued job. */
  lemma ExclusiveIffLeased(s: State)
    requires LeaseInv(s) && s.up
    ensures (forall a | Enabled(s, a) :: Exclusive(Apply(s, a))) <==> LeaseOk(s)
  {
    if LeaseOk(s) {
      forall a | Enabled(s, a) ensures Exclusive(Apply(s, a)) { StepKeepsExclusive(s, a); }
    } else {
      var w :| w in s.workers && !LeaseOkFor(s, w);
      assert HeldInv(s, w);
      var v := UpperBound(s.workers.Keys);
      var a := Claim(v, s.workers[w].outbox);
      assert v !in s.workers.Keys;
      assert Enabled(s, a);
      var s' := Apply(s, a);
      assert v in s'.workers && w in s'.workers && s'.workers[v].outbox == s'.workers[w].outbox;
      assert !Exclusive(s');
    }
  }

  lemma {:induction false} LeadsThen(s: State, acts: seq<Action>, m: State, a: Action)
    requires Leads(s, acts, m) && Enabled(m, a)
    ensures Leads(s, acts + [a], Apply(m, a))
    decreases |acts|
  {
    if acts == [] {
      assert (acts + [a])[1..] == [];
    } else {
      LeadsThen(Apply(s, acts[0]), acts[1..], m, a);
      assert (acts + [a])[1..] == acts[1..] + [a];
    }
  }

  /** A second worker takes over a row whose holder is still waiting. */
  lemma BreachDuplicates(s: State, w: Wid) returns (acts: seq<Action>, v: Wid, s': State)
    requires LeaseInv(s) && s.up && At(s, w, Waiting) && s.now > s.workers[w].at + LEASE
    ensures Leads(s, acts, s') && At(s', w, Waiting) && At(s', v, Waiting) && v != w
    ensures s'.workers[w] == s.workers[w]
    ensures s'.workers[v].outbox == s.workers[w].outbox && s'.workers[v].job == s.workers[w].job
    ensures s.workers[w].outbox in s'.outbox && s'.outbox[s.workers[w].outbox] == Row(s.workers[w].job, Claimed(s.now))
    ensures s.workers[w].job in s'.starts && s'.starts[s.workers[w].job] == 0
  {
    assert HeldInv(s, w);
    v := UpperBound(s.workers.Keys);
    assert v !in s.workers.Keys;
    acts, s' := Then(s, [], s, Claim(v, s.workers[w].outbox));
    acts, s' := Then(s, acts, s', Load(v));
  }

  /** Whenever a lease runs out on a worker still waiting for a slot, the job can be run by
      two workers, and its row can end up delivered while the job is running again. */
  lemma LeaseBreachRunsJobTwice(s: State, w: Wid) returns (acts: seq<Action>, s': State)
    requires LeaseInv(s) && s.up && At(s, w, Waiting) && s.now > s.workers[w].at + LEASE
    ensures Leads(s, acts, s')
    ensures var k := s.workers[w];
            && k.outbox in s'.outbox && s'.outbox[k.outbox] == Row(k.job, Delivered)
            && k.job in s'.jobs && s'.jobs[k.job].Running?
            && k.job in s'.starts && s'.starts[k.job] == 2
  {
    var v;
    acts, v, s' := BreachDuplicates(s, w);
    acts, s' := FirstRunSettles(s, acts, s', w, v);
    acts, s' := Then(s, acts, s', Start(v));
  }

  /** One of two waiting workers runs the job to completion and acknowledges the shared row. */
  lemma FirstRunSettles(s: State, acts: seq<Action>, m: State, w: Wid, v: Wid) returns (acts': seq<Action>, m': State)
    requires Leads(s, acts, m) && At(m, w, Waiting) && At(m, v, Waiting) && v != w
    requires var k := m.workers[w]; k.outbox in m.outbox && m.outbox[k.outbox].st.Claimed? && k.job in m.starts
    ensures Leads(s, acts', m') && At(m', v, Waiting) && m'.workers[v] == m.workers[v]
    ensures var k := m.workers[w];
            && k.outbox in m'.outbox && m'.outbox[k.outbox] == m.outbox[k.outbox].(st := Delivered)
            && k.job in m'.starts && m'.starts[k.job] == m.starts[k.job] + 1
  {
    acts', m' := Then(s, acts, m, Start(w));
    acts', m' := Then(s, acts', m', Finish(w, true));
    assert At(m', w, Returned) && m'.jobs[m.workers[w].job] == Completed;
    acts', m' := SettleReturned(s, acts', m', w);
  }

  lemma SettleReturned(s: State, acts: seq<Action>, m: State, w: Wid) returns (acts': seq<Action>, m': State)
    requires Leads(s, acts, m) && At(m, w, Returned)
    requires m.workers[w].job in m.jobs && Terminal(m.jobs[m.workers[w].job])
    ensures Leads(s, acts', m')
    ensures m' == Drop(Settle(m, m.workers[w].outbox, Delivered), w)
  {
    InspectReturned(m, w);
    acts', m' := Then(s, acts, m, Inspect(w));
    acts', m' := Then(s, acts', m', Acknowledge(w));
  }

  lemma InspectReturned(m: State, w: Wid)
    requires At(m, w, Returned) && m.workers[w].job in m.jobs && Terminal(m.jobs[m.workers[w].job])
    ensures Apply(m, Inspect(w)) == SetPc(m, w, Settling(false))
    ensures Enabled(SetPc(m, w, Settling(false)), Acknowledge(w))
    ensures Apply(SetPc(m, w, Settling(false)), Acknowledge(w)) == Drop(Settle(m, m.workers[w].outbox, Delivered), w)
  {
    assert SetPc(m, w, Settling(false)).workers - {w} == m.workers - {w};
  }

  lemma Then(s: State, acts: seq<Action>, m: State, a: Action) returns (acts': seq<Action>, m': State)
    requires Leads(s, acts, m) && Enabled(m, a)
    ensures m' == Apply(m, a) && Leads(s, acts', m')
  {
    acts', m' := acts + [a], Apply(m, a);
    LeadsThen(s, acts, m, a);
  }

  /** A waiting worker can carry the job to its end and acknowledge the row it claimed. */
  lemma WaitingCompletes(s: State, acts: seq<Action>, m: State, w: Wid) returns (acts': seq<Action>, m': State)
    requires Leads(s, acts, m) && At(m, w, Waiting)
    requires m.workers[w].outbox in m.outbox && m.outbox[m.workers[w].outbox].st.Claimed?
    ensures Leads(s, acts', m')
    ensures m.workers[w].job in m'.jobs && m'.jobs[m.workers[w].job] == Completed
    ensures m'.outbox == m.outbox[m.workers[w].outbox := m.outbox[m.workers[w].outbox].(st := Delivered)]
  {
    acts', m' := Then(s, acts, m, Start(w));
    acts', m' := Then(s, acts', m', Finish(w, true));
    acts', m' := SettleReturned(s, acts', m', w);
  }

  /** From a queued, claimable job a new worker can carry the job to its end. */
  lemma ClaimCompletes(s: State, acts: seq<Action>, m: State, o: OutboxId) returns (acts': seq<Action>, m': State)
    requires Leads(s, acts, m) && m.up && Claimable(m, o)
    ensures Leads(s, acts', m')
    ensures var j := m.outbox[o].job;
            && j in m'.jobs && m'.jobs[j] == Completed
            && o in m'.outbox && m'.outbox[o] == Row(j, Delivered)
  {
    var w := UpperBound(m.workers.Keys);
    assert w !in m.workers.Keys;
    acts', m' := Then(s, acts, m, Claim(w, o));
    acts', m' := Then(s, acts', m', Load(w));
    acts', m' := WaitingCompletes(s, acts', m', w);
  }

  /** A settlement that raises gives the row back: from every point at which a guarded settlement can
      raise, the worker can end with its row pending again. */
  lemma FaultReleases(s: State, w: Wid) returns (acts: seq<Action>, s': State)
    requires At(s, w, Escaped) || At(s, w, Failing(true)) || At(s, w, Failing(false)) || At(s, w, Settling(true))
    requires s.workers[w].outbox in s.outbox && s.outbox[s.workers[w].outbox].st.Claimed?
    ensures Leads(s, acts, s') && w !in s'.workers && s'.jobs == s.jobs
    ensures s'.outbox == s.outbox[s.workers[w].outbox := Row(s.outbox[s.workers[w].outbox].job, Pending)]
  {
    acts, s' := Then(s, [], s, Fault(w));
    assert At(s', w, Unsettled);
    acts, s' := Then(s, acts, s', Release(w));
  }

  /** A run that escapes from any point before its result can be settled as failed and acknowledged. */
  lemma EscapeSettles(s: State, w: Wid) returns (acts: seq<Action>, s': State)
    requires At(s, w, Waiting) || At(s, w, Executing)
    requires s.workers[w].job in s.jobs && (s.jobs[s.workers[w].job] == Queued || s.jobs[s.workers[w].job] == Running)
    requires s.workers[w].outbox in s.outbox && s.outbox[s.workers[w].outbox].st.Claimed?
    ensures Leads(s, acts, s') && acts == [Escape(w), Inspect(w), FailJob(w), Acknowledge(w)]
    ensures s'.jobs == s.jobs[s.workers[w].job := Failed] && w !in s'.workers
    ensures s'.outbox == s.outbox[s.workers[w].outbox := Row(s.outbox[s.workers[w].outbox].job, Delivered)]
  {
    var m := EscapesToFailing(s, w);
    LeadsThen(s, [Escape(w)] + [Inspect(w)], m, FailJob(w));
    s' := Apply(m, FailJob(w));
    assert At(s', w, Settling(true));
    LeadsThen(s, [Escape(w)] + [Inspect(w)] + [FailJob(w)], s', Acknowledge(w));
    s' := Apply(s', Acknowledge(w));
    acts := [Escape(w)] + [Inspect(w)] + [FailJob(w)] + [Acknowledge(w)];
  }

  lemma EscapesToFailing(s: State, w: Wid) returns (m: State)
    requires At(s, w, Waiting) || At(s, w, Executing)
    requires s.workers[w].job in s.jobs && !Terminal(s.jobs[s.workers[w].job])
    ensures m == SetPc(s, w, Failing(true)) && Leads(s, [Escape(w)] + [Inspect(w)], m)
  {
    var e := SetPc(s, w, Escaped);
    assert [Escape(w)][1..] == [] && Leads(Apply(s, Escape(w)), [], e);
    assert At(e, w, Escaped);
    LeadsThen(s, [Escape(w)], e, Inspect(w));
    m := Apply(e, Inspect(w));
  }

  function Orphans(s: State): set<JobId> { set j | j in s.jobs && Reapable(s, j) }

  lemma ReapOne(m: State, x: JobId)
    requires Enabled(m, Reap(x))
    ensures var m' := Apply(m, Reap(x));
            && m'.sweeping && Orphans(m') == Orphans(m) - {x}
            && m'.outbox == m.outbox && m'.now == m.now
            && forall j | j in m.jobs && m.jobs[j].Queued? && !Reapable(m, j) :: j in m'.jobs && m'.jobs[j].Queued?
  {
    var m' := Apply(m, Reap(x));
    forall j ensures Recoverable(m', j) == Recoverable(m, j) {}
  }

  /** A sweep that has begun can settle every orphan, sparing the recoverable queue, and the service
      comes up. */
  lemma {:induction false} SweepAndRestart(s: State, acts: seq<Action>, m: State) returns (acts': seq<Action>, m': State)
    requires Leads(s, acts, m) && m.sweeping
    ensures Leads(s, acts', m') && m'.up && m'.outbox == m.outbox && m'.now == m.now
    ensures forall j | j in m.jobs && m.jobs[j].Queued? && !Reapable(m, j) :: j in m'.jobs && m'.jobs[j].Queued?
    decreases |Orphans(m)|
  {
    if x :| x in Orphans(m) {
      ReapOne(m, x);
      var n;
      acts', n := Then(s, acts, m, Reap(x));
      forall j | j in m.jobs && m.jobs[j].Queued? && !Reapable(m, j) ensures !Reapable(n, j) {
        assert Recoverable(m, j);
        var o :| o in m.outbox && m.outbox[o].job == j && !m.outbox[o].st.Delivered?;
        assert o in n.outbox && n.outbox[o].job == j && !n.outbox[o].st.Delivered?;
      }
      acts', m' := SweepAndRestart(s, acts', n);
    } else {
      forall j | j in m.jobs ensures !Reapable(m, j) { assert j !in Orphans(m); }
      acts', m' := Then(s, acts, m, Restart);
    }
  }

  lemma SweepSparesQueue(s: State, s': State, j: JobId, o: OutboxId)
    requires j in s.jobs && s.jobs[j].Queued? && o in s.outbox && s.outbox[o].job == j && !s.outbox[o].st.Delivered?
    requires s' == s.(sweeping := s'.sweeping)
    ensures !Reapable(s', j)
  {
    assert Recoverable(s', j);
  }

  /** From every reachable state in which the service is up or its sweep has begun or can begin - whoever holds
      the job's row, whatever was left behind - a queued job can be completed and acknowledged. */
  lemma QueuedCanComplete(s: State, j: JobId) returns (acts: seq<Action>, s': State)
    requires Inv(s) && j in s.jobs && s.jobs[j].Queued?
    requires s.up || s.sweeping || |Active(s)| <= SWEEP_LIMIT
    ensures Leads(s, acts, s')
    ensures j in s'.jobs && s'.jobs[j] == Completed
    ensures exists o :: o in s'.outbox && s'.outbox[o] == Row(j, Delivered)
  {
    var o := QueuedIsRecoverable(s, j);
    acts, s' := [], s;
    if !s.up {
      if !s.sweeping { acts, s' := Then(s, acts, s', Sweep); }
      SweepSparesQueue(s, s', j, o);
      acts, s' := SweepAndRestart(s, acts, s');
    }
    var m := s';
    acts, s' := Then(s, acts, m, Tick(LEASE + 1));
    assert s' == After(m, LEASE + 1) && Claimable(After(s, LEASE + 1), o);
    assert Claimable(s', o);
    acts, s' := ClaimCompletes(s, acts, s', o);
  }

  /** A service that is down with more active jobs than a sweep accepts. */
  ghost predicate LockedOut(s: State) { !s.up && !s.sweeping && s.workers == map[] && |Active(s)| > SWEEP_LIMIT }

  /** Jobs and rows are only ever added. */
  ghost predicate Kept(s: State, s': State)
  {
    && (forall j | j in s.jobs :: j in s'.jobs && s'.jobs[j] == s.jobs[j])
    && (forall o | o in s.outbox :: o in s'.outbox && s'.outbox[o] == s.outbox[o])
  }

  /** Nothing ever happens to its jobs and rows again; a COMMIT still on the wire only adds to them. */
  lemma {:induction false} LockedOutForGood(s: State, acts: seq<Action>, s': State)
    requires LockedOut(s) && Leads(s, acts, s')
    ensures LockedOut(s') && Kept(s, s')
    decreases |acts|
  {
    if acts != [] {
      LockedOutStep(s, acts[0]);
      LockedOutForGood(Apply(s, acts[0]), acts[1..], s');
    }
  }

  lemma LockedOutStep(s: State, a: Action)
    requires LockedOut(s) && Enabled(s, a)
    ensures LockedOut(Apply(s, a)) && Kept(s, Apply(s, a))
  {
    assert a.Tick? || a.Admit?;
    assert Active(s) <= Active(Apply(s, a));
    SubsetSize(Active(s), Active(Apply(s, a)));
  }

  ghost predicate CanComplete(s: State, j: JobId)
  {
    exists acts, s' :: Leads(s, acts, s') && j in s'.jobs && s'.jobs[j] == Completed
  }

  /** A queued job can still be completed if and only if the service is up, its sweep has begun, or no
      more jobs are active than one restart sweep accepts. */
  lemma CompletableIffSweepFits(s: State, j: JobId)
    requires Inv(s) && j in s.jobs && s.jobs[j].Queued?
    ensures CanComplete(s, j) <==> s.up || s.sweeping || |Active(s)| <= SWEEP_LIMIT
  {
    if s.up || s.sweeping || |Active(s)| <= SWEEP_LIMIT {
      var acts, s' := QueuedCanComplete(s, j);
      assert Leads(s, acts, s') && j in s'.jobs && s'.jobs[j] == Completed;
    } else {
      forall acts, s' | Leads(s, acts, s') ensures Kept(s, s') { LockedOutForGood(s, acts, s'); }
    }
  }

  ghost function AllQueued(n: nat): map<JobId, Status> { map j | j in Range(0, n) :: Queued }

  /** `n` queued jobs, numbered from 0. */
  ghost predicate Queue(s: State, n: nat)
  {
    s.up && s.jobs == AllQueued(n) && forall o | o in s.outbox :: 0 <= o < n
  }

  lemma AdmitNext(s: State, n: nat)
    requires Queue(s, n)
    ensures Enabled(s, Admit(n, n)) && Queue(Apply(s, Admit(n, n)), n + 1)
  {
    QueueGrows(n);
  }

  lemma QueueGrows(n: nat)
    ensures n !in Range(0, n)
    ensures AllQueued(n)[n := Queued] == AllQueued(n + 1)
  {
  }

  lemma {:induction false} Backlog(n: nat) returns (acts: seq<Action>, s: State)
    ensures Leads(Init, acts, s) && Queue(s, n)
  {
    acts, s := [], Init;
    if n > 0 {
      acts, s := Backlog(n - 1);
      AdmitNext(s, n - 1);
      acts, s := Then(Init, acts, s, Admit(n - 1, n - 1));
    }
  }

  lemma QueueIsActive(s: State, n: nat)
    requires Queue(s, n)
    ensures |Active(s)| == n
    ensures n > 0 ==> 0 in s.jobs && s.jobs[0].Queued?
  {
    assert Active(s) == Range(0, n);
  }

  /** The lock-out is reached by 501 admissions and a crash. */
  lemma BacklogLocksOut() returns (acts: seq<Action>, s: State)
    ensures Leads(Init, acts, s) && LockedOut(s) && |Active(s)| == 501
    ensures exists j :: j in s.jobs && s.jobs[j].Queued?
  {
    acts, s := Backlog(SWEEP_LIMIT + 1);
    var m := s;
    acts, s := Then(Init, acts, m, Crash);
    QueueIsActive(m, SWEEP_LIMIT + 1);
    assert Active(s) == Active(m);
  }

  /** One queued job whose worker has been waiting for a slot since time 0. */
  const SlotWait := State(301, true, false, map[7 := Queued], map[8 := Row(7, Claimed(0))],
                          map[1 := Worker(8, 7, 0, Waiting)], map[7 := 0])

  lemma SlotWaitIsSafe()
    ensures LeaseInv(SlotWait)
  {
    assert 8 in SlotWait.outbox && JobsOf(SlotWait.outbox) == {7};
  }

  lemma JobWaits() returns (acts: seq<Action>, s: State)
    ensures Leads(Init, acts, s) && s == SlotWait.(now := 0)
  {
    acts, s := Then(Init, [], Init, Admit(7, 8));
    acts, s := Then(Init, acts, s, Claim(1, 8));
    acts, s := Then(Init, acts, s, Load(1));
  }

  /** Such a state is reached by one job waiting for its slot for longer than the lease,
      which the configured slot wait of 1860 seconds allows. */
  lemma SlotWaitOutlivesLease() returns (acts: seq<Action>, s: State)
    ensures Leads(Init, acts, s) && LeaseInv(s) && s.up
    ensures At(s, 1, Waiting) && s.workers[1].at + LEASE < s.now <= s.workers[1].at + 1860
  {
    acts, s := JobWaits();
    acts, s := Then(Init, acts, s, Tick(301));
    assert s == SlotWait;
    SlotWaitIsSafe();
  }
}
