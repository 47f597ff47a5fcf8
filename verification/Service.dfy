/** Admission and dispatch together: the committed job and outbox rows that admission
    writes are the rows dispatch works on. */
module Service {
  import A = Admission
  import D = Dispatch

  datatype State = State(adm: A.State, disp: D.State)

  datatype Action = Adm(a: A.Action) | Disp(d: D.Action)

  /** The dispatch-side view of a commit. */
  function Enqueue(s: A.State, id: A.Tid): D.Action
    requires id in s.txns
  {
    D.Admit(s.txns[id].job, s.txns[id].outbox)
  }

  predicate Enabled(s: State, x: Action)
  {
    match x
    case Adm(a) => A.Enabled(s.adm, a) && (a.Commit? ==> D.Enabled(s.disp, Enqueue(s.adm, a.tid)))
    case Disp(d) => D.Enabled(s.disp, d) && !d.Admit?
  }

  function Apply(s: State, x: Action): State
    requires Enabled(s, x)
  {
    match x
    case Adm(a) =>
      State(A.Apply(s.adm, a), if a.Commit? then D.Apply(s.disp, Enqueue(s.adm, a.tid)) else s.disp)
    case Disp(d) => State(s.adm, D.Apply(s.disp, d))
  }

  const Init := State(A.Init, D.Init)

  ghost predicate ValidRun(run: seq<State>, xs: seq<Action>)
  {
    && |run| == |xs| + 1
    && run[0] == Init
    && forall i {:trigger xs[i]} | 0 <= i < |xs| :: Enabled(run[i], xs[i]) && run[i + 1] == Apply(run[i], xs[i])
  }

  ghost predicate Coupled(s: State)
  {
    && s.adm.db.jobs.Keys == s.disp.jobs.Keys
    && s.adm.db.outbox.Keys == s.disp.outbox.Keys
    && forall o | o in s.disp.outbox :: s.disp.outbox[o].job == s.adm.db.outbox[o]
  }

  ghost predicate Inv(s: State) { A.Inv(s.adm) && D.Inv(s.disp) && Coupled(s) }

  lemma AdmKeepsCoupled(s: State, a: A.Action)
    requires Coupled(s) && Enabled(s, Adm(a))
    ensures Coupled(Apply(s, Adm(a)))
  {
    var s' := Apply(s, Adm(a));
    if a.Commit? {
      A.PublishedKeys(s.adm.db, s.adm.txns[a.tid]);
    }
  }

  lemma DispKeepsRows(s: D.State, d: D.Action)
    requires D.Inv(s) && D.Enabled(s, d) && !d.Admit?
    ensures D.Apply(s, d).jobs.Keys == s.jobs.Keys
    ensures D.Apply(s, d).outbox.Keys == s.outbox.Keys
    ensures forall o | o in s.outbox :: D.Apply(s, d).outbox[o].job == s.outbox[o].job
  {
    forall w | w in s.workers ensures s.workers[w].job in s.jobs { assert D.WorkerInv(s, w); }
    forall o | o in s.outbox ensures D.Apply(s, d).outbox[o].job == s.outbox[o].job { D.RowKeepsJob(s, d, o); }
  }

  lemma StepKeepsInv(s: State, x: Action)
    requires Inv(s) && Enabled(s, x)
    ensures Inv(Apply(s, x))
  {
    match x
    case Adm(a) =>
      A.StepKeepsInv(s.adm, a);
      AdmKeepsCoupled(s, a);
      if a.Commit? { D.StepKeepsInv(s.disp, Enqueue(s.adm, a.tid)); }
    case Disp(d) =>
      D.StepKeepsInv(s.disp, d);
      DispKeepsRows(s.disp, d);
  }

  lemma {:induction false} RunInv(run: seq<State>, xs: seq<Action>, k: nat)
    requires ValidRun(run, xs) && k < |run|
    ensures Inv(run[k])
  {
    if k > 0 {
      RunInv(run, xs, k - 1);
      StepKeepsInv(run[k - 1], xs[k - 1]);
    }
  }

  /** A commit is never held back by the dispatch side, whether the service is up or down: the job
      and outbox ids it publishes are new there as well. */
  lemma CommitUnobstructed(run: seq<State>, xs: seq<Action>, k: nat, id: A.Tid)
    requires ValidRun(run, xs) && k < |run|
    ensures Enabled(run[k], Adm(A.Commit(id))) <==> A.Enabled(run[k].adm, A.Commit(id))
  {
    RunInv(run, xs, k);
    if A.Enabled(run[k].adm, A.Commit(id)) { assert A.TxnInv(run[k].adm, id); }
  }

  /** An accepted request is never lost.  Once a transaction has answered "created", in every
      later state - whatever crashes, restarts, duplicate claims and faults happened since -
      its job is stored, exactly one outbox row names it, and while the job is queued that row
      is pending or claimed and becomes claimable when a lease has passed. */
  lemma AcceptedNeverLost(run: seq<State>, xs: seq<Action>, k: nat, id: A.Tid)
    requires ValidRun(run, xs) && k < |run| && id in run[k].adm.txns
    requires run[k].adm.txns[id].pc.Done? && run[k].adm.txns[id].pc.reply.Created?
    ensures var r, d := run[k].adm.txns[id].pc.reply, run[k].disp;
            && r.job in d.jobs
            && r.outbox in d.outbox && d.outbox[r.outbox].job == r.job
            && (forall o | o in d.outbox && d.outbox[o].job == r.job :: o == r.outbox)
            && (d.jobs[r.job].Queued? ==>
                  && !D.Reapable(d, r.job)
                  && forall t: nat | t > D.LEASE :: D.Claimable(D.After(d, t), r.outbox))
  {
    RunInv(run, xs, k);
    var s := run[k].adm;
    assert A.TxnInv(s, id);
    var n := s.txns[id].req.nonce;
    assert A.Recorded(s.db, n, s.ledger[n]);
    var r, d := s.txns[id].pc.reply, run[k].disp;
    if d.jobs[r.job].Queued? { var o := D.QueuedIsRecoverable(d, r.job); }
  }

  // ---------------------------------------------------------------- at most one execution

  ghost predicate LeasedRun(run: seq<State>, xs: seq<Action>)
  {
    && ValidRun(run, xs)
    && forall i {:trigger xs[i]} | 0 <= i < |xs| :: D.LeaseOk(run[i].disp)
  }

  lemma StepKeepsLeaseInv(s: State, x: Action)
    requires D.LeaseInv(s.disp) && D.LeaseOk(s.disp) && Enabled(s, x)
    ensures D.LeaseInv(Apply(s, x).disp)
  {
    match x
    case Adm(a) => if a.Commit? { D.StepKeepsLeaseInv(s.disp, Enqueue(s.adm, a.tid)); }
    case Disp(d) => D.StepKeepsLeaseInv(s.disp, d);
  }

  lemma {:induction false} LeasedRunInv(run: seq<State>, xs: seq<Action>, k: nat)
    requires LeasedRun(run, xs) && k < |run|
    ensures D.LeaseInv(run[k].disp)
  {
    if k > 0 {
      LeasedRunInv(run, xs, k - 1);
      StepKeepsLeaseInv(run[k - 1], xs[k - 1]);
    }
  }

  /** Each job was stored for one ledger entry. */
  lemma EntryOf(s: A.State, j: A.JobId) returns (n: A.Nonce)
    requires A.LedgerInv(s.db, s.ledger) && j in s.db.jobs
    ensures n in s.ledger && s.ledger[n].job == j
    ensures s.ledger[n].slot == A.Slot(s.db.jobs[j].user, s.db.jobs[j].key)
  {
    assert j in A.JobsOf(s.ledger);
    n :| n in s.ledger && s.ledger[n].job == j;
    assert A.Recorded(s.db, n, s.ledger[n]);
  }

  /** One paid run per client key.  However often a user submits a key, over however many requests,
      retries, crashes and restarts, there is at most one job for it, and under the lease hypothesis
      that job is started at most once. */
  lemma OneRunPerKey(run: seq<State>, xs: seq<Action>, k: nat, i: A.JobId, j: A.JobId)
    requires LeasedRun(run, xs) && k < |run|
    requires i in run[k].adm.db.jobs && j in run[k].adm.db.jobs
    requires run[k].adm.db.jobs[i].user == run[k].adm.db.jobs[j].user
    requires run[k].adm.db.jobs[i].key == run[k].adm.db.jobs[j].key
    ensures i == j
    ensures j in run[k].disp.starts && run[k].disp.starts[j] <= 1
  {
    RunInv(run, xs, k);
    LeasedRunInv(run, xs, k);
    var n := EntryOf(run[k].adm, i);
    var m := EntryOf(run[k].adm, j);
    assert n == m;
  }
}
