/** The retry fence in front of admission: a request begins at the fence, runs its lookup and then
    its admission transaction, and leaves by completing, discarding or being abandoned.

    A transaction can lose the request that waits for it: a restart forgets the fence and every
    request, and a lost connection ends one request.  Such an orphan is rolled back, or committed if
    its COMMIT was already on the wire, and nothing else. */
module FrontDoor {
  import opened Common
  import A = Admission
  import F = IdempotencyFence

  /** `call` is the latest transaction of each request in progress; `cut` are the requests whose
      connection was lost, which can only leave. */
  datatype State = State(fence: F.State, adm: A.State, call: map<F.Request, A.Tid>, cut: set<F.Request>)

  datatype Action =
    | Enter(request: F.Request, slot: F.Slot, hash: F.Hash)
    | Call(request: F.Request, tid: A.Tid, txn: A.Txn)
    | Register(nonce: A.Nonce, token: A.Token)
    | Work(request: F.Request, a: A.Action)   // a statement, commit or abort of a request's call
    | Cut(request: F.Request)                 // the connection of a call is lost, its end unknown
    | Orphan(a: A.Action)                     // the end of a transaction nobody waits for
    | Leave(f: F.Action)
    | Restart

  predicate IsOpen(s: A.State, id: A.Tid) { id in s.txns && !s.txns[id].pc.Done? }

  predicate Committing(s: A.State, id: A.Tid) { id in s.txns && s.txns[id].pc.Committing? }

  predicate Died(s: A.State, id: A.Tid) { id in s.txns && s.txns[id].pc == A.Done(A.KeyConflict) }

  predicate Idle(s: State, r: F.Request) { r in s.call ==> !IsOpen(s.adm, s.call[r]) }

  ghost predicate Owned(s: State, id: A.Tid) { exists r :: r in s.call && s.call[r] == id }

  /** The lookup comes first, the admission after a lookup that found nothing. */
  predicate Turn(s: State, r: F.Request, lookup: bool)
  {
    if lookup then r !in s.call
    else
      && r in s.call && s.call[r] in s.adm.txns
      && s.adm.txns[s.call[r]].lookup && s.adm.txns[s.call[r]].pc == A.Done(A.NotFound)
  }

  /** The request's transaction answered with `job`. */
  predicate Served(s: State, r: F.Request, job: A.JobId)
  {
    && r in s.call && s.call[r] in s.adm.txns
    && var pc := s.adm.txns[s.call[r]].pc;
    && pc.Done? && (pc.reply.Created? || pc.reply.Existing?) && pc.reply.job == job
  }

  ghost predicate Enabled(s: State, x: Action)
  {
    match x
    case Enter(r, slot, hash) => r !in s.call && r !in s.cut && F.Enabled(s.fence, F.BeginAs(r, slot, hash))
    case Call(r, id, t) =>
      && r in s.fence.active && r !in s.cut && Turn(s, r, t.lookup)
      && t.req.SlotOf() == s.fence.active[r].slot && t.req.hash == s.fence.active[r].hash
      && A.Enabled(s.adm, A.Begin(id, t))
    case Register(n, tok) => A.Enabled(s.adm, A.Register(n, tok))
    case Work(r, a) =>
      && r in s.call && (a == A.Advance(s.call[r]) || a == A.Commit(s.call[r]) || a == A.Abort(s.call[r]))
      && A.Enabled(s.adm, a)
    case Cut(r) => r in s.call && IsOpen(s.adm, s.call[r])
    case Orphan(a) => (a.Commit? || a.Abort?) && A.Enabled(s.adm, a) && !Owned(s, a.tid)
    case Leave(a) =>
      && !a.BeginAs? && F.Enabled(s.fence, a) && Idle(s, a.request)
      && if a.CompleteAs? then Served(s, a.request, a.job) else forall j :: !Served(s, a.request, j)
    case Restart => true
  }

  ghost function Apply(s: State, x: Action): State
    requires Enabled(s, x)
  {
    match x
    case Enter(r, slot, hash) => s.(fence := F.Step(s.fence, F.BeginAs(r, slot, hash)))
    case Call(r, id, t) => s.(adm := A.Apply(s.adm, A.Begin(id, t)), call := s.call[r := id])
    case Register(n, tok) => s.(adm := A.Apply(s.adm, A.Register(n, tok)))
    case Work(_, a) => s.(adm := A.Apply(s.adm, a))
    case Cut(r) => s.(call := s.call - {r}, cut := s.cut + {r})
    case Orphan(a) => s.(adm := A.Apply(s.adm, a))
    case Leave(a) => s.(fence := F.Step(s.fence, a), call := s.call - {a.request}, cut := s.cut - {a.request})
    case Restart => State(F.Empty, s.adm, map[], {})
  }

  const Init := State(F.Empty, A.Init, map[], {})

  ghost predicate ValidRun(run: seq<State>, xs: seq<Action>)
  {
    && |run| == |xs| + 1
    && run[0] == Init
    && forall i {:trigger xs[i]} | 0 <= i < |xs| :: Enabled(run[i], xs[i]) && run[i + 1] == Apply(run[i], xs[i])
  }

  // ---------------------------------------------------------------- the way of one request

  /** A request looks its key up first, once; it asks for admission only after a lookup that found
      nothing; after a lost connection it asks for nothing more; and it completes its fence entry with
      the job it was answered with, and with nothing else. */
  lemma RequestProtocol(s: State, x: Action)
    requires Enabled(s, x)
    ensures x.Call? && x.txn.lookup ==> x.request !in s.call
    ensures x.Call? && !x.txn.lookup ==>
              && x.request in s.call && s.call[x.request] in s.adm.txns
              && s.adm.txns[s.call[x.request]].lookup && s.adm.txns[s.call[x.request]].pc == A.Done(A.NotFound)
    ensures x.Call? ==> x.request !in s.cut
    ensures x.Cut? ==> x.request in Apply(s, x).cut
    ensures x.Leave? && x.f.request in s.call && s.call[x.f.request] in s.adm.txns ==>
              var pc := s.adm.txns[s.call[x.f.request]].pc;
              && pc.Done?
              && (x.f.CompleteAs? ==> pc.reply == A.Existing(x.f.job)
                                      || (pc.reply.Created? && pc.reply.job == x.f.job))
              && (!x.f.CompleteAs? ==> !pc.reply.Existing? && !pc.reply.Created?)
  {
    if x.Leave? && x.f.request in s.call && s.call[x.f.request] in s.adm.txns {
      if Answered(s, x.f.request) { AnsweredIsServed(s, x.f.request); }
    }
  }

  /** The request's transaction answered with a job. */
  predicate Answered(s: State, r: F.Request)
  {
    && r in s.call && s.call[r] in s.adm.txns
    && var pc := s.adm.txns[s.call[r]].pc;
       pc.Done? && (pc.reply.Existing? || pc.reply.Created?)
  }

  lemma AnsweredIsServed(s: State, r: F.Request)
    requires Answered(s, r)
    ensures Served(s, r, s.adm.txns[s.call[r]].pc.reply.job)
  {
  }

  // ---------------------------------------------------------------- what holds in every run

  /** A request waits for one transaction on its own key. */
  ghost predicate CallOk(s: State, r: F.Request)
  {
    && r in s.call && r in s.fence.active && s.call[r] in s.adm.txns
    && s.adm.txns[s.call[r]].req.SlotOf() == s.fence.active[r].slot
  }

  ghost predicate Calls(s: State) { forall r | r in s.call :: CallOk(s, r) }

  ghost predicate Inv(s: State) { F.Inv(s.fence) && A.Inv(s.adm) && Calls(s) }

  /** Two transactions that requests wait for never want the same key. */
  lemma OneCallPerKey(s: State, a: A.Tid, b: A.Tid)
    requires Inv(s) && Owned(s, a) && Owned(s, b) && a != b
    ensures a in s.adm.txns && b in s.adm.txns && s.adm.txns[a].req.SlotOf() != s.adm.txns[b].req.SlotOf()
  {
    var q :| q in s.call && s.call[q] == a;
    var r :| r in s.call && s.call[r] == b;
    assert CallOk(s, q) && CallOk(s, r);
  }

  lemma DbStepKeepsInv(s: State, a: A.Action)
    requires Inv(s) && A.Enabled(s.adm, a)
    ensures Inv(s.(adm := A.Apply(s.adm, a)))
  {
    A.StepKeepsInv(s.adm, a);
    var s' := s.(adm := A.Apply(s.adm, a));
    forall r | r in s'.call ensures CallOk(s', r) {
      assert CallOk(s, r);
      A.StepStable(s.adm, a, s.call[r]);
    }
  }

  lemma StepKeepsInv(s: State, x: Action)
    requires Inv(s) && Enabled(s, x)
    ensures Inv(Apply(s, x))
  {
    var s' := Apply(s, x);
    match x
    case Enter(r, slot, hash) =>
      F.StepKeepsInv(s.fence, F.BeginAs(r, slot, hash));
      forall q | q in s'.call ensures CallOk(s', q) { assert CallOk(s, q); }
    case Call(r, id, t) => CallKeepsInv(s, r, id, t);
    case Register(n, tok) => DbStepKeepsInv(s, A.Register(n, tok));
    case Work(_, a) => DbStepKeepsInv(s, a);
    case Cut(r) => forall q | q in s'.call ensures CallOk(s', q) { assert CallOk(s, q); }
    case Orphan(a) => DbStepKeepsInv(s, a);
    case Leave(a) =>
      F.StepKeepsInv(s.fence, a);
      forall q | q in s'.call ensures CallOk(s', q) { assert CallOk(s, q); }
    case Restart =>
  }

  lemma CallKeepsInv(s: State, r: F.Request, id: A.Tid, t: A.Txn)
    requires Inv(s) && Enabled(s, Call(r, id, t))
    ensures Inv(Apply(s, Call(r, id, t)))
  {
    var m, s' := s.(adm := A.Apply(s.adm, A.Begin(id, t))), Apply(s, Call(r, id, t));
    DbStepKeepsInv(s, A.Begin(id, t));
    forall q | q in s'.call ensures CallOk(s', q) {
      if q != r { assert CallOk(m, q); }
    }
  }

  lemma {:induction false} RunInv(run: seq<State>, xs: seq<Action>, k: nat)
    requires ValidRun(run, xs) && k < |run|
    ensures Inv(run[k])
  {
    if k > 0 {
      RunInv(run, xs, k - 1);
      StepKeepsInv(run[k - 1], xs[k - 1]);
    }
  }

  // ---------------------------------------------------------------- what the fence remembers is so

  ghost predicate CallHash(s: State, r: F.Request)
  {
    r in s.call && r in s.fence.active && s.call[r] in s.adm.txns && s.adm.txns[s.call[r]].req.hash == s.fence.active[r].hash
  }

  /** The token a creation consumed carried the creation's hash. */
  ghost predicate CreatedOk(s: A.State, id: A.Tid)
    requires id in s.txns
  {
    var t := s.txns[id];
    t.pc.Done? && t.pc.reply.Created? ==> t.req.nonce in s.db.tokens && s.db.tokens[t.req.nonce].hash == t.req.hash
  }

  ghost predicate EntryOk(s: State, slot: F.Slot)
    requires slot in s.fence.registry
  {
    var e := s.fence.registry[slot];
    e.job.Some? ==> slot in s.adm.db.idem && s.adm.db.idem[slot] == A.IdemRow(e.hash, e.job.value)
  }

  ghost predicate Truthful(s: State)
  {
    && (forall r | r in s.call :: CallHash(s, r))
    && (forall id | id in s.adm.txns :: CreatedOk(s.adm, id))
    && (forall slot | slot in s.fence.registry :: EntryOk(s, slot))
  }

  lemma CreatedStep(s: A.State, a: A.Action, id: A.Tid)
    requires A.Inv(s) && A.Enabled(s, a) && id in A.Apply(s, a).txns && (id in s.txns ==> CreatedOk(s, id))
    ensures CreatedOk(A.Apply(s, a), id)
  {
    if a.Commit? { assert A.TxnInv(s, a.tid); }
    A.StepGrows(s, a);
    if id in s.txns { A.StepStable(s, a, id); }
  }

  lemma DbStepTruthful(s: State, a: A.Action)
    requires Inv(s) && Truthful(s) && A.Enabled(s.adm, a)
    ensures Truthful(s.(adm := A.Apply(s.adm, a)))
  {
    var s' := s.(adm := A.Apply(s.adm, a));
    if a.Commit? { assert A.TxnInv(s.adm, a.tid); }
    A.StepGrows(s.adm, a);
    forall r | r in s'.call ensures CallHash(s', r) {
      assert CallHash(s, r);
      A.StepStable(s.adm, a, s.call[r]);
    }
    forall id | id in s'.adm.txns ensures CreatedOk(s'.adm, id) {
      assert id in s.adm.txns ==> CreatedOk(s.adm, id);
      CreatedStep(s.adm, a, id);
    }
    forall slot | slot in s'.fence.registry ensures EntryOk(s', slot) { assert EntryOk(s, slot); }
  }

  /** A reply with a job names the job of the key's row. */
  lemma ServedIsStored(s: State, r: F.Request, job: A.JobId)
    requires Inv(s) && Truthful(s) && Served(s, r, job)
    ensures r in s.fence.active
    ensures var c := s.fence.active[r]; c.slot in s.adm.db.idem && s.adm.db.idem[c.slot] == A.IdemRow(c.hash, job)
  {
    var id := s.call[r];
    assert CallOk(s, r) && CallHash(s, r) && A.TxnInv(s.adm, id) && CreatedOk(s.adm, id);
    var n := s.adm.txns[id].req.nonce;
    if s.adm.txns[id].pc.reply.Created? { assert A.Recorded(s.adm.db, n, s.adm.ledger[n]); }
  }

  lemma StepKeepsTruthful(s: State, x: Action)
    requires Inv(s) && Truthful(s) && Enabled(s, x)
    ensures Truthful(Apply(s, x))
  {
    var s' := Apply(s, x);
    match x
    case Call(r, id, t) => CallTruthful(s, r, id, t);
    case Register(n, tok) => DbStepTruthful(s, A.Register(n, tok));
    case Work(_, a) => DbStepTruthful(s, a);
    case Orphan(a) => DbStepTruthful(s, a);
    case Restart =>
    case _ => FenceTruthful(s, x);
  }

  lemma CallTruthful(s: State, r: F.Request, id: A.Tid, t: A.Txn)
    requires Inv(s) && Truthful(s) && Enabled(s, Call(r, id, t))
    ensures Truthful(Apply(s, Call(r, id, t)))
  {
    var m, s' := s.(adm := A.Apply(s.adm, A.Begin(id, t))), Apply(s, Call(r, id, t));
    DbStepTruthful(s, A.Begin(id, t));
    forall q | q in s'.call ensures CallHash(s', q) {
      if q != r { assert CallHash(m, q); }
    }
    forall slot | slot in s'.fence.registry ensures EntryOk(s', slot) { assert EntryOk(m, slot); }
  }

  lemma FenceTruthful(s: State, x: Action)
    requires Inv(s) && Truthful(s) && Enabled(s, x) && (x.Enter? || x.Cut? || x.Leave?)
    ensures Truthful(Apply(s, x))
  {
    var s' := Apply(s, x);
    forall q | q in s'.call ensures CallHash(s', q) { assert CallHash(s, q); }
    if x.Leave? && x.f.CompleteAs? { ServedIsStored(s, x.f.request, x.f.job); }
    forall slot | slot in s'.fence.registry ensures EntryOk(s', slot) {
      assert slot in s.fence.registry ==> EntryOk(s, slot);
    }
  }

  /** In every run, what the fence answers is what the tables hold: a retry that it sends to job `j`
      finds its key bound to its own spec and to `j`, and `j` stored. */
  lemma FenceAnswersTrue(run: seq<State>, xs: seq<Action>, k: nat, slot: F.Slot, hash: F.Hash)
    requires ValidRun(run, xs) && k < |run|
    ensures var answer, db := F.AnswerFor(run[k].fence.registry, slot, hash), run[k].adm.db;
            answer.Existing? ==> slot in db.idem && db.idem[slot] == A.IdemRow(hash, answer.job) && answer.job in db.jobs
  {
    TruthfulRun(run, xs, k);
    RunInv(run, xs, k);
    AnswerTrue(run[k], slot, hash);
  }

  lemma {:induction false} TruthfulRun(run: seq<State>, xs: seq<Action>, k: nat)
    requires ValidRun(run, xs) && k < |run|
    ensures Truthful(run[k])
  {
    if k > 0 {
      TruthfulRun(run, xs, k - 1);
      RunInv(run, xs, k - 1);
      StepKeepsTruthful(run[k - 1], xs[k - 1]);
    }
  }

  lemma AnswerTrue(s: State, slot: F.Slot, hash: F.Hash)
    requires Inv(s) && Truthful(s)
    ensures var answer, db := F.AnswerFor(s.fence.registry, slot, hash), s.adm.db;
            answer.Existing? ==> slot in db.idem && db.idem[slot] == A.IdemRow(hash, answer.job) && answer.job in db.jobs
  {
    if slot in s.fence.registry { assert EntryOk(s, slot); }
    if slot in s.adm.db.idem { A.StoredJobPresent(s.adm, slot); }
  }

  // ---------------------------------------------------------------- no request dies on its key

  /** `x` takes the request away from a transaction whose COMMIT is on the wire. */
  ghost predicate Severs(s: State, x: Action)
  {
    match x
    case Cut(r) => r in s.call && Committing(s.adm, s.call[r])
    case Restart => exists r :: r in s.call && Committing(s.adm, s.call[r])
    case _ => false
  }

  /** A transaction nobody waits for whose COMMIT is on the wire. */
  ghost predicate Adrift(s: State, id: A.Tid) { Committing(s.adm, id) && !Owned(s, id) }

  /** The transaction can still reach the insert of its key. */
  predicate Inserting(s: A.State, id: A.Tid)
    requires id in s.txns
  {
    var t := s.txns[id];
    || t.pc.InsertIdem?
    || (t.job !in s.db.jobs
        && (t.pc.InsertJob? || (t.pc.Consume? && (t.req.nonce !in s.db.tokens || A.Matches(s.db, t.req, t.started)))))
  }

  /** A transaction that a request waits for, about to insert a key that is already bound. */
  ghost predicate Stale(s: State, id: A.Tid)
  {
    && Owned(s, id) && id in s.adm.txns
    && s.adm.txns[id].req.SlotOf() in s.adm.db.idem && Inserting(s.adm, id)
  }

  ghost predicate Safe(s: State) { forall id :: !Adrift(s, id) && !Stale(s, id) }

  /** The database action of a step, if it has one. */
  function DbAction(x: Action): Option<A.Action>
  {
    match x
    case Call(_, id, t) => Some(A.Begin(id, t))
    case Register(n, tok) => Some(A.Register(n, tok))
    case Work(_, a) => Some(a)
    case Orphan(a) => Some(a)
    case _ => None
  }

  lemma DbEffect(s: State, x: Action)
    requires Enabled(s, x)
    ensures match DbAction(x)
            case None => Apply(s, x).adm == s.adm
            case Some(a) => A.Enabled(s.adm, a) && Apply(s, x).adm == A.Apply(s.adm, a)
  {
  }

  /** A COMMIT that a request waits for, or that has just been sent, keeps its request. */
  lemma StillOwned(s: State, x: Action, id: A.Tid)
    requires Enabled(s, x) && !Severs(s, x) && Committing(Apply(s, x).adm, id)
    requires Committing(s.adm, id) ==> Owned(s, id)
    ensures Owned(Apply(s, x), id)
  {
    if Committing(s.adm, id) {
      var r :| r in s.call && s.call[r] == id;
      assert r in Apply(s, x).call && Apply(s, x).call[r] == id;
    } else {
      DbEffect(s, x);
      assert x.Work? && x.request in Apply(s, x).call && Apply(s, x).call[x.request] == id;
    }
  }

  lemma AdriftBefore(s: State, x: Action, id: A.Tid)
    requires Enabled(s, x) && !Severs(s, x) && Adrift(Apply(s, x), id)
    ensures Adrift(s, id)
  {
    if !Adrift(s, id) { StillOwned(s, x, id); }
  }

  /** No step but a commit binds a key. */
  lemma BoundBefore(s: A.State, a: A.Action, slot: A.Slot)
    requires A.Enabled(s, a) && slot in A.Apply(s, a).db.idem && slot !in s.db.idem
    ensures a.Commit? && s.txns[a.tid].req.SlotOf() == slot
  {
  }

  lemma InsertingBefore(s: A.State, a: A.Action, id: A.Tid)
    requires A.Inv(s) && A.Enabled(s, a) && id in A.Apply(s, a).txns && Inserting(A.Apply(s, a), id)
    requires id in s.txns && s.txns[id].req.SlotOf() in s.db.idem
    ensures Inserting(s, id)
  {
    if a == A.Advance(id) {
      AdvanceInserting(s, id);
    } else if id in s.txns && a != A.Abort(id) && a != A.Commit(id) {
      if a.Commit? { assert A.TxnInv(s, a.tid); }
      A.StepGrows(s, a);
      A.OthersStep(s, a, id);
      InsertingGrows(s, A.Apply(s, a), id);
    }
  }

  lemma AdvanceInserting(s: A.State, id: A.Tid)
    requires A.Enabled(s, A.Advance(id)) && s.txns[id].req.SlotOf() in s.db.idem
    requires Inserting(A.SetPc(s, id, A.NextPc(s, id).value), id)
    ensures Inserting(s, id)
  {
  }

  lemma InsertingGrows(s: A.State, s': A.State, id: A.Tid)
    requires id in s.txns && id in s'.txns && s'.txns[id] == s.txns[id] && A.Grows(s.db, s'.db) && Inserting(s', id)
    ensures Inserting(s, id)
  {
    var t := s.txns[id];
    if t.req.nonce in s.db.tokens && !A.Matches(s.db, t.req, t.started) {
      A.MismatchKept(s.db, s'.db, t.req, t.started);
    }
  }

  /** A request that waits for a transaction did so before, unless it has just called it. */
  lemma OwnedBefore(s: State, x: Action, id: A.Tid)
    requires Enabled(s, x) && Owned(Apply(s, x), id) && !(x.Call? && x.tid == id)
    ensures Owned(s, id)
  {
    var r :| r in Apply(s, x).call && Apply(s, x).call[r] == id;
    assert r in s.call && s.call[r] == id;
  }

  /** With no COMMIT adrift, a key that some request waits to insert is bound by nobody else. */
  lemma KeyBefore(s: State, x: Action, id: A.Tid)
    requires Inv(s) && (forall k :: !Adrift(s, k)) && Enabled(s, x) && DbAction(x).Some? && Owned(s, id)
    requires id in s.adm.txns && IsOpen(Apply(s, x).adm, id)
    requires s.adm.txns[id].req.SlotOf() in Apply(s, x).adm.db.idem
    ensures s.adm.txns[id].req.SlotOf() in s.adm.db.idem
  {
    var a, slot := DbAction(x).value, s.adm.txns[id].req.SlotOf();
    DbEffect(s, x);
    if slot !in s.adm.db.idem {
      BoundBefore(s.adm, a, slot);
      assert !Adrift(s, a.tid);
      OneCallPerKey(s, a.tid, id);
    }
  }

  lemma StaleBefore(s: State, x: Action, id: A.Tid)
    requires Inv(s) && (forall k :: !Adrift(s, k)) && Enabled(s, x) && Stale(Apply(s, x), id)
    ensures Stale(s, id)
  {
    DbEffect(s, x);
    if DbAction(x).None? {
      OwnedBefore(s, x, id);
    } else {
      NotJustBegun(s, x, id);
      OwnedBefore(s, x, id);
      A.StepStable(s.adm, DbAction(x).value, id);
      KeyBefore(s, x, id);
      InsertingBefore(s.adm, DbAction(x).value, id);
    }
  }

  lemma NotJustBegun(s: State, x: Action, id: A.Tid)
    requires Enabled(s, x) && id in Apply(s, x).adm.txns && Inserting(Apply(s, x).adm, id)
    ensures id in s.adm.txns && !(x.Call? && x.tid == id)
  {
  }

  lemma DiedBefore(s: State, x: Action, id: A.Tid)
    requires Safe(s) && Enabled(s, x) && Died(Apply(s, x).adm, id)
    ensures Died(s.adm, id)
  {
    if !Died(s.adm, id) {
      DbEffect(s, x);
      assert x == Work(x.request, A.Advance(id));
      assert s.call[x.request] == id && s.adm.txns[id].pc.InsertIdem?;
      assert Stale(s, id);
    }
  }

  lemma StepKeepsSafe(s: State, x: Action)
    requires Inv(s) && Safe(s) && Enabled(s, x) && !Severs(s, x)
    ensures Safe(Apply(s, x))
    ensures forall id | Died(Apply(s, x).adm, id) :: Died(s.adm, id)
  {
    forall id ensures !Adrift(Apply(s, x), id) && !Stale(Apply(s, x), id) {
      if Adrift(Apply(s, x), id) { AdriftBefore(s, x, id); }
      if Stale(Apply(s, x), id) { StaleBefore(s, x, id); }
    }
    forall id | Died(Apply(s, x).adm, id) ensures Died(s.adm, id) { DiedBefore(s, x, id); }
  }

  ghost predicate UnseveredRun(run: seq<State>, xs: seq<Action>)
  {
    && ValidRun(run, xs)
    && forall i {:trigger xs[i]} | 0 <= i < |xs| :: !Severs(run[i], xs[i])
  }

  /** As long as no COMMIT on the wire loses its request, by a restart or by a lost connection, no
      request that passed the fence dies on the unique key: retries with other nonces included,
      whatever else is lost, discarded or abandoned. */
  lemma {:induction false} NoKeyConflict(run: seq<State>, xs: seq<Action>, k: nat)
    requires UnseveredRun(run, xs) && k < |run|
    ensures Safe(run[k])
    ensures forall id :: !Died(run[k].adm, id)
  {
    if k > 0 {
      NoKeyConflict(run, xs, k - 1);
      RunInv(run, xs, k - 1);
      StepKeepsSafe(run[k - 1], xs[k - 1]);
    }
  }

  // ---------------------------------------------------------------- exactly when one can

  /** `xs` leads from `s` to `s'`, and severs nothing. */
  ghost predicate Leads(s: State, xs: seq<Action>, s': State)
    decreases |xs|
  {
    if xs == [] then s == s'
    else Enabled(s, xs[0]) && !Severs(s, xs[0]) && Leads(Apply(s, xs[0]), xs[1..], s')
  }

  /** Some continuation in which nothing more is severed has a request die on its key. */
  ghost predicate CanDie(s: State)
  {
    exists xs, s', id :: Leads(s, xs, s') && Died(s'.adm, id) && !Died(s.adm, id)
  }

  lemma {:induction false} SafeForGood(s: State, xs: seq<Action>, s': State, id: A.Tid)
    requires Inv(s) && Safe(s) && Leads(s, xs, s') && Died(s'.adm, id)
    ensures Died(s.adm, id)
    decreases |xs|
  {
    if xs != [] {
      StepKeepsInv(s, xs[0]);
      StepKeepsSafe(s, xs[0]);
      SafeForGood(Apply(s, xs[0]), xs[1..], s', id);
    }
  }

  lemma DeadStayDead(s: State, x: Action, id: A.Tid)
    requires Enabled(s, x) && Died(s.adm, id)
    ensures Died(Apply(s, x).adm, id)
  {
  }

  lemma DiesAfter(s: State, x: Action)
    requires Enabled(s, x) && !Severs(s, x) && CanDie(Apply(s, x))
    ensures CanDie(s)
  {
    var xs, s', id :| Leads(Apply(s, x), xs, s') && Died(s'.adm, id) && !Died(Apply(s, x).adm, id);
    if Died(s.adm, id) { DeadStayDead(s, x, id); }
    assert ([x] + xs)[1..] == xs;
    assert Leads(s, [x] + xs, s');
  }

  lemma DiesNow(s: State, x: Action, id: A.Tid)
    requires Enabled(s, x) && !Severs(s, x) && Died(Apply(s, x).adm, id) && !Died(s.adm, id)
    ensures CanDie(s)
  {
    assert [x][1..] == [];
    assert Leads(Apply(s, x), [], Apply(s, x));
    assert Leads(s, [x], Apply(s, x));
  }

  /** Any open transaction can be rolled back, whether a request waits for it or not. */
  lemma RollBack(s: State, id: A.Tid) returns (x: Action)
    requires IsOpen(s.adm, id)
    ensures Enabled(s, x) && !Severs(s, x) && Apply(s, x) == s.(adm := A.Apply(s.adm, A.Abort(id)))
  {
    if Owned(s, id) {
      var r :| r in s.call && s.call[r] == id;
      x := Work(r, A.Abort(id));
    } else {
      x := Orphan(A.Abort(id));
    }
  }

  lemma Step(s: State, id: A.Tid) returns (x: Action)
    requires Owned(s, id) && A.Enabled(s.adm, A.Advance(id))
    ensures Enabled(s, x) && !Severs(s, x) && Apply(s, x) == s.(adm := A.Apply(s.adm, A.Advance(id)))
  {
    var r :| r in s.call && s.call[r] == id;
    x := Work(r, A.Advance(id));
  }

  lemma InsertIdemDies(s: State, id: A.Tid)
    requires Inv(s) && Stale(s, id) && s.adm.txns[id].pc.InsertIdem?
    ensures CanDie(s)
  {
    var slot := s.adm.txns[id].req.SlotOf();
    forall k | k in s.adm.txns && k != id && s.adm.txns[k].HoldsSlot() ensures s.adm.txns[k].req.SlotOf() != slot {
      assert A.TxnInv(s.adm, k);
    }
    assert A.NextPc(s.adm, id) == Some(A.Done(A.KeyConflict));
    var x := Step(s, id);
    DiesNow(s, x, id);
  }

  /** Rolling back another transaction or registering a token leaves a stale one stale. */
  lemma StaleBesides(s: State, a: A.Action, id: A.Tid)
    requires Stale(s, id) && A.Enabled(s.adm, a)
    requires (a.Abort? && a.tid != id) || (a.Register? && a.nonce == s.adm.txns[id].req.nonce && a.nonce !in s.adm.db.tokens
              && A.Matches(A.Apply(s.adm, a).db, s.adm.txns[id].req, s.adm.txns[id].started))
    ensures Stale(s.(adm := A.Apply(s.adm, a)), id)
    ensures A.Apply(s.adm, a).txns[id] == s.adm.txns[id]
  {
    var r :| r in s.call && s.call[r] == id;
    var s' := s.(adm := A.Apply(s.adm, a));
    assert r in s'.call && s'.call[r] == id;
  }

  lemma AdvanceStale(s: State, id: A.Tid)
    requires Inv(s) && Stale(s, id) && A.NextPc(s.adm, id).Some? && !s.adm.txns[id].pc.InsertIdem?
    requires s.adm.txns[id].pc.Consume? ==> A.Matches(s.adm.db, s.adm.txns[id].req, s.adm.txns[id].started)
    ensures Stale(s.(adm := A.Apply(s.adm, A.Advance(id))), id)
    ensures A.Apply(s.adm, A.Advance(id)).txns[id].pc == if s.adm.txns[id].pc.Consume? then A.InsertJob else A.InsertIdem
  {
    var r :| r in s.call && s.call[r] == id;
    var s' := s.(adm := A.Apply(s.adm, A.Advance(id)));
    assert r in s'.call && s'.call[r] == id;
    AdvanceInserts(s.adm, id);
  }

  lemma AdvanceInserts(s: A.State, id: A.Tid)
    requires id in s.txns && Inserting(s, id) && A.NextPc(s, id).Some? && !s.txns[id].pc.InsertIdem?
    requires s.txns[id].pc.Consume? ==> A.Matches(s.db, s.txns[id].req, s.txns[id].started)
    ensures A.NextPc(s, id).value == if s.txns[id].pc.Consume? then A.InsertJob else A.InsertIdem
  {
  }

  /** A token for a nonce not yet registered, which the request would match. */
  lemma RegisterStale(s: State, id: A.Tid) returns (tok: A.Token)
    requires Stale(s, id) && s.adm.txns[id].pc.Consume? && s.adm.txns[id].req.nonce !in s.adm.db.tokens
    ensures var t, x := s.adm.txns[id], Register(s.adm.txns[id].req.nonce, tok);
            && Enabled(s, x) && !Severs(s, x) && Stale(Apply(s, x), id) && Apply(s, x).adm.txns[id] == t
            && A.Matches(Apply(s, x).adm.db, t.req, t.started)
  {
    var t := s.adm.txns[id];
    tok := A.Token(t.req.user, t.req.version, t.req.hash, t.started + 1, false);
    StaleBesides(s, A.Register(t.req.nonce, tok), id);
  }

  lemma InsertJobDies(s: State, id: A.Tid)
    requires Inv(s) && Stale(s, id) && s.adm.txns[id].pc.InsertJob?
    ensures CanDie(s)
  {
    if A.NextPc(s.adm, id).None? {
      var k := A.AbortHolder(s.adm, id);
      var x := RollBack(s, k);
      StepKeepsInv(s, x);
      StaleBesides(s, A.Abort(k), id);
      InsertJobFreeDies(Apply(s, x), id);
      DiesAfter(s, x);
    } else {
      InsertJobFreeDies(s, id);
    }
  }

  lemma InsertJobFreeDies(s: State, id: A.Tid)
    requires Inv(s) && Stale(s, id) && s.adm.txns[id].pc.InsertJob? && A.NextPc(s.adm, id).Some?
    ensures CanDie(s)
  {
    var x := Step(s, id);
    StepKeepsInv(s, x);
    AdvanceStale(s, id);
    InsertIdemDies(Apply(s, x), id);
    DiesAfter(s, x);
  }

  lemma ConsumeDies(s: State, id: A.Tid)
    requires Inv(s) && Stale(s, id) && s.adm.txns[id].pc.Consume?
    requires A.Matches(s.adm.db, s.adm.txns[id].req, s.adm.txns[id].started)
    ensures CanDie(s)
  {
    if A.NextPc(s.adm, id).None? {
      var k := A.AbortHolder(s.adm, id);
      var x := RollBack(s, k);
      StepKeepsInv(s, x);
      StaleBesides(s, A.Abort(k), id);
      ConsumeFreeDies(Apply(s, x), id);
      DiesAfter(s, x);
    } else {
      ConsumeFreeDies(s, id);
    }
  }

  lemma ConsumeFreeDies(s: State, id: A.Tid)
    requires Inv(s) && Stale(s, id) && s.adm.txns[id].pc.Consume? && A.NextPc(s.adm, id).Some?
    requires A.Matches(s.adm.db, s.adm.txns[id].req, s.adm.txns[id].started)
    ensures CanDie(s)
  {
    var x := Step(s, id);
    StepKeepsInv(s, x);
    AdvanceStale(s, id);
    InsertJobDies(Apply(s, x), id);
    DiesAfter(s, x);
  }

  lemma StaleDies(s: State, id: A.Tid)
    requires Inv(s) && Stale(s, id)
    ensures CanDie(s)
  {
    var t := s.adm.txns[id];
    if t.pc.InsertIdem? {
      InsertIdemDies(s, id);
    } else if t.pc.InsertJob? {
      InsertJobDies(s, id);
    } else if t.req.nonce in s.adm.db.tokens {
      ConsumeDies(s, id);
    } else {
      var tok := RegisterStale(s, id);
      var x := Register(t.req.nonce, tok);
      StepKeepsInv(s, x);
      ConsumeDies(Apply(s, x), id);
      DiesAfter(s, x);
    }
  }

  // ---------------------------------------------------------------- a COMMIT adrift

  ghost function Waited(s: State): set<A.Tid> { set r | r in s.call && Committing(s.adm, s.call[r]) :: s.call[r] }

  lemma RolledBack(s: State, k: A.Tid, o: A.Tid)
    requires k in Waited(s) && Adrift(s, o)
    ensures A.Enabled(s.adm, A.Abort(k))
    ensures var s' := s.(adm := A.Apply(s.adm, A.Abort(k))); Waited(s') == Waited(s) - {k} && Adrift(s', o)
  {
  }

  lemma NobodyWaits(s: State)
    requires Waited(s) == {}
    ensures !Severs(s, Restart)
  {
    forall r | r in s.call ensures !Committing(s.adm, s.call[r]) {
      assert s.call[r] !in Waited(s);
    }
  }

  /** Rolling back every commit that a request still waits for, then restarting, severs nothing. */
  lemma {:induction false} RestartDies(s: State, o: A.Tid)
    requires Inv(s) && Adrift(s, o)
    ensures CanDie(s)
    decreases |Waited(s)|
  {
    if k :| k in Waited(s) {
      var x := RollBack(s, k);
      var s' := Apply(s, x);
      StepKeepsInv(s, x);
      RolledBack(s, k, o);
      RestartDies(s', o);
      DiesAfter(s, x);
    } else {
      NobodyWaits(s);
      StepKeepsInv(s, Restart);
      RetryDies(Apply(s, Restart), o);
      DiesAfter(s, Restart);
    }
  }

  /** A retry of the request behind `o`, with a nonce and a job id that nobody has used. */
  ghost predicate RetryOf(s: A.State, o: A.Tid, t: A.Txn)
  {
    && o in s.txns && !t.lookup && t.started == 0
    && t.req == s.txns[o].req.(nonce := t.req.nonce)
    && t.job !in s.db.jobs && (forall k | k in s.txns :: s.txns[k].req.nonce != t.req.nonce && s.txns[k].job != t.job)
  }

  function TokenOf(q: A.Request): A.Token { A.Token(q.user, q.version, q.hash, 1, false) }

  /** A nonce and a job id that nobody has used. */
  lemma Unused(s: A.State) returns (n: A.Nonce, j: A.JobId)
    ensures n !in s.db.tokens && j !in s.db.jobs
    ensures forall k | k in s.txns :: s.txns[k].req.nonce != n && s.txns[k].job != j
  {
    var nonces := s.db.tokens.Keys + set k | k in s.txns :: s.txns[k].req.nonce;
    var jobs := s.db.jobs.Keys + set k | k in s.txns :: s.txns[k].job;
    n := UpperBound(nonces);
    j := UpperBound(jobs);
    assert n !in nonces && j !in jobs;
    forall k | k in s.txns ensures s.txns[k].req.nonce != n && s.txns[k].job != j {
      assert s.txns[k].req.nonce in nonces && s.txns[k].job in jobs;
    }
  }

  /** With the fence forgotten, an identical retry can be let in and overtaken. */
  lemma RetryDies(s: State, o: A.Tid)
    requires Inv(s) && Committing(s.adm, o) && s.fence == F.Empty && s.call == map[] && s.cut == {}
    ensures CanDie(s)
  {
    var q := s.adm.txns[o].req;
    var n, j := Unused(s.adm);
    var t := A.Txn(false, q.(nonce := n), 0, j, 0, A.ReadIdem);
    var x := Register(n, TokenOf(q));
    var m := Apply(s, x);
    StepKeepsInv(s, x);
    LookupDies(m, o, t);
    DiesAfter(s, x);
  }

  ghost predicate Ready(s: State, o: A.Tid, t: A.Txn)
  {
    && Inv(s) && Committing(s.adm, o) && !Owned(s, o) && RetryOf(s.adm, o, t) && t.pc.ReadIdem?
    && t.req.nonce in s.adm.db.tokens && s.adm.db.tokens[t.req.nonce] == TokenOf(t.req)
  }

  lemma LookupDies(s: State, o: A.Tid, t: A.Txn)
    requires Ready(s, o, t) && s.fence == F.Empty && s.call == map[] && s.cut == {}
    ensures CanDie(s)
  {
    var slot := t.req.SlotOf();
    var x := Enter(0, slot, t.req.hash);
    var m := Apply(s, x);
    StepKeepsInv(s, x);
    assert m.fence.active == map[0 := F.Claim(slot, t.req.hash)];
    AskDies(m, o, t);
    DiesAfter(s, x);
  }

  ghost predicate Fenced(s: State, t: A.Txn)
  {
    s.fence.active == map[0 := F.Claim(t.req.SlotOf(), t.req.hash)] && s.cut == {}
  }

  lemma AskDies(s: State, o: A.Tid, t: A.Txn)
    requires Ready(s, o, t) && Fenced(s, t) && s.call == map[]
    ensures CanDie(s)
  {
    var k := UpperBound(s.adm.txns.Keys);
    assert k !in s.adm.txns.Keys;
    var lookup := A.Txn(true, s.adm.txns[o].req, 0, s.adm.txns[o].job, 0, A.ReadIdem);
    var x := Call(0, k, lookup);
    var m := Apply(s, x);
    StepKeepsInv(s, x);
    assert A.TxnInv(m.adm, o) && m.call[0] == k;
    assert A.NextPc(m.adm, k) == Some(A.Done(A.NotFound));
    var y := Work(0, A.Advance(k));
    StepKeepsInv(m, y);
    AdmitDies(Apply(m, y), o, t);
    DiesAfter(m, y);
    DiesAfter(s, x);
  }

  lemma AdmitDies(s: State, o: A.Tid, t: A.Txn)
    requires Ready(s, o, t) && Fenced(s, t) && Turn(s, 0, false)
    ensures CanDie(s)
  {
    var k := UpperBound(s.adm.txns.Keys);
    assert k !in s.adm.txns.Keys;
    var x := Call(0, k, t);
    var m := Apply(s, x);
    StepKeepsInv(s, x);
    assert m.adm.db == s.adm.db && m.call[0] == k;
    assert Following(m, o, k, t);
    FollowDies(m, o, k, t);
    DiesAfter(s, x);
  }

  /** The retry `k` of the request behind `o` has its own nonce and job id. */
  ghost predicate Following(s: State, o: A.Tid, k: A.Tid, t: A.Txn)
  {
    && Inv(s) && Committing(s.adm, o) && k in s.adm.txns && k != o && s.adm.txns[k] == t
    && (forall r | r in s.call :: s.call[r] != o) && 0 in s.call && s.call[0] == k
    && t.req.SlotOf() == s.adm.txns[o].req.SlotOf() && t.job !in s.adm.db.jobs
    && A.Matches(s.adm.db, t.req, t.started)
    && forall l | l in s.adm.txns && l != k :: s.adm.txns[l].req.nonce != t.req.nonce && s.adm.txns[l].job != t.job
  }

  lemma FollowDies(s: State, o: A.Tid, k: A.Tid, t: A.Txn)
    requires Following(s, o, k, t) && t.pc.ReadIdem? && !t.lookup
    ensures CanDie(s)
  {
    assert A.TxnInv(s.adm, o);
    var x := Work(0, A.Advance(k));
    var m := Apply(s, x);
    StepKeepsInv(s, x);
    assert Following(m, o, k, t.(pc := A.Consume));
    CommitUnder(m, o, k);
    DiesAfter(s, x);
  }

  /** The orphan's commit binds the key under the retry. */
  lemma CommitUnder(s: State, o: A.Tid, k: A.Tid)
    requires k in s.adm.txns && Following(s, o, k, s.adm.txns[k]) && s.adm.txns[k].pc.Consume?
    ensures CanDie(s)
  {
    var x := Orphan(A.Commit(o));
    CommitMakesStale(s, o, k);
    StepKeepsInv(s, x);
    StaleDies(Apply(s, x), k);
    DiesAfter(s, x);
  }

  lemma CommitMakesStale(s: State, o: A.Tid, k: A.Tid)
    requires k in s.adm.txns && Following(s, o, k, s.adm.txns[k]) && s.adm.txns[k].pc.Consume?
    ensures Enabled(s, Orphan(A.Commit(o))) && Stale(Apply(s, Orphan(A.Commit(o))), k)
  {
    assert A.TxnInv(s.adm, o) && !Owned(s, o);
    assert Apply(s, Orphan(A.Commit(o))).call[0] == k;
  }

  /** In every reachable state: some request can still die on its key without a further COMMIT being
      severed if and only if a COMMIT is adrift already, or has bound the key of a request that is
      about to insert it. */
  lemma CanDieIff(s: State)
    requires Inv(s)
    ensures CanDie(s) <==> exists id :: Adrift(s, id) || Stale(s, id)
  {
    if id :| Adrift(s, id) || Stale(s, id) {
      if Stale(s, id) { StaleDies(s, id); } else { RestartDies(s, id); }
    } else {
      assert Safe(s);
      forall xs, s', id | Leads(s, xs, s') && Died(s'.adm, id) ensures Died(s.adm, id) { SafeForGood(s, xs, s', id); }
    }
  }

  /** What severs a COMMIT sets it adrift. */
  lemma SeveredDrifts(s: State, x: Action) returns (id: A.Tid)
    requires Inv(s) && Enabled(s, x) && Severs(s, x)
    ensures Adrift(Apply(s, x), id)
  {
    if x.Cut? {
      id := s.call[x.request];
      assert CallOk(s, x.request);
      forall q | q in s.call && q != x.request ensures s.call[q] != id { assert CallOk(s, q); }
    } else {
      var r :| r in s.call && Committing(s.adm, s.call[r]);
      id := s.call[r];
    }
  }

  /** Step by step: while nothing is wrong yet, a step makes a death on the key possible if and only
      if it takes the request away from a transaction whose COMMIT is on the wire. */
  lemma FatalIffSevers(s: State, x: Action)
    requires Inv(s) && Safe(s) && Enabled(s, x)
    ensures CanDie(Apply(s, x)) <==> Severs(s, x)
  {
    StepKeepsInv(s, x);
    CanDieIff(Apply(s, x));
    if Severs(s, x) {
      var id := SeveredDrifts(s, x);
    } else {
      StepKeepsSafe(s, x);
    }
  }

  // ---------------------------------------------------------------- both ways of losing the request

  /** Reachable with restarts and without lost connections, or the other way round. */
  ghost predicate Reachable(s: State, restarts: bool)
  {
    exists run, xs :: ValidRun(run, xs) && run[|run| - 1] == s && forall i | 0 <= i < |xs| :: Permitted(xs[i], restarts)
  }

  predicate Permitted(x: Action, restarts: bool) { if restarts then !x.Cut? else !x.Restart? }

  lemma Extend(s: State, restarts: bool, x: Action) returns (s': State)
    requires Reachable(s, restarts) && Enabled(s, x) && Permitted(x, restarts)
    ensures s' == Apply(s, x) && Reachable(s', restarts)
  {
    s' := Apply(s, x);
    var run, xs :| ValidRun(run, xs) && run[|run| - 1] == s && forall i | 0 <= i < |xs| :: Permitted(xs[i], restarts);
    var run', xs' := run + [s'], xs + [x];
    assert ValidRun(run', xs') && run'[|run'| - 1] == s';
  }

  const Tok := A.Token(5, 1, 7, 100, false)
  const Slot := A.Slot(5, 9)
  const Tokens := A.Db(map[101 := Tok, 102 := Tok], map[], map[], map[])

  function Lookup(nonce: A.Nonce, pc: A.Pc): A.Txn { A.Txn(true, A.Request(nonce, 5, 1, 7, 9), 0, nonce, nonce, pc) }

  function Admit(nonce: A.Nonce, pc: A.Pc): A.Txn { A.Txn(false, A.Request(nonce, 5, 1, 7, 9), 0, nonce, nonce, pc) }

  function InProgress(r: F.Request): F.State
  {
    F.State(map[Slot := F.Entry(7, None)], map[r := F.Claim(Slot, 7)])
  }

  /** Request `r` looks its key up and begins its admission. */
  lemma Begins(s: State, restarts: bool, r: F.Request, nonce: A.Nonce) returns (s': State)
    requires Reachable(s, restarts) && s.fence == F.Empty && s.call == map[] && s.cut == {} && s.adm.db == Tokens
    requires nonce in {101, 102} && 2 * r !in s.adm.txns && 2 * r + 1 !in s.adm.txns
    ensures Reachable(s', restarts) && s'.fence == InProgress(r) && s'.call == map[r := 2 * r + 1] && s'.cut == {}
    ensures s'.adm == s.adm.(txns := s.adm.txns[2 * r := Lookup(nonce, A.Done(A.NotFound))][2 * r + 1 := Admit(nonce, A.ReadIdem)])
  {
    s' := Extend(s, restarts, Enter(r, Slot, 7));
    assert s'.fence == InProgress(r);
    s' := Asks(s', restarts, r, nonce);
    s' := Extend(s', restarts, Call(r, 2 * r + 1, Admit(nonce, A.ReadIdem)));
  }

  lemma Asks(s: State, restarts: bool, r: F.Request, nonce: A.Nonce) returns (s': State)
    requires Reachable(s, restarts) && s.fence == InProgress(r) && s.call == map[] && s.cut == {} && s.adm.db == Tokens
    requires 2 * r !in s.adm.txns
    ensures Reachable(s', restarts) && s' == s.(call := map[r := 2 * r], adm := s'.adm)
    ensures s'.adm == s.adm.(txns := s.adm.txns[2 * r := Lookup(nonce, A.Done(A.NotFound))])
  {
    s' := Extend(s, restarts, Call(r, 2 * r, Lookup(nonce, A.ReadIdem)));
    s' := Extend(s', restarts, Work(r, A.Advance(2 * r)));
  }

  /** The statements of an admission that nobody stands in the way of. */
  lemma Works(s: State, restarts: bool, r: F.Request, nonce: A.Nonce) returns (s': State)
    requires Reachable(s, restarts) && r in s.call && s.call[r] in s.adm.txns && s.adm.txns[s.call[r]] == Admit(nonce, A.ReadIdem)
    requires nonce in {101, 102} && s.adm.db == Tokens
    requires forall k | k in s.adm.txns && k != s.call[r] && !s.adm.txns[k].pc.Done? :: s.adm.txns[k].req.nonce != nonce && s.adm.txns[k].job != nonce
    ensures Reachable(s', restarts)
    ensures s' == s.(adm := s.adm.(txns := s.adm.txns[s.call[r] := Admit(nonce, A.InsertIdem)]))
  {
    var k := s.call[r];
    s' := Extend(s, restarts, Work(r, A.Advance(k)));
    assert s'.adm.txns == s.adm.txns[k := Admit(nonce, A.Consume)];
    s' := Extend(s', restarts, Work(r, A.Advance(k)));
    assert s'.adm.txns == s.adm.txns[k := Admit(nonce, A.InsertJob)];
    s' := Extend(s', restarts, Work(r, A.Advance(k)));
  }

  function FirstAt(pc: A.Pc): A.State
  {
    A.State(Tokens, map[2 := Lookup(101, A.Done(A.NotFound)), 3 := Admit(101, pc)], map[])
  }

  lemma FirstInserts(restarts: bool) returns (s: State)
    ensures Reachable(s, restarts) && s == State(InProgress(1), FirstAt(A.InsertIdem), map[1 := 3], {})
  {
    s := Registered(restarts);
    s := Begins(s, restarts, 1, 101);
    assert s.adm == FirstAt(A.ReadIdem);
    s := Works(s, restarts, 1, 101);
    assert s.adm == FirstAt(A.InsertIdem);
  }

  lemma Registered(restarts: bool) returns (s: State)
    ensures Reachable(s, restarts) && s == Init.(adm := A.State(Tokens, map[], map[]))
  {
    s := Init;
    assert Reachable(s, restarts) by { assert ValidRun([Init], []) && [Init][|[Init]| - 1] == s; }
    s := Extend(s, restarts, Register(101, Tok));
    s := Extend(s, restarts, Register(102, Tok));
  }

  lemma FirstCommits(restarts: bool) returns (s: State)
    ensures Reachable(s, restarts) && s == State(InProgress(1), FirstAt(A.Committing), map[1 := 3], {})
  {
    s := FirstInserts(restarts);
    s := Extend(s, restarts, Work(1, A.Advance(3)));
    assert s.adm == FirstAt(A.InsertOutbox);
    s := Extend(s, restarts, Work(1, A.Advance(3)));
  }

  /** The first request's COMMIT is on the wire, and the request is gone. */
  lemma Severed(restarts: bool) returns (s: State)
    ensures Reachable(s, restarts) && s == State(F.Empty, FirstAt(A.Committing), map[], {})
  {
    s := FirstCommits(restarts);
    if restarts {
      s := Extend(s, restarts, Restart);
    } else {
      s := Extend(s, restarts, Cut(1));
      s := Extend(s, restarts, Leave(F.DiscardAs(1)));
      assert s.fence == F.Empty && s.call == map[];
    }
  }

  /** The retry waits for the key that the lost transaction holds. */
  lemma RetryWaits(restarts: bool) returns (s: State)
    ensures Reachable(s, restarts) && s.call == map[2 := 5]
    ensures s.adm == FirstAt(A.Committing).(txns := s.adm.txns) && 3 in s.adm.txns && 5 in s.adm.txns
    ensures s.adm.txns[3] == Admit(101, A.Committing) && s.adm.txns[5] == Admit(102, A.InsertIdem)
    ensures forall k | k in s.adm.txns && k != 3 && k != 5 :: s.adm.txns[k].pc.Done?
  {
    s := Severed(restarts);
    s := Begins(s, restarts, 2, 102);
    s := Works(s, restarts, 2, 102);
  }

  lemma RetryDiesOn(restarts: bool) returns (s: State)
    ensures Reachable(s, restarts) && Died(s.adm, 5)
  {
    var w := RetryWaits(restarts);
    assert !Owned(w, 3);
    s := Extend(w, restarts, Orphan(A.Commit(3)));
    assert s.adm.txns == w.adm.txns[3 := Admit(101, A.Done(A.Created(101, 101)))] && Slot in s.adm.db.idem;
    assert A.NextPc(s.adm, 5) == Some(A.Done(A.KeyConflict));
    s := Extend(s, restarts, Work(2, A.Advance(5)));
  }

  /** A restart in the middle of a commit lets the retry die on the key. */
  lemma RestartAllowsConflict() returns (s: State)
    ensures Reachable(s, true) && exists id :: Died(s.adm, id)
  {
    s := RetryDiesOn(true);
  }

  /** So does a connection lost in the middle of a commit, without any restart. */
  lemma LostConnectionAllowsConflict() returns (s: State)
    ensures Reachable(s, false) && exists id :: Died(s.adm, id)
  {
    s := RetryDiesOn(false);
  }
}
