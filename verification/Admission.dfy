/** Parse-bound admission as a small-step system.

    Every call of `admit_parse_bound_job` or `find_parse_bound_job` is one transaction
    that runs statement by statement against the committed tables (read committed: each
    statement reads afresh).  What a transaction has written but not published is given
    by its program counter; the row lock on the nonce and the primary-key locks on
    uncommitted inserts block other transactions.  A commit publishes, an abort drops.
*/
module Admission {
  import opened Common

  // Identifiers and digests are only ever compared for equality.
  type Nonce = int
  type UserId = int
  type Hash = int
  type Version = int
  type Key = int
  type JobId = int
  type OutboxId = int
  type Tid = int

  datatype Token = Token(user: UserId, version: Version, hash: Hash, expires: int, consumed: bool)
  datatype Job = Job(user: UserId, version: Version, hash: Hash, key: Key)
  /** Primary key of the idempotency table. */
  datatype Slot = Slot(user: UserId, key: Key)
  datatype IdemRow = IdemRow(hash: Hash, job: JobId)

  /** The committed tables. */
  datatype Db = Db(
    tokens: map<Nonce, Token>,
    jobs: map<JobId, Job>,
    idem: map<Slot, IdemRow>,
    outbox: map<OutboxId, JobId>)

  datatype Request = Request(nonce: Nonce, user: UserId, version: Version, hash: Hash, key: Key)
  {
    function SlotOf(): Slot { Slot(user, key) }
  }

  datatype Reply =
    | Created(job: JobId, outbox: OutboxId)
    | Existing(job: JobId)
    | NotFound            // lookup only
    | KeyReused           // ParseBoundAdmissionError("idempotency_key_reused")
    | TokenUnavailable    // ParseBoundAdmissionError("parse_token_unavailable")
    | KeyConflict         // unique violation on (user_id, client_idempotency_key)
    | IdCollision         // unique violation on a generated id
    | Lost                // crash, lost connection, statement fault, deadlock victim

  /** The statement a transaction executes next. */
  datatype Pc =
    | ReadIdem
    | ReadStored(found: JobId)
    | Consume
    | ReadWinner
    | ReadWinnerJob(won: JobId)
    | InsertJob
    | InsertIdem
    | InsertOutbox
    | Committing
    | Done(reply: Reply)

  datatype Txn = Txn(lookup: bool, req: Request, started: int, job: JobId, outbox: OutboxId, pc: Pc)
  {
    // Private writes, and with them the row and key locks, by program counter.
    predicate HoldsNonce() { pc.InsertJob? || HoldsJob() }
    predicate HoldsJob() { pc.InsertIdem? || HoldsSlot() }
    predicate HoldsSlot() { pc.InsertOutbox? || HoldsOutbox() }
    predicate HoldsOutbox() { pc.Committing? }
  }

  /** History: which transaction consumed a nonce, and what it created. */
  datatype Entry = Entry(slot: Slot, job: JobId, outbox: OutboxId, creator: Tid)

  datatype State = State(db: Db, txns: map<Tid, Txn>, ledger: map<Nonce, Entry>)

  datatype Action =
    | Register(nonce: Nonce, token: Token)
    | Begin(tid: Tid, txn: Txn)
    | Advance(tid: Tid)
    | Commit(tid: Tid)
    | Abort(tid: Tid)

  /** The WHERE clause of the nonce-consuming UPDATE; `now()` is the transaction's start. */
  predicate Matches(db: Db, req: Request, now: int)
  {
    && req.nonce in db.tokens
    && var tok := db.tokens[req.nonce];
    && tok.user == req.user && tok.version == req.version && tok.hash == req.hash
    && !tok.consumed && tok.expires > now
  }

  predicate NonceLocked(s: State, id: Tid, n: Nonce)
  {
    exists k | k in s.txns :: k != id && s.txns[k].HoldsNonce() && s.txns[k].req.nonce == n
  }

  predicate JobLocked(s: State, id: Tid, j: JobId)
  {
    exists k | k in s.txns :: k != id && s.txns[k].HoldsJob() && s.txns[k].job == j
  }

  predicate SlotLocked(s: State, id: Tid, p: Slot)
  {
    exists k | k in s.txns :: k != id && s.txns[k].HoldsSlot() && s.txns[k].req.SlotOf() == p
  }

  predicate OutboxLocked(s: State, id: Tid, o: OutboxId)
  {
    exists k | k in s.txns :: k != id && s.txns[k].HoldsOutbox() && s.txns[k].outbox == o
  }

  /** One statement of transaction `id`; `None` when it is blocked, committing or done. */
  function NextPc(s: State, id: Tid): Option<Pc>
    requires id in s.txns
  {
    var t := s.txns[id];
    var db := s.db;
    var slot := t.req.SlotOf();
    match t.pc
    case ReadIdem =>
      if slot in db.idem then
        Some(if db.idem[slot].hash != t.req.hash then Done(KeyReused) else ReadStored(db.idem[slot].job))
      else
        Some(if t.lookup then Done(NotFound) else Consume)
    case ReadStored(j) => Some(Done(if j in db.jobs then Existing(j) else TokenUnavailable))
    case Consume =>
      if !Matches(db, t.req, t.started) then Some(ReadWinner)
      else if NonceLocked(s, id, t.req.nonce) then None
      else Some(InsertJob)
    case ReadWinner =>
      if slot in db.idem then
        Some(if db.idem[slot].hash != t.req.hash then Done(KeyReused) else ReadWinnerJob(db.idem[slot].job))
      else
        Some(Done(TokenUnavailable))
    case ReadWinnerJob(j) => Some(Done(if j in db.jobs then Existing(j) else TokenUnavailable))
    case InsertJob =>
      if JobLocked(s, id, t.job) then None
      else Some(if t.job in db.jobs then Done(IdCollision) else InsertIdem)
    case InsertIdem =>
      if SlotLocked(s, id, slot) then None
      else Some(if slot in db.idem then Done(KeyConflict) else InsertOutbox)
    case InsertOutbox =>
      if OutboxLocked(s, id, t.outbox) then None
      else Some(if t.outbox in db.outbox then Done(IdCollision) else Committing)
    case Committing => None
    case Done(_) => None
  }

  predicate Enabled(s: State, a: Action)
  {
    match a
    case Register(n, tok) => !tok.consumed
    case Begin(id, t) => id !in s.txns && t.pc == ReadIdem
    case Advance(id) => id in s.txns && NextPc(s, id).Some?
    case Commit(id) => id in s.txns && s.txns[id].pc.Committing? && s.txns[id].req.nonce in s.db.tokens
    case Abort(id) => id in s.txns && !s.txns[id].pc.Done?
  }

  function SetPc(s: State, id: Tid, pc: Pc): State
    requires id in s.txns
  {
    s.(txns := s.txns[id := s.txns[id].(pc := pc)])
  }

  /** What a commit publishes: the private writes of one transaction. */
  function Publish(db: Db, t: Txn): Db
    requires t.req.nonce in db.tokens
  {
    Db(db.tokens[t.req.nonce := db.tokens[t.req.nonce].(consumed := true)],
       db.jobs[t.job := Job(t.req.user, t.req.version, t.req.hash, t.req.key)],
       db.idem[t.req.SlotOf() := IdemRow(t.req.hash, t.job)],
       db.outbox[t.outbox := t.job])
  }

  function Apply(s: State, a: Action): State
    requires Enabled(s, a)
  {
    match a
    case Register(n, tok) =>
      if n in s.db.tokens then s  // ON CONFLICT DO NOTHING
      else s.(db := s.db.(tokens := s.db.tokens[n := tok]))
    case Begin(id, t) => s.(txns := s.txns[id := t])
    case Advance(id) => SetPc(s, id, NextPc(s, id).value)
    case Commit(id) =>
      var t := s.txns[id];
      State(Publish(s.db, t), SetPc(s, id, Done(Created(t.job, t.outbox))).txns,
            s.ledger[t.req.nonce := Entry(t.req.SlotOf(), t.job, t.outbox, id)])
    case Abort(id) => SetPc(s, id, Done(Lost))
  }

  const Init := State(Db(map[], map[], map[], map[]), map[], map[])

  /** A run: a start in the empty database and any interleaving of enabled actions. */
  ghost predicate ValidRun(run: seq<State>, acts: seq<Action>)
  {
    && |run| == |acts| + 1
    && run[0] == Init
    && forall i {:trigger acts[i]} | 0 <= i < |acts| :: Enabled(run[i], acts[i]) && run[i + 1] == Apply(run[i], acts[i])
  }

  // ---------------------------------------------------------------- invariant

  /** Consumed nonces, jobs, idempotency rows and outbox rows name each other one to one. */
  ghost predicate Recorded(db: Db, n: Nonce, e: Entry)
  {
    && n in db.tokens && db.tokens[n].consumed && db.tokens[n].user == e.slot.user
    && e.job in db.jobs
    && db.jobs[e.job] == Job(e.slot.user, db.tokens[n].version, db.tokens[n].hash, e.slot.key)
    && e.slot in db.idem && db.idem[e.slot] == IdemRow(db.tokens[n].hash, e.job)
    && e.outbox in db.outbox && db.outbox[e.outbox] == e.job
  }

  ghost predicate AllRecorded(db: Db, ledger: map<Nonce, Entry>)
  {
    && (forall n | n in ledger :: Recorded(db, n, ledger[n]))
    && (forall n | n in db.tokens && db.tokens[n].consumed :: n in ledger)
  }

  ghost predicate OneToOne(ledger: map<Nonce, Entry>)
  {
    forall n, m | n in ledger && m in ledger && n != m ::
      && ledger[n].slot != ledger[m].slot
      && ledger[n].job != ledger[m].job
      && ledger[n].outbox != ledger[m].outbox
  }

  ghost function JobsOf(ledger: map<Nonce, Entry>): set<JobId> { set n | n in ledger :: ledger[n].job }

  ghost function SlotsOf(ledger: map<Nonce, Entry>): set<Slot> { set n | n in ledger :: ledger[n].slot }

  ghost function OutboxesOf(ledger: map<Nonce, Entry>): set<OutboxId> { set n | n in ledger :: ledger[n].outbox }

  ghost predicate LedgerInv(db: Db, ledger: map<Nonce, Entry>)
  {
    && AllRecorded(db, ledger)
    && OneToOne(ledger)
    && db.jobs.Keys == JobsOf(ledger)
    && db.idem.Keys == SlotsOf(ledger)
    && db.outbox.Keys == OutboxesOf(ledger)
  }

  ghost predicate TxnInv(s: State, id: Tid)
    requires id in s.txns
  {
    var t := s.txns[id];
    var slot := t.req.SlotOf();
    var db := s.db;
    && (t.pc.ReadStored? ==> slot in db.idem && db.idem[slot] == IdemRow(t.req.hash, t.pc.found))
    && (t.pc.ReadWinnerJob? ==> slot in db.idem && db.idem[slot] == IdemRow(t.req.hash, t.pc.won))
    && (t.lookup ==> t.pc.ReadIdem? || t.pc.ReadStored?
                     || (t.pc.Done? && (t.pc.reply.NotFound? || t.pc.reply.Existing? || t.pc.reply.KeyReused? || t.pc.reply.Lost?)))
    && (t.HoldsNonce() ==> Matches(db, t.req, t.started))
    && (t.HoldsJob() ==> t.job !in db.jobs)
    && (t.HoldsSlot() ==> slot !in db.idem)
    && (t.HoldsOutbox() ==> t.outbox !in db.outbox)
    && (t.pc.Done? ==> ReplyInv(s, id, t.pc.reply))
  }

  ghost predicate ReplyInv(s: State, id: Tid, r: Reply)
    requires id in s.txns
  {
    var t := s.txns[id];
    var slot := t.req.SlotOf();
    match r
    case Created(j, o) => t.req.nonce in s.ledger && s.ledger[t.req.nonce] == Entry(slot, j, o, id)
    case Existing(j) => slot in s.db.idem && s.db.idem[slot] == IdemRow(t.req.hash, j)
    case KeyReused => slot in s.db.idem && s.db.idem[slot].hash != t.req.hash
    case KeyConflict => slot in s.db.idem && t.req.nonce in s.db.tokens
                        && (t.req.nonce in s.ledger ==> s.ledger[t.req.nonce].slot != slot)
    case _ => true
  }

  /** Two transactions never hold the same nonce, job id, key or outbox id. */
  ghost predicate Excluded(a: Txn, b: Txn)
  {
    && (a.HoldsNonce() && b.HoldsNonce() ==> a.req.nonce != b.req.nonce)
    && (a.HoldsJob() && b.HoldsJob() ==> a.job != b.job)
    && (a.HoldsSlot() && b.HoldsSlot() ==> a.req.SlotOf() != b.req.SlotOf())
    && (a.HoldsOutbox() && b.HoldsOutbox() ==> a.outbox != b.outbox)
  }

  ghost predicate TxnsInv(s: State) { forall id | id in s.txns :: TxnInv(s, id) }

  ghost predicate AllExcluded(txns: map<Tid, Txn>)
  {
    forall a, b | a in txns && b in txns && a != b :: Excluded(txns[a], txns[b])
  }

  ghost predicate Inv(s: State) { LedgerInv(s.db, s.ledger) && TxnsInv(s) && AllExcluded(s.txns) }

  // ---------------------------------------------------------------- preservation

  /** Rows are only ever added, and only the consumed flag of a token changes. */
  ghost predicate Grows(a: Db, b: Db)
  {
    && (forall n | n in a.tokens :: n in b.tokens && b.tokens[n] == a.tokens[n].(consumed := b.tokens[n].consumed)
                                    && (a.tokens[n].consumed ==> b.tokens[n].consumed))
    && (forall j | j in a.jobs :: j in b.jobs && b.jobs[j] == a.jobs[j])
    && (forall p | p in a.idem :: p in b.idem && b.idem[p] == a.idem[p])
    && (forall o | o in a.outbox :: o in b.outbox && b.outbox[o] == a.outbox[o])
  }

  lemma PublishGrows(db: Db, t: Txn)
    requires t.HoldsOutbox() && t.req.nonce in db.tokens
    requires t.job !in db.jobs && t.req.SlotOf() !in db.idem && t.outbox !in db.outbox
    ensures Grows(db, Publish(db, t))
  {
  }

  lemma StepGrows(s: State, a: Action)
    requires Enabled(s, a)
    requires a.Commit? ==> TxnInv(s, a.tid)
    ensures Grows(s.db, Apply(s, a).db)
  {
    match a
    case Commit(id) => PublishGrows(s.db, s.txns[id]);
    case _ =>
  }

  lemma RegisterKeepsTxn(s: State, n: Nonce, tok: Token, id: Tid)
    requires Enabled(s, Register(n, tok)) && id in s.txns && TxnInv(s, id)
    ensures TxnInv(Apply(s, Register(n, tok)), id)
  {
  }

  lemma RegisterKeepsLedger(db: Db, ledger: map<Nonce, Entry>, n: Nonce, tok: Token)
    requires AllRecorded(db, ledger) && n !in db.tokens && !tok.consumed
    ensures AllRecorded(db.(tokens := db.tokens[n := tok]), ledger)
  {
    forall m | m in ledger ensures Recorded(db.(tokens := db.tokens[n := tok]), m, ledger[m]) {
      assert Recorded(db, m, ledger[m]);
    }
  }

  lemma RegisterKeepsInv(s: State, n: Nonce, tok: Token)
    requires Inv(s) && Enabled(s, Register(n, tok))
    ensures Inv(Apply(s, Register(n, tok)))
  {
    var s' := Apply(s, Register(n, tok));
    forall id | id in s'.txns ensures TxnInv(s', id) { RegisterKeepsTxn(s, n, tok, id); }
    if n !in s.db.tokens { RegisterKeepsLedger(s.db, s.ledger, n, tok); }
  }

  /** Moving one transaction without touching the tables keeps the invariant. */
  lemma MoveKeepsInv(s: State, id: Tid, t: Txn)
    requires Inv(s)
    requires TxnInv(s.(txns := s.txns[id := t]), id)
    requires forall k | k in s.txns && k != id :: Excluded(s.txns[k], t) && Excluded(t, s.txns[k])
    ensures Inv(s.(txns := s.txns[id := t]))
  {
    var s' := s.(txns := s.txns[id := t]);
    forall k | k in s'.txns ensures TxnInv(s', k) {
      if k != id { assert TxnInv(s, k); }
    }
  }

  lemma AdvanceExcludes(s: State, id: Tid, k: Tid)
    requires id in s.txns && NextPc(s, id).Some? && k in s.txns && k != id
    requires Excluded(s.txns[k], s.txns[id])
    ensures var t := s.txns[id].(pc := NextPc(s, id).value);
            Excluded(s.txns[k], t) && Excluded(t, s.txns[k])
  {
  }

  /** The "stored job missing" branches are never taken. */
  lemma StoredJobPresent(s: State, slot: Slot)
    requires LedgerInv(s.db, s.ledger) && slot in s.db.idem
    ensures s.db.idem[slot].job in s.db.jobs
  {
    assert slot in SlotsOf(s.ledger);
    var n :| n in s.ledger && s.ledger[n].slot == slot;
    assert Recorded(s.db, n, s.ledger[n]);
  }

  lemma AdvanceKeepsTxn(s: State, id: Tid)
    requires id in s.txns && TxnInv(s, id) && NextPc(s, id).Some?
    requires var slot := s.txns[id].req.SlotOf(); slot in s.db.idem ==> s.db.idem[slot].job in s.db.jobs
    requires var n := s.txns[id].req.nonce; n in s.ledger ==> n in s.db.tokens && s.db.tokens[n].consumed
    ensures TxnInv(SetPc(s, id, NextPc(s, id).value), id)
  {
  }

  lemma AdvanceKeepsInv(s: State, id: Tid)
    requires Inv(s) && id in s.txns && NextPc(s, id).Some?
    ensures Inv(SetPc(s, id, NextPc(s, id).value))
  {
    var t := s.txns[id].(pc := NextPc(s, id).value);
    forall k | k in s.txns && k != id ensures Excluded(s.txns[k], t) && Excluded(t, s.txns[k]) {
      AdvanceExcludes(s, id, k);
    }
    if t.req.SlotOf() in s.db.idem { StoredJobPresent(s, t.req.SlotOf()); }
    if t.req.nonce in s.ledger { assert Recorded(s.db, t.req.nonce, s.ledger[t.req.nonce]); }
    AdvanceKeepsTxn(s, id);
    MoveKeepsInv(s, id, t);
  }

  ghost function NewEntry(t: Txn, id: Tid): Entry { Entry(t.req.SlotOf(), t.job, t.outbox, id) }

  /** A publishable transaction names a nonce, job, slot and outbox id no entry names. */
  lemma CommitIsFresh(s: State, id: Tid, n: Nonce)
    requires Inv(s) && id in s.txns && s.txns[id].pc.Committing? && n in s.ledger
    ensures var t := s.txns[id];
            && n != t.req.nonce && s.ledger[n].slot != t.req.SlotOf()
            && s.ledger[n].job != t.job && s.ledger[n].outbox != t.outbox
  {
    assert TxnInv(s, id);
    assert Recorded(s.db, n, s.ledger[n]);
  }

  lemma PublishKeepsRecorded(db: Db, t: Txn, n: Nonce, e: Entry)
    requires t.req.nonce in db.tokens && Recorded(db, n, e)
    requires n != t.req.nonce && e.slot != t.req.SlotOf() && e.job != t.job && e.outbox != t.outbox
    ensures Recorded(Publish(db, t), n, e)
  {
  }

  lemma PublishRecords(db: Db, t: Txn, id: Tid)
    requires Matches(db, t.req, t.started)
    ensures Recorded(Publish(db, t), t.req.nonce, NewEntry(t, id))
  {
  }

  lemma CommitRecords(s: State, id: Tid)
    requires Inv(s) && Enabled(s, Commit(id))
    ensures AllRecorded(Apply(s, Commit(id)).db, Apply(s, Commit(id)).ledger)
  {
    var t, s' := s.txns[id], Apply(s, Commit(id));
    assert TxnInv(s, id);
    PublishRecords(s.db, t, id);
    forall n | n in s.ledger ensures Recorded(s'.db, n, s.ledger[n]) {
      CommitIsFresh(s, id, n);
      PublishKeepsRecorded(s.db, t, n, s.ledger[n]);
    }
  }

  lemma LedgerGrows(ledger: map<Nonce, Entry>, n: Nonce, e: Entry)
    requires OneToOne(ledger) && n !in ledger
    requires forall m | m in ledger ::
      ledger[m].slot != e.slot && ledger[m].job != e.job && ledger[m].outbox != e.outbox
    ensures OneToOne(ledger[n := e])
    ensures JobsOf(ledger[n := e]) == JobsOf(ledger) + {e.job}
    ensures SlotsOf(ledger[n := e]) == SlotsOf(ledger) + {e.slot}
    ensures OutboxesOf(ledger[n := e]) == OutboxesOf(ledger) + {e.outbox}
  {
    var l := ledger[n := e];
    assert forall m | m in ledger :: m in l && l[m] == ledger[m];
    assert n in l;
    assert forall j | j in JobsOf(ledger) + {e.job} :: j in JobsOf(l);
    assert forall p | p in SlotsOf(ledger) + {e.slot} :: p in SlotsOf(l);
    assert forall o | o in OutboxesOf(ledger) + {e.outbox} :: o in OutboxesOf(l);
  }

  lemma CommitKeepsLedger(s: State, id: Tid)
    requires Inv(s) && Enabled(s, Commit(id))
    ensures LedgerInv(Apply(s, Commit(id)).db, Apply(s, Commit(id)).ledger)
  {
    var t := s.txns[id];
    var e := NewEntry(t, id);
    CommitRecords(s, id);
    forall n | n in s.ledger
      ensures n != t.req.nonce && s.ledger[n].slot != e.slot && s.ledger[n].job != e.job && s.ledger[n].outbox != e.outbox
    {
      CommitIsFresh(s, id, n);
    }
    LedgerGrows(s.ledger, t.req.nonce, e);
    PublishedKeys(s.db, t);
  }

  lemma PublishedKeys(db: Db, t: Txn)
    requires t.req.nonce in db.tokens
    ensures Publish(db, t).jobs.Keys == db.jobs.Keys + {t.job}
    ensures Publish(db, t).idem.Keys == db.idem.Keys + {t.req.SlotOf()}
    ensures Publish(db, t).outbox.Keys == db.outbox.Keys + {t.outbox}
  {
  }

  lemma CommitKeepsTxn(s: State, id: Tid, k: Tid)
    requires Enabled(s, Commit(id)) && k in s.txns
    requires TxnInv(s, id) && TxnInv(s, k)
    requires k != id ==> Excluded(s.txns[k], s.txns[id])
    requires s.txns[id].req.nonce !in s.ledger
    ensures TxnInv(Apply(s, Commit(id)), k)
  {
  }

  lemma CommitKeepsExcluded(s: State, id: Tid)
    requires AllExcluded(s.txns) && Enabled(s, Commit(id))
    ensures AllExcluded(Apply(s, Commit(id)).txns)
  {
    var s' := Apply(s, Commit(id));
    forall a, b | a in s'.txns && b in s'.txns && a != b ensures Excluded(s'.txns[a], s'.txns[b]) {
      assert Excluded(s.txns[a], s.txns[b]);
    }
  }

  lemma CommitKeepsTxns(s: State, id: Tid)
    requires TxnsInv(s) && AllExcluded(s.txns) && Enabled(s, Commit(id)) && s.txns[id].req.nonce !in s.ledger
    ensures TxnsInv(Apply(s, Commit(id)))
  {
    forall k | k in s.txns ensures TxnInv(Apply(s, Commit(id)), k) { CommitKeepsTxn(s, id, k); }
  }

  lemma CommitKeepsInv(s: State, id: Tid)
    requires Inv(s) && Enabled(s, Commit(id))
    ensures Inv(Apply(s, Commit(id)))
  {
    CommitKeepsLedger(s, id);
    if s.txns[id].req.nonce in s.ledger { CommitIsFresh(s, id, s.txns[id].req.nonce); }
    CommitKeepsTxns(s, id);
    CommitKeepsExcluded(s, id);
  }

  lemma AbortKeepsInv(s: State, id: Tid)
    requires Inv(s) && id in s.txns && !s.txns[id].pc.Done?
    ensures Inv(SetPc(s, id, Done(Lost)))
  {
    assert TxnInv(s, id);
    MoveKeepsInv(s, id, s.txns[id].(pc := Done(Lost)));
  }

  lemma StepKeepsInv(s: State, a: Action)
    requires Inv(s) && Enabled(s, a)
    ensures Inv(Apply(s, a))
  {
    match a
    case Register(n, tok) => RegisterKeepsInv(s, n, tok);
    case Begin(id, t) => MoveKeepsInv(s, id, t);
    case Advance(id) => AdvanceKeepsInv(s, id);
    case Commit(id) => CommitKeepsInv(s, id);
    case Abort(id) => AbortKeepsInv(s, id);
  }

  lemma {:induction false} RunInv(run: seq<State>, acts: seq<Action>, k: nat)
    requires ValidRun(run, acts) && k < |run|
    ensures Inv(run[k])
  {
    if k > 0 {
      RunInv(run, acts, k - 1);
      StepKeepsInv(run[k - 1], acts[k - 1]);
    }
  }

  lemma RunStepGrows(run: seq<State>, acts: seq<Action>, k: nat)
    requires ValidRun(run, acts) && k < |acts|
    ensures Grows(run[k].db, run[k + 1].db)
  {
    RunInv(run, acts, k);
    StepGrows(run[k], acts[k]);
  }

  lemma GrowsTransitive(a: Db, b: Db, c: Db)
    requires Grows(a, b) && Grows(b, c)
    ensures Grows(a, c)
  {
  }

  lemma {:induction false} RunGrows(run: seq<State>, acts: seq<Action>, i: nat, k: nat)
    requires ValidRun(run, acts) && i <= k < |run|
    ensures Grows(run[i].db, run[k].db)
  {
    if i < k {
      RunGrows(run, acts, i, k - 1);
      RunStepGrows(run, acts, k - 1);
      GrowsTransitive(run[i].db, run[k - 1].db, run[k].db);
    }
  }

  // ---------------------------------------------------------------- theorems

  /** The specification: one indivisible admission (or lookup) over the tables. */
  function AtomicAdmit(db: Db, t: Txn): (Db, Reply)
  {
    var slot := t.req.SlotOf();
    if slot in db.idem then
      (db, if db.idem[slot].hash == t.req.hash then Existing(db.idem[slot].job) else KeyReused)
    else if t.lookup then (db, NotFound)
    else if Matches(db, t.req, t.started) then (Publish(db, t), Created(t.job, t.outbox))
    else (db, TokenUnavailable)
  }

  /** Every table change is one atomic admission or one token registration; every other
      statement, and every abort, leaves the tables alone. */
  lemma StepSimulates(s: State, a: Action)
    requires Inv(s) && Enabled(s, a)
    ensures a.Commit? ==>
              && Apply(s, a).db == AtomicAdmit(s.db, s.txns[a.tid]).0
              && AtomicAdmit(s.db, s.txns[a.tid]).1 == Created(s.txns[a.tid].job, s.txns[a.tid].outbox)
    ensures a.Register? ==>
              Apply(s, a).db == s.db.(tokens := if a.nonce in s.db.tokens then s.db.tokens else s.db.tokens + map[a.nonce := a.token])
    ensures !a.Commit? && !a.Register? ==> Apply(s, a).db == s.db
  {
    match a
    case Commit(id) => assert TxnInv(s, id);
    case Register(n, tok) => assert s.db.tokens + map[n := tok] == s.db.tokens[n := tok];
    case _ =>
  }

  /** Action `i` is the point at which transaction `id` takes effect with reply `r`. */
  ghost predicate LinearizedAt(run: seq<State>, acts: seq<Action>, i: int, id: Tid, r: Reply)
    requires ValidRun(run, acts)
  {
    && 0 <= i < |acts|
    && id in run[i].txns && !run[i].txns[id].pc.Done?
    && AtomicAdmit(run[i].db, run[i].txns[id]).1 == r
    && (r.Created? ==> acts[i] == Commit(id) && run[i + 1].db == AtomicAdmit(run[i].db, run[i].txns[id]).0)
  }

  lemma StepStable(s: State, a: Action, id: Tid)
    requires Enabled(s, a) && id in s.txns
    ensures id in Apply(s, a).txns && Apply(s, a).txns[id] == s.txns[id].(pc := Apply(s, a).txns[id].pc)
  {
  }

  /** Steps of others leave a transaction where it is. */
  lemma OthersStep(s: State, a: Action, id: Tid)
    requires Enabled(s, a) && id in s.txns && a != Advance(id) && a != Abort(id) && a != Commit(id)
    ensures id in Apply(s, a).txns && Apply(s, a).txns[id] == s.txns[id]
  {
  }

  /** The request of a transaction never changes. */
  lemma {:induction false} TxnStable(run: seq<State>, acts: seq<Action>, i: nat, k: nat, id: Tid)
    requires ValidRun(run, acts) && i <= k < |run| && id in run[i].txns
    ensures id in run[k].txns && run[k].txns[id] == run[i].txns[id].(pc := run[k].txns[id].pc)
  {
    if i < k {
      TxnStable(run, acts, i, k - 1, id);
      StepStable(run[k - 1], acts[k - 1], id);
    }
  }

  lemma EntersReadWinner(s: State, a: Action, id: Tid)
    requires Enabled(s, a) && (id in s.txns ==> TxnInv(s, id) && !s.txns[id].pc.ReadWinner?)
    requires id in Apply(s, a).txns && Apply(s, a).txns[id].pc.ReadWinner?
    ensures id in s.txns && s.txns[id].pc.Consume? && !s.txns[id].lookup
    ensures !Matches(s.db, s.txns[id].req, s.txns[id].started)
    ensures Apply(s, a).txns[id] == s.txns[id].(pc := ReadWinner)
  {
  }

  /** A transaction that missed its nonce did so at some earlier consume statement. */
  lemma {:induction false} MissedAt(run: seq<State>, acts: seq<Action>, k: nat, id: Tid) returns (i: nat)
    requires ValidRun(run, acts) && k < |run| && id in run[k].txns && run[k].txns[id].pc.ReadWinner?
    ensures i < k && id in run[i].txns && run[i].txns[id].pc.Consume? && !run[i].txns[id].lookup
    ensures !Matches(run[i].db, run[k].txns[id].req, run[k].txns[id].started)
  {
    if id in run[k - 1].txns && run[k - 1].txns[id].pc.ReadWinner? {
      i := MissedAt(run, acts, k - 1, id);
      TxnStable(run, acts, k - 1, k, id);
    } else {
      i := k - 1;
      RunInv(run, acts, k - 1);
      EntersReadWinner(run[k - 1], acts[k - 1], id);
    }
  }

  /** A statement that ends a transaction answers what the atomic admission would. */
  lemma AdvanceReply(s: State, id: Tid)
    requires Inv(s) && id in s.txns && NextPc(s, id).Some? && NextPc(s, id).value.Done?
    ensures var r := NextPc(s, id).value.reply;
            && (r.TokenUnavailable? ==> s.txns[id].pc.ReadWinner? && s.txns[id].req.SlotOf() !in s.db.idem)
            && (!r.TokenUnavailable? && !r.KeyConflict? && !r.IdCollision? ==>
                  !r.Created? && AtomicAdmit(s.db, s.txns[id]).1 == r)
  {
    assert TxnInv(s, id);
    var slot := s.txns[id].req.SlotOf();
    if slot in s.db.idem { StoredJobPresent(s, slot); }
  }

  lemma FinishingStep(s: State, a: Action, id: Tid)
    requires Inv(s) && Enabled(s, a) && (id in s.txns ==> !s.txns[id].pc.Done?)
    requires id in Apply(s, a).txns && Apply(s, a).txns[id].pc.Done?
    ensures id in s.txns
    ensures var r := Apply(s, a).txns[id].pc.reply;
            && (r.TokenUnavailable? ==> s.txns[id].pc.ReadWinner? && s.txns[id].req.SlotOf() !in s.db.idem)
            && (!r.TokenUnavailable? && !r.KeyConflict? && !r.IdCollision? && !r.Lost? ==>
                  AtomicAdmit(s.db, s.txns[id]).1 == r)
            && (r.Created? ==> a == Commit(id) && Apply(s, a).db == AtomicAdmit(s.db, s.txns[id]).0)
  {
    if a == Advance(id) {
      AdvanceReply(s, id);
    } else if a == Commit(id) {
      StepSimulates(s, a);
    }
  }

  /** A refusal takes effect where the nonce was missed: the key was unbound then as well. */
  lemma RefusedAt(run: seq<State>, acts: seq<Action>, k: nat, id: Tid) returns (i: nat)
    requires ValidRun(run, acts) && k < |run| && id in run[k].txns && run[k].txns[id].pc.ReadWinner?
    requires run[k].txns[id].req.SlotOf() !in run[k].db.idem
    ensures i < k && LinearizedAt(run, acts, i, id, TokenUnavailable)
  {
    i := MissedAt(run, acts, k, id);
    RunGrows(run, acts, i, k);
    TxnStable(run, acts, i, k, id);
  }

  /** The step at which a transaction gets its reply has a linearization point. */
  lemma LinearizedByStep(run: seq<State>, acts: seq<Action>, k: nat, id: Tid) returns (i: nat)
    requires ValidRun(run, acts) && k < |acts| && Inv(run[k])
    requires id in run[k + 1].txns && run[k + 1].txns[id].pc.Done? && (id in run[k].txns ==> !run[k].txns[id].pc.Done?)
    requires var r := run[k + 1].txns[id].pc.reply; !r.Lost? && !r.KeyConflict? && !r.IdCollision?
    ensures i <= k && LinearizedAt(run, acts, i, id, run[k + 1].txns[id].pc.reply)
  {
    assert Enabled(run[k], acts[k]) && run[k + 1] == Apply(run[k], acts[k]);
    FinishingStep(run[k], acts[k], id);
    if run[k + 1].txns[id].pc.reply.TokenUnavailable? {
      i := RefusedAt(run, acts, k, id);
    } else {
      i := k;
    }
  }

  /** Linearizability: in every run and under every interleaving, each reply that is not a
      database error or a loss is the reply the atomic admission gives at one moment between
      the transaction's first and last statement; a creation takes effect at its commit. */
  lemma {:induction false} Linearizable(run: seq<State>, acts: seq<Action>, k: nat, id: Tid) returns (i: nat)
    requires ValidRun(run, acts) && k < |run| && id in run[k].txns && run[k].txns[id].pc.Done?
    requires var r := run[k].txns[id].pc.reply; !r.Lost? && !r.KeyConflict? && !r.IdCollision?
    ensures i < k && LinearizedAt(run, acts, i, id, run[k].txns[id].pc.reply)
  {
    if id in run[k - 1].txns && run[k - 1].txns[id].pc.Done? {
      StepStable(run[k - 1], acts[k - 1], id);
      DoneStays(run[k - 1], acts[k - 1], id);
      i := Linearizable(run, acts, k - 1, id);
    } else {
      RunInv(run, acts, k - 1);
      i := LinearizedByStep(run, acts, k - 1, id);
    }
  }

  lemma DoneStays(s: State, a: Action, id: Tid)
    requires Enabled(s, a) && id in s.txns && s.txns[id].pc.Done?
    ensures id in Apply(s, a).txns && Apply(s, a).txns[id] == s.txns[id]
  {
  }

  /** What each reply says of the tables, column by column, at one moment `i` between the
      transaction's first and last statement.  A creation found its key, job id and outbox id free and
      under its nonce an unconsumed, unexpired token for its user, version and spec; it consumed that
      token and wrote the three rows, and nothing else.  A refused admission found no such token. */
  lemma RepliesMean(run: seq<State>, acts: seq<Action>, k: nat, id: Tid) returns (i: nat)
    requires ValidRun(run, acts) && k < |run| && id in run[k].txns && run[k].txns[id].pc.Done?
    requires var r := run[k].txns[id].pc.reply; !r.Lost? && !r.KeyConflict? && !r.IdCollision?
    ensures i < k && id in run[i].txns && !run[i].txns[id].pc.Done?
    ensures var t, db := run[k].txns[id], run[i].db;
            var q, slot := t.req, Slot(t.req.user, t.req.key);
            match t.pc.reply
            case Created(j, o) =>
              && !t.lookup && j == t.job && o == t.outbox && acts[i] == Commit(id)
              && slot !in db.idem && j !in db.jobs && o !in db.outbox
              && q.nonce in db.tokens
              && var tok := db.tokens[q.nonce];
              && tok.user == q.user && tok.version == q.version && tok.hash == q.hash
              && !tok.consumed && tok.expires > t.started
              && run[i + 1].db == Db(db.tokens[q.nonce := Token(q.user, q.version, q.hash, tok.expires, true)],
                                     db.jobs[j := Job(q.user, q.version, q.hash, q.key)],
                                     db.idem[slot := IdemRow(q.hash, j)], db.outbox[o := j])
            case Existing(j) => slot in db.idem && db.idem[slot].hash == q.hash && db.idem[slot].job == j && j in db.jobs
            case KeyReused => slot in db.idem && db.idem[slot].hash != q.hash
            case NotFound => t.lookup && slot !in db.idem
            case TokenUnavailable =>
              && !t.lookup && slot !in db.idem
              && !(q.nonce in db.tokens && db.tokens[q.nonce].user == q.user && db.tokens[q.nonce].version == q.version
                   && db.tokens[q.nonce].hash == q.hash && !db.tokens[q.nonce].consumed
                   && db.tokens[q.nonce].expires > t.started)
            case _ => true
  {
    i := Linearizable(run, acts, k, id);
    TxnStable(run, acts, i, k, id);
    RunInv(run, acts, i);
    assert TxnInv(run[i], id);
    if run[i].txns[id].req.SlotOf() in run[i].db.idem { StoredJobPresent(run[i], run[i].txns[id].req.SlotOf()); }
  }

  lemma {:induction false} InjectiveValues<V>(m: map<Nonce, V>)
    requires forall a, b | a in m && b in m && a != b :: m[a] != m[b]
    ensures |set n | n in m :: m[n]| == |m|
  {
    if n :| n in m {
      var rest := m - {n};
      InjectiveValues(rest);
      var all, others := set k | k in m :: m[k], set k | k in rest :: rest[k];
      forall v | v in all ensures v in others + {m[n]} {
        var k :| k in m && m[k] == v;
        assert k == n || k in rest;
      }
      forall k | k in rest ensures rest[k] in all { assert k in m; }
      assert m[n] in all;
      assert all == others + {m[n]};
    } else {
      assert forall n :: n !in m;
      assert m.Keys == {};
    }
  }

  lemma LedgerSizes(ledger: map<Nonce, Entry>)
    requires OneToOne(ledger)
    ensures |JobsOf(ledger)| == |ledger| && |SlotsOf(ledger)| == |ledger| && |OutboxesOf(ledger)| == |ledger|
  {
    var jobs := map n | n in ledger :: ledger[n].job;
    var slots := map n | n in ledger :: ledger[n].slot;
    var outboxes := map n | n in ledger :: ledger[n].outbox;
    assert jobs.Keys == slots.Keys == outboxes.Keys == ledger.Keys;
    InjectiveValues(jobs);
    InjectiveValues(slots);
    InjectiveValues(outboxes);
    assert JobsOf(ledger) == set n | n in jobs :: jobs[n];
    assert SlotsOf(ledger) == set n | n in slots :: slots[n];
    assert OutboxesOf(ledger) == set n | n in outboxes :: outboxes[n];
  }

  ghost function Consumed(db: Db): set<Nonce> { set n | n in db.tokens && db.tokens[n].consumed }

  /** In every reachable state consumed nonces, jobs, idempotency rows and outbox rows are in
      bijection: `ledger` matches them one to one, and so there are equally many of each. */
  lemma Bijection(run: seq<State>, acts: seq<Action>, k: nat)
    requires ValidRun(run, acts) && k < |run|
    ensures var db, ledger := run[k].db, run[k].ledger;
            && ledger.Keys == Consumed(db) && OneToOne(ledger)
            && (forall n | n in ledger :: Recorded(db, n, ledger[n]))
            && JobsOf(ledger) == db.jobs.Keys && SlotsOf(ledger) == db.idem.Keys && OutboxesOf(ledger) == db.outbox.Keys
            && |Consumed(db)| == |db.jobs.Keys| == |db.idem.Keys| == |db.outbox.Keys|
  {
    RunInv(run, acts, k);
    var db, ledger := run[k].db, run[k].ledger;
    forall n | n in ledger ensures n in Consumed(db) { assert Recorded(db, n, ledger[n]); }
    assert AllRecorded(db, ledger);
    assert forall n | n in Consumed(db) :: n in ledger.Keys;
    assert ledger.Keys == Consumed(db);
    LedgerSizes(ledger);
    assert |ledger| == |ledger.Keys|;
  }

  /** No nonce and no (user, key) is ever answered "created" twice, whatever the spec hashes. */
  lemma CreatedOnce(run: seq<State>, acts: seq<Action>, k: nat, a: Tid, b: Tid)
    requires ValidRun(run, acts) && k < |run|
    requires a in run[k].txns && run[k].txns[a].pc.Done? && run[k].txns[a].pc.reply.Created?
    requires b in run[k].txns && run[k].txns[b].pc.Done? && run[k].txns[b].pc.reply.Created?
    requires a != b
    ensures run[k].txns[a].req.nonce != run[k].txns[b].req.nonce
    ensures run[k].txns[a].req.SlotOf() != run[k].txns[b].req.SlotOf()
    ensures run[k].txns[a].pc.reply.job != run[k].txns[b].pc.reply.job
  {
    RunInv(run, acts, k);
    assert TxnInv(run[k], a) && TxnInv(run[k], b);
  }

  /** Once a key is bound to a spec hash, no transaction with another hash is ever answered
      with a job for it. */
  lemma ForeignHashNeverServed(run: seq<State>, acts: seq<Action>, i: nat, k: nat, id: Tid)
    requires ValidRun(run, acts) && i <= k < |run| && id in run[k].txns && run[k].txns[id].pc.Done?
    requires var req := run[k].txns[id].req;
             req.SlotOf() in run[i].db.idem && run[i].db.idem[req.SlotOf()].hash != req.hash
    ensures !run[k].txns[id].pc.reply.Created? && !run[k].txns[id].pc.reply.Existing?
  {
    RunInv(run, acts, k);
    RunGrows(run, acts, i, k);
    assert TxnInv(run[k], id);
    var req := run[k].txns[id].req;
    if req.nonce in run[k].ledger { assert Recorded(run[k].db, req.nonce, run[k].ledger[req.nonce]); }
    if run[k].txns[id].pc.reply.Created? { CreatedHash(run, acts, k, id); }
  }

  /** A creation binds its key to the hash it asked for. */
  lemma {:induction false} CreatedHash(run: seq<State>, acts: seq<Action>, k: nat, id: Tid)
    requires ValidRun(run, acts) && k < |run| && id in run[k].txns
    requires run[k].txns[id].pc.Done? && run[k].txns[id].pc.reply.Created?
    ensures var t := run[k].txns[id];
            t.req.SlotOf() in run[k].db.idem && run[k].db.idem[t.req.SlotOf()] == IdemRow(t.req.hash, t.pc.reply.job)
  {
    var i := Linearizable(run, acts, k, id);
    RunGrows(run, acts, i + 1, k);
    TxnStable(run, acts, i, k, id);
  }

  /** `id` asks for the nonce and key that entry `e` already answered, with its hash. */
  ghost predicate Outrun(s: State, id: Tid, e: Entry)
  {
    && id in s.txns
    && var t := s.txns[id];
    && t.req.nonce in s.ledger && s.ledger[t.req.nonce] == e && e.slot == t.req.SlotOf()
    && t.req.nonce in s.db.tokens && s.db.tokens[t.req.nonce].hash == t.req.hash
    && (t.pc.Done? ==> t.pc.reply.Lost? || t.pc.reply == Existing(e.job))
  }

  lemma EntryStep(s: State, a: Action, n: Nonce)
    requires Enabled(s, a) && n in s.ledger && n in s.db.tokens
    requires a.Commit? ==> n != s.txns[a.tid].req.nonce
    ensures n in Apply(s, a).ledger && Apply(s, a).ledger[n] == s.ledger[n]
    ensures n in Apply(s, a).db.tokens && Apply(s, a).db.tokens[n].hash == s.db.tokens[n].hash
  {
  }

  /** A ledger entry stays what it is. */
  lemma EntryKept(s: State, a: Action, n: Nonce)
    requires Inv(s) && Enabled(s, a) && n in s.ledger
    ensures n in Apply(s, a).ledger && Apply(s, a).ledger[n] == s.ledger[n]
    ensures n in s.db.tokens && n in Apply(s, a).db.tokens && Apply(s, a).db.tokens[n].hash == s.db.tokens[n].hash
  {
    assert Recorded(s.db, n, s.ledger[n]);
    if a.Commit? { CommitIsFresh(s, a.tid, n); }
    EntryStep(s, a, n);
  }

  /** The outrun transaction's own steps; it has no commit left to make. */
  lemma OutrunStays(s: State, a: Action, id: Tid, e: Entry)
    requires TxnsInv(s) && Enabled(s, a) && Outrun(s, id, e) && Recorded(s.db, s.txns[id].req.nonce, e)
    requires a == Advance(id) || a == Abort(id) || a == Commit(id)
    ensures !a.Commit? && Outrun(Apply(s, a), id, e)
  {
    assert TxnInv(s, id);
    if a.Advance? && NextPc(s, id).value.Done? { OutrunAdvances(s, id, e); }
  }

  lemma OutrunKept(s: State, a: Action, id: Tid, e: Entry)
    requires Inv(s) && Enabled(s, a) && Outrun(s, id, e)
    ensures Outrun(Apply(s, a), id, e)
  {
    EntryKept(s, a, s.txns[id].req.nonce);
    if a == Advance(id) || a == Abort(id) || a == Commit(id) {
      assert Recorded(s.db, s.txns[id].req.nonce, e);
      OutrunStays(s, a, id, e);
    } else {
      OthersStep(s, a, id);
    }
  }

  lemma OutrunAdvances(s: State, id: Tid, e: Entry)
    requires Outrun(s, id, e) && TxnInv(s, id) && Recorded(s.db, s.txns[id].req.nonce, e)
    requires NextPc(s, id).Some? && NextPc(s, id).value.Done?
    ensures NextPc(s, id).value.reply == Existing(e.job)
  {
  }

  /** A request that loses the race for its own nonce and key to an identical request is
      answered with the winner's job, in every continuation of every run. */
  lemma {:induction false} LoserGetsWinnersJob(run: seq<State>, acts: seq<Action>, i: nat, k: nat, id: Tid, e: Entry)
    requires ValidRun(run, acts) && i <= k < |run|
    requires Outrun(run[i], id, e) && !run[i].txns[id].pc.Done?
    ensures Outrun(run[k], id, e)
    ensures run[k].txns[id].pc.Done? && !run[k].txns[id].pc.reply.Lost? ==> run[k].txns[id].pc.reply == Existing(e.job)
  {
    if i < k {
      LoserGetsWinnersJob(run, acts, i, k - 1, id, e);
      RunInv(run, acts, k - 1);
      OutrunKept(run[k - 1], acts[k - 1], id, e);
    }
  }

  // ---------------------------------------------------------------- progress

  function Rank(pc: Pc): nat
  {
    match pc
    case ReadIdem => 0 case ReadStored(_) => 1 case Consume => 2 case ReadWinner => 3 case ReadWinnerJob(_) => 4
    case InsertJob => 5 case InsertIdem => 6 case InsertOutbox => 7 case Committing => 8 case Done(_) => 9
  }

  /** Locks are taken in one order, so whoever blocks a transaction is further along. */
  lemma BlockerIsAhead(s: State, id: Tid) returns (k: Tid)
    requires id in s.txns && !s.txns[id].pc.Done? && !s.txns[id].pc.Committing? && NextPc(s, id).None?
    ensures k in s.txns && !s.txns[k].pc.Done? && Rank(s.txns[id].pc) < Rank(s.txns[k].pc)
  {
    var t := s.txns[id];
    match t.pc
    case Consume => k :| k in s.txns && k != id && s.txns[k].HoldsNonce() && s.txns[k].req.nonce == t.req.nonce;
    case InsertJob => k :| k in s.txns && k != id && s.txns[k].HoldsJob() && s.txns[k].job == t.job;
    case InsertIdem => k :| k in s.txns && k != id && s.txns[k].HoldsSlot() && s.txns[k].req.SlotOf() == t.req.SlotOf();
    case InsertOutbox => k :| k in s.txns && k != id && s.txns[k].HoldsOutbox() && s.txns[k].outbox == t.outbox;
  }

  /** No deadlock: while a transaction is unfinished, it or one further along can take its next
      step or commit. */
  lemma {:induction false} NoDeadlock(s: State, id: Tid) returns (a: Action)
    requires Inv(s) && id in s.txns && !s.txns[id].pc.Done?
    ensures a.Advance? || a.Commit?
    ensures Enabled(s, a) && Rank(s.txns[a.tid].pc) >= Rank(s.txns[id].pc)
    decreases 9 - Rank(s.txns[id].pc)
  {
    if s.txns[id].pc.Committing? {
      assert TxnInv(s, id);
      a := Commit(id);
    } else if NextPc(s, id).Some? {
      a := Advance(id);
    } else {
      var k := BlockerIsAhead(s, id);
      a := NoDeadlock(s, k);
    }
  }

  /** Statements only move a transaction forward. */
  lemma StepsForward(s: State, a: Action)
    requires Enabled(s, a) && (a.Advance? || a.Commit?)
    ensures Rank(s.txns[a.tid].pc) < Rank(Apply(s, a).txns[a.tid].pc)
  {
  }

  /** The statements that all transactions together have left at most. */
  ghost function Remaining(s: State): set<(Tid, int)>
  {
    set id, r | id in s.txns && Rank(s.txns[id].pc) <= r < 9 :: (id, r)
  }

  lemma RemainingShrinks(s: State, a: Action)
    requires Enabled(s, a) && (a.Advance? || a.Commit?)
    ensures |Remaining(Apply(s, a))| < |Remaining(s)|
  {
    var s' := Apply(s, a);
    StepsForward(s, a);
    forall p | p in Remaining(s') ensures p in Remaining(s) {
      if p.0 != a.tid { assert s'.txns[p.0] == s.txns[p.0]; }
    }
    var gone := (a.tid, Rank(s.txns[a.tid].pc));
    assert gone in Remaining(s) && gone !in Remaining(s');
    assert Remaining(s') <= Remaining(s) - {gone};
    SubsetSize(Remaining(s'), Remaining(s) - {gone});
  }

  /** `acts` are statements and commits that lead from `s` to `s'`. */
  ghost predicate Works(s: State, acts: seq<Action>, s': State)
    decreases |acts|
  {
    if acts == [] then s == s'
    else (acts[0].Advance? || acts[0].Commit?) && Enabled(s, acts[0]) && Works(Apply(s, acts[0]), acts[1..], s')
  }

  lemma WorksFirst(s: State, a: Action, rest: seq<Action>, s': State)
    requires (a.Advance? || a.Commit?) && Enabled(s, a) && Works(Apply(s, a), rest, s')
    ensures Works(s, [a] + rest, s') && Apply(s, a).txns.Keys == s.txns.Keys
  {
    assert ([a] + rest)[1..] == rest;
  }

  /** From every reachable state, statements and commits alone bring every open transaction to its
      end: nobody waits for ever on a lock, and no abort is needed to make progress. */
  lemma {:induction false} AllCanFinish(s: State) returns (acts: seq<Action>, s': State)
    requires Inv(s)
    ensures Works(s, acts, s') && Inv(s') && s'.txns.Keys == s.txns.Keys
    ensures forall id | id in s'.txns :: s'.txns[id].pc.Done?
    decreases |Remaining(s)|
  {
    if id :| id in s.txns && !s.txns[id].pc.Done? {
      var a := NoDeadlock(s, id);
      StepKeepsInv(s, a);
      RemainingShrinks(s, a);
      var rest;
      rest, s' := AllCanFinish(Apply(s, a));
      acts := [a] + rest;
      WorksFirst(s, a, rest, s');
    } else {
      acts, s' := [], s;
      assert forall id | id in s.txns :: s.txns[id].pc.Done?;
    }
  }

  // ---------------------------------------------------------------- who gets the winner's job

  /** `acts` leads from `s` to `s'`. */
  ghost predicate Leads(s: State, acts: seq<Action>, s': State)
    decreases |acts|
  {
    if acts == [] then s == s' else Enabled(s, acts[0]) && Leads(Apply(s, acts[0]), acts[1..], s')
  }

  /** The key `id` asks for is bound to its own spec hash and to job `j`. */
  ghost predicate Bound(s: State, id: Tid, j: JobId)
  {
    && id in s.txns
    && var req := s.txns[id].req;
    && req.SlotOf() in s.db.idem && s.db.idem[req.SlotOf()] == IdemRow(req.hash, j)
  }

  /** `id` has its nonce and is about to insert, or its consuming statement may still succeed. */
  predicate PastRereading(s: State, id: Tid)
    requires id in s.txns
  {
    var t := s.txns[id];
    || t.pc.InsertJob? || t.pc.InsertIdem?
    || (t.pc.Consume? && (t.req.nonce !in s.db.tokens || Matches(s.db, t.req, t.started)))
  }

  ghost predicate Answered(s: State, id: Tid, j: JobId)
  {
    id in s.txns && (s.txns[id].pc.Done? ==> s.txns[id].pc.reply == Existing(j) || s.txns[id].pc.reply.Lost?)
  }

  /** Whatever happens next, `id` ends with the winner's job or is lost. */
  ghost predicate AlwaysAnswered(s: State, id: Tid, j: JobId)
  {
    forall acts, s' | Leads(s, acts, s') :: Answered(s', id, j)
  }

  ghost predicate Rereads(s: State, id: Tid, j: JobId)
  {
    Bound(s, id, j) && Answered(s, id, j) && !PastRereading(s, id)
  }

  lemma RereadsAdvance(s: State, id: Tid, j: JobId)
    requires LedgerInv(s.db, s.ledger) && Rereads(s, id, j) && TxnInv(s, id) && NextPc(s, id).Some?
    ensures Rereads(SetPc(s, id, NextPc(s, id).value), id, j)
  {
    StoredJobPresent(s, s.txns[id].req.SlotOf());
    RereadsNext(s, id, j);
  }

  /** Where a transaction goes that reads the winner's row. */
  lemma RereadsNext(s: State, id: Tid, j: JobId)
    requires Rereads(s, id, j) && j in s.db.jobs && NextPc(s, id).Some? && !s.txns[id].pc.InsertOutbox?
    requires s.txns[id].pc.ReadStored? ==> s.txns[id].pc.found == j
    requires s.txns[id].pc.ReadWinnerJob? ==> s.txns[id].pc.won == j
    ensures var pc := NextPc(s, id).value;
            pc == Done(Existing(j)) || pc == ReadStored(j) || pc == ReadWinnerJob(j) || pc == ReadWinner
  {
  }

  /** A token that does not match never will. */
  lemma MismatchKept(a: Db, b: Db, req: Request, now: int)
    requires Grows(a, b) && req.nonce in a.tokens && !Matches(a, req, now)
    ensures req.nonce in b.tokens && !Matches(b, req, now)
  {
  }

  lemma BoundKept(s: State, a: Action, id: Tid, j: JobId)
    requires Enabled(s, a) && Bound(s, id, j) && Grows(s.db, Apply(s, a).db)
    ensures Bound(Apply(s, a), id, j)
  {
    StepStable(s, a, id);
  }

  lemma RereadsBesides(s: State, a: Action, id: Tid, j: JobId)
    requires Enabled(s, a) && Rereads(s, id, j) && Grows(s.db, Apply(s, a).db)
    requires a != Advance(id) && a != Abort(id) && a != Commit(id)
    ensures Rereads(Apply(s, a), id, j)
  {
    BoundKept(s, a, id, j);
    OthersStep(s, a, id);
    var t := s.txns[id];
    if t.pc.Consume? { MismatchKept(s.db, Apply(s, a).db, t.req, t.started); }
  }

  /** A re-reading transaction has no commit to make. */
  lemma RereadsItself(s: State, a: Action, id: Tid, j: JobId)
    requires LedgerInv(s.db, s.ledger) && Enabled(s, a) && Rereads(s, id, j) && TxnInv(s, id)
    requires a == Advance(id) || a == Abort(id) || a == Commit(id)
    ensures !a.Commit? && Rereads(Apply(s, a), id, j)
  {
    if a.Advance? { RereadsAdvance(s, id, j); }
  }

  lemma RereadsKept(s: State, a: Action, id: Tid, j: JobId)
    requires Inv(s) && Enabled(s, a) && Rereads(s, id, j)
    ensures Rereads(Apply(s, a), id, j)
  {
    if a == Advance(id) || a == Abort(id) || a == Commit(id) {
      RereadsItself(s, a, id, j);
    } else {
      if a.Commit? { assert TxnInv(s, a.tid); }
      StepGrows(s, a);
      RereadsBesides(s, a, id, j);
    }
  }

  lemma {:induction false} RereadsForGood(s: State, acts: seq<Action>, s': State, id: Tid, j: JobId)
    requires Inv(s) && Rereads(s, id, j) && Leads(s, acts, s')
    ensures Answered(s', id, j)
    decreases |acts|
  {
    if acts != [] {
      StepKeepsInv(s, acts[0]);
      RereadsKept(s, acts[0], id, j);
      RereadsForGood(Apply(s, acts[0]), acts[1..], s', id, j);
    }
  }

  /** Aborting the one transaction that holds what `id` is about to take unblocks it. */
  lemma AbortHolder(s: State, id: Tid) returns (k: Tid)
    requires Inv(s) && id in s.txns && NextPc(s, id).None? && (s.txns[id].pc.Consume? || s.txns[id].pc.InsertJob?)
    ensures k != id && Enabled(s, Abort(k)) && NextPc(Apply(s, Abort(k)), id).Some?
  {
    if s.txns[id].pc.Consume? { k := AbortNonceHolder(s, id); } else { k := AbortJobHolder(s, id); }
  }

  lemma AbortNonceHolder(s: State, id: Tid) returns (k: Tid)
    requires id in s.txns && NextPc(s, id).None? && s.txns[id].pc.Consume?
    requires AllExcluded(s.txns)
    ensures k != id && Enabled(s, Abort(k)) && NextPc(Apply(s, Abort(k)), id).Some?
  {
    var n := s.txns[id].req.nonce;
    k :| k in s.txns && k != id && s.txns[k].HoldsNonce() && s.txns[k].req.nonce == n;
    forall m | m in s.txns && m != k ensures !(s.txns[m].HoldsNonce() && s.txns[m].req.nonce == n) {
      assert Excluded(s.txns[m], s.txns[k]);
    }
    assert !NonceLocked(Apply(s, Abort(k)), id, n);
  }

  lemma AbortJobHolder(s: State, id: Tid) returns (k: Tid)
    requires id in s.txns && NextPc(s, id).None? && s.txns[id].pc.InsertJob?
    requires AllExcluded(s.txns)
    ensures k != id && Enabled(s, Abort(k)) && NextPc(Apply(s, Abort(k)), id).Some?
  {
    var x := s.txns[id].job;
    k :| k in s.txns && k != id && s.txns[k].HoldsJob() && s.txns[k].job == x;
    forall m | m in s.txns && m != k ensures !(s.txns[m].HoldsJob() && s.txns[m].job == x) {
      assert Excluded(s.txns[m], s.txns[k]);
    }
    assert !JobLocked(Apply(s, Abort(k)), id, x);
  }

  /** Some continuation answers `id` with neither the winner's job nor a loss. */
  ghost predicate CanFail(s: State, id: Tid, j: JobId)
  {
    exists acts, s' :: Leads(s, acts, s') && !Answered(s', id, j)
  }

  lemma FailsNow(s: State, id: Tid, j: JobId)
    requires !Answered(s, id, j)
    ensures CanFail(s, id, j)
  {
    assert Leads(s, [], s);
  }

  lemma FailsAfter(s: State, a: Action, id: Tid, j: JobId)
    requires Enabled(s, a) && CanFail(Apply(s, a), id, j)
    ensures CanFail(s, id, j)
  {
    var acts, s' :| Leads(Apply(s, a), acts, s') && !Answered(s', id, j);
    assert ([a] + acts)[1..] == acts;
    assert Leads(s, [a] + acts, s');
  }

  /** The insert of a bound key fails. */
  lemma InsertIdemFails(s: State, id: Tid, j: JobId)
    requires Inv(s) && Bound(s, id, j) && s.txns[id].pc.InsertIdem?
    ensures CanFail(s, id, j)
  {
    var slot := s.txns[id].req.SlotOf();
    forall k | k in s.txns && k != id && s.txns[k].HoldsSlot() ensures s.txns[k].req.SlotOf() != slot {
      assert TxnInv(s, k);
    }
    assert NextPc(s, id) == Some(Done(KeyConflict));
    FailsNow(Apply(s, Advance(id)), id, j);
    FailsAfter(s, Advance(id), id, j);
  }

  lemma InsertJobFails(s: State, id: Tid, j: JobId)
    requires Inv(s) && Bound(s, id, j) && s.txns[id].pc.InsertJob? && NextPc(s, id).Some?
    ensures CanFail(s, id, j)
  {
    var s' := Apply(s, Advance(id));
    if s'.txns[id].pc.InsertIdem? {
      StepKeepsInv(s, Advance(id));
      InsertIdemFails(s', id, j);
    } else {
      FailsNow(s', id, j);
    }
    FailsAfter(s, Advance(id), id, j);
  }

  lemma AbortOther(s: State, k: Tid, id: Tid, j: JobId)
    requires Inv(s) && Bound(s, id, j) && k != id && Enabled(s, Abort(k))
    ensures var s' := Apply(s, Abort(k)); Inv(s') && Bound(s', id, j) && s'.txns[id] == s.txns[id] && s'.db == s.db
  {
    StepKeepsInv(s, Abort(k));
  }

  /** A blocked statement is reached by aborting the holder of the lock. */
  lemma BlockedInsertJobFails(s: State, id: Tid, j: JobId)
    requires Inv(s) && Bound(s, id, j) && s.txns[id].pc.InsertJob?
    ensures CanFail(s, id, j)
  {
    if NextPc(s, id).Some? {
      InsertJobFails(s, id, j);
    } else {
      var k := AbortHolder(s, id);
      AbortOther(s, k, id, j);
      InsertJobFails(Apply(s, Abort(k)), id, j);
      FailsAfter(s, Abort(k), id, j);
    }
  }

  lemma ConsumeFails(s: State, id: Tid, j: JobId)
    requires Inv(s) && Bound(s, id, j) && s.txns[id].pc.Consume? && NextPc(s, id).Some?
    requires Matches(s.db, s.txns[id].req, s.txns[id].started)
    ensures CanFail(s, id, j)
  {
    StepKeepsInv(s, Advance(id));
    BlockedInsertJobFails(Apply(s, Advance(id)), id, j);
    FailsAfter(s, Advance(id), id, j);
  }

  lemma BlockedConsumeFails(s: State, id: Tid, j: JobId)
    requires Inv(s) && Bound(s, id, j) && s.txns[id].pc.Consume? && Matches(s.db, s.txns[id].req, s.txns[id].started)
    ensures CanFail(s, id, j)
  {
    if NextPc(s, id).Some? {
      ConsumeFails(s, id, j);
    } else {
      var k := AbortHolder(s, id);
      AbortOther(s, k, id, j);
      ConsumeFails(Apply(s, Abort(k)), id, j);
      FailsAfter(s, Abort(k), id, j);
    }
  }

  /** A token that would match can still be registered. */
  lemma UnregisteredFails(s: State, id: Tid, j: JobId)
    requires Inv(s) && Bound(s, id, j) && s.txns[id].pc.Consume? && s.txns[id].req.nonce !in s.db.tokens
    ensures CanFail(s, id, j)
  {
    var t := s.txns[id];
    var a := Register(t.req.nonce, Token(t.req.user, t.req.version, t.req.hash, t.started + 1, false));
    StepKeepsInv(s, a);
    BlockedConsumeFails(Apply(s, a), id, j);
    FailsAfter(s, a, id, j);
  }

  /** An unfinished transaction whose key is already bound to its own spec hash gets the winner's
      job in every continuation (unless it is lost) if and only if it is not past its re-reading:
      not about to insert, and not at a consuming statement that can still succeed. */
  lemma WinnersJobIff(s: State, id: Tid, j: JobId)
    requires Inv(s) && Bound(s, id, j) && !s.txns[id].pc.Done?
    ensures AlwaysAnswered(s, id, j) <==> !PastRereading(s, id)
  {
    if PastRereading(s, id) {
      var t := s.txns[id];
      if t.pc.InsertIdem? { InsertIdemFails(s, id, j); }
      else if t.pc.InsertJob? { BlockedInsertJobFails(s, id, j); }
      else if t.req.nonce !in s.db.tokens { UnregisteredFails(s, id, j); }
      else { BlockedConsumeFails(s, id, j); }
    } else {
      forall acts, s' | Leads(s, acts, s') ensures Answered(s', id, j) { RereadsForGood(s, acts, s', id, j); }
    }
  }

  /** A transaction dies on the key's uniqueness only when the key's row was written for
      another nonce. */
  lemma ConflictOnlyAcrossNonces(run: seq<State>, acts: seq<Action>, k: nat, id: Tid, n: Nonce)
    requires ValidRun(run, acts) && k < |run| && id in run[k].txns
    requires run[k].txns[id].pc == Done(KeyConflict)
    requires n in run[k].ledger && run[k].ledger[n].slot == run[k].txns[id].req.SlotOf()
    ensures n != run[k].txns[id].req.nonce
  {
    RunInv(run, acts, k);
    assert TxnInv(run[k], id);
  }

  ghost predicate Reachable(s: State)
  {
    exists run, acts :: ValidRun(run, acts) && run[|run| - 1] == s
  }

  lemma Extend(s: State, a: Action) returns (s': State)
    requires Reachable(s) && Enabled(s, a)
    ensures s' == Apply(s, a) && Reachable(s')
  {
    s' := Apply(s, a);
    var run, acts :| ValidRun(run, acts) && run[|run| - 1] == s;
    var run', acts' := run + [s'], acts + [a];
    assert ValidRun(run', acts') && run'[|run'| - 1] == s';
  }

  const RaceA := Txn(false, Request(101, 5, 1, 7, 9), 0, 11, 21, ReadIdem)
  const RaceB := Txn(false, Request(102, 5, 1, 7, 9), 0, 12, 22, ReadIdem)

  /** Two overlapping requests of one user, one key and one spec, holding different nonces. */
  lemma RaceStarts() returns (s: State)
    ensures Reachable(s) && s.ledger == map[]
    ensures s.db == Db(map[101 := Token(5, 1, 7, 100, false), 102 := Token(5, 1, 7, 100, false)], map[], map[], map[])
    ensures s.txns == map[1 := RaceA.(pc := Consume), 2 := RaceB.(pc := Consume)]
  {
    s := Init;
    assert Reachable(s) by { assert ValidRun([Init], []) && [Init][|[Init]| - 1] == s; }
    s := Extend(s, Register(101, Token(5, 1, 7, 100, false)));
    s := Extend(s, Register(102, Token(5, 1, 7, 100, false)));
    s := Extend(s, Begin(1, RaceA));
    s := Extend(s, Begin(2, RaceB));
    s := Extend(s, Advance(1));
    s := Extend(s, Advance(2));
  }

  lemma RaceMeets() returns (s: State)
    ensures Reachable(s) && s.ledger == map[]
    ensures s.db == Db(map[101 := Token(5, 1, 7, 100, false), 102 := Token(5, 1, 7, 100, false)], map[], map[], map[])
    ensures s.txns == map[1 := RaceA.(pc := InsertIdem), 2 := RaceB.(pc := InsertIdem)]
  {
    s := RaceStarts();
    s := Extend(s, Advance(1));
    s := Extend(s, Advance(2));
    assert s.txns == map[1 := RaceA.(pc := InsertJob), 2 := RaceB.(pc := InsertJob)];
    s := Extend(s, Advance(1));
    s := Extend(s, Advance(2));
  }

  /** That boundary is real: the slower of the two is not handed the winner's job but fails
      on the unique key, although user, key and spec are the same. */
  lemma KeyConflictReachable() returns (s: State)
    ensures Reachable(s) && 1 in s.txns && 2 in s.txns
    ensures s.txns[1].req.(nonce := 102) == s.txns[2].req
    ensures s.txns[1].pc == Done(Created(11, 21)) && s.txns[2].pc == Done(KeyConflict)
  {
    s := RaceMeets();
    s := Extend(s, Advance(1));
    s := Extend(s, Advance(1));
    assert s.txns == map[1 := RaceA.(pc := Committing), 2 := RaceB.(pc := InsertIdem)];
    s := Extend(s, Commit(1));
    assert s.txns == map[1 := RaceA.(pc := Done(Created(11, 21))), 2 := RaceB.(pc := InsertIdem)];
    s := Extend(s, Advance(2));
  }
}
