/** The in-process retry fence in front of admission. */
module IdempotencyFence {
  import opened Common
  import Admission

  type Slot = Admission.Slot      // a user id and a client idempotency key
  type Hash = Admission.Hash
  type JobId = Admission.JobId
  type Request = int

  datatype Entry = Entry(hash: Hash, job: Option<JobId>)

  datatype Answer = New | Pending | Existing(job: JobId) | Conflict

  type Registry = map<Slot, Entry>

  function AnswerFor(r: Registry, slot: Slot, hash: Hash): Answer
  {
    if slot !in r then New
    else if r[slot].hash != hash then Conflict
    else if r[slot].job.Some? then Existing(r[slot].job.value) else Pending
  }

  function Began(r: Registry, slot: Slot, hash: Hash): Registry
  {
    if slot in r then r else r[slot := Entry(hash, None)]
  }

  predicate Open(r: Registry, slot: Slot, hash: Hash) { slot in r && r[slot] == Entry(hash, None) }

  function Completed(r: Registry, slot: Slot, hash: Hash, job: JobId): Registry
  {
    if Open(r, slot, hash) then r[slot := Entry(hash, Some(job))] else r
  }

  function Discarded(r: Registry, slot: Slot, hash: Hash): Registry
  {
    if Open(r, slot, hash) then r - {slot} else r
  }

  class CoreJobIdempotencyRegistry {
    var requests: map<Slot, Entry>

    constructor ()
      ensures requests == map[]
    {
      requests := map[];
    }

    method Begin(slot: Slot, hash: Hash) returns (answer: Answer)
      modifies this
      ensures answer == AnswerFor(old(requests), slot, hash)
      ensures requests == Began(old(requests), slot, hash)
    {
      if slot !in requests {
        requests := requests[slot := Entry(hash, None)];
        return New;
      }
      var existing := requests[slot];
      if existing.hash != hash { return Conflict; }
      return if existing.job.Some? then Existing(existing.job.value) else Pending;
    }

    method Complete(slot: Slot, hash: Hash, job: JobId)
      modifies this
      ensures requests == Completed(old(requests), slot, hash, job)
    {
      if slot in requests && requests[slot] == Entry(hash, None) {
        requests := requests[slot := Entry(hash, Some(job))];
      }
    }

    method Discard(slot: Slot, hash: Hash)
      modifies this
      ensures requests == Discarded(old(requests), slot, hash)
    {
      if slot in requests && requests[slot] == Entry(hash, None) {
        requests := requests - {slot};
      }
    }
  }

  // ---------------------------------------------------------------------------------------
  // Interleaved requests
  // ---------------------------------------------------------------------------------------

  datatype Claim = Claim(slot: Slot, hash: Hash)

  /** `active` are the requests that were answered "new" and have neither completed nor discarded. */
  datatype State = State(registry: Registry, active: map<Request, Claim>)

  datatype Action =
    | BeginAs(request: Request, slot: Slot, hash: Hash)
    | CompleteAs(request: Request, job: JobId)
    | DiscardAs(request: Request)
    | AbandonAs(request: Request)   // ended by an error that neither completes nor discards

  ghost predicate Enabled(s: State, a: Action)
  {
    match a
    case BeginAs(r, _, _) => r !in s.active
    case CompleteAs(r, _) => r in s.active
    case DiscardAs(r) => r in s.active
    case AbandonAs(r) => r in s.active
  }

  ghost function Step(s: State, a: Action): State
    requires Enabled(s, a)
  {
    match a
    case BeginAs(r, slot, hash) =>
      State(Began(s.registry, slot, hash),
            if AnswerFor(s.registry, slot, hash).New? then s.active[r := Claim(slot, hash)] else s.active)
    case CompleteAs(r, job) =>
      State(Completed(s.registry, s.active[r].slot, s.active[r].hash, job), s.active - {r})
    case DiscardAs(r) =>
      State(Discarded(s.registry, s.active[r].slot, s.active[r].hash), s.active - {r})
    case AbandonAs(r) => s.(active := s.active - {r})
  }

  ghost predicate Inv(s: State)
  {
    && (forall r | r in s.active :: Open(s.registry, s.active[r].slot, s.active[r].hash))
    && (forall q, r | q in s.active && r in s.active && q != r :: s.active[q].slot != s.active[r].slot)
  }

  lemma StepKeepsInv(s: State, a: Action)
    requires Inv(s) && Enabled(s, a)
    ensures Inv(Step(s, a))
  {
  }

  ghost predicate ValidRun(s: State, acts: seq<Action>)
    decreases acts
  {
    acts == [] || (Enabled(s, acts[0]) && ValidRun(Step(s, acts[0]), acts[1..]))
  }

  ghost function Run(s: State, acts: seq<Action>): State
    requires ValidRun(s, acts)
    decreases acts
  {
    if acts == [] then s else Run(Step(s, acts[0]), acts[1..])
  }

  lemma {:induction false} RunKeepsInv(s: State, acts: seq<Action>)
    requires Inv(s) && ValidRun(s, acts)
    ensures Inv(Run(s, acts))
    decreases acts
  {
    if acts != [] {
      StepKeepsInv(s, acts[0]);
      RunKeepsInv(Step(s, acts[0]), acts[1..]);
    }
  }

  const Empty: State := State(map[], map[])

  /** In every interleaving at most one request per user and key is in progress. */
  lemma AtMostOneInProgress(acts: seq<Action>, q: Request, r: Request)
    requires ValidRun(Empty, acts)
    requires q in Run(Empty, acts).active && r in Run(Empty, acts).active
    requires Run(Empty, acts).active[q].slot == Run(Empty, acts).active[r].slot
    ensures q == r
  {
    RunKeepsInv(Empty, acts);
  }

  /** While a request is in progress on a key, everybody else is told to wait, or that the key belongs to
      another spec: by the hash alone. */
  lemma AnsweredWhileOpen(acts: seq<Action>, r: Request, hash: Hash)
    requires ValidRun(Empty, acts) && r in Run(Empty, acts).active
    ensures var s := Run(Empty, acts); var c := s.active[r];
            AnswerFor(s.registry, c.slot, hash) == if hash == c.hash then Pending else Conflict
  {
    RunKeepsInv(Empty, acts);
  }

  ghost predicate Settled(s: State, slot: Slot) { slot in s.registry && s.registry[slot].job.Some? }

  lemma StepKeepsSettled(s: State, a: Action, slot: Slot)
    requires Enabled(s, a) && Settled(s, slot)
    ensures Settled(Step(s, a), slot) && Step(s, a).registry[slot] == s.registry[slot]
  {
  }

  /** Once completed, a key keeps its hash and job for good, and every later begin is answered with
      that job or with a conflict - by the hash alone. */
  lemma {:induction false} CompletedForGood(s: State, acts: seq<Action>, slot: Slot, hash: Hash)
    requires ValidRun(s, acts) && Settled(s, slot)
    ensures slot in Run(s, acts).registry && Run(s, acts).registry[slot] == s.registry[slot]
    ensures AnswerFor(Run(s, acts).registry, slot, hash)
         == if hash == s.registry[slot].hash then Existing(s.registry[slot].job.value) else Conflict
    decreases acts
  {
    if acts != [] {
      StepKeepsSettled(s, acts[0], slot);
      CompletedForGood(Step(s, acts[0]), acts[1..], slot, hash);
    }
  }

  /** The owner's completion always takes effect: nothing can have closed its entry before it. */
  lemma OwnerCompletes(acts: seq<Action>, r: Request, job: JobId)
    requires ValidRun(Empty, acts) && r in Run(Empty, acts).active
    ensures var s := Run(Empty, acts); var c := s.active[r];
            && Enabled(s, CompleteAs(r, job))
            && AnswerFor(Step(s, CompleteAs(r, job)).registry, c.slot, c.hash) == Existing(job)
  {
    RunKeepsInv(Empty, acts);
  }

  // ---------------------------------------------------------------------------------------
  // Requests that do not finish once
  // ---------------------------------------------------------------------------------------

  /** An entry that is open although no request in progress owns it. */
  ghost predicate Wedged(s: State, slot: Slot)
  {
    slot in s.registry && s.registry[slot].job.None? && forall r | r in s.active :: s.active[r].slot != slot
  }

  lemma StepKeepsWedged(s: State, a: Action, slot: Slot)
    requires Enabled(s, a) && Wedged(s, slot)
    ensures Wedged(Step(s, a), slot) && Step(s, a).registry[slot] == s.registry[slot]
  {
  }

  lemma {:induction false} WedgedForGood(s: State, acts: seq<Action>, slot: Slot)
    requires ValidRun(s, acts) && Wedged(s, slot)
    ensures Wedged(Run(s, acts), slot) && Run(s, acts).registry[slot] == s.registry[slot]
    decreases acts
  {
    if acts != [] {
      StepKeepsWedged(s, acts[0], slot);
      WedgedForGood(Step(s, acts[0]), acts[1..], slot);
    }
  }

  /** No begin for `slot` will ever be answered "new" or with a job again. */
  ghost predicate ShutOut(s: State, slot: Slot)
  {
    forall acts, hash | ValidRun(s, acts) ::
      AnswerFor(Run(s, acts).registry, slot, hash).Pending? || AnswerFor(Run(s, acts).registry, slot, hash).Conflict?
  }

  lemma OwnerFrees(s: State, r: Request)
    requires Inv(s) && r in s.active
    ensures Enabled(s, DiscardAs(r)) && s.active[r].slot !in Step(s, DiscardAs(r)).registry
  {
    assert Open(s.registry, s.active[r].slot, s.active[r].hash);
  }

  lemma RunOne(s: State, a: Action)
    requires Enabled(s, a)
    ensures ValidRun(s, [a]) && Run(s, [a]) == Step(s, a)
  {
    assert [a][1..] == [];
  }

  /** A key in progress is shut out for the rest of the process if and only if the request that
      began it has ended without completing or discarding. */
  lemma ShutOutIffAbandoned(s: State, slot: Slot)
    requires Inv(s) && slot in s.registry && s.registry[slot].job.None?
    ensures ShutOut(s, slot) <==> forall r | r in s.active :: s.active[r].slot != slot
  {
    if r :| r in s.active && s.active[r].slot == slot {
      var acts, hash := [DiscardAs(r)], s.active[r].hash;
      OwnerFrees(s, r);
      RunOne(s, DiscardAs(r));
      assert ValidRun(s, acts) && AnswerFor(Run(s, acts).registry, slot, hash).New?;
    } else {
      forall acts, hash | ValidRun(s, acts)
        ensures AnswerFor(Run(s, acts).registry, slot, hash).Pending? || AnswerFor(Run(s, acts).registry, slot, hash).Conflict?
      {
        WedgedForGood(s, acts, slot);
      }
    }
  }

  /** A request that begins and is abandoned shuts its own key out. */
  lemma AbandonmentShutsOut(r: Request, slot: Slot, hash: Hash) returns (acts: seq<Action>)
    ensures acts == [BeginAs(r, slot, hash), AbandonAs(r)] && ValidRun(Empty, acts)
    ensures ShutOut(Run(Empty, acts), slot)
  {
    acts := [BeginAs(r, slot, hash), AbandonAs(r)];
    var s := Step(Empty, acts[0]);
    assert acts[1..] == [acts[1]];
    RunOne(s, AbandonAs(r));
    RunKeepsInv(Empty, acts);
    ShutOutIffAbandoned(Run(Empty, acts), slot);
  }

  /** A discard by a caller that owns nothing. */
  ghost function ForeignDiscard(s: State, slot: Slot, hash: Hash): State
  {
    s.(registry := Discarded(s.registry, slot, hash))
  }

  /** Two requests in progress on one slot. */
  ghost predicate Beside(s: State, q: Request, r: Request)
  {
    q in s.active && r in s.active && q != r && s.active[q].slot == s.active[r].slot
  }

  /** Such a discard lets a second request in beside the owner `r` if and only if it names the slot
      and the hash of the owner's open entry. */
  lemma ForeignDiscardHarmsIff(s: State, r: Request, q: Request, slot: Slot, hash: Hash, other: Hash)
    requires Inv(s) && r in s.active && q !in s.active
    ensures Beside(Step(ForeignDiscard(s, slot, hash), BeginAs(q, s.active[r].slot, other)), q, r)
       <==> Claim(slot, hash) == s.active[r]
  {
    assert Open(s.registry, s.active[r].slot, s.active[r].hash);
  }

  /** A completion by a caller that owns nothing leaves the owner's key in progress if and only if it
      does not name the owner's slot and hash. */
  lemma ForeignCompletionIff(s: State, r: Request, slot: Slot, hash: Hash, job: JobId)
    requires Inv(s) && r in s.active
    ensures AnswerFor(Completed(s.registry, slot, hash, job), s.active[r].slot, s.active[r].hash) == Pending
       <==> Claim(slot, hash) != s.active[r]
  {
    assert Open(s.registry, s.active[r].slot, s.active[r].hash);
  }
}
