/** The bounded per-job event buffer, the SSE reader that polls it, and a client that may lose its
    connection at any frame and reconnect with the last id it saw. */
module EventLog {
  type Event(==,!new)
  type JobId(==,!new)

  // ---------------------------------------------------------------------------------------
  // One job's buffer
  // ---------------------------------------------------------------------------------------

  datatype Buffer = Buffer(kept: seq<Event>, dropped: int, closed: bool)

  const Fresh: Buffer := Buffer([], 0, false)

  function Append(b: Buffer, cap: int, e: Event): Buffer
  {
    var grown := b.kept + [e];
    var overflow := |grown| - cap;
    if overflow <= 0 then b.(kept := grown)
    else b.(kept := if overflow <= |grown| then grown[overflow..] else [], dropped := b.dropped + overflow)
  }

  function Start(b: Buffer, cursor: int): nat
  {
    if cursor - b.dropped > 0 then cursor - b.dropped else 0
  }

  /** The events after `cursor`, and the new cursor. */
  function Since(b: Buffer, cursor: int): (seq<Event>, int)
  {
    (if Start(b, cursor) <= |b.kept| then b.kept[Start(b, cursor)..] else [], b.dropped + |b.kept|)
  }

  /** The buffer is what is left of the append-only log after `dropped` events. */
  ghost predicate Refines(b: Buffer, log: seq<Event>)
  {
    0 <= b.dropped <= |log| && b.kept == log[b.dropped..]
  }

  lemma AppendRefines(b: Buffer, log: seq<Event>, cap: int, e: Event)
    requires cap >= 0 && Refines(b, log)
    ensures Refines(Append(b, cap, e), log + [e])
    ensures b.dropped <= Append(b, cap, e).dropped
  {
  }

  ghost function BufferOf(cap: int, log: seq<Event>): Buffer
  {
    if log == [] then Fresh else Append(BufferOf(cap, log[..|log| - 1]), cap, log[|log| - 1])
  }

  ghost function LastOf(cap: nat, log: seq<Event>): Buffer
  {
    var d := if |log| > cap then |log| - cap else 0;
    Buffer(log[d..], d, false)
  }

  lemma AppendToLast(cap: nat, log: seq<Event>, e: Event)
    ensures Append(LastOf(cap, log), cap, e) == LastOf(cap, log + [e])
  {
  }

  /** The buffer holds exactly the last `cap` events. */
  lemma {:induction false} KeepsTheLast(cap: nat, log: seq<Event>)
    ensures BufferOf(cap, log) == LastOf(cap, log)
  {
    if log != [] {
      var init := log[..|log| - 1];
      KeepsTheLast(cap, init);
      AppendToLast(cap, init, log[|log| - 1]);
      assert log == init + [log[|log| - 1]];
    }
  }

  lemma {:induction false} NegativeCapOvercounts(cap: int, log: seq<Event>)
    requires cap < 0
    ensures BufferOf(cap, log).kept == [] && BufferOf(cap, log).dropped >= 2 * |log|
  {
    if log != [] { NegativeCapOvercounts(cap, log[..|log| - 1]); }
  }

  /** A negative cap counts more events as dropped than were ever published: the buffer refines the
      log if and only if the cap is not negative or nothing was published. */
  lemma RefinesIffCapNonnegative(cap: int, log: seq<Event>)
    ensures Refines(BufferOf(cap, log), log) <==> cap >= 0 || log == []
  {
    if cap >= 0 { KeepsTheLast(cap, log); } else { NegativeCapOvercounts(cap, log); }
  }

  /** A read returns exactly the retained events after the cursor, and leaves the cursor at the
      end of the log - also when the cursor was beyond it. */
  lemma SinceReadsLog(b: Buffer, log: seq<Event>, cursor: nat)
    requires Refines(b, log)
    ensures Since(b, cursor).1 == |log|
    ensures Since(b, cursor).0 == if cursor >= |log| then [] else log[if cursor > b.dropped then cursor else b.dropped..]
  {
  }

  // ---------------------------------------------------------------------------------------
  // The buffer of all jobs
  // ---------------------------------------------------------------------------------------

  class JobEventBuffer {
    const maxEvents: int
    var events: map<JobId, seq<Event>>
    var dropped: map<JobId, int>
    var closed: set<JobId>

    constructor (maxEvents: int)
      ensures this.maxEvents == maxEvents && forall j :: At(j) == Fresh
    {
      this.maxEvents := maxEvents;
      events, dropped, closed := map[], map[], {};
    }

    ghost function At(job: JobId): Buffer
      reads this
    {
      Buffer(if job in events then events[job] else [], if job in dropped then dropped[job] else 0, job in closed)
    }

    method Publish(job: JobId, event: Event)
      modifies this`events, this`dropped
      ensures At(job) == Append(old(At(job)), maxEvents, event)
      ensures forall j | j != job :: At(j) == old(At(j))
    {
      var kept := (if job in events then events[job] else []) + [event];
      var overflow := |kept| - maxEvents;
      if overflow > 0 {
        kept := if overflow <= |kept| then kept[overflow..] else [];
        dropped := dropped[job := (if job in dropped then dropped[job] else 0) + overflow];
      }
      events := events[job := kept];
    }

    method Close(job: JobId)
      modifies this`closed
      ensures At(job) == old(At(job)).(closed := true)
      ensures forall j | j != job :: At(j) == old(At(j))
    {
      closed := closed + {job};
    }

    method ReadSince(job: JobId, cursor: int) returns (unread: seq<Event>, next: int, done: bool)
      ensures (unread, next) == Since(At(job), cursor) && done == At(job).closed
    {
      var kept := if job in events then events[job] else [];
      var gone := if job in dropped then dropped[job] else 0;
      var start := if cursor - gone > 0 then cursor - gone else 0;
      unread := if start <= |kept| then kept[start..] else [];
      next := gone + |kept|;
      done := job in closed;
    }

    method Forget(job: JobId)
      modifies this`events, this`dropped, this`closed
      ensures At(job) == Fresh && forall j | j != job :: At(j) == old(At(j))
    {
      events := events - {job};
      dropped := dropped - {job};
      closed := closed - {job};
    }
  }

  // ---------------------------------------------------------------------------------------
  // One turn of the reader
  // ---------------------------------------------------------------------------------------

  datatype Frame = Data(id: int, event: Event) | Done | Keepalive

  const PollMillis := 250
  const KeepaliveMillis := 15_000

  ghost function DataFrames(first: int, events: seq<Event>): (r: seq<Frame>)
    ensures |r| == |events| && forall k | 0 <= k < |r| :: r[k] == Data(first + k, events[k])
  {
    seq(|events|, k requires 0 <= k < |events| => Data(first + k, events[k]))
  }

  ghost function TurnFrames(b: Buffer, cursor: int, idle: nat): seq<Frame>
  {
    var (events, total) := Since(b, cursor);
    if events != [] then DataFrames(total - |events| + 1, events)
    else if b.closed then [Done]
    else if (idle + 1) * PollMillis >= KeepaliveMillis then [Keepalive]
    else []
  }

  ghost function TurnIdle(b: Buffer, cursor: int, idle: nat): nat
  {
    if Since(b, cursor).0 != [] then 0
    else if b.closed then idle
    else if (idle + 1) * PollMillis >= KeepaliveMillis then 0 else idle + 1
  }

  class EventSource {
    var cursor: int
    var idlePolls: nat

    constructor (lastEventId: int)
      ensures cursor == (if lastEventId > 0 then lastEventId else 0) && idlePolls == 0
    {
      cursor := if lastEventId > 0 then lastEventId else 0;
      idlePolls := 0;
    }

    /** The frames of one iteration of the streaming loop; `finished` when the stream returns. */
    method Turn(buffer: JobEventBuffer, job: JobId) returns (frames: seq<Frame>, finished: bool)
      modifies this
      ensures frames == TurnFrames(buffer.At(job), old(cursor), old(idlePolls))
      ensures idlePolls == TurnIdle(buffer.At(job), old(cursor), old(idlePolls))
      ensures cursor == Since(buffer.At(job), old(cursor)).1
      ensures finished <==> Done in frames
    {
      var events, next, closed := buffer.ReadSince(job, cursor);
      cursor := next;
      frames, finished := [], false;
      var first := cursor - |events| + 1;
      for offset := 0 to |events|
        invariant frames == DataFrames(first, events[..offset])
      {
        frames := frames + [Data(first + offset, events[offset])];
      }
      assert events[..|events|] == events;
      if closed && events == [] {
        frames, finished := [Done], true;
        assert Done in frames;
        return;
      }
      if events == [] {
        idlePolls := idlePolls + 1;
        if idlePolls * PollMillis >= KeepaliveMillis {
          idlePolls := 0;
          frames := [Keepalive];
        }
      } else {
        idlePolls := 0;
      }
    }
  }

  // ---------------------------------------------------------------------------------------
  // Publisher, reader and client together
  // ---------------------------------------------------------------------------------------

  /** `sent` are frames yielded but not yet received; the client keeps the id of the last event it
      received and sends it when it reconnects. */
  datatype State = State(
    log: seq<Event>, buffer: Buffer,
    cursor: int, idle: nat, sent: seq<Frame>, live: bool,
    lastId: int, got: seq<Frame>)

  datatype Action = Publish(event: Event) | Close | Poll | Receive | Reconnect

  ghost function Connected(log: seq<Event>, buffer: Buffer, lastId: nat): State
  {
    State(log, buffer, lastId, 0, [], true, lastId, [])
  }

  ghost predicate Enabled(s: State, a: Action)
  {
    match a
    case Poll => s.live && s.sent == []
    case Receive => s.sent != []
    case _ => true
  }

  ghost function Step(cap: int, s: State, a: Action): State
    requires Enabled(s, a)
  {
    match a
    case Publish(e) => s.(log := s.log + [e], buffer := Append(s.buffer, cap, e))
    case Close => s.(buffer := s.buffer.(closed := true))
    case Poll =>
      var frames := TurnFrames(s.buffer, s.cursor, s.idle);
      s.(cursor := Since(s.buffer, s.cursor).1, idle := TurnIdle(s.buffer, s.cursor, s.idle),
         sent := frames, live := Done !in frames)
    case Receive =>
      s.(sent := s.sent[1..], got := s.got + [s.sent[0]],
         lastId := if s.sent[0].Data? then s.sent[0].id else s.lastId)
    case Reconnect =>
      s.(cursor := if s.lastId > 0 then s.lastId else 0, idle := 0, sent := [], live := true)
  }

  ghost predicate Has(frames: seq<Frame>, n: int)
  {
    exists k :: 0 <= k < |frames| && frames[k].Data? && frames[k].id == n
  }

  /** Data frames carry the event whose 1-based ordinal in the log is their id. */
  ghost predicate Ordinal(frames: seq<Frame>, log: seq<Event>)
  {
    forall k | 0 <= k < |frames| && frames[k].Data? ::
      1 <= frames[k].id <= |log| && log[frames[k].id - 1] == frames[k].event
  }

  ghost predicate Ascending(frames: seq<Frame>)
  {
    forall j, k | 0 <= j < k < |frames| && frames[j].Data? && frames[k].Data? :: frames[j].id < frames[k].id
  }

  ghost predicate Below(frames: seq<Frame>, bound: int)
  {
    forall k | 0 <= k < |frames| && frames[k].Data? :: frames[k].id <= bound
  }

  /** No event after the client's first cursor up to `bound` was missed, except trimmed ones. */
  ghost predicate Complete(frames: seq<Frame>, since: int, bound: int, dropped: int)
  {
    forall n | since < n <= bound :: n <= dropped || Has(frames, n)
  }

  ghost predicate Inv(s: State, since: nat)
  {
    && Refines(s.buffer, s.log)
    && s.lastId >= 0 && s.cursor >= 0
    && Ordinal(s.got + s.sent, s.log) && Ascending(s.got + s.sent)
    && Below(s.got, s.lastId) && Below(s.got + s.sent, s.cursor)
    && Complete(s.got, since, s.lastId, s.buffer.dropped)
    && Complete(s.got + s.sent, since, s.cursor, s.buffer.dropped)
  }

  lemma {:induction false} PublishKeepsInv(cap: int, s: State, since: nat, e: Event)
    requires cap >= 0 && Inv(s, since)
    ensures Inv(Step(cap, s, Publish(e)), since)
  {
    AppendRefines(s.buffer, s.log, cap, e);
  }

  lemma SuffixFrames(log: seq<Event>, start: nat)
    requires start <= |log|
    ensures var frames := DataFrames(start + 1, log[start..]);
            && Ordinal(frames, log) && Ascending(frames) && Above(frames, start)
            && forall n | start < n <= |log| :: Has(frames, n)
  {
    var frames := DataFrames(start + 1, log[start..]);
    forall n | start < n <= |log| ensures Has(frames, n) {
      assert frames[n - start - 1].id == n;
    }
  }

  ghost predicate Above(frames: seq<Frame>, bound: int)
  {
    forall k | 0 <= k < |frames| && frames[k].Data? :: frames[k].id > bound
  }

  ghost function FirstUnread(b: Buffer, cursor: nat): int
  {
    if cursor > b.dropped then cursor else b.dropped
  }

  lemma TurnReadsLog(b: Buffer, log: seq<Event>, cursor: nat, idle: nat)
    requires Refines(b, log)
    ensures FirstUnread(b, cursor) < |log| ==>
              TurnFrames(b, cursor, idle) == DataFrames(FirstUnread(b, cursor) + 1, log[FirstUnread(b, cursor)..])
    ensures FirstUnread(b, cursor) >= |log| ==> forall f | f in TurnFrames(b, cursor, idle) :: !f.Data?
  {
    SinceReadsLog(b, log, cursor);
    var start := FirstUnread(b, cursor);
    if start < |log| {
      assert |Since(b, cursor).0| == |log| - start;
    }
  }

  lemma PollFrames(b: Buffer, log: seq<Event>, cursor: nat, idle: nat)
    requires Refines(b, log)
    ensures var frames := TurnFrames(b, cursor, idle);
            && Ordinal(frames, log) && Ascending(frames) && Above(frames, cursor)
            && Complete(frames, cursor, |log|, b.dropped)
  {
    TurnReadsLog(b, log, cursor, idle);
    var frames, start := TurnFrames(b, cursor, idle), FirstUnread(b, cursor);
    if start < |log| {
      SuffixFrames(log, start);
      ServedFrom(frames, b, |log|, cursor);
    } else {
      NoDataFrames(frames, log, cursor, b.dropped);
    }
  }

  lemma ServedFrom(frames: seq<Frame>, b: Buffer, bound: nat, cursor: nat)
    requires Above(frames, FirstUnread(b, cursor))
    requires forall n | FirstUnread(b, cursor) < n <= bound :: Has(frames, n)
    ensures Above(frames, cursor) && Complete(frames, cursor, bound, b.dropped)
  {
  }

  lemma NoDataFrames(frames: seq<Frame>, log: seq<Event>, cursor: nat, dropped: int)
    requires forall f | f in frames :: !f.Data?
    requires cursor >= |log| || dropped >= |log|
    ensures Ordinal(frames, log) && Ascending(frames) && Above(frames, cursor)
    ensures Complete(frames, cursor, |log|, dropped)
  {
    assert forall k | 0 <= k < |frames| :: frames[k] in frames;
  }

  lemma HasJoin(a: seq<Frame>, b: seq<Frame>, n: int)
    ensures Has(a + b, n) <==> Has(a, n) || Has(b, n)
  {
    if Has(a, n) {
      var k :| 0 <= k < |a| && a[k].Data? && a[k].id == n;
      assert (a + b)[k] == a[k];
    }
    if Has(b, n) {
      var k :| 0 <= k < |b| && b[k].Data? && b[k].id == n;
      assert (a + b)[|a| + k] == b[k];
    }
  }

  /** Frames beyond the cursor extend what was served up to the cursor. */
  lemma JoinFrames(got: seq<Frame>, more: seq<Frame>, log: seq<Event>, cursor: int, since: int, dropped: int)
    requires Ordinal(got, log) && Ascending(got) && Below(got, cursor)
    requires Ordinal(more, log) && Ascending(more) && Above(more, cursor)
    requires Complete(got, since, cursor, dropped) && Complete(more, cursor, |log|, dropped)
    ensures Ordinal(got + more, log) && Ascending(got + more) && Below(got + more, |log|)
    ensures Complete(got + more, since, |log|, dropped)
  {
    forall n | since < n <= |log| && n > dropped ensures Has(got + more, n) {
      HasJoin(got, more, n);
    }
  }

  lemma PollKeepsInv(cap: int, s: State, since: nat)
    requires Inv(s, since) && Enabled(s, Poll)
    ensures Inv(Step(cap, s, Poll), since)
  {
    var frames := TurnFrames(s.buffer, s.cursor, s.idle);
    PollFrames(s.buffer, s.log, s.cursor, s.idle);
    SinceReadsLog(s.buffer, s.log, s.cursor);
    assert s.got + s.sent == s.got;
    JoinFrames(s.got, frames, s.log, s.cursor, since, s.buffer.dropped);
  }

  lemma ReceiveKeepsInv(cap: int, s: State, since: nat)
    requires Inv(s, since) && Enabled(s, Receive)
    ensures Inv(Step(cap, s, Receive), since)
  {
    var t, f, all := Step(cap, s, Receive), s.sent[0], s.got + s.sent;
    assert t.got + t.sent == all;
    assert forall k | 0 <= k < |t.got| :: t.got[k] == all[k];
    if f.Data? {
      assert all[|s.got|] == f;
      forall n | since < n <= t.lastId && n > s.buffer.dropped ensures Has(t.got, n) {
        assert Has(all, n);
        var k :| 0 <= k < |all| && all[k].Data? && all[k].id == n;
        assert t.got[k] == all[k];
      }
    } else {
      forall n | since < n <= t.lastId && n > s.buffer.dropped ensures Has(t.got, n) {
        HasJoin(s.got, [f], n);
      }
    }
  }

  lemma ReconnectKeepsInv(cap: int, s: State, since: nat)
    requires Inv(s, since)
    ensures Inv(Step(cap, s, Reconnect), since)
  {
    var t := Step(cap, s, Reconnect);
    assert t.got + t.sent == s.got;
    forall k | 0 <= k < |s.got| ensures s.got[k] == (s.got + s.sent)[k] {
    }
  }

  lemma StepKeepsInv(cap: int, s: State, since: nat, a: Action)
    requires cap >= 0 && Inv(s, since) && Enabled(s, a)
    ensures Inv(Step(cap, s, a), since)
  {
    match a
    case Publish(e) => PublishKeepsInv(cap, s, since, e);
    case Close =>
    case Poll => PollKeepsInv(cap, s, since);
    case Receive => ReceiveKeepsInv(cap, s, since);
    case Reconnect => ReconnectKeepsInv(cap, s, since);
  }

  ghost predicate ValidRun(cap: int, s: State, acts: seq<Action>)
    decreases acts
  {
    acts == [] || (Enabled(s, acts[0]) && ValidRun(cap, Step(cap, s, acts[0]), acts[1..]))
  }

  ghost function Run(cap: int, s: State, acts: seq<Action>): State
    requires ValidRun(cap, s, acts)
    decreases acts
  {
    if acts == [] then s else Run(cap, Step(cap, s, acts[0]), acts[1..])
  }

  lemma {:induction false} RunKeepsInv(cap: int, s: State, since: nat, acts: seq<Action>)
    requires cap >= 0 && Inv(s, since) && ValidRun(cap, s, acts)
    ensures Inv(Run(cap, s, acts), since)
    decreases acts
  {
    if acts != [] {
      StepKeepsInv(cap, s, since, acts[0]);
      RunKeepsInv(cap, Step(cap, s, acts[0]), since, acts[1..]);
    }
  }

  /** Whatever is published, trimmed, read, lost and re-requested in between, a client that connects
      with any `Last-Event-ID` sees every event at most once, in order, under its ordinal in the log,
      and between that id and the last one it saw misses only trimmed ones. */
  lemma ClientSeesLog(cap: int, log: seq<Event>, buffer: Buffer, lastId: nat, acts: seq<Action>)
    requires cap >= 0 && Refines(buffer, log) && ValidRun(cap, Connected(log, buffer, lastId), acts)
    ensures var s := Run(cap, Connected(log, buffer, lastId), acts);
            && Refines(s.buffer, s.log)
            && Ordinal(s.got, s.log) && Ascending(s.got)
            && Complete(s.got, lastId, s.lastId, s.buffer.dropped)
  {
    RunKeepsInv(cap, Connected(log, buffer, lastId), lastId, acts);
    ReceivedInOrder(Run(cap, Connected(log, buffer, lastId), acts), lastId);
  }

  lemma ReceivedInOrder(s: State, since: nat)
    requires Inv(s, since)
    ensures Ordinal(s.got, s.log) && Ascending(s.got)
  {
    assert forall k | 0 <= k < |s.got| :: s.got[k] == (s.got + s.sent)[k];
  }

  // ---------------------------------------------------------------------------------------
  // Clients whose last id the log has not reached
  // ---------------------------------------------------------------------------------------

  /** The client has received a later event than `n`, and not `n`, which is still retained. */
  ghost predicate Missed(s: State, n: int)
  {
    s.buffer.dropped < n <= |s.log| && !Has(s.got, n) && exists m | n < m :: Has(s.got, m)
  }

  /** However it goes on, the client misses no retained event published after it connected. */
  ghost predicate NeverMisses(cap: int, log: seq<Event>, buffer: Buffer, lastId: nat)
  {
    forall acts, n | ValidRun(cap, Connected(log, buffer, lastId), acts) && |log| < n ::
      !Missed(Run(cap, Connected(log, buffer, lastId), acts), n)
  }

  /** Nothing the log has since the client connected is left out. */
  lemma ReachedMissesNothing(cap: int, log: seq<Event>, buffer: Buffer, lastId: nat, acts: seq<Action>, n: int)
    requires cap >= 0 && Refines(buffer, log) && ValidRun(cap, Connected(log, buffer, lastId), acts)
    requires lastId <= |log| < n
    ensures !Missed(Run(cap, Connected(log, buffer, lastId), acts), n)
  {
    var s := Run(cap, Connected(log, buffer, lastId), acts);
    RunKeepsInv(cap, Connected(log, buffer, lastId), lastId, acts);
    forall m | n < m && Has(s.got, m) ensures m <= s.lastId {
      var k :| 0 <= k < |s.got| && s.got[k].Data? && s.got[k].id == m;
    }
  }

  /** A buffer for at most one event retains no event but the last, once one has been published. */
  ghost predicate LastOnly(s: State, published: nat) { |s.log| > published ==> s.buffer.dropped >= |s.log| - 1 }

  lemma StepKeepsLastOnly(cap: int, s: State, a: Action, published: nat)
    requires 0 <= cap <= 1 && Enabled(s, a) && Refines(s.buffer, s.log) && LastOnly(s, published)
    ensures LastOnly(Step(cap, s, a), published)
  {
  }

  lemma {:induction false} RunKeepsLastOnly(cap: int, s: State, since: nat, acts: seq<Action>, published: nat)
    requires 0 <= cap <= 1 && Inv(s, since) && ValidRun(cap, s, acts) && LastOnly(s, published)
    ensures LastOnly(Run(cap, s, acts), published)
    decreases acts
  {
    if acts != [] {
      StepKeepsInv(cap, s, since, acts[0]);
      StepKeepsLastOnly(cap, s, acts[0], published);
      RunKeepsLastOnly(cap, Step(cap, s, acts[0]), since, acts[1..], published);
    }
  }

  lemma TinyMissesNothing(cap: int, log: seq<Event>, buffer: Buffer, lastId: nat, acts: seq<Action>, n: int)
    requires 0 <= cap <= 1 && Refines(buffer, log) && ValidRun(cap, Connected(log, buffer, lastId), acts) && |log| < n
    ensures !Missed(Run(cap, Connected(log, buffer, lastId), acts), n)
  {
    var s := Run(cap, Connected(log, buffer, lastId), acts);
    RunKeepsInv(cap, Connected(log, buffer, lastId), lastId, acts);
    RunKeepsLastOnly(cap, Connected(log, buffer, lastId), lastId, acts, |log|);
    ReceivedInOrder(s, lastId);
    forall m | n < m ensures !Has(s.got, m) || n <= s.buffer.dropped {
      if Has(s.got, m) {
        var k :| 0 <= k < |s.got| && s.got[k].Data? && s.got[k].id == m;
        assert m <= |s.log|;
      }
    }
  }

  /** A client waiting, with nothing on the way, for a log that has not passed its last id. */
  ghost predicate Ahead(s: State, lastId: int)
  {
    && Refines(s.buffer, s.log) && s.live && s.sent == [] && s.got == []
    && s.cursor == s.lastId == lastId && |s.log| <= lastId && s.buffer.dropped < lastId
  }

  /** Events are published past the client's last id before its first poll: it is sent only what
      comes after that id. */
  lemma {:induction false} Overtaken(cap: int, s: State, lastId: nat, e: Event) returns (acts: seq<Action>)
    requires cap >= 2 && Ahead(s, lastId)
    ensures ValidRun(cap, s, acts) && Missed(Run(cap, s, acts), lastId)
    decreases lastId - |s.log|
  {
    var s' := Step(cap, s, Publish(e));
    AppendRefines(s.buffer, s.log, cap, e);
    if |s.log| < lastId {
      acts := Overtaken(cap, s', lastId, e);
    } else {
      acts := PollPast(cap, s', lastId);
    }
    assert ([Publish(e)] + acts)[1..] == acts;
    acts := [Publish(e)] + acts;
  }

  /** The poll and the receipt of the event after the client's last id. */
  lemma PollPast(cap: int, s: State, lastId: nat) returns (acts: seq<Action>)
    requires Refines(s.buffer, s.log) && s.live && s.sent == [] && s.got == []
    requires s.cursor == lastId && |s.log| == lastId + 1 && s.buffer.dropped < lastId
    ensures ValidRun(cap, s, acts) && Missed(Run(cap, s, acts), lastId)
  {
    var m := Step(cap, s, Poll);
    TurnReadsLog(s.buffer, s.log, lastId, s.idle);
    assert m.sent == DataFrames(lastId + 1, s.log[lastId..]) && |m.sent| == 1;
    var t := Step(cap, m, Receive);
    assert t.got == [] + [m.sent[0]] && t.got[0].Data? && t.got[0].id == lastId + 1;
    assert Has(t.got, lastId + 1);
    acts := [Poll, Receive];
    assert acts[1..] == [Receive] && acts[1..][1..] == [];
    assert Run(cap, s, acts) == t;
  }

  /** A client that connects misses no retained event published afterwards if and only if the log has
      reached its `Last-Event-ID` - or the buffer holds one event at most, so that nothing older than
      the last event is ever retained. */
  lemma NeverMissesIff(cap: int, log: seq<Event>, buffer: Buffer, lastId: nat, e: Event)
    requires cap >= 0 && Refines(buffer, log)
    ensures NeverMisses(cap, log, buffer, lastId) <==> lastId <= |log| || cap <= 1
  {
    if lastId <= |log| || cap <= 1 {
      forall acts, n | ValidRun(cap, Connected(log, buffer, lastId), acts) && |log| < n
        ensures !Missed(Run(cap, Connected(log, buffer, lastId), acts), n)
      {
        if lastId <= |log| {
          ReachedMissesNothing(cap, log, buffer, lastId, acts, n);
        } else {
          TinyMissesNothing(cap, log, buffer, lastId, acts, n);
        }
      }
    } else {
      var acts := Overtaken(cap, Connected(log, buffer, lastId), lastId, e);
    }
  }

  // ---------------------------------------------------------------------------------------
  // What the stream says
  // ---------------------------------------------------------------------------------------

  /** "done" is sent exactly when the job is closed and nothing retained is unread; the client has
      then received every event since it connected that was not trimmed. */
  lemma DoneMeansComplete(cap: int, s: State, since: nat)
    requires Inv(s, since) && Enabled(s, Poll)
    ensures Done in Step(cap, s, Poll).sent <==>
              s.buffer.closed && (s.cursor >= |s.log| || s.buffer.dropped == |s.log|)
    ensures Done in Step(cap, s, Poll).sent ==> Complete(s.got, since, |s.log|, s.buffer.dropped)
  {
    SinceReadsLog(s.buffer, s.log, s.cursor);
    assert s.got + s.sent == s.got;
    var t := Step(cap, s, Poll);
    if Since(s.buffer, s.cursor).0 == [] && s.buffer.closed {
      assert t.sent[0] == Done;
    }
  }

  lemma {:induction false} ReceivesAll(cap: int, s: State, since: nat) returns (acts: seq<Action>)
    requires cap >= 0 && Inv(s, since)
    ensures ValidRun(cap, s, acts) && Run(cap, s, acts) == s.(sent := [], got := s.got + s.sent, lastId := Run(cap, s, acts).lastId)
    ensures Inv(Run(cap, s, acts), since)
    decreases |s.sent|
  {
    acts := [];
    if s.sent != [] {
      var t := Step(cap, s, Receive);
      StepKeepsInv(cap, s, since, Receive);
      var rest := ReceivesAll(cap, t, since);
      acts := [Receive] + rest;
      assert acts[1..] == rest && t.got + t.sent == s.got + s.sent;
    } else {
      assert s.got + s.sent == s.got;
    }
  }

  lemma {:induction false} RunsOn(cap: int, s: State, a: seq<Action>, b: seq<Action>)
    requires ValidRun(cap, s, a) && ValidRun(cap, Run(cap, s, a), b)
    ensures ValidRun(cap, s, a + b) && Run(cap, s, a + b) == Run(cap, Run(cap, s, a), b)
    decreases |a|
  {
    if a == [] {
      assert a + b == b;
    } else {
      RunsOn(cap, Step(cap, s, a[0]), a[1..], b);
      assert (a + b)[1..] == a[1..] + b;
    }
  }

  lemma RunOne(cap: int, s: State, a: Action)
    requires Enabled(s, a)
    ensures ValidRun(cap, s, [a]) && Run(cap, s, [a]) == Step(cap, s, a)
  {
    assert [a][1..] == [];
  }

  /** Closing the job ends the stream: two polls later at most, with everything received in between,
      "done" is sent, and all that was not trimmed has been received. */
  lemma CloseEndsStream(cap: int, s: State, since: nat) returns (acts: seq<Action>)
    requires cap >= 0 && Inv(s, since) && s.live && s.sent == []
    ensures acts != [] && acts[0] == Close && ValidRun(cap, s, acts) && Done in Run(cap, s, acts).sent
    ensures Complete(Run(cap, s, acts).got, since, |s.log|, s.buffer.dropped)
  {
    var c := Step(cap, s, Close);
    StepKeepsInv(cap, s, since, Close);
    RunOne(cap, s, Close);
    if c.cursor >= |c.log| || c.buffer.dropped == |c.log| {
      DoneMeansComplete(cap, c, since);
      acts := [Close] + [Poll];
      RunOne(cap, c, Poll);
      RunsOn(cap, s, [Close], [Poll]);
    } else {
      var p := Step(cap, c, Poll);
      StepKeepsInv(cap, c, since, Poll);
      SinceReadsLog(c.buffer, c.log, c.cursor);
      TurnReadsLog(c.buffer, c.log, c.cursor, c.idle);
      var middle := ReceivesAll(cap, p, since);
      var r := Run(cap, p, middle);
      DoneMeansComplete(cap, r, since);
      RunOne(cap, c, Poll);
      RunOne(cap, r, Poll);
      RunsOn(cap, p, middle, [Poll]);
      RunsOn(cap, c, [Poll], middle + [Poll]);
      RunsOn(cap, s, [Close], [Poll] + (middle + [Poll]));
      acts := [Close] + ([Poll] + (middle + [Poll]));
    }
  }

  /** Once "done" has been sent the stream polls no more, unless the client reconnects. */
  lemma {:induction false} NoPollAfterDone(cap: int, s: State, acts: seq<Action>)
    requires Enabled(s, Poll) && Done in Step(cap, s, Poll).sent && ValidRun(cap, Step(cap, s, Poll), acts)
    requires Reconnect !in acts
    ensures Poll !in acts
  {
    OverForGood(cap, Step(cap, s, Poll), acts);
  }

  lemma {:induction false} OverForGood(cap: int, s: State, acts: seq<Action>)
    requires !s.live && ValidRun(cap, s, acts) && Reconnect !in acts
    ensures Poll !in acts
    decreases |acts|
  {
    if acts != [] {
      assert acts[0] in acts && acts == [acts[0]] + acts[1..];
      OverForGood(cap, Step(cap, s, acts[0]), acts[1..]);
    }
  }

  /** A cursor beyond the log is corrected by one read, which delivers nothing. */
  lemma OversizedCursorCorrects(cap: int, s: State, since: nat)
    requires Inv(s, since) && Enabled(s, Poll) && s.cursor > |s.log|
    ensures Step(cap, s, Poll).cursor == |s.log|
    ensures forall f | f in Step(cap, s, Poll).sent :: !f.Data?
  {
    SinceReadsLog(s.buffer, s.log, s.cursor);
  }

  ghost function Polls(k: nat): seq<Action> { seq(k, _ => Poll) }

  /** An open stream on which there is nothing to read. */
  ghost predicate Quiet(s: State) { s.live && s.sent == [] && !s.buffer.closed && Since(s.buffer, s.cursor).0 == [] }

  lemma {:induction false} QuietRun(cap: int, s: State, k: nat)
    requires Quiet(s) && s.idle + k < 60
    ensures ValidRun(cap, s, Polls(k)) && Quiet(Run(cap, s, Polls(k)))
    ensures Run(cap, s, Polls(k)).idle == s.idle + k && Run(cap, s, Polls(k)).got == s.got
    decreases k
  {
    if k > 0 {
      var t := Step(cap, s, Poll);
      assert Quiet(t);
      QuietRun(cap, t, k - 1);
      assert Polls(k)[1..] == Polls(k - 1);
    }
  }

  /** After a reconnect to a quiet stream fifteen seconds pass before the first keepalive: fifty-nine
      polls send nothing and the sixtieth sends it. */
  lemma QuietAfterReconnect(cap: int, s: State, since: nat, k: nat)
    requires Inv(s, since) && !s.buffer.closed && s.lastId >= |s.log| && k < 60
    ensures ValidRun(cap, Step(cap, s, Reconnect), Polls(k))
    ensures var r := Run(cap, Step(cap, s, Reconnect), Polls(k));
            && Enabled(r, Poll) && r.got == s.got && r.sent == []
            && (Keepalive in Step(cap, r, Poll).sent <==> k == 59)
  {
    SinceReadsLog(s.buffer, s.log, s.lastId);
    QuietRun(cap, Step(cap, s, Reconnect), k);
  }

  /** The idle count and the number of keepalives after `n` polls of an unchanging buffer. */
  ghost function QuietPolls(b: Buffer, cursor: int, n: nat): (nat, nat)
  {
    if n == 0 then (0, 0)
    else
      var (idle, sent) := QuietPolls(b, cursor, n - 1);
      (TurnIdle(b, cursor, idle), sent + if Keepalive in TurnFrames(b, cursor, idle) then 1 else 0)
  }

  /** A poll that finds something to read starts the count anew. */
  lemma DataRestartsCount(b: Buffer, log: seq<Event>, cursor: nat, idle: nat)
    requires Refines(b, log) && cursor < |log| && b.dropped < |log|
    ensures TurnIdle(b, cursor, idle) == 0 && Keepalive !in TurnFrames(b, cursor, idle)
  {
    SinceReadsLog(b, log, cursor);
    TurnReadsLog(b, log, cursor, idle);
  }

  /** An open stream with nothing to read sends one keepalive every sixty polls, that is every
      fifteen seconds, and nothing else. */
  lemma {:induction false} KeepaliveEverySixtyPolls(b: Buffer, cursor: int, n: nat)
    requires Since(b, cursor).0 == [] && !b.closed
    ensures QuietPolls(b, cursor, n) == (n % 60, n / 60)
    ensures forall idle: nat :: TurnFrames(b, cursor, idle) == [] || TurnFrames(b, cursor, idle) == [Keepalive]
  {
    if n > 0 {
      KeepaliveEverySixtyPolls(b, cursor, n - 1);
      var idle := (n - 1) % 60;
      if idle == 59 {
        assert n % 60 == 0 && n / 60 == (n - 1) / 60 + 1;
        assert Keepalive in TurnFrames(b, cursor, idle);
      } else {
        assert n % 60 == idle + 1 && n / 60 == (n - 1) / 60;
        assert TurnFrames(b, cursor, idle) == [];
      }
    }
  }
}
