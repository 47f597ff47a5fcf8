/** The fail-open audit session: one transaction per recorded event, none after the first failure. */
module AuditSession {
  type Statement(==,!new)

  /** What the database does to one transaction.  A commit that raises may still have been applied. */
  datatype Fault = NoFault | AtStatement(index: nat) | AtCommit(applied: bool)

  /** One attempt to write: the guard's answer, the statements, and what goes wrong. */
  datatype Attempt = Attempt(operation: string, permitted: bool, statements: seq<Statement>, fault: Fault, rollsBack: bool)

  datatype Effect =
    | GuardPassed
    | Committed(statements: seq<Statement>)
    | Reported(operation: string)
    | ConnectionClosed

  /** `staged` is what the open transaction holds; `effects` what the outside has seen. */
  datatype Session = Session(broken: bool, closed: bool, reported: bool, staged: seq<Statement>, effects: seq<Effect>)

  const Opened: Session := Session(false, false, false, [], [])

  const Denied := "gate_b_admission_denied"

  function Closed(s: Session): Session
  {
    if s.closed then s else s.(closed := true, staged := [], effects := s.effects + [ConnectionClosed])
  }

  function Failed(s: Session, operation: string, rollsBack: bool): Session
  {
    if s.broken then s
    else
      var t := s.(broken := true, staged := if rollsBack then [] else s.staged);
      Closed(if t.reported then t else t.(reported := true, effects := t.effects + [Reported(operation)]))
  }

  /** How many statements run before the fault. */
  function Executed(a: Attempt): nat
  {
    if a.fault.AtStatement? && a.fault.index < |a.statements| then a.fault.index else |a.statements|
  }

  /** Does every statement and the commit go through? */
  predicate GoesThrough(a: Attempt)
  {
    a.permitted && !a.fault.AtCommit? && Executed(a) == |a.statements|
  }

  /** Do the attempt's statements end up in the database? */
  predicate Lands(a: Attempt)
  {
    a.permitted && Executed(a) == |a.statements| && (a.fault.AtCommit? ==> a.fault.applied)
  }

  ghost function Transacted(s: Session, a: Attempt): Session
  {
    if s.broken || s.closed then s
    else if !a.permitted then Failed(s, Denied, a.rollsBack)
    else
      var r := s.(staged := s.staged + a.statements[..Executed(a)], effects := s.effects + [GuardPassed]);
      if Executed(a) < |a.statements| then Failed(r, a.operation, a.rollsBack)
      else
        var c := if Lands(a) then r.(staged := [], effects := r.effects + [Committed(r.staged)]) else r;
        if a.fault.AtCommit? then Failed(c, a.operation, a.rollsBack) else c
  }

  class PostgresAuditSession {
    var broken: bool
    var closed: bool
    var reported: bool
    var staged: seq<Statement>
    var effects: seq<Effect>

    ghost function View(): Session
      reads this
    {
      Session(broken, closed, reported, staged, effects)
    }

    constructor ()
      ensures View() == Opened
    {
      broken, closed, reported, staged, effects := false, false, false, [], [];
    }

    method Close()
      modifies this
      ensures View() == Closed(old(View()))
    {
      if closed { return; }
      closed := true;
      staged := [];
      effects := effects + [ConnectionClosed];
    }

    method HandleFailure(operation: string, rollsBack: bool)
      modifies this
      ensures View() == Failed(old(View()), operation, rollsBack)
    {
      if broken { return; }
      broken := true;
      if rollsBack { staged := []; }
      if !reported {
        reported := true;
        effects := effects + [Reported(operation)];
      }
      Close();
    }

    /** Runs statements until one raises. */
    method Execute(a: Attempt) returns (ok: bool)
      modifies this`staged
      ensures staged == old(staged) + a.statements[..Executed(a)]
      ensures ok == (Executed(a) == |a.statements|)
    {
      var i := 0;
      while i < |a.statements| && !(a.fault.AtStatement? && a.fault.index == i)
        invariant 0 <= i <= Executed(a)
        invariant staged == old(staged) + a.statements[..i]
      {
        staged := staged + [a.statements[i]];
        i := i + 1;
      }
      ok := i == |a.statements|;
    }

    method Transaction(a: Attempt) returns (ok: bool)
      modifies this
      ensures View() == Transacted(old(View()), a)
      ensures ok == (!old(broken) && !old(closed) && GoesThrough(a))
    {
      if broken || closed { return false; }
      if !a.permitted {
        HandleFailure(Denied, a.rollsBack);
        return false;
      }
      effects := effects + [GuardPassed];
      ok := Execute(a);
      if !ok {
        HandleFailure(a.operation, a.rollsBack);
        return;
      }
      if !a.fault.AtCommit? || a.fault.applied {
        effects := effects + [Committed(staged)];
        staged := [];
      }
      if a.fault.AtCommit? {
        HandleFailure(a.operation, a.rollsBack);
        ok := false;
      }
    }

    method RecordFinalization(a: Attempt)
      modifies this
      ensures View() == Closed(Transacted(old(View()), a))
    {
      var _ := Transaction(a);
      Close();
    }
  }

  // ---------------------------------------------------------------------------------------
  // Every sequence of calls
  // ---------------------------------------------------------------------------------------

  datatype Call = Record(attempt: Attempt) | Finalize(attempt: Attempt) | CloseCall

  ghost function Applied(s: Session, c: Call): Session
  {
    match c
    case Record(a) => Transacted(s, a)
    case Finalize(a) => Closed(Transacted(s, a))
    case CloseCall => Closed(s)
  }

  ghost function After(s: Session, calls: seq<Call>): Session
    decreases calls
  {
    if calls == [] then s else After(Applied(s, calls[0]), calls[1..])
  }

  /** The calls up to and including the first that fails, finalizes or closes. */
  ghost function Live(calls: seq<Call>): seq<Call>
  {
    if calls == [] then []
    else if calls[0].Record? && GoesThrough(calls[0].attempt) then [calls[0]] + Live(calls[1..])
    else [calls[0]]
  }

  /** What one call on a live session shows to the outside. */
  ghost function Shown(c: Call): seq<Effect>
  {
    match c
    case CloseCall => [ConnectionClosed]
    case Record(a) => Written(a) + if GoesThrough(a) then [] else [Reported(Cause(a)), ConnectionClosed]
    case Finalize(a) => Written(a) + (if GoesThrough(a) then [] else [Reported(Cause(a))]) + [ConnectionClosed]
  }

  ghost function Written(a: Attempt): seq<Effect>
  {
    if !a.permitted then [] else [GuardPassed] + if Lands(a) then [Committed(a.statements)] else []
  }

  ghost function Cause(a: Attempt): string { if a.permitted then a.operation else Denied }

  ghost function ShownAll(calls: seq<Call>): seq<Effect>
  {
    if calls == [] then [] else Shown(calls[0]) + ShownAll(calls[1..])
  }

  lemma {:induction false} ClosedForGood(s: Session, calls: seq<Call>)
    requires s.closed
    ensures After(s, calls) == s
  {
    if calls != [] { ClosedForGood(s, calls[1..]); }
  }

  ghost predicate LiveSession(s: Session) { !s.broken && !s.closed && !s.reported && s.staged == [] }

  lemma OneCall(s: Session, c: Call)
    requires LiveSession(s)
    ensures Applied(s, c).effects == s.effects + Shown(c)
    ensures if c.Record? && GoesThrough(c.attempt) then LiveSession(Applied(s, c)) else Applied(s, c).closed
  {
    if !c.CloseCall? {
      var a := c.attempt;
      assert s.staged + a.statements[..|a.statements|] == a.statements;
    }
  }

  /** One recording on a live session, case by case: a denied one reports the denial, one that a
      statement stops commits nothing and reports its operation, one whose commit raises reports it
      whether or not the commit was applied; each of these closes the session.  Any other is committed
      whole, and the session lives on. */
  lemma RecordingCases(s: Session, a: Attempt)
    requires LiveSession(s)
    ensures var t := Applied(s, Record(a));
            var stopped := a.fault.AtStatement? && a.fault.index < |a.statements|;
            && t.effects == s.effects +
                 (if !a.permitted then [Reported("gate_b_admission_denied"), ConnectionClosed]
                  else if stopped || a.fault == AtCommit(false) then [GuardPassed, Reported(a.operation), ConnectionClosed]
                  else if a.fault == AtCommit(true) then [GuardPassed, Committed(a.statements), Reported(a.operation), ConnectionClosed]
                  else [GuardPassed, Committed(a.statements)])
            && (LiveSession(t) <==> a.permitted && !stopped && !a.fault.AtCommit?)
            && (LiveSession(t) || t.closed)
  {
    OneCall(s, Record(a));
  }

  /** Everything the outside ever sees is what the calls up to the first failure, finalization or
      close show one by one; later calls show nothing. */
  lemma {:induction false} EffectsExactly(s: Session, calls: seq<Call>)
    requires LiveSession(s)
    ensures After(s, calls).effects == s.effects + ShownAll(Live(calls))
    decreases calls
  {
    if calls != [] {
      var t := Applied(s, calls[0]);
      OneCall(s, calls[0]);
      if calls[0].Record? && GoesThrough(calls[0].attempt) {
        EffectsExactly(t, calls[1..]);
        assert ([calls[0]] + Live(calls[1..]))[1..] == Live(calls[1..]);
      } else {
        ClosedForGood(t, calls[1..]);
        assert [calls[0]][1..] == [];
      }
    }
  }

  // ---------------------------------------------------------------------------------------
  // What follows for the outside
  // ---------------------------------------------------------------------------------------

  /** Every commit comes directly after a positive guard check. */
  ghost predicate Guarded(effects: seq<Effect>)
  {
    forall i | 0 <= i < |effects| && effects[i].Committed? :: i > 0 && effects[i - 1] == GuardPassed
  }

  /** Nothing follows a report except the close, and nothing follows the close. */
  ghost predicate EndsOnce(effects: seq<Effect>)
  {
    && (forall i | 0 <= i < |effects| && effects[i].ConnectionClosed? :: i == |effects| - 1)
    && (forall i | 0 <= i < |effects| && effects[i].Reported? :: i == |effects| - 2)
  }

  /** Every committed transaction holds all the statements of one permitted call. */
  ghost predicate WholeTransactions(effects: seq<Effect>, calls: seq<Call>)
  {
    forall e | e in effects && e.Committed? ::
      exists c :: c in calls && !c.CloseCall? && c.attempt.permitted && c.attempt.statements == e.statements
  }

  lemma ShownShape(c: Call)
    ensures Guarded(Shown(c)) && EndsOnce(Shown(c)) && WholeTransactions(Shown(c), [c])
    ensures c.Record? && GoesThrough(c.attempt) ==> Shown(c) == [GuardPassed, Committed(c.attempt.statements)]
  {
    if !c.CloseCall? && Lands(c.attempt) {
      assert c in [c];
    }
  }

  lemma {:induction false} ShownAllShape(calls: seq<Call>)
    ensures Guarded(ShownAll(Live(calls))) && EndsOnce(ShownAll(Live(calls)))
    ensures WholeTransactions(ShownAll(Live(calls)), calls)
  {
    if calls != [] {
      var c, rest := calls[0], ShownAll(Live(calls[1..]));
      ShownShape(c);
      if c.Record? && GoesThrough(c.attempt) {
        ShownAllShape(calls[1..]);
        assert ([c] + Live(calls[1..]))[1..] == Live(calls[1..]);
        assert ShownAll(Live(calls)) == Shown(c) + rest;
      } else {
        assert [c][1..] == [];
        assert ShownAll(Live(calls)) == Shown(c) + [];
      }
    }
  }

  /** For every call sequence and every pattern of denials and faults: commits are guarded and whole,
      at most one failure is reported, and the connection is closed at most once, last. */
  lemma SessionSafe(calls: seq<Call>)
    ensures var effects := After(Opened, calls).effects;
            Guarded(effects) && EndsOnce(effects) && WholeTransactions(effects, calls)
  {
    EffectsExactly(Opened, calls);
    ShownAllShape(calls);
    assert [] + ShownAll(Live(calls)) == ShownAll(Live(calls));
  }
}
