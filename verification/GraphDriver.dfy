/** The analysis graph, driven by interpreting its edge table and by the straight-line fallback,
    with a checkpoint in front of every node.  The compiled graph accepts updates of its declared
    channels only; the fallback merges whatever a node returns. */
module GraphDriver {
  datatype Node =
    | Supervisor | AmbiguityClassifier | Data | Research | BacktestCode
    | Backtest | Signal | RiskManager | Report | Envelope

  datatype Stage = Interpreting | CodeGeneration | BacktestStage | Debate | Finalizing

  datatype Value = Text(text: string) | Category(category: string) | Opaque(id: int)

  type State = map<string, Value>

  datatype Outcome = Update(update: State) | Raise

  /** What the nodes do, what the two checks in front of the `i`-th node call answer, and the
      channels the graph's state type declares. */
  datatype World = World(
    run: (Node, State) -> Outcome,
    cancelled: nat -> bool,
    expired: nat -> bool,
    channels: set<string>)

  datatype Call = Call(node: Node, input: State)

  datatype Error = Cancelled | PastDeadline | NodeRaised | RouteFault | UndeclaredKey

  datatype Ending = Going | Raised(error: Error)

  /** The state reached, the node calls made so far with the state each received, and the
      exception that ended the run, if one did. */
  datatype Progress = Progress(state: State, calls: seq<Call>, ending: Ending) {
    predicate Over() { ending.Raised? }

    function Raise(e: Error): Progress { this.(ending := Raised(e)) }
  }

  const NoStrategyIntent := "C0_NO_STRATEGY_INTENT"
  const Ready := "ready"

  // ---------------------------------------------------------------------------------------
  // Routing
  // ---------------------------------------------------------------------------------------

  datatype Hop = Goto(next: Node) | End | Fault

  function RouteAfterAmbiguity(s: State): Hop
  {
    if "ambiguity" in s && s["ambiguity"].Category? then
      if s["ambiguity"].category == NoStrategyIntent then Goto(Envelope) else Goto(Data)
    else Fault
  }

  function RouteOnStatus(s: State, ready: Node): Hop
  {
    if "status" !in s then Fault else if s["status"] == Text(Ready) then Goto(ready) else Goto(Envelope)
  }

  /** The edge table of `build_graph`. */
  function Edge(n: Node, s: State): Hop
  {
    match n
    case Supervisor => Goto(AmbiguityClassifier)
    case AmbiguityClassifier => RouteAfterAmbiguity(s)
    case Data => RouteOnStatus(s, Research)
    case Research => RouteOnStatus(s, BacktestCode)
    case BacktestCode => Goto(Backtest)
    case Backtest => Goto(Signal)
    case Signal => Goto(RiskManager)
    case RiskManager => Goto(Report)
    case Report => Goto(Envelope)
    case Envelope => End
  }

  function Rank(n: Node): nat
  {
    match n
    case Supervisor => 0 case AmbiguityClassifier => 1 case Data => 2 case Research => 3
    case BacktestCode => 4 case Backtest => 5 case Signal => 6 case RiskManager => 7
    case Report => 8 case Envelope => 9
  }

  function StageOf(n: Node): Stage
  {
    match n
    case Supervisor | AmbiguityClassifier | Data => Interpreting
    case Research | BacktestCode => CodeGeneration
    case Backtest | Signal => BacktestStage
    case RiskManager | Report => Debate
    case Envelope => Finalizing
  }

  function StageRank(s: Stage): nat
  {
    match s
    case Interpreting => 0 case CodeGeneration => 1 case BacktestStage => 2 case Debate => 3 case Finalizing => 4
  }

  // ---------------------------------------------------------------------------------------
  // Node calls
  // ---------------------------------------------------------------------------------------

  /** An instrumented call: both checks, then the node.  Its update is merged into the state; a
      `strict` driver refuses keys that are not declared channels. */
  function Visit(w: World, strict: bool, p: Progress, n: Node): Progress
    requires !p.Over()
  {
    if w.cancelled(|p.calls|) then p.Raise(Cancelled)
    else if w.expired(|p.calls|) then p.Raise(PastDeadline)
    else
      var q := p.(calls := p.calls + [Call(n, p.state)]);
      match w.run(n, p.state)
      case Raise => q.Raise(NodeRaised)
      case Update(u) =>
        if strict && !(u.Keys <= w.channels) then q.Raise(UndeclaredKey) else q.(state := p.state + u)
  }

  /** As a lenient `Visit`, except that the node's result becomes the state. */
  function VisitReplacing(w: World, p: Progress, n: Node): Progress
    requires !p.Over()
  {
    var q := Visit(w, false, p, n);
    if q.Over() then q else q.(state := w.run(n, p.state).update)
  }

  /** Follows the edges from a node that has just been visited. */
  function Follow(w: World, strict: bool, p: Progress, n: Node): Progress
    decreases 9 - Rank(n)
  {
    if p.Over() then p
    else
      match Edge(n, p.state)
      case Fault => p.Raise(RouteFault)
      case End => p
      case Goto(m) => Follow(w, strict, Visit(w, strict, p, m), m)
  }

  function Begin(s: State): Progress { Progress(s, [], Going) }

  /** The compiled graph. */
  function Drive(w: World, s: State): Progress
  {
    Follow(w, true, Visit(w, true, Begin(s), Supervisor), Supervisor)
  }

  /** The fallback keeps only what the Supervisor returns, then merges every key. */
  function Fallback(w: World, s: State): Progress
  {
    Follow(w, false, VisitReplacing(w, Begin(s), Supervisor), Supervisor)
  }

  lemma FollowStep(w: World, strict: bool, p: Progress, n: Node, m: Node)
    requires !p.Over() && Edge(n, p.state) == Goto(m)
    ensures Follow(w, strict, p, n) == Follow(w, strict, Visit(w, strict, p, m), m)
  {
  }

  lemma FollowOver(w: World, strict: bool, p: Progress, n: Node)
    requires p.Over()
    ensures Follow(w, strict, p, n) == p
  {
  }

  lemma FollowEnd(w: World, strict: bool, p: Progress)
    ensures Follow(w, strict, p, Envelope) == p
  {
  }

  /** One visit of the straight-line code: the run continues exactly as the edge table says. */
  method CallNode(w: World, p: Progress, from: Node, n: Node) returns (q: Progress)
    requires !p.Over() && Edge(from, p.state) == Goto(n)
    ensures q == Visit(w, false, p, n)
    ensures Follow(w, false, p, from) == Follow(w, false, q, n)
    ensures q.Over() || n == Envelope ==> Follow(w, false, p, from) == q
  {
    q := Visit(w, false, p, n);
    FollowStep(w, false, p, from, n);
    if q.Over() {
      FollowOver(w, false, q, n);
    } else if n == Envelope {
      FollowEnd(w, false, q);
    }
  }

  /** `FallbackGraph.invoke`. */
  method Invoke(w: World, s: State) returns (p: Progress)
    ensures p == Fallback(w, s)
  {
    p := VisitReplacing(w, Begin(s), Supervisor);
    if p.Over() { return; }
    p := CallNode(w, p, Supervisor, AmbiguityClassifier);
    if p.Over() { return; }
    var hop := RouteAfterAmbiguity(p.state);
    if hop.Fault? { return p.Raise(RouteFault); }
    if hop == Goto(Envelope) {
      p := CallNode(w, p, AmbiguityClassifier, Envelope);
      return;
    }
    p := CallNode(w, p, AmbiguityClassifier, Data);
    if p.Over() { return; }
    if "status" !in p.state { return p.Raise(RouteFault); }
    if p.state["status"] != Text(Ready) {
      p := CallNode(w, p, Data, Envelope);
      return;
    }
    p := CallNode(w, p, Data, Research);
    if p.Over() { return; }
    if "status" !in p.state { return p.Raise(RouteFault); }
    if p.state["status"] != Text(Ready) {
      p := CallNode(w, p, Research, Envelope);
      return;
    }
    p := RunBacktest(w, p);
  }

  /** The nodes that run one after the other once Research has confirmed the rule. */
  method RunBacktest(w: World, p: Progress) returns (q: Progress)
    requires !p.Over() && Edge(Research, p.state) == Goto(BacktestCode)
    ensures q == Follow(w, false, p, Research)
  {
    q := CallNode(w, p, Research, BacktestCode);
    if q.Over() { return; }
    q := CallNode(w, q, BacktestCode, Backtest);
    if q.Over() { return; }
    q := RunReview(w, q);
  }

  method RunReview(w: World, p: Progress) returns (q: Progress)
    requires !p.Over()
    ensures q == Follow(w, false, p, Backtest)
  {
    q := CallNode(w, p, Backtest, Signal);
    if q.Over() { return; }
    q := CallNode(w, q, Signal, RiskManager);
    if q.Over() { return; }
    q := CallNode(w, q, RiskManager, Report);
    if q.Over() { return; }
    q := CallNode(w, q, Report, Envelope);
  }

  // ---------------------------------------------------------------------------------------
  // The two drivers
  // ---------------------------------------------------------------------------------------

  lemma {:induction false} FollowExtends(w: World, strict: bool, p: Progress, n: Node)
    ensures p.calls <= Follow(w, strict, p, n).calls
    ensures Follow(w, strict, p, n).calls == p.calls ==> Follow(w, strict, p, n).state == p.state
    decreases 9 - Rank(n)
  {
    if !p.Over() && Edge(n, p.state).Goto? {
      var m := Edge(n, p.state).next;
      EdgeClimbs(n, p.state);
      FollowExtends(w, strict, Visit(w, strict, p, m), m);
      assert p.calls <= Visit(w, strict, p, m).calls;
    }
  }

  /** The first call after `p` receives the state of `p`. */
  lemma FollowShowsState(w: World, strict: bool, p: Progress, n: Node)
    ensures var q := Follow(w, strict, p, n);
            || (|q.calls| > |p.calls| && q.calls[|p.calls|].input == p.state)
            || (q.calls == p.calls && q.state == p.state)
  {
    FollowExtends(w, strict, p, n);
    if !p.Over() && Edge(n, p.state).Goto? {
      var m := Edge(n, p.state).next;
      FollowExtends(w, strict, Visit(w, strict, p, m), m);
    }
  }

  /** A lenient driver never refuses an update. */
  lemma {:induction false} LenientAccepts(w: World, p: Progress, n: Node)
    requires p.ending != Raised(UndeclaredKey)
    ensures Follow(w, false, p, n).ending != Raised(UndeclaredKey)
    decreases 9 - Rank(n)
  {
    if !p.Over() && Edge(n, p.state).Goto? {
      var m := Edge(n, p.state).next;
      LenientAccepts(w, Visit(w, false, p, m), m);
    }
  }

  /** The call's update, if it returns one, stays inside the declared channels. */
  ghost predicate Declared(w: World, c: Call)
  {
    w.run(c.node, c.input).Update? ==> w.run(c.node, c.input).update.Keys <= w.channels
  }

  ghost predicate DeclaredFrom(w: World, calls: seq<Call>, i: nat)
  {
    forall k | i <= k < |calls| :: Declared(w, calls[k])
  }

  /** From call `i` on the strict run `g` is the lenient run `f` if that one's updates are all
      declared; otherwise it is ended by the first that is not, right after that call. */
  ghost predicate Agreement(w: World, f: Progress, g: Progress, i: nat)
  {
    if DeclaredFrom(w, f.calls, i) then g == f
    else
      && g.ending == Raised(UndeclaredKey) && i < |g.calls| && g.calls <= f.calls
      && !Declared(w, g.calls[|g.calls| - 1])
      && forall k | i <= k < |g.calls| - 1 :: Declared(w, g.calls[k])
  }

  lemma AgreementBack(w: World, f: Progress, g: Progress, i: nat)
    requires i < |f.calls| && Declared(w, f.calls[i]) && Agreement(w, f, g, i + 1)
    ensures Agreement(w, f, g, i)
  {
    assert DeclaredFrom(w, f.calls, i) <==> DeclaredFrom(w, f.calls, i + 1);
  }

  lemma AgreementBreaks(w: World, f: Progress, g: Progress, i: nat)
    requires i < |f.calls| && !Declared(w, f.calls[i])
    requires g.calls <= f.calls && |g.calls| == i + 1 && g.ending == Raised(UndeclaredKey)
    ensures Agreement(w, f, g, i)
  {
    assert !DeclaredFrom(w, f.calls, i);
  }

  /** A node reached from another lies further along. */
  lemma EdgeClimbs(n: Node, s: State)
    requires Edge(n, s).Goto?
    ensures Rank(n) < Rank(Edge(n, s).next) <= 9
  {
  }

  lemma {:induction false} FollowAgrees(w: World, p: Progress, n: Node)
    requires p.ending != Raised(UndeclaredKey)
    ensures Agreement(w, Follow(w, false, p, n), Follow(w, true, p, n), |p.calls|)
    decreases 9 - Rank(n)
  {
    if !p.Over() && Edge(n, p.state).Goto? {
      EdgeClimbs(n, p.state);
      FollowAgreesStep(w, p, n, Edge(n, p.state).next);
    }
  }

  /** The two ways of visiting a node differ only in what an undeclared update does. */
  lemma VisitAgrees(w: World, p: Progress, m: Node)
    requires !p.Over()
    ensures var q, r, c := Visit(w, false, p, m), Visit(w, true, p, m), Call(m, p.state);
            if q.calls == p.calls then q.Over() && r == q
            else q.calls == p.calls + [c] && r == if Declared(w, c) then q else p.(calls := q.calls).Raise(UndeclaredKey)
  {
  }

  lemma {:induction false} FollowAgreesStep(w: World, p: Progress, n: Node, m: Node)
    requires !p.Over() && Edge(n, p.state) == Goto(m) && Rank(n) < Rank(m) <= 9
    ensures Agreement(w, Follow(w, false, p, n), Follow(w, true, p, n), |p.calls|)
    decreases 9 - Rank(n), 0
  {
    var q, r, c := Visit(w, false, p, m), Visit(w, true, p, m), Call(m, p.state);
    var f, g := Follow(w, false, q, m), Follow(w, true, r, m);
    FollowStep(w, false, p, n, m);
    FollowStep(w, true, p, n, m);
    VisitAgrees(w, p, m);
    FollowExtends(w, false, q, m);
    if q.calls == p.calls {
      FollowOver(w, false, q, m);
      FollowOver(w, true, q, m);
    } else {
      assert f.calls[|p.calls|] == c;
      if Declared(w, c) {
        FollowAgrees(w, q, m);
        AgreementBack(w, f, g, |p.calls|);
      } else {
        FollowOver(w, true, r, m);
        AgreementBreaks(w, f, g, |p.calls|);
      }
    }
  }

  /** The Supervisor is not reached, raises, or returns every key it was given. */
  ghost predicate SupervisorKeepsKeys(w: World, s: State)
  {
    || w.cancelled(0) || w.expired(0) || w.run(Supervisor, s).Raise?
    || s.Keys <= w.run(Supervisor, s).update.Keys
  }

  /** A strict run cannot end like a lenient one once a Supervisor has lost a key. */
  lemma LostKeyShows(w: World, s: State)
    requires !SupervisorKeepsKeys(w, s)
    ensures Fallback(w, s) != Drive(w, s)
  {
    var p, q := VisitReplacing(w, Begin(s), Supervisor), Visit(w, true, Begin(s), Supervisor);
    var u := w.run(Supervisor, s).update;
    LenientAccepts(w, p, Supervisor);
    if u.Keys <= w.channels {
      assert (s + u).Keys != u.Keys;
      FollowShowsState(w, false, p, Supervisor);
      FollowShowsState(w, true, q, Supervisor);
    }
  }

  /** From a state of the graph's type both drivers make the same node calls on the same states and
      end alike, if and only if the Supervisor is not reached, raises, or returns every key it was
      given, and no update along the fallback's run leaves the declared channels. */
  lemma DriversAgreeIff(w: World, s: State)
    requires s.Keys <= w.channels
    ensures Fallback(w, s) == Drive(w, s)
       <==> SupervisorKeepsKeys(w, s) && DeclaredFrom(w, Fallback(w, s).calls, 0)
  {
    LenientAccepts(w, VisitReplacing(w, Begin(s), Supervisor), Supervisor);
    if !SupervisorKeepsKeys(w, s) {
      LostKeyShows(w, s);
    } else {
      GraphStopsAtUndeclared(w, s);
    }
  }

  /** With a Supervisor that keeps its keys, the graph makes the fallback's calls up to and
      including the first one whose update is not declared, and there it raises. */
  lemma GraphStopsAtUndeclared(w: World, s: State)
    requires s.Keys <= w.channels && SupervisorKeepsKeys(w, s)
    ensures Agreement(w, Fallback(w, s), Drive(w, s), 0)
  {
    var p := VisitReplacing(w, Begin(s), Supervisor);
    if !p.Over() { assert s + w.run(Supervisor, s).update == w.run(Supervisor, s).update; }
    FollowExtends(w, false, p, Supervisor);
    FollowAgrees(w, p, Supervisor);
    var f := Fallback(w, s);
    if |p.calls| > 0 {
      assert f.calls[0] == Call(Supervisor, s);
      assert DeclaredFrom(w, f.calls, 0) <==> Declared(w, f.calls[0]) && DeclaredFrom(w, f.calls, 1);
    }
  }

  /** The repository's Supervisor returns its input extended by what it prepared; with nodes that
      update declared channels only, the drivers agree on every input. */
  lemma DriversAgree(w: World, s: State, prepared: State)
    requires w.run(Supervisor, s) == Update(s + prepared)
    requires forall n, x :: Declared(w, Call(n, x))
    ensures Fallback(w, s) == Drive(w, s)
  {
    assert Declared(w, Call(Supervisor, s));
    assert s.Keys <= (s + prepared).Keys <= w.channels;
    DriversAgreeIff(w, s);
    assert SupervisorKeepsKeys(w, s);
    forall c: Call ensures Declared(w, c) { assert c == Call(c.node, c.input); }
  }

  /** A Supervisor that keeps its keys and a classifier that returns a key nobody declared: the
      fallback carries on to Envelope, the graph raises. */
  const Stray := World(
    (n, x) => if n == AmbiguityClassifier then Update(map["ambiguity" := Category(NoStrategyIntent), "stray" := Opaque(1)])
              else Update(map[]),
    i => false, i => false, {"ambiguity", "status"})

  lemma StrayFallback(p: Progress)
    requires p == Progress(map[], [Call(Supervisor, map[])], Going)
    ensures Follow(Stray, false, p, Supervisor).ending == Going && |Follow(Stray, false, p, Supervisor).calls| == 3
  {
    var q := Visit(Stray, false, p, AmbiguityClassifier);
    FollowStep(Stray, false, p, Supervisor, AmbiguityClassifier);
    assert Edge(AmbiguityClassifier, q.state) == Goto(Envelope);
    FollowStep(Stray, false, q, AmbiguityClassifier, Envelope);
    FollowEnd(Stray, false, Visit(Stray, false, q, Envelope));
  }

  lemma StrayGraph(p: Progress)
    requires p == Progress(map[], [Call(Supervisor, map[])], Going)
    ensures Follow(Stray, true, p, Supervisor) == p.(calls := p.calls + [Call(AmbiguityClassifier, map[])]).Raise(UndeclaredKey)
  {
    var u := Stray.run(AmbiguityClassifier, map[]).update;
    assert "stray" in u.Keys && "stray" !in Stray.channels;
    FollowStep(Stray, true, p, Supervisor, AmbiguityClassifier);
    FollowOver(Stray, true, Visit(Stray, true, p, AmbiguityClassifier), AmbiguityClassifier);
  }

  lemma StrayKeySplitsDrivers()
    ensures SupervisorKeepsKeys(Stray, map[])
    ensures Fallback(Stray, map[]).ending == Going && |Fallback(Stray, map[]).calls| == 3
    ensures Drive(Stray, map[]).ending == Raised(UndeclaredKey) && |Drive(Stray, map[]).calls| == 2
  {
    var p := Progress(map[], [Call(Supervisor, map[])], Going);
    assert Visit(Stray, true, Begin(map[]), Supervisor) == p;
    assert VisitReplacing(Stray, Begin(map[]), Supervisor) == p;
    StrayFallback(p);
    StrayGraph(p);
  }

  // ---------------------------------------------------------------------------------------
  // Every run
  // ---------------------------------------------------------------------------------------

  /** Nodes are called in graph order, none of them twice. */
  ghost predicate InOrder(calls: seq<Call>)
  {
    forall i, j | 0 <= i < j < |calls| :: Rank(calls[i].node) < Rank(calls[j].node)
  }

  /** No check in front of a call that was made had answered "stop". */
  ghost predicate Permitted(w: World, calls: seq<Call>)
  {
    forall i | 0 <= i < |calls| :: !w.cancelled(i) && !w.expired(i)
  }

  ghost predicate LastIs(calls: seq<Call>, n: Node)
  {
    |calls| > 0 && calls[|calls| - 1].node == n
  }

  ghost predicate WellRun(w: World, q: Progress)
  {
    InOrder(q.calls) && Permitted(w, q.calls) && (!q.Over() ==> LastIs(q.calls, Envelope))
  }

  /** Permitted calls in graph order, none beyond `n`. */
  ghost predicate Path(w: World, calls: seq<Call>, n: Node)
  {
    InOrder(calls) && Permitted(w, calls) && forall i | 0 <= i < |calls| :: Rank(calls[i].node) <= Rank(n)
  }

  lemma PathSnoc(w: World, calls: seq<Call>, n: Node, m: Node, x: State)
    requires Path(w, calls, n) && Rank(n) < Rank(m) && !w.cancelled(|calls|) && !w.expired(|calls|)
    ensures Path(w, calls + [Call(m, x)], m)
  {
  }

  lemma PathUp(w: World, calls: seq<Call>, n: Node, m: Node)
    requires Path(w, calls, n) && Rank(n) < Rank(m)
    ensures Path(w, calls, m)
  {
  }

  /** What a run has kept to once it has visited `n`. */
  ghost predicate RunsTo(w: World, p: Progress, n: Node)
  {
    Path(w, p.calls, n) && (!p.Over() ==> LastIs(p.calls, n))
  }

  lemma VisitRuns(w: World, strict: bool, p: Progress, n: Node, m: Node)
    requires RunsTo(w, p, n) && !p.Over() && Rank(n) < Rank(m)
    ensures RunsTo(w, Visit(w, strict, p, m), m)
  {
    if w.cancelled(|p.calls|) || w.expired(|p.calls|) {
      PathUp(w, p.calls, n, m);
    } else {
      PathSnoc(w, p.calls, n, m, p.state);
      assert Visit(w, strict, p, m).calls == p.calls + [Call(m, p.state)];
    }
  }

  lemma {:induction false} FollowRuns(w: World, strict: bool, p: Progress, n: Node)
    requires RunsTo(w, p, n)
    ensures WellRun(w, Follow(w, strict, p, n))
    decreases 9 - Rank(n)
  {
    if p.Over() || Edge(n, p.state).Fault? {
    } else if Edge(n, p.state).End? {
      assert n == Envelope;
    } else {
      var m := Edge(n, p.state).next;
      EdgeClimbs(n, p.state);
      VisitRuns(w, strict, p, n, m);
      FollowRuns(w, strict, Visit(w, strict, p, m), m);
    }
  }

  lemma FirstRuns(w: World, strict: bool, s: State)
    ensures RunsTo(w, Visit(w, strict, Begin(s), Supervisor), Supervisor)
    ensures RunsTo(w, VisitReplacing(w, Begin(s), Supervisor), Supervisor)
  {
  }

  lemma BothWellRun(w: World, s: State)
    ensures WellRun(w, Drive(w, s)) && WellRun(w, Fallback(w, s))
  {
    FirstRuns(w, true, s);
    FirstRuns(w, false, s);
    FollowRuns(w, true, Visit(w, true, Begin(s), Supervisor), Supervisor);
    FollowRuns(w, false, VisitReplacing(w, Begin(s), Supervisor), Supervisor);
  }

  /** On a run that does not raise, Envelope runs last and exactly once. */
  lemma EnvelopeLastOnce(w: World, q: Progress, i: nat)
    requires WellRun(w, q) && !q.Over() && i < |q.calls|
    ensures q.calls[i].node == Envelope <==> i == |q.calls| - 1
  {
  }

  /** Reported stages never move backwards. */
  lemma StagesMonotone(w: World, q: Progress, i: nat, j: nat)
    requires WellRun(w, q) && i < j < |q.calls|
    ensures StageRank(StageOf(q.calls[i].node)) <= StageRank(StageOf(q.calls[j].node))
  {
    assert Rank(q.calls[i].node) < Rank(q.calls[j].node);
  }

  /** Once a check answers "stop", no further node runs. */
  lemma StoppedForGood(w: World, s: State, i: nat)
    requires w.cancelled(i) || w.expired(i)
    ensures |Drive(w, s).calls| <= i && |Fallback(w, s).calls| <= i
  {
    BothWellRun(w, s);
  }

  // ---------------------------------------------------------------------------------------
  // What the recorded calls say, node by node
  // ---------------------------------------------------------------------------------------

  /** The state after call `i`; the fallback keeps only what the first call returned. */
  ghost function Left(w: World, strict: bool, calls: seq<Call>, i: nat): State
    requires i < |calls| && w.run(calls[i].node, calls[i].input).Update?
  {
    var u := w.run(calls[i].node, calls[i].input).update;
    if i == 0 && !strict then u else calls[i].input + u
  }

  /** The call returned an update, one that the driver accepts. */
  ghost predicate Returned(w: World, strict: bool, c: Call)
  {
    w.run(c.node, c.input).Update? && (strict ==> forall k | k in w.run(c.node, c.input).update :: k in w.channels)
  }

  /** Which node is called after which, on the state it is given. */
  ghost predicate NextIs(a: Call, b: Call)
  {
    match a.node
    case Supervisor => b.node == AmbiguityClassifier
    case AmbiguityClassifier =>
      && "ambiguity" in b.input && b.input["ambiguity"].Category?
      && (b.node == Envelope <==> b.input["ambiguity"] == Category("C0_NO_STRATEGY_INTENT"))
      && (b.node == Data <==> b.input["ambiguity"] != Category("C0_NO_STRATEGY_INTENT"))
    case Data =>
      && "status" in b.input
      && (b.node == Research <==> b.input["status"] == Text("ready"))
      && (b.node == Envelope <==> b.input["status"] != Text("ready"))
    case Research =>
      && "status" in b.input
      && (b.node == BacktestCode <==> b.input["status"] == Text("ready"))
      && (b.node == Envelope <==> b.input["status"] != Text("ready"))
    case BacktestCode => b.node == Backtest
    case Backtest => b.node == Signal
    case Signal => b.node == RiskManager
    case RiskManager => b.node == Report
    case Report => b.node == Envelope
    case Envelope => false
  }

  /** Every call returned, handed its state on, and was followed by the right node. */
  ghost predicate Chain(w: World, strict: bool, calls: seq<Call>)
  {
    forall i | 0 <= i < |calls| - 1 :: Linked(w, strict, calls, i)
  }

  ghost predicate Linked(w: World, strict: bool, calls: seq<Call>, i: nat)
    requires i + 1 < |calls|
  {
    && Returned(w, strict, calls[i]) && calls[i + 1].input == Left(w, strict, calls, i)
    && NextIs(calls[i], calls[i + 1])
  }

  /** A run is ended only by what its error names, the cancellation check first. */
  ghost predicate Explained(w: World, strict: bool, q: Progress)
    requires q.Over()
  {
    match q.ending.error
    case Cancelled => w.cancelled(|q.calls|)
    case PastDeadline => !w.cancelled(|q.calls|) && w.expired(|q.calls|)
    case NodeRaised => |q.calls| > 0 && w.run(q.calls[|q.calls| - 1].node, q.calls[|q.calls| - 1].input).Raise?
    case UndeclaredKey =>
      && strict && |q.calls| > 0 && w.run(q.calls[|q.calls| - 1].node, q.calls[|q.calls| - 1].input).Update?
      && exists k | k in w.run(q.calls[|q.calls| - 1].node, q.calls[|q.calls| - 1].input).update :: k !in w.channels
    case RouteFault =>
      && |q.calls| > 0
      && var n := q.calls[|q.calls| - 1].node;
         if n == AmbiguityClassifier then "ambiguity" !in q.state || !q.state["ambiguity"].Category?
         else (n == Data || n == Research) && "status" !in q.state
  }

  ghost predicate Told(w: World, strict: bool, p: Progress, n: Node)
  {
    && Chain(w, strict, p.calls)
    && if p.Over() then Explained(w, strict, p)
       else LastIs(p.calls, n) && Returned(w, strict, p.calls[|p.calls| - 1]) && p.state == Left(w, strict, p.calls, |p.calls| - 1)
  }

  lemma SnocChain(w: World, strict: bool, calls: seq<Call>, c: Call)
    requires Chain(w, strict, calls) && |calls| > 0 && Returned(w, strict, calls[|calls| - 1])
    requires c.input == Left(w, strict, calls, |calls| - 1) && NextIs(calls[|calls| - 1], c)
    ensures Chain(w, strict, calls + [c])
  {
    var all := calls + [c];
    forall i | 0 <= i < |all| - 1 ensures Linked(w, strict, all, i) {
      if i < |calls| - 1 { assert Linked(w, strict, calls, i); }
    }
  }

  lemma EdgeIsNext(n: Node, s: State, a: Call, b: Call)
    requires a.node == n && b.input == s && Edge(n, s) == Goto(b.node)
    ensures NextIs(a, b)
  {
  }

  lemma VisitTold(w: World, strict: bool, p: Progress, n: Node, m: Node)
    requires Told(w, strict, p, n) && !p.Over() && Edge(n, p.state) == Goto(m)
    ensures Told(w, strict, Visit(w, strict, p, m), m)
  {
    var c := Call(m, p.state);
    EdgeIsNext(n, p.state, p.calls[|p.calls| - 1], c);
    SnocChain(w, strict, p.calls, c);
    var all := p.calls + [c];
    assert all[|all| - 1] == c && |all| > 1;
  }

  lemma {:induction false} FollowTold(w: World, strict: bool, p: Progress, n: Node)
    requires Told(w, strict, p, n)
    ensures Told(w, strict, Follow(w, strict, p, n), Envelope)
    decreases 9 - Rank(n)
  {
    if !p.Over() {
      match Edge(n, p.state)
      case Fault => FaultExplained(w, strict, p, n);
      case End => assert n == Envelope;
      case Goto(m) =>
        EdgeClimbs(n, p.state);
        VisitTold(w, strict, p, n, m);
        FollowTold(w, strict, Visit(w, strict, p, m), m);
    }
  }

  lemma FaultExplained(w: World, strict: bool, p: Progress, n: Node)
    requires Told(w, strict, p, n) && !p.Over() && Edge(n, p.state).Fault?
    ensures Explained(w, strict, p.Raise(RouteFault))
  {
  }

  lemma FirstTold(w: World, s: State)
    ensures Told(w, true, Visit(w, true, Begin(s), Supervisor), Supervisor)
    ensures Told(w, false, VisitReplacing(w, Begin(s), Supervisor), Supervisor)
  {
    assert [] + [Call(Supervisor, s)] == [Call(Supervisor, s)];
  }

  /** In both drivers: the first call is Supervisor's, on the initial state; every call returned,
      handed its state on and is followed by the node that the state asks for; and a run is ended only
      by Envelope or by what its error names. */
  lemma RunsAreRouted(w: World, s: State)
    ensures Told(w, true, Drive(w, s), Envelope) && Told(w, false, Fallback(w, s), Envelope)
    ensures |Drive(w, s).calls| > 0 ==> Drive(w, s).calls[0] == Call(Supervisor, s)
    ensures |Fallback(w, s).calls| > 0 ==> Fallback(w, s).calls[0] == Call(Supervisor, s)
  {
    FirstTold(w, s);
    var p, q := Visit(w, true, Begin(s), Supervisor), VisitReplacing(w, Begin(s), Supervisor);
    FollowTold(w, true, p, Supervisor);
    FollowTold(w, false, q, Supervisor);
    FirstCall(w, true, s, p);
    FirstCall(w, false, s, q);
  }

  lemma FirstCall(w: World, strict: bool, s: State, p: Progress)
    requires p == Visit(w, strict, Begin(s), Supervisor) || p == VisitReplacing(w, Begin(s), Supervisor)
    ensures |Follow(w, strict, p, Supervisor).calls| > 0 ==> Follow(w, strict, p, Supervisor).calls[0] == Call(Supervisor, s)
  {
    assert p.calls == [] || p.calls == [Call(Supervisor, s)];
    if p.calls == [] {
      assert p.Over();
      FollowOver(w, strict, p, Supervisor);
    } else {
      FollowExtends(w, strict, p, Supervisor);
    }
  }

  ghost function NodesOf(calls: seq<Call>): (r: seq<Node>)
    ensures |r| == |calls| && forall i | 0 <= i < |r| :: r[i] == calls[i].node
  {
    seq(|calls|, i requires 0 <= i < |calls| => calls[i].node)
  }

  /** From Supervisor to Envelope, each call followed by the right one. */
  ghost predicate Routed(calls: seq<Call>)
  {
    && |calls| > 0 && calls[0].node == Supervisor
    && forall i {:trigger RoutedAt(calls, i)} | 0 <= i < |calls| :: RoutedAt(calls, i)
  }

  ghost predicate RoutedAt(calls: seq<Call>, i: nat)
    requires i < |calls|
  {
    if i == |calls| - 1 then calls[i].node == Envelope
    else calls[i].node != Envelope && NextIs(calls[i], calls[i + 1])
  }

  lemma ToldIsRouted(w: World, strict: bool, q: Progress)
    requires Told(w, strict, q, Envelope) && !q.Over() && q.calls[0].node == Supervisor
    ensures Routed(q.calls)
  {
    forall i | 0 <= i < |q.calls| ensures RoutedAt(q.calls, i) {
      if i < |q.calls| - 1 { assert Linked(w, strict, q.calls, i); }
    }
  }

  /** A run that does not raise stops after the classifier, after Data or after Research, or else runs
      code, backtest, signal, risk manager and report, each once: that exactly when the request has a
      strategy and the states after Data and after Research are ready. */
  lemma WhatRuns(w: World, strict: bool, s: State, q: Progress)
    requires q == if strict then Drive(w, s) else Fallback(w, s)
    requires !q.Over()
    ensures RunsWhatItShould(q.calls)
  {
    RunsAreRouted(w, s);
    ToldIsRouted(w, strict, q);
    RoutedShape(q.calls);
  }

  ghost predicate RunsWhatItShould(calls: seq<Call>)
  {
    && |calls| >= 3 && "ambiguity" in calls[2].input
    && if calls[2].input["ambiguity"] == Category("C0_NO_STRATEGY_INTENT") then
         NodesOf(calls) == [Supervisor, AmbiguityClassifier, Envelope]
       else
         && |calls| >= 4 && "status" in calls[3].input
         && if calls[3].input["status"] != Text("ready") then
              NodesOf(calls) == [Supervisor, AmbiguityClassifier, Data, Envelope]
            else
              && |calls| >= 5 && "status" in calls[4].input
              && NodesOf(calls) == if calls[4].input["status"] != Text("ready")
                   then [Supervisor, AmbiguityClassifier, Data, Research, Envelope]
                   else [Supervisor, AmbiguityClassifier, Data, Research, BacktestCode, Backtest, Signal, RiskManager, Report, Envelope]
  }

  lemma RoutedShape(calls: seq<Call>)
    requires Routed(calls)
    ensures RunsWhatItShould(calls)
  {
    assert RoutedAt(calls, 0);
    assert RoutedAt(calls, 1);
    if calls[2].node == Envelope {
      assert RoutedAt(calls, 2);
    } else {
      AfterData(calls);
    }
  }

  lemma AfterData(calls: seq<Call>)
    requires Routed(calls) && |calls| > 2 && calls[1].node == AmbiguityClassifier && calls[2].node == Data
    requires NextIs(calls[1], calls[2])
    ensures RunsWhatItShould(calls)
  {
    assert RoutedAt(calls, 2);
    if calls[3].node == Envelope {
      assert RoutedAt(calls, 3);
    } else {
      AfterResearch(calls);
    }
  }

  lemma AfterResearch(calls: seq<Call>)
    requires Routed(calls) && |calls| > 3 && calls[1].node == AmbiguityClassifier && calls[2].node == Data
    requires NextIs(calls[1], calls[2]) && NextIs(calls[2], calls[3]) && calls[3].node == Research
    ensures RunsWhatItShould(calls)
  {
    assert RoutedAt(calls, 3);
    if calls[4].node == Envelope { assert RoutedAt(calls, 4); } else { Tail(calls); }
  }

  lemma Tail(calls: seq<Call>)
    requires Routed(calls) && |calls| > 4 && calls[4].node == BacktestCode
    ensures |calls| == 10 && calls[5].node == Backtest && calls[6].node == Signal
    ensures calls[7].node == RiskManager && calls[8].node == Report && calls[9].node == Envelope
  {
    assert RoutedAt(calls, 4);
    assert RoutedAt(calls, 5);
    assert RoutedAt(calls, 6);
    assert RoutedAt(calls, 7);
    assert RoutedAt(calls, 8);
    assert RoutedAt(calls, 9);
  }

  /** The stages that a run through all nodes reports, one per node. */
  lemma StagesOfWholeRun(nodes: seq<Node>)
    requires nodes == [Supervisor, AmbiguityClassifier, Data, Research, BacktestCode, Backtest, Signal, RiskManager, Report, Envelope]
    ensures seq(10, i requires 0 <= i < 10 => StageOf(nodes[i]))
         == [Interpreting, Interpreting, Interpreting, CodeGeneration, CodeGeneration, BacktestStage, BacktestStage,
             Debate, Debate, Finalizing]
  {
  }
}
