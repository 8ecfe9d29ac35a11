/** Which workflows can always be brought to SUCCESS, as long as nothing fails or is paused. */
module Drains {
  import opened Wrappers
  import opened Graphs
  import opened Orders
  import opened Tables
  import opened Protocol
  import opened Moves
  import opened Safety
  import opened WakeUps
  import opened Conservation
  import opened Bounds
  import opened Runs
  import opened Paths
  import opened Schedules
  import opened Tokens
  import opened PauseResume
  import opened Hangs

  // ---- what smooth runs keep ----

  /** No workflow waits, and nothing was ever parked or resumed. */
  ghost predicate Unpaused(s: State) {
    && (forall w :: 0 <= w < |s.wfs| ==> s.wfs[w].status != WWait)
    && (forall k :: 0 <= k < |s.hist| ==> !s.hist[k].Parked? && !s.hist[k].Resumed?)
  }

  lemma MoveUnpaused(s: State, m: Move)
    requires Can(s, m) && Unpaused(s) && (m.Do? ==> Smooth(m.event) || m.event.Kill?)
    ensures Unpaused(Made(s, m))
  {
    hide Grows, Sound, Frame, Fail, Step, Unpaused;
    match m
    case Do(e) => EventUnpaused(s, e);
    case Finish(r, v) =>
      EventUnpaused(s, Kill(r));
      FrameUnpaused(Stop(s, r), r, v);
    case Lift(r, v, _) => FrameUnpaused(s, r, v);
    case Break(r, timedOut) => FailUnpaused(s, r, timedOut);
  }

  lemma EventUnpaused(s: State, e: Event)
    requires Sound(s) && Enabled(s, e) && Unpaused(s) && !e.Return? && (Smooth(e) || e.Kill?)
    ensures Unpaused(Step(s, e)) && (e.Kill? ==> Unpaused(Stop(s, e.row)))
  {
    hide Grows, Ready, StartSends;
  }

  lemma FrameUnpaused(s: State, r: nat, v: Value)
    requires Sound(s) && r < |s.rows| && Unpaused(s)
    ensures Unpaused(Frame(s, r, v))
  {
    hide Grows, Route, Existing;
  }

  lemma FailUnpaused(s: State, r: nat, timedOut: bool)
    requires Sound(s) && r < |s.rows| && Unpaused(s)
    ensures Unpaused(Fail(s, r, timedOut))
  {
  }

  lemma {:induction false} ChainUnpaused(s: State, ms: seq<Move>, t: State)
    requires Chain(s, ms, t) && Unpaused(s)
    requires forall m :: m in ms && m.Do? ==> Smooth(m.event) || m.event.Kill?
    ensures Unpaused(t)
    decreases |ms|
  {
    hide Made, Can, Unpaused, Smooth;
    if ms != [] {
      MoveUnpaused(s, ms[0]);
      ChainUnpaused(Made(s, ms[0]), ms[1..], t);
    }
  }

  /** A row not begun, running, or done with success. */
  predicate Tidy(r: Row) {
    || (r.status == TInit && r.phase == Created)
    || (r.status == TProgress && r.phase == Running)
    || (r.status == TSuccess && r.phase == Done)
  }

  /** The rows of `w` are tidy, and the sink's success has closed it. */
  ghost predicate Healthy(s: State, w: nat)
    requires w < |s.wfs|
  {
    forall r :: 0 <= r < |s.rows| && s.rows[r].wf == w ==>
      Tidy(s.rows[r]) && (s.rows[r].status == TSuccess && Sink(s.wfs[w].graph, s.rows[r].node) ==> s.wfs[w].status == WSuccess)
  }

  /** A top-level workflow whose template calls no other. */
  ghost predicate Plainly(wf: Workflow) {
    wf.parent == None && Regular(wf.graph) && CallFree(wf.graph)
  }

  ghost predicate AllHealthy(s: State) {
    forall w :: 0 <= w < |s.wfs| && Plainly(s.wfs[w]) ==> Healthy(s, w)
  }

  lemma SameHealthy(s: State, t: State, w: nat)
    requires SameFor(s, t, w) && Healthy(s, w)
    ensures Healthy(t, w)
  {
  }

  lemma ReturnHealthy(s: State, r: nat, v: Value, w: nat)
    requires Typed(s) && w < |s.wfs| && Plainly(s.wfs[w]) && Healthy(s, w)
    requires r < |s.rows| && s.rows[r].wf == w && s.rows[r].status == TProgress
    ensures var t := OnSuccess(s, r, v);
      Healthy(t, w) && t.rows == s.rows[r := t.rows[r]] && t.rows[r].phase == Done
      && t.hist == s.hist + [Succeeded(w, s.rows[r].node, v)] && t.wfs[w].pending == s.wfs[w].pending
  {
    hide Sound, Grows, OnSuccess, Frame, Route, Targets, Regular, CallFree, Healthy, Keyed, Sink;
    var g, n := s.wfs[w].graph, s.rows[r].node;
    SinkTargets(g, n);
    PlainRoute(g, n, v);
    assert [n][0] == n;
    ReturnFrame(s, r, v, w, [n], 0);
    RowHealthy(s, OnSuccess(s, r, v), w, r);
  }

  lemma SinkTargets(g: Graph, n: NodeId)
    requires n in g.kind
    ensures Sink(g, n) <==> Targets(g.connections, n) == []
  {
    NoTargets(g.connections, n);
  }

  lemma RowHealthy(s: State, t: State, w: nat, r: nat)
    requires w < |s.wfs| && w < |t.wfs| && Healthy(s, w) && t.wfs[w].graph == s.wfs[w].graph
    requires r < |s.rows| == |t.rows| && t.rows == s.rows[r := t.rows[r]] && Tidy(t.rows[r])
    requires t.rows[r].node == s.rows[r].node && s.rows[r].wf == w
    requires Sink(s.wfs[w].graph, s.rows[r].node) || s.wfs[w].status == WSuccess ==> t.wfs[w].status == WSuccess
    ensures Healthy(t, w)
  {
    hide Sink;
  }

  lemma PlainRoute(g: Graph, n: NodeId, v: Value)
    requires Regular(g) && n in g.kind
    ensures Route(g, n, v) == Some(Targets(g.connections, n))
  {
  }

  lemma StepHealthy(s: State, e: Event, w: nat)
    requires Invariant(s) && Unpaused(s) && Enabled(s, e) && Smooth(e)
    requires w < |s.wfs| && Plainly(s.wfs[w]) && Healthy(s, w)
    ensures Healthy(Step(s, e), w)
  {
    hide Step, OnSuccess, NoLostWakeUp, Conserved, AllAccounted, Sourced, Closing, Causal;
    CallFreeChildless(s, w);
    if Elsewhere(s, e, w) {
      EventElsewhere(s, e, w);
      SameHealthy(s, Step(s, e), w);
    } else {
      LocalHealthy(s, e, w);
    }
  }

  lemma LocalHealthy(s: State, e: Event, w: nat)
    requires Typed(s) && Fresh(s) && Unpaused(s) && Enabled(s, e) && Smooth(e) && !Elsewhere(s, e, w)
    requires w < |s.wfs| && Plainly(s.wfs[w]) && Healthy(s, w)
    ensures Healthy(Step(s, e), w)
  {
    hide OnSuccess, Ready, StartSends, Grows, Regular;
    if e.Return? {
      assert Tidy(s.rows[e.row]);
      ReturnHealthy(s, e.row, e.value, w);
    }
  }

  /** A workflow just created has no rows. */
  lemma NewHealthy(s: State, e: Event, w: nat)
    requires Sound(s) && Enabled(s, e) && Smooth(e) && |s.wfs| <= w < |Step(s, e).wfs|
    ensures Healthy(Step(s, e), w)
  {
    hide OnSuccess, Ready, StartSends, Grows, Sink;
    if e.Return? {
      ReturnKeepsCount(s, e.row, e.value);
    }
  }

  lemma SmoothStep(s: State, e: Event)
    requires Invariant(s) && Unpaused(s) && AllHealthy(s) && Sound(s) && Enabled(s, e) && Smooth(e)
    ensures Invariant(Step(s, e)) && Unpaused(Step(s, e)) && AllHealthy(Step(s, e))
  {
    var t := Step(s, e);
    hide Step, Chain, Enabled, Unpaused, Healthy, Invariant, Regular, CallFree, Smooth;
    var ms := EventMoves(s, e);
    ChainInvariant(s, ms, t);
    ChainUnpaused(s, ms, t);
    forall w | 0 <= w < |t.wfs| && Plainly(t.wfs[w]) ensures Healthy(t, w) {
      if w < |s.wfs| {
        StepHealthy(s, e, w);
      } else {
        NewHealthy(s, e, w);
      }
    }
  }

  lemma {:induction false} SmoothRun(s: State, es: seq<Event>, t: State)
    requires Glides(s, es, t) && Invariant(s) && Unpaused(s) && AllHealthy(s)
    ensures Invariant(t) && Unpaused(t) && AllHealthy(t)
    decreases |es|
  {
    hide Step, Enabled, Unpaused, AllHealthy, Invariant, Smooth, Sound;
    if es != [] {
      SmoothStep(s, es[0]);
      SmoothRun(Step(s, es[0]), es[1..], t);
    }
  }

  lemma SmoothFacts(s: State)
    requires Smoothly(s)
    ensures Reachable(s) && Invariant(s) && Unpaused(s) && AllHealthy(s)
  {
    SmoothlyReachable(s);
    EmptyInvariant();
    hide Leads, Invariant, Smooth;
    var es :| Glides(Empty, es, s);
    SmoothRun(Empty, es, s);
  }

  // ---- draining ----

  /** Only the last node may have two connections into it. */
  ghost predicate JoinsLast(g: Graph) {
    forall n :: n in g.kind && InDegree(g.connections, n) >= 2 ==> Sink(g, n)
  }

  /** A top-level workflow on a single-sink, call-free template with a node, whose only join may be the sink. */
  ghost predicate Drainable(s: State, w: nat)
    requires w < |s.wfs|
  {
    var g := s.wfs[w].graph;
    Plainly(s.wfs[w]) && OneSink(g) && JoinsLast(g) && g.kind != map[]
  }

  lemma NoJoinBeforeLast(g: Graph, n: NodeId)
    requires JoinsLast(g) && SourcesKnown(g) && n in g.kind && !Sink(g, n)
    ensures NoJoinUpTo(g, n)
  {
    forall m | m == n || Ancestor(g, m, n) ensures InDegree(g.connections, m) <= 1 {
      if m != n {
        AncestorHasEdge(g, m, n);
        AncestorKnown(g, m, n);
      }
    }
  }

  lemma AncestorKnown(g: Graph, a: NodeId, n: NodeId)
    requires SourcesKnown(g) && Ancestor(g, a, n)
    ensures a in g.kind
  {
    var p :| IsPath(g, p) && |p| > 1 && p[0] == a && p[|p| - 1] == n;
    assert Edge(g, p[0], p[0 + 1]);
  }

  /** With nothing left to do such a workflow is in SUCCESS. */
  lemma DrainedSucceeded(s: State, w: nat)
    requires Smoothly(s) && w < |s.wfs| && Drainable(s, w) && Drained(s, w)
    ensures s.wfs[w].status == WSuccess
  {
    SmoothFacts(s);
    hide Invariant;
    var g := s.wfs[w].graph;
    assert NeverResumed(s.hist, w);
    var rank := RankingOf(g, g.kind.Keys);
    var n :| n in g.kind;
    var z := ReachesSink(g, rank, n);
    hide Acyclic, Drained;
    forall a | Edge(g, a, z) ensures Settled(s.rows, w, a) {
      EdgeNotSink(g, a, z);
      NoJoinBeforeLast(g, a);
      NoCalls(g, a);
      CoverageAt(s, w, a);
    }
    var i := DrainedReaches(s, w, z);
    assert Healthy(s, w);
  }

  lemma EdgeNotSink(g: Graph, a: NodeId, n: NodeId)
    requires SourcesKnown(g) && Edge(g, a, n)
    ensures a in g.kind && !Sink(g, a)
  {
  }

  lemma NoCalls(g: Graph, n: NodeId)
    requires CallFree(g)
    ensures NoCallBefore(g, n) && CallsLast(g)
  {
  }

  /** Steps still to take by the rows of `w`. */
  function Effort(rows: seq<Row>, w: nat): nat {
    if rows == [] then 0 else Effort(rows[..|rows| - 1], w) + Remaining(rows[|rows| - 1], w)
  }

  function Remaining(r: Row, w: nat): nat {
    if r.wf != w then 0 else if r.phase == Created then 2 else if r.phase == Running then 1 else 0
  }

  lemma {:induction false} EffortChanged(rows: seq<Row>, r: nat, row: Row, w: nat)
    requires r < |rows|
    ensures Effort(rows[r := row], w) == Effort(rows, w) - Remaining(rows[r], w) + Remaining(row, w)
    decreases |rows|
  {
    var k := |rows| - 1;
    if r < k {
      EffortChanged(rows[..k], r, row, w);
      assert rows[r := row][..k] == rows[..k][r := row];
    } else {
      assert rows[r := row][..k] == rows[..k];
    }
  }

  /** Messages the workflow may still take. */
  ghost function Room(s: State, w: nat): nat
    requires w < |s.wfs| && Plainly(s.wfs[w])
  {
    var g := s.wfs[w].graph;
    var total := TotalPaths(g, g.nodes);
    if AllTaken(s.hist, w) <= total then total - AllTaken(s.hist, w) else 0
  }

  lemma TakenLogged(h: seq<Entry>, e: Entry, w: nat)
    ensures AllTaken(h + [e], w) == AllTaken(h, w) + if (e.Parked? || e.Dropped? || e.Accepted?) && e.wf == w then 1 else 0
  {
    assert (h + [e])[..|h|] == h;
  }

  /** `t` is nearer the end: the start is taken, or a message more, or a row is further. */
  ghost predicate Nearer(s: State, t: State, w: nat) {
    && w < |s.wfs| && w < |t.wfs| && t.wfs[w].graph == s.wfs[w].graph && t.wfs[w].parent == s.wfs[w].parent
    && if s.wfs[w].pending then !t.wfs[w].pending
       else
         && !t.wfs[w].pending && AllTaken(s.hist, w) <= AllTaken(t.hist, w)
         && (AllTaken(s.hist, w) == AllTaken(t.hist, w) ==> Effort(t.rows, w) < Effort(s.rows, w))
  }

  lemma RoomBound(s: State, w: nat)
    requires Reachable(s) && Unpaused(s) && w < |s.wfs| && Plainly(s.wfs[w])
    ensures AllTaken(s.hist, w) <= TotalPaths(s.wfs[w].graph, s.wfs[w].graph.nodes)
  {
    NoCalls(s.wfs[w].graph, "");
    Termination(s, w);
  }

  /** A step of `w` itself that is not a delegation. */
  ghost predicate Mine(s: State, e: Event, w: nat) {
    match e
    case Start(x) => x == w && w < |s.wfs| && s.wfs[w].pending
    case Deliver(i) => i < |s.queue| && s.queue[i].wf == w
    case Begin(r, _) => r < |s.rows| && s.rows[r].wf == w && s.rows[r].phase == Created
    case Return(r, _) => r < |s.rows| && s.rows[r].wf == w && s.rows[r].status == TProgress && s.rows[r].phase == Running
    case _ => false
  }

  lemma MineEnabled(s: State, e: Event, w: nat)
    requires Mine(s, e, w)
    ensures Enabled(s, e) && Smooth(e)
  {
  }

  lemma NothingLeft(s: State, w: nat)
    requires w < |s.wfs| && Healthy(s, w) && Unpaused(s) && forall e :: !Mine(s, e, w)
    ensures Drained(s, w)
  {
    assert !Mine(s, Start(w), w);
    forall n | Message(w, n) in s.queue ensures false {
      var i :| 0 <= i < |s.queue| && s.queue[i] == Message(w, n);
      assert Mine(s, Deliver(i), w);
    }
    forall r | 0 <= r < |s.rows| && s.rows[r].wf == w ensures s.rows[r].status == TSuccess {
      assert !Mine(s, Begin(r, ""), w) && !Mine(s, Return(r, Opaque(0)), w);
    }
  }

  /** As long as such a workflow has not finished, it has something left to do. */
  lemma NextEvent(s: State, w: nat) returns (e: Event)
    requires Smoothly(s) && w < |s.wfs| && Drainable(s, w) && s.wfs[w].status != WSuccess
    ensures Mine(s, e, w)
  {
    hide Smoothly, Invariant, Reachable, Healthy, Unpaused, Drained, Mine;
    if x :| Mine(s, x, w) {
      e := x;
    } else {
      SmoothFacts(s);
      NothingLeft(s, w);
      DrainedSucceeded(s, w);
      assert false;
    }
  }

  lemma DeliverNearer(s: State, i: nat)
    requires Sound(s) && i < |s.queue| && !s.wfs[s.queue[i].wf].pending
    ensures Nearer(s, ProcessNextNode(s, i), s.queue[i].wf)
  {
    hide Ready, AllTaken, Effort;
    var t := ProcessNextNode(s, i);
    TakenLogged(s.hist, t.hist[|s.hist|], s.queue[i].wf);
    assert t.hist == s.hist + [t.hist[|s.hist|]];
  }

  lemma BeginNearer(s: State, r: nat, worker: string, w: nat)
    requires Sound(s) && r < |s.rows| && s.rows[r].wf == w && s.rows[r].phase == Created && !s.wfs[w].pending
    ensures Nearer(s, BeforeStart(s, r, worker), w)
  {
    EffortChanged(s.rows, r, BeforeStart(s, r, worker).rows[r], w);
  }

  lemma ReturnNearer(s: State, r: nat, v: Value, w: nat)
    requires Typed(s) && w < |s.wfs| && Plainly(s.wfs[w]) && Healthy(s, w) && !s.wfs[w].pending
    requires r < |s.rows| && s.rows[r].wf == w && s.rows[r].status == TProgress && s.rows[r].phase == Running
    ensures Nearer(s, OnSuccess(s, r, v), w)
  {
    hide OnSuccess, Regular, Healthy, Effort, AllTaken;
    ReturnHealthy(s, r, v, w);
    EffortChanged(s.rows, r, OnSuccess(s, r, v).rows[r], w);
    TakenLogged(s.hist, Succeeded(w, s.rows[r].node, v), w);
  }

  /** Each such step brings the workflow nearer to its end. */
  lemma StepsNearer(s: State, e: Event, w: nat)
    requires Typed(s) && Fresh(s) && w < |s.wfs| && Plainly(s.wfs[w]) && Healthy(s, w) && Mine(s, e, w) && Enabled(s, e)
    ensures Nearer(s, Step(s, e), w)
  {
    hide Nearer, Healthy, Plainly, ProcessNextNode, BeforeStart, OnSuccess, Enabled;
    match e
    case Start(_) => StartNearer(s, w);
    case Deliver(i) => DeliverNearer(s, i);
    case Begin(r, worker) => BeginNearer(s, r, worker, w);
    case Return(r, v) => ReturnNearer(s, r, v, w);
    case _ =>
  }

  lemma StartNearer(s: State, w: nat)
    requires w < |s.wfs| && s.wfs[w].pending
    ensures Nearer(s, ExecuteWorkflow(s, w), w)
  {
    hide StartSends, Effort, AllTaken;
  }

  /** From every state that smooth events reach, smooth events bring such a workflow to SUCCESS. */
  lemma {:induction false} Finishes(s: State, w: nat) returns (es: seq<Event>, t: State)
    requires Smoothly(s) && w < |s.wfs| && Drainable(s, w)
    ensures Glides(s, es, t) && w < |t.wfs| && t.wfs[w].status == WSuccess
    decreases s.wfs[w].pending, Room(s, w), Effort(s.rows, w)
  {
    hide Glides, Smoothly, Mine, Invariant, Unpaused, Nearer, Regular, OneSink, JoinsLast, CallFree, Enabled, Healthy, Effort, AllTaken, Reachable, Step;
    if s.wfs[w].status == WSuccess {
      es, t := [], s;
      StandStill(s);
    } else {
      var e := NextEvent(s, w);
      MineEnabled(s, e, w);
      SmoothFacts(s);
      Parts(s);
      assert Healthy(s, w);
      StepsNearer(s, e, w);
      var u := Step(s, e);
      OneEvent(s, e);
      Onward(s, e, u);
      RoomLeft(s, u, w);
      var more: seq<Event>;
      more, t := Finishes(u, w);
      Glided(s, [e], u, more, t);
      es := [e] + more;
    }
  }

  lemma StandStill(s: State)
    ensures Glides(s, [], s)
  {
  }

  lemma Parts(s: State)
    requires Invariant(s)
    ensures Sound(s) && Typed(s) && Fresh(s)
  {
  }

  lemma Onward(s: State, e: Event, t: State)
    requires Smoothly(s) && Glides(s, [e], t)
    ensures Smoothly(t)
  {
    hide Glides;
    var es :| Glides(Empty, es, s);
    Glided(Empty, es, s, [e], t);
  }

  lemma RoomLeft(s: State, t: State, w: nat)
    requires Nearer(s, t, w) && Smoothly(t) && Plainly(s.wfs[w])
    ensures (s.wfs[w].pending && !t.wfs[w].pending) || (s.wfs[w].pending == t.wfs[w].pending && Room(t, w) < Room(s, w))
      || (s.wfs[w].pending == t.wfs[w].pending && Room(t, w) == Room(s, w) && Effort(t.rows, w) < Effort(s.rows, w))
  {
    hide Smoothly, Invariant, AllTaken, Effort, Regular, CallFree, Reachable;
    SmoothFacts(t);
    RoomBound(t, w);
  }

  // ---- always ----

  ghost predicate CanFinish(s: State, w: nat) {
    exists es, t :: Leads(s, es, t) && w < |t.wfs| && t.wfs[w].status == WSuccess
  }

  /** Wherever smooth events lead, a top-level workflow on `g` can still reach SUCCESS. */
  ghost predicate AlwaysFinishes(g: Graph) {
    forall s: State, w: nat :: Smoothly(s) && w < |s.wfs| && s.wfs[w].graph == g && s.wfs[w].parent == None ==> CanFinish(s, w)
  }

  /**
   * For a single-sink template that calls no other: as long as nothing fails or is paused, every
   * run can still succeed exactly when the template has a node and only its last may be a join.
   */
  lemma FinishesIffJoinsLast(g: Graph)
    requires Regular(g) && CallFree(g) && OneSink(g)
    ensures AlwaysFinishes(g) <==> g.kind != map[] && JoinsLast(g)
  {
    hide Leads, Smoothly, Regular, CallFree, OneSink;
    if g.kind == map[] {
      EmptyNeverCloses(g);
    } else if !JoinsLast(g) {
      var n :| n in g.kind && InDegree(g.connections, n) >= 2 && !Sink(g, n);
      var c :| c in g.connections && c.source == n;
      assert Edge(g, n, c.target);
      var s := JoinHangs(g, n, c.target);
      assert !CanFinish(s, 0);
    } else {
      forall s: State, w: nat | Smoothly(s) && w < |s.wfs| && s.wfs[w].graph == g && s.wfs[w].parent == None ensures CanFinish(s, w) {
        var es, t := Finishes(s, w);
      }
    }
  }

  /** A template without nodes starts and stays in progress for ever. */
  lemma EmptyNeverCloses(g: Graph)
    requires Regular(g) && g.kind == map[]
    ensures !AlwaysFinishes(g)
  {
    hide Leads;
    var before, s := Opened(g);
    assert Smoothly(s);
    if CanFinish(s, 0) {
      var es, t :| Leads(s, es, t) && 0 < |t.wfs| && t.wfs[0].status == WSuccess;
      Joined(Empty, before, s, es, t);
      SameGraph(s, es, t);
      assert Reachable(t);
      var k := Finisher(t, 0);
      assert false;
    }
  }
}
