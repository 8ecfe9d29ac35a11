/** The invariants together, and what they say of every reachable state. */
module Runs {
  import opened Wrappers
  import opened Graphs
  import opened Orders
  import opened Tables
  import opened Protocol
  import opened Moves
  import opened Safety
  import opened WakeUps
  import opened Conservation
  import opened Bounds

  ghost predicate Invariant(s: State) {
    && Typed(s) && Fresh(s) && Causal(s) && Closing(s) && NoLostWakeUp(s)
    && Conserved(s) && ChildrenAtCalls(s) && AllAccounted(s) && Sourced(s)
  }

  /** A start or a recorded success before `k` sent node `n` of workflow `w` a message. */
  ghost predicate SentBefore(g: Graph, h: seq<Entry>, k: int, w: nat, n: NodeId) {
    exists j :: 0 <= j < k && j < |h| && !h[j].Resumed? && SentBy(g, h[j], w, n) > 0
  }

  /** Every node accepted, queued or left behind by a pause was once sent by a start or a success. */
  ghost predicate Sourced(s: State) {
    && Sound(s)
    && (forall k :: 0 <= k < |s.hist| && s.hist[k].Accepted? && s.hist[k].wf < |s.wfs| ==>
         SentBefore(s.wfs[s.hist[k].wf].graph, s.hist, k, s.hist[k].wf, s.hist[k].node))
    && (forall i :: 0 <= i < |s.queue| ==> SentTo(s, s.queue[i].wf, s.queue[i].node))
    && (forall w :: 0 <= w < |s.wfs| && s.wfs[w].current != "" ==> SentTo(s, w, s.wfs[w].current))
  }

  ghost predicate SentTo(s: State, w: nat, n: NodeId)
    requires w < |s.wfs|
  {
    SentBefore(s.wfs[w].graph, s.hist, |s.hist|, w, n)
  }

  lemma SentStays(s: State, t: State, k: int, w: nat, n: NodeId)
    requires Grows(s, t) && w < |s.wfs| && k <= |s.hist| && SentBefore(s.wfs[w].graph, s.hist, k, w, n)
    ensures SentBefore(t.wfs[w].graph, t.hist, k, w, n) && SentTo(t, w, n)
  {
    hide SentBy;
    var j :| 0 <= j < k && j < |s.hist| && !s.hist[j].Resumed? && SentBy(s.wfs[w].graph, s.hist[j], w, n) > 0;
    assert t.hist[j] == s.hist[j];
  }

  lemma {:induction false} SomeQueued(q: seq<Message>, w: nat, n: NodeId)
    ensures CountQueued(q, w, n) > 0 <==> Message(w, n) in q
    decreases |q|
  {
    if q != [] {
      var k := |q| - 1;
      SomeQueued(q[..k], w, n);
      assert q == q[..k] + [q[k]];
    }
  }

  /** A step that accepts nothing and keeps, of messages and nodes left behind, only ones that were sent. */
  lemma KeptSourced(s: State, t: State)
    requires Fresh(s) && Sourced(s) && Sound(t) && Grows(s, t)
    requires forall k :: |s.hist| <= k < |t.hist| ==> !t.hist[k].Accepted?
    requires forall i :: 0 <= i < |t.queue| ==> t.queue[i] in s.queue || SentTo(t, t.queue[i].wf, t.queue[i].node)
    requires forall w :: 0 <= w < |t.wfs| && t.wfs[w].current != "" ==>
      (w < |s.wfs| && s.wfs[w].current == t.wfs[w].current) || SentTo(t, w, t.wfs[w].current)
    ensures Sourced(t)
  {
    hide SentBy, Grows, SentBefore;
    forall k | 0 <= k < |t.hist| && t.hist[k].Accepted? && t.hist[k].wf < |t.wfs|
      ensures SentBefore(t.wfs[t.hist[k].wf].graph, t.hist, k, t.hist[k].wf, t.hist[k].node)
    {
      HistoryKept(s, t, k);
      SentStays(s, t, k, t.hist[k].wf, t.hist[k].node);
    }
    forall i | 0 <= i < |t.queue| ensures SentTo(t, t.queue[i].wf, t.queue[i].node) {
      if t.queue[i] in s.queue {
        var j :| 0 <= j < |s.queue| && s.queue[j] == t.queue[i];
        SentStays(s, t, |s.hist|, t.queue[i].wf, t.queue[i].node);
      }
    }
    forall w | 0 <= w < |t.wfs| && t.wfs[w].current != "" ensures SentTo(t, w, t.wfs[w].current) {
      if w < |s.wfs| && s.wfs[w].current == t.wfs[w].current {
        SentStays(s, t, |s.hist|, w, t.wfs[w].current);
      }
    }
  }

  lemma HistoryKept(s: State, t: State, k: nat)
    requires Fresh(s) && Sourced(s) && Grows(s, t) && k < |t.hist| && t.hist[k].Accepted?
    requires forall j :: |s.hist| <= j < |t.hist| ==> !t.hist[j].Accepted?
    ensures k < |s.hist| && s.hist[k] == t.hist[k] && t.hist[k].wf < |s.wfs|
    ensures SentBefore(s.wfs[t.hist[k].wf].graph, s.hist, k, t.hist[k].wf, t.hist[k].node)
  {
    hide SentBefore;
    assert t.hist[..|s.hist|][k] == s.hist[k];
  }

  lemma SentHere(s: State, t: State, e: Entry, w: nat, n: NodeId)
    requires w < |t.wfs| && t.hist == s.hist + [e] && !e.Resumed? && SentBy(t.wfs[w].graph, e, w, n) > 0
    ensures SentTo(t, w, n)
  {
    hide SentBy;
    assert t.hist[|s.hist|] == e;
  }

  lemma DeliverSourced(s: State, i: nat)
    requires Fresh(s) && Sourced(s) && i < |s.queue|
    ensures Sourced(ProcessNextNode(s, i))
  {
    hide SentBy, SentBefore, Ready;
    var t := ProcessNextNode(s, i);
    var w, n := s.queue[i].wf, s.queue[i].node;
    assert SentTo(s, w, n);
    SentStays(s, t, |s.hist|, w, n);
    forall j | 0 <= j < |t.queue| ensures t.queue[j] in s.queue {
      assert t.queue[j] == s.queue[if j < i then j else j + 1];
    }
    if t.hist[|s.hist|].Accepted? {
      AcceptSourced(s, t, w, n);
    } else {
      KeptSourced(s, t);
    }
  }

  lemma AcceptSourced(s: State, t: State, w: nat, n: NodeId)
    requires Fresh(s) && Sourced(s) && Sound(t) && Grows(s, t) && w < |s.wfs| && SentTo(s, w, n)
    requires t.wfs == s.wfs && t.hist == s.hist + [Accepted(w, n)] && forall j :: 0 <= j < |t.queue| ==> t.queue[j] in s.queue
    ensures Sourced(t)
  {
    hide SentBy, SentBefore, Grows, Fresh;
    var u := t.(hist := s.hist);
    forall k | 0 <= k < |t.hist| && t.hist[k].Accepted? && t.hist[k].wf < |t.wfs|
      ensures SentBefore(t.wfs[t.hist[k].wf].graph, t.hist, k, t.hist[k].wf, t.hist[k].node)
    {
      if k < |s.hist| {
        assert t.hist[k] == s.hist[k];
      }
      SentStays(s, t, k, t.hist[k].wf, t.hist[k].node);
    }
    forall i | 0 <= i < |t.queue| ensures SentTo(t, t.queue[i].wf, t.queue[i].node) {
      var j :| 0 <= j < |s.queue| && s.queue[j] == t.queue[i];
      SentStays(s, t, |s.hist|, t.queue[i].wf, t.queue[i].node);
    }
    forall x | 0 <= x < |t.wfs| && t.wfs[x].current != "" ensures SentTo(t, x, t.wfs[x].current) {
      SentStays(s, t, |s.hist|, x, t.wfs[x].current);
    }
  }

  lemma StartSourced(s: State, w: nat)
    requires Fresh(s) && Sourced(s) && w < |s.wfs|
    ensures Sourced(ExecuteWorkflow(s, w))
  {
    hide SentBefore, SentTo, StartSends, Occurs;
    var t := ExecuteWorkflow(s, w);
    var ids := StartSends(s.wfs[w].graph);
    forall i | 0 <= i < |ids| ensures SentTo(t, w, ids[i]) {
      OccursIn(ids, ids[i]);
      SentHere(s, t, Started(w), w, ids[i]);
    }
    hide SentBy;
    forall i | 0 <= i < |t.queue| ensures t.queue[i] in s.queue || SentTo(t, t.queue[i].wf, t.queue[i].node) {
      if i >= |s.queue| {
        assert t.queue[i] == Message(w, ids[i - |s.queue|]);
      }
    }
    KeptSourced(s, t);
  }

  lemma ResumeSourced(s: State, w: nat)
    requires Fresh(s) && Sourced(s) && w < |s.wfs|
    ensures Sourced(ResumeWorkflow(s, w))
  {
    hide SentBefore, SentBy, Busy;
    var t := ResumeWorkflow(s, w);
    if s.wfs[w].current != "" {
      SentStays(s, t, |s.hist|, w, s.wfs[w].current);
    }
    hide SentTo;
    KeptSourced(s, t);
  }

  lemma FrameSourced(s: State, r: nat, v: Value)
    requires Fresh(s) && Causal(s) && Sourced(s) && r < |s.rows|
    ensures Sourced(Frame(s, r, v))
  {
    hide SentBefore, SentTo, Route, Existing, Occurs, Ordered;
    var t := Frame(s, r, v);
    var w, n := s.rows[r].wf, s.rows[r].node;
    AcceptedSent(s, w, n, t);
    var next := Route(s.wfs[w].graph, n, v);
    if next.Some? && next.value != [] {
      var ids := Existing(s.wfs[w].graph, next.value);
      forall i | 0 <= i < |ids| ensures SentTo(t, w, ids[i]) {
        OccursIn(ids, ids[i]);
        SentHere(s, t, Succeeded(w, n, v), w, ids[i]);
      }
      forall i | 0 <= i < |t.queue| ensures t.queue[i] in s.queue || SentTo(t, t.queue[i].wf, t.queue[i].node) {
        if i >= |s.queue| {
          assert t.queue[i] == Message(w, ids[i - |s.queue|]);
        }
      }
    }
    hide SentBy;
    KeptSourced(s, t);
  }

  /** The node of a row was sent a message before the row was made. */
  lemma AcceptedSent(s: State, w: nat, n: NodeId, t: State)
    requires Sourced(s) && w < |s.wfs| && AcceptedBefore(s.hist, |s.hist|, w, n) && Grows(s, t)
    ensures SentTo(t, w, n)
  {
    hide SentBy, SentBefore;
    var k :| 0 <= k < |s.hist| && s.hist[k] == Accepted(w, n);
    SentStays(s, t, k, w, n);
  }

  lemma QuietSourced(s: State, e: Event)
    requires Fresh(s) && Sourced(s) && Enabled(s, e)
    requires !e.Return? && !e.Raise? && !e.Deliver? && !e.Start? && !e.Resume?
    ensures Sourced(Step(s, e))
  {
    hide SentBefore, SentTo, Hit, OnSuccess, OnRaise, ProcessNextNode, ExecuteWorkflow, ResumeWorkflow;
    KeptSourced(s, Step(s, e));
  }

  lemma MoveSourced(s: State, m: Move)
    requires Can(s, m) && Fresh(s) && Causal(s) && Sourced(s)
    ensures Sourced(Made(s, m))
  {
    hide Frame, ProcessNextNode, ExecuteWorkflow, ResumeWorkflow, Grows, Sourced, Causal, Fresh;
    match m
    case Do(e) =>
      if e.Deliver? {
        DeliverSourced(s, e.message);
      } else if e.Start? {
        StartSourced(s, e.wf);
      } else if e.Resume? {
        ResumeSourced(s, e.wf);
      } else {
        QuietSourced(s, e);
      }
    case Finish(r, v) =>
      StopSourced(s, r);
      MoveFresh(s, Do(Kill(r)));
      MoveCausal(s, Do(Kill(r)));
      FrameSourced(Stop(s, r), r, v);
    case Lift(r, v, _) => FrameSourced(s, r, v);
    case Break(r, timedOut) => FailSourced(s, r, timedOut);
  }

  lemma StopSourced(s: State, r: nat)
    requires Fresh(s) && Sourced(s) && r < |s.rows|
    ensures Sourced(Stop(s, r))
  {
    hide SentBefore, SentTo;
    KeptSourced(s, Stop(s, r));
  }

  lemma FailSourced(s: State, r: nat, timedOut: bool)
    requires Fresh(s) && Sourced(s) && r < |s.rows|
    ensures Sourced(Fail(s, r, timedOut))
  {
    hide SentBefore, SentTo;
    KeptSourced(s, Fail(s, r, timedOut));
  }

  lemma MoveInvariant(s: State, m: Move)
    requires Can(s, m) && Invariant(s)
    ensures Invariant(Made(s, m))
  {
    hide Made, Can, Typed, Fresh, Causal, Closing, NoLostWakeUp, Conserved, ChildrenAtCalls, AllAccounted, Sourced;
    MoveTyped(s, m);
    MoveFresh(s, m);
    MoveCausal(s, m);
    MoveClosing(s, m);
    MoveWakes(s, m);
    MoveConserved(s, m);
    MoveChildren(s, m);
    MoveAccounted(s, m);
    MoveSourced(s, m);
  }

  lemma {:induction false} ChainInvariant(s: State, ms: seq<Move>, t: State)
    requires Chain(s, ms, t) && Invariant(s)
    ensures Invariant(t)
    decreases |ms|
  {
    hide Made, Can, Invariant;
    if ms != [] {
      MoveInvariant(s, ms[0]);
      ChainInvariant(Made(s, ms[0]), ms[1..], t);
    }
  }

  lemma ReachableInvariant(s: State)
    requires Reachable(s)
    ensures Invariant(s)
  {
    hide Leads, Invariant, Chain;
    var es :| Leads(Empty, es, s);
    var ms := RunMoves(Empty, es, s);
    EmptyInvariant();
    ChainInvariant(Empty, ms, s);
  }

  lemma EmptyInvariant()
    ensures Invariant(Empty)
  {
  }

  // ---- order ----

  /** A row is only created after every ancestor has succeeded. */
  lemma {:induction false} DependencyOrder(s: State, k: nat, a: NodeId)
    requires Reachable(s)
    requires k < |s.hist| && s.hist[k].Accepted? && s.hist[k].wf < |s.wfs|
    requires Ancestor(s.wfs[s.hist[k].wf].graph, a, s.hist[k].node)
    ensures SucceededBefore(s.hist, k, s.hist[k].wf, a)
  {
    ReachableInvariant(s);
    var g := s.wfs[s.hist[k].wf].graph;
    var p :| IsPath(g, p) && |p| > 1 && p[0] == a && p[|p| - 1] == s.hist[k].node;
    PathOrder(s, k, p);
  }

  lemma {:induction false} PathOrder(s: State, k: nat, p: seq<NodeId>)
    requires Causal(s) && k < |s.hist| && s.hist[k].Accepted? && s.hist[k].wf < |s.wfs|
    requires IsPath(s.wfs[s.hist[k].wf].graph, p) && |p| > 1 && p[|p| - 1] == s.hist[k].node
    ensures SucceededBefore(s.hist, k, s.hist[k].wf, p[0])
    decreases |p|
  {
    var w := s.hist[k].wf;
    var g := s.wfs[w].graph;
    var b := p[|p| - 2];
    assert InOrder(s, k);
    assert Edge(g, p[|p| - 2], p[|p| - 1]);
    assert SucceededBefore(s.hist, k, w, b);
    if |p| > 2 {
      var i :| 0 <= i < k && s.hist[i].Succeeded? && s.hist[i].wf == w && s.hist[i].node == b;
      assert InOrder(s, i);
      var j :| 0 <= j < i && s.hist[j] == Accepted(w, b);
      var q := p[..|p| - 1];
      assert forall x :: 0 <= x < |q| ==> q[x] == p[x];
      assert IsPath(g, q);
      PathOrder(s, j, q);
    }
  }

  lemma {:induction false} NoTargets(cs: seq<Connection>, n: NodeId)
    ensures Targets(cs, n) == [] <==> forall c :: c in cs ==> c.source != n
    decreases |cs|
  {
    if cs != [] {
      var k := |cs| - 1;
      NoTargets(cs[..k], n);
      assert cs == cs[..k] + [cs[k]];
    }
  }

  ghost predicate HasSucceeded(s: State, w: nat, n: NodeId) {
    SucceededBefore(s.hist, |s.hist|, w, n)
  }

  ghost predicate OneSink(g: Graph) {
    forall y, z :: Sink(g, y) && Sink(g, z) ==> y == z
  }

  /** With a single sink and no conditions, a workflow in SUCCESS has completed every node. */
  lemma SingleSinkCompleteness(s: State, w: nat, n: NodeId)
    requires Reachable(s) && w < |s.wfs| && s.wfs[w].status == WSuccess
    requires var g := s.wfs[w].graph; Acyclic(g) && TargetsKnown(g) && Plain(g) && OneSink(g)
    requires n in s.wfs[w].graph.kind
    ensures HasSucceeded(s, w, n)
  {
    hide Reachable, Acyclic, Ancestor;
    var g := s.wfs[w].graph;
    var k := Finisher(s, w);
    var z := s.hist[k].node;
    var rank := RankingOf(g, g.kind.Keys);
    var y := ReachesSink(g, rank, n);
    assert y == z;
    if n != z {
      var j :| 0 <= j < k && s.hist[j] == Accepted(w, z);
      DependencyOrder(s, j, n);
    }
  }

  /** The recorded success that closed a workflow: of a sink, which was accepted before. */
  lemma Finisher(s: State, w: nat) returns (k: nat)
    requires Reachable(s) && w < |s.wfs| && s.wfs[w].status == WSuccess && Plain(s.wfs[w].graph)
    ensures k < |s.hist| && s.hist[k].Succeeded? && s.hist[k].wf == w && Sink(s.wfs[w].graph, s.hist[k].node)
    ensures AcceptedBefore(s.hist, k, w, s.hist[k].node)
  {
    hide Reachable, Typed, Fresh, NoLostWakeUp, Conserved, AllAccounted, Sourced;
    ReachableInvariant(s);
    var g := s.wfs[w].graph;
    k :| 0 <= k < |s.hist| && Ends(g, s.hist[k], w);
    NoTargets(g.connections, s.hist[k].node);
    assert InOrder(s, k);
  }

  // ---- conservation ----

  /** Everything sent to a node is queued or was taken, and rows are among the taken. */
  lemma DispatchConservation(s: State, w: nat, n: NodeId)
    requires Reachable(s) && w < |s.wfs|
    ensures Sent(s.wfs[w].graph, s.hist, w, n) == CountQueued(s.queue, w, n) + Taken(s.hist, w, n)
    ensures CountRows(s.rows, w, n) <= Taken(s.hist, w, n)
  {
    ReachableInvariant(s);
    assert Balanced(s, w, n) && Accounted(s, w, n);
    AcceptedTaken(s.hist, w, n);
  }

  lemma {:induction false} AcceptedTaken(h: seq<Entry>, w: nat, n: NodeId)
    ensures Acceptances(h, w, n) <= Taken(h, w, n)
    decreases |h|
  {
    if h != [] {
      AcceptedTaken(h[..|h| - 1], w, n);
    }
  }

  // ---- wake-ups ----

  /** A started, never parked workflow keeps every ready node in flight. */
  lemma NoReadyNodeForgotten(s: State, w: nat, n: NodeId)
    requires Reachable(s) && w < |s.wfs| && Watched(s, w, n)
    requires Woken(s.rows, s.wfs[w].graph, w, n)
    ensures InFlight(s, w, n)
  {
    ReachableInvariant(s);
  }

  // ---- causal backing ----

  /** A recorded success of `a` that sends `b` a message. */
  ghost predicate Fired(s: State, w: nat, a: NodeId, b: NodeId)
    requires w < |s.wfs|
  {
    exists k :: 0 <= k < |s.hist| && s.hist[k].Succeeded? && s.hist[k].wf == w && s.hist[k].node == a
      && LeadsTo(s.wfs[w].graph, a, s.hist[k].value, b)
  }

  /** A path from a start node along connections that recorded successes fired. */
  ghost predicate Backed(s: State, w: nat, n: NodeId)
    requires w < |s.wfs|
  {
    exists p: seq<NodeId> :: |p| > 0 && !IsTarget(s.wfs[w].graph.connections, p[0]) && p[|p| - 1] == n && FiredPath(s, w, p)
  }

  ghost predicate FiredPath(s: State, w: nat, p: seq<NodeId>)
    requires w < |s.wfs|
  {
    forall i :: 0 <= i < |p| - 1 ==> Fired(s, w, p[i], p[i + 1])
  }

  lemma ExtendBacked(s: State, w: nat, a: NodeId, n: NodeId)
    requires w < |s.wfs| && Backed(s, w, a) && Fired(s, w, a, n)
    ensures Backed(s, w, n)
  {
    hide Fired, IsTarget;
    var p: seq<NodeId> :|
      |p| > 0 && !IsTarget(s.wfs[w].graph.connections, p[0]) && p[|p| - 1] == a && FiredPath(s, w, p);
    var q := p + [n];
    forall i | 0 <= i < |q| - 1 ensures Fired(s, w, q[i], q[i + 1]) {
      if i < |p| - 1 {
        assert Fired(s, w, p[i], p[i + 1]);
      }
    }
    assert q[0] == p[0] && q[|q| - 1] == n && FiredPath(s, w, q);
  }

  lemma StartBacked(s: State, w: nat, n: NodeId)
    requires w < |s.wfs| && n in StartSends(s.wfs[w].graph)
    ensures Backed(s, w, n)
  {
    var p := [n];
    assert !IsTarget(s.wfs[w].graph.connections, p[0]) && p[|p| - 1] == n && FiredPath(s, w, p);
  }

  lemma SuccessFires(s: State, w: nat, j: nat, n: NodeId)
    requires w < |s.wfs| && j < |s.hist| && s.hist[j].Succeeded?
    requires SentBy(s.wfs[w].graph, s.hist[j], w, n) > 0
    ensures s.hist[j].wf == w && Fired(s, w, s.hist[j].node, n)
  {
    hide Route, Existing, Occurs;
    var g := s.wfs[w].graph;
    OccursIn(Existing(g, Route(g, s.hist[j].node, s.hist[j].value).value), n);
    assert LeadsTo(g, s.hist[j].node, s.hist[j].value, n);
  }

  lemma {:induction false} SenderBacked(s: State, w: nat, j: nat, n: NodeId)
    requires Ordered(s) && Sourced(s) && w < |s.wfs|
    requires j < |s.hist| && !s.hist[j].Resumed? && SentBy(s.wfs[w].graph, s.hist[j], w, n) > 0
    ensures Backed(s, w, n)
    decreases j
  {
    hide Backed, Fired, Route, Existing, Occurs, StartSends;
    var g := s.wfs[w].graph;
    if s.hist[j].Started? {
      OccursIn(StartSends(g), n);
      StartBacked(s, w, n);
    } else if s.hist[j].Succeeded? {
      SuccessFires(s, w, j, n);
      var a := s.hist[j].node;
      assert InOrder(s, j);
      var k :| 0 <= k < j && s.hist[k] == Accepted(w, a);
      assert SentBefore(g, s.hist, k, w, a);
      var i :| 0 <= i < k && !s.hist[i].Resumed? && SentBy(g, s.hist[i], w, a) > 0;
      SenderBacked(s, w, i, a);
      ExtendBacked(s, w, a, n);
    }
  }

  lemma {:induction false} OccursIn(ids: seq<NodeId>, n: NodeId)
    ensures Occurs(ids, n) > 0 <==> n in ids
    decreases |ids|
  {
    if ids != [] {
      var k := |ids| - 1;
      OccursIn(ids[..k], n);
      assert ids == ids[..k] + [ids[k]];
    }
  }

  lemma TracedParts(s: State)
    requires Invariant(s)
    ensures Sourced(s) && RowsLogged(s) && Ordered(s)
  {
  }

  /** Only nodes on a path of fired connections are ever queued or run. */
  lemma CausalBacking(s: State, w: nat, n: NodeId)
    requires Reachable(s) && w < |s.wfs| && InFlight(s, w, n)
    ensures Backed(s, w, n)
  {
    hide Invariant, Reachable, Backed, SentBy, Ordered;
    ReachableInvariant(s);
    TracedParts(s);
    var g := s.wfs[w].graph;
    if Message(w, n) in s.queue {
      var i :| 0 <= i < |s.queue| && s.queue[i] == Message(w, n);
      assert SentTo(s, w, n);
    } else {
      var r :| 0 <= r < |s.rows| && IsAt(s.rows[r], w, n);
      assert AcceptedBefore(s.hist, |s.hist|, w, n);
      AcceptedSent(s, w, n, s);
    }
    var j :| 0 <= j < |s.hist| && !s.hist[j].Resumed? && SentBy(g, s.hist[j], w, n) > 0;
    SenderBacked(s, w, j, n);
  }
}
