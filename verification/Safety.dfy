/**
 * What holds in every reachable state: tables and queue are well typed, a row is created only
 * after all its ancestors succeeded, and a single-sink workflow closes only when all nodes have.
 */
module Safety {
  import opened Wrappers
  import opened Graphs
  import opened Tables
  import opened Protocol
  import opened Moves

  lemma MoveGrows(s: State, m: Move)
    requires Can(s, m)
    ensures Grows(s, Made(s, m))
  {
    hide Frame, Step, Fail;
  }

  lemma {:induction false} ChainGrows(s: State, ms: seq<Move>, t: State)
    requires Chain(s, ms, t)
    ensures Grows(s, t)
    decreases |ms|
  {
    hide Made, Can;
    if ms != [] {
      MoveGrows(s, ms[0]);
      ChainGrows(Made(s, ms[0]), ms[1..], t);
    }
  }

  /** Graphs have distinct nodes, and every reference to a node is to a node of its workflow's graph. */
  ghost predicate Typed(s: State) {
    && Sound(s)
    && (forall w :: 0 <= w < |s.wfs| ==>
         && Keyed(s.wfs[w].graph)
         && (s.wfs[w].current == "" || s.wfs[w].current in s.wfs[w].graph.kind))
    && (forall r :: 0 <= r < |s.rows| ==>
         && s.rows[r].node in s.wfs[s.rows[r].wf].graph.kind
         && (s.rows[r].status == TSuccess ==> s.rows[r].result.Some?))
    && (forall i :: 0 <= i < |s.queue| ==> s.queue[i].node in s.wfs[s.queue[i].wf].graph.kind)
  }

  /** Nothing has happened yet to a workflow whose start is still queued. */
  ghost predicate Fresh(s: State) {
    && Sound(s)
    && (forall w :: 0 <= w < |s.wfs| && s.wfs[w].pending ==> s.wfs[w].status in {WInit, WCanceled} && s.wfs[w].current == "")
    && (forall r :: 0 <= r < |s.rows| ==> !s.wfs[s.rows[r].wf].pending)
    && (forall i :: 0 <= i < |s.queue| ==> !s.wfs[s.queue[i].wf].pending)
    && (forall k :: 0 <= k < |s.hist| ==> s.hist[k].wf < |s.wfs| && !s.wfs[s.hist[k].wf].pending)
  }

  lemma MarkTyped(s: State, r: nat, v: Value)
    requires Typed(s) && r < |s.rows|
    ensures Typed(Mark(s, r, v))
  {
    hide Grows, Keyed;
  }

  lemma CloseTyped(s: State, w: nat, n: NodeId)
    requires Typed(s) && w < |s.wfs| && n in s.wfs[w].graph.kind
    ensures Typed(Close(s, w, n))
  {
    hide Grows, Keyed;
  }

  lemma DispatchTyped(s: State, w: nat, next: seq<NodeId>)
    requires Typed(s) && w < |s.wfs|
    ensures Typed(Dispatch(s, w, next))
  {
    hide Grows, Keyed, Existing;
    var ids := Existing(s.wfs[w].graph, next);
    forall i | 0 <= i < |ids| ensures ids[i] in s.wfs[w].graph.kind {
      assert ids[i] in ids;
    }
  }

  lemma FrameTyped(s: State, r: nat, v: Value)
    requires Typed(s) && r < |s.rows|
    ensures Typed(Frame(s, r, v))
  {
    var w, n, t := s.rows[r].wf, s.rows[r].node, Mark(s, r, v);
    MarkTyped(s, r, v);
    assert n in t.wfs[w].graph.kind;
    hide Route, Grows, Typed, Mark, Close, Dispatch;
    var next := Route(s.wfs[w].graph, n, v);
    if next == Some([]) {
      CloseTyped(t, w, n);
    } else if next.Some? {
      DispatchTyped(t, w, next.value);
    }
  }

  lemma DeliverTyped(s: State, i: nat)
    requires Typed(s) && i < |s.queue|
    ensures Typed(ProcessNextNode(s, i))
  {
    hide Ready, Grows;
  }

  lemma SendTyped(s: State, w: nat)
    requires Typed(s) && w < |s.wfs|
    ensures Typed(ExecuteWorkflow(s, w)) && Typed(ResumeWorkflow(s, w))
  {
    hide Busy, Grows, Keyed, StartSends;
    var g := s.wfs[w].graph;
    forall i | 0 <= i < |StartSends(g)| ensures StartSends(g)[i] in g.kind {
      StartsKnown(g, StartSends(g)[i]);
    }
  }

  lemma StartsKnown(g: Graph, n: NodeId)
    requires Keyed(g) && n in StartSends(g)
    ensures n in g.kind
  {
  }

  lemma CancelTyped(s: State, w: nat)
    requires Typed(s) && w < |s.wfs|
    ensures Typed(CancelWorkflow(s, w))
  {
    hide Hit, Grows, Keyed;
  }

  lemma EventTyped(s: State, e: Event)
    requires Typed(s) && Enabled(s, e) && !e.Return? && !e.Raise?
    ensures Typed(Step(s, e))
  {
    hide ExecuteWorkflow, ResumeWorkflow, ProcessNextNode, CancelWorkflow, CancelExisting, Grows, OnSuccess, OnRaise;
    if e.Deliver? {
      DeliverTyped(s, e.message);
    } else if e.Start? || e.Resume? {
      SendTyped(s, e.wf);
    } else if e.Cancel? {
      CancelTyped(s, e.wf);
    } else if e.Sweep? {
      SweepTyped(s, e.worker);
    }
  }

  lemma SweepTyped(s: State, worker: string)
    requires Typed(s)
    ensures Typed(CancelExisting(s, worker))
  {
    hide Hit, Grows, Keyed;
  }

  lemma MoveTyped(s: State, m: Move)
    requires Can(s, m) && Typed(s)
    ensures Typed(Made(s, m))
  {
    hide Frame, Step, Grows;
    match m
    case Do(e) => EventTyped(s, e);
    case Finish(r, v) => FrameTyped(Stop(s, r), r, v);
    case Lift(r, v, _) => FrameTyped(s, r, v);
    case Break(_, _) =>
  }

  ghost predicate SucceededBefore(h: seq<Entry>, k: int, w: nat, n: NodeId) {
    exists i :: 0 <= i < k && i < |h| && h[i].Succeeded? && h[i].wf == w && h[i].node == n
  }

  ghost predicate AcceptedBefore(h: seq<Entry>, k: int, w: nat, n: NodeId) {
    exists i :: 0 <= i < k && i < |h| && h[i] == Accepted(w, n)
  }

  ghost predicate InputsBefore(g: Graph, h: seq<Entry>, k: int, w: nat, n: NodeId) {
    forall a :: Edge(g, a, n) ==> SucceededBefore(h, k, w, a)
  }

  /** Every row was accepted, and a row in SUCCESS has succeeded. */
  ghost predicate RowsLogged(s: State) {
    forall r :: 0 <= r < |s.rows| ==>
      var row := s.rows[r];
      && AcceptedBefore(s.hist, |s.hist|, row.wf, row.node)
      && (row.status == TSuccess ==> SucceededBefore(s.hist, |s.hist|, row.wf, row.node))
  }

  /** A node succeeds only after it was accepted, and is accepted only after all its inputs succeeded. */
  ghost predicate Ordered(s: State) {
    forall k :: 0 <= k < |s.hist| ==> InOrder(s, k)
  }

  ghost predicate InOrder(s: State, k: int)
    requires 0 <= k < |s.hist|
  {
    match s.hist[k]
    case Succeeded(w, n, _) => AcceptedBefore(s.hist, k, w, n)
    case Accepted(w, n) => w < |s.wfs| && InputsBefore(s.wfs[w].graph, s.hist, k, w, n)
    case _ => true
  }

  ghost predicate Causal(s: State) {
    Sound(s) && RowsLogged(s) && Ordered(s)
  }

  lemma OrderedGrows(s: State, t: State, k: int)
    requires Ordered(s) && Grows(s, t) && 0 <= k < |s.hist|
    ensures InOrder(t, k)
  {
    assert forall i :: 0 <= i < |s.hist| ==> t.hist[i] == s.hist[i];
    assert InOrder(s, k);
    if s.hist[k].Accepted? {
      var w, n := s.hist[k].wf, s.hist[k].node;
      forall a | Edge(t.wfs[w].graph, a, n) ensures SucceededBefore(t.hist, k, w, a) {
        assert SucceededBefore(s.hist, k, w, a);
      }
    }
  }

  /** A step that accepts and completes nothing. */
  lemma QuietCausal(s: State, t: State)
    requires Causal(s) && Sound(t) && Grows(s, t) && |t.rows| == |s.rows|
    requires forall r :: 0 <= r < |t.rows| && t.rows[r].status == TSuccess ==> s.rows[r].status == TSuccess
    requires forall k :: |s.hist| <= k < |t.hist| ==> !t.hist[k].Succeeded? && !t.hist[k].Accepted?
    ensures Causal(t)
  {
    assert forall i :: 0 <= i < |s.hist| ==> t.hist[i] == s.hist[i];
    forall k | 0 <= k < |t.hist| && k < |s.hist| { OrderedGrows(s, t, k); }
  }

  lemma FrameCausal(s: State, r: nat, v: Value)
    requires Causal(s) && r < |s.rows|
    ensures Causal(Frame(s, r, v))
  {
    var t := Frame(s, r, v);
    hide Route, Existing, Sound;
    assert t.hist == s.hist + [Succeeded(s.rows[r].wf, s.rows[r].node, v)];
    assert t.hist[|s.hist|] == Succeeded(s.rows[r].wf, s.rows[r].node, v);
    hide Frame;
    assert forall i :: 0 <= i < |s.hist| ==> t.hist[i] == s.hist[i];
    forall k | 0 <= k < |s.hist| { OrderedGrows(s, t, k); }
  }

  lemma DeliverCausal(s: State, i: nat)
    requires Causal(s) && i < |s.queue|
    ensures Causal(ProcessNextNode(s, i))
  {
    var w, n := s.queue[i].wf, s.queue[i].node;
    var t := ProcessNextNode(s, i);
    assert forall j :: 0 <= j < |s.hist| ==> t.hist[j] == s.hist[j];
    forall k | 0 <= k < |s.hist| { OrderedGrows(s, t, k); }
    if t.hist[|s.hist|].Accepted? {
      assert Ready(s.rows, s.wfs[w].graph, w, n);
      forall a | Edge(s.wfs[w].graph, a, n) ensures SucceededBefore(t.hist, |s.hist|, w, a) {
        assert SucceededBefore(s.hist, |s.hist|, w, a);
      }
    }
  }

  /**
   * Taking a message makes a row exactly when its node is known, the workflow is not waiting, and
   * every direct predecessor has exactly one row, in SUCCESS, at that moment.
   */
  lemma RowIffInputsSettled(s: State, i: nat)
    requires Sound(s) && i < |s.queue|
    ensures var w, n := s.queue[i].wf, s.queue[i].node; var g := s.wfs[w].graph;
      |ProcessNextNode(s, i).rows| > |s.rows| <==>
        n in g.kind && s.wfs[w].status != WWait && forall a :: Edge(g, a, n) ==> Settled(s.rows, w, a)
  {
    var w, n := s.queue[i].wf, s.queue[i].node;
    ReadySettled(s.rows, s.wfs[w].graph, w, n);
    hide Ready, Settled, Edge, Grows;
  }

  lemma ReadySettled(rows: seq<Row>, g: Graph, w: nat, n: NodeId)
    ensures Ready(rows, g, w, n) <==> forall a :: Edge(g, a, n) ==> Settled(rows, w, a)
  {
    if Ready(rows, g, w, n) {
      forall a | Edge(g, a, n) ensures Settled(rows, w, a) {
        var c :| c in g.connections && c.source == a && c.target == n;
        assert Only(rows, w, a, Get(rows, w, a).value);
      }
    }
    if forall a :: Edge(g, a, n) ==> Settled(rows, w, a) {
      forall c | c in g.connections && c.target == n
        ensures Get(rows, w, c.source).Some? && rows[Get(rows, w, c.source).value].status == TSuccess
      {
        assert Edge(g, c.source, n);
        var k :| Only(rows, w, c.source, k) && rows[k].status == TSuccess;
      }
    }
  }

  lemma EventCausal(s: State, e: Event)
    requires Causal(s) && Enabled(s, e) && !e.Return? && !e.Raise? && !e.Deliver?
    ensures Causal(Step(s, e))
  {
    hide Ready, StartSends, Hit, Busy, OnSuccess, OnRaise, ProcessNextNode, RowsLogged, Ordered;
    QuietCausal(s, Step(s, e));
  }

  lemma MoveCausal(s: State, m: Move)
    requires Can(s, m) && Causal(s)
    ensures Causal(Made(s, m))
  {
    hide Frame, ProcessNextNode, Grows, RowsLogged, Ordered;
    match m
    case Do(e) =>
      if e.Deliver? {
        DeliverCausal(s, e.message);
      } else {
        EventCausal(s, e);
      }
    case Finish(r, v) =>
      QuietCausal(s, Stop(s, r));
      FrameCausal(Stop(s, r), r, v);
    case Lift(r, v, _) => FrameCausal(s, r, v);
    case Break(r, timedOut) => QuietCausal(s, Fail(s, r, timedOut));
  }

  /** Every nested workflow stands at a node of its parent that calls a workflow. */
  ghost predicate ChildrenAtCalls(s: State) {
    forall x :: 0 <= x < |s.wfs| && s.wfs[x].parent.Some? ==>
      s.wfs[x].parent.value < |s.wfs| && IsCall(s.wfs[s.wfs[x].parent.value].graph, s.wfs[x].node)
  }

  lemma MoveChildren(s: State, m: Move)
    requires Can(s, m) && ChildrenAtCalls(s)
    ensures ChildrenAtCalls(Made(s, m))
  {
    MoveGrows(s, m);
    NewWorkflows(s, m);
    hide Made, Can;
  }

  /** Only launching and delegating make workflows, the latter at a calling node. */
  lemma NewWorkflows(s: State, m: Move)
    requires Can(s, m)
    ensures |s.wfs| <= |Made(s, m).wfs|
    ensures forall x :: |s.wfs| <= x < |Made(s, m).wfs| ==>
      var wf := Made(s, m).wfs[x];
      wf.parent.Some? ==> wf.parent.value < |s.wfs| && IsCall(s.wfs[wf.parent.value].graph, wf.node)
  {
    hide Grows, Route, Existing, Ready, Busy, Hit, StartSends;
  }

  lemma DispatchFresh(s: State, w: nat, next: seq<NodeId>)
    requires Fresh(s) && w < |s.wfs| && !s.wfs[w].pending
    ensures Fresh(Dispatch(s, w, next))
  {
    hide Existing, Grows;
  }

  lemma CloseFresh(s: State, w: nat, n: NodeId)
    requires Fresh(s) && w < |s.wfs| && !s.wfs[w].pending
    ensures Fresh(Close(s, w, n))
  {
    hide Grows;
  }

  lemma MarkFresh(s: State, r: nat, v: Value)
    requires Fresh(s) && r < |s.rows|
    ensures Fresh(Mark(s, r, v))
    ensures !Mark(s, r, v).wfs[s.rows[r].wf].pending
  {
    hide Grows;
  }

  lemma FrameFresh(s: State, r: nat, v: Value)
    requires Fresh(s) && r < |s.rows|
    ensures Fresh(Frame(s, r, v))
  {
    var w, n, t := s.rows[r].wf, s.rows[r].node, Mark(s, r, v);
    MarkFresh(s, r, v);
    hide Route, Grows, Fresh, Mark, Close, Dispatch;
    var next := Route(s.wfs[w].graph, n, v);
    if next == Some([]) {
      CloseFresh(t, w, n);
    } else if next.Some? {
      DispatchFresh(t, w, next.value);
    }
  }

  lemma MessagesFresh(s: State, e: Event)
    requires Fresh(s) && Enabled(s, e) && (e.Deliver? || e.Start? || e.Resume?)
    ensures Fresh(Step(s, e))
  {
    hide ProcessNextNode, ExecuteWorkflow, ResumeWorkflow, Fresh;
    match e
    case Deliver(i) => DeliverFresh(s, i);
    case Start(w) => StartFresh(s, w);
    case Resume(w) => ResumeFresh(s, w);
  }

  lemma DeliverFresh(s: State, i: nat)
    requires Fresh(s) && i < |s.queue|
    ensures Fresh(ProcessNextNode(s, i))
  {
    hide Ready, Grows;
  }

  lemma StartFresh(s: State, w: nat)
    requires Fresh(s) && w < |s.wfs|
    ensures Fresh(ExecuteWorkflow(s, w))
  {
    hide StartSends, Grows;
  }

  lemma ResumeFresh(s: State, w: nat)
    requires Fresh(s) && w < |s.wfs|
    ensures Fresh(ResumeWorkflow(s, w))
  {
    hide Busy, Grows;
  }

  lemma EventFresh(s: State, e: Event)
    requires Fresh(s) && Enabled(s, e) && !e.Return? && !e.Raise?
    ensures Fresh(Step(s, e))
  {
    hide Hit, OnSuccess, OnRaise, Grows, ProcessNextNode, ExecuteWorkflow, ResumeWorkflow;
    if e.Deliver? || e.Start? || e.Resume? {
      MessagesFresh(s, e);
    }
  }

  lemma MoveFresh(s: State, m: Move)
    requires Can(s, m) && Fresh(s)
    ensures Fresh(Made(s, m))
  {
    hide Frame, Step, Grows;
    match m
    case Do(e) => EventFresh(s, e);
    case Finish(r, v) => FrameFresh(Stop(s, r), r, v);
    case Lift(r, v, _) => FrameFresh(s, r, v);
    case Break(_, _) =>
  }

  // ---- closing ----

  ghost predicate Ends(g: Graph, e: Entry, w: nat) {
    e.Succeeded? && e.wf == w && Route(g, e.node, e.value) == Some([])
  }

  /** A closed workflow has recorded the success of a node with nothing to follow it. */
  ghost predicate Closing(s: State) {
    forall w :: 0 <= w < |s.wfs| && s.wfs[w].status == WSuccess ==>
      exists k :: 0 <= k < |s.hist| && Ends(s.wfs[w].graph, s.hist[k], w)
  }

  lemma QuietClosing(s: State, t: State)
    requires Closing(s) && Grows(s, t)
    requires forall w :: 0 <= w < |t.wfs| && t.wfs[w].status == WSuccess ==> w < |s.wfs| && s.wfs[w].status == WSuccess
    ensures Closing(t)
  {
    hide Ends;
    forall w | 0 <= w < |t.wfs| && t.wfs[w].status == WSuccess
      ensures exists k :: 0 <= k < |t.hist| && Ends(t.wfs[w].graph, t.hist[k], w)
    {
      var k :| 0 <= k < |s.hist| && Ends(s.wfs[w].graph, s.hist[k], w);
      assert t.hist[k] == s.hist[k];
    }
  }

  lemma FrameClosing(s: State, r: nat, v: Value)
    requires Sound(s) && Closing(s) && r < |s.rows|
    ensures Closing(Frame(s, r, v))
  {
    hide Route, Existing, Ends;
    var t := Frame(s, r, v);
    var w, n := s.rows[r].wf, s.rows[r].node;
    if Route(s.wfs[w].graph, n, v) == Some([]) {
      assert Ends(s.wfs[w].graph, Succeeded(w, n, v), w) by { EndsHere(s.wfs[w].graph, w, n, v); }
      var before := s.(hist := t.hist);
      QuietClosing(s, before);
      assert t.hist[|s.hist|] == Succeeded(w, n, v);
    } else {
      QuietClosing(s, t);
    }
  }

  lemma EndsHere(g: Graph, w: nat, n: NodeId, v: Value)
    requires Route(g, n, v) == Some([])
    ensures Ends(g, Succeeded(w, n, v), w)
  {
    hide Route;
  }

  lemma EventClosing(s: State, e: Event)
    requires Sound(s) && Closing(s) && Enabled(s, e) && !e.Return? && !e.Raise?
    ensures Closing(Step(s, e))
  {
    hide Ready, StartSends, Hit, Busy, OnSuccess, OnRaise, Closing;
    QuietClosing(s, Step(s, e));
  }

  lemma MoveClosing(s: State, m: Move)
    requires Can(s, m) && Closing(s)
    ensures Closing(Made(s, m))
  {
    hide Frame, Step, Grows, Closing;
    match m
    case Do(e) => EventClosing(s, e);
    case Finish(r, v) =>
      QuietClosing(s, Stop(s, r));
      FrameClosing(Stop(s, r), r, v);
    case Lift(r, v, _) => FrameClosing(s, r, v);
    case Break(r, timedOut) => QuietClosing(s, Fail(s, r, timedOut));
  }
}
