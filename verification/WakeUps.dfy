/** No order of completions forgets a node whose inputs are all there. */
module WakeUps {
  import opened Wrappers
  import opened Graphs
  import opened Tables
  import opened Protocol
  import opened Moves
  import opened Safety

  /** Input `a` has exactly one row, it succeeded, and its recorded result leads to `n`. */
  ghost predicate Feeds(rows: seq<Row>, g: Graph, w: nat, a: NodeId, n: NodeId) {
    exists i :: Only(rows, w, a, i) && rows[i].status == TSuccess && rows[i].result.Some?
             && LeadsTo(g, a, rows[i].result.value, n)
  }

  ghost predicate LeadsTo(g: Graph, a: NodeId, v: Value, n: NodeId) {
    Route(g, a, v).Some? && n in Route(g, a, v).value
  }

  ghost predicate Woken(rows: seq<Row>, g: Graph, w: nat, n: NodeId) {
    forall a :: Edge(g, a, n) ==> Feeds(rows, g, w, a, n)
  }

  ghost predicate InFlight(s: State, w: nat, n: NodeId) {
    Message(w, n) in s.queue || !Missing(s.rows, w, n)
  }

  ghost predicate NeverParked(s: State, w: nat) {
    forall k :: 0 <= k < |s.hist| ==> !(s.hist[k].Parked? && s.hist[k].wf == w)
  }

  /** In a started and never parked workflow no ready node is forgotten. */
  ghost predicate NoLostWakeUp(s: State) {
    forall w, n :: 0 <= w < |s.wfs| && Watched(s, w, n) && Woken(s.rows, s.wfs[w].graph, w, n) ==> InFlight(s, w, n)
  }

  ghost predicate Watched(s: State, w: nat, n: NodeId)
    requires w < |s.wfs|
  {
    && !s.wfs[w].pending && NeverParked(s, w)
    && SourcesKnown(s.wfs[w].graph) && n in s.wfs[w].graph.kind
  }

  lemma FeedsBack(s: State, t: State, w: nat, a: NodeId, n: NodeId)
    requires Grows(s, t) && w < |s.wfs| && Feeds(t.rows, t.wfs[w].graph, w, a, n)
    requires forall r :: 0 <= r < |s.rows| && t.rows[r].status == TSuccess ==>
      s.rows[r].status == TSuccess && s.rows[r].result == t.rows[r].result
    requires forall r :: |s.rows| <= r < |t.rows| ==> t.rows[r].status != TSuccess
    ensures Feeds(s.rows, s.wfs[w].graph, w, a, n)
  {
    var i :| Only(t.rows, w, a, i) && t.rows[i].status == TSuccess && t.rows[i].result.Some?
      && LeadsTo(t.wfs[w].graph, a, t.rows[i].result.value, n);
    assert Only(s.rows, w, a, i);
  }

  lemma WokenBack(s: State, t: State, w: nat, n: NodeId)
    requires Grows(s, t) && w < |s.wfs| && Woken(t.rows, t.wfs[w].graph, w, n)
    requires forall r :: 0 <= r < |s.rows| && t.rows[r].status == TSuccess ==>
      s.rows[r].status == TSuccess && s.rows[r].result == t.rows[r].result
    requires forall r :: |s.rows| <= r < |t.rows| ==> t.rows[r].status != TSuccess
    ensures Woken(s.rows, s.wfs[w].graph, w, n)
  {
    forall a | Edge(s.wfs[w].graph, a, n) ensures Feeds(s.rows, s.wfs[w].graph, w, a, n) {
      FeedsBack(s, t, w, a, n);
    }
  }

  lemma WatchedBack(s: State, t: State, w: nat, n: NodeId)
    requires Grows(s, t) && w < |s.wfs| && Watched(t, w, n)
    ensures NeverParked(s, w)
  {
    assert forall k :: 0 <= k < |s.hist| ==> t.hist[k] == s.hist[k];
  }

  /** A step that completes nothing, consumes nothing, and starts nothing. */
  lemma QuietWakes(s: State, t: State)
    requires NoLostWakeUp(s) && Grows(s, t)
    requires forall r :: 0 <= r < |s.rows| && t.rows[r].status == TSuccess ==>
      s.rows[r].status == TSuccess && s.rows[r].result == t.rows[r].result
    requires |t.rows| == |s.rows| && |s.queue| <= |t.queue| && t.queue[..|s.queue|] == s.queue
    requires forall w :: 0 <= w < |t.wfs| && !t.wfs[w].pending ==> w < |s.wfs| && !s.wfs[w].pending
    ensures NoLostWakeUp(t)
  {
    forall w, n | 0 <= w < |t.wfs| && Watched(t, w, n) && Woken(t.rows, t.wfs[w].graph, w, n) ensures InFlight(t, w, n) {
      WokenBack(s, t, w, n);
      WatchedBack(s, t, w, n);
      assert InFlight(s, w, n);
      InFlightStays(s, t, w, n);
    }
  }

  lemma InFlightStays(s: State, t: State, w: nat, n: NodeId)
    requires Grows(s, t) && InFlight(s, w, n)
    requires Message(w, n) in s.queue ==> Message(w, n) in t.queue
    ensures InFlight(t, w, n)
  {
    if !Missing(s.rows, w, n) {
      var r :| 0 <= r < |s.rows| && IsAt(s.rows[r], w, n);
      assert IsAt(t.rows[r], w, n);
    }
  }

  lemma StoredRoutes(g: Graph, n: NodeId, v: Value)
    ensures Route(g, n, Stored(v)) == Route(g, n, v)
  {
  }

  lemma FrameWakes(s: State, r: nat, v: Value)
    requires Sound(s) && NoLostWakeUp(s) && r < |s.rows|
    ensures NoLostWakeUp(Frame(s, r, v))
  {
    var t := Frame(s, r, v);
    var p, m := s.rows[r].wf, s.rows[r].node;
    hide Existing, Sound, NoLostWakeUp, Watched, Woken, Route;
    forall w, n | 0 <= w < |t.wfs| && Watched(t, w, n) && Woken(t.rows, t.wfs[w].graph, w, n) ensures InFlight(t, w, n) {
      FrameWakesOne(s, r, v, w, n);
    }
    assert NoLostWakeUp(t) by { Collect(t); }
  }

  lemma Collect(t: State)
    requires forall w, n :: 0 <= w < |t.wfs| && Watched(t, w, n) && Woken(t.rows, t.wfs[w].graph, w, n) ==> InFlight(t, w, n)
    ensures NoLostWakeUp(t)
  {
  }

  /** A success whose result leads to an existing node queues a message for it. */
  lemma FrameSends(s: State, r: nat, v: Value, n: NodeId)
    requires Sound(s) && r < |s.rows|
    requires var g := s.wfs[s.rows[r].wf].graph; n in g.kind && LeadsTo(g, s.rows[r].node, Stored(v), n)
    ensures Message(s.rows[r].wf, n) in Frame(s, r, v).queue
  {
    var w, m := s.rows[r].wf, s.rows[r].node;
    var g := s.wfs[w].graph;
    StoredRoutes(g, m, v);
    hide Route, Existing, Grows;
    var next := Route(g, m, v).value;
    var k :| 0 <= k < |Existing(g, next)| && Existing(g, next)[k] == n;
    assert Frame(s, r, v).queue[|s.queue| + k] == Message(w, n);
  }

  /** An input that is another node was feeding already. */
  lemma FeedsElsewhere(s: State, r: nat, v: Value, w: nat, a: NodeId, n: NodeId)
    requires Sound(s) && r < |s.rows| && w < |s.wfs| && !IsAt(s.rows[r], w, a)
    requires Feeds(Frame(s, r, v).rows, s.wfs[w].graph, w, a, n)
    ensures Feeds(s.rows, s.wfs[w].graph, w, a, n)
  {
    hide Route, Existing, LeadsTo, Grows;
    var t := Frame(s, r, v);
    assert |t.rows| == |s.rows| && forall k :: 0 <= k < |s.rows| && k != r ==> t.rows[k] == s.rows[k];
    var i :| Only(t.rows, w, a, i) && t.rows[i].status == TSuccess && t.rows[i].result.Some?
      && LeadsTo(s.wfs[w].graph, a, t.rows[i].result.value, n);
    assert Only(s.rows, w, a, i);
  }

  lemma FrameWakesOne(s: State, r: nat, v: Value, w: nat, n: NodeId)
    requires Sound(s) && NoLostWakeUp(s) && r < |s.rows|
    requires var t := Frame(s, r, v); w < |t.wfs| && Watched(t, w, n) && Woken(t.rows, t.wfs[w].graph, w, n)
    ensures InFlight(Frame(s, r, v), w, n)
  {
    var t := Frame(s, r, v);
    var p, m := s.rows[r].wf, s.rows[r].node;
    var g := s.wfs[p].graph;
    hide Route, Existing;
    if w == p && Edge(g, m, n) {
      hide NoLostWakeUp;
      assert Feeds(t.rows, g, p, m, n);
      assert LeadsTo(g, m, Stored(v), n);
      FrameSends(s, r, v, n);
    } else {
      forall a | Edge(s.wfs[w].graph, a, n) ensures Feeds(s.rows, s.wfs[w].graph, w, a, n) {
        FeedsElsewhere(s, r, v, w, a, n);
      }
      hide Frame, Feeds, Edge;
      WatchedBack(s, t, w, n);
      assert InFlight(s, w, n);
      InFlightStays(s, t, w, n);
    }
  }

  lemma DeliverWakes(s: State, i: nat)
    requires Sound(s) && NoLostWakeUp(s) && i < |s.queue|
    ensures NoLostWakeUp(ProcessNextNode(s, i))
  {
    var t := ProcessNextNode(s, i);
    var p, m := s.queue[i].wf, s.queue[i].node;
    forall w, n | 0 <= w < |t.wfs| && Watched(t, w, n) && Woken(t.rows, t.wfs[w].graph, w, n) ensures InFlight(t, w, n) {
      WokenBack(s, t, w, n);
      WatchedBack(s, t, w, n);
      assert InFlight(s, w, n);
      if w == p && n == m {
        WokenReady(s.rows, s.wfs[w].graph, w, n);
        assert t.hist[|s.hist|].Accepted?;
        assert t.rows[|s.rows|] == NewRow(w, n) && IsAt(NewRow(w, n), w, n);
        assert InFlight(t, w, n);
      } else {
        if Message(w, n) in s.queue {
          var k :| 0 <= k < |s.queue| && s.queue[k] == Message(w, n);
          if k != i {
            assert t.queue[if k < i then k else k - 1] == Message(w, n);
          }
        }
        assert Message(w, n) in s.queue ==> Message(w, n) in t.queue;
        InFlightStays(s, t, w, n);
        assert InFlight(t, w, n);
      }
    }
  }

  lemma WokenReady(rows: seq<Row>, g: Graph, w: nat, n: NodeId)
    requires Woken(rows, g, w, n)
    ensures Ready(rows, g, w, n)
  {
    forall c | c in g.connections && c.target == n
      ensures Get(rows, w, c.source).Some? && rows[Get(rows, w, c.source).value].status == TSuccess
    {
      assert Edge(g, c.source, n);
      var i :| Only(rows, w, c.source, i) && rows[i].status == TSuccess;
    }
  }

  lemma StartWakes(s: State, w0: nat)
    requires Typed(s) && Fresh(s) && NoLostWakeUp(s) && w0 < |s.wfs| && s.wfs[w0].pending
    ensures NoLostWakeUp(ExecuteWorkflow(s, w0))
  {
    var t := ExecuteWorkflow(s, w0);
    forall w, n | 0 <= w < |t.wfs| && Watched(t, w, n) && Woken(t.rows, t.wfs[w].graph, w, n) ensures InFlight(t, w, n) {
      WatchedBack(s, t, w, n);
      if w == w0 {
        var g := s.wfs[w].graph;
        if IsTarget(g.connections, n) {
          var c :| c in g.connections && c.target == n;
          assert Edge(g, c.source, n);
          assert false;
        } else {
          assert n in StartSends(g);
          var k :| 0 <= k < |StartSends(g)| && StartSends(g)[k] == n;
          assert t.queue[|s.queue| + k] == Message(w, n);
        }
      } else {
        WokenBack(s, t, w, n);
        assert InFlight(s, w, n);
        InFlightStays(s, t, w, n);
      }
    }
  }

  lemma EventWakes(s: State, e: Event)
    requires Typed(s) && Fresh(s) && NoLostWakeUp(s)
    requires Enabled(s, e) && !e.Return? && !e.Raise?
    ensures NoLostWakeUp(Step(s, e))
  {
    hide Ready, StartSends, Hit, Busy, OnSuccess, OnRaise, ProcessNextNode, ExecuteWorkflow, NoLostWakeUp;
    if e.Deliver? {
      DeliverWakes(s, e.message);
    } else if e.Start? {
      StartWakes(s, e.wf);
    } else {
      QuietEvent(s, e);
    }
  }

  lemma QuietEvent(s: State, e: Event)
    requires Sound(s) && NoLostWakeUp(s)
    requires Enabled(s, e) && !e.Return? && !e.Raise? && !e.Deliver? && !e.Start?
    ensures NoLostWakeUp(Step(s, e))
  {
    hide Ready, StartSends, Hit, Busy, OnSuccess, OnRaise, ProcessNextNode, ExecuteWorkflow, NoLostWakeUp, Sound;
    QuietWakes(s, Step(s, e));
  }

  lemma MoveWakes(s: State, m: Move)
    requires Can(s, m) && Typed(s) && Fresh(s) && NoLostWakeUp(s)
    ensures NoLostWakeUp(Made(s, m))
  {
    hide Frame, Step, Grows, NoLostWakeUp, Typed, Fresh;
    match m
    case Do(e) => EventWakes(s, e);
    case Finish(r, v) =>
      QuietWakes(s, Stop(s, r));
      FrameWakes(Stop(s, r), r, v);
    case Lift(r, v, _) => FrameWakes(s, r, v);
    case Break(r, timedOut) => QuietWakes(s, Fail(s, r, timedOut));
  }
}
