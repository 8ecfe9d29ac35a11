/** The token of a line survives any number of pauses and of resumes asked for at the right moment. */
module PauseResume {
  import opened Wrappers
  import opened Graphs
  import opened Tables
  import opened Protocol
  import opened Safety
  import opened Runs
  import opened Bounds
  import opened Conservation
  import opened Schedules
  import opened Tokens

  /** What a caller can check before resuming: nothing is queued, or nothing was ever parked. */
  ghost predicate Resumable(s: State, w: nat)
    requires w < |s.wfs|
  {
    PendingOf(s.queue, w) == [] || s.wfs[w].current == ""
  }

  /**
   * No failure, kill or cancel in workflow `w`, it is only resumed when resumable, and the return
   * that ends it when it is nested is still to come.
   */
  ghost predicate Calm(s: State, e: Event, w: nat)
    requires Sound(s) && Enabled(s, e) && w < |s.wfs|
  {
    || Elsewhere(s, e, w)
    || e.Deliver? || e.Begin? || e.Pause?
    || (e.Return? && (s.wfs[w].parent == None || !Sink(s.wfs[w].graph, s.rows[e.row].node)))
    || (e.Resume? && (s.wfs[w].status == WWait && !Busy(s, w) ==> Resumable(s, w)))
  }

  lemma LineNext(g: Graph, p: seq<NodeId>, x: nat)
    requires Line(g, p) && x < |p|
    ensures x < |p| - 1 ==> Targets(g.connections, p[x]) == [p[x + 1]]
    ensures x == |p| - 1 ==> Targets(g.connections, p[x]) == []
  {
    var ts := Targets(g.connections, p[x]);
    assert ts == if x < |p| - 1 then [p[x + 1]] else [];
  }

  /** Inputs of a node of a line are ready once the nodes before it are done. */
  lemma EarlierDone(rows: seq<Row>, g: Graph, w: nat, p: seq<NodeId>, j: nat)
    requires Line(g, p) && j < |p| && forall x :: 0 <= x < j ==> DoneRow(rows, w, p[x])
    ensures Ready(rows, g, w, p[j])
  {
    forall c | c in g.connections && c.target == p[j]
      ensures var k := Get(rows, w, c.source); k.Some? && rows[k.value].status == TSuccess
    {
      var x := SourcePlace(g, p, c, j);
      assert DoneRow(rows, w, p[x]);
    }
  }

  /** A connection into node `j` of a line leaves the node before it. */
  lemma SourcePlace(g: Graph, p: seq<NodeId>, c: Connection, j: nat) returns (x: nat)
    requires Line(g, p) && j < |p| && c in g.connections && c.target == p[j]
    ensures x + 1 == j && p[x] == c.source
  {
    x :| x < |p| && p[x] == c.source;
    LineNext(g, p, x);
    assert c.target in Targets(g.connections, p[x]);
  }

  lemma InputsDone(s: State, w: nat, p: seq<NodeId>, i: nat)
    requires w < |s.wfs| && i < |p| && Line(s.wfs[w].graph, p) && TokenRows(s.rows, w, p, i, false)
    ensures Ready(s.rows, s.wfs[w].graph, w, p[i])
  {
    EarlierDone(s.rows, s.wfs[w].graph, w, p, i);
  }

  lemma DeliverToken(s: State, k: nat, w: nat, p: seq<NodeId>, i: nat, f: Place)
    requires Token(s, w, p, i, f) && k < |s.queue| && s.queue[k].wf == w
    ensures f == Waiting
    ensures Token(ProcessNextNode(s, k), w, p, i, if s.wfs[w].status == WWait then Kept else Held)
  {
    hide PendingOf, Visited, Ready, Grows;
    PendingRemove(s.queue, k, w);
    assert s.queue[k].node == p[i];
    InputsDone(s, w, p, i);
    var t := ProcessNextNode(s, k);
    assert t.hist == s.hist + [t.hist[|s.hist|]];
    VisitedLogged(s.hist, t.hist[|s.hist|], w);
    if s.wfs[w].status != WWait {
      NewRowToken(s, w, p, i);
      assert p[..i + 1] == p[..i] + [p[i]];
    }
  }

  lemma NewRowToken(s: State, w: nat, p: seq<NodeId>, i: nat)
    requires w < |s.wfs| && i < |p| && Line(s.wfs[w].graph, p) && TokenRows(s.rows, w, p, i, false)
    ensures TokenRows(s.rows + [NewRow(w, p[i])], w, p, i, true)
  {
    var rows := s.rows + [NewRow(w, p[i])];
    assert rows[|s.rows|] == NewRow(w, p[i]);
    forall j | 0 <= j < i ensures DoneRow(rows, w, p[j]) {
      var r :| Only(s.rows, w, p[j], r) && s.rows[r].status == TSuccess && s.rows[r].phase == Done;
      assert Only(rows, w, p[j], r);
    }
    assert Missing(s.rows, w, p[i]);
    assert Only(rows, w, p[i], |s.rows|);
  }

  /** Rows of the line other than the token's are done. */
  lemma SettledRow(rows: seq<Row>, w: nat, p: seq<NodeId>, i: nat, running: bool, r: nat, j: nat)
    requires i <= |p| && (running ==> i < |p|) && TokenRows(rows, w, p, i, running)
    requires r < |rows| && j < |p| && IsAt(rows[r], w, p[j]) && (j != i || !running)
    ensures j < i && rows[r].phase == Done
  {
    NotMissing(rows, r);
    if j < i {
      assert DoneRow(rows, w, p[j]);
    } else {
      assert false;
    }
  }

  lemma NotMissing(rows: seq<Row>, r: nat)
    requires r < |rows|
    ensures !Missing(rows, rows[r].wf, rows[r].node)
  {
    assert rows[r] in rows;
  }

  /** A row of the line that a worker still holds is the token's. */
  lemma HeldRow(s: State, w: nat, p: seq<NodeId>, i: nat, f: Place, r: nat)
    requires Token(s, w, p, i, f) && r < |s.rows| && s.rows[r].wf == w && s.rows[r].phase != Done
    ensures f == Held && Only(s.rows, w, p[i], r)
    ensures s.rows[r].status in {TInit, TProgress} && s.rows[r].phase in {Created, Running}
  {
    hide Line, PendingOf, Visited, TokenStatus;
    var j: nat :| j < |p| && p[j] == s.rows[r].node;
    if j != i || f != Held {
      SettledRow(s.rows, w, p, i, f == Held, r, j);
      assert false;
    }
    assert OpenRow(s.rows, w, p[i]);
  }

  lemma BeginToken(s: State, r: nat, worker: string, w: nat, p: seq<NodeId>, i: nat, f: Place)
    requires Token(s, w, p, i, f) && r < |s.rows| && s.rows[r].wf == w && s.rows[r].phase == Created
    ensures f == Held && Token(BeforeStart(s, r, worker), w, p, i, Held)
  {
    hide PendingOf, Visited, Grows;
    HeldRow(s, w, p, i, f, r);
    var t := BeforeStart(s, r, worker);
    OneRowChanged(s.rows, t.rows, r, w, p, i);
    assert Only(t.rows, w, p[i], r);
  }

  /** Changing the token's row leaves the others as the token needs them. */
  lemma OneRowChanged(rows: seq<Row>, more: seq<Row>, r: nat, w: nat, p: seq<NodeId>, i: nat)
    requires i < |p| && TokenRows(rows, w, p, i, true) && Only(rows, w, p[i], r)
    requires |more| == |rows| && more == rows[r := more[r]] && IsAt(more[r], w, p[i])
    requires forall a, b :: 0 <= a < b < |p| ==> p[a] != p[b]
    ensures forall j :: 0 <= j < i ==> DoneRow(more, w, p[j])
    ensures forall j :: i + 1 <= j < |p| ==> Missing(more, w, p[j])
    ensures forall k :: 0 <= k < |more| && more[k].wf == w ==> more[k].node in p
  {
    forall j | 0 <= j < i ensures DoneRow(more, w, p[j]) {
      assert DoneRow(rows, w, p[j]);
      var x :| Only(rows, w, p[j], x) && rows[x].status == TSuccess && rows[x].phase == Done;
      assert Only(more, w, p[j], x);
    }
  }

  lemma ReturnRows(rows: seq<Row>, more: seq<Row>, r: nat, w: nat, p: seq<NodeId>, i: nat)
    requires i < |p| && TokenRows(rows, w, p, i, true) && Only(rows, w, p[i], r)
    requires |more| == |rows| && more == rows[r := more[r]] && IsAt(more[r], w, p[i])
    requires more[r].status == TSuccess && more[r].phase == Done
    requires forall a, b :: 0 <= a < b < |p| ==> p[a] != p[b]
    ensures TokenRows(more, w, p, i + 1, false)
  {
    OneRowChanged(rows, more, r, w, p, i);
    assert Only(more, w, p[i], r);
    assert DoneRow(more, w, p[i]);
  }

  lemma ReturnToken(s: State, r: nat, v: Value, w: nat, p: seq<NodeId>, i: nat, f: Place)
    requires Token(s, w, p, i, f) && r < |s.rows| && s.rows[r].wf == w && s.rows[r].phase != Done
    requires s.wfs[w].parent == None || !Sink(s.wfs[w].graph, s.rows[r].node)
    ensures f == Held && Token(OnSuccess(s, r, v), w, p, i + 1, if i + 1 < |p| then Waiting else Ended)
  {
    hide PendingOf, Visited, Grows, TokenRows, OnSuccess, Frame, Route, Existing, Line, Sink;
    HeldRow(s, w, p, i, f, r);
    LastSink(s.wfs[w].graph, p, i);
    LineRoute(s.wfs[w].graph, p, i, v);
    ReturnFrame(s, r, v, w, p, i);
    var t := OnSuccess(s, r, v);
    FramePending(Stop(s, r), r, v, w);
    VisitedLogged(s.hist, Succeeded(w, p[i], v), w);
    LineDistinct(s.wfs[w].graph, p);
    ReturnRows(s.rows, t.rows, r, w, p, i);
  }

  lemma LineDistinct(g: Graph, p: seq<NodeId>)
    requires Line(g, p)
    ensures forall a, b :: 0 <= a < b < |p| ==> p[a] != p[b]
  {
  }

  /** The last node of a line is its sink. */
  lemma LastSink(g: Graph, p: seq<NodeId>, i: nat)
    requires Line(g, p) && i < |p|
    ensures Sink(g, p[i]) <==> i == |p| - 1
  {
    LineNext(g, p, i);
    NoTargets(g.connections, p[i]);
    assert p[i] in g.kind;
  }

  lemma LineRoute(g: Graph, p: seq<NodeId>, i: nat, v: Value)
    requires Line(g, p) && i < |p|
    ensures var next := if i < |p| - 1 then [p[i + 1]] else []; Route(g, p[i], v) == Some(next) && Existing(g, next) == next
  {
    SourcesInLine(g, p);
    assert p[i] in g.kind;
    assert Existing(g, []) == [];
    if i < |p| - 1 {
      assert p[i + 1] in g.kind;
      assert [p[i + 1]][..0] == [];
      assert Existing(g, [p[i + 1]]) == [p[i + 1]];
    }
  }

  lemma ReturnFrame(s: State, r: nat, v: Value, w: nat, p: seq<NodeId>, i: nat)
    requires Sound(s) && w < |s.wfs| && i < |p|
    requires Route(s.wfs[w].graph, p[i], v) == Some([]) ==> s.wfs[w].parent == None
    requires r < |s.rows| && IsAt(s.rows[r], w, p[i]) && s.rows[r].status != TNested
    requires Route(s.wfs[w].graph, p[i], v).Some?
    ensures var t := Frame(Stop(s, r), r, v);
      && OnSuccess(s, r, v) == t
      && t.rows == s.rows[r := t.rows[r]]
      && t.rows[r].status == TSuccess && t.rows[r].phase == Done && IsAt(t.rows[r], w, p[i])
      && t.hist == s.hist + [Succeeded(w, p[i], v)]
      && |t.wfs| == |s.wfs| && t.wfs[w].graph == s.wfs[w].graph && t.wfs[w].parent == s.wfs[w].parent && t.wfs[w].pending == s.wfs[w].pending
      && t.wfs[w].status == (if Route(s.wfs[w].graph, p[i], v) == Some([]) then WSuccess else s.wfs[w].status)
      && t.wfs[w].current == (if Route(s.wfs[w].graph, p[i], v) == Some([]) then p[i] else s.wfs[w].current)
  {
    hide Route, Existing;
  }

  lemma PauseToken(s: State, w: nat, p: seq<NodeId>, i: nat, f: Place)
    requires Token(s, w, p, i, f)
    ensures Token(PauseWorkflow(s, w), w, p, i, f)
  {
    hide Line, PendingOf, Visited, TokenRows, Grows;
  }

  lemma SourcesInLine(g: Graph, p: seq<NodeId>)
    requires Line(g, p)
    ensures SourcesKnown(g)
  {
  }

  lemma HeldBusy(s: State, w: nat, p: seq<NodeId>, i: nat)
    requires Token(s, w, p, i, Held)
    ensures Busy(s, w)
  {
    hide Line, PendingOf, Visited;
    var r :| Only(s.rows, w, p[i], r) && s.rows[r].status in {TInit, TProgress};
    assert s.rows[r] in s.rows;
  }

  /**
   * Resuming keeps the one token exactly when no message of the workflow is still queued or no
   * earlier pause left a node behind.
   */
  lemma ResumeKeepsTokenExactly(s: State, w: nat, p: seq<NodeId>, i: nat, f: Place)
    requires Token(s, w, p, i, f) && s.wfs[w].status == WWait && !Busy(s, w)
    ensures Resumable(s, w) ==> Token(ResumeWorkflow(s, w), w, p, i, Waiting)
    ensures (exists j, h :: Token(ResumeWorkflow(s, w), w, p, j, h)) <==> Resumable(s, w)
  {
    hide PendingOf, Visited, TokenRows, Grows, Busy;
    if f == Held {
      HeldBusy(s, w, p, i);
    }
    var g := s.wfs[w].graph;
    SourcesInLine(g, p);
    var m := s.wfs[w].current;
    PendingConcat(s.queue, Send(w, [m]), w);
    PendingSend(w, [m], w);
    assert Send(w, [m]) == [Message(w, m)];
    VisitedLogged(s.hist, Resumed(w, m), w);
    hide Line;
    if !Resumable(s, w) {
      assert |PendingOf(ResumeWorkflow(s, w).queue, w)| == 2;
    }
  }

  /** One event: the token stays single and moves at most one node on. */
  lemma CalmEventKeepsToken(s: State, e: Event, w: nat, p: seq<NodeId>, i: nat, f: Place) returns (j: nat, h: Place)
    requires ChildrenAtCalls(s) && Token(s, w, p, i, f) && CallFree(s.wfs[w].graph) && Enabled(s, e) && Calm(s, e, w)
    ensures Token(Step(s, e), w, p, j, h) && i <= j <= i + 1
  {
    CallFreeChildless(s, w);
    TokenExists(s, w, p, i, f);
    hide Token, Step, Enabled, Childless, Grows;
    if Elsewhere(s, e, w) {
      EventElsewhere(s, e, w);
      TokenElsewhere(s, Step(s, e), w, p, i, f);
      j, h := i, f;
    } else {
      j, h := LocalEventKeepsToken(s, e, w, p, i, f);
    }
  }

  lemma LocalEventKeepsToken(s: State, e: Event, w: nat, p: seq<NodeId>, i: nat, f: Place) returns (j: nat, h: Place)
    requires Token(s, w, p, i, f) && w < |s.wfs| && Enabled(s, e) && Calm(s, e, w) && !Elsewhere(s, e, w)
    ensures Token(Step(s, e), w, p, j, h) && i <= j <= i + 1
  {
    hide Token, OnSuccess, ProcessNextNode, BeforeStart, ResumeWorkflow, PauseWorkflow, Grows, Busy, PendingOf;
    j, h := i, f;
    if e.Deliver? {
      DeliverToken(s, e.message, w, p, i, f);
      h := if s.wfs[w].status == WWait then Kept else Held;
    } else if e.Begin? {
      BeginToken(s, e.row, e.worker, w, p, i, f);
    } else if e.Return? {
      ReturnToken(s, e.row, e.value, w, p, i, f);
      j, h := i + 1, if i + 1 < |p| then Waiting else Ended;
    } else if e.Pause? {
      PauseToken(s, w, p, i, f);
    } else if s.wfs[w].status == WWait && !Busy(s, w) {
      ResumeKeepsTokenExactly(s, w, p, i, f);
      h := Waiting;
    } else {
      RefusedResume(s, w);
    }
  }

  lemma TokenExists(s: State, w: nat, p: seq<NodeId>, i: nat, f: Place)
    requires Token(s, w, p, i, f)
    ensures w < |s.wfs| && Sound(s)
  {
  }

  lemma RefusedResume(s: State, w: nat)
    requires w < |s.wfs| && (s.wfs[w].status != WWait || Busy(s, w))
    ensures ResumeWorkflow(s, w) == s
  {
  }

  lemma ReturnKeepsCount(s: State, r: nat, v: Value)
    requires Sound(s) && r < |s.rows|
    ensures |OnSuccess(s, r, v).wfs| == |s.wfs|
  {
    hide HandleTaskSuccess, OnFailure;
    var b := Stop(s, r);
    SuccessKeepsTables(b, r, v);
    var o := HandleTaskSuccess(b, r, v);
    FailureKeepsCount(o.state, r, false);
  }

  lemma {:induction false} FailureKeepsCount(s: State, r: nat, timedOut: bool)
    requires Sound(s) && r < |s.rows|
    ensures |OnFailure(s, r, timedOut).wfs| == |s.wfs|
    decreases s.rows[r].wf
  {
    var t := Fail(s, r, timedOut);
    var q := ParentRow(t, s.rows[r].wf);
    if q.Some? {
      FailureKeepsCount(t, q.value, timedOut);
    }
  }

  /** Every event of the run is calm when it happens. */
  ghost predicate CalmRun(s: State, es: seq<Event>, w: nat)
    decreases |es|
  {
    es == [] || (Sound(s) && w < |s.wfs| && Enabled(s, es[0]) && Calm(s, es[0], w) && CalmRun(Step(s, es[0]), es[1..], w))
  }

  lemma StepReachable(s: State, e: Event)
    requires Reachable(s) && Sound(s) && Enabled(s, e)
    ensures Reachable(Step(s, e))
  {
    hide Step, Enabled;
    var es :| Leads(Empty, es, s);
    assert [e][1..] == [] && Leads(Step(s, e), [], Step(s, e));
    assert Leads(s, [e], Step(s, e));
    Joined(Empty, es, s, [e], Step(s, e));
  }

  /**
   * Any number of pauses and of well-timed resumes, interleaved in any way: a line that calls no
   * other workflow, nested or not, keeps exactly one token and has visited its nodes in order, each
   * once, as an unpaused run does.
   */
  lemma {:induction false} PausesPreserveToken(s: State, es: seq<Event>, t: State, w: nat, p: seq<NodeId>, i: nat, f: Place)
    returns (j: nat, h: Place)
    requires Reachable(s) && Token(s, w, p, i, f) && CallFree(s.wfs[w].graph) && Leads(s, es, t) && CalmRun(s, es, w)
    ensures Token(t, w, p, j, h) && i <= j
    ensures Visited(t.hist, w) == p[..if h == Held then j + 1 else j]
    decreases |es|
  {
    hide Step, Token, Calm, Enabled, Visited, Reachable, CallFree;
    j, h := i, f;
    if es != [] {
      ChildrenKnown(s);
      j, h := CalmEventKeepsToken(s, es[0], w, p, i, f);
      StepReachable(s, es[0]);
      j, h := PausesPreserveToken(Step(s, es[0]), es[1..], t, w, p, j, h);
    }
    TokenVisits(t, w, p, j, h);
  }

  lemma ChildrenKnown(s: State)
    requires Reachable(s)
    ensures ChildrenAtCalls(s)
  {
    ReachableInvariant(s);
  }

  lemma TokenVisits(s: State, w: nat, p: seq<NodeId>, i: nat, f: Place)
    requires Token(s, w, p, i, f)
    ensures i <= |p| && (f == Held ==> i < |p|) && Visited(s.hist, w) == p[..if f == Held then i + 1 else i]
  {
  }

  /** Starting a line puts its token at the first node. */
  lemma StartToken(s: State, w: nat, p: seq<NodeId>)
    requires Reachable(s) && w < |s.wfs| && Line(s.wfs[w].graph, p) && s.wfs[w].pending
    ensures Token(ExecuteWorkflow(s, w), w, p, 0, Waiting)
  {
    Untouched(s, w);
    hide PendingOf, Visited, Grows, Reachable;
    var g := s.wfs[w].graph;
    var t := ExecuteWorkflow(s, w);
    FirstStarts(g, p);
    PendingConcat(s.queue, Send(w, [p[0]]), w);
    PendingSend(w, [p[0]], w);
    VisitedLogged(s.hist, Started(w), w);
  }

  /** Nothing of a workflow not yet started is in the tables. */
  lemma Untouched(s: State, w: nat)
    requires Reachable(s) && w < |s.wfs| && s.wfs[w].pending
    ensures Sound(s) && s.wfs[w].current == "" && forall r :: 0 <= r < |s.rows| ==> s.rows[r].wf != w
    ensures PendingOf(s.queue, w) == [] && Visited(s.hist, w) == []
  {
    ReachableInvariant(s);
    NothingPending(s.queue, w);
    NothingVisited(s.hist, w);
  }

  lemma {:induction false} NothingPending(q: seq<Message>, w: nat)
    requires forall i :: 0 <= i < |q| ==> q[i].wf != w
    ensures PendingOf(q, w) == []
    decreases |q|
  {
    if q != [] {
      NothingPending(q[..|q| - 1], w);
    }
  }

  lemma {:induction false} NothingVisited(h: seq<Entry>, w: nat)
    requires forall k :: 0 <= k < |h| ==> h[k].wf != w
    ensures Visited(h, w) == []
    decreases |h|
  {
    if h != [] {
      NothingVisited(h[..|h| - 1], w);
    }
  }

  lemma FirstStarts(g: Graph, p: seq<NodeId>)
    requires Line(g, p)
    ensures StartSends(g) == [p[0]]
  {
    forall i | 0 <= i < |p| ensures IsTarget(g.connections, p[i]) <==> i > 0 {
      LineTargets(g, p, i);
    }
    SingleRoot(g.connections, g.nodes, p[0]);
  }

  lemma LineTargets(g: Graph, p: seq<NodeId>, i: nat)
    requires Line(g, p) && i < |p|
    ensures IsTarget(g.connections, p[i]) <==> i > 0
  {
    if i > 0 {
      assert p[i] in Targets(g.connections, p[i - 1]);
    }
    if IsTarget(g.connections, p[i]) {
      var c :| c in g.connections && c.target == p[i];
      var j :| 0 <= j < |p| && p[j] == c.source;
      assert p[i] in Targets(g.connections, p[j]);
      assert p[i] == p[j + 1];
    }
  }

  lemma {:induction false} SingleRoot(cs: seq<Connection>, ids: seq<NodeId>, n: NodeId)
    requires forall i, j :: 0 <= i < j < |ids| ==> ids[i] != ids[j]
    requires forall m :: m in ids ==> (IsTarget(cs, m) <==> m != n)
    ensures Roots(cs, ids) == if n in ids then [n] else []
    decreases |ids|
  {
    if ids != [] {
      var k := |ids| - 1;
      assert ids == ids[..k] + [ids[k]];
      SingleRoot(cs, ids[..k], n);
    }
  }
}
