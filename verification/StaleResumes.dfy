/** What a resume does that is asked for while a message is still queued and an earlier pause left a node behind. */
module StaleResumes {
  import opened Wrappers
  import opened Graphs
  import opened Orders
  import opened Tables
  import opened Protocol
  import opened Safety
  import opened Bounds
  import opened Runs
  import opened Paths
  import opened Schedules
  import opened Hangs
  import opened Tokens
  import opened PauseResume

  /** One more row keeps the done rows of other nodes. */
  lemma StillDone(rows: seq<Row>, row: Row, w: nat, n: NodeId)
    requires DoneRow(rows, w, n) && !IsAt(row, w, n)
    ensures DoneRow(rows + [row], w, n)
  {
    var r :| Only(rows, w, n, r) && rows[r].status == TSuccess && rows[r].phase == Done;
    assert Only(rows + [row], w, n, r);
  }

  /** Taking a message for node `j` of a running line whose earlier nodes are done makes one more row for it. */
  lemma LineDelivers(s: State, k: nat, w: nat, p: seq<NodeId>, j: nat)
    requires Sound(s) && w < |s.wfs| && Line(s.wfs[w].graph, p) && s.wfs[w].status != WWait && j < |p|
    requires k < |s.queue| && s.queue[k] == Message(w, p[j]) && forall x :: 0 <= x < j ==> DoneRow(s.rows, w, p[x])
    ensures var t := ProcessNextNode(s, k);
      Glides(s, [Deliver(k)], t) && t.wfs == s.wfs && t.rows == s.rows + [NewRow(w, p[j])]
      && t.queue == s.queue[..k] + s.queue[k + 1..]
  {
    EarlierDone(s.rows, s.wfs[w].graph, w, p, j);
    DeliverGlides(s, k);
    hide Glides, Ready, Grows;
  }

  /**
   * A resume at the wrong time queues the node left behind, which may be done already, beside the
   * token's message; taking it gives that node a second row.
   */
  lemma IllTimedResume(s: State, w: nat, p: seq<NodeId>, i: nat, f: Place) returns (j: nat, es: seq<Event>, u: State)
    requires Token(s, w, p, i, f) && s.wfs[w].status == WWait && !Busy(s, w) && !Resumable(s, w)
    ensures f == Waiting && j <= i < |p| && p[j] == s.wfs[w].current
    ensures PendingOf(ResumeWorkflow(s, w).queue, w) == [p[i], p[j]]
    ensures Glides(ResumeWorkflow(s, w), es, u) && w < |u.wfs| && CountRows(u.rows, w, p[j]) == 2
    ensures forall n :: n != p[j] ==> CountRows(u.rows, w, n) == CountRows(s.rows, w, n)
  {
    hide TokenRows, Grows, Busy, Glides, CountRows, PendingOf, Visited;
    var t := ResumeWorkflow(s, w);
    var g := s.wfs[w].graph;
    SourcesInLine(g, p);
    var m := s.wfs[w].current;
    assert t.rows == s.rows && t.wfs == s.wfs[w := s.wfs[w].(status := WProgress)] && t.queue == s.queue + [Message(w, m)];
    PendingConcat(s.queue, Send(w, [m]), w);
    PendingSend(w, [m], w);
    assert Send(w, [m]) == [Message(w, m)];
    j :| 0 <= j <= i && j < |p| && p[j] == m;
    assert t.queue[|s.queue|] == Message(w, p[j]);
    RowsParts(s.rows, w, p, i);
    hide Line, Token, ResumeWorkflow;
    if j < i {
      es, u := TakenOnce(t, w, p, j);
      OneCounted(s.rows, w, p[j]);
    } else {
      var k := PendingQueued(s.queue, w, p[i]);
      assert t.queue[k] == Message(w, p[i]);
      es, u := TakenTwice(t, k, |s.queue|, w, p, i);
      NoneCounted(s.rows, w, p[i]);
    }
  }

  lemma OneCounted(rows: seq<Row>, w: nat, n: NodeId)
    requires DoneRow(rows, w, n)
    ensures CountRows(rows, w, n) == 1
  {
    var r :| Only(rows, w, n, r) && rows[r].status == TSuccess && rows[r].phase == Done;
    OnlyCounted(rows, w, n, r);
  }

  lemma RowsParts(rows: seq<Row>, w: nat, p: seq<NodeId>, i: nat)
    requires i < |p| && TokenRows(rows, w, p, i, false)
    ensures (forall x :: 0 <= x < i ==> DoneRow(rows, w, p[x])) && forall x :: i <= x < |p| ==> Missing(rows, w, p[x])
  {
  }

  lemma TakenOnce(t: State, w: nat, p: seq<NodeId>, j: nat) returns (es: seq<Event>, u: State)
    requires Sound(t) && w < |t.wfs| && Line(t.wfs[w].graph, p) && t.wfs[w].status != WWait && j < |p|
    requires |t.queue| > 0 && t.queue[|t.queue| - 1] == Message(w, p[j]) && forall x :: 0 <= x < j ==> DoneRow(t.rows, w, p[x])
    ensures Glides(t, es, u) && w < |u.wfs| && u.rows == t.rows + [NewRow(w, p[j])]
    ensures forall n :: CountRows(u.rows, w, n) == CountRows(t.rows, w, n) + if n == p[j] then 1 else 0
  {
    var k := |t.queue| - 1;
    LineDelivers(t, k, w, p, j);
    es, u := [Deliver(k)], ProcessNextNode(t, k);
    forall n ensures CountRows(u.rows, w, n) == CountRows(t.rows, w, n) + if n == p[j] then 1 else 0 {
      AddedRow(t.rows, NewRow(w, p[j]), w, n);
    }
  }

  /** Both messages of one node, the later in the queue first. */
  lemma TakenTwice(t: State, a: nat, b: nat, w: nat, p: seq<NodeId>, j: nat) returns (es: seq<Event>, u: State)
    requires Sound(t) && w < |t.wfs| && Line(t.wfs[w].graph, p) && t.wfs[w].status != WWait && j < |p|
    requires a < b < |t.queue| && t.queue[a] == t.queue[b] == Message(w, p[j])
    requires forall x :: 0 <= x < j ==> DoneRow(t.rows, w, p[x])
    ensures Glides(t, es, u) && w < |u.wfs|
    ensures forall n :: CountRows(u.rows, w, n) == CountRows(t.rows, w, n) + if n == p[j] then 2 else 0
  {
    hide Glides, CountRows, ProcessNextNode;
    LineDelivers(t, b, w, p, j);
    var v := ProcessNextNode(t, b);
    var row := NewRow(w, p[j]);
    LineDistinct(t.wfs[w].graph, p);
    forall x | 0 <= x < j ensures DoneRow(v.rows, w, p[x]) {
      StillDone(t.rows, row, w, p[x]);
    }
    assert v.queue[a] == Message(w, p[j]);
    hide Line, DoneRow;
    LineDelivers(v, a, w, p, j);
    u := ProcessNextNode(v, a);
    Glided(t, [Deliver(b)], v, [Deliver(a)], u);
    es := [Deliver(b)] + [Deliver(a)];
    forall n ensures CountRows(u.rows, w, n) == CountRows(t.rows, w, n) + if n == p[j] then 2 else 0 {
      AddedRow(t.rows, row, w, n);
      AddedRow(v.rows, row, w, n);
    }
  }

  // ---- a run that gets there ----

  /** No row of a line is open while its token is not held. */
  lemma IdleToken(s: State, w: nat, p: seq<NodeId>, i: nat, f: Place)
    requires Token(s, w, p, i, f) && f != Held
    ensures !Busy(s, w)
  {
    hide Line, PendingOf, Visited, TokenStatus;
    forall x | x in s.rows && x.wf == w ensures x.status == TSuccess {
      var r :| 0 <= r < |s.rows| && s.rows[r] == x;
      var j: nat :| j < |p| && p[j] == x.node;
      SettledRow(s.rows, w, p, i, false, r, j);
      assert DoneRow(s.rows, w, p[j]);
    }
  }

  /** The token at node `i` of workflow 0 in the form `f`, with `status` and the node left behind. */
  ghost predicate Stands(s: State, p: seq<NodeId>, i: nat, f: Place, status: WorkflowStatus, left: NodeId) {
    && Reachable(s) && Token(s, 0, p, i, f) && 0 < |s.wfs|
    && s.wfs[0].status == status && s.wfs[0].current == left
  }

  lemma LineStarts(g: Graph, p: seq<NodeId>) returns (s: State)
    requires Line(g, p)
    ensures Stands(s, p, 0, Waiting, WProgress, "") && s.wfs[0].graph == g
  {
    hide Token, Line;
    var a := LaunchWorkflow(Empty, g);
    assert Leads(Empty, [], Empty);
    KeyedLine(g, p);
    StepReachable(Empty, Launch(g));
    StepReachable(a, Start(0));
    StartToken(a, 0, p);
    s := ExecuteWorkflow(a, 0);
  }

  lemma KeyedLine(g: Graph, p: seq<NodeId>)
    requires Line(g, p)
    ensures Keyed(g) && p[0] != ""
  {
    assert p[0] in p;
  }

  lemma StandsPaused(s: State, p: seq<NodeId>, i: nat, left: NodeId) returns (t: State)
    requires Stands(s, p, i, Waiting, WProgress, left)
    ensures Stands(t, p, i, Waiting, WWait, left) && t.wfs[0].graph == s.wfs[0].graph
  {
    hide Reachable, Token, Grows;
    TokenExists(s, 0, p, i, Waiting);
    t := PauseWorkflow(s, 0);
    PauseToken(s, 0, p, i, Waiting);
    StepReachable(s, Pause(0));
  }

  lemma StandsDelivered(s: State, p: seq<NodeId>, i: nat, status: WorkflowStatus, left: NodeId) returns (t: State)
    requires Stands(s, p, i, Waiting, status, left)
    ensures i < |p| && 0 < |t.wfs| && t.wfs[0].graph == s.wfs[0].graph
    ensures Stands(t, p, i, if status == WWait then Kept else Held, status, if status == WWait then p[i] else left)
    ensures status != WWait ==> |t.rows| == |s.rows| + 1 && t.rows[|s.rows|] == NewRow(0, p[i])
  {
    hide Reachable, Grows, PendingOf, Token, ProcessNextNode, Ready, Leads, Step;
    PendingNode(s, p, i);
    var k := PendingQueued(s.queue, 0, p[i]);
    TokenExists(s, 0, p, i, Waiting);
    DeliverToken(s, k, 0, p, i, Waiting);
    TokenReady(s, p, i);
    DeliveryEffect(s, k, p[i]);
    DeliveryReachable(s, k);
    t := ProcessNextNode(s, k);
  }

  lemma DeliveryReachable(s: State, k: nat)
    requires Reachable(s) && Sound(s) && k < |s.queue|
    ensures Reachable(ProcessNextNode(s, k))
  {
    hide Reachable, ProcessNextNode;
    StepReachable(s, Deliver(k));
  }

  lemma TokenReady(s: State, p: seq<NodeId>, i: nat)
    requires Token(s, 0, p, i, Waiting) && i < |p|
    ensures Ready(s.rows, s.wfs[0].graph, 0, p[i])
  {
    InputsDone(s, 0, p, i);
  }

  /** A message whose node is known and ready is parked while waiting and makes a row otherwise. */
  lemma DeliveryEffect(s: State, k: nat, n: NodeId)
    requires Sound(s) && 0 < |s.wfs| && k < |s.queue| && s.queue[k] == Message(0, n)
    requires n in s.wfs[0].graph.kind && Ready(s.rows, s.wfs[0].graph, 0, n)
    ensures var t := ProcessNextNode(s, k);
      if s.wfs[0].status == WWait then t.rows == s.rows && t.wfs == s.wfs[0 := s.wfs[0].(current := n)]
      else t.rows == s.rows + [NewRow(0, n)] && t.wfs == s.wfs
  {
    hide Ready, Grows;
  }

  lemma PendingNode(s: State, p: seq<NodeId>, i: nat)
    requires Token(s, 0, p, i, Waiting)
    ensures i < |p| && PendingOf(s.queue, 0) == [p[i]] && p[i] in s.wfs[0].graph.kind
  {
  }

  lemma StandsResumed(s: State, p: seq<NodeId>, i: nat, left: NodeId) returns (t: State)
    requires Stands(s, p, i, Kept, WWait, left)
    ensures Stands(t, p, i, Waiting, WProgress, left) && t.wfs[0].graph == s.wfs[0].graph
  {
    hide Reachable, Token, Grows, Busy, Resumable, ResumeWorkflow, Leads;
    IdleToken(s, 0, p, i, Kept);
    KeptResumable(s, p, i);
    ResumeKeepsTokenExactly(s, 0, p, i, Kept);
    TokenExists(s, 0, p, i, Kept);
    ResumeEffect(s);
    StepReachable(s, Resume(0));
    t := ResumeWorkflow(s, 0);
  }

  lemma KeptResumable(s: State, p: seq<NodeId>, i: nat)
    requires Token(s, 0, p, i, Kept)
    ensures 0 < |s.wfs| && Resumable(s, 0)
  {
  }

  lemma ResumeEffect(s: State)
    requires 0 < |s.wfs| && s.wfs[0].status == WWait && !Busy(s, 0)
    ensures ResumeWorkflow(s, 0).wfs == s.wfs[0 := s.wfs[0].(status := WProgress)]
  {
    hide Busy;
  }

  lemma StandsReturned(s: State, p: seq<NodeId>, i: nat, r: nat, left: NodeId) returns (t: State)
    requires Stands(s, p, i, Held, WProgress, left) && i + 1 < |p|
    requires r < |s.rows| && s.rows[r] == NewRow(0, p[i])
    ensures Stands(t, p, i + 1, Waiting, WProgress, left) && t.wfs[0].graph == s.wfs[0].graph
  {
    hide Reachable, Token, Grows, OnSuccess, Frame, Line, Route, Existing, Sink;
    TokenExists(s, 0, p, i, Held);
    BeginToken(s, r, "", 0, p, i, Held);
    StepReachable(s, Begin(r, ""));
    var b := BeforeStart(s, r, "");
    TokenLine(b, p, i);
    LastSink(b.wfs[0].graph, p, i);
    ReturnToken(b, r, Opaque(0), 0, p, i, Held);
    LineRoute(b.wfs[0].graph, p, i, Opaque(0));
    ReturnFrame(b, r, Opaque(0), 0, p, i);
    StepReachable(b, Return(r, Opaque(0)));
    t := OnSuccess(b, r, Opaque(0));
  }

  lemma TokenLine(s: State, p: seq<NodeId>, i: nat)
    requires Token(s, 0, p, i, Held)
    ensures Line(s.wfs[0].graph, p) && i < |p|
  {
  }

  /**
   * On every line of two nodes or more: pause, park the first node, resume, run it, pause again. Now
   * the second node is queued and the first, which is done, is still the one left behind.
   */
  lemma StaleRun(g: Graph, p: seq<NodeId>) returns (s: State)
    requires Line(g, p) && |p| >= 2
    ensures Stands(s, p, 1, Waiting, WWait, p[0]) && s.wfs[0].graph == g
    ensures !Busy(s, 0) && !Resumable(s, 0)
  {
    hide Stands, Busy, Resumable;
    var a := LineStarts(g, p);
    var b := StandsPaused(a, p, 0, "");
    var c := StandsDelivered(b, p, 0, WWait, "");
    var d := StandsResumed(c, p, 0, p[0]);
    var e := StandsDelivered(d, p, 0, WProgress, p[0]);
    var r := |d.rows|;
    var x := StandsReturned(e, p, 0, r, p[0]);
    s := StandsPaused(x, p, 1, p[0]);
    Stale(s, p);
    KeyedLine(g, p);
  }

  lemma Stale(s: State, p: seq<NodeId>)
    requires |p| >= 2 && Stands(s, p, 1, Waiting, WWait, p[0])
    ensures !Busy(s, 0) && !Resumable(s, 0)
  {
    IdleToken(s, 0, p, 1, Waiting);
    PendingNode(s, p, 1);
    KeyedLine(s.wfs[0].graph, p);
  }

  // ---- and what follows ----

  /** A path along a line climbs one place per step. */
  lemma {:induction false} LineClimbs(g: Graph, p: seq<NodeId>, q: seq<NodeId>, x: nat) returns (y: nat)
    requires Line(g, p) && IsPath(g, q) && x < |p| && q[0] == p[x]
    ensures y < |p| && q[|q| - 1] == p[y] && y == x + |q| - 1
    decreases |q|
  {
    if |q| == 1 {
      y := x;
    } else {
      assert Edge(g, q[0], q[0 + 1]);
      var c :| c in g.connections && c.source == q[0] && c.target == q[1];
      LineNext(g, p, x);
      assert q[1] in Targets(g.connections, p[x]);
      var rest := q[1..];
      forall i | 0 <= i < |rest| - 1 ensures Edge(g, rest[i], rest[i + 1]) {
        assert Edge(g, q[i + 1], q[i + 1 + 1]);
      }
      assert IsPath(g, rest);
      y := LineClimbs(g, p, rest, x + 1);
    }
  }

  lemma LineAcyclic(g: Graph, p: seq<NodeId>)
    requires Line(g, p)
    ensures Acyclic(g)
  {
    forall n | Ancestor(g, n, n) ensures false {
      var q :| IsPath(g, q) && |q| > 1 && q[0] == n && q[|q| - 1] == n;
      assert Edge(g, q[0], q[0 + 1]);
      var x: nat :| x < |p| && p[x] == n;
      var y := LineClimbs(g, p, q, x);
    }
  }

  lemma LineEnds(g: Graph, p: seq<NodeId>, z: NodeId)
    requires Line(g, p) && Sink(g, z)
    ensures z == p[|p| - 1]
  {
    NoTargets(g.connections, z);
    var x: nat :| x < |p| && p[x] == z;
    LineNext(g, p, x);
  }

  lemma LineEdges(g: Graph, p: seq<NodeId>, i: nat)
    requires Line(g, p) && i < |p| - 1
    ensures Edge(g, p[i], p[i + 1])
  {
    LineNext(g, p, i);
    assert p[i + 1] in Targets(g.connections, p[i]);
  }

  lemma LineTargetsKnown(g: Graph, p: seq<NodeId>)
    requires Line(g, p)
    ensures TargetsKnown(g) && SourcesKnown(g)
  {
    forall c | c in g.connections ensures c.target in g.kind {
      var x: nat :| x < |p| && p[x] == c.source;
      LineNext(g, p, x);
      assert c.target in Targets(g.connections, p[x]);
    }
  }

  lemma LineRegular(g: Graph, p: seq<NodeId>)
    requires Line(g, p)
    ensures Regular(g) && OneSink(g)
  {
    LineAcyclic(g, p);
    LineTargetsKnown(g, p);
    hide Acyclic, TargetsKnown, SourcesKnown, Sink, Targets;
    forall y, z | Sink(g, y) && Sink(g, z) ensures y == z {
      LineEnds(g, p, y);
      LineEnds(g, p, z);
    }
  }

  /**
   * On every line of two nodes or more some run, without failure, lets a resume queue the finished
   * first node again; once that message is taken the second node never starts and the workflow never
   * succeeds, whatever happens.
   */
  lemma StaleResumeHangs(g: Graph, p: seq<NodeId>) returns (s: State, es: seq<Event>, u: State)
    requires Line(g, p) && |p| >= 2
    ensures Stands(s, p, 1, Waiting, WWait, p[0]) && !Busy(s, 0) && !Resumable(s, 0)
    ensures PendingOf(ResumeWorkflow(s, 0).queue, 0) == [p[1], p[0]]
    ensures Glides(ResumeWorkflow(s, 0), es, u) && CountRows(u.rows, 0, p[0]) == 2
    ensures NeverCloses(u, 0) && forall fs, t :: Leads(u, fs, t) ==> Missing(t.rows, 0, p[1])
  {
    hide Leads, Regular, OneSink, Missing, Busy, Resumable, Glides, Line, CountRows, Edge, PendingOf, ResumeWorkflow, Token, Reachable;
    var j: nat;
    s := StaleRun(g, p);
    j, es, u := IllTimedResume(s, 0, p, 1, Waiting);
    LineDistinct(g, p);
    assert j == 0;
    LineRegular(g, p);
    LineEdges(g, p, 0);
    SecondMissing(s, p);
    TokenExists(s, 0, p, 1, Waiting);
    StepReachable(s, Resume(0));
    GlideReachable(ResumeWorkflow(s, 0), es, u);
    GlideSameGraph(ResumeWorkflow(s, 0), es, u);
    forall fs, t | Leads(u, fs, t) ensures Missing(t.rows, 0, p[1]) && 0 < |t.wfs| && t.wfs[0].status != WSuccess {
      StuckThere(u, g, p[0], p[1], fs, t);
    }
  }

  lemma SecondMissing(s: State, p: seq<NodeId>)
    requires Token(s, 0, p, 1, Waiting) && |p| >= 2
    ensures CountRows(s.rows, 0, p[1]) == 0
  {
    NoneCounted(s.rows, 0, p[1]);
  }

  lemma GlideReachable(s: State, es: seq<Event>, t: State)
    requires Reachable(s) && Glides(s, es, t)
    ensures Reachable(t)
  {
    hide Leads;
    var before :| Leads(Empty, before, s);
    Joined(Empty, before, s, es, t);
  }

  lemma GlideSameGraph(s: State, es: seq<Event>, t: State)
    requires Glides(s, es, t) && 0 < |s.wfs|
    ensures 0 < |t.wfs| && t.wfs[0].graph == s.wfs[0].graph
  {
    SameGraph(s, es, t);
  }

  /** After a doubled node its successor, not yet run, never runs, and a single-sink workflow never closes. */
  lemma StuckThere(u: State, g: Graph, a: NodeId, b: NodeId, fs: seq<Event>, t: State)
    requires Reachable(u) && 0 < |u.wfs| && u.wfs[0].graph == g && Regular(g) && OneSink(g) && Edge(g, a, b)
    requires CountRows(u.rows, 0, a) == 2 && CountRows(u.rows, 0, b) == 0 && Leads(u, fs, t)
    ensures 0 < |t.wfs| && Missing(t.rows, 0, b) && t.wfs[0].status != WSuccess
  {
    hide Leads;
    DoubledBlocks(u, fs, t, 0, a, b);
    CountedNone(t.rows, 0, b);
    SameGraph(u, fs, t);
    var before :| Leads(Empty, before, u);
    Joined(Empty, before, u, fs, t);
    assert Reachable(t);
    if t.wfs[0].status == WSuccess {
      SingleSinkCompleteness(t, 0, b);
      ReachableInvariant(t);
      SucceededCounted(t, 0, b);
    }
  }
}
