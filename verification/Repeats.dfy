/** Which templates can run a node twice: those with a join, and those in which something follows a call. */
module Repeats {
  import opened Wrappers
  import opened Graphs
  import opened Orders
  import opened Tables
  import opened Protocol
  import opened Safety
  import opened Conservation
  import opened Bounds
  import opened Runs
  import opened Paths
  import opened Schedules
  import opened Nesting
  import opened PauseResume

  /** The called template: a single node. */
  const CHILD := Graph(["x"], map["x" := SourceCode], [])

  /** One workflow, on `g`, in which node `c`, a call, waits at `i` with its inputs ready. */
  ghost predicate CallWaits(s: State, g: Graph, i: nat, c: NodeId) {
    && Sound(s) && |s.wfs| == 1 && s.wfs[0].graph == g && s.wfs[0].parent == None && s.wfs[0].status != WWait
    && i < |s.queue| && s.queue[i] == Message(0, c) && IsCall(g, c) && Ready(s.rows, g, 0, c)
  }

  lemma CallBegins(s: State, g: Graph, i: nat, c: NodeId) returns (es: seq<Event>, t: State)
    requires CallWaits(s, g, i, c)
    ensures Glides(s, es, t)
    ensures Sound(t) && t.wfs == s.wfs + [NewWorkflow(CHILD, Some(0), c)]
    ensures t.rows == s.rows + [Row(0, c, TNested, None, false, false, Some(""), Delegated)]
    ensures t.queue == s.queue[..i] + s.queue[i + 1..] && t.hist == s.hist + [Accepted(0, c)]
  {
    hide Glides, Ready, Grows, CHILD;
    var r := |s.rows|;
    var a := ProcessNextNode(s, i);
    var b := BeforeStart(a, r, "");
    t := DelegateStep(b, r, CHILD);
    ChildKeyed();
    DeliverGlides(s, i);
    BeginGlides(a, r, "");
    DelegateGlides(b, r, CHILD);
    Glided(s, [Deliver(i)], a, [Begin(r, "")], b);
    Glided(s, [Deliver(i)] + [Begin(r, "")], b, [Delegate(r, CHILD)], t);
    es := [Deliver(i)] + [Begin(r, "")] + [Delegate(r, CHILD)];
  }

  lemma ChildKeyed()
    ensures Keyed(CHILD) && StartSends(CHILD) == ["x"] && SourcesKnown(CHILD)
    ensures forall v :: Route(CHILD, "x", v) == Some([])
    ensures forall rows, w :: Ready(rows, CHILD, w, "x")
  {
    assert CHILD.nodes[..0] == [];
    assert Roots([], ["x"]) == ["x"];
  }

  lemma ChildBegins(s: State, c: NodeId) returns (es: seq<Event>, t: State)
    requires Sound(s) && |s.wfs| == 2 && s.wfs[1] == NewWorkflow(CHILD, Some(0), c)
    ensures Glides(s, es, t)
    ensures Sound(t) && t.wfs == s.wfs[1 := Workflow(CHILD, WProgress, Some(0), c, "", false, false)]
    ensures t.rows == s.rows + [Row(1, "x", TProgress, None, false, false, Some(""), Running)]
    ensures t.queue == s.queue && t.hist == s.hist + [Started(1)] + [Accepted(1, "x")]
  {
    hide Glides, Ready, Grows, StartSends, Keyed, SourcesKnown;
    ChildKeyed();
    var r, i := |s.rows|, |s.queue|;
    var a := ExecuteWorkflow(s, 1);
    assert a.queue == s.queue + [Message(1, "x")];
    var b := ProcessNextNode(a, i);
    assert b.queue == s.queue;
    t := BeforeStart(b, r, "");
    StartGlides(s, 1);
    DeliverGlides(a, i);
    BeginGlides(b, r, "");
    Glided(s, [Start(1)], a, [Deliver(i)], b);
    Glided(s, [Start(1)] + [Deliver(i)], b, [Begin(r, "")], t);
    es := [Start(1)] + [Deliver(i)] + [Begin(r, "")];
  }

  // ---- the two completions of the calling row ----

  /** The calling row is the only one of its node; it is handed to a child whose only row runs. */
  ghost predicate ChildRuns(s: State, g: Graph, c: NodeId, r: nat) {
    && Sound(s) && |s.wfs| == 2 && s.wfs[0].graph == g && s.wfs[0].parent == None
    && s.wfs[1].graph == CHILD && s.wfs[1].parent == Some(0) && s.wfs[1].node == c
    && |s.rows| == r + 2 && Only(s.rows, 0, c, r) && s.rows[r].phase == Delegated
    && s.rows[r + 1].status == TProgress && s.rows[r + 1].phase == Running && IsAt(s.rows[r + 1], 1, "x")
    && SourcesKnown(g) && IsCall(g, c) && Targets(g.connections, c) != []
  }

  /** `t` is `s` with the row of `c` in SUCCESS and its successors sent once more. */
  ghost predicate SentAgain(s: State, t: State, g: Graph, c: NodeId, r: nat) {
    && Sound(t) && |t.wfs| == |s.wfs| == 2 && t.wfs[0] == s.wfs[0]
    && r < |s.rows| == |t.rows| && t.rows[r].status == TSuccess && IsAt(t.rows[r], 0, c)
    && (forall k :: 0 <= k < |s.rows| && k != r && s.rows[k].wf == 0 ==> t.rows[k] == s.rows[k])
    && (forall k :: 0 <= k < |s.rows| ==> t.rows[k].wf == s.rows[k].wf && t.rows[k].node == s.rows[k].node)
    && t.queue == s.queue + Send(0, Existing(g, Targets(g.connections, c)))
    && |s.hist| <= |t.hist| && t.hist[..|s.hist|] == s.hist
    && (forall k :: |s.hist| <= k < |t.hist| ==> t.hist[k].Succeeded?)
  }

  lemma ChildReturns(s: State, g: Graph, c: NodeId, r: nat)
    requires ChildRuns(s, g, c, r)
    ensures var t := OnSuccess(s, r + 1, Opaque(0));
      SentAgain(s, t, g, c, r) && t.rows[r].phase == Delegated
  {
    hide Existing, Targets, Grows, SourcesKnown, CHILD, OnSuccess, HandleTaskSuccess, Frame, SentAgain, IsCall, Sound;
    var u := Frame(Stop(s, r + 1), r + 1, Opaque(0));
    ChildCloses(s, g, c, r);
    assert Only(u.rows, 0, c, r);
    ParentCompletes(s, u, g, c, r);
    CallerFrame(u, g, c, r);
    SentAfterChild(s, u, Frame(u, r, Opaque(0)), g, c, r);
  }

  lemma SentAfterChild(s: State, u: State, t: State, g: Graph, c: NodeId, r: nat)
    requires SentAgain(u, t, g, c, r) && t.hist == u.hist + [Succeeded(0, c, Opaque(0))]
    requires |s.wfs| == |u.wfs| && u.wfs[0] == s.wfs[0] && |s.rows| == |u.rows| == r + 2 && s.rows[r + 1].wf == 1
    requires u.rows == s.rows[r + 1 := u.rows[r + 1]] && IsAt(u.rows[r + 1], 1, s.rows[r + 1].node)
    requires u.queue == s.queue && u.hist == s.hist + [Succeeded(1, "x", Opaque(0))]
    ensures SentAgain(s, t, g, c, r)
  {
    hide Existing, Targets, Sound;
  }

  /** The child's last node closes it. */
  lemma ChildCloses(s: State, g: Graph, c: NodeId, r: nat)
    requires ChildRuns(s, g, c, r)
    ensures var u := Frame(Stop(s, r + 1), r + 1, Opaque(0));
      && Sound(u) && |u.wfs| == 2 && u.wfs[0] == s.wfs[0] && u.wfs[1].parent == Some(0) && u.wfs[1].node == c
      && |u.rows| == |s.rows| && u.rows == s.rows[r + 1 := u.rows[r + 1]] && IsAt(u.rows[r + 1], 1, "x")
      && u.queue == s.queue && u.hist == s.hist + [Succeeded(1, "x", Opaque(0))]
  {
    hide Existing, Targets, Grows, SourcesKnown;
    ChildKeyed();
  }

  /** Then the calling row is completed on its behalf. */
  lemma ParentCompletes(s: State, u: State, g: Graph, c: NodeId, r: nat)
    requires ChildRuns(s, g, c, r) && u == Frame(Stop(s, r + 1), r + 1, Opaque(0))
    requires |u.wfs| == 2 && u.wfs[1].parent == Some(0) && u.wfs[1].node == c && |u.rows| == |s.rows| && Only(u.rows, 0, c, r)
    requires u.wfs[0] == s.wfs[0]
    ensures OnSuccess(s, r + 1, Opaque(0)) == Frame(u, r, Opaque(0))
  {
    hide Existing, Targets, Grows, SourcesKnown, CHILD, Frame;
    ChildKeyed();
    assert ParentRow(u, 1) == Some(r);
    assert Route(g, c, Opaque(0)) == Some(Targets(g.connections, c));
    assert HandleTaskSuccess(u, r, Opaque(0)) == Outcome(Frame(u, r, Opaque(0)), false);
  }

  lemma CallerFrame(u: State, g: Graph, c: NodeId, r: nat)
    requires Sound(u) && |u.wfs| == 2 && u.wfs[0].graph == g && r < |u.rows| && IsAt(u.rows[r], 0, c)
    requires SourcesKnown(g) && IsCall(g, c) && Targets(g.connections, c) != []
    ensures SentAgain(u, Frame(u, r, Opaque(0)), g, c, r)
    ensures Frame(u, r, Opaque(0)).rows[r].phase == u.rows[r].phase
    ensures Frame(u, r, Opaque(0)).hist == u.hist + [Succeeded(0, c, Opaque(0))]
  {
    hide Existing, Targets, Grows, SourcesKnown;
  }

  lemma CallerReturns(s: State, g: Graph, c: NodeId, r: nat)
    requires Sound(s) && |s.wfs| == 2 && s.wfs[0].graph == g && r < |s.rows| && IsAt(s.rows[r], 0, c)
    requires s.rows[r].status == TSuccess
    requires SourcesKnown(g) && IsCall(g, c) && Targets(g.connections, c) != []
    ensures SentAgain(s, OnSuccess(s, r, Nothing), g, c, r)
  {
    hide Existing, Targets, Grows, SourcesKnown;
  }

  // ---- the run ----

  /** From `u`, where everything before `c` has run, to two completions of `c`. */
  lemma CallCompletesTwice(u: State, g: Graph, i: nat, c: NodeId) returns (es: seq<Event>, y: State)
    requires CallWaits(u, g, i, c) && Missing(u.rows, 0, c)
    requires SourcesKnown(g) && Targets(g.connections, c) != []
    ensures Glides(u, es, y)
    ensures Sound(y) && |y.wfs| == 2 && y.wfs[0] == u.wfs[0]
    ensures |y.rows| == |u.rows| + 2 && forall k :: 0 <= k < |u.rows| ==> y.rows[k] == u.rows[k]
    ensures IsAt(y.rows[|u.rows|], 0, c) && y.rows[|u.rows|].status == TSuccess && y.rows[|u.rows| + 1].wf == 1
    ensures var sent := Send(0, Existing(g, Targets(g.connections, c)));
      y.queue == u.queue[..i] + u.queue[i + 1..] + sent + sent
    ensures |u.hist| <= |y.hist| && y.hist[..|u.hist|] == u.hist
    ensures forall k :: |u.hist| <= k < |y.hist| ==> !y.hist[k].Resumed?
  {
    hide Glides, Ready, Existing, Targets, Grows, SourcesKnown, OnSuccess, CHILD;
    var r := |u.rows|;
    var before, v := CallBegins(u, g, i, c);
    var more, w := ChildBegins(v, c);
    Glided(u, before, v, more, w);
    assert Only(w.rows, 0, c, r) by {
      assert forall k :: 0 <= k < r ==> w.rows[k] in u.rows;
    }
    ChildReturns(w, g, c, r);
    var x := OnSuccess(w, r + 1, Opaque(0));
    ReturnGlides(w, r + 1, Opaque(0));
    CallerReturns(x, g, c, r);
    ReturnGlides(x, r, Nothing);
    y := OnSuccess(x, r, Nothing);
    Glided(u, before + more, w, [Return(r + 1, Opaque(0))], x);
    Glided(u, before + more + [Return(r + 1, Opaque(0))], x, [Return(r, Nothing)], y);
    es := before + more + [Return(r + 1, Opaque(0))] + [Return(r, Nothing)];
    KeptPrefix(u.hist, w.hist, x.hist);
    KeptPrefix(u.hist, x.hist, y.hist);
  }

  /** What is added to a history at first stays through a second addition. */
  lemma KeptPrefix(a: seq<Entry>, b: seq<Entry>, c: seq<Entry>)
    requires |a| <= |b| <= |c| && b[..|a|] == a && c[..|b|] == b
    requires forall k :: |a| <= k < |b| ==> !b[k].Resumed?
    requires forall k :: |b| <= k < |c| ==> !c[k].Resumed?
    ensures c[..|a|] == a && forall k :: |a| <= k < |c| ==> !c[k].Resumed?
  {
    assert forall k :: 0 <= k < |b| ==> c[k] == b[k];
    assert c[..|a|] == c[..|b|][..|a|];
  }

  /** A node right after a call, and after nothing else, can run twice: once per completion of the calling row. */
  lemma CallRunsTwice(g: Graph, c: NodeId, b: NodeId) returns (s: State)
    requires Regular(g) && IsCall(g, c) && Edge(g, c, b) && InDegree(g.connections, b) <= 1
    ensures Doubled(s, g, b)
  {
    var d := set a | a in g.kind && Ancestor(g, a, c);
    CallersSet(g, c, b);
    var before, u := RunAlone(g, d);
    var i := Waiting(u, g, d, c);
    CleanOpen(u, g, d);
    CleanAncestors(u, g, d, c);
    var more, y := CallCompletesTwice(u, g, i, c);
    hide Glides;
    Glided(Empty, before, u, more, y);
    s := SuccessorRunsTwice(u, y, g, i, c, b, before + more);
  }

  lemma CallersSet(g: Graph, c: NodeId, b: NodeId)
    requires Regular(g) && IsCall(g, c) && Edge(g, c, b)
    ensures var d := set a | a in g.kind && Ancestor(g, a, c); DownClosed(g, d) && c !in d && forall a :: Edge(g, a, c) ==> a in d
    ensures Targets(g.connections, c) != []
  {
    var d := set a | a in g.kind && Ancestor(g, a, c);
    forall x, y | y in d && Edge(g, x, y) ensures x in d {
      ExtendPath(g, x, y, c);
    }
    forall a | Edge(g, a, c) ensures a in d {
      ExtendPath(g, a, c, c);
    }
    assert b in Targets(g.connections, c);
  }

  lemma SuccessorRunsTwice(u: State, y: State, g: Graph, i: nat, c: NodeId, b: NodeId, es: seq<Event>) returns (s: State)
    requires Regular(g) && IsCall(g, c) && Edge(g, c, b) && InDegree(g.connections, b) <= 1
    requires CallWaits(u, g, i, c) && NeverResumed(u.hist, 0) && Missing(u.rows, 0, c)
    requires forall m :: !Ancestor(g, m, c) ==> Missing(u.rows, 0, m)
    requires Glides(Empty, es, y) && Sound(y) && |y.wfs| == 2 && y.wfs[0] == u.wfs[0]
    requires |y.rows| == |u.rows| + 2 && forall k :: 0 <= k < |u.rows| ==> y.rows[k] == u.rows[k]
    requires IsAt(y.rows[|u.rows|], 0, c) && y.rows[|u.rows|].status == TSuccess && y.rows[|u.rows| + 1].wf == 1
    requires var sent := Send(0, Existing(g, Targets(g.connections, c)));
      y.queue == u.queue[..i] + u.queue[i + 1..] + sent + sent
    requires |u.hist| <= |y.hist| && y.hist[..|u.hist|] == u.hist
    requires forall k :: |u.hist| <= k < |y.hist| ==> !y.hist[k].Resumed?
    ensures Doubled(s, g, b)
  {
    hide Glides, Ready, Existing, Targets, CountQueued, Doubled, RowsOf, Regular;
    var q := u.queue[..i] + u.queue[i + 1..];
    TwoDispatches(g, q, y.queue, c, b);
    SomeQueued(y.queue, 0, b);
    var j: nat :| j < |y.queue| && y.queue[j] == Message(0, b);
    OnlyInput(g, c, b);
    InputDone(u.rows, y.rows, g, c, b);
    EndsKnown(g, c, b);
    NotYet(u.rows, y.rows, g, c, b);
    assert NeverResumed(y.hist, 0) by {
      assert forall k :: 0 <= k < |u.hist| ==> y.hist[k] == u.hist[k];
    }
    hide *;
    s := DeliverTwice(y, g, j, b, es);
  }

  lemma EndsKnown(g: Graph, c: NodeId, b: NodeId)
    requires Regular(g) && Edge(g, c, b)
    ensures Acyclic(g) && b in g.kind && !Edge(g, b, b)
  {
    if Edge(g, b, b) {
      ExtendPath(g, b, b, b);
    }
  }

  lemma TwoDispatches(g: Graph, q: seq<Message>, queue: seq<Message>, c: NodeId, b: NodeId)
    requires Regular(g) && Edge(g, c, b)
    requires var sent := Send(0, Existing(g, Targets(g.connections, c))); queue == q + sent + sent
    ensures CountQueued(queue, 0, b) >= 2
  {
    hide CountQueued, Occurs, Acyclic;
    var ids := Existing(g, Targets(g.connections, c));
    CountConcat(q + Send(0, ids), Send(0, ids), 0, b);
    CountConcat(q, Send(0, ids), 0, b);
    CountSend(0, ids, 0, b);
    ExistingOccur(g, Targets(g.connections, c), b);
    TargetsOccur(g.connections, c, b);
    EdgeCounted(g.connections, c, b);
  }

  /** A node with one connection into it has one predecessor. */
  lemma OnlyInput(g: Graph, c: NodeId, b: NodeId)
    requires Edge(g, c, b) && InDegree(g.connections, b) <= 1
    ensures forall a :: Edge(g, a, b) ==> a == c
  {
    forall a | Edge(g, a, b) ensures a == c {
      if a != c {
        TwoInputs(g.connections, a, c, b);
      }
    }
  }

  lemma {:induction false} TwoInputs(cs: seq<Connection>, a: NodeId, c: NodeId, b: NodeId)
    requires a != c
    ensures InDegree(cs, b) >= (if exists x :: x in cs && x.source == a && x.target == b then 1 else 0)
      + (if exists x :: x in cs && x.source == c && x.target == b then 1 else 0)
    decreases |cs|
  {
    if cs != [] {
      var k := |cs| - 1;
      TwoInputs(cs[..k], a, c, b);
      assert cs == cs[..k] + [cs[k]];
    }
  }

  lemma InputDone(rows: seq<Row>, more: seq<Row>, g: Graph, c: NodeId, b: NodeId)
    requires |more| == |rows| + 2 && forall k :: 0 <= k < |rows| ==> more[k] == rows[k]
    requires IsAt(more[|rows|], 0, c) && more[|rows|].status == TSuccess && more[|rows| + 1].wf == 1
    requires Missing(rows, 0, c) && forall a :: Edge(g, a, b) ==> a == c
    ensures Ready(more, g, 0, b)
  {
    forall x | x in g.connections && x.target == b
      ensures Get(more, 0, x.source).Some? && more[Get(more, 0, x.source).value].status == TSuccess
    {
      assert Edge(g, x.source, b);
      assert forall k :: 0 <= k < |rows| ==> more[k] in rows;
      assert Only(more, 0, c, |rows|);
    }
  }

  lemma NotYet(rows: seq<Row>, more: seq<Row>, g: Graph, c: NodeId, b: NodeId)
    requires |more| == |rows| + 2 && forall k :: 0 <= k < |rows| ==> more[k] == rows[k]
    requires IsAt(more[|rows|], 0, c) && more[|rows| + 1].wf == 1
    requires Acyclic(g) && Edge(g, c, b) && forall m :: !Ancestor(g, m, c) ==> Missing(rows, 0, m)
    ensures Missing(more, 0, b)
    ensures forall m :: !Ancestor(g, m, b) ==> Missing(more, 0, m)
  {
    AppendPath(g, c, c, b);
    forall m | !Ancestor(g, m, b) ensures Missing(more, 0, m) {
      if Ancestor(g, m, c) {
        AppendPath(g, m, c, b);
      }
      assert m != c;
      forall x | x in more ensures !IsAt(x, 0, m) {
        var k :| 0 <= k < |more| && more[k] == x;
        if k < |rows| {
          assert rows[k] in rows;
        }
      }
    }
  }

  // ---- a join that calls ----

  /** A row of node `c` in a worker's hands is handed to a child, whose only node then runs. */
  lemma RowCalls(s: State, g: Graph, c: NodeId, r: nat) returns (es: seq<Event>, t: State)
    requires Sound(s) && |s.wfs| == 1 && s.wfs[0].graph == g && IsCall(g, c)
    requires r < |s.rows| && s.rows[r] == NewRow(0, c)
    ensures Glides(s, es, t) && Sound(t) && |t.wfs| == 2 && |t.rows| == |s.rows| + 1
    ensures t.wfs[1] == Workflow(CHILD, WProgress, Some(0), c, "", false, false)
    ensures forall k :: 0 <= k < |s.rows| ==> IsAt(t.rows[k], s.rows[k].wf, s.rows[k].node)
    ensures t.rows[|s.rows|] == Row(1, "x", TProgress, None, false, false, Some(""), Running)
  {
    hide Glides, Grows, CHILD;
    var a := BeforeStart(s, r, "");
    var b := DelegateStep(a, r, CHILD);
    ChildKeyed();
    BeginGlides(s, r, "");
    DelegateGlides(a, r, CHILD);
    Glided(s, [Begin(r, "")], a, [Delegate(r, CHILD)], b);
    var more: seq<Event>;
    more, t := ChildBegins(b, c);
    es := [Begin(r, "")] + [Delegate(r, CHILD)];
    Glided(s, es, b, more, t);
    es := es + more;
  }

  lemma NoneUnique(rows: seq<Row>, more: seq<Row>, c: NodeId)
    requires CountRows(rows, 0, c) == 2 && |more| == |rows| + 1 && more[|rows|].wf == 1
    requires forall k :: 0 <= k < |rows| ==> IsAt(more[k], rows[k].wf, rows[k].node)
    ensures Get(more, 0, c).None?
  {
    var k := Get(more, 0, c);
    if k.Some? {
      assert Only(rows, 0, c, k.value);
      OnlyCounted(rows, 0, c, k.value);
      assert false;
    }
  }

  /**
   * On every template whose join calls another workflow some run, in which nothing fails, ends with
   * a task that returned in ERROR: the join has two rows, so the called workflow finds none to complete.
   */
  lemma JoinedCallErrs(g: Graph, c: NodeId, v: Value) returns (s: State, r: nat, t: State)
    requires Regular(g) && IsCall(g, c) && InDegree(g.connections, c) >= 2
    ensures Smoothly(s) && Sound(s) && Enabled(s, Return(r, v)) && s.rows[r].status == TProgress
    ensures t == OnSuccess(s, r, v) && Smoothly(t)
    ensures t.rows[r].status == TError && t.rows[r].failed && t.rows[r].wf == 1 && |t.wfs| == 2 && t.wfs[1].status == WError
  {
    hide Invariant, Regular, CHILD, Glides, OnSuccess, Reachable, Enabled;
    var u := JoinRunsTwice(g, c);
    SmoothlySound(u);
    var k :| 0 <= k < |u.rows| && u.rows[k] == NewRow(0, c);
    var es: seq<Event>;
    es, s := RowCalls(u, g, c, k);
    r := |u.rows|;
    t := OnSuccess(s, r, v);
    NoneUnique(u.rows, s.rows, c);
    ChildErrs(s, c, r, v);
    var before :| Glides(Empty, before, u);
    Glided(Empty, before, u, es, s);
    ReturnGlides(s, r, v);
    Glided(Empty, before + es, s, [Return(r, v)], t);
  }

  lemma SmoothlySound(s: State)
    requires Smoothly(s)
    ensures Sound(s)
  {
    SmoothlyReachable(s);
    ReachableInvariant(s);
  }

  lemma ChildErrs(s: State, c: NodeId, r: nat, v: Value)
    requires Sound(s) && |s.wfs| == 2 && s.wfs[1] == Workflow(CHILD, WProgress, Some(0), c, "", false, false)
    requires r < |s.rows| && s.rows[r] == Row(1, "x", TProgress, None, false, false, Some(""), Running) && Get(s.rows, 0, c).None?
    ensures Enabled(s, Return(r, v))
    ensures var t := OnSuccess(s, r, v);
      t.rows[r].status == TError && t.rows[r].failed && t.rows[r].wf == 1 && |t.wfs| == 2 && t.wfs[1].status == WError
  {
    hide OnSuccess, CHILD, Grows, Route, Get, ParentRow, Sound, Missing, IsAt;
    ChildEnds(v);
    NoParentRow(s, c);
    AmbiguousParentFails(s, r, v);
    ReturnKept(s, r, v);
  }

  lemma ChildEnds(v: Value)
    ensures Route(CHILD, "x", v) == Some([])
  {
    ChildKeyed();
  }

  lemma NoParentRow(s: State, c: NodeId)
    requires |s.wfs| == 2 && s.wfs[1].parent == Some(0) && s.wfs[1].node == c && Get(s.rows, 0, c).None?
    ensures ParentRow(s, 1).None?
  {
  }

  lemma ReturnKept(s: State, r: nat, v: Value)
    requires Sound(s) && r < |s.rows|
    ensures |OnSuccess(s, r, v).wfs| == |s.wfs| && OnSuccess(s, r, v).rows[r].wf == s.rows[r].wf
  {
    hide OnSuccess;
    ReturnKeepsCount(s, r, v);
  }

  // ---- once ----

  ghost predicate RunsOnce(g: Graph) {
    forall s: State, w: nat ::
      Reachable(s) && w < |s.wfs| && s.wfs[w].graph == g && NeverResumed(s.hist, w) ==>
        forall n :: n in g.kind ==> CountRows(s.rows, w, n) <= 1
  }

  /**
   * Every never resumed run, whatever else happens in it, runs every node at most once exactly when
   * no node has two connections into it and nothing follows a call.
   */
  lemma OnceIffForest(g: Graph)
    requires Regular(g)
    ensures RunsOnce(g) <==> Forest(g) && CallsLast(g)
  {
    if Forest(g) && CallsLast(g) {
      forall s: State, w: nat | Reachable(s) && w < |s.wfs| && s.wfs[w].graph == g && NeverResumed(s.hist, w)
        ensures forall n :: n in g.kind ==> CountRows(s.rows, w, n) <= 1
      {
        forall n | n in g.kind ensures CountRows(s.rows, w, n) <= 1 {
          ForestOnce(s, w, n);
        }
      }
    } else {
      var n := Repeated(g);
      var s := RepeatedRunsTwice(g, n);
      SmoothlyReachable(s);
    }
  }

  /** Node `n` has two connections into it, or follows a call. */
  ghost predicate Repeatable(g: Graph, n: NodeId) {
    n in g.kind && (InDegree(g.connections, n) >= 2 || exists c :: IsCall(g, c) && Edge(g, c, n))
  }

  lemma Repeated(g: Graph) returns (n: NodeId)
    requires Regular(g) && !(Forest(g) && CallsLast(g))
    ensures Repeatable(g, n)
  {
    if !Forest(g) {
      n :| n in g.kind && InDegree(g.connections, n) > 1;
    } else {
      var c :| IsCall(g, c) && !Sink(g, c);
      var x :| x in g.connections && x.source == c;
      n := x.target;
      assert Edge(g, c, n);
    }
  }

  /** Such a node can run twice, without failure, pause or resume. */
  lemma RepeatedRunsTwice(g: Graph, n: NodeId) returns (s: State)
    requires Regular(g) && Repeatable(g, n)
    ensures Doubled(s, g, n)
  {
    if InDegree(g.connections, n) >= 2 {
      s := JoinRunsTwice(g, n);
    } else {
      var c :| IsCall(g, c) && Edge(g, c, n);
      s := CallRunsTwice(g, c, n);
    }
  }
}
