/**
 * Interleavings built on purpose: any set of nodes closed under predecessors can be run alone.
 * This gives the converse of the safety results, so their side conditions are exact.
 */
module Schedules {
  import opened Wrappers
  import opened Graphs
  import opened Orders
  import opened Tables
  import opened Protocol
  import opened Moves
  import opened Safety
  import opened Conservation
  import opened Bounds
  import opened Runs
  import opened Paths

  /** Connections into `n` from nodes of `d`. */
  ghost function FromDone(cs: seq<Connection>, d: set<NodeId>, n: NodeId): nat {
    if cs == [] then 0
    else
      var c := cs[|cs| - 1];
      FromDone(cs[..|cs| - 1], d, n) + if c.target == n && c.source in d then 1 else 0
  }

  lemma {:induction false} FromDoneGrows(cs: seq<Connection>, d: set<NodeId>, a: NodeId, n: NodeId)
    requires a !in d
    ensures FromDone(cs, d + {a}, n) == FromDone(cs, d, n) + EdgeCount(cs, a, n)
    decreases |cs|
  {
    if cs != [] {
      FromDoneGrows(cs[..|cs| - 1], d, a, n);
    }
  }

  lemma {:induction false} FromDoneSome(cs: seq<Connection>, d: set<NodeId>, n: NodeId)
    ensures (forall c :: c in cs && c.target == n ==> c.source in d) ==> FromDone(cs, d, n) == InDegree(cs, n)
    ensures d == {} ==> FromDone(cs, d, n) == 0
    decreases |cs|
  {
    if cs != [] {
      var k := |cs| - 1;
      FromDoneSome(cs[..k], d, n);
      assert cs == cs[..k] + [cs[k]];
    }
  }

  /** Distinct nodes, known endpoints, no cycle, and no condition nodes. */
  ghost predicate Regular(g: Graph) {
    Keyed(g) && Acyclic(g) && SourcesKnown(g) && TargetsKnown(g) && Plain(g)
  }

  /** One workflow on `g`; exactly the nodes of `d` have run, once each; their messages to the others wait. */
  ghost predicate Clean(s: State, g: Graph, d: set<NodeId>) {
    && Sound(s) && |s.wfs| == 1 && s.wfs[0].graph == g && s.wfs[0].parent == None && !s.wfs[0].pending
    && s.wfs[0].status == (if exists z :: z in d && Sink(g, z) then WSuccess else WProgress)
    && RowsOf(s.rows, d) && QueueOf(s.queue, g, d) && HistoryOf(s.hist, d)
  }

  ghost predicate RowsOf(rows: seq<Row>, d: set<NodeId>) {
    && (forall n :: n in d ==> exists i :: Only(rows, 0, n, i) && rows[i].status == TSuccess)
    && (forall n :: n !in d ==> Missing(rows, 0, n))
  }

  ghost predicate QueueOf(q: seq<Message>, g: Graph, d: set<NodeId>) {
    forall n :: n in g.kind && n !in d ==> CountQueued(q, 0, n) == Share(g, n) + FromDone(g.connections, d, n)
  }

  ghost predicate HistoryOf(h: seq<Entry>, d: set<NodeId>) {
    forall k :: 0 <= k < |h| ==> (h[k].Succeeded? ==> h[k].node in d) && !h[k].Resumed?
  }

  lemma {:induction false} Joined(s: State, es: seq<Event>, t: State, fs: seq<Event>, u: State)
    requires Leads(s, es, t) && Leads(t, fs, u)
    ensures Leads(s, es + fs, u)
    decreases |es|
  {
    hide Step, Enabled, Sound;
    if es == [] {
      assert es + fs == fs;
    } else {
      Joined(Step(s, es[0]), es[1..], t, fs, u);
      assert (es + fs)[1..] == es[1..] + fs;
    }
  }

  /** Nothing fails, dies, is cancelled, swept, paused or resumed. */
  predicate Smooth(e: Event) {
    e.Launch? || e.Start? || e.Deliver? || e.Begin? || e.Delegate? || e.Return?
  }

  /** Smooth events lead from `s` to `t`. */
  ghost predicate Glides(s: State, es: seq<Event>, t: State) {
    Leads(s, es, t) && forall e :: e in es ==> Smooth(e)
  }

  /** Reached by smooth events alone. */
  ghost predicate Smoothly(s: State) {
    exists es :: Glides(Empty, es, s)
  }

  lemma GlidesSmoothly(es: seq<Event>, s: State)
    requires Glides(Empty, es, s)
    ensures Smoothly(s)
  {
  }

  lemma SmoothlyReachable(s: State)
    requires Smoothly(s)
    ensures Reachable(s)
  {
    hide Leads;
    var es :| Glides(Empty, es, s);
  }

  lemma Glided(s: State, es: seq<Event>, t: State, fs: seq<Event>, u: State)
    requires Glides(s, es, t) && Glides(t, fs, u)
    ensures Glides(s, es + fs, u)
  {
    hide Leads, Smooth;
    Joined(s, es, t, fs, u);
  }

  lemma OneEvent(s: State, e: Event)
    requires Sound(s) && Enabled(s, e) && Smooth(e)
    ensures Glides(s, [e], Step(s, e))
  {
    hide Step, Enabled, Sound;
    assert [e][1..] == [];
    assert Leads(Step(s, e), [], Step(s, e));
  }

  lemma Opened(g: Graph) returns (es: seq<Event>, s: State)
    requires Regular(g)
    ensures Glides(Empty, es, s) && Clean(s, g, {})
  {
    var t := LaunchWorkflow(Empty, g);
    OneEvent(Empty, Launch(g));
    OneEvent(t, Start(0));
    es, s := [Launch(g)] + [Start(0)], ExecuteWorkflow(t, 0);
    Glided(Empty, [Launch(g)], t, [Start(0)], s);
    forall n | n in g.kind ensures CountQueued(s.queue, 0, n) == Share(g, n) + FromDone(g.connections, {}, n) {
      CountSend(0, StartSends(g), 0, n);
      assert s.queue == Send(0, StartSends(g));
      StartSendsOnce(g, n);
      FromDoneSome(g.connections, {}, n);
    }
  }

  /** The message that is certainly waiting for a node whose inputs are all done. */
  lemma Waiting(s: State, g: Graph, d: set<NodeId>, n: NodeId) returns (i: nat)
    requires Regular(g) && Clean(s, g, d) && n in g.kind && n !in d
    requires forall a :: Edge(g, a, n) ==> a in d
    ensures i < |s.queue| && s.queue[i] == Message(0, n)
    ensures Ready(s.rows, g, 0, n)
  {
    forall c | c in g.connections && c.target == n
      ensures c.source in d && Get(s.rows, 0, c.source).Some? && s.rows[Get(s.rows, 0, c.source).value].status == TSuccess
    {
      assert Edge(g, c.source, n);
    }
    FromDoneSome(g.connections, d, n);
    InDegreeTarget(g.connections, n);
    SomeQueued(s.queue, 0, n);
    i :| 0 <= i < |s.queue| && s.queue[i] == Message(0, n);
  }

  /** The state after node `n`, ready and waiting at `i`, has been delivered, begun and returned. */
  ghost function Ran(s: State, i: nat, n: NodeId): State
    requires Sound(s) && |s.wfs| == 1 && i < |s.queue|
  {
    RanWith(s, i, n, Opaque(0), Targets(s.wfs[0].graph.connections, n))
  }

  /** The same with value `v`, after which `next` follow. */
  ghost function RanWith(s: State, i: nat, n: NodeId, v: Value, next: seq<NodeId>): State
    requires Sound(s) && |s.wfs| == 1 && i < |s.queue|
  {
    var g := s.wfs[0].graph;
    var q := s.queue[..i] + s.queue[i + 1..];
    State(
      if next == [] then [s.wfs[0].(status := WSuccess, finished := true, current := n)] else s.wfs,
      s.rows + [Row(0, n, TSuccess, Some(if v == Nothing then Value.Notice else v), false, true, Some(""), Done)],
      if next == [] then q else q + Send(0, Existing(g, next)),
      s.hist + [Accepted(0, n)] + [Succeeded(0, n, v)])
  }

  lemma RunsTo(s: State, i: nat, n: NodeId) returns (es: seq<Event>)
    requires Sound(s) && |s.wfs| == 1 && s.wfs[0].parent == None && s.wfs[0].status != WWait
    requires i < |s.queue| && s.queue[i] == Message(0, n)
    requires var g := s.wfs[0].graph; n in g.kind && !g.kind[n].Condition? && SourcesKnown(g) && Ready(s.rows, g, 0, n)
    ensures Glides(s, es, Ran(s, i, n))
  {
    es := RunsWith(s, i, n, Opaque(0), Targets(s.wfs[0].graph.connections, n));
  }

  lemma RunsWith(s: State, i: nat, n: NodeId, v: Value, next: seq<NodeId>) returns (es: seq<Event>)
    requires Sound(s) && |s.wfs| == 1 && s.wfs[0].parent == None && s.wfs[0].status != WWait
    requires i < |s.queue| && s.queue[i] == Message(0, n)
    requires var g := s.wfs[0].graph; n in g.kind && Route(g, n, v) == Some(next) && Ready(s.rows, g, 0, n)
    ensures Glides(s, es, RanWith(s, i, n, v, next))
  {
    hide Glides, Ready, Route, Grows, OnSuccess, RanWith;
    var r := |s.rows|;
    var a := ProcessNextNode(s, i);
    var b := BeforeStart(a, r, "");
    DeliverGlides(s, i);
    BeginGlides(a, r, "");
    ReturnGlides(b, r, v);
    ReturnsTo(s, i, n, v, next, b);
    Glided(s, [Deliver(i)], a, [Begin(r, "")], b);
    Glided(s, [Deliver(i)] + [Begin(r, "")], b, [Return(r, v)], RanWith(s, i, n, v, next));
    es := [Deliver(i)] + [Begin(r, "")] + [Return(r, v)];
  }

  lemma ReturnsTo(s: State, i: nat, n: NodeId, v: Value, next: seq<NodeId>, b: State)
    requires Sound(s) && |s.wfs| == 1 && s.wfs[0].parent == None && s.wfs[0].status != WWait
    requires i < |s.queue| && s.queue[i] == Message(0, n)
    requires var g := s.wfs[0].graph; n in g.kind && Route(g, n, v) == Some(next) && Ready(s.rows, g, 0, n)
    requires b == BeforeStart(ProcessNextNode(s, i), |s.rows|, "")
    ensures OnSuccess(b, |s.rows|, v) == RanWith(s, i, n, v, next)
  {
    hide Ready, Existing, Route, Grows;
    var r := |s.rows|;
    var t := Frame(Stop(b, r), r, v);
    assert t.rows == s.rows + [Row(0, n, TSuccess, Some(if v == Nothing then Value.Notice else v), false, true, Some(""), Done)];
    assert t.wfs == RanWith(s, i, n, v, next).wfs;
  }

  lemma RanClean(s: State, g: Graph, d: set<NodeId>, i: nat, n: NodeId)
    requires Regular(g) && Clean(s, g, d) && n in g.kind && n !in d
    requires i < |s.queue| && s.queue[i] == Message(0, n)
    ensures Clean(Ran(s, i, n), g, d + {n})
  {
    hide Acyclic, RowsOf, QueueOf, HistoryOf, CountQueued, Regular;
    var t := Ran(s, i, n);
    RanRows(s, i, n, Opaque(0), Targets(g.connections, n), d);
    RanMessages(s, g, i, n, d);
    RanHistory(s, i, n, Opaque(0), Targets(g.connections, n), d);
    NoTargets(g.connections, n);
    assert Sink(g, n) <==> Targets(g.connections, n) == [];
    assert n in d + {n} && forall z :: z in d ==> z in d + {n};
  }

  lemma RanRows(s: State, i: nat, n: NodeId, v: Value, next: seq<NodeId>, d: set<NodeId>)
    requires Sound(s) && |s.wfs| == 1 && i < |s.queue| && n !in d && RowsOf(s.rows, d)
    ensures RowsOf(RanWith(s, i, n, v, next).rows, d + {n})
  {
    hide Existing;
    var rows := RanWith(s, i, n, v, next).rows;
    assert rows[|s.rows|].node == n && rows[|s.rows|].wf == 0;
    forall m | m in d + {n} ensures exists j :: Only(rows, 0, m, j) && rows[j].status == TSuccess {
      if m == n {
        assert Only(rows, 0, n, |s.rows|);
      } else {
        var j :| Only(s.rows, 0, m, j) && s.rows[j].status == TSuccess;
        assert Only(rows, 0, m, j);
      }
    }
  }

  lemma RanMessages(s: State, g: Graph, i: nat, n: NodeId, d: set<NodeId>)
    requires Sound(s) && |s.wfs| == 1 && s.wfs[0].graph == g && n !in d && QueueOf(s.queue, g, d)
    requires i < |s.queue| && s.queue[i] == Message(0, n)
    ensures QueueOf(Ran(s, i, n).queue, g, d + {n})
  {
    hide Ran, CountQueued;
    forall m | m in g.kind && m !in d + {n}
      ensures CountQueued(Ran(s, i, n).queue, 0, m) == Share(g, m) + FromDone(g.connections, d + {n}, m)
    {
      RanQueue(s, g, i, n, m);
      FromDoneGrows(g.connections, d, n, m);
    }
  }

  lemma RanHistory(s: State, i: nat, n: NodeId, v: Value, next: seq<NodeId>, d: set<NodeId>)
    requires Sound(s) && |s.wfs| == 1 && i < |s.queue| && HistoryOf(s.hist, d)
    ensures HistoryOf(RanWith(s, i, n, v, next).hist, d + {n})
  {
    hide Existing;
  }

  lemma RanQueue(s: State, g: Graph, i: nat, n: NodeId, m: NodeId)
    requires Sound(s) && |s.wfs| == 1 && s.wfs[0].graph == g && m in g.kind && m != n
    requires i < |s.queue| && s.queue[i] == Message(0, n)
    ensures CountQueued(Ran(s, i, n).queue, 0, m) == CountQueued(s.queue, 0, m) + EdgeCount(g.connections, n, m)
  {
    var q := s.queue[..i] + s.queue[i + 1..];
    var next := Targets(g.connections, n);
    CountRemove(s.queue, i, 0, m);
    TargetsOccur(g.connections, n, m);
    ExistingOccur(g, next, m);
    CountSend(0, Existing(g, next), 0, m);
    CountConcat(q, Send(0, Existing(g, next)), 0, m);
  }

  ghost predicate DownClosed(g: Graph, t: set<NodeId>) {
    t <= g.kind.Keys && forall a, b :: b in t && Edge(g, a, b) ==> a in t
  }

  /** Any set of nodes closed under predecessors can be run alone, each node once. */
  lemma {:induction false} RunAlone(g: Graph, d: set<NodeId>) returns (es: seq<Event>, s: State)
    requires Regular(g) && DownClosed(g, d)
    ensures Glides(Empty, es, s) && Clean(s, g, d)
    decreases |d|
  {
    hide Clean, Glides;
    if d == {} {
      es, s := Opened(g);
    } else {
      var start :| start in d;
      var n := LastOf(g, d, [start]);
      var before, u := RunAlone(g, d - {n});
      forall a | Edge(g, a, n) ensures a in d - {n} {
        assert a in d && a != n;
      }
      CleanOpen(u, g, d - {n});
      var i := Waiting(u, g, d - {n}, n);
      var more := RunsTo(u, i, n);
      s := Ran(u, i, n);
      RanClean(u, g, d - {n}, i, n);
      Glided(Empty, before, u, more, s);
      es := before + more;
      assert d - {n} + {n} == d;
    }
  }

  lemma CleanOpen(s: State, g: Graph, d: set<NodeId>)
    requires Clean(s, g, d)
    ensures Sound(s) && |s.wfs| == 1 && s.wfs[0].graph == g && s.wfs[0].parent == None && s.wfs[0].status != WWait
  {
  }

  // ---- one sink ----

  ghost predicate ClosesComplete(g: Graph) {
    forall s: State, w: nat :: Reachable(s) && w < |s.wfs| && s.wfs[w].graph == g && s.wfs[w].status == WSuccess ==>
      forall n :: n in g.kind ==> HasSucceeded(s, w, n)
  }

  /** SUCCESS means that all nodes completed, in every interleaving, exactly when the graph has one sink. */
  lemma CompletenessIffOneSink(g: Graph)
    requires Regular(g)
    ensures ClosesComplete(g) <==> OneSink(g)
  {
    if OneSink(g) {
      forall s: State, w: nat | Reachable(s) && w < |s.wfs| && s.wfs[w].graph == g && s.wfs[w].status == WSuccess
        ensures forall n :: n in g.kind ==> HasSucceeded(s, w, n)
      {
        forall n | n in g.kind ensures HasSucceeded(s, w, n) {
          SingleSinkCompleteness(s, w, n);
        }
      }
    } else {
      EarlyClose(g);
    }
  }

  lemma EarlyClose(g: Graph)
    requires Regular(g) && !OneSink(g)
    ensures !ClosesComplete(g)
  {
    var y, z :| Sink(g, y) && Sink(g, z) && y != z;
    var d := g.kind.Keys - {z};
    assert DownClosed(g, d) by {
      forall a, b | b in d && Edge(g, a, b) ensures a in d {
        var c :| c in g.connections && c.source == a && c.target == b;
      }
    }
    var es, s := RunAlone(g, d);
    assert Reachable(s);
    assert y in d && s.wfs[0].status == WSuccess;
    assert !HasSucceeded(s, 0, z);
  }

  // ---- joins ----

  /** In the first workflow, on `g`, node `n` has two rows and nothing after it has any; nothing failed or was paused. */
  ghost predicate Doubled(s: State, g: Graph, n: NodeId) {
    && Smoothly(s) && 0 < |s.wfs| && s.wfs[0].graph == g && s.wfs[0].parent == None
    && CountRows(s.rows, 0, n) == 2 && NewRow(0, n) in s.rows
    && (forall m :: m != n && !Ancestor(g, m, n) ==> Missing(s.rows, 0, m))
    && NeverResumed(s.hist, 0)
  }

  /** A node with two connections into it can be dispatched, and run, twice. */
  lemma JoinRunsTwice(g: Graph, n: NodeId) returns (s: State)
    requires Regular(g) && n in g.kind && InDegree(g.connections, n) >= 2
    ensures Doubled(s, g, n) && |s.wfs| == 1
  {
    var d := set a | a in g.kind && Ancestor(g, a, n);
    assert DownClosed(g, d) by {
      forall a, b | b in d && Edge(g, a, b) ensures a in d {
        ExtendPath(g, a, b, n);
      }
    }
    assert n !in d;
    forall a | Edge(g, a, n) ensures a in d {
      ExtendPath(g, a, n, n);
    }
    var es, u := RunAlone(g, d);
    s := TwiceDelivered(u, g, d, n, es);
  }

  lemma TwiceDelivered(u: State, g: Graph, d: set<NodeId>, n: NodeId, es: seq<Event>) returns (s: State)
    requires Regular(g) && n in g.kind && InDegree(g.connections, n) >= 2
    requires d == set a | a in g.kind && Ancestor(g, a, n)
    requires n !in d && forall a :: Edge(g, a, n) ==> a in d
    requires Glides(Empty, es, u) && Clean(u, g, d)
    ensures Doubled(s, g, n) && |s.wfs| == 1
  {
    var i := Waiting(u, g, d, n);
    CleanOpen(u, g, d);
    CleanAncestors(u, g, d, n);
    assert CountQueued(u.queue, 0, n) >= 2 by {
      forall c | c in g.connections && c.target == n ensures c.source in d {
        assert Edge(g, c.source, n);
      }
      FromDoneSome(g.connections, d, n);
    }
    assert !Edge(g, n, n);
    hide *;
    s := DeliverTwice(u, g, i, n, es);
  }

  lemma DeliverTwice(u: State, g: Graph, i: nat, n: NodeId, es: seq<Event>) returns (s: State)
    requires Glides(Empty, es, u)
    requires Sound(u) && 0 < |u.wfs| && u.wfs[0].graph == g && u.wfs[0].parent == None && u.wfs[0].status != WWait
    requires i < |u.queue| && u.queue[i] == Message(0, n) && n in g.kind && Ready(u.rows, g, 0, n)
    requires CountQueued(u.queue, 0, n) >= 2 && !Edge(g, n, n)
    requires Missing(u.rows, 0, n) && NeverResumed(u.hist, 0)
    requires forall m :: !Ancestor(g, m, n) ==> Missing(u.rows, 0, m)
    ensures Doubled(s, g, n) && s.wfs == u.wfs
  {
    hide Glides, Ancestor, ProcessNextNode, Step, CountQueued, Ready, CountRows, Grows, Edge, Smoothly;
    var v := ProcessNextNode(u, i);
    Delivered(u, g, i, n);
    SomeQueued(v.queue, 0, n);
    var j: nat :| j < |v.queue| && v.queue[j] == Message(0, n);
    StillReady(u.rows, NewRow(0, n), g, n);
    s := ProcessNextNode(v, j);
    Delivered(v, g, j, n);
    DeliverGlides(u, i);
    DeliverGlides(v, j);
    Glided(Empty, es, u, [Deliver(i)], v);
    Glided(Empty, es + [Deliver(i)], v, [Deliver(j)], s);
    NoneCounted(u.rows, 0, n);
    AddedRow(u.rows, NewRow(0, n), 0, n);
    AddedRow(v.rows, NewRow(0, n), 0, n);
    assert Smoothly(s) by { GlidesSmoothly(es + [Deliver(i)] + [Deliver(j)], s); }
  }

  lemma CleanAncestors(u: State, g: Graph, d: set<NodeId>, n: NodeId)
    requires Clean(u, g, d) && n !in d && TargetsKnown(g) && SourcesKnown(g)
    requires d == set a | a in g.kind && Ancestor(g, a, n)
    ensures forall m :: !Ancestor(g, m, n) ==> Missing(u.rows, 0, m)
    ensures Missing(u.rows, 0, n) && NeverResumed(u.hist, 0)
  {
  }

  lemma DeliverGlides(s: State, i: nat)
    requires Sound(s) && i < |s.queue|
    ensures Glides(s, [Deliver(i)], ProcessNextNode(s, i))
  {
    OneEvent(s, Deliver(i));
  }

  lemma BeginGlides(s: State, r: nat, worker: string)
    requires Sound(s) && r < |s.rows| && s.rows[r].phase == Created
    ensures Glides(s, [Begin(r, worker)], BeforeStart(s, r, worker))
  {
    OneEvent(s, Begin(r, worker));
  }

  lemma StartGlides(s: State, w: nat)
    requires Sound(s) && w < |s.wfs| && s.wfs[w].pending
    ensures Glides(s, [Start(w)], ExecuteWorkflow(s, w))
  {
    OneEvent(s, Start(w));
  }

  lemma DelegateGlides(s: State, r: nat, g: Graph)
    requires Sound(s) && Enabled(s, Delegate(r, g))
    ensures Glides(s, [Delegate(r, g)], DelegateStep(s, r, g))
  {
    OneEvent(s, Delegate(r, g));
  }

  lemma ReturnGlides(s: State, r: nat, v: Value)
    requires Sound(s) && Enabled(s, Return(r, v))
    ensures Glides(s, [Return(r, v)], OnSuccess(s, r, v))
  {
    OneEvent(s, Return(r, v));
  }

  /** Delivering a message whose inputs are ready adds one row. */
  lemma Delivered(s: State, g: Graph, i: nat, n: NodeId)
    requires Sound(s) && 0 < |s.wfs| && s.wfs[0].graph == g && s.wfs[0].status != WWait
    requires i < |s.queue| && s.queue[i] == Message(0, n) && n in g.kind && Ready(s.rows, g, 0, n)
    ensures var t := ProcessNextNode(s, i);
      && t.wfs == s.wfs && t.rows == s.rows + [NewRow(0, n)] && t.hist == s.hist + [Accepted(0, n)]
      && CountQueued(t.queue, 0, n) == CountQueued(s.queue, 0, n) - 1
  {
    CountRemove(s.queue, i, 0, n);
  }

  lemma StillReady(rows: seq<Row>, row: Row, g: Graph, n: NodeId)
    requires Ready(rows, g, 0, n) && row.node == n && !Edge(g, n, n)
    ensures Ready(rows + [row], g, 0, n)
  {
    forall c | c in g.connections && c.target == n
      ensures var k := Get(rows + [row], 0, c.source); k.Some? && (rows + [row])[k.value].status == TSuccess
    {
      assert Edge(g, c.source, n);
      var k := Get(rows, 0, c.source);
      assert Only(rows + [row], 0, c.source, k.value);
    }
  }

  lemma {:induction false} NoneCounted(rows: seq<Row>, w: nat, n: NodeId)
    requires Missing(rows, w, n)
    ensures CountRows(rows, w, n) == 0
    decreases |rows|
  {
    if rows != [] {
      NoneCounted(rows[..|rows| - 1], w, n);
    }
  }

  lemma {:induction false} OnlyCounted(rows: seq<Row>, w: nat, n: NodeId, i: nat)
    requires Only(rows, w, n, i)
    ensures CountRows(rows, w, n) == 1
    decreases |rows|
  {
    var k := |rows| - 1;
    assert forall j :: 0 <= j < k ==> rows[..k][j] == rows[j];
    if i < k {
      assert Only(rows[..k], w, n, i);
      OnlyCounted(rows[..k], w, n, i);
    } else {
      NoneCounted(rows[..k], w, n);
    }
  }
}
