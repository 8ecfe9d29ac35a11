/** On an acyclic graph the number of paths to a node bounds everything that happens to it. */
module Paths {
  import opened Wrappers
  import opened Graphs
  import opened Orders
  import opened Tables
  import opened Protocol
  import opened Safety
  import opened WakeUps
  import opened Conservation
  import opened Bounds
  import opened Runs

  /** A topological ranking of the nodes of an acyclic graph. */
  ghost function Rank(g: Graph): (rank: map<NodeId, nat>)
    requires Acyclic(g)
    ensures rank.Keys == g.kind.Keys && Ranks(g, rank)
    ensures forall n :: n in rank ==> rank[n] < |g.kind|
  {
    RankExists(g);
    var rank: map<NodeId, nat> :|
      rank.Keys == g.kind.Keys && Ranks(g, rank) && forall n :: n in rank ==> rank[n] < |g.kind|;
    rank
  }

  lemma RankExists(g: Graph)
    requires Acyclic(g)
    ensures exists rank: map<NodeId, nat> ::
      rank.Keys == g.kind.Keys && Ranks(g, rank) && forall n :: n in rank ==> rank[n] < |g.kind|
  {
    var rank := RankingOf(g, g.kind.Keys);
    assert |g.kind.Keys| == |g.kind|;
  }

  /** The number of paths from start nodes to `n`, parallel connections counted apart. */
  ghost function PathsTo(g: Graph, n: NodeId): nat
    requires Acyclic(g) && SourcesKnown(g) && n in g.kind
    decreases Rank(g)[n], 1, 0
  {
    (if IsTarget(g.connections, n) then 0 else 1) + PathsOver(g, g.connections, n)
  }

  ghost function PathsOver(g: Graph, cs: seq<Connection>, n: NodeId): nat
    requires Acyclic(g) && SourcesKnown(g) && n in g.kind
    requires forall c :: c in cs ==> c in g.connections
    decreases Rank(g)[n], 0, |cs|
  {
    if cs == [] then 0
    else
      var c := cs[|cs| - 1];
      PathsOver(g, cs[..|cs| - 1], n) +
      if c.target == n then
        assert Edge(g, c.source, n);
        PathsTo(g, c.source)
      else 0
  }

  /** Successes at the sources of the connections into `n`, one per connection. */
  function Inflow(cs: seq<Connection>, h: seq<Entry>, w: nat, n: NodeId): nat {
    if cs == [] then 0
    else
      var c := cs[|cs| - 1];
      Inflow(cs[..|cs| - 1], h, w, n) + if c.target == n then Successes(h, w, c.source) else 0
  }

  lemma {:induction false} InflowLogged(cs: seq<Connection>, h: seq<Entry>, e: Entry, w: nat, n: NodeId)
    ensures Inflow(cs, h + [e], w, n) ==
      Inflow(cs, h, w, n) + if e.Succeeded? && e.wf == w then EdgeCount(cs, e.node, n) else 0
    decreases |cs|
  {
    if cs != [] {
      InflowLogged(cs[..|cs| - 1], h, e, w, n);
      Counted(h, e, w, cs[|cs| - 1].source);
    }
  }

  lemma {:induction false} TargetsOccur(cs: seq<Connection>, a: NodeId, n: NodeId)
    ensures Occurs(Targets(cs, a), n) == EdgeCount(cs, a, n)
    decreases |cs|
  {
    if cs != [] {
      var k := |cs| - 1;
      TargetsOccur(cs[..k], a, n);
      var before := Targets(cs[..k], a);
      assert (before + [cs[k].target])[..|before|] == before;
    }
  }

  lemma {:induction false} ExistingOccur(g: Graph, ids: seq<NodeId>, n: NodeId)
    ensures Occurs(Existing(g, ids), n) == if n in g.kind then Occurs(ids, n) else 0
    decreases |ids|
  {
    if ids != [] {
      var k := |ids| - 1;
      ExistingOccur(g, ids[..k], n);
      var before := Existing(g, ids[..k]);
      assert (before + [ids[k]])[..|before|] == before;
    }
  }

  lemma {:induction false} EdgeCounted(cs: seq<Connection>, a: NodeId, n: NodeId)
    ensures EdgeCount(cs, a, n) > 0 <==> exists c :: c in cs && c.source == a && c.target == n
    decreases |cs|
  {
    if cs != [] {
      var k := |cs| - 1;
      EdgeCounted(cs[..k], a, n);
      assert cs == cs[..k] + [cs[k]];
    }
  }

  /** What one success sends: every connection of a plain node, at most one of a condition. */
  lemma SuccessSends(g: Graph, w: nat, a: NodeId, v: Value, n: NodeId)
    ensures SentBy(g, Succeeded(w, a, v), w, n) <= EdgeCount(g.connections, a, n)
    ensures SourcesKnown(g) && a in g.kind && !g.kind[a].Condition? && n in g.kind ==>
      SentBy(g, Succeeded(w, a, v), w, n) == EdgeCount(g.connections, a, n)
    ensures a in g.kind && g.kind[a].Condition? ==> SentBy(g, Succeeded(w, a, v), w, n) <= 1
    ensures n !in g.kind ==> SentBy(g, Succeeded(w, a, v), w, n) == 0
  {
    var next := Route(g, a, v);
    if next.Some? {
      ExistingOccur(g, next.value, n);
      if g.kind[a].Condition? {
        EdgeCounted(g.connections, a, n);
        if next.value != [] {
          assert next.value == [next.value[0]];
          assert next.value[..0] == [];
          assert next.value[0] in next.value;
        }
      } else {
        TargetsOccur(g.connections, a, n);
      }
    }
  }

  lemma {:induction false} RootsOccur(cs: seq<Connection>, ids: seq<NodeId>, n: NodeId)
    requires forall i, j :: 0 <= i < j < |ids| ==> ids[i] != ids[j]
    ensures Occurs(Roots(cs, ids), n) == if n in ids && !IsTarget(cs, n) then 1 else 0
    decreases |ids|
  {
    if ids != [] {
      var k := |ids| - 1;
      RootsOccur(cs, ids[..k], n);
      var before := Roots(cs, ids[..k]);
      assert (before + [ids[k]])[..|before|] == before;
      assert ids == ids[..k] + [ids[k]];
    }
  }

  /** Each start node is started exactly once. */
  lemma StartSendsOnce(g: Graph, n: NodeId)
    requires Keyed(g) && SourcesKnown(g)
    ensures Occurs(StartSends(g), n) == if n in g.kind && !IsTarget(g.connections, n) then 1 else 0
  {
    RootsOccur(g.connections, g.nodes, n);
  }

  ghost function Share(g: Graph, n: NodeId): nat {
    if n in g.kind && !IsTarget(g.connections, n) then 1 else 0
  }

  lemma {:induction false} SentInflow(g: Graph, h: seq<Entry>, w: nat, n: NodeId)
    requires Keyed(g) && SourcesKnown(g) && NeverResumed(h, w) && Starts(h, w) <= 1
    ensures Sent(g, h, w, n) <= (if Starts(h, w) == 0 then 0 else Share(g, n)) + Inflow(g.connections, h, w, n)
    ensures n !in g.kind ==> Sent(g, h, w, n) == 0
    decreases |h|
  {
    if h == [] {
    } else {
      var k := |h| - 1;
      assert h == h[..k] + [h[k]];
      Counted(h[..k], h[k], w, n);
      InflowLogged(g.connections, h[..k], h[k], w, n);
      SentInflow(g, h[..k], w, n);
      hide StartSends, Inflow, Occurs;
      match h[k]
      case Succeeded(x, a, v) =>
        SuccessSends(g, w, a, v, n);
      case Started(_) =>
        StartSendsOnce(g, n);
      case _ =>
    }
  }

  /** No workflow is called on the way to `n`. */
  ghost predicate NoCallBefore(g: Graph, n: NodeId) {
    forall a :: Ancestor(g, a, n) ==> !IsCall(g, a)
  }

  lemma NoCallAt(g: Graph, a: NodeId, n: NodeId)
    requires NoCallBefore(g, n) && Edge(g, a, n)
    ensures !IsCall(g, a) && NoCallBefore(g, a)
  {
    AppendPath(g, a, a, n);
    forall b | Ancestor(g, b, a) ensures !IsCall(g, b) {
      AppendPath(g, b, a, n);
    }
  }

  /** Calls only where nothing follows. */
  ghost predicate CallsLast(g: Graph) {
    forall n :: IsCall(g, n) ==> Sink(g, n)
  }

  lemma CallsLastBefore(g: Graph, n: NodeId)
    requires CallsLast(g)
    ensures NoCallBefore(g, n)
  {
    forall a | Ancestor(g, a, n) ensures !IsCall(g, a) {
      AncestorHasEdge(g, a, n);
    }
  }

  /** In a never resumed workflow a node without a call before it is sent at most one message per path to it. */
  lemma {:induction false} SentPaths(s: State, w: nat, n: NodeId)
    requires Invariant(s) && w < |s.wfs| && NeverResumed(s.hist, w)
    requires var g := s.wfs[w].graph; Acyclic(g) && SourcesKnown(g) && n in g.kind && NoCallBefore(g, n)
    ensures Sent(s.wfs[w].graph, s.hist, w, n) <= PathsTo(s.wfs[w].graph, n)
    decreases Rank(s.wfs[w].graph)[n], 1, 0
  {
    var g := s.wfs[w].graph;
    assert Accounted(s, w, n);
    SentInflow(g, s.hist, w, n);
    InflowPaths(s, w, g.connections, n);
  }

  lemma {:induction false} InflowPaths(s: State, w: nat, cs: seq<Connection>, n: NodeId)
    requires Invariant(s) && w < |s.wfs| && NeverResumed(s.hist, w)
    requires var g := s.wfs[w].graph; Acyclic(g) && SourcesKnown(g) && n in g.kind && NoCallBefore(g, n)
    requires forall c :: c in cs ==> c in s.wfs[w].graph.connections
    ensures Inflow(cs, s.hist, w, n) <= PathsOver(s.wfs[w].graph, cs, n)
    decreases Rank(s.wfs[w].graph)[n], 0, |cs|
  {
    if cs != [] {
      var g := s.wfs[w].graph;
      var c := cs[|cs| - 1];
      InflowPaths(s, w, cs[..|cs| - 1], n);
      if c.target == n {
        assert Edge(g, c.source, n);
        NoCallAt(g, c.source, n);
        SentPaths(s, w, c.source);
        assert Accounted(s, w, c.source) && Balanced(s, w, c.source);
        AcceptedTaken(s.hist, w, c.source);
      }
    }
  }

  /** Rows, and messages in flight, of a node: at most one per path from a start node. */
  lemma PathBound(s: State, w: nat, n: NodeId)
    requires Reachable(s) && w < |s.wfs| && NeverResumed(s.hist, w)
    requires var g := s.wfs[w].graph; Acyclic(g) && SourcesKnown(g) && n in g.kind && NoCallBefore(g, n)
    ensures CountQueued(s.queue, w, n) + Taken(s.hist, w, n) <= PathsTo(s.wfs[w].graph, n)
    ensures CountQueued(s.queue, w, n) + CountRows(s.rows, w, n) <= PathsTo(s.wfs[w].graph, n)
  {
    ReachableInvariant(s);
    SentPaths(s, w, n);
    DispatchConservation(s, w, n);
  }

  // ---- termination ----

  /** All messages of a workflow taken from the queue. */
  function AllTaken(h: seq<Entry>, w: nat): nat {
    if h == [] then 0
    else
      var e := h[|h| - 1];
      AllTaken(h[..|h| - 1], w) + if (e.Parked? || e.Dropped? || e.Accepted?) && e.wf == w then 1 else 0
  }

  ghost function TotalPaths(g: Graph, ids: seq<NodeId>): nat
    requires Acyclic(g) && SourcesKnown(g) && forall n :: n in ids ==> n in g.kind
  {
    if ids == [] then 0 else TotalPaths(g, ids[..|ids| - 1]) + PathsTo(g, ids[|ids| - 1])
  }

  function SumTaken(h: seq<Entry>, w: nat, ids: seq<NodeId>): nat {
    if ids == [] then 0 else SumTaken(h, w, ids[..|ids| - 1]) + Taken(h, w, ids[|ids| - 1])
  }

  lemma {:induction false} SumTakenLogged(h: seq<Entry>, e: Entry, w: nat, ids: seq<NodeId>)
    ensures SumTaken(h + [e], w, ids) >= SumTaken(h, w, ids)
    ensures (e.Parked? || e.Dropped? || e.Accepted?) && e.wf == w && e.node in ids ==>
      SumTaken(h + [e], w, ids) > SumTaken(h, w, ids)
    decreases |ids|
  {
    if ids != [] {
      var k := |ids| - 1;
      SumTakenLogged(h, e, w, ids[..k]);
      Logged(Graph([], map[], []), h, e, w, ids[k]);
      assert ids == ids[..k] + [ids[k]];
    }
  }

  lemma {:induction false} AllTakenSum(h: seq<Entry>, w: nat, ids: seq<NodeId>)
    requires forall k :: 0 <= k < |h| && (h[k].Parked? || h[k].Dropped? || h[k].Accepted?) && h[k].wf == w ==> h[k].node in ids
    ensures AllTaken(h, w) <= SumTaken(h, w, ids)
    decreases |h|
  {
    if h != [] {
      var k := |h| - 1;
      AllTakenSum(h[..k], w, ids);
      assert h == h[..k] + [h[k]];
      SumTakenLogged(h[..k], h[k], w, ids);
    }
  }

  lemma {:induction false} TakenAt(h: seq<Entry>, k: nat, w: nat)
    requires k < |h| && (h[k].Parked? || h[k].Dropped? || h[k].Accepted?) && h[k].wf == w
    ensures Taken(h, w, h[k].node) > 0
    decreases |h|
  {
    if k < |h| - 1 {
      TakenAt(h[..|h| - 1], k, w);
    }
  }

  lemma {:induction false} SumTakenPaths(s: State, w: nat, ids: seq<NodeId>)
    requires Reachable(s) && w < |s.wfs| && NeverResumed(s.hist, w)
    requires var g := s.wfs[w].graph; Acyclic(g) && SourcesKnown(g) && CallsLast(g) && forall n :: n in ids ==> n in g.kind
    ensures SumTaken(s.hist, w, ids) <= TotalPaths(s.wfs[w].graph, ids)
    decreases |ids|
  {
    if ids != [] {
      var k := |ids| - 1;
      SumTakenPaths(s, w, ids[..k]);
      CallsLastBefore(s.wfs[w].graph, ids[k]);
      PathBound(s, w, ids[k]);
    }
  }

  /** However its tasks interleave, one start takes no more messages than there are paths. */
  lemma Termination(s: State, w: nat)
    requires Reachable(s) && w < |s.wfs| && NeverResumed(s.hist, w)
    requires var g := s.wfs[w].graph; Acyclic(g) && SourcesKnown(g) && CallsLast(g) && forall n :: n in g.nodes ==> n in g.kind
    ensures AllTaken(s.hist, w) <= TotalPaths(s.wfs[w].graph, s.wfs[w].graph.nodes)
  {
    ReachableInvariant(s);
    var g := s.wfs[w].graph;
    forall k | 0 <= k < |s.hist| && (s.hist[k].Parked? || s.hist[k].Dropped? || s.hist[k].Accepted?) && s.hist[k].wf == w
      ensures s.hist[k].node in g.nodes
    {
      var n := s.hist[k].node;
      TakenAt(s.hist, k, w);
      assert Balanced(s, w, n) && Accounted(s, w, n);
      SentInflow(g, s.hist, w, n);
    }
    AllTakenSum(s.hist, w, g.nodes);
    SumTakenPaths(s, w, g.nodes);
  }

  // ---- forests ----

  ghost predicate Forest(g: Graph) {
    forall n :: n in g.kind ==> InDegree(g.connections, n) <= 1
  }

  lemma {:induction false} InDegreeTarget(cs: seq<Connection>, n: NodeId)
    ensures InDegree(cs, n) > 0 <==> IsTarget(cs, n)
    decreases |cs|
  {
    if cs != [] {
      InDegreeTarget(cs[..|cs| - 1], n);
      assert cs == cs[..|cs| - 1] + [cs[|cs| - 1]];
    }
  }

  /** Neither `n` nor any node before it has two connections into it. */
  ghost predicate NoJoinUpTo(g: Graph, n: NodeId) {
    forall m :: m == n || Ancestor(g, m, n) ==> InDegree(g.connections, m) <= 1
  }

  lemma NoJoinBefore(g: Graph, a: NodeId, n: NodeId)
    requires NoJoinUpTo(g, n) && Edge(g, a, n)
    ensures NoJoinUpTo(g, a)
  {
    AppendPath(g, a, a, n);
    forall m | m == a || Ancestor(g, m, a) ensures InDegree(g.connections, m) <= 1 {
      AppendPath(g, m, a, n);
    }
  }

  lemma ForestNoJoin(g: Graph, n: NodeId)
    requires Forest(g) && SourcesKnown(g) && n in g.kind
    ensures NoJoinUpTo(g, n)
  {
    forall m | Ancestor(g, m, n) ensures InDegree(g.connections, m) <= 1 {
      var p :| IsPath(g, p) && |p| > 1 && p[0] == m && p[|p| - 1] == n;
      assert Edge(g, p[0], p[0 + 1]);
    }
  }

  lemma {:induction false} SinglePath(g: Graph, n: NodeId)
    requires Acyclic(g) && SourcesKnown(g) && NoJoinUpTo(g, n) && n in g.kind
    ensures PathsTo(g, n) == 1
    decreases Rank(g)[n], 1, 0
  {
    InDegreeTarget(g.connections, n);
    SinglePathOver(g, g.connections, n);
  }

  lemma {:induction false} SinglePathOver(g: Graph, cs: seq<Connection>, n: NodeId)
    requires Acyclic(g) && SourcesKnown(g) && NoJoinUpTo(g, n) && n in g.kind
    requires forall c :: c in cs ==> c in g.connections
    ensures PathsOver(g, cs, n) == InDegree(cs, n)
    decreases Rank(g)[n], 0, |cs|
  {
    if cs != [] {
      var c := cs[|cs| - 1];
      SinglePathOver(g, cs[..|cs| - 1], n);
      if c.target == n {
        assert Edge(g, c.source, n);
        NoJoinBefore(g, c.source, n);
        SinglePath(g, c.source);
      }
    }
  }

  /** A node with neither a join nor a call before it has at most one message or row in all. */
  lemma OnceAt(s: State, w: nat, n: NodeId)
    requires Reachable(s) && w < |s.wfs| && NeverResumed(s.hist, w)
    requires var g := s.wfs[w].graph;
      Acyclic(g) && SourcesKnown(g) && n in g.kind && NoJoinUpTo(g, n) && NoCallBefore(g, n)
    ensures CountQueued(s.queue, w, n) + CountRows(s.rows, w, n) <= 1
  {
    PathBound(s, w, n);
    SinglePath(s.wfs[w].graph, n);
  }

  /** Where no node has two connections into it and calls come last, every node has at most one message or row in all. */
  lemma ForestOnce(s: State, w: nat, n: NodeId)
    requires Reachable(s) && w < |s.wfs| && NeverResumed(s.hist, w)
    requires var g := s.wfs[w].graph; Acyclic(g) && SourcesKnown(g) && Forest(g) && CallsLast(g) && n in g.kind
    ensures CountQueued(s.queue, w, n) + CountRows(s.rows, w, n) <= 1
  {
    ForestNoJoin(s.wfs[w].graph, n);
    CallsLastBefore(s.wfs[w].graph, n);
    OnceAt(s, w, n);
  }

  /** Started and drained: no message left, and every row of the workflow succeeded. */
  ghost predicate Drained(s: State, w: nat)
    requires w < |s.wfs|
  {
    && !s.wfs[w].pending && NeverParked(s, w)
    && (forall n :: Message(w, n) !in s.queue)
    && (forall r :: 0 <= r < |s.rows| && s.rows[r].wf == w ==> s.rows[r].status == TSuccess)
  }

  lemma {:induction false} OneRow(rows: seq<Row>, w: nat, n: NodeId, i: nat)
    requires i < |rows| && IsAt(rows[i], w, n) && CountRows(rows, w, n) <= 1
    ensures Only(rows, w, n, i) && CountRows(rows, w, n) == 1
    decreases |rows|
  {
    var k := |rows| - 1;
    if i < k {
      OneRow(rows[..k], w, n, i);
      assert Only(rows[..k], w, n, i);
      assert forall j :: 0 <= j < k ==> rows[..k][j] == rows[j];
    } else {
      if j :| 0 <= j < k && IsAt(rows[j], w, n) {
        CountSome(rows[..k], w, n, j);
      }
    }
  }

  lemma {:induction false} CountSome(rows: seq<Row>, w: nat, n: NodeId, j: nat)
    requires j < |rows| && IsAt(rows[j], w, n)
    ensures CountRows(rows, w, n) >= 1
    decreases |rows|
  {
    if j < |rows| - 1 {
      CountSome(rows[..|rows| - 1], w, n, j);
    }
  }

  /** In a drained, condition-free workflow a node whose inputs each have one row, in SUCCESS, has succeeded. */
  lemma DrainedReaches(s: State, w: nat, n: NodeId) returns (i: nat)
    requires Reachable(s) && w < |s.wfs| && Drained(s, w)
    requires var g := s.wfs[w].graph; SourcesKnown(g) && Plain(g) && n in g.kind
    requires forall a :: Edge(s.wfs[w].graph, a, n) ==> Settled(s.rows, w, a)
    ensures i < |s.rows| && IsAt(s.rows[i], w, n) && s.rows[i].status == TSuccess
  {
    forall a | Edge(s.wfs[w].graph, a, n) ensures Feeds(s.rows, s.wfs[w].graph, w, a, n) {
      ReachableResult(s, w, a, n);
    }
    NoReadyNodeForgotten(s, w, n);
    i :| 0 <= i < |s.rows| && IsAt(s.rows[i], w, n);
  }

  /** A drained, condition-free workflow has run every node without a join or a call before it exactly once. */
  lemma {:induction false} CoverageAt(s: State, w: nat, n: NodeId)
    requires Reachable(s) && w < |s.wfs| && NeverResumed(s.hist, w) && Drained(s, w)
    requires var g := s.wfs[w].graph;
      Acyclic(g) && SourcesKnown(g) && Plain(g) && n in g.kind && NoJoinUpTo(g, n) && NoCallBefore(g, n)
    ensures CountRows(s.rows, w, n) == 1 && Settled(s.rows, w, n)
    decreases Rank(s.wfs[w].graph)[n]
  {
    var g := s.wfs[w].graph;
    forall a | Edge(g, a, n) ensures Settled(s.rows, w, a) {
      NoJoinBefore(g, a, n);
      NoCallAt(g, a, n);
      CoverageAt(s, w, a);
    }
    var i := DrainedReaches(s, w, n);
    OnceAt(s, w, n);
    OneRow(s.rows, w, n, i);
  }

  /** A drained, condition-free forest in which calls come last has run every node exactly once. */
  lemma ForestCoverage(s: State, w: nat, n: NodeId)
    requires Reachable(s) && w < |s.wfs| && NeverResumed(s.hist, w) && Drained(s, w)
    requires var g := s.wfs[w].graph; Acyclic(g) && SourcesKnown(g) && Forest(g) && CallsLast(g) && Plain(g) && n in g.kind
    ensures CountRows(s.rows, w, n) == 1 && Settled(s.rows, w, n)
  {
    ForestNoJoin(s.wfs[w].graph, n);
    CallsLastBefore(s.wfs[w].graph, n);
    CoverageAt(s, w, n);
  }

  lemma ReachableResult(s: State, w: nat, a: NodeId, n: NodeId)
    requires Reachable(s) && w < |s.wfs|
    requires var g := s.wfs[w].graph; SourcesKnown(g) && Plain(g) && Edge(g, a, n)
    requires Settled(s.rows, w, a)
    ensures Feeds(s.rows, s.wfs[w].graph, w, a, n)
  {
    var i :| Only(s.rows, w, a, i) && s.rows[i].status == TSuccess;
    ReachableInvariant(s);
    assert LeadsTo(s.wfs[w].graph, a, s.rows[i].result.value, n);
  }
}
