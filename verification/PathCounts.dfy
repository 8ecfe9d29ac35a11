/** The path count that bounds a node's messages is the number of connection sequences that lead to it. */
module PathCounts {
  import opened Graphs
  import opened Orders
  import opened Paths

  /** Positions of connections, each starting where the one before ends, from a start node to `n`. */
  ghost predicate IsRoute(g: Graph, r: seq<nat>, n: NodeId) {
    var cs := g.connections;
    && (forall i :: 0 <= i < |r| ==> r[i] < |cs|)
    && (forall i :: 0 <= i < |r| - 1 ==> cs[r[i]].target == cs[r[i + 1]].source)
    && if r == [] then !IsTarget(cs, n) else !IsTarget(cs, cs[r[0]].source) && cs[r[|r| - 1]].target == n
  }

  /** All such sequences. */
  ghost function Routes(g: Graph, n: NodeId): set<seq<nat>>
    requires Acyclic(g) && SourcesKnown(g) && n in g.kind
    decreases Rank(g)[n], 1, 0
  {
    (if IsTarget(g.connections, n) then {} else {[]}) + RoutesOver(g, |g.connections|, n)
  }

  /** Those whose last connection is among the first `k`. */
  ghost function RoutesOver(g: Graph, k: nat, n: NodeId): set<seq<nat>>
    requires Acyclic(g) && SourcesKnown(g) && n in g.kind && k <= |g.connections|
    decreases Rank(g)[n], 0, k
  {
    if k == 0 then {}
    else
      var c := g.connections[k - 1];
      RoutesOver(g, k - 1, n) +
      if c.target == n then
        assert Edge(g, c.source, n);
        Longer(Routes(g, c.source), k - 1)
      else {}
  }

  ghost function Longer(rs: set<seq<nat>>, x: nat): set<seq<nat>> {
    set r | r in rs :: r + [x]
  }

  lemma LongerHas(rs: set<seq<nat>>, x: nat, r: seq<nat>)
    ensures r in Longer(rs, x) <==> r != [] && r[|r| - 1] == x && r[..|r| - 1] in rs
  {
    if r != [] && r[|r| - 1] == x && r[..|r| - 1] in rs {
      assert r == r[..|r| - 1] + [x];
    }
    if r in Longer(rs, x) {
      var q :| q in rs && r == q + [x];
      assert r[..|r| - 1] == q;
    }
  }

  lemma {:induction false} LongerSize(rs: set<seq<nat>>, x: nat)
    ensures |Longer(rs, x)| == |rs|
    decreases |rs|
  {
    if rs == {} {
      assert Longer(rs, x) == {};
    } else {
      var q :| q in rs;
      var rest := rs - {q};
      LongerSize(rest, x);
      LongerHas(rest, x, q + [x]);
      assert (q + [x])[..|q|] == q;
      assert Longer(rs, x) == Longer(rest, x) + {q + [x]};
    }
  }

  lemma {:induction false} RoutesOverLast(g: Graph, k: nat, n: NodeId, r: seq<nat>)
    requires Acyclic(g) && SourcesKnown(g) && n in g.kind && k <= |g.connections| && r in RoutesOver(g, k, n)
    ensures r != [] && r[|r| - 1] < k
    decreases k
  {
    var c := g.connections[k - 1];
    if r in RoutesOver(g, k - 1, n) {
      RoutesOverLast(g, k - 1, n, r);
    } else {
      assert Edge(g, c.source, n);
      LongerHas(Routes(g, c.source), k - 1, r);
    }
  }

  /** The count equals the number of sequences. */
  lemma {:induction false} RoutesCounted(g: Graph, n: NodeId)
    requires Acyclic(g) && SourcesKnown(g) && n in g.kind
    ensures |Routes(g, n)| == PathsTo(g, n)
    decreases Rank(g)[n], 1, 0
  {
    var cs := g.connections;
    RoutesOverCounted(g, |cs|, n);
    assert cs[..|cs|] == cs;
    if [] in RoutesOver(g, |cs|, n) {
      RoutesOverLast(g, |cs|, n, []);
    }
  }

  lemma {:induction false} RoutesOverCounted(g: Graph, k: nat, n: NodeId)
    requires Acyclic(g) && SourcesKnown(g) && n in g.kind && k <= |g.connections|
    ensures |RoutesOver(g, k, n)| == PathsOver(g, g.connections[..k], n)
    decreases Rank(g)[n], 0, k
  {
    if k > 0 {
      var c := g.connections[k - 1];
      RoutesOverCounted(g, k - 1, n);
      assert g.connections[..k][..k - 1] == g.connections[..k - 1];
      if c.target == n {
        assert Edge(g, c.source, n);
        RoutesCounted(g, c.source);
        var more := Longer(Routes(g, c.source), k - 1);
        LongerSize(Routes(g, c.source), k - 1);
        forall r | r in RoutesOver(g, k - 1, n) ensures r !in more {
          RoutesOverLast(g, k - 1, n, r);
          LongerHas(Routes(g, c.source), k - 1, r);
        }
        assert RoutesOver(g, k - 1, n) !! more;
      }
    }
  }

  lemma RouteCut(g: Graph, r: seq<nat>, n: NodeId)
    requires r != []
    ensures IsRoute(g, r, n) <==>
      var x := r[|r| - 1]; x < |g.connections| && g.connections[x].target == n && IsRoute(g, r[..|r| - 1], g.connections[x].source)
  {
    var q := r[..|r| - 1];
    assert forall i :: 0 <= i < |q| ==> q[i] == r[i];
    if q != [] {
      assert q[|q| - 1] == r[|r| - 2];
      if IsRoute(g, r, n) {
        assert g.connections[r[|r| - 2]].target == g.connections[r[|r| - 2 + 1]].source;
      }
    }
  }

  /** The sequences are exactly the routes. */
  lemma {:induction false} RoutesExact(g: Graph, n: NodeId, r: seq<nat>)
    requires Acyclic(g) && SourcesKnown(g) && n in g.kind
    ensures r in Routes(g, n) <==> IsRoute(g, r, n)
    decreases |r|, |g.connections| + 1
  {
    var cs := g.connections;
    if r == [] {
      if [] in RoutesOver(g, |cs|, n) {
        RoutesOverLast(g, |cs|, n, []);
      }
    } else {
      RoutesOverExact(g, |cs|, n, r);
      RouteCut(g, r, n);
    }
  }

  lemma {:induction false} RoutesOverExact(g: Graph, k: nat, n: NodeId, r: seq<nat>)
    requires Acyclic(g) && SourcesKnown(g) && n in g.kind && k <= |g.connections| && r != []
    ensures r in RoutesOver(g, k, n) <==>
      var x := r[|r| - 1]; x < k && g.connections[x].target == n && IsRoute(g, r[..|r| - 1], g.connections[x].source)
    decreases |r|, k
  {
    if k > 0 {
      var c := g.connections[k - 1];
      RoutesOverExact(g, k - 1, n, r);
      if c.target == n {
        assert Edge(g, c.source, n);
        LongerHas(Routes(g, c.source), k - 1, r);
        RoutesExact(g, c.source, r[..|r| - 1]);
      }
    }
  }
}
