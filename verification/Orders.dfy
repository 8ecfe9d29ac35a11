/** Acyclic graphs have a topological ranking; paths compose; reachability to a sink. */
module Orders {
  import opened Graphs

  /** `rank` strictly increases along every connection between ranked nodes. */
  ghost predicate Ranks(g: Graph, rank: map<NodeId, nat>) {
    forall a, b :: a in rank && b in rank && Edge(g, a, b) ==> rank[a] < rank[b]
  }

  lemma CycleAt(g: Graph, p: seq<NodeId>, x: NodeId)
    requires IsPath(g, p) && x in p && Edge(g, p[|p| - 1], x)
    ensures Ancestor(g, x, x)
  {
    var i :| 0 <= i < |p| && p[i] == x;
    var q := p + [x];
    var c := q[i..];
    assert forall k :: 0 <= k < |c| ==> c[k] == q[i + k];
    assert IsPath(g, q);
    assert IsPath(g, c) && c[0] == x && c[|c| - 1] == x;
  }

  /** Following connections inside a finite set without a cycle ends at a node with none left to follow. */
  lemma LastOf(g: Graph, t: set<NodeId>, p: seq<NodeId>) returns (m: NodeId)
    requires Acyclic(g) && IsPath(g, p)
    requires forall x :: x in p ==> x in t
    ensures m in t && forall x :: x in t ==> !Edge(g, m, x)
    decreases t - set x | x in p
  {
    m := p[|p| - 1];
    if x :| x in t && Edge(g, m, x) {
      if x in p {
        CycleAt(g, p, x);
        assert false;
      } else {
        var q := p + [x];
        assert q[|q| - 1] == x;
        assert forall y :: y in p ==> y in q;
        assert (t - set y | y in q) < (t - set y | y in p) by {
          assert x in (t - set y | y in p) && x !in (t - set y | y in q);
        }
        m := LastOf(g, t, q);
      }
    }
  }

  lemma {:induction false} RankingOf(g: Graph, t: set<NodeId>) returns (rank: map<NodeId, nat>)
    requires Acyclic(g)
    ensures rank.Keys == t && Ranks(g, rank)
    ensures forall n :: n in rank ==> rank[n] < |t|
  {
    if t == {} {
      rank := map[];
    } else {
      var start :| start in t;
      var m := LastOf(g, t, [start]);
      var before := RankingOf(g, t - {m});
      rank := before[m := |t| - 1];
    }
  }

  lemma ExtendPath(g: Graph, a: NodeId, b: NodeId, n: NodeId)
    requires Edge(g, a, b) && (b == n || Ancestor(g, b, n))
    ensures Ancestor(g, a, n)
  {
    var p := if b == n then [b] else
      var q :| IsPath(g, q) && |q| > 1 && q[0] == b && q[|q| - 1] == n; q;
    var r := [a] + p;
    assert forall i :: 0 <= i < |r| - 1 ==> Edge(g, r[i], r[i + 1]) by {
      forall i | 0 <= i < |r| - 1 ensures Edge(g, r[i], r[i + 1]) {
        if i > 0 {
          assert r[i] == p[i - 1] && r[i + 1] == p[i];
        }
      }
    }
    assert IsPath(g, r) && r[0] == a && r[|r| - 1] == n;
  }

  lemma AppendPath(g: Graph, a: NodeId, b: NodeId, n: NodeId)
    requires Edge(g, b, n) && (a == b || Ancestor(g, a, b))
    ensures Ancestor(g, a, n)
  {
    var p := if a == b then [b] else
      var q :| IsPath(g, q) && |q| > 1 && q[0] == a && q[|q| - 1] == b; q;
    var r := p + [n];
    forall i | 0 <= i < |r| - 1 ensures Edge(g, r[i], r[i + 1]) {
      if i < |p| - 1 {
        assert Edge(g, p[i], p[i + 1]);
      }
    }
    assert IsPath(g, r) && r[0] == a && r[|r| - 1] == n;
  }

  lemma AncestorHasEdge(g: Graph, a: NodeId, n: NodeId)
    requires Ancestor(g, a, n)
    ensures !Sink(g, a)
  {
    var p :| IsPath(g, p) && |p| > 1 && p[0] == a && p[|p| - 1] == n;
    assert Edge(g, p[0], p[0 + 1]);
  }

  /** In an acyclic graph whose targets are nodes, every node is the only sink or leads to a sink. */
  lemma {:induction false} ReachesSink(g: Graph, rank: map<NodeId, nat>, n: NodeId) returns (z: NodeId)
    requires TargetsKnown(g) && n in g.kind
    requires rank.Keys == g.kind.Keys && Ranks(g, rank)
    requires forall m :: m in rank ==> rank[m] < |g.kind|
    ensures Sink(g, z) && (z == n || Ancestor(g, n, z))
    decreases |g.kind| - rank[n]
  {
    if Sink(g, n) {
      z := n;
    } else {
      var c :| c in g.connections && c.source == n;
      assert Edge(g, n, c.target);
      z := ReachesSink(g, rank, c.target);
      ExtendPath(g, n, c.target, z);
    }
  }
}
