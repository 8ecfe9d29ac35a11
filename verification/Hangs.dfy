/** What a node that ran twice does to the rest of its workflow, in every continuation. */
module Hangs {
  import opened Wrappers
  import opened Graphs
  import opened Orders
  import opened Tables
  import opened Protocol
  import opened Moves
  import opened Safety
  import opened Bounds
  import opened Runs
  import opened Paths
  import opened Schedules
  import opened Repeats

  lemma {:induction false} CountGrows(rows: seq<Row>, more: seq<Row>, w: nat, n: NodeId)
    requires |rows| <= |more|
    requires forall r :: 0 <= r < |rows| ==> IsAt(more[r], rows[r].wf, rows[r].node)
    ensures CountRows(rows, w, n) <= CountRows(more, w, n)
    ensures |rows| == |more| ==> CountRows(rows, w, n) == CountRows(more, w, n)
    decreases |more|
  {
    if more != [] {
      var k := |more| - 1;
      if |rows| == |more| {
        CountGrows(rows[..k], more[..k], w, n);
      } else {
        CountGrows(rows, more[..k], w, n);
      }
    }
  }

  /** Only delivering a message whose inputs are ready makes a row. */
  lemma RowMaker(s: State, m: Move)
    requires Can(s, m)
    ensures |Made(s, m).rows| == |s.rows|
      || exists w, n :: 0 <= w < |s.wfs| && Ready(s.rows, s.wfs[w].graph, w, n) && Made(s, m).rows == s.rows + [NewRow(w, n)]
  {
    hide Grows, Route, Existing, Ready, Busy, Hit, StartSends;
    if m.Do? && m.event.Deliver? && |Made(s, m).rows| != |s.rows| {
      var w, n := s.queue[m.event.message].wf, s.queue[m.event.message].node;
      assert Ready(s.rows, s.wfs[w].graph, w, n) && Made(s, m).rows == s.rows + [NewRow(w, n)];
    }
  }

  lemma DoubledNotReady(rows: seq<Row>, g: Graph, w: nat, a: NodeId, b: NodeId)
    requires CountRows(rows, w, a) >= 2 && Edge(g, a, b)
    ensures !Ready(rows, g, w, b)
  {
    var c :| c in g.connections && c.source == a && c.target == b;
    if Get(rows, w, a).Some? {
      OnlyCounted(rows, w, a, Get(rows, w, a).value);
    }
  }

  lemma MoveBlocks(s: State, m: Move, w: nat, a: NodeId, b: NodeId)
    requires Can(s, m) && w < |s.wfs| && CountRows(s.rows, w, a) >= 2 && Edge(s.wfs[w].graph, a, b)
    ensures CountRows(Made(s, m).rows, w, a) >= 2
    ensures CountRows(Made(s, m).rows, w, b) == CountRows(s.rows, w, b)
  {
    hide Made, Can, Ready, CountRows, Edge;
    var t := Made(s, m);
    RowMaker(s, m);
    CountGrows(s.rows, t.rows, w, a);
    CountGrows(s.rows, t.rows, w, b);
    if |t.rows| != |s.rows| {
      var x, n :| 0 <= x < |s.wfs| && Ready(s.rows, s.wfs[x].graph, x, n) && t.rows == s.rows + [NewRow(x, n)];
      DoubledNotReady(s.rows, s.wfs[w].graph, w, a, b);
      AddedRow(s.rows, NewRow(x, n), w, b);
    }
  }

  lemma {:induction false} ChainBlocks(s: State, ms: seq<Move>, t: State, w: nat, a: NodeId, b: NodeId)
    requires Chain(s, ms, t) && w < |s.wfs| && CountRows(s.rows, w, a) >= 2 && Edge(s.wfs[w].graph, a, b)
    ensures w < |t.wfs| && CountRows(t.rows, w, b) == CountRows(s.rows, w, b)
    decreases |ms|
  {
    hide Made, Can, CountRows, Edge;
    if ms != [] {
      MoveBlocks(s, ms[0], w, a, b);
      ChainBlocks(Made(s, ms[0]), ms[1..], t, w, a, b);
    }
  }

  /** Once a node has two rows, no event whatsoever makes another row for a node it feeds. */
  lemma DoubledBlocks(s: State, es: seq<Event>, t: State, w: nat, a: NodeId, b: NodeId)
    requires Leads(s, es, t) && w < |s.wfs| && CountRows(s.rows, w, a) >= 2 && Edge(s.wfs[w].graph, a, b)
    ensures w < |t.wfs| && CountRows(t.rows, w, b) == CountRows(s.rows, w, b)
  {
    var ms := RunMoves(s, es, t);
    ChainBlocks(s, ms, t, w, a, b);
  }

  ghost predicate NeverCloses(s: State, w: nat) {
    forall es, t :: Leads(s, es, t) ==> w < |t.wfs| && t.wfs[w].status != WSuccess
  }

  /**
   * In a single-sink graph whose join `n` feeds a further node, some run without failure, pause,
   * nesting or cancel reaches a state from which the workflow can never succeed.
   */
  lemma JoinHangs(g: Graph, n: NodeId, b: NodeId) returns (s: State)
    requires Regular(g) && OneSink(g)
    requires n in g.kind && InDegree(g.connections, n) >= 2 && Edge(g, n, b)
    ensures Doubled(s, g, n) && NeverCloses(s, 0)
  {
    s := RepeatHangs(g, n, b);
  }

  /** The same without any join, where `n` follows a call: the calling row completes twice, `n` runs twice, `b` never. */
  lemma CallHangs(g: Graph, c: NodeId, n: NodeId, b: NodeId) returns (s: State)
    requires Regular(g) && OneSink(g)
    requires IsCall(g, c) && Edge(g, c, n) && Edge(g, n, b)
    ensures Doubled(s, g, n) && NeverCloses(s, 0)
    ensures Missing(s.rows, 0, b) && forall es, t :: Leads(s, es, t) ==> Missing(t.rows, 0, b)
  {
    s := RepeatHangs(g, n, b);
    NotBefore(g, n, b);
    NoneCounted(s.rows, 0, b);
    hide Leads, Regular, OneSink, Missing;
    forall es, t | Leads(s, es, t) ensures Missing(t.rows, 0, b) {
      DoubledBlocks(s, es, t, 0, n, b);
      CountedNone(t.rows, 0, b);
    }
  }

  lemma {:induction false} CountedNone(rows: seq<Row>, w: nat, n: NodeId)
    requires CountRows(rows, w, n) == 0
    ensures Missing(rows, w, n)
    decreases |rows|
  {
    if rows != [] {
      CountedNone(rows[..|rows| - 1], w, n);
      assert rows == rows[..|rows| - 1] + [rows[|rows| - 1]];
    }
  }

  /** Both at once: a node that can run twice and feeds another can hang its single-sink workflow. */
  lemma RepeatHangs(g: Graph, n: NodeId, b: NodeId) returns (s: State)
    requires Regular(g) && OneSink(g) && Repeatable(g, n) && Edge(g, n, b)
    ensures Doubled(s, g, n) && NeverCloses(s, 0)
  {
    s := RepeatedRunsTwice(g, n);
    NotBefore(g, n, b);
    hide Leads, Regular, Doubled, OneSink;
    forall es, t | Leads(s, es, t) ensures 0 < |t.wfs| && t.wfs[0].status != WSuccess {
      HungThere(s, g, n, b, es, t);
    }
  }

  lemma NotBefore(g: Graph, n: NodeId, b: NodeId)
    requires Acyclic(g) && Edge(g, n, b)
    ensures b != n && !Ancestor(g, b, n)
  {
    if b == n || Ancestor(g, b, n) {
      ExtendPath(g, n, b, n);
      assert false;
    }
  }

  lemma HungThere(s: State, g: Graph, n: NodeId, b: NodeId, es: seq<Event>, t: State)
    requires Regular(g) && OneSink(g) && Doubled(s, g, n) && Edge(g, n, b) && b != n && !Ancestor(g, b, n)
    requires Leads(s, es, t)
    ensures 0 < |t.wfs| && t.wfs[0].status != WSuccess
  {
    SmoothlyReachable(s);
    NoneCounted(s.rows, 0, b);
    DoubledBlocks(s, es, t, 0, n, b);
    var before :| Leads(Empty, before, s);
    Joined(Empty, before, s, es, t);
    assert Reachable(t);
    SameGraph(s, es, t);
    if t.wfs[0].status == WSuccess {
      SingleSinkCompleteness(t, 0, b);
      ReachableInvariant(t);
      SucceededCounted(t, 0, b);
    }
  }

  lemma SameGraph(s: State, es: seq<Event>, t: State)
    requires Leads(s, es, t)
    ensures Grows(s, t)
  {
    var ms := RunMoves(s, es, t);
    ChainGrows(s, ms, t);
  }

  lemma SucceededCounted(s: State, w: nat, n: NodeId)
    requires Invariant(s) && w < |s.wfs| && HasSucceeded(s, w, n)
    ensures CountRows(s.rows, w, n) >= 1
  {
    hide Typed, Fresh, Closing, Invariant;
    var k :| 0 <= k < |s.hist| && s.hist[k].Succeeded? && s.hist[k].wf == w && s.hist[k].node == n;
    assert InOrder(s, k) && Accounted(s, w, n) by { Pieces(s, w, n, k); }
    var j :| 0 <= j < k && s.hist[j] == Accepted(w, n);
    AcceptedCounted(s.hist, j, w, n);
  }

  lemma Pieces(s: State, w: nat, n: NodeId, k: nat)
    requires Invariant(s) && w < |s.wfs| && k < |s.hist|
    ensures InOrder(s, k) && Accounted(s, w, n)
  {
  }

  lemma {:induction false} AcceptedCounted(h: seq<Entry>, j: nat, w: nat, n: NodeId)
    requires j < |h| && h[j] == Accepted(w, n)
    ensures Acceptances(h, w, n) >= 1
    decreases |h|
  {
    if j < |h| - 1 {
      AcceptedCounted(h[..|h| - 1], j, w, n);
    }
  }
}
