/** Exactly how many messages a node has been sent, written over the connections of the template. */
module Dispatches {
  import opened Wrappers
  import opened Graphs
  import opened Tables
  import opened Protocol
  import opened WakeUps
  import opened Conservation
  import opened Bounds
  import opened Runs
  import opened Paths

  /** The connections that leave nodes other than conditions. */
  function PlainPart(g: Graph, cs: seq<Connection>): seq<Connection> {
    if cs == [] then []
    else
      var c := cs[|cs| - 1];
      PlainPart(g, cs[..|cs| - 1]) + if c.source in g.kind && g.kind[c.source].Condition? then [] else [c]
  }

  /** Recorded successes of condition nodes that chose `n`. */
  function Routed(g: Graph, h: seq<Entry>, w: nat, n: NodeId): nat {
    if h == [] then 0
    else Routed(g, h[..|h| - 1], w, n) + if Chooses(g, h[|h| - 1], w, n) then 1 else 0
  }

  predicate Chooses(g: Graph, e: Entry, w: nat, n: NodeId) {
    && e.Succeeded? && e.wf == w && e.value.Verdict? && n != ""
    && e.node in g.kind && g.kind[e.node].Condition?
    && Chosen(g.connections, e.node, OutputFor(e.value.truth)) == Some(n)
  }

  lemma {:induction false} PlainPartCount(g: Graph, cs: seq<Connection>, a: NodeId, n: NodeId)
    ensures EdgeCount(PlainPart(g, cs), a, n) ==
      if a in g.kind && g.kind[a].Condition? then 0 else EdgeCount(cs, a, n)
    decreases |cs|
  {
    if cs != [] {
      var k := |cs| - 1;
      PlainPartCount(g, cs[..k], a, n);
      var before := PlainPart(g, cs[..k]);
      assert before + [] == before && (before + [cs[k]])[..|before|] == before;
    }
  }

  /** What one recorded happening adds to the count. */
  lemma OneDispatch(g: Graph, e: Entry, w: nat, n: NodeId)
    requires Keyed(g) && SourcesKnown(g) && n in g.kind && !(e.Resumed? && e.wf == w)
    ensures SentBy(g, e, w, n) ==
      (if e == Started(w) then Share(g, n) else 0)
      + (if e.Succeeded? && e.wf == w then EdgeCount(PlainPart(g, g.connections), e.node, n) else 0)
      + (if Chooses(g, e, w, n) then 1 else 0)
  {
    hide StartSends, Occurs, EdgeCount, PlainPart;
    if e.Started? {
      StartSendsOnce(g, n);
    } else if e.Succeeded? && e.wf == w {
      PlainPartCount(g, g.connections, e.node, n);
      SuccessSends(g, w, e.node, e.value, n);
      if e.node !in g.kind {
        EdgeCounted(g.connections, e.node, n);
      } else if g.kind[e.node].Condition? {
        ConditionSends(g, e, w, n);
      }
    }
  }

  lemma ConditionSends(g: Graph, e: Entry, w: nat, n: NodeId)
    requires SourcesKnown(g) && n in g.kind && e.Succeeded? && e.wf == w
    requires e.node in g.kind && g.kind[e.node].Condition?
    ensures SentBy(g, e, w, n) == if Chooses(g, e, w, n) then 1 else 0
  {
    hide Chosen;
    var next := Route(g, e.node, e.value);
    if next.Some? {
      ExistingOccur(g, next.value, n);
      if next.value != [] {
        assert next.value[..0] == [];
      }
    }
  }

  /**
   * Without a resume, the messages ever sent to a node are one if it is a start node of a started
   * workflow, one per success and connection from every plain predecessor, and one per success of a
   * condition that chose it; and those are the messages queued plus the messages taken.
   */
  lemma DispatchExactly(s: State, w: nat, n: NodeId)
    requires Reachable(s) && w < |s.wfs| && NeverResumed(s.hist, w)
    requires SourcesKnown(s.wfs[w].graph) && n in s.wfs[w].graph.kind
    ensures var g := s.wfs[w].graph;
      CountQueued(s.queue, w, n) + Taken(s.hist, w, n) ==
        Starts(s.hist, w) * Share(g, n) + Inflow(PlainPart(g, g.connections), s.hist, w, n) + Routed(g, s.hist, w, n)
    ensures Starts(s.hist, w) <= 1 && CountRows(s.rows, w, n) <= Taken(s.hist, w, n)
  {
    ReachableInvariant(s);
    DispatchConservation(s, w, n);
    assert Accounted(s, w, n);
    SentExactly(s.wfs[w].graph, s.hist, w, n);
  }

  lemma {:induction false} SentExactly(g: Graph, h: seq<Entry>, w: nat, n: NodeId)
    requires Keyed(g) && SourcesKnown(g) && n in g.kind && NeverResumed(h, w)
    ensures Sent(g, h, w, n) ==
      Starts(h, w) * Share(g, n) + Inflow(PlainPart(g, g.connections), h, w, n) + Routed(g, h, w, n)
    decreases |h|
  {
    hide SentBy, Inflow, Chooses, EdgeCount;
    if h == [] {
      NoInflow(PlainPart(g, g.connections), w, n);
    } else {
      var k := |h| - 1;
      assert h == h[..k] + [h[k]];
      Counted(h[..k], h[k], w, n);
      InflowLogged(PlainPart(g, g.connections), h[..k], h[k], w, n);
      SentExactly(g, h[..k], w, n);
      OneDispatch(g, h[k], w, n);
      MoreStarts(Starts(h[..k], w), Share(g, n), h[k] == Started(w));
    }
  }

  lemma MoreStarts(x: nat, y: nat, more: bool)
    ensures (x + if more then 1 else 0) * y == x * y + if more then y else 0
  {
  }

  lemma {:induction false} NoInflow(cs: seq<Connection>, w: nat, n: NodeId)
    ensures Inflow(cs, [], w, n) == 0
    decreases |cs|
  {
    if cs != [] {
      NoInflow(cs[..|cs| - 1], w, n);
    }
  }
}
