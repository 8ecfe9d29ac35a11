/** What single handlers do, in the fields of the tables themselves. */
module Effects {
  import opened Wrappers
  import opened Graphs
  import opened Tables
  import opened Protocol
  import opened Nesting

  // ---- conditions ----

  /** The workflow of row `r` closed at the row's node. */
  ghost predicate ClosedBy(s: State, t: State, r: nat)
    requires r < |s.rows|
  {
    var w := s.rows[r].wf;
    w < |s.wfs| && t.wfs == s.wfs[w := s.wfs[w].(status := WSuccess, finished := true, current := s.rows[r].node)]
  }

  lemma FirstTarget(cs: seq<Connection>, i: nat, n: NodeId, output: string)
    requires FirstOut(cs, i, n, output)
    ensures Chosen(cs, n, output) == Some(cs[i].target)
  {
    assert LeavesBy(cs, i, n, output);
    var t := Chosen(cs, n, output);
    var k :| 0 <= k < |cs| && cs[k].source == n && cs[k].output == output && cs[k].target == t.value
      && forall j :: 0 <= j < k ==> !(cs[j].source == n && cs[j].output == output);
    if k < i {
      assert LeavesBy(cs, k, n, output);
    }
  }

  lemma SomeTarget(cs: seq<Connection>, n: NodeId, output: string)
    requires Chosen(cs, n, output).Some?
    ensures exists i :: LeavesBy(cs, i, n, output)
  {
    var k :| 0 <= k < |cs| && cs[k].source == n && cs[k].output == output;
    assert LeavesBy(cs, k, n, output);
  }

  lemma {:induction false} FirstExists(cs: seq<Connection>, i: nat, n: NodeId, output: string) returns (k: nat)
    requires LeavesBy(cs, i, n, output)
    ensures FirstOut(cs, k, n, output)
    decreases i
  {
    if j: nat :| j < i && LeavesBy(cs, j, n, output) {
      k := FirstExists(cs, j, n, output);
    } else {
      k := i;
    }
  }

  lemma OnlyFirst(cs: seq<Connection>, i: nat, k: nat, n: NodeId, output: string)
    requires FirstOut(cs, i, n, output) && FirstOut(cs, k, n, output)
    ensures i == k
  {
  }

  /** The next nodes of a condition that returned `truth`. */
  lemma VerdictRoute(g: Graph, n: NodeId, truth: bool)
    requires SourcesKnown(g) && n in g.kind && g.kind[n].Condition?
    ensures var output := if truth then "out_true" else "out_false";
      && (forall i :: FirstOut(g.connections, i, n, output) ==>
           Route(g, n, Verdict(truth)) == Some(if g.connections[i].target == "" then [] else [g.connections[i].target]))
      && ((forall i :: !LeavesBy(g.connections, i, n, output)) ==> Route(g, n, Verdict(truth)) == Some([]))
  {
    var output := if truth then "out_true" else "out_false";
    forall i | FirstOut(g.connections, i, n, output)
      ensures Route(g, n, Verdict(truth)) == Some(if g.connections[i].target == "" then [] else [g.connections[i].target])
    {
      FirstTarget(g.connections, i, n, output);
    }
    if forall i :: !LeavesBy(g.connections, i, n, output) {
      if Chosen(g.connections, n, output).Some? {
        SomeTarget(g.connections, n, output);
      }
    }
  }

  /** Connection `i` is the one a condition row `r` follows when it returns `truth`. */
  ghost predicate Follows(s: State, r: nat, truth: bool, i: int)
    requires r < |s.rows| && s.rows[r].wf < |s.wfs|
  {
    FirstOut(s.wfs[s.rows[r].wf].graph.connections, i, s.rows[r].node, if truth then "out_true" else "out_false")
  }

  /**
   * A condition that returned true sends one message, to the target of its first connection with
   * output "out_true", and one that returned false by "out_false": exactly when there is such a
   * connection to a node that exists. It closes its workflow exactly when there is no such connection
   * or its target is the empty id.
   */
  lemma VerdictFollowed(s: State, r: nat, truth: bool)
    requires Sound(s) && r < |s.rows|
    requires var g := s.wfs[s.rows[r].wf].graph;
      SourcesKnown(g) && s.rows[r].node in g.kind && g.kind[s.rows[r].node].Condition?
    ensures var t, w := Frame(s, r, Verdict(truth)), s.rows[r].wf;
      var g := s.wfs[w].graph;
      && (forall m :: t.queue == s.queue + [Message(w, m)] <==>
           m != "" && m in g.kind && exists i :: Follows(s, r, truth, i) && g.connections[i].target == m)
      && (t.queue == s.queue <==>
           forall i :: Follows(s, r, truth, i) ==> g.connections[i].target == "" || g.connections[i].target !in g.kind)
      && (if forall i :: Follows(s, r, truth, i) ==> g.connections[i].target == "" then ClosedBy(s, t, r) else t.wfs == s.wfs)
  {
    var w, n := s.rows[r].wf, s.rows[r].node;
    var g := s.wfs[w].graph;
    var output := if truth then "out_true" else "out_false";
    VerdictRoute(g, n, truth);
    FrameEffect(s, r, Verdict(truth));
    var t := Frame(s, r, Verdict(truth));
    FrameCloses(s, r, Verdict(truth));
    hide Frame, Route, OnlyCompleted, OnlyClosed;
    if i: nat :| LeavesBy(g.connections, i, n, output) {
      var k := FirstExists(g.connections, i, n, output);
      FollowedOnce(s, r, truth, k, t);
    } else {
      assert forall i :: !Follows(s, r, truth, i);
      NothingExists(g);
      NotLonger(s, t, w);
    }
  }

  lemma NothingExists(g: Graph)
    ensures Existing(g, []) == []
  {
  }

  lemma NotLonger(s: State, t: State, w: nat)
    requires t.queue == s.queue + Send(w, [])
    ensures t.queue == s.queue && forall m :: t.queue != s.queue + [Message(w, m)]
  {
    assert forall m :: |s.queue + [Message(w, m)]| == |s.queue| + 1;
  }

  lemma FrameCloses(s: State, r: nat, v: Value)
    requires Sound(s) && r < |s.rows|
    ensures if Route(s.wfs[s.rows[r].wf].graph, s.rows[r].node, v) == Some([]) then ClosedBy(s, Frame(s, r, v), r) else Frame(s, r, v).wfs == s.wfs
  {
    hide Route, Existing, Grows;
  }

  lemma FollowedOnce(s: State, r: nat, truth: bool, k: nat, t: State)
    requires r < |s.rows| && s.rows[r].wf < |s.wfs| && Follows(s, r, truth, k)
    requires var w := s.rows[r].wf; var g := s.wfs[w].graph; var m := g.connections[k].target;
      && t.queue == s.queue + Send(w, Existing(g, if m == "" then [] else [m]))
      && if m == "" then ClosedBy(s, t, r) else t.wfs == s.wfs
    ensures var w := s.rows[r].wf; var g := s.wfs[w].graph;
      && (forall m :: t.queue == s.queue + [Message(w, m)] <==>
           m != "" && m in g.kind && exists i :: Follows(s, r, truth, i) && g.connections[i].target == m)
      && (t.queue == s.queue <==>
           forall i :: Follows(s, r, truth, i) ==> g.connections[i].target == "" || g.connections[i].target !in g.kind)
      && (if forall i :: Follows(s, r, truth, i) ==> g.connections[i].target == "" then ClosedBy(s, t, r) else t.wfs == s.wfs)
  {
    var w := s.rows[r].wf;
    var g := s.wfs[w].graph;
    var m := g.connections[k].target;
    forall i | Follows(s, r, truth, i) ensures i == k {
      OnlyFirst(g.connections, i, k, s.rows[r].node, if truth then "out_true" else "out_false");
    }
    OneExists(g, m);
    forall x ensures t.queue == s.queue + [Message(w, x)] <==> m != "" && m in g.kind && x == m {
      if t.queue == s.queue + [Message(w, x)] {
        assert t.queue[|s.queue|] == Message(w, x);
      }
    }
    hide Existing, FirstOut, ClosedBy;
  }

  lemma OneExists(g: Graph, m: NodeId)
    ensures Existing(g, []) == []
    ensures Existing(g, [m]) == if m in g.kind then [m] else []
  {
    assert [m][..0] == [];
  }

  /** A condition that returned anything but a verdict raises; its row is in SUCCESS and nothing is sent. */
  lemma NoVerdictRaises(s: State, r: nat, v: Value)
    requires Sound(s) && r < |s.rows| && !v.Verdict?
    requires var g := s.wfs[s.rows[r].wf].graph; s.rows[r].node in g.kind && g.kind[s.rows[r].node].Condition?
    ensures var o := HandleTaskSuccess(s, r, v);
      o.raised && o.state.queue == s.queue && o.state.wfs == s.wfs && o.state.rows[r].status == TSuccess
  {
    hide Grows, Existing;
  }

  // ---- results ----

  /**
   * The result kept is the returned value, or the notice for a falsy one: on the returned row, and
   * on every row its success climbs to, unless the return ends in ERROR.
   */
  lemma ResultCarried(s: State, r: nat, v: Value) returns (k: seq<nat>, n: nat)
    requires Sound(s) && r < |s.rows| && s.rows[r].status != TNested
    ensures 1 <= n <= |k| && k[0] == r && forall i :: 0 <= i < |k| ==> k[i] < |s.rows|
    ensures var t := OnSuccess(s, r, v);
      |t.rows| == |s.rows| && (t.rows[r].status != TError ==>
        forall i :: 0 <= i < n ==>
          && t.rows[k[i]].status == TSuccess && t.rows[k[i]].finished
          && (v == Value.Nothing ==> t.rows[k[i]].result == Some(Value.Notice))
          && (v != Value.Nothing ==> t.rows[k[i]].result == Some(v)))
  {
    hide OnSuccess, Raises, AllLast, StopsAt, Above, Grows, OnlyErred, OnlyClosed, OnlyCompleted, Propagated, Route, ParentRow, Lineage, Sound, Stop;
    var d: seq<nat>;
    d, k, n := ReturnOutcome(s, r, v);
    var b, t := Stop(s, r), OnSuccess(s, r, v);
    StoppedKeeps(s, r, d, k);
    ReturnKeepsRows(s, r, v);
    if !Raises(b, d[..n], k[..n], v) {
      ClimbCompleted(b, t, d[..n], k[..n], v);
      forall i | 0 <= i < n ensures t.rows[k[i]] == Completed(b.rows[k[i]], v) {
        assert k[..n][i] == k[i];
      }
    }
  }

  lemma StoppedKeeps(s: State, r: nat, d: seq<nat>, k: seq<nat>)
    requires r < |s.rows| && Lineage(Stop(s, r), d, k)
    ensures |k| == |d| && |Stop(s, r).rows| == |s.rows| && forall i :: 0 <= i < |k| ==> k[i] < |s.rows|
  {
    hide Above, Grows;
  }

  lemma ReturnKeepsRows(s: State, r: nat, v: Value)
    requires Sound(s) && r < |s.rows|
    ensures |OnSuccess(s, r, v).rows| == |s.rows|
  {
    hide HandleTaskSuccess, OnFailure;
  }

  lemma ClimbCompleted(b: State, t: State, c: seq<nat>, q: seq<nat>, v: Value)
    requires Lineage(b, c, q) && Propagated(b, Outcome(t, false), c, q, v)
    ensures |t.rows| == |b.rows| && forall i :: 0 <= i < |q| ==> t.rows[q[i]] == Completed(b.rows[q[i]], v)
  {
    hide Route, Above, OnlyClosed, Raises, Completed;
    forall i | 0 <= i < |q| ensures t.rows[q[i]] == Completed(b.rows[q[i]], v) {
      assert q[i] in q;
    }
  }

  /** A row waiting for its child is only let go of when its worker returns. */
  lemma NestedReturnWaits(s: State, r: nat, v: Value)
    requires Sound(s) && r < |s.rows| && s.rows[r].status == TNested
    ensures OnSuccess(s, r, v) == s.(rows := s.rows[r := s.rows[r].(phase := Done)])
  {
  }

  // ---- resuming ----

  /**
   * A workflow leaves WAIT exactly when it waits and none of its rows is in INIT or PROGRESS, a
   * nested row not counting; then exactly the node left behind is sent, if there is one and the
   * template can be read.
   */
  lemma ResumeExactly(s: State, w: nat)
    requires w < |s.wfs|
    ensures var t, g := ResumeWorkflow(s, w), s.wfs[w].graph;
      var open := exists r :: 0 <= r < |s.rows| && s.rows[r].wf == w && (s.rows[r].status == TInit || s.rows[r].status == TProgress);
      var leaves := s.wfs[w].status == WWait && !open;
      var sends := leaves && s.wfs[w].current != "" && forall c :: c in g.connections ==> c.source in g.kind;
      && (s.wfs[w].status == WWait && t.wfs[w].status != WWait <==> leaves)
      && t.wfs == (if leaves then s.wfs[w := s.wfs[w].(status := WProgress)] else s.wfs)
      && t.rows == s.rows && t.queue == s.queue + if sends then [Message(w, s.wfs[w].current)] else []
  {
    hide Grows;
    if r :| 0 <= r < |s.rows| && s.rows[r].wf == w && (s.rows[r].status == TInit || s.rows[r].status == TProgress) {
      assert s.rows[r] in s.rows;
    }
  }
}
