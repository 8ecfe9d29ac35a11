/** How the end of a task travels up a chain of nested workflows, of any depth. */
module Nesting {
  import opened Wrappers
  import opened Graphs
  import opened Tables
  import opened Protocol

  /**
   * `c` climbs from a workflow to its parent, then to that one's parent, and so on; row `q[0]` belongs to
   * the first, and each further row is the only one standing for the workflow below it.
   */
  ghost predicate Lineage(s: State, c: seq<nat>, q: seq<nat>) {
    && |c| == |q| > 0
    && (forall i :: 0 <= i < |c| ==> c[i] < |s.wfs| && q[i] < |s.rows| && s.rows[q[i]].wf == c[i])
    && (forall i :: 0 <= i < |c| - 1 ==> Above(s, c[i], c[i + 1], q[i + 1]))
  }

  ghost predicate Above(s: State, w: nat, p: nat, q: nat) {
    w < |s.wfs| && s.wfs[w].parent == Some(p) && Only(s.rows, p, s.wfs[w].node, q)
  }

  function Top(c: seq<nat>): nat
    requires |c| > 0
  {
    c[|c| - 1]
  }

  /** What follows the ending node at level `i`. */
  ghost function RouteAt(s: State, q: seq<nat>, i: nat, v: Value): Option<seq<NodeId>>
    requires i < |q| && q[i] < |s.rows| && s.rows[q[i]].wf < |s.wfs|
  {
    Route(s.wfs[s.rows[q[i]].wf].graph, s.rows[q[i]].node, v)
  }

  /** Below the top every ending node is the last of its workflow. */
  ghost predicate AllLast(s: State, c: seq<nat>, q: seq<nat>, v: Value)
    requires Lineage(s, c, q)
  {
    forall i :: 0 <= i < |c| - 1 ==> RouteAt(s, q, i, v) == Some([])
  }

  function Completed(row: Row, v: Value): Row {
    row.(status := TSuccess, result := Some(if v == Value.Nothing then Value.Notice else v), finished := true)
  }

  /** Exactly the rows `q` completed with value `v`. */
  ghost predicate OnlyCompleted(s: State, t: State, q: seq<nat>, v: Value) {
    && |t.rows| == |s.rows|
    && forall r :: 0 <= r < |s.rows| ==> t.rows[r] == if r in q then Completed(s.rows[r], v) else s.rows[r]
  }

  function ClosedAt(wf: Workflow, n: NodeId): Workflow {
    wf.(status := WSuccess, finished := true, current := n)
  }

  /** Exactly the workflows `c` closed, each at its node in `ns`. */
  ghost predicate OnlyClosed(a: seq<Workflow>, b: seq<Workflow>, c: seq<nat>, ns: seq<NodeId>) {
    && |b| == |a| && |c| <= |ns|
    && (forall i :: 0 <= i < |c| ==> c[i] < |a| && b[c[i]] == ClosedAt(a[c[i]], ns[i]))
    && (forall w :: 0 <= w < |a| && w !in c ==> b[w] == a[w])
  }

  ghost function Nodes(s: State, q: seq<nat>): (ns: seq<NodeId>)
    requires forall i :: 0 <= i < |q| ==> q[i] < |s.rows|
    ensures |ns| == |q| && forall i :: 0 <= i < |q| ==> ns[i] == s.rows[q[i]].node
  {
    seq(|q|, i requires 0 <= i < |q| => s.rows[q[i]].node)
  }

  lemma {:induction false} LineageDescends(s: State, c: seq<nat>, q: seq<nat>)
    requires Sound(s) && Lineage(s, c, q)
    ensures forall i :: 1 <= i < |c| ==> c[i] < c[0]
    decreases |c|
  {
    if |c| > 1 {
      LineageRest(s, c, q);
      LineageDescends(s, c[1..], q[1..]);
      forall i | 1 <= i < |c| ensures c[i] < c[0] {
        if i > 1 {
          assert c[i] == c[1..][i - 1];
        }
      }
    }
  }

  /** A step that keeps all identities keeps the lineage. */
  lemma LineageKept(s: State, t: State, c: seq<nat>, q: seq<nat>)
    requires Lineage(s, c, q) && Grows(s, t) && |t.rows| == |s.rows|
    ensures Lineage(t, c, q)
  {
    forall i | 0 <= i < |c| - 1 ensures Above(t, c[i], c[i + 1], q[i + 1]) {
      assert Above(s, c[i], c[i + 1], q[i + 1]);
    }
  }

  lemma LineageRest(s: State, c: seq<nat>, q: seq<nat>)
    requires Lineage(s, c, q) && |c| > 1
    ensures Lineage(s, c[1..], q[1..]) && Above(s, c[0], c[1], q[1]) && c == [c[0]] + c[1..] && q == [q[0]] + q[1..]
  {
    hide Above;
    assert Above(s, c[0], c[0 + 1], q[0 + 1]);
    var d, k := c[1..], q[1..];
    assert |d| == |k| == |c| - 1;
    forall i | 0 <= i < |d| ensures d[i] < |s.wfs| && k[i] < |s.rows| && s.rows[k[i]].wf == d[i] {
      assert d[i] == c[i + 1] && k[i] == q[i + 1];
    }
    forall i | 0 <= i < |d| - 1 ensures Above(s, d[i], d[i + 1], k[i + 1]) {
      assert Above(s, c[i + 1], c[i + 1 + 1], q[i + 1 + 1]);
      assert d[i] == c[i + 1] && d[i + 1] == c[i + 2] && k[i + 1] == q[i + 2];
    }
  }

  lemma ParentIs(s: State, w: nat, p: nat, q: nat)
    requires Above(s, w, p, q)
    ensures ParentRow(s, w) == Some(q)
  {
  }

  /** What stops the climb: a node that routes nowhere the source can read, one with successors, or a missing parent row. */
  ghost predicate StopsAt(s: State, c: seq<nat>, q: seq<nat>, v: Value)
    requires Lineage(s, c, q)
  {
    RouteAt(s, q, |q| - 1, v) == Some([]) ==> ParentRow(s, Top(c)).None?
  }

  /** The top routes nowhere, or is the last node of a nested workflow that no unique row stands for. */
  ghost predicate Raises(s: State, c: seq<nat>, q: seq<nat>, v: Value)
    requires Lineage(s, c, q)
  {
    var next := RouteAt(s, q, |q| - 1, v);
    next.None? || (next == Some([]) && s.wfs[Top(c)].parent.Some?)
  }

  /** The outcome of a success at the bottom of `c`: what closed, what completed, what was sent, whether it raised. */
  ghost predicate Propagated(s: State, o: Outcome, c: seq<nat>, q: seq<nat>, v: Value)
    requires Lineage(s, c, q)
  {
    var next := RouteAt(s, q, |q| - 1, v);
    && (o.raised <==> Raises(s, c, q, v))
    && OnlyCompleted(s, o.state, q, v)
    && OnlyClosed(s.wfs, o.state.wfs, if next == Some([]) then c else c[..|c| - 1], Nodes(s, q))
    && o.state.queue == s.queue + if next.Some? then Send(Top(c), Existing(s.wfs[Top(c)].graph, next.value)) else []
  }

  /**
   * Finishing the innermost node closes the workflows below the top of the run of last nodes, and
   * the top too when its node is the last; otherwise it dispatches exactly the top's successors.
   */
  lemma {:induction false} SuccessPropagates(s: State, c: seq<nat>, q: seq<nat>, v: Value)
    requires Sound(s) && Lineage(s, c, q) && AllLast(s, c, q, v) && StopsAt(s, c, q, v)
    ensures Propagated(s, HandleTaskSuccess(s, q[0], v), c, q, v)
    decreases |c|
  {
    hide HandleTaskSuccess, Frame, OnlyCompleted, OnlyClosed, Route, Propagated, Grows, Above, ParentRow, Raises;
    if |c| > 1 {
      var t := Frame(s, q[0], v);
      assert RouteAt(s, q, 0, v) == Some([]);
      LineageRest(s, c, q);
      FrameShape(s, q[0], v);
      LineageKept(s, t, c[1..], q[1..]);
      ParentFound(s, c[0], c[1], q[0], q[1], v);
      RoutesKept(s, t, c, q, v);
      if ParentRow(s, Top(c)).None? {
        NoParent(s, t, Top(c));
      }
      hide Lineage, AllLast;
      SuccessPropagates(t, c[1..], q[1..], v);
      PropagatedUp(s, HandleTaskSuccess(t, q[1], v), c, q, v);
    } else {
      BottomPropagates(s, c, q, v);
    }
  }

  lemma FrameShape(s: State, r: nat, v: Value)
    requires Sound(s) && r < |s.rows|
    ensures var t := Frame(s, r, v);
      && Sound(t) && Grows(s, t) && |t.rows| == |s.rows| && |t.wfs| == |s.wfs|
      && forall w :: 0 <= w < |s.wfs| ==> t.wfs[w].parent == s.wfs[w].parent
  {
    hide Route, Existing;
  }

  lemma BottomPropagates(s: State, c: seq<nat>, q: seq<nat>, v: Value)
    requires Sound(s) && Lineage(s, c, q) && StopsAt(s, c, q, v) && |c| == 1
    ensures Propagated(s, HandleTaskSuccess(s, q[0], v), c, q, v)
  {
    hide HandleTaskSuccess, Route, ParentRow, Grows, OnlyCompleted, OnlyClosed, Above;
    assert c == [c[0]] && q == [q[0]] && c[..0] == [] && Nodes(s, q) == [s.rows[q[0]].node];
    Bottom(s, q[0], v);
  }

  lemma PropagatedUp(s: State, o: Outcome, c: seq<nat>, q: seq<nat>, v: Value)
    requires Sound(s) && Lineage(s, c, q) && |c| > 1 && RouteAt(s, q, 0, v) == Some([])
    requires var t := Frame(s, q[0], v);
      && Lineage(t, c[1..], q[1..]) && RouteAt(t, q[1..], |q| - 2, v) == RouteAt(s, q, |q| - 1, v)
      && Propagated(t, o, c[1..], q[1..], v)
    ensures Propagated(s, o, c, q, v)
  {
    hide Route, Existing, Grows, OnlyClosed, OnlyCompleted, Above;
    var t := Frame(s, q[0], v);
    LineageRest(s, c, q);
    LineageDescends(s, c, q);
    ComposeRows(s, o.state, c, q, v);
    assert Top(c) == Top(c[1..]);
    assert t.wfs == s.wfs[c[0] := ClosedAt(s.wfs[c[0]], Nodes(s, q)[0])];
    assert Nodes(t, q[1..]) == Nodes(s, q)[1..];
    if RouteAt(s, q, |q| - 1, v) == Some([]) {
      ComposeWorkflows(s.wfs, o.state.wfs, c, c[1..], Nodes(s, q));
    } else {
      assert c[..|c| - 1] == [c[0]] + c[1..][..|c[1..]| - 1];
      ComposeWorkflows(s.wfs, o.state.wfs, c[..|c| - 1], c[1..][..|c[1..]| - 1], Nodes(s, q));
    }
  }

  lemma RoutesKept(s: State, t: State, c: seq<nat>, q: seq<nat>, v: Value)
    requires Lineage(s, c, q) && AllLast(s, c, q, v) && |c| > 1
    requires Grows(s, t) && |t.rows| == |s.rows| && Lineage(t, c[1..], q[1..])
    requires forall i :: 1 <= i < |c| ==> t.wfs[c[i]].parent == s.wfs[c[i]].parent
    ensures AllLast(t, c[1..], q[1..], v)
    ensures RouteAt(t, q[1..], |q| - 2, v) == RouteAt(s, q, |q| - 1, v)
    ensures Top(c[1..]) == Top(c) && t.wfs[Top(c)].graph == s.wfs[Top(c)].graph
    ensures t.wfs[Top(c)].parent == s.wfs[Top(c)].parent
  {
    hide Route;
    assert forall i :: 0 <= i < |c| - 1 ==> q[1..][i] == q[i + 1];
    forall i | 0 <= i < |q| - 2 ensures RouteAt(t, q[1..], i, v) == Some([]) {
      assert RouteAt(s, q, i + 1, v) == Some([]);
    }
  }

  lemma Bottom(s: State, r: nat, v: Value)
    requires Sound(s) && r < |s.rows|
    requires var w := s.rows[r].wf; Route(s.wfs[w].graph, s.rows[r].node, v) == Some([]) ==> ParentRow(s, w).None?
    ensures var w := s.rows[r].wf;
      var next := Route(s.wfs[w].graph, s.rows[r].node, v);
      var o := HandleTaskSuccess(s, r, v);
      && (o.raised <==> next.None? || (next == Some([]) && s.wfs[w].parent.Some?))
      && OnlyCompleted(s, o.state, [r], v)
      && OnlyClosed(s.wfs, o.state.wfs, if next == Some([]) then [w] else [], [s.rows[r].node])
      && o.state.queue == s.queue + if next.Some? then Send(w, Existing(s.wfs[w].graph, next.value)) else []
  {
    var w := s.rows[r].wf;
    if ParentRow(s, w).None? {
      NoParent(s, Frame(s, r, v), w);
    }
    StopsHere(s, r, v);
    FrameEffect(s, r, v);
    hide HandleTaskSuccess, Frame, Route, Grows, ParentRow, OnlyCompleted, OnlyClosed;
  }

  lemma StopsHere(s: State, r: nat, v: Value)
    requires Sound(s) && r < |s.rows|
    requires var w := s.rows[r].wf;
      Route(s.wfs[w].graph, s.rows[r].node, v) == Some([]) ==> ParentRow(Frame(s, r, v), w).None?
    ensures var w := s.rows[r].wf;
      var next := Route(s.wfs[w].graph, s.rows[r].node, v);
      HandleTaskSuccess(s, r, v) == Outcome(Frame(s, r, v), next.None? || (next == Some([]) && s.wfs[w].parent.Some?))
  {
    hide Route, ParentRow, Existing, Grows;
  }

  /** One activation completes its row, and either closes its workflow or sends the next nodes. */
  lemma FrameEffect(s: State, r: nat, v: Value)
    requires Sound(s) && r < |s.rows|
    ensures var w := s.rows[r].wf;
      var next := Route(s.wfs[w].graph, s.rows[r].node, v);
      var t := Frame(s, r, v);
      && OnlyCompleted(s, t, [r], v)
      && OnlyClosed(s.wfs, t.wfs, if next == Some([]) then [w] else [], [s.rows[r].node])
      && t.queue == s.queue + if next.Some? then Send(w, Existing(s.wfs[w].graph, next.value)) else []
  {
    assert Existing(s.wfs[s.rows[r].wf].graph, []) == [];
    hide Route, Grows, Existing;
    var w, t := s.rows[r].wf, Frame(s, r, v);
    assert t.rows == s.rows[r := Completed(s.rows[r], v)];
    assert t.wfs == if Route(s.wfs[w].graph, s.rows[r].node, v) == Some([]) then s.wfs[w := ClosedAt(s.wfs[w], s.rows[r].node)] else s.wfs;
    hide Frame;
  }

  lemma ParentFound(s: State, w: nat, p: nat, r: nat, q: nat, v: Value)
    requires Sound(s) && r < |s.rows| && s.rows[r].wf == w && Above(s, w, p, q)
    requires Route(s.wfs[w].graph, s.rows[r].node, v) == Some([])
    ensures HandleTaskSuccess(s, r, v) == HandleTaskSuccess(Frame(s, r, v), q, v)
  {
    hide Route, Existing;
    var t := Frame(s, r, v);
    assert Above(t, w, p, q);
    ParentIs(t, w, p, q);
  }

  /** The bottom activation, then the rest of the chain: rows. */
  lemma ComposeRows(s: State, u: State, c: seq<nat>, q: seq<nat>, v: Value)
    requires Sound(s) && |q| > 1 && q[0] < |s.rows| && q == [q[0]] + q[1..]
    requires RouteAt(s, q, 0, v) == Some([])
    requires OnlyCompleted(Frame(s, q[0], v), u, q[1..], v)
    ensures OnlyCompleted(s, u, q, v)
    ensures Frame(s, q[0], v).queue == s.queue
  {
    hide Route, Existing, Grows;
    assert Completed(Completed(s.rows[q[0]], v), v) == Completed(s.rows[q[0]], v);
  }

  /** The bottom activation, then the rest of the chain: workflows. */
  lemma ComposeWorkflows(a: seq<Workflow>, b: seq<Workflow>, c: seq<nat>, d: seq<nat>, ns: seq<NodeId>)
    requires |c| > 0 && c == [c[0]] + d && c[0] !in d && c[0] < |a| && |ns| > 0
    requires OnlyClosed(a[c[0] := ClosedAt(a[c[0]], ns[0])], b, d, ns[1..])
    ensures OnlyClosed(a, b, c, ns)
  {
    forall i | 0 <= i < |c| ensures c[i] < |a| && b[c[i]] == ClosedAt(a[c[i]], ns[i]) {
      if i > 0 {
        assert c[i] == d[i - 1] && ns[1..][i - 1] == ns[i];
        assert c[i] != c[0];
      }
    }
  }

  /** A child that closes while its parent has no unique row for it ends in ERROR, although its task succeeded. */
  lemma AmbiguousParentFails(s: State, r: nat, v: Value)
    requires Sound(s) && r < |s.rows| && s.rows[r].status != TNested
    requires var w := s.rows[r].wf;
      && Route(s.wfs[w].graph, s.rows[r].node, v) == Some([])
      && s.wfs[w].parent.Some? && ParentRow(s, w).None?
    ensures var t := OnSuccess(s, r, v); var w := s.rows[r].wf;
      && t.rows[r].status == TError && t.rows[r].failed && t.wfs[w].status == WError
      && t.queue == s.queue
      && (forall i :: 0 <= i < |s.rows| && i != r ==> t.rows[i] == s.rows[i])
      && (forall x :: 0 <= x < |s.wfs| && x != w ==> t.wfs[x] == s.wfs[x])
  {
    hide Route, Existing;
    var w := s.rows[r].wf;
    var t := Frame(Stop(s, r), r, v);
    NoParent(s, t, w);
    NoParent(s, Fail(t, r, false), w);
  }

  lemma NoParent(s: State, t: State, w: nat)
    requires Grows(s, t) && |t.rows| == |s.rows| && w < |s.wfs| && ParentRow(s, w).None?
    ensures ParentRow(t, w).None?
  {
    if ParentRow(t, w).Some? {
      assert Only(s.rows, s.wfs[w].parent.value, s.wfs[w].node, ParentRow(t, w).value);
    }
  }

  // ---- failure ----

  function FailedRow(row: Row, timedOut: bool): Row {
    row.(status := if timedOut then TTimeout else TError, result := Some(Value.Failure), failed := true, finished := true)
  }

  function FailedWorkflow(wf: Workflow, timedOut: bool): Workflow {
    wf.(status := if timedOut then WTimeout else WError)
  }

  ghost predicate OnlyFailed(s: State, t: State, c: seq<nat>, q: seq<nat>, timedOut: bool) {
    && |t.wfs| == |s.wfs| && |t.rows| == |s.rows| && t.queue == s.queue && t.hist == s.hist
    && (forall w :: 0 <= w < |s.wfs| ==> t.wfs[w] == if w in c then FailedWorkflow(s.wfs[w], timedOut) else s.wfs[w])
    && (forall i :: 0 <= i < |s.rows| ==> t.rows[i] == if i in q then FailedRow(s.rows[i], timedOut) else s.rows[i])
  }

  /**
   * A failure puts every workflow up the chain and its row in the same status, as far as each
   * workflow has one row standing for it in its parent, and changes nothing else.
   */
  lemma {:induction false} FailurePropagates(s: State, c: seq<nat>, q: seq<nat>, timedOut: bool)
    requires Sound(s) && Lineage(s, c, q) && ParentRow(s, Top(c)).None?
    ensures OnlyFailed(s, OnFailure(s, q[0], timedOut), c, q, timedOut)
    decreases |c|
  {
    var t := Fail(s, q[0], timedOut);
    if |c| > 1 {
      LineageRest(s, c, q);
      LineageKept(s, t, c[1..], q[1..]);
      NoParent(s, t, Top(c));
      assert Above(t, c[0], c[1], q[1]);
      ParentIs(t, c[0], c[1], q[1]);
      assert Top(c[1..]) == Top(c);
      FailurePropagates(t, c[1..], q[1..], timedOut);
      hide Lineage, Above, OnFailure, OnlyFailed;
      assert OnFailure(s, q[0], timedOut) == OnFailure(t, q[1], timedOut) by { FailureStep(s, q[0], q[1], timedOut); }
      ComposeFailure(s, OnFailure(t, q[1], timedOut), c, q, timedOut);
    } else {
      assert c == [c[0]] && q == [q[0]];
      NoParent(s, t, c[0]);
    }
  }

  lemma FailureStep(s: State, r: nat, q: nat, timedOut: bool)
    requires Sound(s) && r < |s.rows| && ParentRow(Fail(s, r, timedOut), s.rows[r].wf) == Some(q)
    ensures OnFailure(s, r, timedOut) == OnFailure(Fail(s, r, timedOut), q, timedOut)
  {
  }

  lemma ComposeFailure(s: State, u: State, c: seq<nat>, q: seq<nat>, timedOut: bool)
    requires Sound(s) && |c| > 1 && |q| > 1 && q[0] < |s.rows| && s.rows[q[0]].wf == c[0]
    requires c == [c[0]] + c[1..] && q == [q[0]] + q[1..]
    requires OnlyFailed(Fail(s, q[0], timedOut), u, c[1..], q[1..], timedOut)
    ensures OnlyFailed(s, u, c, q, timedOut)
  {
    hide Grows;
  }

  /** Every row of a sound state has such a lineage, up to a workflow without a unique parent row. */
  lemma {:induction false} LineageExists(s: State, r: nat) returns (c: seq<nat>, q: seq<nat>)
    requires Sound(s) && r < |s.rows|
    ensures Lineage(s, c, q) && q[0] == r && ParentRow(s, Top(c)).None?
    decreases s.rows[r].wf
  {
    var w := s.rows[r].wf;
    var p := ParentRow(s, w);
    if p.None? {
      c, q := [w], [r];
    } else {
      var d, k := LineageExists(s, p.value);
      c, q := [w] + d, [r] + k;
      assert Above(s, w, d[0], k[0]);
      forall i | 0 <= i < |c| - 1 ensures Above(s, c[i], c[i + 1], q[i + 1]) {
        if i > 0 {
          assert Above(s, d[i - 1], d[i], k[i]);
        }
      }
    }
  }

  // ---- every return ----

  /** Numbers fall all the way up. */
  lemma {:induction false} LineageDistinct(s: State, c: seq<nat>, q: seq<nat>, i: nat, j: nat)
    requires Sound(s) && Lineage(s, c, q) && i < j < |c|
    ensures c[j] < c[i]
    decreases j
  {
    assert Above(s, c[j - 1], c[j - 1 + 1], q[j - 1 + 1]);
    if i < j - 1 {
      LineageDistinct(s, c, q, i, j - 1);
    }
  }

  lemma LineagePrefix(s: State, c: seq<nat>, q: seq<nat>, m: nat)
    requires Lineage(s, c, q) && 1 <= m <= |c|
    ensures Lineage(s, c[..m], q[..m])
  {
    forall i | 0 <= i < m - 1 ensures Above(s, c[..m][i], c[..m][i + 1], q[..m][i + 1]) {
      assert Above(s, c[i], c[i + 1], q[i + 1]);
    }
  }

  /** How far up the lineage a success climbs: through last nodes, as long as a unique row stands above. */
  lemma {:induction false} ClimbExists(s: State, d: seq<nat>, k: seq<nat>, v: Value, m: nat) returns (n: nat)
    requires Lineage(s, d, k) && ParentRow(s, Top(d)).None? && 1 <= m <= |d|
    requires forall i :: 0 <= i < m - 1 ==> RouteAt(s, k, i, v) == Some([])
    ensures 1 <= n <= |d| && Lineage(s, d[..n], k[..n]) && AllLast(s, d[..n], k[..n], v) && StopsAt(s, d[..n], k[..n], v)
    decreases |d| - m
  {
    hide Route, ParentRow, Above;
    LineagePrefix(s, d, k, m);
    assert forall i :: 0 <= i < m ==> k[..m][i] == k[i];
    if m < |d| && RouteAt(s, k, m - 1, v) == Some([]) {
      n := ClimbExists(s, d, k, v, m + 1);
    } else {
      n := m;
      assert RouteAt(s, k[..m], m - 1, v) == RouteAt(s, k, m - 1, v);
      assert m == |d| ==> d[..m] == d;
      assert forall i :: 0 <= i < m - 1 ==> RouteAt(s, k[..m], i, v) == RouteAt(s, k, i, v);
    }
  }

  /** The rows `k` failed, the workflows `d` in ERROR, the first `j` of them closed before; nothing else changed. */
  ghost predicate OnlyErred(s: State, t: State, d: seq<nat>, k: seq<nat>, j: nat)
    requires Lineage(s, d, k) && j <= |d|
  {
    && |t.wfs| == |s.wfs| && |t.rows| == |s.rows| && t.queue == s.queue
    && (forall i :: 0 <= i < |d| ==>
         t.wfs[d[i]] == FailedWorkflow(if i < j then ClosedAt(s.wfs[d[i]], s.rows[k[i]].node) else s.wfs[d[i]], false))
    && (forall w :: 0 <= w < |s.wfs| && w !in d ==> t.wfs[w] == s.wfs[w])
    && (forall i :: 0 <= i < |s.rows| ==> t.rows[i] == if i in k then FailedRow(s.rows[i], false) else s.rows[i])
  }

  /** The workflows a success closes on its way: all it climbs through, and the top when its node is the last. */
  ghost function ClosedCount(s: State, c: seq<nat>, q: seq<nat>, v: Value): (j: nat)
    requires Lineage(s, c, q)
    ensures j <= |c|
  {
    if RouteAt(s, q, |q| - 1, v) == Some([]) then |c| else |c| - 1
  }

  /**
   * Every return, at any depth: with lineage `d`, `k` and the success climbing through its first `n`
   * levels, the row ends in ERROR exactly when the climb raises. Then all of the lineage is in ERROR,
   * also what the climb had closed; otherwise exactly the climb is completed.
   */
  lemma ReturnOutcome(s: State, r: nat, v: Value) returns (d: seq<nat>, k: seq<nat>, n: nat)
    requires Sound(s) && r < |s.rows| && s.rows[r].status != TNested
    ensures var b := Stop(s, r);
      && Lineage(b, d, k) && k[0] == r && ParentRow(b, Top(d)).None? && 1 <= n <= |d| && Lineage(b, d[..n], k[..n])
      && AllLast(b, d[..n], k[..n], v) && StopsAt(b, d[..n], k[..n], v)
    ensures var b := Stop(s, r); OnSuccess(s, r, v).rows[r].status == TError <==> Raises(b, d[..n], k[..n], v)
    ensures var b := Stop(s, r);
      !Raises(b, d[..n], k[..n], v) ==> Propagated(b, Outcome(OnSuccess(s, r, v), false), d[..n], k[..n], v)
    ensures var b := Stop(s, r);
      Raises(b, d[..n], k[..n], v) ==> OnlyErred(b, OnSuccess(s, r, v), d, k, ClosedCount(b, d[..n], k[..n], v))
  {
    var b := Stop(s, r);
    d, k := LineageExists(b, r);
    n := ClimbExists(b, d, k, v, 1);
    hide Lineage, AllLast, StopsAt, Raises, OnlyErred, Propagated, ParentRow, HandleTaskSuccess, OnFailure;
    SuccessPropagates(b, d[..n], k[..n], v);
    var o := HandleTaskSuccess(b, r, v);
    assert k[..n][0] == r by { Bottommost(b, d, k, n); }
    PropagatedParts(b, o, d[..n], k[..n], v);
    if o.raised {
      RaisedErrs(b, o, d, k, n, v);
    }
  }

  lemma Bottommost(s: State, d: seq<nat>, k: seq<nat>, n: nat)
    requires Lineage(s, d, k) && 1 <= n <= |d|
    ensures |k| == |d| && k[..n][0] == k[0]
  {
  }

  lemma PropagatedParts(s: State, o: Outcome, c: seq<nat>, q: seq<nat>, v: Value)
    requires Lineage(s, c, q) && Propagated(s, o, c, q, v)
    ensures o.raised <==> Raises(s, c, q, v)
    ensures q[0] < |o.state.rows| && o.state.rows[q[0]].status == TSuccess
    ensures !o.raised ==> Propagated(s, Outcome(o.state, false), c, q, v)
  {
    hide Route;
    assert q[0] in q;
  }

  lemma RaisedErrs(s: State, o: Outcome, d: seq<nat>, k: seq<nat>, n: nat, v: Value)
    requires Sound(s) && Lineage(s, d, k) && ParentRow(s, Top(d)).None? && 1 <= n <= |d|
    requires Lineage(s, d[..n], k[..n]) && StopsAt(s, d[..n], k[..n], v) && Raises(s, d[..n], k[..n], v)
    requires o == HandleTaskSuccess(s, k[0], v) && Propagated(s, o, d[..n], k[..n], v)
    ensures var t := OnFailure(o.state, k[0], false);
      OnlyErred(s, t, d, k, ClosedCount(s, d[..n], k[..n], v)) && t.rows[k[0]].status == TError
  {
    hide Route, HandleTaskSuccess, OnFailure, Above, Grows, Sound;
    var u := o.state;
    var t := OnFailure(u, k[0], false);
    RaisedParts(s, o, d, k, n, v);
    LineageKept(s, u, d, k);
    NoParent(s, u, Top(d));
    FailurePropagates(u, d, k, false);
    hide Lineage, Propagated, Raises, StopsAt, ParentRow;
    var j := ClosedCount(s, d[..n], k[..n], v);
    ErredRows(s, u, t, d, k, n, v);
    ErredWorkflows(s, u, t, d, k, j);
    Erred(s, t, d, k, j);
  }

  lemma RaisedParts(s: State, o: Outcome, d: seq<nat>, k: seq<nat>, n: nat, v: Value)
    requires Lineage(s, d, k) && 1 <= n <= |d| && Lineage(s, d[..n], k[..n])
    requires Raises(s, d[..n], k[..n], v) && Propagated(s, o, d[..n], k[..n], v)
    ensures var j := ClosedCount(s, d[..n], k[..n], v);
      && OnlyCompleted(s, o.state, k[..n], v) && o.state.queue == s.queue
      && OnlyClosed(s.wfs, o.state.wfs, d[..j], Nodes(s, k))
  {
    var j := ClosedCount(s, d[..n], k[..n], v);
    assert Existing(s.wfs[Top(d[..n])].graph, []) == [];
    hide Route, Existing, OnlyClosed, OnlyCompleted, Above;
    assert d[..n][..n - 1] == d[..n - 1];
    assert Send(Top(d[..n]), []) == [];
    assert forall i :: 0 <= i < n ==> k[..n][i] == k[i];
    assert OnlyClosed(s.wfs, o.state.wfs, d[..j], Nodes(s, k[..n]));
    ClosedNames(s.wfs, o.state.wfs, d[..j], Nodes(s, k[..n]), Nodes(s, k));
  }

  lemma ClosedNames(a: seq<Workflow>, b: seq<Workflow>, c: seq<nat>, ns: seq<NodeId>, more: seq<NodeId>)
    requires OnlyClosed(a, b, c, ns) && |ns| <= |more| && forall i :: 0 <= i < |ns| ==> ns[i] == more[i]
    ensures OnlyClosed(a, b, c, more)
  {
  }

  lemma ErredRows(s: State, u: State, t: State, d: seq<nat>, k: seq<nat>, n: nat, v: Value)
    requires n <= |k| && OnlyCompleted(s, u, k[..n], v) && OnlyFailed(u, t, d, k, false)
    ensures |t.rows| == |s.rows|
    ensures forall i :: 0 <= i < |s.rows| ==> t.rows[i] == if i in k then FailedRow(s.rows[i], false) else s.rows[i]
  {
    assert forall x :: x in k[..n] ==> x in k;
  }

  lemma ErredWorkflows(s: State, u: State, t: State, d: seq<nat>, k: seq<nat>, j: nat)
    requires Sound(s) && Lineage(s, d, k) && j <= |d|
    requires OnlyClosed(s.wfs, u.wfs, d[..j], Nodes(s, k)) && OnlyFailed(u, t, d, k, false)
    ensures |t.wfs| == |s.wfs|
    ensures forall i :: 0 <= i < |d| ==>
      t.wfs[d[i]] == FailedWorkflow(if i < j then ClosedAt(s.wfs[d[i]], s.rows[k[i]].node) else s.wfs[d[i]], false)
    ensures forall w :: 0 <= w < |s.wfs| && w !in d ==> t.wfs[w] == s.wfs[w]
  {
    hide Above, Sound;
    forall i | 0 <= i < |d|
      ensures t.wfs[d[i]] == FailedWorkflow(if i < j then ClosedAt(s.wfs[d[i]], s.rows[k[i]].node) else s.wfs[d[i]], false)
    {
      if i < j {
        assert d[..j][i] == d[i];
      } else {
        forall x | 0 <= x < j ensures d[x] != d[i] {
          LineageDistinct(s, d, k, x, i);
        }
        assert d[i] !in d[..j];
      }
    }
    assert forall x :: x in d[..j] ==> x in d;
  }

  lemma Erred(s: State, t: State, d: seq<nat>, k: seq<nat>, j: nat)
    requires Lineage(s, d, k) && j <= |d| && |t.wfs| == |s.wfs| && |t.rows| == |s.rows| && t.queue == s.queue
    requires forall i :: 0 <= i < |d| ==>
      t.wfs[d[i]] == FailedWorkflow(if i < j then ClosedAt(s.wfs[d[i]], s.rows[k[i]].node) else s.wfs[d[i]], false)
    requires forall w :: 0 <= w < |s.wfs| && w !in d ==> t.wfs[w] == s.wfs[w]
    requires forall i :: 0 <= i < |s.rows| ==> t.rows[i] == if i in k then FailedRow(s.rows[i], false) else s.rows[i]
    ensures OnlyErred(s, t, d, k, j) && t.rows[k[0]].status == TError
  {
    assert k[0] in k;
  }
}
