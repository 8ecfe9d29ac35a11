/** When SUCCESS means that all nodes completed, for templates with condition nodes as well. */
module Choices {
  import opened Wrappers
  import opened Graphs
  import opened Orders
  import opened Tables
  import opened Protocol
  import opened Moves
  import opened Safety
  import opened WakeUps
  import opened Conservation
  import opened Bounds
  import opened Runs
  import opened Paths
  import opened Schedules

  /** Distinct nodes, known endpoints, no cycle; conditions allowed. */
  ghost predicate Proper(g: Graph) {
    Keyed(g) && Acyclic(g) && SourcesKnown(g) && TargetsKnown(g)
  }

  /** What node `n` returns when the conditions in `yes` answer true and the others false. */
  ghost function Answer(g: Graph, yes: set<NodeId>, n: NodeId): Value {
    if n in g.kind && g.kind[n].Condition? then Verdict(n in yes) else Opaque(0)
  }

  /** With these answers the success of `a` leads to `n`. */
  ghost predicate Fires(g: Graph, yes: set<NodeId>, a: NodeId, n: NodeId) {
    LeadsTo(g, a, Answer(g, yes, a), n)
  }

  /** With these answers nothing follows `n`. */
  ghost predicate Ending(g: Graph, yes: set<NodeId>, n: NodeId) {
    Route(g, n, Answer(g, yes, n)) == Some([])
  }

  ghost predicate CanEnd(g: Graph, yes: set<NodeId>, d: set<NodeId>) {
    exists z :: z in d && Ending(g, yes, z)
  }

  /** The nodes `d` can complete alone with these answers: with each its predecessors, each target fired by a member. */
  ghost predicate Course(g: Graph, yes: set<NodeId>, d: set<NodeId>) {
    DownClosed(g, d) && forall n :: n in d ==> Called(g, yes, d, n)
  }

  ghost predicate Called(g: Graph, yes: set<NodeId>, d: set<NodeId>, n: NodeId) {
    !IsTarget(g.connections, n) || exists a :: a in d && Fires(g, yes, a, n)
  }

  // ---- a course as a run ----

  /** One workflow on `g` in which exactly the nodes of `d` ran, once each, with these answers, and those called wait. */
  ghost predicate Running(s: State, g: Graph, yes: set<NodeId>, d: set<NodeId>) {
    && Sound(s) && |s.wfs| == 1 && s.wfs[0].graph == g && s.wfs[0].parent == None
    && s.wfs[0].status == (if CanEnd(g, yes, d) then WSuccess else WProgress)
    && RowsOf(s.rows, d) && HistoryOf(s.hist, d) && CalledQueued(s.queue, g, yes, d)
  }

  ghost predicate CalledQueued(q: seq<Message>, g: Graph, yes: set<NodeId>, d: set<NodeId>) {
    forall n :: n in g.kind && n !in d && Called(g, yes, d, n) ==> Message(0, n) in q
  }

  lemma FiresEdge(g: Graph, yes: set<NodeId>, a: NodeId, n: NodeId)
    requires Fires(g, yes, a, n)
    ensures Edge(g, a, n)
  {
    hide Route;
  }

  lemma AnswerRoutes(g: Graph, yes: set<NodeId>, n: NodeId)
    requires SourcesKnown(g) && n in g.kind
    ensures Route(g, n, Answer(g, yes, n)).Some?
  {
  }

  lemma StartsRun(g: Graph) returns (es: seq<Event>, s: State)
    requires Keyed(g)
    ensures Glides(Empty, es, s) && Sound(s) && s.rows == [] && s.queue == Send(0, StartSends(g)) && s.hist == [Started(0)]
    ensures s.wfs == [NewWorkflow(g, None, "").(status := WProgress, pending := false)]
  {
    hide StartSends, Glides, Keyed;
    var t := LaunchWorkflow(Empty, g);
    OneEvent(Empty, Launch(g));
    StartGlides(t, 0);
    s := ExecuteWorkflow(t, 0);
    es := [Launch(g)] + [Start(0)];
    Glided(Empty, [Launch(g)], t, [Start(0)], s);
  }

  lemma CourseOpens(g: Graph, yes: set<NodeId>) returns (es: seq<Event>, s: State)
    requires Proper(g)
    ensures Glides(Empty, es, s) && Running(s, g, yes, {})
  {
    hide Acyclic, Glides, IsTarget, Roots;
    es, s := StartsRun(g);
    forall n | n in g.kind && Called(g, yes, {}, n) ensures Message(0, n) in s.queue {
      assert n in StartSends(g);
      var k :| 0 <= k < |StartSends(g)| && StartSends(g)[k] == n;
      assert s.queue[k] == Message(0, n);
    }
  }

  lemma RanQueued(s: State, g: Graph, yes: set<NodeId>, d: set<NodeId>, i: nat, n: NodeId, next: seq<NodeId>)
    requires Running(s, g, yes, d) && n !in d && Proper(g)
    requires i < |s.queue| && s.queue[i] == Message(0, n) && Route(g, n, Answer(g, yes, n)) == Some(next)
    ensures CalledQueued(RanWith(s, i, n, Answer(g, yes, n), next).queue, g, yes, d + {n})
  {
    hide Acyclic, RowsOf, HistoryOf, Sound, Route, Existing;
    var q := RanWith(s, i, n, Answer(g, yes, n), next).queue;
    forall m | m in g.kind && m !in d + {n} && Called(g, yes, d + {n}, m) ensures Message(0, m) in q {
      if Called(g, yes, d, m) {
        var k :| 0 <= k < |s.queue| && s.queue[k] == Message(0, m);
        assert k != i;
        assert q[if k < i then k else k - 1] == Message(0, m);
      } else {
        assert Fires(g, yes, n, m);
        assert m in Existing(g, next);
        var k :| 0 <= k < |Existing(g, next)| && Existing(g, next)[k] == m;
        assert q[|s.queue| - 1 + k] == Message(0, m);
      }
    }
  }

  lemma RanRunning(s: State, g: Graph, yes: set<NodeId>, d: set<NodeId>, i: nat, n: NodeId, next: seq<NodeId>)
    requires Running(s, g, yes, d) && n !in d && Proper(g)
    requires i < |s.queue| && s.queue[i] == Message(0, n) && Route(g, n, Answer(g, yes, n)) == Some(next)
    ensures Running(RanWith(s, i, n, Answer(g, yes, n), next), g, yes, d + {n})
  {
    RanQueued(s, g, yes, d, i, n, next);
    RanRows(s, i, n, Answer(g, yes, n), next, d);
    RanHistory(s, i, n, Answer(g, yes, n), next, d);
    CanEndMore(g, yes, d, n, next);
    RanShape(s, i, n, Answer(g, yes, n), next);
    hide RanWith, Sound, RowsOf, HistoryOf, CalledQueued, CanEnd, Proper, Route, Existing, Answer;
  }

  lemma RanShape(s: State, i: nat, n: NodeId, v: Value, next: seq<NodeId>)
    requires Sound(s) && |s.wfs| == 1 && i < |s.queue|
    ensures var t := RanWith(s, i, n, v, next);
      && Sound(t) && |t.wfs| == 1 && t.wfs[0].graph == s.wfs[0].graph && t.wfs[0].parent == s.wfs[0].parent
      && t.wfs[0].status == if next == [] then WSuccess else s.wfs[0].status
  {
    hide Existing;
  }

  lemma CanEndMore(g: Graph, yes: set<NodeId>, d: set<NodeId>, n: NodeId, next: seq<NodeId>)
    requires Route(g, n, Answer(g, yes, n)) == Some(next)
    ensures CanEnd(g, yes, d + {n}) <==> CanEnd(g, yes, d) || next == []
  {
    hide Route, Answer;
    assert Ending(g, yes, n) <==> next == [];
    hide Ending;
    assert n in d + {n} && forall z :: z in d ==> z in d + {n};
  }

  lemma DoneReady(s: State, g: Graph, yes: set<NodeId>, d: set<NodeId>, n: NodeId)
    requires Running(s, g, yes, d) && forall a :: Edge(g, a, n) ==> a in d
    ensures Ready(s.rows, g, 0, n)
  {
    ReadySettled(s.rows, g, 0, n);
  }

  /** A course minus a node without successors in it is a course. */
  lemma CourseRest(g: Graph, yes: set<NodeId>, d: set<NodeId>, n: NodeId)
    requires Course(g, yes, d) && n in d && forall x :: x in d ==> !Edge(g, n, x)
    ensures Course(g, yes, d - {n}) && Called(g, yes, d - {n}, n) && forall a :: Edge(g, a, n) ==> a in d - {n}
  {
    hide Fires, IsTarget;
    forall m | m in d ensures Called(g, yes, d - {n}, m) {
      if IsTarget(g.connections, m) {
        var a :| a in d && Fires(g, yes, a, m);
        FiresEdge(g, yes, a, m);
        assert a in d - {n};
      }
    }
  }

  /** Every course is the completed part of some run without failure or pause. */
  lemma {:induction false} RunCourse(g: Graph, yes: set<NodeId>, d: set<NodeId>) returns (es: seq<Event>, s: State)
    requires Proper(g) && Course(g, yes, d)
    ensures Glides(Empty, es, s) && Running(s, g, yes, d)
    decreases |d|
  {
    hide Running, Glides, Course, Called, Acyclic, Answer, Route;
    if d == {} {
      es, s := CourseOpens(g, yes);
    } else {
      var start :| start in d;
      var n := LastOf(g, d, [start]);
      CourseRest(g, yes, d, n);
      var before, u := RunCourse(g, yes, d - {n});
      assert n in g.kind by { InGraph(g, yes, d, n); }
      assert d - {n} + {n} == d;
      var more: seq<Event>;
      more, s := CourseStep(u, g, yes, d - {n}, n);
      Glided(Empty, before, u, more, s);
      es := before + more;
    }
  }

  lemma InGraph(g: Graph, yes: set<NodeId>, d: set<NodeId>, n: NodeId)
    requires Course(g, yes, d) && n in d
    ensures n in g.kind
  {
  }

  lemma CourseStep(u: State, g: Graph, yes: set<NodeId>, d: set<NodeId>, n: NodeId) returns (es: seq<Event>, s: State)
    requires Proper(g) && Running(u, g, yes, d) && n in g.kind && n !in d
    requires Called(g, yes, d, n) && forall a :: Edge(g, a, n) ==> a in d
    ensures Glides(u, es, s) && Running(s, g, yes, d + {n})
  {
    hide Acyclic, Glides, Called, RowsOf, HistoryOf, Answer, Route;
    DoneReady(u, g, yes, d, n);
    AnswerRoutes(g, yes, n);
    var i: nat :| i < |u.queue| && u.queue[i] == Message(0, n);
    var v := Answer(g, yes, n);
    var next := Route(g, n, v).value;
    es := RunsWith(u, i, n, v, next);
    s := RanWith(u, i, n, v, next);
    RanRunning(u, g, yes, d, i, n, next);
  }

  // ---- a run as a course ----

  /** When a node was accepted, each of its inputs that calls no workflow had succeeded at most once. */
  ghost predicate SingleInputs(s: State) {
    forall k :: 0 <= k < |s.hist| && s.hist[k].Accepted? && s.hist[k].wf < |s.wfs| ==>
      InputsOnce(s.wfs[s.hist[k].wf].graph, s.hist[..k], s.hist[k].wf, s.hist[k].node)
  }

  ghost predicate InputsOnce(g: Graph, h: seq<Entry>, w: nat, n: NodeId) {
    forall a :: Edge(g, a, n) && !IsCall(g, a) ==> Successes(h, w, a) <= 1
  }

  lemma MoveSingle(s: State, m: Move)
    requires Can(s, m) && Invariant(s) && SingleInputs(s)
    ensures SingleInputs(Made(s, m))
  {
    var t := Made(s, m);
    MoveGrows(s, m);
    forall k | 0 <= k < |t.hist| && t.hist[k].Accepted? && t.hist[k].wf < |t.wfs|
      ensures InputsOnce(t.wfs[t.hist[k].wf].graph, t.hist[..k], t.hist[k].wf, t.hist[k].node)
    {
      KeptSingle(s, m, k);
    }
  }

  lemma KeptSingle(s: State, m: Move, k: nat)
    requires Can(s, m) && Invariant(s) && SingleInputs(s) && Grows(s, Made(s, m))
    requires var t := Made(s, m); k < |t.hist| && t.hist[k].Accepted? && t.hist[k].wf < |t.wfs|
    ensures var t := Made(s, m); InputsOnce(t.wfs[t.hist[k].wf].graph, t.hist[..k], t.hist[k].wf, t.hist[k].node)
  {
    var t := Made(s, m);
    if k >= |s.hist| {
      NewAcceptance(s, m, k);
      hide Made, Can;
      assert t.hist[..k] == s.hist;
      ReadyOnce(s, t.hist[k].wf, t.hist[k].node);
    } else {
      HistWorkflow(s, k);
      hide Made, Can, Invariant, InputsOnce;
      assert t.hist[..|s.hist|][k] == s.hist[k];
      assert t.hist[..k] == s.hist[..k];
    }
  }

  lemma HistWorkflow(s: State, k: nat)
    requires Invariant(s) && k < |s.hist|
    ensures s.hist[k].wf < |s.wfs|
  {
  }

  /** Only a message whose inputs are ready is accepted, after everything recorded so far. */
  lemma NewAcceptance(s: State, m: Move, k: nat)
    requires Can(s, m) && |s.hist| <= k < |Made(s, m).hist| && Made(s, m).hist[k].Accepted?
    ensures k == |s.hist| && Made(s, m).hist[k].wf < |s.wfs|
    ensures Ready(s.rows, s.wfs[Made(s, m).hist[k].wf].graph, Made(s, m).hist[k].wf, Made(s, m).hist[k].node)
  {
    hide Grows, Route, Existing, Ready, Busy, Hit, StartSends;
  }

  lemma ReadyOnce(s: State, w: nat, n: NodeId)
    requires Invariant(s) && w < |s.wfs| && Ready(s.rows, s.wfs[w].graph, w, n)
    ensures InputsOnce(s.wfs[w].graph, s.hist, w, n)
  {
    var g := s.wfs[w].graph;
    ReadySettled(s.rows, g, w, n);
    forall a | Edge(g, a, n) && !IsCall(g, a) ensures Successes(s.hist, w, a) <= 1 {
      assert Settled(s.rows, w, a);
      var i :| Only(s.rows, w, a, i) && s.rows[i].status == TSuccess;
      OnlyCounted(s.rows, w, a, i);
      assert Accounted(s, w, a) by { AccountedAt(s, w, a); }
    }
  }

  lemma AccountedAt(s: State, w: nat, n: NodeId)
    requires Invariant(s) && w < |s.wfs|
    ensures Accounted(s, w, n)
  {
  }

  lemma {:induction false} ChainSingle(s: State, ms: seq<Move>, t: State)
    requires Chain(s, ms, t) && Invariant(s) && SingleInputs(s)
    ensures SingleInputs(t)
    decreases |ms|
  {
    hide Made, Can, Invariant, SingleInputs;
    if ms != [] {
      MoveSingle(s, ms[0]);
      MoveInvariant(s, ms[0]);
      ChainSingle(Made(s, ms[0]), ms[1..], t);
    }
  }

  lemma ReachableSingle(s: State)
    requires Reachable(s)
    ensures SingleInputs(s)
  {
    hide Leads, Invariant, Chain;
    var es :| Leads(Empty, es, s);
    var ms := RunMoves(Empty, es, s);
    EmptyInvariant();
    ChainSingle(Empty, ms, s);
  }

  ghost predicate SucceedsAt(h: seq<Entry>, k: int, w: nat, n: NodeId) {
    0 <= k < |h| && h[k].Succeeded? && h[k].wf == w && h[k].node == n
  }

  /** The first recorded success of `n` is that of a condition that answered true. */
  ghost predicate SaidYes(h: seq<Entry>, w: nat, n: NodeId) {
    exists x :: SucceedsAt(h, x, w, n) && h[x].value == Verdict(true) && forall y :: 0 <= y < x ==> !SucceedsAt(h, y, w, n)
  }

  lemma {:induction false} SomeSuccess(h: seq<Entry>, x: nat, w: nat, n: NodeId)
    requires SucceedsAt(h, x, w, n)
    ensures Successes(h, w, n) >= 1
    decreases |h|
  {
    if x < |h| - 1 {
      assert h[..|h| - 1][x] == h[x];
      SomeSuccess(h[..|h| - 1], x, w, n);
    }
  }

  lemma {:induction false} TwoSuccesses(h: seq<Entry>, x: nat, y: nat, w: nat, n: NodeId)
    requires x < y && SucceedsAt(h, x, w, n) && SucceedsAt(h, y, w, n)
    ensures Successes(h, w, n) >= 2
    decreases |h|
  {
    var before := h[..|h| - 1];
    assert before[x] == h[x];
    if y < |h| - 1 {
      assert before[y] == h[y];
      TwoSuccesses(before, x, y, w, n);
    } else {
      SomeSuccess(before, x, w, n);
    }
  }

  /** A condition that had succeeded once when its success was used is counted with the verdict used. */
  lemma VerdictUsed(h: seq<Entry>, k: nat, x: nat, w: nat, a: NodeId)
    requires x < k <= |h| && SucceedsAt(h, x, w, a) && h[x].value.Verdict? && Successes(h[..k], w, a) <= 1
    ensures SaidYes(h, w, a) <==> h[x].value.truth
  {
    forall y | 0 <= y < x ensures !SucceedsAt(h, y, w, a) {
      if SucceedsAt(h, y, w, a) {
        TwoSuccesses(h[..k], y, x, w, a);
      }
    }
    if SaidYes(h, w, a) {
      var y :| SucceedsAt(h, y, w, a) && h[y].value == Verdict(true) && forall z :: 0 <= z < y ==> !SucceedsAt(h, z, w, a);
      assert y == x;
    }
  }

  /** The nodes before `z`, and `z`. */
  ghost function UpTo(g: Graph, z: NodeId): set<NodeId> {
    set n | n in g.kind && (n == z || Ancestor(g, n, z))
  }

  /** The verdicts recorded, with `v` for `z`. */
  ghost function Recorded(s: State, w: nat, z: NodeId, v: Value): set<NodeId>
    requires w < |s.wfs|
  {
    set n | n in s.wfs[w].graph.kind && if n == z then v == Verdict(true) else SaidYes(s.hist, w, n)
  }

  /** When a node up to a recorded success was accepted: before that success. */
  lemma AcceptedUpTo(s: State, w: nat, k: nat, z: NodeId, n: NodeId) returns (j: nat)
    requires Reachable(s) && w < |s.wfs| && SucceedsAt(s.hist, k, w, z) && n in UpTo(s.wfs[w].graph, z)
    ensures j < k && s.hist[j] == Accepted(w, n)
  {
    hide Reachable, Ancestor, Invariant;
    ReachableInvariant(s);
    assert InOrder(s, k) by { InOrderAt(s, k); }
    j :| 0 <= j < k && s.hist[j] == Accepted(w, z);
    if n != z {
      DependencyOrder(s, j, n);
      var i :| 0 <= i < j && s.hist[i].Succeeded? && s.hist[i].wf == w && s.hist[i].node == n;
      assert InOrder(s, i) by { InOrderAt(s, i); }
      j :| 0 <= j < i && s.hist[j] == Accepted(w, n);
    }
  }

  lemma InOrderAt(s: State, k: nat)
    requires Invariant(s) && k < |s.hist|
    ensures InOrder(s, k)
  {
  }

  /** An accepted target up to `z` was fired, with the recorded verdicts, by a node up to `z`. */
  lemma FiredUpTo(s: State, w: nat, z: NodeId, v: Value, n: NodeId, j: nat) returns (a: NodeId)
    requires Reachable(s) && w < |s.wfs| && Proper(s.wfs[w].graph)
    requires j < |s.hist| && s.hist[j] == Accepted(w, n)
    requires n in UpTo(s.wfs[w].graph, z) && IsTarget(s.wfs[w].graph.connections, n)
    ensures a in UpTo(s.wfs[w].graph, z) && Fires(s.wfs[w].graph, Recorded(s, w, z, v), a, n)
  {
    var g := s.wfs[w].graph;
    var x := SenderOf(s, w, n, j);
    a := s.hist[x].node;
    ReachableSingle(s);
    assert InputsOnce(g, s.hist[..j], w, n);
    assert Edge(g, a, n) by { hide Route; }
    UpToClosed(g, a, n, z);
    hide Acyclic, Ancestor, Reachable;
    if g.kind[a].Condition? {
      assert Successes(s.hist[..j], w, a) <= 1;
      VerdictUsed(s.hist, j, x, w, a);
    }
    SameRoute(g, Recorded(s, w, z, v), a, s.hist[x].value, n);
  }

  lemma SenderOf(s: State, w: nat, n: NodeId, j: nat) returns (x: nat)
    requires Reachable(s) && w < |s.wfs| && j < |s.hist| && s.hist[j] == Accepted(w, n) && IsTarget(s.wfs[w].graph.connections, n)
    ensures x < j && s.hist[x].Succeeded? && SucceedsAt(s.hist, x, w, s.hist[x].node) && LeadsTo(s.wfs[w].graph, s.hist[x].node, s.hist[x].value, n)
  {
    ReachableInvariant(s);
    var g := s.wfs[w].graph;
    assert SentBefore(g, s.hist, j, w, n) by { SentAt(s, j); }
    hide Route, Existing, Occurs, StartSends, Reachable, Invariant;
    x :| 0 <= x < j && !s.hist[x].Resumed? && SentBy(g, s.hist[x], w, n) > 0;
    if s.hist[x].Started? {
      OccursIn(StartSends(g), n);
      StartIsRoot(g, n);
      assert false;
    }
    OccursIn(Existing(g, Route(g, s.hist[x].node, s.hist[x].value).value), n);
  }

  lemma StartIsRoot(g: Graph, n: NodeId)
    requires n in StartSends(g)
    ensures !IsTarget(g.connections, n)
  {
  }

  lemma SentAt(s: State, j: nat)
    requires Invariant(s) && j < |s.hist| && s.hist[j].Accepted? && s.hist[j].wf < |s.wfs|
    ensures SentBefore(s.wfs[s.hist[j].wf].graph, s.hist, j, s.hist[j].wf, s.hist[j].node)
  {
  }

  lemma UpToClosed(g: Graph, a: NodeId, n: NodeId, z: NodeId)
    requires Acyclic(g) && SourcesKnown(g) && Edge(g, a, n) && n in UpTo(g, z)
    ensures a in UpTo(g, z) && a != z
  {
    ExtendPath(g, a, n, z);
  }

  /** A plain node routes alike whatever it returned, a condition by its verdict. */
  lemma SameRoute(g: Graph, yes: set<NodeId>, a: NodeId, v: Value, n: NodeId)
    requires LeadsTo(g, a, v, n) && a in g.kind && (g.kind[a].Condition? && v.Verdict? ==> (a in yes <==> v.truth))
    ensures Fires(g, yes, a, n)
  {
  }

  lemma SameEnd(g: Graph, yes: set<NodeId>, z: NodeId, v: Value)
    requires Route(g, z, v) == Some([]) && (z in yes <==> v == Verdict(true))
    ensures Ending(g, yes, z)
  {
  }

  // ---- the equivalence ----

  /** Whatever the conditions answer, a course that can end the workflow leaves no node out. */
  ghost predicate EndingCoursesComplete(g: Graph) {
    forall yes: set<NodeId>, d: set<NodeId> ::
      Course(g, yes, d) && CanEnd(g, yes, d) ==> d == g.kind.Keys
  }

  /** What a closed workflow completed up to its end is a course that ends. */
  lemma ClosedCourse(s: State, w: nat) returns (z: NodeId, yes: set<NodeId>)
    requires Reachable(s) && w < |s.wfs| && s.wfs[w].status == WSuccess && Proper(s.wfs[w].graph)
    ensures var g := s.wfs[w].graph;
      z in g.kind && Course(g, yes, UpTo(g, z)) && Ending(g, yes, z) && forall n :: n in UpTo(g, z) ==> HasSucceeded(s, w, n)
  {
    var g := s.wfs[w].graph;
    var k := ClosingSuccess(s, w);
    z := s.hist[k].node;
    var v := s.hist[k].value;
    yes := Recorded(s, w, z, v);
    assert z in g.kind by { hide Recorded; }
    SameEnd(g, yes, z, v);
    hide Recorded, Ending, Fires, Reachable, Acyclic, Route, SaidYes;
    forall a, b | b in UpTo(g, z) && Edge(g, a, b) ensures a in UpTo(g, z) {
      UpToClosed(g, a, b, z);
    }
    forall n | n in UpTo(g, z) ensures Called(g, yes, UpTo(g, z), n) && HasSucceeded(s, w, n) {
      var j := AcceptedUpTo(s, w, k, z, n);
      if IsTarget(g.connections, n) {
        var a := FiredUpTo(s, w, z, v, n, j);
      }
      SucceededUpTo(s, w, k, z, n);
    }
  }

  lemma SucceededUpTo(s: State, w: nat, k: nat, z: NodeId, n: NodeId)
    requires Reachable(s) && w < |s.wfs| && SucceedsAt(s.hist, k, w, z) && n in UpTo(s.wfs[w].graph, z)
    ensures HasSucceeded(s, w, n)
  {
    if n != z {
      ReachableInvariant(s);
      hide Reachable, Ancestor;
      assert InOrder(s, k) by { InOrderAt(s, k); }
      var j :| 0 <= j < k && s.hist[j] == Accepted(w, z);
      DependencyOrder(s, j, n);
    }
  }

  lemma ClosingSuccess(s: State, w: nat) returns (k: nat)
    requires Reachable(s) && w < |s.wfs| && s.wfs[w].status == WSuccess
    ensures k < |s.hist| && s.hist[k].Succeeded? && SucceedsAt(s.hist, k, w, s.hist[k].node)
    ensures Route(s.wfs[w].graph, s.hist[k].node, s.hist[k].value) == Some([])
  {
    ReachableInvariant(s);
    hide Route;
    k :| 0 <= k < |s.hist| && Ends(s.wfs[w].graph, s.hist[k], w);
  }

  /**
   * SUCCESS means that all nodes completed, in every interleaving and whatever the conditions answer,
   * exactly when no part of the template that can complete alone, and ends, leaves a node out.
   */
  lemma CompletenessIffCourses(g: Graph)
    requires Proper(g)
    ensures ClosesComplete(g) <==> EndingCoursesComplete(g)
  {
    hide Reachable, HasSucceeded, Course, Ending, Proper, UpTo;
    if EndingCoursesComplete(g) {
      forall s: State, w: nat | Reachable(s) && w < |s.wfs| && s.wfs[w].graph == g && s.wfs[w].status == WSuccess
        ensures forall n :: n in g.kind ==> HasSucceeded(s, w, n)
      {
        var z, yes := ClosedCourse(s, w);
        assert z in UpTo(g, z) by { EndIn(g, z); }
        assert UpTo(g, z) == g.kind.Keys;
      }
    } else {
      var yes: set<NodeId>, d: set<NodeId> :| Course(g, yes, d) && CanEnd(g, yes, d) && d != g.kind.Keys;
      IncompleteCourse(g, yes, d);
    }
  }

  lemma EndIn(g: Graph, z: NodeId)
    requires z in g.kind
    ensures z in UpTo(g, z)
  {
  }

  lemma IncompleteCourse(g: Graph, yes: set<NodeId>, d: set<NodeId>)
    requires Proper(g) && Course(g, yes, d) && CanEnd(g, yes, d) && d != g.kind.Keys
    ensures !ClosesComplete(g)
  {
    var es, s := RunCourse(g, yes, d);
    SmoothlyReached(es, s);
    hide Reachable, Ending, Proper, Glides, RowsOf, CalledQueued;
    var n :| n in g.kind && n !in d;
    assert !HasSucceeded(s, 0, n);
  }

  lemma SmoothlyReached(es: seq<Event>, s: State)
    requires Glides(Empty, es, s)
    ensures Smoothly(s) && Reachable(s)
  {
    SmoothlyReachable(s);
  }
}
