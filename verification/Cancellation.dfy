/** What cancelling reaches, and what it does not. */
module Cancellation {
  import opened Wrappers
  import opened Graphs
  import opened Orders
  import opened Tables
  import opened Protocol
  import opened Moves
  import opened Safety
  import opened Conservation
  import opened Bounds
  import opened Runs
  import opened Paths
  import opened Schedules
  import opened Tokens
  import opened PauseResume

  /** A row the cleanup must cancel: active, and of the worker or in a workflow it has to close. */
  ghost predicate Doomed(s: State, worker: string, i: int)
    requires Sound(s)
  {
    && 0 <= i < |s.rows| && (s.rows[i].status == TInit || s.rows[i].status == TProgress || s.rows[i].status == TNested)
    && (s.rows[i].worker == Some(worker)
        || exists k :: Owns(s, worker, k) && s.rows[k].wf == s.rows[i].wf)
  }

  /** Row `k` of the worker has begun or not, in a workflow still open. */
  ghost predicate Owns(s: State, worker: string, k: int)
    requires Sound(s)
  {
    && 0 <= k < |s.rows| && s.rows[k].worker == Some(worker) && s.rows[k].status in {TInit, TProgress}
    && s.wfs[s.rows[k].wf].status in {WInit, WProgress}
  }

  lemma HitOwns(s: State, worker: string, w: nat)
    requires Sound(s) && w < |s.wfs|
    ensures Hit(s, worker, w) <==> exists k :: Owns(s, worker, k) && s.rows[k].wf == w
  {
    if Hit(s, worker, w) {
      var r :| r in s.rows && r.wf == w && r.worker == Some(worker) && r.status in {TProgress, TInit};
      var k :| 0 <= k < |s.rows| && s.rows[k] == r;
      assert Owns(s, worker, k);
    }
    if k :| Owns(s, worker, k) && s.rows[k].wf == w {
      assert s.rows[k] in s.rows;
    }
  }

  /** After a worker's cleanup. */
  lemma WorkerCleanup(s: State, worker: string)
    requires Sound(s)
    ensures var t := CancelExisting(s, worker);
      && |t.rows| == |s.rows|
      && (forall i :: 0 <= i < |t.rows| && t.rows[i].worker == Some(worker) ==> t.rows[i].status !in {TInit, TProgress, TNested})
      && (forall k, i :: Owns(s, worker, k) && 0 <= i < |t.rows| && t.rows[i].wf == s.rows[k].wf ==>
           t.wfs[t.rows[i].wf].status == WCanceled && t.rows[i].status !in {TInit, TProgress, TNested})
      && (forall i :: 0 <= i < |s.rows| ==>
           t.rows[i] == if Doomed(s, worker, i) then s.rows[i].(status := TCanceled, finished := true) else s.rows[i])
      && (forall w :: 0 <= w < |s.wfs| && t.wfs[w] != s.wfs[w] ==>
           t.wfs[w] == s.wfs[w].(status := WCanceled) && exists k :: Owns(s, worker, k) && s.rows[k].wf == w)
      && t.queue == s.queue
  {
    forall w | 0 <= w < |s.wfs| { HitOwns(s, worker, w); }
    hide Hit, Grows;
  }

  /**
   * A cancel touches only a workflow still open, and of its rows exactly the active ones: they become
   * CANCELED and finished and keep everything else.
   */
  lemma CancelExactly(s: State, w: nat)
    requires w < |s.wfs|
    ensures var t := CancelWorkflow(s, w);
      var open := s.wfs[w].status == WInit || s.wfs[w].status == WProgress || s.wfs[w].status == WWait;
      && t.wfs == (if open then s.wfs[w := s.wfs[w].(status := WCanceled)] else s.wfs)
      && t.queue == s.queue && t.hist == s.hist && |t.rows| == |s.rows|
      && forall i :: 0 <= i < |s.rows| ==>
           var row := s.rows[i];
           var active := row.status == TInit || row.status == TProgress || row.status == TNested;
           t.rows[i] == if open && row.wf == w && active then row.(status := TCanceled, finished := true) else row
  {
    hide Grows;
  }

  /** Cancelling leaves the queued messages of the workflow able to run. */
  lemma CanceledStillDelivers(s: State, w: nat, i: nat)
    requires Sound(s) && w < |s.wfs| && s.wfs[w].status in {WInit, WProgress, WWait}
    requires i < |s.queue| && s.queue[i].wf == w && s.queue[i].node in s.wfs[w].graph.kind
    requires Ready(s.rows, s.wfs[w].graph, w, s.queue[i].node)
    ensures |ProcessNextNode(CancelWorkflow(s, w), i).rows| == |s.rows| + 1
  {
    CancelKeepsReady(s, w, s.queue[i].node);
  }

  /** A row that returns after the cancel still succeeds, and as a last node turns CANCELED into SUCCESS. */
  lemma CanceledStillSucceeds(s: State, w: nat, r: nat, v: Value)
    requires Sound(s) && w < |s.wfs| && s.wfs[w].status in {WInit, WProgress, WWait} && s.wfs[w].parent.None?
    requires r < |s.rows| && s.rows[r].wf == w && s.rows[r].status == TProgress
    requires Route(s.wfs[w].graph, s.rows[r].node, v) == Some([])
    ensures CancelWorkflow(s, w).wfs[w].status == WCanceled && CancelWorkflow(s, w).rows[r].status == TCanceled
    ensures var u := OnSuccess(CancelWorkflow(s, w), r, v); u.rows[r].status == TSuccess && u.wfs[w].status == WSuccess
  {
    hide Route, Existing, Grows;
  }

  lemma CancelKeepsReady(s: State, w: nat, n: NodeId)
    requires Sound(s) && w < |s.wfs| && Ready(s.rows, s.wfs[w].graph, w, n)
    ensures Ready(CancelWorkflow(s, w).rows, s.wfs[w].graph, w, n)
  {
    var g := s.wfs[w].graph;
    var t := CancelWorkflow(s, w);
    forall c | c in g.connections && c.target == n
      ensures Get(t.rows, w, c.source).Some? && t.rows[Get(t.rows, w, c.source).value].status == TSuccess
    {
      var k := Get(s.rows, w, c.source);
      assert Only(t.rows, w, c.source, k.value);
    }
  }

  // ---- when a cancel is final ----

  /** Nothing of workflow `w` can still happen: it was started, no worker holds a row of it, no message of it can make one. */
  ghost predicate Exhausted(s: State, w: nat)
    requires w < |s.wfs|
  {
    && !s.wfs[w].pending
    && (forall r :: 0 <= r < |s.rows| && s.rows[r].wf == w ==> s.rows[r].phase == Done)
    && (forall i :: 0 <= i < |s.queue| && s.queue[i].wf == w ==> Dead(s, w, s.queue[i].node))
  }

  /** A message for `n` would be dropped. */
  ghost predicate Dead(s: State, w: nat, n: NodeId)
    requires w < |s.wfs|
  {
    n !in s.wfs[w].graph.kind || !Ready(s.rows, s.wfs[w].graph, w, n)
  }

  /** From `s` on, whatever happens, `w` stays CANCELED and gets no further row. */
  ghost predicate StaysCanceled(s: State, w: nat) {
    forall es, t :: Leads(s, es, t) ==> CanceledSince(s, t, w)
  }

  ghost predicate CanceledSince(s: State, t: State, w: nat) {
    && w < |t.wfs| && t.wfs[w].status == WCanceled
    && forall r :: |s.rows| <= r < |t.rows| ==> t.rows[r].wf != w
  }

  /** A canceled workflow of which nothing can still happen. */
  ghost predicate Over(s: State, w: nat) {
    && Sound(s) && w < |s.wfs| && s.wfs[w].status == WCanceled && Childless(s, w) && Exhausted(s, w)
    && forall r :: 0 <= r < |s.rows| && s.rows[r].wf == w ==> !Active(s.rows[r].status)
  }

  /** Readiness depends on the workflow's own rows alone. */
  lemma ReadyElsewhere(s: State, t: State, w: nat, n: NodeId)
    requires SameFor(s, t, w)
    ensures Ready(t.rows, s.wfs[w].graph, w, n) <==> Ready(s.rows, s.wfs[w].graph, w, n)
  {
    var g := s.wfs[w].graph;
    ReadySettled(s.rows, g, w, n);
    ReadySettled(t.rows, g, w, n);
    forall a ensures Settled(t.rows, w, a) <==> Settled(s.rows, w, a) {
      SettledElsewhere(s, t, w, a);
    }
    hide Ready, SameFor, Edge, Settled;
  }

  lemma SettledElsewhere(s: State, t: State, w: nat, a: NodeId)
    requires SameFor(s, t, w)
    ensures Settled(t.rows, w, a) <==> Settled(s.rows, w, a)
  {
    hide PendingOf, Visited;
    if k :| Only(s.rows, w, a, k) && s.rows[k].status == TSuccess {
      assert Only(t.rows, w, a, k);
    }
    if k :| Only(t.rows, w, a, k) && t.rows[k].status == TSuccess {
      assert Only(s.rows, w, a, k);
    }
  }

  lemma OverElsewhere(s: State, t: State, w: nat)
    requires Over(s, w) && SameFor(s, t, w) && Childless(t, w)
    ensures Over(t, w)
  {
    hide Ready, PendingOf, Visited, Childless;
    forall i | 0 <= i < |t.queue| && t.queue[i].wf == w ensures Dead(t, w, t.queue[i].node) {
      QueuedPending(t.queue, i, w);
      var k := PendingQueued(s.queue, w, t.queue[i].node);
      ReadyElsewhere(s, t, w, t.queue[i].node);
    }
  }

  /** What can happen to an exhausted canceled workflow itself changes nothing but its queue. */
  lemma OverHere(s: State, e: Event, w: nat)
    requires Over(s, w) && Enabled(s, e) && !Elsewhere(s, e, w)
    ensures Over(Step(s, e), w) && |Step(s, e).rows| == |s.rows|
  {
    hide Ready, Grows, OnSuccess, OnRaise, StartSends, Busy;
    var t := Step(s, e);
    if e.Deliver? {
      assert t.queue == s.queue[..e.message] + s.queue[e.message + 1..];
      assert Dead(s, w, s.queue[e.message].node);
      assert t.rows == s.rows && t.wfs == s.wfs;
    } else if e.Sweep? {
      SweptOver(s, e.worker, w);
    } else {
      assert t == s;
    }
  }

  lemma SweptOver(s: State, worker: string, w: nat)
    requires Over(s, w)
    ensures Over(CancelExisting(s, worker), w) && |CancelExisting(s, worker).rows| == |s.rows|
  {
    var t := CancelExisting(s, worker);
    assert !Hit(s, worker, w);
    hide Hit, Grows, Ready;
    assert forall r :: 0 <= r < |s.rows| && s.rows[r].wf == w ==> t.rows[r] == s.rows[r];
    forall i | 0 <= i < |t.queue| && t.queue[i].wf == w ensures Dead(t, w, t.queue[i].node) {
      assert Dead(s, w, s.queue[i].node);
      ReadyOwn(s.rows, t.rows, s.wfs[w].graph, w, t.queue[i].node);
    }
  }

  lemma ReadyOwn(rows: seq<Row>, more: seq<Row>, g: Graph, w: nat, n: NodeId)
    requires |more| == |rows| && forall r :: 0 <= r < |rows| ==>
      IsAt(more[r], rows[r].wf, rows[r].node) && (rows[r].wf == w ==> (more[r].status == TSuccess <==> rows[r].status == TSuccess))
    ensures Ready(more, g, w, n) <==> Ready(rows, g, w, n)
  {
    ReadySettled(rows, g, w, n);
    ReadySettled(more, g, w, n);
    forall a ensures Settled(more, w, a) <==> Settled(rows, w, a) {
      if k :| Only(rows, w, a, k) && rows[k].status == TSuccess {
        assert Only(more, w, a, k);
      }
      if k :| Only(more, w, a, k) && more[k].status == TSuccess {
        assert Only(rows, w, a, k);
      }
    }
    hide Ready, Edge, Settled;
  }

  lemma OverChildless(s: State, e: Event, w: nat)
    requires Over(s, w) && Enabled(s, e)
    ensures Childless(Step(s, e), w)
  {
    hide PendingOf, Busy, Ready, StartSends, Hit, HandleTaskSuccess, OnFailure, OnSuccess, OnRaise, Dead;
    var t := Step(s, e);
    if e.Return? {
      ReturnKeepsCount(s, e.row, e.value);
    } else if e.Raise? {
      RaiseKeepsCount(s, e.row, e.timedOut);
    }
    forall x | 0 <= x < |t.wfs| ensures t.wfs[x].parent != Some(w) {
      if x < |s.wfs| {
        assert t.wfs[x].parent == s.wfs[x].parent;
      }
    }
  }

  lemma RaiseKeepsCount(s: State, r: nat, timedOut: bool)
    requires Sound(s) && r < |s.rows|
    ensures |OnRaise(s, r, timedOut).wfs| == |s.wfs|
  {
    hide OnFailure;
    FailureKeepsCount(Stop(s, r), r, timedOut);
  }

  lemma OverStep(s: State, e: Event, w: nat)
    requires Over(s, w) && Enabled(s, e)
    ensures Over(Step(s, e), w) && |s.rows| <= |Step(s, e).rows|
    ensures forall r :: |s.rows| <= r < |Step(s, e).rows| ==> Step(s, e).rows[r].wf != w
  {
    OverChildless(s, e, w);
    OverParts(s, w);
    hide Over, Step, Enabled, Childless, PendingOf, Visited;
    if Elsewhere(s, e, w) {
      EventElsewhere(s, e, w);
      OverElsewhere(s, Step(s, e), w);
    } else {
      OverHere(s, e, w);
    }
  }

  lemma OverParts(s: State, w: nat)
    requires Over(s, w)
    ensures Sound(s) && w < |s.wfs| && Childless(s, w) && s.wfs[w].status == WCanceled
  {
  }

  lemma {:induction false} OverForEver(s: State, es: seq<Event>, t: State, w: nat)
    requires Over(s, w) && Leads(s, es, t)
    ensures CanceledSince(s, t, w) && |s.rows| <= |t.rows|
    decreases |es|
  {
    hide Step, Enabled, Over;
    OverParts(s, w);
    if es != [] {
      OverStep(s, es[0], w);
      OverForEver(Step(s, es[0]), es[1..], t, w);
      OnlyOthers(s, Step(s, es[0]), es[1..], t, w);
    }
  }

  lemma OnlyOthers(s: State, u: State, es: seq<Event>, t: State, w: nat)
    requires |s.rows| <= |u.rows| <= |t.rows| && Leads(u, es, t) && CanceledSince(u, t, w)
    requires forall r :: |s.rows| <= r < |u.rows| ==> u.rows[r].wf != w
    ensures CanceledSince(s, t, w)
  {
    LeadsGrows(u, es, t);
    hide Leads;
  }

  lemma LeadsGrows(s: State, es: seq<Event>, t: State)
    requires Leads(s, es, t)
    ensures Grows(s, t)
  {
    var ms := RunMoves(s, es, t);
    ChainGrows(s, ms, t);
  }

  lemma OneStep(s: State, e: Event)
    requires Sound(s) && Enabled(s, e)
    ensures Leads(s, [e], Step(s, e))
  {
    hide Step, Enabled;
    assert [e][1..] == [];
    assert Leads(Step(s, e), [], Step(s, e));
  }

  /** Anything left over undoes the cancel: a start, a row in a worker's hands, a message that is ready. */
  lemma LeftOverUndoes(s: State, w: nat)
    requires Sound(s) && w < |s.wfs| && s.wfs[w].status == WCanceled && Childless(s, w) && !Exhausted(s, w)
    ensures !StaysCanceled(s, w)
  {
    hide Leads, Ready, Grows, OnRaise, Childless, Busy, StartSends;
    var e: Event;
    if s.wfs[w].pending {
      e := Start(w);
    } else if r: nat :| r < |s.rows| && s.rows[r].wf == w && s.rows[r].phase != Done {
      e := Raise(r, false);
      RaiseErrs(s, r, w);
    } else {
      var i: nat :| i < |s.queue| && s.queue[i].wf == w && !Dead(s, w, s.queue[i].node);
      e := Deliver(i);
      assert Step(s, e).rows[|s.rows|].wf == w;
    }
    OneStep(s, e);
    assert !CanceledSince(s, Step(s, e), w);
  }

  lemma RaiseErrs(s: State, r: nat, w: nat)
    requires Sound(s) && r < |s.rows| && s.rows[r].wf == w && Childless(s, w)
    ensures w < |OnRaise(s, r, false).wfs| && OnRaise(s, r, false).wfs[w].status == WError
  {
    hide OnFailure;
    var b := Stop(s, r);
    FailureErrs(b, r, w);
  }

  lemma FailureErrs(s: State, r: nat, w: nat)
    requires Sound(s) && r < |s.rows| && s.rows[r].wf == w && Childless(s, w)
    ensures w < |OnFailure(s, r, false).wfs| && OnFailure(s, r, false).wfs[w].status == WError
  {
    var t := Fail(s, r, false);
    var q := ParentRow(t, w);
    if q.Some? {
      assert t.rows[q.value].wf != w;
      StaysChildless(s, t, w);
      FailureElsewhere(t, q.value, false, w);
    }
  }

  lemma CancelKeeps(s: State, w: nat)
    requires Sound(s) && w < |s.wfs| && s.wfs[w].status in {WInit, WProgress, WWait}
    ensures var u := CancelWorkflow(s, w);
      && Sound(u) && |u.wfs| == |s.wfs| && |u.rows| == |s.rows| && u.wfs[w].status == WCanceled
      && (Exhausted(u, w) <==> Exhausted(s, w)) && (Childless(u, w) <==> Childless(s, w))
      && forall r :: 0 <= r < |u.rows| && u.rows[r].wf == w ==> !Active(u.rows[r].status)
  {
    hide Ready, Grows;
    var u := CancelWorkflow(s, w);
    forall n ensures Dead(u, w, n) <==> Dead(s, w, n) {
      ReadyOwn(s.rows, u.rows, s.wfs[w].graph, w, n);
    }
    assert u.queue == s.queue && u.wfs[w].pending == s.wfs[w].pending;
    assert forall x :: 0 <= x < |s.wfs| ==> u.wfs[x].parent == s.wfs[x].parent;
    assert forall r :: 0 <= r < |s.rows| ==> u.rows[r].phase == s.rows[r].phase && u.rows[r].wf == s.rows[r].wf;
    hide Dead, CancelWorkflow, Sound;
  }

  /**
   * An accepted cancel of a workflow without children is final, whatever happens afterwards, exactly
   * when the workflow was started, no worker holds a row of it, and no queued message of it is ready.
   */
  lemma CancelFinalIffExhausted(s: State, w: nat)
    requires Sound(s) && w < |s.wfs| && s.wfs[w].status in {WInit, WProgress, WWait} && Childless(s, w)
    ensures StaysCanceled(CancelWorkflow(s, w), w) <==> Exhausted(s, w)
  {
    CancelKeeps(s, w);
    var u := CancelWorkflow(s, w);
    hide Leads, Exhausted, Childless, CancelWorkflow, Sound, Active;
    if Exhausted(s, w) {
      assert Over(u, w);
      forall es, t | Leads(u, es, t) ensures CanceledSince(u, t, w) {
        OverForEver(u, es, t, w);
      }
    } else {
      LeftOverUndoes(u, w);
    }
  }

  /**
   * On every template with a node: some run without failure reaches a workflow in progress whose
   * cancel is accepted, and which afterwards gets a new row and ends in SUCCESS.
   */
  lemma CanceledRunSucceeds(g: Graph) returns (s: State, es: seq<Event>, t: State)
    requires Regular(g) && g.kind != map[]
    ensures Smoothly(s) && 0 < |s.wfs| && s.wfs[0].graph == g && s.wfs[0].status == WProgress
    ensures CancelWorkflow(s, 0).wfs[0].status == WCanceled
    ensures Glides(CancelWorkflow(s, 0), es, t) && 0 < |t.wfs| && t.wfs[0].status == WSuccess && |t.rows| == |s.rows| + 1
    ensures t.rows[|s.rows|].wf == 0 && t.rows[|s.rows|].status == TSuccess
  {
    var rank := RankingOf(g, g.kind.Keys);
    var n :| n in g.kind;
    var z := ReachesSink(g, rank, n);
    var d := set a | a in g.kind && Ancestor(g, a, z);
    BeforeSink(g, z, d);
    var before: seq<Event>;
    before, s := RunAlone(g, d);
    var i := Schedules.Waiting(s, g, d, z);
    CleanOpen(s, g, d);
    InProgress(s, g, d);
    NoTargets(g.connections, z);
    CancelKeeps(s, 0);
    var u := CancelWorkflow(s, 0);
    CancelKeepsReady(s, 0, z);
    hide Ready, Glides, Regular, Clean, Acyclic;
    es := RunsTo(u, i, z);
    t := Ran(u, i, z);
  }

  lemma BeforeSink(g: Graph, z: NodeId, d: set<NodeId>)
    requires Regular(g) && Sink(g, z) && d == set a | a in g.kind && Ancestor(g, a, z)
    ensures DownClosed(g, d) && z !in d && (forall a :: Edge(g, a, z) ==> a in d) && forall a :: a in d ==> !Sink(g, a)
  {
    forall a, b | b in d && Edge(g, a, b) ensures a in d {
      ExtendPath(g, a, b, z);
    }
    forall a | Edge(g, a, z) ensures a in d {
      ExtendPath(g, a, z, z);
    }
    forall a | a in d ensures !Sink(g, a) {
      AncestorHasEdge(g, a, z);
    }
  }

  lemma InProgress(s: State, g: Graph, d: set<NodeId>)
    requires Clean(s, g, d) && forall a :: a in d ==> !Sink(g, a)
    ensures s.wfs[0].status == WProgress
  {
  }
}
