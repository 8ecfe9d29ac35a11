/**
 * The handlers as they run: they read and save records of the two tables, build the adjacency
 * list in a dictionary and send messages one at a time. Each is proved equal to Protocol.
 */
module Engine {
  import opened Wrappers
  import opened Graphs
  import opened Tables
  import opened Protocol

  lemma TargetsNext(cs: seq<Connection>, i: nat, n: NodeId)
    requires i < |cs|
    ensures Targets(cs[..i + 1], n) == if cs[i].source == n then Targets(cs[..i], n) + [cs[i].target] else Targets(cs[..i], n)
  {
    assert cs[..i + 1][..i] == cs[..i];
  }

  lemma ExistingNext(g: Graph, ids: seq<NodeId>, i: nat)
    requires i < |ids|
    ensures Existing(g, ids[..i + 1]) == if ids[i] in g.kind then Existing(g, ids[..i]) + [ids[i]] else Existing(g, ids[..i])
  {
    assert ids[..i + 1][..i] == ids[..i];
  }

  lemma RootsNext(cs: seq<Connection>, ids: seq<NodeId>, i: nat)
    requires i < |ids|
    ensures Roots(cs, ids[..i + 1]) == if IsTarget(cs, ids[i]) then Roots(cs, ids[..i]) else Roots(cs, ids[..i]) + [ids[i]]
  {
    assert ids[..i + 1][..i] == ids[..i];
  }

  lemma SendNone(w: nat, g: Graph)
    ensures Send(w, Existing(g, [])) == [] && Send(w, Roots(g.connections, g.nodes[..0])) == []
  {
  }

  lemma SendExistingNext(w: nat, g: Graph, ids: seq<NodeId>, i: nat)
    requires i < |ids|
    ensures Send(w, Existing(g, ids[..i + 1])) ==
      Send(w, Existing(g, ids[..i])) + if ids[i] in g.kind then [Message(w, ids[i])] else []
  {
    hide Existing;
    ExistingNext(g, ids, i);
  }

  lemma SendRootsNext(w: nat, cs: seq<Connection>, ids: seq<NodeId>, i: nat)
    requires i < |ids|
    ensures Send(w, Roots(cs, ids[..i + 1])) ==
      Send(w, Roots(cs, ids[..i])) + if IsTarget(cs, ids[i]) then [] else [Message(w, ids[i])]
  {
    hide Roots, IsTarget;
    RootsNext(cs, ids, i);
  }

  lemma ChosenNext(cs: seq<Connection>, i: nat, n: NodeId, output: string)
    requires i < |cs|
    ensures Chosen(cs[..i + 1], n, output) ==
      if Chosen(cs[..i], n, output).Some? then Chosen(cs[..i], n, output)
      else if cs[i].source == n && cs[i].output == output then Some(cs[i].target) else None
  {
    assert cs[..i + 1][..i] == cs[..i];
  }

  lemma {:induction false} ChosenStays(cs: seq<Connection>, i: nat, n: NodeId, output: string)
    requires i <= |cs| && Chosen(cs[..i], n, output).Some?
    ensures Chosen(cs, n, output) == Chosen(cs[..i], n, output)
    decreases |cs| - i
  {
    if i < |cs| {
      ChosenNext(cs, i, n, output);
      ChosenStays(cs, i + 1, n, output);
    } else {
      assert cs[..i] == cs;
    }
  }

  /** The dictionary after the first `i` connections. */
  ghost predicate Adjacent(adjacency: map<NodeId, seq<NodeId>>, g: Graph, i: nat)
    requires i <= |g.connections|
  {
    adjacency.Keys == g.kind.Keys && forall n :: n in g.kind ==> adjacency[n] == Targets(g.connections[..i], n)
  }

  lemma AdjacentNext(adjacency: map<NodeId, seq<NodeId>>, g: Graph, i: nat)
    requires i < |g.connections| && Adjacent(adjacency, g, i) && g.connections[i].source in adjacency
    ensures var c := g.connections[i]; Adjacent(adjacency[c.source := adjacency[c.source] + [c.target]], g, i + 1)
  {
    forall n | n in g.kind { TargetsNext(g.connections, i, n); }
    hide Targets;
  }

  /** The adjacency list; building it raises when a connection starts at an unknown node. */
  method BuildAdjacency(g: Graph) returns (adjacency: map<NodeId, seq<NodeId>>, raised: bool)
    ensures raised <==> !SourcesKnown(g)
    ensures !raised ==> adjacency.Keys == g.kind.Keys && forall n :: n in g.kind ==> adjacency[n] == Targets(g.connections, n)
  {
    adjacency := map n | n in g.kind :: [];
    raised := false;
    var i := 0;
    while i < |g.connections|
      invariant 0 <= i <= |g.connections| && !raised && Adjacent(adjacency, g, i)
      invariant forall k :: 0 <= k < i ==> g.connections[k].source in g.kind
    {
      var c := g.connections[i];
      if c.source !in adjacency {
        raised := true;
        return;
      }
      AdjacentNext(adjacency, g, i);
      adjacency := adjacency[c.source := adjacency[c.source] + [c.target]];
      i := i + 1;
    }
    assert g.connections[..i] == g.connections;
  }

  /** get_next_node_by_condition: the first connection leaving by the chosen output. */
  method GetNextNodeByCondition(g: Graph, n: NodeId, truth: bool) returns (next: Option<NodeId>)
    ensures next == Chosen(g.connections, n, OutputFor(truth))
    ensures truth ==> (next.Some? <==> exists i :: LeavesBy(g.connections, i, n, "out_true"))
    ensures !truth ==> (next.Some? <==> exists i :: LeavesBy(g.connections, i, n, "out_false"))
    ensures truth && next.Some? ==> exists i :: FirstOut(g.connections, i, n, "out_true") && g.connections[i].target == next.value
    ensures !truth && next.Some? ==> exists i :: FirstOut(g.connections, i, n, "out_false") && g.connections[i].target == next.value
  {
    var output := OutputFor(truth);
    var i := 0;
    while i < |g.connections|
      invariant 0 <= i <= |g.connections|
      invariant Chosen(g.connections[..i], n, output) == None
      invariant forall j :: 0 <= j < i ==> !LeavesBy(g.connections, j, n, output)
    {
      var c := g.connections[i];
      ChosenNext(g.connections, i, n, output);
      if c.source == n && c.output == output {
        ChosenStays(g.connections, i + 1, n, output);
        assert FirstOut(g.connections, i, n, output);
        return Some(c.target);
      }
      i := i + 1;
    }
    assert g.connections[..i] == g.connections;
    return None;
  }

  /** Setting the status of a row in memory before it completes is invisible afterwards. */
  lemma StatusInMemory(s: State, q: nat, st: TaskStatus, v: Value)
    requires Sound(s) && q < |s.rows|
    ensures var t := s.(rows := s.rows[q := s.rows[q].(status := st)]);
      Sound(t) && HandleTaskSuccess(t, q, v) == HandleTaskSuccess(s, q, v)
  {
    hide Route, Existing;
    var t := s.(rows := s.rows[q := s.rows[q].(status := st)]);
    assert Mark(t, q, v).rows == Mark(s, q, v).rows;
    assert Frame(t, q, v) == Frame(s, q, v);
  }

  function CanceledFor(r: Row, w: nat): Row {
    if r.wf == w && Active(r.status) then Canceled(r) else r
  }

  predicate Listed(wfs: seq<Workflow>, ids: set<nat>, w: nat) {
    w in ids && w < |wfs| && wfs[w].status in {WInit, WProgress, WWait}
  }

  class Manager {
    var wfs: seq<Workflow>
    var rows: seq<Row>
    var queue: seq<Message>
    ghost var hist: seq<Entry>

    ghost function Now(): State
      reads this
    {
      State(wfs, rows, queue, hist)
    }

    constructor ()
      ensures Now() == Empty
    {
      wfs, rows, queue, hist := [], [], [], [];
    }

    /** are_inputs_ready: a scan that stops at the first input without one successful row. */
    method AreInputsReady(w: nat, n: NodeId) returns (ready: bool)
      requires w < |wfs|
      ensures ready == Ready(rows, wfs[w].graph, w, n)
    {
      var cs := wfs[w].graph.connections;
      var i := 0;
      while i < |cs|
        invariant 0 <= i <= |cs|
        invariant forall c :: c in cs[..i] && c.target == n ==>
          Get(rows, w, c.source).Some? && rows[Get(rows, w, c.source).value].status == TSuccess
      {
        if cs[i].target == n {
          assert cs[i] in cs;
          var r := Get(rows, w, cs[i].source);
          if r.None? || rows[r.value].status != TSuccess {
            return false;
          }
        }
        i := i + 1;
      }
      assert cs[..i] == cs;
      return true;
    }

    /** Sends process_next_node for each listed node that exists. */
    method DispatchAll(w: nat, ids: seq<NodeId>)
      requires w < |wfs|
      modifies this`queue
      ensures queue == old(queue) + Send(w, Existing(wfs[w].graph, ids))
    {
      hide Existing, Send;
      var g := wfs[w].graph;
      var i := 0;
      SendNone(w, g);
      assert ids[..0] == [];
      while i < |ids|
        invariant 0 <= i <= |ids|
        invariant queue == old(queue) + Send(w, Existing(g, ids[..i]))
      {
        SendExistingNext(w, g, ids, i);
        if ids[i] in g.kind {
          queue := queue + [Message(w, ids[i])];
        }
        i := i + 1;
      }
      assert ids[..i] == ids;
    }

    /** execute_workflow_v2 */
    method ExecuteWorkflowV2(w: nat)
      requires w < |wfs|
      modifies this
      ensures Now() == ExecuteWorkflow(old(Now()), w)
      ensures rows == old(rows) && wfs == old(wfs)[w := old(wfs)[w].(status := WProgress, pending := false)]
    {
      wfs := wfs[w := wfs[w].(status := WProgress, pending := false)];
      hist := hist + [Started(w)];
      var g := wfs[w].graph;
      var _, raised := BuildAdjacency(g);
      if raised {
        assert Send(w, StartSends(g)) == [];
        return;
      }
      StartRoots(w);
    }

    /** Sends process_next_node for each node that no connection targets. */
    method StartRoots(w: nat)
      requires w < |wfs|
      modifies this`queue
      ensures var g := wfs[w].graph; queue == old(queue) + Send(w, Roots(g.connections, g.nodes))
    {
      hide IsTarget, Roots, Send;
      var g := wfs[w].graph;
      var i := 0;
      SendNone(w, g);
      while i < |g.nodes|
        invariant 0 <= i <= |g.nodes|
        invariant queue == old(queue) + Send(w, Roots(g.connections, g.nodes[..i]))
      {
        SendRootsNext(w, g.connections, g.nodes, i);
        if !IsTarget(g.connections, g.nodes[i]) {
          queue := queue + [Message(w, g.nodes[i])];
        }
        i := i + 1;
      }
      assert g.nodes[..i] == g.nodes;
    }

    /** process_next_node, up to the creation of the row. */
    method ProcessNext(i: nat) returns (row: Option<nat>)
      requires Sound(Now()) && i < |queue|
      modifies this
      ensures Now() == ProcessNextNode(old(Now()), i)
      ensures var w, n := old(queue)[i].wf, old(queue)[i].node;
        var parked := n in old(wfs)[w].graph.kind && old(wfs)[w].status == WWait;
        && queue == old(queue)[..i] + old(queue)[i + 1..]
        && wfs == (if parked then old(wfs)[w := old(wfs)[w].(current := n)] else old(wfs))
        && (row.Some? ==> row.value == |old(rows)|)
        && rows == old(rows) + if row.Some? then [Row(w, n, TInit, None, false, false, None, Created)] else []
      ensures row.Some? ==> row.value < |rows| && rows[row.value].phase == Created
    {
      var m := queue[i];
      queue := queue[..i] + queue[i + 1..];
      row := None;
      if m.node !in wfs[m.wf].graph.kind {
        hist := hist + [Dropped(m.wf, m.node)];
        return;
      }
      if wfs[m.wf].status == WWait {
        wfs := wfs[m.wf := wfs[m.wf].(current := m.node)];
        hist := hist + [Parked(m.wf, m.node)];
        return;
      }
      var ready := AreInputsReady(m.wf, m.node);
      if !ready {
        hist := hist + [Dropped(m.wf, m.node)];
        return;
      }
      row := Some(|rows|);
      rows := rows + [NewRow(m.wf, m.node)];
      hist := hist + [Accepted(m.wf, m.node)];
    }

    /** BaseTask.before_start */
    method BeforeStartOf(r: nat, worker: string)
      requires r < |rows|
      modifies this`rows
      ensures Now() == BeforeStart(old(Now()), r, worker)
      ensures rows == old(rows)[r := old(rows)[r].(status := TProgress, worker := Some(worker), phase := Running)]
    {
      rows := rows[r := rows[r].(status := TProgress, worker := Some(worker), phase := Running)];
    }

    /** The nested branch of execute_workflow_step: the child first, then the row. */
    method Nest(r: nat, g: Graph) returns (child: nat)
      requires r < |rows| && rows[r].wf < |wfs|
      modifies this
      ensures Now() == DelegateStep(old(Now()), r, g)
      ensures child == |old(wfs)| && queue == old(queue)
      ensures wfs == old(wfs) + [Workflow(g, WInit, Some(old(rows)[r].wf), old(rows)[r].node, "", false, true)]
      ensures rows == old(rows)[r := old(rows)[r].(status := TNested, phase := Delegated)]
    {
      child := |wfs|;
      wfs := wfs + [NewWorkflow(g, Some(rows[r].wf), rows[r].node)];
      rows := rows[r := rows[r].(status := TNested, phase := Delegated)];
    }

    /** The next nodes of row `r`; raises like the source on a template it cannot read or a verdict it cannot use. */
    method NextNodes(r: nat, v: Value) returns (next: Option<seq<NodeId>>)
      requires r < |rows| && rows[r].wf < |wfs|
      ensures next == Route(wfs[rows[r].wf].graph, rows[r].node, v)
    {
      var g, n := wfs[rows[r].wf].graph, rows[r].node;
      var adjacency, raised := BuildAdjacency(g);
      if raised || n !in g.kind {
        return None;
      }
      if g.kind[n].Condition? {
        if !v.Verdict? {
          return None;
        }
        var t := GetNextNodeByCondition(g, n, v.truth);
        return Some(if t.Some? && t.value != "" then [t.value] else []);
      }
      return Some(adjacency[n]);
    }

    /** Task.handle_task_success, recursing into the parent's row when the workflow closes. */
    method HandleSuccess(r: nat, v: Value) returns (raised: bool)
      requires Sound(Now()) && r < |rows|
      modifies this
      ensures old(rows)[r].status == TNested ==> Now() == old(Now()) && !raised
      ensures old(rows)[r].status != TNested ==>
        Outcome(Now(), raised) == HandleTaskSuccess(old(Now()), r, v)
      decreases rows[r].wf
    {
      if rows[r].status == TNested {
        return false;
      }
      var w, n := rows[r].wf, rows[r].node;
      rows := rows[r := rows[r].(status := TSuccess, result := Some(Stored(v)), finished := true)];
      hist := hist + [Succeeded(w, n, v)];
      var next := NextNodes(r, v);
      if next.None? {
        return true;
      }
      if next.value == [] {
        wfs := wfs[w := wfs[w].(status := WSuccess, finished := true, current := n)];
        if wfs[w].parent.None? {
          return false;
        }
        var q := Get(rows, wfs[w].parent.value, wfs[w].node);
        if q.None? {
          return true;
        }
        ghost var before := Now();
        rows := rows[q.value := rows[q.value].(status := TProgress)];
        StatusInMemory(before, q.value, TProgress, v);
        raised := HandleSuccess(q.value, v);
      } else {
        DispatchAll(w, next.value);
        return false;
      }
    }

    /** on_failure, recursing up the parents. */
    method Failed(r: nat, timedOut: bool)
      requires Sound(Now()) && r < |rows|
      modifies this
      ensures Now() == OnFailure(old(Now()), r, timedOut)
      decreases rows[r].wf
    {
      var w := rows[r].wf;
      wfs := wfs[w := wfs[w].(status := if timedOut then WTimeout else WError)];
      rows := rows[r := rows[r].(status := if timedOut then TTimeout else TError,
                                 result := Some(Value.Failure), failed := true, finished := true)];
      if wfs[w].parent.Some? {
        var q := Get(rows, wfs[w].parent.value, wfs[w].node);
        if q.Some? {
          Failed(q.value, timedOut);
        }
      }
    }

    /** The worker's end of a row: BaseTask.on_success, and on_failure when that throws. */
    method Returned(r: nat, v: Value)
      requires Sound(Now()) && r < |rows|
      modifies this
      ensures Now() == OnSuccess(old(Now()), r, v)
    {
      rows := rows[r := rows[r].(phase := Done)];
      ghost var before := Now();
      var raised := HandleSuccess(r, v);
      if raised {
        SuccessKeepsRows(before, r, v);
        Failed(r, false);
      }
    }

    lemma SuccessKeepsRows(s: State, r: nat, v: Value)
      requires Sound(s) && r < |s.rows|
      ensures r < |HandleTaskSuccess(s, r, v).state.rows| && Sound(HandleTaskSuccess(s, r, v).state)
    {
    }

    /** pause_workflow */
    method Pause(w: nat) returns (accepted: bool)
      requires w < |wfs|
      modifies this`wfs
      ensures Now() == PauseWorkflow(old(Now()), w)
      ensures wfs == if accepted then old(wfs)[w := old(wfs)[w].(status := WWait)] else old(wfs)
      ensures accepted <==> old(wfs)[w].status == WProgress
    {
      if wfs[w].status != WProgress {
        return false;
      }
      wfs := wfs[w := wfs[w].(status := WWait)];
      return true;
    }

    /** resume_workflow */
    method Resume(w: nat) returns (accepted: bool)
      requires w < |wfs|
      modifies this
      ensures Now() == ResumeWorkflow(old(Now()), w)
      ensures accepted <==>
        && old(wfs)[w].status == WWait && old(wfs)[w].current != ""
        && (forall r :: 0 <= r < |old(rows)| && old(rows)[r].wf == w ==> old(rows)[r].status != TInit && old(rows)[r].status != TProgress)
        && (forall c :: c in old(wfs)[w].graph.connections ==> c.source in old(wfs)[w].graph.kind)
      ensures rows == old(rows)
      ensures queue == old(queue) + if accepted then [Message(w, old(wfs)[w].current)] else []
    {
      if wfs[w].status != WWait {
        return false;
      }
      if exists r :: r in rows && r.wf == w && r.status in {TProgress, TInit} {
        return false;
      }
      wfs := wfs[w := wfs[w].(status := WProgress)];
      if wfs[w].current == "" {
        return false;
      }
      var _, raised := BuildAdjacency(wfs[w].graph);
      if raised {
        return false;
      }
      queue := queue + [Message(w, wfs[w].current)];
      hist := hist + [Resumed(w, wfs[w].current)];
      return true;
    }

    /** Workflow.cancel: the active rows of the workflow, one at a time, then the workflow. */
    method CancelRows(w: nat)
      requires w < |wfs|
      modifies this`rows, this`wfs
      ensures wfs == old(wfs)[w := old(wfs)[w].(status := WCanceled)]
      ensures |rows| == |old(rows)|
      ensures forall i :: 0 <= i < |rows| ==> rows[i] == CanceledFor(old(rows)[i], w)
      ensures forall i :: 0 <= i < |rows| ==>
        rows[i] == if old(rows)[i].wf == w && old(rows)[i].status in {TInit, TProgress, TNested}
                   then old(rows)[i].(status := TCanceled, finished := true) else old(rows)[i]
    {
      var i := 0;
      while i < |rows|
        invariant 0 <= i <= |rows| == |old(rows)| && wfs == old(wfs)
        invariant forall j :: 0 <= j < i ==> rows[j] == CanceledFor(old(rows)[j], w)
        invariant forall j :: i <= j < |rows| ==> rows[j] == old(rows)[j]
      {
        if rows[i].wf == w && rows[i].status in {TProgress, TInit, TNested} {
          rows := rows[i := rows[i].(status := TCanceled, finished := true)];
        }
        i := i + 1;
      }
      wfs := wfs[w := wfs[w].(status := WCanceled)];
    }

    /** The guarded cancel action. */
    method Cancel(w: nat) returns (accepted: bool)
      requires w < |wfs|
      modifies this`rows, this`wfs
      ensures Now() == CancelWorkflow(old(Now()), w)
      ensures accepted <==> old(wfs)[w].status in {WInit, WProgress, WWait}
    {
      if wfs[w].status !in {WInit, WProgress, WWait} {
        return false;
      }
      CancelRows(w);
      assert rows == CancelWorkflow(old(Now()), w).rows;
      return true;
    }

    /** Workflow.cancel for each of the selected workflows. */
    method CancelHits(hits: seq<bool>)
      requires |hits| == |wfs|
      modifies this`rows, this`wfs
      ensures |wfs| == |old(wfs)| && |rows| == |old(rows)|
      ensures forall w :: 0 <= w < |wfs| ==> wfs[w] == if hits[w] then old(wfs)[w].(status := WCanceled) else old(wfs)[w]
      ensures forall i :: 0 <= i < |rows| ==> rows[i] == SweptBefore(old(rows)[i], |wfs|, hits)
    {
      var w := 0;
      while w < |wfs|
        invariant 0 <= w <= |wfs| == |old(wfs)| && |rows| == |old(rows)|
        invariant forall x :: w <= x < |wfs| ==> wfs[x] == old(wfs)[x]
        invariant forall x :: 0 <= x < w ==> wfs[x] == if hits[x] then old(wfs)[x].(status := WCanceled) else old(wfs)[x]
        invariant forall i :: 0 <= i < |rows| ==> rows[i] == SweptBefore(old(rows)[i], w, hits)
      {
        if hits[w] {
          CancelRows(w);
        }
        w := w + 1;
      }
    }

    /** bulk_cancel: the listed workflows that are still open. */
    method BulkCancel(ids: set<nat>)
      requires Sound(Now())
      modifies this`rows, this`wfs
      ensures |wfs| == |old(wfs)| && |rows| == |old(rows)|
      ensures forall w :: 0 <= w < |wfs| ==>
        wfs[w] == if w in ids && old(wfs)[w].status in {WInit, WProgress, WWait} then old(wfs)[w].(status := WCanceled) else old(wfs)[w]
      ensures forall i :: 0 <= i < |rows| ==>
        var row := old(rows)[i];
        row.wf < |old(wfs)| && rows[i] ==
          if row.wf in ids && old(wfs)[row.wf].status in {WInit, WProgress, WWait} && row.status in {TInit, TProgress, TNested}
          then row.(status := TCanceled, finished := true) else row
    {
      var hits := seq(|wfs|, w requires 0 <= w < |wfs| reads this => Listed(wfs, ids, w));
      CancelHits(hits);
    }

    /** cancel_all_existing_tasks: the worker's open workflows first, then its remaining rows. */
    method CancelAllExistingTasks(worker: string)
      requires Sound(Now())
      modifies this`rows, this`wfs
      ensures Now() == CancelExisting(old(Now()), worker)
    {
      var hits := seq(|wfs|, w requires 0 <= w < |wfs| reads this => Hit(State(wfs, rows, [], []), worker, w));
      assert forall w :: 0 <= w < |wfs| ==> hits[w] == Hit(old(Now()), worker, w);
      hide Hit, Sound, CancelExisting, Canceled;
      CancelHits(hits);
      CancelWorkerRows(worker);
      SweptIs(old(Now()), worker, hits, wfs, rows);
    }

    /** The second pass: rows of the worker that are still active. */
    method CancelWorkerRows(worker: string)
      modifies this`rows
      ensures |rows| == |old(rows)|
      ensures forall i :: 0 <= i < |rows| ==> rows[i] == SweptRow(old(rows)[i], worker)
      ensures forall i :: 0 <= i < |rows| ==>
        rows[i] == if old(rows)[i].worker == Some(worker) && old(rows)[i].status in {TInit, TProgress, TNested}
                   then old(rows)[i].(status := TCanceled, finished := true) else old(rows)[i]
    {
      var i := 0;
      while i < |rows|
        invariant 0 <= i <= |rows| == |old(rows)|
        invariant forall j :: 0 <= j < i ==> rows[j] == SweptRow(old(rows)[j], worker)
        invariant forall j :: i <= j < |rows| ==> rows[j] == old(rows)[j]
      {
        if rows[i].status in {TProgress, TInit, TNested} && rows[i].worker == Some(worker) {
          rows := rows[i := rows[i].(status := TCanceled, finished := true)];
        }
        i := i + 1;
      }
    }
  }

  /** What the two passes leave is what the specification says. */
  lemma SweptIs(s: State, worker: string, hits: seq<bool>, wfs: seq<Workflow>, rows: seq<Row>)
    requires Sound(s) && |hits| == |s.wfs| == |wfs| && |rows| == |s.rows|
    requires forall w :: 0 <= w < |wfs| ==> hits[w] == Hit(s, worker, w)
    requires forall w :: 0 <= w < |wfs| ==> wfs[w] == if hits[w] then s.wfs[w].(status := WCanceled) else s.wfs[w]
    requires forall i :: 0 <= i < |rows| ==> rows[i] == SweptRow(SweptBefore(s.rows[i], |wfs|, hits), worker)
    ensures wfs == CancelExisting(s, worker).wfs && rows == CancelExisting(s, worker).rows
  {
    hide Hit, Grows;
  }

  function SweptRow(r: Row, worker: string): Row {
    if Active(r.status) && r.worker == Some(worker) then Canceled(r) else r
  }

  function SweptBefore(r: Row, w: nat, hits: seq<bool>): Row {
    if Active(r.status) && r.wf < w && r.wf < |hits| && hits[r.wf] then Canceled(r) else r
  }
}
