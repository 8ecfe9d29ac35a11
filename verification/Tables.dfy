/** The database tables and the message queue the engine's handlers share. */
module Tables {
  import opened Wrappers
  import opened Graphs

  /** Workflow.STATUS_* */
  datatype WorkflowStatus = WInit | WProgress | WWait | WSuccess | WError | WTimeout | WCanceled

  /** Task.STATUS_* */
  datatype TaskStatus = TInit | TProgress | TNested | TSuccess | TError | TTimeout | TCanceled

  /** Where a worker is with a row: created but not begun, running, delegated to a child, or finished. */
  datatype Phase = Created | Running | Delegated | Done

  /** The null and the empty `current` are one value, as both are falsy wherever it is read. */
  datatype Workflow = Workflow(
    graph: Graph, status: WorkflowStatus, parent: Option<nat>, node: NodeId,
    current: NodeId, finished: bool, pending: bool)

  datatype Row = Row(
    wf: nat, node: NodeId, status: TaskStatus, result: Option<Value>,
    failed: bool, finished: bool, worker: Option<string>, phase: Phase)

  /** A queued call of process_next_node. */
  datatype Message = Message(wf: nat, node: NodeId)

  /** What happened to a workflow, in order. */
  datatype Entry =
    | Started(wf: nat)
    | Parked(wf: nat, node: NodeId)
    | Dropped(wf: nat, node: NodeId)
    | Accepted(wf: nat, node: NodeId)
    | Succeeded(wf: nat, node: NodeId, value: Value)
    | Resumed(wf: nat, node: NodeId)

  datatype State = State(wfs: seq<Workflow>, rows: seq<Row>, queue: seq<Message>, hist: seq<Entry>)

  const Empty := State([], [], [], [])

  predicate Active(st: TaskStatus) {
    st in {TInit, TProgress, TNested}
  }

  predicate IsAt(r: Row, w: nat, n: NodeId) {
    r.wf == w && r.node == n
  }

  /** Row `i` is the only row of node `n` in workflow `w`. */
  ghost predicate Only(rows: seq<Row>, w: nat, n: NodeId, i: int) {
    && 0 <= i < |rows| && IsAt(rows[i], w, n)
    && forall j :: 0 <= j < |rows| && IsAt(rows[j], w, n) ==> j == i
  }

  /** Exactly one row, in SUCCESS. */
  ghost predicate Settled(rows: seq<Row>, w: nat, n: NodeId) {
    exists i :: Only(rows, w, n, i) && rows[i].status == TSuccess
  }

  /** `Task.objects.get(workflow, node_id)`: the one matching row; none and several both raise. */
  function Get(rows: seq<Row>, w: nat, n: NodeId): (r: Option<nat>)
    ensures r.Some? <==> exists i :: Only(rows, w, n, i)
    ensures r.Some? ==> Only(rows, w, n, r.value)
  {
    if rows == [] then None
    else
      var k := |rows| - 1;
      var before := Get(rows[..k], w, n);
      assert forall j :: 0 <= j < k ==> rows[..k][j] == rows[j];
      assert forall i :: Only(rows[..k], w, n, i) && !IsAt(rows[k], w, n) ==> Only(rows, w, n, i);
      assert forall i :: Only(rows, w, n, i) && i < k ==> Only(rows[..k], w, n, i);
      if IsAt(rows[k], w, n) then
        if Missing(rows[..k], w, n) then
          assert Only(rows, w, n, k);
          Some(k)
        else
          assert exists j :: 0 <= j < k && IsAt(rows[j], w, n);
          None
      else before
  }

  predicate Missing(rows: seq<Row>, w: nat, n: NodeId) {
    forall r :: r in rows ==> !IsAt(r, w, n)
  }

  /** The number of rows of node `n` in workflow `w`. */
  function CountRows(rows: seq<Row>, w: nat, n: NodeId): nat {
    if rows == [] then 0
    else CountRows(rows[..|rows| - 1], w, n) + if IsAt(rows[|rows| - 1], w, n) then 1 else 0
  }

  /** The number of queued messages for node `n` of workflow `w`. */
  function CountQueued(queue: seq<Message>, w: nat, n: NodeId): nat {
    if queue == [] then 0
    else CountQueued(queue[..|queue| - 1], w, n) + if queue[|queue| - 1] == Message(w, n) then 1 else 0
  }

  /** are_inputs_ready: every input node has exactly one row, and it succeeded. */
  predicate Ready(rows: seq<Row>, g: Graph, w: nat, n: NodeId) {
    forall c :: c in g.connections && c.target == n ==>
      var i := Get(rows, w, c.source);
      i.Some? && rows[i.value].status == TSuccess
  }

  /** Parents predate children and every reference is to an existing workflow. */
  ghost predicate Sound(s: State) {
    && (forall w :: 0 <= w < |s.wfs| ==> s.wfs[w].parent.Some? ==> s.wfs[w].parent.value < w)
    && (forall i :: 0 <= i < |s.rows| ==> s.rows[i].wf < |s.wfs|)
    && (forall i :: 0 <= i < |s.queue| ==> s.queue[i].wf < |s.wfs|)
  }

  /** Identities never change, nothing is forgotten. */
  ghost predicate Grows(s: State, t: State) {
    && |s.wfs| <= |t.wfs|
    && (forall w :: 0 <= w < |s.wfs| ==>
         t.wfs[w].graph == s.wfs[w].graph && t.wfs[w].parent == s.wfs[w].parent && t.wfs[w].node == s.wfs[w].node)
    && |s.rows| <= |t.rows|
    && (forall r :: 0 <= r < |s.rows| ==> IsAt(t.rows[r], s.rows[r].wf, s.rows[r].node))
    && |s.hist| <= |t.hist| && t.hist[..|s.hist|] == s.hist
  }
}
