/**
 * What each handler does to the tables and the queue, the events that call them, and runs.
 * The class in Engine.dfy carries the handlers out step by step and is proved equal to this.
 */
module Protocol {
  import opened Wrappers
  import opened Graphs
  import opened Tables

  function Send(w: nat, ids: seq<NodeId>): (ms: seq<Message>)
    ensures |ms| == |ids| && forall i :: 0 <= i < |ids| ==> ms[i] == Message(w, ids[i])
  {
    seq(|ids|, i requires 0 <= i < |ids| => Message(w, ids[i]))
  }

  /** The value stored for a returned one: falsy values are replaced by a message. */
  function Stored(v: Value): Value {
    if v.Nothing? then Value.Notice else v
  }

  /** The nodes execute_workflow_v2 starts; it raises before sending when a source is unknown. */
  function StartSends(g: Graph): seq<NodeId> {
    if SourcesKnown(g) then Roots(g.connections, g.nodes) else []
  }

  function NewWorkflow(g: Graph, parent: Option<nat>, node: NodeId): Workflow {
    Workflow(g, WInit, parent, node, "", false, true)
  }

  /** execute_workflow_v2 */
  function ExecuteWorkflow(s: State, w: nat): (t: State)
    requires w < |s.wfs|
    ensures Grows(s, t)
    ensures Sound(s) ==> Sound(t)
  {
    s.(wfs := s.wfs[w := s.wfs[w].(status := WProgress, pending := false)],
       queue := s.queue + Send(w, StartSends(s.wfs[w].graph)),
       hist := s.hist + [Started(w)])
  }

  function NewRow(w: nat, n: NodeId): Row {
    Row(w, n, TInit, None, false, false, None, Created)
  }

  /** process_next_node, up to the creation of the row. */
  function ProcessNextNode(s: State, i: nat): (t: State)
    requires Sound(s) && i < |s.queue|
    ensures Grows(s, t)
    ensures Sound(s) ==> Sound(t)
  {
    var w, n := s.queue[i].wf, s.queue[i].node;
    var wf := s.wfs[w];
    var t := s.(queue := s.queue[..i] + s.queue[i + 1..]);
    if n !in wf.graph.kind then
      t.(hist := s.hist + [Dropped(w, n)])
    else if wf.status == WWait then
      t.(wfs := s.wfs[w := wf.(current := n)], hist := s.hist + [Parked(w, n)])
    else if !Ready(s.rows, wf.graph, w, n) then
      t.(hist := s.hist + [Dropped(w, n)])
    else
      t.(rows := s.rows + [NewRow(w, n)], hist := s.hist + [Accepted(w, n)])
  }

  /** BaseTask.before_start */
  function BeforeStart(s: State, r: nat, worker: string): (t: State)
    requires r < |s.rows|
    ensures Grows(s, t)
    ensures Sound(s) ==> Sound(t)
  {
    s.(rows := s.rows[r := s.rows[r].(status := TProgress, worker := Some(worker), phase := Running)])
  }

  /** The nested branch of execute_workflow_step. */
  function DelegateStep(s: State, r: nat, g: Graph): (t: State)
    requires r < |s.rows|
    ensures Grows(s, t)
    ensures Sound(s) ==> Sound(t)
  {
    s.(wfs := s.wfs + [NewWorkflow(g, Some(s.rows[r].wf), s.rows[r].node)],
       rows := s.rows[r := s.rows[r].(status := TNested, phase := Delegated)])
  }

  /** The worker lets go of the row. */
  function Stop(s: State, r: nat): (t: State)
    requires r < |s.rows|
    ensures Grows(s, t)
    ensures Sound(s) ==> Sound(t)
  {
    s.(rows := s.rows[r := s.rows[r].(phase := Done)])
  }

  function Mark(s: State, r: nat, v: Value): (t: State)
    requires r < |s.rows|
    ensures Grows(s, t)
    ensures Sound(s) ==> Sound(t)
  {
    var row := s.rows[r];
    s.(rows := s.rows[r := row.(status := TSuccess, result := Some(Stored(v)), finished := true)],
       hist := s.hist + [Succeeded(row.wf, row.node, v)])
  }

  function Close(s: State, w: nat, n: NodeId): (t: State)
    requires w < |s.wfs|
    ensures Grows(s, t)
    ensures Sound(s) ==> Sound(t)
  {
    s.(wfs := s.wfs[w := s.wfs[w].(status := WSuccess, finished := true, current := n)])
  }

  function Dispatch(s: State, w: nat, next: seq<NodeId>): (t: State)
    requires w < |s.wfs|
    ensures Grows(s, t)
    ensures Sound(s) ==> Sound(t)
  {
    s.(queue := s.queue + Send(w, Existing(s.wfs[w].graph, next)))
  }

  /** One activation of handle_task_success: the row, then its own workflow. */
  function Frame(s: State, r: nat, v: Value): (t: State)
    requires Sound(s) && r < |s.rows|
    ensures Grows(s, t)
    ensures Sound(s) ==> Sound(t)
  {
    var w, n := s.rows[r].wf, s.rows[r].node;
    match Route(s.wfs[w].graph, n, v)
    case None => Mark(s, r, v)
    case Some(next) =>
      if next == [] then Close(Mark(s, r, v), w, n) else Dispatch(Mark(s, r, v), w, next)
  }

  datatype Outcome = Outcome(state: State, raised: bool)

  /** The row standing for workflow `w` in its parent, if there is exactly one. */
  function ParentRow(s: State, w: nat): (q: Option<nat>)
    requires w < |s.wfs|
    ensures q.Some? ==> s.wfs[w].parent.Some? && Only(s.rows, s.wfs[w].parent.value, s.wfs[w].node, q.value)
  {
    if s.wfs[w].parent.None? then None else Get(s.rows, s.wfs[w].parent.value, s.wfs[w].node)
  }

  /** handle_task_success for a row that is not waiting for a child; `raised` when it throws. */
  function HandleTaskSuccess(s: State, r: nat, v: Value): (o: Outcome)
    requires Sound(s) && r < |s.rows|
    ensures Sound(o.state) && |o.state.rows| == |s.rows|
    ensures Grows(s, o.state)
    decreases s.rows[r].wf
  {
    var w := s.rows[r].wf;
    var next := Route(s.wfs[w].graph, s.rows[r].node, v);
    var t := Frame(s, r, v);
    if next.None? then
      Outcome(t, true)
    else if next.value != [] || s.wfs[w].parent.None? then
      Outcome(t, false)
    else
      match ParentRow(t, w)
      case None => Outcome(t, true)
      case Some(q) => HandleTaskSuccess(t, q, v)
  }

  function Fail(s: State, r: nat, timedOut: bool): (t: State)
    requires Sound(s) && r < |s.rows|
    ensures Grows(s, t)
    ensures Sound(s) ==> Sound(t)
  {
    var w := s.rows[r].wf;
    s.(wfs := s.wfs[w := s.wfs[w].(status := if timedOut then WTimeout else WError)],
       rows := s.rows[r := s.rows[r].(status := if timedOut then TTimeout else TError,
                                      result := Some(Value.Failure), failed := true, finished := true)])
  }

  /** on_failure, from the failed row up the chain of parents. */
  function OnFailure(s: State, r: nat, timedOut: bool): (t: State)
    requires Sound(s) && r < |s.rows|
    ensures Sound(t) && |t.rows| == |s.rows|
    ensures Grows(s, t)
    decreases s.rows[r].wf
  {
    var t := Fail(s, r, timedOut);
    match ParentRow(t, s.rows[r].wf)
    case None => t
    case Some(q) => OnFailure(t, q, timedOut)
  }

  /** The end of a row's execution with a returned value: BaseTask.on_success and, if it throws, on_failure. */
  function OnSuccess(s: State, r: nat, v: Value): (t: State)
    requires Sound(s) && r < |s.rows|
    ensures Grows(s, t)
    ensures Sound(s) ==> Sound(t)
  {
    if s.rows[r].status == TNested then
      Stop(s, r)
    else
      var o := HandleTaskSuccess(Stop(s, r), r, v);
      if o.raised then OnFailure(o.state, r, false) else o.state
  }

  /** The end of a row's execution with an exception. */
  function OnRaise(s: State, r: nat, timedOut: bool): (t: State)
    requires Sound(s) && r < |s.rows|
    ensures Grows(s, t) && Sound(t)
  {
    OnFailure(Stop(s, r), r, timedOut)
  }

  /** pause_workflow */
  function PauseWorkflow(s: State, w: nat): (t: State)
    requires w < |s.wfs|
    ensures Grows(s, t)
    ensures Sound(s) ==> Sound(t)
  {
    if s.wfs[w].status != WProgress then s
    else s.(wfs := s.wfs[w := s.wfs[w].(status := WWait)])
  }

  predicate Busy(s: State, w: nat) {
    exists r :: r in s.rows && r.wf == w && r.status in {TProgress, TInit}
  }

  /** resume_workflow */
  function ResumeWorkflow(s: State, w: nat): (t: State)
    requires w < |s.wfs|
    ensures Grows(s, t)
    ensures Sound(s) ==> Sound(t)
  {
    var wf := s.wfs[w];
    if wf.status != WWait || Busy(s, w) then s
    else
      var t := s.(wfs := s.wfs[w := wf.(status := WProgress)]);
      if wf.current == "" || !SourcesKnown(wf.graph) then t
      else t.(queue := s.queue + [Message(w, wf.current)], hist := s.hist + [Resumed(w, wf.current)])
  }

  function Canceled(r: Row): Row {
    r.(status := TCanceled, finished := true)
  }

  /** The guarded cancel action with Workflow.cancel. */
  function CancelWorkflow(s: State, w: nat): (t: State)
    requires w < |s.wfs|
    ensures Grows(s, t)
    ensures Sound(s) ==> Sound(t)
  {
    if s.wfs[w].status !in {WInit, WProgress, WWait} then s
    else
      s.(wfs := s.wfs[w := s.wfs[w].(status := WCanceled)],
         rows := seq(|s.rows|, i requires 0 <= i < |s.rows| =>
           if s.rows[i].wf == w && Active(s.rows[i].status) then Canceled(s.rows[i]) else s.rows[i]))
  }

  /** Workflow `w` is open and owns a begun or initial row of the worker. */
  predicate Hit(s: State, worker: string, w: nat)
    requires w < |s.wfs|
  {
    && s.wfs[w].status in {WProgress, WInit}
    && exists r :: r in s.rows && r.wf == w && r.worker == Some(worker) && r.status in {TProgress, TInit}
  }

  /** cancel_all_existing_tasks */
  function CancelExisting(s: State, worker: string): (t: State)
    requires Sound(s)
    ensures Grows(s, t)
    ensures Sound(s) ==> Sound(t)
  {
    s.(wfs := seq(|s.wfs|, w requires 0 <= w < |s.wfs| =>
         if Hit(s, worker, w) then s.wfs[w].(status := WCanceled) else s.wfs[w]),
       rows := seq(|s.rows|, i requires 0 <= i < |s.rows| =>
         if Active(s.rows[i].status) && (Hit(s, worker, s.rows[i].wf) || s.rows[i].worker == Some(worker))
         then Canceled(s.rows[i]) else s.rows[i]))
  }

  datatype Event =
    | Launch(graph: Graph)
    | Start(wf: nat)
    | Deliver(message: nat)
    | Begin(row: nat, worker: string)
    | Delegate(row: nat, graph: Graph)
    | Return(row: nat, value: Value)
    | Raise(row: nat, timedOut: bool)
    | Kill(row: nat)
    | Pause(wf: nat)
    | Resume(wf: nat)
    | Cancel(wf: nat)
    | Sweep(worker: string)

  /**
   * Any pending start, any queued message and any row a worker holds may go next. A row whose step
   * was delegated returns nothing; a row may fail, or vanish with its worker, at any time.
   */
  ghost predicate Enabled(s: State, e: Event) {
    match e
    case Launch(g) => Keyed(g)
    case Start(w) => w < |s.wfs| && s.wfs[w].pending
    case Deliver(i) => i < |s.queue|
    case Begin(r, _) => r < |s.rows| && s.rows[r].phase == Created
    case Delegate(r, g) =>
      && Keyed(g) && r < |s.rows| && s.rows[r].phase == Running && s.rows[r].wf < |s.wfs|
      && var kind := s.wfs[s.rows[r].wf].graph.kind;
         s.rows[r].node in kind && kind[s.rows[r].node].Call?
    case Return(r, v) => r < |s.rows| && (s.rows[r].phase == Running || (s.rows[r].phase == Delegated && v.Nothing?))
    case Raise(r, _) => r < |s.rows| && s.rows[r].phase != Done
    case Kill(r) => r < |s.rows| && s.rows[r].phase != Done
    case Pause(w) => w < |s.wfs|
    case Resume(w) => w < |s.wfs|
    case Cancel(w) => w < |s.wfs|
    case Sweep(_) => true
  }

  function LaunchWorkflow(s: State, g: Graph): (t: State)
    ensures Grows(s, t)
    ensures Sound(s) ==> Sound(t)
  {
    s.(wfs := s.wfs + [NewWorkflow(g, None, "")])
  }

  ghost function Step(s: State, e: Event): (t: State)
    requires Sound(s) && Enabled(s, e)
    ensures Sound(t)
    ensures Grows(s, t)
  {
    hide ExecuteWorkflow, ProcessNextNode, BeforeStart, DelegateStep, OnSuccess, OnRaise, Stop,
      PauseWorkflow, ResumeWorkflow, CancelWorkflow, CancelExisting, LaunchWorkflow, Grows;
    match e
    case Launch(g) => LaunchWorkflow(s, g)
    case Start(w) => ExecuteWorkflow(s, w)
    case Deliver(i) => ProcessNextNode(s, i)
    case Begin(r, worker) => BeforeStart(s, r, worker)
    case Delegate(r, g) => DelegateStep(s, r, g)
    case Return(r, v) => OnSuccess(s, r, v)
    case Raise(r, timedOut) => OnRaise(s, r, timedOut)
    case Kill(r) => Stop(s, r)
    case Pause(w) => PauseWorkflow(s, w)
    case Resume(w) => ResumeWorkflow(s, w)
    case Cancel(w) => CancelWorkflow(s, w)
    case Sweep(worker) => CancelExisting(s, worker)
  }

  /** `es` leads from `s` to `t`, every event enabled when it happens. */
  ghost predicate Leads(s: State, es: seq<Event>, t: State)
    decreases |es|
  {
    if es == [] then s == t
    else Sound(s) && Enabled(s, es[0]) && Leads(Step(s, es[0]), es[1..], t)
  }

  ghost predicate Reachable(s: State) {
    exists es :: Leads(Empty, es, s)
  }
}
