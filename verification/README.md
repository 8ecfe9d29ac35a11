# A verified model of the workflow engine

Dafny model of a workflow service that runs graphs of nodes over a Celery queue, with proofs about
whole runs of it, and of five smaller parts of the same service.

## The workflow engine

A workflow template is a graph: nodes of three kinds (user code, condition, call of another
workflow) and connections. Running it is a protocol between handlers that share two database tables
and a queue of messages. `execute_workflow_v2` sends a message for each node that no connection
targets; `process_next_node` takes a message and parks it, drops it or creates a task row;
`handle_task_success` marks the row and sends a message per outgoing connection, or for the branch a
condition chose, or closes the workflow and completes the row of the parent that stands for it;
`on_failure` marks a row, its workflow and the rows up the chain of parents. Pausing, resuming,
cancelling and the cleanup after a dead worker interleave with all of this.

- `Graphs`, `Tables`: the template, the tables, the queue and a history of what happened.
- `Protocol`: what each handler does to that state, as functions, and the step relation: any pending
  start, any queued message and any row held by a worker may go next, and a row may return, raise or
  vanish with its worker at any time. `Leads` and `Reachable` speak of whole runs.
- `Engine`: the handlers as they run, a class whose methods loop, build dictionaries, save records
  and recurse; each method is proved equal to its function in `Protocol`.
- `Effects`: what single handlers do, written in the fields of the tables.
- `Moves`: every event is a chain of moves of one row each, so that invariants are proved once per move.
- `Safety`, `WakeUps`, `Conservation`, `Bounds`, `Runs`, `Paths`, `PathCounts`, `Dispatches`: invariants
  of every reachable state and what follows for runs: order, completeness, conservation, bounds, coverage.
- `Schedules`, `Choices`, `Repeats`, `Hangs`, `Drains`: interleavings constructed for any template,
  which make the side conditions of those results exact, and the runs that bring a workflow to its end.
- `Nesting`: completion and failure through chains of nested workflows of any depth.
- `Tokens`, `PauseResume`, `StaleResumes`, `NestedLines`: pausing and resuming a linear workflow.
- `Cancellation`: what worker cleanup reaches, and when a cancel is final.

Two of the methods are one record update each: `BeforeStartOf` (workflow/tasks/base.py:170-185) and
`Nest` (workflow/tasks/workflows.py:247-275).

### What the runs do and do not guarantee

Some things one might expect of the engine are false. For each the failing run is constructed and
the condition under which it cannot happen is proved:

- SUCCESS means "all nodes completed" exactly for those templates in which, whatever the conditions
  answer, no part that can complete alone and ends leaves a node out (`Choices.CompletenessIffCourses`);
  without condition nodes these are the templates with one sink (`Schedules.CompletenessIffOneSink`).
  Any node without a next node closes the workflow.
- On a template without condition nodes, in runs without a resume, every node runs at most once exactly
  when no node has two connections into it and nothing follows a call (`Repeats.OnceIffForest`). A join gets a message per finished input
  and each one can find all inputs ready. A row that called another workflow can complete twice, once
  when the called workflow closes and once when its own worker returns after that, and each time it
  sends its successors (`Repeats.CallRunsTwice`).
- A node that ran twice never lets a node it feeds get another row (`Hangs.DoubledBlocks`). So in a
  single-sink template a join that is not last, or a node between a call and a further node, can hang
  the workflow for good without any failure (`Hangs.JoinHangs`, `Hangs.CallHangs`). On a single-sink
  template without calls and conditions, every run without failure or pause can still reach SUCCESS exactly when the
  template has a node and only its last may be a join (`Drains.FinishesIffJoinsLast`).
- A resume keeps the single token of a line exactly when no message is still queued or no node was
  left behind by an earlier pause (`PauseResume.ResumeKeepsTokenExactly`). Otherwise it queues the node
  left behind, which may be done already, beside the token's message, and that node can run twice
  (`StaleResumes.IllTimedResume`); on every line of two nodes or more this can stop the second node,
  and so the workflow, for ever (`StaleResumes.StaleResumeHangs`).
- An accepted cancel of a workflow without children is final, whatever happens afterwards, exactly when
  the workflow was started, no worker holds a row of it, and no queued message of it is ready
  (`Cancellation.CancelFinalIffExhausted`). On every condition-free template with a node some run
  without failure gets a new row and SUCCESS after an accepted cancel (`Cancellation.CanceledRunSucceeds`).
- A task that returned ends in ERROR exactly when the climb of its success through last nodes stops
  at a node whose routing raises, or at a nested workflow that no unique parent row stands for; then
  everything up the chain is in ERROR, also what the climb had closed (`Nesting.ReturnOutcome`). On every
  condition-free template whose join calls a workflow some run gets there without any failure
  (`Repeats.JoinedCallErrs`).

## The smaller parts

- `ErrorPaths`, `ErrorRoundTrip`, `Texts`: flattening a tree of validation errors into dotted names.
  Names are the places of the leaves exactly for trees in which a list directly inside a list
  numbers nothing (`ErrorRoundTrip.NamesIffStraight`): the running index of the outer list is handed
  down, so an inner list continues its numbering.
- `FieldNames`: naming the fields of a tree of serializers. Replacing the last part of a serializer's
  name finds its field for any names whatever, exactly when the key of non-field errors holds no
  separator (`FieldNames.FieldNameIffFreeKey`).
- `StorageSync`: copying one module path from remote to local storage. The rest of the disk is left
  alone exactly when the path has at most four names or no file is wanted (`StorageSync.RestAloneIffShallow`).
- `StageLinks`: the chain of a version 1 workflow. The check of a group's type raises when there is no
  type and accepts every type there is; a failure hook takes the predecessors away from the success hook.
- `SettingsCache`: the package settings object with its cached attributes.

## Model

| member | source | states |
|---|---|---|
| Graphs.Targets | workflow/models.py:510-512 | A node's entry of the adjacency list holds exactly the targets of its connections |
| Graphs.Chosen | workflow/utils.py:278-287 | The target of the first connection that leaves the node by the chosen output, none exactly when there is no such connection |
| Graphs.Route | workflow/models.py:522-531 | Next nodes are reached by connections, a condition has at most one, and routing succeeds only when all sources are known |
| Effects.VerdictFollowed | workflow/utils.py:270-287 | A condition that returned true sends exactly one message, to the target of its first connection with output "out_true", and one that returned false by "out_false", exactly when that target exists; it closes its workflow exactly when there is no such connection or its target is the empty id |
| Effects.NoVerdictRaises | workflow/utils.py:270-276 | A condition that returned anything without a result raises, with its row in SUCCESS and nothing sent or closed |
| Effects.ResultCarried | workflow/models.py:494-500 | The returned row and every row its success climbs to keep the returned value, or the notice for a falsy one, unless the return ends in ERROR |
| Effects.NestedReturnWaits | workflow/models.py:488-492 | A row waiting for its child stays as it is when its worker returns |
| Effects.ResumeExactly | workflow/views.py:289-341 | A workflow leaves WAIT exactly when none of its rows is INIT or PROGRESS, nested rows not counting; then exactly the node left behind is sent, if there is one and the template can be read |
| Graphs.Existing | workflow/models.py:566-572 | Exactly the listed nodes that exist are dispatched |
| Graphs.Roots | workflow/tasks/workflows.py:352-354 | Start nodes are exactly the nodes that no connection targets |
| Tables.Get | workflow/utils.py:241-241 | The lookup of a node's row succeeds exactly when there is one such row, and returns it |
| Engine.BuildAdjacency | workflow/models.py:507-512 | Raises exactly when a connection starts at an unknown node; otherwise every node's entry lists its targets in order |
| Engine.GetNextNodeByCondition | workflow/utils.py:254-287 | The scan with early return finds the target of the first connection leaving by "out_true" for true and "out_false" for false, none exactly when there is none |
| Engine.Manager.AreInputsReady | workflow/utils.py:229-251 | The scan answers whether every input has exactly one row and that row is SUCCESS |
| Engine.Manager.ExecuteWorkflowV2 | workflow/tasks/workflows.py:315-372 | PROGRESS, then one message per start node in order; only the status when the adjacency list cannot be built |
| Engine.Manager.StartRoots | workflow/tasks/workflows.py:357-370 | The queue grows by exactly the start nodes in order |
| Engine.Manager.DispatchAll | workflow/models.py:566-592 | The queue grows by exactly the existing next nodes in order |
| Engine.Manager.ProcessNext | workflow/tasks/workflows.py:376-480 | Takes the message, then parks it, drops it, or creates one INIT row, in that order of checks; nothing else changes |
| Engine.Manager.NextNodes | workflow/models.py:506-531 | Equals the routing function, with none where the source raises |
| Engine.Manager.HandleSuccess | workflow/models.py:487-592 | Equals the specified completion, including the recursion into parents and the raising cases; a nested row is left alone |
| Engine.Manager.Failed | workflow/tasks/base.py:66-105 | Equals the specified failure, including the recursion up the parents |
| Engine.Manager.Returned | workflow/tasks/base.py:190-201 | The end of a returned row: completion, then failure handling when completion raises |
| Engine.Manager.Pause | workflow/views.py:256-271 | WAIT exactly when in progress |
| Engine.Manager.Resume | workflow/views.py:283-351 | Accepted exactly when waiting, with no row INIT or PROGRESS, a node parked and a readable template; then exactly that node is sent |
| Engine.Manager.CancelRows | workflow/models.py:287-296 | Exactly the active rows of the workflow become CANCELED and finished, and the workflow CANCELED |
| Engine.Manager.Cancel | workflow/views.py:206-215 | The guarded cancel changes nothing outside the three open statuses |
| Engine.Manager.BulkCancel | workflow/views.py:223-234 | Exactly the listed open workflows and their active rows are cancelled |
| Engine.Manager.CancelAllExistingTasks | workflow/system.py:325-356 | The two passes amount to the specified cleanup of a worker |
| Engine.Manager.CancelWorkerRows | workflow/system.py:339-354 | The second pass cancels exactly the worker's active rows |
| Moves.RunMoves | workflow/models.py:487-592 | Every run is a chain of moves of one row each |
| Safety.MoveTyped | workflow/tasks/workflows.py:460-477 | Every move keeps references valid and nodes within their graphs |
| Safety.MoveFresh | workflow/tasks/workflows.py:323-331 | Every move keeps: a workflow whose start is pending has no rows, messages or history |
| Safety.MoveCausal | workflow/utils.py:234-251 | Every move keeps: rows were accepted, successes follow acceptances, acceptances follow the successes of all inputs |
| Safety.MoveClosing | workflow/models.py:533-543 | Every move keeps: a workflow in SUCCESS recorded the success of a node with nothing to follow |
| Runs.ReachableInvariant | workflow/tasks/workflows.py:376-397 | All invariants hold in every reachable state |
| Runs.DependencyOrder | workflow/utils.py:234-251 | When a row is created, every ancestor of its node has already succeeded |
| Safety.RowIffInputsSettled | workflow/tasks/workflows.py:386-477 | Taking a message makes a row exactly when its node is known, the workflow is not waiting, and every direct predecessor has exactly one row, in SUCCESS |
| Safety.DeliverCausal | workflow/tasks/workflows.py:395-477 | Taking a message keeps the order of acceptances and successes |
| Safety.MoveChildren | workflow/tasks/workflows.py:247-256 | Every move keeps: a nested workflow stands at a calling node of its parent |
| Runs.Finisher | workflow/models.py:533-543 | The success that closed a condition-free workflow was of a sink that had been accepted |
| Runs.SingleSinkCompleteness | workflow/models.py:510-544 | On acyclic, condition-free, single-sink graphs SUCCESS implies that every node succeeded, in every interleaving |
| Runs.DispatchConservation | workflow/models.py:566-592 | Messages sent to a node equal messages queued plus taken, and rows are among the taken |
| Dispatches.DispatchExactly | workflow/models.py:522-592 | Without resume, queued plus taken equals one per start, one per connection and success of a plain predecessor, one per success of a condition that chose the node |
| Dispatches.OneDispatch | workflow/models.py:522-531 | What one recorded happening sends to a node |
| Paths.SuccessSends | workflow/models.py:510-531 | A success of a plain node sends one message per connection, of a condition at most one in all |
| Paths.StartSendsOnce | workflow/tasks/workflows.py:353-370 | Each start node is sent exactly one message, others none |
| Runs.CausalBacking | workflow/utils.py:268-287 | Every queued or created node, in runs with resumes too, lies at the end of a path from a start node fired by recorded successes |
| Runs.NoReadyNodeForgotten | workflow/utils.py:234-251 | In a started, never parked workflow a node whose inputs all succeeded and lead to it has a row or a message |
| WakeUps.MoveWakes | workflow/models.py:494-592 | Every move keeps that no ready node is forgotten |
| WakeUps.WokenReady | workflow/utils.py:238-251 | Inputs that feed a node make the readiness check succeed |
| Conservation.MoveConserved | workflow/models.py:566-592 | Every move keeps the balance of sent, queued and taken messages |
| Bounds.MoveAccounted | workflow/tasks/workflows.py:460-480 | Every move keeps: one row per acceptance, at most one success per row of a node that calls no workflow, one start |
| Paths.PathBound | workflow/models.py:566-592 | Without resume, messages and rows of a node with no call before it are at most the paths to it from start nodes |
| PathCounts.RoutesCounted | workflow/tasks/workflows.py:345-354 | The path count of a node is the number of its routes |
| PathCounts.RoutesExact | workflow/tasks/workflows.py:345-354 | Its routes are exactly the sequences of connections, each starting where the one before ends, from a start node to it |
| Paths.Termination | workflow/tasks/workflows.py:375-397 | Where calls come last and nothing is resumed, a start takes at most as many messages as there are paths from start nodes, counted over all nodes |
| Paths.OnceAt | workflow/tasks/workflows.py:460-480 | Without resume, a node with neither join nor call up to it has at most one message or row in total |
| Paths.ForestOnce | workflow/tasks/workflows.py:460-480 | So has every node where no node has two connections into it and calls come last |
| Paths.CoverageAt | workflow/models.py:529-592 | A drained, condition-free, never resumed workflow has exactly one row, in SUCCESS, for every node with neither join nor call up to it |
| Paths.ForestCoverage | workflow/models.py:529-592 | So it has for every node of a forest in which calls come last |
| Orders.RankingOf | workflow/models.py:510-512 | An acyclic graph has a ranking along its connections |
| Orders.ReachesSink | workflow/models.py:533-533 | Every node of an acyclic graph leads to a node without successors |
| Schedules.RunAlone | workflow/tasks/workflows.py:375-480 | On condition-free templates any set of nodes closed under predecessors can be run alone, each node once |
| Schedules.CompletenessIffOneSink | workflow/models.py:533-544 | On condition-free templates SUCCESS implies completeness in every run exactly when the graph has one sink |
| Choices.RunCourse | workflow/utils.py:268-287 | For any answers of the conditions, any node set closed under predecessors in which each target is fired by a member can be run alone |
| Choices.ReachableSingle | workflow/utils.py:234-251 | When a row is made, each input that calls no workflow has succeeded at most once |
| Choices.ClosedCourse | workflow/models.py:522-544 | What a closed workflow completed up to its end is such a set for the verdicts recorded |
| Choices.CompletenessIffCourses | workflow/models.py:522-544 | With conditions too, SUCCESS implies completeness in every run exactly when, whatever they answer, no such set that holds an ending node leaves a node out |
| Schedules.EarlyClose | workflow/models.py:533-544 | With two sinks and no conditions some run closes with a node that never ran |
| Schedules.JoinRunsTwice | workflow/utils.py:238-250 | On condition-free templates any node with two connections into it can run twice |
| Repeats.CallCompletesTwice | workflow/models.py:487-560 | A calling row can complete once for its child and once for its own return, and sends its successors both times |
| Repeats.CallRunsTwice | workflow/models.py:546-592 | On condition-free templates a node after a call, and after nothing else, can run twice without failure, pause or resume |
| Repeats.JoinedCallErrs | workflow/models.py:551-560 | On every condition-free template whose join calls a workflow some run, in which nothing fails, ends with a task that returned, and its workflow, in ERROR |
| Repeats.OnceIffForest | workflow/models.py:546-592 | On condition-free templates every never resumed run runs every node at most once exactly when no node has two connections into it and nothing follows a call |
| Hangs.DoubledBlocks | workflow/utils.py:241-250 | Once a node has two rows no event makes another row for a node it feeds |
| Hangs.JoinHangs | workflow/utils.py:238-251 | In a single-sink, condition-free graph with a join that is not last some run reaches a state from which it can never succeed |
| Hangs.CallHangs | workflow/utils.py:238-251 | So it does, without any join, where a node stands between a call and a further node, which then never gets a row |
| Drains.DrainedSucceeded | workflow/models.py:533-544 | With nothing left to do, a single-sink workflow without calls and conditions whose only join may be the sink is in SUCCESS |
| Drains.Finishes | workflow/tasks/workflows.py:375-480 | From every state reached without failure, kill, cancel, sweep, pause or resume, further such events bring it to SUCCESS |
| Drains.EmptyNeverCloses | workflow/tasks/workflows.py:352-372 | A template without nodes starts and never succeeds |
| Drains.FinishesIffJoinsLast | workflow/utils.py:229-251 | For single-sink templates without calls and conditions, every such state can still reach SUCCESS exactly when there is a node and only the sink may be a join |
| Nesting.SuccessPropagates | workflow/models.py:546-592 | Finishing the innermost node closes exactly the workflows whose node is last, completes exactly the rows climbed through with the value, dispatches exactly the successors at the first level that has some, and raises exactly when that level cannot be routed or misses its unique parent row |
| Nesting.ClimbExists | workflow/models.py:533-560 | Every lineage has such a climb: a maximal run of last nodes |
| Nesting.ReturnOutcome | workflow/models.py:487-592 | For every row and value: the row ends in ERROR exactly when the climb raises, then exactly the whole lineage is in ERROR; otherwise exactly the climb is completed |
| Nesting.FailurePropagates | workflow/tasks/base.py:74-102 | A failure puts exactly the workflows and rows of the chain into the same status, with error and finished time, and changes nothing else |
| Nesting.LineageExists | workflow/tasks/base.py:91-102 | Every row heads such a chain up to a workflow without a unique parent row |
| Nesting.LineageDescends | workflow/tasks/workflows.py:247-256 | Workflows up the chain were all created before, so the recursions end |
| Nesting.AmbiguousParentFails | workflow/models.py:551-560 | Of these, the case of one level: a child without exactly one row standing for it ends in ERROR, and only it |
| PauseResume.StartToken | workflow/tasks/workflows.py:353-370 | Starting a line puts one token at its first node, in every reachable state |
| PauseResume.DeliverToken | workflow/tasks/workflows.py:388-397 | Taking the token's message parks it in WAIT and runs it otherwise |
| PauseResume.ReturnToken | workflow/models.py:529-592 | A return moves the token to the next node or ends a top-level line |
| PauseResume.ResumeKeepsTokenExactly | workflow/views.py:290-341 | Resuming keeps the one token exactly when nothing is queued or nothing was parked before |
| PauseResume.CalmEventKeepsToken | workflow/views.py:256-341 | On a line that calls no workflow, every event other than a failure, kill, cancel or ill-timed resume of it, or the last return of a nested one, keeps one token, at most one node further |
| PauseResume.PausesPreserveToken | workflow/views.py:256-341 | On a line that calls no workflow, nested or not, any number of pauses and well-timed resumes visits the nodes in order, each once, as an unpaused run does |
| NestedLines.NestedLineEnds | workflow/models.py:487-560 | After the last return of a line all nodes were visited in order, and it is in SUCCESS, or in ERROR with its whole lineage exactly when the climb through its parents raises |
| StaleResumes.IllTimedResume | workflow/views.py:290-341 | Any other accepted resume queues the node left behind beside the token's, and taking the messages gives that node two rows |
| StaleResumes.StaleResumeHangs | workflow/views.py:290-341 | On every line of two nodes or more a reachable resume queues the finished first node; once it is taken the second node never starts and the workflow never succeeds |
| Tokens.EventElsewhere | workflow/models.py:553-560 | Events of other workflows leave a childless workflow untouched |
| Cancellation.WorkerCleanup | workflow/system.py:325-356 | Afterwards the worker has no active row, hit workflows are CANCELED without active rows, exactly the doomed rows changed, and those are finished |
| Cancellation.CancelExactly | workflow/models.py:287-296 | Only a workflow still open is cancelled; of its rows exactly those in INIT, PROGRESS and nested progress become CANCELED and finished and keep everything else |
| Cancellation.CancelFinalIffExhausted | workflow/models.py:287-296 | For a workflow without children, every continuation of an accepted cancel keeps it CANCELED and gives it no further row exactly when it was started, no worker holds a row of it, and each of its messages would be dropped |
| Cancellation.LeftOverUndoes | workflow/tasks/workflows.py:328-397 | A start still queued, a row in a worker's hands or a ready message each undo the cancel in some continuation |
| Cancellation.CanceledRunSucceeds | workflow/models.py:494-543 | On every condition-free template with a node some run without failure makes a row and ends in SUCCESS after the cancel of a workflow in progress |
| ErrorPaths.EveryLeafOnce | finmars_standardized_errors/formatter.py:134-153 | One entry per non-empty leaf, left to right, for every tree |
| ErrorPaths.EmptyKeyVanishes | finmars_standardized_errors/formatter.py:147-151 | Below an empty key the names of a dictionary are as without it |
| ErrorPaths.PlacesLead | finmars_standardized_errors/formatter.py:136-151 | Following an enumerated path down the tree reaches the place of its leaf |
| ErrorRoundTrip.FlattenGives | finmars_standardized_errors/formatter.py:136-151 | The attribute and index accumulators amount to a path and the next number |
| ErrorRoundTrip.GivenIffStraight | finmars_standardized_errors/formatter.py:139-146 | The numbers given equal the enumeration exactly for straight trees |
| ErrorRoundTrip.NamesIffStraight | finmars_standardized_errors/formatter.py:98-153 | Entries are named by the places of their leaves exactly for straight trees |
| ErrorRoundTrip.NamesLeadBack | finmars_standardized_errors/formatter.py:98-153 | On straight trees splitting an entry's name and walking the tree reaches the entry's leaf |
| Texts.DecimalReads | finmars_standardized_errors/formatter.py:139-143 | A number is written in decimal digits without leading zeros |
| Texts.JoinTwo | finmars_standardized_errors/settings.py:67-67 | Parts are joined with a dot |
| Texts.SplitJoin | finmars_standardized_errors/openapi_utils.py:245-247 | Splitting undoes joining of parts free of the separator |
| FieldNames.FlatIsTrails | finmars_standardized_errors/openapi_utils.py:37-90 | The flattened names are the dotted paths of field names, with INDEX below lists, KEY below dictionaries and the key for a serializer's own errors |
| FieldNames.JoinSplit | finmars_standardized_errors/openapi_utils.py:245-247 | Joining undoes splitting, for every string |
| FieldNames.FieldNameIffFreeKey | finmars_standardized_errors/openapi_utils.py:238-247 | Replacing the last part of a serializer's name gives its field's flattened name, for any names, exactly when the non-field key is free of the separator |
| FieldNames.FlatAgrees | finmars_standardized_errors/openapi_utils.py:37-90 | In every flattened tree each serializer's name leads to an entry for each of its simple and composite fields |
| FieldNames.CodeLandsOnField | finmars_standardized_errors/openapi_utils.py:238-252 | With distinct names the entry found is that field's own |
| FieldNames.GetSerializerFieldsWithErrorCodes | finmars_standardized_errors/openapi_utils.py:93-117 | The entries with codes of their own, with exactly the codes that the unique-together validators add |
| FieldNames.CodesExactly | finmars_standardized_errors/openapi_utils.py:93-117 | An entry ends with its own codes, "unique" exactly for serializers with unique-together validators, "required" exactly when implied, and nothing else |
| FieldNames.RequiredExactly | finmars_standardized_errors/openapi_utils.py:212-252 | On a flattened tree with distinct names those get "required" that are the own entry of a constrained simple or composite field, or share the name formed for a constrained name that is no such field, and no others |
| FieldNames.AddErrorCode | finmars_standardized_errors/openapi_utils.py:238-252 | The first entry of the name gains the code and no other changes |
| FieldNames.AddUniqueTogetherErrorCodes | finmars_standardized_errors/openapi_utils.py:212-224 | The marked serializers gain "unique" and exactly the entries found from their validators gain "required" |
| StorageSync.LocalStorage.SyncRemoteStorage | workflow/system.py:164-263 | Path by path: wanted files written, the target folder cleared, all else kept |
| StorageSync.LocalStorage.SyncConfiguration | workflow/system.py:204-214 | The organization and module levels below one configuration |
| StorageSync.LocalStorage.SyncModule | workflow/system.py:216-263 | The workflow level and its files |
| StorageSync.WantedExactly | workflow/system.py:198-243 | Wanted are the files with content, listed under four listed folders that agree with the target, whose name fits a pattern |
| StorageSync.WrittenUnlessBlocked | workflow/system.py:243-262 | A wanted file is written exactly when no file stands above it and nothing below it once the target is cleared |
| StorageSync.SyncedExactly | workflow/system.py:164-263 | For at most four names, exactly the wanted files below the target and nothing else changed |
| StorageSync.RestAloneIffShallow | workflow/system.py:191-218 | The rest of the disk is left alone in every case exactly when the target has at most four names or nothing is wanted |
| StorageSync.SyncTwice | workflow/system.py:178-263 | Repeating a call changes nothing |
| StageLinks.WorkflowBuilder.NewTask | workflow/builder.py:34-69 | One row with the current predecessors; a single task becomes the predecessor |
| StageLinks.WorkflowBuilder.ParseFlatTasks | workflow/builder.py:78-101 | Rows, chain and predecessors of the tasks before the first one it raises on |
| StageLinks.PrefixReadable | workflow/builder.py:84-99 | Exactly malformed tasks and groups without a type or a list of tasks raise; any type passes |
| StageLinks.HookRowsAre | workflow/builder.py:130-139 | A hook makes one row marked as a hook per name, all with the same predecessors |
| StageLinks.WorkflowBuilder.Build | workflow/builder.py:103-162 | Raises exactly on an unacceptable task or hook; otherwise the tasks' rows and predecessors are as without a hook, and the chain is opening, hook, tasks, closing |
| StageLinks.WorkflowBuilder.BuildHooks | workflow/builder.py:164-187 | Predecessors are restored, and a launched failure hook leaves the success hook without any |
| StageLinks.RowAt | workflow/builder.py:54-97 | Each row has the name listed at its place and the ids of the stage before its own |
| StageLinks.RowsNamed | workflow/builder.py:84-97 | One row per listed name, in order |
| StageLinks.LinkedIffNextStage | workflow/builder.py:66-97 | Two rows are linked exactly when the second belongs to the stage right after the first's |
| SettingsCache.PackageSettings.Read | finmars_standardized_errors/settings.py:29-53 | A read equals the uncached lookup in the settings seen, and stores exactly that; when no change went unsignalled it answers the entry configured now, else the default, and raises for an unknown name |
| SettingsCache.LookupAnswers | finmars_standardized_errors/settings.py:29-48 | The entry under the package's setting wins over the default; import strings answer what they name, item by item for a list and key by key for a dictionary |
| SettingsCache.LastSetWins | finmars_standardized_errors/settings.py:29-60 | In any sequence of operations, after the setting is set and until it is set again, reading an attribute in it answers the new entry |
| SettingsCache.PackageSettings.Reload | finmars_standardized_errors/settings.py:55-60 | Nothing stored, no snapshot |
| SettingsCache.PackageSettings.Change | finmars_standardized_errors/settings.py:94-98 | A signalled change keeps the cache current; only the package's own setting reloads it |
| SettingsCache.Serve | finmars_standardized_errors/settings.py:23-60 | Over any sequence of reads and signalled changes, every answer equals the uncached lookup in the settings as they then are |

## Left out

- Interleavings inside a handler: each of start, delivery up to row creation, before-start, delegation, return, failure and the view actions is one atomic step; in particular a child that finishes before its parent's row is saved as nested is not modelled.
- Changes of a template during a run: a workflow's graph is fixed, node data is well formed, and node ids are distinct keys.
- A null and an empty parked node are one value, and every falsy return value is one value, as the source only tests them for truth.
- Redelivery of messages, revoking, kill signals and time limits: only as rows that vanish or raise; a start is delivered once.
- Payloads, previous output, logs, progress, alerts, platform calls, schema switching and the space filter of the parent lookup.
- Execution of user code: only a returned value or an exception matters.
- Direct edits through the REST viewsets and the admin, bulk deletion, and version 1 parents of nested workflows.
- The version 1 tasks for opening, closing, marking initial rows as canceled and launching failure hooks as they run; only the chain that holds them is modelled.
- DispatchExactly: resumed workflows are covered by Runs.DispatchConservation instead, where each resume counts as one more message.
- PathBound: nodes after a call are excluded, because a calling row can complete more than once (Repeats.CallRunsTwice).
- FinishesIffJoinsLast: top-level workflows on templates without calls and condition nodes; a called workflow may itself never finish, a nested one depends on its parent's rows (Nesting.ReturnOutcome), and a condition may leave a node without its message.
- OnceIffForest: templates with condition nodes are excluded; there a node with two connections into it can be fired by at most one of them.
- CompletenessIffOneSink: templates with condition nodes are covered by Choices.CompletenessIffCourses instead.
- CancelFinalIffExhausted: workflows with children are excluded, because a child's end reaches their rows.
- PausesPreserveToken: lines that call a workflow are excluded; by Repeats.OnceIffForest a call inside a line breaks "each once", at its end it does not.
- NoReadyNodeForgotten: a workflow that was ever parked is excluded, because a parked message waits for a resume.
- Error trees with keys that are empty, repeated as text, not strings, or holding the separator; the separator is the default one.
- NamesLeadBack: for a leaf held by a list, the path reaches the list, as entries do not number leaves.
- AddUniqueTogetherErrorCodes: the similar loop for unique-for-date validators and the choice of error codes per field type are not modelled.
- SyncRemoteStorage: listings that raise, a removal that fails halfway, empty folders, links, and absolute or dotted path components are not modelled; the nested loops are spread over three methods.
- Read: the uncached lookup is total apart from unknown names and failing imports; classes are numbers.
- WorkflowBuilder: queues, signatures and payloads; a fresh id is the number of rows so far.
- OpenAPI response selection, schedules, monitoring, authentication, storage backends, health checks and the user interface.
