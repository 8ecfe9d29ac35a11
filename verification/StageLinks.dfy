/** Building the chain of a version 1 workflow: which task rows are created and what each records as its predecessors. */
module StageLinks {
  import opened Wrappers

  /** A listed task: a name, a dictionary taken as a group, or anything the parser raises on. */
  datatype Spec = Named(name: string) | Group(kind: Option<string>, tasks: Option<seq<string>>) | Malformed

  datatype TaskRow = TaskRow(id: nat, name: string, previous: Option<seq<nat>>, hook: bool)

  /** An element of the chain: the opening and closing tasks, one task, or a group of tasks. */
  datatype Link = Opening | Closing | Single(id: nat) | Parallel(ids: seq<nat>)

  /** The parser only checks that a group has a type at all: a missing one raises, any other passes. */
  predicate Accepted(t: Spec) {
    t.Named? || (t.Group? && t.kind.Some? && t.tasks.Some?)
  }

  function Names(t: Spec): seq<string> {
    match t
    case Named(name) => [name]
    case Group(_, tasks) => if tasks.Some? then tasks.value else []
    case Malformed => []
  }

  function Ids(first: nat, count: nat): (ids: seq<nat>)
    ensures |ids| == count && forall i :: 0 <= i < count ==> ids[i] == first + i
  {
    seq(count, i => first + i)
  }

  function StageRows(names: seq<string>, previous: Option<seq<nat>>, first: nat, hook: bool): (rows: seq<TaskRow>)
    ensures |rows| == |names|
    ensures forall i :: 0 <= i < |rows| ==> rows[i] == TaskRow(first + i, names[i], previous, hook)
  {
    seq(|names|, i requires 0 <= i < |names| => TaskRow(first + i, names[i], previous, hook))
  }

  /** How many rows the first `k` tasks make. */
  function Total(tasks: seq<Spec>, k: nat): nat
    requires k <= |tasks|
  {
    if k == 0 then 0 else Total(tasks, k - 1) + |Names(tasks[k - 1])|
  }

  /** `previous` after the first `k` tasks: the ids of the last stage. */
  function LastIds(tasks: seq<Spec>, k: nat, previous: Option<seq<nat>>, first: nat): Option<seq<nat>>
    requires k <= |tasks|
  {
    if k == 0 then previous else Some(Ids(first + Total(tasks, k - 1), |Names(tasks[k - 1])|))
  }

  /** The rows made for the first `k` tasks, numbered from `first`. */
  function Rows(tasks: seq<Spec>, k: nat, previous: Option<seq<nat>>, first: nat, hook: bool): (rows: seq<TaskRow>)
    requires k <= |tasks|
    ensures |rows| == Total(tasks, k)
  {
    if k == 0 then []
    else
      Rows(tasks, k - 1, previous, first, hook)
      + StageRows(Names(tasks[k - 1]), LastIds(tasks, k - 1, previous, first), first + Total(tasks, k - 1), hook)
  }

  function LinkOf(t: Spec, first: nat): Link {
    if t.Named? then Single(first) else Parallel(Ids(first, |Names(t)|))
  }

  /** The chain elements of the first `k` tasks. */
  function Canvas(tasks: seq<Spec>, k: nat, first: nat): (links: seq<Link>)
    requires k <= |tasks|
    ensures |links| == k && forall i :: 0 <= i < k ==> links[i] == LinkOf(tasks[i], first + Total(tasks, i))
  {
    seq(k, i requires 0 <= i < k => LinkOf(tasks[i], first + Total(tasks, i)))
  }

  /** The rows of a hook, which is a list of one task at most. */
  function HookRows(t: Option<Spec>, previous: Option<seq<nat>>, first: nat): seq<TaskRow> {
    if t.None? then [] else StageRows(Names(t.value), previous, first, true)
  }

  function HookLinks(t: Option<Spec>, first: nat): seq<Link> {
    if t.None? then [] else [LinkOf(t.value, first)]
  }

  /** The number of tasks before the first one the parser raises on. */
  function AcceptedPrefix(tasks: seq<Spec>): (j: nat)
    ensures j <= |tasks| && (forall i :: 0 <= i < j ==> Accepted(tasks[i]))
    ensures j < |tasks| ==> !Accepted(tasks[j])
  {
    if tasks == [] || !Accepted(tasks[0]) then 0 else 1 + AcceptedPrefix(tasks[1..])
  }

  lemma NoneYet(tasks: seq<Spec>, previous: Option<seq<nat>>, first: nat, hook: bool)
    ensures Rows(tasks, 0, previous, first, hook) == [] && LastIds(tasks, 0, previous, first) == previous
  {
  }

  lemma OneMore(tasks: seq<Spec>, i: nat, previous: Option<seq<nat>>, first: nat, hook: bool)
    requires i < |tasks|
    ensures Rows(tasks, i + 1, previous, first, hook) == Rows(tasks, i, previous, first, hook)
      + StageRows(Names(tasks[i]), LastIds(tasks, i, previous, first), first + Total(tasks, i), hook)
    ensures LastIds(tasks, i + 1, previous, first) == Some(Ids(first + Total(tasks, i), |Names(tasks[i])|))
    ensures Canvas(tasks, i + 1, first) == Canvas(tasks, i, first) + [LinkOf(tasks[i], first + Total(tasks, i))]
  {
    hide LinkOf, Names, StageRows, Ids, Total, Canvas;
  }

  lemma OneTask(t: Spec, previous: Option<seq<nat>>, id: nat, hook: bool)
    requires t.Named?
    ensures Ids(id, |Names(t)|) == [id] && LinkOf(t, id) == Single(id)
    ensures StageRows(Names(t), previous, id, hook) == [TaskRow(id, t.name, previous, hook)]
  {
  }

  lemma OneGroup(t: Spec, first: nat)
    requires Accepted(t) && !t.Named?
    ensures t.Group? && t.tasks.Some? && Names(t) == t.tasks.value && LinkOf(t, first) == Parallel(Ids(first, |t.tasks.value|))
  {
  }

  /** What the parser raises on: neither a name nor a dictionary, or one without "type" or without "tasks". */
  ghost predicate Unreadable(t: Spec) {
    t.Malformed? || (t.Group? && (t.kind.None? || t.tasks.None?))
  }

  lemma PrefixReadable(tasks: seq<Spec>)
    ensures AcceptedPrefix(tasks) < |tasks| <==> exists i :: 0 <= i < |tasks| && Unreadable(tasks[i])
    ensures forall i :: 0 <= i < AcceptedPrefix(tasks) ==> !Unreadable(tasks[i])
  {
    var j := AcceptedPrefix(tasks);
    if j < |tasks| {
      assert Unreadable(tasks[j]);
    }
  }

  /** A hook makes one hook row per name, all with the same predecessors. */
  lemma HookRowsAre(t: Spec, previous: Option<seq<nat>>, first: nat)
    requires !Unreadable(t)
    ensures t.Named? ==> HookRows(Some(t), previous, first) == [TaskRow(first, t.name, previous, true)]
    ensures t.Group? ==> |HookRows(Some(t), previous, first)| == |t.tasks.value|
    ensures forall i :: t.Group? && 0 <= i < |t.tasks.value| ==>
      HookRows(Some(t), previous, first)[i] == TaskRow(first + i, t.tasks.value[i], previous, true)
  {
  }

  class WorkflowBuilder {
    var previous: Option<seq<nat>>
    var rows: seq<TaskRow>
    var canvas: seq<Link>
    var failureHookCanvas: bool
    var successHookCanvas: Option<Link>

    constructor ()
      ensures rows == [] && canvas == [] && !failureHookCanvas && successHookCanvas == None && previous == None
    {
      previous, rows, canvas, failureHookCanvas, successHookCanvas := None, [], [], false, None;
    }

    /** new_task; a fresh id is the number of rows so far. */
    method NewTask(name: string, hook: bool, single: bool) returns (id: nat)
      modifies this`rows, this`previous
      ensures id == |old(rows)| && rows == old(rows) + [TaskRow(id, name, old(previous), hook)]
      ensures previous == if single then Some([id]) else old(previous)
    {
      id := |rows|;
      rows := rows + [TaskRow(id, name, previous, hook)];
      if single {
        previous := Some([id]);
      }
    }

    /** parse_flat_tasks: on an unacceptable task it raises, after the rows of the tasks before it. */
    method ParseFlatTasks(tasks: seq<Spec>, hook: bool) returns (links: seq<Link>, raised: bool)
      modifies this`rows, this`previous
      ensures var k := AcceptedPrefix(tasks);
        && rows == old(rows) + Rows(tasks, k, old(previous), |old(rows)|, hook)
        && previous == LastIds(tasks, k, old(previous), |old(rows)|)
        && links == Canvas(tasks, k, |old(rows)|)
        && (raised <==> k < |tasks|)
      ensures raised <==> exists i :: 0 <= i < |tasks| && Unreadable(tasks[i])
    {
      PrefixReadable(tasks);
      hide Names, Total, LinkOf, Accepted, Ids, StageRows, Canvas, Rows, LastIds;
      links, raised := [], false;
      var i := 0;
      NoneYet(tasks, previous, |rows|, hook);
      while i < |tasks|
        invariant 0 <= i <= |tasks| && forall k :: 0 <= k < i ==> Accepted(tasks[k])
        invariant rows == old(rows) + Rows(tasks, i, old(previous), |old(rows)|, hook)
        invariant previous == LastIds(tasks, i, old(previous), |old(rows)|)
        invariant links == Canvas(tasks, i, |old(rows)|)
      {
        var t := tasks[i];
        if !Accepted(t) {
          return links, true;
        }
        if t.Named? {
          var id := NewTask(t.name, hook, true);
          OneMore(tasks, i, old(previous), |old(rows)|, hook);
          OneTask(t, LastIds(tasks, i, old(previous), |old(rows)|), id, hook);
          links := links + [Single(id)];
        } else {
          OneMore(tasks, i, old(previous), |old(rows)|, hook);
          OneGroup(t, |rows|);
          var ids := ParseGroup(t.tasks.value, hook);
          links := links + [Parallel(ids)];
          previous := Some(ids);
        }
        i := i + 1;
      }
    }

    /** The tasks of one group, all with the same predecessors. */
    method ParseGroup(names: seq<string>, hook: bool) returns (ids: seq<nat>)
      modifies this`rows, this`previous
      ensures rows == old(rows) + StageRows(names, old(previous), |old(rows)|, hook)
      ensures previous == old(previous) && ids == Ids(|old(rows)|, |names|)
    {
      ids := [];
      var i := 0;
      while i < |names|
        invariant 0 <= i <= |names| && previous == old(previous)
        invariant rows == old(rows) + StageRows(names[..i], previous, |old(rows)|, hook)
        invariant ids == Ids(|old(rows)|, i)
      {
        var id := NewTask(names[i], hook, false);
        ids := ids + [id];
        assert names[..i + 1] == names[..i] + [names[i]];
        i := i + 1;
      }
      assert names[..i] == names;
    }

    /** A hook: one task parsed by itself. */
    method ParseHook(t: Spec) returns (link: Option<Link>)
      modifies this`rows, this`previous
      ensures link == if Accepted(t) then Some(LinkOf(t, |old(rows)|)) else None
      ensures link.Some? ==> rows == old(rows) + HookRows(Some(t), old(previous), |old(rows)|)
    {
      hide Names, Ids;
      var links, raised := ParseFlatTasks([t], true);
      if raised {
        return None;
      }
      assert Rows([t], 0, old(previous), |old(rows)|, true) == [] && Total([t], 0) == 0;
      return Some(links[0]);
    }

    /** build: the tasks, then the before-start hook put in front, then the opening and the closing task. */
    method Build(tasks: seq<Spec>, hook: Option<Spec>) returns (raised: bool)
      modifies this`rows, this`previous, this`canvas
      ensures raised <==> AcceptedPrefix(tasks) < |tasks| || (hook.Some? && !Accepted(hook.value))
      ensures var first, n, k := |old(rows)|, Total(tasks, |tasks|), |tasks|;
        !raised ==>
          && previous == LastIds(tasks, k, Some([]), first)
          && rows == old(rows) + Rows(tasks, k, Some([]), first, false) + HookRows(hook, None, first + n)
          && canvas == [Opening] + HookLinks(hook, first + n) + Canvas(tasks, k, first) + [Closing]
    {
      hide Rows, Canvas, LastIds, Total, AcceptedPrefix;
      previous := Some([]);
      canvas, raised := ParseFlatTasks(tasks, false);
      if raised {
        return;
      }
      if hook.Some? {
        var initialPrevious := previous;
        previous := None;
        var link := ParseHook(hook.value);
        if link.None? {
          return true;
        }
        canvas := [link.value] + canvas;
        previous := initialPrevious;
      }
      canvas := [Opening] + canvas;
      canvas := canvas + [Closing];
    }

    /** build_hooks: the failure hook makes no row, but it takes the predecessors away from the success hook. */
    method BuildHooks(failure: bool, success: Option<Spec>) returns (raised: bool)
      modifies this`rows, this`previous, this`failureHookCanvas, this`successHookCanvas
      ensures var launch := failure && !old(failureHookCanvas);
        var hook := if old(successHookCanvas).None? then success else None;
        && (raised <==> hook.Some? && !Accepted(hook.value))
        && failureHookCanvas == (old(failureHookCanvas) || launch)
        && (!raised ==>
              && previous == old(previous)
              && rows == old(rows) + HookRows(hook, if launch then None else old(previous), |old(rows)|)
              && (hook.Some? ==> successHookCanvas == Some(LinkOf(hook.value, |old(rows)|))))
    {
      var initialPrevious := previous;
      raised := false;
      if failure && !failureHookCanvas {
        previous := None;
        failureHookCanvas := true;
      }
      if success.Some? && successHookCanvas.None? {
        successHookCanvas := ParseHook(success.value);
        if successHookCanvas.None? {
          return true;
        }
      }
      previous := initialPrevious;
    }
  }

  // ---- what the rows say ----

  /** The stage of row `i`: how many of the first `k` tasks end at or before it. */
  function StageOf(tasks: seq<Spec>, k: nat, i: nat): (j: nat)
    requires k <= |tasks| && i < Total(tasks, k)
    ensures j < k && Total(tasks, j) <= i < Total(tasks, j) + |Names(tasks[j])|
  {
    if i >= Total(tasks, k - 1) then k - 1 else StageOf(tasks, k - 1, i)
  }

  /** Rows appear once per listed name, in order, and record the ids of the stage before theirs. */
  lemma {:induction false} RowAt(tasks: seq<Spec>, k: nat, previous: Option<seq<nat>>, first: nat, hook: bool, i: nat)
    requires k <= |tasks| && i < Total(tasks, k)
    ensures var j := StageOf(tasks, k, i);
      Rows(tasks, k, previous, first, hook)[i] ==
        TaskRow(first + i, Names(tasks[j])[i - Total(tasks, j)], LastIds(tasks, j, previous, first), hook)
    decreases k
  {
    hide Names, LastIds;
    if i < Total(tasks, k - 1) {
      RowAt(tasks, k - 1, previous, first, hook, i);
    }
  }

  /** Row `a` is among the predecessors of row `b`. */
  predicate Linked(rows: seq<TaskRow>, a: nat, b: nat)
    requires a < |rows| && b < |rows|
  {
    rows[b].previous.Some? && rows[a].id in rows[b].previous.value
  }

  lemma {:induction false} TotalGrows(tasks: seq<Spec>, j: nat, k: nat)
    requires j <= k <= |tasks|
    ensures Total(tasks, j) <= Total(tasks, k)
    decreases k
  {
    if j < k {
      TotalGrows(tasks, j, k - 1);
    }
  }

  lemma IdsHold(first: nat, count: nat, id: nat)
    ensures id in Ids(first, count) <==> first <= id < first + count
  {
    if first <= id < first + count {
      assert Ids(first, count)[id - first] == id;
    }
  }

  lemma NextTotal(tasks: seq<Spec>, k: nat)
    requires k < |tasks|
    ensures Total(tasks, k + 1) == Total(tasks, k) + |Names(tasks[k])|
  {
  }

  /** Row `a` has its number among those of stage `j` exactly when it belongs to stage `j`. */
  lemma InStage(tasks: seq<Spec>, a: nat, j: nat)
    requires a < Total(tasks, |tasks|) && j < |tasks|
    ensures Total(tasks, j) <= a < Total(tasks, j) + |Names(tasks[j])| <==> StageOf(tasks, |tasks|, a) == j
  {
    hide Names, Total;
    var k := StageOf(tasks, |tasks|, a);
    hide StageOf;
    assert Total(tasks, k + 1) == Total(tasks, k) + |Names(tasks[k])| by { NextTotal(tasks, k); }
    assert Total(tasks, j + 1) == Total(tasks, j) + |Names(tasks[j])| by { NextTotal(tasks, j); }
    if k < j {
      TotalGrows(tasks, k + 1, j);
    } else if k > j {
      TotalGrows(tasks, j + 1, k);
    }
  }

  /**
   * Two rows of one list are linked exactly when the second belongs to the stage right after the
   * first's: complete between neighbouring stages, none inside a group, none across.
   */
  lemma LinkedIffNextStage(tasks: seq<Spec>, first: nat, hook: bool, a: nat, b: nat)
    requires a < Total(tasks, |tasks|) && b < Total(tasks, |tasks|)
    ensures var k := |tasks|;
      Linked(Rows(tasks, k, Some([]), first, hook), a, b) <==> StageOf(tasks, k, b) == StageOf(tasks, k, a) + 1
  {
    hide Rows, StageOf, Total, Names;
    RowAt(tasks, |tasks|, Some([]), first, hook, a);
    RowAt(tasks, |tasks|, Some([]), first, hook, b);
    var k := StageOf(tasks, |tasks|, b);
    if k > 0 {
      IdsHold(first + Total(tasks, k - 1), |Names(tasks[k - 1])|, first + a);
      InStage(tasks, a, k - 1);
    }
  }

  /** All names of the list in order, for comparison with the rows. */
  function AllNames(tasks: seq<Spec>, k: nat): seq<string>
    requires k <= |tasks|
  {
    if k == 0 then [] else AllNames(tasks, k - 1) + Names(tasks[k - 1])
  }

  lemma {:induction false} RowsNamed(tasks: seq<Spec>, k: nat, previous: Option<seq<nat>>, first: nat, hook: bool)
    requires k <= |tasks|
    ensures |AllNames(tasks, k)| == Total(tasks, k)
    ensures forall i :: 0 <= i < Total(tasks, k) ==>
      var r := Rows(tasks, k, previous, first, hook)[i]; r.name == AllNames(tasks, k)[i] && r.id == first + i && r.hook == hook
    decreases k
  {
    if k > 0 {
      RowsNamed(tasks, k - 1, previous, first, hook);
    }
  }
}
