/** How often a node can be sent, taken and run: at most once per path from a start node. */
module Bounds {
  import opened Wrappers
  import opened Graphs
  import opened Tables
  import opened Protocol
  import opened Moves
  import opened Safety
  import opened Conservation

  function Successes(h: seq<Entry>, w: nat, n: NodeId): nat {
    if h == [] then 0
    else
      var e := h[|h| - 1];
      Successes(h[..|h| - 1], w, n) + if e.Succeeded? && e.wf == w && e.node == n then 1 else 0
  }

  function Acceptances(h: seq<Entry>, w: nat, n: NodeId): nat {
    if h == [] then 0
    else Acceptances(h[..|h| - 1], w, n) + if h[|h| - 1] == Accepted(w, n) then 1 else 0
  }

  function Starts(h: seq<Entry>, w: nat): nat {
    if h == [] then 0 else Starts(h[..|h| - 1], w) + if h[|h| - 1] == Started(w) then 1 else 0
  }

  /** Rows of node `n` that a worker still holds. */
  function Live(rows: seq<Row>, w: nat, n: NodeId): nat {
    if rows == [] then 0
    else
      var r := rows[|rows| - 1];
      Live(rows[..|rows| - 1], w, n) + if IsAt(r, w, n) && r.phase != Done then 1 else 0
  }

  ghost predicate NeverResumed(h: seq<Entry>, w: nat) {
    forall k :: 0 <= k < |h| ==> !(h[k].Resumed? && h[k].wf == w)
  }

  /** Each acceptance made one row; each row of a node that calls no workflow succeeds at most once; one start at most. */
  ghost predicate Accounted(s: State, w: nat, n: NodeId)
    requires w < |s.wfs|
  {
    && CountRows(s.rows, w, n) == Acceptances(s.hist, w, n)
    && (!IsCall(s.wfs[w].graph, n) ==> Successes(s.hist, w, n) + Live(s.rows, w, n) <= Acceptances(s.hist, w, n))
    && Starts(s.hist, w) <= (if s.wfs[w].pending then 0 else 1)
  }

  lemma {:induction false} SameRows(rows: seq<Row>, rows': seq<Row>, w: nat, n: NodeId)
    requires |rows| == |rows'|
    requires forall i :: 0 <= i < |rows| ==>
      rows'[i].wf == rows[i].wf && rows'[i].node == rows[i].node && (rows'[i].phase == Done <==> rows[i].phase == Done)
    ensures CountRows(rows', w, n) == CountRows(rows, w, n) && Live(rows', w, n) == Live(rows, w, n)
    decreases |rows|
  {
    if rows != [] {
      SameRows(rows[..|rows| - 1], rows'[..|rows| - 1], w, n);
    }
  }

  lemma {:induction false} StoppedRow(rows: seq<Row>, r: nat, row: Row, w: nat, n: NodeId)
    requires r < |rows| && rows[r].phase != Done && row.phase == Done && IsAt(row, rows[r].wf, rows[r].node)
    ensures CountRows(rows[r := row], w, n) == CountRows(rows, w, n)
    ensures Live(rows[r := row], w, n) == Live(rows, w, n) - if IsAt(rows[r], w, n) then 1 else 0
    decreases |rows|
  {
    var k := |rows| - 1;
    if r < k {
      StoppedRow(rows[..k], r, row, w, n);
      assert rows[r := row][..k] == rows[..k][r := row];
    } else {
      assert rows[r := row][..k] == rows[..k];
    }
  }

  lemma AddedRow(rows: seq<Row>, row: Row, w: nat, n: NodeId)
    ensures CountRows(rows + [row], w, n) == CountRows(rows, w, n) + if IsAt(row, w, n) then 1 else 0
    ensures Live(rows + [row], w, n) == Live(rows, w, n) + if IsAt(row, w, n) && row.phase != Done then 1 else 0
  {
    assert (rows + [row])[..|rows|] == rows;
  }

  lemma Counted(h: seq<Entry>, e: Entry, w: nat, n: NodeId)
    ensures Successes(h + [e], w, n) == Successes(h, w, n) + if e.Succeeded? && e.wf == w && e.node == n then 1 else 0
    ensures Acceptances(h + [e], w, n) == Acceptances(h, w, n) + if e == Accepted(w, n) then 1 else 0
    ensures Starts(h + [e], w) == Starts(h, w) + if e == Started(w) then 1 else 0
  {
    assert (h + [e])[..|h|] == h;
  }

  lemma {:induction false} NothingCounted(h: seq<Entry>, w: nat, n: NodeId)
    requires forall k :: 0 <= k < |h| ==> h[k].wf != w
    ensures Successes(h, w, n) == 0 && Acceptances(h, w, n) == 0 && Starts(h, w) == 0
    decreases |h|
  {
    if h != [] {
      NothingCounted(h[..|h| - 1], w, n);
    }
  }

  lemma {:induction false} NoRows(rows: seq<Row>, w: nat, n: NodeId)
    requires forall i :: 0 <= i < |rows| ==> rows[i].wf != w
    ensures CountRows(rows, w, n) == 0 && Live(rows, w, n) == 0
    decreases |rows|
  {
    if rows != [] {
      NoRows(rows[..|rows| - 1], w, n);
    }
  }

  lemma FrameAccounted(s: State, r: nat, v: Value, w: nat, n: NodeId)
    requires Sound(s) && r < |s.rows| && w < |s.wfs|
    ensures var t := Frame(s, r, v);
      && CountRows(t.rows, w, n) == CountRows(s.rows, w, n) && Live(t.rows, w, n) == Live(s.rows, w, n)
      && Acceptances(t.hist, w, n) == Acceptances(s.hist, w, n) && Starts(t.hist, w) == Starts(s.hist, w)
      && Successes(t.hist, w, n) == Successes(s.hist, w, n) + (if IsAt(s.rows[r], w, n) then 1 else 0)
      && t.wfs[w].pending == s.wfs[w].pending && t.wfs[w].graph == s.wfs[w].graph
  {
    hide Route, Existing, Live, CountRows, Acceptances, Starts, Successes, Grows;
    var t := Frame(s, r, v);
    SameRows(s.rows, t.rows, w, n);
    Counted(s.hist, Succeeded(s.rows[r].wf, s.rows[r].node, v), w, n);
  }

  lemma DeliverAccounted(s: State, i: nat, w: nat, n: NodeId)
    requires Fresh(s) && i < |s.queue| && w < |s.wfs| && Accounted(s, w, n)
    ensures Accounted(ProcessNextNode(s, i), w, n)
  {
    hide Ready, Live, CountRows, Acceptances, Starts, Successes;
    var t := ProcessNextNode(s, i);
    assert t.hist == s.hist + [t.hist[|s.hist|]];
    Counted(s.hist, t.hist[|s.hist|], w, n);
    AddedRow(s.rows, NewRow(s.queue[i].wf, s.queue[i].node), w, n);
  }

  lemma FinishAccounted(s: State, r: nat, v: Value, w: nat, n: NodeId)
    requires Can(s, Finish(r, v)) && w < |s.wfs| && Accounted(s, w, n)
    ensures Accounted(Made(s, Finish(r, v)), w, n)
  {
    hide Live, CountRows, Acceptances, Starts, Successes, Frame;
    var u := Stop(s, r);
    var t := Frame(u, r, v);
    StoppedRow(s.rows, r, u.rows[r], w, n);
    FrameAccounted(u, r, v, w, n);
  }

  lemma KillAccounted(s: State, r: nat, w: nat, n: NodeId)
    requires Sound(s) && Enabled(s, Kill(r)) && w < |s.wfs| && Accounted(s, w, n)
    ensures Accounted(Stop(s, r), w, n)
  {
    hide Live, CountRows, Acceptances, Starts, Successes;
    var t := Stop(s, r);
    StoppedRow(s.rows, r, t.rows[r], w, n);
  }

  lemma LiftAccounted(s: State, r: nat, v: Value, x: nat, w: nat, n: NodeId)
    requires Can(s, Lift(r, v, x)) && ChildrenAtCalls(s) && w < |s.wfs| && Accounted(s, w, n)
    ensures Accounted(Frame(s, r, v), w, n)
  {
    hide Live, CountRows, Acceptances, Starts, Successes, Frame;
    var t := Frame(s, r, v);
    FrameAccounted(s, r, v, w, n);
  }

  /** An event that neither takes a message nor ends a row. */
  lemma QuietAccounted(s: State, e: Event, w: nat, n: NodeId)
    requires Fresh(s) && Enabled(s, e) && !e.Return? && !e.Raise? && !e.Deliver? && !e.Kill?
    requires w < |s.wfs| && Accounted(s, w, n)
    ensures Accounted(Step(s, e), w, n)
  {
    hide Live, CountRows, Acceptances, Starts, Successes, OnSuccess, OnRaise, ProcessNextNode, Hit, Busy, StartSends;
    var t := Step(s, e);
    SameRows(s.rows, t.rows, w, n);
    if |t.hist| > |s.hist| {
      Counted(s.hist, t.hist[|s.hist|], w, n);
      assert t.hist == s.hist + [t.hist[|s.hist|]];
    }
  }

  lemma MoveAccountedAt(s: State, m: Move, w: nat, n: NodeId)
    requires Can(s, m) && Fresh(s) && ChildrenAtCalls(s) && w < |s.wfs| && Accounted(s, w, n)
    ensures Accounted(Made(s, m), w, n)
  {
    hide Accounted, Frame, ProcessNextNode, Fresh, Grows;
    match m
    case Do(e) =>
      if e.Deliver? {
        DeliverAccounted(s, e.message, w, n);
      } else if e.Kill? {
        KillAccounted(s, e.row, w, n);
      } else {
        QuietAccounted(s, e, w, n);
      }
    case Finish(r, v) => FinishAccounted(s, r, v, w, n);
    case Lift(r, v, x) => LiftAccounted(s, r, v, x, w, n);
    case Break(r, timedOut) => BreakAccounted(s, r, timedOut, w, n);
  }

  lemma BreakAccounted(s: State, r: nat, timedOut: bool, w: nat, n: NodeId)
    requires Sound(s) && r < |s.rows| && w < |s.wfs| && Accounted(s, w, n)
    ensures Accounted(Fail(s, r, timedOut), w, n)
  {
    hide Live, CountRows, Acceptances, Starts, Successes;
    var t := Fail(s, r, timedOut);
    SameRows(s.rows, t.rows, w, n);
  }

  ghost predicate AllAccounted(s: State) {
    forall w, n :: 0 <= w < |s.wfs| ==> Accounted(s, w, n)
  }

  lemma MoveAccounted(s: State, m: Move)
    requires Can(s, m) && Fresh(s) && ChildrenAtCalls(s) && AllAccounted(s)
    ensures AllAccounted(Made(s, m))
  {
    hide Made, Can, Accounted;
    var t := Made(s, m);
    forall w, n | 0 <= w < |t.wfs| ensures Accounted(t, w, n) {
      if w < |s.wfs| {
        MoveAccountedAt(s, m, w, n);
      } else {
        NewAccounted(s, m, w, n);
      }
    }
  }

  lemma NewAccounted(s: State, m: Move, w: nat, n: NodeId)
    requires Can(s, m) && Fresh(s) && |s.wfs| <= w < |Made(s, m).wfs|
    ensures Accounted(Made(s, m), w, n)
  {
    var t := Made(s, m);
    assert t.hist == s.hist by { CreatorsOnly(s, m); }
    assert forall i :: 0 <= i < |t.rows| ==> t.rows[i].wf < |s.wfs| by { CreatorRows(s, m); }
    hide Made, Can, Live, CountRows, Acceptances, Starts, Successes;
    NothingCounted(t.hist, w, n);
    NoRows(t.rows, w, n);
  }

  lemma CreatorRows(s: State, m: Move)
    requires Can(s, m) && |s.wfs| < |Made(s, m).wfs|
    ensures forall i :: 0 <= i < |Made(s, m).rows| ==> Made(s, m).rows[i].wf < |s.wfs|
  {
    hide Route, Existing, Ready, Busy, Hit, StartSends;
  }
}
