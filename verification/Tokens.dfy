/** Pausing and resuming a workflow whose nodes follow one another in a line. */
module Tokens {
  import opened Wrappers
  import opened Graphs
  import opened Tables
  import opened Protocol
  import opened Safety
  import opened Bounds

  /** The nodes of the messages queued for workflow `w`. */
  function PendingOf(q: seq<Message>, w: nat): seq<NodeId> {
    if q == [] then []
    else PendingOf(q[..|q| - 1], w) + if q[|q| - 1].wf == w then [q[|q| - 1].node] else []
  }

  /** The nodes of workflow `w` that got a row, in the order they did. */
  function Visited(h: seq<Entry>, w: nat): seq<NodeId> {
    if h == [] then []
    else
      var e := h[|h| - 1];
      Visited(h[..|h| - 1], w) + if e.Accepted? && e.wf == w then [e.node] else []
  }

  /** `g` runs the distinct nodes `p` one after the other. */
  ghost predicate Line(g: Graph, p: seq<NodeId>) {
    && |p| > 0 && "" !in p && Keyed(g)
    && (forall i, j :: 0 <= i < j < |p| ==> p[i] != p[j])
    && (forall n :: n in p <==> n in g.kind)
    && (forall n :: n in g.kind ==> !g.kind[n].Condition?)
    && (forall i :: 0 <= i < |p| ==> Targets(g.connections, p[i]) == if i < |p| - 1 then [p[i + 1]] else [])
    && (forall c :: c in g.connections ==> c.source in p)
  }

  /** Where the one token of a line is: queued, held by a worker, parked by a pause, or at the end. */
  datatype Place = Waiting | Held | Kept | Ended

  /** The nodes before `i` are done, and the token is at node `i`, in exactly the one form `f`. */
  ghost predicate Token(s: State, w: nat, p: seq<NodeId>, i: nat, f: Place) {
    && Sound(s) && w < |s.wfs| && i <= |p| && (i == |p| <==> f == Ended)
    && Line(s.wfs[w].graph, p) && !s.wfs[w].pending && (f == Ended ==> s.wfs[w].parent == None)
    && TokenRows(s.rows, w, p, i, f == Held)
    && PendingOf(s.queue, w) == (if f == Waiting then [p[i]] else [])
    && Visited(s.hist, w) == p[..if f == Held then i + 1 else i]
    && TokenStatus(s.wfs[w], p, i, f)
  }

  ghost predicate TokenStatus(wf: Workflow, p: seq<NodeId>, i: nat, f: Place)
    requires i <= |p| && (i == |p| <==> f == Ended)
  {
    && Left(wf, p, i)
    && match f
       case Waiting => wf.status in {WProgress, WWait}
       case Held => wf.status in {WProgress, WWait}
       case Kept => wf.status == WWait && wf.current == p[i]
       case Ended => wf.status == WSuccess
  }

  /** The node left behind by an earlier pause, if any, is not beyond the token's. */
  ghost predicate Left(wf: Workflow, p: seq<NodeId>, i: nat) {
    wf.current == "" || exists j :: 0 <= j <= i && j < |p| && p[j] == wf.current
  }

  ghost predicate TokenRows(rows: seq<Row>, w: nat, p: seq<NodeId>, i: nat, running: bool)
    requires i <= |p| && (running ==> i < |p|)
  {
    && (forall r :: 0 <= r < |rows| && rows[r].wf == w ==> rows[r].node in p)
    && (forall j :: 0 <= j < i ==> DoneRow(rows, w, p[j]))
    && (running ==> OpenRow(rows, w, p[i]))
    && (forall j :: (if running then i + 1 else i) <= j < |p| ==> Missing(rows, w, p[j]))
  }

  ghost predicate DoneRow(rows: seq<Row>, w: nat, n: NodeId) {
    exists r :: Only(rows, w, n, r) && rows[r].status == TSuccess && rows[r].phase == Done
  }

  ghost predicate OpenRow(rows: seq<Row>, w: nat, n: NodeId) {
    exists r :: Only(rows, w, n, r) && rows[r].status in {TInit, TProgress} && rows[r].phase in {Created, Running}
  }

  // ---- what happens elsewhere ----

  ghost predicate Childless(s: State, w: nat) {
    forall x :: 0 <= x < |s.wfs| ==> s.wfs[x].parent != Some(w)
  }

  /** A workflow whose template calls no other has no children. */
  lemma CallFreeChildless(s: State, w: nat)
    requires ChildrenAtCalls(s) && w < |s.wfs| && CallFree(s.wfs[w].graph)
    ensures Childless(s, w)
  {
  }

  /** Nothing that concerns workflow `w` differs between `s` and `t`. */
  ghost predicate SameFor(s: State, t: State, w: nat) {
    && Grows(s, t) && Sound(t) && w < |s.wfs| && t.wfs[w] == s.wfs[w]
    && (forall r :: 0 <= r < |s.rows| && s.rows[r].wf == w ==> t.rows[r] == s.rows[r])
    && (forall r :: |s.rows| <= r < |t.rows| ==> t.rows[r].wf != w)
    && PendingOf(t.queue, w) == PendingOf(s.queue, w)
    && Visited(t.hist, w) == Visited(s.hist, w)
  }

  lemma {:induction false} PendingConcat(q: seq<Message>, r: seq<Message>, w: nat)
    ensures PendingOf(q + r, w) == PendingOf(q, w) + PendingOf(r, w)
    decreases |r|
  {
    if r == [] {
      assert q + r == q;
    } else {
      var k := |r| - 1;
      PendingConcat(q, r[..k], w);
      assert (q + r)[..|q| + k] == q + r[..k];
    }
  }

  lemma {:induction false} PendingSend(x: nat, ids: seq<NodeId>, w: nat)
    ensures PendingOf(Send(x, ids), w) == if x == w then ids else []
    decreases |ids|
  {
    if ids != [] {
      var k := |ids| - 1;
      var q := Send(x, ids);
      PendingSend(x, ids[..k], w);
      assert q[..k] == Send(x, ids[..k]);
      assert q[k] == Message(x, ids[k]);
      hide Send;
      assert PendingOf(q, w) == PendingOf(q[..k], w) + if x == w then [ids[k]] else [];
      assert ids == ids[..k] + [ids[k]];
    }
  }

  lemma PendingRemove(q: seq<Message>, i: nat, w: nat)
    requires i < |q|
    ensures q[i].wf != w ==> PendingOf(q[..i] + q[i + 1..], w) == PendingOf(q, w)
    ensures q[i].wf == w ==> q[i].node in PendingOf(q, w) && |PendingOf(q[..i] + q[i + 1..], w)| == |PendingOf(q, w)| - 1
  {
    assert q == q[..i] + ([q[i]] + q[i + 1..]);
    PendingConcat(q[..i], [q[i]] + q[i + 1..], w);
    PendingConcat([q[i]], q[i + 1..], w);
    PendingConcat(q[..i], q[i + 1..], w);
    assert [q[i]][..0] == [];
    assert PendingOf([q[i]], w) == if q[i].wf == w then [q[i].node] else [];
  }

  lemma {:induction false} QueuedPending(q: seq<Message>, i: nat, w: nat)
    requires i < |q| && q[i].wf == w
    ensures q[i].node in PendingOf(q, w)
    decreases |q|
  {
    if i < |q| - 1 {
      QueuedPending(q[..|q| - 1], i, w);
    }
  }

  lemma {:induction false} PendingQueued(q: seq<Message>, w: nat, n: NodeId) returns (k: nat)
    requires n in PendingOf(q, w)
    ensures k < |q| && q[k] == Message(w, n)
    decreases |q|
  {
    var last := |q| - 1;
    if q[last] == Message(w, n) {
      k := last;
    } else {
      k := PendingQueued(q[..last], w, n);
    }
  }

  lemma VisitedLogged(h: seq<Entry>, e: Entry, w: nat)
    ensures Visited(h + [e], w) == Visited(h, w) + if e.Accepted? && e.wf == w then [e.node] else []
  {
    assert (h + [e])[..|h|] == h;
  }

  lemma SameForTrans(s: State, t: State, u: State, w: nat)
    requires SameFor(s, t, w) && SameFor(t, u, w)
    ensures SameFor(s, u, w)
  {
    assert forall k :: 0 <= k < |s.hist| ==> u.hist[k] == t.hist[k] == s.hist[k];
  }

  lemma FrameElsewhere(s: State, r: nat, v: Value, w: nat)
    requires Sound(s) && r < |s.rows| && s.rows[r].wf != w && w < |s.wfs|
    ensures SameFor(s, Frame(s, r, v), w) && |Frame(s, r, v).wfs| == |s.wfs|
  {
    hide Route, Existing, PendingOf, Visited;
    var x, n := s.rows[r].wf, s.rows[r].node;
    VisitedLogged(s.hist, Succeeded(x, n, v), w);
    FramePending(s, r, v, w);
    hide Grows;
  }

  /** What one activation sends stays with its own workflow. */
  lemma FramePending(s: State, r: nat, v: Value, w: nat)
    requires Sound(s) && r < |s.rows|
    ensures var x, n := s.rows[r].wf, s.rows[r].node; var next := Route(s.wfs[x].graph, n, v);
      PendingOf(Frame(s, r, v).queue, w) == PendingOf(s.queue, w) +
        if x == w && next.Some? then Existing(s.wfs[x].graph, next.value) else []
  {
    hide Route, PendingOf, Visited;
    var x, n := s.rows[r].wf, s.rows[r].node;
    var next := Route(s.wfs[x].graph, n, v);
    if next.Some? {
      var ids := Existing(s.wfs[x].graph, next.value);
      PendingConcat(s.queue, Send(x, ids), w);
      PendingSend(x, ids, w);
    }
  }

  lemma {:induction false} SuccessElsewhere(s: State, r: nat, v: Value, w: nat)
    requires Sound(s) && r < |s.rows| && s.rows[r].wf != w && w < |s.wfs| && Childless(s, w)
    ensures SameFor(s, HandleTaskSuccess(s, r, v).state, w)
    decreases s.rows[r].wf
  {
    hide Route, Frame;
    var x := s.rows[r].wf;
    var t := Frame(s, r, v);
    FrameElsewhere(s, r, v, w);
    var next := Route(s.wfs[x].graph, s.rows[r].node, v);
    if next == Some([]) && ParentRow(t, x).Some? {
      var q := ParentRow(t, x).value;
      StaysChildless(s, t, w);
      SuccessElsewhere(t, q, v, w);
      SameForTrans(s, t, HandleTaskSuccess(t, q, v).state, w);
    }
  }

  lemma StaysChildless(s: State, t: State, w: nat)
    requires Grows(s, t) && |t.wfs| == |s.wfs| && Childless(s, w)
    ensures Childless(t, w)
  {
  }

  lemma {:induction false} FailureElsewhere(s: State, r: nat, timedOut: bool, w: nat)
    requires Sound(s) && r < |s.rows| && s.rows[r].wf != w && w < |s.wfs| && Childless(s, w)
    ensures SameFor(s, OnFailure(s, r, timedOut), w)
    decreases s.rows[r].wf
  {
    var t := Fail(s, r, timedOut);
    assert SameFor(s, t, w);
    var q := ParentRow(t, s.rows[r].wf);
    if q.Some? {
      StaysChildless(s, t, w);
      FailureElsewhere(t, q.value, timedOut, w);
      SameForTrans(s, t, OnFailure(t, q.value, timedOut), w);
    }
  }

  /** The event is about another workflow, or about a worker holding nothing of this one. */
  ghost predicate Elsewhere(s: State, e: Event, w: nat)
    requires Sound(s) && Enabled(s, e)
  {
    match e
    case Launch(_) => true
    case Start(x) => x != w
    case Deliver(i) => s.queue[i].wf != w
    case Begin(r, _) => s.rows[r].wf != w
    case Delegate(r, _) => s.rows[r].wf != w
    case Return(r, _) => s.rows[r].wf != w
    case Raise(r, _) => s.rows[r].wf != w
    case Kill(r) => s.rows[r].wf != w
    case Pause(x) => x != w
    case Resume(x) => x != w
    case Cancel(x) => x != w
    case Sweep(worker) => forall r :: 0 <= r < |s.rows| && s.rows[r].wf == w ==> s.rows[r].worker != Some(worker)
  }

  lemma ReturnElsewhere(s: State, r: nat, v: Value, w: nat)
    requires Sound(s) && r < |s.rows| && s.rows[r].wf != w && w < |s.wfs| && Childless(s, w)
    ensures SameFor(s, OnSuccess(s, r, v), w)
  {
    hide HandleTaskSuccess, OnFailure;
    var b := Stop(s, r);
    assert SameFor(s, b, w);
    if s.rows[r].status != TNested {
      StaysChildless(s, b, w);
      var o := HandleTaskSuccess(b, r, v);
      SuccessElsewhere(b, r, v, w);
      SameForTrans(s, b, o.state, w);
      if o.raised {
        SuccessKeepsTables(b, r, v);
        StaysChildless(b, o.state, w);
        FailureElsewhere(o.state, r, false, w);
        SameForTrans(s, o.state, OnFailure(o.state, r, false), w);
      }
    }
  }

  lemma {:induction false} SuccessKeepsTables(s: State, r: nat, v: Value)
    requires Sound(s) && r < |s.rows|
    ensures |HandleTaskSuccess(s, r, v).state.wfs| == |s.wfs|
    decreases s.rows[r].wf
  {
    hide Route, Existing;
    var t := Frame(s, r, v);
    var q := ParentRow(t, s.rows[r].wf);
    if q.Some? {
      SuccessKeepsTables(t, q.value, v);
    }
  }

  lemma MessagesElsewhere(s: State, e: Event, w: nat)
    requires Sound(s) && Enabled(s, e) && Elsewhere(s, e, w) && w < |s.wfs|
    requires e.Start? || e.Deliver? || e.Resume?
    ensures SameFor(s, Step(s, e), w)
  {
    hide Ready, StartSends, Busy, Visited, PendingOf;
    var t := Step(s, e);
    if |t.hist| > |s.hist| {
      assert t.hist == s.hist + [t.hist[|s.hist|]];
      VisitedLogged(s.hist, t.hist[|s.hist|], w);
    }
    match e
    case Start(x) =>
      PendingConcat(s.queue, Send(x, StartSends(s.wfs[x].graph)), w);
      PendingSend(x, StartSends(s.wfs[x].graph), w);
    case Deliver(i) =>
      PendingRemove(s.queue, i, w);
    case Resume(x) =>
      PendingConcat(s.queue, Send(x, [s.wfs[x].current]), w);
      PendingSend(x, [s.wfs[x].current], w);
      assert Send(x, [s.wfs[x].current]) == [Message(x, s.wfs[x].current)];
  }

  lemma EventElsewhere(s: State, e: Event, w: nat)
    requires Sound(s) && Enabled(s, e) && Elsewhere(s, e, w) && w < |s.wfs| && Childless(s, w)
    ensures SameFor(s, Step(s, e), w)
  {
    hide OnSuccess, OnFailure, ProcessNextNode, ExecuteWorkflow, ResumeWorkflow, Grows, Sound;
    if e.Return? {
      ReturnElsewhere(s, e.row, e.value, w);
    } else if e.Raise? {
      RaiseElsewhere(s, e.row, e.timedOut, w);
    } else if e.Start? || e.Deliver? || e.Resume? {
      MessagesElsewhere(s, e, w);
    } else {
      QuietElsewhere(s, e, w);
    }
  }

  lemma QuietElsewhere(s: State, e: Event, w: nat)
    requires Sound(s) && Enabled(s, e) && Elsewhere(s, e, w) && w < |s.wfs| && Childless(s, w)
    requires !e.Return? && !e.Raise? && !e.Start? && !e.Deliver? && !e.Resume?
    ensures SameFor(s, Step(s, e), w)
  {
    hide OnSuccess, OnFailure, OnRaise, ProcessNextNode, ExecuteWorkflow, ResumeWorkflow, Grows, PendingOf, Visited;
  }

  lemma RaiseElsewhere(s: State, r: nat, timedOut: bool, w: nat)
    requires Sound(s) && r < |s.rows| && s.rows[r].wf != w && w < |s.wfs| && Childless(s, w)
    ensures SameFor(s, OnRaise(s, r, timedOut), w)
  {
    hide OnFailure;
    var b := Stop(s, r);
    StaysChildless(s, b, w);
    FailureElsewhere(b, r, timedOut, w);
    SameForTrans(s, b, OnRaise(s, r, timedOut), w);
  }

  lemma TokenElsewhere(s: State, t: State, w: nat, p: seq<NodeId>, i: nat, f: Place)
    requires Token(s, w, p, i, f) && SameFor(s, t, w)
    ensures Token(t, w, p, i, f)
  {
    hide Line, TokenRows, TokenStatus, PendingOf, Visited;
    TokenRowsElsewhere(s.rows, t.rows, w, p, i, f == Held);
  }

  /** Rows of other workflows do not matter. */
  lemma TokenRowsElsewhere(rows: seq<Row>, more: seq<Row>, w: nat, p: seq<NodeId>, i: nat, running: bool)
    requires i <= |p| && (running ==> i < |p|) && TokenRows(rows, w, p, i, running)
    requires |rows| <= |more|
    requires forall r :: 0 <= r < |rows| && rows[r].wf == w ==> more[r] == rows[r]
    requires forall r :: 0 <= r < |rows| ==> IsAt(more[r], rows[r].wf, rows[r].node)
    requires forall r :: |rows| <= r < |more| ==> more[r].wf != w
    ensures TokenRows(more, w, p, i, running)
  {
    forall j | 0 <= j < i ensures DoneRow(more, w, p[j]) {
      var r :| Only(rows, w, p[j], r) && rows[r].status == TSuccess && rows[r].phase == Done;
      assert Only(more, w, p[j], r);
    }
    if running {
      var r :| Only(rows, w, p[i], r) && rows[r].status in {TInit, TProgress} && rows[r].phase in {Created, Running};
      assert Only(more, w, p[i], r);
    }
    forall j | (if running then i + 1 else i) <= j < |p| ensures Missing(more, w, p[j]) {
      MissingElsewhere(rows, more, w, p[j]);
    }
  }

  lemma MissingElsewhere(rows: seq<Row>, more: seq<Row>, w: nat, n: NodeId)
    requires Missing(rows, w, n) && |rows| <= |more|
    requires forall r :: 0 <= r < |rows| && rows[r].wf == w ==> more[r] == rows[r]
    requires forall r :: 0 <= r < |rows| ==> IsAt(more[r], rows[r].wf, rows[r].node)
    requires forall r :: |rows| <= r < |more| ==> more[r].wf != w
    ensures Missing(more, w, n)
  {
    forall x | x in more ensures !IsAt(x, w, n) {
      var r :| 0 <= r < |more| && more[r] == x;
      if r < |rows| {
        assert rows[r] in rows;
      }
    }
  }
}
