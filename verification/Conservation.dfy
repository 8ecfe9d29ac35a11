/** Every message ever sent is either still queued or was taken, and the history says who sent it. */
module Conservation {
  import opened Wrappers
  import opened Graphs
  import opened Tables
  import opened Protocol
  import opened Moves
  import opened Safety

  /** Messages for node `n` of workflow `w` that one recorded happening sends. */
  function SentBy(g: Graph, e: Entry, w: nat, n: NodeId): nat {
    match e
    case Started(x) => if x == w then Occurs(StartSends(g), n) else 0
    case Succeeded(x, p, v) =>
      if x == w && Route(g, p, v).Some? then Occurs(Existing(g, Route(g, p, v).value), n) else 0
    case Resumed(x, m) => if x == w && m == n then 1 else 0
    case _ => 0
  }

  function Sent(g: Graph, h: seq<Entry>, w: nat, n: NodeId): nat {
    if h == [] then 0 else Sent(g, h[..|h| - 1], w, n) + SentBy(g, h[|h| - 1], w, n)
  }

  function TakenBy(e: Entry, w: nat, n: NodeId): nat {
    if e in {Parked(w, n), Dropped(w, n), Accepted(w, n)} then 1 else 0
  }

  /** Messages for node `n` of workflow `w` taken from the queue. */
  function Taken(h: seq<Entry>, w: nat, n: NodeId): nat {
    if h == [] then 0 else Taken(h[..|h| - 1], w, n) + TakenBy(h[|h| - 1], w, n)
  }

  ghost predicate Balanced(s: State, w: nat, n: NodeId)
    requires w < |s.wfs|
  {
    CountQueued(s.queue, w, n) + Taken(s.hist, w, n) == Sent(s.wfs[w].graph, s.hist, w, n)
  }

  ghost predicate Conserved(s: State) {
    forall w, n :: 0 <= w < |s.wfs| ==> Balanced(s, w, n)
  }

  lemma {:induction false} CountConcat(q: seq<Message>, r: seq<Message>, w: nat, n: NodeId)
    ensures CountQueued(q + r, w, n) == CountQueued(q, w, n) + CountQueued(r, w, n)
    decreases |r|
  {
    if r == [] {
      assert q + r == q;
    } else {
      var k := |r| - 1;
      CountConcat(q, r[..k], w, n);
      assert (q + r)[..|q| + k] == q + r[..k];
    }
  }

  lemma {:induction false} CountSend(x: nat, ids: seq<NodeId>, w: nat, n: NodeId)
    ensures CountQueued(Send(x, ids), w, n) == if x == w then Occurs(ids, n) else 0
    decreases |ids|
  {
    if ids != [] {
      var k := |ids| - 1;
      CountSend(x, ids[..k], w, n);
      assert Send(x, ids)[..k] == Send(x, ids[..k]);
    }
  }

  lemma CountRemove(q: seq<Message>, i: nat, w: nat, n: NodeId)
    requires i < |q|
    ensures CountQueued(q[..i] + q[i + 1..], w, n) == CountQueued(q, w, n) - if q[i] == Message(w, n) then 1 else 0
  {
    assert q == q[..i] + [q[i]] + q[i + 1..];
    CountConcat(q[..i] + [q[i]], q[i + 1..], w, n);
    CountConcat(q[..i], [q[i]], w, n);
    CountConcat(q[..i], q[i + 1..], w, n);
    assert CountQueued([], w, n) == 0;
    assert [q[i]][..0] == [];
  }

  lemma Logged(g: Graph, h: seq<Entry>, e: Entry, w: nat, n: NodeId)
    ensures Sent(g, h + [e], w, n) == Sent(g, h, w, n) + SentBy(g, e, w, n)
    ensures Taken(h + [e], w, n) == Taken(h, w, n) + TakenBy(e, w, n)
  {
    assert (h + [e])[..|h|] == h;
  }

  lemma FrameBalanced(s: State, r: nat, v: Value, w: nat, n: NodeId)
    requires Sound(s) && r < |s.rows| && w < |s.wfs| && Balanced(s, w, n)
    ensures Balanced(Frame(s, r, v), w, n)
  {
    hide Existing, Grows, Sent, Taken, CountQueued, Occurs;
    var x, m := s.rows[r].wf, s.rows[r].node;
    Logged(s.wfs[w].graph, s.hist, Succeeded(x, m, v), w, n);
    var next := Route(s.wfs[x].graph, m, v);
    if next.Some? && next.value != [] {
      var ids := Existing(s.wfs[x].graph, next.value);
      CountConcat(s.queue, Send(x, ids), w, n);
      CountSend(x, ids, w, n);
    } else if next.Some? {
      NothingToSend(s.wfs[x].graph, n);
    }
  }

  lemma NothingToSend(g: Graph, n: NodeId)
    ensures Occurs(Existing(g, []), n) == 0
  {
  }

  lemma DeliverBalanced(s: State, i: nat, w: nat, n: NodeId)
    requires Sound(s) && i < |s.queue| && w < |s.wfs| && Balanced(s, w, n)
    ensures Balanced(ProcessNextNode(s, i), w, n)
  {
    hide Sent, Taken, CountQueued, Ready;
    var t := ProcessNextNode(s, i);
    CountRemove(s.queue, i, w, n);
    Logged(s.wfs[w].graph, s.hist, t.hist[|s.hist|], w, n);
    assert t.hist == s.hist + [t.hist[|s.hist|]];
  }

  lemma SendBalanced(s: State, x: nat, w: nat, n: NodeId)
    requires Sound(s) && x < |s.wfs| && w < |s.wfs| && Balanced(s, w, n)
    ensures Balanced(ExecuteWorkflow(s, x), w, n) && Balanced(ResumeWorkflow(s, x), w, n)
  {
    hide Sent, Taken, CountQueued, Occurs, Busy, StartSends;
    var g := s.wfs[x].graph;
    Logged(s.wfs[w].graph, s.hist, Started(x), w, n);
    CountConcat(s.queue, Send(x, StartSends(g)), w, n);
    CountSend(x, StartSends(g), w, n);
    var m := s.wfs[x].current;
    Logged(s.wfs[w].graph, s.hist, Resumed(x, m), w, n);
    CountConcat(s.queue, [Message(x, m)], w, n);
    CountOne(x, m, w, n);
  }

  lemma CountOne(x: nat, m: NodeId, w: nat, n: NodeId)
    ensures CountQueued([Message(x, m)], w, n) == if x == w && m == n then 1 else 0
  {
    assert [Message(x, m)][..0] == [];
  }

  lemma MoveBalanced(s: State, m: Move, w: nat, n: NodeId)
    requires Can(s, m) && w < |s.wfs| && Balanced(s, w, n)
    ensures Balanced(Made(s, m), w, n)
  {
    hide Sent, Taken, CountQueued, Frame, ProcessNextNode, ExecuteWorkflow, ResumeWorkflow, Hit;
    match m
    case Do(Deliver(i)) => DeliverBalanced(s, i, w, n);
    case Do(Start(x)) => SendBalanced(s, x, w, n);
    case Do(Resume(x)) => SendBalanced(s, x, w, n);
    case Do(_) =>
    case Finish(r, v) => FrameBalanced(Stop(s, r), r, v, w, n);
    case Lift(r, v, _) => FrameBalanced(s, r, v, w, n);
    case Break(_, _) =>
  }

  lemma {:induction false} NothingQueued(q: seq<Message>, w: nat, n: NodeId)
    requires forall i :: 0 <= i < |q| ==> q[i].wf != w
    ensures CountQueued(q, w, n) == 0
    decreases |q|
  {
    if q != [] {
      NothingQueued(q[..|q| - 1], w, n);
    }
  }

  lemma {:induction false} NothingLogged(g: Graph, h: seq<Entry>, w: nat, n: NodeId)
    requires forall k :: 0 <= k < |h| ==> h[k].wf != w
    ensures Sent(g, h, w, n) == 0 && Taken(h, w, n) == 0
    decreases |h|
  {
    if h != [] {
      NothingLogged(g, h[..|h| - 1], w, n);
    }
  }

  lemma MoveConserved(s: State, m: Move)
    requires Can(s, m) && Fresh(s) && Conserved(s)
    ensures Conserved(Made(s, m))
  {
    hide Made, Can, Balanced;
    var t := Made(s, m);
    forall w, n | 0 <= w < |t.wfs| ensures Balanced(t, w, n) {
      if w < |s.wfs| {
        MoveBalanced(s, m, w, n);
      } else {
        NewBalanced(s, m, w, n);
      }
    }
  }

  /** A workflow just created has neither messages nor history. */
  lemma NewBalanced(s: State, m: Move, w: nat, n: NodeId)
    requires Can(s, m) && Fresh(s) && |s.wfs| <= w < |Made(s, m).wfs|
    ensures Balanced(Made(s, m), w, n)
  {
    hide Sent, Taken, CountQueued, Frame, ProcessNextNode, Grows;
    var t := Made(s, m);
    assert t.queue == s.queue && t.hist == s.hist by { CreatorsOnly(s, m); }
    NothingQueued(t.queue, w, n);
    NothingLogged(t.wfs[w].graph, t.hist, w, n);
  }

  lemma CreatorsOnly(s: State, m: Move)
    requires Can(s, m) && |s.wfs| < |Made(s, m).wfs|
    ensures Made(s, m).queue == s.queue && Made(s, m).hist == s.hist
  {
    hide Grows, Route, Existing, Ready, Busy, Hit, StartSends;
  }
}
