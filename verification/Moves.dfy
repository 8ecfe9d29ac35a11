/**
 * Every event is a chain of moves, each touching one row and its own workflow at most. An
 * invariant is proved over single moves and then holds in every reachable state.
 */
module Moves {
  import opened Wrappers
  import opened Graphs
  import opened Tables
  import opened Protocol

  /** A row's own end, a row completed or failed on behalf of a child, and the events without recursion. */
  datatype Move =
    | Do(event: Event)
    | Finish(row: nat, value: Value)
    | Lift(row: nat, value: Value, child: nat)
    | Break(row: nat, timedOut: bool)

  ghost predicate IsChild(s: State, x: nat, w: nat, n: NodeId) {
    x < |s.wfs| && s.wfs[x].parent == Some(w) && s.wfs[x].node == n
  }

  ghost predicate Can(s: State, m: Move) {
    && Sound(s)
    && match m
       case Do(e) => Enabled(s, e) && !e.Return? && !e.Raise?
       case Finish(r, v) => Enabled(s, Return(r, v)) && s.rows[r].status != TNested
       case Lift(q, _, x) => q < |s.rows| && IsChild(s, x, s.rows[q].wf, s.rows[q].node)
       case Break(r, _) => r < |s.rows|
  }

  ghost function Made(s: State, m: Move): (t: State)
    requires Can(s, m)
    ensures Sound(t) && Grows(s, t)
  {
    match m
    case Do(e) => Step(s, e)
    case Finish(r, v) => Frame(Stop(s, r), r, v)
    case Lift(q, v, _) => Frame(s, q, v)
    case Break(r, timedOut) => Fail(s, r, timedOut)
  }

  ghost predicate Chain(s: State, ms: seq<Move>, t: State)
    decreases |ms|
  {
    if ms == [] then s == t
    else Can(s, ms[0]) && Chain(Made(s, ms[0]), ms[1..], t)
  }

  lemma {:induction false} Concat(s: State, ms: seq<Move>, t: State, ns: seq<Move>, u: State)
    requires Chain(s, ms, t) && Chain(t, ns, u)
    ensures Chain(s, ms + ns, u)
    decreases |ms|
  {
    hide Made, Can;
    if ms == [] {
      assert ms + ns == ns;
    } else {
      Concat(Made(s, ms[0]), ms[1..], t, ns, u);
      assert (ms + ns)[1..] == ms[1..] + ns;
    }
  }

  lemma {:induction false} SuccessMoves(s: State, r: nat, v: Value, m: Move) returns (ms: seq<Move>)
    requires Sound(s) && r < |s.rows|
    requires m.Lift? && m.row == r && m.value == v && Can(s, m)
    ensures Chain(s, ms, HandleTaskSuccess(s, r, v).state) && forall x :: x in ms ==> !x.Do?
    decreases s.rows[r].wf
  {
    var t := Frame(s, r, v);
    ms := AboveMoves(s, r, v, t);
    assert Chain(Made(s, m), ms, HandleTaskSuccess(s, r, v).state);
    assert ([m] + ms)[1..] == ms;
    ms := [m] + ms;
  }

  /** The moves after the first activation. */
  lemma {:induction false} AboveMoves(s: State, r: nat, v: Value, t: State) returns (ms: seq<Move>)
    requires Sound(s) && r < |s.rows| && t == Frame(s, r, v)
    ensures Chain(t, ms, HandleTaskSuccess(s, r, v).state) && forall x :: x in ms ==> !x.Do?
    decreases s.rows[r].wf, 0
  {
    var w := s.rows[r].wf;
    var next := Route(s.wfs[w].graph, s.rows[r].node, v);
    ms := [];
    if next == Some([]) {
      var q := ParentRow(t, w);
      if q.Some? {
        ms := SuccessMoves(t, q.value, v, Lift(q.value, v, w));
      }
    }
  }

  lemma {:induction false} FailureMoves(s: State, r: nat, timedOut: bool) returns (ms: seq<Move>)
    requires Sound(s) && r < |s.rows|
    ensures Chain(s, ms, OnFailure(s, r, timedOut)) && forall x :: x in ms ==> !x.Do?
    decreases s.rows[r].wf
  {
    var m := Break(r, timedOut);
    var t := Fail(s, r, timedOut);
    assert Made(s, m) == t;
    var q := ParentRow(t, s.rows[r].wf);
    ms := [];
    if q.Some? {
      ms := FailureMoves(t, q.value, timedOut);
    }
    assert ([m] + ms)[1..] == ms;
    ms := [m] + ms;
  }

  lemma Prepend(s: State, m: Move, ms: seq<Move>, t: State)
    requires Can(s, m) && Chain(Made(s, m), ms, t)
    ensures Chain(s, [m] + ms, t)
  {
    hide Made, Can;
    assert ([m] + ms)[1..] == ms;
  }

  lemma ReturnMoves(s: State, r: nat, v: Value) returns (ms: seq<Move>)
    requires Sound(s) && Enabled(s, Return(r, v))
    ensures Chain(s, ms, OnSuccess(s, r, v)) && forall x :: x in ms && x.Do? ==> x.event == Kill(r)
  {
    hide HandleTaskSuccess, OnFailure, Frame, Fail, Chain;
    if s.rows[r].status == TNested {
      ms := OneMove(s, Do(Kill(r)));
    } else {
      var t := Stop(s, r);
      var o := HandleTaskSuccess(t, r, v);
      ms := AboveMoves(t, r, v, Frame(t, r, v));
      Prepend(s, Finish(r, v), ms, o.state);
      ms := [Finish(r, v)] + ms;
      if o.raised {
        var ns := FailureMoves(o.state, r, false);
        Concat(s, ms, o.state, ns, OnFailure(o.state, r, false));
        ms := ms + ns;
      }
    }
  }

  lemma OneMove(s: State, m: Move) returns (ms: seq<Move>)
    requires Can(s, m)
    ensures ms == [m] && Chain(s, ms, Made(s, m))
  {
    hide Made, Can;
    ms := [m];
    assert ms[1..] == [];
  }

  lemma EventMoves(s: State, e: Event) returns (ms: seq<Move>)
    requires Sound(s) && Enabled(s, e)
    ensures Chain(s, ms, Step(s, e)) && forall x :: x in ms && x.Do? ==> x.event == e || x.event.Kill?
  {
    hide OnSuccess, OnFailure, Chain;
    match e
    case Return(r, v) =>
      ms := ReturnMoves(s, r, v);
    case Raise(r, timedOut) =>
      var t := Stop(s, r);
      ms := FailureMoves(t, r, timedOut);
      Prepend(s, Do(Kill(r)), ms, OnFailure(t, r, timedOut));
      ms := [Do(Kill(r))] + ms;
    case _ =>
      ms := OneMove(s, Do(e));
  }

  lemma {:induction false} RunMoves(s: State, es: seq<Event>, t: State) returns (ms: seq<Move>)
    requires Leads(s, es, t)
    ensures Chain(s, ms, t)
    decreases |es|
  {
    if es == [] {
      ms := [];
    } else {
      var u := Step(s, es[0]);
      var first := EventMoves(s, es[0]);
      var rest := RunMoves(u, es[1..], t);
      Concat(s, first, u, rest, t);
      ms := first + rest;
    }
  }
}
