/** How a line that is itself nested ends: its last return goes on up the chain of parents. */
module NestedLines {
  import opened Wrappers
  import opened Graphs
  import opened Tables
  import opened Protocol
  import opened Nesting
  import opened Tokens
  import opened PauseResume

  lemma {:induction false} SuccessVisits(s: State, r: nat, v: Value, w: nat)
    requires Sound(s) && r < |s.rows|
    ensures Visited(HandleTaskSuccess(s, r, v).state.hist, w) == Visited(s.hist, w)
    decreases s.rows[r].wf
  {
    hide Route, Existing, Visited;
    var t := Frame(s, r, v);
    VisitedLogged(s.hist, Succeeded(s.rows[r].wf, s.rows[r].node, v), w);
    var q := ParentRow(t, s.rows[r].wf);
    if q.Some? {
      SuccessVisits(t, q.value, v, w);
    }
  }

  lemma {:induction false} FailureVisits(s: State, r: nat, timedOut: bool)
    requires Sound(s) && r < |s.rows|
    ensures OnFailure(s, r, timedOut).hist == s.hist
    decreases s.rows[r].wf
  {
    var t := Fail(s, r, timedOut);
    var q := ParentRow(t, s.rows[r].wf);
    if q.Some? {
      FailureVisits(t, q.value, timedOut);
    }
  }

  lemma ReturnVisits(s: State, r: nat, v: Value, w: nat)
    requires Sound(s) && r < |s.rows|
    ensures Visited(OnSuccess(s, r, v).hist, w) == Visited(s.hist, w)
  {
    hide HandleTaskSuccess, OnFailure, Visited;
    var b := Stop(s, r);
    SuccessVisits(b, r, v, w);
    FailureVisits(HandleTaskSuccess(b, r, v).state, r, false);
  }

  /** The first level of a climb that starts at a last node is closed by it. */
  lemma FirstCloses(s: State, c: seq<nat>, q: seq<nat>, v: Value)
    requires Lineage(s, c, q) && AllLast(s, c, q, v) && RouteAt(s, q, 0, v) == Some([])
    ensures ClosedCount(s, c, q, v) >= 1
    ensures forall o :: Propagated(s, o, c, q, v) ==> c[0] < |o.state.wfs| && o.state.wfs[c[0]].status == WSuccess
  {
    hide Route, Above;
    if RouteAt(s, q, |q| - 1, v) != Some([]) {
      assert |c| > 1 && c[..|c| - 1][0] == c[0];
    }
  }

  /**
   * The last return of a nested line: all nodes were visited in order, each once, and the line is in
   * SUCCESS unless the climb through its parents raises, when it is in ERROR with the whole lineage.
   */
  lemma NestedLineEnds(s: State, r: nat, v: Value, w: nat, p: seq<NodeId>) returns (d: seq<nat>, k: seq<nat>, n: nat)
    requires |p| > 0 && Token(s, w, p, |p| - 1, Held)
    requires r < |s.rows| && s.rows[r].wf == w && s.rows[r].phase == Running
    ensures var b := Stop(s, r); Lineage(b, d, k) && k[0] == r && 1 <= n <= |d| && Lineage(b, d[..n], k[..n])
    ensures Visited(OnSuccess(s, r, v).hist, w) == p
    ensures var b, t := Stop(s, r), OnSuccess(s, r, v);
      if Raises(b, d[..n], k[..n], v)
      then t.wfs[w].status == WError && OnlyErred(b, t, d, k, ClosedCount(b, d[..n], k[..n], v))
      else t.wfs[w].status == WSuccess && Propagated(b, Outcome(t, false), d[..n], k[..n], v)
  {
    hide OnSuccess, Visited, Grows, OnlyErred, Propagated, Raises, Line, TokenRows, PendingOf;
    HeldRow(s, w, p, |p| - 1, Held, r);
    TokenVisits(s, w, p, |p| - 1, Held);
    assert p[..|p|] == p;
    ReturnVisits(s, r, v, w);
    LineRoute(s.wfs[w].graph, p, |p| - 1, v);
    d, k, n := ReturnOutcome(s, r, v);
    EndsHere(s, r, v, w, d, k, n);
  }

  lemma EndsHere(s: State, r: nat, v: Value, w: nat, d: seq<nat>, k: seq<nat>, n: nat)
    requires Sound(s) && r < |s.rows| && s.rows[r].wf == w && Route(s.wfs[w].graph, s.rows[r].node, v) == Some([])
    requires var b := Stop(s, r);
      && Lineage(b, d, k) && k[0] == r && 1 <= n <= |d| && Lineage(b, d[..n], k[..n]) && AllLast(b, d[..n], k[..n], v)
    requires var b := Stop(s, r);
      !Raises(b, d[..n], k[..n], v) ==> Propagated(b, Outcome(OnSuccess(s, r, v), false), d[..n], k[..n], v)
    requires var b := Stop(s, r);
      Raises(b, d[..n], k[..n], v) ==> OnlyErred(b, OnSuccess(s, r, v), d, k, ClosedCount(b, d[..n], k[..n], v))
    ensures OnSuccess(s, r, v).wfs[w].status == if Raises(Stop(s, r), d[..n], k[..n], v) then WError else WSuccess
  {
    hide OnSuccess, Route, Above, Raises, Propagated, AllLast, Grows;
    var b := Stop(s, r);
    assert d[0] == w && d[..n][0] == d[0] && k[..n][0] == k[0];
    FirstCloses(b, d[..n], k[..n], v);
  }
}
