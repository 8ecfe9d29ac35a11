/** The workflow template: nodes, connections, and the routing read off them. */
module Graphs {
  import opened Wrappers

  type NodeId = string

  /** The node types the engine tells apart: user code, a branch, and a call of another workflow. */
  datatype Kind = SourceCode | Condition | Call

  datatype Connection = Connection(source: NodeId, target: NodeId, output: string)

  /** `nodes` lists the keys of the dictionary `kind` in insertion order. */
  datatype Graph = Graph(nodes: seq<NodeId>, kind: map<NodeId, Kind>, connections: seq<Connection>)

  /**
   * What user code returned, or what is stored for it. `Nothing` stands for every falsy value,
   * `Verdict` for a dictionary holding the key "result"; `Notice` and `Failure` are the
   * dictionaries the engine itself stores.
   */
  datatype Value = Nothing | Verdict(truth: bool) | Opaque(id: nat) | Notice | Failure

  /** Distinct keys, and exactly the keys of the dictionary. */
  ghost predicate Keyed(g: Graph) {
    && (forall i, j :: 0 <= i < j < |g.nodes| ==> g.nodes[i] != g.nodes[j])
    && (forall n :: n in g.nodes <==> n in g.kind)
  }

  /** Whether building the adjacency list succeeds: every source is a key. */
  predicate SourcesKnown(g: Graph) {
    forall c :: c in g.connections ==> c.source in g.kind
  }

  ghost predicate TargetsKnown(g: Graph) {
    forall c :: c in g.connections ==> c.target in g.kind
  }

  ghost predicate Plain(g: Graph) {
    forall n :: n in g.kind ==> !g.kind[n].Condition?
  }

  ghost predicate CallFree(g: Graph) {
    forall n :: n in g.kind ==> !g.kind[n].Call?
  }

  ghost predicate Edge(g: Graph, a: NodeId, b: NodeId) {
    exists c :: c in g.connections && c.source == a && c.target == b
  }

  /** `n`'s entry of the adjacency list: targets in connection order, repeats kept. */
  function Targets(cs: seq<Connection>, n: NodeId): (ts: seq<NodeId>)
    ensures forall t :: t in ts <==> exists c :: c in cs && c.source == n && c.target == t
  {
    if cs == [] then
      []
    else
      var last := cs[|cs| - 1];
      var before := Targets(cs[..|cs| - 1], n);
      assert cs == cs[..|cs| - 1] + [last];
      if last.source == n then before + [last.target] else before
  }

  predicate IsTarget(cs: seq<Connection>, n: NodeId) {
    exists c :: c in cs && c.target == n
  }

  /** The first connection out of `n` through `output`, or none. */
  function Chosen(cs: seq<Connection>, n: NodeId, output: string): (t: Option<NodeId>)
    ensures t.Some? <==> exists i :: 0 <= i < |cs| && cs[i].source == n && cs[i].output == output
    ensures t.Some? ==> exists i ::
      && 0 <= i < |cs| && cs[i].source == n && cs[i].output == output && cs[i].target == t.value
      && forall j :: 0 <= j < i ==> !(cs[j].source == n && cs[j].output == output)
  {
    if cs == [] then
      None
    else
      var before := Chosen(cs[..|cs| - 1], n, output);
      var last := cs[|cs| - 1];
      if before.Some? then before
      else if last.source == n && last.output == output then
        assert cs[|cs| - 1] == last;
        Some(last.target)
      else None
  }

  /** Connection `i` leaves `n` by `output`. */
  ghost predicate LeavesBy(cs: seq<Connection>, i: int, n: NodeId, output: string) {
    0 <= i < |cs| && cs[i].source == n && cs[i].output == output
  }

  /** It is the first to do so. */
  ghost predicate FirstOut(cs: seq<Connection>, i: int, n: NodeId, output: string) {
    LeavesBy(cs, i, n, output) && forall j :: 0 <= j < i ==> !LeavesBy(cs, j, n, output)
  }

  function OutputFor(truth: bool): string {
    if truth then "out_true" else "out_false"
  }

  /**
   * The nodes that follow `n` once it returned `v`; `None` when the source raises (an unknown
   * source or node, or a condition whose value has no "result"). The empty id is falsy, so a
   * condition routed to it has no next node.
   */
  function Route(g: Graph, n: NodeId, v: Value): (next: Option<seq<NodeId>>)
    ensures next.Some? ==> SourcesKnown(g) && n in g.kind && forall t :: t in next.value ==> Edge(g, n, t)
    ensures next.Some? && g.kind[n].Condition? ==> |next.value| <= 1
  {
    if !SourcesKnown(g) || n !in g.kind then
      None
    else if g.kind[n].Condition? then
      if v.Verdict? then
        var t := Chosen(g.connections, n, OutputFor(v.truth));
        Some(if t.Some? && t.value != "" then [t.value] else [])
      else
        None
    else
      Some(Targets(g.connections, n))
  }

  /** Targets that are keys; the others are logged and skipped. */
  function Existing(g: Graph, ids: seq<NodeId>): (r: seq<NodeId>)
    ensures forall n :: n in r <==> n in ids && n in g.kind
  {
    if ids == [] then []
    else
      var before := Existing(g, ids[..|ids| - 1]);
      var last := ids[|ids| - 1];
      assert ids == ids[..|ids| - 1] + [last];
      if last in g.kind then before + [last] else before
  }

  /** Nodes among `ids` that no connection targets. */
  function Roots(cs: seq<Connection>, ids: seq<NodeId>): (r: seq<NodeId>)
    ensures forall n :: n in r <==> n in ids && !IsTarget(cs, n)
  {
    if ids == [] then []
    else
      var before := Roots(cs, ids[..|ids| - 1]);
      var last := ids[|ids| - 1];
      assert ids == ids[..|ids| - 1] + [last];
      if IsTarget(cs, last) then before else before + [last]
  }

  /** How often `n` occurs in `ids`. */
  function Occurs(ids: seq<NodeId>, n: NodeId): nat {
    if ids == [] then 0
    else Occurs(ids[..|ids| - 1], n) + if ids[|ids| - 1] == n then 1 else 0
  }

  /** The number of connections from `a` to `b`. */
  function EdgeCount(cs: seq<Connection>, a: NodeId, b: NodeId): nat {
    if cs == [] then 0
    else
      var last := cs[|cs| - 1];
      EdgeCount(cs[..|cs| - 1], a, b) + if last.source == a && last.target == b then 1 else 0
  }

  /** The number of connections into `n`. */
  function InDegree(cs: seq<Connection>, n: NodeId): nat {
    if cs == [] then 0
    else InDegree(cs[..|cs| - 1], n) + if cs[|cs| - 1].target == n then 1 else 0
  }

  /** A sequence of nodes, each connected to the next. */
  ghost predicate IsPath(g: Graph, p: seq<NodeId>) {
    |p| > 0 && forall i :: 0 <= i < |p| - 1 ==> Edge(g, p[i], p[i + 1])
  }

  /** `a` comes strictly before `n`: some path of at least one connection leads from `a` to `n`. */
  ghost predicate Ancestor(g: Graph, a: NodeId, n: NodeId) {
    exists p :: IsPath(g, p) && |p| > 1 && p[0] == a && p[|p| - 1] == n
  }

  /** No path returns to its first node. */
  ghost predicate Acyclic(g: Graph) {
    forall n :: !Ancestor(g, n, n)
  }

  predicate IsCall(g: Graph, n: NodeId) {
    n in g.kind && g.kind[n].Call?
  }

  ghost predicate Sink(g: Graph, n: NodeId) {
    n in g.kind && !exists c :: c in g.connections && c.source == n
  }
}
