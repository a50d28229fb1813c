/** The discovery flow graph as a value: what one observation, and the end of the call, make of it. */
module GraphModel {
  import opened RunTypes

  datatype NodeKind = Greeting | Gate | Menu | Intent | Handoff | Other

  datatype GateResult = Pending | Passed | Rejected

  datatype Observation = Observation(
    key: string,
    title: string,
    kind: NodeKind,
    result: Option<GateResult>,
    reason: Option<string>)

  datatype NodeState = Mapped | Blocked

  datatype Node = Node(
    title: string,
    kind: NodeKind,
    depth: nat,
    row: nat,
    parent: Option<string>,
    firstTurn: int,
    incoming: seq<string>,
    visits: nat,
    passed: bool,
    rejection: Option<string>,
    unresolved: bool,
    state: NodeState,
    reason: Option<string>)

  /** `order` lists the keys of `nodes` in the order of their insertion. */
  datatype Graph = Graph(
    order: seq<string>,
    nodes: map<string, Node>,
    rows: map<nat, nat>,
    current: Option<string>,
    lastGate: Option<string>)

  const EMPTY_GRAPH := Graph([], map[], map[], None, None)

  const DEFAULT_REJECTION := "The agent did not accept the supplied details."
  const UNRESOLVED_GATE := "The call ended before the agent accepted or rejected the supplied details."

  // Well-formed graphs

  ghost predicate Indexed(g: Graph) {
    Distinct(g.order) && forall k :: k in g.order <==> k in g.nodes
  }

  ghost predicate Located(g: Graph) {
    && (g.current == None <==> g.order == [])
    && (g.current.Some? ==> g.current.value in g.nodes)
    && (g.lastGate.Some? ==> g.lastGate.value in g.nodes && g.nodes[g.lastGate.value].kind == Gate)
    && (g.lastGate.None? ==> forall k :: k in g.nodes ==> g.nodes[k].kind != Gate)
  }

  /** One root, the first node; every other node one layer below its parent. */
  ghost predicate Treed(g: Graph) {
    forall k :: k in g.nodes ==>
                  var n := g.nodes[k];
                  if g.order != [] && k == g.order[0] then n.parent == None && n.depth == 0
                  else n.parent.Some? && n.parent.value in g.nodes && n.depth == g.nodes[n.parent.value].depth + 1
  }

  /** Edges join known nodes, are recorded once, are no self-loops, and include those to the parents. */
  ghost predicate Edged(g: Graph) {
    forall k :: k in g.nodes ==>
                  && Distinct(g.nodes[k].incoming) && k !in g.nodes[k].incoming
                  && (forall from :: from in g.nodes[k].incoming ==> from in g.nodes)
                  && (g.nodes[k].parent.Some? ==> g.nodes[k].parent.value in g.nodes[k].incoming)
  }

  function RowsAt(g: Graph, depth: nat): nat {
    if depth in g.rows then g.rows[depth] else 0
  }

  ghost predicate Sits(g: Graph, k: string, depth: nat, row: nat) {
    k in g.nodes && g.nodes[k].depth == depth && g.nodes[k].row == row
  }

  /** No two nodes share a position, and each layer's rows are filled from 0 without a hole. */
  ghost predicate LaidOut(g: Graph) {
    && (forall k :: k in g.nodes ==> g.nodes[k].row < RowsAt(g, g.nodes[k].depth))
    && (forall j, k, depth, row :: Sits(g, j, depth, row) && Sits(g, k, depth, row) ==> j == k)
    && (forall depth: nat, row: nat {:trigger Taken(g, depth, row)} :: row < RowsAt(g, depth) ==> Taken(g, depth, row))
  }

  ghost predicate Taken(g: Graph, depth: nat, row: nat) {
    exists k :: Sits(g, k, depth, row)
  }

  /** Every node's state is the one its gate flags call for, and no reason is empty. */
  ghost predicate Refined(g: Graph) {
    forall k :: k in g.nodes ==> g.nodes[k] == Refreshed(g.nodes[k]) && g.nodes[k].rejection != Some("")
  }

  ghost predicate WellFormed(g: Graph) {
    Indexed(g) && Located(g) && Treed(g) && Edged(g) && LaidOut(g) && Refined(g)
  }

  // One observation

  function Refreshed(n: Node): Node {
    if n.passed then n.(state := Mapped, reason := None)
    else if n.rejection.Some? then n.(state := Blocked, reason := n.rejection)
    else if n.unresolved then n.(state := Blocked, reason := Some(UNRESOLVED_GATE))
    else n.(state := Mapped, reason := None)
  }

  /** Consecutive questions of one identity check stay on one gate. */
  function Folded(g: Graph, obs: Observation): Observation
    requires Located(g)
  {
    if obs.kind == Gate && g.current.Some? && g.nodes[g.current.value].kind == Gate
    then obs.(key := g.current.value, title := g.nodes[g.current.value].title)
    else obs
  }

  function FirstOfKind(order: seq<string>, nodes: map<string, Node>, kind: NodeKind): (k: Option<string>)
    requires forall k :: k in order ==> k in nodes
    ensures k.Some? ==> k.value in order && nodes[k.value].kind == kind
  {
    if order == [] then None
    else if nodes[order[0]].kind == kind then Some(order[0])
    else FirstOfKind(order[1..], nodes, kind)
  }

  /** From one topic to the next the agent passes its menu, if it has shown one. */
  function ViaMenu(g: Graph, obs: Observation): (menu: Option<string>)
    requires Indexed(g) && Located(g)
    ensures menu.Some? ==> menu.value in g.nodes && g.current.Some? && g.current.value != menu.value
  {
    if (obs.kind == Intent || obs.kind == Handoff) && g.current.Some? && g.nodes[g.current.value].kind == Intent
       && obs.key != g.current.value
    then FirstOfKind(g.order, g.nodes, Menu)
    else None
  }

  function Source(g: Graph, obs: Observation): (source: Option<string>)
    requires Indexed(g) && Located(g)
    ensures source.Some? ==> source.value in g.nodes
    ensures source.None? <==> g.current.None?
  {
    if ViaMenu(g, obs).Some? then ViaMenu(g, obs) else g.current
  }

  function NewNode(g: Graph, turn: int, obs: Observation, parent: Option<string>): Node
    requires parent.Some? ==> parent.value in g.nodes
  {
    var depth := if parent.Some? then g.nodes[parent.value].depth + 1 else 0;
    Node(obs.title, obs.kind, depth, RowsAt(g, depth), parent, turn, [], 1, false, None, false, Mapped, None)
  }

  function Created(g: Graph, turn: int, obs: Observation, parent: Option<string>): Graph
    requires parent.Some? ==> parent.value in g.nodes
  {
    var n := NewNode(g, turn, obs, parent);
    g.(order := g.order + [obs.key], nodes := g.nodes[obs.key := n], rows := g.rows[n.depth := n.row + 1])
  }

  function Placed(g: Graph, turn: int, obs: Observation, parent: Option<string>): Graph
    requires parent.Some? ==> parent.value in g.nodes
  {
    if obs.key in g.nodes then g.(nodes := g.nodes[obs.key := g.nodes[obs.key].(visits := g.nodes[obs.key].visits + 1)])
    else Created(g, turn, obs, parent)
  }

  function Linked(g: Graph, from: string, to: string): Graph
    requires to in g.nodes
  {
    if from == to || from in g.nodes[to].incoming then g
    else g.(nodes := g.nodes[to := g.nodes[to].(incoming := g.nodes[to].incoming + [from])])
  }

  function Arrived(g: Graph, key: string): Graph
    requires key in g.nodes
  {
    g.(current := Some(key), lastGate := if g.nodes[key].kind == Gate then Some(key) else g.lastGate)
  }

  /** The node that a gate outcome seen at `key` is attributed to. */
  function GateFor(g: Graph, key: string): Option<string>
    requires key in g.nodes
  {
    if g.nodes[key].kind == Gate then Some(key)
    else
      var gate := if g.lastGate.Some? then g.lastGate.value else "";
      if gate in g.nodes then Some(gate) else None
  }

  function RejectionReason(obs: Observation): string {
    if obs.reason.Some? && obs.reason.value != "" then obs.reason.value else DEFAULT_REJECTION
  }

  function Outcome(n: Node, obs: Observation): Node
    requires obs.result.Some?
  {
    Refreshed(match obs.result.value
              case Passed => n.(passed := true)
              case Rejected => n.(rejection := Some(RejectionReason(obs)))
              case Pending => n)
  }

  function Attributed(g: Graph, obs: Observation): Option<string>
    requires obs.key in g.nodes
  {
    if obs.result.Some? then GateFor(g, obs.key) else None
  }

  function Judged(g: Graph, obs: Observation): Graph
    requires obs.key in g.nodes
  {
    var gate := Attributed(g, obs);
    if gate.Some? then g.(nodes := g.nodes[gate.value := Outcome(g.nodes[gate.value], obs)]) else g
  }

  /** The graph with the observed node in place and its edges drawn, before any gate outcome is applied. */
  function Moved(g: Graph, turn: int, obs: Observation): (moved: Graph)
    requires Indexed(g) && Located(g)
    ensures obs.key in moved.nodes
  {
    Arrived(Drawn(g, turn, obs), obs.key)
  }

  function Drawn(g: Graph, turn: int, obs: Observation): (drawn: Graph)
    requires Indexed(g) && Located(g)
    ensures obs.key in drawn.nodes
  {
    var placed := Placed(g, turn, obs, Source(g, obs));
    var hopped := if ViaMenu(g, obs).Some? then Linked(placed, g.current.value, ViaMenu(g, obs).value) else placed;
    if g.current.Some? then Linked(hopped, Source(g, obs).value, obs.key) else hopped
  }

  function Observed(g: Graph, turn: int, obs: Observation): Graph
    requires Indexed(g) && Located(g)
  {
    Judged(Moved(g, turn, Folded(g, obs)), Folded(g, obs))
  }

  // The end of the call

  function Ended(n: Node): Node {
    if n.kind != Gate || n.passed then n else Refreshed(n.(unresolved := true))
  }

  function Finalized(g: Graph): Graph {
    g.(nodes := map k | k in g.nodes :: Ended(g.nodes[k]))
  }

  // Changes

  datatype Shown = Shown(incoming: seq<string>, state: NodeState, reason: Option<string>)

  function ShownBy(n: Node): Shown {
    Shown(n.incoming, n.state, n.reason)
  }

  /** The node is new, or its edges, its state or its reason differ. */
  ghost predicate Differs(g: Graph, later: Graph, k: string) {
    k in later.nodes && (k in g.nodes ==> ShownBy(g.nodes[k]) != ShownBy(later.nodes[k]))
  }

  /** A known node that is no gate, with the same edges but another state. */
  ghost predicate Overlooked(g: Graph, later: Graph, k: string) {
    Differs(g, later, k) && k in g.nodes && g.nodes[k].kind != Gate && g.nodes[k].incoming == later.nodes[k].incoming
  }

  /** `changed` names, once each, the nodes that differ; `Overlooked` nodes are the exception. */
  ghost predicate Reports(changed: seq<string>, g: Graph, later: Graph) {
    Distinct(changed) && forall k :: k in changed <==> Differs(g, later, k) && !Overlooked(g, later, k)
  }

  ghost predicate ReportsExactly(changed: seq<string>, g: Graph, later: Graph) {
    Distinct(changed) && forall k :: k in changed <==> Differs(g, later, k)
  }
}
