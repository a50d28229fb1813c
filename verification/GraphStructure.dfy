/** The shape every flow graph keeps: a tree with extra edges, laid out in layers that never move. */
module GraphStructure {
  import opened RunTypes
  import opened GraphModel

  // What one observation adds

  /** The edge that a move to `obs.key` asks for at node `k`. */
  function Inbound(g: Graph, obs: Observation, k: string): Option<string>
    requires Indexed(g) && Located(g)
  {
    if ViaMenu(g, obs) == Some(k) then g.current else if k == obs.key then Source(g, obs) else None
  }

  function IncomingOf(g: Graph, k: string): seq<string> {
    if k in g.nodes then g.nodes[k].incoming else []
  }

  /** That edge, when it is not there yet. */
  function Gains(g: Graph, obs: Observation, k: string): seq<string>
    requires Indexed(g) && Located(g)
  {
    var from := Inbound(g, obs, k);
    if from.Some? && from.value != k && from.value !in IncomingOf(g, k) then [from.value] else []
  }

  function MovedNode(g: Graph, turn: int, obs: Observation, k: string): Node
    requires Indexed(g) && Located(g) && (k in g.nodes || k == obs.key)
  {
    var n := if k !in g.nodes then NewNode(g, turn, obs, Source(g, obs))
             else g.nodes[k].(visits := g.nodes[k].visits + if k == obs.key then 1 else 0);
    n.(incoming := IncomingOf(g, k) + Gains(g, obs, k))
  }

  lemma LinkedMeaning(g: Graph, from: string, to: string, k: string)
    requires to in g.nodes && k in g.nodes
    ensures k in Linked(g, from, to).nodes
    ensures Linked(g, from, to).nodes[k] ==
            if k == to && from != to && from !in g.nodes[k].incoming
            then g.nodes[k].(incoming := g.nodes[k].incoming + [from])
            else g.nodes[k]
  {
  }

  lemma PlacedMeaning(g: Graph, turn: int, obs: Observation, k: string)
    requires Indexed(g) && Located(g) && (k in g.nodes || k == obs.key)
    ensures var placed := Placed(g, turn, obs, Source(g, obs));
            && k in placed.nodes && placed.nodes[k].incoming == IncomingOf(g, k)
            && placed.nodes[k].(incoming := IncomingOf(g, k) + Gains(g, obs, k)) == MovedNode(g, turn, obs, k)
  {
  }

  lemma DrawnMeaning(g: Graph, turn: int, obs: Observation, k: string)
    requires Indexed(g) && Located(g) && (k in g.nodes || k == obs.key)
    ensures k in Drawn(g, turn, obs).nodes && Drawn(g, turn, obs).nodes[k] == MovedNode(g, turn, obs, k)
  {
    PlacedMeaning(g, turn, obs, k);
    var placed := Placed(g, turn, obs, Source(g, obs));
    var menu := ViaMenu(g, obs);
    var hopped := if menu.Some? then Linked(placed, g.current.value, menu.value) else placed;
    if menu.Some? { LinkedMeaning(placed, g.current.value, menu.value, k); }
    if g.current.Some? { LinkedMeaning(hopped, Source(g, obs).value, obs.key, k); }
  }

  lemma DrawnTables(g: Graph, turn: int, obs: Observation)
    requires Indexed(g) && Located(g)
    ensures var d := Drawn(g, turn, obs);
            && d.order == (if obs.key in g.nodes then g.order else g.order + [obs.key])
            && d.rows == (if obs.key in g.nodes then g.rows else Created(g, turn, obs, Source(g, obs)).rows)
            && d.lastGate == g.lastGate && d.nodes.Keys == g.nodes.Keys + {obs.key}
  {
    var placed := Placed(g, turn, obs, Source(g, obs));
    var menu := ViaMenu(g, obs);
    var hopped := if menu.Some? then Linked(placed, g.current.value, menu.value) else placed;
    if menu.Some? { LinkedTables(placed, g.current.value, menu.value); }
    if g.current.Some? { LinkedTables(hopped, Source(g, obs).value, obs.key); }
  }

  lemma LinkedTables(g: Graph, from: string, to: string)
    requires to in g.nodes
    ensures Linked(g, from, to) == g.(nodes := Linked(g, from, to).nodes) && Linked(g, from, to).nodes.Keys == g.nodes.Keys
  {
  }

  lemma MovedMeaning(g: Graph, turn: int, obs: Observation, k: string)
    requires Indexed(g) && Located(g)
    ensures var m := Moved(g, turn, obs);
            && m.order == (if obs.key in g.nodes then g.order else g.order + [obs.key])
            && (k in m.nodes <==> k in g.nodes || k == obs.key)
            && (k in m.nodes ==> m.nodes[k] == MovedNode(g, turn, obs, k))
            && m.current == Some(obs.key)
            && m.lastGate == (if m.nodes[obs.key].kind == Gate then Some(obs.key) else g.lastGate)
            && m.rows == (if obs.key in g.nodes then g.rows else Created(g, turn, obs, Source(g, obs)).rows)
  {
    DrawnTables(g, turn, obs);
    if k in g.nodes || k == obs.key { DrawnMeaning(g, turn, obs, k); }
  }

  /** What a node is for good once it has been created. */
  predicate SameCore(a: Node, b: Node) {
    && a.title == b.title && a.kind == b.kind && a.depth == b.depth && a.row == b.row
    && a.parent == b.parent && a.firstTurn == b.firstTurn
  }

  /** Nodes and edges are only ever added, at the end, and no node is renamed, moved or re-parented. */
  ghost predicate Grows(g: Graph, later: Graph) {
    && g.order <= later.order
    && forall k :: k in g.nodes ==>
                     k in later.nodes && SameCore(g.nodes[k], later.nodes[k])
                     && g.nodes[k].incoming <= later.nodes[k].incoming
  }

  lemma MovedGrows(g: Graph, turn: int, obs: Observation)
    requires Indexed(g) && Located(g)
    ensures Grows(g, Moved(g, turn, obs))
  {
    MovedMeaning(g, turn, obs, obs.key);
    forall k | k in g.nodes
      ensures var m := Moved(g, turn, obs);
              k in m.nodes && SameCore(g.nodes[k], m.nodes[k]) && g.nodes[k].incoming <= m.nodes[k].incoming
    {
      MovedMeaning(g, turn, obs, k);
    }
  }

  // The invariant

  lemma MovedIndexed(g: Graph, turn: int, obs: Observation)
    requires Indexed(g) && Located(g)
    ensures Indexed(Moved(g, turn, obs))
  {
    var m := Moved(g, turn, obs);
    forall k ensures k in m.order <==> k in m.nodes { MovedMeaning(g, turn, obs, k); }
    MovedMeaning(g, turn, obs, obs.key);
    assert obs.key !in g.nodes ==> obs.key !in g.order;
  }

  lemma MovedLocated(g: Graph, turn: int, obs: Observation)
    requires Indexed(g) && Located(g)
    ensures Located(Moved(g, turn, obs))
  {
    var m := Moved(g, turn, obs);
    MovedGrows(g, turn, obs);
    MovedMeaning(g, turn, obs, obs.key);
    forall k | k in m.nodes && m.lastGate.None? ensures m.nodes[k].kind != Gate { MovedMeaning(g, turn, obs, k); }
    if obs.key in g.nodes { assert g.order != []; }
  }

  lemma MovedTreed(g: Graph, turn: int, obs: Observation)
    requires Indexed(g) && Located(g) && Treed(g)
    ensures Treed(Moved(g, turn, obs))
  {
    var m := Moved(g, turn, obs);
    MovedGrows(g, turn, obs);
    forall k | k in m.nodes
      ensures if m.order != [] && k == m.order[0] then m.nodes[k].parent == None && m.nodes[k].depth == 0
              else m.nodes[k].parent.Some? && m.nodes[k].parent.value in m.nodes
                   && m.nodes[k].depth == m.nodes[m.nodes[k].parent.value].depth + 1
    {
      MovedMeaning(g, turn, obs, k);
      if k in g.nodes { assert g.order != []; }
    }
  }

  lemma MovedEdged(g: Graph, turn: int, obs: Observation)
    requires Indexed(g) && Located(g) && Edged(g)
    ensures Edged(Moved(g, turn, obs))
  {
    var m := Moved(g, turn, obs);
    forall k | k in m.nodes
      ensures Distinct(m.nodes[k].incoming) && k !in m.nodes[k].incoming
      ensures forall from :: from in m.nodes[k].incoming ==> from in m.nodes
      ensures m.nodes[k].parent.Some? ==> m.nodes[k].parent.value in m.nodes[k].incoming
    {
      MovedMeaning(g, turn, obs, k);
      NewEdgeIsNew(g, turn, obs, k);
      NewParentLinks(g, turn, obs, k);
      forall from | from in m.nodes[k].incoming ensures from in m.nodes {
        NewEdgeIsKnown(g, turn, obs, k, from);
        MovedMeaning(g, turn, obs, from);
      }
    }
  }

  lemma NewEdgeIsNew(g: Graph, turn: int, obs: Observation, k: string)
    requires Indexed(g) && Located(g) && Edged(g) && (k in g.nodes || k == obs.key)
    ensures Distinct(MovedNode(g, turn, obs, k).incoming) && k !in MovedNode(g, turn, obs, k).incoming
  {
    assert Distinct(IncomingOf(g, k)) && k !in IncomingOf(g, k);
    AppendsOnce(IncomingOf(g, k), Gains(g, obs, k), k);
  }

  lemma AppendsOnce(s: seq<string>, added: seq<string>, k: string)
    requires Distinct(s) && |added| <= 1 && forall x :: x in added ==> x !in s
    requires k !in s && k !in added
    ensures Distinct(s + added) && k !in s + added
  {
    if added != [] { assert added[0] in added; }
  }

  lemma NewEdgeIsKnown(g: Graph, turn: int, obs: Observation, k: string, from: string)
    requires Indexed(g) && Located(g) && Edged(g) && (k in g.nodes || k == obs.key)
    requires from in MovedNode(g, turn, obs, k).incoming
    ensures from in g.nodes
  {
    if from !in IncomingOf(g, k) { assert from in Gains(g, obs, k); }
  }

  lemma NewParentLinks(g: Graph, turn: int, obs: Observation, k: string)
    requires Indexed(g) && Located(g) && Edged(g) && (k in g.nodes || k == obs.key)
    ensures var n := MovedNode(g, turn, obs, k);
            n.parent.Some? ==> n.parent.value in n.incoming
  {
    if k !in g.nodes {
      assert Inbound(g, obs, k) == Source(g, obs);
      assert IncomingOf(g, k) == [];
    }
  }

  lemma MovedSeats(g: Graph, turn: int, obs: Observation)
    requires Indexed(g) && Located(g)
    ensures forall k, depth, row ::
              Sits(Moved(g, turn, obs), k, depth, row) <==> Sits(g, k, depth, row) || NewSeat(g, turn, obs, k, depth, row)
    ensures forall depth: nat ::
              RowsAt(Moved(g, turn, obs), depth) == RowsAt(g, depth) + if Opens(g, turn, obs, depth) then 1 else 0
  {
    forall k, depth, row
      ensures Sits(Moved(g, turn, obs), k, depth, row) <==> Sits(g, k, depth, row) || NewSeat(g, turn, obs, k, depth, row)
    {
      MovedMeaning(g, turn, obs, k);
    }
    MovedMeaning(g, turn, obs, obs.key);
  }

  ghost predicate Opens(g: Graph, turn: int, obs: Observation, depth: nat)
    requires Indexed(g) && Located(g)
  {
    obs.key !in g.nodes && depth == NewNode(g, turn, obs, Source(g, obs)).depth
  }

  lemma MovedLaidOut(g: Graph, turn: int, obs: Observation)
    requires Indexed(g) && Located(g) && LaidOut(g)
    ensures LaidOut(Moved(g, turn, obs))
  {
    MovedSeats(g, turn, obs);
    NewSeatIsFree(g, turn, obs);
    SeatsFollow(g, Moved(g, turn, obs), turn, obs);
  }

  lemma SeatsFollow(g: Graph, m: Graph, turn: int, obs: Observation)
    requires Indexed(g) && Located(g) && LaidOut(g)
    requires forall k, depth, row :: Sits(m, k, depth, row) <==> Sits(g, k, depth, row) || NewSeat(g, turn, obs, k, depth, row)
    requires forall depth: nat :: RowsAt(m, depth) == RowsAt(g, depth) + if Opens(g, turn, obs, depth) then 1 else 0
    requires forall j, k, depth, row :: NewSeat(g, turn, obs, k, depth, row) ==> !Sits(g, j, depth, row)
    ensures LaidOut(m)
  {
    forall depth: nat, row: nat | row < RowsAt(m, depth) ensures Taken(m, depth, row) {
      if row < RowsAt(g, depth) {
        assert Taken(g, depth, row);
        var k :| Sits(g, k, depth, row);
        assert Sits(m, k, depth, row);
      } else {
        assert NewSeat(g, turn, obs, obs.key, depth, row);
        assert Sits(m, obs.key, depth, row);
      }
    }
    forall k | k in m.nodes ensures m.nodes[k].row < RowsAt(m, m.nodes[k].depth) {
      assert Sits(m, k, m.nodes[k].depth, m.nodes[k].row);
    }
  }

  ghost predicate NewSeat(g: Graph, turn: int, obs: Observation, k: string, depth: nat, row: nat)
    requires Indexed(g) && Located(g)
  {
    var n := NewNode(g, turn, obs, Source(g, obs));
    k == obs.key && k !in g.nodes && depth == n.depth && row == n.row
  }

  lemma NewSeatIsFree(g: Graph, turn: int, obs: Observation)
    requires Indexed(g) && Located(g) && LaidOut(g)
    ensures forall j, k, depth, row :: NewSeat(g, turn, obs, k, depth, row) ==> !Sits(g, j, depth, row)
  {
  }

  lemma MovedRefined(g: Graph, turn: int, obs: Observation)
    requires Indexed(g) && Located(g) && Refined(g)
    ensures Refined(Moved(g, turn, obs))
  {
    var m := Moved(g, turn, obs);
    forall k | k in m.nodes ensures m.nodes[k] == Refreshed(m.nodes[k]) && m.nodes[k].rejection != Some("") {
      MovedMeaning(g, turn, obs, k);
    }
  }

  /** A gate outcome or the end of the call changes gate flags only. */
  ghost predicate SameShape(g: Graph, later: Graph) {
    && later.order == g.order && later.rows == g.rows && later.current == g.current && later.lastGate == g.lastGate
    && later.nodes.Keys == g.nodes.Keys
    && forall k :: k in g.nodes ==> SameCore(g.nodes[k], later.nodes[k]) && later.nodes[k].incoming == g.nodes[k].incoming
  }

  lemma ShapeKept(g: Graph, later: Graph)
    requires Indexed(g) && Located(g) && Treed(g) && Edged(g) && LaidOut(g) && SameShape(g, later)
    ensures Indexed(later) && Located(later) && Treed(later) && Edged(later) && LaidOut(later)
  {
    TreeKept(g, later);
    SeatsKept(g, later);
  }

  lemma TreeKept(g: Graph, later: Graph)
    requires Indexed(g) && Located(g) && Treed(g) && Edged(g) && SameShape(g, later)
    ensures Indexed(later) && Located(later) && Treed(later) && Edged(later)
  {
  }

  lemma SeatsKept(g: Graph, later: Graph)
    requires LaidOut(g) && SameShape(g, later)
    ensures LaidOut(later)
  {
    assert forall k, depth, row :: Sits(later, k, depth, row) <==> Sits(g, k, depth, row);
    forall depth: nat, row: nat | row < RowsAt(later, depth) ensures Taken(later, depth, row) {
      assert RowsAt(later, depth) == RowsAt(g, depth) && Taken(g, depth, row);
      var k :| Sits(g, k, depth, row);
      assert Sits(later, k, depth, row);
    }
  }

  lemma JudgedShape(g: Graph, obs: Observation)
    requires obs.key in g.nodes
    ensures SameShape(g, Judged(g, obs))
  {
    var gate := Attributed(g, obs);
    if gate.Some? { OutcomeKeepsCore(g.nodes[gate.value], obs); }
  }

  lemma OutcomeKeepsCore(n: Node, obs: Observation)
    requires obs.result.Some?
    ensures SameCore(n, Outcome(n, obs)) && Outcome(n, obs).incoming == n.incoming
  {
  }

  lemma JudgedRefined(g: Graph, obs: Observation)
    requires obs.key in g.nodes && Refined(g)
    ensures Refined(Judged(g, obs))
  {
    var gate := Attributed(g, obs);
    if gate.Some? { OutcomeRefined(g.nodes[gate.value], obs); }
  }

  lemma OutcomeRefined(n: Node, obs: Observation)
    requires obs.result.Some? && n.rejection != Some("")
    ensures var m := Outcome(n, obs);
            m == Refreshed(m) && m.rejection != Some("")
  {
    assert RejectionReason(obs) != "";
  }

  lemma FinalizedShape(g: Graph)
    ensures SameShape(g, Finalized(g))
  {
    forall k | k in g.nodes ensures SameCore(g.nodes[k], Ended(g.nodes[k])) && Ended(g.nodes[k]).incoming == g.nodes[k].incoming { }
  }

  lemma FinalizedRefined(g: Graph)
    requires Refined(g)
    ensures Refined(Finalized(g))
  {
  }

  lemma MovedWellFormed(g: Graph, turn: int, obs: Observation)
    requires WellFormed(g)
    ensures WellFormed(Moved(g, turn, obs))
  {
    MovedIndexed(g, turn, obs);
    MovedLocated(g, turn, obs);
    MovedTreed(g, turn, obs);
    MovedEdged(g, turn, obs);
    MovedLaidOut(g, turn, obs);
    MovedRefined(g, turn, obs);
  }

  lemma ObservedLocated(g: Graph, turn: int, obs: Observation)
    requires Indexed(g) && Located(g)
    ensures Indexed(Observed(g, turn, obs)) && Located(Observed(g, turn, obs)) && Observed(g, turn, obs).current.Some?
  {
    var o := Folded(g, obs);
    MovedIndexed(g, turn, o);
    MovedLocated(g, turn, o);
    JudgedShape(Moved(g, turn, o), o);
  }

  lemma ObservedGrows(g: Graph, turn: int, obs: Observation)
    requires Indexed(g) && Located(g)
    ensures Grows(g, Observed(g, turn, obs))
  {
    var o := Folded(g, obs);
    MovedGrows(g, turn, o);
    JudgedShape(Moved(g, turn, o), o);
  }

  /** Every observation keeps the graph well-formed and only adds to it. */
  lemma ObservedWellFormed(g: Graph, turn: int, obs: Observation)
    requires WellFormed(g)
    ensures WellFormed(Observed(g, turn, obs)) && Grows(g, Observed(g, turn, obs))
  {
    var o := Folded(g, obs);
    var m := Moved(g, turn, o);
    MovedWellFormed(g, turn, o);
    MovedGrows(g, turn, o);
    JudgedShape(m, o);
    JudgedRefined(m, o);
    ShapeKept(m, Judged(m, o));
  }

  lemma FinalizedWellFormed(g: Graph)
    requires WellFormed(g)
    ensures WellFormed(Finalized(g)) && Grows(g, Finalized(g))
  {
    FinalizedShape(g);
    FinalizedRefined(g);
    ShapeKept(g, Finalized(g));
  }
}
