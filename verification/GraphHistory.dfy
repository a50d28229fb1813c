/** Whole discovery calls: where every path leads, that the call is a walk, and what its gates end as. */
module GraphHistory {
  import opened RunTypes
  import opened GraphModel
  import opened GraphStructure

  datatype Turn = Turn(index: int, obs: Observation)

  /** The graph after the observed turns `h`. */
  function Explored(h: seq<Turn>): (g: Graph)
    ensures Indexed(g) && Located(g)
    ensures h == [] <==> g.current == None
  {
    if h == [] then EMPTY_GRAPH
    else
      var last := h[|h| - 1];
      var before := Explored(h[..|h| - 1]);
      ObservedLocated(before, last.index, last.obs);
      Observed(before, last.index, last.obs)
  }

  /** Whatever the observations, the graph has the shape of a laid-out tree with extra edges. */
  lemma {:induction false} ExploredWellFormed(h: seq<Turn>)
    ensures WellFormed(Explored(h))
  {
    if h == [] {
    } else {
      var last := h[|h| - 1];
      ExploredWellFormed(h[..|h| - 1]);
      ObservedWellFormed(Explored(h[..|h| - 1]), last.index, last.obs);
    }
  }

  // Paths

  ghost predicate Edge(g: Graph, from: string, to: string) {
    to in g.nodes && from in g.nodes[to].incoming
  }

  /** The ancestors of `k`, from the root down to `k` itself. */
  function Chain(g: Graph, k: string): seq<string>
    requires Treed(g) && k in g.nodes
    decreases g.nodes[k].depth
  {
    if g.nodes[k].parent.None? then [k] else Chain(g, g.nodes[k].parent.value) + [k]
  }

  /** Every node hangs from the one root by recorded edges, one layer at a time. */
  lemma {:induction false} ChainFromRoot(g: Graph, k: string)
    requires Indexed(g) && Treed(g) && Edged(g) && k in g.nodes
    ensures var c := Chain(g, k);
            && |c| == g.nodes[k].depth + 1 && c[0] == g.order[0] && c[|c| - 1] == k
            && (forall i :: 0 <= i < |c| ==> c[i] in g.nodes && g.nodes[c[i]].depth == i)
            && (forall i :: 0 <= i < |c| - 1 ==> Edge(g, c[i], c[i + 1]))
    decreases g.nodes[k].depth
  {
    if g.nodes[k].parent.None? {
      assert g.order != [];
    } else {
      ChainFromRoot(g, g.nodes[k].parent.value);
    }
  }

  /** The labels that `_path` collects on its way up, in reading order. */
  function Titles(g: Graph, k: string): seq<string>
    requires Treed(g) && k in g.nodes
    decreases g.nodes[k].depth
  {
    if g.nodes[k].parent.None? then [g.nodes[k].title] else Titles(g, g.nodes[k].parent.value) + [g.nodes[k].title]
  }

  /** A path names the nodes from the root down, one per layer. */
  lemma {:induction false} TitlesFollowChain(g: Graph, k: string)
    requires Indexed(g) && Treed(g) && Edged(g) && k in g.nodes
    ensures |Titles(g, k)| == |Chain(g, k)| == g.nodes[k].depth + 1
    ensures forall i :: 0 <= i < |Chain(g, k)| ==> Chain(g, k)[i] in g.nodes
    ensures forall i :: 0 <= i < |Chain(g, k)| ==> Titles(g, k)[i] == g.nodes[Chain(g, k)[i]].title
    decreases g.nodes[k].depth
  {
    ChainFromRoot(g, k);
    if g.nodes[k].parent.None? {
    } else {
      TitlesFollowChain(g, g.nodes[k].parent.value);
    }
  }

  lemma GrowsTwice(a: Graph, b: Graph, c: Graph)
    requires Grows(a, b) && Grows(b, c)
    ensures Grows(a, c)
  {
  }

  lemma {:induction false} ExploredGrows(h: seq<Turn>, i: nat)
    requires i <= |h|
    ensures Grows(Explored(h[..i]), Explored(h))
  {
    if i == |h| {
      assert h[..i] == h;
    } else {
      var init, last := h[..|h| - 1], h[|h| - 1];
      assert init[..i] == h[..i];
      ExploredGrows(init, i);
      ObservedGrows(Explored(init), last.index, last.obs);
      GrowsTwice(Explored(h[..i]), Explored(init), Explored(h));
    }
  }

  /** A node's place on the map never moves, not even when the call ends. */
  lemma PlaceNeverMoves(h: seq<Turn>, i: nat, k: string)
    requires i <= |h| && k in Explored(h[..i]).nodes
    ensures k in Finalized(Explored(h)).nodes && SameCore(Explored(h[..i]).nodes[k], Finalized(Explored(h)).nodes[k])
  {
    ExploredGrows(h, i);
    FinalizedShape(Explored(h));
  }

  // The call as a walk

  /** The same node, the next one, or the one after the menu. */
  ghost predicate OneMove(g: Graph, a: string, b: string) {
    a == b || Edge(g, a, b) || exists menu :: Edge(g, a, menu) && Edge(g, menu, b) && g.nodes[menu].kind == Menu
  }

  /** The first menu the agent has shown, when the call goes from one topic to another; else none. */
  ghost predicate PassesMenu(g: Graph, obs: Observation, menu: string)
    requires Located(g)
  {
    && (obs.kind == Intent || obs.kind == Handoff) && g.current.Some? && g.nodes[g.current.value].kind == Intent
    && obs.key != g.current.value
    && exists i :: 0 <= i < |g.order| && g.order[i] == menu && IsFirstMenu(g, i)
  }

  ghost predicate IsFirstMenu(g: Graph, i: int) {
    && 0 <= i < |g.order| && g.order[i] in g.nodes && g.nodes[g.order[i]].kind == Menu
    && forall j :: 0 <= j < i && g.order[j] in g.nodes ==> g.nodes[g.order[j]].kind != Menu
  }

  lemma {:induction false} FirstOfKindIsFirst(order: seq<string>, nodes: map<string, Node>, kind: NodeKind) returns (i: nat)
    requires forall k :: k in order ==> k in nodes
    ensures i <= |order| && forall j :: 0 <= j < i ==> nodes[order[j]].kind != kind
    ensures FirstOfKind(order, nodes, kind) == if i < |order| then Some(order[i]) else None
    ensures i < |order| ==> nodes[order[i]].kind == kind
  {
    if order == [] || nodes[order[0]].kind == kind {
      i := 0;
    } else {
      i := FirstOfKindIsFirst(order[1..], nodes, kind);
      i := i + 1;
      assert forall j :: 0 < j < |order| ==> order[j] == order[1..][j - 1];
    }
  }

  lemma ViaMenuIsFirstMenu(g: Graph, obs: Observation)
    requires Indexed(g) && Located(g)
    ensures forall menu :: ViaMenu(g, obs) == Some(menu) <==> PassesMenu(g, obs, menu)
  {
    var i := FirstOfKindIsFirst(g.order, g.nodes, Menu);
    assert i < |g.order| ==> IsFirstMenu(g, i);
    forall j | IsFirstMenu(g, j) ensures j == i { assert g.order[j] in g.nodes && (i < |g.order| ==> g.order[i] in g.nodes); }
  }

  /** From topic to topic the call goes through the menu, and otherwise straight; a new node hangs from where it came. */
  lemma EdgesOfMove(g: Graph, turn: int, obs: Observation)
    requires Indexed(g) && Located(g) && g.current.Some?
    ensures var m, here := Moved(g, turn, obs), g.current.value;
            if ViaMenu(g, obs).Some? then
              var menu := ViaMenu(g, obs).value;
              && Edge(m, here, menu) && (menu == obs.key || Edge(m, menu, obs.key))
              && (obs.key !in g.nodes ==> m.nodes[obs.key].parent == Some(menu))
            else
              && (here == obs.key || Edge(m, here, obs.key))
              && (obs.key !in g.nodes ==> m.nodes[obs.key].parent == Some(here))
    ensures forall from, to :: Edge(Moved(g, turn, obs), from, to) <==> Edge(g, from, to) || Draws(g, obs, from, to)
  {
    MovedMeaning(g, turn, obs, obs.key);
    if ViaMenu(g, obs).Some? { MovedMeaning(g, turn, obs, ViaMenu(g, obs).value); }
    forall from, to ensures Edge(Moved(g, turn, obs), from, to) <==> Edge(g, from, to) || Draws(g, obs, from, to) {
      OneEdgeOfMove(g, turn, obs, from, to);
    }
  }

  lemma OneEdgeOfMove(g: Graph, turn: int, obs: Observation, from: string, to: string)
    requires Indexed(g) && Located(g) && g.current.Some?
    ensures Edge(Moved(g, turn, obs), from, to) <==> Edge(g, from, to) || Draws(g, obs, from, to)
  {
    MovedMeaning(g, turn, obs, to);
    GainsAsDrawn(g, obs, from, to);
    if to in g.nodes || to == obs.key {
      assert from in MovedNode(g, turn, obs, to).incoming <==> from in IncomingOf(g, to) || from in Gains(g, obs, to);
    }
  }

  lemma GainsAsDrawn(g: Graph, obs: Observation, from: string, to: string)
    requires Indexed(g) && Located(g) && g.current.Some?
    ensures Draws(g, obs, from, to) ==> to in g.nodes || to == obs.key
    ensures from in IncomingOf(g, to) || from in Gains(g, obs, to) <==> Edge(g, from, to) || Draws(g, obs, from, to)
  {
  }

  /** The edges a move asks for: to the menu and on from there, or straight. */
  ghost predicate Draws(g: Graph, obs: Observation, from: string, to: string)
    requires Indexed(g) && Located(g) && g.current.Some?
  {
    from != to
    && if ViaMenu(g, obs).Some? then
         (from == g.current.value && to == ViaMenu(g, obs).value) || (from == ViaMenu(g, obs).value && to == obs.key)
       else from == g.current.value && to == obs.key
  }

  lemma MovedIsOneMove(g: Graph, turn: int, obs: Observation)
    requires Indexed(g) && Located(g) && g.current.Some?
    ensures OneMove(Moved(g, turn, obs), g.current.value, obs.key)
  {
    EdgesOfMove(g, turn, obs);
    if ViaMenu(g, obs).Some? { MovedMeaning(g, turn, obs, ViaMenu(g, obs).value); }
  }

  lemma GrowsOneMove(g: Graph, later: Graph, a: string, b: string)
    requires Grows(g, later) && OneMove(g, a, b)
    ensures OneMove(later, a, b)
  {
    assert forall from, to :: Edge(g, from, to) ==> Edge(later, from, to);
    assert a != b && !Edge(g, a, b) ==> exists menu :: Edge(g, a, menu) && Edge(g, menu, b) && g.nodes[menu].kind == Menu;
  }

  /** Where the call stood after each of its turns. */
  function Trajectory(h: seq<Turn>): (t: seq<string>)
    ensures |t| == |h|
    ensures h != [] ==> t[|t| - 1] == Explored(h).current.value
  {
    if h == [] then [] else Trajectory(h[..|h| - 1]) + [Explored(h).current.value]
  }

  ghost predicate Walk(g: Graph, t: seq<string>) {
    forall i :: 0 <= i < |t| - 1 ==> OneMove(g, t[i], t[i + 1])
  }

  lemma GrowsWalk(g: Graph, later: Graph, t: seq<string>)
    requires Grows(g, later) && Walk(g, t)
    ensures Walk(later, t)
  {
    forall i | 0 <= i < |t| - 1 ensures OneMove(later, t[i], t[i + 1]) { GrowsOneMove(g, later, t[i], t[i + 1]); }
  }

  lemma JudgedGrows(m: Graph, obs: Observation)
    requires obs.key in m.nodes
    ensures Grows(m, Judged(m, obs)) && Judged(m, obs).current == m.current
  {
    JudgedShape(m, obs);
  }

  lemma ObservedIsOneMove(g: Graph, turn: int, obs: Observation)
    requires Indexed(g) && Located(g) && g.current.Some?
    ensures var later := Observed(g, turn, obs);
            later.current.Some? && OneMove(later, g.current.value, later.current.value)
  {
    var o := Folded(g, obs);
    MovedIsOneMove(g, turn, o);
    JudgedGrows(Moved(g, turn, o), o);
    GrowsOneMove(Moved(g, turn, o), Observed(g, turn, obs), g.current.value, o.key);
  }

  lemma WalkOn(g: Graph, turn: int, obs: Observation, t: seq<string>)
    requires Indexed(g) && Located(g) && Walk(g, t) && (t != [] ==> g.current == Some(t[|t| - 1]))
    ensures var later := Observed(g, turn, obs);
            later.current.Some? && Walk(later, t + [later.current.value])
  {
    ObservedLocated(g, turn, obs);
    ObservedGrows(g, turn, obs);
    GrowsWalk(g, Observed(g, turn, obs), t);
    if t != [] { ObservedIsOneMove(g, turn, obs); }
    LongerWalk(Observed(g, turn, obs), t, Observed(g, turn, obs).current.value);
  }

  lemma LongerWalk(g: Graph, t: seq<string>, next: string)
    requires Walk(g, t) && (t != [] ==> OneMove(g, t[|t| - 1], next))
    ensures Walk(g, t + [next])
  {
    var all := t + [next];
    forall i | 0 <= i < |all| - 1 ensures OneMove(g, all[i], all[i + 1]) {
      assert i < |t| - 1 ==> OneMove(g, t[i], t[i + 1]);
    }
  }

  lemma {:induction false} ExploredIsWalk(h: seq<Turn>)
    ensures Walk(Explored(h), Trajectory(h))
  {
    if h == [] {
    } else {
      var last := h[|h| - 1];
      ExploredIsWalk(h[..|h| - 1]);
      WalkOn(Explored(h[..|h| - 1]), last.index, last.obs, Trajectory(h[..|h| - 1]));
    }
  }

  /** Turn after turn, the whole call is a walk along the edges of the finished graph. */
  lemma CallIsWalk(h: seq<Turn>)
    ensures Walk(Finalized(Explored(h)), Trajectory(h))
  {
    ExploredIsWalk(h);
    FinalizedShape(Explored(h));
    GrowsWalk(Explored(h), Finalized(Explored(h)), Trajectory(h));
  }

  // Visits

  /** Turn `i` is the first at node `k`. */
  ghost predicate FirstVisit(t: seq<string>, i: int, k: string) {
    0 <= i < |t| && t[i] == k && forall j :: 0 <= j < i ==> t[j] != k
  }

  /** A node is what the first observation at it says. */
  ghost predicate NamedBy(n: Node, turn: Turn) {
    n.title == turn.obs.title && n.kind == turn.obs.kind && n.firstTurn == turn.index
  }

  /** The nodes are the positions of the call, each as its first turn saw it, with the number of its visits. */
  ghost predicate Visited(g: Graph, h: seq<Turn>, t: seq<string>)
    requires |t| == |h|
  {
    && (forall k :: k in g.nodes <==> k in t)
    && (forall k :: k in g.nodes ==> g.nodes[k].visits == multiset(t)[k])
    && (forall i :: 0 <= i < |h| && FirstVisit(t, i, t[i]) ==> t[i] in g.nodes && NamedBy(g.nodes[t[i]], h[i]))
  }

  ghost predicate IsGate(g: Graph, k: string) {
    k in g.nodes && g.nodes[k].kind == Gate
  }

  /** One more question of an identity check stays at the gate; any other turn is where it says it is. */
  function Position(g: Graph, t: seq<string>, obs: Observation): string {
    if obs.kind == Gate && t != [] && t[|t| - 1] in g.nodes && g.nodes[t[|t| - 1]].kind == Gate then t[|t| - 1] else obs.key
  }

  lemma ObservedVisit(g: Graph, last: Turn, k: string)
    requires Indexed(g) && Located(g)
    ensures var later, key := Observed(g, last.index, last.obs), Folded(g, last.obs).key;
            && later.current == Some(key) && (k in later.nodes <==> k in g.nodes || k == key)
            && (k in later.nodes ==> later.nodes[k].visits == (if k in g.nodes then g.nodes[k].visits else 0) + if k == key then 1 else 0)
            && (k in g.nodes ==> SameCore(g.nodes[k], later.nodes[k])) && (key !in g.nodes ==> NamedBy(later.nodes[key], last))
  {
    var o := Folded(g, last.obs);
    var m := Moved(g, last.index, o);
    JudgedShape(m, o);
    JudgedVisits(m, o);
    MovedMeaning(g, last.index, o, k);
    MovedMeaning(g, last.index, o, o.key);
  }

  lemma JudgedVisits(m: Graph, obs: Observation)
    requires obs.key in m.nodes
    ensures forall k :: k in m.nodes ==> k in Judged(m, obs).nodes && Judged(m, obs).nodes[k].visits == m.nodes[k].visits
  {
  }

  lemma VisitOneMore(g: Graph, h: seq<Turn>, t: seq<string>, last: Turn)
    requires Indexed(g) && Located(g) && |t| == |h| && Visited(g, h, t)
    requires if t == [] then g.current.None? else g.current == Some(t[|t| - 1])
    ensures var key := Position(g, t, last.obs);
            Observed(g, last.index, last.obs).current == Some(key) && Visited(Observed(g, last.index, last.obs), h + [last], t + [key])
  {
    var later, key := Observed(g, last.index, last.obs), Position(g, t, last.obs);
    ObservedVisit(g, last, key);
    forall k ensures (k in later.nodes <==> k in t + [key]) && (k in later.nodes ==> later.nodes[k].visits == multiset(t + [key])[k]) {
      ObservedVisit(g, last, k);
    }
    forall i | 0 <= i < |t + [key]| && FirstVisit(t + [key], i, (t + [key])[i])
      ensures (t + [key])[i] in later.nodes && NamedBy(later.nodes[(t + [key])[i]], (h + [last])[i])
    {
      FirstVisitOn(t, key, i);
      ObservedVisit(g, last, (t + [key])[i]);
    }
  }

  lemma FirstVisitOn(t: seq<string>, key: string, i: nat)
    requires i <= |t| && FirstVisit(t + [key], i, (t + [key])[i])
    ensures if i < |t| then FirstVisit(t, i, t[i]) else key !in t
  {
    forall j | 0 <= j < i ensures t[j] != (t + [key])[i] { assert (t + [key])[j] == t[j]; }
  }

  lemma ExploredOn(init: seq<Turn>, last: Turn)
    ensures Explored(init + [last]) == Observed(Explored(init), last.index, last.obs)
    ensures Trajectory(init + [last]) == Trajectory(init) + [Explored(init + [last]).current.value]
    ensures Trajectory(init) == [] <==> Explored(init).current.None?
  {
    assert (init + [last])[..|init|] == init;
  }

  lemma VisitedOn(init: seq<Turn>, last: Turn)
    requires Visited(Explored(init), init, Trajectory(init))
    ensures Visited(Explored(init + [last]), init + [last], Trajectory(init + [last]))
    ensures Trajectory(init + [last]) == Trajectory(init) + [Position(Explored(init), Trajectory(init), last.obs)]
  {
    VisitOneMore(Explored(init), init, Trajectory(init), last);
    ExploredOn(init, last);
  }

  /** Which nodes a call has, how often it was at each, and what each is, by its observations alone. */
  lemma {:induction false} CallVisits(h: seq<Turn>)
    ensures Visited(Explored(h), h, Trajectory(h))
    ensures h != [] ==> var init := h[..|h| - 1];
                        Trajectory(h) == Trajectory(init) + [Position(Explored(init), Trajectory(init), h[|h| - 1].obs)]
  {
    if h == [] {
    } else {
      var init, last := h[..|h| - 1], h[|h| - 1];
      assert h == init + [last];
      CallVisits(init);
      VisitedOn(init, last);
    }
  }

  // Gates

  /** The gate that the call was at last is `k`. */
  ghost predicate LastGate(g: Graph, t: seq<string>, k: string) {
    exists j :: 0 <= j < |t| && t[j] == k && IsGate(g, k) && forall m :: j < m < |t| ==> !IsGate(g, t[m])
  }

  ghost predicate GateSeen(g: Graph, t: seq<string>) {
    exists j :: 0 <= j < |t| && IsGate(g, t[j])
  }

  /** The last turn's outcome is about `k`: the gate last visited or, before any gate, the node keyed "" if there is one. */
  ghost predicate Concerns(h: seq<Turn>, k: string)
    requires h != []
  {
    && h[|h| - 1].obs.result.Some?
    && if GateSeen(Explored(h), Trajectory(h)) then LastGate(Explored(h), Trajectory(h), k) else k == "" && "" in Trajectory(h)
  }

  lemma LastGateOn(g: Graph, later: Graph, t: seq<string>, key: string, k: string)
    requires Grows(g, later) && forall j :: 0 <= j < |t| ==> t[j] in g.nodes
    ensures LastGate(later, t + [key], k) <==> if IsGate(later, key) then k == key else LastGate(g, t, k)
    ensures GateSeen(later, t + [key]) <==> IsGate(later, key) || GateSeen(g, t)
  {
    var t' := t + [key];
    assert forall j :: 0 <= j < |t| ==> t'[j] == t[j] && (IsGate(later, t[j]) <==> IsGate(g, t[j]));
    assert t'[|t|] == key;
  }

  /** The graph remembers the gate that the call was at last. */
  ghost predicate Remembers(g: Graph, t: seq<string>) {
    (forall k :: g.lastGate == Some(k) <==> LastGate(g, t, k)) && (g.lastGate.Some? <==> GateSeen(g, t))
  }

  lemma RememberOneMore(g: Graph, t: seq<string>, last: Turn)
    requires Indexed(g) && Located(g) && Remembers(g, t) && forall j :: 0 <= j < |t| ==> t[j] in g.nodes
    ensures var later := Observed(g, last.index, last.obs); later.current.Some? && Remembers(later, t + [later.current.value])
  {
    var later := Observed(g, last.index, last.obs);
    ObservedGrows(g, last.index, last.obs);
    ObservedLastGate(g, last.index, last.obs);
    var key := later.current.value;
    forall k ensures later.lastGate == Some(k) <==> LastGate(later, t + [key], k) { LastGateOn(g, later, t, key, k); }
    LastGateOn(g, later, t, key, key);
  }

  lemma RememberedOn(init: seq<Turn>, last: Turn)
    requires Remembers(Explored(init), Trajectory(init))
    ensures Remembers(Explored(init + [last]), Trajectory(init + [last]))
  {
    CallVisits(init);
    RememberOneMore(Explored(init), Trajectory(init), last);
    ExploredOn(init, last);
  }

  lemma {:induction false} LastGateIsRemembered(h: seq<Turn>)
    ensures Remembers(Explored(h), Trajectory(h))
  {
    if h == [] {
    } else {
      var init, last := h[..|h| - 1], h[|h| - 1];
      assert h == init + [last];
      LastGateIsRemembered(init);
      RememberedOn(init, last);
    }
  }

  lemma ObservedLastGate(g: Graph, turn: int, obs: Observation)
    requires Indexed(g) && Located(g)
    ensures var later := Observed(g, turn, obs);
            later.current.Some? && later.lastGate == if IsGate(later, later.current.value) then later.current else g.lastGate
  {
    var o := Folded(g, obs);
    MovedMeaning(g, turn, o, o.key);
    JudgedShape(Moved(g, turn, o), o);
  }

  /** An outcome is credited to the gate last visited. */
  lemma CreditedAsConcerns(h: seq<Turn>, k: string)
    requires h != []
    ensures var init, last := h[..|h| - 1], h[|h| - 1];
            var o := Folded(Explored(init), last.obs);
            Attributed(Moved(Explored(init), last.index, o), o) == Some(k) <==> Concerns(h, k)
  {
    var init, last := h[..|h| - 1], h[|h| - 1];
    var o := Folded(Explored(init), last.obs);
    var m := Moved(Explored(init), last.index, o);
    LastGateIsRemembered(h);
    CallVisits(h);
    JudgedShape(m, o);
    MovedMeaning(Explored(init), last.index, o, o.key);
    GateIsLast(m, Explored(h), o);
  }

  lemma GateIsLast(m: Graph, later: Graph, o: Observation)
    requires o.key in m.nodes && SameShape(m, later) && Located(later)
    requires m.lastGate == if IsGate(m, o.key) then Some(o.key) else m.lastGate
    ensures forall k :: Attributed(m, o) == Some(k) <==>
                          o.result.Some? && if later.lastGate.Some? then later.lastGate == Some(k) else k == "" && "" in later.nodes
  {
  }

  /** The observations whose outcome is about node `k`, in order. */
  ghost function Outcomes(h: seq<Turn>, k: string): seq<Observation> {
    if h == [] then [] else Outcomes(h[..|h| - 1], k) + if Concerns(h, k) then [h[|h| - 1].obs] else []
  }

  ghost predicate EverPassed(outcomes: seq<Observation>) {
    exists i :: 0 <= i < |outcomes| && outcomes[i].result == Some(Passed)
  }

  /** What the last rejection gave as its reason, if it gave one. */
  function LastRejection(outcomes: seq<Observation>): Option<string> {
    if outcomes == [] then None
    else
      var last := outcomes[|outcomes| - 1];
      if last.result != Some(Rejected) then LastRejection(outcomes[..|outcomes| - 1])
      else if last.reason.None? || last.reason.value == "" then Some(DEFAULT_REJECTION)
      else last.reason
  }

  /** `n` shows what its outcomes add up to: a pass counts for ever, else the last rejection, else the end. */
  ghost predicate Shows(n: Node, outcomes: seq<Observation>, ended: bool) {
    if EverPassed(outcomes) then n.state == Mapped && n.reason == None
    else if LastRejection(outcomes).Some? then n.state == Blocked && n.reason == LastRejection(outcomes)
    else if ended then n.state == Blocked && n.reason == Some(UNRESOLVED_GATE)
    else n.state == Mapped && n.reason == None
  }

  ghost predicate Records(n: Node, outcomes: seq<Observation>) {
    n.passed == EverPassed(outcomes) && n.rejection == LastRejection(outcomes) && !n.unresolved
  }

  lemma RecordsOne(n: Node, outcomes: seq<Observation>, obs: Observation, seen: Observation)
    requires Records(n, outcomes) && obs.result.Some? && obs.result == seen.result && obs.reason == seen.reason
    ensures Records(Outcome(n, obs), outcomes + [seen])
  {
    var all := outcomes + [seen];
    assert all[..|all| - 1] == outcomes && all[|all| - 1] == seen;
    assert EverPassed(all) <==> EverPassed(outcomes) || obs.result == Some(Passed) by {
      if i :| 0 <= i < |outcomes| && outcomes[i].result == Some(Passed) { assert all[i].result == Some(Passed); }
    }
  }

  lemma ObservedRecords(g: Graph, turn: int, seen: Observation, k: string, outcomes: seq<Observation>)
    requires Indexed(g) && Located(g) && k in Observed(g, turn, seen).nodes
    requires if k in g.nodes then Records(g.nodes[k], outcomes) else outcomes == []
    ensures var o := Folded(g, seen);
            var concerned := Attributed(Moved(g, turn, o), o) == Some(k);
            Records(Observed(g, turn, seen).nodes[k], outcomes + if concerned then [seen] else [])
  {
    var o := Folded(g, seen);
    var m := Moved(g, turn, o);
    MovedMeaning(g, turn, o, k);
    assert Records(m.nodes[k], outcomes);
    if Attributed(m, o) == Some(k) { RecordsOne(m.nodes[k], outcomes, o, seen); } else { assert outcomes + [] == outcomes; }
  }

  lemma {:induction false} NoOutcomesYet(h: seq<Turn>, k: string)
    requires k !in Explored(h).nodes
    ensures Outcomes(h, k) == []
  {
    if h == [] {
    } else {
      var init, last := h[..|h| - 1], h[|h| - 1];
      ObservedGrows(Explored(init), last.index, last.obs);
      NoOutcomesYet(init, k);
      CallVisits(h);
    }
  }

  lemma {:induction false} ExploredRecords(h: seq<Turn>, k: string)
    requires k in Explored(h).nodes
    ensures Records(Explored(h).nodes[k], Outcomes(h, k))
  {
    var init, last := h[..|h| - 1], h[|h| - 1];
    if k in Explored(init).nodes { ExploredRecords(init, k); } else { NoOutcomesYet(init, k); }
    CreditedAsConcerns(h, k);
    ObservedRecords(Explored(init), last.index, last.obs, k, Outcomes(init, k));
  }

  lemma RecordsShow(n: Node, outcomes: seq<Observation>)
    requires Records(n, outcomes) && n == Refreshed(n)
    ensures Shows(n, outcomes, false) && Shows(Ended(n), outcomes, n.kind == Gate)
  {
  }

  /**
   At any moment of a call, and after its end, a node's state is what the outcomes about it say: those of the
   turns since which no other gate has been visited.
   */
  lemma GateHistory(h: seq<Turn>, k: string)
    requires k in Explored(h).nodes
    ensures Shows(Explored(h).nodes[k], Outcomes(h, k), false)
    ensures Shows(Finalized(Explored(h)).nodes[k], Outcomes(h, k), Explored(h).nodes[k].kind == Gate)
  {
    ExploredRecords(h, k);
    ExploredWellFormed(h);
    RecordsShow(Explored(h).nodes[k], Outcomes(h, k));
  }

  /** A node is blocked exactly when it carries a reason, and the reason is never empty. */
  lemma BlockedHasReason(g: Graph, k: string)
    requires Refined(g) && k in g.nodes
    ensures g.nodes[k].state == Blocked <==> g.nodes[k].reason.Some?
    ensures g.nodes[k].reason != Some("")
  {
    assert g.nodes[k] == Refreshed(g.nodes[k]);
    SomeText();
  }

  lemma SomeText()
    ensures UNRESOLVED_GATE != ""
  {
    assert |UNRESOLVED_GATE| > 0;
  }
}
