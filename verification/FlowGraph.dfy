/** The flow graph that a discovery call updates turn by turn, with its change reports. */
module FlowGraph {
  import opened RunTypes
  import opened Text
  import opened GraphModel
  import opened GraphStructure
  import opened GraphHistory

  datatype IntentSummary = IntentSummary(name: string, state: NodeState, path: string, reason: Option<string>)

  // Change reports

  /** `changed` names, once each, the new node and the nodes that gained an edge. */
  ghost predicate ReportsMove(changed: seq<string>, g: Graph, obs: Observation)
    requires Indexed(g) && Located(g)
  {
    Distinct(changed) && forall k :: k in changed <==> (k == obs.key && k !in g.nodes) || Gains(g, obs, k) != []
  }

  /** A gate whose snapshot, its state and its reason, differs. */
  predicate GateChanged(before: map<string, Node>, now: map<string, Node>, k: string) {
    && k in before && k in now && now[k].kind == Gate
    && (before[k].state != now[k].state || before[k].reason != now[k].reason)
  }

  lemma ReportedNode(g: Graph, turn: int, obs: Observation, k: string)
    requires Indexed(g) && Located(g)
    ensures var m := Moved(g, turn, obs);
            var later := Judged(m, obs);
            Differs(g, later, k) && !Overlooked(g, later, k)
            <==> (k == obs.key && k !in g.nodes) || Gains(g, obs, k) != [] || GateChanged(m.nodes, later.nodes, k)
  {
    var m := Moved(g, turn, obs);
    MovedMeaning(g, turn, obs, k);
    JudgedShape(m, obs);
  }

  /**
   An observation whose gate outcome lands on the node keyed "", because no gate has been seen and the
   look-up falls back to that key: its state changes, it is no gate, and it gains no edge.
   */
  ghost predicate EmptyKeyHit(g: Graph, seen: Observation)
    requires Indexed(g) && Located(g)
  {
    var obs := Folded(g, seen);
    && "" in g.nodes && g.lastGate.None? && obs.result.Some?
    && KindAt(g, obs) != Gate
    && Gains(g, obs, "") == []
    && ShownBy(Outcome(g.nodes[""], obs)) != ShownBy(g.nodes[""])
  }

  lemma OverlookedIsEmptyKey(g: Graph, turn: int, seen: Observation, k: string)
    requires Indexed(g) && Located(g)
    ensures Overlooked(g, Observed(g, turn, seen), k) <==> k == "" && EmptyKeyHit(g, seen)
  {
    var obs := Folded(g, seen);
    ReportedNode(g, turn, obs, k);
    MovedMeaning(g, turn, obs, k);
    if k in g.nodes && g.nodes[k].kind != Gate {
      LandsOffGate(g, turn, obs, k);
      if obs.result.Some? { OutcomeTouchesState(g, turn, obs, k); }
    }
  }

  /** The node an observation arrives at, before or after it is created. */
  function KindAt(g: Graph, obs: Observation): NodeKind {
    if obs.key in g.nodes then g.nodes[obs.key].kind else obs.kind
  }

  lemma LandsOffGate(g: Graph, turn: int, obs: Observation, k: string)
    requires Indexed(g) && Located(g) && k in g.nodes && g.nodes[k].kind != Gate
    ensures Attributed(Moved(g, turn, obs), obs) == Some(k)
            <==> k == "" && g.lastGate.None? && obs.result.Some? && KindAt(g, obs) != Gate
  {
    MovedMeaning(g, turn, obs, obs.key);
    MovedMeaning(g, turn, obs, k);
    if g.lastGate.Some? { MovedMeaning(g, turn, obs, g.lastGate.value); }
  }

  lemma OutcomeTouchesState(g: Graph, turn: int, obs: Observation, k: string)
    requires Indexed(g) && Located(g) && k in g.nodes && obs.result.Some?
    ensures ShownBy(Outcome(MovedNode(g, turn, obs, k), obs)) ==
            ShownBy(Outcome(g.nodes[k], obs)).(incoming := MovedNode(g, turn, obs, k).incoming)
  {
  }

  /** The report is exact if and only if the observation does not hit the empty key. */
  lemma ReportIsExact(g: Graph, turn: int, seen: Observation, changed: seq<string>)
    requires Indexed(g) && Located(g) && Reports(changed, g, Observed(g, turn, seen))
    ensures ReportsExactly(changed, g, Observed(g, turn, seen)) <==> !EmptyKeyHit(g, seen)
  {
    var later := Observed(g, turn, seen);
    forall k ensures Overlooked(g, later, k) <==> k == "" && EmptyKeyHit(g, seen) {
      OverlookedIsEmptyKey(g, turn, seen, k);
    }
    assert EmptyKeyHit(g, seen) ==> Differs(g, later, "") && "" !in changed;
  }

  /** Two turns are enough: a node keyed "", and then an outcome before any gate was seen. */
  lemma EmptyKeyCanBeHit()
    ensures var first := Turn(0, Observation("", "Hello", Greeting, None, None));
            EmptyKeyHit(Explored([first]), Observation("", "Hello", Greeting, Some(Rejected), None))
  {
    var first := Turn(0, Observation("", "Hello", Greeting, None, None));
    var g := Explored([first]);
    assert [first][..|[first]| - 1] == [] && [first][|[first]| - 1] == first;
    assert Explored([]) == EMPTY_GRAPH;
    MovedMeaning(EMPTY_GRAPH, 0, first.obs, "");
  }

  // Intents

  const ARROW := " \U{2192} "

  function PathOf(g: Graph, k: string): string
    requires Treed(g) && k in g.nodes
  {
    Join(Titles(g, k), ARROW)
  }

  predicate IsTopic(n: Node) {
    n.kind == Intent || n.kind == Handoff
  }

  function Summary(g: Graph, k: string): IntentSummary
    requires Treed(g) && k in g.nodes
  {
    IntentSummary(g.nodes[k].title, g.nodes[k].state, PathOf(g, k), g.nodes[k].reason)
  }

  /** The reached topics among `keys`, in order. */
  function Reached(g: Graph, keys: seq<string>): seq<IntentSummary>
    requires Treed(g) && forall k :: k in keys ==> k in g.nodes
  {
    if keys == [] then []
    else
      var k := keys[|keys| - 1];
      Reached(g, keys[..|keys| - 1]) + if IsTopic(g.nodes[k]) then [Summary(g, k)] else []
  }

  predicate BlockedGate(g: Graph, k: string) {
    k in g.nodes && g.nodes[k].kind == Gate && g.nodes[k].state == Blocked
  }

  function FirstBlocked(g: Graph, keys: seq<string>): (gate: Option<string>)
    ensures gate.Some? ==> gate.value in keys && BlockedGate(g, gate.value)
    ensures gate.None? ==> forall k :: k in keys ==> !BlockedGate(g, k)
  {
    if keys == [] then None
    else
      var earlier := FirstBlocked(g, keys[..|keys| - 1]);
      if earlier.Some? then earlier
      else if BlockedGate(g, keys[|keys| - 1]) then Some(keys[|keys| - 1])
      else None
  }

  function Folds(names: seq<string>, fold: string -> string): set<string> {
    set n | n in names :: fold(n)
  }

  /** The expected names that are not among `seen`, up to case, each once. */
  function Missing(expected: seq<string>, seen: set<string>, fold: string -> string): seq<string> {
    if expected == [] then []
    else
      var earlier := Missing(expected[..|expected| - 1], seen, fold);
      var name := expected[|expected| - 1];
      if fold(name) in seen + Folds(earlier, fold) then earlier else earlier + [name]
  }

  function Names(summaries: seq<IntentSummary>): (names: seq<string>)
    ensures |names| == |summaries|
  {
    seq(|summaries|, i requires 0 <= i < |summaries| => summaries[i].name)
  }

  function Behind(g: Graph, gate: string, name: string): IntentSummary
    requires Treed(g) && BlockedGate(g, gate)
  {
    var reason := if g.nodes[gate].reason.Some? then g.nodes[gate].reason.value else "None";
    IntentSummary(name, Blocked, PathOf(g, gate) + ARROW + name, Some("Behind the " + g.nodes[gate].title + " step: " + reason))
  }

  function AllBehind(g: Graph, gate: string, names: seq<string>): (summaries: seq<IntentSummary>)
    requires Treed(g) && BlockedGate(g, gate)
    ensures |summaries| == |names|
  {
    seq(|names|, i requires 0 <= i < |names| => Behind(g, gate, names[i]))
  }

  /** `intents(expected)`: what was reached and, behind a blocked gate, what was not. */
  function IntentsOf(g: Graph, expected: seq<string>, fold: string -> string): seq<IntentSummary>
    requires Indexed(g) && Treed(g)
  {
    var reached := Reached(g, g.order);
    var gate := FirstBlocked(g, g.order);
    if gate.None? then reached
    else reached + AllBehind(g, gate.value, Missing(expected, Folds(Names(reached), fold), fold))
  }

  lemma {:induction false} MissingIsMinimal(expected: seq<string>, seen: set<string>, fold: string -> string)
    ensures var missing := Missing(expected, seen, fold);
            && (forall e :: e in expected ==> fold(e) in seen + Folds(missing, fold))
            && (forall m :: m in missing ==> m in expected && fold(m) !in seen)
            && (forall i, j :: 0 <= i < j < |missing| ==> fold(missing[i]) != fold(missing[j]))
  {
    if expected == [] {
    } else {
      var init, last := expected[..|expected| - 1], expected[|expected| - 1];
      MissingIsMinimal(init, seen, fold);
      assert expected == init + [last];
      OneMoreExpected(init, last, Missing(init, seen, fold), seen, fold);
    }
  }

  lemma OneMoreExpected(init: seq<string>, last: string, missing: seq<string>, seen: set<string>, fold: string -> string)
    requires forall e :: e in init ==> fold(e) in seen + Folds(missing, fold)
    requires forall m :: m in missing ==> m in init && fold(m) !in seen
    requires forall i, j :: 0 <= i < j < |missing| ==> fold(missing[i]) != fold(missing[j])
    ensures var now := if fold(last) in seen + Folds(missing, fold) then missing else missing + [last];
            && (forall e :: e in init + [last] ==> fold(e) in seen + Folds(now, fold))
            && (forall m :: m in now ==> m in init + [last] && fold(m) !in seen)
            && (forall i, j :: 0 <= i < j < |now| ==> fold(now[i]) != fold(now[j]))
  {
    FoldsOneMore(missing, last, fold);
    assert forall i :: 0 <= i < |missing| ==> fold(missing[i]) in Folds(missing, fold);
  }

  lemma FoldsOneMore(names: seq<string>, name: string, fold: string -> string)
    ensures Folds(names + [name], fold) == Folds(names, fold) + {fold(name)}
  {
    assert forall n :: n in names + [name] <==> n in names || n == name;
  }

  lemma AddedTopics(g: Graph, gate: string, reached: seq<IntentSummary>, missing: seq<string>, fold: string -> string)
    requires Treed(g) && BlockedGate(g, gate)
    requires forall m :: m in missing ==> fold(m) !in Folds(Names(reached), fold)
    requires forall i, j :: 0 <= i < j < |missing| ==> fold(missing[i]) != fold(missing[j])
    ensures var out := reached + AllBehind(g, gate, missing);
            && Folds(Names(reached), fold) + Folds(missing, fold) <= Folds(Names(out), fold)
            && (forall i, j :: 0 <= i < j < |out| && |reached| <= j ==> fold(out[i].name) != fold(out[j].name))
            && (forall j :: |reached| <= j < |out| ==> out[j].name in missing && out[j].state == Blocked)
  {
    var out := reached + AllBehind(g, gate, missing);
    var names := Names(out);
    assert names == Names(reached) + missing;
    forall j | |reached| <= j < |out| ensures out[j].name == missing[j - |reached|] && out[j].state == Blocked { }
    forall i | 0 <= i < |reached| ensures fold(out[i].name) in Folds(Names(reached), fold) {
      assert Names(reached)[i] == out[i].name;
    }
  }

  /**
   Behind a blocked gate every expected topic is accounted for, up to case, and the added ones are
   distinct, blocked and explained by the gate; with no gate blocked none is added.
   */
  lemma IntentsCoverExpected(g: Graph, expected: seq<string>, fold: string -> string)
    requires Indexed(g) && Treed(g)
    ensures var reached, out := Reached(g, g.order), IntentsOf(g, expected, fold);
            && reached <= out
            && ((forall k :: k in g.nodes ==> !BlockedGate(g, k)) ==> out == reached)
            && ((exists k :: BlockedGate(g, k)) ==> forall e :: e in expected ==> fold(e) in Folds(Names(out), fold))
            && (forall j :: |reached| <= j < |out| ==> out[j].name in expected && out[j].state == Blocked)
            && (forall i, j :: 0 <= i < j < |out| && |reached| <= j ==> fold(out[i].name) != fold(out[j].name))
  {
    var reached := Reached(g, g.order);
    var gate := FirstBlocked(g, g.order);
    if gate.Some? {
      var seen := Folds(Names(reached), fold);
      MissingIsMinimal(expected, seen, fold);
      AddedTopics(g, gate.value, reached, Missing(expected, seen, fold), fold);
    }
  }

  /** `s` shows the topic `k`: its label, its state and reason, and the labels on the way to it from the root. */
  ghost predicate Shows(s: IntentSummary, g: Graph, k: string)
    requires Treed(g)
  {
    && k in g.nodes && (g.nodes[k].kind == Intent || g.nodes[k].kind == Handoff)
    && s == IntentSummary(g.nodes[k].title, g.nodes[k].state, Join(Titles(g, k), ARROW), g.nodes[k].reason)
  }

  /** The topics among `keys` are those at the places `at`, in order. */
  lemma {:induction false} ReachedAt(g: Graph, keys: seq<string>) returns (at: seq<nat>)
    requires Treed(g) && forall k :: k in keys ==> k in g.nodes
    ensures |at| == |Reached(g, keys)| && forall i, j :: 0 <= i < j < |at| ==> at[i] < at[j]
    ensures forall j :: 0 <= j < |at| ==> at[j] < |keys| && Shows(Reached(g, keys)[j], g, keys[at[j]])
    ensures forall a :: 0 <= a < |keys| && (g.nodes[keys[a]].kind == Intent || g.nodes[keys[a]].kind == Handoff) ==> a in at
  {
    if keys == [] {
      at := [];
    } else {
      var init, last := keys[..|keys| - 1], keys[|keys| - 1];
      assert last in keys;
      at := ReachedAt(g, init);
      assert forall j :: 0 <= j < |at| ==> keys[at[j]] == init[at[j]];
      if IsTopic(g.nodes[last]) { at := at + [|keys| - 1]; }
    }
  }

  lemma {:induction false} FirstBlockedIsFirst(g: Graph, keys: seq<string>) returns (i: nat)
    ensures i <= |keys| && forall j :: 0 <= j < i ==> !BlockedGate(g, keys[j])
    ensures FirstBlocked(g, keys) == if i < |keys| then Some(keys[i]) else None
    ensures i < |keys| ==> BlockedGate(g, keys[i])
  {
    if keys == [] {
      i := 0;
    } else {
      i := FirstBlockedIsFirst(g, keys[..|keys| - 1]);
      if i == |keys| - 1 && !BlockedGate(g, keys[i]) { i := |keys|; }
    }
  }

  /** `s` tells of `name` that it lies behind the gate, and why that is blocked. */
  ghost predicate ShownBehind(s: IntentSummary, g: Graph, gate: string)
    requires Treed(g) && gate in g.nodes
  {
    && s.state == Blocked && s.path == Join(Titles(g, gate), ARROW) + ARROW + s.name
    && s.reason == Some("Behind the " + g.nodes[gate].title + " step: "
                        + if g.nodes[gate].reason.Some? then g.nodes[gate].reason.value else "None")
  }

  /**
   The list begins with every reached topic, in the order of discovery, as the graph shows it; what is added
   is explained by the first gate that is blocked.
   */
  lemma IntentsExplained(g: Graph, expected: seq<string>, fold: string -> string) returns (at: seq<nat>, gate: nat)
    requires Indexed(g) && Treed(g)
    ensures var out := IntentsOf(g, expected, fold);
            && |at| <= |out| && (forall i, j :: 0 <= i < j < |at| ==> at[i] < at[j])
            && (forall j :: 0 <= j < |at| ==> at[j] < |g.order| && Shows(out[j], g, g.order[at[j]]))
            && (forall a :: 0 <= a < |g.order| && (g.nodes[g.order[a]].kind == Intent || g.nodes[g.order[a]].kind == Handoff) ==> a in at)
            && (|at| < |out| ==> gate < |g.order| && g.nodes[g.order[gate]].kind == Gate && g.nodes[g.order[gate]].state == Blocked
                                 && forall j :: |at| <= j < |out| ==> ShownBehind(out[j], g, g.order[gate]))
    ensures forall j :: 0 <= j < gate && j < |g.order| ==> g.nodes[g.order[j]].kind != Gate || g.nodes[g.order[j]].state != Blocked
  {
    at := ReachedAt(g, g.order);
    gate := FirstBlockedIsFirst(g, g.order);
    assert forall j :: 0 <= j < |g.order| ==> g.order[j] in g.order;
    if gate < |g.order| {
      AddedAreExplained(g, g.order[gate], Missing(expected, Folds(Names(Reached(g, g.order)), fold), fold));
    }
  }

  lemma AddedAreExplained(g: Graph, gate: string, names: seq<string>)
    requires Treed(g) && BlockedGate(g, gate)
    ensures forall j :: 0 <= j < |names| ==> ShownBehind(AllBehind(g, gate, names)[j], g, gate)
  {
  }

  // The graph itself

  class FlowGraph {
    var order: seq<string>
    var nodes: map<string, Node>
    var rows: map<nat, nat>
    var current: Option<string>
    var lastGate: Option<string>

    function Value(): Graph
      reads this
    {
      Graph(order, nodes, rows, current, lastGate)
    }

    constructor ()
      ensures Value() == EMPTY_GRAPH && WellFormed(Value())
    {
      order, nodes, rows, current, lastGate := [], map[], map[], None, None;
    }

    method FirstMenu() returns (menu: Option<string>)
      requires Indexed(Value())
      ensures menu == FirstOfKind(order, nodes, Menu)
    {
      for i := 0 to |order|
        invariant FirstOfKind(order, nodes, Menu) == FirstOfKind(order[i..], nodes, Menu)
      {
        if nodes[order[i]].kind == Menu {
          return Some(order[i]);
        }
        assert order[i..][1..] == order[i + 1..];
      }
      return None;
    }

    method Create(turn: int, obs: Observation, parent: Option<string>)
      requires parent.Some? ==> parent.value in nodes
      requires obs.key !in nodes
      modifies this
      ensures Value() == Created(old(Value()), turn, obs, parent)
    {
      var depth := if parent.Some? then nodes[parent.value].depth + 1 else 0;
      var row := if depth in rows then rows[depth] else 0;
      rows := rows[depth := row + 1];
      nodes := nodes[obs.key := Node(obs.title, obs.kind, depth, row, parent, turn, [], 1, false, None, false, Mapped, None)];
      order := order + [obs.key];
    }

    /** Draws the edge unless it is there; `drawn` says which. */
    method Link(from: string, to: string) returns (drawn: bool)
      requires to in nodes && from != to
      modifies this`nodes
      ensures Value() == Linked(old(Value()), from, to)
      ensures drawn == (from !in old(nodes)[to].incoming)
    {
      drawn := from !in nodes[to].incoming;
      if drawn {
        nodes := nodes[to := nodes[to].(incoming := nodes[to].incoming + [from])];
      }
    }

    method ApplyGateResult(obs: Observation)
      requires obs.key in nodes
      modifies this`nodes
      ensures Value() == Judged(old(Value()), obs)
    {
      if obs.result.None? {
        return;
      }
      var gate := obs.key;
      if nodes[obs.key].kind != Gate {
        gate := if lastGate.Some? then lastGate.value else "";
        if gate !in nodes {
          return;
        }
      }
      var n := nodes[gate];
      match obs.result.value {
        case Passed => n := n.(passed := true);
        case Rejected => n := n.(rejection := Some(RejectionReason(obs)));
        case Pending =>
      }
      nodes := nodes[gate := Refreshed(n)];
    }

    /** Where the call comes from: the node before, or the menu when one topic follows another. */
    method Route(obs: Observation) returns (prev: Option<string>, returnsToMenu: Option<string>)
      requires Indexed(Value()) && Located(Value())
      ensures prev == Source(Value(), obs) && returnsToMenu == ViaMenu(Value(), obs)
    {
      prev, returnsToMenu := current, None;
      if (obs.kind == Intent || obs.kind == Handoff) && current.Some? && nodes[current.value].kind == Intent {
        var menu := FirstMenu();
        if menu.Some? && obs.key != current.value {
          prev, returnsToMenu := menu, menu;
        }
      }
    }

    method Place(turn: int, obs: Observation, prev: Option<string>) returns (created: bool)
      requires prev.Some? ==> prev.value in nodes
      modifies this
      ensures Value() == Placed(old(Value()), turn, obs, prev) && created == (obs.key !in old(nodes))
    {
      created := obs.key !in nodes;
      if created {
        Create(turn, obs, prev);
      } else {
        nodes := nodes[obs.key := nodes[obs.key].(visits := nodes[obs.key].visits + 1)];
      }
    }

    /** The first half of `observe`: where the call is now, and how it got there. */
    method Move(turn: int, obs: Observation) returns (changed: seq<string>)
      requires Indexed(Value()) && Located(Value())
      modifies this
      ensures Value() == Moved(old(Value()), turn, obs)
      ensures ReportsMove(changed, old(Value()), obs)
    {
      ghost var g := Value();
      var prev, returnsToMenu := Route(obs);
      var created := Place(turn, obs, prev);
      changed := if created then [obs.key] else [];
      var hop, step := false, false;
      if returnsToMenu.Some? {
        hop := Link(current.value, returnsToMenu.value);
        if hop {
          changed := changed + [returnsToMenu.value];
        }
      }
      if prev.Some? && prev.value != obs.key {
        step := Link(prev.value, obs.key);
        if step && obs.key !in changed {
          changed := changed + [obs.key];
        }
      }
      assert Value() == Drawn(g, turn, obs);
      MoveReported(g, turn, obs, hop, step, changed);
      current := Some(obs.key);
      if nodes[obs.key].kind == Gate {
        lastGate := Some(obs.key);
      }
    }

    /** Adds the gates whose snapshot changed to the keys reported so far. */
    method GateChanges(before: map<string, Node>, reported: seq<string>) returns (changed: seq<string>)
      requires Indexed(Value()) && before.Keys == nodes.Keys && Distinct(reported)
      ensures Distinct(changed) && forall k :: k in changed <==> k in reported || GateChanged(before, nodes, k)
    {
      changed := reported;
      for i := 0 to |order|
        invariant Distinct(changed)
        invariant forall k :: k in changed <==> k in reported || (k in order[..i] && GateChanged(before, nodes, k))
      {
        var key := order[i];
        if nodes[key].kind == Gate && (before[key].state != nodes[key].state || before[key].reason != nodes[key].reason)
           && key !in changed {
          changed := changed + [key];
        }
      }
      assert order[..|order|] == order;
    }

    method Observe(turn: int, seen: Observation) returns (changed: seq<string>)
      requires Indexed(Value()) && Located(Value())
      modifies this
      ensures Value() == Observed(old(Value()), turn, seen)
      ensures Indexed(Value()) && Located(Value())
      ensures Reports(changed, old(Value()), Value())
    {
      ghost var g := Value();
      var obs := seen;
      if obs.kind == Gate && current.Some? && nodes[current.value].kind == Gate {
        obs := obs.(key := current.value, title := nodes[current.value].title);
      }
      changed := Move(turn, obs);
      var before := nodes;
      ghost var moved := Value();
      ApplyGateResult(obs);
      ObservedLocated(g, turn, seen);
      JudgedShape(moved, obs);
      changed := GateChanges(before, changed);
      AllReported(g, turn, obs, changed);
    }

    method Finalize() returns (changed: seq<string>)
      requires Indexed(Value())
      modifies this`nodes
      ensures Value() == Finalized(old(Value()))
      ensures ReportsExactly(changed, old(Value()), Value())
    {
      ghost var before := nodes;
      changed := [];
      for i := 0 to |order|
        invariant ClosedGates(before, nodes, order[..i], changed)
      {
        var key := order[i];
        assert order[..i + 1] == order[..i] + [key] && key !in order[..i];
        CloseOneMore(before, nodes, order[..i], changed, key);
        var differs := CloseGate(key);
        if differs {
          changed := changed + [key];
        }
      }
      assert order[..|order|] == order;
      FinalizeReported(old(Value()), Value(), changed);
    }

    /** One round of `finalize`: a gate that was never passed counts as unresolved from now on. */
    method CloseGate(key: string) returns (differs: bool)
      requires key in nodes
      modifies this`nodes
      ensures nodes == old(nodes)[key := Ended(old(nodes)[key])]
      ensures differs == GateChanged(old(nodes), nodes, key)
    {
      var n := nodes[key];
      if n.kind != Gate || n.passed {
        return false;
      }
      nodes := nodes[key := Refreshed(n.(unresolved := true))];
      differs := nodes[key].state != n.state || nodes[key].reason != n.reason;
    }

    method Path(key: string) returns (path: string)
      requires Treed(Value()) && key in nodes
      ensures path == PathOf(Value(), key)
    {
      var titles := [nodes[key].title];
      var cur := key;
      while nodes[cur].parent.Some?
        invariant cur in nodes
        invariant titles != [] && titles[0] == nodes[cur].title
        invariant Titles(Value(), key) == Titles(Value(), cur) + titles[1..]
        decreases nodes[cur].depth
      {
        cur := nodes[cur].parent.value;
        titles := [nodes[cur].title] + titles;
      }
      assert Titles(Value(), key) == titles;
      path := Join(titles, ARROW);
    }

    method BlockingGate() returns (gate: Option<string>)
      requires Indexed(Value())
      ensures gate == FirstBlocked(Value(), order)
    {
      for i := 0 to |order|
        invariant FirstBlocked(Value(), order[..i]) == None
      {
        assert order[..i + 1][..i] == order[..i];
        if nodes[order[i]].kind == Gate && nodes[order[i]].state == Blocked {
          FirstBlockedStays(Value(), order, i + 1);
          return Some(order[i]);
        }
      }
      assert order[..|order|] == order;
      return None;
    }

    method ReachedTopics() returns (out: seq<IntentSummary>)
      requires Indexed(Value()) && Treed(Value())
      ensures out == Reached(Value(), order)
    {
      out := [];
      for i := 0 to |order|
        invariant out == Reached(Value(), order[..i])
      {
        assert order[..i + 1][..i] == order[..i];
        var n := nodes[order[i]];
        if n.kind == Intent || n.kind == Handoff {
          var path := Path(order[i]);
          out := out + [IntentSummary(n.title, n.state, path, n.reason)];
        }
      }
      assert order[..|order|] == order;
    }

    method Explain(gate: string, name: string) returns (summary: IntentSummary)
      requires Treed(Value()) && BlockedGate(Value(), gate)
      ensures summary == Behind(Value(), gate, name)
    {
      var path := Path(gate);
      var reason := if nodes[gate].reason.Some? then nodes[gate].reason.value else "None";
      summary := IntentSummary(name, Blocked, path + ARROW + name, Some("Behind the " + nodes[gate].title + " step: " + reason));
    }

    method Intents(expected: seq<string>, fold: string -> string) returns (out: seq<IntentSummary>)
      requires Indexed(Value()) && Treed(Value())
      ensures out == IntentsOf(Value(), expected, fold)
    {
      out := ReachedTopics();
      ghost var reached := out;
      var seen := Folds(Names(out), fold);
      var gate := BlockingGate();
      if gate.None? {
        return;
      }
      ghost var missing: seq<string> := [];
      for i := 0 to |expected|
        invariant missing == Missing(expected[..i], Folds(Names(reached), fold), fold)
        invariant seen == Folds(Names(reached), fold) + Folds(missing, fold)
        invariant out == reached + AllBehind(Value(), gate.value, missing)
      {
        assert expected[..i + 1][..i] == expected[..i];
        if fold(expected[i]) in seen {
          continue;
        }
        seen := seen + {fold(expected[i])};
        var summary := Explain(gate.value, expected[i]);
        out := out + [summary];
        OneMoreBehind(Value(), gate.value, missing, expected[i], fold);
        missing := missing + [expected[i]];
      }
      assert expected[..|expected|] == expected;
    }
  }

  lemma AllReported(g: Graph, turn: int, obs: Observation, changed: seq<string>)
    requires Indexed(g) && Located(g) && Distinct(changed)
    requires var m := Moved(g, turn, obs);
             forall k :: k in changed <==>
                           || (k == obs.key && k !in g.nodes) || Gains(g, obs, k) != []
                           || GateChanged(m.nodes, Judged(m, obs).nodes, k)
    ensures Reports(changed, g, Judged(Moved(g, turn, obs), obs))
  {
    var later := Judged(Moved(g, turn, obs), obs);
    forall k ensures k in changed <==> Differs(g, later, k) && !Overlooked(g, later, k) { ReportedNode(g, turn, obs, k); }
  }

  /** Half-way through `finalize`: the gates among `done` are closed, and `changed` names those that differ. */
  ghost predicate ClosedGates(before: map<string, Node>, nodes: map<string, Node>, done: seq<string>, changed: seq<string>) {
    && nodes.Keys == before.Keys
    && (forall k :: k in nodes ==> nodes[k] == if k in done then Ended(before[k]) else before[k])
    && Distinct(changed)
    && forall k :: k in changed <==> k in done && GateChanged(before, nodes, k)
  }

  lemma CloseOneMore(before: map<string, Node>, nodes: map<string, Node>, done: seq<string>, changed: seq<string>, key: string)
    requires ClosedGates(before, nodes, done, changed) && key in nodes && key !in done
    ensures var nodes' := nodes[key := Ended(nodes[key])];
            ClosedGates(before, nodes', done + [key], if GateChanged(nodes, nodes', key) then changed + [key] else changed)
  {
  }

  lemma FinalizeReported(g: Graph, later: Graph, changed: seq<string>)
    requires Indexed(g) && later == g.(nodes := later.nodes) && ClosedGates(g.nodes, later.nodes, g.order, changed)
    ensures later == Finalized(g) && ReportsExactly(changed, g, later)
  {
    assert later.nodes == Finalized(g).nodes;
    forall k | k in g.nodes ensures Differs(g, later, k) <==> GateChanged(g.nodes, later.nodes, k) { EndedGatesOnly(g.nodes[k]); }
  }

  lemma EndedGatesOnly(n: Node)
    ensures SameCore(n, Ended(n)) && Ended(n).incoming == n.incoming && (n.kind != Gate ==> Ended(n) == n)
  {
  }

  lemma OneMoreBehind(g: Graph, gate: string, missing: seq<string>, name: string, fold: string -> string)
    requires Treed(g) && BlockedGate(g, gate)
    ensures AllBehind(g, gate, missing + [name]) == AllBehind(g, gate, missing) + [Behind(g, gate, name)]
    ensures Folds(missing + [name], fold) == Folds(missing, fold) + {fold(name)}
  {
    var longer := missing + [name];
    assert forall n :: n in longer <==> n in missing || n == name;
  }

  lemma {:induction false} FirstBlockedStays(g: Graph, keys: seq<string>, i: nat)
    requires i <= |keys| && FirstBlocked(g, keys[..i]).Some?
    ensures FirstBlocked(g, keys) == FirstBlocked(g, keys[..i])
  {
    if i == |keys| {
      assert keys[..i] == keys;
    } else {
      assert keys[..|keys| - 1][..i] == keys[..i];
      FirstBlockedStays(g, keys[..|keys| - 1], i);
    }
  }

  function Hopped(g: Graph, turn: int, obs: Observation): Graph
    requires Indexed(g) && Located(g)
  {
    var placed := Placed(g, turn, obs, Source(g, obs));
    if ViaMenu(g, obs).Some? then Linked(placed, g.current.value, ViaMenu(g, obs).value) else placed
  }

  lemma HopIsGain(g: Graph, turn: int, obs: Observation)
    requires Indexed(g) && Located(g) && ViaMenu(g, obs).Some?
    ensures var menu := ViaMenu(g, obs).value;
            var placed := Placed(g, turn, obs, Source(g, obs));
            menu in placed.nodes && (g.current.value !in placed.nodes[menu].incoming <==> Gains(g, obs, menu) != [])
  {
    PlacedMeaning(g, turn, obs, ViaMenu(g, obs).value);
  }

  lemma StepIsGain(g: Graph, turn: int, obs: Observation)
    requires Indexed(g) && Located(g) && ViaMenu(g, obs) != Some(obs.key) && Source(g, obs).Some?
    ensures var prev := Source(g, obs).value;
            var hopped := Hopped(g, turn, obs);
            && obs.key in hopped.nodes
            && (prev != obs.key && prev !in hopped.nodes[obs.key].incoming <==> Gains(g, obs, obs.key) != [])
  {
    PlacedMeaning(g, turn, obs, obs.key);
    if ViaMenu(g, obs).Some? {
      LinkedMeaning(Placed(g, turn, obs, Source(g, obs)), g.current.value, ViaMenu(g, obs).value, obs.key);
    }
  }

  /** Only the observed node and the menu in between can gain an edge. */
  lemma OnlyTwoGain(g: Graph, obs: Observation, k: string)
    requires Indexed(g) && Located(g) && Gains(g, obs, k) != []
    ensures k == obs.key || ViaMenu(g, obs) == Some(k)
  {
  }

  lemma MoveReported(g: Graph, turn: int, obs: Observation, hop: bool, step: bool, changed: seq<string>)
    requires Indexed(g) && Located(g)
    requires var menu := ViaMenu(g, obs);
             hop == (menu.Some? && g.current.value !in Placed(g, turn, obs, Source(g, obs)).nodes[menu.value].incoming)
    requires var prev := Source(g, obs);
             obs.key in Hopped(g, turn, obs).nodes
             && step == (prev.Some? && prev.value != obs.key && prev.value !in Hopped(g, turn, obs).nodes[obs.key].incoming)
    requires changed == Announced(g, obs, hop, step)
    ensures ReportsMove(changed, g, obs)
  {
    if ViaMenu(g, obs).Some? { HopIsGain(g, turn, obs); }
    if ViaMenu(g, obs) != Some(obs.key) && Source(g, obs).Some? { StepIsGain(g, turn, obs); }
    AnnouncedIsReport(g, obs, hop, step);
  }

  /** The keys in the order in which `observe` appends them. */
  function Announced(g: Graph, obs: Observation, hop: bool, step: bool): seq<string>
    requires Indexed(g) && Located(g) && (hop ==> ViaMenu(g, obs).Some?)
  {
    var first := (if obs.key in g.nodes then [] else [obs.key]) + (if hop then [ViaMenu(g, obs).value] else []);
    first + if step && obs.key !in first then [obs.key] else []
  }

  lemma AnnouncedIsReport(g: Graph, obs: Observation, hop: bool, step: bool)
    requires Indexed(g) && Located(g)
    requires var menu := ViaMenu(g, obs); hop == (menu.Some? && Gains(g, obs, menu.value) != [])
    requires step ==> Gains(g, obs, obs.key) != []
    requires ViaMenu(g, obs) != Some(obs.key) ==> step == (Gains(g, obs, obs.key) != [])
    ensures ReportsMove(Announced(g, obs, hop, step), g, obs)
  {
    var changed := Announced(g, obs, hop, step);
    forall k ensures k in changed <==> (k == obs.key && k !in g.nodes) || Gains(g, obs, k) != [] {
      if Gains(g, obs, k) != [] { OnlyTwoGain(g, obs, k); }
    }
  }
}
