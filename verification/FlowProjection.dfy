/** The live map and the discovery tables, rebuilt from nothing but the frames of the change reports. */
module FlowProjection {
  import opened RunTypes
  import opened GraphModel
  import opened GraphStructure
  import opened GraphHistory
  import opened FlowGraph

  const LAYER_WIDTH := 240
  const ROW_HEIGHT := 110

  datatype NodeFrame = NodeFrame(
    id: string,
    title: string,
    x: int,
    y: int,
    state: NodeState,
    reason: Option<string>,
    fromNodes: seq<string>)

  function FrameOf(g: Graph, k: string): NodeFrame
    requires k in g.nodes
  {
    var n := g.nodes[k];
    NodeFrame(k, n.title, n.depth * LAYER_WIDTH, n.row * ROW_HEIGHT, n.state, n.reason, n.incoming)
  }

  function Frames(g: Graph, keys: seq<string>): (frames: seq<NodeFrame>)
    requires forall k :: k in keys ==> k in g.nodes
    ensures |frames| == |keys|
  {
    seq(|keys|, i requires 0 <= i < |keys| => FrameOf(g, keys[i]))
  }

  /** Upserts, one after the other: the last item of each key stays. */
  function LastBy<T>(items: seq<T>, key: T -> string): map<string, T> {
    if items == [] then map[]
    else LastBy(items[..|items| - 1], key)[key(items[|items| - 1]) := items[|items| - 1]]
  }

  lemma {:induction false} LastOfBoth<T>(a: seq<T>, b: seq<T>, key: T -> string)
    ensures LastBy(a + b, key) == LastBy(a, key) + LastBy(b, key)
  {
    if b == [] {
      assert a + b == a;
    } else {
      var init := b[..|b| - 1];
      assert (a + b)[..|a + b| - 1] == a + init;
      LastOfBoth(a, init, key);
    }
  }

  lemma {:induction false} LastKeys<T>(items: seq<T>, key: T -> string, k: string)
    ensures k in LastBy(items, key) <==> exists i :: 0 <= i < |items| && key(items[i]) == k
    ensures k in LastBy(items, key) ==> key(LastBy(items, key)[k]) == k && LastBy(items, key)[k] in items
  {
    if items == [] {
    } else {
      var init := items[..|items| - 1];
      LastKeys(init, key, k);
      if i :| 0 <= i < |items| && key(items[i]) == k { assert i < |init| ==> init[i] == items[i]; }
      if i :| 0 <= i < |init| && key(init[i]) == k { assert items[i] == init[i]; }
      assert forall item :: item in init ==> item in items;
    }
  }

  const FRAME_ID := (f: NodeFrame) => f.id
  const TOPIC_NAME := (t: IntentSummary) => t.name

  // The live map

  /** `reports` are change reports of the turns `h`, as `observe` returns them. */
  ghost predicate Honest(h: seq<Turn>, reports: seq<seq<string>>)
    requires |reports| == |h|
  {
    h == []
    || (&& Honest(h[..|h| - 1], reports[..|h| - 1])
        && Reports(reports[|h| - 1], Explored(h[..|h| - 1]), Explored(h)))
  }

  /** Every node frame emitted during the call. */
  ghost function LiveLog(h: seq<Turn>, reports: seq<seq<string>>): seq<NodeFrame>
    requires |reports| == |h| && Honest(h, reports)
  {
    if h == [] then []
    else LiveLog(h[..|h| - 1], reports[..|h| - 1]) + Frames(Explored(h), reports[|h| - 1])
  }

  /** Some turn of the call hit the empty key. */
  ghost predicate Hit(h: seq<Turn>) {
    h != [] && (Hit(h[..|h| - 1]) || EmptyKeyHit(Explored(h[..|h| - 1]), h[|h| - 1].obs))
  }

  /** The frame stands where the node is, one column per layer and one line per row, with its label and its edges. */
  ghost predicate Places(f: NodeFrame, k: string, n: Node) {
    f.id == k && f.title == n.title && f.x == 240 * n.depth && f.y == 110 * n.row && f.fromNodes == n.incoming
  }

  /** `shown` is the graph, except perhaps for the state and reason of the node keyed "". */
  ghost predicate Mirrors(shown: map<string, NodeFrame>, g: Graph, hit: bool) {
    && (forall k :: k in shown <==> k in g.nodes)
    && (forall k :: k in shown ==> Places(shown[k], k, g.nodes[k]))
    && forall k :: k in shown && !(hit && k == "") ==> shown[k].state == g.nodes[k].state && shown[k].reason == g.nodes[k].reason
  }

  lemma FramesByKey(g: Graph, keys: seq<string>, k: string)
    requires forall key :: key in keys ==> key in g.nodes
    ensures var shown := LastBy(Frames(g, keys), FRAME_ID);
            (k in shown <==> k in keys) && (k in shown ==> shown[k] == FrameOf(g, k))
  {
    var frames := Frames(g, keys);
    LastKeys(frames, FRAME_ID, k);
    assert forall i :: 0 <= i < |keys| ==> FRAME_ID(frames[i]) == keys[i];
    assert forall f :: f in frames ==> f.id in g.nodes && f == FrameOf(g, f.id);
  }

  lemma MirrorStep(shown: map<string, NodeFrame>, g: Graph, later: Graph, changed: seq<string>, hit: bool)
    requires Mirrors(shown, g, hit) && Grows(g, later) && Distinct(changed)
    requires forall k :: k in changed ==> k in later.nodes && Differs(g, later, k)
    requires forall k :: Differs(g, later, k) && !(hit && k == "") ==> k in changed
    requires forall k :: k in later.nodes && k !in changed ==> k in g.nodes && later.nodes[k].incoming == g.nodes[k].incoming
    ensures Mirrors(shown + LastBy(Frames(later, changed), FRAME_ID), later, hit)
  {
    var shown' := shown + LastBy(Frames(later, changed), FRAME_ID);
    forall k ensures k in shown' <==> k in later.nodes { FramesByKey(later, changed, k); }
    forall k | k in shown' ensures Places(shown'[k], k, later.nodes[k]) { FramesByKey(later, changed, k); }
    forall k | k in shown' && !(hit && k == "")
      ensures shown'[k].state == later.nodes[k].state && shown'[k].reason == later.nodes[k].reason
    {
      FramesByKey(later, changed, k);
    }
  }

  lemma ReportMisses(g: Graph, later: Graph, changed: seq<string>, hit: bool)
    requires Reports(changed, g, later) && Grows(g, later)
    requires forall k :: Overlooked(g, later, k) <==> k == "" && hit
    ensures forall k :: k in changed ==> k in later.nodes && Differs(g, later, k)
    ensures forall k :: Differs(g, later, k) && !(hit && k == "") ==> k in changed
    ensures forall k :: k in later.nodes && k !in changed ==> k in g.nodes && later.nodes[k].incoming == g.nodes[k].incoming
  {
  }

  lemma MirrorReport(shown: map<string, NodeFrame>, g: Graph, turn: int, seen: Observation, changed: seq<string>, hit: bool)
    requires Indexed(g) && Located(g) && Mirrors(shown, g, hit) && Reports(changed, g, Observed(g, turn, seen))
    ensures Mirrors(shown + LastBy(Frames(Observed(g, turn, seen), changed), FRAME_ID), Observed(g, turn, seen),
                    hit || EmptyKeyHit(g, seen))
  {
    var later := Observed(g, turn, seen);
    ObservedGrows(g, turn, seen);
    forall k ensures Overlooked(g, later, k) <==> k == "" && EmptyKeyHit(g, seen) { OverlookedIsEmptyKey(g, turn, seen, k); }
    ReportMisses(g, later, changed, EmptyKeyHit(g, seen));
    MirrorStep(shown, g, later, changed, hit || EmptyKeyHit(g, seen));
  }

  /** After every turn of every call the live map is the graph; only a hit on the empty key can spoil one node. */
  lemma {:induction false} LiveMapIsGraph(h: seq<Turn>, reports: seq<seq<string>>)
    requires |reports| == |h| && Honest(h, reports)
    ensures Mirrors(LastBy(LiveLog(h, reports), FRAME_ID), Explored(h), Hit(h))
  {
    if h == [] {
    } else {
      var init, last := h[..|h| - 1], h[|h| - 1];
      var earlier := LiveLog(init, reports[..|h| - 1]);
      LiveMapIsGraph(init, reports[..|h| - 1]);
      LastOfBoth(earlier, Frames(Explored(h), reports[|h| - 1]), FRAME_ID);
      MirrorReport(LastBy(earlier, FRAME_ID), Explored(init), last.index, last.obs, reports[|h| - 1], Hit(init));
    }
  }

  /** After every turn so far, the live map was exactly the graph. */
  ghost predicate AlwaysExact(h: seq<Turn>, reports: seq<seq<string>>)
    requires |reports| == |h| && Honest(h, reports)
  {
    h == []
    || (&& AlwaysExact(h[..|h| - 1], reports[..|h| - 1])
        && Mirrors(LastBy(LiveLog(h, reports), FRAME_ID), Explored(h), false))
  }

  /** A hit leaves the map with what the graph no longer says of the node keyed "". */
  lemma HitSpoils(shown: map<string, NodeFrame>, g: Graph, turn: int, seen: Observation, changed: seq<string>)
    requires Indexed(g) && Located(g) && Mirrors(shown, g, false) && EmptyKeyHit(g, seen)
    requires Reports(changed, g, Observed(g, turn, seen))
    ensures !Mirrors(shown + LastBy(Frames(Observed(g, turn, seen), changed), FRAME_ID), Observed(g, turn, seen), false)
  {
    var later := Observed(g, turn, seen);
    OverlookedIsEmptyKey(g, turn, seen, "");
    FramesByKey(later, changed, "");
    assert "" !in changed && FrameOf(g, "") != FrameOf(later, "");
  }

  /** The live map is the graph throughout a call if and only if no turn hits the empty key. */
  lemma {:induction false} ExactUnlessHit(h: seq<Turn>, reports: seq<seq<string>>)
    requires |reports| == |h| && Honest(h, reports)
    ensures AlwaysExact(h, reports) <==> !Hit(h)
  {
    if h == [] {
    } else {
      var init, last := h[..|h| - 1], h[|h| - 1];
      var earlier := LiveLog(init, reports[..|h| - 1]);
      ExactUnlessHit(init, reports[..|h| - 1]);
      LiveMapIsGraph(init, reports[..|h| - 1]);
      LiveMapIsGraph(h, reports);
      LastOfBoth(earlier, Frames(Explored(h), reports[|h| - 1]), FRAME_ID);
      if !Hit(init) && Hit(h) {
        HitSpoils(LastBy(earlier, FRAME_ID), Explored(init), last.index, last.obs, reports[|h| - 1]);
      }
    }
  }

  // The end of the call

  ghost function WholeLog(h: seq<Turn>, reports: seq<seq<string>>, atEnd: seq<string>): seq<NodeFrame>
    requires |reports| == |h| && Honest(h, reports) && ReportsExactly(atEnd, Explored(h), Finalized(Explored(h)))
  {
    LiveLog(h, reports) + Frames(Finalized(Explored(h)), atEnd)
  }

  /** The frames of a finished call, last one per node, are the finished graph. */
  lemma FinishedMapIsGraph(h: seq<Turn>, reports: seq<seq<string>>, atEnd: seq<string>)
    requires |reports| == |h| && Honest(h, reports) && ReportsExactly(atEnd, Explored(h), Finalized(Explored(h)))
    ensures Mirrors(LastBy(WholeLog(h, reports, atEnd), FRAME_ID), Finalized(Explored(h)), Hit(h))
  {
    var g := Explored(h);
    LiveMapIsGraph(h, reports);
    LastOfBoth(LiveLog(h, reports), Frames(Finalized(g), atEnd), FRAME_ID);
    FinalizedShape(g);
    MirrorStep(LastBy(LiveLog(h, reports), FRAME_ID), g, Finalized(g), atEnd, Hit(h));
  }

  // The tables

  ghost predicate EdgeRow(nodes: map<string, NodeFrame>, from: string, to: string) {
    to in nodes && from in nodes[to].fromNodes && from in nodes
  }

  /** `materialize_discovery`: the node, edge and intent rows that the run's events leave behind. */
  method MaterializeDiscovery(frames: seq<NodeFrame>, topics: seq<IntentSummary>)
    returns (nodes: map<string, NodeFrame>, edges: set<(string, string)>, intents: map<string, IntentSummary>)
    ensures nodes == LastBy(frames, FRAME_ID)
    ensures forall from, to :: (from, to) in edges <==> EdgeRow(nodes, from, to)
    ensures intents == LastBy(topics, TOPIC_NAME)
  {
    nodes, edges, intents := map[], {}, map[];
    var ids: seq<string> := [];
    for i := 0 to |frames|
      invariant nodes == LastBy(frames[..i], FRAME_ID)
      invariant forall k :: k in ids <==> k in nodes
    {
      assert frames[..i + 1][..i] == frames[..i];
      if frames[i].id !in nodes {
        ids := ids + [frames[i].id];
      }
      nodes := nodes[frames[i].id := frames[i]];
    }
    assert frames[..|frames|] == frames;
    for i := 0 to |ids|
      invariant forall from, to :: (from, to) in edges <==> to in ids[..i] && EdgeRow(nodes, from, to)
    {
      var fromNodes := nodes[ids[i]].fromNodes;
      ghost var before := edges;
      for j := 0 to |fromNodes|
        invariant forall from, to :: (from, to) in edges <==>
                                     (from, to) in before || (to == ids[i] && from in fromNodes[..j] && from in nodes)
      {
        if fromNodes[j] in nodes {
          edges := edges + {(fromNodes[j], ids[i])};
        }
      }
    }
    for i := 0 to |topics|
      invariant intents == LastBy(topics[..i], TOPIC_NAME)
    {
      assert topics[..i + 1][..i] == topics[..i];
      intents := intents[topics[i].name := topics[i]];
    }
    assert topics[..|topics|] == topics;
  }

  /**
   The tables of a finished call hold every node and every edge of its graph, and nothing else, whatever
   happened during the call; only a hit can leave a wrong state and reason, and only at the node keyed "".
   */
  lemma TablesAreGraph(h: seq<Turn>, reports: seq<seq<string>>, atEnd: seq<string>)
    requires |reports| == |h| && Honest(h, reports) && ReportsExactly(atEnd, Explored(h), Finalized(Explored(h)))
    ensures var g := Finalized(Explored(h));
            var nodes := LastBy(WholeLog(h, reports, atEnd), FRAME_ID);
            && (forall k :: k in nodes <==> k in g.nodes)
            && (forall k :: k in g.nodes ==> Places(nodes[k], k, g.nodes[k]))
            && (forall k :: k in g.nodes && !(Hit(h) && k == "") ==>
                              nodes[k].state == g.nodes[k].state && nodes[k].reason == g.nodes[k].reason)
            && (forall from, to :: EdgeRow(nodes, from, to) <==> Edge(g, from, to))
  {
    FinishedMapIsGraph(h, reports, atEnd);
    ExploredWellFormed(h);
    FinalizedWellFormed(Explored(h));
    EdgesAreGraph(LastBy(WholeLog(h, reports, atEnd), FRAME_ID), Finalized(Explored(h)), Hit(h));
  }

  lemma EdgesAreGraph(nodes: map<string, NodeFrame>, g: Graph, hit: bool)
    requires Mirrors(nodes, g, hit) && Edged(g)
    ensures forall from, to :: EdgeRow(nodes, from, to) <==> Edge(g, from, to)
  {
    forall from, to ensures EdgeRow(nodes, from, to) <==> Edge(g, from, to) {
      assert to in nodes ==> nodes[to].fromNodes == g.nodes[to].incoming;
    }
  }

  // Topics

  predicate IsTopicNamed(g: Graph, k: string, name: string) {
    k in g.nodes && IsTopic(g.nodes[k]) && g.nodes[k].title == name
  }

  ghost predicate NamesTopic(g: Graph, name: string) {
    exists k :: IsTopicNamed(g, k, name)
  }

  function TopicsNamed(topics: seq<IntentSummary>, names: set<string>): seq<IntentSummary> {
    if topics == [] then []
    else
      var t := topics[|topics| - 1];
      TopicsNamed(topics[..|topics| - 1], names) + if t.name in names then [t] else []
  }

  /** Every intent frame emitted during the call: after each turn, the topics that carry a changed node's label. */
  ghost function LiveTopics(h: seq<Turn>, reports: seq<seq<string>>): seq<IntentSummary>
    requires |reports| == |h|
  {
    if h == [] then []
    else
      var g := Explored(h);
      ExploredWellFormed(h);
      LiveTopics(h[..|h| - 1], reports[..|h| - 1])
      + TopicsNamed(Reached(g, g.order), set k | k in reports[|h| - 1] && k in g.nodes :: g.nodes[k].title)
  }

  ghost predicate TopicAmong(g: Graph, keys: seq<string>, name: string) {
    exists k :: k in keys && IsTopicNamed(g, k, name)
  }

  lemma TopicAmongMore(g: Graph, keys: seq<string>, last: string, name: string)
    ensures TopicAmong(g, keys + [last], name) <==> TopicAmong(g, keys, name) || IsTopicNamed(g, last, name)
  {
    assert forall k :: k in keys + [last] <==> k in keys || k == last;
  }

  lemma {:induction false} ReachedNames(g: Graph, keys: seq<string>, name: string)
    requires Treed(g) && forall k :: k in keys ==> k in g.nodes
    ensures name in Names(Reached(g, keys)) <==> TopicAmong(g, keys, name)
  {
    if keys == [] {
    } else {
      var init, last := keys[..|keys| - 1], keys[|keys| - 1];
      ReachedNames(g, init, name);
      assert keys == init + [last];
      TopicAmongMore(g, init, last, name);
      assert last in keys;
      assert Names(Reached(g, keys)) == Names(Reached(g, init)) + if IsTopic(g.nodes[last]) then [g.nodes[last].title] else [];
    }
  }

  lemma {:induction false} NamedAreAmong(topics: seq<IntentSummary>, names: set<string>)
    ensures forall t :: t in TopicsNamed(topics, names) ==> t.name in Names(topics)
  {
    if topics == [] {
    } else {
      var init, last := topics[..|topics| - 1], topics[|topics| - 1];
      NamedAreAmong(init, names);
      assert Names(topics) == Names(init) + [last.name];
    }
  }

  lemma TopicsStay(g: Graph, later: Graph, name: string)
    requires Grows(g, later) && NamesTopic(g, name)
    ensures NamesTopic(later, name)
  {
    var k :| IsTopicNamed(g, k, name);
    assert IsTopicNamed(later, k, name);
  }

  lemma {:induction false} LiveTopicsStay(h: seq<Turn>, reports: seq<seq<string>>, t: IntentSummary)
    requires |reports| == |h| && t in LiveTopics(h, reports)
    ensures NamesTopic(Explored(h), t.name)
  {
    var init, last := h[..|h| - 1], h[|h| - 1];
    var g := Explored(h);
    if t in LiveTopics(init, reports[..|h| - 1]) {
      LiveTopicsStay(init, reports[..|h| - 1], t);
      ObservedGrows(Explored(init), last.index, last.obs);
      TopicsStay(Explored(init), g, t.name);
    } else {
      ExploredWellFormed(h);
      NamedAreAmong(Reached(g, g.order), set k | k in reports[|h| - 1] && k in g.nodes :: g.nodes[k].title);
      ReachedNames(g, g.order, t.name);
    }
  }

  /** The intent table holds the final topics, whatever was emitted on the way. */
  lemma TopicsAreFinal(h: seq<Turn>, reports: seq<seq<string>>, expected: seq<string>, fold: string -> string)
    requires |reports| == |h|
    ensures Indexed(Finalized(Explored(h))) && Treed(Finalized(Explored(h)))
    ensures var final := IntentsOf(Finalized(Explored(h)), expected, fold);
            LastBy(LiveTopics(h, reports) + final, TOPIC_NAME) == LastBy(final, TOPIC_NAME)
  {
    ExploredWellFormed(h);
    FinalizedWellFormed(Explored(h));
    var live := LiveTopics(h, reports);
    forall t | t in live ensures NamesTopic(Explored(h), t.name) { LiveTopicsStay(h, reports, t); }
    LastTopicsStay(Explored(h), live, expected, fold);
  }

  lemma LastTopicsStay(g: Graph, live: seq<IntentSummary>, expected: seq<string>, fold: string -> string)
    requires Indexed(Finalized(g)) && Treed(Finalized(g)) && forall t :: t in live ==> NamesTopic(g, t.name)
    ensures var final := IntentsOf(Finalized(g), expected, fold);
            LastBy(live + final, TOPIC_NAME) == LastBy(final, TOPIC_NAME)
  {
    var final := IntentsOf(Finalized(g), expected, fold);
    LastOfBoth(live, final, TOPIC_NAME);
    forall name | name in LastBy(live, TOPIC_NAME) ensures name in LastBy(final, TOPIC_NAME) {
      LastKeys(live, TOPIC_NAME, name);
      FinalNames(g, expected, fold, name);
    }
  }

  lemma FinalNames(g: Graph, expected: seq<string>, fold: string -> string, name: string)
    requires NamesTopic(g, name) && Indexed(Finalized(g)) && Treed(Finalized(g))
    ensures name in LastBy(IntentsOf(Finalized(g), expected, fold), TOPIC_NAME)
  {
    var later := Finalized(g);
    FinalizedShape(g);
    TopicsStay(g, later, name);
    ReachedNames(later, later.order, name);
    IntentsCoverExpected(later, expected, fold);
    var reached := Reached(later, later.order);
    var i :| 0 <= i < |reached| && Names(reached)[i] == name;
    var final := IntentsOf(later, expected, fold);
    assert final[i] == reached[i] && TOPIC_NAME(final[i]) == name;
    LastKeys(final, TOPIC_NAME, name);
  }
}
