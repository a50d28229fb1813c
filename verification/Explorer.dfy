/** The explorer's policy: which topic is next, what counts as reached, and when to hang up. */
module Explorer {
  import opened RunTypes
  import opened Text
  import opened GraphModel
  import opened GraphStructure
  import opened FlowGraph

  const DEFAULT_TURN_BUDGET: int := 40
  const MAX_GATE_REJECTIONS: nat := 3
  const MAX_STALLS_PER_TOPIC: nat := 2

  /** What the repository gets from Unicode case folding and from a regular expression. */
  datatype Language = Language(fold: string -> string, isHandoff: string -> bool)

  /** The model's structured output, which nothing constrains. */
  datatype Output = Output(observation: Observation, utterance: string, callComplete: bool, reachedCandidate: Option<string>)

  // Candidates

  function Where(names: seq<string>, keep: string -> bool): (kept: seq<string>)
    ensures forall n :: n in kept <==> n in names && keep(n)
    ensures |kept| <= |names|
  {
    if names == [] then []
    else
      var last := names[|names| - 1];
      Where(names[..|names| - 1], keep) + if keep(last) then [last] else []
  }

  function Topics(names: seq<string>, lang: Language): seq<string> {
    Where(names, n => !lang.isHandoff(n))
  }

  function Handoffs(names: seq<string>, lang: Language): seq<string> {
    Where(names, n => lang.isHandoff(n))
  }

  /** The first of each name up to case, in order, those that ask for a person last. */
  function OrderedCandidates(names: seq<string>, lang: Language): seq<string> {
    var first := Missing(names, {}, lang.fold);
    Topics(first, lang) + Handoffs(first, lang)
  }

  method OrderCandidates(names: seq<string>, lang: Language) returns (ordered: seq<string>)
    ensures ordered == OrderedCandidates(names, lang)
  {
    var seen: set<string> := {};
    var plain: seq<string>, handoff: seq<string> := [], [];
    ghost var first: seq<string> := [];
    for i := 0 to |names|
      invariant first == Missing(names[..i], {}, lang.fold)
      invariant seen == Folds(first, lang.fold)
      invariant plain == Topics(first, lang) && handoff == Handoffs(first, lang)
    {
      assert names[..i + 1][..i] == names[..i];
      var key := lang.fold(names[i]);
      if key in seen {
        continue;
      }
      seen := seen + {key};
      OneMoreName(first, names[i], lang);
      first := first + [names[i]];
      if lang.isHandoff(names[i]) {
        handoff := handoff + [names[i]];
      } else {
        plain := plain + [names[i]];
      }
    }
    assert names[..|names|] == names;
    ordered := plain + handoff;
  }

  lemma OneMoreName(names: seq<string>, last: string, lang: Language)
    ensures Topics(names + [last], lang) == Topics(names, lang) + if lang.isHandoff(last) then [] else [last]
    ensures Handoffs(names + [last], lang) == Handoffs(names, lang) + if lang.isHandoff(last) then [last] else []
    ensures Folds(names + [last], lang.fold) == Folds(names, lang.fold) + {lang.fold(last)}
  {
    assert (names + [last])[..|names|] == names;
    assert forall n :: n in names + [last] <==> n in names || n == last;
  }

  ghost predicate DistinctUpToCase(names: seq<string>, lang: Language) {
    forall i, j :: 0 <= i < j < |names| ==> lang.fold(names[i]) != lang.fold(names[j])
  }

  lemma {:induction false} WhereKeepsDistinct(names: seq<string>, keep: string -> bool, lang: Language)
    requires DistinctUpToCase(names, lang)
    ensures DistinctUpToCase(Where(names, keep), lang)
  {
    if names == [] {
    } else {
      var init, last := names[..|names| - 1], names[|names| - 1];
      WhereKeepsDistinct(init, keep, lang);
      var kept := Where(init, keep);
      forall i | 0 <= i < |kept| ensures lang.fold(kept[i]) != lang.fold(last) {
        assert kept[i] in kept;
        var j :| 0 <= j < |init| && init[j] == kept[i];
      }
    }
  }

  lemma FoldsApart(a: seq<string>, b: seq<string>, first: seq<string>, lang: Language)
    requires DistinctUpToCase(a, lang) && DistinctUpToCase(b, lang) && DistinctUpToCase(first, lang)
    requires forall n :: n in a ==> n in first && n !in b
    requires forall n :: n in b ==> n in first
    ensures DistinctUpToCase(a + b, lang)
  {
    forall i, j | 0 <= i < |a| && 0 <= j < |b| ensures lang.fold(a[i]) != lang.fold(b[j]) {
      assert a[i] in a && b[j] in b;
      var k :| 0 <= k < |first| && first[k] == a[i];
      var m :| 0 <= m < |first| && first[m] == b[j];
      assert k < m || m < k;
    }
  }

  /** Every name is represented up to case exactly once, and requests for a person come last. */
  lemma CandidatesAreOrdered(names: seq<string>, lang: Language)
    ensures var out := OrderedCandidates(names, lang);
            && DistinctUpToCase(out, lang)
            && (forall n :: n in out ==> n in names)
            && (forall n :: n in names ==> lang.fold(n) in Folds(out, lang.fold))
            && (forall i, j :: 0 <= i < j < |out| && lang.isHandoff(out[i]) ==> lang.isHandoff(out[j]))
  {
    var first := Missing(names, {}, lang.fold);
    MissingIsMinimal(names, {}, lang.fold);
    PartitionIsOrdered(first, lang);
    var out := OrderedCandidates(names, lang);
    forall n | n in names ensures lang.fold(n) in Folds(out, lang.fold) {
      assert lang.fold(n) in Folds(first, lang.fold);
      var m :| m in first && lang.fold(m) == lang.fold(n);
      assert m in out;
    }
  }

  lemma PartitionIsOrdered(first: seq<string>, lang: Language)
    requires DistinctUpToCase(first, lang)
    ensures var out := Topics(first, lang) + Handoffs(first, lang);
            && DistinctUpToCase(out, lang) && (forall n :: n in first <==> n in out)
            && (forall i, j :: 0 <= i < j < |out| && lang.isHandoff(out[i]) ==> lang.isHandoff(out[j]))
  {
    var plain, handoff := Topics(first, lang), Handoffs(first, lang);
    WhereKeepsDistinct(first, n => !lang.isHandoff(n), lang);
    WhereKeepsDistinct(first, n => lang.isHandoff(n), lang);
    FoldsApart(plain, handoff, first, lang);
    assert forall i :: 0 <= i < |plain| ==> plain[i] in plain;
    assert forall i :: 0 <= i < |handoff| ==> handoff[i] in handoff;
  }

  /** `out` are the names at the places `at`, in order. */
  ghost predicate Picks(names: seq<string>, at: seq<nat>, out: seq<string>) {
    && |at| == |out| && (forall j :: 0 <= j < |at| ==> at[j] < |names| && out[j] == names[at[j]])
    && forall i, j :: 0 <= i < j < |at| ==> at[i] < at[j]
  }

  lemma PicksOn(init: seq<string>, last: string, at: seq<nat>, out: seq<string>)
    requires Picks(init, at, out)
    ensures Picks(init + [last], at, out) && Picks(init + [last], at + [|init|], out + [last])
  {
  }

  lemma PicksTwice(names: seq<string>, places: seq<nat>, first: seq<string>, at: seq<nat>, out: seq<string>) returns (both: seq<nat>)
    requires Picks(names, places, first) && Picks(first, at, out)
    ensures Picks(names, both, out) && forall j :: 0 <= j < |both| ==> both[j] in places
  {
    both := seq(|at|, i requires 0 <= i < |at| => places[at[i]]);
  }

  lemma {:induction false} WhereAt(names: seq<string>, keep: string -> bool) returns (at: seq<nat>)
    ensures Picks(names, at, Where(names, keep))
    ensures forall a :: 0 <= a < |names| && keep(names[a]) ==> a in at
  {
    if names == [] {
      at := [];
    } else {
      var init, last := names[..|names| - 1], names[|names| - 1];
      at := WhereAt(init, keep);
      assert names == init + [last];
      PicksOn(init, last, at, Where(init, keep));
      if keep(last) { at := at + [|init|]; }
    }
  }

  /** No earlier name is the same up to case. */
  ghost predicate FirstSpelling(names: seq<string>, k: nat, lang: Language) {
    k < |names| && forall m :: 0 <= m < k ==> lang.fold(names[m]) != lang.fold(names[k])
  }

  lemma {:induction false} MissingAt(names: seq<string>, lang: Language) returns (at: seq<nat>)
    ensures Picks(names, at, Missing(names, {}, lang.fold)) && forall k :: k in at ==> FirstSpelling(names, k, lang)
  {
    if names == [] {
      at := [];
    } else {
      var init, last := names[..|names| - 1], names[|names| - 1];
      at := MissingAt(init, lang);
      assert names == init + [last];
      var first := Missing(init, {}, lang.fold);
      PicksOn(init, last, at, first);
      if lang.fold(last) !in Folds(first, lang.fold) {
        NewSpelling(init, last, lang);
        at := at + [|init|];
      }
    }
  }

  lemma NewSpelling(init: seq<string>, last: string, lang: Language)
    requires lang.fold(last) !in Folds(Missing(init, {}, lang.fold), lang.fold)
    ensures FirstSpelling(init + [last], |init|, lang)
  {
    MissingIsMinimal(init, {}, lang.fold);
    var names := init + [last];
    forall m | 0 <= m < |init| ensures lang.fold(names[m]) != lang.fold(last) { assert names[m] == init[m] && init[m] in init; }
  }

  /** Each candidate is the first spelling of its name, and within each of the two groups the order is kept. */
  lemma CandidatesKeepOrder(names: seq<string>, lang: Language) returns (plain: seq<nat>, handoff: seq<nat>)
    ensures var out := OrderedCandidates(names, lang);
            && |plain| <= |out| && Picks(names, plain, out[..|plain|]) && Picks(names, handoff, out[|plain|..])
            && (forall k :: k in plain ==> FirstSpelling(names, k, lang) && !lang.isHandoff(names[k]))
            && (forall k :: k in handoff ==> FirstSpelling(names, k, lang) && lang.isHandoff(names[k]))
  {
    var first := Missing(names, {}, lang.fold);
    var places := MissingAt(names, lang);
    plain := KeptPlaces(names, places, first, n => !lang.isHandoff(n));
    handoff := KeptPlaces(names, places, first, n => lang.isHandoff(n));
    var topics, handoffs := Topics(first, lang), Handoffs(first, lang);
    assert (topics + handoffs)[..|topics|] == topics && (topics + handoffs)[|topics|..] == handoffs;
  }

  lemma KeptPlaces(names: seq<string>, places: seq<nat>, first: seq<string>, keep: string -> bool) returns (at: seq<nat>)
    requires Picks(names, places, first)
    ensures Picks(names, at, Where(first, keep)) && forall k :: k in at ==> k in places && k < |names| && keep(names[k])
  {
    var kept := WhereAt(first, keep);
    at := PicksTwice(names, places, first, kept, Where(first, keep));
    forall k | k in at ensures k in places && k < |names| && keep(names[k]) {
      var j :| 0 <= j < |at| && at[j] == k;
      assert Where(first, keep)[j] in Where(first, keep);
    }
  }

  // Node keys

  predicate Plain(c: char) {
    'a' <= c <= 'z' || '0' <= c <= '9'
  }

  const PLAIN := (c: char) => Plain(c)
  const NO_UNDERSCORE := (c: char) => c != '_'

  /** Every run of other characters becomes one underscore, and none is left at the ends. */
  function Slug(topic: string, lang: Language): string {
    Strip(Squeeze(lang.fold(topic), PLAIN, '_'), NO_UNDERSCORE)
  }

  /** A node key is the topic's words of letters a-z and digits, with one underscore between any two. */
  lemma SlugIsWords(topic: string, lang: Language)
    ensures Slug(topic, lang) == Join(Stretches(lang.fold(topic), PLAIN), "_")
  {
    SqueezedChars(lang.fold(topic), PLAIN, '_');
    StripSame(Squeeze(lang.fold(topic), PLAIN, '_'), PLAIN, NO_UNDERSCORE);
    CleanMeaning(lang.fold(topic), PLAIN, '_');
  }

  /** A topic's node key is empty exactly when the folded topic has neither a letter a-z nor a digit. */
  lemma SlugIsEmpty(topic: string, lang: Language)
    ensures Slug(topic, lang) == "" <==> forall c :: c in lang.fold(topic) ==> !Plain(c)
  {
    SlugIsWords(topic, lang);
    NoStretches(lang.fold(topic), PLAIN);
    var words := Stretches(lang.fold(topic), PLAIN);
    if words != [] { JoinEnds(words, PLAIN, "_"); }
  }

  // Policy

  /** The explorer's own state; `candidates`, the budget and `lang` never change. */
  datatype Policy = Policy(
    reached: seq<string>,
    abandoned: seq<string>,
    stalls: map<string, nat>,
    rejections: nat,
    callerTurns: nat,
    handedOff: bool)

  const FRESH := Policy([], [], map[], 0, 0, false)

  function Remaining(candidates: seq<string>, p: Policy, lang: Language): (remaining: seq<string>)
    ensures forall c :: c in remaining <==> c in candidates && lang.fold(c) !in Folds(p.reached + p.abandoned, lang.fold)
  {
    Where(candidates, c => lang.fold(c) !in Folds(p.reached + p.abandoned, lang.fold))
  }

  function FirstOf(names: seq<string>): Option<string> {
    if names == [] then None else Some(names[0])
  }

  function Match(candidates: seq<string>, name: string, lang: Language): (topic: Option<string>)
    ensures topic.Some? ==> topic.value in candidates && lang.fold(topic.value) == lang.fold(name)
    ensures topic.None? ==> lang.fold(name) !in Folds(candidates, lang.fold)
  {
    if candidates == [] then None
    else if lang.fold(candidates[0]) == lang.fold(name) then Some(candidates[0])
    else Match(candidates[1..], name, lang)
  }

  predicate TopicKind(kind: NodeKind) {
    kind == Intent || kind == Handoff
  }

  /** The topic that this agent turn carried out, if any; `target` is the one the call was steering at. */
  function AttributedTopic(candidates: seq<string>, p: Policy, target: Option<string>, out: Output, lang: Language)
    : (topic: Option<string>)
    requires target.Some? ==> target.value in candidates
    ensures topic.Some? ==> topic.value in candidates
  {
    var named := if out.reachedCandidate.Some? then Match(candidates, out.reachedCandidate.value, lang) else None;
    if named.Some? then named
    else if out.observation.kind == Intent then target
    else if out.observation.kind == Handoff then FirstOf(Where(Remaining(candidates, p, lang), c => lang.isHandoff(c)))
    else None
  }

  /** A reached topic is named after the candidate, and keyed by its slug. */
  function Canonical(topic: Option<string>, obs: Observation, lang: Language): Observation {
    if topic.None? then obs
    else obs.(key := Slug(topic.value, lang), title := topic.value, kind := if TopicKind(obs.kind) then obs.kind else Intent)
  }

  function Reach(p: Policy, topic: string): Policy {
    if topic in p.reached then p else p.(reached := p.reached + [topic])
  }

  function StallsOn(p: Policy, topic: string): nat {
    if topic in p.stalls then p.stalls[topic] else 0
  }

  function Stall(p: Policy, topic: string): Policy {
    var stalls := StallsOn(p, topic) + 1;
    p.(stalls := p.stalls[topic := stalls],
       abandoned := if stalls >= MAX_STALLS_PER_TOPIC && topic !in p.abandoned then p.abandoned + [topic] else p.abandoned)
  }

  function Absorbed(candidates: seq<string>, p: Policy, target: Option<string>, obs: Observation, lang: Language): Policy {
    var heard := p.(rejections := p.rejections + (if obs.result == Some(Rejected) then 1 else 0),
                    handedOff := p.handedOff || obs.kind == Handoff);
    var topic := if TopicKind(obs.kind) then Match(candidates, obs.title, lang) else None;
    if topic.Some? then Reach(heard, topic.value)
    else if Stalled(target, obs) then Stall(heard, target.value)
    else heard
  }

  predicate Stalled(target: Option<string>, obs: Observation) {
    target.Some? && obs.kind != Gate && obs.kind != Greeting
  }

  predicate ShouldStop(candidates: seq<string>, p: Policy, budget: int, obs: Observation, lang: Language) {
    || p.handedOff || p.rejections >= MAX_GATE_REJECTIONS
    || p.callerTurns >= budget - 1
    || (Remaining(candidates, p, lang) == []
        && !(obs.kind == Gate && (obs.result == Some(Pending) || obs.result == Some(Rejected))))
  }

  function Asked(p: Policy): Policy {
    p.(callerTurns := p.callerTurns + 1)
  }

  function TargetOf(candidates: seq<string>, p: Policy, lang: Language): (target: Option<string>)
    ensures target.Some? ==> target.value in Remaining(candidates, p, lang)
  {
    FirstOf(Remaining(candidates, p, lang))
  }

  /** The observation that a model call puts on the map. */
  function SeenBy(candidates: seq<string>, p: Policy, out: Output, lang: Language): Observation {
    var target := TargetOf(candidates, p, lang);
    Canonical(AttributedTopic(candidates, p, target, out, lang), out.observation, lang)
  }

  /** One model call; `None` is a call that failed or timed out. */
  function Called(candidates: seq<string>, p: Policy, reply: Option<Output>, lang: Language): Policy {
    if reply.None? then Asked(p)
    else
      Absorbed(candidates, Asked(p), TargetOf(candidates, p, lang), SeenBy(candidates, p, reply.value, lang), lang)
  }

  predicate Completes(candidates: seq<string>, p: Policy, budget: int, reply: Option<Output>, lang: Language) {
    || reply.None? || reply.value.callComplete
    || ShouldStop(candidates, Called(candidates, p, reply, lang), budget, SeenBy(candidates, p, reply.value, lang), lang)
  }

  lemma {:induction false} MatchIsExact(candidates: seq<string>, topic: string, lang: Language)
    requires DistinctUpToCase(candidates, lang) && topic in candidates
    ensures Match(candidates, topic, lang) == Some(topic)
  {
    if lang.fold(candidates[0]) == lang.fold(topic) {
      var i :| 0 <= i < |candidates| && candidates[i] == topic;
      assert i == 0;
    } else {
      MatchIsExact(candidates[1..], topic, lang);
    }
  }

  /** What the model's answer is attributed to counts as reached, and stands on the map under the candidate's own name. */
  lemma AttributedIsReached(candidates: seq<string>, p: Policy, out: Output, lang: Language, topic: string)
    requires DistinctUpToCase(candidates, lang)
    requires AttributedTopic(candidates, p, TargetOf(candidates, p, lang), out, lang) == Some(topic)
    ensures topic in Called(candidates, p, Some(out), lang).reached
    ensures var obs := SeenBy(candidates, p, out, lang);
            obs.key == Slug(topic, lang) && obs.title == topic && TopicKind(obs.kind)
  {
    MatchIsExact(candidates, topic, lang);
  }

  // What a turn does, by the candidates' names and the model's answer alone

  /** The candidate has been reached or given up, up to case. */
  ghost predicate Done(p: Policy, c: string, lang: Language) {
    exists d :: (d in p.reached || d in p.abandoned) && lang.fold(d) == lang.fold(c)
  }

  /** The call steers at `c`: the first candidate that is not done. */
  ghost predicate AsksAbout(candidates: seq<string>, p: Policy, c: string, lang: Language) {
    exists i :: && 0 <= i < |candidates| && candidates[i] == c && !Done(p, c, lang)
                && forall j :: 0 <= j < i ==> Done(p, candidates[j], lang)
  }

  /** The first candidate that asks for a person and is not done. */
  ghost predicate NextHandoff(candidates: seq<string>, p: Policy, c: string, lang: Language) {
    exists i :: && 0 <= i < |candidates| && candidates[i] == c && lang.isHandoff(c) && !Done(p, c, lang)
                && forall j :: 0 <= j < i ==> !lang.isHandoff(candidates[j]) || Done(p, candidates[j], lang)
  }

  /** The model names a candidate, up to case. */
  ghost predicate Names(candidates: seq<string>, out: Output, lang: Language) {
    out.reachedCandidate.Some? && exists c :: c in candidates && lang.fold(c) == lang.fold(out.reachedCandidate.value)
  }

  /** The agent's turn is credited to `topic`: the one the model names, else the one asked about, or the next handoff. */
  ghost predicate Credits(candidates: seq<string>, p: Policy, out: Output, topic: string, lang: Language) {
    && topic in candidates
    && if Names(candidates, out, lang) then lang.fold(topic) == lang.fold(out.reachedCandidate.value)
       else if out.observation.kind == Intent then AsksAbout(candidates, p, topic, lang)
       else out.observation.kind == Handoff && NextHandoff(candidates, p, topic, lang)
  }

  /** The topic is carried out: it is credited or, when none is, it is what the agent's topic is called. */
  ghost predicate CarriesOut(candidates: seq<string>, p: Policy, out: Output, topic: string, lang: Language) {
    || Credits(candidates, p, out, topic, lang)
    || (&& (forall c :: !Credits(candidates, p, out, c, lang)) && topic in candidates
        && (out.observation.kind == Intent || out.observation.kind == Handoff) && lang.fold(topic) == lang.fold(out.observation.title))
  }

  /** The turn counts against the topic asked about. */
  ghost predicate StallsOnTopic(candidates: seq<string>, p: Policy, out: Output, topic: string, lang: Language) {
    && AsksAbout(candidates, p, topic, lang) && (forall c :: !CarriesOut(candidates, p, out, c, lang))
    && out.observation.kind != Gate && out.observation.kind != Greeting
  }

  lemma DoneIsFolded(p: Policy, c: string, lang: Language)
    ensures Done(p, c, lang) <==> lang.fold(c) in Folds(p.reached + p.abandoned, lang.fold)
  {
    if Done(p, c, lang) {
      var d :| (d in p.reached || d in p.abandoned) && lang.fold(d) == lang.fold(c);
      assert d in p.reached + p.abandoned;
    }
    if lang.fold(c) in Folds(p.reached + p.abandoned, lang.fold) {
      var d :| d in p.reached + p.abandoned && lang.fold(d) == lang.fold(c);
    }
  }

  /** The first kept name. */
  lemma FirstWhere(names: seq<string>, keep: string -> bool, c: string)
    ensures FirstOf(Where(names, keep)) == Some(c)
            <==> exists i :: 0 <= i < |names| && names[i] == c && keep(c) && forall j :: 0 <= j < i ==> !keep(names[j])
  {
    var kept := Where(names, keep);
    if kept != [] {
      var i := FirstKept(names, keep);
      if k :| 0 <= k < |names| && names[k] == c && keep(c) && forall j :: 0 <= j < k ==> !keep(names[j]) { assert k == i; }
    } else {
      var at := WhereAt(names, keep);
      assert at == [];
    }
  }

  lemma FirstKept(names: seq<string>, keep: string -> bool) returns (i: nat)
    requires Where(names, keep) != []
    ensures i < |names| && names[i] == Where(names, keep)[0] && keep(names[i]) && forall j :: 0 <= j < i ==> !keep(names[j])
  {
    var at := WhereAt(names, keep);
    i := at[0];
    assert i in at && forall k :: k in at ==> i <= k;
  }

  lemma TargetIsAsked(candidates: seq<string>, p: Policy, c: string, lang: Language)
    ensures TargetOf(candidates, p, lang) == Some(c) <==> AsksAbout(candidates, p, c, lang)
  {
    var keep := c => lang.fold(c) !in Folds(p.reached + p.abandoned, lang.fold);
    FirstWhere(candidates, keep, c);
    forall d ensures keep(d) <==> !Done(p, d, lang) { DoneIsFolded(p, d, lang); }
  }

  lemma {:induction false} WhereTwice(names: seq<string>, keep: string -> bool, also: string -> bool)
    ensures Where(Where(names, keep), also) == Where(names, n => keep(n) && also(n))
  {
    if names == [] {
    } else {
      var init, last := names[..|names| - 1], names[|names| - 1];
      WhereTwice(init, keep, also);
      var kept := Where(init, keep);
      if keep(last) { assert (kept + [last])[..|kept|] == kept; } else { assert kept + [] == kept; }
    }
  }

  lemma HandoffIsNext(candidates: seq<string>, p: Policy, c: string, lang: Language)
    ensures FirstOf(Where(Remaining(candidates, p, lang), n => lang.isHandoff(n))) == Some(c) <==> NextHandoff(candidates, p, c, lang)
  {
    var keep := c => lang.fold(c) !in Folds(p.reached + p.abandoned, lang.fold);
    var also := n => lang.isHandoff(n);
    WhereTwice(candidates, keep, also);
    FirstWhere(candidates, n => keep(n) && also(n), c);
    forall d ensures keep(d) <==> !Done(p, d, lang) { DoneIsFolded(p, d, lang); }
  }

  lemma {:induction false} MatchMeaning(candidates: seq<string>, name: string, c: string, lang: Language)
    requires DistinctUpToCase(candidates, lang)
    ensures Match(candidates, name, lang) == Some(c) <==> c in candidates && lang.fold(c) == lang.fold(name)
  {
    if c in candidates && lang.fold(c) == lang.fold(name) {
      var m := Match(candidates, name, lang);
      assert m.None? ==> lang.fold(c) in Folds(candidates, lang.fold);
      var i :| 0 <= i < |candidates| && candidates[i] == c;
      var j :| 0 <= j < |candidates| && candidates[j] == m.value;
      assert !(i < j) && !(j < i);
    }
  }

  lemma AttributionMeaning(candidates: seq<string>, p: Policy, out: Output, c: string, lang: Language)
    requires DistinctUpToCase(candidates, lang)
    ensures AttributedTopic(candidates, p, TargetOf(candidates, p, lang), out, lang) == Some(c) <==> Credits(candidates, p, out, c, lang)
  {
    TargetIsAsked(candidates, p, c, lang);
    HandoffIsNext(candidates, p, c, lang);
    if out.reachedCandidate.Some? {
      MatchMeaning(candidates, out.reachedCandidate.value, c, lang);
      var m := Match(candidates, out.reachedCandidate.value, lang);
      if m.Some? { assert Names(candidates, out, lang); }
      if Names(candidates, out, lang) {
        var d :| d in candidates && lang.fold(d) == lang.fold(out.reachedCandidate.value);
        MatchMeaning(candidates, out.reachedCandidate.value, d, lang);
      }
    }
  }

  /** The observation is the model's own, renamed after the topic it is credited to. */
  lemma SeenMeaning(candidates: seq<string>, p: Policy, out: Output, lang: Language)
    requires DistinctUpToCase(candidates, lang)
    ensures (forall c :: !Credits(candidates, p, out, c, lang)) ==> SeenBy(candidates, p, out, lang) == out.observation
    ensures forall c :: Credits(candidates, p, out, c, lang) ==>
                          SeenBy(candidates, p, out, lang) ==
                          out.observation.(key := Slug(c, lang), title := c, kind := if out.observation.kind == Handoff then Handoff else Intent)
  {
    var topic := AttributedTopic(candidates, p, TargetOf(candidates, p, lang), out, lang);
    forall c ensures topic == Some(c) <==> Credits(candidates, p, out, c, lang) { AttributionMeaning(candidates, p, out, c, lang); }
  }

  lemma CarriedOutMeaning(candidates: seq<string>, p: Policy, out: Output, c: string, lang: Language)
    requires DistinctUpToCase(candidates, lang)
    ensures var obs := SeenBy(candidates, p, out, lang);
            (if TopicKind(obs.kind) then Match(candidates, obs.title, lang) else None) == Some(c) <==> CarriesOut(candidates, p, out, c, lang)
  {
    var obs := SeenBy(candidates, p, out, lang);
    SeenMeaning(candidates, p, out, lang);
    MatchMeaning(candidates, obs.title, c, lang);
    if t :| Credits(candidates, p, out, t, lang) {
      MatchMeaning(candidates, t, c, lang);
      MatchIsExact(candidates, t, lang);
      AttributionMeaning(candidates, p, out, t, lang);
      AttributionMeaning(candidates, p, out, c, lang);
    }
  }

  /** What the model's answer makes of the policy. */
  ghost predicate TurnDone(candidates: seq<string>, p: Policy, out: Output, q: Policy, lang: Language) {
    && (forall t :: t in q.reached <==> t in p.reached || CarriesOut(candidates, p, out, t, lang))
    && (forall t :: StallsOn(q, t) == StallsOn(p, t) + if StallsOnTopic(candidates, p, out, t, lang) then 1 else 0)
    && (forall t :: t in q.abandoned <==> t in p.abandoned || (StallsOnTopic(candidates, p, out, t, lang) && StallsOn(q, t) >= 2))
    && q.rejections == p.rejections + (if out.observation.result == Some(Rejected) then 1 else 0)
    && q.handedOff == (p.handedOff || out.observation.kind == Handoff)
    && q.callerTurns == p.callerTurns + 1
  }

  lemma TurnMeaning(candidates: seq<string>, p: Policy, out: Output, lang: Language)
    requires DistinctUpToCase(candidates, lang)
    ensures TurnDone(candidates, p, out, Called(candidates, p, Some(out), lang), lang)
  {
    var obs, target := SeenBy(candidates, p, out, lang), TargetOf(candidates, p, lang);
    SeenMeaning(candidates, p, out, lang);
    forall c
      ensures (if TopicKind(obs.kind) then Match(candidates, obs.title, lang) else None) == Some(c) <==> CarriesOut(candidates, p, out, c, lang)
      ensures target == Some(c) <==> AsksAbout(candidates, p, c, lang)
    {
      CarriedOutMeaning(candidates, p, out, c, lang);
      TargetIsAsked(candidates, p, c, lang);
    }
    AbsorbedMeaning(candidates, p, out, obs, target, lang);
  }

  lemma AbsorbedMeaning(candidates: seq<string>, p: Policy, out: Output, obs: Observation, target: Option<string>, lang: Language)
    requires forall c :: (if TopicKind(obs.kind) then Match(candidates, obs.title, lang) else None) == Some(c)
                         <==> CarriesOut(candidates, p, out, c, lang)
    requires forall c :: target == Some(c) <==> AsksAbout(candidates, p, c, lang)
    requires obs.result == out.observation.result && (obs.kind == Handoff <==> out.observation.kind == Handoff)
    requires (forall c :: !CarriesOut(candidates, p, out, c, lang)) ==> obs.kind == out.observation.kind
    ensures TurnDone(candidates, p, out, Absorbed(candidates, Asked(p), target, obs, lang), lang)
  {
    if topic :| CarriesOut(candidates, p, out, topic, lang) {
      AbsorbedTopic(candidates, p, out, obs, target, topic, lang);
    } else {
      AbsorbedStall(candidates, p, out, obs, target, lang);
    }
  }

  lemma AbsorbedTopic(candidates: seq<string>, p: Policy, out: Output, obs: Observation, target: Option<string>, topic: string, lang: Language)
    requires forall c :: c == topic <==> CarriesOut(candidates, p, out, c, lang)
    requires TopicKind(obs.kind) && Match(candidates, obs.title, lang) == Some(topic)
    requires obs.result == out.observation.result && (obs.kind == Handoff <==> out.observation.kind == Handoff)
    ensures TurnDone(candidates, p, out, Absorbed(candidates, Asked(p), target, obs, lang), lang)
  {
    assert CarriesOut(candidates, p, out, topic, lang);
  }

  lemma AbsorbedStall(candidates: seq<string>, p: Policy, out: Output, obs: Observation, target: Option<string>, lang: Language)
    requires forall c :: !CarriesOut(candidates, p, out, c, lang)
    requires TopicKind(obs.kind) ==> Match(candidates, obs.title, lang).None?
    requires forall c :: target == Some(c) <==> AsksAbout(candidates, p, c, lang)
    requires obs.result == out.observation.result && obs.kind == out.observation.kind
    ensures TurnDone(candidates, p, out, Absorbed(candidates, Asked(p), target, obs, lang), lang)
  {
    forall t ensures StallsOnTopic(candidates, p, out, t, lang) <==> target == Some(t) && obs.kind != Gate && obs.kind != Greeting { }
  }

  // Whole calls

  /** The policy after the model answered `replies`, whatever they are. */
  function Played(candidates: seq<string>, replies: seq<Option<Output>>, lang: Language): Policy {
    if replies == [] then FRESH
    else Called(candidates, Played(candidates, replies[..|replies| - 1], lang), replies[|replies| - 1], lang)
  }

  /** The last of `replies` ends the call. */
  predicate Ends(candidates: seq<string>, replies: seq<Option<Output>>, budget: int, lang: Language)
    requires replies != []
  {
    Completes(candidates, Played(candidates, replies[..|replies| - 1], lang), budget, replies[|replies| - 1], lang)
  }

  /** None of `replies` ended the call. */
  predicate Ongoing(candidates: seq<string>, replies: seq<Option<Output>>, budget: int, lang: Language) {
    replies == []
    || (!Ends(candidates, replies, budget, lang) && Ongoing(candidates, replies[..|replies| - 1], budget, lang))
  }

  function StallSum(candidates: seq<string>, p: Policy): nat {
    if candidates == [] then 0
    else StallSum(candidates[..|candidates| - 1], p) + StallsOn(p, candidates[|candidates| - 1])
  }

  ghost predicate PolicyInv(candidates: seq<string>, p: Policy) {
    && (forall t :: t in p.reached ==> t in candidates)
    && (forall t :: t in p.abandoned ==> t in candidates)
    && (forall t :: t in p.stalls ==> t in candidates && p.stalls[t] <= MAX_STALLS_PER_TOPIC)
    && (forall t :: t in p.stalls && p.stalls[t] == MAX_STALLS_PER_TOPIC ==> t in p.abandoned)
  }

  lemma CalledInv(candidates: seq<string>, p: Policy, reply: Option<Output>, lang: Language)
    requires PolicyInv(candidates, p)
    ensures PolicyInv(candidates, Called(candidates, p, reply, lang))
  {
    var target := TargetOf(candidates, p, lang);
    if target.Some? { NotAbandoned(candidates, p, target.value, lang); }
    if reply.Some? { AbsorbedInv(candidates, Asked(p), target, SeenBy(candidates, p, reply.value, lang), lang); }
  }

  lemma AbsorbedInv(candidates: seq<string>, p: Policy, target: Option<string>, obs: Observation, lang: Language)
    requires PolicyInv(candidates, p) && (target.Some? ==> target.value in candidates && target.value !in p.abandoned)
    ensures PolicyInv(candidates, Absorbed(candidates, p, target, obs, lang))
  {
  }

  lemma NotAbandoned(candidates: seq<string>, p: Policy, target: string, lang: Language)
    requires target in Remaining(candidates, p, lang)
    ensures target in candidates && target !in p.abandoned
  {
    assert target in p.abandoned ==> target in p.reached + p.abandoned && lang.fold(target) in Folds(p.reached + p.abandoned, lang.fold);
  }

  lemma {:induction false} PlayedInv(candidates: seq<string>, replies: seq<Option<Output>>, lang: Language)
    ensures PolicyInv(candidates, Played(candidates, replies, lang))
    ensures Played(candidates, replies, lang).callerTurns == |replies|
  {
    if replies == [] {
    } else {
      PlayedInv(candidates, replies[..|replies| - 1], lang);
      CalledInv(candidates, Played(candidates, replies[..|replies| - 1], lang), replies[|replies| - 1], lang);
    }
  }

  lemma {:induction false} StallsAddUp(candidates: seq<string>, p: Policy)
    requires forall t :: t in p.stalls ==> p.stalls[t] <= MAX_STALLS_PER_TOPIC
    ensures StallSum(candidates, p) <= MAX_STALLS_PER_TOPIC * |candidates|
  {
    if candidates == [] {
    } else {
      StallsAddUp(candidates[..|candidates| - 1], p);
    }
  }

  /** Whatever the model answers, the call is over no later than model call max(1, budget - 1). */
  lemma CallEnds(candidates: seq<string>, replies: seq<Option<Output>>, budget: int, lang: Language)
    requires |replies| >= 1 && |replies| >= budget - 1
    ensures Ends(candidates, replies, budget, lang)
  {
    PlayedInv(candidates, replies, lang);
  }

  /** How many of the answers report a rejection. */
  function Rejections(replies: seq<Option<Output>>): nat {
    if replies == [] then 0
    else
      var last := replies[|replies| - 1];
      Rejections(replies[..|replies| - 1]) + if last.Some? && last.value.observation.result == Some(Rejected) then 1 else 0
  }

  predicate ReportsHandoff(replies: seq<Option<Output>>) {
    exists i :: 0 <= i < |replies| && replies[i].Some? && replies[i].value.observation.kind == Handoff
  }

  /** The agent is in the middle of an identity check: a gate that it has not let the caller pass. */
  ghost predicate AtOpenGate(candidates: seq<string>, out: Output, lang: Language) {
    && out.observation.kind == Gate && (out.observation.result == Some(Pending) || out.observation.result == Some(Rejected))
    && !Names(candidates, out, lang)
  }

  /** Why the call is over with the last of `replies`. */
  ghost predicate EndsBecause(candidates: seq<string>, replies: seq<Option<Output>>, budget: int, lang: Language)
    requires replies != []
  {
    var last := replies[|replies| - 1];
    || last.None? || last.value.callComplete || ReportsHandoff(replies) || Rejections(replies) >= 3 || |replies| >= budget - 1
    || (&& (forall c :: c in candidates ==> Done(Played(candidates, replies, lang), c, lang))
        && !AtOpenGate(candidates, last.value, lang))
  }

  lemma {:induction false} PlayedCounts(candidates: seq<string>, replies: seq<Option<Output>>, lang: Language)
    requires DistinctUpToCase(candidates, lang)
    ensures var p := Played(candidates, replies, lang);
            p.callerTurns == |replies| && p.rejections == Rejections(replies) && p.handedOff == ReportsHandoff(replies)
  {
    if replies == [] {
    } else {
      var init, last := replies[..|replies| - 1], replies[|replies| - 1];
      PlayedCounts(candidates, init, lang);
      assert replies == init + [last];
      if last.Some? { TurnMeaning(candidates, Played(candidates, init, lang), last.value, lang); }
      HandoffOn(init, last);
    }
  }

  lemma HandoffOn(init: seq<Option<Output>>, last: Option<Output>)
    ensures ReportsHandoff(init + [last]) <==> ReportsHandoff(init) || (last.Some? && last.value.observation.kind == Handoff)
  {
    var all := init + [last];
    if i :| 0 <= i < |init| && init[i].Some? && init[i].value.observation.kind == Handoff { assert all[i] == init[i]; }
    assert all[|init|] == last;
  }

  /** The call ends with its last answer if and only if one of these reasons holds, and else it goes on. */
  lemma CallEndsExactly(candidates: seq<string>, replies: seq<Option<Output>>, budget: int, lang: Language)
    requires replies != [] && DistinctUpToCase(candidates, lang)
    ensures Ends(candidates, replies, budget, lang) <==> EndsBecause(candidates, replies, budget, lang)
  {
    var init, last := replies[..|replies| - 1], replies[|replies| - 1];
    PlayedCounts(candidates, replies, lang);
    if last.Some? { StopsExactly(candidates, Played(candidates, init, lang), budget, last.value, lang); }
  }

  lemma StopsExactly(candidates: seq<string>, p: Policy, budget: int, out: Output, lang: Language)
    requires DistinctUpToCase(candidates, lang)
    ensures var q := Called(candidates, p, Some(out), lang);
            ShouldStop(candidates, q, budget, SeenBy(candidates, p, out, lang), lang)
            <==> || q.handedOff || q.rejections >= 3 || q.callerTurns >= budget - 1
                 || ((forall c :: c in candidates ==> Done(q, c, lang)) && !AtOpenGate(candidates, out, lang))
  {
    var q := Called(candidates, p, Some(out), lang);
    NothingRemains(candidates, q, lang);
    GateAsSeen(candidates, p, out, lang);
  }

  lemma NothingRemains(candidates: seq<string>, p: Policy, lang: Language)
    ensures Remaining(candidates, p, lang) == [] <==> forall c :: c in candidates ==> Done(p, c, lang)
  {
    var remaining := Remaining(candidates, p, lang);
    forall c ensures Done(p, c, lang) <==> lang.fold(c) in Folds(p.reached + p.abandoned, lang.fold) { DoneIsFolded(p, c, lang); }
    if remaining != [] { assert remaining[0] in remaining; }
  }

  lemma GateAsSeen(candidates: seq<string>, p: Policy, out: Output, lang: Language)
    requires DistinctUpToCase(candidates, lang)
    ensures var obs := SeenBy(candidates, p, out, lang);
            obs.kind == Gate && (obs.result == Some(Pending) || obs.result == Some(Rejected)) <==> AtOpenGate(candidates, out, lang)
  {
    SeenMeaning(candidates, p, out, lang);
    if Names(candidates, out, lang) {
      var c :| c in candidates && lang.fold(c) == lang.fold(out.reachedCandidate.value);
      assert Credits(candidates, p, out, c, lang);
    }
  }

  /** At most `MAX_GATE_REJECTIONS` rejections are heard in a call that is not yet over, or ends with this reply. */
  lemma RejectionsAreBounded(candidates: seq<string>, replies: seq<Option<Output>>, budget: int, lang: Language)
    requires replies != [] && Ongoing(candidates, replies[..|replies| - 1], budget, lang)
    ensures Played(candidates, replies, lang).rejections <= MAX_GATE_REJECTIONS
  {
    var init := replies[..|replies| - 1];
    OneRejectionAtMost(candidates, Played(candidates, init, lang), replies[|replies| - 1], lang);
    if init != [] {
      OpenMeansFewRejections(candidates, Played(candidates, init[..|init| - 1], lang), budget, init[|init| - 1], lang);
    }
  }

  lemma OneRejectionAtMost(candidates: seq<string>, p: Policy, reply: Option<Output>, lang: Language)
    ensures Called(candidates, p, reply, lang).rejections <= p.rejections + 1
  {
    if reply.Some? {
      RejectionsHeard(candidates, Asked(p), TargetOf(candidates, p, lang), SeenBy(candidates, p, reply.value, lang), lang);
    }
  }

  lemma RejectionsHeard(candidates: seq<string>, p: Policy, target: Option<string>, obs: Observation, lang: Language)
    ensures Absorbed(candidates, p, target, obs, lang).rejections == p.rejections + if obs.result == Some(Rejected) then 1 else 0
  {
  }

  lemma OpenMeansFewRejections(candidates: seq<string>, p: Policy, budget: int, reply: Option<Output>, lang: Language)
    requires !Completes(candidates, p, budget, reply, lang)
    ensures Called(candidates, p, reply, lang).rejections < MAX_GATE_REJECTIONS
  {
  }

  /** The reply carried nothing out and counts against the topic asked about. */
  predicate StallsOut(candidates: seq<string>, p: Policy, reply: Option<Output>, lang: Language) {
    reply.Some?
    && var obs := SeenBy(candidates, p, reply.value, lang);
    && !(TopicKind(obs.kind) && Match(candidates, obs.title, lang).Some?)
    && Stalled(TargetOf(candidates, p, lang), obs)
  }

  function StalledTurns(candidates: seq<string>, replies: seq<Option<Output>>, lang: Language): nat {
    if replies == [] then 0
    else
      var init := replies[..|replies| - 1];
      StalledTurns(candidates, init, lang)
      + if StallsOut(candidates, Played(candidates, init, lang), replies[|replies| - 1], lang) then 1 else 0
  }

  lemma {:induction false} StallSumMore(candidates: seq<string>, p: Policy, q: Policy, topic: string, lang: Language)
    requires DistinctUpToCase(candidates, lang) && q.stalls == p.stalls[topic := StallsOn(p, topic) + 1]
    ensures StallSum(candidates, q) == StallSum(candidates, p) + if topic in candidates then 1 else 0
  {
    if candidates == [] {
    } else {
      var init, last := candidates[..|candidates| - 1], candidates[|candidates| - 1];
      StallSumMore(init, p, q, topic, lang);
      assert candidates == init + [last];
      assert forall i :: 0 <= i < |init| ==> init[i] != last;
    }
  }

  lemma {:induction false} StallSumSame(candidates: seq<string>, p: Policy, q: Policy)
    requires q.stalls == p.stalls
    ensures StallSum(candidates, q) == StallSum(candidates, p)
  {
    if candidates == [] {
    } else {
      StallSumSame(candidates[..|candidates| - 1], p, q);
    }
  }

  lemma AbsorbedStalls(candidates: seq<string>, p: Policy, target: Option<string>, obs: Observation, lang: Language)
    ensures Absorbed(candidates, p, target, obs, lang).stalls ==
            if !(TopicKind(obs.kind) && Match(candidates, obs.title, lang).Some?) && Stalled(target, obs)
            then p.stalls[target.value := StallsOn(p, target.value) + 1] else p.stalls
  {
  }

  lemma CalledStalls(candidates: seq<string>, p: Policy, reply: Option<Output>, lang: Language)
    requires DistinctUpToCase(candidates, lang)
    ensures StallSum(candidates, Called(candidates, p, reply, lang)) ==
            StallSum(candidates, p) + if StallsOut(candidates, p, reply, lang) then 1 else 0
  {
    var q := Called(candidates, p, reply, lang);
    if reply.Some? { AbsorbedStalls(candidates, Asked(p), TargetOf(candidates, p, lang), SeenBy(candidates, p, reply.value, lang), lang); }
    if StallsOut(candidates, p, reply, lang) {
      var target := TargetOf(candidates, p, lang).value;
      StallSumMore(candidates, p, q, target, lang);
    } else {
      StallSumSame(candidates, p, q);
    }
  }

  lemma {:induction false} StalledTurnsAreCounted(candidates: seq<string>, replies: seq<Option<Output>>, lang: Language)
    requires DistinctUpToCase(candidates, lang)
    ensures StalledTurns(candidates, replies, lang) == StallSum(candidates, Played(candidates, replies, lang))
  {
    if replies == [] {
      NoStallsYet(candidates);
    } else {
      var init := replies[..|replies| - 1];
      StalledTurnsAreCounted(candidates, init, lang);
      CalledStalls(candidates, Played(candidates, init, lang), replies[|replies| - 1], lang);
    }
  }

  lemma {:induction false} NoStallsYet(candidates: seq<string>)
    ensures StallSum(candidates, FRESH) == 0
  {
    if candidates == [] {
    } else {
      NoStallsYet(candidates[..|candidates| - 1]);
    }
  }

  /** Stalls are bounded for the whole call, and every candidate is either reached or reported as unexplored. */
  lemma StallsAndCoverage(candidates: seq<string>, replies: seq<Option<Output>>, lang: Language)
    requires DistinctUpToCase(candidates, lang)
    ensures var p := Played(candidates, replies, lang);
            && StalledTurns(candidates, replies, lang) <= MAX_STALLS_PER_TOPIC * |candidates|
            && forall c :: c in candidates ==> c in p.reached || c in Remaining(candidates, p, lang) + p.abandoned
  {
    var p := Played(candidates, replies, lang);
    PlayedInv(candidates, replies, lang);
    StallsAddUp(candidates, p);
    StalledTurnsAreCounted(candidates, replies, lang);
    forall c | c in candidates ensures c in p.reached || c in Remaining(candidates, p, lang) + p.abandoned {
      CoveredCandidate(candidates, p, c, lang);
    }
  }

  lemma CoveredCandidate(candidates: seq<string>, p: Policy, c: string, lang: Language)
    requires DistinctUpToCase(candidates, lang) && PolicyInv(candidates, p) && c in candidates
    ensures c in p.reached || c in Remaining(candidates, p, lang) || c in p.abandoned
  {
    if c !in Remaining(candidates, p, lang) {
      var d :| d in p.reached + p.abandoned && lang.fold(d) == lang.fold(c);
      var i :| 0 <= i < |candidates| && candidates[i] == c;
      var j :| 0 <= j < |candidates| && candidates[j] == d;
      assert !(i < j) && !(j < i);
    }
  }

  // The caller itself

  /** What the caller says next: one of its three fixed lines, or the model's own. */
  datatype Utterance = OpeningLine | NudgeLine | ClosingLine | Said(text: string)

  datatype Line = AgentLine(text: string) | CallerLine(text: string)

  /** The agent has the last word, so the model is asked. */
  predicate AgentSpokeLast(transcript: seq<Line>) {
    transcript != [] && transcript[|transcript| - 1].AgentLine?
  }

  class ExplorerCaller {
    const candidates: seq<string>
    const turnBudget: int
    const lang: Language
    const graph: FlowGraph
    var reached: seq<string>
    var abandoned: seq<string>
    var stalls: map<string, nat>
    var target: Option<string>
    var rejections: nat
    var callerTurns: nat
    var handedOff: bool
    var failed: bool

    function Value(): Policy
      reads this
    {
      Policy(reached, abandoned, stalls, rejections, callerTurns, handedOff)
    }

    constructor (names: seq<string>, lang: Language, graph: FlowGraph, turnBudget: int := DEFAULT_TURN_BUDGET)
      ensures Value() == FRESH && candidates == OrderedCandidates(names, lang)
      ensures this.turnBudget == turnBudget && this.lang == lang && this.graph == graph
    {
      var ordered := OrderCandidates(names, lang);
      candidates, this.turnBudget, this.lang, this.graph := ordered, turnBudget, lang, graph;
      reached, abandoned, stalls := [], [], map[];
      target, rejections, callerTurns, handedOff, failed := None, 0, 0, false, false;
    }

    /** What a turn of the model's does: to the policy, to the map, and to what is said. */
    ghost predicate ModelTurn(p: Policy, g: Graph, turn: int, reply: Option<Output>, utterance: Utterance, complete: bool)
      requires Indexed(g) && Located(g)
      reads this, graph
    {
      && Value() == Called(candidates, p, reply, lang)
      && complete == Completes(candidates, p, turnBudget, reply, lang)
      && graph.Value() == (if reply.Some? then Observed(g, turn, SeenBy(candidates, p, reply.value, lang)) else g)
      && utterance == if reply.Some? && (reply.value.callComplete || !complete) then Said(reply.value.utterance) else ClosingLine
    }

    /** `reply` is what the model answers if it is asked. */
    method NextTurn(transcript: seq<Line>, reply: Option<Output>) returns (utterance: Utterance, complete: bool)
      requires Indexed(graph.Value()) && Located(graph.Value())
      modifies this, graph
      ensures Indexed(graph.Value()) && Located(graph.Value())
      ensures failed <==> old(failed) || (AgentSpokeLast(transcript) && reply.None?)
      ensures AgentSpokeLast(transcript) ==>
                ModelTurn(old(Value()), old(graph.Value()), |transcript| - 1, reply, utterance, complete)
      ensures !AgentSpokeLast(transcript) ==>
                && Value() == old(Value()) && graph.Value() == old(graph.Value()) && !complete
                && utterance == if transcript == [] then OpeningLine else NudgeLine
    {
      if AgentSpokeLast(transcript) {
        utterance, complete := AskModel(|transcript| - 1, reply);
      } else if transcript == [] {
        return OpeningLine, false;
      } else {
        return NudgeLine, false;
      }
    }

    /** The model's turn, which counts against the budget. */
    method AskModel(turn: int, reply: Option<Output>) returns (utterance: Utterance, complete: bool)
      requires Indexed(graph.Value()) && Located(graph.Value())
      modifies this, graph
      ensures Indexed(graph.Value()) && Located(graph.Value())
      ensures failed <==> old(failed) || reply.None?
      ensures ModelTurn(old(Value()), old(graph.Value()), turn, reply, utterance, complete)
    {
      ghost var before := Value();
      callerTurns := callerTurns + 1;
      target := FirstOf(Remaining(candidates, Value(), lang));
      if reply.None? {
        failed := true;
        return ClosingLine, true;
      }
      var out := reply.value;
      var obs := TakeReply(turn, out, before);
      if out.callComplete {
        return Said(out.utterance), true;
      }
      if ShouldStop(candidates, Value(), turnBudget, obs, lang) {
        return ClosingLine, true;
      }
      return Said(out.utterance), false;
    }

    /** Puts the model's observation on the map, under the candidate's name, and draws the policy's conclusions. */
    method TakeReply(turn: int, out: Output, ghost before: Policy) returns (obs: Observation)
      requires Indexed(graph.Value()) && Located(graph.Value())
      requires Value() == Asked(before) && target == TargetOf(candidates, Asked(before), lang)
      modifies this, graph
      ensures Indexed(graph.Value()) && Located(graph.Value())
      ensures obs == SeenBy(candidates, before, out, lang)
      ensures Value() == Called(candidates, before, Some(out), lang)
      ensures graph.Value() == Observed(old(graph.Value()), turn, obs) && failed == old(failed)
    {
      AskedSeesTheSame(candidates, before, out, lang);
      obs := Canonical(AttributedTopic(candidates, Value(), target, out, lang), out.observation, lang);
      var changed := graph.Observe(turn, obs);
      Absorb(obs);
    }

    method Absorb(obs: Observation)
      modifies this
      ensures Value() == Absorbed(candidates, old(Value()), old(target), obs, lang)
      ensures target == old(target) && failed == old(failed)
    {
      if obs.result == Some(Rejected) {
        rejections := rejections + 1;
      }
      if obs.kind == Handoff {
        handedOff := true;
      }
      var topic := if TopicKind(obs.kind) then Match(candidates, obs.title, lang) else None;
      if topic.Some? {
        if topic.value !in reached {
          reached := reached + [topic.value];
        }
        return;
      }
      if target.Some? && obs.kind != Gate && obs.kind != Greeting {
        var count := (if target.value in stalls then stalls[target.value] else 0) + 1;
        stalls := stalls[target.value := count];
        if count >= MAX_STALLS_PER_TOPIC && target.value !in abandoned {
          abandoned := abandoned + [target.value];
        }
      }
    }
  }

  /** Counting the turn does not change what is asked about or seen. */
  lemma AskedSeesTheSame(candidates: seq<string>, p: Policy, out: Output, lang: Language)
    ensures TargetOf(candidates, Asked(p), lang) == TargetOf(candidates, p, lang)
    ensures SeenBy(candidates, Asked(p), out, lang) == SeenBy(candidates, p, out, lang)
  {
  }
}
