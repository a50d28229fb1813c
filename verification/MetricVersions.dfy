/** Editing metrics: a version number pins what was scored, and only backtested specs become active. */
module MetricVersions {
  import opened RunTypes

  type MetricId = nat

  datatype MetricStatus = Draft | Active | Archived

  datatype Metric = Metric(
    name: string,
    description: string,
    spec: string,
    samplingPct: int,
    status: MetricStatus,
    version: nat,
    builtin: bool)

  /** A PATCH body; an absent field is left alone. */
  datatype Patch = Patch(
    name: Option<string>,
    description: Option<string>,
    samplingPct: Option<int>,
    status: Option<MetricStatus>,
    spec: Option<string>)

  datatype Reply = Updated(metric: Metric) | Deleted | NotFound | BuiltinReadOnly | BacktestRequired | HasResults

  /** A result row, with the metric as it was when it was read to score with. */
  datatype Scored = Scored(id: MetricId, metric: Metric)

  /**
   A backtest that has read its spec and has not recorded itself yet is in `pending`; a call that has
   resolved a metric and not recorded its result yet is in `scoring`.
   */
  datatype Store = Store(
    metrics: map<MetricId, Metric>,
    backtests: set<(MetricId, int)>,
    pending: set<(MetricId, int)>,
    scoring: set<Scored>,
    results: set<Scored>)

  function Or<T>(a: Option<T>, b: T): T {
    if a.Some? then a.value else b
  }

  predicate Empty(p: Patch) {
    p == Patch(None, None, None, None, None)
  }

  function Edited(m: Metric, p: Patch): Metric {
    if Empty(p) then m
    else
      Metric(Or(p.name, m.name), Or(p.description, m.description), Or(p.spec, m.spec), Or(p.samplingPct, m.samplingPct),
             Or(p.status, m.status), if m.status == Active then m.version + 1 else m.version, m.builtin)
  }

  /** `hash` fingerprints a spec. */
  function ReplyTo(s: Store, id: MetricId, p: Patch, hash: string -> int): Reply {
    if id !in s.metrics then NotFound
    else if s.metrics[id].builtin then BuiltinReadOnly
    else if p.status == Some(Active) && (id, hash(Or(p.spec, s.metrics[id].spec))) !in s.backtests then BacktestRequired
    else Updated(Edited(s.metrics[id], p))
  }

  predicate HasBeenScored(s: Store, id: MetricId) {
    exists r :: r in s.results && r.id == id
  }

  /** Only a metric that nothing was scored with can be deleted. */
  function ReplyToDelete(s: Store, id: MetricId): Reply {
    if id !in s.metrics then NotFound
    else if s.metrics[id].builtin then BuiltinReadOnly
    else if HasBeenScored(s, id) then HasResults
    else Deleted
  }

  function AfterReply(s: Store, id: MetricId, r: Reply): Store {
    match r
    case Updated(m) => s.(metrics := s.metrics[id := m])
    case Deleted => s.(metrics := s.metrics - {id})
    case _ => s
  }

  ghost predicate Holds<T>(field: T, given: Option<T>, before: T) {
    match given
    case Some(value) => field == value
    case None => field == before
  }

  /** The fields that the body gives are as it gives them, and the others as they were. */
  ghost predicate Patched(m: Metric, p: Patch, m': Metric) {
    && Holds(m'.name, p.name, m.name) && Holds(m'.description, p.description, m.description)
    && Holds(m'.spec, p.spec, m.spec) && Holds(m'.samplingPct, p.samplingPct, m.samplingPct)
    && Holds(m'.status, p.status, m.status) && m'.builtin == m.builtin
    && m'.version == if m.status == Active && p != Patch(None, None, None, None, None) then m.version + 1 else m.version
  }

  /** The body asks for a metric to become, or stay, active with a spec that no backtest has run on. */
  ghost predicate LacksBacktest(s: Store, id: MetricId, p: Patch, hash: string -> int)
    requires id in s.metrics
  {
    p.status == Some(Active) && forall spec :: Holds(spec, p.spec, s.metrics[id].spec) ==> (id, hash(spec)) !in s.backtests
  }

  /** What a PATCH is answered with, and what it does to the row. */
  ghost predicate PatchAnswer(s: Store, id: MetricId, p: Patch, hash: string -> int, reply: Reply) {
    if id !in s.metrics then reply == NotFound
    else if s.metrics[id].builtin then reply == BuiltinReadOnly
    else if LacksBacktest(s, id, p, hash) then reply == BacktestRequired
    else reply.Updated? && Patched(s.metrics[id], p, reply.metric)
  }

  class MetricTable {
    var metrics: map<MetricId, Metric>
    var backtests: set<(MetricId, int)>
    var pending: set<(MetricId, int)>
    var scoring: set<Scored>
    var results: set<Scored>

    function Value(): Store
      reads this
    {
      Store(metrics, backtests, pending, scoring, results)
    }

    constructor (metrics: map<MetricId, Metric>)
      ensures Value() == Store(metrics, {}, {}, {}, {})
    {
      this.metrics, backtests, pending, scoring, results := metrics, {}, {}, {}, {};
    }

    method UpdateMetric(id: MetricId, body: Patch, hash: string -> int) returns (reply: Reply)
      modifies this`metrics
      ensures reply == ReplyTo(old(Value()), id, body, hash) && PatchAnswer(old(Value()), id, body, hash, reply)
      ensures metrics == if reply.Updated? then old(metrics)[id := reply.metric] else old(metrics)
      ensures Value() == AfterReply(old(Value()), id, reply)
    {
      PatchIsAnswered(Value(), id, body, hash);
      if id !in metrics {
        return NotFound;
      }
      var existing := metrics[id];
      if existing.builtin {
        return BuiltinReadOnly;
      }
      if body.status == Some(Active) {
        var effectiveSpec := if body.spec.Some? then body.spec.value else existing.spec;
        if (id, hash(effectiveSpec)) !in backtests {
          return BacktestRequired;
        }
      }
      var row := existing;
      var updates := 0;
      if body.name.Some? {
        row, updates := row.(name := body.name.value), updates + 1;
      }
      if body.description.Some? {
        row, updates := row.(description := body.description.value), updates + 1;
      }
      if body.samplingPct.Some? {
        row, updates := row.(samplingPct := body.samplingPct.value), updates + 1;
      }
      if body.status.Some? {
        row, updates := row.(status := body.status.value), updates + 1;
      }
      if body.spec.Some? {
        row, updates := row.(spec := body.spec.value), updates + 1;
      }
      if updates > 0 && existing.status == Active {
        row := row.(version := existing.version + 1);
      }
      if updates > 0 {
        metrics := metrics[id := row];
      }
      assert updates == 0 ==> metrics[id := row] == metrics;
      return Updated(row);
    }

    method DeleteMetric(id: MetricId) returns (reply: Reply)
      modifies this`metrics
      ensures reply == ReplyToDelete(old(Value()), id)
      ensures reply == NotFound <==> id !in old(metrics)
      ensures reply == BuiltinReadOnly <==> id in old(metrics) && old(metrics)[id].builtin
      ensures reply == HasResults <==> id in old(metrics) && !old(metrics)[id].builtin && exists r :: r in results && r.id == id
      ensures metrics == if reply == Deleted then old(metrics) - {id} else old(metrics)
      ensures Value() == AfterReply(old(Value()), id, reply)
    {
      if id !in metrics {
        return NotFound;
      }
      if metrics[id].builtin {
        return BuiltinReadOnly;
      }
      if exists r :: r in results && r.id == id {
        return HasResults;
      }
      metrics := metrics - {id};
      return Deleted;
    }
  }

  lemma PatchIsAnswered(s: Store, id: MetricId, p: Patch, hash: string -> int)
    ensures PatchAnswer(s, id, p, hash, ReplyTo(s, id, p, hash))
  {
    if id in s.metrics { assert Holds(Or(p.spec, s.metrics[id].spec), p.spec, s.metrics[id].spec); }
  }

  // Histories

  datatype Action =
    | Create(id: MetricId, metric: Metric)
    | Update(id: MetricId, body: Patch)
    | Delete(id: MetricId)
    | ReadForBacktest(id: MetricId)
    | RecordBacktest(id: MetricId, hash: int)
    | ResolveForScoring(id: MetricId)
    | RecordResult(result: Scored)

  ghost predicate Step(s: Store, a: Action, s': Store, hash: string -> int) {
    match a
    case Create(id, m) =>
      && id !in s.metrics && m.status == Draft && m.version == 1 && !m.builtin
      && s' == s.(metrics := s.metrics[id := m])
    case Update(id, body) =>
      s' == AfterReply(s, id, ReplyTo(s, id, body, hash))
    case Delete(id) =>
      s' == AfterReply(s, id, ReplyToDelete(s, id))
    case ReadForBacktest(id) =>
      id in s.metrics && s' == s.(pending := s.pending + {(id, hash(s.metrics[id].spec))})
    case RecordBacktest(id, h) =>
      (id, h) in s.pending && id in s.metrics && s' == s.(backtests := s.backtests + {(id, h)})
    case ResolveForScoring(id) =>
      IsActive(s, id) && s' == s.(scoring := s.scoring + {Scored(id, s.metrics[id])})
    case RecordResult(result) =>
      result in s.scoring && result.id in s.metrics && s' == s.(results := s.results + {result})
  }

  ghost predicate Next(s: Store, s': Store, hash: string -> int) {
    exists a :: Step(s, a, s', hash)
  }

  ghost predicate Moves(b: seq<Store>, i: nat, hash: string -> int)
    requires i + 1 < |b|
  {
    Next(b[i], b[i + 1], hash)
  }

  /** Any history that starts with some built-in metrics and no backtests and results. An id is never used again. */
  ghost predicate History(b: seq<Store>, hash: string -> int) {
    && |b| > 0 && b[0].backtests == {} && b[0].pending == {} && b[0].scoring == {} && b[0].results == {}
    && (forall id :: id in b[0].metrics ==> b[0].metrics[id].builtin)
    && (forall i :: 0 <= i < |b| - 1 ==> Moves(b, i, hash))
    && forall i, j, id {:trigger Knows(b, i, id), Knows(b, j, id)} ::
         0 <= i < j < |b| && Knows(b, i, id) && Knows(b, j, id) ==> id in b[j - 1].metrics
  }

  predicate Knows(b: seq<Store>, i: int, id: MetricId) {
    0 <= i < |b| && id in b[i].metrics
  }

  predicate IsActive(s: Store, id: MetricId) {
    id in s.metrics && s.metrics[id].status == Active
  }

  /** The step changes the metric while it is active. */
  predicate EditsActive(s: Store, s': Store, id: MetricId) {
    IsActive(s, id) && id in s'.metrics && s'.metrics[id] != s.metrics[id]
  }

  /** How many steps from `i` to `j` change the metric while it is active. */
  function ActiveEdits(b: seq<Store>, id: MetricId, i: nat, j: nat): nat
    requires i <= j < |b|
    decreases j
  {
    if i == j then 0 else ActiveEdits(b, id, i, j - 1) + if EditsActive(b[j - 1], b[j], id) then 1 else 0
  }

  lemma StepCountsVersion(s: Store, s': Store, hash: string -> int, id: MetricId)
    requires Next(s, s', hash) && id in s.metrics && id in s'.metrics
    ensures s'.metrics[id].version == s.metrics[id].version + if EditsActive(s, s', id) then 1 else 0
    ensures s.metrics[id].builtin ==> s'.metrics[id] == s.metrics[id]
  {
  }

  /** The version counts the edits made while active, and nothing else; a built-in metric never changes. */
  lemma {:induction false} VersionCountsEdits(b: seq<Store>, hash: string -> int, i: nat, j: nat, id: MetricId)
    requires History(b, hash) && i <= j < |b| && id in b[i].metrics && id in b[j].metrics
    ensures b[j].metrics[id].version == b[i].metrics[id].version + ActiveEdits(b, id, i, j)
    ensures IsActive(b[i], id) && ActiveEdits(b, id, i, j) == 0 ==> b[j].metrics[id] == b[i].metrics[id]
    ensures b[i].metrics[id].builtin ==> b[j].metrics[id] == b[i].metrics[id]
    decreases j
  {
    if i == j {
    } else {
      assert Knows(b, i, id) && Knows(b, j, id);
      VersionCountsEdits(b, hash, i, j - 1, id);
      assert Moves(b, j - 1, hash);
      StepCountsVersion(b[j - 1], b[j], hash, id);
    }
  }

  /** Whenever a metric is active at the same version, it is the same metric: spec, name, sampling and all. */
  lemma VersionPinsContent(b: seq<Store>, hash: string -> int, i: nat, j: nat, id: MetricId)
    requires History(b, hash) && i < |b| && j < |b|
    requires IsActive(b[i], id) && IsActive(b[j], id) && b[i].metrics[id].version == b[j].metrics[id].version
    ensures b[i].metrics[id] == b[j].metrics[id]
  {
    if i <= j { VersionCountsEdits(b, hash, i, j, id); } else { VersionCountsEdits(b, hash, j, i, id); }
  }

  /** Some moment up to `i` showed metric `id` with a spec of this hash. */
  ghost predicate OnceHad(b: seq<Store>, i: nat, id: MetricId, h: int, hash: string -> int) {
    exists k :: 0 <= k <= i && k < |b| && id in b[k].metrics && hash(b[k].metrics[id].spec) == h
  }

  lemma {:induction false} BacktestsAreReal(b: seq<Store>, hash: string -> int, i: nat, id: MetricId, h: int)
    requires History(b, hash) && i < |b|
    ensures (id, h) in b[i].backtests || (id, h) in b[i].pending ==> OnceHad(b, i, id, h, hash)
  {
    if i == 0 {
    } else if (id, h) in b[i].backtests || (id, h) in b[i].pending {
      BacktestsAreReal(b, hash, i - 1, id, h);
      assert Moves(b, i - 1, hash);
      if (id, h) !in b[i - 1].backtests && (id, h) !in b[i - 1].pending {
        assert id in b[i - 1].metrics && hash(b[i - 1].metrics[id].spec) == h;
      }
    }
  }

  /** A step that makes a metric active leaves it with a spec that a backtest really ran on. */
  lemma ActivationIsBacktested(b: seq<Store>, hash: string -> int, i: nat, id: MetricId)
    requires History(b, hash) && i + 1 < |b| && !IsActive(b[i], id) && IsActive(b[i + 1], id)
    ensures var h := hash(b[i + 1].metrics[id].spec);
            (id, h) in b[i].backtests && OnceHad(b, i, id, h, hash)
  {
    assert Moves(b, i, hash);
    BacktestsAreReal(b, hash, i, id, hash(b[i + 1].metrics[id].spec));
  }

  // Results

  /** Some moment up to `i` had metric `r.id` active with the content `r.metric`. */
  ghost predicate OnceActive(b: seq<Store>, i: nat, r: Scored) {
    exists k :: 0 <= k <= i && k < |b| && IsActive(b[k], r.id) && b[k].metrics[r.id] == r.metric
  }

  lemma OnceActiveLater(b: seq<Store>, i: nat, r: Scored)
    requires i > 0 && OnceActive(b, i - 1, r)
    ensures OnceActive(b, i, r)
  {
    var k :| 0 <= k <= i - 1 && k < |b| && IsActive(b[k], r.id) && b[k].metrics[r.id] == r.metric;
  }

  lemma {:induction false} ResultsAreReal(b: seq<Store>, hash: string -> int, i: nat, r: Scored)
    requires History(b, hash) && i < |b| && (r in b[i].scoring || r in b[i].results)
    ensures OnceActive(b, i, r)
  {
    assert Moves(b, i - 1, hash);
    ScoringStep(b[i - 1], b[i], hash, r);
    if r in b[i - 1].scoring || r in b[i - 1].results {
      ResultsAreReal(b, hash, i - 1, r);
      OnceActiveLater(b, i, r);
    }
  }

  lemma ScoringStep(s: Store, s': Store, hash: string -> int, r: Scored)
    requires Next(s, s', hash) && (r in s'.scoring || r in s'.results)
    ensures r in s.scoring || r in s.results || (IsActive(s, r.id) && s.metrics[r.id] == r.metric)
  {
  }

  /** Two results of one metric with the same version were scored on the same content, whenever they were recorded. */
  lemma ResultsPinContent(b: seq<Store>, hash: string -> int, i: nat, j: nat, q: Scored, r: Scored)
    requires History(b, hash) && i < |b| && j < |b| && q in b[i].results && r in b[j].results
    requires q.id == r.id && q.metric.version == r.metric.version
    ensures q.metric == r.metric
  {
    ResultsAreReal(b, hash, i, q);
    ResultsAreReal(b, hash, j, r);
    var k :| 0 <= k <= i && k < |b| && IsActive(b[k], q.id) && b[k].metrics[q.id] == q.metric;
    var m :| 0 <= m <= j && m < |b| && IsActive(b[m], r.id) && b[m].metrics[r.id] == r.metric;
    VersionPinsContent(b, hash, k, m, q.id);
  }

  lemma ScoredStep(s: Store, s': Store, hash: string -> int, id: MetricId)
    requires Next(s, s', hash) && (HasBeenScored(s, id) ==> id in s.metrics)
    ensures HasBeenScored(s, id) ==> HasBeenScored(s', id)
    ensures HasBeenScored(s', id) ==> id in s'.metrics
  {
  }

  lemma {:induction false} ScoredIsKept(b: seq<Store>, hash: string -> int, i: nat, id: MetricId)
    requires History(b, hash) && i < |b|
    ensures HasBeenScored(b[i], id) ==> id in b[i].metrics
  {
    if i == 0 {
    } else {
      ScoredIsKept(b, hash, i - 1, id);
      assert Moves(b, i - 1, hash);
      ScoredStep(b[i - 1], b[i], hash, id);
    }
  }

  /** A metric that something was scored with is in the table, then and ever after. */
  lemma {:induction false} ScoredMetricsStay(b: seq<Store>, hash: string -> int, i: nat, j: nat, id: MetricId)
    requires History(b, hash) && i <= j < |b| && HasBeenScored(b[i], id)
    ensures HasBeenScored(b[j], id) && id in b[j].metrics
    decreases j
  {
    ScoredIsKept(b, hash, j, id);
    if i == j {
    } else {
      ScoredMetricsStay(b, hash, i, j - 1, id);
      assert Moves(b, j - 1, hash);
      ScoredStep(b[j - 1], b[j], hash, id);
    }
  }

  /** A metric leaves the table only by a DELETE on one that is not built in and has no result. */
  lemma RemovedOnlyByDelete(b: seq<Store>, hash: string -> int, i: nat, id: MetricId)
    requires History(b, hash) && i + 1 < |b| && id in b[i].metrics && id !in b[i + 1].metrics
    ensures Step(b[i], Delete(id), b[i + 1], hash) && !b[i].metrics[id].builtin && !HasBeenScored(b[i], id)
    ensures b[i + 1] == b[i].(metrics := b[i].metrics - {id})
  {
    assert Moves(b, i, hash);
  }

  /** Built-in metrics are never changed and never removed. */
  lemma {:induction false} BuiltinsStay(b: seq<Store>, hash: string -> int, i: nat, j: nat, id: MetricId)
    requires History(b, hash) && i <= j < |b| && id in b[i].metrics && b[i].metrics[id].builtin
    ensures id in b[j].metrics && b[j].metrics[id] == b[i].metrics[id]
    decreases j
  {
    if i == j {
    } else {
      BuiltinsStay(b, hash, i, j - 1, id);
      assert Moves(b, j - 1, hash);
    }
  }
}
