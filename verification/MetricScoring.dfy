/** Which metrics score a call, what each of them reports, and what the call's verdict makes of it. */
module MetricScoring {
  import opened RunTypes

  type ProjectId = nat
  type MetricId = nat

  datatype Kind = LlmJudge | Builtin | Python

  datatype Level = BuiltinLevel | ProjectLevel | AgentLevel

  datatype Row = Row(
    id: MetricId,
    project: Option<ProjectId>,
    agent: Option<AgentId>,
    name: string,
    kind: Kind,
    samplingPct: int,
    active: bool,
    version: nat,
    builtin: bool)

  // Resolution

  function SourceLevel(r: Row): Level {
    if r.builtin then BuiltinLevel else if r.agent.Some? then AgentLevel else ProjectLevel
  }

  function Rank(level: Level): nat {
    match level
    case BuiltinLevel => 0
    case ProjectLevel => 1
    case AgentLevel => 2
  }

  /** The primary key and the three partial unique indexes of the table. */
  ghost predicate UniqueIndexes(table: set<Row>) {
    forall a, b :: a in table && b in table && a != b ==>
                     && a.id != b.id
                     && (a.builtin && b.builtin ==> a.name != b.name)
                     && (a.agent.Some? && b.agent.Some? ==> (a.project, a.agent, a.name) != (b.project, b.agent, b.name))
                     && (!a.builtin && a.agent.None? && !b.builtin && b.agent.None? ==> (a.project, a.name) != (b.project, b.name))
  }

  predicate Visible(r: Row, project: ProjectId, agent: AgentId) {
    r.active && (r.builtin || (r.project == Some(project) && (r.agent == None || r.agent == Some(agent))))
  }

  /** `rows` is the answer of the visibility query on `table`, in any order. */
  ghost predicate Query(rows: seq<Row>, table: set<Row>, project: ProjectId, agent: AgentId) {
    && Distinct(rows)
    && forall r :: r in rows <==> r in table && Visible(r, project, agent)
  }

  /** The agent's own row beats the project's, and either beats a built-in one. */
  ghost predicate Overrides(r: Row, q: Row) {
    !r.builtin && (q.builtin || (r.agent.Some? && q.agent.None?))
  }

  /** `r` beats every other visible row of its name. */
  ghost predicate Prevails(r: Row, rows: seq<Row>) {
    r in rows && forall q :: q in rows && q.name == r.name && q != r ==> Overrides(r, q)
  }

  /** The prevailing rows, one per name. */
  ghost predicate Resolves(resolved: seq<Row>, rows: seq<Row>) {
    && (forall i, j :: 0 <= i < j < |resolved| ==> resolved[i].name != resolved[j].name && resolved[i].id != resolved[j].id)
    && (forall r :: r in resolved <==> Prevails(r, rows))
    && (forall q :: q in rows ==> exists r :: r in resolved && r.name == q.name)
  }

  lemma LevelsDiffer(rows: seq<Row>, table: set<Row>, project: ProjectId, agent: AgentId, a: Row, b: Row)
    requires UniqueIndexes(table) && Query(rows, table, project, agent)
    requires a in rows && b in rows && a != b && a.name == b.name
    ensures Rank(SourceLevel(a)) > Rank(SourceLevel(b)) <==> Overrides(a, b)
    ensures Rank(SourceLevel(a)) < Rank(SourceLevel(b)) <==> Overrides(b, a)
    ensures (Overrides(a, b) <==> !Overrides(b, a)) && a.id != b.id
  {
  }

  /** The best row of name `name` among the first ones seen. */
  ghost predicate BestSoFar(r: Row, seen: seq<Row>, name: string) {
    r in seen && r.name == name && forall q :: q in seen && q.name == name ==> Rank(SourceLevel(q)) <= Rank(SourceLevel(r))
  }

  /** The loop of the resolver over a dictionary by name, which keeps the order of first insertion. */
  method ResolveMetrics(rows: seq<Row>, ghost table: set<Row>, ghost project: ProjectId, ghost agent: AgentId)
    returns (resolved: seq<Row>)
    requires UniqueIndexes(table) && Query(rows, table, project, agent)
    ensures Resolves(resolved, rows) && ScoresFrom(resolved, table, project, agent)
  {
    var names: seq<string> := [];
    var byName: map<string, Row> := map[];
    for i := 0 to |rows|
      invariant forall n :: n in byName <==> n in names
      invariant Distinct(names)
      invariant forall n :: n in byName ==> BestSoFar(byName[n], rows[..i], n)
      invariant forall q :: q in rows[..i] ==> q.name in byName
    {
      var row := rows[i];
      assert rows[..i + 1] == rows[..i] + [row];
      if row.name !in byName {
        names := names + [row.name];
        byName := byName[row.name := row];
      } else if Rank(SourceLevel(row)) > Rank(SourceLevel(byName[row.name])) {
        byName := byName[row.name := row];
      }
    }
    assert rows[..|rows|] == rows;
    resolved := seq(|names|, i requires 0 <= i < |names| && names[i] in byName => byName[names[i]]);
    ResolvedRows(rows, table, project, agent, names, byName, resolved);
    ResolvedFromTable(rows, table, project, agent, resolved);
  }

  /** The table's active rows that are built in, or the project's, or the project's for this agent. */
  ghost predicate Applies(r: Row, project: ProjectId, agent: AgentId) {
    r.active && (r.builtin || (r.project == Some(project) && (r.agent.None? || r.agent.value == agent)))
  }

  /** Every name that applies is scored once, by the row of the table that overrides all others that apply. */
  ghost predicate ScoresFrom(resolved: seq<Row>, table: set<Row>, project: ProjectId, agent: AgentId) {
    && (forall r :: r in resolved ==> r in table && Applies(r, project, agent))
    && (forall q :: q in table && Applies(q, project, agent) ==> exists r :: r in resolved && r.name == q.name)
    && (forall r, q :: r in resolved && q in table && Applies(q, project, agent) && q.name == r.name && q != r ==> Overrides(r, q))
  }

  lemma ResolvedFromTable(rows: seq<Row>, table: set<Row>, project: ProjectId, agent: AgentId, resolved: seq<Row>)
    requires Query(rows, table, project, agent) && Resolves(resolved, rows)
    ensures ScoresFrom(resolved, table, project, agent)
  {
    forall r | r in table ensures Applies(r, project, agent) <==> r in rows { }
    assert forall r :: r in resolved ==> Prevails(r, rows);
  }

  lemma ResolvedRows(rows: seq<Row>, table: set<Row>, project: ProjectId, agent: AgentId,
                     names: seq<string>, byName: map<string, Row>, resolved: seq<Row>)
    requires UniqueIndexes(table) && Query(rows, table, project, agent)
    requires forall n :: n in byName <==> n in names
    requires Distinct(names)
    requires forall n :: n in byName ==> BestSoFar(byName[n], rows, n)
    requires forall q :: q in rows ==> q.name in byName
    requires |resolved| == |names| && forall i :: 0 <= i < |names| ==> names[i] in byName && resolved[i] == byName[names[i]]
    ensures Resolves(resolved, rows)
  {
    forall i, j | 0 <= i < j < |resolved| ensures resolved[i].name != resolved[j].name && resolved[i].id != resolved[j].id {
      assert BestSoFar(resolved[i], rows, names[i]) && BestSoFar(resolved[j], rows, names[j]);
    }
    forall q | q in rows ensures exists r :: r in resolved && r.name == q.name {
      var i :| 0 <= i < |names| && names[i] == q.name;
      assert resolved[i] in resolved && BestSoFar(resolved[i], rows, q.name);
    }
    forall r ensures r in resolved <==> Prevails(r, rows) { BestPrevails(rows, table, project, agent, names, byName, resolved, r); }
  }

  lemma BestPrevails(rows: seq<Row>, table: set<Row>, project: ProjectId, agent: AgentId,
                     names: seq<string>, byName: map<string, Row>, resolved: seq<Row>, r: Row)
    requires UniqueIndexes(table) && Query(rows, table, project, agent)
    requires forall n :: n in byName <==> n in names
    requires forall n :: n in byName ==> BestSoFar(byName[n], rows, n)
    requires forall q :: q in rows ==> q.name in byName
    requires |resolved| == |names| && forall i :: 0 <= i < |names| ==> names[i] in byName && resolved[i] == byName[names[i]]
    ensures r in resolved <==> Prevails(r, rows)
  {
    if r in resolved {
      var i :| 0 <= i < |resolved| && resolved[i] == r;
      assert BestSoFar(r, rows, names[i]);
      forall q | q in rows && q.name == r.name && q != r ensures Overrides(r, q) {
        LevelsDiffer(rows, table, project, agent, q, r);
      }
    }
    if Prevails(r, rows) {
      var i :| 0 <= i < |names| && names[i] == r.name;
      var best := byName[r.name];
      assert BestSoFar(best, rows, r.name);
      if best != r { LevelsDiffer(rows, table, project, agent, best, r); }
      assert resolved[i] == r;
    }
  }

  /** The order in which the rows come back does not matter. */
  lemma ResolutionIgnoresOrder(rowsA: seq<Row>, rowsB: seq<Row>, a: seq<Row>, b: seq<Row>)
    requires forall r :: r in rowsA <==> r in rowsB
    requires Resolves(a, rowsA) && Resolves(b, rowsB)
    ensures multiset(a) == multiset(b)
  {
    assert forall r :: Prevails(r, rowsA) <==> Prevails(r, rowsB);
    forall r ensures multiset(a)[r] == multiset(b)[r] {
      OnceEach(a, r);
      OnceEach(b, r);
    }
  }

  lemma {:induction false} OnceEach(s: seq<Row>, r: Row)
    requires forall i, j :: 0 <= i < j < |s| ==> s[i].id != s[j].id
    ensures multiset(s)[r] == if r in s then 1 else 0
  {
    if s == [] {
    } else {
      var init, last := s[..|s| - 1], s[|s| - 1];
      OnceEach(init, r);
      assert s == init + [last];
    }
  }

  // Outcomes

  datatype MetricStatus = MetricPassed | MetricFailed | MetricWarn | MetricError | NotSampled | NotComputable

  datatype JudgeVerdict = JudgeVerdict(metricId: MetricId, status: MetricStatus)

  datatype Outcome = Outcome(metricId: MetricId, version: nat, status: MetricStatus)

  function RowsOf(resolved: seq<Row>, keep: Row -> bool): (kept: seq<Row>)
    ensures forall r :: r in kept <==> r in resolved && keep(r)
  {
    if resolved == [] then []
    else
      var last := resolved[|resolved| - 1];
      RowsOf(resolved[..|resolved| - 1], keep) + if keep(last) then [last] else []
  }

  /** What a run's hash of its id and the metric's decides; 0 and 100 per cent leave nothing to decide. */
  predicate SampledIn(r: Row, bucket: MetricId -> int) {
    if r.samplingPct >= 100 then true else if r.samplingPct <= 0 then false else bucket(r.id) < r.samplingPct
  }

  datatype Compiled = Compiled(judged: seq<Row>, builtin: seq<Row>, python: seq<Row>, notSampled: seq<Row>)

  function SampledOfKind(resolved: seq<Row>, kind: Kind, bucket: MetricId -> int): (rows: seq<Row>)
    ensures forall r :: r in rows <==> r in resolved && r.kind == kind && SampledIn(r, bucket)
  {
    RowsOf(RowsOf(resolved, (r: Row) => r.kind == kind), (r: Row) => SampledIn(r, bucket))
  }

  function CompileMetrics(resolved: seq<Row>, bucket: MetricId -> int): Compiled {
    var judged := SampledOfKind(resolved, LlmJudge, bucket);
    var builtin := SampledOfKind(resolved, Builtin, bucket);
    var python := SampledOfKind(resolved, Python, bucket);
    var sampledIds := set r | r in judged + builtin + python :: r.id;
    Compiled(judged, builtin, python, RowsOf(resolved, (r: Row) => r.id !in sampledIds))
  }

  function NotSampledOutcomes(rows: seq<Row>): (outcomes: seq<Outcome>)
    ensures |outcomes| == |rows|
  {
    seq(|rows|, i requires 0 <= i < |rows| => Outcome(rows[i].id, rows[i].version, NotSampled))
  }

  /** What the judge says of metric `id`: its last verdict on it, or an error if there is none. */
  function JudgedStatus(verdicts: seq<JudgeVerdict>, id: MetricId): MetricStatus {
    if verdicts == [] then MetricError
    else if verdicts[|verdicts| - 1].metricId == id then verdicts[|verdicts| - 1].status
    else JudgedStatus(verdicts[..|verdicts| - 1], id)
  }

  lemma {:induction false} SilentJudgeIsError(verdicts: seq<JudgeVerdict>, id: MetricId)
    requires forall v :: v in verdicts ==> v.metricId != id
    ensures JudgedStatus(verdicts, id) == MetricError
  {
    if verdicts == [] {
    } else {
      SilentJudgeIsError(verdicts[..|verdicts| - 1], id);
    }
  }

  /** The last verdict on metric `id` says `status`; with no verdict on it the status is an error. */
  ghost predicate LastWord(verdicts: seq<JudgeVerdict>, id: MetricId, status: MetricStatus) {
    || (status == MetricError && forall v :: v in verdicts ==> v.metricId != id)
    || exists i :: && 0 <= i < |verdicts| && verdicts[i] == JudgeVerdict(id, status)
                   && forall j :: i < j < |verdicts| ==> verdicts[j].metricId != id
  }

  lemma {:induction false} JudgedIsLastWord(verdicts: seq<JudgeVerdict>, id: MetricId)
    ensures LastWord(verdicts, id, JudgedStatus(verdicts, id))
  {
    if verdicts == [] {
    } else {
      var init, last := verdicts[..|verdicts| - 1], verdicts[|verdicts| - 1];
      assert verdicts == init + [last];
      if last.metricId != id { JudgedIsLastWord(init, id); }
    }
  }

  ghost predicate DistinctIds(rows: seq<Row>) {
    forall i, j :: 0 <= i < j < |rows| ==> rows[i].id != rows[j].id
  }

  /** `outcomes` are those of `rows`, one each, in order, with the status `status` gives. */
  ghost predicate OneEach(outcomes: seq<Outcome>, rows: seq<Row>, status: Row -> MetricStatus) {
    |outcomes| == |rows| && forall i :: 0 <= i < |rows| ==> outcomes[i] == Outcome(rows[i].id, rows[i].version, status(rows[i]))
  }

  /** Verdicts on metrics nobody asked about are ignored, and of several on one metric the last counts. */
  method OutcomesFromJudgeVerdicts(verdicts: seq<JudgeVerdict>, rows: seq<Row>) returns (outcomes: seq<Outcome>)
    requires DistinctIds(rows)
    ensures OneEach(outcomes, rows, (r: Row) => JudgedStatus(verdicts, r.id))
    ensures forall i :: 0 <= i < |rows| ==> LastWord(verdicts, rows[i].id, outcomes[i].status)
  {
    var verdictsById: map<MetricId, JudgeVerdict> := map[];
    for i := 0 to |verdicts|
      invariant forall id :: JudgedStatus(verdicts[..i], id) == if id in verdictsById then verdictsById[id].status else MetricError
    {
      assert verdicts[..i + 1][..i] == verdicts[..i];
      verdictsById := verdictsById[verdicts[i].metricId := verdicts[i]];
    }
    assert verdicts[..|verdicts|] == verdicts;
    outcomes := [];
    for i := 0 to |rows|
      invariant |outcomes| == i
      invariant forall j :: 0 <= j < i ==> outcomes[j] == Outcome(rows[j].id, rows[j].version, JudgedStatus(verdicts, rows[j].id))
    {
      var row := rows[i];
      if row.id !in verdictsById {
        outcomes := outcomes + [Outcome(row.id, row.version, MetricError)];
        continue;
      }
      outcomes := outcomes + [Outcome(row.id, row.version, verdictsById[row.id].status)];
    }
    forall i | 0 <= i < |rows| ensures LastWord(verdicts, rows[i].id, outcomes[i].status) { JudgedIsLastWord(verdicts, rows[i].id); }
  }

  // Conservation

  lemma {:induction false} RowsOfDistinct(rows: seq<Row>, keep: Row -> bool)
    requires DistinctIds(rows)
    ensures DistinctIds(RowsOf(rows, keep))
  {
    if rows == [] {
    } else {
      var init, last := rows[..|rows| - 1], rows[|rows| - 1];
      RowsOfDistinct(init, keep);
      forall i | 0 <= i < |RowsOf(init, keep)| ensures RowsOf(init, keep)[i].id != last.id {
        assert RowsOf(init, keep)[i] in init;
      }
    }
  }

  lemma SampledDistinct(resolved: seq<Row>, kind: Kind, bucket: MetricId -> int)
    requires DistinctIds(resolved)
    ensures DistinctIds(SampledOfKind(resolved, kind, bucket))
  {
    RowsOfDistinct(resolved, (r: Row) => r.kind == kind);
    RowsOfDistinct(RowsOf(resolved, (r: Row) => r.kind == kind), (r: Row) => SampledIn(r, bucket));
  }

  /** With buckets from 0 to 99, a metric is sampled in so many cases out of a hundred. */
  ghost predicate SampledByBucket(r: Row, bucket: MetricId -> int) {
    0 <= bucket(r.id) < 100 ==> (SampledIn(r, bucket) <==> bucket(r.id) < r.samplingPct)
  }

  ghost predicate Grouped(resolved: seq<Row>, c: Compiled, bucket: MetricId -> int) {
    && (forall r :: r in c.judged <==> r in resolved && r.kind == LlmJudge && SampledIn(r, bucket))
    && (forall r :: r in c.builtin <==> r in resolved && r.kind == Builtin && SampledIn(r, bucket))
    && (forall r :: r in c.python <==> r in resolved && r.kind == Python && SampledIn(r, bucket))
    && (forall r :: r in c.notSampled <==> r in resolved && !SampledIn(r, bucket))
  }

  /** Every resolved metric is in exactly one group: its kind's if it is sampled, and else the last. */
  lemma CompiledMeaning(resolved: seq<Row>, bucket: MetricId -> int)
    requires DistinctIds(resolved)
    ensures var c := CompileMetrics(resolved, bucket);
            && DistinctIds(c.judged) && DistinctIds(c.builtin) && DistinctIds(c.python) && DistinctIds(c.notSampled)
            && Grouped(resolved, c, bucket) && forall r :: r in resolved ==> SampledByBucket(r, bucket)
  {
    var c := CompileMetrics(resolved, bucket);
    SampledDistinct(resolved, LlmJudge, bucket);
    SampledDistinct(resolved, Builtin, bucket);
    SampledDistinct(resolved, Python, bucket);
    var sampledIds := set r | r in c.judged + c.builtin + c.python :: r.id;
    RowsOfDistinct(resolved, (r: Row) => r.id !in sampledIds);
    forall r | r in resolved ensures r.id in sampledIds <==> SampledIn(r, bucket) {
      if r.id in sampledIds {
        var q :| q in c.judged + c.builtin + c.python && q.id == r.id;
        SameRow(resolved, q, r);
      } else {
        assert SampledIn(r, bucket) ==> r in c.judged + c.builtin + c.python;
      }
    }
  }

  lemma SameRow(rows: seq<Row>, a: Row, b: Row)
    requires DistinctIds(rows) && a in rows && b in rows && a.id == b.id
    ensures a == b
  {
    var i :| 0 <= i < |rows| && rows[i] == a;
    var j :| 0 <= j < |rows| && rows[j] == b;
    assert !(i < j) && !(j < i);
  }

  /** The status that metric `r` ends up with. */
  function FinalStatus(r: Row, bucket: MetricId -> int, verdicts: seq<JudgeVerdict>, computed: Row -> MetricStatus): MetricStatus {
    if !SampledIn(r, bucket) then NotSampled
    else if r.kind == LlmJudge then JudgedStatus(verdicts, r.id)
    else computed(r)
  }

  ghost predicate ReportedBy(o: Outcome, rows: seq<Row>, status: Row -> MetricStatus) {
    exists r :: r in rows && o == Outcome(r.id, r.version, status(r))
  }

  /** Exactly one outcome for each of `rows`, under its own version, and no other. */
  ghost predicate Conserves(outcomes: seq<Outcome>, rows: seq<Row>, status: Row -> MetricStatus) {
    && (forall i, j :: 0 <= i < j < |outcomes| ==> outcomes[i].metricId != outcomes[j].metricId)
    && (forall o :: o in outcomes ==> ReportedBy(o, rows, status))
    && (forall r :: r in rows ==> Outcome(r.id, r.version, status(r)) in outcomes)
  }

  lemma OneEachConserves(outcomes: seq<Outcome>, rows: seq<Row>, status: Row -> MetricStatus)
    requires DistinctIds(rows) && OneEach(outcomes, rows, status)
    ensures Conserves(outcomes, rows, status)
  {
    forall o | o in outcomes ensures ReportedBy(o, rows, status) {
      var i :| 0 <= i < |outcomes| && outcomes[i] == o;
      assert rows[i] in rows;
    }
    forall r | r in rows ensures Outcome(r.id, r.version, status(r)) in outcomes {
      var i :| 0 <= i < |rows| && rows[i] == r;
      assert outcomes[i] in outcomes;
    }
  }

  /** Two disjoint groups, reported separately, are reported together. */
  lemma ConserveBoth(a: seq<Outcome>, b: seq<Outcome>, rowsA: seq<Row>, rowsB: seq<Row>, status: Row -> MetricStatus)
    requires Conserves(a, rowsA, status) && Conserves(b, rowsB, status)
    requires forall p, q :: p in rowsA && q in rowsB ==> p.id != q.id
    ensures Conserves(a + b, rowsA + rowsB, status)
  {
    forall i, j | 0 <= i < |a| && 0 <= j < |b| ensures a[i].metricId != b[j].metricId {
      assert a[i] in a && b[j] in b && ReportedBy(a[i], rowsA, status) && ReportedBy(b[j], rowsB, status);
    }
    forall o | o in a + b ensures ReportedBy(o, rowsA + rowsB, status) {
      if o in a { assert ReportedBy(o, rowsA, status); } else { assert ReportedBy(o, rowsB, status); }
    }
  }

  lemma ConserveSame(outcomes: seq<Outcome>, rows: seq<Row>, same: seq<Row>, status: Row -> MetricStatus, other: Row -> MetricStatus)
    requires Conserves(outcomes, rows, status) && (forall r :: r in rows <==> r in same)
    requires forall r :: r in rows ==> status(r) == other(r)
    ensures Conserves(outcomes, same, other)
  {
    forall o | o in outcomes ensures ReportedBy(o, same, other) { assert ReportedBy(o, rows, status); }
  }

  /** The end of a call: `computed` stands for the built-in and the sandboxed evaluations. */
  method ScoreCall(resolved: seq<Row>, bucket: MetricId -> int, verdicts: seq<JudgeVerdict>, computed: Row -> MetricStatus)
    returns (outcomes: seq<Outcome>)
    requires DistinctIds(resolved)
    ensures Conserves(outcomes, resolved, (r: Row) => FinalStatus(r, bucket, verdicts, computed))
  {
    var c := CompileMetrics(resolved, bucket);
    CompiledMeaning(resolved, bucket);
    var judged := OutcomesFromJudgeVerdicts(verdicts, c.judged);
    var builtin := seq(|c.builtin|, i requires 0 <= i < |c.builtin| =>
                       Outcome(c.builtin[i].id, c.builtin[i].version, computed(c.builtin[i])));
    var python := seq(|c.python|, i requires 0 <= i < |c.python| =>
                      Outcome(c.python[i].id, c.python[i].version, computed(c.python[i])));
    outcomes := judged + builtin + python + NotSampledOutcomes(c.notSampled);
    ghost var status := (r: Row) => FinalStatus(r, bucket, verdicts, computed);
    OneEachConserves(judged, c.judged, (r: Row) => JudgedStatus(verdicts, r.id));
    ConserveSame(judged, c.judged, c.judged, (r: Row) => JudgedStatus(verdicts, r.id), status);
    OneEachConserves(builtin, c.builtin, computed);
    ConserveSame(builtin, c.builtin, c.builtin, computed, status);
    OneEachConserves(python, c.python, computed);
    ConserveSame(python, c.python, c.python, computed, status);
    OneEachConserves(NotSampledOutcomes(c.notSampled), c.notSampled, (r: Row) => NotSampled);
    ConserveSame(NotSampledOutcomes(c.notSampled), c.notSampled, c.notSampled, (r: Row) => NotSampled, status);
    AllGroups(resolved, c, bucket, judged, builtin, python, NotSampledOutcomes(c.notSampled), status);
  }

  lemma AllGroups(resolved: seq<Row>, c: Compiled, bucket: MetricId -> int, judged: seq<Outcome>, builtin: seq<Outcome>,
                  python: seq<Outcome>, skipped: seq<Outcome>, status: Row -> MetricStatus)
    requires DistinctIds(resolved) && Grouped(resolved, c, bucket)
    requires Conserves(judged, c.judged, status) && Conserves(builtin, c.builtin, status)
    requires Conserves(python, c.python, status) && Conserves(skipped, c.notSampled, status)
    ensures Conserves(judged + builtin + python + skipped, resolved, status)
  {
    TwoGroups(resolved, judged, builtin, c.judged, c.builtin, status);
    TwoGroups(resolved, judged + builtin, python, c.judged + c.builtin, c.python, status);
    TwoGroups(resolved, judged + builtin + python, skipped, c.judged + c.builtin + c.python, c.notSampled, status);
    ConserveSame(judged + builtin + python + skipped, c.judged + c.builtin + c.python + c.notSampled, resolved, status, status);
  }

  lemma TwoGroups(resolved: seq<Row>, a: seq<Outcome>, b: seq<Outcome>, rowsA: seq<Row>, rowsB: seq<Row>, status: Row -> MetricStatus)
    requires DistinctIds(resolved) && Conserves(a, rowsA, status) && Conserves(b, rowsB, status)
    requires (forall r :: r in rowsA ==> r in resolved && r !in rowsB) && forall r :: r in rowsB ==> r in resolved
    ensures Conserves(a + b, rowsA + rowsB, status)
  {
    Apart(resolved, rowsA, rowsB);
    ConserveBoth(a, b, rowsA, rowsB, status);
  }

  lemma Apart(resolved: seq<Row>, a: seq<Row>, b: seq<Row>)
    requires DistinctIds(resolved) && (forall r :: r in a ==> r in resolved && r !in b) && forall r :: r in b ==> r in resolved
    ensures forall p, q :: p in a && q in b ==> p.id != q.id
  {
    forall p, q | p in a && q in b ensures p.id != q.id {
      if p.id == q.id { SameRow(resolved, p, q); }
    }
  }

  // The call's verdict

  function EvaluateCall(gating: seq<MetricStatus>, default: Badge): Badge {
    if MetricFailed in gating || MetricError in gating then Fail
    else if MetricWarn in gating then Warn
    else default
  }

  function GatingStatuses(outcomes: seq<Outcome>, gating: set<MetricId>): (statuses: seq<MetricStatus>)
    ensures forall st :: st in statuses <==> exists o :: o in outcomes && o.metricId in gating && o.status == st
  {
    if outcomes == [] then []
    else
      var init, last := outcomes[..|outcomes| - 1], outcomes[|outcomes| - 1];
      assert forall o :: o in outcomes <==> o in init || o == last;
      GatingStatuses(init, gating) + if last.metricId in gating then [last.status] else []
  }

  /** Some gating metric among `resolved` ended as `st`. */
  ghost predicate GateEndedAs(resolved: seq<Row>, gating: set<MetricId>, status: Row -> MetricStatus, st: MetricStatus) {
    exists r :: r in resolved && r.id in gating && status(r) == st
  }

  /**
   The gating metrics decide the call: failed or unscored ones fail it, else a warning warns, else the score
   counts. In particular a sampled gating metric that the judge leaves out fails the call.
   */
  lemma GatesDecide(resolved: seq<Row>, bucket: MetricId -> int, verdicts: seq<JudgeVerdict>, computed: Row -> MetricStatus,
                    outcomes: seq<Outcome>, gating: set<MetricId>, default: Badge)
    requires Conserves(outcomes, resolved, (r: Row) => FinalStatus(r, bucket, verdicts, computed))
    ensures var status := (r: Row) => FinalStatus(r, bucket, verdicts, computed);
            EvaluateCall(GatingStatuses(outcomes, gating), default) ==
            if GateEndedAs(resolved, gating, status, MetricFailed) || GateEndedAs(resolved, gating, status, MetricError) then Fail
            else if GateEndedAs(resolved, gating, status, MetricWarn) then Warn
            else default
    ensures forall r :: r in resolved && r.kind == LlmJudge && r.id in gating && SampledIn(r, bucket)
                        && (forall v :: v in verdicts ==> v.metricId != r.id) ==>
                          EvaluateCall(GatingStatuses(outcomes, gating), default) == Fail
  {
    var status := (r: Row) => FinalStatus(r, bucket, verdicts, computed);
    forall st ensures st in GatingStatuses(outcomes, gating) <==> GateEndedAs(resolved, gating, status, st) {
      StatusOfGate(resolved, status, outcomes, gating, st);
    }
    forall r | r in resolved && r.kind == LlmJudge && r.id in gating && SampledIn(r, bucket)
               && (forall v :: v in verdicts ==> v.metricId != r.id)
      ensures EvaluateCall(GatingStatuses(outcomes, gating), default) == Fail
    {
      SilentJudgeIsError(verdicts, r.id);
      assert status(r) == MetricError;
    }
  }

  lemma StatusOfGate(resolved: seq<Row>, status: Row -> MetricStatus, outcomes: seq<Outcome>, gating: set<MetricId>, st: MetricStatus)
    requires Conserves(outcomes, resolved, status)
    ensures st in GatingStatuses(outcomes, gating) <==> GateEndedAs(resolved, gating, status, st)
  {
    if st in GatingStatuses(outcomes, gating) {
      var o :| o in outcomes && o.metricId in gating && o.status == st;
      assert ReportedBy(o, resolved, status);
    }
    if GateEndedAs(resolved, gating, status, st) {
      var r :| r in resolved && r.id in gating && status(r) == st;
      assert Outcome(r.id, r.version, status(r)) in outcomes;
    }
  }
}
