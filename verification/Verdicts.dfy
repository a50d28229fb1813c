/** Pass/warn/fail verdicts of single calls and of whole batches. */
module Verdicts {
  import opened RunTypes

  datatype Rubric = Rubric(failOnAnyCritical: bool, minPassRate: Option<real>)

  function BadgeFromScore(score: real): Badge {
    if score >= 0.8 then Pass else if score >= 0.5 then Warn else Fail
  }

  /** None stands for the "idle" verdict of a run that has not concluded. */
  function VerdictForRun(status: Status, metrics: Metrics): Option<Badge> {
    match status
    case Completed =>
      if metrics.badge.Some? then metrics.badge
      else if metrics.score.Some? then Some(BadgeFromScore(metrics.score.value))
      else Some(Pass)
    case Failed => Some(Fail)
    case Cancelled => Some(Fail)
    case _ => None
  }

  function CountPass(verdicts: seq<Badge>): (n: nat)
    ensures n <= |verdicts|
  {
    if verdicts == [] then 0 else (if verdicts[0] == Pass then 1 else 0) + CountPass(verdicts[1..])
  }

  function EvaluateBatch(verdicts: seq<Badge>, rubric: Option<Rubric>, default: Badge): Badge {
    if rubric.None? || verdicts == [] then default
    else if rubric.value.failOnAnyCritical && Fail in verdicts then Fail
    else if rubric.value.minPassRate.Some?
            && CountPass(verdicts) as real / |verdicts| as real < rubric.value.minPassRate.value then Fail
    else default
  }

  /** The badge a batch parent stores when it closes as completed. */
  function BatchBadge(kind: RunType, rubric: Option<Rubric>, verdicts: seq<Badge>): Badge {
    if kind == Redteam && Fail in verdicts then Fail else EvaluateBatch(verdicts, rubric, Pass)
  }

  /** When a closing batch fails: a red-team leak, or a rubric knob that its concluded calls violate. */
  ghost predicate BatchFails(kind: RunType, rubric: Option<Rubric>, passed: nat, failed: nat, total: nat) {
    || (kind == Redteam && failed > 0)
    || (rubric.Some? && total > 0
        && (|| (rubric.value.failOnAnyCritical && failed > 0)
            || (rubric.value.minPassRate.Some? && passed as real / total as real < rubric.value.minPassRate.value)))
  }

  // What a row counts as, by its columns

  ghost predicate CountsAsFail(row: Run) {
    || row.status == Failed || row.status == Cancelled
    || (row.status == Completed
        && (|| row.metrics.badge == Some(Fail)
            || (row.metrics.badge == None && row.metrics.score.Some? && row.metrics.score.value < 0.5)))
  }

  ghost predicate CountsAsPass(row: Run) {
    row.status == Completed
    && (|| row.metrics.badge == Some(Pass)
        || (row.metrics.badge == None && (row.metrics.score.Some? ==> row.metrics.score.value >= 0.8)))
  }

  ghost predicate Counts(row: Run) {
    row.status == Completed || row.status == Failed || row.status == Cancelled
  }

  lemma VerdictMeaning(row: Run)
    ensures var v := VerdictForRun(row.status, row.metrics);
            (v == Some(Fail) <==> CountsAsFail(row)) && (v == Some(Pass) <==> CountsAsPass(row)) && (v.Some? <==> Counts(row))
  {
  }

  lemma CountPassIsMultiplicity(verdicts: seq<Badge>)
    ensures CountPass(verdicts) == multiset(verdicts)[Pass]
  {
    if verdicts == [] {
    } else {
      assert verdicts == [verdicts[0]] + verdicts[1..];
      CountPassIsMultiplicity(verdicts[1..]);
    }
  }

  /** The stored badge is Pass or Fail, decided by how often each verdict occurs and by nothing else. */
  lemma BatchBadgeMeaning(kind: RunType, rubric: Option<Rubric>, verdicts: seq<Badge>)
    ensures BatchBadge(kind, rubric, verdicts) ==
            if BatchFails(kind, rubric, multiset(verdicts)[Pass], multiset(verdicts)[Fail], |verdicts|) then Fail else Pass
  {
    CountPassIsMultiplicity(verdicts);
    assert Fail in verdicts <==> multiset(verdicts)[Fail] > 0;
  }
}
