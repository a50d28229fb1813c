/** Rows of the `runs` and `run_events` tables, and the values they carry. */
module RunTypes {

  datatype Option<+T> = None | Some(value: T)

  ghost predicate Distinct<T>(s: seq<T>) {
    forall i, j :: 0 <= i < j < |s| ==> s[i] != s[j]
  }

  type RunId = nat
  type AgentId = nat

  datatype RunType = Simulation | Discovery | Redteam | Suite

  datatype Status = Queued | Claimed | Running | Completed | Cancelled | Failed

  predicate Terminal(s: Status) {
    s.Completed? || s.Cancelled? || s.Failed?
  }

  predicate Live(s: Status) {
    s.Queued? || s.Claimed? || s.Running?
  }

  /** The statuses that use up one of an agent's call slots. */
  predicate Occupies(s: Status) {
    s.Claimed? || s.Running?
  }

  datatype Badge = Pass | Warn | Fail

  /** The part of `runs.metrics` that decides a verdict; a SQL NULL is `NO_METRICS`. */
  datatype Metrics = Metrics(badge: Option<Badge>, score: Option<real>)

  const NO_METRICS := Metrics(None, None)

  datatype Run = Run(
    kind: RunType,
    agent: AgentId,
    created: int,
    parent: Option<RunId>,
    status: Status,
    metrics: Metrics)

  /** A row's columns that no statement ever updates. */
  predicate SameIdentity(a: Run, b: Run) {
    a.kind == b.kind && a.agent == b.agent && a.created == b.created && a.parent == b.parent
  }

  datatype Event =
    | StatusEvent(status: Status)
    | ProgressEvent(completed: nat, total: nat)
    | DomainEvent(payload: int)
    | DoneEvent(badge: Option<Badge>)
    | ErrorEvent(fatal: bool)

  predicate TerminalEvent(e: Event) {
    e.DoneEvent? || (e.ErrorEvent? && e.fatal)
  }
}
