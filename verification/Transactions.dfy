/**
 Concurrent transactions over `runs` and `run_events`, one SQL statement per step.

 A statement reads the committed database plus the transaction's own writes, as the default
 READ COMMITTED level does (section 13.2.1 of the PostgreSQL manual). Writes stay private until the
 commit, which is one step. Row locks and advisory locks are kept until the transaction ends; a
 statement that needs a lock another transaction holds is simply not enabled. Any transaction may
 abort at any time, which covers crashes, failed statements and deadlock victims.
 */
module Transactions {
  import opened RunTypes
  import opened Verdicts

  type TxnId = nat

  /**
   `rubrics` holds the rubric of the suite that a parent's children come from. `owned` are the runs some
   worker has claimed; `resurrected` is a history variable holding the runs whose status went from
   terminal back to live.
   */
  datatype Db = Db(
    runs: map<RunId, Run>,
    log: map<RunId, map<nat, Event>>,
    caps: map<AgentId, nat>,
    rubrics: map<RunId, Rubric>,
    owned: set<RunId>,
    resurrected: set<RunId>)

  /** What a transaction saw when it closed a batch parent: children at the tally, children at the badge read. */
  datatype Closing = Closing(seen: map<RunId, Run>, badge: Option<BadgeRead>)

  datatype BadgeRead = BadgeRead(read: map<RunId, Run>, order: seq<RunId>, rubric: Option<Rubric>)

  datatype Stmt =
    | InsertRuns(rows: map<RunId, Run>)
    | TryLockAgent(agent: AgentId)
    | CheckCapacity(agent: AgentId)
    | ClaimOldest(agent: AgentId)
    | LockRun(run: RunId, guard: set<Status>)
    | StopIfCancelled(run: RunId)
    | PartialMetrics(run: RunId)
    | MarkRunning(run: RunId)
    | Finish(run: RunId, status: Status, metrics: Option<Metrics>)
    | Emit(run: RunId, event: Event)
    | InsertEvent(run: RunId, event: Event)
    | RollUp(run: RunId)
    | LockParent(run: RunId)
    | Tally(run: RunId)
    | CloseParent(run: RunId, seen: map<RunId, Run>)
    | BadgeParent(run: RunId)
    | BranchOnChildren(run: RunId)
    | CascadeScan(run: RunId)
    | Cascade(run: RunId, children: seq<RunId>)
    | ReapScan
    | Reap(stale: seq<RunId>)
    | ReapUpdate(stale: seq<RunId>)
    | ReconcileScan
    | Reconcile(orphans: seq<RunId>)

  /** An in-flight transaction: what is left to run, its private writes, and the locks it holds. */
  datatype Txn = Txn(
    todo: seq<Stmt>,
    writes: map<RunId, Run>,
    events: map<RunId, map<nat, Event>>,
    rows: set<RunId>,
    logs: set<RunId>,
    agents: set<AgentId>,
    closed: map<RunId, Closing>)

  datatype State = State(db: Db, txns: map<TxnId, Txn>)

  // Reads

  function View(db: Db, t: Txn): map<RunId, Run> {
    db.runs + t.writes
  }

  function LogOf(db: Db, r: RunId): map<nat, Event> {
    if r in db.log then db.log[r] else map[]
  }

  function OwnLog(t: Txn, r: RunId): map<nat, Event> {
    if r in t.events then t.events[r] else map[]
  }

  function LogView(db: Db, t: Txn, r: RunId): map<nat, Event> {
    LogOf(db, r) + OwnLog(t, r)
  }

  function RubricOf(db: Db, p: RunId): Option<Rubric> {
    if p in db.rubrics then Some(db.rubrics[p]) else None
  }

  function Cap(db: Db, a: AgentId): nat {
    if a in db.caps then db.caps[a] else 0
  }

  ghost predicate IsChild(m: map<RunId, Run>, c: RunId, p: RunId) {
    c in m && m[c].parent == Some(p)
  }

  ghost predicate HasChild(m: map<RunId, Run>, p: RunId) {
    exists c :: IsChild(m, c, p)
  }

  ghost predicate HasLiveChild(m: map<RunId, Run>, p: RunId) {
    exists c :: IsChild(m, c, p) && Live(m[c].status)
  }

  function ChildRows(m: map<RunId, Run>, p: RunId): map<RunId, Run> {
    map c | c in m && m[c].parent == Some(p) :: m[c]
  }

  function Occupying(m: map<RunId, Run>, a: AgentId): set<RunId> {
    set r | r in m && m[r].agent == a && Occupies(m[r].status)
  }

  /** COALESCE(MAX(seq), 0). */
  ghost predicate IsTop(log: map<nat, Event>, top: nat) {
    (if top == 0 then log == map[] else top in log) && forall k :: k in log ==> k <= top
  }

  /** A query result: the ids of `s`, each once, in whatever order the database returns them. */
  ghost predicate Enumerates(order: seq<RunId>, s: set<RunId>) {
    Distinct(order) && forall r :: r in order <==> r in s
  }

  ghost predicate RowFree(s: State, id: TxnId, r: RunId) {
    forall o :: o in s.txns && o != id ==> r !in s.txns[o].rows
  }

  ghost predicate LogFree(s: State, id: TxnId, r: RunId) {
    forall o :: o in s.txns && o != id ==> r !in s.txns[o].logs
  }

  ghost predicate AgentFree(s: State, id: TxnId, a: AgentId) {
    forall o :: o in s.txns && o != id ==> a !in s.txns[o].agents
  }

  // Statements

  /** FOR UPDATE SKIP LOCKED: the queued, childless, unlocked rows of one agent. */
  ghost predicate Claimable(s: State, id: TxnId, a: AgentId, r: RunId) {
    && r in s.db.runs && s.db.runs[r].agent == a && s.db.runs[r].status == Queued
    && !HasChild(s.db.runs, r) && RowFree(s, id, r)
  }

  ghost predicate OldestClaimable(s: State, id: TxnId, a: AgentId, r: RunId) {
    && Claimable(s, id, a, r)
    && forall q :: Claimable(s, id, a, q) ==> s.db.runs[r].created <= s.db.runs[q].created
  }

  predicate AnyLive(seen: map<RunId, Run>) {
    exists c :: c in seen && Live(seen[c].status)
  }

  predicate AnyCancelled(seen: map<RunId, Run>) {
    exists c :: c in seen && seen[c].status == Cancelled
  }

  function CloseStatus(seen: map<RunId, Run>): Status {
    if AnyCancelled(seen) then Cancelled else Completed
  }

  function Concluded(seen: map<RunId, Run>): set<RunId> {
    set c | c in seen && Terminal(seen[c].status)
  }

  function AfterTally(p: RunId, seen: map<RunId, Run>): seq<Stmt> {
    var progress := Emit(p, ProgressEvent(|Concluded(seen)|, |seen|));
    if AnyLive(seen) then [progress] else [progress, CloseParent(p, seen)]
  }

  /** The verdicts of the children, in query order; a child that is live again has none. */
  function ChildVerdicts(read: map<RunId, Run>, order: seq<RunId>): seq<Badge> {
    if order == [] then []
    else
      var v := if order[0] in read then VerdictForRun(read[order[0]].status, read[order[0]].metrics) else None;
      (if v.Some? then [v.value] else []) + ChildVerdicts(read, order[1..])
  }

  function SetStatus(row: Run, status: Status): Run {
    row.(status := status)
  }

  datatype Write = Write(run: RunId, row: Run)

  datatype Logged = Logged(run: RunId, at: nat, event: Event)

  datatype Closed = Closed(run: RunId, closing: Closing)

  /**
   What one statement does to its transaction: the statements it puts in front of the remaining ones
   (`ends` drops those), the rows it inserts or writes, the locks it takes, the event it inserts.
   */
  datatype Effect = Effect(
    pushed: seq<Stmt>,
    ends: bool,
    inserts: map<RunId, Run>,
    write: Option<Write>,
    event: Option<Logged>,
    close: Option<Closed>,
    rows: set<RunId>,
    logs: set<RunId>,
    agents: set<AgentId>)

  function Quiet(pushed: seq<Stmt>): Effect {
    Effect(pushed, false, map[], None, None, None, {}, {}, {})
  }

  function Wrote(pushed: seq<Stmt>, r: RunId, row: Run): Effect {
    Quiet(pushed).(write := Some(Write(r, row)), rows := {r})
  }

  function After(t: Txn, e: Effect): Txn
    requires t.todo != []
  {
    Txn(if e.ends then [] else e.pushed + t.todo[1..],
        if e.write.Some? then t.writes[e.write.value.run := e.write.value.row] else t.writes + e.inserts,
        if e.event.Some? then t.events[e.event.value.run := OwnLog(t, e.event.value.run)[e.event.value.at := e.event.value.event]]
        else t.events,
        t.rows + e.rows, t.logs + e.logs, t.agents + e.agents,
        if e.close.Some? then t.closed[e.close.value.run := e.close.value.closing] else t.closed)
  }

  /** The first statement of `s.txns[id]` can run now, with effect `e`. */
  ghost predicate StmtStep(s: State, id: TxnId, e: Effect)
    requires id in s.txns && s.txns[id].todo != []
  {
    || ClaimStep(s, id, e) || ExecutorStep(s, id, e) || EmitStep(s, id, e) || RollupStep(s, id, e) || CloseStep(s, id, e)
    || CancelStep(s, id, e) || ReaperStep(s, id, e)
  }

  /** Creating runs and claiming them. */
  ghost predicate ClaimStep(s: State, id: TxnId, e: Effect)
    requires id in s.txns && s.txns[id].todo != []
  {
    var db, t := s.db, s.txns[id];
    match t.todo[0]
    case InsertRuns(rows) =>
      && rows.Keys !! db.runs.Keys && (forall r :: r in rows ==> RowFree(s, id, r))
      && e == Quiet([]).(inserts := rows, rows := rows.Keys)
    case TryLockAgent(a) =>
      e == if AgentFree(s, id, a) then Quiet([CheckCapacity(a)]).(agents := {a}) else Quiet([])
    case CheckCapacity(a) =>
      e == Quiet(if |Occupying(View(db, t), a)| >= Cap(db, a) then [] else [ClaimOldest(a)])
    case ClaimOldest(a) =>
      || (exists r :: OldestClaimable(s, id, a, r) && e == Wrote([], r, SetStatus(db.runs[r], Claimed)).(ends := true))
      || ((forall r :: !Claimable(s, id, a, r)) && e == Quiet([]))
    case _ => false
  }

  /** What executors do to the row of the run they own. */
  ghost predicate ExecutorStep(s: State, id: TxnId, e: Effect)
    requires id in s.txns && s.txns[id].todo != []
  {
    var db, t := s.db, s.txns[id];
    var view := View(db, t);
    match t.todo[0]
    case LockRun(r, guard) =>
      r in view && RowFree(s, id, r) && view[r].status in guard && e == Quiet([]).(rows := {r})
    case StopIfCancelled(r) =>
      && r in view && RowFree(s, id, r) && view[r].status == Cancelled
      && e == Quiet([Emit(r, DoneEvent(None)), PartialMetrics(r)]).(rows := {r})
    case PartialMetrics(r) =>
      r in view && e == Wrote([], r, view[r].(metrics := NO_METRICS))
    case MarkRunning(r) =>
      r in view && RowFree(s, id, r) && e == Wrote([], r, SetStatus(view[r], Running))
    case Finish(r, status, metrics) =>
      && r in view && RowFree(s, id, r)
      && e == Wrote([RollUp(r)], r,
                    view[r].(status := status, metrics := if metrics.Some? then metrics.value else view[r].metrics))
    case _ => false
  }

  /** `emit`: the advisory lock first, then MAX(seq) + 1 in a statement of its own. */
  ghost predicate EmitStep(s: State, id: TxnId, e: Effect)
    requires id in s.txns && s.txns[id].todo != []
  {
    var t := s.txns[id];
    match t.todo[0]
    case Emit(r, event) =>
      LogFree(s, id, r) && e == Quiet([InsertEvent(r, event)]).(logs := {r})
    case InsertEvent(r, event) =>
      exists top: nat :: IsTop(LogView(s.db, t, r), top)
                         && e == Quiet([]).(event := Some(Logged(r, top + 1, event)))
    case _ => false
  }

  /** `maybe_close_parent` and `close_parent_now`. */
  ghost predicate RollupStep(s: State, id: TxnId, e: Effect)
    requires id in s.txns && s.txns[id].todo != []
  {
    var db, t := s.db, s.txns[id];
    var view := View(db, t);
    match t.todo[0]
    case RollUp(c) =>
      c in view && e == Quiet(if view[c].parent.Some? then [LockParent(view[c].parent.value)] else [])
    case LockParent(p) =>
      && p in view && RowFree(s, id, p)
      && e == Quiet(if Terminal(view[p].status) then [] else [Tally(p)]).(rows := {p})
    case Tally(p) =>
      e == Quiet(AfterTally(p, ChildRows(view, p)))
    case _ => false
  }

  /** The close itself, once a tally has found every child terminal. */
  ghost predicate CloseStep(s: State, id: TxnId, e: Effect)
    requires id in s.txns && s.txns[id].todo != []
  {
    var t := s.txns[id];
    var view := View(s.db, t);
    match t.todo[0]
    case CloseParent(p, seen) =>
      p in view && e == ClosingEffect(p, view[p], seen)
    case BadgeParent(p) =>
      && p in view && p in t.closed
      && exists b: BadgeRead :: b.read == ChildRows(view, p) && Enumerates(b.order, b.read.Keys)
                                && b.rubric == RubricOf(s.db, p)
                                && e == BadgeEffect(p, view[p], t.closed[p], b)
    case _ => false
  }

  /** `cancel_run`, once it holds the row. */
  ghost predicate CancelStep(s: State, id: TxnId, e: Effect)
    requires id in s.txns && s.txns[id].todo != []
  {
    var view := View(s.db, s.txns[id]);
    match s.txns[id].todo[0]
    case BranchOnChildren(r) =>
      e == Quiet(if HasChild(view, r) then [CascadeScan(r)] else [Finish(r, Cancelled, None)])
    case CascadeScan(p) =>
      exists order :: Enumerates(order, LiveChildren(view, p)) && e == Quiet([Cascade(p, order)])
    case Cascade(p, cs) =>
      if cs == [] then e == Quiet([LockParent(p)])
      else
        // The UPDATE re-checks its WHERE clause on the row's latest version once it has the lock.
        && cs[0] in view && RowFree(s, id, cs[0])
        && e == if Live(view[cs[0]].status)
        then Wrote([Cascade(p, cs[1..])], cs[0], SetStatus(view[cs[0]], Cancelled))
        else Quiet([Cascade(p, cs[1..])])
    case _ => false
  }

  /** `reap_stale_runs`, where any claimed or running row may be stale, and `reconcile_orphaned_parents`. */
  ghost predicate ReaperStep(s: State, id: TxnId, e: Effect)
    requires id in s.txns && s.txns[id].todo != []
  {
    var db := s.db;
    var view := View(db, s.txns[id]);
    match s.txns[id].todo[0]
    case ReapScan =>
      exists stale: seq<RunId> ::
        && Distinct(stale)
        && (forall r :: r in stale ==> r in db.runs && Occupies(db.runs[r].status) && RowFree(s, id, r))
        && e == Quiet([Reap(stale)]).(rows := set r | r in stale)
    case Reap(stale) =>
      e == Quiet(if stale == [] then [] else [Emit(stale[0], ErrorEvent(true)), ReapUpdate(stale)])
    case ReapUpdate(stale) =>
      && stale != [] && stale[0] in view
      && var pushed := [RollUp(stale[0]), Reap(stale[1..])];
      e == if Occupies(view[stale[0]].status) then Wrote(pushed, stale[0], SetStatus(view[stale[0]], Failed))
      else Quiet(pushed)
    case ReconcileScan =>
      exists order :: Enumerates(order, set p | p in db.runs && Orphaned(db.runs, p) && RowFree(s, id, p))
                      && e == Quiet([Reconcile(order)]).(rows := set r | r in order)
    case Reconcile(ps) =>
      if ps == [] then e == Quiet([])
      else
        && ps[0] in view
        && e == Wrote([Emit(ps[0], StatusEvent(Completed)), Reconcile(ps[1..])], ps[0], SetStatus(view[ps[0]], Completed))
    case _ => false
  }

  function LiveChildren(m: map<RunId, Run>, p: RunId): set<RunId> {
    set c | c in m && m[c].parent == Some(p) && Live(m[c].status)
  }

  function ClosingEffect(p: RunId, row: Run, seen: map<RunId, Run>): Effect {
    var final := CloseStatus(seen);
    var announced := Emit(p, StatusEvent(final));
    var pushed := if final == Completed then [announced, BadgeParent(p)] else [announced];
    Wrote(pushed, p, SetStatus(row, final)).(close := Some(Closed(p, Closing(seen, None))))
  }

  function BadgeEffect(p: RunId, row: Run, closing: Closing, b: BadgeRead): Effect {
    Wrote([], p, row.(metrics := StoredBadge(row.kind, b))).(close := Some(Closed(p, closing.(badge := Some(b)))))
  }

  function StoredBadge(kind: RunType, b: BadgeRead): Metrics {
    Metrics(Some(BatchBadge(kind, b.rubric, ChildVerdicts(b.read, b.order))), None)
  }

  /** The reaper's query for a parent that should have been closed and was not. */
  ghost predicate Orphaned(m: map<RunId, Run>, p: RunId) {
    && p in m && m[p].parent == None && Live(m[p].status)
    && HasChild(m, p) && !HasLiveChild(m, p)
  }

  // Transactions

  datatype Job =
    | CreateRuns(rows: map<RunId, Run>)
    | ClaimAttempt(candidates: seq<AgentId>)
    | StartRun(run: RunId)
    | EmitEvents(run: RunId, events: seq<Event>)
    | ScriptStep(run: RunId, event: Event)
    | FinishRun(run: RunId, guard: set<Status>, events: seq<Event>, status: Status, metrics: Metrics)
    | FailRun(run: RunId)
    | StopRun(run: RunId)
    | CancelRun(run: RunId)
    | ReapStale
    | ReconcileParents

  const CANCELLABLE: set<Status> := {Queued, Claimed, Running}
  const EXECUTING: set<Status> := {Claimed, Running}

  function Emits(r: RunId, events: seq<Event>): (todo: seq<Stmt>) {
    seq(|events|, i requires 0 <= i < |events| => Emit(r, events[i]))
  }

  function TryAgents(candidates: seq<AgentId>): seq<Stmt> {
    seq(|candidates|, i requires 0 <= i < |candidates| => TryLockAgent(candidates[i]))
  }

  function Program(job: Job): seq<Stmt> {
    match job
    case CreateRuns(rows) => [InsertRuns(rows)]
    case ClaimAttempt(candidates) => TryAgents(candidates)
    case StartRun(r) => [MarkRunning(r), Emit(r, StatusEvent(Running))]
    case EmitEvents(r, events) => Emits(r, events)
    case ScriptStep(r, e) => [LockRun(r, EXECUTING), Emit(r, e)]
    case FinishRun(r, guard, events, status, metrics) =>
      [LockRun(r, guard)] + Emits(r, events) + [Finish(r, status, Some(metrics))]
    case FailRun(r) => [Emit(r, ErrorEvent(true)), Finish(r, Failed, None)]
    case StopRun(r) => [StopIfCancelled(r)]
    case CancelRun(r) => [LockRun(r, CANCELLABLE), BranchOnChildren(r)]
    case ReapStale => [ReapScan]
    case ReconcileParents => [ReconcileScan]
  }

  /** New rows are queued, and come with the parent they name. */
  ghost predicate NewRows(rows: map<RunId, Run>) {
    forall r :: r in rows ==>
                  && rows[r].status == Queued && rows[r].metrics == NO_METRICS
                  && (rows[r].parent.Some? ==> rows[r].parent.value in rows && rows[rows[r].parent.value].parent == None)
  }

  /** Executors act on runs their worker claimed; everything else acts on any existing run. */
  ghost predicate JobAllowed(db: Db, job: Job) {
    match job
    case CreateRuns(rows) => NewRows(rows)
    case StartRun(r) => r in db.owned
    case EmitEvents(r, _) => r in db.owned
    case ScriptStep(r, _) => r in db.owned
    case FinishRun(r, _, _, status, _) => r in db.owned && (status == Completed || status == Cancelled)
    case FailRun(r) => r in db.owned
    case StopRun(r) => r in db.owned
    case CancelRun(r) => r in db.runs
    case ClaimAttempt(_) => true
    case ReapStale => true
    case ReconcileParents => true
  }

  function Begun(job: Job): Txn {
    Txn(Program(job), map[], map[], {}, {}, {}, map[])
  }

  function Committed(db: Db, t: Txn): Db {
    Db(db.runs + t.writes,
       map r | r in db.log.Keys + t.events.Keys :: LogView(db, t, r),
       db.caps,
       db.rubrics,
       db.owned + (set r | r in t.writes && r in db.runs && db.runs[r].status == Queued && t.writes[r].status == Claimed),
       db.resurrected
       + (set r | r in t.writes && r in db.runs && Terminal(db.runs[r].status) && Live(t.writes[r].status)))
  }

  datatype Action = Begin(id: TxnId, job: Job) | Execute(id: TxnId, effect: Effect) | Commit(id: TxnId) | Abort(id: TxnId)

  ghost predicate Step(s: State, a: Action, s': State) {
    match a
    case Begin(id, job) =>
      id !in s.txns && JobAllowed(s.db, job) && s' == s.(txns := s.txns[id := Begun(job)])
    case Execute(id, e) =>
      && id in s.txns && s.txns[id].todo != [] && StmtStep(s, id, e)
      && s' == s.(txns := s.txns[id := After(s.txns[id], e)])
    case Commit(id) =>
      && id in s.txns && s.txns[id].todo == []
      && s' == State(Committed(s.db, s.txns[id]), s.txns - {id})
    case Abort(id) =>
      id in s.txns && s' == s.(txns := s.txns - {id})
  }

  ghost predicate Next(s: State, s': State) {
    exists a :: Step(s, a, s')
  }

  ghost predicate Init(s: State) {
    s.db.runs == map[] && s.db.log == map[] && s.db.owned == {} && s.db.resurrected == {} && s.txns == map[]
  }

  ghost predicate Moves(b: seq<State>, i: nat)
    requires i + 1 < |b|
  {
    Next(b[i], b[i + 1])
  }

  /** Any finite run of the system, in any interleaving. */
  ghost predicate Behavior(b: seq<State>) {
    && |b| > 0 && Init(b[0])
    && forall i :: 0 <= i < |b| - 1 ==> Moves(b, i)
  }
}
