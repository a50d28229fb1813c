/** What a committed transaction has logged on its run: the job's events, in order, right behind the earlier ones. */
module JobEvents {
  import opened RunTypes
  import opened Transactions
  import opened Discipline
  import opened EventLog
  import opened Protocol
  import opened JobEffects

  predicate HasRun(job: Job) {
    !job.CreateRuns? && !job.ClaimAttempt? && !job.CancelRun? && !job.ReapStale? && !job.ReconcileParents?
  }

  /** The events that the job logs on its run. */
  function Script(job: Job): seq<Event>
    requires HasRun(job)
  {
    match job
    case StartRun(_) => [StatusEvent(Running)]
    case EmitEvents(_, events) => events
    case ScriptStep(_, event) => [event]
    case FinishRun(_, _, events, _, _) => events
    case FailRun(_) => [ErrorEvent(true)]
    case StopRun(_) => [DoneEvent(None)]
  }

  /** `own` is `events` in order, with the numbers after `base`. */
  ghost predicate Lists(own: map<nat, Event>, base: nat, events: seq<Event>) {
    && (forall k :: k in own <==> base < k <= base + |events|)
    && forall i :: 0 <= i < |events| ==> base + 1 + i in own && own[base + 1 + i] == events[i]
  }

  /** `own` lists what has been told of `events`, right behind `log`; `rest` is still to be told. */
  ghost predicate Continues(log: map<nat, Event>, own: map<nat, Event>, rest: seq<Event>, base: nat, told: seq<Event>, events: seq<Event>) {
    GaplessTo(log, base) && Lists(own, base, told) && told + rest == events
  }

  ghost predicate OnScript(log: map<nat, Event>, own: map<nat, Event>, rest: seq<Event>, events: seq<Event>) {
    exists base: nat, told :: Continues(log, own, rest, base, told, events)
  }

  /** What a statement will log on `r`, as far as that stands already. */
  function Announces(s: Stmt, r: RunId): seq<Event> {
    match s
    case Emit(q, event) => if q == r then [event] else []
    case InsertEvent(q, event) => if q == r then [event] else []
    case StopIfCancelled(q) => if q == r then [DoneEvent(None)] else []
    case _ => []
  }

  function ToLog(todo: seq<Stmt>, r: RunId): seq<Event> {
    if todo == [] then [] else Announces(todo[0], r) + ToLog(todo[1..], r)
  }

  /** What the transaction has logged on `r`, and what it has still to log. */
  ghost predicate Tells(db: Db, t: Txn, r: RunId, events: seq<Event>) {
    OnScript(LogOf(db, r), OwnLog(t, r), ToLog(t.todo, r), events)
  }

  lemma {:induction false} ToLogBoth(a: seq<Stmt>, b: seq<Stmt>, r: RunId)
    ensures ToLog(a + b, r) == ToLog(a, r) + ToLog(b, r)
  {
    if a == [] {
      assert a + b == b;
    } else {
      assert (a + b)[1..] == a[1..] + b;
      ToLogBoth(a[1..], b, r);
    }
  }

  // One statement

  /** A statement passes on what it has to log on `r`, or logs it. */
  ghost predicate PassesOn(t: Txn, e: Effect, r: RunId)
    requires t.todo != []
  {
    Announces(t.todo[0], r) == (if e.event.Some? && e.event.value.run == r then [e.event.value.event] else []) + ToLog(e.pushed, r)
  }

  lemma ToLogOne(s: Stmt, r: RunId)
    ensures ToLog([s], r) == Announces(s, r)
  {
  }

  lemma ToLogTwo(s: Stmt, s': Stmt, r: RunId)
    ensures ToLog([s, s'], r) == Announces(s, r) + Announces(s', r)
  {
    assert [s, s'][1..] == [s'];
    ToLogOne(s', r);
  }

  lemma PushedPassOn(e: Effect, r: RunId)
    requires |e.pushed| <= 2
    ensures ToLog(e.pushed, r) == if |e.pushed| == 0 then [] else if |e.pushed| == 1 then Announces(e.pushed[0], r)
                                  else Announces(e.pushed[0], r) + Announces(e.pushed[1], r)
  {
    if |e.pushed| == 1 { ToLogOne(e.pushed[0], r); assert e.pushed == [e.pushed[0]]; }
    if |e.pushed| == 2 { ToLogTwo(e.pushed[0], e.pushed[1], r); assert e.pushed == [e.pushed[0], e.pushed[1]]; }
  }

  lemma ClaimPassesOn(s: State, id: TxnId, e: Effect, r: RunId)
    requires Ready(s, id) && (ClaimStep(s, id, e) || CancelStep(s, id, e))
    ensures PassesOn(s.txns[id], e, r)
  {
    PushedPassOn(e, r);
  }

  lemma ExecutorPassesOn(s: State, id: TxnId, e: Effect, r: RunId)
    requires Ready(s, id) && (ExecutorStep(s, id, e) || EmitStep(s, id, e))
    ensures PassesOn(s.txns[id], e, r)
  {
    PushedPassOn(e, r);
  }

  /** The statements that bring up something new to say on `p`. */
  ghost predicate BringsUp(s: Stmt, p: RunId) {
    s == Tally(p) || (s.CloseParent? && s.run == p)
  }

  lemma RollsPassOn(s: State, id: TxnId, e: Effect, p: RunId)
    requires Ready(s, id) && (RollupStep(s, id, e) || CloseStep(s, id, e)) && !BringsUp(s.txns[id].todo[0], p)
    ensures PassesOn(s.txns[id], e, p)
  {
    PushedPassOn(e, p);
  }

  lemma StmtPassesOn(s: State, id: TxnId, e: Effect, r: RunId)
    requires Ready(s, id) && StmtStep(s, id, e) && !ReaperStep(s, id, e) && !Batch(s.db, r)
    ensures PassesOn(s.txns[id], e, r)
  {
    if ClaimStep(s, id, e) || CancelStep(s, id, e) {
      ClaimPassesOn(s, id, e, r);
    } else if ExecutorStep(s, id, e) || EmitStep(s, id, e) {
      ExecutorPassesOn(s, id, e, r);
    } else {
      RollsPassOn(s, id, e, r);
    }
  }

  /** The number that a new event takes is the one behind those listed. */
  lemma ListsOneMore(log: map<nat, Event>, own: map<nat, Event>, base: nat, told: seq<Event>, at: nat, event: Event)
    requires GaplessTo(log, base) && Lists(own, base, told) && at > 0 && IsTop(log + own, at - 1)
    ensures Lists(own[at := event], base, told + [event])
  {
    var n := base + |told|;
    assert n > 0 ==> n in log + own;
    assert at == n + 1;
  }

  lemma ScriptGoesOn(log: map<nat, Event>, own: map<nat, Event>, at: nat, event: Event, rest: seq<Event>, events: seq<Event>)
    requires OnScript(log, own, [event] + rest, events) && at > 0 && IsTop(log + own, at - 1)
    ensures OnScript(log, own[at := event], rest, events)
  {
    var base: nat, told :| Continues(log, own, [event] + rest, base, told, events);
    ListsOneMore(log, own, base, told, at, event);
    assert told + ([event] + rest) == told + [event] + rest;
    assert Continues(log, own[at := event], rest, base, told + [event], events);
  }

  /** A transaction that has logged nothing yet will log behind whatever others have committed by then. */
  lemma ScriptStarts(log: map<nat, Event>, now: map<nat, Event>, own: map<nat, Event>, rest: seq<Event>, events: seq<Event>)
    requires OnScript(log, own, rest, events) && own == map[] && Gapless(now)
    ensures OnScript(now, own, rest, events)
  {
    var base: nat, told :| Continues(log, own, rest, base, told, events);
    assert |told| > 0 ==> base + 1 in own;
    var n: nat :| GaplessTo(now, n);
    assert Continues(now, own, rest, n, told, events);
  }

  lemma LeftOver(first: seq<Event>, pushed: seq<Event>, later: seq<Event>)
    ensures (first + pushed) + later == first + (pushed + later) && (first == [] ==> first + (pushed + later) == pushed + later)
  {
  }

  lemma LeftToLog(t: Txn, e: Effect, r: RunId)
    requires t.todo != [] && !e.ends && PassesOn(t, e, r)
    ensures var left := ToLog(After(t, e).todo, r);
            ToLog(t.todo, r) == if e.event.Some? && e.event.value.run == r then [e.event.value.event] + left else left
  {
    var head, rest := t.todo[0], t.todo[1..];
    ToLogBoth(e.pushed, rest, r);
    var first := if e.event.Some? && e.event.value.run == r then [e.event.value.event] else [];
    LeftOver(first, ToLog(e.pushed, r), ToLog(rest, r));
    assert ToLog(t.todo, r) == Announces(head, r) + ToLog(rest, r);
  }

  lemma TellsAfter(db: Db, t: Txn, e: Effect, r: RunId, events: seq<Event>)
    requires t.todo != [] && !e.ends && Tells(db, t, r, events) && PassesOn(t, e, r) && TakesNextNumber(db, t, e)
    ensures Tells(db, After(t, e), r, events)
  {
    LeftToLog(t, e, r);
    var left := ToLog(After(t, e).todo, r);
    if e.event.Some? && e.event.value.run == r {
      ScriptGoesOn(LogOf(db, r), OwnLog(t, r), e.event.value.at, e.event.value.event, left, events);
    } else {
      assert OwnLog(After(t, e), r) == OwnLog(t, r);
    }
  }

  /** What an executor's transaction is like, whatever its job: its run is owned, and it neither claims nor reaps. */
  ghost predicate Executes(s: State, id: TxnId, r: RunId) {
    id in s.txns && r in s.db.owned && forall c :: c in s.txns[id].todo ==> Executing(c)
  }

  predicate Executing(c: Stmt) {
    !Claiming(c) && !c.ReapScan? && !c.Reap? && !c.ReapUpdate? && !c.ReconcileScan? && !c.Reconcile?
  }

  lemma JobExecutes(job: Job, s: State, id: TxnId)
    requires id in s.txns && OnJob(job, s.db, s.txns[id]) && HasRun(job)
    ensures Executes(s, id, job.run)
  {
  }

  lemma NoReaping(s: State, id: TxnId, e: Effect)
    requires Stepping(s, id, e) && Executing(s.txns[id].todo[0])
    ensures !ReaperStep(s, id, e) && !e.ends
  {
  }

  lemma ExecuteTells(s: State, id: TxnId, e: Effect, r: RunId, events: seq<Event>)
    requires Inv(s) && Stepping(s, id, e) && Executes(s, id, r) && Tells(s.db, s.txns[id], r, events)
    ensures Tells(s.db, After(s.txns[id], e), r, events)
  {
    var db, t := s.db, s.txns[id];
    assert TxnInv(db, t) && t.todo[0] in t.todo;
    assert Ready(s, id) by { assert StmtOk(db, t, t.todo[0]); }
    NoReaping(s, id, e);
    StmtPassesOn(s, id, e, r);
    EveryNumberIsNext(s, id, e);
    TellsAfter(db, t, e, r, events);
  }

  // Commits of others

  /** Another transaction's commit extends the log of `r` only if this one has logged nothing there yet. */
  lemma CommitOtherTells(db: Db, t: Txn, u: Txn, r: RunId, events: seq<Event>)
    requires TxnLogs(db, t) && Disjoint(t, u) && t.events.Keys <= t.logs && u.events.Keys <= u.logs
    requires Tells(db, u, r, events)
    ensures Tells(Committed(db, t), u, r, events)
  {
    CommittedLog(db, t, r);
    if r in u.events {
      assert LogView(db, t, r) == LogOf(db, r);
    } else {
      assert Gapless(LogView(db, t, r));
      ScriptStarts(LogOf(db, r), LogView(db, t, r), OwnLog(u, r), ToLog(u.todo, r), events);
    }
  }

  lemma StepTells(s: State, a: Action, s': State, id: TxnId, r: RunId, events: seq<Event>)
    requires Inv(s) && Step(s, a, s') && Executes(s, id, r) && id in s'.txns && Tells(s.db, s.txns[id], r, events)
    ensures Tells(s'.db, s'.txns[id], r, events)
  {
    if a.Execute? && a.id == id { ExecuteTells(s, id, a.effect, r, events); }
    if a.Commit? {
      assert TxnInv(s.db, s.txns[a.id]) && TxnInv(s.db, s.txns[id]);
      CommitOtherTells(s.db, s.txns[a.id], s.txns[id], r, events);
    }
  }

  // Whole transactions

  lemma {:induction false} EmitsToLog(r: RunId, events: seq<Event>)
    ensures ToLog(Emits(r, events), r) == events
  {
    if events == [] {
    } else {
      assert Emits(r, events)[1..] == Emits(r, events[1..]);
      EmitsToLog(r, events[1..]);
    }
  }

  lemma LogsBetween(first: Stmt, events: seq<Event>, last: Stmt, r: RunId)
    requires Announces(first, r) == [] && Announces(last, r) == []
    ensures ToLog([first] + Emits(r, events) + [last], r) == events
  {
    EmitsToLog(r, events);
    ToLogOne(first, r);
    ToLogOne(last, r);
    ToLogBoth([first], Emits(r, events), r);
    ToLogBoth([first] + Emits(r, events), [last], r);
  }

  lemma ProgramLogs(job: Job)
    requires HasRun(job)
    ensures ToLog(Program(job), job.run) == Script(job)
  {
    var r := job.run;
    match job {
      case EmitEvents(_, events) => EmitsToLog(r, events);
      case FinishRun(_, guard, events, status, metrics) =>
        LogsBetween(LockRun(r, guard), events, Finish(r, status, Some(metrics)), r);
      case StopRun(_) => ToLogOne(StopIfCancelled(r), r);
      case StartRun(_) => ToLogTwo(MarkRunning(r), Emit(r, StatusEvent(Running)), r);
      case ScriptStep(_, event) => ToLogTwo(LockRun(r, EXECUTING), Emit(r, event), r);
      case FailRun(_) => ToLogTwo(Emit(r, ErrorEvent(true)), Finish(r, Failed, None), r);
    }
  }

  lemma BegunTells(db: Db, job: Job)
    requires DbLogs(db) && HasRun(job)
    ensures Tells(db, Begun(job), job.run, Script(job))
  {
    ProgramLogs(job);
    assert Gapless(LogOf(db, job.run));
    var base: nat :| GaplessTo(LogOf(db, job.run), base);
    assert Continues(LogOf(db, job.run), map[], Script(job), base, [], Script(job));
  }

  lemma BeginTells(s: State, s': State, id: TxnId, job: Job)
    requires Inv(s) && Step(s, Begin(id, job), s') && HasRun(job)
    ensures id in s'.txns && OnJob(job, s'.db, s'.txns[id]) && Tells(s'.db, s'.txns[id], job.run, Script(job))
  {
    BegunOnJob(s.db, job);
    BegunTells(s.db, job);
  }

  ghost predicate ExecutesFor(b: seq<State>, i: nat, j: nat, id: TxnId, r: RunId) {
    i <= j < |b| && forall k :: i <= k <= j ==> Executes(b[k], id, r)
  }

  lemma StaysExecutor(b: seq<State>, i: nat, j: nat, id: TxnId, job: Job)
    requires Behavior(b) && InFlight(b, i, j, id) && OnJob(job, b[i].db, b[i].txns[id]) && HasRun(job)
    ensures ExecutesFor(b, i, j, id, job.run)
  {
    forall k | i <= k <= j ensures Executes(b[k], id, job.run) {
      StaysOnJob(b, i, k, id, job);
      JobExecutes(job, b[k], id);
    }
  }

  lemma NextTells(b: seq<State>, j: nat, id: TxnId, r: RunId, events: seq<Event>)
    requires Behavior(b) && 0 < j < |b| && Executes(b[j - 1], id, r) && id in b[j].txns
    requires Tells(b[j - 1].db, b[j - 1].txns[id], r, events)
    ensures Tells(b[j].db, b[j].txns[id], r, events)
  {
    Reachable(b, j - 1);
    assert Moves(b, j - 1);
    var a :| Step(b[j - 1], a, b[j]);
    StepTells(b[j - 1], a, b[j], id, r, events);
  }

  lemma {:induction false} KeepsTelling(b: seq<State>, i: nat, j: nat, id: TxnId, r: RunId, events: seq<Event>)
    requires Behavior(b) && ExecutesFor(b, i, j, id, r) && Tells(b[i].db, b[i].txns[id], r, events)
    ensures Tells(b[j].db, b[j].txns[id], r, events)
    decreases j
  {
    if i == j {
    } else {
      KeepsTelling(b, i, j - 1, id, r, events);
      NextTells(b, j, id, r, events);
    }
  }

  /** `now` is `log`, numbered from 1 without a gap, followed by `events`, in order. */
  ghost predicate Appends(log: map<nat, Event>, now: map<nat, Event>, events: seq<Event>) {
    exists n: nat ::
      && GaplessTo(log, n) && GaplessTo(now, n + |events|) && Extends(log, now)
      && forall i :: 0 <= i < |events| ==> now[n + 1 + i] == events[i]
  }

  /**
   The commit of an executor's transaction adds exactly the events of its job to the run's log, in order and in one
   piece, however many transactions of others logged on the run while it was under way.
   */
  lemma JobIsLogged(b: seq<State>, i: nat, j: nat, id: TxnId, job: Job)
    requires Behavior(b) && j + 1 < |b| && Runs(b, i, j, id, job) && Step(b[j], Commit(id), b[j + 1]) && HasRun(job)
    ensures Appends(LogOf(b[j].db, job.run), LogOf(b[j + 1].db, job.run), Script(job))
  {
    Reachable(b, i - 1);
    BeginTells(b[i - 1], b[i], id, job);
    StaysExecutor(b, i, j, id, job);
    KeepsTelling(b, i, j, id, job.run, Script(job));
    CommittedTells(b[j].db, b[j].txns[id], job.run, Script(job));
  }

  lemma ScriptEnds(log: map<nat, Event>, own: map<nat, Event>, events: seq<Event>)
    requires OnScript(log, own, [], events)
    ensures Appends(log, log + own, events)
  {
    var base: nat, told :| Continues(log, own, [], base, told, events);
    assert told == events && GaplessTo(log + own, base + |events|);
    forall k | 0 <= k < |events| ensures (log + own)[base + 1 + k] == events[k] {
      assert base + 1 + k in own;
    }
  }

  lemma CommittedTells(db: Db, t: Txn, r: RunId, events: seq<Event>)
    requires t.todo == [] && Tells(db, t, r, events)
    ensures Appends(LogOf(db, r), LogOf(Committed(db, t), r), events)
  {
    CommittedLog(db, t, r);
    ScriptEnds(LogOf(db, r), OwnLog(t, r), events);
  }
}
