/** What a committed transaction has done to the rows, job by job, whatever ran between its statements. */
module JobEffects {
  import opened RunTypes
  import opened Transactions
  import opened Discipline
  import opened Protocol

  /** The row of `r`, as it was committed before, and as this job leaves it. */
  ghost predicate Rewrites(job: Job, r: RunId, was: Run, row: Run) {
    match job
    case ClaimAttempt(_) => was.status == Queued && row == was.(status := Claimed)
    case StartRun(q) => r == q && row == was.(status := Running)
    case FinishRun(q, guard, _, status, metrics) =>
      r == q && was.status in guard && row == was.(status := status, metrics := metrics)
    case FailRun(q) => r == q && row == was.(status := Failed)
    case StopRun(q) => r == q && was.status == Cancelled && row == was.(metrics := NO_METRICS)
    case CancelRun(q) =>
      (r == q || was.parent == Some(q)) && was.status in {Queued, Claimed, Running} && row == was.(status := Cancelled)
    case ReapStale => was.status in {Claimed, Running} && row == was.(status := Failed)
    case _ => false
  }

  /** A row that the transaction has written: a new one of the job's, a batch that it closed, or a row as the job rewrites it. */
  ghost predicate WroteFor(job: Job, db: Db, r: RunId, row: Run) {
    if job.CreateRuns? then r !in db.runs && r in job.rows && row == job.rows[r]
    else r in db.runs && (Batch(db, r) || Rewrites(job, r, db.runs[r], row))
  }

  ghost predicate Concludes(job: Job, r: RunId, status: Status, metrics: Option<Metrics>) {
    || (job.FinishRun? && job.run == r && job.status == status && metrics == Some(job.metrics))
    || (job == FailRun(r) && status == Failed && metrics == None)
    || (job == CancelRun(r) && status == Cancelled && metrics == None)
  }

  /** A statement that a transaction of this job may have left to run. */
  ghost predicate PartOf(job: Job, s: Stmt) {
    match s
    case InsertRuns(rows) => job == CreateRuns(rows)
    case TryLockAgent(_) => job.ClaimAttempt?
    case CheckCapacity(_) => job.ClaimAttempt?
    case ClaimOldest(_) => job.ClaimAttempt?
    case StopIfCancelled(r) => job == StopRun(r)
    case PartialMetrics(r) => job == StopRun(r)
    case MarkRunning(r) => job == StartRun(r)
    case Finish(r, status, metrics) => Concludes(job, r, status, metrics)
    case BranchOnChildren(r) => job == CancelRun(r)
    case CascadeScan(r) => job == CancelRun(r)
    case Cascade(r, _) => job == CancelRun(r)
    case ReapScan => job == ReapStale
    case Reap(_) => job == ReapStale
    case ReapUpdate(_) => job == ReapStale
    case ReconcileScan => job == ReconcileParents
    case Reconcile(_) => job == ReconcileParents
    case _ => !job.CreateRuns?
  }

  ghost predicate HasGuard(job: Job, r: RunId, guard: set<Status>) {
    || (job.FinishRun? && job.run == r && job.guard == guard)
    || (job == CancelRun(r) && guard == CANCELLABLE)
  }

  /** The guard is still to be passed, or has been passed by the row, which has been held since. */
  ghost predicate Guarded(job: Job, db: Db, t: Txn) {
    forall r, guard :: HasGuard(job, r, guard) ==>
                         || (t.todo != [] && t.todo[0] == LockRun(r, guard) && t.writes == map[])
                         || (r in t.rows && r in db.runs && db.runs[r].status in guard)
  }

  /** Every child of `p` is still to be cancelled, or has ended; `resurrected` ones may have come back since. */
  ghost predicate Cascades(db: Db, t: Txn, p: RunId) {
    forall c :: IsChild(db.runs, c, p) ==>
                  || (exists cs :: Cascade(p, cs) in t.todo && c in cs)
                  || c in t.writes || Terminal(db.runs[c].status) || c in db.resurrected
  }

  /** What the job is there for is still to come, or done. */
  ghost predicate Due(job: Job, db: Db, t: Txn) {
    match job
    case CreateRuns(rows) => InsertRuns(rows) in t.todo || rows.Keys <= t.writes.Keys
    case StartRun(r) => MarkRunning(r) in t.todo || r in t.writes
    case FinishRun(r, _, _, status, metrics) => Finish(r, status, Some(metrics)) in t.todo || r in t.writes
    case FailRun(r) => Finish(r, Failed, None) in t.todo || r in t.writes
    case StopRun(r) => StopIfCancelled(r) in t.todo || PartialMetrics(r) in t.todo || r in t.writes
    case CancelRun(r) =>
      || BranchOnChildren(r) in t.todo
      || if Batch(db, r) then CascadeScan(r) in t.todo || Cascades(db, t, r) else Finish(r, Cancelled, None) in t.todo || r in t.writes
    case _ => true
  }

  ghost predicate OnJob(job: Job, db: Db, t: Txn) {
    && (forall s :: s in t.todo ==> PartOf(job, s))
    && (forall r :: r in t.writes ==> WroteFor(job, db, r, t.writes[r]))
    && Guarded(job, db, t) && Due(job, db, t) && JobAllowed(db, job)
  }

  lemma BegunOnJob(db: Db, job: Job)
    requires JobAllowed(db, job)
    ensures OnJob(job, db, Begun(job))
  {
    ProgramParts(job);
    ProgramDue(job);
  }

  lemma ProgramParts(job: Job)
    ensures forall s :: s in Program(job) ==> PartOf(job, s)
  {
  }

  lemma ProgramDue(job: Job)
    ensures match job
            case CreateRuns(rows) => InsertRuns(rows) in Program(job)
            case StartRun(r) => MarkRunning(r) in Program(job)
            case FinishRun(r, guard, _, status, metrics) =>
              Program(job)[0] == LockRun(r, guard) && Finish(r, status, Some(metrics)) in Program(job)
            case FailRun(r) => Finish(r, Failed, None) in Program(job)
            case StopRun(r) => StopIfCancelled(r) in Program(job)
            case CancelRun(r) => Program(job)[0] == LockRun(r, CANCELLABLE) && BranchOnChildren(r) in Program(job)
            case _ => true
  {
    var todo := Program(job);
    if todo != [] {
      assert todo[0] in todo && todo[|todo| - 1] in todo;
    }
  }

  // One statement

  /** What the statement at the head has done of its part. */
  ghost predicate Did(db: Db, t: Txn, e: Effect)
    requires t.todo != []
  {
    match t.todo[0]
    case InsertRuns(rows) => e.inserts == rows && e.write.None?
    case LockRun(r, guard) => r in e.rows && r in View(db, t) && View(db, t)[r].status in guard
    case MarkRunning(r) => e.write.Some? && e.write.value.run == r
    case Finish(r, _, _) => e.write.Some? && e.write.value.run == r
    case StopIfCancelled(r) => PartialMetrics(r) in e.pushed
    case PartialMetrics(r) => e.write.Some? && e.write.value.run == r
    case BranchOnChildren(r) => if HasChild(View(db, t), r) then CascadeScan(r) in e.pushed else Finish(r, Cancelled, None) in e.pushed
    case CascadeScan(p) =>
      exists order :: Cascade(p, order) in e.pushed && forall c :: IsChild(View(db, t), c, p) && Live(View(db, t)[c].status) ==> c in order
    case Cascade(p, cs) =>
      cs != [] ==> && cs[0] in View(db, t) && Cascade(p, cs[1..]) in e.pushed
                   && ((e.write.Some? && e.write.value.run == cs[0]) || !Live(View(db, t)[cs[0]].status))
    case _ => true
  }

  /** What the statement at the head pushes and writes is part of the job. */
  ghost predicate Advances(job: Job, db: Db, t: Txn, e: Effect)
    requires t.todo != []
  {
    && (forall s :: s in e.pushed ==> PartOf(job, s)) && Did(db, t, e) && (e.ends ==> job.ClaimAttempt?)
    && (forall r :: r in e.inserts ==> WroteFor(job, db, r, e.inserts[r]))
    && (e.write.Some? ==> WroteFor(job, db, e.write.value.run, e.write.value.row))
  }

  ghost predicate Doing(job: Job, s: State, id: TxnId) {
    Ready(s, id) && RowsOk(s.db, s.txns[id]) && OnJob(job, s.db, s.txns[id]) && PartOf(job, s.txns[id].todo[0])
  }

  ghost predicate Heads(job: Job, s: State, id: TxnId) {
    Ready(s, id) && PartOf(job, s.txns[id].todo[0])
  }

  lemma ClaimAdvances(job: Job, s: State, id: TxnId, e: Effect)
    requires Heads(job, s, id) && ClaimStep(s, id, e)
    ensures Advances(job, s.db, s.txns[id], e)
  {
  }

  lemma LockAdvances(job: Job, s: State, id: TxnId, e: Effect)
    requires Heads(job, s, id) && ExecutorStep(s, id, e) && (s.txns[id].todo[0].LockRun? || s.txns[id].todo[0].StopIfCancelled?)
    ensures Advances(job, s.db, s.txns[id], e)
  {
    if s.txns[id].todo[0].StopIfCancelled? { assert e.pushed[1] in e.pushed; }
  }

  lemma MarkAdvances(job: Job, s: State, id: TxnId, e: Effect)
    requires Heads(job, s, id) && ExecutorStep(s, id, e) && (s.txns[id].todo[0].MarkRunning? || s.txns[id].todo[0].PartialMetrics?)
    requires DbShape(s.db)
    requires var t := s.txns[id]; t.todo[0].run in t.writes ==> WroteFor(job, s.db, t.todo[0].run, t.writes[t.todo[0].run])
    ensures Advances(job, s.db, s.txns[id], e)
  {
  }

  lemma FinishAdvances(job: Job, s: State, id: TxnId, e: Effect)
    requires Heads(job, s, id) && ExecutorStep(s, id, e) && s.txns[id].todo[0].Finish?
    requires var t := s.txns[id]; t.todo[0].run in t.writes ==> WroteFor(job, s.db, t.todo[0].run, t.writes[t.todo[0].run])
    requires forall guard :: HasGuard(job, s.txns[id].todo[0].run, guard) ==> s.db.runs[s.txns[id].todo[0].run].status in guard
    ensures Advances(job, s.db, s.txns[id], e)
  {
    var r := s.txns[id].todo[0].run;
    if job.FinishRun? { assert HasGuard(job, r, job.guard); }
    if job.CancelRun? { assert HasGuard(job, r, CANCELLABLE); }
  }

  lemma ExecutorAdvances(job: Job, s: State, id: TxnId, e: Effect)
    requires Doing(job, s, id) && ExecutorStep(s, id, e)
    ensures Advances(job, s.db, s.txns[id], e)
  {
    match s.txns[id].todo[0] {
      case Finish(_, _, _) => FinishAdvances(job, s, id, e);
      case MarkRunning(_) => MarkAdvances(job, s, id, e);
      case PartialMetrics(_) => MarkAdvances(job, s, id, e);
      case _ => LockAdvances(job, s, id, e);
    }
  }

  lemma EmitAdvances(job: Job, s: State, id: TxnId, e: Effect)
    requires Heads(job, s, id) && EmitStep(s, id, e)
    ensures Advances(job, s.db, s.txns[id], e)
  {
  }

  lemma RollupAdvances(job: Job, s: State, id: TxnId, e: Effect)
    requires Heads(job, s, id) && RollupStep(s, id, e)
    ensures Advances(job, s.db, s.txns[id], e)
  {
    var head := s.txns[id].todo[0];
    if head.Tally? { TallyAdvances(job, s, id, e); }
  }

  lemma TallyAdvances(job: Job, s: State, id: TxnId, e: Effect)
    requires Heads(job, s, id) && RollupStep(s, id, e) && s.txns[id].todo[0].Tally?
    ensures Advances(job, s.db, s.txns[id], e)
  {
    TallyPushes(s.txns[id].todo[0].run, ChildRows(View(s.db, s.txns[id]), s.txns[id].todo[0].run));
  }

  lemma CloseAdvances(job: Job, s: State, id: TxnId, e: Effect)
    requires Heads(job, s, id) && CloseStep(s, id, e)
    ensures Advances(job, s.db, s.txns[id], e)
  {
  }

  lemma BranchAdvances(job: Job, s: State, id: TxnId, e: Effect)
    requires Heads(job, s, id) && CancelStep(s, id, e) && !s.txns[id].todo[0].Cascade?
    ensures Advances(job, s.db, s.txns[id], e)
  {
    assert e.pushed[0] in e.pushed;
  }

  lemma CascadeAdvances(job: Job, s: State, id: TxnId, e: Effect)
    requires Heads(job, s, id) && CancelStep(s, id, e) && s.txns[id].todo[0].Cascade? && DbShape(s.db)
    requires forall r :: r in s.txns[id].writes ==> WroteFor(job, s.db, r, s.txns[id].writes[r])
    ensures Advances(job, s.db, s.txns[id], e)
  {
    var t := s.txns[id];
    assert e.pushed[0] in e.pushed;
    if t.todo[0].children != [] {
      var c := t.todo[0].children[0];
      assert c in t.todo[0].children;
      if c in t.writes { assert WroteFor(job, s.db, c, t.writes[c]); }
      ChildIsNoParent(s.db, c);
    }
  }

  lemma ReapWriteAdvances(job: Job, db: Db, t: Txn, stale: seq<RunId>, e: Effect)
    requires t.todo != [] && t.todo[0] == ReapUpdate(stale) && job == ReapStale
    requires StillStale(db, t, stale) && ReapsFirst(db, t, stale, e)
    ensures Advances(job, db, t, e)
  {
    assert stale[0] in stale;
  }

  lemma ReaperAdvances(job: Job, s: State, id: TxnId, e: Effect)
    requires Heads(job, s, id) && ReaperStep(s, id, e)
    ensures Advances(job, s.db, s.txns[id], e)
  {
    var head := s.txns[id].todo[0];
    if head.ReapUpdate? { ReapWriteAdvances(job, s.db, s.txns[id], head.stale, e); }
  }

  lemma StmtAdvances(job: Job, s: State, id: TxnId, e: Effect)
    requires Doing(job, s, id) && StmtStep(s, id, e)
    ensures Advances(job, s.db, s.txns[id], e)
  {
    if ClaimStep(s, id, e) {
      ClaimAdvances(job, s, id, e);
    } else if ExecutorStep(s, id, e) {
      ExecutorAdvances(job, s, id, e);
    } else if EmitStep(s, id, e) {
      EmitAdvances(job, s, id, e);
    } else if RollupStep(s, id, e) {
      RollupAdvances(job, s, id, e);
    } else if CloseStep(s, id, e) {
      CloseAdvances(job, s, id, e);
    } else if CancelStep(s, id, e) {
      if s.txns[id].todo[0].Cascade? { CascadeAdvances(job, s, id, e); } else { BranchAdvances(job, s, id, e); }
    } else {
      ReaperAdvances(job, s, id, e);
    }
  }

  lemma GuardAfter(job: Job, db: Db, t: Txn, e: Effect)
    requires t.todo != [] && OnJob(job, db, t) && Advances(job, db, t, e)
    ensures Guarded(job, db, After(t, e))
  {
    var t' := After(t, e);
    forall r, guard | HasGuard(job, r, guard) ensures r in t'.rows && r in db.runs && db.runs[r].status in guard {
      if t.todo[0] == LockRun(r, guard) && t.writes == map[] { assert View(db, t) == db.runs; }
    }
  }

  lemma WritesAfter(job: Job, db: Db, t: Txn, e: Effect)
    requires t.todo != [] && OnJob(job, db, t) && Advances(job, db, t, e)
    ensures var t' := After(t, e);
            (forall s :: s in t'.todo ==> PartOf(job, s)) && forall r :: r in t'.writes ==> WroteFor(job, db, r, t'.writes[r])
  {
    assert forall s :: s in t.todo[1..] ==> s in t.todo;
  }

  /** A statement other than the one at the head is still to run. */
  lemma StillToRun(t: Txn, e: Effect, s: Stmt)
    requires t.todo != [] && s in t.todo && !e.ends
    ensures s == t.todo[0] || s in After(t, e).todo
  {
    var i :| 0 <= i < |t.todo| && t.todo[i] == s;
    if i > 0 { assert t.todo[1..][i - 1] == s; }
  }

  lemma PushedToRun(t: Txn, e: Effect, s: Stmt)
    requires t.todo != [] && s in e.pushed && !e.ends
    ensures s in After(t, e).todo
  {
  }

  lemma CascadesAfter(db: Db, t: Txn, e: Effect, p: RunId)
    requires t.todo != [] && !e.ends && Did(db, t, e) && Cascades(db, t, p)
    ensures Cascades(db, After(t, e), p)
  {
    var t' := After(t, e);
    forall c | IsChild(db.runs, c, p)
      ensures (exists cs :: Cascade(p, cs) in t'.todo && c in cs) || c in t'.writes || Terminal(db.runs[c].status) || c in db.resurrected
    {
      if cs :| Cascade(p, cs) in t.todo && c in cs {
        StillToRun(t, e, Cascade(p, cs));
        if t.todo[0] == Cascade(p, cs) {
          PushedToRun(t, e, Cascade(p, cs[1..]));
          assert c == cs[0] || c in cs[1..];
        }
      }
    }
  }

  lemma CascadeScanned(db: Db, t: Txn, e: Effect, p: RunId)
    requires t.todo != [] && !e.ends && Did(db, t, e) && t.todo[0] == CascadeScan(p) && DbShape(db) && p in db.runs
    requires forall r :: r in t.writes ==> RowOk(db, t, r)
    ensures Cascades(db, After(t, e), p)
  {
    var t' := After(t, e);
    var order :| Cascade(p, order) in e.pushed && forall c :: IsChild(View(db, t), c, p) && Live(View(db, t)[c].status) ==> c in order;
    PushedToRun(t, e, Cascade(p, order));
    SameFamilies(db, t, p);
    forall c | IsChild(db.runs, c, p)
      ensures (exists cs :: Cascade(p, cs) in t'.todo && c in cs) || c in t'.writes || Terminal(db.runs[c].status) || c in db.resurrected
    {
      assert IsChild(View(db, t), c, p);
    }
  }

  lemma CancelAfter(job: Job, db: Db, t: Txn, e: Effect)
    requires t.todo != [] && OnJob(job, db, t) && Advances(job, db, t, e) && job.CancelRun? && RowsOk(db, t)
    ensures Due(job, db, After(t, e))
  {
    var r := job.run;
    SameFamilies(db, t, r);
    if BranchOnChildren(r) in t.todo {
      StillToRun(t, e, BranchOnChildren(r));
      if t.todo[0] == BranchOnChildren(r) {
        PushedToRun(t, e, if HasChild(View(db, t), r) then CascadeScan(r) else Finish(r, Cancelled, None));
      }
    } else if !Batch(db, r) {
      if Finish(r, Cancelled, None) in t.todo { StillToRun(t, e, Finish(r, Cancelled, None)); }
    } else if CascadeScan(r) in t.todo {
      StillToRun(t, e, CascadeScan(r));
      if t.todo[0] == CascadeScan(r) { CascadeScanned(db, t, e, r); }
    } else {
      CascadesAfter(db, t, e, r);
    }
  }

  lemma DueAfter(job: Job, db: Db, t: Txn, e: Effect)
    requires t.todo != [] && OnJob(job, db, t) && Advances(job, db, t, e) && RowsOk(db, t)
    ensures Due(job, db, After(t, e))
  {
    match job {
      case CreateRuns(rows) => if InsertRuns(rows) in t.todo { StillToRun(t, e, InsertRuns(rows)); }
      case StartRun(r) => if MarkRunning(r) in t.todo { StillToRun(t, e, MarkRunning(r)); }
      case FinishRun(r, _, _, st, m) => if Finish(r, st, Some(m)) in t.todo { StillToRun(t, e, Finish(r, st, Some(m))); }
      case FailRun(r) => if Finish(r, Failed, None) in t.todo { StillToRun(t, e, Finish(r, Failed, None)); }
      case StopRun(r) => StopAfter(job, db, t, e);
      case CancelRun(r) => CancelAfter(job, db, t, e);
      case _ =>
    }
  }

  lemma StopAfter(job: Job, db: Db, t: Txn, e: Effect)
    requires t.todo != [] && OnJob(job, db, t) && Advances(job, db, t, e) && job.StopRun?
    ensures Due(job, db, After(t, e))
  {
    var r := job.run;
    if StopIfCancelled(r) in t.todo {
      StillToRun(t, e, StopIfCancelled(r));
      if t.todo[0] == StopIfCancelled(r) { PushedToRun(t, e, PartialMetrics(r)); }
    } else if PartialMetrics(r) in t.todo {
      StillToRun(t, e, PartialMetrics(r));
    }
  }

  lemma JobAfter(job: Job, s: State, id: TxnId, e: Effect)
    requires Inv(s) && Stepping(s, id, e) && OnJob(job, s.db, s.txns[id])
    ensures OnJob(job, s.db, After(s.txns[id], e))
  {
    var db, t := s.db, s.txns[id];
    assert TxnInv(db, t) && t.todo[0] in t.todo;
    assert Doing(job, s, id) by { assert StmtOk(db, t, t.todo[0]); }
    StmtAdvances(job, s, id, e);
    GuardAfter(job, db, t, e);
    WritesAfter(job, db, t, e);
    DueAfter(job, db, t, e);
  }

  // Commits of others

  lemma CommitOtherDue(job: Job, db: Db, t: Txn, u: Txn)
    requires DbShape(db) && TxnShape(db, t) && TxnShape(db, u) && Disjoint(t, u) && OnJob(job, db, u)
    ensures Due(job, Committed(db, t), u)
  {
    if job.CancelRun? {
      var p, db' := job.run, Committed(db, t);
      CommitKeeps(db, t, p);
      if Cascades(db, u, p) {
        forall c | IsChild(db'.runs, c, p)
          ensures (exists cs :: Cascade(p, cs) in u.todo && c in cs) || c in u.writes || Terminal(db'.runs[c].status) || c in db'.resurrected
        {
          assert IsChild(db.runs, c, p);
        }
      }
    }
  }

  lemma CommitOtherOnJob(job: Job, db: Db, t: Txn, u: Txn)
    requires DbShape(db) && TxnShape(db, t) && TxnShape(db, u) && Disjoint(t, u) && OnJob(job, db, u)
    ensures OnJob(job, Committed(db, t), u)
  {
    CommitOtherDue(job, db, t, u);
    forall r | r in u.writes ensures WroteFor(job, Committed(db, t), r, u.writes[r]) {
      if r in db.runs {
        CommitKeeps(db, t, r);
        CommitView(db, t, u, r);
      }
    }
    forall r, guard | HasGuard(job, r, guard)
      ensures || (u.todo != [] && u.todo[0] == LockRun(r, guard) && u.writes == map[])
              || (r in u.rows && r in Committed(db, t).runs && Committed(db, t).runs[r].status in guard)
    {
      if r in db.runs && r in u.rows { CommitView(db, t, u, r); }
    }
  }

  lemma StepOnJob(job: Job, s: State, a: Action, s': State, id: TxnId)
    requires Inv(s) && Step(s, a, s') && id in s.txns && id in s'.txns && OnJob(job, s.db, s.txns[id])
    ensures OnJob(job, s'.db, s'.txns[id])
  {
    if a.Execute? && a.id == id { JobAfter(job, s, id, a.effect); }
    if a.Commit? {
      assert TxnInv(s.db, s.txns[a.id]) && TxnInv(s.db, s.txns[id]);
      CommitOtherOnJob(job, s.db, s.txns[a.id], s.txns[id]);
    }
  }

  // Whole transactions

  ghost predicate InFlight(b: seq<State>, i: nat, j: nat, id: TxnId) {
    i <= j < |b| && forall k :: i <= k <= j ==> id in b[k].txns
  }

  /** Transaction `id` begins for `job` at moment `i` and has not ended at moment `j`. */
  ghost predicate Runs(b: seq<State>, i: nat, j: nat, id: TxnId, job: Job) {
    0 < i && InFlight(b, i, j, id) && Step(b[i - 1], Begin(id, job), b[i])
  }

  lemma NextOnJob(b: seq<State>, j: nat, id: TxnId, job: Job)
    requires Behavior(b) && 0 < j < |b| && id in b[j - 1].txns && id in b[j].txns && OnJob(job, b[j - 1].db, b[j - 1].txns[id])
    ensures OnJob(job, b[j].db, b[j].txns[id])
  {
    Reachable(b, j - 1);
    assert Moves(b, j - 1);
    var a :| Step(b[j - 1], a, b[j]);
    StepOnJob(job, b[j - 1], a, b[j], id);
  }

  lemma {:induction false} StaysOnJob(b: seq<State>, i: nat, j: nat, id: TxnId, job: Job)
    requires Behavior(b) && InFlight(b, i, j, id) && OnJob(job, b[i].db, b[i].txns[id])
    ensures OnJob(job, b[j].db, b[j].txns[id])
    decreases j
  {
    if i == j {
    } else {
      StaysOnJob(b, i, j - 1, id, job);
      NextOnJob(b, j, id, job);
    }
  }

  /** The row of `r` is rewritten as the job says. */
  ghost predicate Rewritten(job: Job, db: Db, now: Db, r: RunId) {
    r in db.runs && r in now.runs && Rewrites(job, r, db.runs[r], now.runs[r])
  }

  /** The job has done to its run, or its runs, what it is there for. */
  ghost predicate Achieved(job: Job, db: Db, now: Db) {
    match job
    case CreateRuns(rows) => forall r :: r in rows ==> r !in db.runs && r in now.runs && now.runs[r] == rows[r]
    case StartRun(r) => Rewritten(job, db, now, r)
    case FinishRun(r, _, _, _, _) => Rewritten(job, db, now, r)
    case FailRun(r) => Rewritten(job, db, now, r)
    case StopRun(r) => Rewritten(job, db, now, r)
    case CancelRun(r) =>
      && r in db.runs && db.runs[r].status in {Queued, Claimed, Running}
      && if HasChild(db.runs, r) then ChildrenEnded(now, r) else Rewritten(job, db, now, r)
    case _ => true
  }

  /** Every child of `p` has ended, or has come back from its end; if all have ended, so has `p`. */
  ghost predicate ChildrenEnded(now: Db, p: RunId) {
    && (forall c :: IsChild(now.runs, c, p) ==> Terminal(now.runs[c].status) || c in now.resurrected)
    && ((forall c :: IsChild(now.runs, c, p) ==> Terminal(now.runs[c].status)) ==> p in now.runs && Terminal(now.runs[p].status))
  }

  /**
   What the commit of a job's transaction changes: new rows as the job has them, batches that it closes,
   and rows that it rewrites in its one way. No other row changes, and the job's own run is among them.
   */
  lemma JobIsDone(b: seq<State>, i: nat, j: nat, id: TxnId, job: Job)
    requires Behavior(b) && j + 1 < |b| && Runs(b, i, j, id, job) && Step(b[j], Commit(id), b[j + 1])
    ensures ChangesNoMore(job, b[j].db, b[j + 1].db) && Achieved(job, b[j].db, b[j + 1].db)
  {
    BegunOnJob(b[i].db, job);
    StaysOnJob(b, i, j, id, job);
    CommitShapes(b, j, id);
    CommittedRows(job, b[j].db, b[j].txns[id]);
    CommittedJob(job, b[j].db, b[j].txns[id]);
  }

  lemma CommitShapes(b: seq<State>, j: nat, id: TxnId)
    requires Behavior(b) && j + 1 < |b| && Step(b[j], Commit(id), b[j + 1])
    ensures id in b[j].txns && b[j].txns[id].todo == [] && b[j + 1].db == Committed(b[j].db, b[j].txns[id])
    ensures DbShape(b[j].db) && TxnShape(b[j].db, b[j].txns[id]) && NoOrphans(b[j + 1].db.runs)
  {
    Reachable(b, j);
    NoLostRollup(b, j + 1);
    assert TxnInv(b[j].db, b[j].txns[id]);
  }

  /** Every row is as it was, or as the job leaves it; none is gone. */
  ghost predicate ChangesNoMore(job: Job, db: Db, now: Db) {
    && (forall r :: r in db.runs ==> r in now.runs)
    && forall r :: r in now.runs ==> (r in db.runs && now.runs[r] == db.runs[r]) || WroteFor(job, db, r, now.runs[r])
  }

  lemma CommittedRows(job: Job, db: Db, t: Txn)
    requires OnJob(job, db, t)
    ensures ChangesNoMore(job, db, Committed(db, t))
  {
  }

  lemma CommittedJob(job: Job, db: Db, t: Txn)
    requires DbShape(db) && TxnShape(db, t) && t.todo == [] && OnJob(job, db, t) && NoOrphans(Committed(db, t).runs)
    ensures Achieved(job, db, Committed(db, t))
  {
    var now := Committed(db, t);
    match job {
      case CreateRuns(rows) =>
        forall r | r in rows ensures r !in db.runs && r in now.runs && now.runs[r] == rows[r] { assert WroteFor(job, db, r, t.writes[r]); }
      case StartRun(r) => OwnRow(job, db, t, r);
      case FinishRun(r, _, _, _, _) => OwnRow(job, db, t, r);
      case FailRun(r) => OwnRow(job, db, t, r);
      case StopRun(r) => OwnRow(job, db, t, r);
      case CancelRun(r) => if Batch(db, r) { CommittedCascade(job, db, t); } else { OwnRow(job, db, t, r); }
      case _ =>
    }
  }

  lemma OwnRow(job: Job, db: Db, t: Txn, r: RunId)
    requires DbShape(db) && r in db.runs && !Batch(db, r) && !job.CreateRuns?
    requires r in t.writes && WroteFor(job, db, r, t.writes[r])
    ensures Rewritten(job, db, Committed(db, t), r)
  {
  }

  lemma CommittedCascade(job: Job, db: Db, t: Txn)
    requires DbShape(db) && TxnShape(db, t) && t.todo == [] && OnJob(job, db, t) && NoOrphans(Committed(db, t).runs)
    requires job.CancelRun? && Batch(db, job.run)
    ensures Achieved(job, db, Committed(db, t))
  {
    var p, now := job.run, Committed(db, t);
    CommitKeeps(db, t, p);
    assert HasGuard(job, p, CANCELLABLE);
    forall c | IsChild(now.runs, c, p) ensures Terminal(now.runs[c].status) || c in now.resurrected {
      ChildIsNoParent(db, c);
      assert c in t.writes ==> WroteFor(job, db, c, t.writes[c]);
    }
    assert HasChild(now.runs, p);
  }
}
