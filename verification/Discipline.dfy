/**
 What every in-flight transaction looks like, whatever the interleaving: which rows it may have
 written, which locks cover them, and what the statements still to run can rely on.
 */
module Discipline {
  import opened RunTypes
  import opened Transactions

  /** No batch parent is left open once all its children are terminal. */
  ghost predicate NoOrphans(m: map<RunId, Run>) {
    forall p :: p in m && HasChild(m, p) && Live(m[p].status) ==> HasLiveChild(m, p)
  }

  ghost predicate DbShape(db: Db) {
    && (forall r :: r in db.runs && db.runs[r].parent.Some? ==>
                      db.runs[r].parent.value in db.runs && db.runs[db.runs[r].parent.value].parent == None)
    && (forall p :: p in db.runs && HasChild(db.runs, p) ==> db.runs[p].status in {Queued, Completed, Cancelled})
    && (forall r :: r in db.owned ==> r in db.runs && db.runs[r].status != Queued && !HasChild(db.runs, r))
  }

  /** Rolling a child's end up into its parent, after the child's row has been written. */
  predicate Rolling(s: Stmt) {
    s.RollUp? || s.LockParent? || s.Tally? || s.CloseParent? || s.BadgeParent?
  }

  /** Statements that only ever stand last in a program. */
  predicate EndsProgram(s: Stmt) {
    || s.InsertRuns? || s.StopIfCancelled? || s.PartialMetrics? || s.Finish? || s.BranchOnChildren? || s.CascadeScan? || s.Cascade?
    || s.ReapScan? || s.Reap? || s.ReapUpdate? || s.ReconcileScan? || s.Reconcile?
  }

  predicate Claiming(s: Stmt) {
    s.TryLockAgent? || s.CheckCapacity? || s.ClaimOldest?
  }

  predicate Logging(s: Stmt) {
    s.Emit? || s.InsertEvent?
  }

  /** Statements that mean the rows this transaction ends are already locked. */
  predicate Settling(s: Stmt) {
    Rolling(s) || s.Reap? || s.ReapUpdate?
  }

  /** All that can be left to run once a transaction has started to settle. */
  predicate Late(s: Stmt) {
    Settling(s) || Logging(s)
  }

  ghost predicate Batch(db: Db, p: RunId) {
    p in db.runs && HasChild(db.runs, p)
  }

  ghost predicate StillStale(db: Db, t: Txn, stale: seq<RunId>) {
    && Distinct(stale)
    && forall r :: r in stale ==> r in db.runs && r in t.rows && r !in t.writes && Occupies(db.runs[r].status)
  }

  ghost predicate Unclosed(db: Db, t: Txn, p: RunId) {
    Batch(db, p) && p in t.rows && View(db, t)[p].status == Queued
  }

  ghost predicate ClaimingOnly(t: Txn) {
    t.writes == map[] && forall c :: c in t.todo ==> Claiming(c)
  }

  ghost predicate StoppingOnly(t: Txn, r: RunId) {
    forall c :: c in t.todo ==> Logging(c) || c == PartialMetrics(r)
  }

  ghost predicate StmtOk(db: Db, t: Txn, s: Stmt) {
    match s
    case InsertRuns(rows) => NewRows(rows) && t.writes == map[] && t.todo == [s]
    case TryLockAgent(_) => ClaimingOnly(t)
    case CheckCapacity(a) => ClaimingOnly(t) && a in t.agents
    case ClaimOldest(a) => ClaimingOnly(t) && a in t.agents
    case LockRun(r, _) => r in db.runs
    case StopIfCancelled(r) => r in db.owned
    case PartialMetrics(r) =>
      StoppingOnly(t, r) && r in db.owned && r in t.rows && r in db.runs && View(db, t)[r].status == Cancelled
    case MarkRunning(r) => r in db.owned
    case Finish(r, st, _) => r in db.runs && !HasChild(db.runs, r) && Terminal(st)
    case Emit(_, _) => true
    case InsertEvent(r, _) => r in t.logs
    case RollUp(c) => c in db.runs
    case LockParent(p) => Batch(db, p)
    case Tally(p) => Unclosed(db, t, p)
    case CloseParent(p, _) => Unclosed(db, t, p)
    case BadgeParent(p) =>
      Batch(db, p) && p in t.writes && p in t.closed && t.writes[p].status == Completed
    case BranchOnChildren(r) => r in db.runs
    case CascadeScan(p) => Batch(db, p)
    case Cascade(p, cs) => Batch(db, p) && forall c :: c in cs ==> IsChild(db.runs, c, p)
    case ReapScan => t.writes == map[] && t.todo == [s]
    case Reap(stale) => StillStale(db, t, stale)
    case ReapUpdate(stale) => stale != [] && StillStale(db, t, stale)
    case ReconcileScan => true
    case Reconcile(ps) => ps == []
  }

  ghost predicate RowOk(db: Db, t: Txn, r: RunId)
    requires r in t.writes
  {
    var row := t.writes[r];
    if r !in db.runs then
      && row.status == Queued
      && (row.parent.Some? ==> row.parent.value in t.writes && row.parent.value !in db.runs
                               && t.writes[row.parent.value].parent == None)
    else
      && SameIdentity(db.runs[r], row)
      && if HasChild(db.runs, r) then
           && db.runs[r].status == Queued && r in t.closed
           && row.status == CloseStatus(t.closed[r].seen)
         else
           && row.status != Queued
           && (row.status == Claimed ==>
                 db.runs[r].status == Queued && row.agent in t.agents && t.todo == [] && forall q :: q in t.writes ==> q == r)
           && (row.status == Running ==> db.runs[r].status != Queued)
  }

  ghost predicate EndsLast(todo: seq<Stmt>) {
    forall i :: 0 <= i < |todo| - 1 ==> !EndsProgram(todo[i])
  }

  ghost predicate RollsLast(todo: seq<Stmt>) {
    forall i, j :: 0 <= i < j < |todo| && Rolling(todo[i]) ==> todo[j].Reap?
  }

  ghost predicate SettlesLast(t: Txn) {
    t.closed != map[] || (exists s :: s in t.todo && Settling(s)) ==> forall s :: s in t.todo ==> Late(s)
  }

  ghost predicate Ordered(t: Txn) {
    EndsLast(t.todo) && RollsLast(t.todo) && SettlesLast(t)
  }

  ghost predicate TxnShape(db: Db, t: Txn) {
    && t.writes.Keys <= t.rows
    && t.events.Keys <= t.logs
    && (forall r :: r in t.writes ==> RowOk(db, t, r))
    && (forall s :: s in t.todo ==> StmtOk(db, t, s))
    && Ordered(t)
  }

  ghost predicate Exclusive(s: State) {
    forall a, b :: a in s.txns && b in s.txns && a != b ==>
                     && s.txns[a].rows !! s.txns[b].rows
                     && s.txns[a].logs !! s.txns[b].logs
                     && s.txns[a].agents !! s.txns[b].agents
  }

  // A new transaction

  lemma BegunShape(db: Db, job: Job)
    requires DbShape(db) && JobAllowed(db, job)
    ensures TxnShape(db, Begun(job))
  {
    var t := Begun(job);
    BegunInOrder(db, job);
    forall c | c in t.todo ensures StmtOk(db, t, c) { }
  }

  lemma BegunInOrder(db: Db, job: Job)
    ensures Ordered(Begun(job))
  {
    NothingToSettle(job);
    EndsComeLast(job);
    assert forall i :: 0 <= i < |Program(job)| ==> Program(job)[i] in Program(job);
  }

  lemma NothingToSettle(job: Job)
    ensures forall c :: c in Program(job) ==> !Settling(c)
  {
  }

  lemma EndsComeLast(job: Job)
    ensures forall i :: 0 <= i < |Program(job)| - 1 ==> !EndsProgram(Program(job)[i])
  {
  }

  // One statement

  ghost predicate Active(s: State, id: TxnId) {
    id in s.txns && s.txns[id].todo != []
  }

  ghost predicate Stepping(s: State, id: TxnId, e: Effect) {
    Active(s, id) && StmtStep(s, id, e)
  }

  /** The view and the committed rows agree on which existing rows have children. */
  lemma SameFamilies(db: Db, t: Txn, p: RunId)
    requires DbShape(db) && (forall r :: r in t.writes ==> RowOk(db, t, r)) && p in db.runs
    ensures HasChild(View(db, t), p) == HasChild(db.runs, p)
    ensures forall c :: IsChild(View(db, t), c, p) <==> IsChild(db.runs, c, p)
  {
    forall c ensures IsChild(View(db, t), c, p) <==> IsChild(db.runs, c, p) {
      if c in t.writes { assert RowOk(db, t, c); }
    }
  }

  ghost predicate PushesInOrder(head: Stmt, e: Effect) {
    && |e.pushed| <= 2
    && (|e.pushed| == 2 ==> !EndsProgram(e.pushed[0]) && (Rolling(e.pushed[0]) ==> e.pushed[1].Reap?))
    && (forall c :: c in e.pushed ==>
                      && (EndsProgram(c) ==> EndsProgram(head))
                      && (Claiming(c) ==> Claiming(head))
                      && (Settling(c) ==> Rolling(head) || EndsProgram(head))
                      && (Late(head) || Settling(e.pushed[0]) || Settling(e.pushed[|e.pushed| - 1]) ==> Late(c)))
    && (e.close.Some? ==> Rolling(head))
  }

  lemma PushedKinds(s: State, id: TxnId, e: Effect)
    requires Stepping(s, id, e)
    ensures PushesInOrder(s.txns[id].todo[0], e)
  {
    if ClaimStep(s, id, e) {
      ClaimPushes(s, id, e);
    } else if ExecutorStep(s, id, e) {
      ExecutorPushes(s, id, e);
    } else if EmitStep(s, id, e) {
    } else if RollupStep(s, id, e) {
      RollupPushes(s, id, e);
    } else if CloseStep(s, id, e) {
      ClosePushes(s, id, e);
    } else if CancelStep(s, id, e) {
      CancelPushes(s, id, e);
    } else {
      ReaperPushes(s, id, e);
    }
  }

  lemma ClaimPushes(s: State, id: TxnId, e: Effect)
    requires Active(s, id) && ClaimStep(s, id, e)
    ensures PushesInOrder(s.txns[id].todo[0], e)
  {
  }

  lemma ExecutorPushes(s: State, id: TxnId, e: Effect)
    requires Active(s, id) && ExecutorStep(s, id, e)
    ensures PushesInOrder(s.txns[id].todo[0], e)
  {
  }

  lemma RollupPushes(s: State, id: TxnId, e: Effect)
    requires Active(s, id) && RollupStep(s, id, e)
    ensures PushesInOrder(s.txns[id].todo[0], e)
  {
    var head := s.txns[id].todo[0];
    if head.Tally? { TallyInOrder(head.run, ChildRows(View(s.db, s.txns[id]), head.run)); }
  }

  lemma TallyInOrder(p: RunId, seen: map<RunId, Run>)
    ensures PushesInOrder(Tally(p), Quiet(AfterTally(p, seen)))
  {
  }

  lemma ClosePushes(s: State, id: TxnId, e: Effect)
    requires Active(s, id) && CloseStep(s, id, e)
    ensures PushesInOrder(s.txns[id].todo[0], e)
  {
  }

  lemma CancelPushes(s: State, id: TxnId, e: Effect)
    requires Active(s, id) && CancelStep(s, id, e)
    ensures PushesInOrder(s.txns[id].todo[0], e)
  {
  }

  lemma ReaperPushes(s: State, id: TxnId, e: Effect)
    requires Active(s, id) && ReaperStep(s, id, e)
    ensures PushesInOrder(s.txns[id].todo[0], e)
  {
  }

  lemma OrderAfter(t: Txn, e: Effect)
    requires t.todo != [] && Ordered(t) && PushesInOrder(t.todo[0], e)
    ensures Ordered(After(t, e))
  {
    PushedEndLast(t, e);
    PushedRollLast(t, e);
    PushedSettleLast(t, e);
  }

  lemma PushedEndLast(t: Txn, e: Effect)
    requires t.todo != [] && EndsLast(t.todo) && PushesInOrder(t.todo[0], e)
    ensures EndsLast(After(t, e).todo)
  {
    var head, rest := t.todo[0], t.todo[1..];
    assert forall i :: 0 <= i < |rest| ==> rest[i] == t.todo[i + 1];
    assert EndsProgram(head) ==> rest == [];
  }

  lemma PushedRollLast(t: Txn, e: Effect)
    requires t.todo != [] && EndsLast(t.todo) && RollsLast(t.todo) && PushesInOrder(t.todo[0], e)
    ensures RollsLast(After(t, e).todo)
  {
    var todo, n := After(t, e).todo, |e.pushed|;
    forall i, j | 0 <= i < j < |todo| && Rolling(todo[i]) ensures todo[j].Reap? {
      if i >= n {
        assert todo[i] == t.todo[i - n + 1] && todo[j] == t.todo[j - n + 1];
      } else if j >= n {
        PushedRoll(t, e, i);
        assert todo[i] == e.pushed[i] && todo[j] == t.todo[j - n + 1];
      }
    }
  }

  /** Only a statement with nothing but reaping behind it starts to roll up. */
  lemma PushedRoll(t: Txn, e: Effect, i: nat)
    requires t.todo != [] && EndsLast(t.todo) && RollsLast(t.todo) && PushesInOrder(t.todo[0], e)
    requires i < |e.pushed| && Rolling(e.pushed[i])
    ensures forall j :: 0 < j < |t.todo| ==> t.todo[j].Reap?
  {
    assert e.pushed[i] in e.pushed;
    assert EndsProgram(t.todo[0]) ==> |t.todo| == 1;
  }

  lemma PushedSettleLast(t: Txn, e: Effect)
    requires t.todo != [] && EndsLast(t.todo) && SettlesLast(t) && PushesInOrder(t.todo[0], e)
    ensures SettlesLast(After(t, e))
  {
    var head, rest := t.todo[0], t.todo[1..];
    assert head in t.todo && forall c :: c in rest ==> c in t.todo;
    assert EndsProgram(head) ==> rest == [];
  }

  ghost predicate Writes(e: Effect) {
    e.write.Some? || e.inserts != map[]
  }

  /** What a statement may do to the rows, as far as the statements after it care. */
  ghost predicate WritesInOrder(db: Db, head: Stmt, e: Effect) {
    && (Claiming(head) ==> (!Writes(e) || e.ends) && forall c :: c in e.pushed ==> Claiming(c))
    && (Logging(head) ==> !Writes(e) && e.close.None? && forall c :: c in e.pushed ==> Logging(c))
    && (Rolling(head) ==> e.inserts == map[] && (e.write.Some? ==> Batch(db, e.write.value.run)))
    && (e.ends ==> head.ClaimOldest?)
  }

  lemma ClaimWrites(s: State, id: TxnId, e: Effect)
    requires Active(s, id) && ClaimStep(s, id, e)
    ensures WritesInOrder(s.db, s.txns[id].todo[0], e)
  {
  }

  lemma ExecutorWrites(s: State, id: TxnId, e: Effect)
    requires Active(s, id) && ExecutorStep(s, id, e)
    ensures WritesInOrder(s.db, s.txns[id].todo[0], e)
  {
  }

  lemma EmitWrites(s: State, id: TxnId, e: Effect)
    requires Active(s, id) && EmitStep(s, id, e)
    ensures WritesInOrder(s.db, s.txns[id].todo[0], e)
  {
  }

  lemma RollupWrites(s: State, id: TxnId, e: Effect)
    requires Active(s, id) && RollupStep(s, id, e)
    ensures WritesInOrder(s.db, s.txns[id].todo[0], e)
  {
  }

  lemma CloseWrites(s: State, id: TxnId, e: Effect)
    requires Active(s, id) && CloseStep(s, id, e) && StmtOk(s.db, s.txns[id], s.txns[id].todo[0])
    ensures WritesInOrder(s.db, s.txns[id].todo[0], e)
  {
  }

  lemma CancelWrites(s: State, id: TxnId, e: Effect)
    requires Active(s, id) && CancelStep(s, id, e)
    ensures WritesInOrder(s.db, s.txns[id].todo[0], e)
  {
  }

  lemma ReaperWrites(s: State, id: TxnId, e: Effect)
    requires Active(s, id) && ReaperStep(s, id, e)
    ensures WritesInOrder(s.db, s.txns[id].todo[0], e)
  {
  }

  lemma WritesKinds(s: State, id: TxnId, e: Effect)
    requires Stepping(s, id, e) && TxnShape(s.db, s.txns[id])
    ensures WritesInOrder(s.db, s.txns[id].todo[0], e)
  {
    assert StmtOk(s.db, s.txns[id], s.txns[id].todo[0]);
    if ClaimStep(s, id, e) {
      ClaimWrites(s, id, e);
    } else if ExecutorStep(s, id, e) {
      ExecutorWrites(s, id, e);
    } else if EmitStep(s, id, e) {
      EmitWrites(s, id, e);
    } else if RollupStep(s, id, e) {
      RollupWrites(s, id, e);
    } else if CloseStep(s, id, e) {
      CloseWrites(s, id, e);
    } else if CancelStep(s, id, e) {
      CancelWrites(s, id, e);
    } else {
      ReaperWrites(s, id, e);
    }
  }

  /** The statement `c` stands behind the one that runs with effect `e`, and is fit to run. */
  ghost predicate Waits(db: Db, t: Txn, e: Effect, c: Stmt) {
    && t.todo != [] && DbShape(db) && WritesInOrder(db, t.todo[0], e) && !e.ends
    && c in t.todo[1..] && StmtOk(db, t, c)
    && !EndsProgram(t.todo[0]) && (Rolling(t.todo[0]) ==> c.Reap?)
    && (Settling(c) ==> Late(t.todo[0]))
  }

  /** A statement still to run stays fit to run. */
  lemma OldStmt(db: Db, t: Txn, e: Effect, c: Stmt)
    requires Waits(db, t, e, c)
    ensures StmtOk(db, After(t, e), c)
  {
    if Claiming(c) || c.PartialMetrics? {
      OldFirst(db, t, e, c);
    } else if c.Reap? || c.ReapUpdate? {
      OldStale(db, t, e, c);
    } else if Late(c) {
      OldLate(db, t, e, c);
    } else {
      assert c in t.todo && |t.todo| > 1;
    }
  }

  lemma OldFirst(db: Db, t: Txn, e: Effect, c: Stmt)
    requires Waits(db, t, e, c) && (Claiming(c) || c.PartialMetrics?)
    ensures StmtOk(db, After(t, e), c)
  {
    assert t.todo[0] in t.todo && c in t.todo;
    assert forall d :: d in After(t, e).todo ==> d in e.pushed || d in t.todo;
  }

  lemma OldLate(db: Db, t: Txn, e: Effect, c: Stmt)
    requires Waits(db, t, e, c) && Late(c) && !c.Reap? && !c.ReapUpdate?
    ensures StmtOk(db, After(t, e), c)
  {
  }

  lemma OldStale(db: Db, t: Txn, e: Effect, c: Stmt)
    requires Waits(db, t, e, c) && (c.Reap? || c.ReapUpdate?)
    ensures StmtOk(db, After(t, e), c)
  {
  }

  lemma OldStmts(db: Db, t: Txn, e: Effect)
    requires t.todo != [] && DbShape(db) && TxnShape(db, t) && WritesInOrder(db, t.todo[0], e) && !e.ends
    ensures forall c :: c in t.todo[1..] ==> StmtOk(db, After(t, e), c)
  {
    var head, rest := t.todo[0], t.todo[1..];
    forall c | c in rest ensures StmtOk(db, After(t, e), c) {
      assert c in t.todo && StmtOk(db, t, c);
      var i :| 0 <= i < |rest| && c == rest[i] == t.todo[i + 1];
      OldStmt(db, t, e, c);
    }
  }

  ghost predicate PushedOk(db: Db, t: Txn, e: Effect)
    requires t.todo != []
  {
    forall c :: c in e.pushed ==> StmtOk(db, After(t, e), c)
  }

  /** A step writes nothing, or the rows of a new batch, or one existing row as it should be. */
  ghost predicate WritesOk(db: Db, t: Txn, e: Effect)
    requires t.todo != []
  {
    && (e.event.Some? ==> e.event.value.run in t.logs)
    && e.inserts.Keys <= e.rows && e.inserts.Keys !! db.runs.Keys
    && (forall r :: r in e.inserts ==> e.write.None? && t.writes == map[] && RowOk(db, After(t, e), r))
    && (e.write.Some? ==> e.inserts == map[] && e.write.value.run in db.runs && e.write.value.run in t.rows + e.rows
                          && RowOk(db, After(t, e), e.write.value.run))
    && (e.close.Some? ==> e.write.Some? && e.write.value.run == e.close.value.run)
  }

  lemma RowsAfter(db: Db, t: Txn, e: Effect)
    requires t.todo != [] && TxnShape(db, t) && WritesOk(db, t, e)
    ensures var t' := After(t, e);
            t'.writes.Keys <= t'.rows && t'.events.Keys <= t'.logs && forall q :: q in t'.writes ==> RowOk(db, t', q)
  {
    forall q | q in After(t, e).writes ensures RowOk(db, After(t, e), q) {
      if q in t.writes { assert RowOk(db, t, q); }
    }
  }

  ghost predicate Lands(db: Db, t: Txn, e: Effect)
    requires t.todo != []
  {
    PushedOk(db, t, e) && WritesOk(db, t, e)
  }

  /** The statement about to run, and what it relies on. */
  ghost predicate Ready(s: State, id: TxnId) {
    && Active(s, id) && StmtOk(s.db, s.txns[id], s.txns[id].todo[0])
    && (EndsProgram(s.txns[id].todo[0]) ==> |s.txns[id].todo| == 1)
  }

  ghost predicate RowsOk(db: Db, t: Txn) {
    DbShape(db) && forall r :: r in t.writes ==> RowOk(db, t, r)
  }

  lemma ClaimLands(s: State, id: TxnId, e: Effect)
    requires Ready(s, id) && ClaimStep(s, id, e)
    ensures Lands(s.db, s.txns[id], e)
  {
  }

  lemma LockLands(s: State, id: TxnId, e: Effect)
    requires Ready(s, id) && ExecutorStep(s, id, e) && DbShape(s.db)
    requires s.txns[id].todo[0].LockRun? || s.txns[id].todo[0].StopIfCancelled?
    ensures Lands(s.db, s.txns[id], e)
  {
  }

  lemma ExecutorLands(s: State, id: TxnId, e: Effect)
    requires Ready(s, id) && ExecutorStep(s, id, e) && RowsOk(s.db, s.txns[id])
    requires !s.txns[id].todo[0].LockRun? && !s.txns[id].todo[0].StopIfCancelled?
    ensures Lands(s.db, s.txns[id], e)
  {
  }

  lemma EmitLands(s: State, id: TxnId, e: Effect)
    requires Ready(s, id) && EmitStep(s, id, e)
    ensures Lands(s.db, s.txns[id], e)
  {
  }

  lemma RollUpLands(s: State, id: TxnId, e: Effect)
    requires Ready(s, id) && RollupStep(s, id, e) && RowsOk(s.db, s.txns[id])
    requires s.txns[id].todo[0].RollUp?
    ensures Lands(s.db, s.txns[id], e)
  {
    var c := s.txns[id].todo[0].run;
    if c in s.txns[id].writes { assert RowOk(s.db, s.txns[id], c); }
    assert s.db.runs[c].parent.Some? ==> IsChild(s.db.runs, c, s.db.runs[c].parent.value);
  }

  lemma LockParentLands(s: State, id: TxnId, e: Effect)
    requires Ready(s, id) && RollupStep(s, id, e) && RowsOk(s.db, s.txns[id])
    requires s.txns[id].todo[0].LockParent?
    ensures Lands(s.db, s.txns[id], e)
  {
  }

  lemma TallyLands(s: State, id: TxnId, e: Effect)
    requires Ready(s, id) && RollupStep(s, id, e)
    requires s.txns[id].todo[0].Tally?
    ensures Lands(s.db, s.txns[id], e)
  {
    var p := s.txns[id].todo[0].run;
    OpenTallyLands(s.db, s.txns[id], p, ChildRows(View(s.db, s.txns[id]), p));
  }

  lemma OpenTallyLands(db: Db, t: Txn, p: RunId, seen: map<RunId, Run>)
    requires t.todo != [] && Unclosed(db, t, p)
    ensures Lands(db, t, Quiet(AfterTally(p, seen)))
  {
    TallyPushes(p, seen);
    QuietLands(db, t, AfterTally(p, seen), p);
  }

  lemma QuietLands(db: Db, t: Txn, pushed: seq<Stmt>, p: RunId)
    requires t.todo != [] && Unclosed(db, t, p) && forall c :: c in pushed ==> c.Emit? || (c.CloseParent? && c.run == p)
    ensures Lands(db, t, Quiet(pushed))
  {
    QuietKeeps(db, t, pushed, p);
  }

  lemma TallyPushes(p: RunId, seen: map<RunId, Run>)
    ensures forall c :: c in AfterTally(p, seen) ==> c.Emit? || c == CloseParent(p, seen)
  {
  }

  lemma QuietKeeps(db: Db, t: Txn, pushed: seq<Stmt>, p: RunId)
    requires t.todo != [] && Unclosed(db, t, p)
    ensures Unclosed(db, After(t, Quiet(pushed)), p)
  {
    assert t.writes + map[] == t.writes;
  }

  lemma CloseLands(s: State, id: TxnId, e: Effect)
    requires Ready(s, id) && CloseStep(s, id, e) && RowsOk(s.db, s.txns[id])
    requires s.txns[id].todo[0].CloseParent?
    ensures Lands(s.db, s.txns[id], e)
  {
    var db, t := s.db, s.txns[id];
    var p, seen := t.todo[0].run, t.todo[0].seen;
    var row := View(db, t)[p];
    ClosedRow(db, t, p, seen);
    ClosePushesOk(db, t, p, seen);
    assert e == ClosingEffect(p, row, seen);
  }

  lemma ClosedRow(db: Db, t: Txn, p: RunId, seen: map<RunId, Run>)
    requires t.todo != [] && RowsOk(db, t) && Unclosed(db, t, p)
    ensures WritesOk(db, t, ClosingEffect(p, View(db, t)[p], seen))
  {
    if p in t.writes { assert RowOk(db, t, p); }
  }

  lemma ClosePushesOk(db: Db, t: Txn, p: RunId, seen: map<RunId, Run>)
    requires t.todo != [] && Unclosed(db, t, p)
    ensures PushedOk(db, t, ClosingEffect(p, View(db, t)[p], seen))
  {
  }

  lemma BadgeLands(s: State, id: TxnId, e: Effect)
    requires Ready(s, id) && CloseStep(s, id, e) && RowsOk(s.db, s.txns[id])
    requires s.txns[id].todo[0].BadgeParent?
    ensures Lands(s.db, s.txns[id], e)
  {
  }

  lemma CancelLands(s: State, id: TxnId, e: Effect)
    requires Ready(s, id) && CancelStep(s, id, e) && RowsOk(s.db, s.txns[id])
    requires !s.txns[id].todo[0].Cascade?
    ensures Lands(s.db, s.txns[id], e)
  {
    SameFamilies(s.db, s.txns[id], s.txns[id].todo[0].run);
    assert s.txns[id].todo[0].CascadeScan? ==> forall c :: c in e.pushed[0].children ==> IsChild(View(s.db, s.txns[id]), c, s.txns[id].todo[0].run);
  }

  lemma CascadeLands(s: State, id: TxnId, e: Effect)
    requires Ready(s, id) && CancelStep(s, id, e) && RowsOk(s.db, s.txns[id])
    requires s.txns[id].todo[0].Cascade?
    ensures Lands(s.db, s.txns[id], e)
  {
    var head := s.txns[id].todo[0];
    if head.children != [] {
      assert head.children[0] in head.children;
      CascadeChild(s.db, s.txns[id], head.children[0], head.run);
    }
  }

  /** A child of a batch has no children of its own, and a claimed transaction never cascades. */
  lemma CascadeChild(db: Db, t: Txn, c: RunId, p: RunId)
    requires RowsOk(db, t) && IsChild(db.runs, c, p) && Batch(db, p)
    ensures !HasChild(db.runs, c) && c in View(db, t) && SameIdentity(db.runs[c], View(db, t)[c])
  {
    if c in t.writes { assert RowOk(db, t, c); }
    ChildIsNoParent(db, c);
  }

  lemma ChildIsNoParent(db: Db, c: RunId)
    requires DbShape(db) && c in db.runs && db.runs[c].parent.Some?
    ensures !HasChild(db.runs, c)
  {
  }

  lemma ReapScanLands(s: State, id: TxnId, e: Effect)
    requires Ready(s, id) && ReaperStep(s, id, e)
    requires s.txns[id].todo[0].ReapScan?
    ensures Lands(s.db, s.txns[id], e)
  {
  }

  lemma ReaperLands(s: State, id: TxnId, e: Effect)
    requires Ready(s, id) && ReaperStep(s, id, e) && RowsOk(s.db, s.txns[id])
    requires s.txns[id].todo[0].Reap? || s.txns[id].todo[0].Reconcile?
    ensures Lands(s.db, s.txns[id], e)
  {
  }

  lemma ReapUpdateLands(s: State, id: TxnId, e: Effect)
    requires Ready(s, id) && ReaperStep(s, id, e) && RowsOk(s.db, s.txns[id])
    requires s.txns[id].todo[0].ReapUpdate?
    ensures Lands(s.db, s.txns[id], e)
  {
    var t := s.txns[id];
    ReapPushesOk(s.db, t, t.todo[0].stale, e);
    ReapedRow(s.db, t, t.todo[0].stale, e);
  }

  /** Marking the first stale row failed, or leaving it, before the rest. */
  predicate ReapsFirst(db: Db, t: Txn, stale: seq<RunId>, e: Effect) {
    && stale != [] && stale[0] in View(db, t)
    && var pushed := [RollUp(stale[0]), Reap(stale[1..])];
    e == Quiet(pushed) || e == Wrote(pushed, stale[0], SetStatus(View(db, t)[stale[0]], Failed))
  }

  lemma ReapPushesOk(db: Db, t: Txn, stale: seq<RunId>, e: Effect)
    requires t.todo != [] && ReapsFirst(db, t, stale, e) && StillStale(db, t, stale)
    ensures PushedOk(db, t, e)
  {
    assert stale[0] in stale && stale[0] !in stale[1..];
  }

  lemma ReapedRow(db: Db, t: Txn, stale: seq<RunId>, e: Effect)
    requires t.todo != [] && ReapsFirst(db, t, stale, e) && StillStale(db, t, stale) && DbShape(db)
    ensures WritesOk(db, t, e)
  {
    assert stale[0] in stale;
  }

  lemma ReconcileLands(s: State, id: TxnId, e: Effect)
    requires Ready(s, id) && ReaperStep(s, id, e) && NoOrphans(s.db.runs)
    requires s.txns[id].todo[0].ReconcileScan?
    ensures Lands(s.db, s.txns[id], e)
  {
    var orphans := set p | p in s.db.runs && Orphaned(s.db.runs, p) && RowFree(s, id, p);
    var order :| Enumerates(order, orphans) && e == Quiet([Reconcile(order)]).(rows := set r | r in order);
    assert orphans == {};
    SomeMember(order);
  }

  lemma ReapersLand(s: State, id: TxnId, e: Effect)
    requires Ready(s, id) && ReaperStep(s, id, e) && RowsOk(s.db, s.txns[id]) && NoOrphans(s.db.runs)
    ensures Lands(s.db, s.txns[id], e)
  {
    match s.txns[id].todo[0] {
      case ReapScan => ReapScanLands(s, id, e);
      case ReconcileScan => ReconcileLands(s, id, e);
      case ReapUpdate(_) => ReapUpdateLands(s, id, e);
      case _ => ReaperLands(s, id, e);
    }
  }

  lemma SomeMember(order: seq<RunId>)
    ensures order == [] || exists r :: r in order
  {
    assert order == [] || order[0] in order;
  }

  lemma RollupLands(s: State, id: TxnId, e: Effect)
    requires Ready(s, id) && (RollupStep(s, id, e) || CloseStep(s, id, e)) && RowsOk(s.db, s.txns[id])
    ensures Lands(s.db, s.txns[id], e)
  {
    match s.txns[id].todo[0] {
      case RollUp(_) => RollUpLands(s, id, e);
      case LockParent(_) => LockParentLands(s, id, e);
      case Tally(_) => TallyLands(s, id, e);
      case CloseParent(_, _) => CloseLands(s, id, e);
      case BadgeParent(_) => BadgeLands(s, id, e);
    }
  }

  lemma AllLand(s: State, id: TxnId, e: Effect)
    requires Ready(s, id) && StmtStep(s, id, e) && RowsOk(s.db, s.txns[id]) && NoOrphans(s.db.runs)
    ensures Lands(s.db, s.txns[id], e)
  {
    var head := s.txns[id].todo[0];
    if ClaimStep(s, id, e) {
      ClaimLands(s, id, e);
    } else if ExecutorStep(s, id, e) {
      if head.LockRun? || head.StopIfCancelled? { LockLands(s, id, e); } else { ExecutorLands(s, id, e); }
    } else if EmitStep(s, id, e) {
      EmitLands(s, id, e);
    } else if CancelStep(s, id, e) {
      if head.Cascade? { CascadeLands(s, id, e); } else { CancelLands(s, id, e); }
    } else if ReaperStep(s, id, e) {
      ReapersLand(s, id, e);
    } else {
      RollupLands(s, id, e);
    }
  }

  lemma StmtShape(s: State, id: TxnId, e: Effect)
    requires Stepping(s, id, e) && DbShape(s.db) && TxnShape(s.db, s.txns[id]) && NoOrphans(s.db.runs)
    ensures TxnShape(s.db, After(s.txns[id], e))
  {
    var db, t := s.db, s.txns[id];
    assert Ready(s, id);
    PushedKinds(s, id, e);
    OrderAfter(t, e);
    WritesKinds(s, id, e);
    if !e.ends { OldStmts(db, t, e); }
    AllLand(s, id, e);
    RowsAfter(db, t, e);
    forall c | c in After(t, e).todo ensures StmtOk(db, After(t, e), c) {
      assert c in e.pushed || c in t.todo[1..];
    }
  }

  // Commits

  ghost predicate Disjoint(t: Txn, u: Txn) {
    t.rows !! u.rows && t.logs !! u.logs && t.agents !! u.agents
  }

  /** A commit adds rows only together with their parents, and keeps the identity of the others. */
  lemma CommitKeeps(db: Db, t: Txn, p: RunId)
    requires TxnShape(db, t) && p in db.runs
    ensures var runs := Committed(db, t).runs;
            && p in runs && SameIdentity(db.runs[p], runs[p])
            && (p !in t.writes ==> runs[p] == db.runs[p])
            && HasChild(runs, p) == HasChild(db.runs, p)
            && forall c :: IsChild(runs, c, p) <==> IsChild(db.runs, c, p)
  {
    var runs := Committed(db, t).runs;
    forall c ensures IsChild(runs, c, p) <==> IsChild(db.runs, c, p) {
      if c in t.writes { assert RowOk(db, t, c); }
    }
    if p in t.writes { assert RowOk(db, t, p); }
  }

  /** New rows are childless or parents of new rows only. */
  lemma CommitNew(db: Db, t: Txn, r: RunId)
    requires DbShape(db) && TxnShape(db, t) && r in t.writes && r !in db.runs
    ensures t.writes[r].status == Queued
    ensures t.writes[r].parent.Some? ==> t.writes[r].parent.value in t.writes && t.writes[r].parent.value !in db.runs
                                         && t.writes[t.writes[r].parent.value].parent == None
  {
    assert RowOk(db, t, r);
  }

  lemma CommitShape(db: Db, t: Txn)
    requires DbShape(db) && TxnShape(db, t)
    ensures DbShape(Committed(db, t))
  {
    var db' := Committed(db, t);
    forall r | r in db'.runs && db'.runs[r].parent.Some?
      ensures db'.runs[r].parent.value in db'.runs && db'.runs[db'.runs[r].parent.value].parent == None
    {
      if r in db.runs {
        CommitKeeps(db, t, r);
        CommitKeeps(db, t, db.runs[r].parent.value);
      } else {
        CommitNew(db, t, r);
      }
    }
    forall p | p in db'.runs && HasChild(db'.runs, p) ensures db'.runs[p].status in {Queued, Completed, Cancelled} {
      if p in t.writes { assert RowOk(db, t, p); }
      if p in db.runs { CommitKeeps(db, t, p); }
    }
    forall r | r in db'.owned ensures r in db'.runs && db'.runs[r].status != Queued && !HasChild(db'.runs, r) {
      if r in t.writes { assert RowOk(db, t, r); }
      CommitKeeps(db, t, r);
    }
  }

  /** What another transaction relies on survives a commit: the rows it locked stay as they were. */
  lemma CommitView(db: Db, t: Txn, u: Txn, r: RunId)
    requires TxnShape(db, t) && TxnShape(db, u) && Disjoint(t, u)
    requires r in db.runs && r in u.rows
    ensures r in Committed(db, t).runs && Committed(db, t).runs[r] == db.runs[r]
    ensures View(Committed(db, t), u)[r] == View(db, u)[r]
  {
  }

  lemma CommitRowOk(db: Db, t: Txn, u: Txn, r: RunId)
    requires DbShape(db) && TxnShape(db, t) && TxnShape(db, u) && Disjoint(t, u) && r in u.writes
    ensures RowOk(Committed(db, t), u, r)
  {
    assert RowOk(db, u, r);
    if r in db.runs {
      CommitKeeps(db, t, r);
      CommitView(db, t, u, r);
    }
  }

  lemma CommitStmtOk(db: Db, t: Txn, u: Txn, c: Stmt)
    requires DbShape(db) && TxnShape(db, t) && TxnShape(db, u) && Disjoint(t, u) && StmtOk(db, u, c)
    ensures StmtOk(Committed(db, t), u, c)
  {
    var db' := Committed(db, t);
    assert db.owned <= db'.owned && db.runs.Keys <= db'.runs.Keys;
    if c.StopIfCancelled? || c.MarkRunning? {
    } else if c.Reap? || c.ReapUpdate? {
      forall r | r in c.stale ensures r in db'.runs && Occupies(db'.runs[r].status) { CommitView(db, t, u, r); }
    } else if c.PartialMetrics? {
      CommitView(db, t, u, c.run);
    } else if c.Finish? || c.LockParent? || c.CascadeScan? || c.BadgeParent? {
      CommitKeeps(db, t, c.run);
    } else if c.Cascade? {
      CommitKeeps(db, t, c.run);
    } else if c.Tally? || c.CloseParent? {
      CommitKeeps(db, t, c.run);
      CommitView(db, t, u, c.run);
    }
  }

  lemma CommitTxnShape(db: Db, t: Txn, u: Txn)
    requires DbShape(db) && TxnShape(db, t) && TxnShape(db, u) && Disjoint(t, u)
    ensures TxnShape(Committed(db, t), u)
  {
    forall r | r in u.writes ensures RowOk(Committed(db, t), u, r) { CommitRowOk(db, t, u, r); }
    forall c | c in u.todo ensures StmtOk(Committed(db, t), u, c) { CommitStmtOk(db, t, u, c); }
  }

  // Locks

  /** The locks a statement takes are its transaction's already, or nobody's. */
  ghost predicate LocksFree(s: State, id: TxnId, e: Effect)
    requires id in s.txns
  {
    && (forall r :: r in e.rows ==> r in s.txns[id].rows || RowFree(s, id, r))
    && (forall r :: r in e.logs ==> LogFree(s, id, r))
    && (forall a :: a in e.agents ==> AgentFree(s, id, a))
  }

  lemma ClaimLocks(s: State, id: TxnId, e: Effect)
    requires Active(s, id) && ClaimStep(s, id, e)
    ensures LocksFree(s, id, e)
  {
  }

  lemma ExecutorLocks(s: State, id: TxnId, e: Effect)
    requires Active(s, id) && ExecutorStep(s, id, e) && StmtOk(s.db, s.txns[id], s.txns[id].todo[0])
    ensures LocksFree(s, id, e)
  {
  }

  lemma RollupLocks(s: State, id: TxnId, e: Effect)
    requires Active(s, id) && RollupStep(s, id, e)
    ensures LocksFree(s, id, e)
  {
  }

  lemma CloseLocks(s: State, id: TxnId, e: Effect)
    requires Active(s, id) && CloseStep(s, id, e) && StmtOk(s.db, s.txns[id], s.txns[id].todo[0])
    requires s.txns[id].writes.Keys <= s.txns[id].rows
    ensures LocksFree(s, id, e)
  {
  }

  lemma CancelLocks(s: State, id: TxnId, e: Effect)
    requires Active(s, id) && CancelStep(s, id, e)
    ensures LocksFree(s, id, e)
  {
  }

  lemma ReaperLocks(s: State, id: TxnId, e: Effect)
    requires Active(s, id) && ReaperStep(s, id, e) && StmtOk(s.db, s.txns[id], s.txns[id].todo[0])
    ensures LocksFree(s, id, e)
  {
    var head := s.txns[id].todo[0];
    if head.ReapUpdate? { assert head.stale[0] in head.stale; }
  }

  lemma LocksAreFree(s: State, id: TxnId, e: Effect)
    requires Stepping(s, id, e) && TxnShape(s.db, s.txns[id])
    ensures LocksFree(s, id, e)
  {
    assert StmtOk(s.db, s.txns[id], s.txns[id].todo[0]);
    if ClaimStep(s, id, e) {
      ClaimLocks(s, id, e);
    } else if ExecutorStep(s, id, e) {
      ExecutorLocks(s, id, e);
    } else if EmitStep(s, id, e) {
    } else if RollupStep(s, id, e) {
      RollupLocks(s, id, e);
    } else if CloseStep(s, id, e) {
      CloseLocks(s, id, e);
    } else if CancelStep(s, id, e) {
      CancelLocks(s, id, e);
    } else {
      ReaperLocks(s, id, e);
    }
  }

  lemma StmtExclusive(s: State, id: TxnId, e: Effect)
    requires Stepping(s, id, e) && TxnShape(s.db, s.txns[id]) && Exclusive(s)
    ensures Exclusive(s.(txns := s.txns[id := After(s.txns[id], e)]))
  {
    LocksAreFree(s, id, e);
  }
}
