/**
 Unless an event is logged without looking at the row first, transactions work on one run one after the
 other: whatever a transaction writes or logs, it holds the row of that run.
 */
module RowLocks {
  import opened RunTypes
  import opened Transactions
  import opened Discipline
  import opened Protocol

  /** Every job but the two with which live executors log on a run whose row they have not locked. */
  predicate TakesRowLock(job: Job) {
    !job.EmitEvents? && !job.FailRun?
  }

  predicate LocksFirst(s: Stmt, r: RunId) {
    (s.LockRun? || s.MarkRunning? || s.StopIfCancelled?) && s.run == r
  }

  /** Events go to runs whose row is held, or will be by the first statement. */
  ghost predicate Covered(t: Txn) {
    && t.events.Keys <= t.rows
    && forall i :: 0 <= i < |t.todo| && Logging(t.todo[i]) ==> t.todo[i].run in t.rows || (i > 0 && LocksFirst(t.todo[0], t.todo[i].run))
  }

  ghost predicate CoversMore(t: Txn, e: Effect)
    requires t.todo != []
  {
    && (forall r :: LocksFirst(t.todo[0], r) ==> r in e.rows)
    && (forall c :: c in e.pushed && Logging(c) ==> c.run in t.rows + e.rows)
    && (e.event.Some? ==> e.event.value.run in t.rows)
  }

  lemma BegunCovered(job: Job)
    requires TakesRowLock(job)
    ensures Covered(Begun(job))
  {
  }

  ghost predicate HeadCovered(s: State, id: TxnId) {
    Ready(s, id) && (Logging(s.txns[id].todo[0]) ==> s.txns[id].todo[0].run in s.txns[id].rows)
  }

  lemma ClaimCovers(s: State, id: TxnId, e: Effect)
    requires HeadCovered(s, id) && (ClaimStep(s, id, e) || CancelStep(s, id, e))
    ensures CoversMore(s.txns[id], e)
  {
  }

  lemma ExecutorCovers(s: State, id: TxnId, e: Effect)
    requires HeadCovered(s, id) && (ExecutorStep(s, id, e) || EmitStep(s, id, e))
    ensures CoversMore(s.txns[id], e)
  {
  }

  lemma RollupCovers(s: State, id: TxnId, e: Effect)
    requires HeadCovered(s, id) && (RollupStep(s, id, e) || CloseStep(s, id, e))
    ensures CoversMore(s.txns[id], e)
  {
  }

  lemma ReaperCovers(s: State, id: TxnId, e: Effect)
    requires HeadCovered(s, id) && ReaperStep(s, id, e)
    ensures CoversMore(s.txns[id], e)
  {
    var head := s.txns[id].todo[0];
    if head.Reap? && head.stale != [] { assert head.stale[0] in head.stale; }
  }

  lemma AllCover(s: State, id: TxnId, e: Effect)
    requires HeadCovered(s, id) && StmtStep(s, id, e)
    ensures CoversMore(s.txns[id], e)
  {
    if ReaperStep(s, id, e) {
      ReaperCovers(s, id, e);
    } else if RollupStep(s, id, e) || CloseStep(s, id, e) {
      RollupCovers(s, id, e);
    } else if ClaimStep(s, id, e) || CancelStep(s, id, e) {
      ClaimCovers(s, id, e);
    } else {
      ExecutorCovers(s, id, e);
    }
  }

  lemma CoveredAfter(t: Txn, e: Effect)
    requires t.todo != [] && Covered(t) && CoversMore(t, e)
    ensures Covered(After(t, e))
  {
    var t' := After(t, e);
    forall i | 0 <= i < |t'.todo| && Logging(t'.todo[i]) ensures t'.todo[i].run in t'.rows {
      if i < |e.pushed| {
        assert t'.todo[i] in e.pushed;
      } else {
        assert t'.todo[i] == t.todo[i - |e.pushed| + 1];
      }
    }
  }

  lemma StmtCovered(s: State, id: TxnId, e: Effect)
    requires Inv(s) && Stepping(s, id, e) && Covered(s.txns[id])
    ensures Covered(After(s.txns[id], e))
  {
    var t := s.txns[id];
    assert TxnInv(s.db, t) && t.todo[0] in t.todo;
    assert Ready(s, id) by { assert StmtOk(s.db, t, t.todo[0]); }
    AllCover(s, id, e);
    CoveredAfter(t, e);
  }

  /** Every transaction of `b` begins as one of those jobs. */
  ghost predicate OnlyRowLockers(b: seq<State>) {
    forall i, id {:trigger Enters(b, i, id)} :: Enters(b, i, id) ==> exists job :: TakesRowLock(job) && b[i].txns[id] == Begun(job)
  }

  ghost predicate Enters(b: seq<State>, i: int, id: TxnId) {
    0 < i < |b| && id in b[i].txns && id !in b[i - 1].txns
  }

  lemma StepCovered(s: State, a: Action, s': State, id: TxnId)
    requires Inv(s) && Step(s, a, s') && id in s.txns && id in s'.txns && Covered(s.txns[id])
    ensures Covered(s'.txns[id])
  {
    if a.Execute? && a.id == id { StmtCovered(s, id, a.effect); }
  }

  lemma {:induction false} AlwaysCovered(b: seq<State>, i: nat, id: TxnId)
    requires Behavior(b) && OnlyRowLockers(b) && i < |b| && id in b[i].txns
    ensures Covered(b[i].txns[id])
  {
    if i == 0 {
    } else if Enters(b, i, id) {
      var job :| TakesRowLock(job) && b[i].txns[id] == Begun(job);
      BegunCovered(job);
    } else {
      AlwaysCovered(b, i - 1, id);
      Reachable(b, i - 1);
      assert Moves(b, i - 1);
      var a :| Step(b[i - 1], a, b[i]);
      StepCovered(b[i - 1], a, b[i], id);
    }
  }

  predicate Touches(t: Txn, r: RunId) {
    r in t.writes || r in t.events
  }

  /** Once one of them has written or logged on a run, no other does before it has ended. */
  lemma OneAtATime(b: seq<State>, i: nat, x: TxnId, y: TxnId, r: RunId)
    requires Behavior(b) && OnlyRowLockers(b) && i < |b| && x in b[i].txns && y in b[i].txns && x != y
    requires Touches(b[i].txns[x], r)
    ensures r in b[i].txns[x].rows && r !in b[i].txns[y].rows && !Touches(b[i].txns[y], r)
  {
    AlwaysCovered(b, i, x);
    AlwaysCovered(b, i, y);
    Reachable(b, i);
    assert TxnInv(b[i].db, b[i].txns[x]) && TxnInv(b[i].db, b[i].txns[y]);
  }
}
