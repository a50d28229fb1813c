/** Safety of the batch-run protocol over every behavior: any jobs, any interleaving, any aborts. */
module Protocol {
  import opened RunTypes
  import opened Transactions
  import opened Discipline
  import opened RollupSafety
  import opened EventLog
  import opened ConcurrencyCap
  import opened ClosingCommit

  ghost predicate DbInv(db: Db) {
    DbShape(db) && NoOrphans(db.runs) && DbLogs(db) && DbCapped(db)
  }

  ghost predicate TxnInv(db: Db, t: Txn) {
    TxnShape(db, t) && TxnRolls(db, t) && TxnLogs(db, t) && TxnCapped(db, t) && TxnCloses(db, t)
  }

  ghost predicate Inv(s: State) {
    DbInv(s.db) && Exclusive(s) && forall id :: id in s.txns ==> TxnInv(s.db, s.txns[id])
  }

  // Every step keeps the invariant

  lemma InitInv(s: State)
    requires Init(s)
    ensures Inv(s)
  {
    forall r ensures Gapless(LogOf(s.db, r)) { assert GaplessTo(LogOf(s.db, r), 0); }
    forall a ensures |Clean(s.db, a)| <= Cap(s.db, a) { assert Clean(s.db, a) == {}; }
  }

  lemma BegunInv(db: Db, job: Job)
    requires DbInv(db) && JobAllowed(db, job)
    ensures TxnInv(db, Begun(job))
  {
    var t := Begun(job);
    BegunShape(db, job);
    BegunRolls(db, job);
    forall r ensures Gapless(LogView(db, t, r)) && LogOf(db, r).Keys !! OwnLog(t, r).Keys {
      assert LogView(db, t, r) == LogOf(db, r);
    }
    forall c | c in t.todo ensures !c.ClaimOldest? && !c.CloseParent? { }
  }

  lemma StmtInv(s: State, id: TxnId, e: Effect)
    requires Inv(s) && Stepping(s, id, e)
    ensures TxnInv(s.db, After(s.txns[id], e))
  {
    var db, t := s.db, s.txns[id];
    assert TxnInv(db, t) && t.todo[0] in t.todo;
    assert Ready(s, id) by { assert StmtOk(db, t, t.todo[0]); }
    AllLand(s, id, e);
    StmtShape(s, id, e);
    StmtRolls(s, id, e);
    StmtLogs(s, id, e);
    StmtCapped(s, id, e);
    StmtCloses(s, id, e);
  }

  lemma CommitOtherInv(db: Db, t: Txn, u: Txn)
    requires DbInv(db) && TxnInv(db, t) && t.todo == [] && TxnInv(db, u) && Disjoint(t, u)
    ensures TxnInv(Committed(db, t), u)
  {
    CommitTxnShape(db, t, u);
    CommitRolls(db, t, u);
    CommitOtherLogs(db, t, u);
    CommitOtherCapped(db, t, u);
    CommitCloses(db, t, u);
  }

  lemma CommitInv(db: Db, t: Txn)
    requires DbInv(db) && TxnInv(db, t) && t.todo == []
    ensures DbInv(Committed(db, t))
  {
    CommitShape(db, t);
    CommitNoOrphans(db, t);
    CommitLogs(db, t);
    CommitCapped(db, t);
  }

  lemma StepInv(s: State, a: Action, s': State)
    requires Inv(s) && Step(s, a, s')
    ensures Inv(s')
  {
    match a {
      case Begin(id, job) => BeginStepInv(s, id, job);
      case Execute(id, e) => ExecuteStepInv(s, id, e);
      case Commit(id) => CommitStepInv(s, id);
      case Abort(id) => AbortStepInv(s, id);
    }
  }

  lemma BeginStepInv(s: State, id: TxnId, job: Job)
    requires Inv(s) && id !in s.txns && JobAllowed(s.db, job)
    ensures Inv(s.(txns := s.txns[id := Begun(job)]))
  {
    BegunInv(s.db, job);
  }

  lemma AbortStepInv(s: State, id: TxnId)
    requires Inv(s)
    ensures Inv(s.(txns := s.txns - {id}))
  {
  }

  lemma ExecuteStepInv(s: State, id: TxnId, e: Effect)
    requires Inv(s) && Stepping(s, id, e)
    ensures Inv(s.(txns := s.txns[id := After(s.txns[id], e)]))
  {
    StmtInv(s, id, e);
    StmtExclusive(s, id, e);
  }

  lemma CommitStepInv(s: State, id: TxnId)
    requires Inv(s) && id in s.txns && s.txns[id].todo == []
    ensures Inv(State(Committed(s.db, s.txns[id]), s.txns - {id}))
  {
    CommitInv(s.db, s.txns[id]);
    forall o | o in s.txns && o != id ensures TxnInv(Committed(s.db, s.txns[id]), s.txns[o]) {
      CommitOtherInv(s.db, s.txns[id], s.txns[o]);
    }
  }

  lemma {:induction false} Reachable(b: seq<State>, i: nat)
    requires Behavior(b) && i < |b|
    ensures Inv(b[i])
  {
    if i == 0 {
      InitInv(b[0]);
    } else {
      Reachable(b, i - 1);
      assert Moves(b, i - 1);
      var a :| Step(b[i - 1], a, b[i]);
      StepInv(b[i - 1], a, b[i]);
    }
  }

  // Rollup

  /** No committed state has an open parent whose children are all terminal. */
  lemma NoLostRollup(b: seq<State>, i: nat)
    requires Behavior(b) && i < |b|
    ensures NoOrphans(b[i].db.runs)
    ensures var runs := b[i].db.runs;
            forall p :: HasChild(runs, p) && p in runs && runs[p].status in {Queued, Claimed, Running} ==>
                          exists c :: IsChild(runs, c, p) && runs[c].status in {Queued, Claimed, Running}
  {
    Reachable(b, i);
  }

  /** `reconcile_orphaned_parents` never finds a row. */
  lemma ReconcileFindsNothing(b: seq<State>, i: nat, p: RunId)
    requires Behavior(b) && i < |b|
    ensures !Orphaned(b[i].db.runs, p)
  {
    Reachable(b, i);
  }

  /** The batch has the same children, and its row is untouched or has just left `queued` for good. */
  ghost predicate BatchKept(db: Db, later: Db, p: RunId)
    requires p in db.runs
  {
    && Batch(later, p) && (forall c :: IsChild(later.runs, c, p) <==> IsChild(db.runs, c, p))
    && (later.runs[p] == db.runs[p] || (db.runs[p].status == Queued && Terminal(later.runs[p].status)))
  }

  lemma CommitBatch(db: Db, t: Txn, p: RunId)
    requires TxnShape(db, t) && t.todo == [] && Batch(db, p)
    ensures BatchKept(db, Committed(db, t), p)
  {
    CommitKeeps(db, t, p);
    assert p in t.writes ==> RowOk(db, t, p);
  }

  lemma BatchStep(s: State, a: Action, s': State, p: RunId)
    requires Inv(s) && Step(s, a, s') && Batch(s.db, p)
    ensures BatchKept(s.db, s'.db, p)
  {
    if a.Commit? {
      assert TxnInv(s.db, s.txns[a.id]);
      CommitBatch(s.db, s.txns[a.id], p);
    }
  }

  lemma BatchNext(b: seq<State>, i: nat, p: RunId)
    requires Behavior(b) && i + 1 < |b| && Batch(b[i].db, p)
    ensures BatchKept(b[i].db, b[i + 1].db, p)
  {
    Reachable(b, i);
    assert Moves(b, i);
    var a :| Step(b[i], a, b[i + 1]);
    BatchStep(b[i], a, b[i + 1], p);
  }

  lemma KeptTwice(db: Db, mid: Db, later: Db, p: RunId)
    requires Batch(db, p) && BatchKept(db, mid, p) && BatchKept(mid, later, p)
    ensures BatchKept(db, later, p)
  {
  }

  lemma {:induction false} BatchHistory(b: seq<State>, i: nat, j: nat, p: RunId)
    requires Behavior(b) && i <= j < |b| && Batch(b[i].db, p)
    ensures BatchKept(b[i].db, b[j].db, p)
    decreases j
  {
    if i == j {
    } else {
      var k := j - 1;
      BatchHistory(b, i, k, p);
      BatchNext(b, k, p);
      KeptTwice(b[i].db, b[k].db, b[j].db, p);
    }
  }

  lemma BatchStatus(b: seq<State>, i: nat, p: RunId)
    requires Behavior(b) && i < |b| && Batch(b[i].db, p)
    ensures b[i].db.runs[p].status in {Queued, Completed, Cancelled} && p !in b[i].db.owned
  {
    Reachable(b, i);
    assert DbShape(b[i].db);
  }

  /** A batch parent is never claimed or run, leaves `queued` once, and never reopens or changes after. */
  lemma BatchLifecycle(b: seq<State>, i: nat, j: nat, p: RunId)
    requires Behavior(b) && i <= j < |b| && Batch(b[i].db, p)
    ensures Batch(b[j].db, p) && p !in b[j].db.owned
    ensures forall c :: IsChild(b[j].db.runs, c, p) <==> IsChild(b[i].db.runs, c, p)
    ensures b[j].db.runs[p].status in {Queued, Completed, Cancelled}
    ensures Terminal(b[i].db.runs[p].status) ==> b[j].db.runs[p] == b[i].db.runs[p]
    ensures b[j].db.runs[p].status == Queued ==> b[i].db.runs[p].status == Queued
  {
    BatchHistory(b, i, j, p);
    BatchStatus(b, j, p);
  }

  /** Transaction `id` is about to tally the children of `p`, and sees `seen`. */
  ghost predicate TalliesNow(s: State, id: TxnId, p: RunId, seen: map<RunId, Run>) {
    Active(s, id) && s.txns[id].todo[0] == Tally(p) && seen == ChildRows(View(s.db, s.txns[id]), p) && !AnyLive(seen)
  }

  lemma ClosesOrTallied(s: State, a: Action, s': State, id: TxnId, p: RunId, seen: map<RunId, Run>)
    requires Inv(s) && Step(s, a, s') && id in s'.txns && Closes(s'.txns[id], p, seen)
    ensures (id in s.txns && Closes(s.txns[id], p, seen)) || TalliesNow(s, id, p, seen)
  {
    match a {
      case Begin(_, job) => BegunClosesNothing(job);
      case Execute(other, e) =>
        if other == id {
          assert Ready(s, id) by { assert s.txns[id].todo[0] in s.txns[id].todo; }
          ClosesArises(s, id, e, p, seen);
        }
      case _ =>
    }
  }

  lemma BegunClosesNothing(job: Job)
    ensures forall c :: c in Program(job) ==> !c.CloseParent?
  {
  }

  lemma ClosesOrJustTallied(b: seq<State>, i: nat, id: TxnId, p: RunId, seen: map<RunId, Run>)
    requires Behavior(b) && i < |b| && id in b[i].txns && Closes(b[i].txns[id], p, seen)
    ensures i > 0
    ensures (id in b[i - 1].txns && Closes(b[i - 1].txns[id], p, seen)) || TalliesNow(b[i - 1], id, p, seen)
  {
    Reachable(b, i - 1);
    assert Moves(b, i - 1);
    var a :| Step(b[i - 1], a, b[i]);
    ClosesOrTallied(b[i - 1], a, b[i], id, p, seen);
  }

  ghost predicate ClosesIn(s: State, id: TxnId, p: RunId, seen: map<RunId, Run>) {
    id in s.txns && Closes(s.txns[id], p, seen)
  }

  /** A stretch that always has a beginning: its first moment follows one marked in `starts`. */
  lemma {:induction false} Beginning(during: seq<bool>, starts: seq<bool>, i: nat) returns (k: nat)
    requires |during| == |starts| && i < |during| && during[i]
    requires forall j :: 0 <= j < |during| && during[j] ==> j > 0 && (during[j - 1] || starts[j - 1])
    ensures k < i && starts[k] && forall m :: k < m <= i ==> during[m]
  {
    if during[i - 1] { k := Beginning(during, starts, i - 1); } else { k := i - 1; }
  }

  /** What a transaction closes on is what it saw itself, in one statement, at an earlier moment. */
  lemma TalliedBefore(b: seq<State>, i: nat, id: TxnId, p: RunId, seen: map<RunId, Run>) returns (k: nat)
    requires Behavior(b) && i < |b| && ClosesIn(b[i], id, p, seen)
    ensures k < i && TalliesNow(b[k], id, p, seen)
    ensures forall m :: k < m <= i ==> ClosesIn(b[m], id, p, seen)
  {
    var during := seq(|b|, j requires 0 <= j < |b| => ClosesIn(b[j], id, p, seen));
    var starts := seq(|b|, j requires 0 <= j < |b| => TalliesNow(b[j], id, p, seen));
    forall j | 0 <= j < |b| && during[j] ensures j > 0 && (during[j - 1] || starts[j - 1]) {
      ClosesOrJustTallied(b, j, id, p, seen);
    }
    k := Beginning(during, starts, i);
    forall m | k < m <= i ensures ClosesIn(b[m], id, p, seen) { assert during[m]; }
  }

  /** How a commit that closes `p` leaves it, given what the transaction recorded. */
  ghost predicate ClosedOn(now: Db, p: RunId, closing: Closing)
    requires p in now.runs
  {
    && Recalls(now.runs, p, closing.seen)
    && StatusBy(now.runs[p], closing.seen)
    && (AgreesOnCancelled(now.runs, p) <==> !AllRevived(closing.seen, now.runs))
    && (now.runs[p].status == Completed ==> closing.badge.Some? && BadgeOf(now, p, closing.badge.value))
    && (AllChildrenTerminal(now, p) ==> ClosedAsItsChildrenSay(now, p))
  }

  lemma ClosingCommitLeaves(db: Db, t: Txn, p: RunId)
    requires TxnShape(db, t) && TxnCloses(db, t) && t.todo == [] && Batch(db, p)
    requires Live(db.runs[p].status) && Terminal(Committed(db, t).runs[p].status)
    ensures p in t.closed && ClosedOn(Committed(db, t), p, t.closed[p])
  {
    CloseAgreesUpToRevival(db, t, p);
    if Committed(db, t).runs[p].status == Completed { BadgeIsOfRowsRead(db, t, p); }
    if AllChildrenTerminal(Committed(db, t), p) { CloseAgrees(Committed(db, t), p, t.closed[p]); }
  }

  lemma OnlyCommitsCloses(s: State, a: Action, s': State, p: RunId)
    requires Inv(s) && Step(s, a, s') && Batch(s.db, p)
    requires Live(s.db.runs[p].status) && p in s'.db.runs && Terminal(s'.db.runs[p].status)
    ensures a.Commit? && p in s.txns[a.id].closed && ClosedOn(s'.db, p, s.txns[a.id].closed[p])
  {
    if a.Commit? {
      assert TxnInv(s.db, s.txns[a.id]);
      ClosingCommitLeaves(s.db, s.txns[a.id], p);
    }
  }

  /**
   The step that closes a batch is the commit of a transaction `id` that tallied the children at moment
   `k`. The parent is cancelled exactly when that tally saw a cancelled child; this agrees with the
   children at the commit if and only if not all children it saw cancelled are live again by then. The
   badge is the verdict of the rows read for it, each of which has the same outcome at the commit or is
   live. With all children terminal, both are simply what the children say.
   */
  lemma BatchCloses(b: seq<State>, i: nat, p: RunId) returns (id: TxnId, k: nat)
    requires Behavior(b) && i + 1 < |b| && Batch(b[i].db, p)
    requires Live(b[i].db.runs[p].status) && p in b[i + 1].db.runs && Terminal(b[i + 1].db.runs[p].status)
    ensures Step(b[i], Commit(id), b[i + 1]) && p in b[i].txns[id].closed
    ensures ClosedOn(b[i + 1].db, p, b[i].txns[id].closed[p])
    ensures k < i && TalliesNow(b[k], id, p, b[i].txns[id].closed[p].seen)
    ensures forall m :: k < m <= i ==> ClosesIn(b[m], id, p, b[i].txns[id].closed[p].seen)
  {
    Reachable(b, i);
    assert Moves(b, i);
    var a :| Step(b[i], a, b[i + 1]);
    OnlyCommitsCloses(b[i], a, b[i + 1], p);
    id := a.id;
    k := TalliedBefore(b, i, id, p, b[i].txns[id].closed[p].seen);
  }

  /** A run comes back from a terminal status by becoming `running`, and in no other way. */
  lemma OnlyRunningRevives(b: seq<State>, i: nat, r: RunId)
    requires Behavior(b) && i + 1 < |b| && r in b[i].db.runs && Terminal(b[i].db.runs[r].status)
    ensures r in b[i + 1].db.runs
    ensures Live(b[i + 1].db.runs[r].status) ==> b[i + 1].db.runs[r].status == Running && r in b[i + 1].db.resurrected
  {
    Reachable(b, i);
    assert Moves(b, i);
    var a :| Step(b[i], a, b[i + 1]);
    RevivalStep(b[i], a, b[i + 1], r);
  }

  lemma RevivalStep(s: State, a: Action, s': State, r: RunId)
    requires Inv(s) && Step(s, a, s') && r in s.db.runs && Terminal(s.db.runs[r].status)
    ensures r in s'.db.runs
    ensures Live(s'.db.runs[r].status) ==> s'.db.runs[r].status == Running && r in s'.db.resurrected
  {
    if a.Commit? {
      assert TxnInv(s.db, s.txns[a.id]);
      CommitRevives(s.db, s.txns[a.id], r);
    }
  }

  lemma CommitRevives(db: Db, t: Txn, r: RunId)
    requires TxnShape(db, t) && r in db.runs && Terminal(db.runs[r].status)
    ensures var later := Committed(db, t);
            r in later.runs && (Live(later.runs[r].status) ==> later.runs[r].status == Running && r in later.resurrected)
  {
    assert r in t.writes ==> RowOk(db, t, r);
  }

  // Claims

  /** Once claimed or ended, a run is never queued again, and it is never claimed a second time. */
  ghost predicate NotClaimedAgain(run: Run, later: Run) {
    run.status != Queued ==> later.status != Queued && (later.status == Claimed ==> run.status == Claimed)
  }

  lemma ClaimStepOnce(s: State, a: Action, s': State, r: RunId)
    requires Inv(s) && Step(s, a, s') && r in s.db.runs
    ensures r in s'.db.runs && NotClaimedAgain(s.db.runs[r], s'.db.runs[r])
  {
    if a.Commit? {
      assert TxnInv(s.db, s.txns[a.id]);
      CommitClaimsOnce(s.db, s.txns[a.id], r);
    }
  }

  lemma CommitClaimsOnce(db: Db, t: Txn, r: RunId)
    requires TxnShape(db, t) && r in db.runs
    ensures r in Committed(db, t).runs && NotClaimedAgain(db.runs[r], Committed(db, t).runs[r])
  {
    assert r in t.writes ==> RowOk(db, t, r);
  }

  lemma ClaimNextOnce(b: seq<State>, i: nat, r: RunId)
    requires Behavior(b) && i + 1 < |b| && r in b[i].db.runs
    ensures r in b[i + 1].db.runs && NotClaimedAgain(b[i].db.runs[r], b[i + 1].db.runs[r])
  {
    Reachable(b, i);
    assert Moves(b, i);
    var a :| Step(b[i], a, b[i + 1]);
    ClaimStepOnce(b[i], a, b[i + 1], r);
  }

  /** Over any behavior a run is claimed at most once, so one worker at most ever runs it. */
  lemma {:induction false} ClaimedAtMostOnce(b: seq<State>, i: nat, j: nat, r: RunId)
    requires Behavior(b) && i <= j < |b| && r in b[i].db.runs
    ensures r in b[j].db.runs && NotClaimedAgain(b[i].db.runs[r], b[j].db.runs[r])
    decreases j
  {
    if i == j {
    } else {
      ClaimedAtMostOnce(b, i, j - 1, r);
      ClaimNextOnce(b, j - 1, r);
    }
  }

  /** An agent's live calls exceed its cap by no more than the rows an unguarded write brought back. */
  lemma CapAlwaysHolds(b: seq<State>, i: nat, a: AgentId)
    requires Behavior(b) && i < |b|
    ensures |Occupying(b[i].db.runs, a)| <= Cap(b[i].db, a) + |Overwritten(b[i].db, a)|
    ensures b[i].db.resurrected == {} ==> |Occupying(b[i].db.runs, a)| <= Cap(b[i].db, a)
    ensures var runs := b[i].db.runs;
            Occupying(runs, a) == set r | r in runs && runs[r].agent == a && runs[r].status in {Claimed, Running}
  {
    Reachable(b, i);
    CapHolds(b[i].db, a);
  }

  // Events

  lemma LogIsGapless(b: seq<State>, i: nat, r: RunId)
    requires Behavior(b) && i < |b|
    ensures Gapless(LogOf(b[i].db, r))
  {
    Reachable(b, i);
  }

  lemma LogStep(s: State, a: Action, s': State, r: RunId)
    requires Inv(s) && Step(s, a, s')
    ensures Extends(LogOf(s.db, r), LogOf(s'.db, r))
  {
    if a.Commit? {
      assert TxnInv(s.db, s.txns[a.id]);
      CommitLogs(s.db, s.txns[a.id]);
    }
  }

  lemma LogNext(b: seq<State>, i: nat, r: RunId)
    requires Behavior(b) && i + 1 < |b|
    ensures Extends(LogOf(b[i].db, r), LogOf(b[i + 1].db, r))
  {
    Reachable(b, i);
    assert Moves(b, i);
    var a :| Step(b[i], a, b[i + 1]);
    LogStep(b[i], a, b[i + 1], r);
  }

  lemma {:induction false} LogExtends(b: seq<State>, i: nat, j: nat, r: RunId)
    requires Behavior(b) && i <= j < |b|
    ensures Extends(LogOf(b[i].db, r), LogOf(b[j].db, r))
    decreases j
  {
    if i == j {
    } else {
      var k := j - 1;
      LogExtends(b, i, k, r);
      LogNext(b, k, r);
      ExtendsTwice(LogOf(b[i].db, r), LogOf(b[k].db, r), LogOf(b[j].db, r));
    }
  }

  lemma ExtendsTwice(log: map<nat, Event>, mid: map<nat, Event>, later: map<nat, Event>)
    requires Extends(log, mid) && Extends(mid, later)
    ensures Extends(log, later)
  {
  }

  lemma NewerIsLater(log: map<nat, Event>, later: map<nat, Event>, k: nat, m: nat)
    requires Gapless(log) && Gapless(later) && k in log && m in later && m !in log
    ensures k < m
  {
  }

  /** Events become visible in number order: a later log has the earlier one as its beginning. */
  lemma LogGrows(b: seq<State>, i: nat, j: nat, r: RunId, k: nat, m: nat)
    requires Behavior(b) && i <= j < |b|
    ensures Extends(LogOf(b[i].db, r), LogOf(b[j].db, r))
    ensures k in LogOf(b[i].db, r) && m in LogOf(b[j].db, r) && m !in LogOf(b[i].db, r) ==> k < m
  {
    LogExtends(b, i, j, r);
    LogIsGapless(b, i, r);
    LogIsGapless(b, j, r);
    if k in LogOf(b[i].db, r) && m in LogOf(b[j].db, r) && m !in LogOf(b[i].db, r) {
      NewerIsLater(LogOf(b[i].db, r), LogOf(b[j].db, r), k, m);
    }
  }

  /** Whatever committed states a connection happens to poll, it may rely on `Growing`. */
  lemma {:induction false} PollsGrow(b: seq<State>, times: seq<nat>, r: RunId) returns (polls: seq<map<nat, Event>>)
    requires Behavior(b)
    requires forall i :: 0 <= i < |times| ==> times[i] < |b|
    requires forall i, j :: 0 <= i <= j < |times| ==> times[i] <= times[j]
    ensures |polls| == |times| && Growing(polls)
    ensures forall i :: 0 <= i < |times| ==> polls[i] == LogOf(b[times[i]].db, r)
  {
    if times == [] {
      polls := [];
    } else {
      var last := |times| - 1;
      var earlier := PollsGrow(b, times[..last], r);
      LogIsGapless(b, times[last], r);
      if last > 0 { LogExtends(b, times[last - 1], times[last], r); }
      OneMorePoll(earlier, LogOf(b[times[last]].db, r));
      polls := earlier + [LogOf(b[times[last]].db, r)];
    }
  }
}
