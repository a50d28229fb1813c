/**
 Complete runs of the protocol: a batch cancelled with no cancelled child, a badge read with a child that has
 no verdict, an agent over its cap, and two transactions at work on one run.
 */
module RevivedChild {
  import opened RunTypes
  import opened Verdicts
  import opened Transactions
  import opened Discipline
  import opened ConcurrencyCap
  import opened Protocol
  import opened RowLocks
  import opened ProtocolRuns

  // A batch of two

  const STRICT := Rubric(true, None)
  const PARENT := Run(Suite, 0, 0, None, Queued, NO_METRICS)

  function ChildRow(created: int, status: Status): Run {
    Run(Simulation, 0, created, Some(0), status, NO_METRICS)
  }

  function BatchRows(first: Status, second: Status): map<RunId, Run> {
    map[0 := PARENT, 1 := ChildRow(1, first), 2 := ChildRow(2, second)]
  }

  lemma Family(first: Status, second: Status)
    ensures forall c, p :: IsChild(BatchRows(first, second), c, p) <==> p == 0 && (c == 1 || c == 2)
    ensures HasChild(BatchRows(first, second), 0)
  {
    assert IsChild(BatchRows(first, second), 1, 0);
  }

  lemma FirstBecomes(db: Db, later: Db, first: Status, second: Status, status: Status)
    requires db.runs == BatchRows(first, second) && Rewrote(db, later, 1, status)
    ensures later.runs == BatchRows(status, second)
    ensures later.resurrected == db.resurrected + if Terminal(first) && Live(status) then {1} else {}
  {
  }

  lemma SecondClaimed(db: Db, later: Db, first: Status)
    requires db.runs == BatchRows(first, Queued) && Rewrote(db, later, 2, Claimed)
    ensures later.runs == BatchRows(first, Claimed) && later.resurrected == db.resurrected
  {
  }

  lemma NoneOccupies(first: Status)
    requires first == Queued || first == Cancelled
    ensures Occupying(BatchRows(first, Queued), 0) == {}
  {
  }

  lemma Created(cap: nat) returns (s: State)
    ensures Arises(s) && Idle(s) && s.db.runs == BatchRows(Queued, Queued)
    ensures s.db.caps == map[0 := cap] && s.db.rubrics == map[0 := STRICT] && s.db.resurrected == {}
  {
    var empty := State(Db(map[], map[], map[0 := cap], map[0 := STRICT], {}, {}), map[]);
    assert LeadsTo([empty], empty);
    s := CreatesRuns(empty, BatchRows(Queued, Queued));
  }

  /** Child 1 is older than child 2, and a batch parent is never claimable. */
  lemma NextClaim(s: State, r: RunId, first: Status)
    requires Idle(s) && s.db.runs == BatchRows(first, Queued)
    requires if first == Queued then r == 1 else r == 2
    ensures forall id: TxnId, t :: OldestClaimable(Put(s, id, t), id, 0, r)
  {
    Family(first, Queued);
    forall id: TxnId, t ensures OldestClaimable(Put(s, id, t), id, 0, r) {
      assert Claimable(Put(s, id, t), id, 0, r);
    }
  }

  lemma BothClaimed() returns (s: State)
    ensures Arises(s) && Idle(s) && s.db.runs == BatchRows(Claimed, Claimed)
    ensures {1, 2} <= s.db.owned && s.db.rubrics == map[0 := STRICT]
  {
    var s0 := Created(2);
    NextClaim(s0, 1, Queued);
    NoneOccupies(Queued);
    var s1 := ClaimsRun(s0, 0, 1);
    FirstBecomes(s0.db, s1.db, Queued, Queued, Claimed);
    NextClaim(s1, 2, Claimed);
    assert Occupying(s1.db.runs, 0) == {1};
    s := ClaimsRun(s1, 0, 2);
    SecondClaimed(s1.db, s.db, Claimed);
  }

  lemma SiblingIsLive(db: Db)
    requires db.runs == BatchRows(Claimed, Claimed)
    ensures HasLiveSibling(db, 1, 0, 2)
  {
    Family(Claimed, Claimed);
  }

  /** Child 1 has ended as `first`; child 2 ends, its end is tallied, and child 1 starts before the commit. */
  lemma RevivedBeforeCommit(s: State, first: Status) returns (s': State)
    requires Arises(s) && Idle(s) && s.db.runs == BatchRows(first, Claimed) && {1, 2} <= s.db.owned
    requires first == Cancelled || first == Failed
    ensures Arises(s') && s'.db.runs == BatchRows(Running, Claimed) && s'.db.rubrics == s.db.rubrics && s'.txns.Keys == {1}
    ensures var seen := map[1 := ChildRow(1, first), 2 := ChildRow(2, Completed)];
            var t := s'.txns[1];
            && t.todo == (if first == Cancelled then [] else [BadgeParent(0)]) && t.closed == map[0 := Closing(seen, None)]
            && t.writes == ClosingRows(first)
  {
    var seen := map[1 := ChildRow(1, first), 2 := ChildRow(2, Completed)];
    assert ChildRows(s.db.runs[2 := SetStatus(s.db.runs[2], Completed)], 0) == seen;
    TwoSeen(first);
    var s1 := LastChildEnds(s, 2, 0, seen);
    s' := StartsRun(s1, 1);
    FirstBecomes(s1.db, s'.db, first, Claimed, Running);
  }

  /** What closes the batch: child 2's end and the parent's. */
  function ClosingRows(first: Status): map<RunId, Run> {
    map[2 := ChildRow(2, Completed), 0 := SetStatus(PARENT, if first == Cancelled then Cancelled else Completed)]
  }

  lemma TwoSeen(first: Status)
    requires first == Cancelled || first == Failed
    ensures var seen := map[1 := ChildRow(1, first), 2 := ChildRow(2, Completed)];
            !AnyLive(seen) && CloseStatus(seen) == if first == Cancelled then Cancelled else Completed
  {
    var seen := map[1 := ChildRow(1, first), 2 := ChildRow(2, Completed)];
    assert 1 in seen && seen[1].status == first;
  }

  lemma CommitEnds(s: State) returns (b: seq<State>)
    requires Arises(s) && 1 in s.txns && s.txns[1].todo == []
    ensures |b| >= 2 && Behavior(b) && b[|b| - 2] == s && b[|b| - 1] == State(Committed(s.db, s.txns[1]), s.txns - {1})
  {
    var c: seq<State> :| LeadsTo(c, s);
    var last := State(Committed(s.db, s.txns[1]), s.txns - {1});
    assert Step(s, Commit(1), last);
    Longer(c, s, Commit(1), last);
    b := c + [last];
  }

  /**
   Both children are claimed; a user cancels child 1; child 2's runner ends it, finds all children
   terminal and closes the batch as cancelled; before that commits, child 1's runner makes its first
   write. The batch is then cancelled with one child running and the other completed.
   */
  lemma CancelledWithoutACancelledChild() returns (b: seq<State>)
    ensures Behavior(b) && |b| >= 2
    ensures var before, now := b[|b| - 2].db, b[|b| - 1].db;
            && Batch(before, 0) && Live(before.runs[0].status)
            && 0 in now.runs && now.runs[0].status == Cancelled
            && !AnyCancelled(ChildRows(now.runs, 0)) && HasLiveChild(now.runs, 0)
  {
    var s1 := OneCancelled();
    var s2 := RevivedBeforeCommit(s1, Cancelled);
    ClosesCancelled(s2.db, s2.txns[1]);
    b := CommitEnds(s2);
  }

  lemma ClosesCancelled(db: Db, t: Txn)
    requires db.runs == BatchRows(Running, Claimed) && t.writes == ClosingRows(Cancelled)
    ensures var now := Committed(db, t);
            && Batch(db, 0) && Live(db.runs[0].status)
            && 0 in now.runs && now.runs[0].status == Cancelled
            && !AnyCancelled(ChildRows(now.runs, 0)) && HasLiveChild(now.runs, 0)
  {
    RevivedFamily(db, t);
    NoneCancelled();
  }

  lemma NoneCancelled()
    ensures !AnyCancelled(map[1 := ChildRow(1, Running), 2 := ChildRow(2, Completed)])
  {
  }

  lemma OneCancelled() returns (s: State)
    ensures Arises(s) && Idle(s) && s.db.runs == BatchRows(Cancelled, Claimed) && {1, 2} <= s.db.owned
  {
    var s0 := BothClaimed();
    SiblingIsLive(s0.db);
    s := CancelsChild(s0, 1, 0, 2);
    FirstBecomes(s0.db, s.db, Claimed, Claimed, Cancelled);
  }

  lemma RevivedFamily(db: Db, t: Txn)
    requires db.runs == BatchRows(Running, Claimed)
    requires t.writes.Keys == {0, 2} && t.writes[0].parent == None && t.writes[2] == ChildRow(2, Completed)
    ensures Batch(db, 0) && HasLiveChild(Committed(db, t).runs, 0) && View(db, t)[0] == t.writes[0]
    ensures ChildRows(View(db, t), 0) == map[1 := ChildRow(1, Running), 2 := ChildRow(2, Completed)]
    ensures Committed(db, t).runs == View(db, t)
  {
    Family(Running, Claimed);
    var view := View(db, t);
    assert view.Keys == {0, 1, 2} && view[1] == ChildRow(1, Running) && view[0].parent == None;
    OnlyTheseChildren(view);
  }

  lemma OnlyTheseChildren(m: map<RunId, Run>)
    requires m.Keys == {0, 1, 2} && m[0].parent == None && m[1] == ChildRow(1, Running) && m[2] == ChildRow(2, Completed)
    ensures ChildRows(m, 0) == map[1 := ChildRow(1, Running), 2 := ChildRow(2, Completed)] && HasLiveChild(m, 0)
  {
    assert IsChild(m, 1, 0);
  }

  /**
   The reaper fails child 1; child 2 ends, and its tally finds all children terminal; before the badge is
   read, child 1's runner makes its first write. The rows read include a child with no verdict, and the
   batch is stored as passed although its rubric fails it for any failed call and the tally saw one.
   */
  lemma BadgeReadWithALiveChild() returns (b: seq<State>)
    ensures Behavior(b) && |b| >= 2 && 1 in b[|b| - 2].txns && 0 in b[|b| - 2].txns[1].closed
    ensures var before, now := b[|b| - 2].db, b[|b| - 1].db;
            var closing := b[|b| - 2].txns[1].closed[0];
            && Batch(before, 0) && Live(before.runs[0].status) && 0 in now.runs && now.runs[0].status == Completed
            && 1 in closing.seen && closing.seen[1].status == Failed && RubricOf(now, 0) == Some(STRICT)
            && closing.badge.Some? && 1 in closing.badge.value.read
            && VerdictForRun(closing.badge.value.read[1].status, closing.badge.value.read[1].metrics) == None
            && now.runs[0].metrics == Metrics(Some(Pass), None)
  {
    var s1 := OneReaped();
    var s2 := RevivedBeforeCommit(s1, Failed);
    ReadIsFresh(s2.db, s2.txns[1]);
    var s3 := ReadsBadgeOf(s2, 0, LiveRead());
    ClosesPassed(s3.db, s3.txns[1]);
    b := CommitEnds(s3);
  }

  lemma ClosesPassed(db: Db, t: Txn)
    requires db.runs == BatchRows(Running, Claimed) && t.writes == ClosingRows(Failed)[0 := PassedParent()]
    ensures var now := Committed(db, t);
            && Batch(db, 0) && Live(db.runs[0].status) && 0 in now.runs && now.runs[0].status == Completed
            && now.runs[0].metrics == Metrics(Some(Pass), None)
  {
    PassesOnLiveRead(SetStatus(PARENT, Completed));
    Family(Running, Claimed);
  }

  function PassedParent(): Run {
    SetStatus(PARENT, Completed).(metrics := StoredBadge(Suite, LiveRead()))
  }

  lemma OneReaped() returns (s: State)
    ensures Arises(s) && Idle(s) && s.db.runs == BatchRows(Failed, Claimed) && {1, 2} <= s.db.owned
    ensures s.db.rubrics == map[0 := STRICT]
  {
    var s0 := BothClaimed();
    SiblingIsLive(s0.db);
    s := ReapsChild(s0, 1, 0, 2);
    FirstBecomes(s0.db, s.db, Claimed, Claimed, Failed);
  }

  function LiveRead(): BadgeRead {
    BadgeRead(map[1 := ChildRow(1, Running), 2 := ChildRow(2, Completed)], [1, 2], Some(STRICT))
  }

  lemma PassesOnLiveRead(row: Run)
    requires row == SetStatus(PARENT, Completed)
    ensures row.(metrics := StoredBadge(row.kind, LiveRead())).status == Completed
    ensures row.(metrics := StoredBadge(row.kind, LiveRead())).metrics == Metrics(Some(Pass), None)
  {
    OnlyOneVerdict();
  }

  lemma ReadIsFresh(db: Db, t: Txn)
    requires db.rubrics == map[0 := STRICT] && db.runs == BatchRows(Running, Claimed) && t.writes == ClosingRows(Failed)
    ensures 0 in View(db, t) && View(db, t)[0] == SetStatus(PARENT, Completed)
    ensures LiveRead().read == ChildRows(View(db, t), 0) && LiveRead().rubric == RubricOf(db, 0)
    ensures Enumerates(LiveRead().order, LiveRead().read.Keys)
  {
    RevivedFamily(db, t);
  }

  lemma OnlyOneVerdict()
    ensures StoredBadge(Suite, LiveRead()) == Metrics(Some(Pass), None)
  {
    var read := LiveRead().read;
    assert ChildVerdicts(read, [1, 2][1..]) == [Pass] by {
      assert [1, 2][1..] == [2];
      assert [2][1..] == [];
      assert ChildVerdicts(read, []) == [];
    }
    assert ChildVerdicts(read, [1, 2]) == [Pass];
  }

  // A cap of one

  lemma SiblingIsQueued(db: Db)
    requires db.runs == BatchRows(Claimed, Queued)
    ensures HasLiveSibling(db, 1, 0, 2)
  {
    Family(Claimed, Queued);
  }

  lemma FirstCancelled() returns (s: State)
    ensures Arises(s) && Idle(s) && s.db.runs == BatchRows(Cancelled, Queued) && 1 in s.db.owned
    ensures s.db.caps == map[0 := 1] && s.db.resurrected == {}
  {
    var s0 := Created(1);
    NextClaim(s0, 1, Queued);
    NoneOccupies(Queued);
    var s1 := ClaimsRun(s0, 0, 1);
    FirstBecomes(s0.db, s1.db, Queued, Queued, Claimed);
    SiblingIsQueued(s1.db);
    s := CancelsChild(s1, 1, 0, 2);
    FirstBecomes(s1.db, s.db, Claimed, Queued, Cancelled);
  }

  /**
   One call at a time: run 1 is claimed and cancelled, so run 2 is claimed; then run 1's runner makes its
   first write, and two calls of the agent are live.
   */
  lemma CapExceeded() returns (b: seq<State>)
    ensures Behavior(b)
    ensures var db := b[|b| - 1].db;
            Cap(db, 0) == 1 && Occupying(db.runs, 0) == {1, 2} && Overwritten(db, 0) == {1}
  {
    var s2 := FirstCancelled();
    NextClaim(s2, 2, Cancelled);
    NoneOccupies(Cancelled);
    var s3 := ClaimsRun(s2, 0, 2);
    SecondClaimed(s2.db, s3.db, Cancelled);
    var s4 := StartsRun(s3, 1);
    FirstBecomes(s3.db, s4.db, Cancelled, Claimed, Running);
    TwoOccupy(s4.db);
    b :| LeadsTo(b, s4);
  }

  lemma TwoOccupy(db: Db)
    requires db.runs == BatchRows(Running, Claimed) && db.resurrected == {1}
    ensures Occupying(db.runs, 0) == {1, 2} && Overwritten(db, 0) == {1}
  {
  }

  // Two transactions on one run

  /** Run 1's runner has made its first write when a user cancels the run: the cancel waits for the row. */
  lemma CancelWaits() returns (b: seq<State>)
    ensures Behavior(b) && OnlyRowLockers(b)
    ensures var last := b[|b| - 1];
            && {2, 3} <= last.txns.Keys && Touches(last.txns[2], 1)
            && last.txns[3].todo != [] && last.txns[3].todo[0] == LockRun(1, CANCELLABLE)
  {
    var s0 := BothClaimed();
    var s1 := StartWrites(s0, 1);
    Starts(s1, 3, CancelRun(1));
    b :| LeadsTo(b, Put(s1, 3, Begun(CancelRun(1))));
  }
}
