/**
 Building runs of the protocol, one statement and one transaction at a time. Every transaction in them is one
 that logs only under the lock of the row it logs on.
 */
module ProtocolRuns {
  import opened RunTypes
  import opened Verdicts
  import opened Transactions
  import opened Discipline
  import opened EventLog
  import opened ClosingCommit
  import opened Protocol
  import opened RowLocks

  // One step at a time

  /** Some behavior of such transactions leads to `s`. */
  ghost predicate Arises(s: State) {
    exists b: seq<State> :: LeadsTo(b, s)
  }

  ghost predicate LeadsTo(b: seq<State>, s: State) {
    Behavior(b) && OnlyRowLockers(b) && b[|b| - 1] == s
  }

  function Put(s: State, id: TxnId, t: Txn): State {
    s.(txns := s.txns[id := t])
  }

  predicate RowLocking(a: Action) {
    a.Begin? ==> TakesRowLock(a.job)
  }

  lemma OneStep(s: State, a: Action, s': State)
    requires Arises(s) && Step(s, a, s') && RowLocking(a)
    ensures Arises(s')
  {
    var b: seq<State> :| LeadsTo(b, s);
    Longer(b, s, a, s');
  }

  lemma Longer(b: seq<State>, s: State, a: Action, s': State)
    requires LeadsTo(b, s) && Step(s, a, s') && RowLocking(a)
    ensures LeadsTo(b + [s'], s')
  {
    LongerBehavior(b, a, s');
    LongerLocks(b, s, a, s');
  }

  lemma LongerBehavior(b: seq<State>, a: Action, s': State)
    requires Behavior(b) && Step(b[|b| - 1], a, s')
    ensures Behavior(b + [s'])
  {
    var longer := b + [s'];
    forall i | 0 <= i < |longer| - 1 ensures Moves(longer, i) {
      if i < |b| - 1 {
        StillMoves(b, s', i);
      } else {
        LastMoves(b, a, s');
      }
    }
  }

  lemma StillMoves(b: seq<State>, s': State, i: nat)
    requires i + 1 < |b| && Moves(b, i)
    ensures Moves(b + [s'], i)
  {
    assert (b + [s'])[i] == b[i] && (b + [s'])[i + 1] == b[i + 1];
  }

  lemma LastMoves(b: seq<State>, a: Action, s': State)
    requires |b| > 0 && Step(b[|b| - 1], a, s')
    ensures Moves(b + [s'], |b| - 1)
  {
    assert Next(b[|b| - 1], s');
  }

  lemma LongerLocks(b: seq<State>, s: State, a: Action, s': State)
    requires |b| > 0 && b[|b| - 1] == s && OnlyRowLockers(b) && Step(s, a, s') && RowLocking(a)
    ensures OnlyRowLockers(b + [s'])
  {
    var longer := b + [s'];
    forall i, id | Enters(longer, i, id) ensures exists job :: TakesRowLock(job) && longer[i].txns[id] == Begun(job) {
      if i < |b| {
        assert Enters(b, i, id);
      } else {
        NewTxnBegun(s, a, s', id);
      }
    }
  }

  lemma NewTxnBegun(s: State, a: Action, s': State, id: TxnId)
    requires Step(s, a, s') && id in s'.txns && id !in s.txns
    ensures a.Begin? && s'.txns[id] == Begun(a.job)
  {
  }

  lemma Executed(s: State, id: TxnId, e: Effect)
    requires Arises(s) && Stepping(s, id, e)
    ensures Arises(Put(s, id, After(s.txns[id], e)))
  {
    OneStep(s, Execute(id, e), Put(s, id, After(s.txns[id], e)));
  }

  lemma Starts(s: State, id: TxnId, job: Job)
    requires Arises(s) && id !in s.txns && JobAllowed(s.db, job) && TakesRowLock(job)
    ensures Arises(Put(s, id, Begun(job)))
  {
    OneStep(s, Begin(id, job), Put(s, id, Begun(job)));
  }

  lemma Commits(s: State, id: TxnId)
    requires Arises(s) && id in s.txns && s.txns[id].todo == []
    ensures Arises(State(Committed(s.db, s.txns[id]), s.txns - {id}))
  {
    OneStep(s, Commit(id), State(Committed(s.db, s.txns[id]), s.txns - {id}));
  }

  // One statement at a time

  /** A statement that takes row locks at most. */
  lemma LocksRows(s: State, id: TxnId, pushed: seq<Stmt>, rows: set<RunId>)
    requires Arises(s) && Stepping(s, id, Quiet(pushed).(rows := rows))
    ensures var t := s.txns[id];
            Arises(Put(s, id, t.(todo := pushed + t.todo[1..], rows := t.rows + rows)))
  {
    var t, e := s.txns[id], Quiet(pushed).(rows := rows);
    Executed(s, id, e);
    assert t.writes + map[] == t.writes;
    assert After(t, e) == t.(todo := pushed + t.todo[1..], rows := t.rows + rows);
  }

  lemma WritesRow(s: State, id: TxnId, pushed: seq<Stmt>, r: RunId, row: Run)
    requires Arises(s) && Stepping(s, id, Wrote(pushed, r, row))
    ensures var t := s.txns[id];
            Arises(Put(s, id, t.(todo := pushed + t.todo[1..], writes := t.writes[r := row], rows := t.rows + {r})))
  {
    var t, e := s.txns[id], Wrote(pushed, r, row);
    Executed(s, id, e);
    assert After(t, e) == t.(todo := pushed + t.todo[1..], writes := t.writes[r := row], rows := t.rows + {r});
  }

  lemma TopOf(log: map<nat, Event>) returns (top: nat)
    requires Gapless(log)
    ensures IsTop(log, top)
  {
    top :| GaplessTo(log, top);
    assert top > 0 ==> top in log;
  }

  /** The two statements of `emit`; which number the event gets does not matter here. */
  lemma EmitsEvent(s: State, id: TxnId, r: RunId, event: Event, rest: seq<Stmt>) returns (t: Txn)
    requires Arises(s) && id in s.txns && s.txns[id].todo == [Emit(r, event)] + rest && LogFree(s, id, r)
    ensures Arises(Put(s, id, t)) && t == s.txns[id].(todo := rest, logs := s.txns[id].logs + {r}, events := t.events)
  {
    var before := s.txns[id];
    var e := Quiet([InsertEvent(r, event)]).(logs := {r});
    Executed(s, id, e);
    var mid := before.(todo := [InsertEvent(r, event)] + rest, logs := before.logs + {r});
    assert before.writes + map[] == before.writes;
    assert After(before, e) == mid;
    t := Inserts(Put(s, id, mid), id, r, event, rest);
    assert Put(Put(s, id, mid), id, t) == Put(s, id, t);
  }

  lemma Inserts(s: State, id: TxnId, r: RunId, event: Event, rest: seq<Stmt>) returns (t: Txn)
    requires Arises(s) && id in s.txns && s.txns[id].todo == [InsertEvent(r, event)] + rest
    ensures Arises(Put(s, id, t)) && t == s.txns[id].(todo := rest, events := t.events)
  {
    var before := s.txns[id];
    LogsAreGapless(s, id, r);
    var top := TopOf(LogView(s.db, before, r));
    var e := Quiet([]).(event := Some(Logged(r, top + 1, event)));
    assert EmitStep(s, id, e);
    Executed(s, id, e);
    t := After(before, e);
    assert before.writes + map[] == before.writes && [] + before.todo[1..] == rest;
  }

  lemma LogsAreGapless(s: State, id: TxnId, r: RunId)
    requires Arises(s) && id in s.txns
    ensures Gapless(LogView(s.db, s.txns[id], r))
  {
    var b: seq<State> :| LeadsTo(b, s);
    Reachable(b, |b| - 1);
    assert TxnInv(s.db, s.txns[id]);
  }

  // Rollup

  /** Rolling up the end of `c`: the parent's lock, the tally, and the progress event. */
  lemma Tallies(s: State, id: TxnId, c: RunId, p: RunId, rest: seq<Stmt>) returns (t: Txn)
    requires Arises(s) && id in s.txns && s.txns[id].todo == [RollUp(c)] + rest
    requires IsChild(View(s.db, s.txns[id]), c, p) && p in View(s.db, s.txns[id]) && Live(View(s.db, s.txns[id])[p].status)
    requires RowFree(s, id, p) && LogFree(s, id, p)
    ensures var before := s.txns[id];
            var seen := ChildRows(View(s.db, before), p);
            && Arises(Put(s, id, t))
            && t == before.(todo := (if AnyLive(seen) then [] else [CloseParent(p, seen)]) + rest,
                            rows := before.rows + {p}, logs := before.logs + {p}, events := t.events)
  {
    var t0 := s.txns[id];
    RollupStarts(s, id, c, p, rest);
    var t1 := t0.(todo := [Tally(p)] + rest, rows := t0.rows + {p});
    var s1 := Put(s, id, t1);
    assert View(s1.db, t1) == View(s.db, t0);
    t := TallyAndEmit(s1, id, p, rest);
    assert Put(s1, id, t) == Put(s, id, t);
  }

  lemma RollupStarts(s: State, id: TxnId, c: RunId, p: RunId, rest: seq<Stmt>)
    requires Arises(s) && id in s.txns && s.txns[id].todo == [RollUp(c)] + rest
    requires IsChild(View(s.db, s.txns[id]), c, p) && p in View(s.db, s.txns[id]) && Live(View(s.db, s.txns[id])[p].status)
    requires RowFree(s, id, p)
    ensures Arises(Put(s, id, s.txns[id].(todo := [Tally(p)] + rest, rows := s.txns[id].rows + {p})))
  {
    var t0 := s.txns[id];
    assert RollupStep(s, id, Quiet([LockParent(p)]).(rows := {}));
    LocksRows(s, id, [LockParent(p)], {});
    var t1 := t0.(todo := [LockParent(p)] + rest);
    assert t0.todo[1..] == rest && t0.rows + {} == t0.rows;
    var s1 := Put(s, id, t1);
    assert RollupStep(s1, id, Quiet([Tally(p)]).(rows := {p}));
    LocksRows(s1, id, [Tally(p)], {p});
    assert t1.todo[1..] == rest;
    assert Put(s1, id, t0.(todo := [Tally(p)] + rest, rows := t0.rows + {p})) == Put(s, id, t0.(todo := [Tally(p)] + rest, rows := t0.rows + {p}));
  }

  lemma TallyRuns(s: State, id: TxnId, p: RunId, rest: seq<Stmt>)
    requires Arises(s) && id in s.txns && s.txns[id].todo == [Tally(p)] + rest
    ensures Arises(Put(s, id, s.txns[id].(todo := AfterTally(p, ChildRows(View(s.db, s.txns[id]), p)) + rest)))
  {
    var t0 := s.txns[id];
    var pushed := AfterTally(p, ChildRows(View(s.db, t0), p));
    assert RollupStep(s, id, Quiet(pushed).(rows := {}));
    LocksRows(s, id, pushed, {});
    assert t0.todo[1..] == rest && t0.rows + {} == t0.rows;
  }

  lemma TallyEmitsFirst(p: RunId, seen: map<RunId, Run>, rest: seq<Stmt>) returns (progress: Event)
    ensures AfterTally(p, seen) + rest == [Emit(p, progress)] + ((if AnyLive(seen) then [] else [CloseParent(p, seen)]) + rest)
  {
    progress := ProgressEvent(|Concluded(seen)|, |seen|);
  }

  lemma TallyAndEmit(s: State, id: TxnId, p: RunId, rest: seq<Stmt>) returns (t: Txn)
    requires Arises(s) && id in s.txns && s.txns[id].todo == [Tally(p)] + rest && LogFree(s, id, p)
    ensures var before := s.txns[id];
            var seen := ChildRows(View(s.db, before), p);
            && Arises(Put(s, id, t))
            && t == before.(todo := (if AnyLive(seen) then [] else [CloseParent(p, seen)]) + rest,
                            logs := before.logs + {p}, events := t.events)
  {
    var t0 := s.txns[id];
    var seen := ChildRows(View(s.db, t0), p);
    TallyRuns(s, id, p, rest);
    var t1 := t0.(todo := AfterTally(p, seen) + rest);
    var next := (if AnyLive(seen) then [] else [CloseParent(p, seen)]) + rest;
    var progress := TallyEmitsFirst(p, seen, rest);
    t := EmitsEvent(Put(s, id, t1), id, p, progress, next);
    assert Put(Put(s, id, t1), id, t) == Put(s, id, t);
  }

  /** The badge of a completed batch, from a read of its children. */
  lemma ReadsBadgeOf(s: State, p: RunId, b: BadgeRead) returns (s': State)
    requires Arises(s) && 1 in s.txns && s.txns[1].todo == [BadgeParent(p)]
    requires var t := s.txns[1];
             && p in View(s.db, t) && p in t.closed && b.read == ChildRows(View(s.db, t), p)
             && Enumerates(b.order, b.read.Keys) && b.rubric == RubricOf(s.db, p)
    ensures Arises(s') && s'.db == s.db && 1 in s'.txns
    ensures var t, t' := s.txns[1], s'.txns[1];
            var row := View(s.db, t)[p];
            && t'.todo == [] && t'.writes == t.writes[p := row.(metrics := StoredBadge(row.kind, b))]
            && t'.closed == t.closed[p := t.closed[p].(badge := Some(b))]
  {
    var t := s.txns[1];
    var e := BadgeEffect(p, View(s.db, t)[p], t.closed[p], b);
    assert CloseStep(s, 1, e);
    Executed(s, 1, e);
    s' := Put(s, 1, After(t, e));
  }

  /** The close: the parent's row and the status event. A completed batch then reads its badge. */
  lemma ClosesParent(s: State, id: TxnId, p: RunId, seen: map<RunId, Run>) returns (t: Txn)
    requires Arises(s) && id in s.txns && s.txns[id].todo == [CloseParent(p, seen)]
    requires p in View(s.db, s.txns[id]) && LogFree(s, id, p)
    ensures var before := s.txns[id];
            && Arises(Put(s, id, t))
            && t == before.(todo := if CloseStatus(seen) == Completed then [BadgeParent(p)] else [],
                            writes := before.writes[p := SetStatus(View(s.db, before)[p], CloseStatus(seen))],
                            rows := before.rows + {p}, logs := before.logs + {p},
                            closed := before.closed[p := Closing(seen, None)], events := t.events)
  {
    var t0 := s.txns[id];
    var final := CloseStatus(seen);
    var rest: seq<Stmt> := if final == Completed then [BadgeParent(p)] else [];
    WritesParent(s, id, p, seen);
    var t1 := t0.(todo := [Emit(p, StatusEvent(final))] + rest, writes := t0.writes[p := SetStatus(View(s.db, t0)[p], final)],
                  rows := t0.rows + {p}, closed := t0.closed[p := Closing(seen, None)]);
    t := EmitsEvent(Put(s, id, t1), id, p, StatusEvent(final), rest);
    assert Put(Put(s, id, t1), id, t) == Put(s, id, t);
  }

  lemma WritesParent(s: State, id: TxnId, p: RunId, seen: map<RunId, Run>)
    requires Arises(s) && id in s.txns && s.txns[id].todo == [CloseParent(p, seen)] && p in View(s.db, s.txns[id])
    ensures var before, final := s.txns[id], CloseStatus(seen);
            Arises(Put(s, id, before.(todo := [Emit(p, StatusEvent(final))] + if final == Completed then [BadgeParent(p)] else [],
                                      writes := before.writes[p := SetStatus(View(s.db, before)[p], final)],
                                      rows := before.rows + {p}, closed := before.closed[p := Closing(seen, None)])))
  {
    var t, final := s.txns[id], CloseStatus(seen);
    var e := ClosingEffect(p, View(s.db, t)[p], seen);
    assert CloseStep(s, id, e);
    Executed(s, id, e);
    assert After(t, e) == t.(todo := [Emit(p, StatusEvent(final))] + if final == Completed then [BadgeParent(p)] else [],
                             writes := t.writes[p := SetStatus(View(s.db, t)[p], final)],
                             rows := t.rows + {p}, closed := t.closed[p := Closing(seen, None)]);
  }

  // Jobs, with no other transaction in flight

  predicate Idle(s: State) {
    s.txns == map[]
  }

  /** What every job below leaves alone, and the one row it changes. */
  predicate Rewrote(db: Db, later: Db, r: RunId, status: Status)
    requires r in db.runs
  {
    && later.runs == db.runs[r := SetStatus(db.runs[r], status)]
    && later.caps == db.caps && later.rubrics == db.rubrics && db.owned <= later.owned
    && later.resurrected == db.resurrected + if Terminal(db.runs[r].status) && Live(status) then {r} else {}
  }

  /** `id` is alone, its remaining statements are `todo`, and it has written one row. */
  ghost predicate HasWritten(s: State, id: TxnId, db: Db, todo: seq<Stmt>, r: RunId, status: Status)
    requires r in db.runs
  {
    && s.db == db && s.txns.Keys == {id} && s.txns[id].todo == todo
    && s.txns[id].writes == map[r := SetStatus(db.runs[r], status)] && r in s.txns[id].rows
  }

  lemma CommitsOne(s: State, id: TxnId, db: Db, r: RunId, status: Status) returns (s': State)
    requires r in db.runs && Arises(s) && HasWritten(s, id, db, [], r, status)
    ensures Arises(s') && Idle(s') && Rewrote(db, s'.db, r, status)
    ensures db.runs[r].status == Queued && status == Claimed ==> r in s'.db.owned
  {
    Commits(s, id);
    s' := State(Committed(s.db, s.txns[id]), s.txns - {id});
    OneRowCommits(db, s.txns[id], r, status);
  }

  /** The end of `c`, already written, rolls up into a parent that has another live child. */
  lemma RollsUpOpen(s: State, id: TxnId, db: Db, c: RunId, status: Status, rest: seq<Stmt>, p: RunId, d: RunId) returns (s': State)
    requires c in db.runs && Arises(s) && HasWritten(s, id, db, [RollUp(c)] + rest, c, status)
    requires IsChild(db.runs, c, p) && p in db.runs && p != c && Live(db.runs[p].status)
    requires IsChild(db.runs, d, p) && d != c && Live(db.runs[d].status)
    ensures Arises(s') && HasWritten(s', id, db, rest, c, status)
  {
    var view := View(s.db, s.txns[id]);
    assert d in ChildRows(view, p) && Live(ChildRows(view, p)[d].status);
    var t := Tallies(s, id, c, p, rest);
    s' := Put(s, id, t);
  }

  ghost predicate Childless(db: Db, c: RunId) {
    !HasChild(db.runs, c)
  }

  /** One child of an open batch, with a sibling that is live. */
  ghost predicate HasLiveSibling(db: Db, c: RunId, p: RunId, d: RunId) {
    && IsChild(db.runs, c, p) && Childless(db, c) && p in db.runs && p != c && Live(db.runs[p].status)
    && IsChild(db.runs, d, p) && d != c && Live(db.runs[d].status)
  }

  lemma CancelsChild(s: State, c: RunId, p: RunId, d: RunId) returns (s': State)
    requires Arises(s) && Idle(s) && HasLiveSibling(s.db, c, p, d) && s.db.runs[c].status == Claimed
    ensures Arises(s') && Idle(s') && Rewrote(s.db, s'.db, c, Cancelled)
  {
    var s1 := CancelsRow(s, c);
    var s2 := RollsUpOpen(s1, 0, s.db, c, Cancelled, [], p, d);
    s' := CommitsOne(s2, 0, s.db, c, Cancelled);
  }

  lemma CancelsRow(s: State, c: RunId) returns (s': State)
    requires Arises(s) && Idle(s) && c in s.db.runs && Childless(s.db, c) && s.db.runs[c].status == Claimed
    ensures Arises(s') && HasWritten(s', 0, s.db, [RollUp(c)] + [], c, Cancelled)
  {
    Starts(s, 0, CancelRun(c));
    var s1 := Put(s, 0, Begun(CancelRun(c)));
    assert ExecutorStep(s1, 0, Quiet([]).(rows := {c}));
    LocksRows(s1, 0, [], {c});
    var t2 := Begun(CancelRun(c)).(todo := [BranchOnChildren(c)], rows := {c});
    assert [] + s1.txns[0].todo[1..] == t2.todo && {} + {c} == t2.rows;
    s' := CancelBranches(Put(s1, 0, t2), s.db, c);
  }

  lemma CancelBranches(s: State, db: Db, c: RunId) returns (s': State)
    requires Arises(s) && s.db == db && s.txns.Keys == {0} && c in db.runs && Childless(db, c)
    requires s.txns[0] == Begun(CancelRun(c)).(todo := [BranchOnChildren(c)], rows := {c})
    ensures Arises(s') && HasWritten(s', 0, db, [RollUp(c)] + [], c, Cancelled)
  {
    var t0 := s.txns[0];
    assert View(db, t0) == db.runs;
    assert CancelStep(s, 0, Quiet([Finish(c, Cancelled, None)]).(rows := {}));
    LocksRows(s, 0, [Finish(c, Cancelled, None)], {});
    var t1 := t0.(todo := [Finish(c, Cancelled, None)]);
    assert [Finish(c, Cancelled, None)] + t0.todo[1..] == t1.todo && t0.rows + {} == t0.rows;
    var s1 := Put(s, 0, t1);
    assert ExecutorStep(s1, 0, Wrote([RollUp(c)], c, SetStatus(db.runs[c], Cancelled)));
    WritesRow(s1, 0, [RollUp(c)], c, SetStatus(db.runs[c], Cancelled));
    s' := Put(s1, 0, t1.(todo := [RollUp(c)] + t1.todo[1..], writes := t1.writes[c := SetStatus(db.runs[c], Cancelled)], rows := t1.rows + {c}));
  }

  lemma ReapsChild(s: State, c: RunId, p: RunId, d: RunId) returns (s': State)
    requires Arises(s) && Idle(s) && HasLiveSibling(s.db, c, p, d) && s.db.runs[c].status == Claimed
    ensures Arises(s') && Idle(s') && Rewrote(s.db, s'.db, c, Failed)
  {
    var s1 := ReapScans(s, c);
    var s2 := ReapLogs(s1, s.db, c);
    var s3 := ReapWrites(s2, s.db, c);
    var s4 := RollsUpOpen(s3, 0, s.db, c, Failed, [Reap([])], p, d);
    var s5 := ReapEnds(s4, s.db, c);
    s' := CommitsOne(s5, 0, s.db, c, Failed);
  }

  /** Only the reaper's transaction is in flight; it holds `c` and has written nothing. */
  ghost predicate Reaping(s: State, db: Db, todo: seq<Stmt>, c: RunId) {
    && s.db == db && s.txns.Keys == {0} && s.txns[0].todo == todo
    && s.txns[0].writes == map[] && s.txns[0].rows == {c}
  }

  lemma ReapScans(s: State, c: RunId) returns (s': State)
    requires Arises(s) && Idle(s) && c in s.db.runs && s.db.runs[c].status == Claimed
    ensures Arises(s') && Reaping(s', s.db, [Reap([c])], c)
  {
    Starts(s, 0, ReapStale);
    var s1 := Put(s, 0, Begun(ReapStale));
    FindsStale(s1, c);
    LocksRows(s1, 0, [Reap([c])], {c});
    s' := Put(s1, 0, s1.txns[0].(todo := [Reap([c])] + s1.txns[0].todo[1..], rows := s1.txns[0].rows + {c}));
  }

  lemma FindsStale(s: State, c: RunId)
    requires s.txns == map[0 := Begun(ReapStale)] && c in s.db.runs && s.db.runs[c].status == Claimed
    ensures ReaperStep(s, 0, Quiet([Reap([c])]).(rows := {c}))
  {
    assert (set r | r in [c]) == {c};
    assert Distinct([c]);
  }

  lemma ReapLogs(s: State, db: Db, c: RunId) returns (s': State)
    requires Arises(s) && Reaping(s, db, [Reap([c])], c)
    ensures Arises(s') && Reaping(s', db, [ReapUpdate([c])], c)
  {
    var t0 := s.txns[0];
    var pushed := [Emit(c, ErrorEvent(true)), ReapUpdate([c])];
    assert ReaperStep(s, 0, Quiet(pushed).(rows := {}));
    LocksRows(s, 0, pushed, {});
    var s1 := Put(s, 0, t0.(todo := pushed + t0.todo[1..], rows := t0.rows + {}));
    assert s1.txns[0].todo == [Emit(c, ErrorEvent(true))] + [ReapUpdate([c])];
    var t := EmitsEvent(s1, 0, c, ErrorEvent(true), [ReapUpdate([c])]);
    s' := Put(s1, 0, t);
  }

  lemma ReapWrites(s: State, db: Db, c: RunId) returns (s': State)
    requires Arises(s) && Reaping(s, db, [ReapUpdate([c])], c) && c in db.runs && db.runs[c].status == Claimed
    ensures Arises(s') && HasWritten(s', 0, db, [RollUp(c)] + [Reap([])], c, Failed)
  {
    var t0 := s.txns[0];
    var pushed := [RollUp(c), Reap([])];
    var row := SetStatus(db.runs[c], Failed);
    assert View(db, t0) == db.runs && [c][1..] == [];
    assert ReaperStep(s, 0, Wrote(pushed, c, row));
    WritesRow(s, 0, pushed, c, row);
    s' := Put(s, 0, t0.(todo := pushed + t0.todo[1..], writes := t0.writes[c := row], rows := t0.rows + {c}));
  }

  lemma ReapEnds(s: State, db: Db, c: RunId) returns (s': State)
    requires c in db.runs && Arises(s) && HasWritten(s, 0, db, [Reap([])], c, Failed)
    ensures Arises(s') && HasWritten(s', 0, db, [], c, Failed)
  {
    var t0 := s.txns[0];
    assert ReaperStep(s, 0, Quiet([]).(rows := {}));
    LocksRows(s, 0, [], {});
    s' := Put(s, 0, t0.(todo := [] + t0.todo[1..], rows := t0.rows + {}));
  }

  /** A claim by the only worker around. */
  lemma ClaimsRun(s: State, a: AgentId, r: RunId) returns (s': State)
    requires Arises(s) && Idle(s) && |Occupying(s.db.runs, a)| < Cap(s.db, a) && r in s.db.runs
    requires forall id: TxnId, t :: OldestClaimable(Put(s, id, t), id, a, r)
    ensures Arises(s') && Idle(s') && Rewrote(s.db, s'.db, r, Claimed)
    ensures s.db.runs[r].status == Queued ==> r in s'.db.owned
  {
    var s1 := ClaimChecks(s, a);
    var row := SetStatus(s.db.runs[r], Claimed);
    var t1 := s1.txns[0];
    assert s1 == Put(s, 0, t1);
    assert OldestClaimable(Put(s, 0, t1), 0, a, r);
    var e := Wrote([], r, row).(ends := true);
    assert ClaimStep(s1, 0, e);
    Executed(s1, 0, e);
    var s2 := Put(s1, 0, After(t1, e));
    s' := CommitsOne(s2, 0, s.db, r, Claimed);
  }

  lemma ClaimChecks(s: State, a: AgentId) returns (s': State)
    requires Arises(s) && Idle(s) && |Occupying(s.db.runs, a)| < Cap(s.db, a)
    ensures Arises(s') && s'.db == s.db && s'.txns.Keys == {0}
    ensures s'.txns[0].todo == [ClaimOldest(a)] && s'.txns[0].writes == map[]
  {
    var s1 := ClaimBegins(s, a);
    var t := s1.txns[0];
    assert View(s1.db, t) == s.db.runs;
    assert ClaimStep(s1, 0, Quiet([ClaimOldest(a)]).(rows := {}));
    LocksRows(s1, 0, [ClaimOldest(a)], {});
    s' := Put(s1, 0, t.(todo := [ClaimOldest(a)] + t.todo[1..], rows := t.rows + {}));
  }

  lemma ClaimBegins(s: State, a: AgentId) returns (s': State)
    requires Arises(s) && Idle(s)
    ensures Arises(s') && s'.db == s.db && s'.txns.Keys == {0}
    ensures s'.txns[0].todo == [CheckCapacity(a)] && s'.txns[0].writes == map[]
  {
    var job := ClaimAttempt([a]);
    Starts(s, 0, job);
    var s1 := Put(s, 0, Begun(job));
    var e := Quiet([CheckCapacity(a)]).(agents := {a});
    assert s1.txns[0].todo == [TryLockAgent(a)];
    assert ClaimStep(s1, 0, e);
    Executed(s1, 0, e);
    s' := Put(s1, 0, After(s1.txns[0], e));
  }

  lemma CreatesRuns(s: State, rows: map<RunId, Run>) returns (s': State)
    requires Arises(s) && Idle(s) && s.db.runs == map[] && NewRows(rows)
    ensures Arises(s') && Idle(s') && s'.db.runs == rows && s'.db.caps == s.db.caps && s'.db.rubrics == s.db.rubrics
    ensures s'.db.resurrected == s.db.resurrected
  {
    var job := CreateRuns(rows);
    Starts(s, 0, job);
    var s1 := Put(s, 0, Begun(job));
    var s2 := InsertsRuns(s1, rows);
    Commits(s2, 0);
    s' := State(Committed(s2.db, s2.txns[0]), s2.txns - {0});
    NewRowsCommit(s2.db, s2.txns[0]);
  }

  lemma NewRowsCommit(db: Db, t: Txn)
    requires db.runs == map[]
    ensures Committed(db, t).runs == t.writes && Committed(db, t).resurrected == db.resurrected
  {
  }

  lemma InsertsRuns(s: State, rows: map<RunId, Run>) returns (s': State)
    requires Arises(s) && s.txns == map[0 := Begun(CreateRuns(rows))] && s.db.runs == map[]
    ensures Arises(s') && s'.db == s.db && s'.txns.Keys == {0} && s'.txns[0].todo == [] && s'.txns[0].writes == rows
  {
    var e := Quiet([]).(inserts := rows, rows := rows.Keys);
    assert ClaimStep(s, 0, e);
    Executed(s, 0, e);
    s' := Put(s, 0, After(s.txns[0], e));
  }

  // The last child's end, and a start in between

  /** Only transaction 1 is in flight: it has ended `c` and closed `p` on `seen`. */
  ghost predicate HasClosed(s: State, db: Db, c: RunId, p: RunId, seen: map<RunId, Run>, todo: seq<Stmt>)
    requires c in db.runs && p in db.runs
  {
    && s.db == db && s.txns.Keys == {1}
    && var t := s.txns[1];
    && t.todo == todo && t.rows == {c, p} && t.logs == {p} && t.closed == map[p := Closing(seen, None)]
    && t.writes == map[c := SetStatus(db.runs[c], Completed), p := SetStatus(db.runs[p], CloseStatus(seen))]
  }

  lemma LastChildEnds(s: State, c: RunId, p: RunId, seen: map<RunId, Run>) returns (s': State)
    requires Arises(s) && Idle(s) && c in s.db.owned && s.db.runs.Keys >= {c, p} && c != p
    requires s.db.runs[c].status == Claimed && s.db.runs[c].metrics == NO_METRICS && s.db.runs[c].parent == Some(p)
    requires Live(s.db.runs[p].status)
    requires seen == ChildRows(s.db.runs[c := SetStatus(s.db.runs[c], Completed)], p) && !AnyLive(seen)
    ensures Arises(s')
    ensures HasClosed(s', s.db, c, p, seen, if CloseStatus(seen) == Completed then [BadgeParent(p)] else [])
  {
    var s1 := LastChildWrites(s, c);
    var t1 := s1.txns[1];
    assert View(s1.db, t1) == s.db.runs[c := SetStatus(s.db.runs[c], Completed)];
    var t2 := Tallies(s1, 1, c, p, []);
    var s2 := Put(s1, 1, t2);
    assert t2.todo == [CloseParent(p, seen)] && View(s2.db, t2) == View(s1.db, t1);
    var t3 := ClosesParent(s2, 1, p, seen);
    s' := Put(s2, 1, t3);
  }

  lemma LastChildWrites(s: State, c: RunId) returns (s': State)
    requires Arises(s) && Idle(s) && c in s.db.owned && c in s.db.runs
    requires s.db.runs[c].status == Claimed && s.db.runs[c].metrics == NO_METRICS
    ensures Arises(s') && s'.db == s.db && s'.txns.Keys == {1}
    ensures var t := s'.txns[1];
            && t.todo == [RollUp(c)] + [] && t.rows == {c} && t.logs == {} && t.closed == map[]
            && t.writes == map[c := SetStatus(s.db.runs[c], Completed)]
  {
    var job := FinishRun(c, EXECUTING, [], Completed, NO_METRICS);
    Starts(s, 1, job);
    assert Begun(job).todo == [LockRun(c, EXECUTING), Finish(c, Completed, Some(NO_METRICS))];
    var s1, t1 := LastChildLocks(Put(s, 1, Begun(job)), s.db, c, Begun(job));
    s' := LastChildFinishes(s1, s.db, c, t1);
  }

  lemma LastChildLocks(s: State, db: Db, c: RunId, t: Txn) returns (s': State, t': Txn)
    requires Arises(s) && s.db == db && s.txns == map[1 := t] && c in db.runs && db.runs[c].status == Claimed
    requires t == Txn([LockRun(c, EXECUTING), Finish(c, Completed, Some(NO_METRICS))], map[], map[], {}, {}, {}, map[])
    ensures Arises(s') && s'.db == db && s'.txns == map[1 := t']
    ensures t' == Txn([Finish(c, Completed, Some(NO_METRICS))], map[], map[], {c}, {}, {}, map[])
  {
    assert ExecutorStep(s, 1, Quiet([]).(rows := {c}));
    LocksRows(s, 1, [], {c});
    t' := t.(todo := [] + t.todo[1..], rows := t.rows + {c});
    s' := Put(s, 1, t');
  }

  lemma LastChildFinishes(s: State, db: Db, c: RunId, t: Txn) returns (s': State)
    requires Arises(s) && s.db == db && s.txns == map[1 := t] && c in db.runs && db.runs[c].metrics == NO_METRICS
    requires t == Txn([Finish(c, Completed, Some(NO_METRICS))], map[], map[], {c}, {}, {}, map[])
    ensures Arises(s') && s'.db == db && s'.txns.Keys == {1}
    ensures var t' := s'.txns[1];
            && t'.todo == [RollUp(c)] + [] && t'.rows == {c} && t'.logs == {} && t'.closed == map[]
            && t'.writes == map[c := SetStatus(db.runs[c], Completed)]
  {
    var row := SetStatus(db.runs[c], Completed);
    assert View(db, t) == db.runs;
    assert ExecutorStep(s, 1, Wrote([RollUp(c)], c, row));
    WritesRow(s, 1, [RollUp(c)], c, row);
    s' := Put(s, 1, t.(todo := [RollUp(c)] + t.todo[1..], writes := t.writes[c := row], rows := t.rows + {c}));
  }

  /** The runner of `r` makes its first write and commits, whatever else is in flight. */
  lemma StartsRun(s: State, r: RunId) returns (s': State)
    requires Arises(s) && 2 !in s.txns && r in s.db.owned && r in s.db.runs && RowFree(s, 2, r) && LogFree(s, 2, r)
    ensures Arises(s') && s'.txns == s.txns && Rewrote(s.db, s'.db, r, Running)
  {
    var s1 := StartWrites(s, r);
    s' := StartCommits(s1, s, r);
  }

  /** The runner of `r` has made its first write and not committed it. */
  ghost predicate HasStarted(s: State, before: State, r: RunId)
    requires r in before.db.runs
  {
    && s.db == before.db && s.txns.Keys == before.txns.Keys + {2} && (forall id :: id in before.txns ==> s.txns[id] == before.txns[id])
    && s.txns[2] == Txn([Emit(r, StatusEvent(Running))], map[r := SetStatus(before.db.runs[r], Running)], map[], {r}, {}, {}, map[])
  }

  lemma StartWrites(s: State, r: RunId) returns (s': State)
    requires Arises(s) && 2 !in s.txns && r in s.db.owned && r in s.db.runs && RowFree(s, 2, r)
    ensures Arises(s') && HasStarted(s', s, r)
  {
    var job := StartRun(r);
    Starts(s, 2, job);
    var s1 := Put(s, 2, Begun(job));
    var row := SetStatus(s.db.runs[r], Running);
    assert View(s.db, Begun(job)) == s.db.runs;
    assert ExecutorStep(s1, 2, Wrote([], r, row));
    WritesRow(s1, 2, [], r, row);
    var announce := [Emit(r, StatusEvent(Running))];
    var t2 := Begun(job).(todo := announce, writes := map[r := row], rows := {r});
    assert [] + s1.txns[2].todo[1..] == announce && map[][r := row] == t2.writes && {} + {r} == t2.rows;
    s' := Put(s1, 2, t2);
  }

  lemma StartCommits(s: State, before: State, r: RunId) returns (s': State)
    requires r in before.db.runs && 2 !in before.txns && Arises(s) && HasStarted(s, before, r) && LogFree(before, 2, r)
    ensures Arises(s') && s'.txns == before.txns && Rewrote(before.db, s'.db, r, Running)
  {
    assert s.txns[2].todo == [Emit(r, StatusEvent(Running))] + [];
    var t := EmitsEvent(s, 2, r, StatusEvent(Running), []);
    var s1 := Put(s, 2, t);
    Commits(s1, 2);
    s' := State(Committed(s1.db, t), s1.txns - {2});
    assert s'.txns == before.txns;
    OneRowCommits(before.db, t, r, Running);
  }

  lemma OneRowCommits(db: Db, t: Txn, r: RunId, status: Status)
    requires r in db.runs && t.writes == map[r := SetStatus(db.runs[r], status)]
    ensures Rewrote(db, Committed(db, t), r, status)
    ensures db.runs[r].status == Queued && status == Claimed ==> r in Committed(db, t).owned
  {
    OneRowRevived(db, t, r, status);
    OneRowClaimed(db, t, r, status);
  }

  lemma OneRowRevived(db: Db, t: Txn, r: RunId, status: Status)
    requires r in db.runs && t.writes == map[r := SetStatus(db.runs[r], status)]
    ensures Committed(db, t).resurrected == db.resurrected + if Terminal(db.runs[r].status) && Live(status) then {r} else {}
  {
  }

  lemma OneRowClaimed(db: Db, t: Txn, r: RunId, status: Status)
    requires r in db.runs && t.writes == map[r := SetStatus(db.runs[r], status)]
    ensures db.owned <= Committed(db, t).owned
    ensures db.runs[r].status == Queued && status == Claimed ==> r in Committed(db, t).owned
  {
  }
}
