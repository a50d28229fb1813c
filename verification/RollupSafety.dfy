/** No interleaving of transactions leaves a batch parent open with all its children terminal. */
module RollupSafety {
  import opened RunTypes
  import opened Transactions
  import opened Discipline

  predicate SameOutcome(a: Run, b: Run) {
    a.status == b.status && (a.status == Completed ==> a.metrics == b.metrics)
  }

  /** `t` gives the child `c` of `p` a terminal outcome it did not have. */
  ghost predicate Ends(db: Db, t: Txn, c: RunId, p: RunId) {
    && IsChild(db.runs, c, p) && c in t.writes
    && Terminal(t.writes[c].status) && !SameOutcome(db.runs[c], t.writes[c])
  }

  /** A statement that will still tally `p`. */
  ghost predicate Rolls(db: Db, s: Stmt, p: RunId) {
    match s
    case RollUp(c) => IsChild(db.runs, c, p)
    case LockParent(q) => q == p
    case Tally(q) => q == p
    case CloseParent(q, _) => q == p
    case Cascade(q, _) => q == p
    case _ => false
  }

  ghost predicate Pending(db: Db, todo: seq<Stmt>, p: RunId) {
    exists s :: s in todo && Rolls(db, s, p)
  }

  /** The parent's lock is held, and the parent is closed or seen to have a live child. */
  ghost predicate Settled(db: Db, t: Txn, p: RunId) {
    && Batch(db, p) && p in t.rows
    && (Terminal(View(db, t)[p].status) || HasLiveChild(View(db, t), p))
  }

  ghost predicate TxnRolls(db: Db, t: Txn) {
    forall p :: Batch(db, p) && !Pending(db, t.todo, p) ==>
                  && ((exists c :: Ends(db, t, c, p)) ==> p in t.rows)
                  && (Live(View(db, t)[p].status) ==> HasLiveChild(View(db, t), p))
  }

  // One statement

  /** A write that ends a child announces the tally that must follow it. */
  ghost predicate AnnouncesTally(db: Db, head: Stmt, e: Effect) {
    e.write.Some? && Terminal(e.write.value.row.status) && !head.PartialMetrics? ==>
      forall p :: IsChild(db.runs, e.write.value.run, p) ==> Pending(db, e.pushed, p)
  }

  /** A tally that was due is passed on, or carried out. */
  ghost predicate KeepsTally(db: Db, t: Txn, e: Effect)
    requires t.todo != []
  {
    forall p :: Rolls(db, t.todo[0], p) ==> Pending(db, e.pushed, p) || Settled(db, After(t, e), p)
  }

  lemma ExecutorRolls(s: State, id: TxnId, e: Effect)
    requires Ready(s, id) && (ClaimStep(s, id, e) || ExecutorStep(s, id, e) || EmitStep(s, id, e))
    ensures AnnouncesTally(s.db, s.txns[id].todo[0], e) && KeepsTally(s.db, s.txns[id], e)
  {
    var head := s.txns[id].todo[0];
    if head.Finish? {
      assert RollUp(head.run) in e.pushed;
    }
  }

  lemma RollupRolls(s: State, id: TxnId, e: Effect)
    requires Ready(s, id) && RollupStep(s, id, e) && RowsOk(s.db, s.txns[id])
    ensures AnnouncesTally(s.db, s.txns[id].todo[0], e) && KeepsTally(s.db, s.txns[id], e)
  {
    var db, t := s.db, s.txns[id];
    match t.todo[0] {
      case RollUp(c) => RollUpRolls(db, t, c);
      case LockParent(p) => LockRolls(db, t, e, p);
      case Tally(p) => TallyRolls(db, t, e, p);
    }
  }

  lemma RollUpRolls(db: Db, t: Txn, c: RunId)
    requires t.todo != [] && t.todo[0] == RollUp(c) && c in db.runs && RowsOk(db, t)
    ensures View(db, t)[c].parent == db.runs[c].parent
    ensures db.runs[c].parent.Some? ==> Pending(db, [LockParent(db.runs[c].parent.value)], db.runs[c].parent.value)
  {
    if c in t.writes { assert RowOk(db, t, c); }
    var parent := db.runs[c].parent;
    assert parent.Some? ==> LockParent(parent.value) in [LockParent(parent.value)];
  }

  lemma LockRolls(db: Db, t: Txn, e: Effect, p: RunId)
    requires t.todo != [] && t.todo[0] == LockParent(p) && Batch(db, p) && p in View(db, t)
    requires e == Quiet(if Terminal(View(db, t)[p].status) then [] else [Tally(p)]).(rows := {p})
    ensures Pending(db, e.pushed, p) || Settled(db, After(t, e), p)
  {
    if Terminal(View(db, t)[p].status) {
      assert t.writes + map[] == t.writes;
    } else {
      assert Tally(p) in e.pushed;
    }
  }

  lemma TallyRolls(db: Db, t: Txn, e: Effect, p: RunId)
    requires t.todo != [] && t.todo[0] == Tally(p) && Unclosed(db, t, p)
    requires e == Quiet(AfterTally(p, ChildRows(View(db, t), p)))
    ensures Pending(db, e.pushed, p) || Settled(db, After(t, e), p)
  {
    var seen := ChildRows(View(db, t), p);
    if AnyLive(seen) {
      LiveTallySettles(db, t, p, AfterTally(p, seen));
    } else {
      DeadTallyCloses(db, p, seen);
    }
  }

  lemma LiveTallySettles(db: Db, t: Txn, p: RunId, pushed: seq<Stmt>)
    requires t.todo != [] && Unclosed(db, t, p) && AnyLive(ChildRows(View(db, t), p))
    ensures Settled(db, After(t, Quiet(pushed)), p)
  {
    QuietKeeps(db, t, pushed, p);
    QuietView(db, t, pushed);
    var seen := ChildRows(View(db, t), p);
    var c :| c in seen && Live(seen[c].status);
    assert IsChild(View(db, t), c, p);
  }

  lemma QuietView(db: Db, t: Txn, pushed: seq<Stmt>)
    requires t.todo != []
    ensures View(db, After(t, Quiet(pushed))) == View(db, t)
  {
    assert t.writes + map[] == t.writes;
  }

  lemma DeadTallyCloses(db: Db, p: RunId, seen: map<RunId, Run>)
    requires !AnyLive(seen)
    ensures Pending(db, AfterTally(p, seen), p)
  {
    var todo := AfterTally(p, seen);
    assert todo[1] == CloseParent(p, seen) && todo[1] in todo && Rolls(db, todo[1], p);
  }

  lemma CloseRolls(s: State, id: TxnId, e: Effect)
    requires Ready(s, id) && CloseStep(s, id, e) && RowsOk(s.db, s.txns[id])
    ensures AnnouncesTally(s.db, s.txns[id].todo[0], e) && KeepsTally(s.db, s.txns[id], e)
  {
    var p := s.txns[id].todo[0].run;
    var c :| IsChild(s.db.runs, c, p);
    assert s.db.runs[p].parent == None;
  }

  lemma CancelRolls(s: State, id: TxnId, e: Effect)
    requires Ready(s, id) && CancelStep(s, id, e)
    ensures AnnouncesTally(s.db, s.txns[id].todo[0], e) && KeepsTally(s.db, s.txns[id], e)
  {
    var head := s.txns[id].todo[0];
    if head.Cascade? {
      assert e.pushed[0] in e.pushed && Rolls(s.db, e.pushed[0], head.run);
      if head.children != [] { assert head.children[0] in head.children; }
    }
  }

  lemma ReaperRolls(s: State, id: TxnId, e: Effect)
    requires Ready(s, id) && ReaperStep(s, id, e)
    ensures AnnouncesTally(s.db, s.txns[id].todo[0], e) && KeepsTally(s.db, s.txns[id], e)
  {
    var head := s.txns[id].todo[0];
    if head.ReapUpdate? { assert e.pushed[0] in e.pushed; }
  }

  lemma AllRoll(s: State, id: TxnId, e: Effect)
    requires Ready(s, id) && StmtStep(s, id, e) && RowsOk(s.db, s.txns[id])
    ensures AnnouncesTally(s.db, s.txns[id].todo[0], e) && KeepsTally(s.db, s.txns[id], e)
  {
    if RollupStep(s, id, e) {
      RollupRolls(s, id, e);
    } else if CloseStep(s, id, e) {
      CloseRolls(s, id, e);
    } else if CancelStep(s, id, e) {
      CancelRolls(s, id, e);
    } else if ReaperStep(s, id, e) {
      ReaperRolls(s, id, e);
    } else {
      ExecutorRolls(s, id, e);
    }
  }

  /** `PartialMetrics` writes a cancelled row and leaves it cancelled; a claim has nothing pending. */
  ghost predicate Harmless(db: Db, t: Txn, e: Effect)
    requires t.todo != []
  {
    && (t.todo[0].PartialMetrics? ==>
          e.write.Some? && e.write.value.run in View(db, t)
          && View(db, t)[e.write.value.run].status == Cancelled == e.write.value.row.status)
    && (e.ends ==> ClaimingOnly(t) && e.write.Some? && e.write.value.row.status == Claimed)
  }

  lemma IsHarmless(s: State, id: TxnId, e: Effect)
    requires Ready(s, id) && StmtStep(s, id, e)
    ensures Harmless(s.db, s.txns[id], e)
  {
  }

  /** Unless a tally is announced, no row of a batch's family changes its outcome for the worse. */
  lemma FamilyAfter(db: Db, t: Txn, e: Effect, c: RunId, p: RunId)
    requires t.todo != [] && WritesOk(db, t, e) && Harmless(db, t, e) && AnnouncesTally(db, t.todo[0], e)
    requires IsChild(db.runs, c, p) && (e.ends || !Pending(db, e.pushed, p))
    ensures Ends(db, After(t, e), c, p) ==> Ends(db, t, c, p)
    ensures IsChild(View(db, t), c, p) && Live(View(db, t)[c].status) ==>
              IsChild(View(db, After(t, e)), c, p) && Live(View(db, After(t, e))[c].status)
  {
    if e.write.Some? && c == e.write.value.run {
      assert RowOk(db, After(t, e), c);
      assert Terminal(e.write.value.row.status) ==> t.todo[0].PartialMetrics?;
    }
  }

  lemma RollsAfter(db: Db, t: Txn, e: Effect)
    requires t.todo != [] && TxnRolls(db, t) && WritesOk(db, t, e) && Harmless(db, t, e)
    requires AnnouncesTally(db, t.todo[0], e) && KeepsTally(db, t, e) && RowsOk(db, t)
    ensures TxnRolls(db, After(t, e))
  {
    var t' := After(t, e);
    forall p | Batch(db, p) && !Pending(db, t'.todo, p)
      ensures ((exists c :: Ends(db, t', c, p)) ==> p in t'.rows)
      ensures Live(View(db, t')[p].status) ==> HasLiveChild(View(db, t'), p)
    {
      PendingShrinks(db, t, e, p);
      if !Settled(db, t', p) { UnsettledAfter(db, t, e, p); }
    }
  }

  lemma UnsettledAfter(db: Db, t: Txn, e: Effect, p: RunId)
    requires t.todo != [] && TxnRolls(db, t) && WritesOk(db, t, e) && Harmless(db, t, e)
    requires AnnouncesTally(db, t.todo[0], e) && RowsOk(db, t)
    requires Batch(db, p) && !Pending(db, t.todo, p) && (e.ends || !Pending(db, e.pushed, p))
    ensures (exists c :: Ends(db, After(t, e), c, p)) ==> p in After(t, e).rows
    ensures Live(View(db, After(t, e))[p].status) ==> HasLiveChild(View(db, After(t, e)), p)
  {
    if c :| Ends(db, After(t, e), c, p) { FamilyAfter(db, t, e, c, p); }
    if Live(View(db, After(t, e))[p].status) {
      WasLive(db, t, e, p);
      var c :| IsChild(View(db, t), c, p) && Live(View(db, t)[c].status);
      SameFamilies(db, t, p);
      FamilyAfter(db, t, e, c, p);
    }
  }

  /** A statement never makes a closed batch live again. */
  lemma WasLive(db: Db, t: Txn, e: Effect, p: RunId)
    requires t.todo != [] && WritesOk(db, t, e) && RowsOk(db, t) && Batch(db, p) && Live(View(db, After(t, e))[p].status)
    ensures Live(View(db, t)[p].status)
  {
    if e.write.Some? && p == e.write.value.run {
      assert RowOk(db, After(t, e), p);
    } else {
      assert View(db, After(t, e))[p] == View(db, t)[p];
    }
  }

  /** A tally no longer pending was pending nowhere, or has just been carried out. */
  lemma PendingShrinks(db: Db, t: Txn, e: Effect, p: RunId)
    requires t.todo != [] && KeepsTally(db, t, e) && (e.ends ==> ClaimingOnly(t))
    requires !Pending(db, After(t, e).todo, p)
    ensures !Pending(db, e.pushed, p) || e.ends
    ensures Settled(db, After(t, e), p) || !Pending(db, t.todo, p)
  {
    if !e.ends {
      assert forall s :: s in e.pushed || s in t.todo[1..] ==> s in After(t, e).todo;
      assert forall s :: s in t.todo ==> s == t.todo[0] || s in t.todo[1..];
    }
  }

  lemma StmtRolls(s: State, id: TxnId, e: Effect)
    requires Stepping(s, id, e) && DbShape(s.db) && NoOrphans(s.db.runs)
    requires TxnShape(s.db, s.txns[id]) && TxnRolls(s.db, s.txns[id])
    ensures TxnRolls(s.db, After(s.txns[id], e))
  {
    assert Ready(s, id);
    AllRoll(s, id, e);
    AllLand(s, id, e);
    IsHarmless(s, id, e);
    RollsAfter(s.db, s.txns[id], e);
  }

  // Begin and commit

  lemma BegunRolls(db: Db, job: Job)
    requires NoOrphans(db.runs)
    ensures TxnRolls(db, Begun(job))
  {
    assert View(db, Begun(job)) == db.runs;
  }

  /** The commit that ends the last live child of a batch also closes the batch. */
  lemma CommitNoOrphans(db: Db, t: Txn)
    requires DbShape(db) && NoOrphans(db.runs) && TxnShape(db, t) && TxnRolls(db, t) && t.todo == []
    ensures NoOrphans(Committed(db, t).runs)
  {
    var runs := Committed(db, t).runs;
    forall p | p in runs && HasChild(runs, p) && Live(runs[p].status) ensures HasLiveChild(runs, p) {
      if p in db.runs {
        CommitKeeps(db, t, p);
        assert Batch(db, p) && !Pending(db, t.todo, p);
      } else {
        var c :| IsChild(runs, c, p);
        CommitNew(db, t, c);
        assert Live(runs[c].status);
      }
    }
  }

  lemma SamePending(db: Db, t: Txn, todo: seq<Stmt>, p: RunId)
    requires TxnShape(db, t) && p in db.runs
    ensures Pending(Committed(db, t), todo, p) == Pending(db, todo, p)
  {
    CommitKeeps(db, t, p);
    assert forall s :: s in todo ==> Rolls(Committed(db, t), s, p) == Rolls(db, s, p);
  }

  /** While `u` holds a parent it rolls up, no other commit ends one of that parent's children. */
  lemma CommitLeavesFamily(db: Db, t: Txn, u: Txn, p: RunId, d: RunId)
    requires TxnShape(db, t) && TxnRolls(db, t) && t.todo == [] && Disjoint(t, u) && u.writes.Keys <= u.rows
    requires Batch(db, p) && p in u.rows && IsChild(View(db, u), d, p) && Live(View(db, u)[d].status)
    ensures HasLiveChild(View(Committed(db, t), u), p)
  {
    var view' := View(Committed(db, t), u);
    assert !Pending(db, t.todo, p) && !Ends(db, t, d, p);
    if d !in u.writes { CommitKeeps(db, t, d); }
    assert IsChild(view', d, p) && Live(view'[d].status);
  }

  lemma CommitRolls(db: Db, t: Txn, u: Txn)
    requires DbShape(db) && NoOrphans(db.runs) && Disjoint(t, u)
    requires TxnShape(db, t) && TxnRolls(db, t) && t.todo == []
    requires TxnShape(db, u) && TxnRolls(db, u)
    ensures TxnRolls(Committed(db, t), u)
  {
    var db' := Committed(db, t);
    CommitNoOrphans(db, t);
    CommitShape(db, t);
    forall p | Batch(db', p) && !Pending(db', u.todo, p)
      ensures ((exists c :: Ends(db', u, c, p)) ==> p in u.rows)
      ensures Live(View(db', u)[p].status) ==> HasLiveChild(View(db', u), p)
    {
      if p in db.runs {
        CommitKeeps(db, t, p);
        SamePending(db, t, u.todo, p);
        CommitOldBatch(db, t, u, p);
      } else {
        CommitNewBatch(db, t, u, p);
      }
    }
  }

  lemma CommitOldBatch(db: Db, t: Txn, u: Txn, p: RunId)
    requires DbShape(db) && Disjoint(t, u) && NoOrphans(Committed(db, t).runs)
    requires TxnShape(db, t) && TxnRolls(db, t) && t.todo == []
    requires TxnShape(db, u) && TxnRolls(db, u) && Batch(db, p) && !Pending(db, u.todo, p)
    ensures (exists c :: Ends(Committed(db, t), u, c, p)) ==> p in u.rows
    ensures Live(View(Committed(db, t), u)[p].status) ==> HasLiveChild(View(Committed(db, t), u), p)
  {
    var db' := Committed(db, t);
    CommitKeeps(db, t, p);
    assert forall c :: Ends(db', u, c, p) <==> Ends(db, u, c, p);
    if Live(View(db', u)[p].status) {
      if c :| Ends(db, u, c, p) {
        assert Live(View(db, u)[p].status);
        var d :| IsChild(View(db, u), d, p) && Live(View(db, u)[d].status);
        SameFamilies(db, u, p);
        CommitLeavesFamily(db, t, u, p, d);
      } else {
        assert p in u.writes ==> RowOk(db, u, p);
        StillLiveElsewhere(db, t, u, p);
      }
    }
  }

  lemma StillLiveElsewhere(db: Db, t: Txn, u: Txn, p: RunId)
    requires DbShape(db) && Disjoint(t, u) && TxnShape(db, t) && TxnShape(db, u) && p in db.runs
    requires HasLiveChild(Committed(db, t).runs, p) && forall c :: !Ends(db, u, c, p)
    ensures HasLiveChild(View(Committed(db, t), u), p)
  {
    var db' := Committed(db, t);
    var d :| IsChild(db'.runs, d, p) && Live(db'.runs[d].status);
    CommitKeeps(db, t, p);
    assert !Ends(db, u, d, p);
    assert d in u.writes ==> RowOk(db, u, d) && d !in t.writes;
    assert IsChild(View(db', u), d, p) && Live(View(db', u)[d].status);
  }

  lemma CommitNewBatch(db: Db, t: Txn, u: Txn, p: RunId)
    requires DbShape(db) && DbShape(Committed(db, t)) && Disjoint(t, u) && NoOrphans(Committed(db, t).runs)
    requires TxnShape(db, t) && TxnShape(db, u) && Batch(Committed(db, t), p) && p !in db.runs
    ensures !(exists c :: Ends(Committed(db, t), u, c, p))
    ensures Live(View(Committed(db, t), u)[p].status) ==> HasLiveChild(View(Committed(db, t), u), p)
  {
    var db' := Committed(db, t);
    forall c | IsChild(db'.runs, c, p) ensures c in t.rows && c !in u.writes {
      if c in db.runs { CommitKeeps(db, t, c); }
    }
    if Live(View(db', u)[p].status) {
      var d :| IsChild(db'.runs, d, p) && Live(db'.runs[d].status);
      assert IsChild(View(db', u), d, p);
    }
  }
}
