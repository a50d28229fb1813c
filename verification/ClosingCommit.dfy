/** What a batch parent stores when it closes, against its children at the commit that closes it. */
module ClosingCommit {
  import opened RunTypes
  import opened Verdicts
  import opened Transactions
  import opened Discipline
  import opened RollupSafety

  /** `t` has closed `p`, or is about to, on the tally `seen`. */
  ghost predicate Closes(t: Txn, p: RunId, seen: map<RunId, Run>) {
    CloseParent(p, seen) in t.todo || (p in t.closed && t.closed[p].seen == seen)
  }

  /** Every child of `p` still has the outcome it had in `rows`, or is live again. */
  ghost predicate StillAgrees(db: Db, t: Txn, p: RunId, rows: map<RunId, Run>) {
    && (forall c :: c in rows <==> IsChild(db.runs, c, p))
    && forall c :: c in rows ==> SameOutcome(View(db, t)[c], rows[c]) || Live(View(db, t)[c].status)
  }

  ghost predicate NotStale(db: Db, t: Txn, p: RunId) {
    forall s, r :: s in t.todo && (s.Reap? || s.ReapUpdate?) && r in s.stale ==> !IsChild(db.runs, r, p)
  }

  ghost predicate ClosesSoundly(db: Db, t: Txn, p: RunId, seen: map<RunId, Run>) {
    && Batch(db, p) && p in t.rows && StillAgrees(db, t, p, seen) && !AnyLive(seen) && NotStale(db, t, p)
  }

  ghost predicate BadgeSound(db: Db, t: Txn, p: RunId)
    requires p in t.closed
  {
    && p in t.writes
    && match t.closed[p].badge
       case Some(b) =>
         && StillAgrees(db, t, p, b.read) && Enumerates(b.order, b.read.Keys) && b.rubric == RubricOf(db, p)
         && t.writes[p].metrics == StoredBadge(t.writes[p].kind, b)
       case None => CloseStatus(t.closed[p].seen) == Completed ==> BadgeParent(p) in t.todo
  }

  ghost predicate TxnCloses(db: Db, t: Txn) {
    && (forall p, seen :: Closes(t, p, seen) ==> ClosesSoundly(db, t, p, seen))
    && (forall p :: p in t.closed ==> BadgeSound(db, t, p))
  }

  // One statement

  /** While `t` closes a batch, the statement it runs does not touch that batch's children. */
  ghost predicate SparesChildren(db: Db, t: Txn, e: Effect, p: RunId) {
    && e.inserts == map[]
    && (e.write.Some? ==> !IsChild(db.runs, e.write.value.run, p))
    && (forall s, r :: s in e.pushed && (s.Reap? || s.ReapUpdate?) && r in s.stale ==> !IsChild(db.runs, r, p))
  }

  lemma LateSpares(s: State, id: TxnId, e: Effect, p: RunId)
    requires Ready(s, id) && StmtStep(s, id, e) && DbShape(s.db) && Late(s.txns[id].todo[0])
    requires NotStale(s.db, s.txns[id], p)
    ensures SparesChildren(s.db, s.txns[id], e, p)
  {
    var head := s.txns[id].todo[0];
    assert head in s.txns[id].todo;
    if head.Reap? || head.ReapUpdate? {
      ReaperSpares(s, id, e, p);
    } else if CloseStep(s, id, e) {
      CloseSpares(s, id, e, p);
    } else {
      LoggingSpares(s, id, e, p);
    }
  }

  lemma ReaperSpares(s: State, id: TxnId, e: Effect, p: RunId)
    requires Ready(s, id) && ReaperStep(s, id, e)
    requires s.txns[id].todo[0].Reap? || s.txns[id].todo[0].ReapUpdate?
    requires forall r :: r in s.txns[id].todo[0].stale ==> !IsChild(s.db.runs, r, p)
    ensures SparesChildren(s.db, s.txns[id], e, p)
  {
    var stale := s.txns[id].todo[0].stale;
    if stale != [] { assert stale[0] in stale; }
  }

  lemma CloseSpares(s: State, id: TxnId, e: Effect, p: RunId)
    requires Ready(s, id) && CloseStep(s, id, e) && DbShape(s.db)
    ensures SparesChildren(s.db, s.txns[id], e, p)
  {
    var q := s.txns[id].todo[0].run;
    var c :| IsChild(s.db.runs, c, q);
    assert s.db.runs[q].parent == None;
  }

  lemma LoggingSpares(s: State, id: TxnId, e: Effect, p: RunId)
    requires Ready(s, id) && (RollupStep(s, id, e) || EmitStep(s, id, e))
    ensures SparesChildren(s.db, s.txns[id], e, p)
  {
  }

  lemma AgreesAfter(db: Db, t: Txn, e: Effect, p: RunId, rows: map<RunId, Run>)
    requires t.todo != [] && SparesChildren(db, t, e, p) && StillAgrees(db, t, p, rows)
    ensures StillAgrees(db, After(t, e), p, rows)
  {
  }

  lemma NotStaleAfter(db: Db, t: Txn, e: Effect, p: RunId)
    requires t.todo != [] && SparesChildren(db, t, e, p) && NotStale(db, t, p)
    ensures NotStale(db, After(t, e), p)
  {
    assert forall s :: s in After(t, e).todo ==> s in e.pushed || s in t.todo;
  }

  /** A closing arises only from a tally that finds every child terminal. */
  lemma ClosesArises(s: State, id: TxnId, e: Effect, p: RunId, seen: map<RunId, Run>)
    requires Ready(s, id) && StmtStep(s, id, e) && Closes(After(s.txns[id], e), p, seen)
    ensures Closes(s.txns[id], p, seen)
            || (s.txns[id].todo[0] == Tally(p) && seen == ChildRows(View(s.db, s.txns[id]), p) && !AnyLive(seen))
  {
    var t := s.txns[id];
    assert t.todo[0] in t.todo && forall c :: c in t.todo[1..] ==> c in t.todo;
    if CloseParent(p, seen) in e.pushed {
      if RollupStep(s, id, e) {
        TallyPushesClose(s, id, e, p, seen);
      } else {
        OthersPushNoClose(s, id, e);
      }
    }
    if e.close.Some? { OnlyCloseCloses(s, id, e); }
  }

  lemma TallyPushesClose(s: State, id: TxnId, e: Effect, p: RunId, seen: map<RunId, Run>)
    requires Active(s, id) && RollupStep(s, id, e) && CloseParent(p, seen) in e.pushed
    ensures s.txns[id].todo[0] == Tally(p) && seen == ChildRows(View(s.db, s.txns[id]), p) && !AnyLive(seen)
  {
  }

  lemma OthersPushNoClose(s: State, id: TxnId, e: Effect)
    requires Active(s, id) && StmtStep(s, id, e) && !RollupStep(s, id, e)
    ensures forall c :: c in e.pushed ==> !c.CloseParent?
  {
  }

  lemma OnlyCloseCloses(s: State, id: TxnId, e: Effect)
    requires Active(s, id) && StmtStep(s, id, e) && e.close.Some?
    ensures var head, p := s.txns[id].todo[0], e.close.value.run;
            || head == CloseParent(p, e.close.value.closing.seen)
            || (head == BadgeParent(p) && p in s.txns[id].closed && e.close.value.closing.seen == s.txns[id].closed[p].seen)
  {
  }

  lemma FreshRead(db: Db, t: Txn, p: RunId)
    requires RowsOk(db, t) && p in db.runs
    ensures StillAgrees(db, t, p, ChildRows(View(db, t), p))
  {
    SameFamilies(db, t, p);
    assert forall c :: c in ChildRows(View(db, t), p) <==> IsChild(View(db, t), c, p);
  }

  /** A row the reaper still has to fail is live, so a tally that finds no live child does not count it. */
  lemma TallyNotStale(db: Db, t: Txn, e: Effect, p: RunId)
    requires t.todo != [] && !AnyLive(ChildRows(View(db, t), p))
    requires forall c :: c in e.pushed ==> !c.Reap? && !c.ReapUpdate?
    requires forall s :: s in t.todo ==> StmtOk(db, t, s)
    ensures NotStale(db, After(t, e), p)
  {
    var seen := ChildRows(View(db, t), p);
    forall s, r | s in After(t, e).todo && (s.Reap? || s.ReapUpdate?) && r in s.stale
      ensures !IsChild(db.runs, r, p)
    {
      assert s in t.todo && StmtOk(db, t, s);
      assert IsChild(db.runs, r, p) ==> r in seen && Live(seen[r].status);
    }
  }

  lemma TallySound(db: Db, t: Txn, e: Effect, p: RunId)
    requires t.todo != [] && Unclosed(db, t, p) && RowsOk(db, t) && NotStale(db, After(t, e), p)
    requires e == Quiet(AfterTally(p, ChildRows(View(db, t), p))) && !AnyLive(ChildRows(View(db, t), p))
    ensures ClosesSoundly(db, After(t, e), p, ChildRows(View(db, t), p))
  {
    var seen := ChildRows(View(db, t), p);
    FreshRead(db, t, p);
    QuietKeeps(db, t, AfterTally(p, seen), p);
    QuietView(db, t, AfterTally(p, seen));
    SameView(db, t, After(t, e), p, seen);
  }

  lemma SameView(db: Db, t: Txn, t': Txn, p: RunId, rows: map<RunId, Run>)
    requires View(db, t') == View(db, t) && StillAgrees(db, t, p, rows)
    ensures StillAgrees(db, t', p, rows)
  {
  }

  lemma TallyCloses(db: Db, t: Txn, e: Effect, p: RunId)
    requires t.todo != [] && RowsOk(db, t) && Unclosed(db, t, p) && forall s :: s in t.todo ==> StmtOk(db, t, s)
    requires e == Quiet(AfterTally(p, ChildRows(View(db, t), p))) && !AnyLive(ChildRows(View(db, t), p))
    ensures ClosesSoundly(db, After(t, e), p, ChildRows(View(db, t), p))
  {
    TallyPushes(p, ChildRows(View(db, t), p));
    TallyNotStale(db, t, e, p);
    TallySound(db, t, e, p);
  }

  lemma NewTallyCloses(db: Db, t: Txn, e: Effect, p: RunId)
    requires t.todo != [] && t.todo[0] == Tally(p) && DbShape(db) && TxnShape(db, t)
    requires e == Quiet(AfterTally(p, ChildRows(View(db, t), p))) && !AnyLive(ChildRows(View(db, t), p))
    ensures ClosesSoundly(db, After(t, e), p, ChildRows(View(db, t), p))
  {
    assert t.todo[0] in t.todo && StmtOk(db, t, Tally(p));
    TallyCloses(db, t, e, p);
  }

  lemma SoundAfter(db: Db, t: Txn, e: Effect, p: RunId, seen: map<RunId, Run>)
    requires t.todo != [] && SparesChildren(db, t, e, p) && ClosesSoundly(db, t, p, seen)
    ensures ClosesSoundly(db, After(t, e), p, seen)
  {
    AgreesAfter(db, t, e, p, seen);
    NotStaleAfter(db, t, e, p);
  }

  lemma ClosingSpares(s: State, id: TxnId, e: Effect, p: RunId, seen: map<RunId, Run>)
    requires Ready(s, id) && StmtStep(s, id, e) && DbShape(s.db) && Ordered(s.txns[id])
    requires Closes(s.txns[id], p, seen) && ClosesSoundly(s.db, s.txns[id], p, seen)
    ensures Late(s.txns[id].todo[0]) && SparesChildren(s.db, s.txns[id], e, p)
  {
    assert s.txns[id].todo[0] in s.txns[id].todo;
    LateSpares(s, id, e, p);
  }

  lemma ClosesAfter(s: State, id: TxnId, e: Effect, p: RunId, seen: map<RunId, Run>)
    requires Ready(s, id) && StmtStep(s, id, e) && DbShape(s.db) && TxnShape(s.db, s.txns[id])
    requires Closes(s.txns[id], p, seen) ==> ClosesSoundly(s.db, s.txns[id], p, seen)
    requires Closes(After(s.txns[id], e), p, seen)
    ensures ClosesSoundly(s.db, After(s.txns[id], e), p, seen)
  {
    var db, t := s.db, s.txns[id];
    ClosesArises(s, id, e, p, seen);
    if Closes(t, p, seen) {
      ClosingSpares(s, id, e, p, seen);
      SoundAfter(db, t, e, p, seen);
    } else {
      TallyEffect(s, id, e, p);
      NewTallyCloses(db, t, e, p);
    }
  }

  lemma TallyEffect(s: State, id: TxnId, e: Effect, p: RunId)
    requires Active(s, id) && StmtStep(s, id, e) && s.txns[id].todo[0] == Tally(p)
    ensures e == Quiet(AfterTally(p, ChildRows(View(s.db, s.txns[id]), p)))
  {
  }

  /** Only closing writes a batch parent's row, once a transaction has begun to settle. */
  lemma LateWritesBatchToClose(s: State, id: TxnId, e: Effect)
    requires Ready(s, id) && StmtStep(s, id, e) && DbShape(s.db) && Late(s.txns[id].todo[0])
    requires e.write.Some? && e.close.None?
    ensures !Batch(s.db, e.write.value.run)
  {
    if ReaperStep(s, id, e) { ReapedIsNoBatch(s, id, e); }
  }

  lemma ReapedIsNoBatch(s: State, id: TxnId, e: Effect)
    requires Ready(s, id) && ReaperStep(s, id, e) && DbShape(s.db) && Late(s.txns[id].todo[0]) && e.write.Some?
    ensures !Batch(s.db, e.write.value.run)
  {
    var head := s.txns[id].todo[0];
    if head.ReapUpdate? { assert head.stale[0] in head.stale; }
  }

  lemma BadgeKept(db: Db, t: Txn, e: Effect, p: RunId)
    requires t.todo != [] && p in t.closed && BadgeSound(db, t, p) && SparesChildren(db, t, e, p)
    requires e.write.Some? ==> e.write.value.run != p
    requires e.close.Some? ==> e.close.value.run != p
    requires !e.ends && t.todo[0] != BadgeParent(p)
    ensures BadgeSound(db, After(t, e), p)
  {
    if t.closed[p].badge.Some? { AgreesAfter(db, t, e, p, t.closed[p].badge.value.read); }
    assert forall c :: c in t.todo ==> c == t.todo[0] || c in t.todo[1..];
  }

  lemma OldBadgeAfter(s: State, id: TxnId, e: Effect, p: RunId)
    requires Ready(s, id) && StmtStep(s, id, e) && DbShape(s.db) && Ordered(s.txns[id])
    requires WritesOk(s.db, s.txns[id], e) && TxnCloses(s.db, s.txns[id]) && p in s.txns[id].closed
    requires e.close.Some? ==> e.close.value.run != p
    ensures BadgeSound(s.db, After(s.txns[id], e), p)
  {
    var db, t := s.db, s.txns[id];
    var seen := t.closed[p].seen;
    assert Closes(t, p, seen) && ClosesSoundly(db, t, p, seen) && BadgeSound(db, t, p);
    ClosingSpares(s, id, e, p, seen);
    LateNeverEnds(s, id, e);
    if e.write.Some? && e.close.None? { LateWritesBatchToClose(s, id, e); }
    if t.todo[0] == BadgeParent(p) { BadgeEffectCloses(s, id, e, p); }
    BadgeKept(db, t, e, p);
  }

  lemma LateNeverEnds(s: State, id: TxnId, e: Effect)
    requires Active(s, id) && StmtStep(s, id, e) && Late(s.txns[id].todo[0])
    ensures !e.ends
  {
  }

  lemma BadgeEffectCloses(s: State, id: TxnId, e: Effect, p: RunId)
    requires Active(s, id) && StmtStep(s, id, e) && s.txns[id].todo[0] == BadgeParent(p)
    ensures e.close.Some? && e.close.value.run == p
  {
  }

  lemma NewBadgeAfter(s: State, id: TxnId, e: Effect)
    requires Ready(s, id) && CloseStep(s, id, e) && RowsOk(s.db, s.txns[id])
    ensures e.close.Some? && BadgeSound(s.db, After(s.txns[id], e), e.close.value.run)
  {
    var db, t := s.db, s.txns[id];
    var p := t.todo[0].run;
    FreshRead(db, t, p);
    LateSparesItself(db, t, e, p);
    if t.todo[0].CloseParent? {
      assert CloseStatus(t.todo[0].seen) == Completed ==> e.pushed[1] in e.pushed;
    } else {
      AgreesAfter(db, t, e, p, ChildRows(View(db, t), p));
    }
  }

  lemma LateSparesItself(db: Db, t: Txn, e: Effect, p: RunId)
    requires DbShape(db) && Batch(db, p) && e.inserts == map[] && e.write.Some? && e.write.value.run == p
    requires forall c :: c in e.pushed ==> !c.Reap? && !c.ReapUpdate?
    ensures SparesChildren(db, t, e, p)
  {
    var c :| IsChild(db.runs, c, p);
    assert db.runs[p].parent == None;
  }

  lemma StmtCloses(s: State, id: TxnId, e: Effect)
    requires Ready(s, id) && StmtStep(s, id, e) && DbShape(s.db) && TxnShape(s.db, s.txns[id])
    requires WritesOk(s.db, s.txns[id], e) && TxnCloses(s.db, s.txns[id])
    ensures TxnCloses(s.db, After(s.txns[id], e))
  {
    var db, t := s.db, s.txns[id];
    var t' := After(t, e);
    forall p, seen | Closes(t', p, seen) ensures ClosesSoundly(db, t', p, seen) { ClosesAfter(s, id, e, p, seen); }
    forall p | p in t'.closed ensures BadgeSound(db, t', p) {
      if e.close.Some? && e.close.value.run == p {
        OnlyCloseCloses(s, id, e);
        NewBadgeAfter(s, id, e);
      } else {
        OldBadgeAfter(s, id, e, p);
      }
    }
  }

  // Commit

  lemma CommitAgrees(db: Db, t: Txn, u: Txn, p: RunId, rows: map<RunId, Run>)
    requires TxnShape(db, t) && TxnRolls(db, t) && t.todo == [] && TxnShape(db, u) && Disjoint(t, u)
    requires Batch(db, p) && p in u.rows && StillAgrees(db, u, p, rows)
    ensures StillAgrees(Committed(db, t), u, p, rows)
  {
    var db' := Committed(db, t);
    CommitKeeps(db, t, p);
    assert !Pending(db, t.todo, p);
    forall c | c in rows
      ensures SameOutcome(View(db', u)[c], rows[c]) || Live(View(db', u)[c].status)
    {
      assert IsChild(db.runs, c, p) && !Ends(db, t, c, p);
      assert c in u.writes ==> View(db', u)[c] == View(db, u)[c];
    }
  }

  lemma CommitCloses(db: Db, t: Txn, u: Txn)
    requires TxnShape(db, t) && TxnRolls(db, t) && t.todo == [] && Disjoint(t, u)
    requires TxnShape(db, u) && TxnCloses(db, u)
    ensures TxnCloses(Committed(db, t), u)
  {
    var db' := Committed(db, t);
    forall p, seen | Closes(u, p, seen) ensures ClosesSoundly(db', u, p, seen) {
      assert ClosesSoundly(db, u, p, seen);
      CommitKeeps(db, t, p);
      CommitAgrees(db, t, u, p, seen);
    }
    forall p | p in u.closed ensures BadgeSound(db', u, p) {
      assert BadgeSound(db, u, p) && Closes(u, p, u.closed[p].seen) && ClosesSoundly(db, u, p, u.closed[p].seen);
      if u.closed[p].badge.Some? { CommitAgrees(db, t, u, p, u.closed[p].badge.value.read); }
    }
  }

  // The close itself

  ghost predicate AllChildrenTerminal(db: Db, p: RunId) {
    forall c :: IsChild(db.runs, c, p) ==> Terminal(db.runs[c].status)
  }

  ghost function FailedRows(rows: map<RunId, Run>): set<RunId> {
    set c | c in rows && CountsAsFail(rows[c])
  }

  ghost function PassedRows(rows: map<RunId, Run>): set<RunId> {
    set c | c in rows && CountsAsPass(rows[c])
  }

  ghost function CountedRows(rows: map<RunId, Run>): set<RunId> {
    set c | c in rows && Counts(rows[c])
  }

  /** The badge that a batch of this kind and rubric has by the columns of `rows`. */
  ghost function BadgeBy(kind: RunType, rubric: Option<Rubric>, rows: map<RunId, Run>): Badge {
    if BatchFails(kind, rubric, |PassedRows(rows)|, |FailedRows(rows)|, |CountedRows(rows)|) then Fail else Pass
  }

  /**
   How a parent closes on the rollup path: cancelled exactly when some child is, and otherwise
   completed with the badge that its children's rows call for.
   */
  ghost predicate ClosedAsItsChildrenSay(db: Db, p: RunId)
    requires p in db.runs
  {
    var row := db.runs[p];
    if exists c :: IsChild(db.runs, c, p) && db.runs[c].status == Cancelled then row.status == Cancelled
    else
      && row.status == Completed
      && row.metrics == Metrics(Some(BadgeBy(row.kind, RubricOf(db, p), ChildRows(db.runs, p))), None)
  }

  function Verdict(row: Run): Option<Badge> {
    VerdictForRun(row.status, row.metrics)
  }

  ghost function Picked(order: seq<RunId>, pick: RunId -> bool): set<RunId> {
    set c | c in order && pick(c)
  }

  lemma PickedMore(c: RunId, rest: seq<RunId>, pick: RunId -> bool)
    requires c !in rest
    ensures |Picked([c] + rest, pick)| == |Picked(rest, pick)| + if pick(c) then 1 else 0
  {
    assert Picked([c] + rest, pick) == Picked(rest, pick) + if pick(c) then {c} else {};
  }

  lemma OneMoreVerdict(rows: map<RunId, Run>, c: RunId, rest: seq<RunId>)
    requires c in rows
    ensures ChildVerdicts(rows, [c] + rest) ==
            (if Verdict(rows[c]).Some? then [Verdict(rows[c]).value] else []) + ChildVerdicts(rows, rest)
  {
    assert ([c] + rest)[1..] == rest;
  }

  /** Counted by verdict, the verdicts count the rows that have it. */
  lemma {:induction false} VerdictsCountRows(rows: map<RunId, Run>, order: seq<RunId>, v: Badge)
    requires Distinct(order) && forall c :: c in order ==> c in rows
    ensures multiset(ChildVerdicts(rows, order))[v] == |Picked(order, c => c in rows && Verdict(rows[c]) == Some(v))|
    ensures |ChildVerdicts(rows, order)| == |Picked(order, c => c in rows && Verdict(rows[c]).Some?)|
  {
    if order == [] {
    } else {
      var first, rest := order[0], order[1..];
      assert first !in rest && order == [first] + rest;
      VerdictsCountRows(rows, rest, v);
      OneMoreVerdict(rows, first, rest);
      PickedMore(first, rest, c => c in rows && Verdict(rows[c]) == Some(v));
      PickedMore(first, rest, c => c in rows && Verdict(rows[c]).Some?);
    }
  }

  /** The stored badge is what the columns of the rows read call for. */
  lemma StoredBadgeMeaning(kind: RunType, b: BadgeRead)
    requires Enumerates(b.order, b.read.Keys)
    ensures StoredBadge(kind, b) == Metrics(Some(BadgeBy(kind, b.rubric, b.read)), None)
  {
    VerdictsCountRows(b.read, b.order, Pass);
    VerdictsCountRows(b.read, b.order, Fail);
    BatchBadgeMeaning(kind, b.rubric, ChildVerdicts(b.read, b.order));
    SameRowsCounted(b.read, b.order);
  }

  lemma SameRowsCounted(rows: map<RunId, Run>, order: seq<RunId>)
    requires Enumerates(order, rows.Keys)
    ensures Picked(order, c => c in rows && Verdict(rows[c]) == Some(Pass)) == PassedRows(rows)
    ensures Picked(order, c => c in rows && Verdict(rows[c]) == Some(Fail)) == FailedRows(rows)
    ensures Picked(order, c => c in rows && Verdict(rows[c]).Some?) == CountedRows(rows)
  {
    forall c | c in rows
      ensures (Verdict(rows[c]) == Some(Fail) <==> CountsAsFail(rows[c])) && (Verdict(rows[c]) == Some(Pass) <==> CountsAsPass(rows[c]))
      ensures Verdict(rows[c]).Some? <==> Counts(rows[c])
    {
      VerdictMeaning(rows[c]);
    }
  }

  lemma SameBadge(kind: RunType, rubric: Option<Rubric>, a: map<RunId, Run>, b: map<RunId, Run>)
    requires a.Keys == b.Keys && forall c :: c in a ==> SameOutcome(a[c], b[c])
    ensures BadgeBy(kind, rubric, a) == BadgeBy(kind, rubric, b)
  {
    assert PassedRows(a) == PassedRows(b) && FailedRows(a) == FailedRows(b) && CountedRows(a) == CountedRows(b);
  }

  /** `rows` are the children of `p`, each with the outcome it has now unless it is live now. */
  ghost predicate Recalls(now: map<RunId, Run>, p: RunId, rows: map<RunId, Run>) {
    && (forall c :: c in rows <==> IsChild(now, c, p))
    && forall c :: c in rows ==> c in now && (SameOutcome(now[c], rows[c]) || Live(now[c].status))
  }

  /** The parent closes as cancelled exactly when the tally saw a cancelled child, and else as completed. */
  ghost predicate StatusBy(row: Run, seen: map<RunId, Run>) {
    row.status == if exists c :: c in seen && seen[c].status == Cancelled then Cancelled else Completed
  }

  /** Some child was cancelled at the tally, and every one that was is live again. */
  ghost predicate AllRevived(seen: map<RunId, Run>, now: map<RunId, Run>) {
    && (exists c :: c in seen && seen[c].status == Cancelled)
    && forall c :: c in seen && seen[c].status == Cancelled ==> c in now && Live(now[c].status)
  }

  /** The parent is cancelled exactly when some child is. */
  ghost predicate AgreesOnCancelled(now: map<RunId, Run>, p: RunId)
    requires p in now
  {
    now[p].status == Cancelled <==> exists c :: IsChild(now, c, p) && now[c].status == Cancelled
  }

  /**
   With no condition on the children: the parent's status is what the tally saw, and it agrees with the
   children at the commit if and only if not all that the tally saw cancelled are live again.
   */
  lemma CloseAgreesUpToRevival(db: Db, t: Txn, p: RunId)
    requires TxnShape(db, t) && TxnCloses(db, t) && t.todo == []
    requires Batch(db, p) && Live(db.runs[p].status) && Terminal(Committed(db, t).runs[p].status)
    ensures var now := Committed(db, t).runs;
            && p in t.closed && Recalls(now, p, t.closed[p].seen) && StatusBy(now[p], t.closed[p].seen)
            && (AgreesOnCancelled(now, p) <==> !AllRevived(t.closed[p].seen, now))
            && ((exists c :: IsChild(now, c, p) && now[c].status == Cancelled) ==> now[p].status == Cancelled)
  {
    assert RowOk(db, t, p);
    var seen := t.closed[p].seen;
    assert Closes(t, p, seen) && ClosesSoundly(db, t, p, seen);
    AgreeingIsRecalled(db, t, p, seen);
    CancelledChildren(Committed(db, t).runs, p, seen);
  }

  lemma CancelledChildren(now: map<RunId, Run>, p: RunId, seen: map<RunId, Run>)
    requires Recalls(now, p, seen)
    ensures AnyCancelled(ChildRows(now, p)) <==> exists c :: IsChild(now, c, p) && now[c].status == Cancelled
    ensures AnyCancelled(ChildRows(now, p)) ==> AnyCancelled(seen)
    ensures AnyCancelled(seen) ==> (AnyCancelled(ChildRows(now, p)) <==> !AllRevived(seen, now))
  {
    var rows := ChildRows(now, p);
    forall c ensures c in rows <==> c in seen { assert c in rows <==> IsChild(now, c, p); }
    assert forall c :: IsChild(now, c, p) <==> c in rows;
    if c :| c in rows && rows[c].status == Cancelled { assert c in seen && seen[c].status == Cancelled; }
    if c :| c in seen && seen[c].status == Cancelled && !Live(now[c].status) { assert c in rows && rows[c].status == Cancelled; }
  }

  lemma AgreeingIsRecalled(db: Db, t: Txn, p: RunId, rows: map<RunId, Run>)
    requires TxnShape(db, t) && Batch(db, p) && StillAgrees(db, t, p, rows)
    ensures Recalls(Committed(db, t).runs, p, rows)
  {
    CommitKeeps(db, t, p);
  }

  /** The stored badge is the verdict of the rows `b` that were read for it, live ones not counted. */
  ghost predicate BadgeOf(db: Db, p: RunId, b: BadgeRead)
    requires p in db.runs
  {
    && Recalls(db.runs, p, b.read) && Enumerates(b.order, b.read.Keys)
    && db.runs[p].metrics == Metrics(Some(BadgeBy(db.runs[p].kind, RubricOf(db, p), b.read)), None)
  }

  lemma BadgeIsOfRowsRead(db: Db, t: Txn, p: RunId)
    requires TxnShape(db, t) && TxnCloses(db, t) && t.todo == []
    requires Batch(db, p) && Live(db.runs[p].status) && Committed(db, t).runs[p].status == Completed
    ensures p in t.closed && t.closed[p].badge.Some? && BadgeOf(Committed(db, t), p, t.closed[p].badge.value)
  {
    assert RowOk(db, t, p);
    assert Closes(t, p, t.closed[p].seen) && ClosesSoundly(db, t, p, t.closed[p].seen) && BadgeSound(db, t, p);
    var b := t.closed[p].badge.value;
    AgreeingIsRecalled(db, t, p, b.read);
    StoredBadgeMeaning(t.writes[p].kind, b);
  }

  /** If no child has come back to life by the commit, the parent agrees with its children there. */
  lemma CloseAgrees(db: Db, p: RunId, closing: Closing)
    requires p in db.runs && Recalls(db.runs, p, closing.seen) && StatusBy(db.runs[p], closing.seen)
    requires db.runs[p].status == Completed ==> closing.badge.Some? && BadgeOf(db, p, closing.badge.value)
    requires AllChildrenTerminal(db, p)
    ensures ClosedAsItsChildrenSay(db, p)
  {
    SameCancelled(db, p, closing.seen);
    if db.runs[p].status == Completed { BadgeIsCurrent(db, p, closing.badge.value); }
  }

  lemma SameCancelled(db: Db, p: RunId, seen: map<RunId, Run>)
    requires Recalls(db.runs, p, seen) && AllChildrenTerminal(db, p)
    ensures (exists c :: c in seen && seen[c].status == Cancelled)
            <==> exists c :: IsChild(db.runs, c, p) && db.runs[c].status == Cancelled
  {
    if c :| c in seen && seen[c].status == Cancelled { assert IsChild(db.runs, c, p); }
    if c :| IsChild(db.runs, c, p) && db.runs[c].status == Cancelled { assert c in seen; }
  }

  lemma BadgeIsCurrent(db: Db, p: RunId, b: BadgeRead)
    requires p in db.runs && BadgeOf(db, p, b) && AllChildrenTerminal(db, p)
    ensures db.runs[p].metrics == Metrics(Some(BadgeBy(db.runs[p].kind, RubricOf(db, p), ChildRows(db.runs, p))), None)
  {
    var now := ChildRows(db.runs, p);
    assert now.Keys == b.read.Keys;
    forall c | c in now ensures SameOutcome(now[c], b.read[c]) { assert IsChild(db.runs, c, p); }
    SameBadge(db.runs[p].kind, RubricOf(db, p), now, b.read);
  }
}
