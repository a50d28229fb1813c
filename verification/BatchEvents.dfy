/** What a batch's own log says: progress while it is open; full progress and its final status once it has ended. */
module BatchEvents {
  import opened RunTypes
  import opened Transactions
  import opened Discipline
  import opened EventLog
  import opened ClosingCommit
  import opened Protocol
  import opened JobEvents
  import ConcurrencyCap

  function Children(m: map<RunId, Run>, p: RunId): set<RunId> {
    set c | c in m && m[c].parent == Some(p)
  }

  /** Some of the batch's children have ended, out of all it has. */
  ghost predicate IsCount(event: Event, total: nat) {
    event.ProgressEvent? && event.completed <= event.total == total
  }

  /** The events count up to all the children, and then name the status that the batch has ended with. */
  ghost predicate Finale(events: seq<Event>, total: nat, status: Status) {
    && |events| >= 2 && events[|events| - 1] == StatusEvent(status) && events[|events| - 2] == ProgressEvent(total, total)
    && forall k :: 0 <= k < |events| - 1 ==> IsCount(events[k], total)
  }

  ghost predicate AboutToClose(t: Txn, p: RunId) {
    exists seen :: CloseParent(p, seen) in t.todo
  }

  /** `events` are what a transaction has told, or is to tell, on `p`. */
  ghost predicate Says(db: Db, t: Txn, p: RunId, events: seq<Event>) {
    var total := |Children(db.runs, p)|;
    && (events != [] ==> p in db.runs && p in t.rows && db.runs[p].status == Queued)
    && if p in t.closed then p in t.writes && Finale(events, total, t.writes[p].status)
       else && (forall k :: 0 <= k < |events| ==> IsCount(events[k], total))
            && (AboutToClose(t, p) ==> events != [] && events[|events| - 1] == ProgressEvent(total, total))
  }

  ghost predicate Heard(db: Db, t: Txn, p: RunId) {
    exists events :: Tells(db, t, p, events) && Says(db, t, p, events)
  }

  /** A batch, or a run that is still to be created. */
  ghost predicate Watched(db: Db, p: RunId) {
    Batch(db, p) || p !in db.runs
  }

  ghost predicate TxnHeard(db: Db, t: Txn) {
    forall p :: Watched(db, p) ==> Heard(db, t, p)
  }

  /** `log` is `events`, numbered from 1. */
  ghost predicate IsLog(log: map<nat, Event>, events: seq<Event>) {
    GaplessTo(log, |events|) && forall k :: 0 <= k < |events| ==> log[k + 1] == events[k]
  }

  ghost predicate Chronicle(events: seq<Event>, total: nat, status: Status) {
    if status == Queued then forall k :: 0 <= k < |events| ==> IsCount(events[k], total) else Finale(events, total, status)
  }

  ghost predicate BatchHeard(db: Db, p: RunId) {
    if p in db.runs then exists events :: IsLog(LogOf(db, p), events) && Chronicle(events, |Children(db.runs, p)|, db.runs[p].status)
    else LogOf(db, p) == map[]
  }

  ghost predicate DbHeard(db: Db) {
    forall p :: Watched(db, p) ==> BatchHeard(db, p)
  }

  ghost predicate AllHeard(s: State) {
    DbHeard(s.db) && forall id :: id in s.txns ==> TxnHeard(s.db, s.txns[id])
  }

  // A new transaction

  lemma {:induction false} NothingToLog(todo: seq<Stmt>, p: RunId)
    requires forall s :: s in todo ==> Announces(s, p) == []
    ensures ToLog(todo, p) == []
  {
    if todo == [] {
    } else {
      NothingToLog(todo[1..], p);
    }
  }

  lemma BegunHeard(db: Db, job: Job, p: RunId)
    requires DbInv(db) && JobAllowed(db, job) && Watched(db, p)
    ensures Heard(db, Begun(job), p)
  {
    ProgramIsSilent(db, job, p);
    NothingToLog(Program(job), p);
    assert Gapless(LogOf(db, p));
    NothingTold(LogOf(db, p));
    assert Tells(db, Begun(job), p, []) && Says(db, Begun(job), p, []);
  }

  lemma ProgramIsSilent(db: Db, job: Job, p: RunId)
    requires DbShape(db) && JobAllowed(db, job) && Watched(db, p)
    ensures forall s :: s in Program(job) ==> Announces(s, p) == [] && !s.CloseParent?
  {
  }

  lemma NothingTold(log: map<nat, Event>)
    requires Gapless(log)
    ensures OnScript(log, map[], [], [])
  {
    var base: nat :| GaplessTo(log, base);
    assert Continues(log, map[], [], base, [], []);
  }

  // One statement

  lemma ReaperPassesOn(s: State, id: TxnId, e: Effect, p: RunId)
    requires Ready(s, id) && ReaperStep(s, id, e) && Watched(s.db, p) && DbShape(s.db)
    ensures PassesOn(s.txns[id], e, p)
  {
    PushedPassOn(e, p);
    if s.txns[id].todo[0].Reap? && e.pushed != [] { assert s.txns[id].todo[0].stale[0] in s.txns[id].todo[0].stale; }
  }

  lemma OthersPassOn(s: State, id: TxnId, e: Effect, p: RunId)
    requires Ready(s, id) && StmtStep(s, id, e) && Watched(s.db, p) && DbShape(s.db) && !BringsUp(s.txns[id].todo[0], p)
    ensures PassesOn(s.txns[id], e, p)
  {
    if ClaimStep(s, id, e) || CancelStep(s, id, e) {
      ClaimPassesOn(s, id, e, p);
    } else if ExecutorStep(s, id, e) || EmitStep(s, id, e) {
      ExecutorPassesOn(s, id, e, p);
    } else if ReaperStep(s, id, e) {
      ReaperPassesOn(s, id, e, p);
    } else {
      RollsPassOn(s, id, e, p);
    }
  }

  lemma SameStory(db: Db, t: Txn, t': Txn, p: RunId, events: seq<Event>)
    requires Says(db, t, p, events) && t.rows <= t'.rows && (AboutToClose(t', p) ==> AboutToClose(t, p))
    requires p in t'.closed <==> p in t.closed
    requires p in t.closed && p in t.writes ==> p in t'.writes && t'.writes[p].status == t.writes[p].status
    ensures Says(db, t', p, events)
  {
  }

  lemma StillToClose(s: State, id: TxnId, e: Effect, p: RunId)
    requires Ready(s, id) && StmtStep(s, id, e) && !BringsUp(s.txns[id].todo[0], p) && AboutToClose(After(s.txns[id], e), p)
    ensures AboutToClose(s.txns[id], p)
  {
    var t := s.txns[id];
    var seen :| CloseParent(p, seen) in After(t, e).todo;
    if CloseParent(p, seen) in e.pushed {
      if RollupStep(s, id, e) { TallyPushesClose(s, id, e, p, seen); } else { OthersPushNoClose(s, id, e); }
    } else {
      assert CloseParent(p, seen) in t.todo[1..];
    }
  }

  lemma ClosedStatus(db: Db, t: Txn, p: RunId)
    requires TxnInv(db, t) && p in t.closed
    ensures Batch(db, p) && p in t.rows && p in t.writes && db.runs[p].status == Queued
    ensures t.writes[p].status == CloseStatus(t.closed[p].seen) && Terminal(t.writes[p].status)
  {
    assert Closes(t, p, t.closed[p].seen) && BadgeSound(db, t, p) && RowOk(db, t, p);
  }

  lemma SameClosing(s: State, id: TxnId, e: Effect, p: RunId)
    requires Ready(s, id) && StmtStep(s, id, e) && !BringsUp(s.txns[id].todo[0], p)
    ensures p in After(s.txns[id], e).closed <==> p in s.txns[id].closed
    ensures p in s.txns[id].closed ==> After(s.txns[id], e).closed[p].seen == s.txns[id].closed[p].seen
  {
    if e.close.Some? { OnlyCloseCloses(s, id, e); }
  }

  /** A statement that brings up nothing new on `p` leaves what is to be said there as it was. */
  lemma QuietStep(s: State, id: TxnId, e: Effect, p: RunId, events: seq<Event>)
    requires Inv(s) && Stepping(s, id, e) && Ready(s, id) && !BringsUp(s.txns[id].todo[0], p) && Says(s.db, s.txns[id], p, events)
    ensures Says(s.db, After(s.txns[id], e), p, events)
  {
    var db, t, t' := s.db, s.txns[id], After(s.txns[id], e);
    assert TxnInv(db, t);
    StmtInv(s, id, e);
    SameClosing(s, id, e, p);
    if p in t.closed {
      ClosedStatus(db, t, p);
      ClosedStatus(db, t', p);
    }
    if AboutToClose(t', p) { StillToClose(s, id, e, p); }
    SameStory(db, t, t', p, events);
  }

  lemma QuietTells(s: State, id: TxnId, e: Effect, p: RunId, events: seq<Event>)
    requires Ready(s, id) && StmtStep(s, id, e) && DbShape(s.db) && Watched(s.db, p) && !BringsUp(s.txns[id].todo[0], p)
    requires Tells(s.db, s.txns[id], p, events)
    ensures Tells(s.db, After(s.txns[id], e), p, events)
  {
    var t := s.txns[id];
    EveryNumberIsNext(s, id, e);
    if e.ends {
      ClaimEndsQuietly(s, id, e);
      NothingToLog(t.todo, p);
    } else {
      OthersPassOn(s, id, e, p);
      TellsAfter(s.db, t, e, p, events);
    }
  }

  lemma ClaimEndsQuietly(s: State, id: TxnId, e: Effect)
    requires Ready(s, id) && StmtStep(s, id, e) && e.ends
    ensures e.event.None? && forall c :: c in s.txns[id].todo ==> Claiming(c)
  {
  }

  /** Behind a tally, or a close, a transaction has nothing more to log on the batch. */
  lemma NothingBehind(t: Txn, p: RunId)
    requires t.todo != [] && RollsLast(t.todo) && BringsUp(t.todo[0], p)
    ensures ToLog(t.todo, p) == [] && ToLog(t.todo[1..], p) == [] && forall seen :: CloseParent(p, seen) !in t.todo[1..]
  {
    forall c | c in t.todo[1..] ensures c.Reap? {
      var i :| 0 <= i < |t.todo| - 1 && t.todo[1..][i] == c;
      assert t.todo[i + 1] == c;
    }
    NothingToLog(t.todo[1..], p);
  }

  lemma NewsToTell(db: Db, t: Txn, e: Effect, p: RunId, events: seq<Event>, news: Event)
    requires t.todo != [] && ToLog(t.todo, p) == [] && ToLog(t.todo[1..], p) == [] && Tells(db, t, p, events)
    requires !e.ends && e.event.None? && ToLog(e.pushed, p) == [news]
    ensures Tells(db, After(t, e), p, events + [news])
  {
    ToLogBoth(e.pushed, t.todo[1..], p);
    assert ToLog(After(t, e).todo, p) == [news] && OwnLog(After(t, e), p) == OwnLog(t, p);
    MoreScript(LogOf(db, p), OwnLog(t, p), events, news);
  }

  lemma MoreScript(log: map<nat, Event>, own: map<nat, Event>, events: seq<Event>, news: Event)
    requires OnScript(log, own, [], events)
    ensures OnScript(log, own, [news], events + [news])
  {
    var base: nat, told :| Continues(log, own, [], base, told, events);
    assert Continues(log, own, [news], base, told, events + [news]);
  }

  /** What a tally finds: children that have ended among all of them, and no live one before a close. */
  lemma TallyCounts(m: map<RunId, Run>, p: RunId)
    ensures var seen := ChildRows(m, p);
            && IsCount(ProgressEvent(|Concluded(seen)|, |seen|), |Children(m, p)|)
            && (!AnyLive(seen) ==> |Concluded(seen)| == |Children(m, p)|)
  {
    var seen := ChildRows(m, p);
    assert seen.Keys == Children(m, p);
    assert Concluded(seen) <= seen.Keys;
    ConcurrencyCap.Fits(Concluded(seen), seen.Keys);
    if !AnyLive(seen) { assert Concluded(seen) == seen.Keys; }
  }

  lemma SameChildren(db: Db, t: Txn, p: RunId)
    requires RowsOk(db, t) && p in db.runs
    ensures Children(View(db, t), p) == Children(db.runs, p)
  {
    SameFamilies(db, t, p);
    forall c ensures c in Children(View(db, t), p) <==> c in Children(db.runs, p) {
      assert IsChild(View(db, t), c, p) <==> IsChild(db.runs, c, p);
    }
  }

  /** A batch that this transaction holds, and may still close. */
  ghost predicate Open(db: Db, t: Txn, p: RunId) {
    p in db.runs && p in t.rows && p !in t.closed && db.runs[p].status == Queued
  }

  lemma OpenForTally(db: Db, t: Txn, p: RunId)
    requires TxnInv(db, t) && DbShape(db) && Unclosed(db, t, p)
    ensures Open(db, t, p) && RollsLast(t.todo)
  {
    if p in t.closed { ClosedStatus(db, t, p); }
    if p in t.writes { assert RowOk(db, t, p); }
  }

  function EndedChildren(m: map<RunId, Run>, p: RunId): set<RunId> {
    set c | c in m && m[c].parent == Some(p) && m[c].status in {Completed, Failed, Cancelled}
  }

  /** A tally first tells the batch how many of its children have ended, and how many it has. */
  lemma TallyAnnounces(s: State, id: TxnId, e: Effect, p: RunId)
    requires Stepping(s, id, e) && s.txns[id].todo[0] == Tally(p)
    ensures var view := View(s.db, s.txns[id]);
            e.pushed != [] && e.pushed[0] == Emit(p, ProgressEvent(|EndedChildren(view, p)|, |Children(view, p)|))
  {
    var seen := ChildRows(View(s.db, s.txns[id]), p);
    TallyEffect(s, id, e, p);
    assert Concluded(seen) == EndedChildren(View(s.db, s.txns[id]), p) && seen.Keys == Children(View(s.db, s.txns[id]), p);
  }

  lemma TallyPushed(p: RunId, seen: map<RunId, Run>)
    ensures var e := Quiet(AfterTally(p, seen));
            && ToLog(e.pushed, p) == [ProgressEvent(|Concluded(seen)|, |seen|)]
            && (AnyLive(seen) ==> forall others :: CloseParent(p, others) !in e.pushed)
  {
    var progress := Emit(p, ProgressEvent(|Concluded(seen)|, |seen|));
    if AnyLive(seen) { ToLogOne(progress, p); } else { ToLogTwo(progress, CloseParent(p, seen), p); }
  }

  lemma TallyTells(db: Db, t: Txn, e: Effect, p: RunId, seen: map<RunId, Run>, events: seq<Event>)
    requires t.todo != [] && RollsLast(t.todo) && t.todo[0] == Tally(p) && e == Quiet(AfterTally(p, seen)) && Tells(db, t, p, events)
    ensures Tells(db, After(t, e), p, events + [ProgressEvent(|Concluded(seen)|, |seen|)])
    ensures AboutToClose(After(t, e), p) ==> !AnyLive(seen)
    ensures After(t, e).rows == t.rows && After(t, e).closed == t.closed
  {
    TallyPushed(p, seen);
    NothingBehind(t, p);
    NewsToTell(db, t, e, p, events, ProgressEvent(|Concluded(seen)|, |seen|));
  }

  /** What an open batch may be told next. */
  lemma HeardMore(db: Db, t: Txn, t': Txn, p: RunId, events: seq<Event>, news: Event)
    requires Tells(db, t', p, events + [news]) && Says(db, t, p, events) && Open(db, t, p) && t'.rows == t.rows && t'.closed == t.closed
    requires IsCount(news, |Children(db.runs, p)|)
    requires AboutToClose(t', p) ==> news == ProgressEvent(|Children(db.runs, p)|, |Children(db.runs, p)|)
    ensures Heard(db, t', p)
  {
    assert Says(db, t', p, events + [news]);
  }

  lemma TallyEffect(s: State, id: TxnId, e: Effect, p: RunId)
    requires Stepping(s, id, e) && s.txns[id].todo[0] == Tally(p)
    ensures e == Quiet(AfterTally(p, ChildRows(View(s.db, s.txns[id]), p)))
  {
  }

  lemma ViewCounts(db: Db, t: Txn, p: RunId)
    requires RowsOk(db, t) && p in db.runs
    ensures var seen := ChildRows(View(db, t), p);
            && IsCount(ProgressEvent(|Concluded(seen)|, |seen|), |Children(db.runs, p)|)
            && (!AnyLive(seen) ==> |Concluded(seen)| == |Children(db.runs, p)|)
  {
    SameChildren(db, t, p);
    TallyCounts(View(db, t), p);
  }

  lemma TallyHeard(db: Db, t: Txn, e: Effect, p: RunId, seen: map<RunId, Run>, events: seq<Event>)
    requires t.todo != [] && t.todo[0] == Tally(p) && Open(db, t, p) && RollsLast(t.todo) && e == Quiet(AfterTally(p, seen))
    requires IsCount(ProgressEvent(|Concluded(seen)|, |seen|), |Children(db.runs, p)|)
    requires !AnyLive(seen) ==> |Concluded(seen)| == |Children(db.runs, p)|
    requires Tells(db, t, p, events) && Says(db, t, p, events)
    ensures Heard(db, After(t, e), p)
  {
    TallyTells(db, t, e, p, seen, events);
    HeardMore(db, t, After(t, e), p, events, ProgressEvent(|Concluded(seen)|, |seen|));
  }

  lemma ClosePushed(p: RunId, row: Run, seen: map<RunId, Run>)
    ensures var e := ClosingEffect(p, row, seen);
            && ToLog(e.pushed, p) == [StatusEvent(CloseStatus(seen))]
            && forall others :: CloseParent(p, others) !in e.pushed
  {
    var announced := Emit(p, StatusEvent(CloseStatus(seen)));
    if CloseStatus(seen) == Completed { ToLogTwo(announced, BadgeParent(p), p); } else { ToLogOne(announced, p); }
  }

  lemma CloseTells(db: Db, t: Txn, e: Effect, p: RunId, row: Run, seen: map<RunId, Run>, events: seq<Event>)
    requires t.todo != [] && RollsLast(t.todo) && t.todo[0] == CloseParent(p, seen) && e == ClosingEffect(p, row, seen)
    requires Tells(db, t, p, events)
    ensures Tells(db, After(t, e), p, events + [StatusEvent(CloseStatus(seen))])
  {
    ClosePushed(p, row, seen);
    NothingBehind(t, p);
    NewsToTell(db, t, e, p, events, StatusEvent(CloseStatus(seen)));
  }

  /** The status that a batch is closed with is told last, behind full progress. */
  lemma SaysLast(db: Db, t: Txn, t': Txn, p: RunId, events: seq<Event>, status: Status)
    requires Says(db, t, p, events) && Open(db, t, p) && AboutToClose(t, p)
    requires t.rows <= t'.rows && p in t'.closed && p in t'.writes && t'.writes[p].status == status
    ensures Says(db, t', p, events + [StatusEvent(status)])
  {
  }

  lemma CloseEffect(s: State, id: TxnId, e: Effect, p: RunId, seen: map<RunId, Run>)
    requires Stepping(s, id, e) && s.txns[id].todo[0] == CloseParent(p, seen)
    ensures p in View(s.db, s.txns[id]) && e == ClosingEffect(p, View(s.db, s.txns[id])[p], seen)
  {
  }

  lemma CloseHeard(db: Db, t: Txn, e: Effect, p: RunId, row: Run, seen: map<RunId, Run>, events: seq<Event>)
    requires t.todo != [] && t.todo[0] == CloseParent(p, seen) && Open(db, t, p) && RollsLast(t.todo)
    requires e == ClosingEffect(p, row, seen)
    requires Tells(db, t, p, events) && Says(db, t, p, events)
    ensures Heard(db, After(t, e), p)
  {
    assert AboutToClose(t, p) by { assert t.todo[0] in t.todo; }
    CloseTells(db, t, e, p, row, seen, events);
    SaysLast(db, t, After(t, e), p, events, CloseStatus(seen));
  }

  lemma TallyStepHeard(s: State, id: TxnId, e: Effect, p: RunId, events: seq<Event>)
    requires Stepping(s, id, e) && Ready(s, id) && TxnInv(s.db, s.txns[id]) && DbShape(s.db) && s.txns[id].todo[0] == Tally(p)
    requires Tells(s.db, s.txns[id], p, events) && Says(s.db, s.txns[id], p, events)
    ensures Heard(s.db, After(s.txns[id], e), p)
  {
    var db, t := s.db, s.txns[id];
    TallyEffect(s, id, e, p);
    OpenForTally(db, t, p);
    ViewCounts(db, t, p);
    TallyHeard(db, t, e, p, ChildRows(View(db, t), p), events);
  }

  lemma CloseStepHeard(s: State, id: TxnId, e: Effect, p: RunId, events: seq<Event>)
    requires Stepping(s, id, e) && Ready(s, id) && TxnInv(s.db, s.txns[id]) && DbShape(s.db)
    requires s.txns[id].todo[0].CloseParent? && s.txns[id].todo[0].run == p
    requires Tells(s.db, s.txns[id], p, events) && Says(s.db, s.txns[id], p, events)
    ensures Heard(s.db, After(s.txns[id], e), p)
  {
    var db, t := s.db, s.txns[id];
    CloseEffect(s, id, e, p, t.todo[0].seen);
    OpenForTally(db, t, p);
    CloseHeard(db, t, e, p, View(db, t)[p], t.todo[0].seen, events);
  }

  lemma StmtHeard(s: State, id: TxnId, e: Effect, p: RunId)
    requires Inv(s) && Stepping(s, id, e) && Watched(s.db, p) && Heard(s.db, s.txns[id], p)
    ensures Heard(s.db, After(s.txns[id], e), p)
  {
    var db, t := s.db, s.txns[id];
    assert TxnInv(db, t) && t.todo[0] in t.todo;
    assert Ready(s, id) by { assert StmtOk(db, t, t.todo[0]); }
    var events :| Tells(db, t, p, events) && Says(db, t, p, events);
    if t.todo[0] == Tally(p) {
      TallyStepHeard(s, id, e, p, events);
    } else if t.todo[0].CloseParent? && t.todo[0].run == p {
      CloseStepHeard(s, id, e, p, events);
    } else {
      QuietTells(s, id, e, p, events);
      QuietStep(s, id, e, p, events);
    }
  }

  // Commits

  lemma CommitSameChildren(db: Db, t: Txn, p: RunId)
    requires TxnShape(db, t) && p in db.runs
    ensures Children(Committed(db, t).runs, p) == Children(db.runs, p)
  {
    CommitKeeps(db, t, p);
    forall c ensures c in Children(Committed(db, t).runs, p) <==> c in Children(db.runs, p) {
      assert IsChild(Committed(db, t).runs, c, p) <==> IsChild(db.runs, c, p);
    }
  }

  lemma StillWatched(db: Db, t: Txn, p: RunId)
    requires TxnShape(db, t) && Watched(Committed(db, t), p)
    ensures Watched(db, p)
  {
    if p in db.runs { CommitKeeps(db, t, p); }
  }

  lemma CommitOtherHeard(db: Db, t: Txn, u: Txn, p: RunId)
    requires DbInv(db) && TxnInv(db, t) && TxnInv(db, u) && Disjoint(t, u) && Watched(Committed(db, t), p)
    requires Watched(db, p) ==> Heard(db, u, p)
    ensures Heard(Committed(db, t), u, p)
  {
    StillWatched(db, t, p);
    var events :| Tells(db, u, p, events) && Says(db, u, p, events);
    CommitOtherTells(db, t, u, p, events);
    if p in u.closed { ClosedStatus(db, u, p); }
    if p in db.runs {
      CommitSameChildren(db, t, p);
      if p in u.rows { CommitView(db, t, u, p); }
    } else {
      assert events == [];
    }
    assert Says(Committed(db, t), u, p, events);
  }

  lemma ChronicleCommitted(db: Db, t: Txn, p: RunId)
    requires DbInv(db) && TxnInv(db, t) && t.todo == [] && Batch(db, p) && BatchHeard(db, p) && Heard(db, t, p)
    ensures BatchHeard(Committed(db, t), p)
  {
    var now := Committed(db, t);
    var before :| IsLog(LogOf(db, p), before) && Chronicle(before, |Children(db.runs, p)|, db.runs[p].status);
    var events :| Tells(db, t, p, events) && Says(db, t, p, events);
    CommittedTells(db, t, p, events);
    LogGrowsBy(LogOf(db, p), LogOf(now, p), before, events);
    CommitSameChildren(db, t, p);
    CommitKeeps(db, t, p);
    if p in t.closed { ClosedStatus(db, t, p); }
    if p in t.writes { assert RowOk(db, t, p); }
    ChronicleGrows(db, t, p, before, events);
  }

  lemma LogGrowsBy(log: map<nat, Event>, now: map<nat, Event>, before: seq<Event>, events: seq<Event>)
    requires IsLog(log, before) && Appends(log, now, events)
    ensures IsLog(now, before + events)
  {
    var n: nat :| && GaplessTo(log, n) && GaplessTo(now, n + |events|) && Extends(log, now)
                  && forall i :: 0 <= i < |events| ==> now[n + 1 + i] == events[i];
    assert (n > 0 ==> n in log) && (|before| > 0 ==> |before| in log);
    forall k | 0 <= k < |before + events| ensures now[k + 1] == (before + events)[k] {
      if k < |before| { assert k + 1 in log; } else { assert now[n + 1 + (k - n)] == events[k - n]; }
    }
  }

  lemma ChronicleGrows(db: Db, t: Txn, p: RunId, before: seq<Event>, events: seq<Event>)
    requires p in db.runs && Says(db, t, p, events) && Chronicle(before, |Children(db.runs, p)|, db.runs[p].status)
    requires p in t.writes ==> p in t.closed && db.runs[p].status == Queued && t.writes[p].status != Queued
    requires p in t.closed ==> p in t.writes
    ensures Chronicle(before + events, |Children(db.runs, p)|, View(db, t)[p].status)
  {
    if events == [] { assert before + events == before; }
  }

  lemma NewBatchHeard(db: Db, t: Txn, p: RunId)
    requires DbInv(db) && TxnInv(db, t) && t.todo == [] && p !in db.runs && BatchHeard(db, p) && Heard(db, t, p)
    ensures BatchHeard(Committed(db, t), p)
  {
    var now := Committed(db, t);
    var events :| Tells(db, t, p, events) && Says(db, t, p, events);
    CommittedTells(db, t, p, events);
    assert events == [] && LogOf(now, p) == map[];
    if p in now.runs {
      assert RowOk(db, t, p);
      assert IsLog(LogOf(now, p), []) && Chronicle([], |Children(now.runs, p)|, now.runs[p].status);
    }
  }

  lemma CommitHeard(db: Db, t: Txn)
    requires DbInv(db) && TxnInv(db, t) && t.todo == [] && DbHeard(db) && TxnHeard(db, t)
    ensures DbHeard(Committed(db, t))
  {
    forall p | Watched(Committed(db, t), p) ensures BatchHeard(Committed(db, t), p) {
      StillWatched(db, t, p);
      assert BatchHeard(db, p) && Heard(db, t, p);
      if p in db.runs { ChronicleCommitted(db, t, p); } else { NewBatchHeard(db, t, p); }
    }
  }

  // Every behavior

  lemma InitHeard(s: State)
    requires Init(s)
    ensures AllHeard(s)
  {
  }

  lemma BeginHeard(s: State, id: TxnId, job: Job)
    requires Inv(s) && AllHeard(s) && JobAllowed(s.db, job)
    ensures AllHeard(s.(txns := s.txns[id := Begun(job)]))
  {
    forall p | Watched(s.db, p) ensures Heard(s.db, Begun(job), p) { BegunHeard(s.db, job, p); }
  }

  lemma ExecuteHeard(s: State, id: TxnId, e: Effect)
    requires Inv(s) && AllHeard(s) && Stepping(s, id, e)
    ensures AllHeard(s.(txns := s.txns[id := After(s.txns[id], e)]))
  {
    assert TxnHeard(s.db, s.txns[id]);
    forall p | Watched(s.db, p) ensures Heard(s.db, After(s.txns[id], e), p) { StmtHeard(s, id, e, p); }
  }

  lemma CommitStepHeard(s: State, id: TxnId)
    requires Inv(s) && AllHeard(s) && id in s.txns && s.txns[id].todo == []
    ensures AllHeard(State(Committed(s.db, s.txns[id]), s.txns - {id}))
  {
    var db, t := s.db, s.txns[id];
    assert TxnInv(db, t) && TxnHeard(db, t);
    CommitHeard(db, t);
    forall o | o in s.txns && o != id ensures TxnHeard(Committed(db, t), s.txns[o]) {
      assert TxnInv(db, s.txns[o]) && TxnHeard(db, s.txns[o]) && Disjoint(t, s.txns[o]);
      forall p | Watched(Committed(db, t), p) ensures Heard(Committed(db, t), s.txns[o], p) {
        CommitOtherHeard(db, t, s.txns[o], p);
      }
    }
  }

  lemma StepHeard(s: State, a: Action, s': State)
    requires Inv(s) && AllHeard(s) && Step(s, a, s')
    ensures AllHeard(s')
  {
    match a {
      case Begin(id, job) => BeginHeard(s, id, job);
      case Execute(id, e) => ExecuteHeard(s, id, e);
      case Commit(id) => CommitStepHeard(s, id);
      case Abort(id) =>
    }
  }

  lemma {:induction false} EveryoneHears(b: seq<State>, i: nat)
    requires Behavior(b) && i < |b|
    ensures AllHeard(b[i])
  {
    if i == 0 {
      InitHeard(b[0]);
    } else {
      EveryoneHears(b, i - 1);
      Reachable(b, i - 1);
      assert Moves(b, i - 1);
      var a :| Step(b[i - 1], a, b[i]);
      StepHeard(b[i - 1], a, b[i]);
    }
  }

  /**
   The committed log of a batch, in any reachable state: while the batch is open, counts of ended children among all;
   once it has ended, the last of these says that all have, and then, once and last, its own status is told. No event
   in it ends a stream.
   */
  lemma BatchChronicle(b: seq<State>, i: nat, p: RunId) returns (events: seq<Event>)
    requires Behavior(b) && i < |b| && Batch(b[i].db, p)
    ensures IsLog(LogOf(b[i].db, p), events)
    ensures var total, status := |Children(b[i].db.runs, p)|, b[i].db.runs[p].status;
            if status == Queued then forall k :: 0 <= k < |events| ==> IsCount(events[k], total)
            else Finale(events, total, status)
    ensures forall k :: 0 <= k < |events| ==> !events[k].DoneEvent? && !events[k].ErrorEvent?
  {
    EveryoneHears(b, i);
    var db := b[i].db;
    assert BatchHeard(db, p);
    events :| IsLog(LogOf(db, p), events) && Chronicle(events, |Children(db.runs, p)|, db.runs[p].status);
  }
}
