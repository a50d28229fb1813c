/** However many workers claim at once, an agent's claimed and running rows stay within its cap. */
module ConcurrencyCap {
  import opened RunTypes
  import opened Transactions
  import opened Discipline

  /** The agent's claimed and running rows, except those brought back from a terminal status. */
  function Clean(db: Db, a: AgentId): set<RunId> {
    set r | r in db.runs && db.runs[r].agent == a && Occupies(db.runs[r].status) && r !in db.resurrected
  }

  /** The rows whose unguarded `running` write overwrote a terminal status, while they are live. */
  function Overwritten(db: Db, a: AgentId): set<RunId> {
    set r | r in db.runs && db.runs[r].agent == a && Occupies(db.runs[r].status) && r in db.resurrected
  }

  ghost predicate NewClaim(db: Db, t: Txn, r: RunId, a: AgentId) {
    && r in t.writes && r in db.runs && db.runs[r].status == Queued
    && t.writes[r].status == Claimed && t.writes[r].agent == a
  }

  /** Past the capacity check of `a`, with the claim still to be made or to be committed. */
  ghost predicate ClaimPending(db: Db, t: Txn, a: AgentId) {
    ClaimOldest(a) in t.todo || exists r :: NewClaim(db, t, r, a)
  }

  ghost predicate DbCapped(db: Db) {
    forall a :: |Clean(db, a)| <= Cap(db, a)
  }

  ghost predicate TxnCapped(db: Db, t: Txn) {
    forall a :: ClaimPending(db, t, a) ==> a in t.agents && |Clean(db, a)| < Cap(db, a)
  }

  lemma Fits(small: set<RunId>, big: set<RunId>)
    requires small <= big
    ensures |small| <= |big|
  {
    assert big == small + (big - small);
  }

  lemma FitsBesides(small: set<RunId>, big: set<RunId>, r: RunId)
    requires small <= big + {r}
    ensures |small| <= |big| + 1
  {
    Fits(small, big + {r});
  }

  // One statement

  /** A claim becomes pending only at a capacity check that finds room. */
  lemma ClaimArises(s: State, id: TxnId, e: Effect, a: AgentId)
    requires Ready(s, id) && StmtStep(s, id, e) && WritesOk(s.db, s.txns[id], e)
    requires ClaimPending(s.db, After(s.txns[id], e), a)
    ensures ClaimPending(s.db, s.txns[id], a)
            || (s.txns[id].todo[0] == CheckCapacity(a) && |Occupying(View(s.db, s.txns[id]), a)| < Cap(s.db, a))
  {
    var db, t := s.db, s.txns[id];
    var t' := After(t, e);
    if ClaimOldest(a) in t'.todo {
      OnlyCheckPushesClaim(s, id, e, a);
      assert forall c :: c in t.todo[1..] ==> c in t.todo;
    } else {
      var r :| NewClaim(db, t', r, a);
      if !NewClaim(db, t, r, a) {
        OnlyClaimWritesClaimed(s, id, e, r);
        assert t.todo[0] in t.todo;
      }
    }
  }

  lemma OnlyCheckPushesClaim(s: State, id: TxnId, e: Effect, a: AgentId)
    requires Active(s, id) && StmtStep(s, id, e) && ClaimOldest(a) in e.pushed + s.txns[id].todo[1..]
    ensures ClaimOldest(a) in s.txns[id].todo[1..]
            || (s.txns[id].todo[0] == CheckCapacity(a) && |Occupying(View(s.db, s.txns[id]), a)| < Cap(s.db, a))
  {
    PushedKinds(s, id, e);
    if ClaimStep(s, id, e) && ClaimOldest(a) in e.pushed { CheckFindsRoom(s, id, e, a); }
  }

  lemma CheckFindsRoom(s: State, id: TxnId, e: Effect, a: AgentId)
    requires Active(s, id) && ClaimStep(s, id, e) && ClaimOldest(a) in e.pushed
    ensures s.txns[id].todo[0] == CheckCapacity(a) && |Occupying(View(s.db, s.txns[id]), a)| < Cap(s.db, a)
  {
  }

  lemma OnlyClaimWritesClaimed(s: State, id: TxnId, e: Effect, r: RunId)
    requires Ready(s, id) && StmtStep(s, id, e) && WritesOk(s.db, s.txns[id], e)
    requires r in After(s.txns[id], e).writes && After(s.txns[id], e).writes[r].status == Claimed && r in s.db.runs
    ensures (r in s.txns[id].writes && s.txns[id].writes[r] == After(s.txns[id], e).writes[r])
            || s.txns[id].todo[0] == ClaimOldest(After(s.txns[id], e).writes[r].agent)
  {
    if !ClaimStep(s, id, e) { OthersNeverClaim(s, id, e); }
  }

  lemma OthersNeverClaim(s: State, id: TxnId, e: Effect)
    requires Ready(s, id) && StmtStep(s, id, e) && !ClaimStep(s, id, e)
    ensures e.inserts == map[] && (e.write.Some? ==> e.write.value.row.status != Claimed)
  {
    if ExecutorStep(s, id, e) { ExecutorNeverClaims(s, id, e); }
  }

  lemma ExecutorNeverClaims(s: State, id: TxnId, e: Effect)
    requires Ready(s, id) && ExecutorStep(s, id, e)
    ensures e.inserts == map[] && (e.write.Some? ==> e.write.value.row.status != Claimed)
  {
  }

  lemma StmtCapped(s: State, id: TxnId, e: Effect)
    requires Ready(s, id) && StmtStep(s, id, e) && WritesOk(s.db, s.txns[id], e) && TxnCapped(s.db, s.txns[id])
    ensures TxnCapped(s.db, After(s.txns[id], e))
  {
    var db, t := s.db, s.txns[id];
    forall a | ClaimPending(db, After(t, e), a) ensures a in After(t, e).agents && |Clean(db, a)| < Cap(db, a) {
      ClaimArises(s, id, e, a);
      if !ClaimPending(db, t, a) { CheckedRoom(db, t, a); }
    }
  }

  /** The capacity check reads the committed rows: nothing has been written before it. */
  lemma CheckedRoom(db: Db, t: Txn, a: AgentId)
    requires StmtOk(db, t, CheckCapacity(a)) && |Occupying(View(db, t), a)| < Cap(db, a)
    ensures a in t.agents && |Clean(db, a)| < Cap(db, a)
  {
    assert View(db, t) == db.runs;
    Fits(Clean(db, a), Occupying(db.runs, a));
  }

  // Commit

  /** A commit adds to an agent's clean rows only the row it claims. */
  lemma CleanAfter(db: Db, t: Txn, a: AgentId, r: RunId)
    requires TxnShape(db, t) && r in Clean(Committed(db, t), a)
    ensures r in Clean(db, a) || NewClaim(db, t, r, a)
  {
    if r in t.writes { assert RowOk(db, t, r); }
  }

  lemma CommitCapped(db: Db, t: Txn)
    requires TxnShape(db, t) && DbCapped(db) && TxnCapped(db, t)
    ensures DbCapped(Committed(db, t))
  {
    var db' := Committed(db, t);
    forall a ensures |Clean(db', a)| <= Cap(db', a) {
      forall r | r in Clean(db', a) ensures r in Clean(db, a) || NewClaim(db, t, r, a) { CleanAfter(db, t, a, r); }
      if q :| NewClaim(db, t, q, a) {
        assert RowOk(db, t, q);
        FitsBesides(Clean(db', a), Clean(db, a), q);
      } else {
        Fits(Clean(db', a), Clean(db, a));
      }
    }
  }

  lemma CommitOtherCapped(db: Db, t: Txn, u: Txn)
    requires TxnShape(db, t) && TxnShape(db, u) && Disjoint(t, u) && TxnCapped(db, u)
    ensures TxnCapped(Committed(db, t), u)
  {
    var db' := Committed(db, t);
    forall a | ClaimPending(db', u, a) ensures a in u.agents && |Clean(db', a)| < Cap(db', a) {
      assert ClaimPending(db, u, a) by {
        if r :| NewClaim(db', u, r, a) {
          assert RowOk(db, u, r);
          assert NewClaim(db, u, r, a);
        }
      }
      forall r | r in Clean(db', a) ensures r in Clean(db, a) {
        CleanAfter(db, t, a, r);
        if r in t.writes { assert RowOk(db, t, r); }
      }
      Fits(Clean(db', a), Clean(db, a));
    }
  }

  /** The cap, up to the rows an unguarded write brought back. */
  lemma CapHolds(db: Db, a: AgentId)
    requires DbCapped(db)
    ensures |Occupying(db.runs, a)| <= Cap(db, a) + |Overwritten(db, a)|
    ensures db.resurrected == {} ==> |Occupying(db.runs, a)| <= Cap(db, a)
  {
    assert Occupying(db.runs, a) == Clean(db, a) + Overwritten(db, a);
    assert db.resurrected == {} ==> Overwritten(db, a) == {};
  }
}
