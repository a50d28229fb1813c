/** `claim_run` on its own, with no other transaction in flight: which run it claims. */
module ClaimScan {
  import opened RunTypes
  import opened Transactions

  const CANDIDATE_LIMIT: nat := 200

  ghost predicate Waiting(runs: map<RunId, Run>, a: AgentId, r: RunId) {
    r in runs && runs[r].agent == a && runs[r].status == Queued && !HasChild(runs, r)
  }

  ghost predicate Oldest(runs: map<RunId, Run>, a: AgentId, r: RunId) {
    Waiting(runs, a, r) && forall q :: Waiting(runs, a, q) ==> runs[r].created <= runs[q].created
  }

  ghost predicate HasWaiting(runs: map<RunId, Run>, a: AgentId) {
    exists r :: Waiting(runs, a, r)
  }

  /** The oldest waiting run of `a` is no younger than any waiting run of `b`. */
  ghost predicate Leads(runs: map<RunId, Run>, a: AgentId, b: AgentId) {
    forall r, q :: Oldest(runs, a, r) && Waiting(runs, b, q) ==> runs[r].created <= runs[q].created
  }

  /** The candidate query: the agents with waiting runs, oldest first, at most `limit` of them. */
  ghost predicate CandidateScan(runs: map<RunId, Run>, candidates: seq<AgentId>, limit: nat) {
    && Distinct(candidates)
    && (forall a :: a in candidates ==> HasWaiting(runs, a))
    && (forall i, j :: 0 <= i < j < |candidates| ==> Leads(runs, candidates[i], candidates[j]))
    && |candidates| <= limit
    && (forall a :: HasWaiting(runs, a) && a !in candidates ==>
                      |candidates| == limit && forall c :: c in candidates ==> Leads(runs, c, a))
  }

  /** The re-pick under the agent's lock: its oldest waiting run at that moment, if it has one. */
  ghost predicate OldestAnswer(runs: map<RunId, Run>, a: AgentId, answer: Option<RunId>) {
    match answer
    case Some(r) => Oldest(runs, a, r)
    case None => !HasWaiting(runs, a)
  }

  ghost predicate UnderCap(runs: map<RunId, Run>, caps: map<AgentId, nat>, a: AgentId) {
    a in caps && |Occupying(runs, a)| < caps[a]
  }

  /** At most `CANDIDATE_LIMIT` agents have a waiting run. */
  ghost predicate FewQueued(runs: map<RunId, Run>) {
    exists queued: set<AgentId> :: AllQueued(runs, queued) && |queued| <= CANDIDATE_LIMIT
  }

  ghost predicate AllQueued(runs: map<RunId, Run>, queued: set<AgentId>) {
    forall a :: HasWaiting(runs, a) ==> a in queued
  }

  /** Some agent under its cap has a waiting run. */
  ghost predicate Eligible(runs: map<RunId, Run>, caps: map<AgentId, nat>) {
    exists a, q :: Waiting(runs, a, q) && UnderCap(runs, caps, a)
  }

  /** A claim attempt of the protocol that is alone checks and picks exactly this. */
  lemma AloneClaimsOldest(s: State, id: TxnId, a: AgentId, r: RunId)
    requires s.txns.Keys == {id} && s.txns[id].writes == map[]
    ensures OldestClaimable(s, id, a, r) <==> Oldest(s.db.runs, a, r)
    ensures a in s.db.caps ==> (|Occupying(View(s.db, s.txns[id]), a)| < Cap(s.db, a) <==> UnderCap(s.db.runs, s.db.caps, a))
  {
    assert View(s.db, s.txns[id]) == s.db.runs;
    forall q ensures Claimable(s, id, a, q) <==> Waiting(s.db.runs, a, q) { }
  }

  /** The first under-cap candidate's oldest run is the oldest waiting run of all under-cap agents. */
  lemma ScanOrder(runs: map<RunId, Run>, caps: map<AgentId, nat>, candidates: seq<AgentId>, i: nat, r: RunId)
    requires CandidateScan(runs, candidates, CANDIDATE_LIMIT) && i < |candidates| && Oldest(runs, candidates[i], r)
    requires forall j :: 0 <= j < i ==> !UnderCap(runs, caps, candidates[j])
    ensures forall a, q :: Waiting(runs, a, q) && UnderCap(runs, caps, a) ==> runs[r].created <= runs[q].created
  {
    forall a, q | Waiting(runs, a, q) && UnderCap(runs, caps, a) ensures runs[r].created <= runs[q].created {
      assert HasWaiting(runs, a);
      CandidateLeads(runs, candidates, i, a);
    }
  }

  lemma CandidateLeads(runs: map<RunId, Run>, candidates: seq<AgentId>, i: nat, a: AgentId)
    requires CandidateScan(runs, candidates, CANDIDATE_LIMIT) && i < |candidates| && HasWaiting(runs, a)
    requires forall j :: 0 <= j < i ==> candidates[j] != a
    ensures a == candidates[i] || Leads(runs, candidates[i], a)
  {
    if a in candidates {
      var j :| 0 <= j < |candidates| && candidates[j] == a;
    } else {
      assert candidates[i] in candidates;
    }
  }

  class RunsTable {
    var runs: map<RunId, Run>
    const caps: map<AgentId, nat>

    constructor (runs: map<RunId, Run>, caps: map<AgentId, nat>)
      ensures this.runs == runs && this.caps == caps
    {
      this.runs := runs;
      this.caps := caps;
    }

    /** `candidates` and `oldest` are the answers of the two queries. */
    method ClaimRun(candidates: seq<AgentId>, oldest: AgentId -> Option<RunId>) returns (claimed: Option<RunId>)
      requires CandidateScan(runs, candidates, CANDIDATE_LIMIT)
      requires forall a :: a in candidates ==> a in caps
      requires forall a :: OldestAnswer(runs, a, oldest(a))
      modifies this
      ensures match claimed
              case None => runs == old(runs) && forall a :: a in candidates ==> !UnderCap(runs, caps, a)
              case Some(r) =>
                && r in old(runs) && runs == old(runs)[r := old(runs)[r].(status := Claimed)]
                && Waiting(old(runs), old(runs)[r].agent, r) && UnderCap(old(runs), caps, old(runs)[r].agent)
                && forall a, q :: Waiting(old(runs), a, q) && UnderCap(old(runs), caps, a) ==>
                                    old(runs)[r].created <= old(runs)[q].created
      ensures FewQueued(old(runs)) ==> (claimed.None? <==> !Eligible(old(runs), caps))
    {
      for i := 0 to |candidates|
        invariant runs == old(runs)
        invariant forall j :: 0 <= j < i ==> !UnderCap(runs, caps, candidates[j])
      {
        var a := candidates[i];
        if |Occupying(runs, a)| >= caps[a] {
          continue;
        }
        match oldest(a) {
          case None => continue;
          case Some(r) =>
            ScanOrder(runs, caps, candidates, i, r);
            assert Waiting(runs, a, r) && UnderCap(runs, caps, a);
            runs := runs[r := runs[r].(status := Claimed)];
            return Some(r);
        }
      }
      if FewQueued(runs) { NobodyEligible(runs, caps, candidates); }
      return None;
    }
  }

  lemma NobodyEligible(runs: map<RunId, Run>, caps: map<AgentId, nat>, candidates: seq<AgentId>)
    requires CandidateScan(runs, candidates, CANDIDATE_LIMIT) && FewQueued(runs)
    requires forall j :: 0 <= j < |candidates| ==> !UnderCap(runs, caps, candidates[j])
    ensures !Eligible(runs, caps)
  {
    var queued: set<AgentId> :| AllQueued(runs, queued) && |queued| <= CANDIDATE_LIMIT;
    forall a, q | Waiting(runs, a, q) ensures !UnderCap(runs, caps, a) { ScanIsComplete(runs, candidates, queued, a); }
  }

  lemma {:induction false} DistinctCount(s: seq<AgentId>, bound: set<AgentId>)
    requires Distinct(s)
    requires forall a :: a in s ==> a in bound
    ensures |s| <= |bound|
  {
    if s == [] {
    } else {
      var last := s[|s| - 1];
      DistinctCount(s[..|s| - 1], bound - {last});
    }
  }

  /**
   With at most `CANDIDATE_LIMIT` agents queued the scan sees them all, so a claim that comes back
   empty-handed means that no agent under its cap has a waiting run.
   */
  lemma ScanIsComplete(runs: map<RunId, Run>, candidates: seq<AgentId>, queued: set<AgentId>, a: AgentId)
    requires CandidateScan(runs, candidates, CANDIDATE_LIMIT)
    requires AllQueued(runs, queued) && |queued| <= CANDIDATE_LIMIT
    ensures a in candidates <==> HasWaiting(runs, a)
  {
    if HasWaiting(runs, a) && a !in candidates {
      DistinctCount(candidates, queued - {a});
    }
  }
}
