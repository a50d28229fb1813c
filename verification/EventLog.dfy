/** Each run's committed events are numbered 1..n, and a stream from any `after` delivers the rest in order. */
module EventLog {
  import opened RunTypes
  import opened Transactions
  import opened Discipline

  ghost predicate GaplessTo(log: map<nat, Event>, n: nat) {
    forall k :: k in log <==> 1 <= k <= n
  }

  ghost predicate Gapless(log: map<nat, Event>) {
    exists n: nat :: GaplessTo(log, n)
  }

  /** `later` has every event of `log`, at the same number. */
  ghost predicate Extends(log: map<nat, Event>, later: map<nat, Event>) {
    forall k :: k in log ==> k in later && later[k] == log[k]
  }

  ghost predicate DbLogs(db: Db) {
    forall r :: Gapless(LogOf(db, r))
  }

  /** What a transaction has inserted, but not committed, continues the committed log. */
  ghost predicate TxnLogs(db: Db, t: Txn) {
    forall r :: Gapless(LogView(db, t, r)) && LogOf(db, r).Keys !! OwnLog(t, r).Keys
  }

  lemma NextNumber(log: map<nat, Event>, top: nat, e: Event)
    requires Gapless(log) && IsTop(log, top)
    ensures GaplessTo(log[top + 1 := e], top + 1) && top + 1 !in log
  {
    var n: nat :| GaplessTo(log, n);
    assert n > 0 ==> n in log;
    assert n == top;
  }

  ghost predicate TakesNextNumber(db: Db, t: Txn, e: Effect) {
    e.event.Some? ==> e.event.value.at > 0 && IsTop(LogView(db, t, e.event.value.run), e.event.value.at - 1)
  }

  lemma InsertNext(log: map<nat, Event>, own: map<nat, Event>, at: nat, e: Event)
    requires Gapless(log + own) && log.Keys !! own.Keys && at > 0 && IsTop(log + own, at - 1)
    ensures Gapless(log + own[at := e]) && log.Keys !! own[at := e].Keys
  {
    NextNumber(log + own, at - 1, e);
    assert log + own[at := e] == (log + own)[at := e];
  }

  lemma LogAfter(db: Db, t: Txn, e: Effect, r: RunId)
    requires t.todo != [] && TakesNextNumber(db, t, e)
    requires Gapless(LogView(db, t, r)) && LogOf(db, r).Keys !! OwnLog(t, r).Keys
    ensures Gapless(LogView(db, After(t, e), r)) && LogOf(db, r).Keys !! OwnLog(After(t, e), r).Keys
  {
    if e.event.Some? && r == e.event.value.run {
      InsertNext(LogOf(db, r), OwnLog(t, r), e.event.value.at, e.event.value.event);
    } else {
      assert OwnLog(After(t, e), r) == OwnLog(t, r);
    }
  }

  lemma StmtLogs(s: State, id: TxnId, e: Effect)
    requires Ready(s, id) && StmtStep(s, id, e) && TxnLogs(s.db, s.txns[id])
    ensures TxnLogs(s.db, After(s.txns[id], e))
  {
    var db, t := s.db, s.txns[id];
    EveryNumberIsNext(s, id, e);
    forall r
      ensures Gapless(LogView(db, After(t, e), r)) && LogOf(db, r).Keys !! OwnLog(After(t, e), r).Keys
    {
      assert Gapless(LogView(db, t, r)) && LogOf(db, r).Keys !! OwnLog(t, r).Keys;
      LogAfter(db, t, e, r);
    }
  }

  lemma EveryNumberIsNext(s: State, id: TxnId, e: Effect)
    requires Ready(s, id) && StmtStep(s, id, e)
    ensures TakesNextNumber(s.db, s.txns[id], e)
  {
    if !EmitStep(s, id, e) { OthersLogNothing(s, id, e); }
  }

  lemma OthersLogNothing(s: State, id: TxnId, e: Effect)
    requires Ready(s, id) && StmtStep(s, id, e) && !EmitStep(s, id, e)
    ensures e.event.None?
  {
    if ExecutorStep(s, id, e) || RollupStep(s, id, e) { ThoseLogNothing(s, id, e); }
  }

  lemma ThoseLogNothing(s: State, id: TxnId, e: Effect)
    requires Ready(s, id) && (ExecutorStep(s, id, e) || RollupStep(s, id, e))
    ensures e.event.None?
  {
  }

  lemma CommittedLog(db: Db, t: Txn, r: RunId)
    ensures LogOf(Committed(db, t), r) == LogView(db, t, r)
  {
  }

  lemma CommitLogs(db: Db, t: Txn)
    requires TxnLogs(db, t)
    ensures DbLogs(Committed(db, t))
    ensures forall r :: Extends(LogOf(db, r), LogOf(Committed(db, t), r))
  {
    forall r ensures Gapless(LogOf(Committed(db, t), r)) && Extends(LogOf(db, r), LogOf(Committed(db, t), r)) {
      CommittedLog(db, t, r);
      assert LogOf(db, r).Keys !! OwnLog(t, r).Keys;
    }
  }

  lemma CommitOtherLog(db: Db, t: Txn, u: Txn, r: RunId)
    requires t.events.Keys !! u.events.Keys
    requires Gapless(LogOf(Committed(db, t), r))
    requires Gapless(LogView(db, u, r)) && LogOf(db, r).Keys !! OwnLog(u, r).Keys
    ensures Gapless(LogView(Committed(db, t), u, r)) && LogOf(Committed(db, t), r).Keys !! OwnLog(u, r).Keys
  {
    var db' := Committed(db, t);
    if r in u.events {
      assert LogOf(db', r) == LogOf(db, r);
    } else {
      assert LogView(db', u, r) == LogOf(db', r);
    }
  }

  lemma CommitOtherLogs(db: Db, t: Txn, u: Txn)
    requires TxnLogs(db, t) && TxnLogs(db, u) && Disjoint(t, u)
    requires t.events.Keys <= t.logs && u.events.Keys <= u.logs
    ensures TxnLogs(Committed(db, t), u)
  {
    var db' := Committed(db, t);
    CommitLogs(db, t);
    forall r ensures Gapless(LogView(db', u, r)) && LogOf(db', r).Keys !! OwnLog(u, r).Keys {
      assert Gapless(LogView(db, u, r)) && LogOf(db, r).Keys !! OwnLog(u, r).Keys && Gapless(LogOf(db', r));
      CommitOtherLog(db, t, u, r);
    }
  }

  // Streams

  datatype Frame = Frame(at: nat, event: Event)

  /** SELECT ... WHERE seq > after ORDER BY seq. */
  ghost predicate IsFetch(log: map<nat, Event>, after: int, rows: seq<Frame>) {
    && (forall i, j :: 0 <= i < j < |rows| ==> rows[i].at < rows[j].at)
    && (forall i :: 0 <= i < |rows| ==> rows[i].at > after && rows[i].at in log && log[rows[i].at] == rows[i].event)
    && (forall k :: k in log && k > after ==> exists i :: 0 <= i < |rows| && rows[i].at == k)
  }

  function Base(after: int): nat {
    if after < 0 then 0 else after
  }

  /** `out` is the part of the log right after `after`: in order, no gap, no duplicate, no frame made up. */
  ghost predicate Delivers(out: seq<Frame>, after: int, log: map<nat, Event>) {
    forall i :: 0 <= i < |out| ==>
                  out[i].at == Base(after) + 1 + i && out[i].at in log && log[out[i].at] == out[i].event
  }

  /** No frame but the last is `done` or a fatal error; an error that is not fatal ends nothing. */
  ghost predicate EndsAtFirstTerminal(out: seq<Frame>) {
    forall i :: 0 <= i < |out| - 1 ==> !out[i].event.DoneEvent? && out[i].event != ErrorEvent(true)
  }

  ghost predicate Ended(out: seq<Frame>) {
    out != [] && (out[|out| - 1].event.DoneEvent? || out[|out| - 1].event == ErrorEvent(true))
  }

  ghost predicate CoversAll(out: seq<Frame>, after: int, log: map<nat, Event>) {
    forall k :: k in log && k > after ==> k <= Base(after) + |out|
  }

  lemma {:induction false} FetchIsContiguous(log: map<nat, Event>, after: int, rows: seq<Frame>, i: nat)
    requires Gapless(log) && IsFetch(log, after, rows) && i < |rows|
    ensures rows[i].at == Base(after) + 1 + i
  {
    var k := Base(after) + 1 + i;
    if i == 0 {
    } else {
      FetchIsContiguous(log, after, rows, i - 1);
    }
    assert k <= rows[i].at && k in log;
    var j :| 0 <= j < |rows| && rows[j].at == k;
    if j < i { FetchIsContiguous(log, after, rows, j); }
  }

  lemma FetchDelivers(log: map<nat, Event>, after: int, rows: seq<Frame>)
    requires Gapless(log) && IsFetch(log, after, rows)
    ensures Delivers(rows, after, log) && CoversAll(rows, after, log)
  {
    forall i | 0 <= i < |rows| ensures rows[i].at == Base(after) + 1 + i { FetchIsContiguous(log, after, rows, i); }
    forall k | k in log && k > after ensures k <= Base(after) + |rows| {
      var i :| 0 <= i < |rows| && rows[i].at == k;
    }
  }

  /** Reconnecting with the last id received continues exactly where the first stream stopped. */
  lemma ResumeIsLossless(first: seq<Frame>, after: int, log: map<nat, Event>, second: seq<Frame>, later: map<nat, Event>)
    requires first != [] && Delivers(first, after, log) && Extends(log, later)
    requires Delivers(second, first[|first| - 1].at, later) && CoversAll(second, first[|first| - 1].at, later)
    ensures Delivers(first + second, after, later) && CoversAll(first + second, after, later)
  {
    assert first[|first| - 1].at == Base(after) + |first|;
  }

  /** The committed logs a connection reads, poll after poll. */
  ghost predicate Growing(polls: seq<map<nat, Event>>) {
    polls == []
    || (&& Growing(polls[..|polls| - 1]) && Gapless(polls[|polls| - 1])
        && (|polls| > 1 ==> Extends(polls[|polls| - 2], polls[|polls| - 1])))
  }

  lemma {:induction false} PollsExtend(polls: seq<map<nat, Event>>, i: nat, j: nat)
    requires Growing(polls) && i <= j < |polls|
    ensures Gapless(polls[i]) && Extends(polls[i], polls[j])
    decreases |polls|
  {
    if j < |polls| - 1 {
      PollsExtend(polls[..|polls| - 1], i, j);
    } else if i == j {
    } else {
      PollsExtend(polls[..|polls| - 1], i, j - 1);
    }
  }

  lemma OneMorePoll(polls: seq<map<nat, Event>>, next: map<nat, Event>)
    requires Growing(polls) && Gapless(next) && (polls != [] ==> Extends(polls[|polls| - 1], next))
    ensures Growing(polls + [next])
  {
    var longer := polls + [next];
    assert longer[..|longer| - 1] == polls;
  }

  /** The `seq` after which a connection fetches next. */
  function Cursor(out: seq<Frame>, after: int): int {
    if out == [] then after else out[|out| - 1].at
  }

  ghost predicate NoneTerminal(out: seq<Frame>) {
    forall i :: 0 <= i < |out| ==> !out[i].event.DoneEvent? && out[i].event != ErrorEvent(true)
  }

  /** The stream is up to date with `log`. */
  ghost predicate InSync(out: seq<Frame>, after: int, log: map<nat, Event>) {
    Delivers(out, after, log) && CoversAll(out, after, log)
  }

  lemma DeliversLater(out: seq<Frame>, after: int, log: map<nat, Event>, later: map<nat, Event>)
    requires Delivers(out, after, log) && Extends(log, later)
    ensures Delivers(out, after, later)
  {
  }

  /** What was sent before, followed by the first rows of a fetch that starts right after it. */
  lemma DeliversOn(out: seq<Frame>, after: int, rows: seq<Frame>, sent: nat, log: map<nat, Event>)
    requires Delivers(out, after, log) && sent <= |rows| && Gapless(log) && IsFetch(log, Cursor(out, after), rows)
    ensures Delivers(out + rows[..sent], after, log)
    ensures sent == |rows| ==> CoversAll(out + rows[..sent], after, log)
  {
    FetchDelivers(log, Cursor(out, after), rows);
    assert out != [] ==> out[|out| - 1].at == Base(after) + |out|;
  }

  lemma SentSoFar(out: seq<Frame>, rows: seq<Frame>, sent: nat)
    requires NoneTerminal(out) && sent <= |rows| && NoneTerminal(rows[..if Ended(rows[..sent]) then sent - 1 else sent])
    ensures EndsAtFirstTerminal(out + rows[..sent])
    ensures if Ended(rows[..sent]) then Ended(out + rows[..sent]) else NoneTerminal(out + rows[..sent])
  {
    assert forall k :: 0 <= k < sent - 1 ==> rows[..sent - 1][k] == rows[k];
  }

  /**
   The generator behind the event stream, for a client that stays for `|polls|` polls. `fetch(i, after)`
   is the answer of the i-th query.
   */
  method EventStream(ghost polls: seq<map<nat, Event>>, count: nat, fetch: (nat, int) -> seq<Frame>, afterSeq: int)
    returns (out: seq<Frame>)
    requires count == |polls| && Growing(polls)
    requires forall i, after {:trigger fetch(i, after)} :: 0 <= i < count ==> IsFetch(polls[i], after, fetch(i, after))
    ensures EndsAtFirstTerminal(out)
    ensures count == 0 ==> out == []
    ensures count > 0 ==> Delivers(out, afterSeq, polls[count - 1])
    ensures count > 0 && !Ended(out) ==> CoversAll(out, afterSeq, polls[count - 1])
  {
    out := [];
    var lastSeq := afterSeq;
    for i := 0 to count
      invariant i == 0 ==> out == []
      invariant i > 0 ==> InSync(out, afterSeq, polls[i - 1])
      invariant lastSeq == Cursor(out, afterSeq)
      invariant NoneTerminal(out)
    {
      var rows := fetch(i, lastSeq);
      var sent := Send(rows);
      SentSoFar(out, rows, sent);
      ghost var before := out;
      out := out + rows[..sent];
      SentInOrder(polls, i, before, afterSeq, rows, sent);
      if sent > 0 && TerminalEvent(rows[sent - 1].event) {
        return;
      }
      lastSeq := if sent == 0 then lastSeq else rows[sent - 1].at;
    }
  }

  lemma SentInOrder(polls: seq<map<nat, Event>>, i: nat, out: seq<Frame>, after: int, rows: seq<Frame>, sent: nat)
    requires Growing(polls) && i < |polls| && sent <= |rows| && IsFetch(polls[i], Cursor(out, after), rows)
    requires if i == 0 then out == [] else InSync(out, after, polls[i - 1])
    ensures Delivers(out + rows[..sent], after, polls[|polls| - 1])
    ensures sent == |rows| ==> InSync(out + rows[..sent], after, polls[i])
  {
    PollsExtend(polls, i, |polls| - 1);
    if i > 0 {
      PollsExtend(polls, i - 1, i);
      DeliversLater(out, after, polls[i - 1], polls[i]);
    }
    DeliversOn(out, after, rows, sent, polls[i]);
    DeliversLater(out + rows[..sent], after, polls[i], polls[|polls| - 1]);
  }

  /** How many of the fetched rows are sent: all of them, or those up to the first terminal event. */
  method Send(rows: seq<Frame>) returns (sent: nat)
    ensures sent <= |rows| && NoneTerminal(rows[..if Ended(rows[..sent]) then sent - 1 else sent])
    ensures !Ended(rows[..sent]) ==> sent == |rows|
  {
    sent := 0;
    while sent < |rows|
      invariant sent <= |rows| && NoneTerminal(rows[..sent])
    {
      sent := sent + 1;
      if TerminalEvent(rows[sent - 1].event) {
        return;
      }
    }
  }
}
