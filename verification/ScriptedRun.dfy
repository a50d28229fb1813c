/**
 A scripted or replayed run against any number of reapers and cancel calls: how many terminal events its
 log gets.

 Every transaction involved starts with the statement that locks the run's row, and acts on the status it
 reads there. Until then it only waits; while one holds the row the others do. `RowLocks` proves of the
 statement-level machine that such transactions log and write nothing without that lock.
 */
module ScriptedRun {
  import opened RunTypes

  type TxnId = nat

  /** The events a runner goes through, from a script file or from an earlier run's log. */
  datatype Source = Scripted(events: seq<Event>) | Replayed(events: seq<Event>)

  /** The entry with which the runner completes the run: the script's last one, or any replayed `done`. */
  predicate Completes(source: Source, i: nat)
    requires i < |source.events|
  {
    match source
    case Scripted(events) => i == |events| - 1
    case Replayed(events) => events[i].DoneEvent?
  }

  /** A script ends with its only terminal event; a replay takes no errors over from the log. */
  ghost predicate Wellformed(source: Source) {
    forall i :: 0 <= i < |source.events| ==> (TerminalEvent(source.events[i]) <==> Completes(source, i))
  }

  datatype Op = Log(event: Event) | Set(status: Status)

  datatype Actor = Runner | Canceller | Reaper

  /** Where the runner is: before its first write, at an entry, or gone. */
  datatype Phase = Starting | At(index: nat) | Gone

  /** A transaction that waits for the row, or one that holds it, with its private row and events. */
  datatype InFlight =
    | Waiting(actor: Actor)
    | Holding(actor: Actor, todo: seq<Op>, status: Status, tail: seq<Event>, next: Phase)

  /** `overwrote` is the status that the runner's `running` write found, once that write is committed. */
  datatype State = State(status: Status, log: seq<Event>, phase: Phase, txns: map<TxnId, InFlight>, overwrote: Option<Status>)

  predicate Executing(s: Status) {
    s.Claimed? || s.Running?
  }

  /** What the transaction of `actor` does, given the status it reads under the lock. */
  function Program(source: Source, s: State, actor: Actor): seq<Op> {
    match actor
    case Canceller => [Set(Cancelled)]
    case Reaper => [Log(ErrorEvent(true)), Set(Failed)]
    case Runner =>
      match s.phase
      case Starting => [Set(Running), Log(StatusEvent(Running))]
      case Gone => []
      case At(i) =>
        if s.status == Cancelled then [Log(DoneEvent(None))]
        else if !Executing(s.status) || i >= |source.events| then []
        else if Completes(source, i) then [Log(source.events[i]), Set(Completed)]
        else [Log(source.events[i])]
  }

  function NextPhase(s: State, actor: Actor): Phase {
    if actor != Runner then s.phase
    else
      match s.phase
      case Starting => At(0)
      case At(i) => if Executing(s.status) then At(i + 1) else Gone
      case Gone => Gone
  }

  predicate RunnerActive(source: Source, s: State) {
    s.phase.Starting? || (s.phase.At? && s.phase.index < |source.events|)
  }

  /** The status guard of the first statement; the runner takes the row whatever its status. */
  predicate MayHold(source: Source, s: State, actor: Actor) {
    match actor
    case Canceller => s.status.Queued? || Executing(s.status)
    case Reaper => Executing(s.status)
    case Runner => RunnerActive(source, s)
  }

  ghost predicate RowFree(s: State) {
    forall id :: id in s.txns ==> s.txns[id].Waiting?
  }

  /** A run has one runner, for it is claimed at most once (`Protocol.ClaimedAtMostOnce`); its transactions follow each other. */
  ghost predicate NoRunnerTxn(s: State) {
    forall id :: id in s.txns ==> s.txns[id].actor != Runner
  }

  datatype Action = Begin(id: TxnId, actor: Actor) | Lock(id: TxnId) | Execute(id: TxnId) | Commit(id: TxnId) | Abort(id: TxnId)

  function Held(source: Source, s: State, actor: Actor): InFlight {
    Holding(actor, Program(source, s, actor), s.status, [], NextPhase(s, actor))
  }

  function Did(t: InFlight): InFlight
    requires t.Holding? && t.todo != []
  {
    match t.todo[0]
    case Log(e) => t.(todo := t.todo[1..], tail := t.tail + [e])
    case Set(status) => t.(todo := t.todo[1..], status := status)
  }

  /** An abort is also how a guard that fails ends a transaction, and how a crash of the runner looks. */
  ghost predicate Step(source: Source, s: State, a: Action, s': State) {
    match a
    case Begin(id, actor) =>
      && id !in s.txns && (actor == Runner ==> RunnerActive(source, s) && NoRunnerTxn(s))
      && s' == s.(txns := s.txns[id := Waiting(actor)])
    case Lock(id) =>
      && id in s.txns && s.txns[id].Waiting? && RowFree(s) && MayHold(source, s, s.txns[id].actor)
      && s' == s.(txns := s.txns[id := Held(source, s, s.txns[id].actor)])
    case Execute(id) =>
      && id in s.txns && s.txns[id].Holding? && s.txns[id].todo != []
      && s' == s.(txns := s.txns[id := Did(s.txns[id])])
    case Commit(id) =>
      && id in s.txns && s.txns[id].Holding? && s.txns[id].todo == []
      && s' == Committed(s, id)
    case Abort(id) =>
      && id in s.txns
      && s' == s.(txns := s.txns - {id}, phase := if s.txns[id].actor == Runner then Gone else s.phase)
  }

  function Committed(s: State, id: TxnId): State
    requires id in s.txns && s.txns[id].Holding?
  {
    var t := s.txns[id];
    State(t.status, s.log + t.tail, if t.actor == Runner then t.next else s.phase, s.txns - {id},
          if t.actor == Runner && s.phase.Starting? then Some(s.status) else s.overwrote)
  }

  ghost predicate Init(s: State) {
    && s.status == Claimed && NoTerminal(s.log) && s.phase == Starting && s.txns == map[] && s.overwrote == None
  }

  ghost predicate Next(source: Source, s: State, s': State) {
    exists a :: Step(source, s, a, s')
  }

  ghost predicate Behavior(source: Source, b: seq<State>) {
    |b| > 0 && Init(b[0]) && forall i :: 0 <= i < |b| - 1 ==> Next(source, b[i], b[i + 1])
  }

  // Logs

  ghost predicate NoTerminal(log: seq<Event>) {
    forall i :: 0 <= i < |log| ==> !TerminalEvent(log[i])
  }

  /** No event follows a terminal one, so there is at most one, the last. */
  ghost predicate NothingAfterTerminal(log: seq<Event>) {
    forall i :: 0 <= i < |log| - 1 ==> !TerminalEvent(log[i])
  }

  predicate EndsTerminal(log: seq<Event>) {
    log != [] && TerminalEvent(log[|log| - 1])
  }

  // The invariant

  /** The status and the events with which a transaction that holds the row will commit. */
  function Outcome(t: InFlight): (Status, seq<Event>)
    requires t.Holding?
    decreases |t.todo|
  {
    if t.todo == [] then (t.status, t.tail) else Outcome(Did(t))
  }

  ghost predicate Sound(s: State) {
    && (s.phase.Starting? ==> s.overwrote.None?)
    && (s.phase.At? ==> s.overwrote.Some?)
    && (s.overwrote.None? ==> s.status in {Claimed, Cancelled, Failed} && Agrees(s) && (s.status == Cancelled ==> NoTerminal(s.log)))
    && (s.overwrote.Some? && s.overwrote.value != Failed ==> s.status in {Running, Completed, Cancelled, Failed} && Agrees(s))
    && (s.overwrote == Some(Failed) ==> !NothingAfterTerminal(s.log))
  }

  /** A live run has no terminal event, a completed or failed one ends with its only one; a cancelled one gets it from its runner. */
  ghost predicate Agrees(s: State) {
    && NothingAfterTerminal(s.log)
    && (Live(s.status) ==> NoTerminal(s.log))
    && (s.status in {Completed, Failed} ==> EndsTerminal(s.log))
    && (s.status == Cancelled && EndsTerminal(s.log) ==> s.phase.Gone?)
  }

  /** A transaction that holds the row will commit what its program makes of the row as it still is. */
  ghost predicate TxnSound(source: Source, s: State, t: InFlight) {
    t.Holding? ==>
      && MayHold(source, s, t.actor)
      && (t.actor == Runner ==> t.next == NextPhase(s, Runner))
      && Outcome(t) == Outcome(Held(source, s, t.actor))
  }

  /** At most one transaction holds the row, and at most one is the runner's. */
  ghost predicate Exclusive(s: State) {
    && (forall a, b :: a in s.txns && b in s.txns && s.txns[a].Holding? && s.txns[b].Holding? ==> a == b)
    && (forall a, b :: a in s.txns && b in s.txns && s.txns[a].actor == Runner && s.txns[b].actor == Runner ==> a == b)
  }

  ghost predicate Inv(source: Source, s: State) {
    Sound(s) && Exclusive(s) && forall id :: id in s.txns ==> TxnSound(source, s, s.txns[id])
  }

  lemma OutcomeIgnoresNext(t: InFlight, next: Phase)
    requires t.Holding?
    ensures Outcome(t.(next := next)) == Outcome(t)
    decreases |t.todo|
  {
    if t.todo == [] {
    } else {
      OutcomeIgnoresNext(Did(t), next);
    }
  }

  lemma ProgramEnds(source: Source, s: State, actor: Actor)
    ensures var h := Held(source, s, actor);
            |h.todo| <= 2
            && Outcome(h) == if h.todo == [] then (s.status, []) else if |h.todo| == 1 then (Did(h).status, Did(h).tail)
                             else (Did(Did(h)).status, Did(Did(h)).tail)
  {
    var h := Held(source, s, actor);
    if |h.todo| == 1 { assert Outcome(h) == Outcome(Did(h)); }
    if |h.todo| == 2 { assert Outcome(h) == Outcome(Did(Did(h))); }
  }

  lemma CommitSound(source: Source, s: State, id: TxnId)
    requires Wellformed(source) && Sound(s) && id in s.txns && s.txns[id].Holding? && s.txns[id].todo == []
    requires TxnSound(source, s, s.txns[id])
    ensures Sound(Committed(s, id))
  {
    var t := s.txns[id];
    ProgramEnds(source, s, t.actor);
    assert (t.status, t.tail) == Outcome(Held(source, s, t.actor));
    LateStaysLate(s.log, t.tail);
    assert EndsTerminal(s.log) && t.tail != [] ==> TerminalEvent((s.log + t.tail)[|s.log| - 1]);
  }

  lemma LateStaysLate(log: seq<Event>, tail: seq<Event>)
    ensures !NothingAfterTerminal(log) ==> !NothingAfterTerminal(log + tail)
  {
    if i :| 0 <= i < |log| - 1 && TerminalEvent(log[i]) { assert TerminalEvent((log + tail)[i]); }
  }

  /** A runner that is gone leaves what the other transactions will do as it was. */
  lemma RunnerGoes(source: Source, s: State, s': State, t: InFlight)
    requires s'.status == s.status && t.actor != Runner && TxnSound(source, s, t)
    ensures TxnSound(source, s', t)
  {
    if t.Holding? {
      OutcomeIgnoresNext(Held(source, s, t.actor), s'.phase);
      assert Held(source, s', t.actor) == Held(source, s, t.actor).(next := s'.phase);
    }
  }

  lemma LockInv(source: Source, s: State, id: TxnId, s': State)
    requires Inv(source, s) && Step(source, s, Lock(id), s')
    ensures Inv(source, s')
  {
    forall o | o in s'.txns ensures TxnSound(source, s', s'.txns[o]) {
      assert Held(source, s', s.txns[id].actor) == Held(source, s, s.txns[id].actor);
    }
  }

  lemma ExecuteInv(source: Source, s: State, id: TxnId, s': State)
    requires Inv(source, s) && Step(source, s, Execute(id), s')
    ensures Inv(source, s')
  {
    assert Outcome(s.txns[id]) == Outcome(Did(s.txns[id]));
    forall o | o in s'.txns ensures TxnSound(source, s', s'.txns[o]) {
      assert TxnSound(source, s, s.txns[o]);
      assert Held(source, s', s.txns[o].actor) == Held(source, s, s.txns[o].actor);
    }
  }

  lemma CommitInv(source: Source, s: State, id: TxnId, s': State)
    requires Wellformed(source) && Inv(source, s) && Step(source, s, Commit(id), s')
    ensures Inv(source, s')
  {
    assert TxnSound(source, s, s.txns[id]);
    CommitSound(source, s, id);
    forall o | o in s'.txns ensures s'.txns[o].Waiting? { assert o in s.txns && o != id; }
  }

  lemma AbortInv(source: Source, s: State, id: TxnId, s': State)
    requires Inv(source, s) && Step(source, s, Abort(id), s')
    ensures Inv(source, s')
  {
    forall o | o in s'.txns ensures TxnSound(source, s', s'.txns[o]) {
      assert TxnSound(source, s, s.txns[o]);
      if s.txns[id].actor == Runner { RunnerGoes(source, s, s', s.txns[o]); }
    }
  }

  lemma StepInv(source: Source, s: State, a: Action, s': State)
    requires Wellformed(source) && Inv(source, s) && Step(source, s, a, s')
    ensures Inv(source, s')
  {
    match a {
      case Begin(_, _) =>
      case Lock(id) => LockInv(source, s, id, s');
      case Execute(id) => ExecuteInv(source, s, id, s');
      case Commit(id) => CommitInv(source, s, id, s');
      case Abort(id) => AbortInv(source, s, id, s');
    }
  }

  lemma {:induction false} Reachable(source: Source, b: seq<State>, i: nat)
    requires Wellformed(source) && Behavior(source, b) && i < |b|
    ensures Inv(source, b[i])
  {
    if i == 0 {
    } else {
      Reachable(source, b, i - 1);
      assert Next(source, b[i - 1], b[i - 1 + 1]);
      var a :| Step(source, b[i - 1], a, b[i]);
      StepInv(source, b[i - 1], a, b[i]);
    }
  }

  /**
   In every run the log has at most one terminal event, and nothing after it, if and only if the
   runner's `running` write did not overwrite a reaper's `failed`. Then a live run has none, and a
   completed or failed one has exactly one.
   */
  lemma OneTerminalEvent(source: Source, b: seq<State>, i: nat)
    requires Wellformed(source) && Behavior(source, b) && i < |b|
    ensures NothingAfterTerminal(b[i].log) <==> b[i].overwrote != Some(Failed)
    ensures b[i].overwrote != Some(Failed) ==>
              && (Live(b[i].status) ==> NoTerminal(b[i].log))
              && (b[i].status in {Completed, Failed} ==> EndsTerminal(b[i].log))
  {
    Reachable(source, b, i);
  }

  // What the log holds

  /** The log after the runner's first write and the first `n` entries, and how it goes on for this status. */
  ghost predicate PlayedTo(source: Source, start: seq<Event>, s: State, n: nat) {
    && n <= |source.events|
    && var played := start + [StatusEvent(Running)] + source.events[..n];
    match s.status
    case Running => s.log == played
    case Completed => s.log == played && n > 0 && Completes(source, n - 1)
    case Cancelled => s.log == played || s.log == played + [DoneEvent(None)]
    case Failed => s.log == played + [ErrorEvent(true)]
    case _ => false
  }

  /** A runner that still runs is right behind what was played. */
  ghost predicate PlayingAt(source: Source, start: seq<Event>, s: State, n: nat) {
    && PlayedTo(source, start, s, n)
    && (s.phase.At? && s.status in {Running, Cancelled} ==>
          s.phase.index == n && s.log == start + [StatusEvent(Running)] + source.events[..n])
  }

  /** A run that was not reaped before its start has played its entries in order, up to where it ended. */
  ghost predicate PlaysScript(source: Source, start: seq<Event>, s: State) {
    match s.overwrote
    case None => s.log == if s.status == Failed then start + [ErrorEvent(true)] else start
    case Some(found) => found == Failed || exists n: nat :: PlayingAt(source, start, s, n)
  }

  /** What a transaction of the runner makes of the row and the log, under the lock. */
  lemma RunnerOutcome(source: Source, s: State)
    requires s.phase.At? && RunnerActive(source, s)
    ensures var i := s.phase.index;
            Outcome(Held(source, s, Runner)) ==
            if s.status == Cancelled then (Cancelled, [DoneEvent(None)])
            else if !Executing(s.status) then (s.status, [])
            else if Completes(source, i) then (Completed, [source.events[i]])
            else (s.status, [source.events[i]])
  {
    ProgramEnds(source, s, Runner);
    var h := Held(source, s, Runner);
    if h.todo != [] && h.todo[0].Log? { assert Did(h).tail == [h.todo[0].event]; }
  }

  lemma CommitPlays(source: Source, start: seq<Event>, s: State, id: TxnId)
    requires Wellformed(source) && Sound(s) && id in s.txns && s.txns[id].Holding? && s.txns[id].todo == []
    requires TxnSound(source, s, s.txns[id]) && PlaysScript(source, start, s)
    ensures PlaysScript(source, start, Committed(s, id))
  {
    var t, s' := s.txns[id], Committed(s, id);
    ProgramEnds(source, s, t.actor);
    assert (t.status, t.tail) == Outcome(Held(source, s, t.actor));
    if s.overwrote.None? {
      if t.actor == Runner && s.status != Failed { StartsPlaying(source, start, s, s'); }
    } else if s.overwrote.value != Failed {
      var n: nat :| PlayingAt(source, start, s, n);
      if t.actor == Runner {
        RunnerOutcome(source, s);
        RunnerPlays(source, start, s, s', n);
      } else {
        assert PlayingAt(source, start, s', n);
      }
    }
  }

  lemma StartsPlaying(source: Source, start: seq<Event>, s: State, s': State)
    requires s.log == start && s'.log == s.log + [StatusEvent(Running)] && s'.status == Running && s'.phase == At(0)
    requires s'.overwrote.Some?
    ensures PlaysScript(source, start, s')
  {
    assert s'.log == start + [StatusEvent(Running)] + source.events[..0];
    assert PlayingAt(source, start, s', 0);
  }

  lemma RunnerPlays(source: Source, start: seq<Event>, s: State, s': State, n: nat)
    requires s.overwrote.Some? && s'.overwrote == s.overwrote && s.phase.At? && RunnerActive(source, s) && PlayingAt(source, start, s, n)
    requires s'.phase == NextPhase(s, Runner)
    requires var i := s.phase.index;
             && s'.status == (if Executing(s.status) && Completes(source, i) then Completed else s.status)
             && s'.log == s.log + if s.status == Cancelled then [DoneEvent(None)] else if Executing(s.status) then [source.events[i]] else []
    ensures PlaysScript(source, start, s')
  {
    if s.status == Running {
      assert source.events[..n + 1] == source.events[..n] + [source.events[n]];
      assert PlayingAt(source, start, s', n + 1);
    } else {
      assert PlayingAt(source, start, s', n);
    }
  }

  lemma StepPlays(source: Source, start: seq<Event>, s: State, a: Action, s': State)
    requires Wellformed(source) && Inv(source, s) && Step(source, s, a, s') && PlaysScript(source, start, s)
    ensures PlaysScript(source, start, s')
  {
    if a.Commit? {
      CommitPlays(source, start, s, a.id);
    } else {
      OthersPlayNothing(source, start, s, s');
    }
  }

  lemma OthersPlayNothing(source: Source, start: seq<Event>, s: State, s': State)
    requires PlaysScript(source, start, s) && s'.log == s.log && s'.status == s.status && s'.overwrote == s.overwrote
    requires s'.phase == s.phase || s'.phase.Gone?
    ensures PlaysScript(source, start, s')
  {
    if s.overwrote.Some? && s.overwrote.value != Failed {
      var n: nat :| PlayingAt(source, start, s, n);
      assert PlayingAt(source, start, s', n);
    }
  }

  /**
   At every moment the log is the one at the claim, then `running` and the entries in order: up to the one
   that completes the run, or to where a cancel or a reaper stopped it, followed by their closing event.
   */
  lemma {:induction false} ScriptIsPlayed(source: Source, b: seq<State>, i: nat)
    requires Wellformed(source) && Behavior(source, b) && i < |b|
    ensures PlaysScript(source, b[0].log, b[i])
  {
    if i == 0 {
    } else {
      ScriptIsPlayed(source, b, i - 1);
      Reachable(source, b, i - 1);
      assert Next(source, b[i - 1], b[i - 1 + 1]);
      var a :| Step(source, b[i - 1], a, b[i]);
      StepPlays(source, b[0].log, b[i - 1], a, b[i]);
    }
  }

  /** Reaped between its claim and its runner's first write, a run does get an event after its terminal one. */
  lemma ReapedBeforeStart(source: Source) returns (b: seq<State>)
    ensures Behavior(source, b) && !NothingAfterTerminal(b[|b| - 1].log)
  {
    var s0 := State(Claimed, [], Starting, map[], None);
    var reaper := Holding(Reaper, [Log(ErrorEvent(true)), Set(Failed)], Claimed, [], Starting);
    var s4 := State(Failed, [ErrorEvent(true)], Starting, map[], None);
    var first := Alone(source, s0, Reaper, reaper, s4);
    var runner := Holding(Runner, [Set(Running), Log(StatusEvent(Running))], Failed, [], At(0));
    var s9 := State(Running, [ErrorEvent(true), StatusEvent(Running)], At(0), map[], Some(Failed));
    var second := Alone(source, s4, Runner, runner, s9);
    b := [s0] + first + second;
    assert forall i :: 0 <= i < |b| - 1 ==> Next(source, b[i], b[i + 1]) by {
      assert b[0] == s0 && first[|first| - 1] == s4;
      assert forall i :: 0 <= i < 5 ==> b[i + 1] == first[i];
      assert forall i :: 0 <= i < 5 ==> b[i + 6] == second[i];
    }
    assert TerminalEvent(s9.log[0]);
  }

  /** A transaction of two operations from begin to commit, with no other in flight. */
  lemma Alone(source: Source, s: State, actor: Actor, t: InFlight, after: State) returns (b: seq<State>)
    requires s.txns == map[] && MayHold(source, s, actor) && t == Held(source, s, actor) && |t.todo| == 2
    requires after == Committed(s.(txns := map[0 := Did(Did(t))]), 0)
    ensures |b| == 5 && b[4] == after && Next(source, s, b[0])
    ensures forall i :: 0 <= i < 4 ==> Next(source, b[i], b[i + 1])
  {
    var s1 := s.(txns := map[0 := Waiting(actor)]);
    var s2 := s.(txns := map[0 := t]);
    var s3 := s.(txns := map[0 := Did(t)]);
    var s4 := s.(txns := map[0 := Did(Did(t))]);
    b := [s1, s2, s3, s4, after];
    assert Step(source, s, Begin(0, actor), s1) && Step(source, s1, Lock(0), s2);
    assert Step(source, s2, Execute(0), s3) && Step(source, s3, Execute(0), s4) && Step(source, s4, Commit(0), after);
  }
}
