/** Reply latencies and interruptions, computed frame by frame and defined over the whole trace. */
module LatencyClock {
  import opened RunTypes

  /** Timestamps are nanoseconds; `loud` says whether the audio rises above the noise floor. */
  datatype Frame =
    | BotStopped(at: int)
    | BotStarted(at: int)
    | VadStarted(at: int)
    | VadStopped(at: int)
    | Audio(at: int, loud: bool)
    | OtherFrame(at: int)

  datatype TurnLatency = TurnLatency(latencyMs: real, flagged: bool)

  const DEFAULT_THRESHOLD_MS := 1000

  // The definition

  predicate Loud(f: Frame) {
    f.Audio? && f.loud
  }

  /** No caller-stop and no loud frame strictly between the two positions. */
  ghost predicate Silent(trace: seq<Frame>, from: int, to: int) {
    forall k :: from < k < to && 0 <= k < |trace| ==> !trace[k].BotStopped? && !Loud(trace[k])
  }

  /** The loud frame `reply` is the first since the caller-stop `stop`, which is the latest. */
  ghost predicate Answers(trace: seq<Frame>, stop: nat, reply: nat) {
    stop < reply < |trace| && trace[stop].BotStopped? && Loud(trace[reply]) && Silent(trace, stop, reply)
  }

  ghost predicate Answered(trace: seq<Frame>, reply: nat) {
    exists stop: nat :: Answers(trace, stop, reply)
  }

  ghost predicate CallerSpeaking(trace: seq<Frame>) {
    exists i :: 0 <= i < |trace| && trace[i].BotStarted? && forall k :: i < k < |trace| ==> !trace[k].BotStopped?
  }

  ghost predicate AgentSpeaking(trace: seq<Frame>) {
    exists i :: 0 <= i < |trace| && trace[i].VadStarted? && forall k :: i < k < |trace| ==> !trace[k].VadStopped?
  }

  /** One side starts while the other is speaking. */
  ghost predicate Interrupts(before: seq<Frame>, f: Frame) {
    (f.BotStarted? && AgentSpeaking(before)) || (f.VadStarted? && CallerSpeaking(before))
  }

  /** The answered caller-stops with their replies, in order. */
  ghost function AnsweredTurns(trace: seq<Frame>): (turns: seq<(nat, nat)>) {
    if trace == [] then []
    else
      var reply := |trace| - 1;
      var earlier := AnsweredTurns(trace[..reply]);
      if Answered(trace, reply) then
        var stop: nat :| Answers(trace, stop, reply);
        earlier + [(stop, reply)]
      else earlier
  }

  ghost function Interruptions(trace: seq<Frame>): nat {
    if trace == [] then 0
    else Interruptions(trace[..|trace| - 1]) + if Interrupts(trace[..|trace| - 1], trace[|trace| - 1]) then 1 else 0
  }

  /** From the caller's stop to the agent's first sound. */
  function Measured(stoppedAt: int, repliedAt: int, thresholdMs: int): TurnLatency {
    var ms := (repliedAt - stoppedAt) as real / 1000000.0;
    TurnLatency(ms, ms > thresholdMs as real)
  }

  /** `l` is the time from the stop to the reply, in milliseconds, and flagged when that exceeds the threshold. */
  ghost predicate Times(l: TurnLatency, stop: Frame, reply: Frame, thresholdMs: int) {
    && l.latencyMs * 1000000.0 == (reply.at - stop.at) as real
    && (l.flagged <==> reply.at - stop.at > thresholdMs * 1000000)
  }

  lemma MeasuredTimes(stop: Frame, reply: Frame, thresholdMs: int)
    ensures Times(Measured(stop.at, reply.at, thresholdMs), stop, reply, thresholdMs)
  {
  }

  /** `out` measures the answered turns of `trace`, one entry each, in order. */
  ghost predicate Measures(out: seq<TurnLatency>, trace: seq<Frame>, thresholdMs: int) {
    var turns := AnsweredTurns(trace);
    && |out| == |turns|
    && forall i :: 0 <= i < |turns| ==>
                     turns[i].0 < |trace| && turns[i].1 < |trace| && Times(out[i], trace[turns[i].0], trace[turns[i].1], thresholdMs)
  }

  lemma AnswersInPrefix(trace: seq<Frame>, f: Frame, stop: nat, reply: nat)
    requires reply < |trace|
    ensures Answers(trace + [f], stop, reply) <==> Answers(trace, stop, reply)
  {
    var longer := trace + [f];
    assert forall k :: 0 <= k < |trace| ==> longer[k] == trace[k];
  }

  lemma OneStopPerReply(trace: seq<Frame>, a: nat, b: nat, reply: nat)
    requires Answers(trace, a, reply) && Answers(trace, b, reply)
    ensures a == b
  {
  }

  /** The list holds exactly the answered stops: each with its one reply, each reply with its one stop, in order. */
  lemma {:induction false} AnsweredTurnsMeaning(trace: seq<Frame>)
    ensures forall stop: nat, reply: nat :: (stop, reply) in AnsweredTurns(trace) <==> Answers(trace, stop, reply)
    ensures forall i, j :: 0 <= i < j < |AnsweredTurns(trace)| ==>
                             AnsweredTurns(trace)[i].0 < AnsweredTurns(trace)[j].0 && AnsweredTurns(trace)[i].1 < AnsweredTurns(trace)[j].1
  {
    if trace == [] {
    } else {
      var last := |trace| - 1;
      var init := trace[..last];
      AnsweredTurnsMeaning(init);
      assert trace == init + [trace[last]];
      forall stop: nat, reply: nat ensures (stop, reply) in AnsweredTurns(trace) <==> Answers(trace, stop, reply) {
        if reply < last { AnswersInPrefix(init, trace[last], stop, reply); }
        if reply == last && Answers(trace, stop, reply) {
          var s: nat :| (s, last) in AnsweredTurns(trace) && Answers(trace, s, last);
          OneStopPerReply(trace, stop, s, reply);
        }
      }
      var turns, earlier := AnsweredTurns(trace), AnsweredTurns(init);
      forall i | 0 <= i < |earlier| && |turns| > |earlier| ensures earlier[i].0 < turns[|earlier|].0 && earlier[i].1 < last {
        assert earlier[i] in earlier && Answers(init, earlier[i].0, earlier[i].1);
        assert turns[|earlier|] in turns && Answers(trace, turns[|earlier|].0, turns[|earlier|].1);
      }
    }
  }

  // The clock

  datatype Reading = Reading(
    turnLatencies: seq<TurnLatency>,
    interruptionCount: nat,
    callerStoppedAt: Option<int>,
    awaitingAgentAudio: bool,
    callerSpeaking: bool,
    agentSpeaking: bool)

  const STARTED := Reading([], 0, None, false, false, false)

  function Pushed(r: Reading, f: Frame, thresholdMs: int): Reading {
    match f
    case BotStopped(at) => r.(callerSpeaking := false, callerStoppedAt := Some(at), awaitingAgentAudio := true)
    case BotStarted(_) => r.(callerSpeaking := true, interruptionCount := r.interruptionCount + if r.agentSpeaking then 1 else 0)
    case VadStarted(_) => r.(agentSpeaking := true, interruptionCount := r.interruptionCount + if r.callerSpeaking then 1 else 0)
    case VadStopped(_) => r.(agentSpeaking := false)
    case Audio(at, loud) =>
      if r.awaitingAgentAudio && r.callerStoppedAt.Some? && loud then
        r.(awaitingAgentAudio := false, turnLatencies := r.turnLatencies + [Measured(r.callerStoppedAt.value, at, thresholdMs)])
      else r
    case OtherFrame(_) => r
  }

  class Clock {
    const thresholdMs: int
    var turnLatencies: seq<TurnLatency>
    var interruptionCount: nat
    var callerStoppedAt: Option<int>
    var awaitingAgentAudio: bool
    var callerSpeaking: bool
    var agentSpeaking: bool

    function Value(): Reading
      reads this
    {
      Reading(turnLatencies, interruptionCount, callerStoppedAt, awaitingAgentAudio, callerSpeaking, agentSpeaking)
    }

    constructor (thresholdMs: int := DEFAULT_THRESHOLD_MS)
      ensures Value() == STARTED && this.thresholdMs == thresholdMs
    {
      this.thresholdMs := thresholdMs;
      turnLatencies, interruptionCount, callerStoppedAt := [], 0, None;
      awaitingAgentAudio, callerSpeaking, agentSpeaking := false, false, false;
    }

    method OnPushFrame(frame: Frame)
      modifies this
      ensures Value() == Pushed(old(Value()), frame, thresholdMs)
    {
      match frame {
        case BotStopped(at) =>
          callerSpeaking := false;
          callerStoppedAt := Some(at);
          awaitingAgentAudio := true;
        case BotStarted(_) =>
          callerSpeaking := true;
          if agentSpeaking {
            interruptionCount := interruptionCount + 1;
          }
        case VadStarted(_) =>
          agentSpeaking := true;
          if callerSpeaking {
            interruptionCount := interruptionCount + 1;
          }
        case VadStopped(_) =>
          agentSpeaking := false;
        case Audio(at, loud) =>
          if awaitingAgentAudio && callerStoppedAt.Some? && loud {
            var latency := Measured(callerStoppedAt.value, at, thresholdMs);
            awaitingAgentAudio := false;
            turnLatencies := turnLatencies + [latency];
          }
        case OtherFrame(_) =>
      }
    }
  }

  /** The clock after a whole trace. */
  function After(trace: seq<Frame>, thresholdMs: int): Reading {
    if trace == [] then STARTED else Pushed(After(trace[..|trace| - 1], thresholdMs), trace[|trace| - 1], thresholdMs)
  }

  /** A caller-stop with no loud frame since. */
  ghost predicate Pending(trace: seq<Frame>, stop: nat) {
    stop < |trace| && trace[stop].BotStopped? && Silent(trace, stop, |trace|)
  }

  /**
   The clock is waiting exactly when the latest caller-stop is pending, and remembers its time; and it
   knows who is speaking.
   */
  ghost predicate Tracks(trace: seq<Frame>, r: Reading) {
    && (r.awaitingAgentAudio <==> exists stop: nat :: Pending(trace, stop))
    && (forall stop: nat :: Pending(trace, stop) ==> r.callerStoppedAt == Some(trace[stop].at))
    && r.callerSpeaking == CallerSpeaking(trace) && r.agentSpeaking == AgentSpeaking(trace)
  }

  lemma PendingOn(trace: seq<Frame>, f: Frame, stop: nat)
    ensures Pending(trace + [f], stop) <==>
            (stop == |trace| && f.BotStopped?) || (Pending(trace, stop) && !f.BotStopped? && !Loud(f))
    ensures Answers(trace + [f], stop, |trace|) <==> Pending(trace, stop) && Loud(f)
  {
    var longer := trace + [f];
    assert forall k :: 0 <= k < |trace| ==> longer[k] == trace[k];
    assert longer[|trace|] == f;
  }

  lemma SpeakingOn(trace: seq<Frame>, f: Frame)
    ensures CallerSpeaking(trace + [f]) <==> f.BotStarted? || (CallerSpeaking(trace) && !f.BotStopped?)
    ensures AgentSpeaking(trace + [f]) <==> f.VadStarted? || (AgentSpeaking(trace) && !f.VadStopped?)
  {
    var longer := trace + [f];
    assert forall k :: 0 <= k < |trace| ==> longer[k] == trace[k];
    assert longer[|trace|] == f;
  }

  lemma TracksOn(trace: seq<Frame>, r: Reading, f: Frame, thresholdMs: int)
    requires Tracks(trace, r)
    ensures Tracks(trace + [f], Pushed(r, f, thresholdMs))
  {
    SpeakingOn(trace, f);
    forall stop: nat
      ensures Pending(trace + [f], stop) <==>
              (stop == |trace| && f.BotStopped?) || (Pending(trace, stop) && !f.BotStopped? && !Loud(f))
    {
      PendingOn(trace, f, stop);
    }
    assert f.BotStopped? ==> Pending(trace + [f], |trace|);
  }

  lemma MeasuresOn(trace: seq<Frame>, r: Reading, f: Frame, thresholdMs: int)
    requires Tracks(trace, r) && Measures(r.turnLatencies, trace, thresholdMs)
    ensures Measures(Pushed(r, f, thresholdMs).turnLatencies, trace + [f], thresholdMs)
  {
    var longer := trace + [f];
    assert longer[..|longer| - 1] == trace;
    assert forall k :: 0 <= k < |trace| ==> longer[k] == trace[k];
    forall stop: nat ensures Answers(longer, stop, |trace|) <==> Pending(trace, stop) && Loud(f) { PendingOn(trace, f, stop); }
    forall stop: nat | stop < |trace| ensures Times(Measured(trace[stop].at, f.at, thresholdMs), trace[stop], f, thresholdMs) {
      MeasuredTimes(trace[stop], f, thresholdMs);
    }
  }

  /** After any trace, the clock shows what the definitions say of it. */
  lemma {:induction false} ClockMeasures(trace: seq<Frame>, thresholdMs: int)
    ensures var r := After(trace, thresholdMs);
            Tracks(trace, r) && Measures(r.turnLatencies, trace, thresholdMs) && r.interruptionCount == Interruptions(trace)
  {
    if trace == [] {
    } else {
      var init, last := trace[..|trace| - 1], trace[|trace| - 1];
      ClockMeasures(init, thresholdMs);
      assert trace == init + [last];
      TracksOn(init, After(init, thresholdMs), last, thresholdMs);
      MeasuresOn(init, After(init, thresholdMs), last, thresholdMs);
    }
  }
}
