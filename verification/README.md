# Verified model of the call-testing backend

A Dafny project that models the hard parts of the backend and proves what they are relied on for: the
batch-run protocol of workers, reapers and API calls over `runs` and `run_events`; the discovery flow
graph and everything rebuilt from its change reports; the explorer's policy; verbatim evidence for
attack findings; metric versioning, resolution and scoring; and the latency clock.

`dafny verify dfyconfig.toml` checks all of it.

## How it is organised

The batch-run protocol is a transition system over SQL statements, not over whole functions.
`Transactions` holds the rows, the transactions in flight (private writes, row and advisory locks, the
statements still to run) and the steps: begin a job, execute one statement against the committed rows
plus the transaction's own, commit, abort. That is READ COMMITTED, the default level (section 13.2.1 of
the PostgreSQL manual). A statement that needs a lock held elsewhere waits; any transaction may abort at
any time, which covers crashes and deadlock victims. `run_events` is a map from run and number to event,
so that numbering without gaps is a theorem and not a choice of type.

- `RunTypes`, `Verdicts`, `Transactions`: rows, verdict rules, the machine.
- `Discipline`: what every in-flight transaction looks like. `RollupSafety`, `EventLog`,
  `ConcurrencyCap`, `ClosingCommit`: one invariant each, kept by every statement and every commit.
- `Protocol`: the theorems over all behaviors, any jobs, any interleaving.
- `JobEffects`, `JobEvents`, `BatchEvents`: what a transaction has done by its commit, over all behaviors: to the rows,
  to the log of its run, and to the log of a batch.
- `ProtocolRuns`: lemmas that extend a behavior by a statement, a transaction, a job. `RevivedChild`: complete
  behaviors built with them: a child that comes back to life while its batch closes, an agent over its cap,
  a cancel that waits for a row.
- `ClaimScan`: `claim_run` with nobody else around. `ScriptedRun`: the end of one scripted or replayed run,
  and `RowLocks`, why its transactions take turns.
- `GraphModel`, `GraphStructure`, `GraphHistory`: the flow graph as a value, its shape, whole calls.
  `FlowGraph`: the class that is updated in place, proved against that value. `FlowProjection`: the live
  map and the discovery tables.
- `Text`: words, and how texts are split, squeezed, trimmed and joined.
- `Explorer`, `Evidence`, `Grading`, `MetricVersions`, `MetricScoring`, `LatencyClock`: one component each.

Classes and loops follow the source where the source works step by step; each method is tied to a
function of its inputs or of its old state, and the properties are lemmas about that function. They are
stated on the data (columns, statuses, events, words, replies), not in terms of the function again. Case
folding and the handoff regular expression are parameters. A language model and a judge are inputs with
any value of their type.

## What the proofs found

- The executors' first write, `UPDATE runs SET status = 'running'`, has no guard on the status, so it can
  bring a cancelled or failed row back. The model keeps it and tracks such rows as `resurrected`. The
  concurrency cap holds up to those rows, and in full when there are none; `RevivedChild.CapExceeded` is a
  complete behavior in which such a row takes an agent over its cap.
- A rollup closes a batch as cancelled on what its tally saw. "Cancelled exactly when some child is
  cancelled at that commit" holds if and only if not every child that the tally saw cancelled is live again
  by the commit (`Protocol.BatchCloses`); only a runner's unguarded first write revives a run
  (`Protocol.OnlyRunningRevives`).
  `RevivedChild.CancelledWithoutACancelledChild` is a complete behavior in which it fails.
- The comment in `app/workers/rollup.py:120` calls the idle verdict unreachable. It is reached when a reaped
  child is revived between the tally and the read of the badge (`RevivedChild.BadgeReadWithALiveChild`), and
  a batch whose rubric allows no failed call is then stored as passed. What the badge is in every behavior is
  part of `Protocol.BatchCloses`: the verdict of the rows read, each of which has the same outcome at the
  commit or is live.
- A run reaped between its claim and that first write gets another event after its terminal one. This is
  the only way: `ScriptedRun.OneTerminalEvent` is an equivalence.
- A change report is exact unless a gate outcome arrives before any gate and lands on a node keyed `""`
  (`app/engine/discovery/graph.py:224` looks up `self._last_gate or ""`). `FlowGraph.ReportIsExact` is an
  equivalence, with a two-turn example. Such a key can come from the code itself: the slug of a topic is
  empty exactly when the folded topic has neither a letter a-z nor a digit (`Explorer.SlugIsEmpty`).
- Evidence is searched in the joined turns, where a blank agent turn stands as two blanks in a row. A quote that
  runs across such a turn is not found although its words follow each other (`Evidence.BlankTurnHidesQuote`);
  otherwise a quote is found if and only if its words stand in consecutive agent turns
  (`Evidence.LocateEvidence`).
- No event in a batch's log ends a stream (`BatchEvents.BatchChronicle`): when the batch has ended, the last one tells its status, and
  `app/api/runs.py:66` ends a stream only at `done` or at a fatal error.
- The evidence substituted for a quote that does not match is the empty string exactly when the agent's
  last stretch is one blank turn (`Grading.EmptyEvidence`).

## Model

| member | source | states |
|---|---|---|
| Protocol.NoLostRollup | app/workers/rollup.py:84-155 | In every committed state of every interleaving, a parent that is queued, claimed or running and has children has a child that is |
| Protocol.ReconcileFindsNothing | app/workers/reaper.py:29-41 | The reconciliation query never has an answer |
| Protocol.BatchLifecycle | app/workers/claim.py:75-86 | A batch parent is never claimed or run, keeps its children, leaves queued once, and never changes after it is closed |
| Protocol.BatchCloses | app/workers/rollup.py:84-132 | Over all behaviors, a batch is closed by the commit of a transaction that tallied its children at one earlier moment; it is cancelled exactly when that tally saw a cancelled child, which agrees with the children at the commit if and only if not all it saw cancelled are live again; the badge follows from the status, badge and score columns of the rows read, each with the same outcome at the commit or live; with all children terminal both are what those columns say at the commit |
| Protocol.TalliedBefore | app/workers/rollup.py:84-101 | What a transaction closes on is what it saw itself in one statement, with no child live |
| ClosingCommit.CloseAgreesUpToRevival | app/workers/rollup.py:89-103 | The equivalence for one closing transaction; a cancelled child at the commit always forces cancelled |
| ClosingCommit.BadgeIsOfRowsRead | app/workers/rollup.py:105-132 | The badge a closing transaction stores is decided by how many of the rows it read are failed or cancelled, or completed with badge fail or a score below one half without a badge, and how many are not, under the rubric |
| ClosingCommit.StoredBadgeMeaning | app/verdict.py:25-39 | The same for any rows read, in any order: the badge by their columns, and no score |
| RevivedChild.CancelledWithoutACancelledChild | app/workers/rollup.py:99-103 | A complete behavior whose last commit closes a batch as cancelled while no child is cancelled and one is running |
| RevivedChild.BadgeReadWithALiveChild | app/workers/rollup.py:112-132 | A complete behavior in which the badge is read with an idle child and a batch with a reaped call is stored as passed under a rubric that allows no failure |
| Verdicts.BatchBadgeMeaning | app/engine/rubric.py:52-76 | The badge of a batch depends only on how often each verdict occurs: it fails when a red-team call failed, when a call failed under a rubric that allows none, or when too few of all passed |
| Protocol.CapAlwaysHolds | app/workers/claim.py:128-175 | An agent's claimed and running rows never exceed its cap plus its revived rows; with none revived, never its cap |
| RevivedChild.CapExceeded | app/workers/fake_runner.py:91-97 | A complete behavior in which an agent with a cap of one has two live calls, the first of them revived after a cancel |
| Protocol.ClaimedAtMostOnce | app/workers/claim.py:75-86 | Over any behavior, a run that has left queued is never queued again, and is found claimed only if it was claimed before |
| Protocol.OnlyRunningRevives | app/workers/fake_runner.py:91-97 | A run comes back from a terminal status only as running, and is then counted as revived |
| JobEffects.JobIsDone | app/api/runs.py:1012-1053 | The commit of any job, whatever ran in between, changes new rows, batches it closes and rows it rewrites in its one way, and nothing else; its own run is among them; after a cancel of a batch no child is live, revived ones excepted, and if none is, the batch has ended itself |
| Protocol.LogIsGapless | app/events.py:228-253 | Each run's committed events are numbered 1 to n |
| Protocol.LogGrows | app/events.py:228-253 | A committed event never changes, and events become visible in number order |
| JobEvents.JobIsLogged | app/events.py:228-253 | The commit of an executor's transaction adds exactly its job's events to the run's log, in order and in one piece, whoever logged there meanwhile |
| BatchEvents.BatchChronicle | app/workers/rollup.py:84-103 | In every reachable state, an open batch's log holds only counts of ended children out of all; an ended one's log ends with the count of all and then, once, its own status |
| BatchEvents.TallyAnnounces | app/workers/rollup.py:89-93 | The count told is that of the completed, failed and cancelled children the tally saw, out of all it saw |
| Protocol.PollsGrow | app/api/runs.py:91-103 | The logs that a connection polls, whenever it polls, are gapless and each continues the one before |
| EventLog.FetchDelivers | app/api/runs.py:91-103 | A fetch after any number is exactly the rest of the log, in order, without gap or duplicate |
| EventLog.EventStream | app/api/runs.py:116-152 | The stream sends the log after the given number, in order, up to the first `done` or fatal error and no further, and else all of it; an error that is not fatal ends nothing |
| EventLog.ResumeIsLossless | app/api/runs.py:116-152 | Reconnecting with the last number received continues exactly where the first stream stopped (section 9.2 of the WHATWG HTML Standard) |
| ClaimScan.RunsTable.ClaimRun | app/workers/claim.py:128-175 | Alone, a claim takes a waiting run of an under-cap agent than which no waiting run of any under-cap agent is older, and changes nothing else; with at most 200 agents queued it comes back empty-handed if and only if no under-cap agent has a waiting run |
| ClaimScan.ScanIsComplete | app/workers/claim.py:38-48 | With at most 200 agents queued the scan has exactly the agents with a waiting run |
| ClaimScan.AloneClaimsOldest | app/workers/claim.py:58-86 | The capacity check and the pick of a lone claim attempt of the protocol are those of the scan |
| ScriptedRun.OneTerminalEvent | app/workers/fake_runner.py:100-180 | Over all interleavings with any cancels and reapers, nothing follows a terminal event if and only if the runner's first write did not overwrite failed; then live runs have none, completed and failed ones end with their only one |
| ScriptedRun.ScriptIsPlayed | app/workers/fake_runner.py:100-180 | Over the same interleavings, the log of a run not reaped before its start is `running` and its entries in order, up to the one that completes it or to where a cancel or a reaper stopped it, and then that closing event; the status says which |
| ScriptedRun.ReapedBeforeStart | app/workers/fake_runner.py:91-97 | A run of the machine in which an event does follow the terminal one |
| RowLocks.OneAtATime | app/workers/fake_runner.py:112-126 | Among transactions of every kind but the two with which live executors log without the row's lock, one that has written or logged on a run holds that run's row, and no other holds, writes or logs on it before the first has ended |
| RevivedChild.CancelWaits | app/workers/fake_runner.py:112-126 | Such a moment: a runner has written its run's row, and a cancel of that run is at the statement that locks the row |
| FlowGraph.FlowGraph.Observe | app/engine/discovery/graph.py:106-154 | One observation has the effect of the value model, and reports, once each, the nodes that differ, an overlooked one excepted |
| FlowGraph.ReportIsExact | app/engine/discovery/graph.py:106-154 | The report is exactly the new nodes and those whose edges, state or reason differ, if and only if the observation does not hit the empty key |
| FlowGraph.EmptyKeyCanBeHit | app/engine/discovery/graph.py:221-231 | Two turns after which the report misses a node |
| FlowGraph.FlowGraph.Finalize | app/engine/discovery/graph.py:156-168 | The end of the call has the effect of the value model and reports exactly the nodes that differ |
| FlowGraph.FlowGraph.Path | app/engine/discovery/graph.py:238-244 | The walk up the parents terminates and yields the labels from the root down |
| FlowGraph.FlowGraph.Intents | app/engine/discovery/graph.py:170-202 | Reached topics in order, then what is missing behind the first blocked gate |
| FlowGraph.IntentsExplained | app/engine/discovery/graph.py:170-202 | The list is the reached topics as the graph shows them, in order of discovery, followed by topics explained by the first gate that is blocked, with its reason |
| FlowGraph.IntentsCoverExpected | app/engine/discovery/graph.py:170-196 | Behind a blocked gate every expected name is covered up to case and the added ones are distinct; with none blocked nothing is added |
| GraphStructure.ObservedWellFormed | app/engine/discovery/graph.py:106-154 | An observation keeps one root, parents one layer up, known and distinct edges without self-loops, a layout without holes or collisions, states that match the gate flags; and it only adds |
| GraphHistory.ExploredWellFormed | app/engine/discovery/graph.py:88-154 | The same after every sequence of observations |
| GraphHistory.ChainFromRoot | app/engine/discovery/graph.py:238-244 | Every node is reached from the root along recorded edges, depth plus one nodes, one per layer |
| GraphHistory.TitlesFollowChain | app/engine/discovery/graph.py:238-244 | A path has depth plus one labels, those of that chain |
| GraphHistory.PlaceNeverMoves | app/engine/discovery/graph.py:204-219 | No later observation, nor the end of the call, moves, renames or re-parents a node |
| GraphHistory.ViaMenuIsFirstMenu | app/engine/discovery/graph.py:119-129 | The detour is taken exactly from an intent to a different intent or handoff when a menu exists, through the first one |
| GraphHistory.EdgesOfMove | app/engine/discovery/graph.py:106-144 | A move through the menu records both edges, any other move its one edge, and no further edge appears; a new node hangs from the menu or the node before |
| GraphHistory.CallVisits | app/engine/discovery/graph.py:106-144 | Which nodes a whole call has, how often it was at each, and what kind and label each keeps, by its observations alone |
| GraphHistory.CallIsWalk | app/engine/discovery/graph.py:106-144 | Consecutive positions of a whole call are equal, joined by an edge, or joined through a menu, in the finished graph |
| GraphHistory.GateHistory | app/engine/discovery/graph.py:156-231 | A gate's state is a function of the outcomes heard at it or, at any node that is no gate, since it was the gate last visited: a pass counts for ever, else the last rejection, else the end of the call |
| GraphHistory.CreditedAsConcerns | app/engine/discovery/graph.py:221-231 | An outcome goes to the observed node if that is a gate, else to the gate at the greatest earlier position of the trajectory, else to the node keyed with the empty text, if any |
| GraphHistory.BlockedHasReason | app/engine/discovery/graph.py:60-68 | Blocked if and only if there is a reason, which is never empty |
| FlowProjection.LiveMapIsGraph | app/engine/executor/discovery.py:165-183 | After every turn the frames sent so far, last one per node, are the graph, field by field, at 240 units per layer and 110 per row; only a hit on the empty key spoils that one node |
| FlowProjection.ExactUnlessHit | app/engine/executor/discovery.py:264-272 | The map is the graph after every turn of a call if and only if no turn hits the empty key |
| FlowProjection.FinishedMapIsGraph | app/engine/executor/discovery.py:338-351 | The same once the call has ended |
| FlowProjection.MaterializeDiscovery | app/workers/materialize.py:130-175 | The last frame per node, the edges between known nodes, the last frame per intent |
| FlowProjection.TablesAreGraph | app/workers/materialize.py:130-160 | The tables of any call hold every node and every edge of the finished graph and nothing else; only the state and reason of the node keyed `""` can be wrong, and only after such a hit |
| FlowProjection.TopicsAreFinal | app/workers/materialize.py:161-175 | The intent table holds the final topics, whatever was sent during the call |
| Explorer.OrderCandidates | app/engine/discovery/explorer.py:153-164 | The loop computes the first of each name up to case, those that ask for a person last |
| Explorer.CandidatesAreOrdered | app/engine/discovery/explorer.py:153-164 | Every name is represented exactly once up to case, none is made up, requests for a person are last |
| Explorer.CandidatesKeepOrder | app/engine/discovery/explorer.py:153-164 | Each candidate is the first spelling of its name, and either group keeps the order given |
| Explorer.SlugIsEmpty | app/engine/discovery/explorer.py:167-168 | When a topic's node key is empty |
| Explorer.SlugIsWords | app/engine/discovery/explorer.py:167-168 | The slug is the words of letters a-z and digits of the folded topic with one underscore between any two |
| Explorer.ExplorerCaller.NextTurn | app/engine/discovery/explorer.py:219-254 | The three cases of a turn, with their effect on the policy, the graph and the line spoken |
| Explorer.AttributedIsReached | app/engine/discovery/explorer.py:256-304 | The topic an answer is attributed to is reached, and observed under its own name and slug |
| Explorer.SeenMeaning | app/engine/discovery/explorer.py:256-288 | The observation is the model's own, renamed after the candidate it is credited to: the one the model names, else the one asked about or the next request for a person |
| Explorer.TurnMeaning | app/engine/discovery/explorer.py:291-306 | What one answer adds to the reached and abandoned topics, the stalls, the rejections and the handoff, by the answer and the state before |
| Explorer.CallEnds | app/engine/discovery/explorer.py:312-317 | Whatever the model answers, the call is over by model call max(1, budget - 1) |
| Explorer.CallEndsExactly | app/engine/discovery/explorer.py:219-254 | A call ends with its last answer if and only if that is absent or completes the call, a person was reached, three rejections were heard, the budget is used up, or every candidate is reached or abandoned and no gate is open |
| Explorer.RejectionsAreBounded | app/engine/discovery/explorer.py:291-317 | A call hears at most three rejections |
| Explorer.StallsAndCoverage | app/engine/discovery/explorer.py:208-217 | At most two stalled turns per candidate in all, and every candidate is reached or reported as unexplored |
| Evidence.NormalizeIsIdempotent | app/engine/redteam/judge.py:57-58 | Normal text is exactly what normalizing leaves alone |
| Evidence.NormalizeIsWords | app/engine/redteam/judge.py:57-58 | Normalizing keeps the words, in order, with one blank between any two, and nothing else |
| Evidence.LocateEvidence | app/engine/redteam/judge.py:61-98 | None if and only if the quote has no words or they stand in no consecutive agent turns, none of them blank; else the turns that the leftmost match in the first such run overlaps |
| Evidence.BlankTurnHidesQuote | app/engine/redteam/judge.py:82-97 | Three agent turns whose words are those of the quote, and a quote that is not found, because the middle one is blank |
| Evidence.LocatedIsQuoted | app/engine/redteam/judge.py:82-97 | Those turns are consecutive agent turns whose words hold the quote's, which begins in the first and ends in the last |
| Evidence.LastAgentReply | app/engine/redteam/judge.py:101-113 | The words of the last maximal run of agent turns, and None only if the agent said nothing |
| Grading.Grade | app/engine/redteam/judge.py:137-209 | Blocked only if the deciding answer says so or there is nothing to quote; otherwise the deciding verdict with words that stand verbatim in the cited turns, or with the whole last reply where they do not, and its fix trimmed |
| Grading.EmptyEvidence | app/engine/redteam/judge.py:101-113 | When the substituted reply is empty |
| MetricVersions.MetricTable.UpdateMetric | app/api/metrics.py:210-276 | The reply to a PATCH, error cases included, and the row it leaves: the fields given are as given and all others as they were; the version is one higher exactly for an edit while active |
| MetricVersions.RemovedOnlyByDelete | app/api/metrics.py:375-400 | Over any history, a metric leaves the table only by a DELETE on one that is not built in and has no recorded result |
| MetricVersions.ScoredMetricsStay | app/api/metrics.py:387-399 | Once a result has been recorded for a metric, the metric is in the table at every later moment |
| MetricVersions.ResultsPinContent | app/workers/materialize.py:88-103 | Two results of one metric with the same version were scored on the same row, whenever each was recorded and whatever edits came between |
| MetricVersions.BuiltinsStay | app/api/metrics.py:375-400 | Built-in metrics are never changed and never removed |
| MetricVersions.VersionCountsEdits | app/api/metrics.py:248-263 | The version counts the edits made while active and nothing else; built-in metrics never change |
| MetricVersions.VersionPinsContent | app/api/metrics.py:248-263 | Over any history, whenever a metric is active at the same version it is the same in every field |
| MetricVersions.BacktestsAreReal | app/api/metrics.py:313-366 | A recorded hash is that of a spec the metric once had |
| MetricVersions.ActivationIsBacktested | app/api/metrics.py:223-246 | A step that makes a metric active leaves a spec that was backtested |
| MetricScoring.ResolveMetrics | app/engine/metrics/resolver.py:67-85 | One row per visible name: an agent's own overrides the project's, and either a built-in one, by the columns, given the unique indexes |
| MetricScoring.ResolutionIgnoresOrder | app/engine/metrics/resolver.py:67-85 | The order of the rows does not matter |
| MetricScoring.OutcomesFromJudgeVerdicts | app/engine/metrics/compiler.py:120-155 | One outcome per metric asked about, in order: the last verdict with its name, or an error |
| MetricScoring.CompiledMeaning | app/engine/metrics/compiler.py:65-92 | Every metric is in exactly one group, by sampling and kind |
| MetricScoring.ScoreCall | app/engine/executor/simulation.py:671-691 | Exactly one outcome per resolved metric, with its own version and the status its group gives |
| MetricScoring.GatesDecide | app/engine/rubric.py:33-49 | Failed or unscored gating metrics fail the call, else a warning warns, else the score decides; so a sampled gating metric the judge leaves out fails it |
| LatencyClock.Clock.OnPushFrame | app/engine/caller/latency_clock.py:68-112 | One frame has the effect of the value model |
| LatencyClock.ClockMeasures | app/engine/caller/latency_clock.py:68-112 | After any trace, the clock shows for each answered stop the time from it to its first loud frame, flagged when above the limit, and the number of starts while the other side speaks |
| LatencyClock.AnsweredTurnsMeaning | app/engine/caller/latency_clock.py:71-112 | The answered stops are those with a loud frame before the next stop, each once, with its first loud frame, in order |

## Left out

- HTTP routing, authentication, schemas, migrations, seeds, telephony, speech, recording, encryption and the Python sandbox: foreign calls or plumbing.
- Wall-clock time: any claimed or running row may be stale when the reaper looks; heartbeats, notifications and poll delays are not modelled, so a stream is described by the logs it happens to read.
- `hashtext` collisions of advisory-lock keys: ids are the keys, and a collision would only exclude more.
- Deadlock freedom and liveness: a blocked statement waits or its transaction aborts, and nothing is said about how long. A failed status guard likewise ends in an abort.
- Idempotency keys of `run_suite`, edits of a suite's rubric or an agent's cap, and deletion of suites and agents: the caps and the rubrics are fixed, and a parent is inserted together with its children.
- Materialized turns and assertions, and the metrics a finished single run stores, which are arbitrary values here.
- The row and event transactions of the executors, the reaper, rollup and cancel are steps of a transition system rather than methods with loops, because what matters is how they interleave.
- ScriptedRun.OneTerminalEvent: requires a script whose last entry is its only terminal one, and a replay without error entries, as the two runners load them; the failure path of the live executors writes without a guard and can add a second terminal event.
- ClaimScan.RunsTable.ClaimRun: with other claimers present the scan may skip a locked agent or row, so oldest-first is stated for a claim on its own.
- The nodes of the flow graph are values in a map, so two names for one node object cannot arise. The original never shares them either.
- Unicode case folding, the handoff word list and a metric's sampling hash are parameters.
- The prompts, the proposal of candidates and the timing of model calls; a failed or timed-out call is an absent answer.
- Exceptions raised by a judge call, which abort grading.
- The signal test on audio samples: a frame is loud or not. The wording of a latency flag and the values and rationales of metric outcomes.
- Concurrent edits of one metric: every PATCH, DELETE and record of a backtest is one step. A backtest reads its spec earlier than it records its hash.
