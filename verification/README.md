# Verified models of Relax's coordination and measurement code

Relax trains language models by reinforcement learning: a rollout service generates, critic and
actor train, judges score, and a set of analysis scripts measures where the time went. This project
models the parts of it whose correctness is a statement about every input, every run or every
interleaving, and proves those statements with Dafny.

* **Latency analyzer** (`Instants`, `Subtraction`, `RewardWait`, `Sweep`, `Attribution`, `StreamWait`,
  `ReadyWindows`). Times are integer ticks and tick t is the half-open unit [t, t + 1). An interval
  stands for the set of its ticks, and every sorting, merging, cutting and sweeping loop is proved to
  compute that set or its size. A label is the set of active stages; the label without stages is the
  source's `no_observed_span`. The equal split is over `real`.
* **Colocated GPU hand-off** (`Colocate`, `ColocateHistory`, `ColocateLoops`). The rollout, critic and
  actor loops share the same GPUs and are ordered only by polling. They are an interleaved transition
  system in PPO colocate mode with rollout offload on: one step is one poll, one remote call or one
  update. Peers of rollout are critic and actor, the peer of actor is critic.
* **Resident pipeline** (`ResidentLedger`, `DebtCoverage`, `DroppedDebt`, `LedgerProgress`,
  `ShortPartitions`, `Transfer`, `ResidentPipeline`). The group ledger over whole runs: admission,
  commits into two partitions, soft close, the deficit carried to the next step, the final backfill step,
  and what each training partition receives.
* **Judge service** (`GenRM`, `Occupancy`, `GenRMHistory`, `GenRMService`). Admission through a
  semaphore, drain, and the event-driven occupancy integral, as the steps coroutines take between await
  points, in integer nanoseconds.
* **DeepEyes rollout** (`TurnLedger`, `TurnOutcomes`, `DeepEyesRollout`). Tokens, masks, log-probs and
  budgets over any chain of aborts and resumes.
* **Agent server** (`Leasing`, `LeasedOrder`, `Sessions`, `SessionOutcomes`, `AgentServer`). Sample
  leasing under the lock, and the session lifecycle under every interleaving of creating, running,
  cancelling and sweeping.
* **Workload markers** (`WorkloadMarkers`, `MarkerRounds`). The fragments the trainer writes and the
  evidence the analyzer makes of them.

Where the source computes by updating things in place, the model has the same loop over the same
variables, or a class with the same fields; each is proved equal to a specification function, a set or
a step of a state machine, and the properties are proved of that. Module `Sorting` is the stable
insertion sort that stands for `sorted`; `Common` holds the few definitions all modules share.

## Where the code does not do what one might expect

Each of these is proved, with the exact condition under which the expectation holds.

* `_subtract_intervals` with a cut whose start lies after its end still covers exactly the right
  instants, but its pieces may overlap. `Subtraction.DisjointIffHarmless` gives the cuts that cause it;
  `Subtraction.InvertedCutOverlaps` is one.
* Exclusive wait plus other-blocker wait exceeds the inclusive wait as soon as two clipped reward
  segments overlap: `RewardWait.SplitVersusInclusive`; `RewardWait.OverlappingRewardsCountTwice` is such
  a wait.
* With critic-only warmup the three loops can get stuck: critic clears the partition, and an actor that
  polls too late never sees it. `Colocate.NeverStuckIffNoWarmup`.
* Once groups are dropped, the resident pipeline may owe more groups than it holds and raise:
  `DroppedDebt.DebtCanBeUncoveredIff`.
* A fully async step may close on interrupted groups before it has backfilled its predecessor, and the
  deficit it records counts its own partition only: the partition before then stays short, and without its
  completion flag, for ever. It is full if and only if that step had backfilled it by then:
  `ShortPartitions.FullIffBackfilled`; `ShortPartitions.PartitionLeftShortIff` gives the configurations
  exposed to it and `ShortPartitions.SoftCloseForgetsDebt` a run.
* A mode configured with `samples` below one never gives a lease back: `Leasing.ReleasedIff`, with
  `Leasing.NoSamplesKeepsTheLease` for samples zero.
* A session whose row cannot be loaded, or whose directory cannot be made, fails after it was marked
  running and before the try block that would record it; it stays running for ever. A session can still
  end if and only if that has not happened: `Sessions.CanEndIffSetupHeld`;
  `Sessions.FailedSetupLeavesItRunning` is such a run.

## Model

| member | source | states |
|---|---|---|
| Instants.UnionDuration | examples/agentic_dual_judge/analyze_latency.py:1368-1380 | the merged length is the number of instants in the union, for overlapping, touching, repeated, empty or inverted intervals |
| Instants.DirectIntervalOverlap | examples/agentic_dual_judge/analyze_latency.py:645-650 | the overlap is the size of the intersection of the interval with the union of the family |
| Instants.ClippedCover | examples/agentic_dual_judge/analyze_latency.py:650 | clipping a family to a window keeps exactly its instants inside the window |
| Subtraction.SubtractIntervals | examples/agentic_dual_judge/analyze_latency.py:1414-1430 | the nested loops return the pieces of cutting every piece with every cut in sorted order |
| Subtraction.SubtractionIsDifference | examples/agentic_dual_judge/analyze_latency.py:1414-1430 | the pieces have positive length and cover exactly the instants outside every cut, inverted cuts included |
| Subtraction.SubtractionConserves | examples/agentic_dual_judge/analyze_latency.py:1414-1430 | length left plus direct overlap is the length of the interval, for every input |
| Subtraction.DisjointIffHarmless | examples/agentic_dual_judge/analyze_latency.py:1414-1430 | the pieces are ordered and disjoint if and only if no inverted cut lies unshielded inside the interval |
| Subtraction.InvertedCutOverlaps | examples/agentic_dual_judge/analyze_latency.py:1414-1430 | a concrete inverted cut that makes the pieces overlap |
| RewardWait.WaitAccounting | examples/agentic_dual_judge/analyze_latency.py:979-1015 | inclusive wait is the number of instants of the wait under any reward; other-blocker and exclusive wait count, one term for each reward, its instants inside the wait with and without another blocker |
| RewardWait.SplitConserves | examples/agentic_dual_judge/analyze_latency.py:1007-1015 | exclusive plus other-blocker wait adds up, reward by reward, to the instants inside the wait |
| RewardWait.SplitVersusInclusive | examples/agentic_dual_judge/analyze_latency.py:1007-1015 | that split is never below the inclusive wait, and equals it if and only if no two rewards overlap inside the wait |
| RewardWait.OverlappingRewardsCountTwice | examples/agentic_dual_judge/analyze_latency.py:1007-1015 | a concrete wait with two overlapping rewards whose split exceeds the inclusive wait |
| Sweep.ActiveSetDurations | examples/agentic_dual_judge/analyze_latency.py:1383-1411 | the duration under each label is the number of instants of the window whose set of active stages is exactly that label, and labels without a duration have no instant |
| Attribution.DurationsSumToWindow | examples/agentic_dual_judge/analyze_latency.py:1383-1411 | the durations of all labels add up to the length of the window |
| Attribution.StageSpansCover | examples/agentic_dual_judge/analyze_latency.py:2592-2600 | the clipped spans of a stage cover exactly the instants of the window at which the stage is active |
| Attribution.StageOccupancy | examples/agentic_dual_judge/analyze_latency.py:2592-2600 | each stage's occupancy is the number of instants of the window at which it is active |
| Attribution.SweepAgreesWithMerge | examples/agentic_dual_judge/analyze_latency.py:2592-2606 | for every stage, the sweep durations over the labels that contain it add up to what merging its clipped spans gives |
| Attribution.EqualSplit | examples/agentic_dual_judge/analyze_latency.py:2608-2619 | the split gives each stage, instant by instant, its equal part of the active stages |
| Attribution.SplitSumsToWindow | examples/agentic_dual_judge/analyze_latency.py:2608-2619 | the shares of all stages and of the empty label add up to the window, and so to 100% |
| Attribution.ShareWithinOccupancy | examples/agentic_dual_judge/analyze_latency.py:2608-2619 | no stage's share exceeds its occupancy |
| Attribution.AnalyzeWindow | examples/agentic_dual_judge/analyze_latency.py:2559-2619 | dropping the events outside the window first changes neither occupancy, nor labels, nor split |
| StreamWait.RemoveStreamWaitFromTraining | examples/agentic_dual_judge/analyze_latency.py:1433-1457 | the two passes replace every training span by its pieces outside the data waits of its own process, in order |
| StreamWait.OnlyEnvelopesReplaced | examples/agentic_dual_judge/analyze_latency.py:1433-1457 | every event that is not a training span, those already named like a piece included, is kept unchanged and in order; what else is in the result are pieces |
| StreamWait.OthersUnchanged | examples/agentic_dual_judge/analyze_latency.py:1433-1457 | under every other name the events are the same before and after |
| StreamWait.CleaningIsRankLocal | examples/agentic_dual_judge/analyze_latency.py:1433-1457 | an instant is in a process's compute-and-orchestration span if and only if it was in one of its training spans and in none of its data waits |
| StreamWait.CleanedProvenance | examples/agentic_dual_judge/analyze_latency.py:1433-1457 | every piece lies inside the training span it was cut from and keeps its other attributes |
| StreamWait.PiecesFollowOneAnother | examples/agentic_dual_judge/analyze_latency.py:1433-1457 | the pieces of a training span follow one another without overlap, none twice, if and only if no inverted data wait of its process lies unshielded inside it |
| StreamWait.CleanedInPlace | examples/agentic_dual_judge/analyze_latency.py:1433-1457 | each event is replaced where it stands in the list |
| ReadyWindows.BuildReadyBoundaries | examples/agentic_dual_judge/analyze_latency.py:1460-1466 | the loop builds the boundary of every ready step |
| ReadyWindows.ReadyIsLatest | examples/agentic_dual_judge/analyze_latency.py:1460-1466 | a step's boundary is the latest end among its ready events, and only steps with such an event have one |
| ReadyWindows.FixedKWindow | examples/agentic_dual_judge/analyze_latency.py:2348-2379 | the window selection, with each of its refusals in the order they are made |
| ReadyWindows.FixedKSucceedsIff | examples/agentic_dual_judge/analyze_latency.py:2348-2379 | the selection succeeds if and only if warmup, K and stride are at least one, there are enough boundaries, and the first warmup-plus-K of them follow one another at the stride |
| ReadyWindows.FixedKSelection | examples/agentic_dual_judge/analyze_latency.py:2348-2379 | when it succeeds it measures the K steps after the boundary step, and no other ready step lies among them or the warmup's |
| ReadyWindows.PerUpdateStages | examples/agentic_dual_judge/analyze_latency.py:1469-1501 | each interval and each stage percentage is that of its ready-to-ready window; the first non-positive interval is refused |
| ReadyWindows.IntervalsSumToMakespan | examples/agentic_dual_judge/analyze_latency.py:1469-1501 | the ready-to-ready intervals add up to the makespan |
| ReadyWindows.TicksSplit | examples/agentic_dual_judge/analyze_latency.py:1483-1496 | a stage's occupancy of two adjacent windows is its occupancy of their union |
| ReadyWindows.PercentagesGiveBackOccupancy | examples/agentic_dual_judge/analyze_latency.py:1483-1497 | weighting the per-update percentages by their intervals gives the stage occupancy of the whole window |
| ReadyWindows.ReportGivesBackOccupancy | examples/agentic_dual_judge/analyze_latency.py:1469-1501 | the same of what the report returns |
| ReadyWindows.PerStepDeltas | examples/agentic_dual_judge/analyze_latency.py:2901-2907 | each delta is candidate interval minus baseline interval |
| ReadyWindows.DeltasTelescope | examples/agentic_dual_judge/analyze_latency.py:2899-2907 | the per-step deltas add up to the difference of the two makespans |
| Colocate.ReachableInv | relax/components/rollout.py:446-513 | in every interleaving the three loops stay in step: whose turn it is determines every counter, the SGLang status and what has been cleared |
| Colocate.GpuMutualExclusion | relax/components/actor.py:225-301 | while critic trains SGLang holds nothing and actor sleeps; while actor trains SGLang holds nothing and critic has finished the round; every generate finds SGLang onloaded with exactly the updates of the rounds before |
| Colocate.LogIsCanonicalPrefix | relax/components/critic.py:105-147 | every run trains and clears in the one canonical order |
| Colocate.OneCleanupOwner | relax/components/critic.py:131-147 | a partition is cleared at most once, by critic in warmup and by actor afterwards, and only after the training on it has returned |
| ColocateHistory.PastIffWorked | relax/components/actor.py:246-301 | in every schedule a loop stands past a round if and only if the schedule holds its generate or its training of that round |
| ColocateHistory.ReturnedMeansTrained | relax/components/actor.py:290-301 | a training the log reports is in the schedule, while the SGLang weights still carried only the rounds before it |
| ColocateHistory.PublishedMeansTrained | relax/components/actor.py:246-301 | SGLang carries a round's updates only if critic trained on it and, outside warmup, actor did |
| ColocateHistory.WorkedOnce | relax/components/critic.py:122-147 | no round is generated or trained on twice |
| ColocateHistory.WorkInOrder | relax/components/actor.py:225-301 | actor trains on a round after critic has and outside warmup only, critic after it was generated, and a round is generated after both have trained on the one before |
| ColocateHistory.DoneMeansAllWorked | relax/components/critic.py:122-147 | once all loops are done, every training that was due has been made |
| ColocateHistory.StalenessGateHolds | relax/components/rollout.py:465-475 | no further round is begun before a read of the partition list found every partition fresh enough |
| Colocate.RemainingNeverGrows | relax/components/actor.py:168-223 | no step of any loop increases the work left |
| Colocate.FairStretchAdvances | relax/components/rollout.py:465-513 | without warmup every stretch of schedule in which each loop moves four times makes progress, from every reachable state and for every max_staleness |
| Colocate.FairSchedulesFinish | relax/components/rollout.py:295-312 | without warmup fair schedules bring all three loops to num_rollout within a stated number of stretches |
| Colocate.NeverStuckIffNoWarmup | relax/components/critic.py:131-147 | from every reachable state the loops can still finish if and only if there is no critic-only warmup or nothing to do |
| ColocateLoops.Drive | relax/components/actor.py:168-223 | the loop objects, ticked under any schedule, run exactly the transition system |
| ColocateLoops.PeerStepBarrier.ListPending | relax/distributed/coordination.py:100-116 | a pass lists exactly the peers that answered a step not past the round |
| ColocateLoops.EmptyPassMeansAllPassed | relax/distributed/coordination.py:80-116 | although peers are read one at a time, an empty pass proves all of them past the round at its end |
| ColocateLoops.EmptyPassInRun | relax/distributed/coordination.py:80-116 | in every run of the three loops: if rollout reads actor at one moment and critic at another and neither is pending, both have passed the round from then on |
| ResidentLedger.RunKeeps | relax/agentic/rollout.py:648-797 | quotas, fills and phases over every run, drops included |
| ResidentLedger.AdmissionNeverOversubscribes | relax/agentic/rollout.py:729-775 | in every run the current window's slack is non-negative and neither the over-admission nor the previous-accounting error is raised |
| ResidentLedger.PartitionFill | relax/agentic/rollout.py:656-694 | commits to a partition in its own step and in the next one never exceed rollout_batch_size |
| ResidentLedger.TerminalMeansComplete | relax/agentic/rollout.py:1046-1067 | the pipeline is shut down as terminal only when the last partition holds exactly rollout_batch_size groups, directly or through the backfill step |
| LedgerProgress.ClosesIffSettled | relax/agentic/rollout.py:777-797 | in every run an open step passes its closing check if and only if what it owes to both partitions is at most the interrupted groups, or, synchronously and in the backfill step, nothing |
| LedgerProgress.CanAlwaysComplete | relax/agentic/rollout.py:1040-1072 | from wherever a run without drops is, some continuation completes it without an error, the last partition full |
| LedgerProgress.CanCompleteIffQuotaSuffices | relax/agentic/rollout.py:732-769 | that holds if and only if the admission quota is at least the rollout batch |
| LedgerProgress.NothingIsLeftOver | relax/agentic/rollout.py:1062-1072 | with neither partial rollout nor full asynchrony no group is resident between steps, and none once the pipeline is shut down |
| LedgerProgress.TheRestIsCarried | relax/agentic/rollout.py:1054-1072 | otherwise closing a step loses exactly the groups with a reward that no partition took |
| ShortPartitions.FrozenForEver | relax/agentic/pipeline/transfer.py:209-226 | once the step after it has closed, a partition's contents never change again |
| ShortPartitions.FullIffBackfilled | relax/agentic/rollout.py:1040-1051 | a partition is full for good if and only if the step after it had backfilled it when its window closed |
| ShortPartitions.SoftCloseForgetsDebt | relax/agentic/rollout.py:777-797 | a concrete run without drops or errors after which partition 0 stays empty for ever |
| ShortPartitions.PartitionLeftShortIff | relax/agentic/rollout.py:777-797 | some run leaves a closed partition short if and only if it is fully async with at least two rollouts and a positive batch no larger than the admission quota |
| DebtCoverage.DebtIsAlwaysCovered | relax/agentic/rollout.py:746-751 | in every run without dropped groups no accounting error is raised at all, and the debt stays below the residents |
| DebtCoverage.DeficitWithinInterrupted | relax/agentic/rollout.py:777-797 | at every fully-async close, drops or not, the recorded deficit is at most the interrupted groups counted by the check |
| DebtCoverage.DeficitIsResident | relax/agentic/rollout.py:1046-1051 | in runs without drops the deficit also stays resident until the next step opens |
| DroppedDebt.DropsUncoverTheDebt | relax/agentic/rollout.py:746-751 | under every configuration that can carry debt, a concrete run with drops raises the coverage error |
| DroppedDebt.DebtCanBeUncoveredIff | relax/agentic/rollout.py:746-751 | with drops allowed the coverage error is reachable if and only if the run is fully async, with at least one rollout and a positive batch no larger than the admission quota |
| ResidentPipeline.QuietTickSettles | relax/agentic/rollout.py:281-299 | after a tick in which the domains offer nothing another one moves nothing, so the pump may stop there |
| Transfer.TransferDomain.RebindStep | relax/agentic/pipeline/transfer.py:132-145 | rebinding is refused exactly while groups wait to be sent, and otherwise starts the step's books afresh |
| Transfer.TransferDomain.DrainReadyGroupPayloads | relax/agentic/pipeline/transfer.py:342-376 | commits the longest FIFO prefix the two quotas allow, backfill first; the books stay balanced |
| Transfer.TransferDomain.SpawnTransfer | relax/agentic/pipeline/transfer.py:203-251 | a batch never mixes partitions, continues where its partition stopped, and is flagged exactly when it completes it |
| Transfer.TransferDomain.SpawnReadyTransfers | relax/agentic/pipeline/transfer.py:253-260 | sends full batches until fewer groups wait than one holds, and nothing if they do already |
| Transfer.TransferDomain.WaitForPendingTransfers | relax/agentic/pipeline/transfer.py:385-401 | draining always succeeds, so the error about no dispatch progress is never raised |
| Transfer.MarkedHasMark | relax/agentic/pipeline/transfer.py:215-236 | a flagged partition has one flag, on the last batch sent to it |
| Transfer.DispatchedIsGood | relax/agentic/pipeline/transfer.py:209-242 | sending a batch keeps the books balanced, and a partition gets its completion flag at most once with nothing sent to it afterwards |
| ResidentPipeline.AgenticResidentPipeline.CurrentWindowAdmissionCounts | relax/agentic/rollout.py:740-769 | returns the slack, or the error the checks raise, in their order; never the over-admission error |
| ResidentPipeline.AgenticResidentPipeline.PumpOnce | relax/agentic/rollout.py:281-299 | the pump's loop is the ledger's run of ticks, whatever the domains offer |
| ResidentPipeline.AgenticResidentPipeline.OpenStep | relax/agentic/rollout.py:648-711 | opening a step is the ledger's step; rebinding always succeeds |
| ResidentPipeline.AgenticResidentPipeline.RecordStep | relax/agentic/rollout.py:1040-1061 | at every close, each partition has received exactly the groups committed to it, and its completion flag if and only if it is full |
| ResidentPipeline.AgenticResidentPipeline.FinishStep | relax/agentic/rollout.py:1062-1072 | sealing a step discards the resident tail exactly when nothing is carried, and checks the accounts once more |
| ResidentPipeline.DrainedIsDelivered | relax/agentic/pipeline/transfer.py:223-242 | balanced books with nothing waiting mean every partition of the run is delivered |
| ResidentPipeline.Drive | relax/agentic/rollout.py:1084-1275 | every sequence of commands drives the object through a run of the ledger, with all of the above on the object's own fields |
| GenRM.NextAdmits | relax/components/genrm.py:219-299 | every step keeps the permit ledger, and none raises the in-flight count once stopping is set |
| Occupancy.PermitsAreConserved | relax/components/genrm.py:232-299 | on every path, cancellation, refusal and bad media included, permits left plus permits held make the limit; in-flight stays within it; drained means nobody in flight; nobody waits while no one else holds a permit |
| GenRMHistory.StoppingIffAsked | relax/components/genrm.py:622-633 | in every run the service is stopping if and only if somebody has asked it to stop |
| GenRMHistory.NobodyEntersOnceStopped | relax/components/genrm.py:244-247 | after that no request is in flight that was not in flight then, and whoever leaves the semaphore is refused as stopping |
| GenRMHistory.DrainIsFinal | relax/components/genrm.py:622-633 | a drain seen after somebody asked to stop is final: nothing is in flight then or in any continuation |
| GenRMHistory.NobodyOvertakes | relax/components/genrm.py:232-242 | first come, first served: whoever arrived after a request that still waits, waits as well or has given up |
| GenRMHistory.OutcomeHasItsCause | relax/components/genrm.py:219-299 | every request is where the steps of the run brought it: refused for stopping or for its media, gone by its own will, or over with the outcome its engine call reported, in flight exactly between the two steps |
| Occupancy.OccupancyIsExact | relax/components/genrm.py:203-216 | after any timely run a metrics read returns the summed time in flight and the number of busy instants, with busy <= integral <= limit x busy |
| Occupancy.PollingIsTransparent | relax/components/genrm.py:559-594 | taking every metrics read out of a run changes no later reading and nothing else |
| GenRMService.Service.EndRequest | relax/components/genrm.py:292-299 | the finally block of an admitted request, with its permit handed on |
| GenRMService.Service.Generate | relax/components/genrm.py:219-261 | an arriving request takes a free permit or queues, and is admitted, refused while stopping, or refused for its media |
| GenRMService.Service.Metrics | relax/components/genrm.py:559-594 | the values a read returns are the exact integrals and the true counts |
| GenRMService.Drive | relax/components/genrm.py:203-299 | every timely sequence of actions on the object is a run of the server model, accumulators exact and stopping set if and only if asked for |
| TurnLedger.ChainKeepsLedger | examples/deepeyes/rollout.py:398-582 | over any chain of aborts and resumes tokens are prompt and response, mask, log-probs and length agree, no turn exceeds max_new_tokens over its segments, no generated token lies past the context limit |
| TurnLedger.GenerateKeeps | examples/deepeyes/rollout.py:175-213 | one call, resumed or not, keeps that ledger |
| TurnLedger.CapFits | examples/deepeyes/rollout.py:458-465 | what the engine is asked for fits the context and what earlier segments left of the turn |
| TurnLedger.ChainTrainsOnModelTokens | examples/deepeyes/rollout.py:272-283 | a response token is trained on exactly when the model said it, and under off-policy masking only from the last resuming call on |
| TurnLedger.ResumingOnlyAppends | examples/deepeyes/rollout.py:398-582 | resuming only appends to the tokens and log-probs an abort left |
| TurnOutcomes.CallIsTold | examples/deepeyes/rollout.py:398-582 | what any call adds and how it ends, told from the script and the two budgets: the engine's tokens that fit and then the observation, turn after turn; aborted, truncated or completed each under exactly its condition |
| DeepEyesRollout.RolloutSample.Generate | examples/deepeyes/rollout.py:398-582 | the loop over turns that mutates the sample ends exactly where the ledger says, and so as `TurnOutcomes.CallIsTold` tells |
| DeepEyesRollout.RolloutSample.PrepareStartState | examples/deepeyes/rollout.py:175-213 | the sample and the budgets a call starts from, resumed or not |
| Leasing.LeasesInBlocksAndEpochs | examples/mini_swe_agent/agent_server.py:359-385 | for any interleaving of groups, sessions share a lease exactly in consecutive blocks of samples of one group, no lease serves two groups, and every finished epoch visits every index exactly as often as it is listed |
| Leasing.EpochsForAnySamples | examples/mini_swe_agent/agent_server.py:359-385 | whatever samples is, every finished epoch of leases visits every index exactly as often as it is listed |
| LeasedOrder.LeasesFollowTheShuffles | examples/mini_swe_agent/agent_server.py:359-367 | every epoch is handed out in the order it was shuffled into by the session that ended the one before |
| Leasing.NeverReleased | examples/mini_swe_agent/agent_server.py:376-385 | with samples at most zero a group keeps its first lease for ever |
| Leasing.NoSamplesKeepsTheLease | examples/mini_swe_agent/agent_server.py:376-385 | a concrete mode with samples zero: two sessions share the first lease, which stays cached |
| Leasing.ReleasedIff | examples/mini_swe_agent/agent_server.py:376-385 | a group's lease is used up if and only if samples is positive and divides its number of sessions |
| Leasing.ModeState.Lease | examples/mini_swe_agent/agent_server.py:359-367 | hands out the next index and starts a new epoch at the end of the order |
| Leasing.ModeState.LeaseSample | examples/mini_swe_agent/agent_server.py:376-385 | gives the group's cached index or a fresh lease and keeps the rest of the block |
| Leasing.ModeState.LeaseSamples | examples/mini_swe_agent/agent_server.py:376-385 | sessions asking one after the other get the indices of a run of the model |
| Sessions.RunKeeps | examples/mini_swe_agent/agent_server.py:389-433 | what every session keeps, in every interleaving |
| Sessions.OutcomeIsAlwaysRecorded | examples/mini_swe_agent/agent_server.py:1076-1079 | the last lookup never misses its record; a record is terminal if and only if it has a finish time; a session whose thread is gone is terminal |
| SessionOutcomes.OutcomeHasItsCause | examples/mini_swe_agent/agent_server.py:408-433 | every ended session has its cause in the run: a cancellation in the queue, or a report of its thread, a clean-up and the last lock section; outcome, error text, result and finish time follow from them |
| SessionOutcomes.CompletedMeansItsAgentEnded | examples/mini_swe_agent/agent_server.py:421-426 | a completed session's agent ended without error and reported the recorded result, its clean-up did not fail, and no cancellation came while it was live |
| SessionOutcomes.FailedMeansAnErrorWasReported | examples/mini_swe_agent/agent_server.py:414-420 | a failed session's error is the text its thread reported and its clean-up failure, not both empty, and no cancellation came while it was live |
| SessionOutcomes.CancelledIffCancelledLive | examples/mini_swe_agent/agent_server.py:408-413 | an ended session is cancelled if and only if a cancellation came while it was live |
| SessionOutcomes.WorkOnlyUncancelled | examples/mini_swe_agent/agent_server.py:975-1014 | a sandbox is built, and an agent runs, only after a look at the cancel event that found it unset |
| Sessions.TerminalIsAbsorbing | examples/mini_swe_agent/agent_server.py:408-433 | status, exit code, error, result and finish time never change once terminal |
| Sessions.CancelledNeverCompletes | examples/mini_swe_agent/agent_server.py:910-924 | a cancellation before the session is terminal ends it cancelled, never completed or failed |
| Sessions.CancelStopsTheAgent | examples/mini_swe_agent/agent_server.py:1004-1014 | a cancellation before the agent starts keeps it from ever running, or found the sandbox bound |
| Sessions.CancelFindsTheSandbox | examples/mini_swe_agent/agent_server.py:910-924 | a cancellation while the agent runs always finds the sandbox bound |
| Sessions.SandboxesAreCleanedUp | examples/mini_swe_agent/agent_server.py:1046-1074 | a sandbox left up once its thread is gone means its clean-up failed |
| Sessions.EvictedIffSweptStale | examples/mini_swe_agent/agent_server.py:882-901 | in every interleaving a record is gone if and only if some sweep of the run found it terminal and finished before that sweep's cut-off; no live record is ever evicted |
| Sessions.FailedSetupLeavesItRunning | examples/mini_swe_agent/agent_server.py:955-975 | a concrete run: created, begun, its setup fails, and the session is left running |
| Sessions.CrashedIffSetupFailed | examples/mini_swe_agent/agent_server.py:955-975 | a session is in that state if and only if its setup failed between being marked running and the try block |
| Sessions.CrashedRunsForEver | examples/mini_swe_agent/agent_server.py:955-975 | nothing ends or evicts such a session, in any continuation |
| Sessions.CanEndIffSetupHeld | examples/mini_swe_agent/agent_server.py:955-1079 | from every reachable state some continuation brings a session to a terminal status if and only if its setup has not failed |
| AgentServer.Server.CreateSession | examples/mini_swe_agent/agent_server.py:853-869 | the session is given the sample the leasing model gives and queued, in one lock section; the object goes on showing a run of sessions |
| AgentServer.Server.CancelSession | examples/mini_swe_agent/agent_server.py:910-918 | sets the event, cancels a queued record and no other, and answers whether a sandbox is bound |
| AgentServer.Server.BeginRun | examples/mini_swe_agent/agent_server.py:955-960 | a session cancelled or evicted meanwhile is not run; any other is marked running |
| AgentServer.Server.BindSandbox | examples/mini_swe_agent/agent_server.py:1010-1014 | once the section is left, a sandbox is bound that any later canceller finds, and the agent runs if and only if no cancellation came before |
| AgentServer.Server.FinishRun | examples/mini_swe_agent/agent_server.py:1076-1079 | the lookup always finds the record, and the section leaves it cancelled, failed or completed as the event and the thread's report demand |
| AgentServer.Server.ReapTerminalRecords | examples/mini_swe_agent/agent_server.py:882-901 | what is left in the table is exactly what was not stale, untouched; the count is the number evicted |
| AgentServer.SessionRecord.Finish | examples/mini_swe_agent/agent_server.py:408-426 | cancelled if the event is set, else failed with the error if there is one, else completed with the result |
| AgentServer.Drive | examples/mini_swe_agent/agent_server.py:853-1079 | under every schedule of clients, threads and sweeps the object is in the state of a run of the session model, no final lookup ever fails, and the k-th session works on the sample the leasing model hands to the k-th ask |
| WorkloadMarkers.WriteFragment | relax/utils/training/train_dump_utils.py:149-232 | a written fragment reads back as the totals of its samples |
| WorkloadMarkers.MergeIntCounter | examples/agentic_dual_judge/analyze_ready_markers.py:128-134 | adds a counter into another key by key |
| WorkloadMarkers.AggregateRound | examples/agentic_dual_judge/analyze_ready_markers.py:187-290 | the totals of a round's fragments, accepted or refused |
| WorkloadMarkers.AggregateWorkloadMarkers | examples/agentic_dual_judge/analyze_ready_markers.py:137-291 | one signature per measured round, or refusal for a terminal failure anywhere, a missing round or a refused one |
| WorkloadMarkers.CountsOnlyIsSame | examples/agentic_dual_judge/analyze_ready_markers.py:266-271 | a counter equals the one with a single key, missing keys as zero, if and only if it counts nothing else |
| WorkloadMarkers.SumIgnoresOrder | examples/agentic_dual_judge/analyze_ready_markers.py:187-257 | sums modulo 2^256, xor and counters form a commutative fold |
| WorkloadMarkers.RoundIgnoresFragmentation | examples/agentic_dual_judge/analyze_ready_markers.py:187-290 | two ways of splitting the same samples into fragments are judged alike and leave the same signature |
| WorkloadMarkers.AggregationIgnoresOrder | examples/agentic_dual_judge/analyze_ready_markers.py:137-291 | the whole result depends on the collection of marker lines, not on their order |
| WorkloadMarkers.AcceptedIff | examples/agentic_dual_judge/analyze_ready_markers.py:259-290 | a round is accepted if and only if every sample is proper and there are as many samples as asked for, in as many groups of the size asked for; its signature then counts the samples of each group, the sum of their digests modulo 2^256 and the bits an odd number of digests have |
| MarkerRounds.RoundHasItsFragments | examples/agentic_dual_judge/analyze_ready_markers.py:146-169 | a round is judged on the marker lines of its step, each as often as it was written |
| MarkerRounds.RefusedFor | examples/agentic_dual_judge/analyze_ready_markers.py:146-189 | a terminal failure anywhere, a measured round without lines or a line under another hash refuses everything |
| MarkerRounds.EvidenceOfTheSamples | examples/agentic_dual_judge/analyze_ready_markers.py:137-291 | with the lines written for the samples, the analysis succeeds if and only if every round is proper and of the size asked for, and signs each round for its own samples |

## Left out

- Floating-point rounding: times are integers, shares and percentages are `real`; the division by 1e9 and the conversion from microseconds are not modelled.
- The mapping from event names to stages, percentile statistics, percentage maps, report assembly and bootstrap statistics of the analyzer; and `_required_ready_window`, which looks a baseline's steps up in another timeline.
- The domains of the resident pipeline other than transfer (prepare, runtime, reward): they are arbitrary within what they own. They admit at most the leased quota, finish and drop groups they hold, keep the order in which reward finished them, and count as interrupted only groups the runtime holds.
- The pipeline's error clean-up (`cleanup_only`), evaluation deferral, the IR gates and abort requests, and runs resumed at a later rollout id. `release_step_output_payloads` only frees memory, so the model keeps the step's groups until the next step.
- Transfers with no data system client, and the failure of a transfer task. Each batch is put by a task of its own: the log is in the order in which batches are sent, and the order in which the data system receives concurrent puts is not modelled. The check of relax/utils/arguments.py:3236-3239 that over_sampling_batch_size is at least rollout_batch_size is not assumed anywhere.
- Stop events, pausing, evaluation, saving, health reporting, `set_step` and the scale-in/out endpoints of the colocated loops, and modes without rollout offload or without critic.
- Whether the fixed-width integers of the host could overflow: Python's integers are unbounded, and so are the model's.
- The semaphore follows asyncio's documented behaviour: first in first out, a released permit handed to a waiter before it resumes and handed on if that waiter is cancelled. The 30-second limit of the drain wait, the engine call and the HTTP client are not modelled.
- The DeepEyes environment, image state and decoding, routed experts, and errors raised by the environment. A resumed turn's environment only sees the last segment's text, so no equivalence with an uninterrupted turn is claimed. The engine is assumed to return at most max_new_tokens tokens with a log-prob each, and the prompt to encode to the same tokens in every call.
- The agent server's constructor, filesystem, Apptainer and signal handling, and `shutdown`. `AgentServer.Drive` runs the sessions of one mode; modes share the lock and the table of records but lease independently. Session names are numbers in order of creation. An agent that ends without error is assumed to report its number of calls, as examples/mini_swe_agent/agent_server.py:734 does; without it `finish` would raise after setting the status.
- Fairness of the executors and of the judge's event loop: sessions and the resident pipeline are shown able to end from anywhere, but only the colocated loops are shown to finish.
- Marker files: parsing, types of fields, negative counts, the wording and order of errors, the ready-marker window of `analyze_markers`, and digests that are not plain 64-digit numbers. A refused round has no reason in the model.
- Unseen modules (Megatron, SGLang, Ray, the data system's storage) and everything about models, prompts, rewards and media.
