# Staged controller rollout, safety filter and context compaction, in Dafny

This project models the control core of the roz robot runtime and proves properties of it over
whole runs.

- **Rollout.** Copper's controller loop keeps three controller slots (active, candidate, rollback),
  a separate lifecycle object, a stage variable, three counters and a command queue.
  `Rollout` gives one tick as a function from state and input to state; commands, sensor frames,
  the watchdog's verdict and both controllers' outcomes are arbitrary inputs. What the loop does
  (frames sent, e-stops raised, stage changes, promotions, rollbacks) is kept in order in a log, and the
  theorems speak about every log that any input sequence can produce. `RolloutLoop.ControllerLoop` is
  the same loop with fields updated in place, statement by statement, proved to compute that function.
  `RolloutCommands` says what the commands of a tick amount to, `RolloutFrames` what each tick sends and raises,
  `RolloutStages` what becomes of a candidate on it, `RolloutPromotion` and `RolloutRollback` how the slots are filled,
  and `RolloutPlant` puts a moving joint on the other end of the loop.
- **Safety filter.** `SafetyFilter` is the per-tick pipeline of NaN rejection, velocity,
  acceleration, position and force stages; `SafetyFilterProofs` covers limits, the audit trail and
  closed-loop joint safety.
- **Evidence.** `Evidence` is the collector whose bundles the promotion gate consumes;
  `EvidenceProofs` says what its statistics, stability claims and coverage lists mean.
- **Lifecycle.** `Lifecycle` is the promotion gate and the last-known-good artifact.
- **Compaction.** `Context` is the escalating context compaction of the agent.

## Conventions

A finite `f64` is a real; NaN and the infinities are separate values, because the code tests for them.
Rounding is not modelled: a canary command that is inside the envelope blends to exactly itself.
`f64::EPSILON` keeps its value, and limits are met up to it, because the filter leaves a value alone
when the clamp would move it by no more than that. Counters and token sums are unbounded, except for the
two 32-bit casts in the token estimate and the saturation of a latency sample at `u64::MAX`.
A controller sits in exactly one slot, so the loop handles controllers as values;
`ControllerInstance.Instance` is the controller with its filter and collector as objects.
The actuator is always present and a send always reaches the log. A joint moves by the velocity of the
tick's frame times the period. On a tick without a frame it stands still in `RolloutPlant.World` and keeps its last
velocity in `RolloutPlant.Held`; the source does not say which of the two an actuator does.

The log is read backwards: `Snoc(before, last)`. `Extends(log, prefix)` says that `prefix` was the log
at an earlier point of the same run.

## Findings

- When the active controller fails hard after any load, the slot gets the older controller back but the
  lifecycle reinstates, and the loop reports, the controller that has just failed
  (`RolloutWitness.SlotAndLifecycleCanPart`, a concrete run of five ticks). The two then stay apart: a later
  rollback can disagree although nothing was loaded since the failed controller's promotion
  (`RolloutWitness.SlotAndLifecycleStayApart`, eight ticks). `RolloutRollback.SlotAndLifecycleAgree` gives
  the exact condition for every rollback of every run: the artifact that the lifecycle took to be active at
  the last load must be the one in the rollback slot. `RolloutRollback.CleanRollbackAgrees` is the special case in
  which no earlier rollback went wrong.
- A full rollback slot is lost when the active controller fails while the lifecycle is terminal, which a
  candidate that failed while the active one was halted leaves behind (`RolloutWitness.RollbackSlotCanBeLost`, a
  concrete run of six ticks). `RolloutRollback.RollbackRestoresEarlierActive` and
  `RolloutRollback.FailedRollbackStops` split the cases exactly.
- A halt sends no frame, and neither does an output that is zero on every channel. A joint that keeps its last
  velocity then drifts out of range, although every loaded profile suits it (`RolloutWitness.HaltCanLoseTheJoint`);
  by `RolloutPlant.HaltKeepsRangeIffStill` a halt of any length is safe if and only if the joint stands still when it
  begins, and by `RolloutPlant.HeldJointStaysInRange` such a joint is safe in every run without silence while it moves.
- Sending PromoteActive a second time, while the candidate is in shadow or canary, ends the rollout: the stage variable
  goes back to the first stage but the lifecycle does not, so the evidence is refused and the candidate is dropped
  (`RolloutPromotion.RearmingDropsCandidate`).
- An idle output masks a filter e-stop: the controller halts on it if and only if its raw output is not empty and
  not all default (`Controller.TickControllerFacts`).
- Non-finite outputs count as idle in the steady-state test, because every comparison with NaN is false
  (`EvidenceProofs.NaNCountsAsSteady`); `EvidenceProofs.SteadyMeansBoundedDrift` gives the exact condition.
- Clearing a tool result makes it longer when its content is shorter than 20 characters
  (`ContextProofs.ClearingGrowsIffShort`).
- The documentation of `ControllerLifecycle::promote` says that reaching Active saves the current artifact
  as last-known-good. The code saves it only when a later load replaces it; the model follows the code.
  `LifecycleProofs.ActiveWithoutLastKnownGood` reaches Active with nothing saved, and by
  `LifecycleProofs.PromotionSavesNothing` the claim holds of a promotion if and only if it held before it.

## Model

| member | source | states |
|---|---|---|
| Deployment.PolicyStepsAreLegal | crates/roz-copper/src/deployment_manager.rs:169-196 | every policy step is a legal stage transition, exists exactly for a blueprint or override policy in the three rollout stages, follows the two switches, and never leads from VerifiedOnly straight to Active |
| SafetyFilter.FilterJoint | crates/roz-copper/src/safety_filter.rs:402-463 | the value and the audit records of one joint after the NaN, velocity, acceleration and position stages |
| SafetyFilter.CheckForce | crates/roz-copper/src/safety_filter.rs:476-505 | a record for each of force and torque whose magnitude exceeds its limit; NaN readings never do |
| SafetyFilter.HotPathSafetyFilter.Filter | crates/roz-copper/src/safety_filter.rs:390-519 | one tick over any width: filtered vector, audit records in channel order, e-stop; the output becomes the next tick's previous vector |
| SafetyFilter.HotPathSafetyFilter.Reset | crates/roz-copper/src/safety_filter.rs:522-524 | forgets the previous vector |
| SafetyFilterProofs.AccelerationStageBounds | crates/roz-copper/src/safety_filter.rs:428-444 | acceleration limiting moves a value towards the previous output, never past it, and bounds the move |
| SafetyFilterProofs.JointChannelBounds | crates/roz-copper/src/safety_filter.rs:402-463 | the four stages together keep the velocity limit, and the acceleration limit unless the channel was stopped |
| SafetyFilterProofs.EveryOutputWithinLimits | crates/roz-copper/src/safety_filter.rs:396-519 | after any history of ticks and resets with any widths and non-finite values, every output is within its velocity limit and, unless forced to zero, within the acceleration limit of the previous output |
| SafetyFilterProofs.AuditIsComplete | crates/roz-copper/src/safety_filter.rs:400-519 | for every configuration, repeated joint names included, the records are consecutive blocks, one per channel in order and carrying its name, then the force records, which are there exactly on an e-stop; on an e-stop all outputs are zero, otherwise a channel's block leads from its raw command to its output without a gap, and an empty block means it passed unchanged |
| SafetyFilterProofs.AuditByName | crates/roz-copper/src/safety_filter.rs:400-519 | with distinct joint names the records found under a channel's name explain its output |
| SafetyFilterProofs.ChannelExactly | crates/roz-copper/src/safety_filter.rs:400-475 | on every channel of every tick without an e-stop: zero for a channel without limits or a value that is not finite, otherwise the value limited in speed, then in rate of change, then stopped within 0.05 of a position limit, each only where it exceeds the limit and no further, with the kinds recorded for exactly those that changed it |
| SafetyFilterProofs.ForceStopsExactly | crates/roz-copper/src/safety_filter.rs:476-508 | the e-stop is raised and every output zeroed if and only if limits and a wrench are there and the force exceeds the force limit or the torque the torque limit, with a record of either kind exactly for its own excess; a NaN reading never objects, an infinite one without a NaN always does |
| SafetyFilterProofs.TickGuarded | crates/roz-copper/src/safety_filter.rs:446-463 | within the margin of a position limit an output never pushes the joint further towards it |
| SafetyFilterProofs.PlantRunSafe | crates/roz-copper/src/safety_filter.rs:390-519 | a joint that starts in range and moves by filtered velocity times period stays in range through every controller output sequence |
| SafetyFilterProofs.OneTickEscape | crates/roz-copper/src/safety_filter.rs:416-463 | if one tick at the velocity limit does not fit in the margin, some start in range escapes in one tick |
| SafetyFilterProofs.JointSafeIffMarginCoversTick | crates/roz-copper/src/safety_filter.rs:416-463 | for every joint, closed-loop safety for all starts and all controllers holds if and only if one tick at the velocity limit fits in the margin or the whole range is no wider than the margin |
| Canary.CompareStageCommands | crates/roz-copper/src/controller.rs:1263-1310 | missing commands, width mismatches and empty commands as the code treats them; otherwise the two running maxima |
| Canary.DivergenceIsPerChannel | crates/roz-copper/src/controller.rs:1291-1307 | the divergence limit holds exactly when every channel is within its own share of the span, zero and negative spans included |
| Canary.MaxAbsIsLargest | crates/roz-copper/src/controller.rs:1291-1307 | the reported absolute difference is the largest over the channels |
| Canary.BoundCanaryCommand | crates/roz-copper/src/controller.rs:1312-1351 | fails exactly on a width mismatch with an active command, and keeps the candidate's width |
| Canary.BoundChannelEnvelope | crates/roz-copper/src/controller.rs:1337-1347 | the blend is within the allowed delta of the active value, between the two values, and equals the candidate's exactly when that is already inside |
| Canary.BoundChannelNonExpansive | crates/roz-copper/src/controller.rs:1337-1347 | between any two ticks the blend moves by at most the larger of the two controllers' own moves |
| CanaryProofs.ComparisonIsCloseness | crates/roz-copper/src/deployment_manager.rs:224-228 | a candidate command compares well with the active one if and only if there is one, the widths match and each channel differs by at most the policy's ten-thousandths of its span |
| CanaryProofs.BlendOnEnvelope | crates/roz-copper/src/controller.rs:1312-1351 | each channel of the blend is the candidate's value, or exactly the policy's ten-thousandths of the span from the active one in the candidate's direction if that is beyond it; it counts as clamped exactly if some channel is |
| Evidence.TickLatencyStats.Record | crates/roz-copper/src/evidence_collector.rs:66-80 | one step of the online statistics and of the 2048-sample ring |
| Evidence.EvidenceCollector.RecordTick | crates/roz-copper/src/evidence_collector.rs:158-239 | one tick's whole effect on the collector |
| Evidence.EvidenceCollector.TouchChannels | crates/roz-copper/src/evidence_collector.rs:165-173 | manifest channels covered by the output are touched, positions beyond the manifest are noted once |
| Evidence.EvidenceCollector.CountInterventions | crates/roz-copper/src/evidence_collector.rs:176-202 | interventions are counted by kind |
| Evidence.EvidenceCollector.UpdateStability | crates/roz-copper/src/evidence_collector.rs:204-236 | the oscillation flag and the steady-tick counter after comparing two outputs |
| Evidence.EvidenceCollector.RecordTrap | crates/roz-copper/src/evidence_collector.rs:242-244 | a trap is counted and nothing else changes |
| EvidenceProofs.LatencyIsBatch | crates/roz-copper/src/evidence_collector.rs:56-94 | for every sample sequence the running mean is the mean, the running second moment is the sum of squared deviations from it, and the ring is the last 2048 samples in order |
| EvidenceProofs.CollectorLatency | crates/roz-copper/src/evidence_collector.rs:158-160 | the collector's latency figures are those statistics of its ticks |
| EvidenceProofs.SteadyWindow | crates/roz-copper/src/evidence_collector.rs:204-238 | the steady counter is exactly the length of the steady stretch at the end of the run and spans only idle steps of equal width, and the oscillation flag is set exactly when some tick met the oscillation test |
| EvidenceProofs.OscillationMeans | crates/roz-copper/src/evidence_collector.rs:204-236 | two outputs of any values oscillate if and only if more than half of the channels change direction or some channel moves by more than 0.05 |
| EvidenceProofs.SteadyMeansBoundedDrift | crates/roz-copper/src/evidence_collector.rs:204-238 | at a steady count of at least n the last n outputs have equal width, and any two differ per channel by at most n - 1 times the idle epsilon if and only if they are all finite |
| EvidenceProofs.NaNCountsAsSteady | crates/roz-copper/src/evidence_collector.rs:215-232 | three outputs with a NaN in the middle count as steady although a channel moved by 100 |
| EvidenceProofs.IdleStableMeansNoOscillation | crates/roz-copper/src/evidence_collector.rs:326-327 | a bundle claims stable idle output exactly when at least 50 ticks were steady and no tick of the whole run met the oscillation test |
| EvidenceProofs.CoverageIsWidth | crates/roz-copper/src/evidence_collector.rs:165-173 | after any run the touched channels are the manifest up to the widest output and the unexpected ones are exactly the positions beyond |
| EvidenceProofs.CoverageGate | crates/roz-copper/src/evidence_collector.rs:312-324 | with distinct names the bundle splits the manifest in order at the widest output, and the coverage gate passes exactly when that output has the manifest's width |
| EvidenceProofs.CountsAreTallies | crates/roz-copper/src/evidence_collector.rs:176-202 | the bundle of a run reports its ticks, its mode and digests, whether 50 steady ticks were reached, and each kind of intervention as often as it happened |
| EvidenceProofs.EvidencePassesIffClean | crates/roz-core/src/controller/evidence.rs:135-146 | the evidence of a run has no safety issue and no untouched channel if and only if no output is wider than the manifest, every channel name is covered and no tick oscillates |
| Lifecycle.GateIsConjunction | crates/roz-copper/src/controller_lifecycle.rs:240-377 | the gates refuse nothing exactly when all demands of a promotion hold, with the nine legal combinations of stage, evidence mode and target listed |
| Lifecycle.ControllerLifecycle.Load | crates/roz-copper/src/controller_lifecycle.rs:191-200 | a load starts in VerifiedOnly, drops pending evidence, and saves a replaced Active artifact |
| Lifecycle.ControllerLifecycle.Submit | crates/roz-copper/src/controller_lifecycle.rs:205-216 | evidence is taken only for the current artifact |
| Lifecycle.ControllerLifecycle.CompareDigests | crates/roz-copper/src/controller_lifecycle.rs:284-324 | the first of six fields, in order, on which two digest sets differ |
| Lifecycle.ControllerLifecycle.Promote | crates/roz-copper/src/controller_lifecycle.rs:231-234 | promotion to the next canonical stage |
| Lifecycle.ControllerLifecycle.PromoteToTarget | crates/roz-copper/src/controller_lifecycle.rs:240-391 | the first refusing gate is reported and nothing changes, or the stage changes and the evidence is consumed |
| Lifecycle.ControllerLifecycle.Retire | crates/roz-copper/src/controller_lifecycle.rs:393-406 | Rejected before actuation, RolledBack after it, an error when already terminal |
| Lifecycle.ControllerLifecycle.RollBack | crates/roz-copper/src/controller_lifecycle.rs:414-428 | the last-known-good artifact returns in VerifiedOnly and is no longer kept as such |
| Lifecycle.ControllerLifecycle.RestoreActive | crates/roz-copper/src/controller_lifecycle.rs:434-447 | the last-known-good artifact returns as Active and stays last-known-good |
| LifecycleProofs.FailureChangesNothing | crates/roz-copper/src/controller_lifecycle.rs:191-447 | every failing operation leaves all four fields as they were |
| LifecycleProofs.LastKnownGoodWasActive | crates/roz-copper/src/controller_lifecycle.rs:191-447 | after any sequence of operations the last-known-good artifact was current and Active earlier in it |
| LifecycleProofs.PromotionConsumesOneBundle | crates/roz-copper/src/controller_lifecycle.rs:205-391 | the last operation that succeeded before a successful promotion submitted, for the current artifact, a bundle that passes every gate, and none is pending afterwards |
| LifecycleProofs.EndsExactly | crates/roz-copper/src/controller_lifecycle.rs:393-447 | when retiring, rolling back and restoring succeed, and the exact state each leaves: Rejected or RolledBack, VerifiedOnly with nothing kept, Active and still kept |
| LifecycleProofs.CanonicalSteps | crates/roz-copper/src/controller_lifecycle.rs:231-234 | promoting step by step leads through Shadow and Canary to Active and skips neither |
| LifecycleProofs.FirstRefusalIsReported | crates/roz-copper/src/controller_lifecycle.rs:240-391 | a refused promotion reports the first gate, in order, that does not pass |
| LifecycleProofs.MismatchNamesFirst | crates/roz-copper/src/controller_lifecycle.rs:284-345 | a digest mismatch names the first of the six fields that differs |
| LifecycleProofs.PromotionSavesNothing | crates/roz-copper/src/controller_lifecycle.rs:228-391 | a successful promotion leaves last-known-good alone, so afterwards it is the current artifact if and only if it already was |
| LifecycleProofs.ActiveWithoutLastKnownGood | crates/roz-copper/src/controller_lifecycle.rs:228-391 | for any artifact, five operations reach Active with no last-known-good artifact |
| Controller.TickControllerFacts | crates/roz-copper/src/controller.rs:998-1076 | a tick keeps the controller's identity; a halt never yields a command; a command is the filter's whole output; a filter e-stop yields no command and halts the controller if and only if its raw output is non-empty and not all default; a returned tick is recorded |
| ControllerProofs.TickExactly | crates/roz-copper/src/controller.rs:998-1076 | a tick in terms of what the module returned: a failing one halts and is counted; an idle output gives no command; any other halts exactly when the force or torque limit is exceeded, and else gives a frame that obeys every channel's limits; output, latency and interventions are recorded |
| ControllerInstance.Instance.Tick | crates/roz-copper/src/controller.rs:998-1076 | the tick on filter and collector objects is the tick the rollout uses |
| ControllerInstance.Instance.IsAllDefault | crates/roz-copper/src/controller.rs:1024-1032 | whether every raw command is within EPSILON of its zero default |
| ControllerInstance.Instance.RotateEvidence | crates/roz-copper/src/controller.rs:270-284 | hands out the collected evidence and starts an empty collector |
| RolloutLoop.ControllerLoop.ProcessCommand | crates/roz-copper/src/controller.rs:734-838 | the effect of each command on slots, stage variable, lifecycle and flags |
| RolloutLoop.ControllerLoop.DrainCommands | crates/roz-copper/src/controller.rs:841-884 | emergency commands first, then the others, in order |
| RolloutCommands.LastLoadDecides | crates/roz-copper/src/controller.rs:734-797 | from any state, a list of commands with a load leaves the last loaded controller as a fresh candidate, the lifecycle on it in VerifiedOnly keeping what was Active, and armed if and only if it is eligible and somebody asked after that load |
| RolloutCommands.DrainWithoutLoad | crates/roz-copper/src/controller.rs:768-838 | without a load the candidate, the lifecycle and the log stay, and an eligible candidate is armed if and only if somebody asked |
| RolloutCommands.DrainSwitches | crates/roz-copper/src/controller.rs:786-815 | the active and the rollback slot change only in whether they run, which the last halt or resume decides |
| RolloutCommands.NobodyAdvancesUnasked | crates/roz-copper/src/controller.rs:755-785 | over every run a candidate is armed, enters a stage or becomes active only if a PromoteActive was processed after the last load |
| RolloutLoop.ControllerLoop.CheckWatchdog | crates/roz-copper/src/controller.rs:893-938 | fires exactly when expired with something running; then both controllers halt, a zero frame is sent and the e-stop is raised |
| RolloutLoop.ControllerLoop.RestoreLastKnownGood | crates/roz-copper/src/controller.rs:393-421 | the rollback controller takes the slot when the lifecycle can restore; otherwise both are gone |
| RolloutLoop.ControllerLoop.RecoverActive | crates/roz-copper/src/controller.rs:1994-2047 | the two outcomes of a hard failure of the active controller |
| RolloutLoop.ControllerLoop.TickActiveController | crates/roz-copper/src/controller.rs:1971-2047 | the active controller's part of a tick |
| RolloutLoop.ControllerLoop.RejectCandidate | crates/roz-copper/src/controller.rs:1353-1401 | the candidate slot, stage and request are cleared and the lifecycle retires or restores |
| RolloutLoop.ControllerLoop.DropFailedCandidate | crates/roz-copper/src/controller.rs:2126-2164 | quiet with an active controller to fall back on, e-stop and zero frame without |
| RolloutLoop.ControllerLoop.SubmitAndPromote | crates/roz-copper/src/controller.rs:1403-1438 | rotates and judges the stage's evidence, submits it and asks for the target stage |
| RolloutLoop.ControllerLoop.StashLastKnownGood | crates/roz-copper/src/controller.rs:371-391 | the displaced controller is kept halted in the rollback slot and its id becomes the last-known-good id |
| RolloutLoop.ControllerLoop.PromoteToActive | crates/roz-copper/src/controller.rs:1440-1485 | the candidate takes the active slot, the displaced one the rollback slot, and all progress is cleared |
| RolloutLoop.ControllerLoop.LeaveStage | crates/roz-copper/src/controller.rs:1523-1598 | a stage is left by entering the target, being promoted, or being rejected |
| RolloutLoop.ControllerLoop.AdvanceStage | crates/roz-copper/src/controller.rs:1487-1737 | counting and promotion per stage, and every early return |
| RolloutLoop.ControllerLoop.RunCandidate | crates/roz-copper/src/controller.rs:2053-2124 | the candidate's tick and when it counts as failed |
| RolloutLoop.ControllerLoop.Conclude | crates/roz-copper/src/controller.rs:2166-2313 | blending, budget, actuation and advance after the candidate ran or did not |
| RolloutLoop.ControllerLoop.FinishTick | crates/roz-copper/src/controller.rs:2201-2313 | the bounded-tick budget, the frame sent and the stage advance |
| RolloutLoop.ControllerLoop.TickCandidateController | crates/roz-copper/src/controller.rs:2049-2313 | the candidate's whole part of a tick |
| RolloutLoop.ControllerLoop.Tick | crates/roz-copper/src/controller.rs:1875-2313 | one iteration of the loop is one step of the state machine |
| RolloutLoop.ControllerLoop.RunLoop | crates/roz-copper/src/controller.rs:1828-2350 | any number of iterations is a run of the state machine |
| RolloutPromotion.RunKeeps | crates/roz-copper/src/controller.rs:1875-2350 | in every reachable state the stage variable and the lifecycle agree beyond VerifiedOnly, the candidate slot holds the last loaded controller with exactly the evidence of its ticks in this stage, the three counters are the shadow ticks, the unclamped streak and the clamped ticks that the log shows, and every logged event is justified by the history before it |
| RolloutPromotion.ActiveOnlyByCertifiedRollout | crates/roz-copper/src/controller.rs:1403-1737 | over every run and command sequence the active and rollback slots hold exactly the controllers, artifact and profile, that the history of promotions and rollbacks alone gives; a controller is promoted only after the lifecycle accepted passing evidence of its own ticks in each stage of the policy's path, in that stage's mode and after exactly the required ticks since entering it, and displaces exactly the active one; a rollback replaces exactly the active controller by the one last displaced; every occupant of a slot was itself promoted |
| RolloutPromotion.CanaryPromotionIsBumpless | crates/roz-copper/src/controller.rs:1674-1733 | canary leads to Active only after N unclamped canary ticks in a row, on a tick whose frame is the candidate's own command |
| RolloutPromotion.AcceptedStageCoversManifest | crates/roz-copper/src/controller.rs:1411-1427 | a stage is left only if the widest output recorded in it has the manifest's width and no tick of it oscillated |
| RolloutPromotion.StageTicksCompared | crates/roz-copper/src/controller.rs:2089-2124 | in every run a tick that counts towards a shadow or canary stage had a command, and if the active controller was running, so had it, of the same width and on every channel within the policy's ten-thousandths of the span |
| RolloutPromotion.RearmingDropsCandidate | crates/roz-copper/src/controller.rs:768-785 | in every run, PromoteActive sent while the candidate runs in shadow or canary drops it on that tick and leaves the active slot as it was |
| RolloutStages.LoopIsStageMachine | crates/roz-copper/src/controller.rs:1487-2313 | from every reachable state, whether a running candidate stays, moves to the next stage, becomes active or is dropped, and the slots, stage and lifecycle that follow, are exactly what a small stage machine over the history says: a failing, diverging or too often clamped candidate is dropped at once, a stage lasts exactly as demanded, clean evidence is never refused and other evidence never accepted |
| RolloutStages.DivergenceDrops | crates/roz-copper/src/controller.rs:2089-2124 | in every run a difference beyond the policy's ten-thousandths of a positive span, on one channel, drops a shadow or canary candidate on that tick |
| RolloutFrames.TickSends | crates/roz-copper/src/controller.rs:1875-2313 | from any state and for any input, the frames a tick sends, the e-stops it raises, whether an e-stop is left standing, and the width kept for the next safe stop, exactly, in terms of the two controllers' results |
| RolloutFrames.EveryFrameHasASource | crates/roz-copper/src/controller.rs:2250-2268 | from any state a tick sends at most one frame: a zero frame, only if the watchdog fires, the active controller fails or none runs; the active controller's own command; or the blend, only if the candidate runs in canary |
| RolloutFrames.SafeStopCoversLastFrame | crates/roz-copper/src/controller.rs:922-925 | in every run a safe-stop frame is zero on every channel of the last frame sent and on at least six |
| RolloutFrames.ShadowReachesNoHardware | crates/roz-core/src/controller/deployment.rs:9-12 | outside canary, from any state, what is sent while the active controller runs is fixed by that controller and the watchdog; without a running active controller only zero frames are sent |
| RolloutFrames.CandidateDoesNotInterfere | crates/roz-core/src/controller/deployment.rs:11-12 | outside canary, exchanging the candidate and its output for any others changes no frame that is sent while the active controller runs |
| RolloutFrames.CanaryFrameEnvelope | crates/roz-copper/src/controller.rs:2089-2268 | from any state, on a canary tick with both controllers running and nothing stopping the robot, every frame is the active command, if the candidate is dropped, or has its width and on each channel is the candidate's value or exactly at the edge of the policy's ten-thousandths of the span around the active one, with the candidate under the divergence limit on every channel |
| RolloutFrames.ContributionIsLogged | crates/roz-copper/src/controller.rs:2166-2268 | a blended frame is logged directly after a record of the canary tick that holds both commands and whether it was clamped |
| RolloutFrames.CanaryFramesAddNoSpeed | crates/roz-copper/src/controller.rs:2166-2268 | between the frames of any two such canary ticks under the same spans, each channel moves by at most the larger of the moves of the active command and of the candidate's share; a candidate that is dropped counts as repeating the active command |
| RolloutProgress.RunTickProgress | crates/roz-copper/src/controller.rs:1875-2313 | a tick without commands keeps the counters in budget and brings an armed candidate that runs at least one tick closer to the end of its rollout |
| RolloutProgress.RolloutTerminates | crates/roz-copper/src/controller.rs:1522-1736 | from every reachable state an armed candidate has left the rollout once it has run 1 + S + (M + 1) N times without further commands, and canary once it has run (M + 1) N times |
| RolloutSafety.HaltSilencesTheLoop | crates/roz-copper/src/controller.rs:786-797 | from any state, after a Halt and until a Resume or a load, nothing is sent, raised, promoted or rejected, whatever else happens |
| RolloutSafety.WatchdogSilencesTheLoop | crates/roz-copper/src/controller.rs:893-938 | from any state, a tick on which the watchdog fires switches both controllers off and raises the e-stop, and until a Resume or a load nothing more is sent, raised, promoted or rejected |
| RolloutSafety.NoRolloutWithoutAuthority | crates/roz-copper/src/controller.rs:768-785 | under an execution-only or compatibility policy no run fills the active slot or moves a candidate past VerifiedOnly, and every frame is zero |
| RolloutSafety.EveryFrameWithinLimits | crates/roz-copper/src/controller.rs:2250-2268 | every frame ever sent, safe-stop, active or blended, respects the robot's velocity limits if the loaded profiles do |
| RolloutGuard.EveryFrameGuarded | crates/roz-copper/src/controller.rs:1914-2268 | from any state, on a tick where a joint's position is reported and the loaded filters know its range, no frame sent pushes it further towards a limit it is within the margin of, blended frames included, and the filters left in the slots still know the range |
| RolloutPlant.JointStaysInRange | crates/roz-copper/src/controller.rs:1875-2313 | over every run, through loads, promotions, blending, e-stops and rollbacks, a joint that starts in range, is truly reported, is moved by each tick's frame and stands still on a tick without one stays in range, if every loaded profile knows the range and one tick at its velocity limit fits in the margin |
| RolloutPlant.HeldJointStaysInRange | crates/roz-copper/src/controller.rs:1875-2313 | the same for a joint that keeps its last velocity on a tick without a frame, over every run in which such ticks occur only while it stands still |
| RolloutPlant.HaltKeepsRangeIffStill | crates/roz-copper/src/controller.rs:786-797 | from any state, a joint that keeps its last velocity stays in range through a halt of every length if and only if its velocity is zero when the halt begins |
| RolloutPlant.ZeroOutputIsSilent | crates/roz-copper/src/controller.rs:1024-1034 | with no candidate running, a tick on which the active controller asks for zero on every channel sends nothing |
| RolloutRollback.RunKeeps | crates/roz-copper/src/controller.rs:371-421 | in every reachable state a filled slot has a last-known-good artifact behind it, the lifecycle's last-known-good artifact, the id reported for it and its idea of the active controller are the ones the history of loads, promotions and rollbacks gives, and that idea matches the slots while all rollbacks were clean |
| RolloutRollback.RollbacksAreEarned | crates/roz-copper/src/controller.rs:393-421 | over any run successful rollbacks never exceed the promotions that displaced an active controller |
| RolloutRollback.RollbackRestoresEarlierActive | crates/roz-copper/src/controller.rs:1994-2047 | a hard failure with the rollback slot full and the lifecycle not terminal ends the tick with that controller running as active, the lifecycle Active on the artifact it kept, one zero frame sent and no e-stop |
| RolloutRollback.FailedRollbackStops | crates/roz-copper/src/controller.rs:2034-2045 | otherwise both controllers are gone, nothing runs, the lifecycle is left alone, one zero frame is sent and the e-stop is raised |
| RolloutRollback.DroppedCandidateSettles | crates/roz-copper/src/controller.rs:1353-1401 | on every tick of every run that drops a candidate while nothing stops the robot: with an active controller running, or one in the slot when evidence was refused, the lifecycle is Active again on the artifact it kept; otherwise it stays on the dropped one, Rejected from VerifiedOnly or Shadow and RolledBack from Canary or Active; no evidence is pending and the slots stay |
| RolloutRollback.SlotAndLifecycleAgree | crates/roz-copper/src/controller.rs:411-419 | at every rollback of every run the lifecycle puts back the artifact it took to be active at the last load, and the slot takes the controller last displaced, so the two agree if and only if these are the same artifact, which the history before the rollback decides |
| RolloutRollback.CleanRollbackAgrees | crates/roz-copper/src/controller.rs:411-419 | after clean rollbacks only, the slot and the lifecycle restore the same artifact if and only if nothing was loaded since the failed controller's promotion or the two artifacts are equal; after a load the lifecycle reinstates the failed one |
| RolloutWitness.SlotAndLifecycleCanPart | crates/roz-copper/src/controller.rs:411-419 | a run of five ticks in which the slot runs one controller while the lifecycle and the report name another |
| RolloutWitness.SlotAndLifecycleStayApart | crates/roz-copper/src/controller.rs:411-419 | a run of eight ticks whose second rollback disagrees although nothing was loaded since the failed controller's promotion |
| RolloutWitness.RollbackSlotCanBeLost | crates/roz-copper/src/controller.rs:2034-2045 | a run of six ticks that reaches a full rollback slot with a terminal lifecycle, and then loses both controllers and stops |
| RolloutWitness.HaltCanLoseTheJoint | crates/roz-copper/src/controller.rs:786-797 | a run of two ticks with a suitable profile after which a halt takes such a joint out of range |
| Context.SplitPreservingPairs | crates/roz-agent/src/context.rs:191-235 | the greedy backward loop splits the messages at the point where the walk stops |
| Context.ContextManager.ResultPositions | crates/roz-agent/src/context.rs:78-86 | all tool results, each at the index equal to its rank in reading order |
| Context.ContextManager.ClearToolResults | crates/roz-agent/src/context.rs:77-101 | exactly the tool results followed by at least the kept number of others become placeholders |
| Context.ContextManager.ClearThinking | crates/roz-agent/src/context.rs:109-132 | exactly the older assistant turns lose their thinking parts |
| Context.ContextManager.Summarize | crates/roz-agent/src/context.rs:142-179 | the system message, the summary and the recent suffix, or no change |
| Context.ContextManager.CompactEscalating | crates/roz-agent/src/context.rs:263-328 | the three levels in order, with exactly one event for each level that fired, so that the events account for every change of the message and token counts |
| ContextProofs.SplitIsLongestSafeSuffix | crates/roz-agent/src/context.rs:181-235 | without chained pairs a split point is the code's if and only if its suffix fits the budget, cuts no pair and is the longest such |
| ContextProofs.SplitNeverCutsIffUnchained | crates/roz-agent/src/context.rs:188-190 | no budget makes the split cut a pair if and only if no message both answers a tool call and makes the next one |
| ContextProofs.CompactionKeepsPairing | crates/roz-agent/src/context.rs:263-328 | if every tool result answers the assistant turn just before it and no message both answers a tool call and makes the next one, then both hold of the output, whichever levels fire and whatever the model answers; levels 1 and 2 keep the message count, and the leading system message is kept |
| ContextProofs.AlwaysPairedIffUnchained | crates/roz-agent/src/context.rs:188-328 | compacting a well-paired conversation leaves it well paired for all budgets, thresholds and model answers if and only if it has no message that both answers a tool call and makes the next one, or does not start with a system message |
| ContextProofs.SummaryFitsBudget | crates/roz-agent/src/context.rs:142-179 | after level 3 the estimate is at most that of the system message and the summary plus a quarter of the budget |
| ContextProofs.SummaryKeepsMostRecent | crates/roz-agent/src/context.rs:142-179 | unless pairs are chained, what level 3 keeps of the rest is the longest suffix that cuts no pair and fits in a quarter of the budget, and the summary ends with the model's text |
| ContextProofs.ClearedIffEnoughFollow | crates/roz-agent/src/context.rs:77-101 | a tool result becomes its placeholder if and only if at least the kept number of others come after it; everything else stays |
| ContextProofs.StrippedIffEnoughFollow | crates/roz-agent/src/context.rs:109-132 | an assistant turn loses its thinking if and only if at least the kept number of later turns hold some; every other message stays |
| ContextProofs.ThinkingPartsGo | crates/roz-agent/src/context.rs:120-131 | losing thinking drops the thinking parts and keeps the others in order |
| ContextProofs.DefaultLevels | crates/roz-agent/src/context.rs:35-45 | a new manager acts above 50, 65 and 85 percent of its budget, each measured after the level before, and keeps five results and two turns of thinking |
| ContextProofs.EstimateIsQuarter | crates/roz-agent/src/model/types.rs:188-208 | a message costs a quarter of its written length, counted in 32 bits, and at least one token |
| ContextProofs.ClearingGrowsIffShort | crates/roz-agent/src/context.rs:95-99 | a cleared tool result of any length is longer than before exactly when its content had fewer than 20 characters |
| ContextProofs.ClearedTellsItsSize | crates/roz-agent/src/context.rs:95-99 | a placeholder keeps the call id, name and error flag and tells in digits a quarter of the length that was cleared |

## Left out

- WASM execution, component loading, digests and embodiment projection: a tick is an arbitrary outcome and a digest an opaque string.
- `SafetyFilterTask`, the older filter: the same stages as the hot path without audit records; it would repeat the proofs of `SafetyFilterProofs`.
- The workspace envelope, jerk limit and torque limit of a joint: stored by the filter and never read by it.
- Rounding, overflow and subnormal effects of `f64`: reals stand for finite values; an acceleration that overflows to infinity is not modelled.
- SafetyFilter.CheckForce: a force record holds the square of the measured magnitude, because reals have no square root.
- Latency percentiles and the square root in the jitter figure: order statistics and a root of the proved second moment.
- `record_channel_touched`, epoch interrupts, watchdog near misses and config reads: never called by the loop.
- Published state, lifecycle annotations, JSON output, evidence summaries, timestamps and log lines: no effect on what the loop does.
- Threads, channels, sleeping and wall-clock time: the command stream is an input and the watchdog's elapsed-time test is a flag per tick.
- The final drain and slot finalization after shutdown: nothing is sent afterwards.
- `UpdateParams`: it changes only the configuration a WASM module reads.
- RolloutLoop.ControllerLoop.Tick: controllers are values in their slots, so replacing one in place and dropping it are not distinguished.
- The text a model writes, and the prompt it is given: any string may come back.
- Network, RPC, file formats, CLI and configuration: not part of this model.
