# Verified models of the p2pstream control core

This project models, in Dafny 4.11, the parts of p2pstream whose correctness rests on
state that many goroutines or many transactions share, and proves what they keep.

* **Stream capacity** (`AdmissionLimit`, `LeaseAccounting`, `WaiterRing`, `StreamCapacity`,
  `ExternalLedger`, `CapacityDispatch`, `CapacityRuns`, `RoundRobin`, `CapacityExact`, `CapacityWitness`,
  `CapacityStated`, `CapacityCalls`, `StreamCapacityManager`): the server's admission manager.  The state is a value; every
  critical section is a step on it; theorems are about every run of steps.  The class
  `Manager` carries out the same steps in place, loop by loop, and each method is proved
  to be its step followed by dispatch.
* **Managed updates** (`UpdateRow`, `UpdateCohorts`, `UpdateReport`, `UpdateSystem`,
  `UpdateSafety`, `UpdateRuns`, `UpdateHistory`, `UpdateWitness`): campaigns, assignments and enrolled
  identities.  Rows are values and every guarded UPDATE is a step with its WHERE clause; the
  checks the handlers make before an update are the step's guard.  A step whose checks fail
  changes nothing.  Histories interleave administrators, updaters, tunnels and the maintenance
  loop in any order, under a server clock that may stand still but does not go back.
* **Agent ledger** (`AgentLedger`, `AgentRuntime`): the agent's charge for streams, prepaid
  control slots and receive memory.
* **Transport pool** (`TransportClaims`, `TransportPool`): bounded retention of pooled
  transports, the round trips claimed on them and the tracked response bodies that end those.
* **Signing records** (`SigningRecord`, `UpdatePayloads`), the **rate limiter**
  (`RateLimiter`, `RateCondition`), the **lane supervisor** (`LaneSupervisor`), the **batched event inserter**
  (`EventInserter`) and the **base64url encoder** (`Base64Url`).
* `Optional`, `Division` and `Widths` hold an option type, two facts about division and the
  integer widths of the source.

Conventions.  Pointers to leases, waiters, entries, claims and reservations are numbers that
are never reused; a `sync.Once` release is a number that leaves its map, except that of a
response body, which is a flag.  Contexts, clocks,
resource samples, live tunnels and signature verdicts are arguments or free choices (`*`).
Go maps are visited in any order.  `Run` in each part is the set of all interleavings.

Four properties hold only under a hypothesis.  Each has a run in which it fails, and the
condition under which it holds:

* Lowering a session's limit keeps usage within the negotiated limits if and only if the
  clamped limit covers its live usage (`CapacityRuns.RegisterWithinIffCovers`; a failing run is
  `CapacityWitness.LoweredBelowUsage`).
* A reservation keeps the external ledger exact if and only if no addition saturates
  (`ExternalLedger.ReserveExactIffFits`).  The guard of a reservation lets a saturating one
  through only under a snapshot whose memory or descriptor slots, times their charge, reach
  2^63 - 1, or which charges no descriptors without knowing a descriptor limit
  (`CapacityExact.GuardKeepsInRange`).  A sample is cut back to its headroom, so, with a role and
  a headroom below 2^63 - 1, only an unknown descriptor limit can come from sampling
  (`CapacityExact.CutIsHarmless`);
  `CapacityWitness.SaturationBreaksTheLedger` is a run with such a sample, and over every run
  whose samples know the limit or fail closed the ledger is exact
  (`CapacityExact.EverySampledRunIsExact`).
* The rate bound is about calls that take the limiter's lock in the order in which they read the
  clock.  It then holds for a limiter if and only if its burst is at most the limit or, in a table
  of one entry, at most twice the limit (`RateCondition.BoundedIffSuits`).  Callers read the clock
  before the lock, and a call that comes late can make the table forget a key too early
  (`RateCondition.LateCallBreaksTheBound`).
* A waiting key that is ahead of another in the scan order stays ahead until it is attended to, if
  and only if the other never joins the ring while the first stands before the cursor
  (`RoundRobin.AheadIffNeverOvertaken`).  Under that condition nobody is served twice first
  (`RoundRobin.NobodyServedTwiceFirst`); `CapacityWitness.RejoiningKeyOvertakes` is a run in which
  a key leaves, comes back at such a moment, and is served again first.

Where comment and code differ the code is modelled.  `acquire` and `tryAcquire` guard against
queued work that could run; `CapacityCalls.NobodyCompetes` shows that guard never fires once no
sample is in flight, because dispatch has already served such work.

## Model

| member | source | states |
|---|---|---|
| AdmissionLimit.LimitNeverRises | internal/sysmetrics/memory_pressure.go:205-251 | the live limit never rises when external bytes or descriptors rise, overdraft included |
| LeaseAccounting.EmptyAccounted | internal/server/agent_stream_capacity.go:327-344 | a new manager's counters count its leases |
| LeaseAccounting.GrantAccounted | internal/server/agent_stream_capacity.go:966-1001 | a grant keeps every counter equal to the number of leases it stands for |
| LeaseAccounting.AdvanceAccounted | internal/server/agent_stream_capacity.go:1131-1174 | moving a lease to live or closing keeps every counter exact and gives up the opening slot once |
| LeaseAccounting.ReleaseAccounted | internal/server/agent_stream_capacity.go:1176-1208 | a release takes a lease out of every counter it was in |
| LeaseAccounting.UsageSplits | internal/server/agent_stream_capacity.go:1565-1740 | total is public plus control and pooled is part of public, in terms of the leases |
| LeaseAccounting.SessionNesting | internal/server/agent_stream_capacity.go:1565-1740 | a session's public openings are within its openings and its public use, and those within its total |
| LeaseAccounting.SessionSum | internal/server/agent_stream_capacity.go:1565-1740 | each per-session map adds up to the number of leases of its kind |
| LeaseAccounting.PhaseSums | internal/server/agent_stream_capacity.go:1565-1740 | phase counters add up to the class counters, and openings across classes to the opening map |
| WaiterRing.EnqueueWellFormed | internal/server/agent_stream_capacity.go:1003-1009 | joining a queue keeps queues, ring and cursor consistent |
| WaiterRing.EnqueueBounded | internal/server/agent_stream_capacity.go:543-575 | a waiter admitted under the limits keeps the public, control and per-key bounds |
| WaiterRing.WithdrawWellFormed | internal/server/agent_stream_capacity.go:1105-1129 | a waiter leaving anywhere in the ring keeps it consistent, with the cursor shifted when needed |
| WaiterRing.PopWellFormed | internal/server/agent_stream_capacity.go:1069-1103 | a waiter taken by the scan keeps the ring consistent |
| WaiterRing.QueuesHoldTheCount | internal/server/agent_stream_capacity.go:1565-1740 | the waiter count is the sum of the queue lengths over the ring |
| WaiterRing.PopRotation | internal/server/agent_stream_capacity.go:1069-1103 | in scan order, a served key goes last or leaves and a key with a dropped waiter stays first or leaves |
| WaiterRing.RemoveKeyRotation | internal/server/agent_stream_capacity.go:1089-1103 | removing a key takes it out of the scan order and changes nothing else in it |
| StreamCapacity.DefaultConfigValidates | internal/server/agent_stream_capacity_runtime.go:15-70 | for every requested total the default partition validates, leaves one-shot headroom and bounds the control reserve |
| StreamCapacity.GrantableIffOnlyTurnBlocks | internal/server/agent_stream_capacity.go:724-801 | in every state a request can be granted exactly when its reported constraint is "wait turn" |
| StreamCapacity.GrantValid | internal/server/agent_stream_capacity.go:966-1001 | a permitted grant keeps the full invariant and the negotiated limits |
| StreamCapacity.ReleaseValid | internal/server/agent_stream_capacity.go:1176-1208 | a release keeps the full invariant and the negotiated limits |
| StreamCapacity.AdvanceValid | internal/server/agent_stream_capacity.go:1131-1174 | a lease transition keeps the full invariant and the negotiated limits |
| ExternalLedger.ReserveWellFormed | internal/server/agent_stream_capacity.go:1374-1408 | a reservation keeps the ledger non-negative, within 64 bits and nowhere smaller |
| ExternalLedger.UnreserveWellFormed | internal/server/agent_stream_capacity.go:1410-1441 | a release keeps it so and nowhere larger |
| ExternalLedger.ReserveExactIffFits | internal/server/agent_stream_capacity.go:1391-1407 | total and per-owner accounts stay the sums of what is held if and only if no 64-bit addition saturates |
| ExternalLedger.UnreserveExact | internal/server/agent_stream_capacity.go:1410-1441 | returning a held reservation keeps an exact ledger exact, so its clamps at zero never act |
| ExternalLedger.ReserveThenRelease | internal/server/agent_stream_capacity.go:1374-1443 | reserving and then releasing restores every account |
| CapacityDispatch.DispatchStepValid | internal/server/agent_stream_capacity.go:1011-1067 | one serving or dropping step of dispatch keeps the full invariant and settles exactly one waiter |
| CapacityDispatch.DispatchRunValid | internal/server/agent_stream_capacity.go:1011-1067 | any number of such steps keeps the invariant and each uses up a waiter, so dispatch terminates |
| CapacityDispatch.DirectGrantOvertakesNobody | internal/server/agent_stream_capacity.go:537-541 | when no waiter can run, a direct grant passes nobody who could, and leaves nobody who can |
| CapacityDispatch.MoreUsedStaysQuiet | internal/server/agent_stream_capacity.go:724-748 | more usage or a lower limit never makes a waiter that could not run able to |
| CapacityDispatch.ScanOrder | internal/server/agent_stream_capacity.go:1018-1062 | a dispatch step visits keys in cyclic order from the cursor, every key before the one it stops at having nothing grantable, and leaves the order as the round robin demands |
| RoundRobin.StepOrder | internal/server/agent_stream_capacity.go:1003-1129 | a step other than a scan leaves the scan order alone, takes one key out of it, or puts a new key into it |
| RoundRobin.LeadSurvives | internal/server/agent_stream_capacity.go:1003-1129 | a step keeps a key ahead of another unless it serves it, visits it in vain, or one of them leaves |
| RoundRobin.JoinOrder | internal/server/agent_stream_capacity.go:1003-1009 | a key that joins goes behind the keys still to be visited and ahead of those before the cursor |
| RoundRobin.StaysAheadIff | internal/server/agent_stream_capacity.go:1003-1129 | one step leaves an unattended key ahead of another exactly if it does not let the other overtake, by joining while the first stands before the cursor |
| RoundRobin.AheadIffNeverOvertaken | internal/server/agent_stream_capacity.go:1003-1129 | over every stretch of a run in which a key waits unattended, it stays ahead exactly if no step lets the other overtake |
| RoundRobin.NobodyServedTwiceFirst | internal/server/agent_stream_capacity.go:1003-1129 | in every run, between two grants to a key every other waiting key is served, or visited with nothing grantable, or leaves, unless the served key rejoins while the other stands before the cursor |
| CapacityWitness.RejoiningKeyOvertakes | internal/server/agent_stream_capacity.go:1003-1103 | a run in which a key that left the ring and came back is served twice while another waits unvisited |
| CapacityRuns.ApplySound | internal/server/agent_stream_capacity.go:346-1443 | every critical section keeps the full invariant |
| CapacityRuns.EveryRunIsSound | internal/server/agent_stream_capacity.go:327-1443 | from the default configuration of any total, the invariant holds after every run |
| CapacityRuns.RegisterWithinIffCovers | internal/server/agent_stream_capacity.go:1318-1333 | registering a limit keeps usage within negotiated limits exactly when the clamped limit covers live usage |
| CapacityWitness.LoweredBelowUsage | internal/server/agent_stream_capacity.go:1318-1333 | a run in which a session with two leases is registered with a limit of one |
| CapacityRuns.ApplyWithinNegotiated | internal/server/agent_stream_capacity.go:1318-1344 | every other step, and a covering registration, keeps usage within negotiated limits |
| CapacityRuns.ApplyLedgerExact | internal/server/agent_stream_capacity.go:1374-1443 | a step keeps the external ledger exact exactly when its additions fit |
| CapacityRuns.EveryCarefulRunIsExact | internal/server/agent_stream_capacity.go:1565-1740 | runs with covering registrations and fitting reservations keep the whole stated invariant |
| CapacityExact.GuardKeepsInRange | internal/server/agent_stream_capacity.go:1374-1407 | under a snapshot of realistic size the guard refuses every reservation that would saturate an account |
| CapacityExact.CutIsModest | internal/server/agent_stream_capacity.go:424-435 | cutting a sample back to its headroom offers no more than the sample did |
| CapacityExact.CutIsHarmless | internal/server/agent_stream_capacity.go:424-435 | after the cut a sample that knows its descriptor limit never lets an account saturate, whatever slots it claims |
| CapacityExact.EveryModestRunIsExact | internal/server/agent_stream_capacity.go:1565-1740 | if every snapshot in force is of realistic size or refuses reservations, and registrations cover usage, the whole stated invariant holds over every run |
| CapacityExact.EverySampledRunIsExact | internal/server/agent_stream_capacity.go:366-455 | so it does over every run whose samples know the descriptor limit or fail closed |
| CapacityWitness.SaturationBreaksTheLedger | internal/server/agent_stream_capacity.go:1374-1453 | a run with a sample that knows no descriptor limit, in which the guard admits a descriptor the saturated ledger cannot count |
| CapacityRuns.ReserveLeavesRoom | internal/server/agent_stream_capacity.go:1374-1407 | an admitted reservation leaves a limit that covers everything in use and the health streams owed |
| CapacityRuns.ApplyNoOvercommit | internal/server/agent_stream_capacity.go:724-840 | no step between two publications exceeds the effective or the public limit |
| CapacityRuns.OvercommitNeverGrows | internal/server/agent_stream_capacity.go:724-1443 | until the next publication usage exceeds neither the limit nor what it was at the last one, whichever is larger |
| CapacityRuns.NoOvercommitBetweenPublications | internal/server/agent_stream_capacity.go:724-1443 | no interleaving of grants, releases, reservations and returns overcommits until the next publication |
| CapacityRuns.HealthIsNeverSqueezed | internal/server/agent_stream_capacity.go:750-832 | below the protected reserve a health stream never meets resource pressure, and below its budget never a full total |
| CapacityStated.SelfCheckNeverFails | internal/server/agent_stream_capacity.go:1565-1740 | every clause of the manager's own self-check follows from the proved invariant |
| CapacityCalls.SteppedIsRun | internal/server/agent_stream_capacity.go:509-1443 | a call is its own step followed by dispatch steps, a run of the step machine |
| CapacityCalls.StepKeeps | internal/server/agent_stream_capacity.go:1011-1067 | dispatch changes no finished waiter's result and ends no lease |
| CapacityCalls.AllStuckIsQuiet | internal/server/agent_stream_capacity.go:1016-1066 | a whole fruitless turn of the ring means no waiter anywhere can run |
| CapacityCalls.NobodyCompetes | internal/server/agent_stream_capacity.go:691-709 | with no sample in flight no queued waiter could run, so the competing-waiter check never refuses |
| StreamCapacityManager.Manager.constructor | internal/server/agent_stream_capacity.go:327-344 | a new manager is the initial state and settled |
| StreamCapacityManager.Manager.GrantLocked | internal/server/agent_stream_capacity.go:966-1001 | performs the grant step and names the new lease |
| StreamCapacityManager.Manager.EnqueueLocked | internal/server/agent_stream_capacity.go:1003-1009 | performs the enqueue step |
| StreamCapacityManager.Manager.RemoveQueueKeyAtLocked | internal/server/agent_stream_capacity.go:1089-1103 | removes a key and repairs the cursor |
| StreamCapacityManager.Manager.PopQueueEntryLocked | internal/server/agent_stream_capacity.go:1069-1087 | takes one waiter out and places the cursor |
| StreamCapacityManager.Manager.ScanQueueLocked | internal/server/agent_stream_capacity.go:1021-1056 | either one dispatch step is taken at this key or nothing changed and nobody in its queue can run |
| StreamCapacityManager.Manager.ScanRingLocked | internal/server/agent_stream_capacity.go:1016-1065 | either one dispatch step, or nobody can run and the cursor is back |
| StreamCapacityManager.Manager.DispatchLocked | internal/server/agent_stream_capacity.go:1011-1067 | terminates; afterwards nobody queued can run unless a sample is in flight, and only dispatch steps were taken |
| StreamCapacityManager.Manager.WaiterCountForClassLocked | internal/server/agent_stream_capacity.go:679-689 | counts exactly the queued waiters of a class |
| StreamCapacityManager.Manager.HasCompetingWaiterLocked | internal/server/agent_stream_capacity.go:691-709 | true exactly if a queued waiter on the same side of the public/health split could run |
| StreamCapacityManager.Manager.AdmitLocked | internal/server/agent_stream_capacity.go:539-576 | grants, queues or refuses, each exactly when the limits say so, with the right reason for a refusal |
| StreamCapacityManager.Manager.Acquire | internal/server/agent_stream_capacity.go:509-577 | the full decision of acquire up to queueing, error cases included |
| StreamCapacityManager.Manager.TryAcquire | internal/server/agent_stream_capacity.go:638-677 | grants exactly when possible and otherwise reports the true constraint, changing nothing |
| StreamCapacityManager.Manager.ReleaseSessionOpeningLocked | internal/server/agent_stream_capacity.go:1219-1235 | gives up one opening slot |
| StreamCapacityManager.Manager.MarkLive | internal/server/agent_stream_capacity.go:1131-1148 | succeeds exactly on an opening lease and then dispatches |
| StreamCapacityManager.Manager.MarkClosing | internal/server/agent_stream_capacity.go:1150-1174 | succeeds exactly on an opening or live lease and then dispatches |
| StreamCapacityManager.Manager.ReleaseLocked | internal/server/agent_stream_capacity.go:1184-1205 | performs the release step |
| StreamCapacityManager.Manager.ReleaseLease | internal/server/agent_stream_capacity.go:1176-1208 | releases a lease exactly once |
| StreamCapacityManager.Manager.RemoveWaiterLocked | internal/server/agent_stream_capacity.go:1105-1129 | removes exactly the given waiter |
| StreamCapacityManager.Manager.Collect | internal/server/agent_stream_capacity.go:579-590 | a woken waiter takes its lease or error; one canceled meanwhile gives its lease back, as a release step followed by dispatch and nothing else |
| StreamCapacityManager.Manager.Abandon | internal/server/agent_stream_capacity.go:591-630 | a waiter that gives up withdraws its own queue entry or gives its lease back, followed by dispatch and nothing else |
| StreamCapacityManager.Manager.Register | internal/server/agent_stream_capacity.go:1318-1333 | clamps and stores the limit, then dispatches |
| StreamCapacityManager.Manager.Unregister | internal/server/agent_stream_capacity.go:1335-1344 | forgets the session, then dispatches |
| StreamCapacityManager.Manager.EnableAdaptive | internal/server/agent_stream_capacity.go:346-364 | a new controller starts closed with no sample in flight |
| StreamCapacityManager.Manager.BeginSample | internal/server/agent_stream_capacity.go:366-400 | when a sample is taken and counted |
| StreamCapacityManager.Manager.EndSample | internal/server/agent_stream_capacity.go:415-447 | a sampler of a replaced controller changes nothing; otherwise the newer sample is cut to its headroom, published and dispatched |
| StreamCapacityManager.Manager.Publish | internal/server/agent_stream_capacity.go:467-480 | an older generation is not published |
| StreamCapacityManager.Manager.TryReserve | internal/server/agent_stream_capacity.go:1374-1408 | reserves exactly when the limit left covers usage and the owed control reserve |
| StreamCapacityManager.Manager.Unreserve | internal/server/agent_stream_capacity.go:1410-1441 | returns a reservation exactly once, then dispatches |
| UpdateRow.AdminKeeps | internal/server/agent_updates.go:608-791 | pause, resume, cancel and retry keep a row's invariants, raise no fence, start nothing, and lower no fence that must stay |
| UpdateRow.DrainKeeps | internal/server/agent_updates.go:1485-1527 | so do authorizing, reauthorizing, losing route quorum and the drain, stage and root-action timeouts |
| UpdateRow.EvidenceKeeps | internal/server/agent_updates.go:2373-2443 | so do a fresh tunnel and the evidence timeout |
| UpdateRow.FenceRaises | internal/server/agent_updates.go:2018-2025 | only a staged row is fenced, reversibly |
| UpdateRow.ReleaseStarts | internal/server/agent_updates.go:2587-2602 | releasing starts only a waiting row |
| UpdateRow.CompletionEarned | internal/server/agent_updates.go:2466-2500 | a row succeeds only with an activate receipt of the exact target, later health and tunnel evidence, and a full dwell after both |
| UpdateRow.RecoveryEarned | internal/server/agent_updates.go:2445-2464 | a rollback is final only with a verified rollback receipt and a later live tunnel on the reported build |
| UpdateCohorts.PlanPartitions | internal/server/agent_updates.go:2200-2217 | canaries and waves partition the rows in order |
| UpdateCohorts.CohortInPlan | internal/server/agent_updates.go:2200-2217 | the direct computation finds each row's cohort of that partition |
| UpdateCohorts.CohortsAgree | internal/server/agent_updates.go:2176-2235 | two rows share a cohort or their cohorts are disjoint and ordered |
| UpdateCohorts.CohortEligible | internal/server/agent_updates.go:2176-2235 | eligible exactly if earlier cohorts succeeded and the own cohort is staged; failed exactly if the first obstacle ended badly |
| UpdateCohorts.ScanCohort | internal/server/agent_updates.go:2218-2234 | the two scanning loops decide readiness and failure |
| UpdateCohorts.NextSpan | internal/server/agent_updates.go:2557-2582 | finds the cohort of the first row that has not succeeded |
| UpdateCohorts.ReleaseNextCohort | internal/server/agent_updates.go:2515-2604 | tells exactly the waiting rows of that cohort to stage |
| UpdateCohorts.ReleaseSpanFits | internal/server/agent_updates.go:2557-2587 | all rows before the released cohort have succeeded, so the source's check of them never stops it |
| UpdateCohorts.EligibleIsReleased | internal/server/agent_updates.go:2176-2604 | a row that may be fenced is in exactly the cohort the release computation names |
| UpdateReport.AppliedKeeps | internal/server/agent_updates.go:904-1216 | an accepted report keeps the row's invariants, moves no fence, and brings a root counter above the last |
| UpdateReport.IssuedIsCanonical | internal/server/agent_update_records.go:82-137 | a command just issued is the canonical authorization of its row, with the next sequence number |
| UpdateSafety.SafeChange | internal/server/agent_updates.go:608-2513 | every row update keeps the invariants and lowers a committed fence only with proof |
| UpdateSafety.FenceRow | internal/server/agent_updates.go:1996-2025 | fencing under the guard keeps the unavailability bound |
| UpdateSafety.ReleaseRows | internal/server/agent_updates.go:2515-2604 | releasing a cohort keeps the cohort order |
| UpdateSafety.NewCampaignOk | internal/server/agent_updates.go:435-507 | a new campaign satisfies every invariant |
| UpdateRuns.ChangeStateNext | internal/server/agent_updates.go:608-716 | pause, resume and cancel of a campaign are safe |
| UpdateRuns.RetryNext | internal/server/agent_updates.go:718-807 | retrying rows is safe |
| UpdateRuns.AdvanceNext | internal/server/agent_updates.go:1976-2032 | advancing a staged row is safe |
| UpdateRuns.AuthorizeNext | internal/server/agent_update_records.go:82-194 | issuing or reissuing a command is safe |
| UpdateRuns.ReceiveNext | internal/server/agent_updates.go:904-1256 | receiving any report is safe |
| UpdateRuns.StepSafe | internal/server/agent_updates.go:238-2604 | every transaction keeps every invariant of every campaign and evolves every row safely |
| UpdateRuns.EveryRunIsSafe | internal/server/agent_updates.go:238-2604 | the invariants hold after every history |
| UpdateHistory.Reachable | internal/server/agent_updates.go:1996-2023 | in every reachable state at most MaxUnavailable rows are fenced, post-action rows are fenced, fresh tunnels follow their receipt, successes have their evidence, and cohorts are in order |
| UpdateHistory.FencesShareACohort | internal/server/agent_updates.go:1996-2235 | all fenced rows of a campaign are in one cohort |
| UpdateHistory.SucceededForever | internal/server/agent_updates.go:2492-2497 | a succeeded row never changes again and no row disappears |
| UpdateHistory.FenceSafety | internal/server/agent_updates.go:639-2513 | once a privileged command is out for a row it stays fenced until success or rollback is proved, through any history |
| UpdateHistory.ReplayChangesNothing | internal/server/agent_updates.go:954-1256 | a report whose counter is not new changes nothing on any path |
| UpdateHistory.OtherGenerationMovesCounterOnly | internal/server/agent_updates.go:1224-1256 | a report about another row or generation moves the counter at most |
| UpdateHistory.NewCommandIsNext | internal/server/agent_update_records.go:98-136 | a stored command carries its agent's next sequence number and the action the row asks for |
| UpdateHistory.NewReceiptIsNewer | internal/server/agent_update_records.go:353-365 | an accepted receipt raises the agent's root counter to its own |
| UpdateHistory.FloorsHold | internal/server/agent_updates.go:1806-1815 | no replay floor falls except by re-enrolling its agent |
| UpdateHistory.ReenrollKeepsFloors | internal/server/agent_updates.go:340 | re-enrolling keeps each floor whose key stays, and is refused while a row is active |
| UpdateHistory.CommandsIncrease | internal/server/agent_update_records.go:98-136 | between re-enrollments later commands of an agent carry larger sequence numbers |
| UpdateHistory.ReceiptsIncrease | internal/server/agent_update_records.go:353-365 | between re-enrollments later accepted receipts carry larger counters |
| UpdateWitness.SuccessIsReachable | internal/server/agent_updates.go:238-2513 | there is a history from an empty server in which a command is issued and the row succeeds with all its evidence, so the guards can be met together |
| AgentLedger.ApplyValid | internal/agent/adaptive_capacity.go:98-456 | every operation keeps each account and count equal to the sum over what is not released |
| AgentLedger.EveryRunIsValid | internal/agent/adaptive_capacity.go:82-456 | so does every run from a new runtime |
| AgentLedger.Covered | internal/agent/adaptive_capacity.go:107-113 | control streams fit the prepaid slots, streams in use fit the charged admissions, session bytes are the five accounts, nothing is negative or overflows |
| AgentLedger.ApplyWithin | internal/agent/adaptive_capacity.go:149-182 | under one sample no operation charges more than the sampled limit |
| AgentLedger.OneSampleIsNeverExceeded | internal/agent/adaptive_capacity.go:149-560 | nor does any run under one sample |
| AgentLedger.FirstSampleIsNeverExceeded | internal/agent/adaptive_capacity.go:149-560 | nor does any run from the start before a second sample |
| AgentRuntime.Runtime.constructor | internal/agent/adaptive_capacity.go:82-96 | a new runtime is an empty, valid ledger |
| AgentRuntime.Runtime.SetMaximum | internal/agent/adaptive_capacity.go:98-105 | clamps and stores the ceiling |
| AgentRuntime.Runtime.TryReserveSession | internal/agent/adaptive_capacity.go:149-182 | prepays a control session exactly when bytes, slots and sample allow, else changes nothing |
| AgentRuntime.Runtime.Activate | internal/agent/adaptive_capacity.go:187-208 | shrinks an idle session's promise and nothing else |
| AgentRuntime.Runtime.ReleaseSession | internal/agent/adaptive_capacity.go:242-262 | returns an idle session's promise once |
| AgentRuntime.Runtime.TryOpenControl | internal/agent/adaptive_capacity.go:210-222 | opens a control stream exactly within slots and ceilings |
| AgentRuntime.Runtime.CloseControl | internal/agent/adaptive_capacity.go:223-239 | closes it once |
| AgentRuntime.Runtime.TryOwn | internal/agent/adaptive_capacity.go:280-328 | books receive memory to its owner exactly when the sample allows |
| AgentRuntime.Runtime.Disown | internal/agent/adaptive_capacity.go:329-355 | returns it once |
| AgentRuntime.Runtime.TryOwnPair | internal/agent/adaptive_capacity.go:366-377 | books pool and metadata together or leaves every account as it was |
| AgentRuntime.Runtime.TryOpen | internal/agent/adaptive_capacity.go:415-438 | opens an ordinary stream exactly under the structural and sampled limits |
| AgentRuntime.Runtime.Close | internal/agent/adaptive_capacity.go:439-450 | closes it once |
| TransportClaims.RetiredValid | internal/server/agent_transport_pool.go:411-423 | retiring keeps draining exact and never adds to what is retained |
| TransportClaims.AddedValid | internal/server/agent_transport_pool.go:274-286 | adding under the limit keeps the bound |
| TransportClaims.ClaimedValid | internal/server/agent_transport_pool.go:437-451 | a claim on a live entry keeps the counts exact |
| TransportClaims.TripStepEnds | internal/server/agent_transport_pool.go:454-546 | an event makes the call that takes one off the count exactly when the round trip stops being outstanding, and a finished round trip stays where it is |
| TransportClaims.AdvancedValid | internal/server/agent_transport_pool.go:454-546 | any event of a round trip, ending it or not, keeps every count exact and ends draining with the last |
| TransportClaims.SecondDoneMiscounts | internal/server/agent_transport_pool.go:482-504 | a further call while claims are outstanding would make the count wrong |
| TransportClaims.EveryRunIsSound | internal/server/agent_transport_pool.go:244-505 | in every run live plus draining entries are within the limit and every entry counts its claims |
| TransportClaims.RetiredForGood | internal/server/agent_transport_pool.go:433-451 | a retired entry stays retired and never gains a claim |
| TransportClaims.FinishedForGood | internal/server/agent_transport_pool.go:513-546 | a finished round trip stays finished and returns nothing more |
| TransportClaims.ReturnedAtMostOnce | internal/server/agent_transport_pool.go:454-546 | in every run each claim is returned at most once, by whatever errors, ends of file, closes and failed writes in whatever order |
| TransportClaims.OutstandingUntilEnded | internal/server/agent_transport_pool.go:454-546 | until something ends a round trip its claim is outstanding |
| TransportClaims.FirstEndDecides | internal/server/agent_transport_pool.go:454-546 | the first end returns the claim with its own verdict on reuse; later events of that round trip change nothing |
| TransportClaims.ClaimsAreHeld | internal/server/agent_transport_pool.go:615-633 | live and draining entries hold every outstanding claim |
| TransportPool.TransportPool.RetireLocked | internal/server/agent_transport_pool.go:411-423 | performs the retire step |
| TransportPool.TransportPool.OldestIdle | internal/server/agent_transport_pool.go:306-318 | finds a least recently used entry without claims, and none exactly if every entry is in use |
| TransportPool.TransportPool.Evict | internal/server/agent_transport_pool.go:261-269 | a full pool gives up its least recently used idle entry and no other; a pool with room, or with every entry in use, is left as it was |
| TransportPool.TransportPool.InitializeLimitLocked | internal/server/agent_transport_pool.go:291-300 | sets the limit the first time only |
| TransportPool.TransportPool.PrepareLocked | internal/server/agent_transport_pool.go:250-260 | retires a stale entry of the key and reads the limit once |
| TransportPool.TransportPool.GetOrCreate | internal/server/agent_transport_pool.go:244-289 | hands back the live entry of the key and agent unchanged; otherwise retires a stale one, reads the limit once, evicts, and adds a new entry if and only if there is room |
| TransportPool.TransportPool.Claim | internal/server/agent_transport_pool.go:433-451 | claims a live entry, never a retired one |
| TransportPool.TransportPool.RoundTripDone | internal/server/agent_transport_pool.go:482-504 | takes one off the entry, whoever calls |
| TransportPool.TransportPool.FinishBody | internal/server/agent_transport_pool.go:540-546 | passes on the first end of a body only |
| TransportPool.TransportPool.RoundTripClaimed | internal/server/agent_transport_pool.go:454-480 | performs the answer step: over at once, or handed to a tracked body |
| TransportPool.TransportPool.ReadBody | internal/server/agent_transport_pool.go:513-519 | performs the read step |
| TransportPool.TransportPool.CloseBody | internal/server/agent_transport_pool.go:521-525 | performs the close step |
| TransportPool.TransportPool.WriteBody | internal/server/agent_transport_pool.go:532-538 | performs the write step |
| TransportPool.TransportPool.InFlightForAgent | internal/server/agent_transport_pool.go:615-633 | is the number of the agent's outstanding claims, zero exactly if there are none |
| TransportPool.TransportPool.CloseWhere | internal/server/agent_transport_pool.go:609-691 | the new state is the old one with exactly the live entries in scope retired, those with claims draining |
| TransportPool.TransportPool.Select | internal/server/agent_transport_pool.go:334-343 | finds a candidate that no other was used before, and none exactly if there is no candidate |
| TransportPool.TransportPool.Choose | internal/server/agent_transport_pool.go:343-356 | the victim is the oldest of the first kind that has a candidate: idle of the preferred agent, idle of any, busy of the preferred agent, busy of any |
| TransportPool.TransportPool.Reclaim | internal/server/agent_transport_pool.go:325-376 | gives up the chosen entry: an idle one is retired, a busy one only loses its hint; fails, changing nothing, exactly if there is no candidate at all |
| TransportPool.TransportPool.FindReady | internal/server/agent_transport_pool.go:161-201 | the most recently used ready entry among the first four open lanes from where the rotation stands, which starts over if it is out of range |
| TransportPool.TransportPool.ClaimIdle | internal/server/agent_transport_pool.go:156-210 | claims that entry and moves the rotation past its lane, or changes nothing |
| SigningRecord.PrefixRoundTrip | internal/agentupdateauth/signing.go:64-67 | a 32-bit length is read back from its prefix |
| SigningRecord.Build | internal/agentupdateauth/signing.go:61-73 | the buffer loop writes the domain and the prefixed fields in order |
| SigningRecord.DecodesFields | internal/agentupdateauth/signing.go:61-73 | a decoder recovers all fields shorter than 2^32 bytes |
| SigningRecord.RecordInjective | internal/agentupdateauth/signing.go:61-73 | equal records have equal kinds and fields |
| SigningRecord.DecimalInjective | internal/agentupdateauth/signing.go:49-55 | equal decimals are equal integers, signs included |
| SigningRecord.HexInjective | internal/agentupdateauth/signing.go:53-55 | equal hex texts are equal byte strings |
| UpdatePayloads.AuthorizationInjective | internal/agentupdateauth/authorization.go:171-199 | valid authorizations with equal payloads are equal |
| UpdatePayloads.EnrollmentInjective | internal/agentupdateauth/authorization.go:252-272 | valid enrollment receipts with equal payloads are equal |
| UpdatePayloads.RootReceiptInjective | internal/agentupdateauth/authorization.go:314-344 | valid root receipts with equal payloads are equal |
| UpdatePayloads.AuthorizationShort | internal/agentupdateauth/authorization.go:397-416 | validation keeps every field within the prefix's range |
| UpdatePayloads.EnrollmentShort | internal/agentupdateauth/authorization.go:418-439 | validation keeps every field within the prefix's range |
| UpdatePayloads.RootReceiptShort | internal/agentupdateauth/authorization.go:441-471 | validation keeps every field within the prefix's range |
| UpdatePayloads.ReportInjective | internal/agentupdateauth/signing.go:53-55 | reports with equal payloads are equal |
| UpdatePayloads.CheckInjective | internal/agentupdateauth/signing.go:49-51 | checks with equal payloads are equal |
| UpdatePayloads.ActivationInjective | internal/agentupdateauth/signing.go:57-59 | activations with equal payloads are equal |
| UpdatePayloads.KindsNeverCoincide | internal/agentupdateauth/signing.go:49-73 | payloads of different kinds never coincide |
| RateLimiter.Limiter.Prune | internal/server/agent_update_rate_limit.go:55-60 | deletes exactly the idle buckets |
| RateLimiter.Limiter.Allow | internal/server/agent_update_rate_limit.go:37-81 | performs one call of the limiter |
| RateLimiter.IdleRegains | internal/server/agent_update_rate_limit.go:54-62 | a bucket idle for a window has regained the limit, and a window later twice the limit |
| RateLimiter.OthersTrack | internal/server/agent_update_rate_limit.go:45-65 | if a call for another key makes the table forget this one, the bucket is full by the time it can return |
| RateLimiter.StepTracks | internal/server/agent_update_rate_limit.go:37-81 | a call does to its key what it would do to a plain token bucket that is never forgotten, and to no other key anything |
| RateLimiter.RefinesPlainBucket | internal/server/agent_update_rate_limit.go:37-81 | over every run the table lets a call through only if the plain bucket would |
| RateLimiter.CreditGrows | internal/server/agent_update_rate_limit.go:69-75 | waiting refills no faster than the rate |
| RateLimiter.RateBound | internal/server/agent_update_rate_limit.go:27-81 | over any stretch of calls in order of time a key gets at most burst plus rate times length, and the table never exceeds its cap |
| RateCondition.LargeBurstBreaksTheBound | internal/server/agent_update_rate_limit.go:37-81 | for every other limiter, a run in which one key gets two bursts through in a time that refills less than one |
| RateCondition.BoundedIffSuits | internal/server/agent_update_rate_limit.go:27-81 | for calls in order of time, the bound holds for every key and stretch of every run if and only if the burst is at most the limit, or twice the limit in a table of one entry |
| RateCondition.LateCallBreaksTheBound | internal/server/agent_update_rate_limit.go:45-79 | a late call turns back the time a key was seen, and then one key gets more through than the bound allows |
| LaneSupervisor.Supervisor.ForgetAttempt | internal/agent/lane_retirement.go:46-56 | finds, cancels and removes an attempt |
| LaneSupervisor.Supervisor.HandleEnd | internal/agent/lane_retirement.go:57-136 | takes the select cases for ended attempts and an ended context |
| LaneSupervisor.Supervisor.HandleReady | internal/agent/lane_retirement.go:59-102 | takes the cases for attempts that are ready |
| LaneSupervisor.Supervisor.HandleTimer | internal/agent/lane_retirement.go:81-128 | takes the timer and ticker cases |
| LaneSupervisor.Supervisor.Handle | internal/agent/lane_retirement.go:24-137 | performs one step of the supervisor |
| LaneSupervisor.EveryRunIsSound | internal/agent/lane_retirement.go:24-137 | at most two attempts exist; a working attempt is cancelled only when drained or with the context; the supervisor returns only after every attempt reported done |
| LaneSupervisor.FailedReplacementIsHarmless | internal/agent/lane_retirement.go:84-93 | a failed replacement leaves the supervisor as it was when the timer fired |
| LaneSupervisor.DrainingIsNotCut | internal/agent/lane_retirement.go:108-128 | a draining predecessor with owners is not cancelled |
| EventInserter.NeutralRow | internal/db/proxy_request_event_inserter.go:49-53 | for a neutral event the literal columns hold its own values |
| EventInserter.GeneralRow | internal/db/proxy_request_event_inserter.go:44-47 | the general shape stores the bound values |
| EventInserter.Box | internal/db/proxy_request_event_inserter.go:160-168 | a reused box always holds the string asked for |
| EventInserter.BindGeneral | internal/db/proxy_request_event_inserter.go:172-198 | binds the same values as the single-row binder |
| EventInserter.BindNeutral | internal/db/proxy_request_event_inserter.go:134-149 | binds the twelve variable columns |
| EventInserter.AreNeutral | internal/db/proxy_request_event_inserter.go:123-132 | true exactly if every event is neutral |
| EventInserter.BindGroup | internal/db/proxy_request_event_inserter.go:99-106 | the group's arguments insert exactly the events' own rows |
| EventInserter.Inserter.Insert | internal/db/proxy_request_event_inserter.go:66-73 | appends the event's row |
| EventInserter.Inserter.Prepare | internal/db/proxy_request_event_inserter.go:87-98 | yields the statement of the asked shape, prepared once |
| EventInserter.Inserter.InsertGroup | internal/db/proxy_request_event_inserter.go:85-110 | appends the group's rows or nothing |
| EventInserter.Inserter.InsertGroups | internal/db/proxy_request_event_inserter.go:82-111 | appends whole groups, up to the first statement that fails |
| EventInserter.Inserter.InsertEach | internal/db/proxy_request_event_inserter.go:113-117 | appends the rows one by one, up to the first statement that fails |
| EventInserter.Inserter.InsertBatch | internal/db/proxy_request_event_inserter.go:78-119 | appends exactly the rows of inserting each event alone in order, or a prefix of them if a statement fails; fails only then |
| Base64Url.DecodesBack | internal/server/agent_updates.go:219-236 | decoding the sextets returns the bytes |
| Base64Url.TextDecodesBack | internal/server/agent_updates.go:219-236 | decoding the text returns the bytes and its length is ceil(8n/6) |
| Base64Url.StreamStep | internal/server/agent_updates.go:224-231 | one byte through the wrapping accumulator yields the standard's next sextets |
| Base64Url.LastSextet | internal/server/agent_updates.go:232-234 | the final shift pads the last group with zero bits |
| Base64Url.Encode | internal/server/agent_updates.go:219-236 | the loop equals unpadded base64url of section 5 of RFC 4648 |

## Left out

- Admission misses, telemetry snapshots, peer and client fair-share limits of the capacity manager: they only read the state.
- Wrap-around of lease numbers and of the granted and released counters at 2^64.
- Waiting itself: a caller blocked on a sample or a waiter channel appears as a later call; starvation-freedom of a key while others keep overtaking it is not claimed.
- The branch of dispatch for a ring key without a queue: the invariant shows it is never taken.
- Resource controllers, memory sampling and the scavenging loop: a sample is an argument, the limit formula is modelled.
- StreamCapacityManager.Manager.Acquire: the refresh before admission is the separate calls BeginSample and EndSample.
- The in-memory set of fenced agents and its agreement with the rows across campaigns.
- Route quorum, drain detection, eligibility preview, event log rows and last-report times of managed updates; each appears as a free choice or not at all.
- Database failures inside a transaction, which leave the tables unchanged; the uniqueness of an agent's active row is not assumed, so the model allows more histories.
- Enrollment tokens and their receipts; Enroll is the identity update they lead to.
- Ed25519, SHA-256 and random nonces: a verdict is part of a message, a digest stands for what it digests.
- UpdatePayloads.AuthorizationInjective: the semantic-version grammar of version fields is not modelled, only their length bound, so the statement covers more values than validation accepts.
- Rounding of floating-point tokens in RateLimiter; a limiter that failed to construct refuses every call.
- HTTP transports, dialing, TLS and yamux sessions behind the pool and the lanes; one-shot transports hold no claim.
- Statement text and column types of the event table; columns are positions.
- Liveness of campaigns and lanes.
