# GreenShift: a verified model

GreenShift places deferrable workloads where and when electricity is clean or cheap, asks a human to approve the
placement, and runs the approved workload as a Kubernetes Job. This project models the parts of it that decide,
count, race and retry, and proves what they guarantee. Verify everything with `dafny verify dfyconfig.toml`.

Instants are whole microseconds since the epoch in UTC; the source's floats are exact reals, and its epsilons
(1e-6), its 60-second and two-hour tolerances and its percentages are written out. Telemetry, tenant policies, the
demand forecaster, the Kubernetes API, the mail server and the ingest callback are parameters: every theorem holds
for whatever they answer. Code that changes things in place is a class or a method with loops, proved against a
function; the theorems are about the functions.

| file | what it models |
|---|---|
| `Ranking.dfy`, `Rounding.dfy`, `Sorting.dfy` | the three policies, 1e-6 quantisation with half-to-even rounding, the stable sort |
| `SlotCapacity.dfy` | the region-by-hour capacity registry and the reservation ledger it refines |
| `CandidateGrid.dfy`, `Telemetry.dfy`, `SingleScheduler.dfy` | candidate grid, nearest-point lookups, constraint-first scheduling of one job, impact report |
| `BatchScheduler.dfy`, `BatchProperties.dfy`, `BatchContention.dfy`, `BatchFailure.dfy` | the greedy contention-aware batch: conservation, non-interference, spilling, and when it raises |
| `Priorities.dfy` | the two readings of a job's priority |
| `ClusterState.dfy` | node feasibility, the fail-fast totals, pod usage accounting |
| `JobStore.dfy`, `Claims.dfy`, `ClaimRace.dfy` | job tables, claiming with leases, any number of dispatcher workers |
| `Approvals.dfy`, `Dispatching.dfy`, `KubeRace.dfy` | the approval gate, one dispatch, workers racing for one Kubernetes name |
| `Lifecycle.dfy`, `LifecycleProperties.dfy`, `DispatchLoop.dfy` | the whole job lifecycle as a step system, and the background loops as legal runs of it |
| `Fleet.dfy`, `FleetRuns.dfy`, `Orphans.dfy` | the same lifecycle under any number of dispatchers, unrestricted polls, cancellations and dispatches by hand; four runs that break a promise; jobs nobody works on |
| `RateLimiter.dfy`, `EmailWorker.dfy`, `ArrivalSimulator.dfy` | sliding-window limiter, e-mail retries, event-driven arrivals |

## What the proofs found

Some promises hold only under a condition, and some not at all. Each is a lemma with the exact condition or a
concrete input.

- A batch raises, and `schedule_batch` returns none of its decisions, when a job has no feasible slot and its first
  slot lacks telemetry: the explanation string formats a missing figure. `Fatal` lists a job's ways to raise,
  `BatchRaisesIff` says that the batch raises exactly when a job is fatal on the registry its predecessors leave, and
  `DeferrableBatchCompletesIff` says it of the input alone. The reservations of a raised batch stay in the registry,
  that of the raising job included (`BatchIsLedgerRun`). The caller in `app/decide/service.py:516-525` then falls back
  to one job at a time.
- Under the carbon-tolerance policy a job is marked spilled although its preferred slot has room, exactly when the
  tolerance band recomputed over the slots with room lets in one at least as cheap and early (`JobSpillsUnderBandIff`,
  `SpilledThoughPreferredFits`).
- Urgency upper-cases a priority and counts a missing one as medium; claiming takes it as it is written. They agree on
  the four names in capitals and on nothing else (`RanksAgreeIff`).
- The tolerance band is empty for negative emissions, against the comment in `app/decide/optimization_policy.py:162-168`
  (`BandNonEmptyIff`, `NegativeCarbonEmptiesTheBand`).
- A run started at half past occupies an hour that the registry does not charge (`ChargedHoursCoverRunIff`).
- `allocate` documents a rollback it does not have; it is all-or-nothing because the check before it covers every hour
  (`AllOrNothing`).
- A node over-committed by running pods lowers the cluster totals, and the fail-fast test then rejects requests that
  another node fits (`FailFastHarmlessIff`, `OvercommittedNodeHidesCapacity`).
- A limiter configured with no requests fails with an index error on every check, and an empty client key resets all
  clients (`RateLimiter.Check`, `RateLimiter.Reset`).
- Claims are exclusive exactly in the runs in which no recovery or promotion writes a job back from a list it read
  before the claim (`ClaimKeptIff`). The statements are separate, so such a run exists (`SplitRecoveryStripsAFreshLease`);
  written back to back they never do it while the lease runs (`ClaimsAreExclusive`).
- The dispatcher loop polls executions by a status that only a poll sets, so on its own it never sees a job run
  (`LoopAloneNeverSeesAJobRun`).
- A poll through the API writes the job's status whatever that status is, the dispatch gate trusts the worker's cached
  copy of the job, nothing is checked again between that gate and the creation of the Kubernetes Job, and a cancellation
  leaves the execution to be polled. With all of that a run keeps the approval gate, moves what awaits approval, is
  declined or cancelled by people only, and starts only cleared and due workloads, exactly when each step is harmless on
  the rows as they are: `Harmless` is the condition, `FleetSafeIff` the theorem. Runs from a submission that are harmless
  but for one step show each part needed: an earlier execution is polled (`StalePollBypassesTheGate`), a worker dispatches
  after its claim has run out (`StaleCopyPassesTheDispatchGate`), a worker past the gate creates the workload of a job
  that failed, was resubmitted and awaits approval (`BegunCreationBypassesTheGate`), and a cancelled running job runs on
  (`CancelledJobRunsOn`). One dispatcher with polls of queued and running jobs only is always harmless
  (`OneDispatcherIsHarmless`).
- Cancelling is documented for jobs that have not been approved, but the code allows it for every job that has not ended
  (`app/api/routers/ingest.py:411-427`); the model follows the code.
- A job caught in the middle of its dispatch by a restart, or by an execution row left from an earlier dispatch, is left
  dispatching with nobody at work on it (`AdriftIff`). The loops never move it again: it stays so exactly until its
  execution is polled through the API, it is cancelled, or it is dispatched by hand (`AdriftUntilRescuedIff`), and
  without an execution row no poll can (`MovableIff`). At such a row the tick itself ends, the session being unusable,
  and its remaining claims wait for their leases to run out (`DispatchLoopTick`).
- A creation is refused exactly when the name was created since the worker's read and not deleted again, and then the
  job is marked failed although its Kubernetes Job exists (`CreationRefusedIff`, `LoserFailsARunningJob`). Job
  identifiers that differ only in case or in `_`, `.`, `-` share one Kubernetes Job (`NamesCollideIff`,
  `NameTakenMeansNothingCreated`).
- `run` sets the simulation clock to the simulation start first, so after an earlier `step_to_time` the clock does go
  back once; from there on it never does (`ClockRuns` in the contract of `Simulator.Run`).

## Model

| member | source | states |
|---|---|---|
| Rounding.RoundHalfEven | app/decide/optimization_policy.py:179-180 | Python's `round` lands within half a unit of its argument |
| Rounding.RoundMonotone | app/decide/optimization_policy.py:179-191 | half-to-even rounding never reverses an order |
| Rounding.QuantiseOrder | app/decide/optimization_policy.py:179-191 | quantising to 1e-6 keeps the order of figures and blurs it by at most one epsilon |
| Sorting.SortIgnoresInputOrder | app/decide/batch_scheduler.py:139 | a stable sort forgets the input order when no two distinct elements tie |
| Sorting.SortStable | app/decide/optimization_policy.py:176-230 | elements that tie keep their input order |
| Ranking.PartitionByBand | app/decide/optimization_policy.py:202-213 | the loop's two lists are exactly the candidates inside and outside the tolerance band, in input order |
| Ranking.RankFeasibleCandidates | app/decide/optimization_policy.py:172-232 | the branches compute the ranking function, refusal included |
| Ranking.RankRaises | app/decide/optimization_policy.py:97-113 | ranking refuses exactly for the band policy with a tolerance off 0..100, and never an empty list |
| Ranking.RankPermutes | app/decide/optimization_policy.py:151-157 | the result is a permutation of the candidates |
| Ranking.RankOrders | app/decide/optimization_policy.py:175-230 | the result is ordered by the policy's key, and every candidate in the band precedes every one outside it |
| Ranking.RankIgnoresInputOrder | app/decide/optimization_policy.py:151-157 | with distinct start times the ranked sequence is the same for every input order |
| Ranking.WinnerIsBest | app/decide/scheduler.py:547-550 | the first ranked candidate is one of them and none precedes it |
| Ranking.CarbonFirstWinner | app/decide/optimization_policy.py:175-183 | the winner has least carbon, of those least cost, of those the earliest start |
| Ranking.CostFirstWinner | app/decide/optimization_policy.py:185-193 | the winner has least cost, of those least carbon, of those the earliest start |
| Ranking.BandWinner | app/decide/optimization_policy.py:195-221 | whenever the band holds a candidate the winner is in it, and cheapest there, earliest among equals |
| Ranking.BandNonEmptyIff | app/decide/optimization_policy.py:162-168 | the band is empty exactly when scaling a negative minimum drops the limit more than an epsilon below it; never for carbon that is not negative |
| Ranking.NegativeCarbonEmptiesTheBand | app/decide/optimization_policy.py:199-213 | a single candidate at -1 kg with 5% tolerance is outside its own band |
| Ranking.BandWinnerInBand | app/decide/optimization_policy.py:199-213 | the band winner emits at most the limit plus 1e-6 |
| Ranking.CostSandwich | app/decide/optimization_policy.py:175-230 | on the same candidates the winners' quantised costs satisfy cost-first <= band <= carbon-first |
| Ranking.ToleranceLowersCost | app/decide/optimization_policy.py:195-221 | a wider tolerance never makes the band winner dearer |
| SlotCapacities.SlotCapacity.CanFitRequest | app/decide/slot_capacity.py:57-66 | answers whether the request fits the slot's remaining capacity, epsilons included |
| SlotCapacities.SlotCapacity.AllocateRequest | app/decide/slot_capacity.py:68-76 | charges the slot and counts the job when it fits, else leaves it alone |
| SlotCapacities.SlotCapacityRegistry.GetOrCreateSlot | app/decide/slot_capacity.py:113-123 | returns the slot of the hour, adding an idle one at the defaults when there is none |
| SlotCapacities.SlotCapacityRegistry.CanFitSpan | app/decide/slot_capacity.py:129-151 | answers whether the request fits every hour of its span, untouched hours counting as idle, and changes nothing |
| SlotCapacities.SlotCapacityRegistry.AllocateSpan | app/decide/slot_capacity.py:153-172 | charges every hour of a span that fits and none of one that does not, though the slots' answers are discarded |
| SlotCapacities.SlotCapacityRegistry.UtilizationOf | app/decide/slot_capacity.py:174-180 | the capped CPU percentage of the slot, zero for an hour nobody touched |
| SlotCapacities.ChargeSpanAt | app/decide/slot_capacity.py:166-171 | charging a span adds the request to exactly its hours and leaves every limit and other hour alone |
| SlotCapacities.NextHourStillFits | app/decide/slot_capacity.py:163-171 | charging the first hours of a span that fits leaves the next one fitting, so no discarded answer is a refusal |
| SlotCapacities.AllOrNothing | app/decide/slot_capacity.py:162-172 | a request refused by one hour changes nothing anywhere; one refused by none is charged in every hour |
| SlotCapacities.LedgerRefinement | app/decide/slot_capacity.py:57-76 | after any sequence of allocations every hour carries its initial usage plus exactly the granted reservations covering it |
| SlotCapacities.LedgerSlots | app/decide/slot_capacity.py:113-123 | the registry holds a slot for exactly the initial hours and those a granted reservation covers |
| SlotCapacities.LedgerWithinCapacity | app/decide/slot_capacity.py:57-66 | an hour within capacity, or covered by a granted reservation, ends within capacity plus 1e-6 |
| SlotCapacities.LimitsNeverMove | app/decide/slot_capacity.py:116-123 | no sequence of allocations changes a slot's maximum |
| SlotCapacities.SpanIsLeast | app/decide/slot_capacity.py:125-127 | a span is the least whole number of hours, at least one, that holds the duration |
| SlotCapacities.ChargedHoursCoverRunIff | app/decide/slot_capacity.py:104-127 | the charged hours cover the run exactly when it ends within them counting its offset into the first hour; always for starts on the hour |
| SlotCapacities.ChargedHoursAreOccupied | app/decide/slot_capacity.py:104-127 | whenever a run starts, it occupies every hour it is charged to |
| SlotCapacities.ChargedExactlyOnTheHour | app/decide/slot_capacity.py:104-127 | started on the hour, a run is charged to exactly the hours it occupies |
| SlotCapacities.HalfPastRunOccupiesAnUnchargedHour | app/decide/slot_capacity.py:104-127 | a one-hour run from half past occupies a second hour that is not charged |
| SlotCapacities.UtilizationAfter | app/decide/slot_capacity.py:174-180 | an hour counts as idle until something is charged to it, and a granted reservation shows in the utilisation of every hour it covers |
| CandidateGrid.GenerateCandidateSlots | app/decide/scheduler.py:246-271 | the loop computes the grid function |
| CandidateGrid.GridExact | app/decide/scheduler.py:229-271 | the grid increases strictly, starts at the bound, and holds exactly the bound and, for deferrable jobs, every hour mark that still leaves room for the run; it is empty exactly when the bound comes too late |
| Telemetry.NearestIndex | app/decide/scheduler.py:148-149 | the nearest point of a curve, the first among equals |
| Telemetry.CarbonReadingExact | app/decide/scheduler.py:145-162 | for every curve, fallback points included, the answer is a figure exactly when the first nearest point is within two hours or a fallback, and then that point's own figure and flag |
| Telemetry.LiveCarbonTrustedIff | app/decide/scheduler.py:145-162 | live carbon data is trusted exactly when a point lies within two hours |
| Telemetry.TariffReadingExact | app/decide/scheduler.py:171-191 | a tariff is the first nearest point's within two hours, and the template's otherwise |
| Telemetry.CurveTariffUsedIff | app/decide/scheduler.py:171-191 | the tariff curve is used exactly when a point lies within two hours, else the regional template answers |
| Telemetry.FiguresAddUp | app/decide/scheduler.py:119-121 | a kilowatt for an hour is a kilowatt-hour, and splitting a run or its power splits its energy |
| Telemetry.EmissionsAddUp | app/decide/scheduler.py:124-126 | a thousand grams to the kilowatt-hour are a kilogram, and emissions add up over energy and intensity |
| Telemetry.CostsAddUp | app/decide/scheduler.py:129-131 | costs add up over energy and price |
| SingleScheduler.EvaluateSlots | app/decide/scheduler.py:448-510 | the loop keeps every evaluation and, beside it, the feasible ones in order |
| SingleScheduler.SummarizeRejections | app/decide/scheduler.py:607-610 | the counter dictionary holds exactly the reasons given, each as often as given |
| SingleScheduler.ScheduleJob | app/decide/scheduler.py:429-661 | raises exactly for a bad tolerance or without a feasible slot, else returns the ranking's first slot with its impact against the first grid slot |
| SingleScheduler.SlotsInPlainTerms | app/decide/scheduler.py:246-271 | the slots tried are the later of now and the earliest start, and for deferrable jobs every full hour after it that leaves room for the run |
| SingleScheduler.ReasonsExact | app/decide/scheduler.py:452-500 | each rejection reason is given exactly for its own cause; the general resource reason only where nothing else speaks against the slot and no total is short |
| SingleScheduler.FiguresExact | app/decide/scheduler.py:393-397 | a slot's emissions and cost are those of its own start under the job's stated energy, or else that of power and runtime |
| SingleScheduler.EvaluateExact | app/decide/scheduler.py:452-510 | a grid slot passes exactly when region, resources, carbon data, price and budget allow it; the deadline rejection never fires |
| SingleScheduler.FeasibleCandidateIffAdmissibleSlot | app/decide/scheduler.py:452-510 | the feasible list holds exactly the evaluations of the admissible grid slots |
| SingleScheduler.RaisesIffNothingAdmissible | app/decide/scheduler.py:513-537 | without a feasible slot means no grid slot is admissible, and conversely |
| SingleScheduler.SelectedIsSoundAndOptimal | app/decide/scheduler.py:547-550 | the slot returned is on the grid, meets deadline and budget, and no admissible slot ranks before it |
| SingleScheduler.ReportedSlaAndDelay | app/decide/impact_calculator.py:104-117 | the report always says the deadline is met, and clamping the delay never changes it |
| SingleScheduler.SavingsExact | app/decide/scheduler.py:636-661 | the reported savings are the differences between the first slot's figures and the selected one's, nothing being claimed for a figure the first slot lacks |
| SingleScheduler.CarbonFirstBeatsBaseline | app/decide/scheduler.py:636-661 | unless more than the budget speaks against running at once, carbon-first emits at most 1e-6 kg more than that, and the clamped saving is the true one within 1e-6 |
| SingleScheduler.CostFirstBeatsBaseline | app/decide/scheduler.py:636-661 | with the immediate slot feasible cost-first costs at most 1e-6 more than it |
| BatchScheduler.UrgencyInPlainTerms | app/decide/batch_scheduler.py:59-102 | critical before all, high before the rest, low last; at equal priority jobs flagged deferrable come last, unflagged ones rank as not deferrable though they are scheduled as deferrable, and tighter deadlines come first |
| BatchScheduler.UrgencyBySlack | app/decide/batch_scheduler.py:90-102 | of two jobs equal in rank and flag the one with less time to spare between earliest start, runtime and deadline goes first, by identifier among equals |
| Priorities.OthersRankWithMedium | app/decide/batch_scheduler.py:90 | urgency ranks a missing, an empty and an unknown priority with medium |
| Priorities.UrgencyIgnoresCase | app/decide/batch_scheduler.py:90 | urgency ignores the case of a priority |
| Prelude.StringLeIff | app/decide/batch_scheduler.py:97-102 | identifiers are ordered by their first difference, a prefix before what extends it |
| BatchScheduler.UrgencyHasNoTies | app/decide/batch_scheduler.py:82-102 | with distinct identifiers no two jobs are equally urgent |
| BatchScheduler.StartsExact | app/decide/batch_scheduler.py:183-226 | a job's slots are the later of now and its earliest start or else its submission, and for deferrable jobs every full hour after it that leaves room; the bound alone if nothing does |
| BatchScheduler.NudgeExact | app/decide/batch_scheduler.py:257-270 | no pressure leaves a cost alone, full pressure adds five percent, and in between the nudge grows evenly |
| Priorities.RanksAgreeIff | app/dispatch/job_claimer.py:64-70 | urgency and claiming rank a priority alike exactly for the four known names written in capitals |
| BatchScheduler.EvaluateStart | app/decide/batch_scheduler.py:228-280 | one candidate evaluated step by step is the evaluation function on the registry as it stands |
| BatchScheduler.PickLeastLoaded | app/decide/batch_scheduler.py:326-333 | the scan finds the slot of least utilisation, earliest in policy rank among equals |
| BatchScheduler.ChooseSlot | app/decide/batch_scheduler.py:282-334 | preferred slot, best slot with capacity or least-loaded fallback, as the choice function says |
| BatchScheduler.ScheduleOne | app/decide/batch_scheduler.py:174-343 | one turn of the loop allocates, reads the utilisation and explains, or raises after allocating |
| BatchScheduler.ScheduleBatch | app/decide/batch_scheduler.py:139-343 | the loop over the shared registry computes the batch function, decisions and final registry alike, or raises |
| BatchProperties.SlotFeasibleIff | app/decide/batch_scheduler.py:222-255 | a batch slot is feasible exactly with telemetry, within budget and ending by the deadline plus a minute; only the fallback start can miss the deadline, and none lies in the past |
| BatchProperties.FiguresExact | app/decide/batch_scheduler.py:228-270 | a batch slot's emissions and cost are those of its own start under the job's stated energy, or else that of power and runtime; the forecaster touches the effective cost alone |
| BatchProperties.EligibleShape | app/decide/batch_scheduler.py:282-285 | either every ranked candidate is feasible with known figures, or no slot is and the first stands alone |
| BatchProperties.StepReserves | app/decide/batch_scheduler.py:298-343 | a job's slot had capacity exactly when its allocation was granted, else it is marked spilled and the registry is unchanged; the utilisation reported is the slot's after that |
| BatchProperties.BatchIsLedgerRun | app/decide/batch_scheduler.py:174-343 | every run, completed or raised, is a run of the reservation ledger whose granted reservations are exactly the jobs placed in slots with capacity, the raising one included |
| BatchProperties.DecisionsAreBookings | app/decide/batch_scheduler.py:336-343 | a completed run decides every job in order and has booked exactly the decisions whose slot had capacity |
| BatchProperties.EveryHourAccountedFor | app/decide/batch_scheduler.py:298-343 | after every run, completed or raised, each region-hour holds its initial usage plus exactly the booked jobs whose span covers it, within capacity |
| BatchProperties.BookedHoursAreOccupied | app/decide/slot_capacity.py:104-127 | a booking holds its job's request in hours its run occupies only, and for a start on the hour in exactly those |
| BatchProperties.RunningJobsFit | app/decide/slot_capacity.py:104-127 | at every instant the booked jobs that run ask for no more than the hour's capacity leaves, plus 1e-6, when every booking is charged to the end of its run |
| BatchProperties.BatchIgnoresInputOrder | app/decide/batch_scheduler.py:138-139 | with distinct identifiers the result does not depend on the order of the input |
| BatchProperties.LessUrgentJobsChangeNothing | app/decide/batch_scheduler.py:82-102 | adding less urgent jobs leaves every more urgent decision as it was: the larger batch is the smaller one continued on the registry it leaves |
| BatchProperties.WiderTelemetryChangesNothing | app/decide/batch_scheduler.py:141-219 | the same when the larger batch reads other telemetry, as long as the figures at the more urgent jobs' own slots and their policies are the same |
| BatchFailure.StepRaisesIff | app/decide/batch_scheduler.py:385-404 | a job raises exactly for a bad tolerance, for having no feasible slot and an unpriced first one that it is deferred or spilled to, or for a band policy without stored tolerance whose best slot is the best with capacity |
| BatchFailure.BatchRaisesIff | app/decide/batch_scheduler.py:174-404 | a batch raises exactly when some job is fatal on the registry that the more urgent ones leave |
| BatchFailure.DeferrableBatchCompletesIff | app/decide/batch_scheduler.py:282-404 | with tolerances as the settings service stores them and every unpriced job deferrable, a batch returns its decisions exactly when no job is unpriced, whatever the registry |
| BatchFailure.RaisedHasUnpriced | app/decide/batch_scheduler.py:385-404 | a batch with stored tolerances that raises holds a job without a feasible slot and with an unpriced first one |
| BatchFailure.MissingTelemetrySinksTheBatch | app/decide/batch_scheduler.py:385-396 | one deferrable job in a region without carbon data takes the whole batch down |
| BatchContention.ChoiceIsBest | app/decide/batch_scheduler.py:291-314 | the preferred slot ranks first among all candidates, the chosen one first among those with capacity |
| BatchContention.LosingThePreferredSlotSpills | app/decide/batch_scheduler.py:301-321 | a preferred slot without capacity always means spilled |
| BatchContention.JobSpillsIffPreferredFull | app/decide/batch_scheduler.py:287-321 | without the forecaster, under the two single-figure policies, spilled exactly when the preferred slot could not fit the job |
| BatchContention.BandSpillIff | app/decide/batch_scheduler.py:287-321 | under the band policy a job whose preferred slot has capacity is spilled exactly when the band over the slots with capacity lets in one at least as cheap and early that the band over all slots kept out |
| BatchContention.JobSpillsUnderBandIff | app/decide/batch_scheduler.py:287-321 | the same for a job as it is scheduled: spilled exactly when its preferred slot is full or the recomputed band lets in a slot at least as cheap and early |
| BatchContention.SpilledThoughPreferredFits | app/decide/batch_scheduler.py:287-314 | a job with three hourly slots and a full first hour is spilled to the third although the preferred second had room |
| BatchContention.NudgeRegret | app/decide/batch_scheduler.py:256-311 | whatever pressures in 0..1 the forecaster reports, the cost-first choice costs at most 1.05 times any slot with capacity plus 1e-6; under the band policy any such slot in the band |
| BatchContention.NudgeNeverCostsCarbon | app/decide/batch_scheduler.py:256-311 | whatever the pressures, carbon-first takes a slot of least quantised carbon among those with capacity |
| BatchContention.SaturatedTakesLeastLoaded | app/decide/batch_scheduler.py:315-333 | with no capacity anywhere the job takes a least-loaded slot, policy order breaking ties, is spilled, and reserves nothing |
| ClusterState.FeasibleFindsBestNode | app/dispatch/k8s_state_collector.py:121-162 | feasibility on a node inventory hands back a fitting Ready node with the most free CPU among the fitting ones |
| ClusterState.FitsIffNotOvercommitted | app/dispatch/k8s_state_collector.py:57-72 | a Ready node fits a request exactly when the request would not over-commit it |
| ClusterState.FailFastHarmlessIff | app/dispatch/k8s_state_collector.py:121-133 | the aggregate test never rejects what some Ready node fits exactly when the totals dominate every Ready node |
| ClusterState.AccumulateUsage | app/dispatch/k8s_state_collector.py:328-350 | the nested loops put each running container on the last listed node of its name, and all of them in the totals |
| ClusterState.UsageConserved | app/dispatch/k8s_state_collector.py:337-350 | the total usage is the usage on listed nodes plus that of pods on no listed node |
| ClusterState.CollectClusterState | app/dispatch/k8s_state_collector.py:270-380 | the snapshot's nodes and free totals are those of the capacity and usage collected |
| ClusterState.FreeTotalsAddUp | app/dispatch/k8s_state_collector.py:350-380 | with no node over-committed and all usage on listed nodes the free totals are the nodes' free figures added up |
| ClusterState.CollectedTotalsDominate | app/dispatch/k8s_state_collector.py:282-360 | with no node over-committed and all usage on listed nodes the totals dominate every node, so nothing is falsely rejected |
| ClusterState.OvercommittedNodeHidesCapacity | app/dispatch/k8s_state_collector.py:337-360 | collected with one pod that asks the first of two nodes for twice its cores, the snapshot rejects a request the idle node fits |
| Claims.SelectSkipLocked | app/dispatch/job_claimer.py:60-78 | walking the ready rows and passing over locked ones takes a full batch of the unlocked ones and leaves nobody behind who has a higher priority, or the same and an earlier deadline |
| Claims.ClaimSqlite | app/dispatch/job_claimer.py:102-128 | leases exactly a batch of the ready jobs that leaves nobody behind of a higher priority, or of the same with an earlier deadline, lists it in that order, and touches no other row |
| Claims.RecoveredExact | app/dispatch/job_claimer.py:138-157 | recovery puts back exactly the claims whose lease has run out, without their leases, and touches nothing else |
| Claims.PromotedExact | app/dispatch/job_claimer.py:163-186 | promotion makes ready exactly the scheduled and approved jobs whose decision is due, and touches nothing else |
| Claims.RecoverExpiredClaims | app/dispatch/job_claimer.py:131-160 | puts exactly the expired claims back to ready, without lease, and counts them |
| Claims.PromoteScheduledToReady | app/dispatch/job_claimer.py:163-186 | makes exactly the scheduled or approved jobs with a due decision ready, and counts them |
| Approvals.ReasonCountsIff | app/approval/service.py:278-281 | an ASCII reason counts exactly when some character of it is no space and no tab, line or separator control; a missing reason never counts |
| Approvals.ProceedsIff | app/approval/service.py:137-170 | the reads let a request through exactly when it names the job's current decision, gives a reason to decline, and finds the job pending or at the target without its row; the write then records it exactly for a pending job and conflicts exactly for the other |
| Approvals.RecordedRequestStands | app/approval/service.py:140-202 | once a verdict is recorded the same request is answered as done and the opposite one refused, and neither writes |
| ClaimRace.NextKeepsSafe | app/dispatch/job_claimer.py:54-99 | through every step of any number of workers locked sets stay disjoint, locked rows stay ready until commit, and every claim carries a lease |
| ClaimRace.RunStaysSafe | app/dispatch/job_claimer.py:54-187 | so in every reachable state |
| ClaimRace.CommitLeasesItsBatch | app/dispatch/job_claimer.py:83-94 | a commit leases exactly its locked rows, each ready until then, to the worker for 120 seconds from the claim |
| ClaimRace.StepKeepsClaimIff | app/dispatch/job_claimer.py:131-187 | a claim survives a step that does not dispatch it exactly when the step does not write its row back |
| ClaimRace.ClaimKeptIff | app/dispatch/job_claimer.py:54-187 | over any run of any number of workers a claimed, undispatched job stays with its worker under its lease exactly when no recovery or promotion writes it back from an earlier read |
| ClaimRace.AtomicWriteMisses | app/dispatch/job_claimer.py:138-160 | recovery or promotion written right after its read never writes back a claim whose lease still runs |
| ClaimRace.ClaimsAreExclusive | app/dispatch/job_claimer.py:54-187 | so in runs with back-to-back writes a claimed job stays with its worker until its lease runs out or it is dispatched |
| ClaimRace.SplitRecoveryStripsAFreshLease | app/dispatch/job_claimer.py:139-157 | a run in which a late recovery write takes away a lease granted after its read |
| Approvals.SettleRequest | app/approval/service.py:184-202 | inserts the row and moves a still pending job, or rolls both back |
| Approvals.LosersChangeNothing | app/approval/service.py:184-200 | a verdict is recorded exactly for a pending job on a live decision; it adds one row and moves that job alone, and every other reply leaves the store as it was |
| Approvals.ResubmitWorkload | app/approval/service.py:415-428 | only declined, cancelled or failed jobs go back to submitted, losing their decision and its approval rows |
| Dispatching.NamesCollideIff | app/shared/utils.py:58-60 | two jobs get one Kubernetes name exactly when they differ in letter case and separators only |
| Dispatching.KubeNameIsSafe | app/shared/utils.py:58-60 | a Kubernetes name has no capitals, underscores or dots and leaves every other character as it is |
| Dispatching.ValidateJobForDispatch | app/dispatch/dispatcher.py:100-144 | the gate on a cached status, the decision and its start, with each refusal |
| Dispatching.DispatchJob | app/dispatch/dispatcher.py:191-306 | the whole effect of a dispatch for each outcome: blocked, failed at the API, queued, or stopped at an execution row in the way |
| Dispatching.RefreshJobStatus | app/dispatch/dispatcher.py:410-444 | writes the cluster's status to the execution and the job, or nothing when the API answers with an error |
| KubeRace.RunStaysAccurate | app/dispatch/dispatcher.py:243-252 | over any run of any number of workers the cluster holds a name exactly when its last event is a creation, and creations and deletions take turns |
| KubeRace.CreatedOnceBetweenDeletions | app/dispatch/dispatcher.py:212-252 | a name is created at most once between two deletions, even when two workers dispatch the same job |
| KubeRace.CreationRefusedIff | app/dispatch/dispatcher.py:243-261 | a worker that found its job missing has its creation refused exactly when the name was created since and not deleted again; then its job is failed although the Kubernetes Job exists, else one Job is created |
| KubeRace.LoserFailsARunningJob | app/dispatch/dispatcher.py:252-261 | from any site two idle workers can both find a job missing, and then the second marks it failed while its Kubernetes Job runs |
| KubeRace.NameTakenMeansNothingCreated | app/dispatch/dispatcher.py:244-246 | a job whose name another job holds is queued without anything being created |
| Lifecycle.GateNeverBlocks | app/dispatch/dispatcher.py:100-144 | with one dispatcher every claimed job is cleared and passes the dispatch gate |
| Lifecycle.NextKeepsInv | app/dispatch/service.py:80-134 | every step of planning, approval, claiming, dispatch, polling and cluster keeps the lifecycle invariant |
| LifecycleProperties.NothingPassesTheGate | app/dispatch/dispatcher.py:63-79 | in every reachable state a job from ready to completed is not deferrable or approved for its current decision, and due; no job is scheduled; a polled execution's job is queued or running |
| LifecycleProperties.CreatedOnlyWhenDueAndCleared | app/dispatch/dispatcher.py:130-144 | wherever a run has led, a Kubernetes Job is created only for a cleared job whose chosen start has come |
| LifecycleProperties.OnlyVerdictsExit | app/approval/service.py:184-202 | no step but a recorded verdict takes a job out of the gate |
| LifecycleProperties.NextKeepsTable | app/approval/service.py:140-202 | every step keeps the approval rows in one-to-one correspondence with the exits of decisions that still exist |
| LifecycleProperties.OneRowPerExit | app/approval/service.py:184-202 | over any race a live decision has a row exactly for the verdict its job left the gate with, none while pending, and exits and recorded requests correspond one for one |
| LifecycleProperties.LoopAloneNeverSeesAJobRun | app/dispatch/service.py:71-77 | without polls from outside no execution is ever polled and no job runs or completes |
| LifecycleProperties.PollSafeIff | app/dispatch/dispatcher.py:439-442 | a poll keeps a job's guarantees for every answer of the cluster exactly when the job is cleared and its decision due |
| Fleet.StepSafeIff | app/dispatch/dispatcher.py:100-253 | a step of any of several dispatchers, a poll, a cancellation or a dispatch by hand keeps the guarantees of the rows, moves no job that only people may move, and starts no workload but of a dispatching, cleared and due job, exactly when it is harmless on the rows as they are |
| Fleet.FleetSafeIff | app/dispatch/service.py:80-134 | the same of whole runs: they uphold all three throughout exactly when each step is harmless |
| Fleet.GateSafeIff | app/dispatch/dispatcher.py:410-442 | a job that awaits approval, is declined or cancelled is moved by people only, exactly when no worker's or poll's write hits it |
| Fleet.StartSafeIff | app/dispatch/dispatcher.py:205-253 | a step starts only a dispatching, cleared and due workload exactly when the creation it makes, if any, finds the row so |
| Fleet.BeginSafeIff | app/dispatch/dispatcher.py:100-211 | a dispatch that passed the gate on a cached claimed status keeps them exactly for a cleared job whose execution nobody polls |
| Fleet.CancelSafeIff | app/api/routers/ingest.py:423-436 | a cancellation keeps the guarantees exactly for a job whose execution the loop does not poll |
| Fleet.OneDispatcherIsHarmless | app/dispatch/service.py:107-123 | one dispatcher that polls only queued and running jobs never takes a harmful step |
| FleetRuns.StaleExecutionReached | app/dispatch/dispatcher.py:410-442 | a legal and harmless run dispatches a job, sees it fail, resubmits and replans it, while its old Kubernetes Job succeeds |
| FleetRuns.StalePollBypassesTheGate | app/api/routers/dispatch.py:86-95 | polling its earlier execution, which is not harmless, then completes the job, awaiting approval again, unapproved |
| FleetRuns.StaleCopyReached | app/dispatch/service.py:104-123 | a legal and harmless run of two workers: claim, expiry, recovery, second claim, failure, resubmission, replanning, while the first worker holds the job still |
| FleetRuns.StaleCopyPassesTheDispatchGate | app/dispatch/dispatcher.py:100-115 | there the row would stop the job but the cached claimed status passes the gate, a step that is not harmless |
| FleetRuns.StaleDispatchCreates | app/dispatch/dispatcher.py:205-253 | and then the Kubernetes Job of the uncleared job is created |
| FleetRuns.LateCreationReached | app/dispatch/dispatcher.py:205-253 | a legal and harmless run in which both workers begin the approved job, the second fails it, and it is resubmitted and replanned while the first is past the gate |
| FleetRuns.BegunCreationBypassesTheGate | app/dispatch/dispatcher.py:243-253 | the first worker's creation, harmless to every row, then starts the workload of a job that awaits approval |
| FleetRuns.SeenRunningReached | app/dispatch/dispatcher.py:410-442 | a legal and harmless run to a job polled as running |
| FleetRuns.RunningJobCancelled | app/api/routers/ingest.py:423-436 | its cancellation is allowed, leaves the execution as it was, and is not harmless |
| FleetRuns.CancelledJobRunsOn | app/dispatch/service.py:125-132 | the dispatcher loop then polls the cancelled job and sets it running again |
| Orphans.StaysDispatchingIff | app/dispatch/job_claimer.py:138-160 | no step of a worker that neither holds nor works on a dispatching job moves it, exactly but for a poll of its execution and a cancellation |
| Orphans.AdriftIff | app/dispatch/dispatcher.py:205-304 | a job is left dispatching with nobody at work on it exactly by a restart of its last worker, an earlier execution row in the way of the closing transaction, or a gate that stops a worker with a job another one began; and stays so exactly until it is polled, cancelled or dispatched by hand |
| Orphans.AdriftUntilRescuedIff | app/api/routers/dispatch.py:28-95 | the same of whole runs of any number of workers |
| Orphans.MovableIff | app/dispatch/dispatcher.py:410-442 | without cancellation or dispatch by hand some run moves such a job exactly when it has an execution row |
| Orphans.OrphanedIsAdrift | app/dispatch/service.py:107-123 | for one dispatcher these are the jobs that are dispatching while the dispatcher is not at work on them |
| DispatchLoop.DispatchClaimed | app/dispatch/service.py:107-123 | dispatches the claimed jobs in order up to one stopped by an earlier execution row, whose steps extend the run; each job before it ends queued, or failed where the API failed, and is counted so |
| DispatchLoop.RefreshActive | app/dispatch/service.py:125-132 | polls each execution last seen pending or running once, the answered polls extending the run, and counts all of them |
| DispatchLoop.DispatchLoopTick | app/dispatch/service.py:80-134 | a tick's steps are exactly recovery, promotion, one claim, the dispatches in claim order, the answered polls and its end, a legal run; its counters say what these did; it leaves no job approved that was approved and due, and raises only at an orphaned job |
| DispatchLoop.ScheduleAndStore | app/decide/service.py:133-224 | stores or updates the decision and opens the gate, or skips it for a job that is not deferrable |
| DispatchLoop.ProcessPendingJobs | app/decide/service.py:528-544 | plans each job waiting with its deadline ahead once, failing those without a slot and counting the others, as a legal run of the lifecycle |
| RateLimiting.RateLimiter.Check | app/api/rate_limit.py:38-64 | accepts exactly when fewer than the maximum were accepted in the closed last window, reports the least whole number of seconds worth waiting, touches no other client |
| RateLimiting.RateLimiter.Reset | app/api/rate_limit.py:66-72 | forgets one client, or all of them for no key and for an empty one |
| RateLimiting.RecentCount | app/api/rate_limit.py:49-52 | after eviction the window's length is the number of requests accepted in the closed last window |
| RateLimiting.AcceptTracks | app/api/rate_limit.py:49-64 | accepting keeps window and log in step and any maximum-plus-one accepted requests more than a window apart |
| RateLimiting.NoWindowExceedsTheMaximum | app/api/rate_limit.py:25-30 | no closed interval as long as the window, wherever it starts, holds more than the maximum of accepted requests |
| RateLimiting.LimiterNeverExceedsTheMaximum | app/api/rate_limit.py:25-64 | of every limiter, after whatever checks and resets, and every client: no interval as long as the window holds more than the maximum of accepted requests |
| RateLimiting.RetryAfterIsLeastWait | app/api/rate_limit.py:53 | the reported Retry-After (section 10.2.3 of RFC 9110) always suffices while nothing else is accepted, and no smaller whole number does |
| EmailWorker.BackoffDoubles | app/notify/email.py:40-42 | the backoff starts at a minute, doubles each time and stops at the hour |
| EmailWorker.LifeOfANotification | app/notify/email.py:80-142 | everything before the last delivery bounced, at most max(1, maximum) sends are made, and the last outcome decides the status |
| EmailWorker.AttemptsAreSpaced | app/notify/email.py:136-137 | consecutive attempts are at least min(3600, 60 * 2^(n-1)) seconds apart |
| EmailWorker.BouncedDueIff | app/notify/email.py:130-142 | a bounced mail is due again exactly when it has attempts left and its backoff has passed |
| EmailWorker.SelectedExact | app/notify/email.py:151-163 | a pass picks distinct due notifications and leaves one out only when the limit is spent on older ones |
| EmailWorker.DeliverAllAt | app/notify/email.py:164-172 | a pass delivers each picked notification exactly once and touches no other |
| EmailWorker.SettledStaysSettled | app/notify/email.py:151-159 | sent and failed notifications are never touched again |
| EmailWorker.EveryDeliveryCounts | app/notify/email.py:164-172 | each delivery uses up one of finitely many left in the table, so processing ends |
| EmailWorker.Outbox.DeliverOne | app/notify/email.py:80-142 | one delivery changes its row as the outcome says and no other |
| EmailWorker.Outbox.ProcessPending | app/notify/email.py:145-172 | a pass delivers the picked notifications, or nothing with mail disabled, and counts them |
| ArrivalSimulation.SortedRowsInReleaseOrder | app/arrival/simulator.py:178-217 | sorting by submission time, missing ones first, makes the list ordered by release time |
| ArrivalSimulation.ArrangedExact | app/arrival/simulator.py:178-189 | the rows kept are as many as asked for, in submission order, and none dropped goes before one kept |
| ArrivalSimulation.BacklogIff | app/arrival/simulator.py:207-217 | a job is backlog exactly when it is released at the simulation start |
| ArrivalSimulation.Simulator.LoadDataset | app/arrival/simulator.py:154-236 | sorts, cuts to a positive maximum, fixes the start from configuration, first submission or now, and lists every job as pending |
| ArrivalSimulation.Simulator.StepToTime | app/arrival/simulator.py:290-338 | sets the clock and releases exactly the pending jobs submitted by then, in list order, each handed to ingest once |
| ArrivalSimulation.Simulator.Run | app/arrival/simulator.py:352-435 | ends with nothing pending; the clock starts at the simulation start and never goes back; released equals total equals successes plus failures |
| ArrivalSimulation.ProgressStep | app/arrival/simulator.py:388-402 | each turn releases exactly the jobs whose release time is the new clock value |
| ArrivalSimulation.FreshRunIngestsAllInOrder | app/arrival/simulator.py:381-425 | from freshly loaded records a finished run's log is the whole list in order, each job stamped with its release time |
| ArrivalSimulation.RunDynamicArrivalSimulation | app/arrival/simulator.py:443-460 | a simulation from a dataset ingests every kept row exactly once, in sorted order, at max(simulation start, submission time), its final state being ingest's answer |

## Left out

- Single-job scheduling: choice of error texts, explainability records, native-currency figures, display rounding and percentages.
- Telemetry caching and time-zone handling: curves are fixed functions of region and time, all instants are UTC.
- Float rounding: figures are exact reals; half-to-even rounding is modelled where the source calls `round` to rank.
- SlotCapacities: the contention map and the summary statistics, which are folds over the slots.
- BatchScheduler: reading the forecaster and tenant policies, the impact report, and error paths other than the ones that raise in ranking and explanation.
- ClusterState.CollectClusterState: does not model the display rounding of per-node usage nor the cluster API failing halfway; parsing of resource quantities is a parameter.
- Claims: on PostgreSQL the order among jobs of equal rank and deadline is open and so any first batch is allowed; the guard for a missing deadline is left out because the column is not nullable.
- ClaimRace: writers of other services than the dispatchers are not part of this race.
- Priorities: letters outside ASCII, which upper-case differently.
- Approvals: permissions, tenants, audit events and notifications; concurrent resubmissions of one job are single steps; cancelling a job is a step of Fleet.
- Dispatching.DispatchJob: does not model the node preference, audit and notification calls; an execution row left by an earlier dispatch either stops the closing transaction or is replaced, and every theorem covers both.
- Dispatching.NamesCollideIff: identifiers are ASCII; other alphabets lower-case differently.
- Dispatching.RefreshJobStatus: does not model pod names, actual start and end times, nor the simulated statuses used while the cluster is out of reach.
- JobStore: decision identifiers are never reused, as PostgreSQL's sequences have it; SQLite can give a new decision the identifier of a deleted newest one, and a request that read the old one could then settle the new one.
- Lifecycle: one dispatcher, which reads one clock value per step, and polls of queued and running jobs only; cancellation and dispatch by hand are not steps. Fleet lifts all of that. Direct calls of the planner on jobs in arbitrary states are not steps of either.
- Fleet: a worker takes its whole batch in one step and leases name no worker; ClaimRace has the row locks, the split recovery and the owners. A dispatch by hand reads, checks and marks its job in one step.
- BatchProperties.LessUrgentJobsChangeNothing: both batches read one environment, while the source fetches its curves over a window as wide as the whole batch; WiderTelemetryChangesNothing says what must stay the same.
- DispatchLoop.DispatchLoopTick: one clock value per tick; what others do during a tick is covered by the step systems, not by the method.
- RateLimiting.RateLimiter.Check: does not model two threads taking the lock in another order than they read the clock.
- EmailWorker.Outbox.ProcessPending: does not model a failure of the bookkeeping itself (which rolls back), nor several workers on one table; rows of equal creation time are taken in table order.
- ArrivalSimulation: reading and validating the dataset file, sleeping between events, progress callbacks and wall-clock stamps.
- HTTP routes, authentication, company onboarding, dashboards, migrations, the audit ledger, analytics, forecaster training and the region tables: thin, or folds and averages.
