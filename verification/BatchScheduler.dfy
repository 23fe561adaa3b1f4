/** Contention-aware greedy batch scheduling (app/decide/batch_scheduler.py). */
module BatchScheduler {
  import opened Prelude
  import opened Priorities
  import opened Sorting
  import opened Ranking
  import opened Telemetry
  import opened SlotCapacities
  import opened CandidateGrid

  // ---- Jobs and their urgency ----

  datatype BatchJob = BatchJob(
    id: string, tenant: Option<string>, priority: Option<string>, deferrable: Option<bool>,
    earliestStart: Option<Time>, submitted: Time, deadline: Time, runtimeMinutes: nat,
    region: string, tariffClass: string, powerKw: real, energyKwh: Option<real>, carbonBudgetKg: Option<real>,
    resources: Resources)
  {
    function Energy(): real { WorkloadEnergy(energyKwh, powerKw, runtimeMinutes) }
    function Deferrable(): bool { deferrable.GetOr(true) }
    function DurationHours(): real { runtimeMinutes as real / 60.0 }
  }

  datatype Urgency = Urgency(rank: int, deferrableRank: int, slack: int, id: string)

  /** A job without a deferrable flag ranks with the non-deferrable ones, though it is scheduled as deferrable. */
  function UrgencyOf(job: BatchJob, now: Time): Urgency {
    Urgency(UrgencyRank(job.priority), if job.deferrable.GetOr(false) then 1 else 0,
            job.deadline - job.earliestStart.GetOr(now) - job.runtimeMinutes * MINUTE, job.id)
  }

  predicate UrgencyLe(a: Urgency, b: Urgency) {
    || a.rank < b.rank
    || (a.rank == b.rank && (
          || a.deferrableRank < b.deferrableRank
          || (a.deferrableRank == b.deferrableRank && (
                || a.slack < b.slack
                || (a.slack == b.slack && StringLe(a.id, b.id))))))
  }

  function ByUrgency(now: Time): (BatchJob, BatchJob) -> bool {
    (a, b) => UrgencyLe(UrgencyOf(a, now), UrgencyOf(b, now))
  }

  lemma UrgencyIsTotal(now: Time)
    ensures TotalPreorder(ByUrgency(now))
  {
    forall a: BatchJob, b: BatchJob ensures ByUrgency(now)(a, b) || ByUrgency(now)(b, a) {
      StringLeTotal(a.id, b.id);
    }
    forall a: BatchJob, b: BatchJob, c: BatchJob | ByUrgency(now)(a, b) && ByUrgency(now)(b, c)
      ensures ByUrgency(now)(a, c)
    {
      if StringLe(a.id, b.id) && StringLe(b.id, c.id) {
        StringLeTransitive(a.id, b.id, c.id);
      }
    }
  }

  predicate Named(job: BatchJob, name: string) {
    job.priority.Some? && Upper(job.priority.value) == name
  }

  /**
   * Known priorities in their order first; then jobs flagged deferrable behind all others, unflagged ones
   * included although they are scheduled as deferrable; then the tighter slack.
   */
  lemma UrgencyInPlainTerms(now: Time, a: BatchJob, b: BatchJob)
    ensures Named(a, "CRITICAL") && !Named(b, "CRITICAL") ==> !ByUrgency(now)(b, a)
    ensures Named(a, "HIGH") && !Named(b, "CRITICAL") && !Named(b, "HIGH") ==> !ByUrgency(now)(b, a)
    ensures Named(b, "LOW") && !Named(a, "LOW") ==> !ByUrgency(now)(b, a)
    ensures a.priority == b.priority && a.deferrable != Some(true) && b.deferrable == Some(true) ==>
              !ByUrgency(now)(b, a)
    ensures (a == b.(id := a.id, deadline := a.deadline) && a.deadline < b.deadline) ==> !ByUrgency(now)(b, a)
    ensures a.deferrable.None? ==> a.Deferrable() && UrgencyOf(a, now).deferrableRank == 0
  {
  }

  /** The time a job has to spare between its earliest start and its deadline, its own runtime taken off. */
  lemma UrgencyBySlack(now: Time, a: BatchJob, b: BatchJob)
    requires UrgencyRank(a.priority) == UrgencyRank(b.priority)
    requires a.deferrable.GetOr(false) == b.deferrable.GetOr(false)
    ensures var spareA := a.deadline - a.earliestStart.GetOr(now) - a.runtimeMinutes * MINUTE;
            var spareB := b.deadline - b.earliestStart.GetOr(now) - b.runtimeMinutes * MINUTE;
            ByUrgency(now)(a, b) <==> spareA < spareB || (spareA == spareB && StringLe(a.id, b.id))
  {
  }

  /** Rank comes before the flag and the flag before everything else. */
  lemma UrgencyByRankThenFlag(now: Time, a: BatchJob, b: BatchJob)
    ensures UrgencyRank(a.priority) < UrgencyRank(b.priority) ==> ByUrgency(now)(a, b) && !ByUrgency(now)(b, a)
    ensures UrgencyRank(a.priority) == UrgencyRank(b.priority) ==>
              a.deferrable != Some(true) && b.deferrable == Some(true) ==> ByUrgency(now)(a, b) && !ByUrgency(now)(b, a)
  {
  }

  ghost predicate DistinctIds(jobs: seq<BatchJob>) {
    forall a, b :: a in jobs && b in jobs && a.id == b.id ==> a == b
  }

  lemma UrgencyHasNoTies(now: Time, jobs: seq<BatchJob>)
    requires DistinctIds(jobs)
    ensures NoTies(ByUrgency(now), jobs)
  {
    forall a, b | a in jobs && b in jobs && ByUrgency(now)(a, b) && ByUrgency(now)(b, a) ensures a == b {
      StringLeAntisymmetric(a.id, b.id);
    }
  }

  // ---- The outside world ----

  type Pressure = p: real | 0.0 <= p <= 1.0

  const CONTENTION_WEIGHT: real := 0.05

  /** Telemetry by region and time, tenant policies, and a forecaster that is any function into [0, 1]. */
  datatype Env = Env(
    now: Time, carbon: (string, Time) -> Option<real>, tariff: (string, string, Time) -> Option<real>,
    policyOf: Option<string> -> (Policy, Option<real>), mlActive: bool, pressure: (Time, string) -> Pressure)

  // ---- Evaluating one job's candidates ----

  datatype Reason = DeadlineViolation | CarbonDataUnavailable | CostDataUnavailable | CarbonThreshold

  datatype BatchCandidate = BatchCandidate(
    start: Time, end: Time, reasons: seq<Reason>, carbonKg: Option<real>, cost: Option<real>,
    pressure: real, effectiveCost: Option<real>, hasCapacity: bool)
  {
    predicate Feasible() { reasons == [] }
    predicate Complete() { carbonKg.Some? && cost.Some? }
  }

  function BaseLens(): Lens<BatchCandidate> {
    Lens((c: BatchCandidate) => c.carbonKg, (c: BatchCandidate) => c.cost, (c: BatchCandidate) => c.start)
  }

  function EffectiveLens(): Lens<BatchCandidate> {
    Lens((c: BatchCandidate) => c.carbonKg, (c: BatchCandidate) => c.effectiveCost, (c: BatchCandidate) => c.start)
  }

  function StartBound(env: Env, job: BatchJob): Time {
    Max(env.now, job.earliestStart.GetOr(job.submitted))
  }

  function Starts(env: Env, job: BatchJob): (r: seq<Time>)
    ensures r != []
  {
    var grid := Slots(StartBound(env, job), job.deadline, job.runtimeMinutes, job.Deferrable());
    if grid == [] then [StartBound(env, job)] else grid
  }

  function ReservationAt(job: BatchJob, start: Time): Reservation {
    Reservation(job.region, HourOf(start), SpanHours(job.DurationHours()), job.resources)
  }

  /** At most a 5% uplift, proportional to the forecast pressure. */
  function Nudged(cost: real, pressure: real): real {
    cost * (1.0 + CONTENTION_WEIGHT * pressure)
  }

  function Evaluate(env: Env, v: Registry, job: BatchJob, start: Time): BatchCandidate {
    var end := start + job.runtimeMinutes * MINUTE;
    var r1 := if end > job.deadline + 60 * SECOND then [DeadlineViolation] else [];
    var grams := env.carbon(job.region, start);
    var r2 := if grams.None? then r1 + [CarbonDataUnavailable] else r1;
    var kg := if grams.None? then None else Some(CarbonKg(job.Energy(), grams.value));
    var price := env.tariff(job.region, job.tariffClass, start);
    var r3 := if price.None? then r2 + [CostDataUnavailable] else r2;
    var cost := if price.None? then None else Some(CostUsd(job.Energy(), price.value));
    var r4 := if job.carbonBudgetKg.Some? && kg.Some? && kg.value > job.carbonBudgetKg.value
              then r3 + [CarbonThreshold] else r3;
    var nudge := env.mlActive && cost.Some?;
    var pressure := if nudge then env.pressure(start, job.region) as real else 0.0;
    var effective := if nudge then Some(Nudged(cost.value, pressure)) else cost;
    BatchCandidate(start, end, r4, kg, cost, pressure, effective,
                   CanFit(v, job.region, start, job.DurationHours(), job.resources))
  }

  function EvaluateAll(env: Env, v: Registry, job: BatchJob, starts: seq<Time>): (r: seq<BatchCandidate>)
    ensures |r| == |starts|
  {
    if starts == [] then []
    else EvaluateAll(env, v, job, starts[..|starts| - 1]) + [Evaluate(env, v, job, starts[|starts| - 1])]
  }

  /** A filter over candidates: the feasible ones, or the ones with capacity. */
  function Keep(capacity: bool, cs: seq<BatchCandidate>): (r: seq<BatchCandidate>)
    ensures forall c :: c in r <==> c in cs && (if capacity then c.hasCapacity else c.Feasible())
  {
    if cs == [] then []
    else
      var last := cs[|cs| - 1];
      assert cs == cs[..|cs| - 1] + [last];
      Keep(capacity, cs[..|cs| - 1])
      + (if (if capacity then last.hasCapacity else last.Feasible()) then [last] else [])
  }

  /** The candidates ranked for a job: the feasible ones, or failing that the very first evaluation. */
  function Eligible(env: Env, v: Registry, job: BatchJob): (r: seq<BatchCandidate>)
    ensures r != []
  {
    var all := EvaluateAll(env, v, job, Starts(env, job));
    if Keep(false, all) == [] then all[..1] else Keep(false, all)
  }

  // ---- Choosing a slot ----

  function IndexOf<T(==)>(x: T, s: seq<T>): nat
    requires x in s
  {
    if s[0] == x then 0 else 1 + IndexOf(x, s[1..])
  }

  /** Less loaded, or equally loaded and ranked no later. */
  predicate LessLoaded(v: Registry, region: string, ranked: seq<BatchCandidate>, a: BatchCandidate, b: BatchCandidate)
    requires a in ranked && b in ranked
  {
    var ua, ub := UtilizationAt(v, region, a.start), UtilizationAt(v, region, b.start);
    ua < ub || (ua == ub && IndexOf(a, ranked) <= IndexOf(b, ranked))
  }

  function LeastLoaded(v: Registry, region: string, ranked: seq<BatchCandidate>, cs: seq<BatchCandidate>)
    : (best: BatchCandidate)
    requires cs != [] && forall c :: c in cs ==> c in ranked
    ensures best in cs
    ensures forall c :: c in cs ==> LessLoaded(v, region, ranked, best, c)
  {
    if |cs| == 1 then cs[0]
    else
      var last := cs[|cs| - 1];
      assert cs == cs[..|cs| - 1] + [last];
      var best := LeastLoaded(v, region, ranked, cs[..|cs| - 1]);
      if LessLoaded(v, region, ranked, best, last) then best else last
  }

  datatype Choice = Choice(chosen: BatchCandidate, preferred: BatchCandidate, spilled: bool)

  /** Preferred slot without contention, then the best slot with capacity, then the least-loaded fallback. */
  function ChooseAmong(policy: Policy, tol: Option<real>, v: Registry, region: string, eligible: seq<BatchCandidate>)
    : Result<Choice, RankError>
    requires eligible != []
  {
    match Rank(BaseLens(), policy, tol, eligible)
    case Failure(e) => Failure(e)
    case Success(ranked) =>
      RankPermutes(BaseLens(), policy, tol, eligible);
      var preferred := ranked[0];
      var fitting := Keep(true, eligible);
      if fitting != [] then
        RankRaises(EffectiveLens(), policy, tol, fitting);
        RankPermutes(EffectiveLens(), policy, tol, fitting);
        var chosen := Rank(EffectiveLens(), policy, tol, fitting).value[0];
        Success(Choice(chosen, preferred, chosen.start != preferred.start))
      else
        Success(Choice(LeastLoaded(v, region, ranked, eligible), preferred, true))
  }

  function Choose(env: Env, v: Registry, job: BatchJob): Result<Choice, RankError> {
    ChooseAmong(env.policyOf(job.tenant).0, env.policyOf(job.tenant).1, v, job.region, Eligible(env, v, job))
  }

  // ---- One job, then the batch ----

  datatype BatchDecision = BatchDecision(jobId: string, chosen: BatchCandidate, spilled: bool, utilization: real)

  datatype Outcome<+T> = Done(value: T, registry: Registry) | Raised(registry: Registry)

  /** The explanation string prints figures that may be missing; printing a missing one raises. */
  predicate ExplanationRaises(env: Env, job: BatchJob, choice: Choice) {
    var (policy, tol) := env.policyOf(job.tenant);
    if choice.spilled then !choice.chosen.Complete()
    else job.Deferrable() && (!choice.chosen.Complete() || (policy == CarbonConstrained && tol.None?))
  }

  function Step(env: Env, v: Registry, job: BatchJob): Outcome<BatchDecision> {
    StepWith(env, v, job, Choose(env, v, job))
  }

  /** What comes of a choice, or of ranking's refusal to make one. */
  function StepWith(env: Env, v: Registry, job: BatchJob, r: Result<Choice, RankError>): Outcome<BatchDecision> {
    match r
    case Failure(_) => Raised(v)
    case Success(choice) =>
      var after := ReservationAt(job, choice.chosen.start).Apply(v);
      if ExplanationRaises(env, job, choice) then Raised(after)
      else Done(BatchDecision(job.id, choice.chosen, choice.spilled,
                              UtilizationAt(after, job.region, choice.chosen.start)), after)
  }

  function Run(env: Env, v: Registry, jobs: seq<BatchJob>): Outcome<seq<BatchDecision>> {
    if jobs == [] then Done([], v)
    else Extend(env, Run(env, v, jobs[..|jobs| - 1]), jobs[|jobs| - 1])
  }

  /** One more job after what a run has done so far. */
  function Extend(env: Env, before: Outcome<seq<BatchDecision>>, job: BatchJob): Outcome<seq<BatchDecision>> {
    if before.Raised? then before else Grow(before.value, Step(env, before.registry, job))
  }

  function Grow(decisions: seq<BatchDecision>, step: Outcome<BatchDecision>): Outcome<seq<BatchDecision>> {
    match step
    case Raised(final) => Raised(final)
    case Done(d, final) => Done(decisions + [d], final)
  }

  /** A whole batch: most urgent job first. */
  function Batch(env: Env, v: Registry, jobs: seq<BatchJob>): Outcome<seq<BatchDecision>> {
    Run(env, v, Sort(ByUrgency(env.now), jobs))
  }

  // ---- Slots and nudge in plain terms ----

  /**
   * The slots a job is given: its bound, being the later of now and its earliest start or else its submission, and
   * every full hour after it if it is deferrable, as far as the run ends by the deadline; the bound alone, if not
   * even that leaves room.
   */
  lemma StartsExact(env: Env, job: BatchJob, t: Time)
    ensures var asked := if job.earliestStart.Some? then job.earliestStart.value else job.submitted;
            var bound := if asked > env.now then asked else env.now;
            var runtime := job.runtimeMinutes * MINUTE;
            t in Starts(env, job)
            <==> if bound + runtime > job.deadline then t == bound
                 else bound <= t && t + runtime <= job.deadline
                      && (t == bound || (job.deferrable != Some(false) && t % HOUR == 0))
  {
    GridExact(StartBound(env, job), job.deadline, job.runtimeMinutes, job.Deferrable());
  }

  /** No pressure leaves the cost alone, full pressure adds a twentieth, and in between it grows evenly. */
  lemma NudgeExact(cost: real, low: real, high: real)
    ensures Nudged(cost, 0.0) == cost && Nudged(cost, 1.0) == 1.05 * cost
    ensures 2.0 * Nudged(cost, (low + high) / 2.0) == Nudged(cost, low) + Nudged(cost, high)
    ensures cost > 0.0 && low < high ==> Nudged(cost, low) < Nudged(cost, high)
  {
  }

  // ---- The imperative scheduler over the shared registry ----

  /** The candidate loop of one job: evaluates each start against telemetry and the registry as it stands. */
  method EvaluateStarts(env: Env, job: BatchJob, registry: SlotCapacityRegistry, starts: seq<Time>)
    returns (evaluations: seq<BatchCandidate>)
    requires registry.Valid()
    ensures evaluations == EvaluateAll(env, registry.View(), job, starts)
  {
    evaluations := [];
    for i := 0 to |starts|
      invariant evaluations == EvaluateAll(env, registry.View(), job, starts[..i])
    {
      EvaluatedNext(env, registry.View(), job, starts, i);
      var c := EvaluateStart(env, job, registry, starts[i]);
      evaluations := evaluations + [c];
    }
    assert starts[..|starts|] == starts;
  }

  lemma EvaluatedNext(env: Env, v: Registry, job: BatchJob, starts: seq<Time>, i: nat)
    requires i < |starts|
    ensures EvaluateAll(env, v, job, starts[..i + 1])
         == EvaluateAll(env, v, job, starts[..i]) + [Evaluate(env, v, job, starts[i])]
  {
    assert starts[..i + 1][..i] == starts[..i];
  }

  method EvaluateStart(env: Env, job: BatchJob, registry: SlotCapacityRegistry, start: Time)
    returns (c: BatchCandidate)
    requires registry.Valid()
    ensures c == Evaluate(env, registry.View(), job, start)
  {
    var reasons: seq<Reason> := [];
    var end := start + job.runtimeMinutes * MINUTE;
    if end > job.deadline + 60 * SECOND {
      reasons := reasons + [DeadlineViolation];
    }
    var kg, cost := None, None;
    var grams := env.carbon(job.region, start);
    if grams.None? {
      reasons := reasons + [CarbonDataUnavailable];
    } else {
      kg := Some(CarbonKg(job.Energy(), grams.value));
    }
    var price := env.tariff(job.region, job.tariffClass, start);
    if price.None? {
      reasons := reasons + [CostDataUnavailable];
    } else {
      cost := Some(CostUsd(job.Energy(), price.value));
    }
    if job.carbonBudgetKg.Some? && kg.Some? {
      if kg.value > job.carbonBudgetKg.value {
        reasons := reasons + [CarbonThreshold];
      }
    }
    var pressure, effective := 0.0, cost;
    if env.mlActive && cost.Some? {
      pressure := env.pressure(start, job.region);
      effective := Some(Nudged(cost.value, pressure));
    }
    var fits := registry.CanFitSpan(job.region, start, job.DurationHours(), job.resources);
    c := BatchCandidate(start, end, reasons, kg, cost, pressure, effective, fits);
  }

  /** The fallback's scan for the least-loaded slot, policy rank breaking ties. */
  method PickLeastLoaded(region: string, registry: SlotCapacityRegistry, ranked: seq<BatchCandidate>,
                         cs: seq<BatchCandidate>)
    returns (best: BatchCandidate)
    requires registry.Valid() && cs != [] && forall c :: c in cs ==> c in ranked
    ensures best == LeastLoaded(registry.View(), region, ranked, cs)
  {
    best := cs[0];
    var least := registry.UtilizationOf(region, best.start);
    for i := 1 to |cs|
      invariant best in ranked && best == LeastLoaded(registry.View(), region, ranked, cs[..i])
      invariant least == UtilizationAt(registry.View(), region, best.start)
    {
      LeastLoadedNext(registry.View(), region, ranked, cs, i);
      var load := registry.UtilizationOf(region, cs[i].start);
      if !(least < load || (least == load && IndexOf(best, ranked) <= IndexOf(cs[i], ranked))) {
        best, least := cs[i], load;
      }
    }
    assert cs[..|cs|] == cs;
  }

  lemma LeastLoadedNext(v: Registry, region: string, ranked: seq<BatchCandidate>, cs: seq<BatchCandidate>, i: nat)
    requires 0 < i < |cs| && forall c :: c in cs ==> c in ranked
    ensures var best := LeastLoaded(v, region, ranked, cs[..i]);
            LeastLoaded(v, region, ranked, cs[..i + 1])
            == if LessLoaded(v, region, ranked, best, cs[i]) then best else cs[i]
  {
    assert cs[..i + 1][..i] == cs[..i];
  }

  /** The feasible candidates, or failing that the first one alone. */
  method EligibleSlots(env: Env, job: BatchJob, registry: SlotCapacityRegistry)
    returns (eligible: seq<BatchCandidate>)
    requires registry.Valid()
    ensures eligible == Eligible(env, registry.View(), job)
  {
    var starts := GenerateCandidateSlots(StartBound(env, job), job.deadline, job.runtimeMinutes, job.Deferrable());
    if starts == [] {
      starts := [StartBound(env, job)];
    }
    var evaluations := EvaluateStarts(env, job, registry, starts);
    eligible := Keep(false, evaluations);
    if eligible == [] {
      eligible := evaluations[..1];
    }
  }

  method ChooseSlot(env: Env, job: BatchJob, registry: SlotCapacityRegistry) returns (r: Result<Choice, RankError>)
    requires registry.Valid()
    ensures r == Choose(env, registry.View(), job)
  {
    var (policy, tol) := env.policyOf(job.tenant);
    var eligible := EligibleSlots(env, job, registry);
    r := RankAndPick(policy, tol, job.region, registry, eligible);
  }

  method RankAndPick(policy: Policy, tol: Option<real>, region: string, registry: SlotCapacityRegistry,
                     eligible: seq<BatchCandidate>)
    returns (r: Result<Choice, RankError>)
    requires registry.Valid() && eligible != []
    ensures r == ChooseAmong(policy, tol, registry.View(), region, eligible)
  {
    var preferredRanking := RankFeasibleCandidates(BaseLens(), policy, tol, eligible);
    if preferredRanking.Failure? {
      return Failure(preferredRanking.error);
    }
    RankPermutes(BaseLens(), policy, tol, eligible);
    var preferred := preferredRanking.value[0];
    var fitting := Keep(true, eligible);
    if fitting != [] {
      var ranking := RankFeasibleCandidates(EffectiveLens(), policy, tol, fitting);
      RankRaises(EffectiveLens(), policy, tol, fitting);
      RankPermutes(EffectiveLens(), policy, tol, fitting);
      var chosen := ranking.value[0];
      r := Success(Choice(chosen, preferred, chosen.start != preferred.start));
    } else {
      var chosen := PickLeastLoaded(region, registry, preferredRanking.value, eligible);
      r := Success(Choice(chosen, preferred, true));
    }
  }

  method ScheduleOne(env: Env, job: BatchJob, registry: SlotCapacityRegistry) returns (d: Option<BatchDecision>)
    requires registry.Valid()
    modifies registry, registry.Repr
    ensures registry.Valid()
    ensures fresh(registry.Repr - old(registry.Repr))
    ensures registry.View() == Step(env, old(registry.View()), job).registry
    ensures d == Returned(Step(env, old(registry.View()), job))
  {
    var choice := ChooseSlot(env, job, registry);
    if choice.Failure? {
      return None;
    }
    var chosen := choice.value.chosen;
    var _ := registry.AllocateSpan(job.region, chosen.start, job.DurationHours(), job.resources);
    var utilization := registry.UtilizationOf(job.region, chosen.start);
    if ExplanationRaises(env, job, choice.value) {
      return None;
    }
    d := Some(BatchDecision(job.id, chosen, choice.value.spilled, utilization));
  }

  /** What a raised batch leaves for its caller: no decisions at all. */
  function Returned<T>(o: Outcome<T>): Option<T> {
    if o.Done? then Some(o.value) else None
  }

  /** The batch loop; None stands for the exception that takes every decision of the batch with it. */
  method ScheduleBatch(env: Env, jobs: seq<BatchJob>, registry: SlotCapacityRegistry)
    returns (r: Option<seq<BatchDecision>>)
    requires registry.Valid()
    modifies registry, registry.Repr
    ensures registry.Valid()
    ensures registry.View() == Batch(env, old(registry.View()), jobs).registry
    ensures r == Returned(Batch(env, old(registry.View()), jobs))
  {
    r := ScheduleInOrder(env, Sort(ByUrgency(env.now), jobs), registry);
  }

  method ScheduleInOrder(env: Env, sorted: seq<BatchJob>, registry: SlotCapacityRegistry)
    returns (r: Option<seq<BatchDecision>>)
    requires registry.Valid()
    modifies registry, registry.Repr
    ensures registry.Valid()
    ensures registry.View() == Run(env, old(registry.View()), sorted).registry
    ensures r == Returned(Run(env, old(registry.View()), sorted))
  {
    var decisions: seq<BatchDecision> := [];
    ghost var before := registry.View();
    for i := 0 to |sorted|
      invariant registry.Valid()
      invariant fresh(registry.Repr - old(registry.Repr))
      invariant Reached(env, before, sorted, i, decisions, registry.View())
    {
      var d := ScheduleNext(env, sorted, i, registry, before, decisions);
      if d.None? {
        return None;
      }
      decisions := decisions + [d.value];
    }
    assert sorted[..|sorted|] == sorted;
    r := Some(decisions);
  }

  /** One turn of the loop: the i-th job is decided, or the whole run has raised. */
  method ScheduleNext(env: Env, sorted: seq<BatchJob>, i: nat, registry: SlotCapacityRegistry, ghost before: Registry,
                      ghost decisions: seq<BatchDecision>)
    returns (d: Option<BatchDecision>)
    requires registry.Valid() && i < |sorted| && Reached(env, before, sorted, i, decisions, registry.View())
    modifies registry, registry.Repr
    ensures registry.Valid() && fresh(registry.Repr - old(registry.Repr))
    ensures d.None? ==> Run(env, before, sorted) == Raised(registry.View())
    ensures d.Some? ==> Reached(env, before, sorted, i + 1, decisions + [d.value], registry.View())
  {
    RunStep(env, before, sorted, i, decisions, registry.View());
    d := ScheduleOne(env, sorted[i], registry);
  }

  /** The first i jobs have been decided. */
  ghost predicate Reached(env: Env, v: Registry, jobs: seq<BatchJob>, i: nat, decisions: seq<BatchDecision>,
                          here: Registry)
    requires i <= |jobs|
  {
    Run(env, v, jobs[..i]) == Done(decisions, here)
  }

  /** One more job: either the run goes on with its decision, or the whole batch has raised. */
  lemma RunStep(env: Env, v: Registry, jobs: seq<BatchJob>, i: nat, decisions: seq<BatchDecision>, here: Registry)
    requires i < |jobs| && Reached(env, v, jobs, i, decisions, here)
    ensures Step(env, here, jobs[i]).Raised? ==> Run(env, v, jobs) == Raised(Step(env, here, jobs[i]).registry)
    ensures Step(env, here, jobs[i]).Done? ==>
              Reached(env, v, jobs, i + 1, decisions + [Step(env, here, jobs[i]).value],
                      Step(env, here, jobs[i]).registry)
  {
    RunNext(env, v, jobs, i);
    if Step(env, here, jobs[i]).Raised? {
      RaisedStays(env, v, jobs, i + 1);
    }
  }

  lemma RunNext(env: Env, v: Registry, jobs: seq<BatchJob>, i: nat)
    requires i < |jobs|
    ensures Run(env, v, jobs[..i + 1]) == Extend(env, Run(env, v, jobs[..i]), jobs[i])
  {
    assert jobs[..i + 1][..i] == jobs[..i];
  }

  /** Once a job has raised, the rest of the batch changes nothing. */
  lemma {:induction false} RaisedStays(env: Env, v: Registry, jobs: seq<BatchJob>, i: nat)
    requires i <= |jobs| && Run(env, v, jobs[..i]).Raised?
    ensures Run(env, v, jobs) == Run(env, v, jobs[..i])
  {
    if i == |jobs| {
      assert jobs[..i] == jobs;
    } else {
      var front := jobs[..|jobs| - 1];
      assert front[..i] == jobs[..i];
      RaisedStays(env, v, front, i);
    }
  }
}
