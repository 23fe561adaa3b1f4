/** Constraint-first single-job scheduling (app/decide/scheduler.py) and its impact report. */
module SingleScheduler {
  import opened Prelude
  import opened Rounding
  import opened Ranking
  import opened Telemetry
  import opened ClusterState
  import opened CandidateGrid

  // ---- Impact (app/decide/impact_calculator.py) ----

  datatype Impact = Impact(carbonAvoided: real, costAvoided: real, delayHours: real, slaMet: bool)

  /** One way to run the workload: when, at which intensity and at which price. */
  datatype Scenario = Scenario(start: Time, gramsPerKwh: real, pricePerKwh: real)

  function CalculateImpact(energy: real, deadline: Time, runtimeMinutes: nat, baseline: Scenario, selected: Scenario)
    : Impact
  {
    Impact(
      MaxReal(0.0, CarbonKg(energy, baseline.gramsPerKwh) - CarbonKg(energy, selected.gramsPerKwh)),
      CostUsd(energy, baseline.pricePerKwh) - CostUsd(energy, selected.pricePerKwh),
      MaxReal(0.0, (selected.start - baseline.start) as real / HOUR as real),
      selected.start + runtimeMinutes * MINUTE <= deadline + SECOND)
  }

  // ---- Inputs and outputs ----

  datatype Workload = Workload(
    deadline: Time, runtimeMinutes: nat, powerKw: real, energyKwh: Option<real>, carbonBudgetKg: Option<real>,
    earliestStart: Option<Time>, deferrable: Option<bool>, resources: Resources)
  {
    function Energy(): real { WorkloadEnergy(energyKwh, powerKw, runtimeMinutes) }
    function Deferrable(): bool { deferrable.GetOr(true) }
  }

  datatype World = World(
    now: Time, regionEligible: bool, cluster: Snapshot,
    carbon: CarbonCurve, tariff: TariffCurve, template: Time -> Option<real>)

  datatype Reason =
    | SlaViolation | PolicyRestriction | InsufficientCpu | InsufficientRam | GpuUnavailable | ResourceUnavailable
    | CarbonDataUnavailable | CostDataUnavailable | CarbonThreshold

  datatype Candidate = Candidate(
    start: Time, end: Time, reasons: seq<Reason>, gramsPerKwh: Option<real>, carbonKg: Option<real>,
    cost: Option<real>, price: Option<real>, isFallback: bool)
  {
    predicate Feasible() { reasons == [] }
  }

  datatype Decision = Decision(
    selected: Candidate, ranked: seq<Candidate>, evaluated: nat, rejections: map<Reason, nat>,
    baselineStart: Time, impact: Impact)

  datatype SchedulingError = BadTolerance(pct: real) | DeadlineTooSoon | NoFeasibleWindow

  function CandidateLens(): Lens<Candidate> {
    Lens((c: Candidate) => c.carbonKg, (c: Candidate) => c.cost, (c: Candidate) => c.start)
  }

  function StartBound(world: World, job: Workload): Time {
    if job.earliestStart.Some? then Max(world.now, job.earliestStart.value) else world.now
  }

  function Grid(world: World, job: Workload): seq<Time> {
    Slots(StartBound(world, job), job.deadline, job.runtimeMinutes, job.Deferrable())
  }

  // ---- Hard constraints ----

  /** One more reason when its test fails. */
  function Add(reasons: seq<Reason>, failed: bool, r: Reason): (more: seq<Reason>)
    ensures forall x :: x in more <==> x in reasons || (failed && x == r)
    ensures more == [] <==> reasons == [] && !failed
  {
    if failed then reasons + [r] else reasons
  }

  /** What deadline and region have against a slot. */
  function EarlierReasons(world: World, job: Workload, t: Time): seq<Reason> {
    Add(if t + job.runtimeMinutes * MINUTE > job.deadline then [SlaViolation, SlaViolation] else [],
        !world.regionEligible, PolicyRestriction)
  }

  function ResourceReasons(world: World, job: Workload, earlier: seq<Reason>): seq<Reason> {
    if IsResourceFeasible(world.cluster, job.resources) then earlier
    else
      var free, asked := world.cluster.free, job.resources;
      var r1 := Add(earlier, free.cpu < asked.cpu, InsufficientCpu);
      var r2 := Add(r1, free.mem < asked.mem, InsufficientRam);
      var r3 := Add(r2, asked.gpus > 0 && free.gpus < asked.gpus, GpuUnavailable);
      Add(r3, r3 == [], ResourceUnavailable)
  }

  function Evaluate(world: World, job: Workload, start: Time): Candidate {
    var end := start + job.runtimeMinutes * MINUTE;
    var r1 := ResourceReasons(world, job, EarlierReasons(world, job, start));
    var (grams, isFallback) := InterpolateCarbon(start, world.carbon);
    var r2 := Add(r1, grams.None?, CarbonDataUnavailable);
    var kg := if grams.None? then None else Some(CarbonKg(job.Energy(), grams.value));
    var price := InterpolateTariff(start, world.tariff, world.template);
    var r3 := Add(r2, price.None?, CostDataUnavailable);
    var cost := if price.None? then None else Some(CostUsd(job.Energy(), price.value));
    var r4 := Add(r3, job.carbonBudgetKg.Some? && kg.Some? && kg.value > job.carbonBudgetKg.value, CarbonThreshold);
    Candidate(start, end, r4, grams, kg, cost, price, isFallback)
  }

  function EvaluateAll(world: World, job: Workload, starts: seq<Time>): (r: seq<Candidate>)
    ensures |r| == |starts|
  {
    if starts == [] then []
    else EvaluateAll(world, job, starts[..|starts| - 1]) + [Evaluate(world, job, starts[|starts| - 1])]
  }

  lemma {:induction false} EvaluateAllAt(world: World, job: Workload, starts: seq<Time>, i: nat)
    requires i < |starts|
    ensures EvaluateAll(world, job, starts)[i] == Evaluate(world, job, starts[i])
  {
    if i < |starts| - 1 {
      EvaluateAllAt(world, job, starts[..|starts| - 1], i);
    }
  }

  function FeasibleOnes(cs: seq<Candidate>): (r: seq<Candidate>)
    ensures forall c :: c in r <==> c in cs && c.Feasible()
  {
    if cs == [] then []
    else
      var last := cs[|cs| - 1];
      assert cs == cs[..|cs| - 1] + [last];
      FeasibleOnes(cs[..|cs| - 1]) + (if last.Feasible() then [last] else [])
  }

  function Occurrences(reasons: seq<Reason>, r: Reason): nat {
    multiset(reasons)[r]
  }

  function Rejections(cs: seq<Candidate>, r: Reason): nat {
    if cs == [] then 0 else Rejections(cs[..|cs| - 1], r) + Occurrences(cs[|cs| - 1].reasons, r)
  }

  /** The counter dictionary holds exactly the reasons seen, each with how often it was given. */
  ghost predicate Summarizes(summary: map<Reason, nat>, cs: seq<Candidate>) {
    forall r :: (r in summary <==> Rejections(cs, r) > 0) && (r in summary ==> summary[r] == Rejections(cs, r))
  }

  method CountReasons(summary: map<Reason, nat>, reasons: seq<Reason>, ghost cs: seq<Candidate>)
    returns (summary': map<Reason, nat>)
    requires Summarizes(summary, cs)
    ensures forall r :: (r in summary' <==> Rejections(cs, r) + Occurrences(reasons, r) > 0)
                     && (r in summary' ==> summary'[r] == Rejections(cs, r) + Occurrences(reasons, r))
  {
    summary' := summary;
    for i := 0 to |reasons|
      invariant forall r :: (r in summary' <==> Rejections(cs, r) + Occurrences(reasons[..i], r) > 0)
                         && (r in summary' ==> summary'[r] == Rejections(cs, r) + Occurrences(reasons[..i], r))
    {
      assert reasons[..i + 1] == reasons[..i] + [reasons[i]];
      var seen := if reasons[i] in summary' then summary'[reasons[i]] else 0;
      summary' := summary'[reasons[i] := seen + 1];
    }
    assert reasons[..|reasons|] == reasons;
  }

  function BaselineScenario(world: World, selected: Candidate, start: Time): Scenario {
    Scenario(start,
             InterpolateCarbon(start, world.carbon).0.GetOr(selected.gramsPerKwh.GetOr(0.0)),
             InterpolateTariff(start, world.tariff, world.template).GetOr(selected.price.GetOr(0.0)))
  }

  function ImpactOf(world: World, job: Workload, selected: Candidate): Impact
    requires Grid(world, job) != []
  {
    CalculateImpact(job.Energy(), job.deadline, job.runtimeMinutes,
                    BaselineScenario(world, selected, Grid(world, job)[0]),
                    Scenario(selected.start, selected.gramsPerKwh.GetOr(0.0), selected.price.GetOr(0.0)))
  }

  function FeasibleCandidates(world: World, job: Workload): seq<Candidate> {
    FeasibleOnes(EvaluateAll(world, job, Grid(world, job)))
  }

  predicate ToleranceOk(policy: Option<Policy>, tol: Option<real>) {
    policy.GetOr(CarbonFirst) == CarbonConstrained ==> ValidTolerance(Tolerance(tol))
  }

  lemma EvaluatedNext(world: World, job: Workload, grid: seq<Time>, i: nat)
    requires i < |grid|
    ensures var done, next, c := EvaluateAll(world, job, grid[..i]), EvaluateAll(world, job, grid[..i + 1]),
                                 Evaluate(world, job, grid[i]);
            next == done + [c] && FeasibleOnes(next) == FeasibleOnes(done) + (if c.Feasible() then [c] else [])
  {
    assert grid[..i + 1][..i] == grid[..i];
    var done, c := EvaluateAll(world, job, grid[..i]), Evaluate(world, job, grid[i]);
    assert (done + [c])[..|done|] == done;
  }

  /** The evaluation loop, keeping every evaluation and, beside it, the feasible ones. */
  method EvaluateSlots(world: World, job: Workload, grid: seq<Time>)
    returns (evaluations: seq<Candidate>, feasible: seq<Candidate>)
    ensures evaluations == EvaluateAll(world, job, grid) && feasible == FeasibleOnes(EvaluateAll(world, job, grid))
  {
    evaluations, feasible := [], [];
    for i := 0 to |grid|
      invariant evaluations == EvaluateAll(world, job, grid[..i])
      invariant feasible == FeasibleOnes(EvaluateAll(world, job, grid[..i]))
    {
      EvaluatedNext(world, job, grid, i);
      var c := Evaluate(world, job, grid[i]);
      evaluations := evaluations + [c];
      feasible := feasible + if c.Feasible() then [c] else [];
    }
    assert grid[..|grid|] == grid;
  }

  /** The whole single-job scheduler: evaluate every grid slot, keep the feasible ones, rank, report. */
  method ScheduleJob(world: World, job: Workload, policy: Option<Policy>, tol: Option<real>)
    returns (r: Result<Decision, SchedulingError>)
    ensures r.Failure? <==> !ToleranceOk(policy, tol) || FeasibleCandidates(world, job) == []
    ensures r.Failure? ==> r.error == if !ToleranceOk(policy, tol) then BadTolerance(Tolerance(tol))
                                      else if Grid(world, job) == [] then DeadlineTooSoon else NoFeasibleWindow
    ensures r.Success? ==>
              var d, effective := r.value, policy.GetOr(CarbonFirst);
              && Rank(CandidateLens(), effective, tol, FeasibleCandidates(world, job)) == Success(d.ranked)
              && d.ranked != [] && d.selected == d.ranked[0]
              && d.evaluated == |Grid(world, job)|
              && Summarizes(d.rejections, EvaluateAll(world, job, Grid(world, job)))
              && Grid(world, job) != [] && d.baselineStart == Grid(world, job)[0]
              && d.impact == ImpactOf(world, job, d.selected)
  {
    var effective := policy.GetOr(CarbonFirst);
    if effective == CarbonConstrained && !ValidTolerance(Tolerance(tol)) {
      return Failure(BadTolerance(Tolerance(tol)));
    }
    var grid := GenerateCandidateSlots(StartBound(world, job), job.deadline, job.runtimeMinutes, job.Deferrable());
    if grid == [] {
      return Failure(DeadlineTooSoon);
    }
    var evaluations, feasible := EvaluateSlots(world, job, grid);
    if feasible == [] {
      return Failure(NoFeasibleWindow);
    }
    assert feasible == FeasibleCandidates(world, job);
    var ranked := RankAll(effective, tol, feasible);
    var decision := Report(world, job, ranked, evaluations);
    r := Success(decision);
  }

  /** The decision for a ranking: its head, the rejections of the grid's slots and the gain on the first slot. */
  method Report(world: World, job: Workload, ranked: seq<Candidate>, evaluations: seq<Candidate>)
    returns (d: Decision)
    requires ranked != [] && Grid(world, job) != []
    requires evaluations == EvaluateAll(world, job, Grid(world, job))
    ensures d.ranked == ranked && d.selected == ranked[0] && d.evaluated == |Grid(world, job)|
    ensures Summarizes(d.rejections, evaluations)
    ensures d.baselineStart == Grid(world, job)[0] && d.impact == ImpactOf(world, job, ranked[0])
  {
    var rejections := SummarizeRejections(evaluations);
    var impact := ImpactOf(world, job, ranked[0]);
    d := Decision(ranked[0], ranked, |evaluations|, rejections, Grid(world, job)[0], impact);
  }

  method RankAll(policy: Policy, tol: Option<real>, feasible: seq<Candidate>) returns (ranked: seq<Candidate>)
    requires feasible != [] && (policy == CarbonConstrained ==> ValidTolerance(Tolerance(tol)))
    ensures ranked != [] && Rank(CandidateLens(), policy, tol, feasible) == Success(ranked)
  {
    var ranking := RankFeasibleCandidates(CandidateLens(), policy, tol, feasible);
    RankPermutes(CandidateLens(), policy, tol, feasible);
    ranked := ranking.value;
  }

  method SummarizeRejections(cs: seq<Candidate>) returns (summary: map<Reason, nat>)
    ensures Summarizes(summary, cs)
  {
    summary := map[];
    for i := 0 to |cs|
      invariant Summarizes(summary, cs[..i])
    {
      assert cs[..i + 1][..i] == cs[..i];
      summary := CountReasons(summary, cs[i].reasons, cs[..i]);
    }
    assert cs[..|cs|] == cs;
  }

  // ---- Soundness, completeness and optimality ----

  /** Everything a slot needs apart from lying on the grid, said without reasons or evaluations. */
  predicate Admissible(world: World, job: Workload, t: Time) {
    && world.regionEligible
    && IsResourceFeasible(world.cluster, job.resources)
    && InterpolateCarbon(t, world.carbon).0.Some?
    && InterpolateTariff(t, world.tariff, world.template).Some?
    && (job.carbonBudgetKg.Some? ==>
          CarbonKg(job.Energy(), InterpolateCarbon(t, world.carbon).0.value) <= job.carbonBudgetKg.value)
  }

  /** On the grid a slot passes exactly when it is admissible; the deadline rejection never fires there. */
  lemma EvaluateExact(world: World, job: Workload, t: Time)
    requires t in Grid(world, job)
    ensures Evaluate(world, job, t).Feasible() <==> Admissible(world, job, t)
    ensures SlaViolation !in Evaluate(world, job, t).reasons
    ensures Evaluate(world, job, t).end <= job.deadline
  {
    GridExact(StartBound(world, job), job.deadline, job.runtimeMinutes, job.Deferrable());
  }

  lemma FeasibleCandidateIffAdmissibleSlot(world: World, job: Workload, c: Candidate)
    ensures c in FeasibleCandidates(world, job)
       <==> c.start in Grid(world, job) && Admissible(world, job, c.start) && c == Evaluate(world, job, c.start)
  {
    var grid := Grid(world, job);
    var all := EvaluateAll(world, job, grid);
    if c in all {
      var i :| 0 <= i < |all| && all[i] == c;
      EvaluateAllAt(world, job, grid, i);
      EvaluateExact(world, job, grid[i]);
    }
    if c.start in grid && c == Evaluate(world, job, c.start) {
      var i :| 0 <= i < |grid| && grid[i] == c.start;
      EvaluateAllAt(world, job, grid, i);
      EvaluateExact(world, job, grid[i]);
      assert all[i] in all;
    }
  }

  /** For a valid tolerance the scheduler raises exactly when no grid slot is admissible. */
  lemma RaisesIffNothingAdmissible(world: World, job: Workload)
    ensures FeasibleCandidates(world, job) == [] <==> forall t :: t in Grid(world, job) ==> !Admissible(world, job, t)
  {
    var feasible := FeasibleCandidates(world, job);
    if feasible != [] {
      assert feasible[0] in feasible;
      FeasibleCandidateIffAdmissibleSlot(world, job, feasible[0]);
    }
    forall t | t in Grid(world, job) && Admissible(world, job, t) ensures feasible != [] {
      FeasibleCandidateIffAdmissibleSlot(world, job, Evaluate(world, job, t));
    }
  }

  ghost predicate Selected(world: World, job: Workload, policy: Policy, tol: Option<real>, c: Candidate) {
    var s := FeasibleCandidates(world, job);
    s != [] && Rank(CandidateLens(), policy, tol, s).Success? && c == Winner(CandidateLens(), policy, tol, s)
  }

  /** The slot returned lies on the grid, meets deadline and carbon budget, and no admissible slot ranks before it. */
  lemma SelectedIsSoundAndOptimal(world: World, job: Workload, policy: Policy, tol: Option<real>, c: Candidate, t: Time)
    requires Selected(world, job, policy, tol, c)
    requires t in Grid(world, job) && Admissible(world, job, t)
    ensures c.start in Grid(world, job) && Admissible(world, job, c.start) && c == Evaluate(world, job, c.start)
    ensures c.end <= job.deadline
    ensures job.carbonBudgetKg.Some? ==> c.carbonKg.Some? && c.carbonKg.value <= job.carbonBudgetKg.value
    ensures Precedes(CandidateLens(), policy, Limit(CandidateLens(), tol, FeasibleCandidates(world, job)),
                     c, Evaluate(world, job, t))
  {
    FeasibleCandidateIffAdmissibleSlot(world, job, Evaluate(world, job, t));
    WinnerIsBest(CandidateLens(), policy, tol, FeasibleCandidates(world, job), Evaluate(world, job, t));
    FeasibleCandidateIffAdmissibleSlot(world, job, c);
    EvaluateExact(world, job, c.start);
  }

  lemma SelectedStartsOnGrid(world: World, job: Workload, policy: Policy, tol: Option<real>, c: Candidate)
    requires Selected(world, job, policy, tol, c)
    ensures Grid(world, job) != [] && c.start in Grid(world, job) && c.start >= Grid(world, job)[0]
    ensures c.start + job.runtimeMinutes * MINUTE <= job.deadline
  {
    var s := FeasibleCandidates(world, job);
    WinnerIsBest(CandidateLens(), policy, tol, s, s[0]);
    FeasibleCandidateIffAdmissibleSlot(world, job, c);
    EvaluateExact(world, job, c.start);
    GridExact(StartBound(world, job), job.deadline, job.runtimeMinutes, job.Deferrable());
  }

  /** The report always says the deadline is met, and its delay is the plain difference of the two starts. */
  lemma ReportedSlaAndDelay(world: World, job: Workload, policy: Policy, tol: Option<real>, c: Candidate)
    requires Selected(world, job, policy, tol, c)
    ensures Grid(world, job) != [] && c.start >= Grid(world, job)[0]
    ensures ImpactOf(world, job, c).slaMet
    ensures ImpactOf(world, job, c).delayHours == (c.start - Grid(world, job)[0]) as real / HOUR as real
  {
    SelectedStartsOnGrid(world, job, policy, tol, c);
  }

  /** The immediate slot is known in full, and at most the carbon budget speaks against it. */
  predicate BaselineKnown(world: World, job: Workload, t: Time) {
    && world.regionEligible
    && IsResourceFeasible(world.cluster, job.resources)
    && InterpolateCarbon(t, world.carbon).0.Some?
    && InterpolateTariff(t, world.tariff, world.template).Some?
  }

  /**
   * Carbon-first never emits more than running at once by over 1e-6 kg, so clamping the saving at zero
   * changes it by at most that much.
   */
  lemma CarbonFirstBeatsBaseline(world: World, job: Workload, tol: Option<real>, c: Candidate)
    requires Selected(world, job, CarbonFirst, tol, c) && BaselineKnown(world, job, Grid(world, job)[0])
    ensures var baseline := Evaluate(world, job, Grid(world, job)[0]);
            && baseline.carbonKg.Some? && c.carbonKg.Some?
            && c.carbonKg.value <= baseline.carbonKg.value + EPSILON
            && (var saved := baseline.carbonKg.value - c.carbonKg.value;
                saved <= ImpactOf(world, job, c).carbonAvoided <= saved + EPSILON)
  {
    var first := Grid(world, job)[0];
    var baseline := Evaluate(world, job, first);
    var lens, s := CandidateLens(), FeasibleCandidates(world, job);
    WinnerIsBest(lens, CarbonFirst, tol, s, s[0]);
    FeasibleCandidateIffAdmissibleSlot(world, job, c);
    if Admissible(world, job, first) {
      FeasibleCandidateIffAdmissibleSlot(world, job, baseline);
      WinnerIsBest(lens, CarbonFirst, tol, s, baseline);
      QuantiseOrder(lens.Carbon(c), lens.Carbon(baseline));
    }
  }

  /** Cost-first with an admissible immediate slot never costs more than that slot by over 1e-6. */
  lemma CostFirstBeatsBaseline(world: World, job: Workload, tol: Option<real>, c: Candidate)
    requires Selected(world, job, CostFirst, tol, c) && Admissible(world, job, Grid(world, job)[0])
    ensures var baseline := Evaluate(world, job, Grid(world, job)[0]);
            && baseline.cost.Some? && c.cost.Some? && c.cost.value <= baseline.cost.value + EPSILON
            && ImpactOf(world, job, c).costAvoided >= -EPSILON
  {
    var first := Grid(world, job)[0];
    var baseline := Evaluate(world, job, first);
    var lens, s := CandidateLens(), FeasibleCandidates(world, job);
    FeasibleCandidateIffAdmissibleSlot(world, job, baseline);
    WinnerIsBest(lens, CostFirst, tol, s, baseline);
    QuantiseOrder(lens.Cost(c), lens.Cost(baseline));
    FeasibleCandidateIffAdmissibleSlot(world, job, c);
  }

  // ---- What is reported ----

  /** The slots tried, in the job's own terms: the bound, and for deferrable jobs every full hour that leaves room. */
  lemma SlotsInPlainTerms(world: World, job: Workload, t: Time)
    ensures var bound := if job.earliestStart.Some? && job.earliestStart.value > world.now
                         then job.earliestStart.value else world.now;
            t in Grid(world, job)
            <==> && bound <= t && t + job.runtimeMinutes * MINUTE <= job.deadline
                 && (t == bound || (job.deferrable != Some(false) && t % HOUR == 0))
  {
    GridExact(StartBound(world, job), job.deadline, job.runtimeMinutes, job.Deferrable());
  }

  /** A resource the cluster's totals are short of. */
  predicate ShortOf(free: Resources, asked: Resources, r: Reason) {
    || (r == InsufficientCpu && free.cpu < asked.cpu)
    || (r == InsufficientRam && free.mem < asked.mem)
    || (r == GpuUnavailable && asked.gpus > 0 && free.gpus < asked.gpus)
  }

  /** The resource reasons name what is short; the general one stands in where no reason at all was given. */
  lemma ResourceReasonsExact(world: World, job: Workload, earlier: seq<Reason>, r: Reason)
    ensures var free, asked := world.cluster.free, job.resources;
            r in ResourceReasons(world, job, earlier)
            <==> || r in earlier
                 || (!IsResourceFeasible(world.cluster, asked)
                     && (ShortOf(free, asked, r) || (r == ResourceUnavailable && earlier == [] && Covers(free, asked))))
  {
  }

  /** A slot's rejection reasons are exactly these. */
  lemma ReasonsExact(world: World, job: Workload, t: Time, r: Reason)
    ensures var late, grams := t + job.runtimeMinutes * MINUTE > job.deadline, InterpolateCarbon(t, world.carbon).0;
            var free, asked := world.cluster.free, job.resources;
            r in Evaluate(world, job, t).reasons <==>
              match r
              case SlaViolation => late
              case PolicyRestriction => !world.regionEligible
              case CarbonDataUnavailable => grams.None?
              case CostDataUnavailable => InterpolateTariff(t, world.tariff, world.template).None?
              case CarbonThreshold => job.carbonBudgetKg.Some? && grams.Some?
                                      && CarbonKg(job.Energy(), grams.value) > job.carbonBudgetKg.value
              case ResourceUnavailable => !IsResourceFeasible(world.cluster, asked) && Covers(free, asked)
                                          && !late && world.regionEligible
              case _ => !IsResourceFeasible(world.cluster, asked) && ShortOf(free, asked, r)
  {
    var earlier := EarlierReasons(world, job, t);
    TelemetryReasonsExact(world, job, t, r);
    ResourceReasonsExact(world, job, earlier, r);
  }

  lemma TelemetryReasonsExact(world: World, job: Workload, t: Time, r: Reason)
    ensures var grams := InterpolateCarbon(t, world.carbon).0;
            r in Evaluate(world, job, t).reasons <==>
              || r in ResourceReasons(world, job, EarlierReasons(world, job, t))
              || (r == CarbonDataUnavailable && grams.None?)
              || (r == CostDataUnavailable && InterpolateTariff(t, world.tariff, world.template).None?)
              || (r == CarbonThreshold && job.carbonBudgetKg.Some? && grams.Some?
                  && CarbonKg(job.Energy(), grams.value) > job.carbonBudgetKg.value)
  {
  }

  /** A slot's figures are those of its own start, under the job's stated energy or else that of power and runtime. */
  lemma FiguresExact(world: World, job: Workload, t: Time)
    ensures var c, energy := Evaluate(world, job, t), WorkloadEnergy(job.energyKwh, job.powerKw, job.runtimeMinutes);
            && c.start == t && c.end - c.start == job.runtimeMinutes * MINUTE
            && (c.gramsPerKwh, c.isFallback) == InterpolateCarbon(t, world.carbon)
            && c.price == InterpolateTariff(t, world.tariff, world.template)
            && (c.carbonKg.Some? <==> c.gramsPerKwh.Some?) && (c.cost.Some? <==> c.price.Some?)
            && (c.carbonKg.Some? ==> c.carbonKg.value == CarbonKg(energy, c.gramsPerKwh.value))
            && (c.cost.Some? ==> c.cost.value == CostUsd(energy, c.price.value))
  {
  }

  /** The savings reported are the differences between the first slot and the selected one; a figure the first slot
      lacks is taken from the selected one, so nothing is claimed for it. */
  lemma SavingsExact(world: World, job: Workload, policy: Policy, tol: Option<real>, c: Candidate)
    requires Selected(world, job, policy, tol, c)
    ensures Grid(world, job) != [] && c.carbonKg.Some? && c.cost.Some?
    ensures var baseline, impact := Evaluate(world, job, Grid(world, job)[0]), ImpactOf(world, job, c);
            && impact.costAvoided == (if baseline.cost.Some? then baseline.cost.value - c.cost.value else 0.0)
            && impact.carbonAvoided
            == (if baseline.carbonKg.Some? && baseline.carbonKg.value > c.carbonKg.value
                then baseline.carbonKg.value - c.carbonKg.value else 0.0)
  {
    SelectedStartsOnGrid(world, job, policy, tol, c);
    SelectedIsEvaluated(world, job, policy, tol, c);
    SavingsOf(world, job, c);
  }

  lemma SelectedIsEvaluated(world: World, job: Workload, policy: Policy, tol: Option<real>, c: Candidate)
    requires Selected(world, job, policy, tol, c)
    ensures c == Evaluate(world, job, c.start) && c.gramsPerKwh.Some? && c.price.Some?
  {
    var s := FeasibleCandidates(world, job);
    WinnerIsBest(CandidateLens(), policy, tol, s, s[0]);
    FeasibleCandidateIffAdmissibleSlot(world, job, c);
    FiguresExact(world, job, c.start);
  }

  lemma SavingsOf(world: World, job: Workload, c: Candidate)
    requires Grid(world, job) != [] && c == Evaluate(world, job, c.start) && c.gramsPerKwh.Some? && c.price.Some?
    ensures c.carbonKg.Some? && c.cost.Some?
    ensures var baseline, impact := Evaluate(world, job, Grid(world, job)[0]), ImpactOf(world, job, c);
            && impact.costAvoided == (if baseline.cost.Some? then baseline.cost.value - c.cost.value else 0.0)
            && impact.carbonAvoided
            == (if baseline.carbonKg.Some? && baseline.carbonKg.value > c.carbonKg.value
                then baseline.carbonKg.value - c.carbonKg.value else 0.0)
  {
    FiguresExact(world, job, c.start);
    FiguresExact(world, job, Grid(world, job)[0]);
  }
}
