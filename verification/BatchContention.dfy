/** How the batch scheduler trades contention against policy: spillover, saturation and the bounded nudge. */
module BatchContention {
  import opened Prelude
  import opened Rounding
  import opened Ranking
  import opened SlotCapacities
  import opened CandidateGrid
  import opened BatchScheduler
  import opened BatchProperties

  /** Without the forecaster the effective cost of every candidate is its base cost. */
  ghost predicate NoNudge(eligible: seq<BatchCandidate>) {
    forall c :: c in eligible ==> c.effectiveCost == c.cost
  }

  ghost predicate NonNegativeCarbon(cs: seq<BatchCandidate>) {
    forall c :: c in cs ==> BaseLens().Carbon(c) >= 0.0
  }

  lemma NoForecasterNoNudge(env: Env, v: Registry, job: BatchJob)
    requires !env.mlActive
    ensures NoNudge(Eligible(env, v, job))
  {
    forall c | c in Eligible(env, v, job) ensures c.effectiveCost == c.cost {
      EligibleIsEvaluated(env, v, job, c);
    }
  }

  /** What the two rankings of a choice guarantee, candidate by candidate. */
  lemma ChoiceIsBest(policy: Policy, tol: Option<real>, v: Registry, region: string, eligible: seq<BatchCandidate>,
                     c: BatchCandidate)
    requires eligible != [] && ChooseAmong(policy, tol, v, region, eligible).Success? && c in eligible
    ensures var r, fitting := ChooseAmong(policy, tol, v, region, eligible).value, Keep(true, eligible);
            && r.preferred in eligible && r.chosen in eligible
            && Precedes(BaseLens(), policy, Limit(BaseLens(), tol, eligible), r.preferred, c)
            && (c.hasCapacity ==>
                  && fitting != [] && c in fitting && r.chosen in fitting
                  && Rank(EffectiveLens(), policy, tol, fitting).Success?
                  && r.chosen == Winner(EffectiveLens(), policy, tol, fitting)
                  && Precedes(EffectiveLens(), policy, Limit(EffectiveLens(), tol, fitting), r.chosen, c)
                  && r.spilled == (r.chosen.start != r.preferred.start))
  {
    ChosenIsEligible(policy, tol, v, region, eligible);
    WinnerIsBest(BaseLens(), policy, tol, eligible, c);
    var fitting := Keep(true, eligible);
    if c.hasCapacity {
      assert c in fitting;
      RankRaises(EffectiveLens(), policy, tol, fitting);
      WinnerIsBest(EffectiveLens(), policy, tol, fitting, c);
    }
  }

  /** Losing the preferred slot always counts as a spill. */
  lemma LosingThePreferredSlotSpills(policy: Policy, tol: Option<real>, v: Registry, region: string,
                                     eligible: seq<BatchCandidate>)
    requires eligible != [] && ChooseAmong(policy, tol, v, region, eligible).Success?
    requires DistinctStarts(BaseLens(), eligible)
    requires !ChooseAmong(policy, tol, v, region, eligible).value.preferred.hasCapacity
    ensures ChooseAmong(policy, tol, v, region, eligible).value.spilled
  {
    var r := ChooseAmong(policy, tol, v, region, eligible).value;
    ChosenIsEligible(policy, tol, v, region, eligible);
    if r.chosen.hasCapacity {
      ChoiceIsBest(policy, tol, v, region, eligible, r.chosen);
    }
  }

  /** Under the two single-figure policies, without the forecaster, that is the only way to spill. */
  lemma SpillIffPreferredFull(policy: Policy, tol: Option<real>, v: Registry, region: string,
                              eligible: seq<BatchCandidate>)
    requires eligible != [] && policy != CarbonConstrained
    requires NoNudge(eligible) && DistinctStarts(BaseLens(), eligible)
    ensures ChooseAmong(policy, tol, v, region, eligible).Success?
    ensures var r := ChooseAmong(policy, tol, v, region, eligible).value; r.spilled <==> !r.preferred.hasCapacity
  {
    var r := ChooseAmong(policy, tol, v, region, eligible).value;
    ChosenIsEligible(policy, tol, v, region, eligible);
    if r.preferred.hasCapacity {
      ChoiceIsBest(policy, tol, v, region, eligible, r.preferred);
      ChoiceIsBest(policy, tol, v, region, eligible, r.chosen);
    } else {
      LosingThePreferredSlotSpills(policy, tol, v, region, eligible);
    }
  }

  /** So without the forecaster such a job is marked spilled exactly when its preferred slot could not fit it. */
  lemma JobSpillsIffPreferredFull(env: Env, v: Registry, job: BatchJob)
    requires !env.mlActive && env.policyOf(job.tenant).0 != CarbonConstrained
    ensures Choose(env, v, job).Success?
    ensures Choose(env, v, job).value.spilled <==> !Choose(env, v, job).value.preferred.hasCapacity
  {
    NoForecasterNoNudge(env, v, job);
    EligibleStartsDistinct(env, v, job);
    SpillIffPreferredFull(env.policyOf(job.tenant).0, env.policyOf(job.tenant).1, v, job.region, Eligible(env, v, job));
  }

  /** A slot outside the band of all eligible slots that the band of the slots with capacity lets in. */
  ghost predicate LetInBySmallerField(tol: Option<real>, eligible: seq<BatchCandidate>, c: BatchCandidate)
    requires eligible != [] && Keep(true, eligible) != []
  {
    && !InBand(BaseLens(), Limit(BaseLens(), tol, eligible), c)
    && InBand(BaseLens(), Limit(BaseLens(), tol, Keep(true, eligible)), c)
  }

  /**
   * Under the band policy a job whose preferred slot has capacity is nonetheless spilled exactly when the
   * band, recomputed over the slots with capacity, lets in one at least as cheap and early.
   */
  lemma BandSpillIff(tol: Option<real>, v: Registry, region: string, eligible: seq<BatchCandidate>)
    requires eligible != [] && ValidTolerance(Tolerance(tol)) && NonNegativeCarbon(eligible)
    requires NoNudge(eligible) && DistinctStarts(BaseLens(), eligible)
    ensures ChooseAmong(CarbonConstrained, tol, v, region, eligible).Success?
    ensures var r, fitting := ChooseAmong(CarbonConstrained, tol, v, region, eligible).value, Keep(true, eligible);
            r.preferred.hasCapacity ==>
              && fitting != []
              && (r.spilled <==> exists c :: c in fitting && LetInBySmallerField(tol, eligible, c)
                                          && KeyLe(WithinKey(BaseLens(), c), WithinKey(BaseLens(), r.preferred)))
  {
    var r := ChooseAmong(CarbonConstrained, tol, v, region, eligible).value;
    ChosenIsEligible(CarbonConstrained, tol, v, region, eligible);
    if r.preferred.hasCapacity {
      var fitting := Keep(true, eligible);
      ChoiceIsBest(CarbonConstrained, tol, v, region, eligible, r.preferred);
      if r.spilled {
        BandSpillReason(tol, v, region, eligible);
      }
      if c :| c in fitting && LetInBySmallerField(tol, eligible, c)
              && KeyLe(WithinKey(BaseLens(), c), WithinKey(BaseLens(), r.preferred)) {
        BandSpillForced(tol, v, region, eligible, c);
      }
    }
  }

  lemma BandSpillReason(tol: Option<real>, v: Registry, region: string, eligible: seq<BatchCandidate>)
    requires eligible != [] && ValidTolerance(Tolerance(tol)) && NonNegativeCarbon(eligible)
    requires NoNudge(eligible) && DistinctStarts(BaseLens(), eligible)
    requires ChooseAmong(CarbonConstrained, tol, v, region, eligible).Success?
    requires var r := ChooseAmong(CarbonConstrained, tol, v, region, eligible).value;
             r.preferred.hasCapacity && r.spilled
    ensures var r := ChooseAmong(CarbonConstrained, tol, v, region, eligible).value;
            && Keep(true, eligible) != [] && r.chosen in Keep(true, eligible)
            && LetInBySmallerField(tol, eligible, r.chosen)
            && KeyLe(WithinKey(BaseLens(), r.chosen), WithinKey(BaseLens(), r.preferred))
  {
    var r := ChooseAmong(CarbonConstrained, tol, v, region, eligible).value;
    ChosenIsEligible(CarbonConstrained, tol, v, region, eligible);
    ChoiceIsBest(CarbonConstrained, tol, v, region, eligible, r.preferred);
    ChoiceIsBest(CarbonConstrained, tol, v, region, eligible, r.chosen);
    PreferredInBothBands(tol, v, region, eligible);
    var limit := Limit(EffectiveLens(), tol, Keep(true, eligible));
    SameFigures(r.chosen, limit);
    SameFigures(r.preferred, limit);
  }

  lemma BandSpillForced(tol: Option<real>, v: Registry, region: string, eligible: seq<BatchCandidate>,
                        c: BatchCandidate)
    requires eligible != [] && ValidTolerance(Tolerance(tol)) && NonNegativeCarbon(eligible)
    requires NoNudge(eligible) && DistinctStarts(BaseLens(), eligible)
    requires ChooseAmong(CarbonConstrained, tol, v, region, eligible).Success?
    requires var r := ChooseAmong(CarbonConstrained, tol, v, region, eligible).value;
             && r.preferred.hasCapacity && c in Keep(true, eligible) && LetInBySmallerField(tol, eligible, c)
             && KeyLe(WithinKey(BaseLens(), c), WithinKey(BaseLens(), r.preferred))
    ensures ChooseAmong(CarbonConstrained, tol, v, region, eligible).value.spilled
  {
    var r := ChooseAmong(CarbonConstrained, tol, v, region, eligible).value;
    ChoiceIsBest(CarbonConstrained, tol, v, region, eligible, c);
    PreferredInBothBands(tol, v, region, eligible);
    var limit := Limit(EffectiveLens(), tol, Keep(true, eligible));
    SameFigures(c, limit);
    SameFigures(r.preferred, limit);
    assert c != r.preferred && c.start != r.preferred.start;
    assert r.chosen != r.preferred;
  }

  /** Without the forecaster both lenses see the same candidate. */
  lemma SameFigures(c: BatchCandidate, limit: real)
    requires c.effectiveCost == c.cost
    ensures WithinKey(EffectiveLens(), c) == WithinKey(BaseLens(), c)
    ensures InBand(EffectiveLens(), limit, c) == InBand(BaseLens(), limit, c)
  {
  }

  /** The preferred slot lies in the band of all eligible slots, hence in the wider one of those with capacity. */
  lemma PreferredInBothBands(tol: Option<real>, v: Registry, region: string, eligible: seq<BatchCandidate>)
    requires eligible != [] && ValidTolerance(Tolerance(tol)) && NonNegativeCarbon(eligible)
    requires ChooseAmong(CarbonConstrained, tol, v, region, eligible).Success? && Keep(true, eligible) != []
    ensures var p, fitting := ChooseAmong(CarbonConstrained, tol, v, region, eligible).value.preferred,
                              Keep(true, eligible);
            && InBand(BaseLens(), Limit(BaseLens(), tol, eligible), p)
            && InBand(BaseLens(), Limit(BaseLens(), tol, fitting), p)
            && Limit(EffectiveLens(), tol, fitting) == Limit(BaseLens(), tol, fitting)
  {
    var least := MinCarbonAttained(BaseLens(), eligible);
    BandWinnerInBand(BaseLens(), tol, eligible);
    BandsNest(tol, eligible);
  }

  /** Dropping slots can only raise the limit; both lenses see the same carbon. */
  lemma BandsNest(tol: Option<real>, eligible: seq<BatchCandidate>)
    requires eligible != [] && Keep(true, eligible) != []
    requires ValidTolerance(Tolerance(tol)) && NonNegativeCarbon(eligible)
    ensures Limit(BaseLens(), tol, eligible) <= Limit(BaseLens(), tol, Keep(true, eligible))
    ensures Limit(EffectiveLens(), tol, Keep(true, eligible)) == Limit(BaseLens(), tol, Keep(true, eligible))
  {
    var fitting := Keep(true, eligible);
    SmallerFieldHigherMinimum(eligible);
    MinCarbonSame(fitting);
    LimitGrows(MinCarbon(BaseLens(), eligible), MinCarbon(BaseLens(), fitting), Tolerance(tol));
  }

  lemma SmallerFieldHigherMinimum(eligible: seq<BatchCandidate>)
    requires eligible != [] && Keep(true, eligible) != []
    ensures MinCarbon(BaseLens(), eligible) <= MinCarbon(BaseLens(), Keep(true, eligible))
  {
    var b := MinCarbonAttained(BaseLens(), Keep(true, eligible));
    assert b in eligible;
  }

  lemma LimitGrows(low: real, high: real, pct: real)
    requires low <= high && 0.0 <= pct
    ensures CarbonLimit(low, pct) <= CarbonLimit(high, pct)
  {
  }

  /** For a job as the scheduler runs it without the forecaster, its slots' carbon never negative. */
  lemma JobSpillsUnderBandIff(env: Env, v: Registry, job: BatchJob)
    requires !env.mlActive && env.policyOf(job.tenant).0 == CarbonConstrained
    requires ValidTolerance(Tolerance(env.policyOf(job.tenant).1)) && NonNegativeCarbon(Eligible(env, v, job))
    ensures Choose(env, v, job).Success?
    ensures var r, eligible, tol := Choose(env, v, job).value, Eligible(env, v, job), env.policyOf(job.tenant).1;
            r.spilled <==> || !r.preferred.hasCapacity
                           || exists c :: c in Keep(true, eligible) && LetInBySmallerField(tol, eligible, c)
                                    && KeyLe(WithinKey(BaseLens(), c), WithinKey(BaseLens(), r.preferred))
  {
    var eligible, tol := Eligible(env, v, job), env.policyOf(job.tenant).1;
    NoForecasterNoNudge(env, v, job);
    EligibleStartsDistinct(env, v, job);
    BandSpillIff(tol, v, job.region, eligible);
    if !Choose(env, v, job).value.preferred.hasCapacity {
      LosingThePreferredSlotSpills(CarbonConstrained, tol, v, job.region, eligible);
    }
  }

  // ---- A spill whose preferred slot fits ----

  function Slotted(start: Time, kg: real, cost: real, capacity: bool): BatchCandidate {
    BatchCandidate(start, start + HOUR, [], Some(kg), Some(cost), 0.0, Some(cost), capacity)
  }

  /** Over three hours carbon rises and the price falls; every tenant has a 5% band and the forecaster is off. */
  function RisingCarbon(): Env {
    Env(0, (region, t) => Some(if t < HOUR then 1000.0 else if t < 2 * HOUR then 1040.0 else 1090.0),
        (region, tariffClass, t) => Some(if t < HOUR then 10.0 else if t < 2 * HOUR then 5.0 else 1.0),
        tenant => (CarbonConstrained, Some(5.0)), false, (t, region) => 0.0)
  }

  /** An hour's work that states one kilowatt-hour, whatever its power, to be done within three. */
  function HourOfWork(id: string, region: string): BatchJob {
    BatchJob(id, None, None, Some(true), Some(0), 0, 3 * HOUR, 60, region, "standard", 2.0, Some(1.0), None,
             Resources(1.0, 1.0, 0))
  }

  function FirstHourFull(region: string): Registry {
    Registry(4.0, 4.0, 0, map[SlotKey(region, 0) := SlotState(4.0, 4.0, 0, Usage(4.0, 4.0, 0, 1))])
  }

  lemma ThreeStarts(id: string, region: string)
    ensures forall t :: t in Starts(RisingCarbon(), HourOfWork(id, region)) <==> t == 0 || t == HOUR || t == 2 * HOUR
  {
    var env, job := RisingCarbon(), HourOfWork(id, region);
    assert StartBound(env, job) == 0 && LatestStart(job.deadline, 60) == 2 * HOUR;
    GridExact(0, job.deadline, 60, true);
    forall t: Time | 0 <= t <= 2 * HOUR && t % HOUR == 0 ensures t == 0 || t == HOUR || t == 2 * HOUR {
      WholeHours(t);
    }
  }

  lemma WholeHours(t: Time)
    requires 0 <= t <= 2 * HOUR && t % HOUR == 0
    ensures t == 0 || t == HOUR || t == 2 * HOUR
  {
  }

  lemma ThreeEvaluations(id: string, region: string)
    ensures var env, v, job := RisingCarbon(), FirstHourFull(region), HourOfWork(id, region);
            && Evaluate(env, v, job, 0) == Slotted(0, 1.0, 10.0, false)
            && Evaluate(env, v, job, HOUR) == Slotted(HOUR, 1.04, 5.0, true)
            && Evaluate(env, v, job, 2 * HOUR) == Slotted(2 * HOUR, 1.09, 1.0, true)
  {
    var v := FirstHourFull(region);
    assert HourOf(0) == 0 && HourOf(HOUR) == 1 && HourOf(2 * HOUR) == 2 && SpanHours(1.0) == 1;
    assert !Fits(Slot(v, SlotKey(region, 0)), Resources(1.0, 1.0, 0));
    assert Fits(Slot(v, SlotKey(region, 1)), Resources(1.0, 1.0, 0));
    assert Fits(Slot(v, SlotKey(region, 2)), Resources(1.0, 1.0, 0));
  }

  lemma ThreeEligible(id: string, region: string)
    ensures var eligible := Eligible(RisingCarbon(), FirstHourFull(region), HourOfWork(id, region));
            forall c :: c in eligible <==> || c == Slotted(0, 1.0, 10.0, false)
                                           || c == Slotted(HOUR, 1.04, 5.0, true)
                                           || c == Slotted(2 * HOUR, 1.09, 1.0, true)
  {
    var env, v, job := RisingCarbon(), FirstHourFull(region), HourOfWork(id, region);
    ThreeStarts(id, region);
    ThreeEvaluations(id, region);
    forall c ensures c in EvaluateAll(env, v, job, Starts(env, job))
                <==> c.start in Starts(env, job) && c == Evaluate(env, v, job, c.start)
    {
      EvaluateAllAt(env, v, job, Starts(env, job), c);
    }
    assert Evaluate(env, v, job, 0) in EvaluateAll(env, v, job, Starts(env, job));
  }

  /**
   * Concretely: the greenest hour is full, and the band of the two that are left lets in the cheapest one, which
   * is taken although the preferred second hour had room.
   */
  lemma SpilledThoughPreferredFits(id: string, region: string)
    ensures var choice := Choose(RisingCarbon(), FirstHourFull(region), HourOfWork(id, region));
            && choice.Success? && choice.value.spilled && choice.value.preferred.hasCapacity
            && choice.value.preferred.start == HOUR && choice.value.chosen.start == 2 * HOUR
  {
    ThreeEligible(id, region);
    ThirdHourTaken(FirstHourFull(region), region,
                   Eligible(RisingCarbon(), FirstHourFull(region), HourOfWork(id, region)));
  }

  lemma ThirdHourTaken(v: Registry, region: string, eligible: seq<BatchCandidate>)
    requires eligible != []
    requires forall c :: c in eligible <==> || c == Slotted(0, 1.0, 10.0, false)
                                            || c == Slotted(HOUR, 1.04, 5.0, true)
                                            || c == Slotted(2 * HOUR, 1.09, 1.0, true)
    ensures var choice := ChooseAmong(CarbonConstrained, Some(5.0), v, region, eligible);
            && choice.Success? && choice.value.spilled
            && choice.value.preferred == Slotted(HOUR, 1.04, 5.0, true)
            && choice.value.chosen == Slotted(2 * HOUR, 1.09, 1.0, true)
  {
    var a, b, c := Slotted(0, 1.0, 10.0, false), Slotted(HOUR, 1.04, 5.0, true), Slotted(2 * HOUR, 1.09, 1.0, true);
    CheaperBucket(5.0, 10.0);
    CheaperBucket(1.0, 5.0);
    MiddleSlotIsPreferred(v, region, eligible, a, b, c);
    LastSlotIsChosen(v, region, eligible, b, c);
  }

  lemma LastSlotIsChosen(v: Registry, region: string, eligible: seq<BatchCandidate>, b: BatchCandidate,
                         c: BatchCandidate)
    requires b == Slotted(HOUR, 1.04, 5.0, true) && c == Slotted(2 * HOUR, 1.09, 1.0, true)
    requires b in eligible && c in eligible && forall x :: x in eligible && x.hasCapacity ==> x == b || x == c
    requires ChooseAmong(CarbonConstrained, Some(5.0), v, region, eligible).Success?
    ensures ChooseAmong(CarbonConstrained, Some(5.0), v, region, eligible).value.chosen == c
  {
    var fitting := Keep(true, eligible);
    var chosen := ChooseAmong(CarbonConstrained, Some(5.0), v, region, eligible).value.chosen;
    ChoiceIsBest(CarbonConstrained, Some(5.0), v, region, eligible, c);
    MinCarbonSame(fitting);
    assert Limit(EffectiveLens(), Some(5.0), fitting) == 1.04 * 1.05 by {
      LeastKg(fitting, b);
    }
    CheaperBucket(1.0, 5.0);
    assert chosen == b || chosen == c;
  }

  lemma PreferredPrecedes(policy: Policy, tol: Option<real>, v: Registry, region: string, eligible: seq<BatchCandidate>,
                          c: BatchCandidate)
    requires c in eligible && ChooseAmong(policy, tol, v, region, eligible).Success?
    ensures var p := ChooseAmong(policy, tol, v, region, eligible).value.preferred;
            p in eligible && Precedes(BaseLens(), policy, Limit(BaseLens(), tol, eligible), p, c)
  {
    ChoiceIsBest(policy, tol, v, region, eligible, c);
  }

  lemma MiddleSlotIsPreferred(v: Registry, region: string, eligible: seq<BatchCandidate>, a: BatchCandidate,
                              b: BatchCandidate, c: BatchCandidate)
    requires a == Slotted(0, 1.0, 10.0, false) && b == Slotted(HOUR, 1.04, 5.0, true)
          && c == Slotted(2 * HOUR, 1.09, 1.0, true)
    requires a in eligible && b in eligible && forall x :: x in eligible ==> x == a || x == b || x == c
    ensures ChooseAmong(CarbonConstrained, Some(5.0), v, region, eligible).Success?
    ensures ChooseAmong(CarbonConstrained, Some(5.0), v, region, eligible).value.preferred == b
  {
    PreferredPrecedes(CarbonConstrained, Some(5.0), v, region, eligible, b);
    FirstSetsTheLimit(eligible, a, b, c);
    OnlyTheMiddleSlotPrecedesIt(a, b, c,
                                ChooseAmong(CarbonConstrained, Some(5.0), v, region, eligible).value.preferred);
  }

  lemma FirstSetsTheLimit(eligible: seq<BatchCandidate>, a: BatchCandidate, b: BatchCandidate, c: BatchCandidate)
    requires a == Slotted(0, 1.0, 10.0, false) && b == Slotted(HOUR, 1.04, 5.0, true)
          && c == Slotted(2 * HOUR, 1.09, 1.0, true)
    requires a in eligible && forall x :: x in eligible ==> x == a || x == b || x == c
    ensures Limit(BaseLens(), Some(5.0), eligible) == 1.05
  {
    LeastKg(eligible, a);
  }

  lemma OnlyTheMiddleSlotPrecedesIt(a: BatchCandidate, b: BatchCandidate, c: BatchCandidate, p: BatchCandidate)
    requires a == Slotted(0, 1.0, 10.0, false) && b == Slotted(HOUR, 1.04, 5.0, true)
          && c == Slotted(2 * HOUR, 1.09, 1.0, true)
    requires p == a || p == b || p == c
    requires Precedes(BaseLens(), CarbonConstrained, 1.05, p, b)
    ensures p == b
  {
  }

  lemma LeastKg(cs: seq<BatchCandidate>, least: BatchCandidate)
    requires least in cs && forall c :: c in cs ==> BaseLens().Carbon(least) <= BaseLens().Carbon(c)
    ensures Limit(BaseLens(), Some(5.0), cs) == BaseLens().Carbon(least) * 1.05
  {
    var c := MinCarbonAttained(BaseLens(), cs);
  }

  lemma CheaperBucket(low: real, high: real)
    requires low + EPSILON < high
    ensures Quantise(low) < Quantise(high)
  {
  }

  // ---- The bounded nudge ----

  /**
   * The forecaster can cost at most 5%: the cost-first choice costs no more than 1.05 times any slot with
   * capacity, within 1e-6. Under the band policy the same holds against every slot in the band.
   */
  lemma NudgeRegret(env: Env, v: Registry, job: BatchJob, c: BatchCandidate)
    requires Choose(env, v, job).Success?
    requires c in Eligible(env, v, job) && c.hasCapacity && BaseLens().Cost(c) >= 0.0
    requires var (policy, tol) := env.policyOf(job.tenant);
             || policy == CostFirst
             || (policy == CarbonConstrained && Keep(true, Eligible(env, v, job)) != []
                 && InBand(BaseLens(), Limit(BaseLens(), tol, Keep(true, Eligible(env, v, job))), c))
    ensures BaseLens().Cost(Choose(env, v, job).value.chosen)
         <= (1.0 + CONTENTION_WEIGHT) * BaseLens().Cost(c) + EPSILON
  {
    var (policy, tol) := env.policyOf(job.tenant);
    var eligible := Eligible(env, v, job);
    ChoiceIsBest(policy, tol, v, job.region, eligible, c);
    var chosen := Choose(env, v, job).value.chosen;
    EligibleIsEvaluated(env, v, job, c);
    EligibleIsEvaluated(env, v, job, chosen);
    NudgeIsSmall(env, v, job, c.start);
    NudgeIsSmall(env, v, job, chosen.start);
    var effective := EffectiveLens();
    MinCarbonSame(Keep(true, eligible));
    assert effective.CostBucket(chosen) <= effective.CostBucket(c);
    QuantiseOrder(effective.Cost(chosen), effective.Cost(c));
  }

  lemma MinCarbonSame(cs: seq<BatchCandidate>)
    requires cs != []
    ensures MinCarbon(EffectiveLens(), cs) == MinCarbon(BaseLens(), cs)
  {
  }

  lemma NudgeIsSmall(env: Env, v: Registry, job: BatchJob, t: Time)
    ensures var c := Evaluate(env, v, job, t);
            var base, effective := BaseLens().Cost(c), EffectiveLens().Cost(c);
            (base >= 0.0 ==> base <= effective <= (1.0 + CONTENTION_WEIGHT) * base) && (base < 0.0 ==> effective < 0.0)
  {
    var c := Evaluate(env, v, job, t);
    var base := BaseLens().Cost(c);
    if c.cost.Some? && env.mlActive {
      UpliftBounds(base, env.pressure(t, job.region) as real);
    }
  }

  lemma UpliftBounds(cost: real, pressure: real)
    requires 0.0 <= pressure <= 1.0
    ensures cost >= 0.0 ==> cost <= Nudged(cost, pressure) <= (1.0 + CONTENTION_WEIGHT) * cost
    ensures cost < 0.0 ==> Nudged(cost, pressure) < 0.0
  {
  }

  /** Whatever the forecaster says, carbon-first takes a slot of least quantised carbon among those with capacity. */
  lemma NudgeNeverCostsCarbon(env: Env, v: Registry, job: BatchJob, c: BatchCandidate)
    requires Choose(env, v, job).Success? && env.policyOf(job.tenant).0 == CarbonFirst
    requires c in Eligible(env, v, job) && c.hasCapacity
    ensures var chosen := Choose(env, v, job).value.chosen;
            && BaseLens().CarbonBucket(chosen) <= BaseLens().CarbonBucket(c)
            && BaseLens().Carbon(chosen) <= BaseLens().Carbon(c) + EPSILON
  {
    var (policy, tol) := env.policyOf(job.tenant);
    ChoiceIsBest(policy, tol, v, job.region, Eligible(env, v, job), c);
    QuantiseOrder(BaseLens().Carbon(Choose(env, v, job).value.chosen), BaseLens().Carbon(c));
  }

  // ---- Saturation ----

  lemma {:induction false} IndexOfAt<T>(x: T, s: seq<T>)
    requires x in s
    ensures IndexOf(x, s) < |s| && s[IndexOf(x, s)] == x
  {
    if s[0] != x {
      IndexOfAt(x, s[1..]);
    }
  }

  /**
   * When no slot has capacity the job takes a least-loaded one, the policy's order deciding among equals,
   * and the registry stays as it was.
   */
  lemma SaturatedTakesLeastLoaded(env: Env, v: Registry, job: BatchJob, c: BatchCandidate)
    requires Choose(env, v, job).Success? && c in Eligible(env, v, job)
    requires forall d :: d in Eligible(env, v, job) ==> !d.hasCapacity
    ensures var r, (policy, tol) := Choose(env, v, job).value, env.policyOf(job.tenant);
            var a, b := UtilizationAt(v, job.region, r.chosen.start), UtilizationAt(v, job.region, c.start);
            && r.spilled
            && a <= b
            && (a == b ==> r.chosen == c || Precedes(BaseLens(), policy, Limit(BaseLens(), tol, Eligible(env, v, job)),
                                                     r.chosen, c))
            && ReservationAt(job, r.chosen.start).Apply(v) == v
  {
    var (policy, tol) := env.policyOf(job.tenant);
    var eligible := Eligible(env, v, job);
    FallbackIsLeastLoaded(policy, tol, v, job.region, eligible, c);
    SaturatedReservesNothing(env, v, job);
  }

  lemma SaturatedReservesNothing(env: Env, v: Registry, job: BatchJob)
    requires Choose(env, v, job).Success?
    requires forall d :: d in Eligible(env, v, job) ==> !d.hasCapacity
    ensures ReservationAt(job, Choose(env, v, job).value.chosen.start).Apply(v) == v
  {
    var (policy, tol) := env.policyOf(job.tenant);
    ChosenIsEligible(policy, tol, v, job.region, Eligible(env, v, job));
    EligibleIsEvaluated(env, v, job, Choose(env, v, job).value.chosen);
  }

  lemma FallbackIsLeastLoaded(policy: Policy, tol: Option<real>, v: Registry, region: string,
                              eligible: seq<BatchCandidate>, c: BatchCandidate)
    requires c in eligible && ChooseAmong(policy, tol, v, region, eligible).Success?
    requires forall d :: d in eligible ==> !d.hasCapacity
    ensures var r := ChooseAmong(policy, tol, v, region, eligible).value;
            var a, b := UtilizationAt(v, region, r.chosen.start), UtilizationAt(v, region, c.start);
            && r.spilled && a <= b
            && (a == b ==> r.chosen == c || Precedes(BaseLens(), policy, Limit(BaseLens(), tol, eligible), r.chosen, c))
  {
    var r := ChooseAmong(policy, tol, v, region, eligible).value;
    FallbackChoice(policy, tol, v, region, eligible);
    var ranked := Rank(BaseLens(), policy, tol, eligible).value;
    RankPermutes(BaseLens(), policy, tol, eligible);
    assert LessLoaded(v, region, ranked, r.chosen, c);
    if IndexOf(r.chosen, ranked) <= IndexOf(c, ranked) {
      EarlierRankPrecedes(policy, tol, eligible, r.chosen, c);
    }
  }

  lemma SomeMember<T>(s: seq<T>) returns (x: T)
    requires s != []
    ensures x in s
  {
    x := s[0];
  }

  lemma FallbackChoice(policy: Policy, tol: Option<real>, v: Registry, region: string, eligible: seq<BatchCandidate>)
    requires eligible != [] && ChooseAmong(policy, tol, v, region, eligible).Success?
    requires forall d :: d in eligible ==> !d.hasCapacity
    ensures Rank(BaseLens(), policy, tol, eligible).Success?
    ensures forall c :: c in eligible ==> c in Rank(BaseLens(), policy, tol, eligible).value
    ensures var r := ChooseAmong(policy, tol, v, region, eligible).value;
            r.spilled && r.chosen == LeastLoaded(v, region, Rank(BaseLens(), policy, tol, eligible).value, eligible)
  {
    RankPermutes(BaseLens(), policy, tol, eligible);
    if Keep(true, eligible) != [] {
      var c := SomeMember(Keep(true, eligible));
      assert false;
    }
  }

  lemma EarlierRankPrecedes(policy: Policy, tol: Option<real>, s: seq<BatchCandidate>, a: BatchCandidate,
                            b: BatchCandidate)
    requires s != [] && Rank(BaseLens(), policy, tol, s).Success?
    requires var ranked := Rank(BaseLens(), policy, tol, s).value;
             a in ranked && b in ranked && IndexOf(a, ranked) <= IndexOf(b, ranked)
    ensures a == b || Precedes(BaseLens(), policy, Limit(BaseLens(), tol, s), a, b)
  {
    var ranked := Rank(BaseLens(), policy, tol, s).value;
    var i, j := IndexOf(a, ranked), IndexOf(b, ranked);
    IndexOfAt(a, ranked);
    IndexOfAt(b, ranked);
    RankedInOrder(policy, tol, s, i, j);
  }

  lemma RankedInOrder(policy: Policy, tol: Option<real>, s: seq<BatchCandidate>, i: nat, j: nat)
    requires s != [] && Rank(BaseLens(), policy, tol, s).Success?
    requires i <= j < |Rank(BaseLens(), policy, tol, s).value|
    ensures var ranked := Rank(BaseLens(), policy, tol, s).value;
            ranked[i] == ranked[j] || Precedes(BaseLens(), policy, Limit(BaseLens(), tol, s), ranked[i], ranked[j])
  {
    if i < j {
      RankOrders(BaseLens(), policy, tol, s, i, j);
    }
  }
}
