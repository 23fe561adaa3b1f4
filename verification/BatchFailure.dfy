/** When one job makes a whole batch raise: printing a missing figure in an explanation. */
module BatchFailure {
  import opened Prelude
  import opened Sorting
  import opened Ranking
  import opened Telemetry
  import opened SlotCapacities
  import opened BatchScheduler
  import opened BatchProperties

  // ---- One job ----

  /** The tests of a slot that telemetry, budget and deadline decide; capacity plays no part. */
  predicate FeasibleAt(env: Env, job: BatchJob, t: Time) {
    var grams := env.carbon(job.region, t);
    && t + job.runtimeMinutes * MINUTE <= job.deadline + MINUTE
    && grams.Some? && env.tariff(job.region, job.tariffClass, t).Some?
    && (job.carbonBudgetKg.Some? ==> CarbonKg(job.Energy(), grams.value) <= job.carbonBudgetKg.value)
  }

  function FirstStart(env: Env, job: BatchJob): Time {
    Starts(env, job)[0]
  }

  /** No slot of the job is feasible, and its first slot, kept instead, lacks a carbon figure or a price. */
  predicate Unpriced(env: Env, job: BatchJob) {
    var first := FirstStart(env, job);
    && (forall t | t in Starts(env, job) :: !FeasibleAt(env, job, t))
    && (env.carbon(job.region, first).None? || env.tariff(job.region, job.tariffClass, first).None?)
  }

  predicate FirstSlotFits(env: Env, v: Registry, job: BatchJob) {
    CanFit(v, job.region, FirstStart(env, job), job.DurationHours(), job.resources)
  }

  predicate BadTolerance(env: Env, job: BatchJob) {
    var (policy, tol) := env.policyOf(job.tenant);
    policy == CarbonConstrained && !ValidTolerance(Tolerance(tol))
  }

  /** A deferrable job under a band policy stored without its tolerance, whose best slot is the best with capacity. */
  predicate KeepsSlotUnderDefaultBand(env: Env, v: Registry, job: BatchJob) {
    var (policy, tol) := env.policyOf(job.tenant);
    var eligible := Eligible(env, v, job);
    && policy == CarbonConstrained && tol.None? && job.Deferrable()
    && Keep(true, eligible) != []
    && Winner(EffectiveLens(), policy, tol, Keep(true, eligible)).start
    == Winner(BaseLens(), policy, tol, eligible).start
  }

  /** What makes one job raise, given the registry it is scheduled on. */
  predicate Fatal(env: Env, v: Registry, job: BatchJob) {
    || BadTolerance(env, job)
    || (Unpriced(env, job) && (job.Deferrable() || !FirstSlotFits(env, v, job)))
    || KeepsSlotUnderDefaultBand(env, v, job)
  }

  lemma HopelessIff(env: Env, v: Registry, job: BatchJob)
    ensures Hopeless(env, v, job) <==> forall t | t in Starts(env, job) :: !FeasibleAt(env, job, t)
  {
    forall t | t in Starts(env, job) ensures Evaluate(env, v, job, t).Feasible() <==> FeasibleAt(env, job, t) {
      SlotFeasibleIff(env, v, job, t);
    }
  }

  lemma FirstComplete(env: Env, v: Registry, job: BatchJob)
    ensures var c, first := Evaluate(env, v, job, FirstStart(env, job)), FirstStart(env, job);
            && (c.Complete()
                <==> env.carbon(job.region, first).Some? && env.tariff(job.region, job.tariffClass, first).Some?)
            && (c.hasCapacity <==> FirstSlotFits(env, v, job))
  {
  }

  /** The whole list of a job's failures: a job raises in exactly these cases. */
  lemma StepRaisesIff(env: Env, v: Registry, job: BatchJob)
    ensures Step(env, v, job).Raised? <==> Fatal(env, v, job)
  {
    StepRaises(env, v, job);
    ChoiceFailsIff(env, v, job);
    if Choose(env, v, job).Success? {
      ExplanationRaisesIff(env, v, job);
    }
  }

  lemma ChoiceFailsIff(env: Env, v: Registry, job: BatchJob)
    ensures Choose(env, v, job).Failure? <==> BadTolerance(env, job)
  {
    RankRaises(BaseLens(), env.policyOf(job.tenant).0, env.policyOf(job.tenant).1, Eligible(env, v, job));
  }

  lemma StepRaises(env: Env, v: Registry, job: BatchJob)
    ensures Step(env, v, job).Raised?
       <==> Choose(env, v, job).Failure? || ExplanationRaises(env, job, Choose(env, v, job).value)
  {
  }

  lemma SpilledIff(policy: Policy, tol: Option<real>, v: Registry, region: string, eligible: seq<BatchCandidate>)
    requires eligible != [] && ChooseAmong(policy, tol, v, region, eligible).Success?
    ensures var r, fitting := ChooseAmong(policy, tol, v, region, eligible).value, Keep(true, eligible);
            r.spilled <==> fitting == [] || Winner(EffectiveLens(), policy, tol, fitting).start
                                         != Winner(BaseLens(), policy, tol, eligible).start
  {
  }

  /** The cases of a job whose candidates could be ranked. */
  lemma ExplanationRaisesIff(env: Env, v: Registry, job: BatchJob)
    requires Choose(env, v, job).Success?
    ensures var choice := Choose(env, v, job).value;
            ExplanationRaises(env, job, choice) <==>
              || (Unpriced(env, job) && (job.Deferrable() || !FirstSlotFits(env, v, job)))
              || KeepsSlotUnderDefaultBand(env, v, job)
  {
    var (policy, tol) := env.policyOf(job.tenant);
    var eligible := Eligible(env, v, job);
    ChosenIsEligible(policy, tol, v, job.region, eligible);
    SpilledIff(policy, tol, v, job.region, eligible);
    EligibleShape(env, v, job);
    HopelessIff(env, v, job);
    FirstComplete(env, v, job);
    var choice := Choose(env, v, job).value;
    if Hopeless(env, v, job) {
      assert choice.chosen == eligible[0];
      assert choice.spilled <==> !eligible[0].hasCapacity;
    }
  }

  // ---- The batch ----

  /** The registry as it stands when a job's turn comes. */
  function RegistryAt(env: Env, v: Registry, jobs: seq<BatchJob>, i: nat): Registry
    requires i <= |jobs|
  {
    Run(env, v, jobs[..i]).registry
  }

  ghost predicate SomeFatal(env: Env, v: Registry, jobs: seq<BatchJob>) {
    exists i: nat :: i < |jobs| && Fatal(env, RegistryAt(env, v, jobs, i), jobs[i])
  }

  /** A run raises exactly when some job is fatal on the registry its predecessors leave. */
  lemma RunRaisesIff(env: Env, v: Registry, jobs: seq<BatchJob>)
    ensures Run(env, v, jobs).Raised? <==> SomeFatal(env, v, jobs)
  {
    if i: nat :| i < |jobs| && Fatal(env, RegistryAt(env, v, jobs, i), jobs[i]) {
      FatalRaises(env, v, jobs, i);
    }
    if Run(env, v, jobs).Raised? {
      var i := FirstFatal(env, v, jobs);
    }
  }

  /** The job a run that raises stops at. */
  lemma {:induction false} FirstFatal(env: Env, v: Registry, jobs: seq<BatchJob>) returns (i: nat)
    requires Run(env, v, jobs).Raised?
    ensures i < |jobs| && Fatal(env, RegistryAt(env, v, jobs, i), jobs[i])
  {
    i := |jobs| - 1;
    var front := jobs[..i];
    if Run(env, v, front).Raised? {
      i := FirstFatal(env, v, front);
      assert front[..i] == jobs[..i];
    } else {
      StepRaisesIff(env, RegistryAt(env, v, jobs, i), jobs[i]);
    }
  }

  lemma FatalRaises(env: Env, v: Registry, jobs: seq<BatchJob>, i: nat)
    requires i < |jobs| && Fatal(env, RegistryAt(env, v, jobs, i), jobs[i])
    ensures Run(env, v, jobs).Raised?
  {
    if Run(env, v, jobs[..i]).Done? {
      StepRaisesIff(env, RegistryAt(env, v, jobs, i), jobs[i]);
      RunNext(env, v, jobs, i);
      RaisedStays(env, v, jobs, i + 1);
    } else {
      RaisedStays(env, v, jobs, i);
    }
  }

  lemma BatchRaisesIff(env: Env, v: Registry, jobs: seq<BatchJob>)
    ensures Batch(env, v, jobs).Raised? <==> SomeFatal(env, v, Sort(ByUrgency(env.now), jobs))
  {
    RunRaisesIff(env, v, Sort(ByUrgency(env.now), jobs));
  }

  /** What the settings service stores: a band policy always comes with a tolerance on the scale. */
  predicate ToleranceStored(env: Env, job: BatchJob) {
    var (policy, tol) := env.policyOf(job.tenant);
    policy == CarbonConstrained ==> tol.Some? && ValidTolerance(tol.value)
  }

  /** One deferrable job without a usable figure takes every decision of its batch with it. */
  lemma UnpricedSinksTheBatch(env: Env, v: Registry, jobs: seq<BatchJob>, job: BatchJob)
    requires job in jobs && job.Deferrable() && Unpriced(env, job)
    ensures Batch(env, v, jobs).Raised?
  {
    var sorted := Sort(ByUrgency(env.now), jobs);
    SortMembers(ByUrgency(env.now), jobs);
    var i: nat :| i < |sorted| && sorted[i] == job;
    FatalRaises(env, v, sorted, i);
  }

  ghost predicate SomeUnpriced(env: Env, jobs: seq<BatchJob>) {
    exists j :: j in jobs && Unpriced(env, j)
  }

  lemma FatalIsUnpriced(env: Env, v: Registry, job: BatchJob)
    requires Fatal(env, v, job) && ToleranceStored(env, job)
    ensures Unpriced(env, job)
  {
  }

  lemma RaisedHasUnpriced(env: Env, v: Registry, jobs: seq<BatchJob>)
    requires Batch(env, v, jobs).Raised? && forall j :: j in jobs ==> ToleranceStored(env, j)
    ensures SomeUnpriced(env, jobs)
  {
    var sorted := Sort(ByUrgency(env.now), jobs);
    SortMembers(ByUrgency(env.now), jobs);
    BatchRaisesIff(env, v, jobs);
    var i: nat :| i < |sorted| && Fatal(env, RegistryAt(env, v, sorted, i), sorted[i]);
    assert sorted[i] in jobs;
    FatalIsUnpriced(env, RegistryAt(env, v, sorted, i), sorted[i]);
  }

  /**
   * With tolerances as the settings service stores them, a batch whose unpriced jobs are all deferrable returns
   * its decisions exactly when there is none, whatever the registry holds.
   */
  lemma DeferrableBatchCompletesIff(env: Env, v: Registry, jobs: seq<BatchJob>)
    requires forall j :: j in jobs ==> ToleranceStored(env, j)
    requires forall j :: j in jobs && Unpriced(env, j) ==> j.Deferrable()
    ensures Batch(env, v, jobs).Done? <==> forall j :: j in jobs ==> !Unpriced(env, j)
  {
    if Batch(env, v, jobs).Raised? {
      RaisedHasUnpriced(env, v, jobs);
    } else {
      forall j | j in jobs ensures !Unpriced(env, j) {
        if Unpriced(env, j) {
          UnpricedSinksTheBatch(env, v, jobs, j);
        }
      }
    }
  }

  /** A deferrable job in a region without carbon telemetry is one, wherever its slots lie. */
  lemma MissingTelemetrySinksTheBatch(env: Env, v: Registry, jobs: seq<BatchJob>, job: BatchJob)
    requires job in jobs && job.Deferrable() && forall t :: env.carbon(job.region, t).None?
    ensures Batch(env, v, jobs).Raised?
  {
    UnpricedSinksTheBatch(env, v, jobs, job);
  }
}
