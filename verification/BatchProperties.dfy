/** What the batch scheduler guarantees: conservation, capacity at every instant, order and non-interference. */
module BatchProperties {
  import opened Prelude
  import opened Sorting
  import opened Ranking
  import opened Rounding
  import opened Telemetry
  import opened SlotCapacities
  import opened CandidateGrid
  import opened BatchScheduler

  // ---- Facts about evaluated candidates ----

  predicate EvaluatedFrom(env: Env, v: Registry, job: BatchJob, starts: seq<Time>, c: BatchCandidate) {
    c in EvaluateAll(env, v, job, starts) <==> c.start in starts && c == Evaluate(env, v, job, c.start)
  }

  lemma {:induction false} EvaluateAllAt(env: Env, v: Registry, job: BatchJob, starts: seq<Time>, c: BatchCandidate)
    ensures EvaluatedFrom(env, v, job, starts, c)
  {
    if starts != [] {
      EvaluateAllAt(env, v, job, starts[..|starts| - 1], c);
      EvaluatedLast(env, v, job, starts, c);
    }
  }

  lemma EvaluatedLast(env: Env, v: Registry, job: BatchJob, starts: seq<Time>, c: BatchCandidate)
    requires starts != [] && EvaluatedFrom(env, v, job, starts[..|starts| - 1], c)
    ensures EvaluatedFrom(env, v, job, starts, c)
  {
    assert starts == starts[..|starts| - 1] + [starts[|starts| - 1]];
  }

  /** Every eligible candidate is the evaluation of its own start; no start can be two candidates. */
  lemma EligibleIsEvaluated(env: Env, v: Registry, job: BatchJob, c: BatchCandidate)
    requires c in Eligible(env, v, job)
    ensures c.start in Starts(env, job) && c == Evaluate(env, v, job, c.start)
  {
    var all := EvaluateAll(env, v, job, Starts(env, job));
    assert c in all;
    EvaluateAllAt(env, v, job, Starts(env, job), c);
  }

  lemma EligibleStartsDistinct(env: Env, v: Registry, job: BatchJob)
    ensures DistinctStarts(BaseLens(), Eligible(env, v, job))
    ensures DistinctStarts(EffectiveLens(), Eligible(env, v, job))
  {
    var s := Eligible(env, v, job);
    forall a, b | a in s && b in s && a.start == b.start ensures a == b {
      EligibleIsEvaluated(env, v, job, a);
      EligibleIsEvaluated(env, v, job, b);
    }
  }

  /** Either every eligible candidate is feasible, or none of the job's slots is and the first stands alone. */
  lemma EligibleShape(env: Env, v: Registry, job: BatchJob)
    ensures var s, first := Eligible(env, v, job), Evaluate(env, v, job, Starts(env, job)[0]);
            if Hopeless(env, v, job) then s == [first] && !first.Feasible()
            else forall c :: c in s ==> c.Feasible() && c.Complete()
  {
    var starts := Starts(env, job);
    var all := EvaluateAll(env, v, job, starts);
    if Hopeless(env, v, job) {
      if Keep(false, all) != [] {
        var c := Keep(false, all)[0];
        assert c in Keep(false, all);
        EvaluateAllAt(env, v, job, starts, c);
        assert false;
      }
      FirstEvaluation(env, v, job, starts);
      assert all[..1] == [all[0]];
    } else {
      SomeFeasibleKept(env, v, job, starts);
      KeptIsComplete(env, v, job, starts);
    }
  }

  predicate Hopeless(env: Env, v: Registry, job: BatchJob) {
    forall t | t in Starts(env, job) :: !Evaluate(env, v, job, t).Feasible()
  }

  lemma SomeFeasibleKept(env: Env, v: Registry, job: BatchJob, starts: seq<Time>)
    requires exists t :: t in starts && Evaluate(env, v, job, t).Feasible()
    ensures Keep(false, EvaluateAll(env, v, job, starts)) != []
  {
  }

  lemma KeptIsComplete(env: Env, v: Registry, job: BatchJob, starts: seq<Time>)
    ensures forall c :: c in Keep(false, EvaluateAll(env, v, job, starts)) ==> c.Feasible() && c.Complete()
  {
    var all := EvaluateAll(env, v, job, starts);
    forall c | c in Keep(false, all) ensures c.Feasible() && c.Complete() {
      EvaluateAllAt(env, v, job, starts, c);
      FeasibleIsComplete(env, v, job, c.start);
    }
  }

  lemma FeasibleIsComplete(env: Env, v: Registry, job: BatchJob, t: Time)
    ensures Evaluate(env, v, job, t).Feasible() ==> Evaluate(env, v, job, t).Complete()
  {
  }

  lemma {:induction false} FirstEvaluation(env: Env, v: Registry, job: BatchJob, starts: seq<Time>)
    requires starts != []
    ensures EvaluateAll(env, v, job, starts)[0] == Evaluate(env, v, job, starts[0])
  {
    if |starts| > 1 {
      FirstEvaluation(env, v, job, starts[..|starts| - 1]);
    }
  }

  /**
   * A slot is feasible exactly when telemetry knows it, it keeps the carbon budget, and it ends by the deadline
   * and a minute; on the grid the last is always so, and only the fallback start can miss the deadline.
   */
  lemma SlotFeasibleIff(env: Env, v: Registry, job: BatchJob, t: Time)
    requires t in Starts(env, job)
    ensures Evaluate(env, v, job, t).Feasible() <==>
              var grams := env.carbon(job.region, t);
              && t + job.runtimeMinutes * MINUTE <= job.deadline + MINUTE
              && grams.Some? && env.tariff(job.region, job.tariffClass, t).Some?
              && (job.carbonBudgetKg.Some? ==> CarbonKg(job.Energy(), grams.value) <= job.carbonBudgetKg.value)
    ensures StartBound(env, job) + job.runtimeMinutes * MINUTE <= job.deadline ==>
              t + job.runtimeMinutes * MINUTE <= job.deadline
    ensures t >= env.now
  {
    GridExact(StartBound(env, job), job.deadline, job.runtimeMinutes, job.Deferrable());
  }

  /**
   * A slot's figures are those of its own start, under the job's stated energy or else that of power and runtime;
   * the forecaster touches the effective cost alone, and only while it is active.
   */
  lemma FiguresExact(env: Env, v: Registry, job: BatchJob, t: Time)
    ensures var c, energy := Evaluate(env, v, job, t), WorkloadEnergy(job.energyKwh, job.powerKw, job.runtimeMinutes);
            var grams, price := env.carbon(job.region, t), env.tariff(job.region, job.tariffClass, t);
            && c.start == t && c.end - c.start == job.runtimeMinutes * MINUTE
            && c.carbonKg == (if grams.Some? then Some(CarbonKg(energy, grams.value)) else None)
            && c.cost == (if price.Some? then Some(CostUsd(energy, price.value)) else None)
            && (!env.mlActive || price.None? ==> c.effectiveCost == c.cost)
            && (env.mlActive && price.Some? ==>
                  c.effectiveCost == Some(Nudged(c.cost.value, env.pressure(t, job.region) as real)))
  {
  }

  // ---- Conservation ----

  /** A job placed in a slot that had capacity for it. */
  datatype Booking = Booking(job: BatchJob, start: Time)
  {
    function Reserves(): Reservation { ReservationAt(job, start) }
  }

  function ReservationsOf(bookings: seq<Booking>): seq<Reservation> {
    if bookings == [] then [] else [bookings[0].Reserves()] + ReservationsOf(bookings[1..])
  }

  /** The allocation one job attempts, if ranking does not refuse its candidates. */
  function TriedBy(env: Env, v: Registry, job: BatchJob): seq<Reservation> {
    match Choose(env, v, job)
    case Failure(_) => []
    case Success(choice) => [ReservationAt(job, choice.chosen.start)]
  }

  function BookedBy(env: Env, v: Registry, job: BatchJob): seq<Booking> {
    match Choose(env, v, job)
    case Failure(_) => []
    case Success(choice) => if choice.chosen.hasCapacity then [Booking(job, choice.chosen.start)] else []
  }

  /** The allocations a run attempts, up to and including the job that raises, if one does. */
  function Tried(env: Env, v: Registry, jobs: seq<BatchJob>): seq<Reservation> {
    if jobs == [] then []
    else
      var front, last := jobs[..|jobs| - 1], jobs[|jobs| - 1];
      var before := Run(env, v, front);
      Tried(env, v, front) + (if before.Raised? then [] else TriedBy(env, before.registry, last))
  }

  /** The jobs a run places in slots that had capacity. */
  function Booked(env: Env, v: Registry, jobs: seq<BatchJob>): seq<Booking> {
    if jobs == [] then []
    else
      var front, last := jobs[..|jobs| - 1], jobs[|jobs| - 1];
      var before := Run(env, v, front);
      Booked(env, v, front) + (if before.Raised? then [] else BookedBy(env, before.registry, last))
  }

  lemma {:induction false} RunAllAppend(v: Registry, attempts: seq<Reservation>, a: Reservation)
    ensures RunAll(v, attempts + [a]) == a.Apply(RunAll(v, attempts))
    ensures Ledger(v, attempts + [a]) == Ledger(v, attempts) + (if a.Granted(RunAll(v, attempts)) then [a] else [])
    decreases attempts
  {
    if attempts == [] {
      assert attempts + [a] == [a] && [a][1..] == [];
    } else {
      RunAllAppend(attempts[0].Apply(v), attempts[1..], a);
      assert (attempts + [a])[1..] == attempts[1..] + [a];
    }
  }

  /** A decision's slot had capacity exactly when its allocation was granted; otherwise nothing was reserved. */
  lemma StepReserves(env: Env, v: Registry, job: BatchJob)
    requires Step(env, v, job).Done?
    ensures var d, after := Step(env, v, job).value, Step(env, v, job).registry;
            var a := ReservationAt(job, d.chosen.start);
            && d.jobId == job.id && after == a.Apply(v)
            && (d.chosen.hasCapacity <==> a.Granted(v))
            && (!d.chosen.hasCapacity ==> after == v && d.spilled)
            && d.chosen == Choose(env, v, job).value.chosen && d.spilled == Choose(env, v, job).value.spilled
            && d.utilization == UtilizationAt(after, job.region, d.chosen.start)
  {
    ChosenFits(env, v, job);
  }

  lemma ChosenFits(env: Env, v: Registry, job: BatchJob)
    requires Choose(env, v, job).Success?
    ensures var choice := Choose(env, v, job).value;
            && (choice.chosen.hasCapacity <==> ReservationAt(job, choice.chosen.start).Granted(v))
            && (!choice.chosen.hasCapacity ==> choice.spilled)
  {
    var (policy, tol) := env.policyOf(job.tenant);
    ChosenIsEligible(policy, tol, v, job.region, Eligible(env, v, job));
    EligibleIsEvaluated(env, v, job, Choose(env, v, job).value.chosen);
  }

  lemma ChosenIsEligible(policy: Policy, tol: Option<real>, v: Registry, region: string, eligible: seq<BatchCandidate>)
    requires eligible != [] && ChooseAmong(policy, tol, v, region, eligible).Success?
    ensures var c := ChooseAmong(policy, tol, v, region, eligible).value;
            && c.chosen in eligible && c.preferred in eligible
            && (c.chosen.hasCapacity <==> Keep(true, eligible) != [])
            && (!c.chosen.hasCapacity ==> c.spilled)
  {
    RankPermutes(BaseLens(), policy, tol, eligible);
    var ranked := Rank(BaseLens(), policy, tol, eligible).value;
    assert ranked[0] in ranked;
    var fitting := Keep(true, eligible);
    if fitting != [] {
      RankRaises(EffectiveLens(), policy, tol, fitting);
      RankPermutes(EffectiveLens(), policy, tol, fitting);
      var chosen := Rank(EffectiveLens(), policy, tol, fitting).value[0];
      assert chosen in Rank(EffectiveLens(), policy, tol, fitting).value;
    } else {
      var chosen := LeastLoaded(v, region, ranked, eligible);
      assert chosen in eligible;
      assert chosen.hasCapacity ==> chosen in fitting;
    }
  }

  lemma {:induction false} ReservationsAppend(bookings: seq<Booking>, b: Booking)
    ensures ReservationsOf(bookings + [b]) == ReservationsOf(bookings) + [b.Reserves()]
  {
    if bookings == [] {
      assert bookings + [b] == [b];
    } else {
      ReservationsAppend(bookings[1..], b);
      assert (bookings + [b])[1..] == bookings[1..] + [b];
    }
  }

  /** The attempts and bookings of one job take one registry to the next. */
  predicate LedgerStep(u: Registry, after: Registry, tried: seq<Reservation>, booked: seq<Booking>) {
    if tried == [] then after == u && booked == []
    else
      && |tried| == 1 && after == tried[0].Apply(u)
      && (if tried[0].Granted(u) then |booked| == 1 && booked[0].Reserves() == tried[0] else booked == [])
  }

  /** One job's effect on the registry, whether it raises or not, is its attempt; it is granted exactly when booked. */
  lemma StepIsLedgerStep(env: Env, v: Registry, job: BatchJob)
    ensures LedgerStep(v, Step(env, v, job).registry, TriedBy(env, v, job), BookedBy(env, v, job))
  {
    if Choose(env, v, job).Success? {
      ChosenFits(env, v, job);
    }
  }

  lemma {:induction false} LedgerGrows(v: Registry, tried: seq<Reservation>, booked: seq<Booking>, after: Registry,
                                       more: seq<Reservation>, added: seq<Booking>)
    requires Ledger(v, tried) == ReservationsOf(booked) && LedgerStep(RunAll(v, tried), after, more, added)
    ensures RunAll(v, tried + more) == after && Ledger(v, tried + more) == ReservationsOf(booked + added)
  {
    if more == [] {
      assert tried + more == tried && booked + added == booked;
    } else {
      assert more == [more[0]];
      RunAllAppend(v, tried, more[0]);
      if added == [] {
        assert booked + added == booked;
      } else {
        assert added == [added[0]];
        ReservationsAppend(booked, added[0]);
      }
    }
  }

  ghost predicate IsLedgerRun(v: Registry, run: Outcome<seq<BatchDecision>>, tried: seq<Reservation>,
                              booked: seq<Booking>)
  {
    run.registry == RunAll(v, tried) && Ledger(v, tried) == ReservationsOf(booked)
  }

  /**
   * Every run, completed or raised, is a run of the reservation ledger: what is granted is exactly the jobs placed
   * in slots with capacity, the one that raised among them.
   */
  lemma {:induction false} BatchIsLedgerRun(env: Env, v: Registry, jobs: seq<BatchJob>)
    ensures IsLedgerRun(v, Run(env, v, jobs), Tried(env, v, jobs), Booked(env, v, jobs))
  {
    if jobs != [] {
      var front, last := jobs[..|jobs| - 1], jobs[|jobs| - 1];
      BatchIsLedgerRun(env, v, front);
      LedgerRunStep(env, v, front, last);
      assert jobs == front + [last];
    }
  }

  lemma LedgerRunStep(env: Env, v: Registry, front: seq<BatchJob>, last: BatchJob)
    requires IsLedgerRun(v, Run(env, v, front), Tried(env, v, front), Booked(env, v, front))
    ensures var jobs := front + [last];
            IsLedgerRun(v, Run(env, v, jobs), Tried(env, v, jobs), Booked(env, v, jobs))
  {
    var before, tried, booked := Run(env, v, front), Tried(env, v, front), Booked(env, v, front);
    RunLast(env, v, front, last);
    TriedLast(env, v, front, last);
    if before.Raised? {
      assert tried + [] == tried && booked + [] == booked;
    } else {
      var u := before.registry;
      StepIsLedgerStep(env, u, last);
      LedgerGrows(v, tried, booked, Step(env, u, last).registry, TriedBy(env, u, last), BookedBy(env, u, last));
    }
  }

  lemma TriedLast(env: Env, v: Registry, front: seq<BatchJob>, last: BatchJob)
    ensures var before, jobs := Run(env, v, front), front + [last];
            var idle := before.Raised?;
            && Tried(env, v, jobs) == Tried(env, v, front) + (if idle then [] else TriedBy(env, before.registry, last))
            && Booked(env, v, jobs)
            == Booked(env, v, front) + (if idle then [] else BookedBy(env, before.registry, last))
  {
    assert (front + [last])[..|front|] == front;
  }

  /** The decisions whose slot had capacity. */
  function WithCapacity(jobs: seq<BatchJob>, decisions: seq<BatchDecision>): seq<Booking>
    requires |jobs| == |decisions|
  {
    if jobs == [] then []
    else
      var n := |jobs| - 1;
      WithCapacity(jobs[..n], decisions[..n])
      + (if decisions[n].chosen.hasCapacity then [Booking(jobs[n], decisions[n].chosen.start)] else [])
  }

  ghost predicate Books(run: Outcome<seq<BatchDecision>>, jobs: seq<BatchJob>, booked: seq<Booking>) {
    run.Done? ==> |run.value| == |jobs| && booked == WithCapacity(jobs, run.value)
  }

  /** A completed run decides every job, in order, and has booked exactly the decisions whose slot had capacity. */
  lemma {:induction false} DecisionsAreBookings(env: Env, v: Registry, jobs: seq<BatchJob>)
    ensures Books(Run(env, v, jobs), jobs, Booked(env, v, jobs))
  {
    if jobs != [] {
      var front, last := jobs[..|jobs| - 1], jobs[|jobs| - 1];
      DecisionsAreBookings(env, v, front);
      DecisionBooked(env, v, front, last);
      assert jobs == front + [last];
    }
  }

  lemma DecisionBooked(env: Env, v: Registry, front: seq<BatchJob>, last: BatchJob)
    requires Books(Run(env, v, front), front, Booked(env, v, front))
    ensures Books(Run(env, v, front + [last]), front + [last], Booked(env, v, front + [last]))
  {
    var before := Run(env, v, front);
    RunLast(env, v, front, last);
    TriedLast(env, v, front, last);
    if before.Done? && Step(env, before.registry, last).Done? {
      StepBooks(env, before.registry, last);
      WithCapacityLast(front, last, before.value, Step(env, before.registry, last).value);
    }
  }

  lemma WithCapacityLast(jobs: seq<BatchJob>, job: BatchJob, decisions: seq<BatchDecision>, d: BatchDecision)
    requires |jobs| == |decisions|
    ensures WithCapacity(jobs + [job], decisions + [d])
         == WithCapacity(jobs, decisions) + (if d.chosen.hasCapacity then [Booking(job, d.chosen.start)] else [])
  {
    assert (jobs + [job])[..|jobs|] == jobs && (decisions + [d])[..|jobs|] == decisions;
  }

  lemma StepBooks(env: Env, v: Registry, job: BatchJob)
    requires Step(env, v, job).Done?
    ensures var d := Step(env, v, job).value;
            BookedBy(env, v, job) == if d.chosen.hasCapacity then [Booking(job, d.chosen.start)] else []
  {
  }

  /**
   * After any run, completed or raised, every region-hour carries its initial usage plus exactly the booked jobs
   * whose span covers it, and it is within capacity if it was at first or if any such job was added.
   */
  lemma EveryHourAccountedFor(env: Env, v: Registry, jobs: seq<BatchJob>, key: SlotKey)
    ensures var after, ledger := Run(env, v, jobs).registry, ReservationsOf(Booked(env, v, jobs));
            && Slot(after, key).used == Sum(Slot(v, key).used, Load(ledger, key))
            && (key in after.slots <==> key in v.slots || Covered(ledger, key))
            && (WithinCapacity(Slot(v, key)) || Covered(ledger, key) ==> WithinCapacity(Slot(after, key)))
  {
    BatchIsLedgerRun(env, v, jobs);
    var tried := Tried(env, v, jobs);
    LedgerRefinement(v, tried, key);
    LedgerSlots(v, tried, key);
    if WithinCapacity(Slot(v, key)) || Covered(Ledger(v, tried), key) {
      LedgerWithinCapacity(v, tried, key);
    }
  }

  // ---- What runs at an instant ----

  /** A booking holds its job's request in hours its run occupies only; on the hour, in exactly those. */
  lemma BookedHoursAreOccupied(b: Booking, h: int)
    requires b.job.runtimeMinutes > 0
    ensures b.Reserves().request == b.job.resources && b.Reserves().region == b.job.region
    ensures b.Reserves().At(SlotKey(b.job.region, h)) ==> Occupies(b.start, b.job.runtimeMinutes, h)
    ensures b.start % HOUR == 0 ==>
              (b.Reserves().At(SlotKey(b.job.region, h)) <==> Occupies(b.start, b.job.runtimeMinutes, h))
  {
    if b.Reserves().At(SlotKey(b.job.region, h)) {
      ChargedHoursAreOccupied(b.start, b.job.runtimeMinutes, h);
    }
    if b.start % HOUR == 0 {
      ChargedExactlyOnTheHour(b.start, b.job.runtimeMinutes, h);
    }
  }

  predicate RunsAt(b: Booking, region: string, t: Time) {
    b.job.region == region && b.start <= t < b.start + b.job.runtimeMinutes * MINUTE
  }

  /** What the booked jobs of a region ask for together while they run. */
  function Demand(bookings: seq<Booking>, region: string, t: Time): Resources {
    if bookings == [] then NOTHING
    else if RunsAt(bookings[0], region, t) then Demand(bookings[1..], region, t).Add(bookings[0].job.resources)
    else Demand(bookings[1..], region, t)
  }

  /** The charged hours reach to the end of the run; always so for a start on the hour. */
  predicate ChargedToTheEnd(b: Booking) {
    b.start % HOUR + b.job.runtimeMinutes * MINUTE <= SpanHours(b.job.DurationHours()) * HOUR
  }

  predicate NonNegative(r: Resources) {
    r.cpu >= 0.0 && r.mem >= 0.0 && r.gpus >= 0
  }

  lemma RunningIsCharged(b: Booking, region: string, t: Time)
    requires RunsAt(b, region, t) && ChargedToTheEnd(b)
    ensures b.Reserves().At(SlotKey(region, HourOf(t)))
  {
    ChargedHoursCoverRunIff(b.start, b.job.runtimeMinutes);
    assert Occupies(b.start, b.job.runtimeMinutes, HourOf(t));
  }

  lemma {:induction false} DemandBelowLoad(bookings: seq<Booking>, region: string, t: Time)
    requires forall b :: b in bookings ==> ChargedToTheEnd(b) && NonNegative(b.job.resources)
    ensures var load := Load(ReservationsOf(bookings), SlotKey(region, HourOf(t)));
            var demand := Demand(bookings, region, t);
            demand.cpu <= load.cpu && demand.mem <= load.mem && demand.gpus <= load.gpus
  {
    if bookings != [] {
      var rest, key := bookings[1..], SlotKey(region, HourOf(t));
      assert bookings[0] in bookings && forall b :: b in rest ==> b in bookings;
      DemandBelowLoad(rest, region, t);
      LoadOfFirst(bookings[0].Reserves(), ReservationsOf(rest), key);
      if RunsAt(bookings[0], region, t) {
        RunningIsCharged(bookings[0], region, t);
      }
    }
  }

  lemma LoadOfFirst(a: Reservation, rest: seq<Reservation>, key: SlotKey)
    ensures Load([a] + rest, key) == if a.At(key) then Plus(Load(rest, key), a.request) else Load(rest, key)
  {
    assert ([a] + rest)[1..] == rest;
  }

  /**
   * Whatever runs at an instant asks for no more than what the region's hour has left over its initial usage, plus
   * 1e-6, as long as every booking is charged to the end of its run.
   */
  lemma RunningJobsFit(env: Env, v: Registry, jobs: seq<BatchJob>, region: string, t: Time, running: Booking)
    requires running in Booked(env, v, jobs) && RunsAt(running, region, t)
    requires forall b :: b in Booked(env, v, jobs) ==> ChargedToTheEnd(b) && NonNegative(b.job.resources)
    ensures var demand, slot := Demand(Booked(env, v, jobs), region, t), Slot(v, SlotKey(region, HourOf(t)));
            && slot.used.cpu + demand.cpu <= slot.maxCpu + EPSILON
            && slot.used.mem + demand.mem <= slot.maxMem + EPSILON
            && slot.used.gpus + demand.gpus <= slot.maxGpus
  {
    var key, booked := SlotKey(region, HourOf(t)), Booked(env, v, jobs);
    RunningIsCharged(running, region, t);
    BookedCovers(booked, running, key);
    EveryHourAccountedFor(env, v, jobs, key);
    DemandBelowLoad(booked, region, t);
    BatchIsLedgerRun(env, v, jobs);
    LimitsNeverMove(v, Tried(env, v, jobs), key);
  }

  lemma {:induction false} BookedCovers(bookings: seq<Booking>, b: Booking, key: SlotKey)
    requires b in bookings && b.Reserves().At(key)
    ensures Covered(ReservationsOf(bookings), key)
  {
    var all := ReservationsOf(bookings);
    if bookings[0] == b {
      assert all[0] == b.Reserves();
    } else {
      BookedCovers(bookings[1..], b, key);
      var r :| r in ReservationsOf(bookings[1..]) && r.At(key);
      assert r in all;
    }
  }

  // ---- Order and non-interference ----

  /** The caller's list order is irrelevant. */
  lemma BatchIgnoresInputOrder(env: Env, v: Registry, jobs: seq<BatchJob>, shuffled: seq<BatchJob>)
    requires IsPermutation(jobs, shuffled) && DistinctIds(jobs)
    ensures Batch(env, v, jobs) == Batch(env, v, shuffled)
  {
    UrgencyIsTotal(env.now);
    UrgencyHasNoTies(env.now, jobs);
    SortIgnoresInputOrder(ByUrgency(env.now), jobs, shuffled);
  }

  /** Running one list after another, the second on the registry the first leaves. */
  function Then(first: Outcome<seq<BatchDecision>>, second: Outcome<seq<BatchDecision>>)
    : Outcome<seq<BatchDecision>>
    requires first.Done?
  {
    match second
    case Raised(final) => Raised(final)
    case Done(more, final) => Done(first.value + more, final)
  }

  lemma RunLast(env: Env, v: Registry, jobs: seq<BatchJob>, job: BatchJob)
    ensures Run(env, v, jobs + [job]) == Extend(env, Run(env, v, jobs), job)
  {
  }

  lemma GrowThen(first: Outcome<seq<BatchDecision>>, decisions: seq<BatchDecision>, step: Outcome<BatchDecision>)
    requires first.Done?
    ensures Grow(first.value + decisions, step) == Then(first, Grow(decisions, step))
  {
    if step.Done? {
      assert (first.value + decisions) + [step.value] == first.value + (decisions + [step.value]);
    }
  }

  lemma ExtendThen(env: Env, first: Outcome<seq<BatchDecision>>, second: Outcome<seq<BatchDecision>>, job: BatchJob)
    requires first.Done?
    ensures Extend(env, Then(first, second), job) == Then(first, Extend(env, second, job))
  {
    if second.Done? {
      GrowThen(first, second.value, Step(env, second.registry, job));
    }
  }

  lemma {:induction false} RunAppend(env: Env, v: Registry, first: seq<BatchJob>, second: seq<BatchJob>)
    ensures var done := Run(env, v, first);
            Run(env, v, first + second) == if done.Raised? then done else Then(done, Run(env, done.registry, second))
  {
    var done := Run(env, v, first);
    if second == [] {
      assert first + second == first;
      assert done.Done? ==> done.value + [] == done.value;
    } else {
      var front, last := second[..|second| - 1], second[|second| - 1];
      RunAppend(env, v, first, front);
      assert second == front + [last] && first + second == (first + front) + [last];
      RunLast(env, v, first + front, last);
      if done.Done? {
        RunLast(env, done.registry, front, last);
        ExtendThen(env, done, Run(env, done.registry, front), last);
      }
    }
  }

  /**
   * Less urgent jobs never change a more urgent job's decision: the larger batch is the smaller one followed
   * by the rest on the registry it leaves. It still fails as a whole when one of the additions raises.
   */
  lemma LessUrgentJobsChangeNothing(env: Env, v: Registry, urgent: seq<BatchJob>, rest: seq<BatchJob>,
                                    all: seq<BatchJob>)
    requires IsPermutation(all, urgent + rest) && DistinctIds(all)
    requires forall a, b :: a in urgent && b in rest ==> ByUrgency(env.now)(a, b)
    ensures var alone := Batch(env, v, urgent);
            Batch(env, v, all) == if alone.Raised? then alone else Then(alone, Batch(env, alone.registry, rest))
  {
    UrgencyIsTotal(env.now);
    UrgencyHasNoTies(env.now, all);
    SortSplits(ByUrgency(env.now), urgent, rest, all);
    RunAppend(env, v, Sort(ByUrgency(env.now), urgent), Sort(ByUrgency(env.now), rest));
  }

  // ---- What a decision reads ----

  /** Two environments that show a job the same policy and, at its own slots, the same figures. */
  ghost predicate SameFigures(env: Env, other: Env, job: BatchJob) {
    && env.now == other.now && env.mlActive == other.mlActive
    && env.policyOf(job.tenant) == other.policyOf(job.tenant)
    && forall t :: t in Starts(env, job) ==> SameFiguresAt(env, other, job, t)
  }

  ghost predicate SameFiguresAt(env: Env, other: Env, job: BatchJob, t: Time) {
    && env.carbon(job.region, t) == other.carbon(job.region, t)
    && env.tariff(job.region, job.tariffClass, t) == other.tariff(job.region, job.tariffClass, t)
    && env.pressure(t, job.region) == other.pressure(t, job.region)
  }

  lemma {:induction false} EvaluateAllSame(env: Env, other: Env, v: Registry, job: BatchJob, starts: seq<Time>)
    requires env.mlActive == other.mlActive && forall t :: t in starts ==> SameFiguresAt(env, other, job, t)
    ensures EvaluateAll(env, v, job, starts) == EvaluateAll(other, v, job, starts)
  {
    if starts != [] {
      var n := |starts| - 1;
      EvaluateAllSame(env, other, v, job, starts[..n]);
      EvaluateSame(env, other, v, job, starts[n]);
    }
  }

  lemma EvaluateSame(env: Env, other: Env, v: Registry, job: BatchJob, t: Time)
    requires env.mlActive == other.mlActive && SameFiguresAt(env, other, job, t)
    ensures Evaluate(env, v, job, t) == Evaluate(other, v, job, t)
  {
  }

  lemma EligibleSame(env: Env, other: Env, v: Registry, job: BatchJob)
    requires SameFigures(env, other, job)
    ensures Eligible(env, v, job) == Eligible(other, v, job)
  {
    assert Starts(env, job) == Starts(other, job);
    EvaluateAllSame(env, other, v, job, Starts(env, job));
  }

  lemma ChooseSame(env: Env, other: Env, v: Registry, job: BatchJob)
    requires SameFigures(env, other, job)
    ensures Choose(env, v, job) == Choose(other, v, job)
  {
    EligibleSame(env, other, v, job);
  }

  lemma StepSame(env: Env, other: Env, v: Registry, job: BatchJob)
    requires SameFigures(env, other, job)
    ensures Step(env, v, job) == Step(other, v, job)
  {
    ChooseSame(env, other, v, job);
    StepWithSame(env, other, v, job, Choose(env, v, job));
  }

  lemma StepWithSame(env: Env, other: Env, v: Registry, job: BatchJob, r: Result<Choice, RankError>)
    requires env.policyOf(job.tenant) == other.policyOf(job.tenant)
    ensures StepWith(env, v, job, r) == StepWith(other, v, job, r)
  {
  }

  lemma {:induction false} RunSame(env: Env, other: Env, v: Registry, jobs: seq<BatchJob>)
    requires forall j :: j in jobs ==> SameFigures(env, other, j)
    ensures Run(env, v, jobs) == Run(other, v, jobs)
  {
    if jobs != [] {
      var front, last := jobs[..|jobs| - 1], jobs[|jobs| - 1];
      RunSame(env, other, v, front);
      StepSame(env, other, Run(env, v, front).registry, last);
    }
  }

  /**
   * The source reads its telemetry over a window as wide as the whole batch. However that widens it, the more
   * urgent decisions stay as long as the figures at those jobs' own slots do.
   */
  lemma WiderTelemetryChangesNothing(env: Env, wider: Env, v: Registry, urgent: seq<BatchJob>, rest: seq<BatchJob>,
                                     all: seq<BatchJob>)
    requires IsPermutation(all, urgent + rest) && DistinctIds(all) && env.now == wider.now
    requires forall a, b :: a in urgent && b in rest ==> ByUrgency(env.now)(a, b)
    requires forall j :: j in urgent ==> SameFigures(env, wider, j)
    ensures var alone := Batch(env, v, urgent);
            Batch(wider, v, all) == if alone.Raised? then alone else Then(alone, Batch(wider, alone.registry, rest))
  {
    SortMembers(ByUrgency(env.now), urgent);
    RunSame(env, wider, v, Sort(ByUrgency(env.now), urgent));
    LessUrgentJobsChangeNothing(wider, v, urgent, rest, all);
  }
}
