/**
 * Any number of dispatcher workers over one job table (app/dispatch/job_claimer.py). A claim locks its rows,
 * then updates and commits; recovery and promotion read first and write later; a dispatch trusts the list the
 * worker holds in memory. Each transaction statement is one step and the workers interleave freely.
 */
module ClaimRace {
  import opened Prelude
  import opened JobStore
  import opened Claims

  datatype Phase =
    | Idle
    | Locked(batch: set<string>, since: Time)           // rows locked, update not yet committed
    | Holding(ids: set<string>)                         // claimed rows, kept in memory
    | Submitting(id: string, rest: set<string>)         // in the middle of dispatching one of them
    | Recovering(ids: set<string>)                      // expired claims read, not yet written
    | Promoting(ids: set<string>)                       // due jobs read, not yet written

  datatype System = System(jobs: map<string, Job>, decisions: map<string, Decision>,
                           workers: map<string, Phase>, now: Time)

  datatype Step =
    | Tick(to: Time)
    | Lock(w: string, batch: set<string>)
    | Commit(w: string)
    | ReadExpired(w: string)
    | WriteRecovered(w: string)
    | ReadPromotable(w: string)
    | WritePromoted(w: string)
    | BeginDispatch(w: string, id: string)
    | EndDispatch(w: string, outcome: Status)
    | Restart(w: string)

  function PhaseOf(s: System, w: string): Phase {
    if w in s.workers then s.workers[w] else Idle
  }

  predicate LockedBy(s: System, w: string, id: string) {
    w in s.workers && s.workers[w].Locked? && id in s.workers[w].batch
  }

  predicate IsLocked(s: System, id: string) {
    exists w | w in s.workers :: LockedBy(s, w, id)
  }

  /** What SKIP LOCKED leaves a claim to choose from. */
  function Unlocked(s: System): set<string> {
    set id | id in ReadyJobs(s.jobs) && !IsLocked(s, id)
  }

  /** A write to a locked row waits, so it is not enabled. */
  ghost predicate Enabled(s: System, step: Step) {
    match step
    case Tick(to) => s.now <= to
    case Lock(w, batch) => PhaseOf(s, w).Idle? && FirstK(s.jobs, Unlocked(s), batch, CLAIM_BATCH_SIZE)
    case Commit(w) => PhaseOf(s, w).Locked?
    case ReadExpired(w) => PhaseOf(s, w).Idle?
    case WriteRecovered(w) => PhaseOf(s, w).Recovering? && forall id :: id in PhaseOf(s, w).ids ==> !IsLocked(s, id)
    case ReadPromotable(w) => PhaseOf(s, w).Idle?
    case WritePromoted(w) => PhaseOf(s, w).Promoting? && forall id :: id in PhaseOf(s, w).ids ==> !IsLocked(s, id)
    case BeginDispatch(w, id) => PhaseOf(s, w).Holding? && id in PhaseOf(s, w).ids && !IsLocked(s, id)
    case EndDispatch(w, outcome) =>
      PhaseOf(s, w).Submitting? && !IsLocked(s, PhaseOf(s, w).id) && outcome in {Queued, Failed}
    case Restart(w) => true
  }

  function Next(s: System, step: Step): System {
    match step
    case Tick(to) => s.(now := to)
    case Lock(w, batch) => s.(workers := s.workers[w := Locked(batch, s.now)])
    case Commit(w) =>
      var p := PhaseOf(s, w);
      if p.Locked?
      then s.(jobs := Claimed(s.jobs, p.batch, w, p.since), workers := s.workers[w := Holding(p.batch)])
      else s
    case ReadExpired(w) => s.(workers := s.workers[w := Recovering(Expired(s.jobs, s.now))])
    case WriteRecovered(w) =>
      var p := PhaseOf(s, w);
      if p.Recovering? then s.(jobs := Recovered(s.jobs, p.ids), workers := s.workers[w := Idle]) else s
    case ReadPromotable(w) => s.(workers := s.workers[w := Promoting(Promotable(s.jobs, s.decisions, s.now))])
    case WritePromoted(w) =>
      var p := PhaseOf(s, w);
      if p.Promoting? then s.(jobs := Promoted(s.jobs, p.ids), workers := s.workers[w := Idle]) else s
    case BeginDispatch(w, id) =>
      var p := PhaseOf(s, w);
      if p.Holding? && id in s.jobs
      then s.(jobs := s.jobs[id := s.jobs[id].(status := Dispatching)],
              workers := s.workers[w := Submitting(id, p.ids - {id})])
      else s
    case EndDispatch(w, outcome) =>
      var p := PhaseOf(s, w);
      if p.Submitting? && p.id in s.jobs
      then s.(jobs := s.jobs[p.id := s.jobs[p.id].(status := outcome, lease := None)],
              workers := s.workers[w := Holding(p.rest)])
      else s
    case Restart(w) => s.(workers := s.workers[w := Idle])
  }

  // ---- What every step keeps ----

  ghost predicate LocksDisjoint(s: System) {
    forall a, b, id :: LockedBy(s, a, id) && LockedBy(s, b, id) ==> a == b
  }

  ghost predicate LockedRowsReady(s: System) {
    forall w, id :: LockedBy(s, w, id) ==> HasReady(s.jobs, id)
  }

  predicate HasReady(jobs: map<string, Job>, id: string) {
    id in jobs && jobs[id].status == Ready
  }

  /** Every claim in progress names its owner and carries a lease. */
  ghost predicate ClaimsLeased(s: System) {
    forall id :: id in s.jobs && s.jobs[id].status == Claiming ==> s.jobs[id].lease.Some?
  }

  ghost predicate Safe(s: System) {
    LocksDisjoint(s) && LockedRowsReady(s) && ClaimsLeased(s)
  }

  /** A step either takes fresh locks or leaves every lock in place or lets go of one worker's. */
  lemma NextKeepsLocksDisjoint(s: System, step: Step)
    requires Safe(s) && Enabled(s, step)
    ensures LocksDisjoint(Next(s, step))
  {
    var after := Next(s, step);
    forall a, b, id | LockedBy(after, a, id) && LockedBy(after, b, id) ensures a == b {
      if step.Lock? {
        assert a != step.w ==> LockedBy(s, a, id);
        assert b != step.w ==> LockedBy(s, b, id);
        assert id in step.batch ==> !IsLocked(s, id);
      } else {
        assert LockedBy(s, a, id) && LockedBy(s, b, id);
      }
    }
  }

  lemma NextKeepsLockedRowsReady(s: System, step: Step)
    requires Safe(s) && Enabled(s, step)
    ensures LockedRowsReady(Next(s, step))
  {
    var after := Next(s, step);
    forall w, id | LockedBy(after, w, id) ensures HasReady(after.jobs, id) {
      if step.Lock? && w == step.w {
        assert id in Unlocked(s);
      } else {
        assert LockedBy(s, w, id);
        assert IsLocked(s, id);
        if step.Commit? {
          assert !LockedBy(s, step.w, id);
        }
      }
    }
  }

  lemma NextKeepsSafe(s: System, step: Step)
    requires Safe(s) && Enabled(s, step)
    ensures Safe(Next(s, step))
  {
    NextKeepsLocksDisjoint(s, step);
    NextKeepsLockedRowsReady(s, step);
  }

  /** A commit leases exactly the rows it locked, all of them ready until that moment. */
  lemma CommitLeasesItsBatch(s: System, w: string, id: string)
    requires Safe(s) && Enabled(s, Commit(w)) && id in s.jobs
    ensures var p := s.workers[w];
            var after := Next(s, Commit(w)).jobs[id];
            if id in p.batch
            then s.jobs[id].status == Ready && after.status == Claiming
                 && after.lease == Some(Lease(w, p.since, p.since + CLAIM_LEASE))
            else after == s.jobs[id]
  {
    assert id in s.workers[w].batch ==> LockedBy(s, w, id);
  }

  // ---- Exclusive claims over whole runs ----

  /** The job is claimed under this lease. */
  ghost predicate Holds(s: System, id: string, l: Lease) {
    id in s.jobs && s.jobs[id].status == Claiming && s.jobs[id].lease == Some(l)
  }

  /** The step dispatches the job, which ends its claim whoever holds it. */
  predicate Dispatches(s: System, step: Step, id: string) {
    || (step.BeginDispatch? && step.id == id)
    || (step.EndDispatch? && PhaseOf(s, step.w).Submitting? && PhaseOf(s, step.w).id == id)
  }

  predicate IsWrite(step: Step) {
    step.WriteRecovered? || step.WritePromoted?
  }

  /** The step writes back a row its worker read some time ago, whatever has become of it since. */
  predicate Hits(s: System, step: Step, id: string) {
    || (step.WriteRecovered? && PhaseOf(s, step.w).Recovering? && id in PhaseOf(s, step.w).ids)
    || (step.WritePromoted? && PhaseOf(s, step.w).Promoting? && id in PhaseOf(s, step.w).ids)
  }

  /** A claim survives a step that does not dispatch the job exactly when the step does not write its row back. */
  lemma StepKeepsClaimIff(s: System, step: Step, id: string, l: Lease)
    requires Safe(s) && Enabled(s, step) && Holds(s, id, l) && !Dispatches(s, step, id)
    ensures Holds(Next(s, step), id, l) <==> !Hits(s, step, id)
  {
    if step.Commit? {
      CommitLeasesItsBatch(s, step.w, id);
    }
  }

  function Run(s: System, steps: seq<Step>): System {
    if steps == [] then s else Next(Run(s, steps[..|steps| - 1]), steps[|steps| - 1])
  }

  ghost predicate Legal(s: System, steps: seq<Step>) {
    steps != [] ==>
      Legal(s, steps[..|steps| - 1]) && Enabled(Run(s, steps[..|steps| - 1]), steps[|steps| - 1])
  }

  lemma {:induction false} RunStaysSafe(s: System, steps: seq<Step>)
    requires Safe(s) && Legal(s, steps)
    ensures Safe(Run(s, steps)) && s.now <= Run(s, steps).now
  {
    if steps != [] {
      RunStaysSafe(s, steps[..|steps| - 1]);
      NextKeepsSafe(Run(s, steps[..|steps| - 1]), steps[|steps| - 1]);
    }
  }

  ghost predicate NeverDispatched(s: System, steps: seq<Step>, from: nat, id: string) {
    forall k :: from <= k < |steps| ==> !Dispatches(Run(s, steps[..k]), steps[k], id)
  }

  ghost predicate NeverHit(s: System, steps: seq<Step>, from: nat, id: string) {
    forall k :: from <= k < |steps| ==> !Hits(Run(s, steps[..k]), steps[k], id)
  }

  ghost predicate HeldSince(s: System, steps: seq<Step>, from: nat, id: string, l: Lease) {
    forall j :: from <= j <= |steps| ==> Holds(Run(s, steps[..j]), id, l)
  }

  /** A legal run after i steps of which the job is claimed under the lease, and which does not dispatch it since. */
  ghost predicate ClaimedAt(s: System, steps: seq<Step>, i: nat, id: string, l: Lease) {
    && Safe(s) && Legal(s, steps) && i <= |steps|
    && Holds(Run(s, steps[..i]), id, l) && NeverDispatched(s, steps, i, id)
  }

  lemma {:induction false} PrefixLegal(s: System, steps: seq<Step>, k: nat)
    requires Legal(s, steps) && k <= |steps|
    ensures Legal(s, steps[..k])
    ensures k < |steps| ==> Enabled(Run(s, steps[..k]), steps[k])
                            && Run(s, steps[..k + 1]) == Next(Run(s, steps[..k]), steps[k])
    decreases |steps| - k
  {
    if k == |steps| {
      assert steps[..k] == steps;
    } else {
      assert steps[..k + 1][..k] == steps[..k];
      PrefixLegal(s, steps, k + 1);
    }
  }

  lemma ClaimStep(s: System, steps: seq<Step>, i: nat, k: nat, id: string, l: Lease)
    requires ClaimedAt(s, steps, i, id, l) && i <= k < |steps| && Holds(Run(s, steps[..k]), id, l)
    ensures Holds(Run(s, steps[..k + 1]), id, l) <==> !Hits(Run(s, steps[..k]), steps[k], id)
  {
    PrefixLegal(s, steps, k);
    RunStaysSafe(s, steps[..k]);
    StepKeepsClaimIff(Run(s, steps[..k]), steps[k], id, l);
  }

  /**
   * Mutual exclusion of claims, exactly: whatever any number of workers do, a claimed job stays claimed by its
   * worker under its lease, from then on and until it is dispatched, if and only if no recovery or promotion
   * writes it back from a list that was read before.
   */
  lemma ClaimKeptIff(s: System, steps: seq<Step>, i: nat, id: string, l: Lease)
    requires ClaimedAt(s, steps, i, id, l)
    ensures HeldSince(s, steps, i, id, l) <==> NeverHit(s, steps, i, id)
  {
    if HeldSince(s, steps, i, id, l) {
      forall k | i <= k < |steps| ensures !Hits(Run(s, steps[..k]), steps[k], id) {
        ClaimStep(s, steps, i, k, id, l);
      }
    }
    if NeverHit(s, steps, i, id) {
      forall j | i <= j <= |steps| ensures Holds(Run(s, steps[..j]), id, l) {
        UnhitClaimHolds(s, steps, i, j, id, l);
      }
    }
  }

  lemma {:induction false} UnhitClaimHolds(s: System, steps: seq<Step>, i: nat, j: nat, id: string, l: Lease)
    requires ClaimedAt(s, steps, i, id, l) && NeverHit(s, steps, i, id) && i <= j <= |steps|
    ensures Holds(Run(s, steps[..j]), id, l)
  {
    if i < j {
      UnhitClaimHolds(s, steps, i, j - 1, id, l);
      ClaimStep(s, steps, i, j - 1, id, l);
    }
  }

  // ---- Recovery and promotion that write right after they read ----

  predicate Pair(read: Step, write: Step) {
    || (write.WriteRecovered? && read == ReadExpired(write.w))
    || (write.WritePromoted? && read == ReadPromotable(write.w))
  }

  ghost predicate WritesFollowReads(steps: seq<Step>) {
    && (steps != [] ==> !IsWrite(steps[0]))
    && forall j, k :: 0 <= j < k < |steps| && k == j + 1 && IsWrite(steps[k]) ==> Pair(steps[j], steps[k])
  }

  /** Back to back with its read, a write hits only a lease that has run out. */
  lemma AtomicWriteMisses(s: System, read: Step, write: Step, id: string, l: Lease)
    requires Pair(read, write) && Enabled(s, read) && Holds(Next(s, read), id, l) && s.now <= l.expires
    ensures !Hits(Next(s, read), write, id)
  {
  }

  lemma {:induction false} TimeRunsForward(s: System, steps: seq<Step>, k: nat)
    requires Legal(s, steps) && k <= |steps|
    ensures Run(s, steps[..k]).now <= Run(s, steps).now
    decreases |steps| - k
  {
    if k == |steps| {
      assert steps[..k] == steps;
    } else {
      PrefixLegal(s, steps, k);
      TimeRunsForward(s, steps, k + 1);
    }
  }

  lemma BackToBackMisses(s: System, steps: seq<Step>, j: nat, id: string, l: Lease)
    requires Legal(s, steps) && WritesFollowReads(steps) && j < |steps|
    requires Holds(Run(s, steps[..j]), id, l) && Run(s, steps).now <= l.expires
    ensures !Hits(Run(s, steps[..j]), steps[j], id)
  {
    if IsWrite(steps[j]) {
      PrefixLegal(s, steps, j - 1);
      TimeRunsForward(s, steps, j - 1);
      AtomicWriteMisses(Run(s, steps[..j - 1]), steps[j - 1], steps[j], id, l);
    }
  }

  lemma BackToBackStep(s: System, steps: seq<Step>, i: nat, k: nat, id: string, l: Lease)
    requires ClaimedAt(s, steps, i, id, l) && WritesFollowReads(steps) && Run(s, steps).now <= l.expires
    requires i <= k < |steps| && Holds(Run(s, steps[..k]), id, l)
    ensures Holds(Run(s, steps[..k + 1]), id, l)
  {
    BackToBackMisses(s, steps, k, id, l);
    ClaimStep(s, steps, i, k, id, l);
  }

  lemma {:induction false} BackToBackHolds(s: System, steps: seq<Step>, i: nat, j: nat, id: string, l: Lease)
    requires ClaimedAt(s, steps, i, id, l) && WritesFollowReads(steps) && Run(s, steps).now <= l.expires
    requires i <= j <= |steps|
    ensures Holds(Run(s, steps[..j]), id, l)
  {
    if i < j {
      BackToBackHolds(s, steps, i, j - 1, id, l);
      BackToBackStep(s, steps, i, j - 1, id, l);
    }
  }

  /** In runs whose writes follow their reads at once a claim lasts until its lease runs out. */
  lemma ClaimsAreExclusive(s: System, steps: seq<Step>, i: nat, id: string, l: Lease)
    requires ClaimedAt(s, steps, i, id, l) && WritesFollowReads(steps) && Run(s, steps).now <= l.expires
    ensures HeldSince(s, steps, i, id, l)
  {
    forall j | i <= j < |steps| ensures !Hits(Run(s, steps[..j]), steps[j], id) {
      BackToBackHolds(s, steps, i, j, id, l);
      BackToBackMisses(s, steps, j, id, l);
    }
    ClaimKeptIff(s, steps, i, id, l);
  }

  // ---- Without back-to-back writes the guarantee is lost ----

  lemma LegalNext(s: System, front: seq<Step>, step: Step)
    requires Legal(s, front) && Enabled(Run(s, front), step)
    ensures Legal(s, front + [step]) && Run(s, front + [step]) == Next(Run(s, front), step)
  {
  }

  const STALE: Job := Job(Claiming, None, 0, None, Some(Lease("a", 0, 1)))
  const RENEWED: Lease := Lease("a", 2, 2 + CLAIM_LEASE)

  /** One job whose lease has run out, and no worker doing anything. */
  const ABANDONED: System := System(map["j" := STALE], map[], map[], 2)

  const REQUEUED: Job := STALE.(status := Ready, lease := None)

  /** The job is read as expired by two workers, put back by one, and claimed afresh. */
  const RECOVERY: seq<Step> := [ReadExpired("b")] + [ReadExpired("c")] + [WriteRecovered("b")]
  const RECLAIM: seq<Step> := RECOVERY + [Lock("a", {"j"})] + [Commit("a")]

  const AFTER_RECOVERY: System := System(map["j" := REQUEUED], map[], map["b" := Idle, "c" := Recovering({"j"})], 2)
  const AFTER_RECLAIM: System :=
    System(map["j" := STALE.(lease := Some(RENEWED))], map[],
           map["a" := Holding({"j"}), "b" := Idle, "c" := Recovering({"j"})], 2)

  lemma RecoveryRuns()
    ensures Legal(ABANDONED, RECOVERY) && Run(ABANDONED, RECOVERY) == AFTER_RECOVERY
  {
    var s0 := ABANDONED;
    assert Expired(s0.jobs, 2) == {"j"};
    LegalNext(s0, [], ReadExpired("b"));
    assert [] + [ReadExpired("b")] == [ReadExpired("b")];
    LegalNext(s0, [ReadExpired("b")], ReadExpired("c"));
    LegalNext(s0, [ReadExpired("b")] + [ReadExpired("c")], WriteRecovered("b"));
    assert Recovered(s0.jobs, {"j"}) == AFTER_RECOVERY.jobs;
  }

  const LOCKED: System := AFTER_RECOVERY.(workers := AFTER_RECOVERY.workers["a" := Locked({"j"}, 2)])

  lemma LockEnabled()
    ensures Enabled(AFTER_RECOVERY, Lock("a", {"j"})) && Next(AFTER_RECOVERY, Lock("a", {"j"})) == LOCKED
  {
    assert Unlocked(AFTER_RECOVERY) == {"j"};
  }

  lemma ReclaimRuns()
    ensures Legal(ABANDONED, RECLAIM) && Run(ABANDONED, RECLAIM) == AFTER_RECLAIM
  {
    RecoveryRuns();
    LockEnabled();
    LegalNext(ABANDONED, RECOVERY, Lock("a", {"j"}));
    LegalNext(ABANDONED, RECOVERY + [Lock("a", {"j"})], Commit("a"));
  }

  /**
   * Concretely: the second of two recoveries that both read the same expired claim writes after the job was
   * claimed again, and takes the fresh lease away two minutes early.
   */
  lemma SplitRecoveryStripsAFreshLease()
    ensures Safe(ABANDONED) && Legal(ABANDONED, RECLAIM + [WriteRecovered("c")])
    ensures Holds(Run(ABANDONED, RECLAIM), "j", RENEWED)
    ensures var end := Run(ABANDONED, RECLAIM + [WriteRecovered("c")]);
            end.now <= RENEWED.expires && HasReady(end.jobs, "j") && end.jobs["j"].lease.None?
            && PhaseOf(end, "a") == Holding({"j"})
  {
    ReclaimRuns();
    LegalNext(ABANDONED, RECLAIM, WriteRecovered("c"));
  }
}
