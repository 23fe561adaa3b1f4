/**
 * Any number of dispatchers over one lifecycle, and what the API lets people do beside them: poll an execution
 * whatever its job's status, dispatch a job by hand, cancel it. What a worker holds may be stale here: its lease can
 * have run out and the job moved on, yet the dispatch gate still reads the worker's copy.
 */
module Fleet {
  import opened Prelude
  import opened JobStore
  import opened Dispatching
  import opened Lifecycle

  datatype Fleet = Fleet(world: World, now: Time, racers: seq<Racer>, workers: map<string, Phase>)
  {
    function PhaseOf(w: string): Phase { if w in workers then workers[w] else Idle }

    /** What one worker sees: the shared state and its own memory. */
    function Seen(w: string): System { System(world, now, racers, PhaseOf(w), multiset{}) }
  }

  /** A lifecycle step of one worker; a dispatch by hand, the request's handler being the worker; a cancellation. */
  datatype Act =
    | Act(worker: string, step: Step)
    | Manual(worker: string, id: string)
    | Cancel(worker: string, id: string)

  const TERMINAL: set<Status> := {Completed, Failed, Cancelled}

  ghost predicate CanAct(f: Fleet, a: Act) {
    match a
    case Act(w, step) => if step.AskJob? then step.id in f.world.executions else Enabled(f.Seen(w), step)
    case Manual(w, id) => f.PhaseOf(w).Idle? && id in f.world.jobs
    case Cancel(_, id) => id in f.world.jobs && f.world.jobs[id].status !in TERMINAL
  }

  /** Unlike a worker of the loop, the handler of a dispatch by hand has just read the row. */
  predicate GateOpens(f: Fleet, id: string) {
    id in f.world.jobs && Gate(f.world, id, f.world.jobs[id].status, f.now).None?
  }

  function After(f: Fleet, a: Act): Fleet {
    match a
    case Act(w, step) =>
      var s := Next(f.Seen(w), step);
      Fleet(s.world, s.now, s.racers, f.workers[w := s.dispatcher])
    case Manual(w, id) =>
      if GateOpens(f, id) then f.(world := Begin(f.world, id), workers := f.workers[w := Begun(id, {})]) else f
    case Cancel(_, id) => f.(world := SetStatus(f.world, id, Cancelled))
  }

  function RunFleet(f: Fleet, acts: seq<Act>): Fleet {
    if acts == [] then f else After(RunFleet(f, acts[..|acts| - 1]), acts[|acts| - 1])
  }

  ghost predicate LegalFleet(f: Fleet, acts: seq<Act>) {
    acts != [] ==>
      LegalFleet(f, acts[..|acts| - 1]) && CanAct(RunFleet(f, acts[..|acts| - 1]), acts[|acts| - 1])
  }

  ghost predicate Sound(f: Fleet) {
    WorldFits(f.world, f.now) && RacersFit(f.world, f.racers)
  }

  // ---- Which single steps are harmless ----

  predicate ClearedAndDue(w: World, id: string, now: Time) {
    Cleared(w, id) && id in w.decisions && w.decisions[id].start <= now
  }

  /** The statuses that only people end: by a verdict, a resubmission or a cancellation. */
  const HELD: set<Status> := {PendingApproval, Declined, Cancelled}

  predicate IsHeld(w: World, id: string) {
    id in w.jobs && w.jobs[id].status in HELD
  }

  /** The writes to a job's row that trust something else than the row, checked on the rows before the step. */
  predicate RowsSafe(f: Fleet, a: Act) {
    match a
    case Act(w, step) => StepRowsSafe(f, f.PhaseOf(w), step)
    case Manual(_, id) => GateOpens(f, id) ==> !Watched(f.world, id)
    case Cancel(_, id) => !Watched(f.world, id)
  }

  predicate StepRowsSafe(f: Fleet, p: Phase, step: Step) {
    var w := f.world;
    match step
    case BeginJob(id) =>
      id in w.jobs && Gate(w, id, Claiming, f.now).None? ==> Cleared(w, id) && !Watched(w, id)
    case SubmitJob(api) => p.Begun? && api.Error? && p.id in w.jobs ==> !Watched(w, p.id)
    case RecordJob(replace) =>
      p.Sent? && !Clashes(w, p.id, replace) && p.id in w.jobs ==> ClearedAndDue(w, p.id, f.now)
    case AskJob(id) =>
      id in w.executions && id in w.jobs && StatusOf(Observed(w, w.executions[id].name)) != Failed
      ==> ClearedAndDue(w, id, f.now)
    case _ => true
  }

  /** The same writes of workers and polls leave alone a job that only people may move. */
  predicate GateSafe(f: Fleet, a: Act) {
    a.Act? ==>
      var w, p := f.world, f.PhaseOf(a.worker);
      match a.step
      case BeginJob(id) => Gate(w, id, Claiming, f.now).None? ==> !IsHeld(w, id)
      case SubmitJob(api) => p.Begun? && api.Error? ==> !IsHeld(w, p.id)
      case RecordJob(replace) => p.Sent? && !Clashes(w, p.id, replace) ==> !IsHeld(w, p.id)
      case AskJob(id) => id in w.executions ==> !IsHeld(w, id)
      case _ => true
  }

  /** Some worker is about to create a Kubernetes Job. */
  predicate Creates(f: Fleet, a: Act) {
    && a.Act? && a.step.SubmitJob? && a.step.api.Answering?
    && f.PhaseOf(a.worker).Begun? && KubeName(f.PhaseOf(a.worker).id) !in f.world.cluster
  }

  predicate MayStart(f: Fleet, id: string) {
    HasStatus(f.world, id, Dispatching) && ClearedAndDue(f.world, id, f.now)
  }

  /** What is created belongs to a job that is still dispatching, cleared and due at that moment. */
  predicate StartSafe(f: Fleet, a: Act) {
    Creates(f, a) ==> MayStart(f, f.PhaseOf(a.worker).id)
  }

  predicate Harmless(f: Fleet, a: Act) {
    RowsSafe(f, a) && GateSafe(f, a) && StartSafe(f, a)
  }

  // ---- What a step may do to jobs and cluster ----

  /** Whatever is newly on the cluster is the workload of the worker's job, dispatching, cleared and due. */
  ghost predicate StartsOnlyCleared(f: Fleet, a: Act) {
    forall name :: name in After(f, a).world.cluster && name !in f.world.cluster ==>
      var p := f.PhaseOf(a.worker);
      p.Begun? && name == KubeName(p.id) && MayStart(f, p.id)
  }

  predicate ByPeople(a: Act) {
    a.Cancel? || (a.Act? && (a.step.SettleRequest? || a.step.ResubmitJob?))
  }

  /** No job awaiting approval, declined or cancelled is moved but by people. */
  ghost predicate OnlyPeopleMoveHeld(f: Fleet, a: Act) {
    !ByPeople(a) ==> HeldStay(f.world, After(f, a).world)
  }

  ghost predicate HeldStay(before: World, after: World) {
    forall id :: IsHeld(before, id) ==> id in after.jobs && after.jobs[id].status == before.jobs[id].status
  }

  ghost predicate Upheld(f: Fleet, a: Act) {
    Sound(After(f, a)) && OnlyPeopleMoveHeld(f, a) && StartsOnlyCleared(f, a)
  }

  // ---- Job rows ----

  /** A world that differs in one job and in tables the others do not depend on fits exactly when that job does. */
  lemma OneJobMoved(w: World, after: World, id: string, now: Time)
    requires WorldFits(w, now)
    requires (after.decisions, after.nextDecision, after.approvals) == (w.decisions, w.nextDecision, w.approvals)
    requires forall other :: other != id ==> (other in w.jobs <==> other in after.jobs)
    requires forall other :: other != id && other in w.jobs ==> after.jobs[other] == w.jobs[other]
    requires forall other :: other != id ==> (Watched(w, other) <==> Watched(after, other))
    ensures WorldFits(after, now) <==> JobFits(after, id, now)
  {
    forall other | other in after.jobs && other != id ensures JobFits(after, other, now) {
      assert JobFits(w, other, now);
    }
  }

  /** A dispatch that passed the gate keeps the guarantees exactly for a cleared job nobody polls. */
  lemma BeginSafeIff(w: World, id: string, now: Time)
    requires WorldFits(w, now) && id in w.jobs && Gate(w, id, Claiming, now).None?
    ensures WorldFits(Begin(w, id), now) <==> Cleared(w, id) && !Watched(w, id)
  {
    OneJobMoved(w, Begin(w, id), id, now);
  }

  lemma ReleaseSafeIff(w: World, id: string, now: Time)
    requires WorldFits(w, now) && id in w.jobs
    ensures WorldFits(Release(w, id, Failed), now) <==> !Watched(w, id)
  {
    OneJobMoved(w, Release(w, id, Failed), id, now);
  }

  lemma RecordSafeIff(w: World, id: string, replace: bool, now: Time)
    requires WorldFits(w, now) && id in w.jobs && !Clashes(w, id, replace)
    ensures WorldFits(Record(w, id, replace), now) <==> ClearedAndDue(w, id, now)
  {
    OneJobMoved(w, Record(w, id, replace), id, now);
  }

  lemma PollSafeIffNow(w: World, id: string, now: Time)
    requires WorldFits(w, now) && id in w.jobs && id in w.executions
    ensures WorldFits(Poll(w, id), now)
       <==> StatusOf(Observed(w, w.executions[id].name)) == Failed || ClearedAndDue(w, id, now)
  {
    OneJobMoved(w, Poll(w, id), id, now);
    PolledJobFitsIff(w, id, now);
  }

  lemma PolledJobFitsIff(w: World, id: string, now: Time)
    requires id in w.jobs && id in w.executions
    ensures JobFits(Poll(w, id), id, now)
       <==> StatusOf(Observed(w, w.executions[id].name)) == Failed || ClearedAndDue(w, id, now)
  {
  }

  lemma NoJobMoved(w: World, after: World, now: Time)
    requires WorldFits(w, now) && (after.jobs, after.decisions, after.nextDecision, after.approvals)
                               == (w.jobs, w.decisions, w.nextDecision, w.approvals)
    requires forall id :: id in w.jobs ==> (Watched(w, id) <==> Watched(after, id))
    ensures WorldFits(after, now)
  {
    forall id | id in after.jobs ensures JobFits(after, id, now) {
      assert JobFits(w, id, now);
    }
  }

  /** A cancellation leaves the execution's Kubernetes status, so the loop goes on polling the job. */
  lemma CancelSafeIff(w: World, id: string, now: Time)
    requires WorldFits(w, now) && id in w.jobs
    ensures WorldFits(SetStatus(w, id, Cancelled), now) <==> !Watched(w, id)
  {
    OneJobMoved(w, SetStatus(w, id, Cancelled), id, now);
  }

  lemma ManualSafeIff(f: Fleet, id: string)
    requires Sound(f) && GateOpens(f, id)
    ensures WorldFits(Begin(f.world, id), f.now) <==> !Watched(f.world, id)
  {
    assert JobFits(f.world, id, f.now);
    BeginSafeIff(f.world, id, f.now);
  }

  lemma RowsSafeIff(f: Fleet, a: Act)
    requires Sound(f) && CanAct(f, a)
    ensures Sound(After(f, a)) <==> RowsSafe(f, a)
  {
    match a {
      case Act(_, _) => StepSoundIff(f, a);
      case Manual(_, id) =>
        if GateOpens(f, id) {
          ManualSafeIff(f, id);
        }
      case Cancel(_, id) => CancelSafeIff(f.world, id, f.now);
    }
  }

  lemma StepSoundIff(f: Fleet, a: Act)
    requires Sound(f) && CanAct(f, a) && a.Act?
    ensures Sound(After(f, a)) <==> StepRowsSafe(f, f.PhaseOf(a.worker), a.step)
  {
    var s := f.Seen(a.worker);
    NextRacersFit(s, a.step);
    WorldSafeIff(f, a);
    if WorldFits(WorldAfter(s, a.step), f.now) {
      TimeFits(WorldAfter(s, a.step), f.now, Next(s, a.step).now);
    }
  }

  lemma WorldSafeIff(f: Fleet, a: Act)
    requires Sound(f) && CanAct(f, a) && a.Act?
    ensures WorldFits(WorldAfter(f.Seen(a.worker), a.step), f.now)
       <==> StepRowsSafe(f, f.PhaseOf(a.worker), a.step)
  {
    if a.step.BeginJob? || a.step.SubmitJob? || a.step.RecordJob? {
      DispatchSafeIff(f, a);
    } else if a.step.AskJob? {
      AskSafeIff(f, a);
    } else if IsDispatcherStep(a.step) {
      BulkFits(f.Seen(a.worker), a.step);
    } else {
      OthersFit(f.Seen(a.worker), a.step);
    }
  }

  lemma DispatchSafeIff(f: Fleet, a: Act)
    requires Sound(f) && CanAct(f, a) && a.Act? && (a.step.BeginJob? || a.step.SubmitJob? || a.step.RecordJob?)
    ensures WorldFits(DispatcherWorld(f.Seen(a.worker), a.step), f.now)
       <==> StepRowsSafe(f, f.PhaseOf(a.worker), a.step)
  {
    var w, p := f.world, f.PhaseOf(a.worker);
    var after := DispatcherWorld(f.Seen(a.worker), a.step);
    match a.step {
      case BeginJob(id) =>
        if id in w.jobs && Gate(w, id, Claiming, f.now).None? {
          BeginSafeIff(w, id, f.now);
        }
      case SubmitJob(api) =>
        if api.Error? && p.id in w.jobs {
          ReleaseSafeIff(w, p.id, f.now);
        } else {
          NoJobMoved(w, after, f.now);
        }
      case RecordJob(replace) =>
        if !Clashes(w, p.id, replace) && p.id in w.jobs {
          RecordSafeIff(w, p.id, replace, f.now);
        } else {
          NoJobMoved(w, after, f.now);
        }
    }
  }

  lemma AskSafeIff(f: Fleet, a: Act)
    requires Sound(f) && CanAct(f, a) && a.Act? && a.step.AskJob?
    ensures WorldFits(OthersWorld(f.Seen(a.worker), a.step), f.now)
       <==> StepRowsSafe(f, f.PhaseOf(a.worker), a.step)
  {
    if a.step.id in f.world.jobs {
      PollSafeIffNow(f.world, a.step.id, f.now);
    } else {
      NoJobMoved(f.world, Poll(f.world, a.step.id), f.now);
    }
  }

  // ---- What only people move ----

  lemma GateSafeIff(f: Fleet, a: Act)
    requires Sound(f) && CanAct(f, a)
    ensures OnlyPeopleMoveHeld(f, a) <==> GateSafe(f, a)
  {
    if a.Manual? {
      ManualLeavesHeld(f, a);
    } else if !ByPeople(a) {
      ActHeldIff(f, a);
    }
  }

  lemma ManualLeavesHeld(f: Fleet, a: Act)
    requires a.Manual?
    ensures HeldStay(f.world, After(f, a).world)
  {
  }

  lemma ActHeldIff(f: Fleet, a: Act)
    requires Sound(f) && CanAct(f, a) && a.Act? && !ByPeople(a)
    ensures HeldStay(f.world, WorldAfter(f.Seen(a.worker), a.step)) <==> GateSafe(f, a)
  {
    if a.step.AskJob? {
      AskHeldIff(f.world, a.step.id);
    } else if IsDispatcherStep(a.step) {
      DispatcherHeldIff(f, a);
    } else {
      OthersLeaveHeld(f, a);
    }
  }

  lemma AskHeldIff(w: World, id: string)
    requires id in w.executions
    ensures HeldStay(w, Poll(w, id)) <==> !IsHeld(w, id)
  {
  }

  /** The job a worker's step moves, if any, is the only one at stake. */
  lemma DispatcherHeldIff(f: Fleet, a: Act)
    requires CanAct(f, a) && a.Act? && IsDispatcherStep(a.step)
    ensures HeldStay(f.world, DispatcherWorld(f.Seen(a.worker), a.step)) <==> GateSafe(f, a)
  {
  }

  lemma OthersLeaveHeld(f: Fleet, a: Act)
    requires Sound(f) && CanAct(f, a) && a.Act? && !IsDispatcherStep(a.step) && !a.step.AskJob? && !ByPeople(a)
    ensures HeldStay(f.world, OthersWorld(f.Seen(a.worker), a.step))
  {
    forall id | IsHeld(f.world, id)
      ensures var after := OthersWorld(f.Seen(a.worker), a.step);
              id in after.jobs && after.jobs[id].status == f.world.jobs[id].status
    {
      assert JobFits(f.world, id, f.now);
    }
  }

  // ---- The cluster ----

  lemma StartSafeIff(f: Fleet, a: Act)
    ensures StartsOnlyCleared(f, a) <==> StartSafe(f, a)
  {
    if Creates(f, a) {
      var id := f.PhaseOf(a.worker).id;
      assert After(f, a).world == Submit(f.world, id, Answering);
      assert KubeName(id) in After(f, a).world.cluster;
    } else {
      NothingStarted(f, a);
    }
  }

  lemma NothingStarted(f: Fleet, a: Act)
    requires !Creates(f, a)
    ensures forall name :: name in After(f, a).world.cluster ==> name in f.world.cluster
  {
  }

  // ---- Single steps ----

  /** The exact condition, step by step. */
  lemma StepSafeIff(f: Fleet, a: Act)
    requires Sound(f) && CanAct(f, a)
    ensures Upheld(f, a) <==> Harmless(f, a)
  {
    RowsSafeIff(f, a);
    GateSafeIff(f, a);
    StartSafeIff(f, a);
  }

  function Alone(s: System, worker: string): Fleet {
    Fleet(s.world, s.now, s.racers, map[worker := s.dispatcher])
  }

  /** One dispatcher alone, with polls of queued and running jobs only, does nothing else. */
  lemma OneDispatcherIsHarmless(s: System, worker: string, step: Step)
    requires Inv(s) && Enabled(s, step)
    ensures Harmless(Alone(s, worker), Act(worker, step))
  {
    match step {
      case BeginJob(id) =>
        GateNeverBlocks(s, id);
        StartedMayRun(Alone(s, worker), id);
      case SubmitJob(_) => StartedMayRun(Alone(s, worker), s.dispatcher.id);
      case RecordJob(_) => StartedMayRun(Alone(s, worker), s.dispatcher.id);
      case AskJob(id) => StartedMayRun(Alone(s, worker), id);
      case _ =>
    }
  }

  lemma StartedMayRun(f: Fleet, id: string)
    requires Sound(f) && id in f.world.jobs && f.world.jobs[id].status in STARTED
    ensures ClearedAndDue(f.world, id, f.now) && !IsHeld(f.world, id)
    ensures f.world.jobs[id].status !in {Queued, Running} ==> !Watched(f.world, id)
  {
    assert JobFits(f.world, id, f.now);
  }

  // ---- Whole runs ----

  /** Every state of the run is sound, and every step of it upholds gate and cluster. */
  ghost predicate UpheldThroughout(f: Fleet, acts: seq<Act>) {
    && (forall k :: 0 <= k <= |acts| ==> Sound(RunFleet(f, acts[..k])))
    && forall k :: 0 <= k < |acts| ==> Upheld(RunFleet(f, acts[..k]), acts[k])
  }

  ghost predicate HarmlessThroughout(f: Fleet, acts: seq<Act>) {
    forall k :: 0 <= k < |acts| ==> Harmless(RunFleet(f, acts[..k]), acts[k])
  }

  lemma FleetNext(f: Fleet, acts: seq<Act>, k: nat)
    requires k < |acts|
    ensures RunFleet(f, acts[..k + 1]) == After(RunFleet(f, acts[..k]), acts[k])
    ensures LegalFleet(f, acts[..k + 1]) <==> LegalFleet(f, acts[..k]) && CanAct(RunFleet(f, acts[..k]), acts[k])
  {
    assert acts[..k + 1][..k] == acts[..k];
  }

  lemma {:induction false} PrefixLegal(f: Fleet, acts: seq<Act>, k: nat)
    requires LegalFleet(f, acts) && k <= |acts|
    ensures LegalFleet(f, acts[..k])
    decreases |acts| - k
  {
    if k == |acts| {
      assert acts[..k] == acts;
    } else {
      PrefixLegal(f, acts, k + 1);
      FleetNext(f, acts, k);
    }
  }

  /**
   * A run of any number of dispatchers, polls, cancellations and dispatches by hand keeps the due times, the
   * clearances and the approval table, lets only people move a job that awaits approval, is declined or cancelled,
   * and starts no workload but of a dispatching, cleared and due job, exactly when each of its steps was harmless
   * on the rows as they were.
   */
  lemma FleetSafeIff(f: Fleet, acts: seq<Act>)
    requires Sound(f) && LegalFleet(f, acts)
    ensures UpheldThroughout(f, acts) <==> HarmlessThroughout(f, acts)
  {
    if UpheldThroughout(f, acts) {
      forall k | 0 <= k < |acts| ensures Harmless(RunFleet(f, acts[..k]), acts[k]) {
        SafeAt(f, acts, k);
      }
    }
    if HarmlessThroughout(f, acts) {
      HarmlessRunUpheld(f, acts);
    }
  }

  lemma SafeAt(f: Fleet, acts: seq<Act>, k: nat)
    requires LegalFleet(f, acts) && k < |acts| && Sound(RunFleet(f, acts[..k]))
    ensures Upheld(RunFleet(f, acts[..k]), acts[k]) <==> Harmless(RunFleet(f, acts[..k]), acts[k])
    ensures RunFleet(f, acts[..k + 1]) == After(RunFleet(f, acts[..k]), acts[k])
  {
    PrefixLegal(f, acts, k + 1);
    FleetNext(f, acts, k);
    StepSafeIff(RunFleet(f, acts[..k]), acts[k]);
  }

  lemma HarmlessRunUpheld(f: Fleet, acts: seq<Act>)
    requires Sound(f) && LegalFleet(f, acts) && HarmlessThroughout(f, acts)
    ensures UpheldThroughout(f, acts)
  {
    forall k | 0 <= k <= |acts| ensures Sound(RunFleet(f, acts[..k])) {
      HarmlessPrefix(f, acts, k);
    }
    forall k | 0 <= k < |acts| ensures Upheld(RunFleet(f, acts[..k]), acts[k]) {
      HarmlessPrefix(f, acts, k);
      SafeAt(f, acts, k);
    }
  }

  lemma HarmlessStep(f: Fleet, acts: seq<Act>, k: nat)
    requires LegalFleet(f, acts) && HarmlessThroughout(f, acts)
    requires k < |acts| && Sound(RunFleet(f, acts[..k]))
    ensures Sound(RunFleet(f, acts[..k + 1]))
  {
    SafeAt(f, acts, k);
  }

  lemma {:induction false} HarmlessPrefix(f: Fleet, acts: seq<Act>, k: nat)
    requires Sound(f) && LegalFleet(f, acts) && HarmlessThroughout(f, acts) && k <= |acts|
    ensures Sound(RunFleet(f, acts[..k]))
  {
    if k == 0 {
      assert acts[..k] == [];
    } else {
      HarmlessPrefix(f, acts, k - 1);
      HarmlessStep(f, acts, k - 1);
    }
  }

  // ---- Reachability ----

  /** A legal and harmless step from one state to the next. */
  ghost predicate Goes(f: Fleet, a: Act, g: Fleet) {
    CanAct(f, a) && Harmless(f, a) && After(f, a) == g
  }

  /** A set of states no harmless step leads out of. */
  ghost predicate Closed(p: iset<Fleet>) {
    forall g, a, h :: g in p && Goes(g, a, h) ==> h in p
  }

  /** By a legal run, harmless from beginning to end. */
  ghost predicate Reaches(f: Fleet, g: Fleet) {
    exists acts :: LegalFleet(f, acts) && HarmlessThroughout(f, acts) && RunFleet(f, acts) == g
  }

  /** Whatever lies in every closed set around a state is reached from it. */
  lemma ReachableClosed(f: Fleet) returns (p: iset<Fleet>)
    ensures f in p && Closed(p) && forall g :: g in p ==> Reaches(f, g)
  {
    p := iset g | Reaches(f, g);
    assert LegalFleet(f, []) && HarmlessThroughout(f, []) && RunFleet(f, []) == f;
    forall g, a, h | g in p && Goes(g, a, h) ensures h in p {
      ReachesNext(f, g, a, h);
    }
  }

  lemma ReachesNext(f: Fleet, g: Fleet, a: Act, h: Fleet)
    requires Reaches(f, g) && Goes(g, a, h)
    ensures Reaches(f, h)
  {
    var acts :| LegalFleet(f, acts) && HarmlessThroughout(f, acts) && RunFleet(f, acts) == g;
    HarmlessLonger(f, acts, a);
    LegalLonger(f, acts, a);
  }

  lemma HarmlessLonger(f: Fleet, acts: seq<Act>, a: Act)
    requires HarmlessThroughout(f, acts) && Harmless(RunFleet(f, acts), a)
    ensures HarmlessThroughout(f, acts + [a])
  {
    var longer := acts + [a];
    forall k | 0 <= k < |longer| ensures Harmless(RunFleet(f, longer[..k]), longer[k]) {
      if k < |acts| {
        assert longer[..k] == acts[..k];
      } else {
        assert longer[..k] == acts;
      }
    }
  }

  lemma LegalLonger(f: Fleet, acts: seq<Act>, a: Act)
    requires LegalFleet(f, acts) && CanAct(RunFleet(f, acts), a)
    ensures LegalFleet(f, acts + [a]) && RunFleet(f, acts + [a]) == After(RunFleet(f, acts), a)
  {
    assert (acts + [a])[..|acts|] == acts;
  }

  predicate Plain(step: Step) {
    !step.BeginJob? && !step.SubmitJob? && !step.RecordJob? && !step.AskJob?
  }

  lemma PlainIsHarmless(f: Fleet, worker: string, step: Step)
    requires Plain(step)
    ensures Harmless(f, Act(worker, step))
  {
  }

  lemma OnwardPlainly(p: iset<Fleet>, g: Fleet, worker: string, step: Step, h: Fleet)
    requires Closed(p) && g in p && Plain(step) && Enabled(g.Seen(worker), step) && After(g, Act(worker, step)) == h
    ensures h in p
  {
    PlainIsHarmless(g, worker, step);
    Onward(p, g, Act(worker, step), h);
  }

  lemma Onward(p: iset<Fleet>, g: Fleet, a: Act, h: Fleet)
    requires Closed(p) && g in p && Goes(g, a, h)
    ensures h in p
  {
  }
}
