/**
 * The whole job lifecycle as a step system: the planning loop (app/decide/service.py), concurrent approvers
 * (app/approval/service.py), one dispatcher (app/dispatch/service.py) and the cluster, interleaving freely.
 */
module Lifecycle {
  import opened Prelude
  import opened JobStore
  import opened Claims
  import opened Approvals
  import opened Dispatching

  // ---- Planning ----

  predicate AwaitsPlan(w: World, id: string, now: Time) {
    id in w.jobs && w.jobs[id].status in {Submitted, Validated} && w.jobs[id].deadline > now
  }

  /** Stores a fresh decision, or updates the one there is, and opens or skips the approval gate. */
  function Plan(w: World, id: string, start: Option<Time>): World {
    if id !in w.jobs then w
    else if start.None? then SetStatus(w, id, Failed)
    else
      var known := id in w.decisions;
      var decision := Decision(if known then w.decisions[id].id else w.nextDecision, start.value);
      SetStatus(w, id, if w.jobs[id].deferrable == Some(false) then Approved else PendingApproval)
      .(decisions := w.decisions[id := decision], nextDecision := if known then w.nextDecision else w.nextDecision + 1)
  }

  /** Only jobs marked as not deferrable skip the approval gate; without a slot a job fails and keeps its tables. */
  lemma PlanExact(w: World, id: string, start: Option<Time>)
    requires id in w.jobs
    ensures var after := Plan(w, id, start);
            && (start.None? ==> HasStatus(after, id, Failed) && after.decisions == w.decisions)
            && (start.Some? ==>
                  && HasStatus(after, id, if w.jobs[id].deferrable == Some(false) then Approved else PendingApproval)
                  && id in after.decisions && after.decisions[id].start == start.value
                  && after.decisions[id].id == (if id in w.decisions then w.decisions[id].id else w.nextDecision))
  {
  }

  /** Waiting for a plan: submitted or validated, with the deadline still ahead. */
  lemma AwaitsPlanExact(w: World, id: string, now: Time)
    ensures AwaitsPlan(w, id, now)
       <==> (HasStatus(w, id, Submitted) || HasStatus(w, id, Validated)) && now < w.jobs[id].deadline
  {
  }

  // ---- The system ----

  datatype Stage = Arrived | Examined | Answered(reply: Reply)

  datatype Racer = Racer(request: Request, stage: Stage)

  /** Where the dispatcher's tick stands; what it claimed and has not dispatched yet it keeps in memory. */
  datatype Phase =
    | Idle
    | Holding(ids: set<string>)
    | Begun(id: string, rest: set<string>)
    | Sent(id: string, rest: set<string>)

  datatype Exit = Exit(job: string, decision: nat, to: Status)

  datatype System = System(world: World, now: Time, racers: seq<Racer>, dispatcher: Phase, exits: multiset<Exit>)

  datatype Step =
    | Advance(to: Time)
    | PlanJob(id: string, start: Option<Time>)
    | ExamineRequest(i: nat)
    | SettleRequest(i: nat)
    | ResubmitJob(id: string)
    | PromoteDue
    | RecoverClaims
    | ClaimBatch(batch: set<string>)
    | BeginJob(id: string)
    | SubmitJob(api: Api)
    | RecordJob(replace: bool)
    | WatchJob(id: string)
    | AskJob(id: string)
    | ClusterMoves(name: string, status: Option<KubeStatus>)
    | RestartDispatcher

  const WORKER: string := "dispatcher"

  ghost predicate Enabled(s: System, step: Step) {
    match step
    case Advance(to) => s.now <= to
    case PlanJob(id, _) => AwaitsPlan(s.world, id, s.now)
    case ExamineRequest(i) => i < |s.racers| && s.racers[i].stage == Arrived
    case SettleRequest(i) => i < |s.racers| && s.racers[i].stage == Examined
    case ResubmitJob(_) => true
    case PromoteDue => s.dispatcher.Idle?
    case RecoverClaims => s.dispatcher.Idle?
    case ClaimBatch(batch) =>
      s.dispatcher.Idle? && FirstK(s.world.jobs, ReadyJobs(s.world.jobs), batch, CLAIM_BATCH_SIZE)
    case BeginJob(id) => s.dispatcher.Holding? && id in s.dispatcher.ids
    case SubmitJob(_) => s.dispatcher.Begun?
    case RecordJob(_) => s.dispatcher.Sent?
    case WatchJob(id) => Watched(s.world, id)
    case AskJob(id) => HasStatus(s.world, id, Queued) || HasStatus(s.world, id, Running)
    case ClusterMoves(_, _) => true
    case RestartDispatcher => true
  }

  function Moved(w: World, name: string, status: Option<KubeStatus>): World {
    if name !in w.cluster then w
    else if status.Some? then w.(cluster := w.cluster[name := status.value])
    else w.(cluster := w.cluster - {name})
  }

  predicate IsDispatcherStep(step: Step) {
    || step.PromoteDue? || step.RecoverClaims? || step.ClaimBatch? || step.BeginJob? || step.SubmitJob?
    || step.RecordJob? || step.RestartDispatcher?
  }

  function WorldAfter(s: System, step: Step): World {
    if IsDispatcherStep(step) then DispatcherWorld(s, step) else OthersWorld(s, step)
  }

  function OthersWorld(s: System, step: Step): World {
    var w := s.world;
    match step
    case PlanJob(id, start) => Plan(w, id, start)
    case SettleRequest(i) => if i < |s.racers| then Settle(w, s.racers[i].request).0 else w
    case ResubmitJob(id) => Resubmit(w, id)
    case WatchJob(id) => Poll(w, id)
    case AskJob(id) => Poll(w, id)
    case ClusterMoves(name, status) => Moved(w, name, status)
    case _ => w
  }

  function DispatcherWorld(s: System, step: Step): World {
    var w := s.world;
    match step
    case PromoteDue => w.(jobs := Promoted(w.jobs, Promotable(w.jobs, w.decisions, s.now)))
    case RecoverClaims => w.(jobs := Recovered(w.jobs, Expired(w.jobs, s.now)))
    case ClaimBatch(batch) => w.(jobs := Claimed(w.jobs, batch, WORKER, s.now))
    case BeginJob(id) => if Gate(w, id, Claiming, s.now).None? then Begin(w, id) else w
    case SubmitJob(api) =>
      if !s.dispatcher.Begun? then w
      else if api.Error? then Release(w, s.dispatcher.id, Failed) else Submit(w, s.dispatcher.id, api)
    case RecordJob(replace) => if s.dispatcher.Sent? then Record(w, s.dispatcher.id, replace) else w
    case _ => w
  }

  function DispatcherAfter(s: System, step: Step): Phase {
    match step
    case ClaimBatch(batch) => Holding(batch)
    case BeginJob(id) =>
      if !s.dispatcher.Holding? then s.dispatcher
      else if Gate(s.world, id, Claiming, s.now).None? then Begun(id, s.dispatcher.ids - {id})
      else Holding(s.dispatcher.ids - {id})
    case SubmitJob(api) =>
      if !s.dispatcher.Begun? then s.dispatcher
      else if api.Error? then Holding(s.dispatcher.rest) else Sent(s.dispatcher.id, s.dispatcher.rest)
    case RecordJob(_) => if s.dispatcher.Sent? then Holding(s.dispatcher.rest) else s.dispatcher
    case RestartDispatcher => Idle
    case _ => s.dispatcher
  }

  function RacersAfter(s: System, step: Step): seq<Racer> {
    match step
    case ExamineRequest(i) =>
      if i >= |s.racers| then s.racers
      else
        var r := s.racers[i].request;
        var refused := Examine(s.world, r);
        s.racers[i := Racer(r, if refused.Some? then Answered(refused.value) else Examined)]
    case SettleRequest(i) =>
      if i >= |s.racers| then s.racers
      else s.racers[i := Racer(s.racers[i].request, Answered(Settle(s.world, s.racers[i].request).1))]
    case _ => s.racers
  }

  /** Every job that left the approval gate between two worlds, by whatever step. */
  function Exits(before: World, after: World): set<Exit> {
    set id | id in before.jobs && id in after.jobs && id in before.decisions
             && HasStatus(before, id, PendingApproval) && !HasStatus(after, id, PendingApproval)
      :: Exit(id, before.decisions[id].id, after.jobs[id].status)
  }

  function Next(s: System, step: Step): System {
    var w := WorldAfter(s, step);
    System(w, if step.Advance? then step.to else s.now, RacersAfter(s, step), DispatcherAfter(s, step),
           s.exits + multiset(Exits(s.world, w)))
  }

  // ---- What holds in every reachable state ----

  const GATED: set<Status> := {Approved, Ready, Claiming, Dispatching, Queued, Running, Completed}

  const STARTED: set<Status> := {Ready, Claiming, Dispatching, Queued, Running, Completed}

  /** Allowed to run: not deferrable, or approved for the decision it has now. */
  predicate Cleared(w: World, id: string) {
    id in w.jobs &&
    (w.jobs[id].deferrable == Some(false)
     || (id in w.decisions && Approval(id, w.decisions[id].id, Approve) in w.approvals))
  }

  /**
   * What holds of every job. Unscheduled jobs have no decision, later ones have; started jobs have a due one;
   * jobs past the gate are cleared; and an execution is polled only while its job is queued or running.
   */
  predicate JobFits(w: World, id: string, now: Time) {
    id in w.jobs ==>
      var status := w.jobs[id].status;
      && status != Scheduled
      && (status in {Submitted, Validated} ==> id !in w.decisions)
      && (status == PendingApproval || status in GATED ==> id in w.decisions)
      && (status in STARTED ==> id in w.decisions && w.decisions[id].start <= now)
      && (status in GATED ==> Cleared(w, id))
      && (Watched(w, id) ==> status in {Queued, Running})
  }

  /** Decision ids are distinct and below the counter, and every approval row belongs to a live decision. */
  ghost predicate RowsFit(w: World) {
    && (forall id :: id in w.decisions ==> w.decisions[id].id < w.nextDecision)
    && (forall a, b :: a in w.decisions && b in w.decisions && w.decisions[a].id == w.decisions[b].id ==> a == b)
    && (forall row :: row in w.approvals ==> Current(w, row.job, row.decision))
  }

  ghost predicate WorldFits(w: World, now: Time) {
    RowsFit(w) && JobsFit(w, now)
  }

  ghost predicate JobsFit(w: World, now: Time) {
    forall id :: id in w.jobs ==> JobFits(w, id, now)
  }

  /** The dispatcher's memory is accurate: what it holds is claimed, what it works on is dispatching. */
  ghost predicate MemoryFits(w: World, p: Phase) {
    match p
    case Idle => true
    case Holding(ids) => AllClaimed(w, ids)
    case Begun(id, rest) => HasStatus(w, id, Dispatching) && AllClaimed(w, rest)
    case Sent(id, rest) => HasStatus(w, id, Dispatching) && AllClaimed(w, rest)
  }

  ghost predicate AllClaimed(w: World, ids: set<string>) {
    forall id :: id in ids ==> HasStatus(w, id, Claiming)
  }

  /** A request past its reads named the decision its job had then, and no other job can ever get that id. */
  ghost predicate RacerFits(w: World, r: Racer) {
    r.stage == Examined ==>
      && r.request.decision < w.nextDecision
      && forall id :: id in w.decisions && w.decisions[id].id == r.request.decision ==> id == r.request.job
  }

  ghost predicate RacersFit(w: World, racers: seq<Racer>) {
    forall i :: 0 <= i < |racers| ==> RacerFits(w, racers[i])
  }

  ghost predicate Inv(s: System) {
    WorldFits(s.world, s.now) && MemoryFits(s.world, s.dispatcher) && RacersFit(s.world, s.racers)
  }

  // ---- One transaction at a time ----

  /** Work in progress survives: what was claimed or dispatching still is. */
  ghost predicate LeavesWork(before: World, after: World) {
    && (forall id :: HasStatus(before, id, Claiming) ==> HasStatus(after, id, Claiming))
    && (forall id :: HasStatus(before, id, Dispatching) ==> HasStatus(after, id, Dispatching))
  }

  lemma PlanFits(w: World, now: Time, id: string, start: Option<Time>)
    requires WorldFits(w, now) && AwaitsPlan(w, id, now)
    ensures WorldFits(Plan(w, id, start), now) && LeavesWork(w, Plan(w, id, start))
  {
    PlanKeepsRows(w, now, id, start);
    PlanLeavesWork(w, now, id, start);
  }

  lemma PlanKeepsRows(w: World, now: Time, id: string, start: Option<Time>)
    requires WorldFits(w, now) && AwaitsPlan(w, id, now)
    ensures RowsFit(Plan(w, id, start))
  {
  }

  lemma PlanLeavesWork(w: World, now: Time, id: string, start: Option<Time>)
    requires WorldFits(w, now) && AwaitsPlan(w, id, now)
    ensures LeavesWork(w, Plan(w, id, start))
  {
  }

  lemma SettleFits(w: World, now: Time, r: Request)
    requires WorldFits(w, now) && RacerFits(w, Racer(r, Examined))
    ensures WorldFits(Settle(w, r).0, now) && LeavesWork(w, Settle(w, r).0)
  {
    SettleKeepsJobs(w, now, r);
    SettleKeepsRows(w, now, r);
    SettleLeavesWork(w, now, r);
  }

  lemma SettleKeepsJobs(w: World, now: Time, r: Request)
    requires WorldFits(w, now) && RacerFits(w, Racer(r, Examined))
    ensures JobsFit(Settle(w, r).0, now)
  {
  }

  lemma SettleKeepsRows(w: World, now: Time, r: Request)
    requires WorldFits(w, now) && RacerFits(w, Racer(r, Examined))
    ensures RowsFit(Settle(w, r).0)
  {
  }

  lemma SettleLeavesWork(w: World, now: Time, r: Request)
    requires WorldFits(w, now) && RacerFits(w, Racer(r, Examined))
    ensures LeavesWork(w, Settle(w, r).0)
  {
  }

  /** A resubmission drops exactly the rows of the decision it drops. */
  lemma ResubmitRows(w: World, id: string)
    ensures forall row :: row in Resubmit(w, id).approvals <==>
              row in w.approvals && !(Resubmit(w, id) != w && id in w.decisions && row.decision == w.decisions[id].id)
  {
    if id in w.decisions {
      forall row {
        WithoutCounts(w.approvals, w.decisions[id].id, row);
      }
    }
  }

  lemma ResubmitFits(w: World, now: Time, id: string)
    requires WorldFits(w, now)
    ensures WorldFits(Resubmit(w, id), now) && LeavesWork(w, Resubmit(w, id))
  {
    ResubmitKeepsJobs(w, now, id);
    ResubmitKeepsRows(w, now, id);
    ResubmitLeavesWork(w, now, id);
  }

  lemma ResubmitKeepsJobs(w: World, now: Time, id: string)
    requires WorldFits(w, now)
    ensures JobsFit(Resubmit(w, id), now)
  {
    forall other | other in Resubmit(w, id).jobs ensures JobFits(Resubmit(w, id), other, now) {
      ResubmitKeepsJob(w, now, id, other);
    }
  }

  lemma ResubmitKeepsJob(w: World, now: Time, id: string, other: string)
    requires WorldFits(w, now) && other in w.jobs
    ensures JobFits(Resubmit(w, id), other, now)
  {
    assert JobFits(w, other, now);
    if other != id && Cleared(w, other) {
      ResubmitLeavesCleared(w, id, other);
    }
  }

  /** The rows dropped are those of one decision, which is no other job's. */
  lemma ResubmitLeavesCleared(w: World, id: string, other: string)
    requires RowsFit(w) && other != id && Cleared(w, other)
    ensures Cleared(Resubmit(w, id), other)
  {
    ResubmitRows(w, id);
  }

  lemma ResubmitKeepsRows(w: World, now: Time, id: string)
    requires WorldFits(w, now)
    ensures RowsFit(Resubmit(w, id))
  {
    ResubmitRows(w, id);
  }

  lemma ResubmitLeavesWork(w: World, now: Time, id: string)
    ensures LeavesWork(w, Resubmit(w, id))
  {
  }

  lemma PromoteFits(w: World, now: Time)
    requires WorldFits(w, now)
    ensures WorldFits(w.(jobs := Promoted(w.jobs, Promotable(w.jobs, w.decisions, now))), now)
  {
  }

  lemma RecoverFits(w: World, now: Time)
    requires WorldFits(w, now)
    ensures WorldFits(w.(jobs := Recovered(w.jobs, Expired(w.jobs, now))), now)
  {
  }

  lemma ClaimFits(w: World, now: Time, batch: set<string>)
    requires WorldFits(w, now) && batch <= ReadyJobs(w.jobs)
    ensures WorldFits(w.(jobs := Claimed(w.jobs, batch, WORKER, now)), now)
    ensures AllClaimed(w.(jobs := Claimed(w.jobs, batch, WORKER, now)), batch)
  {
    var after := w.(jobs := Claimed(w.jobs, batch, WORKER, now));
    forall other | other in after.jobs ensures JobFits(after, other, now) {
      assert JobFits(w, other, now);
    }
  }

  /** Moving one job from a started status to another, with or without its lease. */
  lemma WorkFits(w: World, now: Time, id: string, after: World)
    requires WorldFits(w, now) && id in w.jobs && id in after.jobs && w.jobs[id].status in {Claiming, Dispatching}
    requires after == w.(jobs := w.jobs[id := after.jobs[id]])
    requires after.jobs[id].deferrable == w.jobs[id].deferrable
    requires after.jobs[id].status in {Dispatching, Queued, Failed}
    ensures WorldFits(after, now)
  {
    assert JobFits(w, id, now);
    forall other | other in after.jobs ensures JobFits(after, other, now) {
      assert JobFits(w, other, now);
    }
  }

  lemma RecordFits(w: World, now: Time, id: string, replace: bool)
    requires WorldFits(w, now) && HasStatus(w, id, Dispatching)
    ensures WorldFits(Record(w, id, replace), now)
  {
  }

  lemma PollFits(w: World, now: Time, id: string)
    requires WorldFits(w, now) && (HasStatus(w, id, Queued) || HasStatus(w, id, Running))
    ensures WorldFits(Poll(w, id), now) && LeavesWork(w, Poll(w, id))
  {
    PollKeepsJobs(w, now, id);
    PollKeepsRows(w, now, id);
    PollLeavesWork(w, now, id);
  }

  lemma PollKeepsJobs(w: World, now: Time, id: string)
    requires WorldFits(w, now) && (HasStatus(w, id, Queued) || HasStatus(w, id, Running))
    ensures JobsFit(Poll(w, id), now)
  {
  }

  lemma PollKeepsRows(w: World, now: Time, id: string)
    requires WorldFits(w, now) && (HasStatus(w, id, Queued) || HasStatus(w, id, Running))
    ensures RowsFit(Poll(w, id))
  {
  }

  lemma PollLeavesWork(w: World, now: Time, id: string)
    requires WorldFits(w, now) && (HasStatus(w, id, Queued) || HasStatus(w, id, Running))
    ensures LeavesWork(w, Poll(w, id))
  {
  }

  lemma ClusterFits(w: World, now: Time, after: World)
    requires WorldFits(w, now) && after == w.(cluster := after.cluster)
    ensures WorldFits(after, now) && LeavesWork(w, after)
  {
  }

  lemma TimeFits(w: World, now: Time, later: Time)
    requires WorldFits(w, now) && now <= later
    ensures WorldFits(w, later)
  {
  }

  // ---- Every step of the system ----

  lemma MemoryStays(before: World, after: World, p: Phase)
    requires LeavesWork(before, after) && MemoryFits(before, p)
    ensures MemoryFits(after, p)
  {
  }

  lemma OthersFit(s: System, step: Step)
    requires WorldFits(s.world, s.now) && RacersFit(s.world, s.racers)
    requires Enabled(s, step) && !IsDispatcherStep(step)
    ensures WorldFits(WorldAfter(s, step), s.now) && LeavesWork(s.world, WorldAfter(s, step))
  {
    match step {
      case PlanJob(id, start) => PlanFits(s.world, s.now, id, start);
      case SettleRequest(i) => SettleFits(s.world, s.now, s.racers[i].request);
      case ResubmitJob(id) => ResubmitFits(s.world, s.now, id);
      case WatchJob(id) => PollWatchedFits(s.world, s.now, id);
      case AskJob(id) => PollFits(s.world, s.now, id);
      case ClusterMoves(_, _) => ClusterFits(s.world, s.now, WorldAfter(s, step));
      case _ =>
    }
  }

  /** The loop polls only executions of queued and running jobs, or of jobs that are gone. */
  lemma PollWatchedFits(w: World, now: Time, id: string)
    requires WorldFits(w, now) && Watched(w, id)
    ensures WorldFits(Poll(w, id), now) && LeavesWork(w, Poll(w, id))
  {
    if id in w.jobs {
      assert JobFits(w, id, now);
      PollFits(w, now, id);
    } else {
      forall other | other in w.jobs ensures JobFits(Poll(w, id), other, now) {
        assert JobFits(w, other, now);
      }
    }
  }

  lemma DispatcherFits(s: System, step: Step)
    requires Inv(s) && Enabled(s, step) && IsDispatcherStep(step)
    ensures WorldFits(WorldAfter(s, step), s.now)
    ensures MemoryFits(WorldAfter(s, step), DispatcherAfter(s, step))
  {
    match step {
      case BeginJob(id) => BeginFits(s, id);
      case SubmitJob(api) => SubmitFits(s, api);
      case RecordJob(replace) => RecordedFits(s, replace);
      case _ => BulkFits(s, step);
    }
  }

  lemma RecordedFits(s: System, replace: bool)
    requires Inv(s) && Enabled(s, RecordJob(replace))
    ensures WorldFits(WorldAfter(s, RecordJob(replace)), s.now)
    ensures MemoryFits(WorldAfter(s, RecordJob(replace)), DispatcherAfter(s, RecordJob(replace)))
  {
    RecordFits(s.world, s.now, s.dispatcher.id, replace);
    RecordLeavesClaims(s.world, s.dispatcher.id, replace, s.dispatcher.rest);
  }

  lemma RecordLeavesClaims(w: World, id: string, replace: bool, rest: set<string>)
    requires HasStatus(w, id, Dispatching) && AllClaimed(w, rest)
    ensures AllClaimed(Record(w, id, replace), rest)
  {
  }

  /** The steps over the whole job table, and a restart, which forgets the claimed jobs but not their leases. */
  lemma BulkFits(s: System, step: Step)
    requires WorldFits(s.world, s.now) && Enabled(s, step)
    requires step.PromoteDue? || step.RecoverClaims? || step.ClaimBatch? || step.RestartDispatcher?
    ensures WorldFits(WorldAfter(s, step), s.now)
    ensures MemoryFits(WorldAfter(s, step), DispatcherAfter(s, step))
  {
    match step {
      case PromoteDue => PromoteFits(s.world, s.now);
      case RecoverClaims => RecoverFits(s.world, s.now);
      case ClaimBatch(batch) => ClaimFits(s.world, s.now, batch);
      case _ =>
    }
  }

  /** With one dispatcher the gate is never in the way: whatever it claimed is due and has a decision. */
  lemma GateNeverBlocks(s: System, id: string)
    requires Inv(s) && Enabled(s, BeginJob(id))
    ensures HasStatus(s.world, id, Claiming) && Cleared(s.world, id)
    ensures Gate(s.world, id, s.world.jobs[id].status, s.now).None?
  {
  }

  lemma BeginFits(s: System, id: string)
    requires Inv(s) && Enabled(s, BeginJob(id))
    ensures WorldFits(WorldAfter(s, BeginJob(id)), s.now)
    ensures MemoryFits(WorldAfter(s, BeginJob(id)), DispatcherAfter(s, BeginJob(id)))
  {
    GateNeverBlocks(s, id);
    WorkFits(s.world, s.now, id, Begin(s.world, id));
    BeginLeavesClaims(s.world, id, s.dispatcher.ids);
  }

  lemma BeginLeavesClaims(w: World, id: string, held: set<string>)
    requires AllClaimed(w, held)
    ensures AllClaimed(Begin(w, id), held - {id})
  {
  }

  lemma SubmitFits(s: System, api: Api)
    requires Inv(s) && Enabled(s, SubmitJob(api))
    ensures WorldFits(WorldAfter(s, SubmitJob(api)), s.now)
    ensures MemoryFits(WorldAfter(s, SubmitJob(api)), DispatcherAfter(s, SubmitJob(api)))
  {
    if api.Error? {
      FailedSubmitFits(s.world, s.now, s.dispatcher.id, s.dispatcher.rest);
    } else {
      ClusterFits(s.world, s.now, Submit(s.world, s.dispatcher.id, api));
    }
  }

  lemma FailedSubmitFits(w: World, now: Time, id: string, rest: set<string>)
    requires WorldFits(w, now) && MemoryFits(w, Begun(id, rest))
    ensures WorldFits(Release(w, id, Failed), now) && MemoryFits(Release(w, id, Failed), Holding(rest))
  {
    WorkFits(w, now, id, Release(w, id, Failed));
  }

  lemma NextRacersFit(s: System, step: Step)
    requires WorldFits(s.world, s.now) && RacersFit(s.world, s.racers) && (Enabled(s, step) || step.AskJob?)
    ensures RacersFit(WorldAfter(s, step), RacersAfter(s, step))
  {
    var w, after := s.world, WorldAfter(s, step);
    assert DecisionsGrow(w, after) by {
      DecisionsOnlyGrow(s, step);
    }
    forall i | 0 <= i < |RacersAfter(s, step)| ensures RacerFits(after, RacersAfter(s, step)[i]) {
      assert RacerFits(w, s.racers[i]);
    }
  }

  /** A decision is either as it was, or newly numbered. */
  ghost predicate DecisionsGrow(before: World, after: World) {
    && before.nextDecision <= after.nextDecision
    && forall id :: id in after.decisions ==>
         || (id in before.decisions && before.decisions[id].id == after.decisions[id].id)
         || after.decisions[id].id == before.nextDecision
  }

  lemma DecisionsOnlyGrow(s: System, step: Step)
    ensures DecisionsGrow(s.world, WorldAfter(s, step))
  {
  }

  lemma NextKeepsInv(s: System, step: Step)
    requires Inv(s) && Enabled(s, step)
    ensures Inv(Next(s, step))
  {
    var after := WorldAfter(s, step);
    if IsDispatcherStep(step) {
      DispatcherFits(s, step);
    } else {
      OthersFit(s, step);
      MemoryStays(s.world, after, s.dispatcher);
    }
    NextRacersFit(s, step);
    TimeFits(after, s.now, Next(s, step).now);
  }
}
