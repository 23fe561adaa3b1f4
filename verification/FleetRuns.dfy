/**
 * Four legal runs, harmless but for their last steps. Three lead a job past the approval gate: a poll of an earlier
 * execution, a dispatch by a worker whose claim has run out, a creation begun before the job failed. The fourth undoes
 * a cancellation. One deferrable job is submitted, planned, approved and claimed; then the runs part.
 */
module FleetRuns {
  import opened Prelude
  import opened JobStore
  import opened Claims
  import opened Approvals
  import opened Dispatching
  import opened Lifecycle
  import opened Fleet

  // ---- The states of the runs ----

  function Only(id: string, status: Status, lease: Option<Lease>): map<string, Job> {
    map[id := Job(status, None, HOUR, None, lease)]
  }

  /** The job with its n-th decision, due at once, and the approval of decision 0 if it has that one. */
  function Site(id: string, status: Status, lease: Option<Lease>, n: nat): World {
    World(Only(id, status, lease), map[id := Decision(n, 0)], n + 1,
          if n == 0 && status != PendingApproval then [Approval(id, 0, Approve)] else [], map[], map[])
  }

  function Unplanned(id: string, n: nat): World {
    World(Only(id, Submitted, None), map[], n, [], map[], map[])
  }

  /** Two workers, and one approver of decision 0. */
  function At(w: World, now: Time, id: string, stage: Stage, a: Phase, b: Phase): Fleet {
    Fleet(w, now, [Racer(Request(id, 0, Approve, None), stage)], map["a" := a, "b" := b])
  }

  function Submission(id: string): Fleet {
    At(Unplanned(id, 0), 0, id, Arrived, Idle, Idle)
  }

  const DONE: Stage := Answered(Recorded)

  function LeaseAt(t: Time): Option<Lease> {
    Some(Lease(WORKER, t, t + CLAIM_LEASE))
  }

  function Instead(w: string, name: string, p: Phase, before: Phase): Phase {
    if w == name then p else before
  }

  /** One of the two workers takes a step of its own. */
  lemma WorkerMoves(world: World, now: Time, id: string, w: string, a: Phase, b: Phase, step: Step, p: iset<Fleet>)
    requires w == "a" || w == "b"
    requires Closed(p) && At(world, now, id, DONE, a, b) in p
    requires IsDispatcherStep(step) && CanAct(At(world, now, id, DONE, a, b), Act(w, step))
    requires Harmless(At(world, now, id, DONE, a, b), Act(w, step))
    ensures var s := At(world, now, id, DONE, a, b).Seen(w);
            At(DispatcherWorld(s, step), now, id, DONE, Instead(w, "a", DispatcherAfter(s, step), a),
               Instead(w, "b", DispatcherAfter(s, step), b)) in p
  {
    var f := At(world, now, id, DONE, a, b);
    var q := DispatcherAfter(f.Seen(w), step);
    assert f.workers[w := q] == map["a" := Instead(w, "a", q, a), "b" := Instead(w, "b", q, b)];
    Onward(p, f, Act(w, step), After(f, Act(w, step)));
  }

  // ---- Submission to first claim ----

  lemma Planned(id: string, p: iset<Fleet>)
    requires Closed(p) && Submission(id) in p
    ensures At(Site(id, PendingApproval, None, 0), 0, id, Arrived, Idle, Idle) in p
  {
    OnwardPlainly(p, Submission(id), "a", PlanJob(id, Some(0)),
           At(Site(id, PendingApproval, None, 0), 0, id, Arrived, Idle, Idle));
  }

  lemma RequestRead(id: string, p: iset<Fleet>)
    requires Closed(p) && At(Site(id, PendingApproval, None, 0), 0, id, Arrived, Idle, Idle) in p
    ensures At(Site(id, PendingApproval, None, 0), 0, id, Examined, Idle, Idle) in p
  {
    OnwardPlainly(p, At(Site(id, PendingApproval, None, 0), 0, id, Arrived, Idle, Idle), "a", ExamineRequest(0),
           At(Site(id, PendingApproval, None, 0), 0, id, Examined, Idle, Idle));
  }

  lemma RequestSettled(id: string, p: iset<Fleet>)
    requires Closed(p) && At(Site(id, PendingApproval, None, 0), 0, id, Examined, Idle, Idle) in p
    ensures At(Site(id, Approved, None, 0), 0, id, DONE, Idle, Idle) in p
  {
    OnwardPlainly(p, At(Site(id, PendingApproval, None, 0), 0, id, Examined, Idle, Idle), "a", SettleRequest(0),
           At(Site(id, Approved, None, 0), 0, id, DONE, Idle, Idle));
  }

  lemma MadeReady(id: string, p: iset<Fleet>)
    requires Closed(p) && At(Site(id, Approved, None, 0), 0, id, DONE, Idle, Idle) in p
    ensures At(Site(id, Ready, None, 0), 0, id, DONE, Idle, Idle) in p
  {
    OnwardPlainly(p, At(Site(id, Approved, None, 0), 0, id, DONE, Idle, Idle), "a", PromoteDue,
           At(Site(id, Ready, None, 0), 0, id, DONE, Idle, Idle));
  }

  lemma OnlyReady(id: string, now: Time)
    ensures FirstK(Only(id, Ready, None), ReadyJobs(Only(id, Ready, None)), {id}, CLAIM_BATCH_SIZE)
    ensures Claimed(Only(id, Ready, None), {id}, WORKER, now) == Only(id, Claiming, LeaseAt(now))
  {
    assert ReadyJobs(Only(id, Ready, None)) == {id};
  }

  lemma BatchTaken(world: World, batch: set<string>, now: Time, id: string, w: string, a: Phase, b: Phase,
                   p: iset<Fleet>)
    requires (w == "a" && a == Idle) || (w == "b" && b == Idle)
    requires FirstK(world.jobs, ReadyJobs(world.jobs), batch, CLAIM_BATCH_SIZE)
    requires Closed(p) && At(world, now, id, DONE, a, b) in p
    ensures At(world.(jobs := Claimed(world.jobs, batch, WORKER, now)), now, id, DONE,
               Instead(w, "a", Holding(batch), a), Instead(w, "b", Holding(batch), b)) in p
  {
    WorkerMoves(world, now, id, w, a, b, ClaimBatch(batch), p);
  }

  lemma ClaimTaken(id: string, now: Time, w: string, a: Phase, b: Phase, p: iset<Fleet>)
    requires (w == "a" && a == Idle) || (w == "b" && b == Idle)
    requires Closed(p) && At(Site(id, Ready, None, 0), now, id, DONE, a, b) in p
    ensures At(Site(id, Claiming, LeaseAt(now), 0), now, id, DONE, Instead(w, "a", Holding({id}), a),
               Instead(w, "b", Holding({id}), b)) in p
  {
    OnlyReady(id, now);
    BatchTaken(Site(id, Ready, None, 0), {id}, now, id, w, a, b, p);
  }

  lemma FirstClaim(id: string, p: iset<Fleet>)
    requires Closed(p) && Submission(id) in p
    ensures At(Site(id, Claiming, LeaseAt(0), 0), 0, id, DONE, Holding({id}), Idle) in p
  {
    Planned(id, p);
    RequestRead(id, p);
    RequestSettled(id, p);
    MadeReady(id, p);
    ClaimTaken(id, 0, "a", Idle, Idle, p);
  }

  // ---- Steps the runs share ----

  /** Whatever the row says, a due decision is all that a worker holding the job needs. */
  lemma GateOpen(id: string, status: Status, lease: Option<Lease>, n: nat, now: Time)
    requires now >= 0 && (status != PendingApproval || n > 0)
    ensures var w := Site(id, status, lease, n);
            Gate(w, id, Claiming, now).None? && Begin(w, id) == Site(id, Dispatching, lease, n)
  {
  }

  /** Past the gate the job is cleared and due, and nobody has polled it yet. */
  lemma ApprovedSite(id: string, status: Status, lease: Option<Lease>, now: Time)
    requires now >= 0 && status != PendingApproval
    ensures var w := Site(id, status, lease, 0);
            ClearedAndDue(w, id, now) && !Watched(w, id) && (status !in HELD ==> !IsHeld(w, id))
  {
  }

  lemma GatePassed(world: World, id: string, held: set<string>, now: Time, w: string, a: Phase, b: Phase,
                   p: iset<Fleet>)
    requires (w == "a" && a == Holding(held)) || (w == "b" && b == Holding(held))
    requires id in held && Gate(world, id, Claiming, now).None?
    requires ClearedAndDue(world, id, now) && !Watched(world, id) && !IsHeld(world, id)
    requires Closed(p) && At(world, now, id, DONE, a, b) in p
    ensures At(Begin(world, id), now, id, DONE, Instead(w, "a", Phase.Begun(id, held - {id}), a),
               Instead(w, "b", Phase.Begun(id, held - {id}), b)) in p
  {
    WorkerMoves(world, now, id, w, a, b, BeginJob(id), p);
  }

  lemma Begun(id: string, status: Status, lease: Option<Lease>, now: Time, w: string, a: Phase, b: Phase,
              p: iset<Fleet>)
    requires now >= 0 && status !in HELD
    requires (w == "a" && a == Holding({id})) || (w == "b" && b == Holding({id}))
    requires Closed(p) && At(Site(id, status, lease, 0), now, id, DONE, a, b) in p
    ensures At(Site(id, Dispatching, lease, 0), now, id, DONE, Instead(w, "a", Phase.Begun(id, {}), a),
               Instead(w, "b", Phase.Begun(id, {}), b)) in p
  {
    GateOpen(id, status, lease, 0, now);
    ApprovedSite(id, status, lease, now);
    GatePassed(Site(id, status, lease, 0), id, {id}, now, w, a, b, p);
    assert {id} - {id} == {};
  }

  lemma RowsDropped(w: World, id: string)
    requires w.approvals == [Approval(id, 0, Approve)] && w.decisions == map[id := Decision(0, 0)]
    requires w.jobs == Only(id, Failed, None)
    ensures Resubmit(w, id) == w.(jobs := Only(id, Submitted, None), decisions := map[], approvals := [])
  {
    assert w.decisions - {id} == map[];
    assert Without(w.approvals, 0) == [] by {
      assert w.approvals[1..] == [];
    }
  }

  /** A failed job is resubmitted and planned again, its approval gone. */
  lemma BackInTheGate(id: string, executions: map<string, Execution>, cluster: map<string, KubeStatus>, now: Time,
                      a: Phase, b: Phase, p: iset<Fleet>)
    requires Closed(p) && 0 <= now < HOUR
    requires At(Site(id, Failed, None, 0).(executions := executions, cluster := cluster), now, id, DONE, a, b) in p
    ensures At(Site(id, PendingApproval, None, 1).(executions := executions, cluster := cluster), now, id, DONE, a, b)
         in p
  {
    var failed := Site(id, Failed, None, 0).(executions := executions, cluster := cluster);
    var again := Unplanned(id, 1).(executions := executions, cluster := cluster);
    RowsDropped(failed, id);
    Resubmitted(failed, again, now, id, a, b, p);
    Replanned(again, now, id, a, b, p);
    assert Plan(again, id, Some(0))
        == Site(id, PendingApproval, None, 1).(executions := executions, cluster := cluster);
  }

  lemma Resubmitted(w: World, again: World, now: Time, id: string, a: Phase, b: Phase, p: iset<Fleet>)
    requires Closed(p) && At(w, now, id, DONE, a, b) in p && Resubmit(w, id) == again
    ensures At(again, now, id, DONE, a, b) in p
  {
    OnwardPlainly(p, At(w, now, id, DONE, a, b), "a", ResubmitJob(id), At(again, now, id, DONE, a, b));
  }

  lemma Replanned(w: World, now: Time, id: string, a: Phase, b: Phase, p: iset<Fleet>)
    requires Closed(p) && At(w, now, id, DONE, a, b) in p && AwaitsPlan(w, id, now)
    ensures At(Plan(w, id, Some(0)), now, id, DONE, a, b) in p
  {
    OnwardPlainly(p, At(w, now, id, DONE, a, b), "a", PlanJob(id, Some(0)),
           At(Plan(w, id, Some(0)), now, id, DONE, a, b));
  }

  // ---- A poll of an earlier execution ----

  /** The job's Kubernetes Job and execution row, as they are after a dispatch. */
  function Ran(w: World, id: string, seen: Option<KubeStatus>, shown: KubeStatus): World {
    w.(executions := map[id := Execution(KubeName(id), seen)], cluster := map[KubeName(id) := shown])
  }

  function HeldByA(w: World, id: string, a: Phase): Fleet {
    At(w, 0, id, DONE, a, Idle)
  }

  function Created(id: string): World {
    Site(id, Dispatching, LeaseAt(0), 0).(cluster := map[KubeName(id) := Pending])
  }

  lemma SentByA(id: string, p: iset<Fleet>)
    requires Closed(p) && HeldByA(Site(id, Dispatching, LeaseAt(0), 0), id, Phase.Begun(id, {})) in p
    ensures HeldByA(Created(id), id, Sent(id, {})) in p
  {
    ApprovedSite(id, Dispatching, LeaseAt(0), 0);
    Onward(p, HeldByA(Site(id, Dispatching, LeaseAt(0), 0), id, Phase.Begun(id, {})), Act("a", SubmitJob(Answering)),
           HeldByA(Created(id), id, Sent(id, {})));
  }

  lemma RowWritten(id: string)
    ensures Record(Created(id), id, false) == Ran(Site(id, Queued, None, 0), id, None, Pending)
  {
  }

  lemma RecordedByA(id: string, p: iset<Fleet>)
    requires Closed(p) && HeldByA(Created(id), id, Sent(id, {})) in p
    ensures HeldByA(Ran(Site(id, Queued, None, 0), id, None, Pending), id, Holding({})) in p
  {
    RowWritten(id);
    ApprovedSite(id, Dispatching, LeaseAt(0), 0);
    Onward(p, HeldByA(Created(id), id, Sent(id, {})), Act("a", RecordJob(false)),
           HeldByA(Ran(Site(id, Queued, None, 0), id, None, Pending), id, Holding({})));
  }

  lemma Shown(w: World, id: string, seen: Option<KubeStatus>, before: KubeStatus, after: KubeStatus, p: iset<Fleet>)
    requires Closed(p) && HeldByA(Ran(w, id, seen, before), id, Holding({})) in p
    ensures HeldByA(Ran(w, id, seen, after), id, Holding({})) in p
  {
    OnwardPlainly(p, HeldByA(Ran(w, id, seen, before), id, Holding({})), "a", ClusterMoves(KubeName(id), Some(after)),
           HeldByA(Ran(w, id, seen, after), id, Holding({})));
  }

  lemma PollWrites(w: World, id: string, seen: Option<KubeStatus>, shown: KubeStatus, status: Status)
    requires w.jobs == Only(id, status, None)
    ensures Poll(Ran(w, id, seen, shown), id)
         == Ran(w.(jobs := Only(id, StatusOf(Some(shown)), None)), id, Some(shown), shown)
  {
  }

  /** A harmless poll. */
  lemma Polled(w: World, id: string, a: Phase, p: iset<Fleet>)
    requires Closed(p) && HeldByA(w, id, a) in p && id in w.executions
    requires StatusOf(Observed(w, w.executions[id].name)) == Failed || ClearedAndDue(w, id, 0)
    requires !IsHeld(w, id)
    ensures HeldByA(Poll(w, id), id, a) in p
  {
    Onward(p, HeldByA(w, id, a), Act("a", AskJob(id)), HeldByA(Poll(w, id), id, a));
  }

  lemma FailureSeen(id: string, p: iset<Fleet>)
    requires Closed(p) && HeldByA(Ran(Site(id, Queued, None, 0), id, None, Broken), id, Holding({})) in p
    ensures HeldByA(Ran(Site(id, Failed, None, 0), id, Some(Broken), Broken), id, Holding({})) in p
  {
    Polled(Ran(Site(id, Queued, None, 0), id, None, Broken), id, Holding({}), p);
    PollWrites(Site(id, Queued, None, 0), id, None, Broken, Queued);
  }

  lemma ReachesQueue(id: string, p: iset<Fleet>)
    requires Closed(p) && Submission(id) in p
    ensures HeldByA(Ran(Site(id, Queued, None, 0), id, None, Pending), id, Holding({})) in p
  {
    FirstClaim(id, p);
    Begun(id, Claiming, LeaseAt(0), 0, "a", Holding({id}), Idle, p);
    SentByA(id, p);
    RecordedByA(id, p);
  }

  lemma ReachesFailure(id: string, p: iset<Fleet>)
    requires Closed(p) && Submission(id) in p
    ensures HeldByA(Ran(Site(id, Failed, None, 0), id, Some(Broken), Broken), id, Holding({})) in p
  {
    ReachesQueue(id, p);
    Shown(Site(id, Queued, None, 0), id, None, Pending, Broken, p);
    FailureSeen(id, p);
  }

  /** The resubmitted job awaits approval, and its earlier Kubernetes Job has meanwhile succeeded. */
  function StaleExecution(id: string): Fleet {
    HeldByA(Ran(Site(id, PendingApproval, None, 1), id, Some(Broken), Succeeded), id, Holding({}))
  }

  lemma ReachesStaleExecution(id: string, p: iset<Fleet>)
    requires Closed(p) && Submission(id) in p
    ensures StaleExecution(id) in p
  {
    ReachesFailure(id, p);
    BackInTheGate(id, map[id := Execution(KubeName(id), Some(Broken))], map[KubeName(id) := Broken], 0, Holding({}),
                  Idle, p);
    Shown(Site(id, PendingApproval, None, 1), id, Some(Broken), Broken, Succeeded, p);
  }

  lemma SubmissionIsSound(id: string)
    ensures Sound(Submission(id))
  {
  }

  lemma StaleExecutionReached(id: string)
    ensures Reaches(Submission(id), StaleExecution(id))
  {
    var p := ReachableClosed(Submission(id));
    ReachesStaleExecution(id, p);
  }

  lemma AskPolls(f: Fleet, id: string)
    ensures After(f, Act("a", AskJob(id))).world == Poll(f.world, id)
    ensures CanAct(f, Act("a", AskJob(id))) <==> id in f.world.executions
  {
  }

  /** Polling its earlier execution then completes it, unapproved. */
  lemma StalePollBypassesTheGate(id: string)
    ensures HasStatus(StaleExecution(id).world, id, PendingApproval) && CanAct(StaleExecution(id), Act("a", AskJob(id)))
    ensures !Harmless(StaleExecution(id), Act("a", AskJob(id)))
    ensures var w := After(StaleExecution(id), Act("a", AskJob(id))).world;
            HasStatus(w, id, Completed) && !Cleared(w, id)
  {
    AskPolls(StaleExecution(id), id);
    PollWrites(Site(id, PendingApproval, None, 1), id, Some(Broken), Succeeded, PendingApproval);
    Unapproved(id, Completed, Some(Succeeded), Succeeded);
  }

  lemma Unapproved(id: string, status: Status, seen: Option<KubeStatus>, shown: KubeStatus)
    ensures var w := Ran(Site(id, PendingApproval, None, 1).(jobs := Only(id, status, None)), id, seen, shown);
            HasStatus(w, id, status) && !Cleared(w, id)
  {
  }

  // ---- A cancellation of a running job ----

  /** The dispatched job was seen running. */
  function SeenRunning(id: string): Fleet {
    HeldByA(Ran(Site(id, Running, None, 0), id, Some(Active), Active), id, Holding({}))
  }

  lemma ReachesRunning(id: string, p: iset<Fleet>)
    requires Closed(p) && Submission(id) in p
    ensures SeenRunning(id) in p
  {
    ReachesQueue(id, p);
    Shown(Site(id, Queued, None, 0), id, None, Pending, Active, p);
    RunSeen(id, p);
  }

  lemma RunSeen(id: string, p: iset<Fleet>)
    requires Closed(p) && HeldByA(Ran(Site(id, Queued, None, 0), id, None, Active), id, Holding({})) in p
    ensures SeenRunning(id) in p
  {
    ApprovedSite(id, Queued, None, 0);
    Polled(Ran(Site(id, Queued, None, 0), id, None, Active), id, Holding({}), p);
    PollWrites(Site(id, Queued, None, 0), id, None, Active, Queued);
  }

  lemma SeenRunningReached(id: string)
    ensures Reaches(Submission(id), SeenRunning(id))
  {
    var p := ReachableClosed(Submission(id));
    ReachesRunning(id, p);
  }

  function CancelledWhileRunning(id: string): Fleet {
    HeldByA(Ran(Site(id, Cancelled, None, 0), id, Some(Active), Active), id, Holding({}))
  }

  lemma RunningJobCancelled(id: string)
    ensures CanAct(SeenRunning(id), Cancel("a", id)) && !Harmless(SeenRunning(id), Cancel("a", id))
    ensures After(SeenRunning(id), Cancel("a", id)) == CancelledWhileRunning(id)
  {
  }

  /** Cancelled then, it is polled by the loop as before and runs again. */
  lemma CancelledJobRunsOn(id: string)
    ensures HasStatus(CancelledWhileRunning(id).world, id, Cancelled)
    ensures CanAct(CancelledWhileRunning(id), Act("a", WatchJob(id)))
    ensures HasStatus(After(CancelledWhileRunning(id), Act("a", WatchJob(id))).world, id, Running)
  {
    CancelledRowPolled(id);
    WatchPolls(CancelledWhileRunning(id), id);
  }

  lemma CancelledRowPolled(id: string)
    ensures var w := CancelledWhileRunning(id).world;
            HasStatus(w, id, Cancelled) && Watched(w, id) && HasStatus(Poll(w, id), id, Running)
  {
    PollWrites(Site(id, Cancelled, None, 0), id, Some(Active), Active, Cancelled);
  }

  lemma WatchPolls(f: Fleet, id: string)
    ensures After(f, Act("a", WatchJob(id))).world == Poll(f.world, id)
    ensures CanAct(f, Act("a", WatchJob(id))) <==> Watched(f.world, id)
  {
  }

  // ---- A claim that has run out ----

  const LATE: Time := CLAIM_LEASE + 1

  lemma LeaseRunsOut(id: string, p: iset<Fleet>)
    requires Closed(p) && At(Site(id, Claiming, LeaseAt(0), 0), 0, id, DONE, Holding({id}), Idle) in p
    ensures At(Site(id, Claiming, LeaseAt(0), 0), LATE, id, DONE, Holding({id}), Idle) in p
  {
    OnwardPlainly(p, At(Site(id, Claiming, LeaseAt(0), 0), 0, id, DONE, Holding({id}), Idle), "a", Advance(LATE),
           At(Site(id, Claiming, LeaseAt(0), 0), LATE, id, DONE, Holding({id}), Idle));
  }

  lemma ExpiredRecovered(id: string)
    ensures var jobs := Only(id, Claiming, LeaseAt(0)); Recovered(jobs, Expired(jobs, LATE)) == Only(id, Ready, None)
  {
    assert id in Expired(Only(id, Claiming, LeaseAt(0)), LATE);
  }

  lemma RecoveredByB(id: string, p: iset<Fleet>)
    requires Closed(p) && At(Site(id, Claiming, LeaseAt(0), 0), LATE, id, DONE, Holding({id}), Idle) in p
    ensures At(Site(id, Ready, None, 0), LATE, id, DONE, Holding({id}), Idle) in p
  {
    ExpiredRecovered(id);
    OnwardPlainly(p, At(Site(id, Claiming, LeaseAt(0), 0), LATE, id, DONE, Holding({id}), Idle), "b", RecoverClaims,
           At(Site(id, Ready, None, 0), LATE, id, DONE, Holding({id}), Idle));
  }

  lemma FailedByB(id: string, a: Phase, p: iset<Fleet>)
    requires Closed(p)
    requires At(Site(id, Dispatching, LeaseAt(LATE), 0), LATE, id, DONE, a, Phase.Begun(id, {})) in p
    ensures At(Site(id, Failed, None, 0), LATE, id, DONE, a, Holding({})) in p
  {
    ApprovedSite(id, Dispatching, LeaseAt(LATE), LATE);
    Onward(p, At(Site(id, Dispatching, LeaseAt(LATE), 0), LATE, id, DONE, a, Phase.Begun(id, {})),
           Act("b", SubmitJob(Error)), At(Site(id, Failed, None, 0), LATE, id, DONE, a, Holding({})));
  }

  /** Both workers hold the approved job: a's lease has run out, b recovered and claimed it afresh. */
  lemma SecondClaim(id: string, p: iset<Fleet>)
    requires Closed(p) && Submission(id) in p
    ensures At(Site(id, Claiming, LeaseAt(LATE), 0), LATE, id, DONE, Holding({id}), Holding({id})) in p
  {
    FirstClaim(id, p);
    LeaseRunsOut(id, p);
    RecoveredByB(id, p);
    ClaimTaken(id, LATE, "b", Holding({id}), Idle, p);
  }

  /** Worker b has failed the job, which was resubmitted and awaits approval, while worker a holds it still. */
  function StaleCopy(id: string): Fleet {
    At(Site(id, PendingApproval, None, 1), LATE, id, DONE, Holding({id}), Holding({}))
  }

  lemma ReachesStaleCopy(id: string, p: iset<Fleet>)
    requires Closed(p) && Submission(id) in p
    ensures StaleCopy(id) in p
  {
    SecondClaim(id, p);
    Begun(id, Claiming, LeaseAt(LATE), LATE, "b", Holding({id}), Holding({id}), p);
    FailedByB(id, Holding({id}), p);
    BackInTheGate(id, map[], map[], LATE, Holding({id}), Holding({}), p);
  }

  lemma StaleCopyReached(id: string)
    ensures Reaches(Submission(id), StaleCopy(id))
  {
    var p := ReachableClosed(Submission(id));
    ReachesStaleCopy(id, p);
  }

  /** What worker a's dispatch makes of it. */
  function StaleDispatch(id: string): Fleet {
    At(Site(id, Dispatching, None, 1), LATE, id, DONE, Phase.Begun(id, {}), Holding({}))
  }

  /**
   * The dispatch gate trusts the worker's copy: the row would have stopped the job, which awaits approval again,
   * but the copy passes it and leaves it dispatching, uncleared.
   */
  lemma StaleCopyPassesTheDispatchGate(id: string)
    ensures HasStatus(StaleCopy(id).world, id, PendingApproval)
    ensures Gate(StaleCopy(id).world, id, PendingApproval, LATE) == Some(AwaitsApproval)
    ensures Gate(StaleCopy(id).world, id, Claiming, LATE).None?
    ensures CanAct(StaleCopy(id), Act("a", BeginJob(id))) && !Harmless(StaleCopy(id), Act("a", BeginJob(id)))
    ensures After(StaleCopy(id), Act("a", BeginJob(id))) == StaleDispatch(id)
  {
    GateOpen(id, PendingApproval, None, 1, LATE);
    StaleCopyBegins(id);
  }

  /** And its Kubernetes Job is created. */
  lemma StaleDispatchCreates(id: string)
    ensures HasStatus(StaleDispatch(id).world, id, Dispatching) && !Cleared(StaleDispatch(id).world, id)
    ensures CanAct(StaleDispatch(id), Act("a", SubmitJob(Answering)))
    ensures KubeName(id) in After(StaleDispatch(id), Act("a", SubmitJob(Answering))).world.cluster
  {
  }

  lemma StaleCopyBegins(id: string)
    ensures After(StaleCopy(id), Act("a", BeginJob(id))) == StaleDispatch(id)
  {
    GateOpen(id, PendingApproval, None, 1, LATE);
    assert {id} - {id} == {};
    assert StaleCopy(id).workers["a" := Phase.Begun(id, {})] == StaleDispatch(id).workers;
  }

  // ---- A creation begun before the job failed ----

  /** Worker a is past the dispatch gate with the job that worker b has since failed; it awaits approval again. */
  function LateCreation(id: string): Fleet {
    At(Site(id, PendingApproval, None, 1), LATE, id, DONE, Phase.Begun(id, {}), Holding({}))
  }

  lemma ReachesLateCreation(id: string, p: iset<Fleet>)
    requires Closed(p) && Submission(id) in p
    ensures LateCreation(id) in p
  {
    SecondClaim(id, p);
    Begun(id, Claiming, LeaseAt(LATE), LATE, "a", Holding({id}), Holding({id}), p);
    Begun(id, Dispatching, LeaseAt(LATE), LATE, "b", Phase.Begun(id, {}), Holding({id}), p);
    FailedByB(id, Phase.Begun(id, {}), p);
    BackInTheGate(id, map[], map[], LATE, Phase.Begun(id, {}), Holding({}), p);
  }

  lemma LateCreationReached(id: string)
    ensures Reaches(Submission(id), LateCreation(id))
  {
    var p := ReachableClosed(Submission(id));
    ReachesLateCreation(id, p);
  }

  /**
   * So it does not help to look at begin writes alone: both were harmless, and so is the creation as far as the
   * rows go, yet it starts the workload of a job that awaits approval.
   */
  lemma BegunCreationBypassesTheGate(id: string)
    ensures HasStatus(LateCreation(id).world, id, PendingApproval) && !Cleared(LateCreation(id).world, id)
    ensures var a := Act("a", SubmitJob(Answering));
            && CanAct(LateCreation(id), a) && RowsSafe(LateCreation(id), a) && GateSafe(LateCreation(id), a)
            && !StartSafe(LateCreation(id), a)
            && KubeName(id) !in LateCreation(id).world.cluster
            && KubeName(id) in After(LateCreation(id), a).world.cluster
  {
  }
}
