/** Whole runs of the lifecycle: the gate, the approval table, and what the loop alone never does. */
module LifecycleProperties {
  import opened Prelude
  import opened JobStore
  import opened Approvals
  import opened Dispatching
  import opened Lifecycle

  function Run(s: System, steps: seq<Step>): System {
    if steps == [] then s else Next(Run(s, steps[..|steps| - 1]), steps[|steps| - 1])
  }

  ghost predicate Legal(s: System, steps: seq<Step>) {
    steps != [] ==>
      Legal(s, steps[..|steps| - 1]) && Enabled(Run(s, steps[..|steps| - 1]), steps[|steps| - 1])
  }

  /** Before anything happened: jobs submitted, requests not yet read, everything else empty. */
  ghost predicate Initial(s: System) {
    && (forall id :: id in s.world.jobs ==> s.world.jobs[id].status in {Submitted, Validated})
    && s.world.decisions == map[] && s.world.approvals == [] && s.world.executions == map[]
    && s.dispatcher == Idle && s.exits == multiset{}
    && forall r :: r in s.racers ==> r.stage == Arrived
  }

  lemma InitialFits(s: System)
    requires Initial(s)
    ensures Inv(s) && ExitsFit(s.world, s.exits) && WinnersFit(s.racers, s.exits) && ExitsRecorded(s.racers, s.exits)
  {
  }

  // ---- The gate ----

  lemma {:induction false} RunKeepsInv(s: System, steps: seq<Step>)
    requires Inv(s) && Legal(s, steps)
    ensures Inv(Run(s, steps))
  {
    if steps != [] {
      RunKeepsInv(s, steps[..|steps| - 1]);
      NextKeepsInv(Run(s, steps[..|steps| - 1]), steps[|steps| - 1]);
    }
  }

  /**
   * In every reachable state a job from ready to completed is not deferrable or approved for the decision it
   * has, and that decision is due; no job is ever scheduled; a polled execution's job is queued or running.
   */
  lemma NothingPassesTheGate(s: System, steps: seq<Step>, id: string)
    requires Initial(s) && Legal(s, steps) && id in Run(s, steps).world.jobs
    ensures var w, now := Run(s, steps).world, Run(s, steps).now;
            && w.jobs[id].status != Scheduled
            && (w.jobs[id].status in STARTED ==>
                  Cleared(w, id) && id in w.decisions && w.decisions[id].start <= now)
            && (Watched(w, id) ==> w.jobs[id].status in {Queued, Running})
  {
    InitialFits(s);
    RunKeepsInv(s, steps);
    assert JobFits(Run(s, steps).world, id, Run(s, steps).now);
  }

  /** Wherever any run has led, a Kubernetes Job is created only for a cleared job whose chosen start has come. */
  lemma CreatedOnlyWhenDueAndCleared(s: System, steps: seq<Step>, step: Step, name: string)
    requires Initial(s) && Legal(s, steps) && Enabled(Run(s, steps), step)
    requires name !in Run(s, steps).world.cluster && name in Next(Run(s, steps), step).world.cluster
    ensures var here := Run(s, steps);
            && here.dispatcher.Begun? && name == KubeName(here.dispatcher.id)
            && Cleared(here.world, here.dispatcher.id) && here.dispatcher.id in here.world.decisions
            && here.world.decisions[here.dispatcher.id].start <= here.now
  {
    InitialFits(s);
    RunKeepsInv(s, steps);
    CreationFits(Run(s, steps), step, name);
  }

  lemma CreationFits(s: System, step: Step, name: string)
    requires Inv(s) && Enabled(s, step)
    requires name !in s.world.cluster && name in Next(s, step).world.cluster
    ensures s.dispatcher.Begun? && name == KubeName(s.dispatcher.id) && Cleared(s.world, s.dispatcher.id)
    ensures s.dispatcher.id in s.world.decisions && s.world.decisions[s.dispatcher.id].start <= s.now
  {
    assert step.SubmitJob?;
    assert JobFits(s.world, s.dispatcher.id, s.now);
  }

  // ---- The approval table ----

  /**
   * The table against the log of exits from the gate: every exit approved or declined some decision, no decision
   * twice and none still pending; and the rows are the exits of the decisions that still exist, one for one.
   */
  ghost predicate ExitsFit(w: World, exits: multiset<Exit>) {
    ExitsClean(w, exits) && RowsMatch(w, exits)
  }

  ghost predicate ExitsClean(w: World, exits: multiset<Exit>) {
    && (forall e :: e in exits ==> exits[e] == 1 && e.decision < w.nextDecision && e.to in {Approved, Declined})
    && (forall e, f :: e in exits && f in exits && e.decision == f.decision ==> e == f)
    && (forall e, id :: e in exits && HasStatus(w, id, PendingApproval) && id in w.decisions ==>
          w.decisions[id].id != e.decision)
  }

  ghost predicate RowsMatch(w: World, exits: multiset<Exit>) {
    forall row :: RowMatches(w, exits, row)
  }

  ghost predicate RowMatches(w: World, exits: multiset<Exit>, row: Approval) {
    multiset(w.approvals)[row] ==
    if Current(w, row.job, row.decision) then exits[Exit(row.job, row.decision, TargetOf(row.verdict))] else 0
  }

  /** Every recorded request is an exit, and no two of them decided the same decision. */
  ghost predicate WinnersFit(racers: seq<Racer>, exits: multiset<Exit>) {
    && (forall i :: 0 <= i < |racers| && racers[i].stage == Answered(Recorded) ==>
          ExitOf(racers[i].request) in exits)
    && forall i, j :: 0 <= i < j < |racers| && racers[i].stage == racers[j].stage == Answered(Recorded) ==>
         racers[i].request.decision != racers[j].request.decision
  }

  /** And every exit is the work of a recorded request; by the above of exactly one. */
  ghost predicate ExitsRecorded(racers: seq<Racer>, exits: multiset<Exit>) {
    forall e :: e in exits ==> RecordedFor(racers, e)
  }

  ghost predicate RecordedFor(racers: seq<Racer>, e: Exit) {
    exists i :: 0 <= i < |racers| && racers[i].stage == Answered(Recorded) && ExitOf(racers[i].request) == e
  }

  function ExitOf(r: Request): Exit {
    Exit(r.job, r.decision, TargetOf(r.verdict))
  }

  lemma PendingStays(s: System, step: Step, id: string)
    requires Inv(s) && Enabled(s, step) && !step.SettleRequest? && HasStatus(s.world, id, PendingApproval)
    ensures HasStatus(WorldAfter(s, step), id, PendingApproval)
  {
    assert JobFits(s.world, id, s.now);
    if IsDispatcherStep(step) {
      DispatcherLeavesPending(s, step, id);
    }
  }

  lemma DispatcherLeavesPending(s: System, step: Step, id: string)
    requires MemoryFits(s.world, s.dispatcher) && Enabled(s, step) && HasStatus(s.world, id, PendingApproval)
    ensures HasStatus(DispatcherWorld(s, step), id, PendingApproval)
  {
  }

  /** Only a recorded verdict takes a job out of the gate. */
  lemma OnlyVerdictsExit(s: System, step: Step)
    requires Inv(s) && Enabled(s, step) && !step.SettleRequest?
    ensures Exits(s.world, WorldAfter(s, step)) == {}
  {
    forall id | HasStatus(s.world, id, PendingApproval) ensures HasStatus(WorldAfter(s, step), id, PendingApproval) {
      PendingStays(s, step, id);
    }
  }

  // ---- The table step by step ----

  lemma PlanKeepsTable(w: World, now: Time, id: string, start: Option<Time>, exits: multiset<Exit>)
    requires WorldFits(w, now) && AwaitsPlan(w, id, now) && ExitsFit(w, exits)
    ensures ExitsFit(Plan(w, id, start), exits)
  {
    assert JobFits(w, id, now);
    forall row ensures RowMatches(Plan(w, id, start), exits, row) {
      assert RowMatches(w, exits, row);
      assert row in w.approvals <==> multiset(w.approvals)[row] > 0;
    }
  }

  lemma SettleKeepsTable(w: World, now: Time, r: Request, exits: multiset<Exit>)
    requires WorldFits(w, now) && RacerFits(w, Racer(r, Examined)) && ExitsFit(w, exits)
    requires Settle(w, r).1 == Recorded
    ensures ExitOf(r) !in exits && forall e :: e in exits ==> e.decision != r.decision
    ensures ExitsFit(Settle(w, r).0, exits + multiset{ExitOf(r)})
  {
    assert JobFits(w, r.job, now);
    assert Current(w, r.job, r.decision);
    forall row ensures RowMatches(Settle(w, r).0, exits + multiset{ExitOf(r)}, row) {
      assert RowMatches(w, exits, row);
    }
  }

  lemma ResubmitKeepsTable(w: World, now: Time, id: string, exits: multiset<Exit>)
    requires WorldFits(w, now) && ExitsFit(w, exits)
    ensures ExitsFit(Resubmit(w, id), exits)
  {
    forall row ensures RowMatches(Resubmit(w, id), exits, row) {
      ResubmitKeepsRow(w, id, exits, row);
    }
  }

  lemma ResubmitKeepsRow(w: World, id: string, exits: multiset<Exit>, row: Approval)
    requires RowsFit(w) && RowMatches(w, exits, row)
    ensures RowMatches(Resubmit(w, id), exits, row)
  {
    if id in w.decisions {
      WithoutCounts(w.approvals, w.decisions[id].id, row);
    }
  }

  /** No other step touches decisions or rows, or opens the gate for a job. */
  lemma OtherStepsKeepTable(s: System, step: Step, exits: multiset<Exit>)
    requires Inv(s) && Enabled(s, step) && ExitsFit(s.world, exits)
    requires !step.PlanJob? && !step.SettleRequest? && !step.ResubmitJob?
    ensures ExitsFit(WorldAfter(s, step), exits)
  {
    var w, after := s.world, WorldAfter(s, step);
    OtherStepsKeepRows(s, step);
    forall row ensures RowMatches(after, exits, row) {
      assert RowMatches(w, exits, row);
    }
    forall id | HasStatus(after, id, PendingApproval) ensures HasStatus(w, id, PendingApproval) {
      NoOneElseOpensTheGate(s, step, id);
    }
  }

  lemma OtherStepsKeepRows(s: System, step: Step)
    requires !step.PlanJob? && !step.SettleRequest? && !step.ResubmitJob?
    ensures var w, after := s.world, WorldAfter(s, step);
            (after.decisions, after.nextDecision, after.approvals) == (w.decisions, w.nextDecision, w.approvals)
  {
  }

  lemma NoOneElseOpensTheGate(s: System, step: Step, id: string)
    requires Inv(s) && Enabled(s, step) && HasStatus(WorldAfter(s, step), id, PendingApproval)
    requires !step.PlanJob? && !step.SettleRequest? && !step.ResubmitJob?
    ensures HasStatus(s.world, id, PendingApproval)
  {
    if IsDispatcherStep(step) {
      DispatcherNeverOpensTheGate(s, step, id);
    }
  }

  lemma DispatcherNeverOpensTheGate(s: System, step: Step, id: string)
    requires Enabled(s, step) && HasStatus(DispatcherWorld(s, step), id, PendingApproval)
    ensures HasStatus(s.world, id, PendingApproval)
  {
  }

  lemma NextKeepsTable(s: System, step: Step)
    requires Inv(s) && Enabled(s, step) && ExitsFit(s.world, s.exits)
    ensures ExitsFit(Next(s, step).world, Next(s, step).exits)
  {
    if step.SettleRequest? {
      SettleNextKeepsTable(s, step.i);
    } else {
      ExitlessWorldKeepsTable(s, step);
      ExitlessNextKeepsTable(s, step);
    }
  }

  lemma ExitlessWorldKeepsTable(s: System, step: Step)
    requires Inv(s) && Enabled(s, step) && !step.SettleRequest? && ExitsFit(s.world, s.exits)
    ensures ExitsFit(WorldAfter(s, step), s.exits)
  {
    match step {
      case PlanJob(id, start) => PlanKeepsTable(s.world, s.now, id, start, s.exits);
      case ResubmitJob(id) => ResubmitKeepsTable(s.world, s.now, id, s.exits);
      case _ => OtherStepsKeepTable(s, step, s.exits);
    }
  }

  lemma ExitlessNextKeepsTable(s: System, step: Step)
    requires Inv(s) && Enabled(s, step) && !step.SettleRequest? && ExitsFit(WorldAfter(s, step), s.exits)
    ensures ExitsFit(Next(s, step).world, Next(s, step).exits) && Next(s, step).exits == s.exits
  {
    OnlyVerdictsExit(s, step);
    assert s.exits + multiset(Exits(s.world, WorldAfter(s, step))) == s.exits;
  }

  lemma SettledExits(s: System, i: nat)
    requires Inv(s) && Enabled(s, SettleRequest(i))
    ensures var r := s.racers[i].request;
            Next(s, SettleRequest(i)).exits
            == if Settle(s.world, r).1 == Recorded then s.exits + multiset{ExitOf(r)} else s.exits
  {
  }

  lemma SettledWorld(s: System, i: nat)
    requires i < |s.racers|
    ensures Next(s, SettleRequest(i)).world == Settle(s.world, s.racers[i].request).0
  {
  }

  lemma SettleNextKeepsTable(s: System, i: nat)
    requires Inv(s) && Enabled(s, SettleRequest(i)) && ExitsFit(s.world, s.exits)
    ensures ExitsFit(Next(s, SettleRequest(i)).world, Next(s, SettleRequest(i)).exits)
  {
    var r := s.racers[i].request;
    assert RacerFits(s.world, Racer(r, Examined));
    SettledTable(s.world, s.now, r, s.exits);
    SettledExits(s, i);
    SettledWorld(s, i);
  }

  lemma SettledTable(w: World, now: Time, r: Request, exits: multiset<Exit>)
    requires WorldFits(w, now) && RacerFits(w, Racer(r, Examined)) && ExitsFit(w, exits)
    ensures ExitsFit(Settle(w, r).0, if Settle(w, r).1 == Recorded then exits + multiset{ExitOf(r)} else exits)
  {
    if Settle(w, r).1 == Recorded {
      SettleKeepsTable(w, now, r, exits);
    } else {
      LosersChangeNothing(w, r);
    }
  }

  lemma NextKeepsWinners(s: System, step: Step)
    requires Inv(s) && Enabled(s, step) && ExitsFit(s.world, s.exits) && WinnersFit(s.racers, s.exits)
    ensures WinnersFit(Next(s, step).racers, Next(s, step).exits)
  {
    if step.SettleRequest? {
      SettleKeepsWinners(s, step.i);
    } else {
      OnlyVerdictsExit(s, step);
      OtherStepsKeepWinners(s, step);
    }
  }

  /** Reading a request never records it. */
  lemma OtherStepsKeepWinners(s: System, step: Step)
    requires Enabled(s, step) && !step.SettleRequest? && WinnersFit(s.racers, s.exits)
    ensures WinnersFit(RacersAfter(s, step), s.exits)
  {
  }

  lemma SettleKeepsWinners(s: System, i: nat)
    requires Inv(s) && Enabled(s, SettleRequest(i)) && ExitsFit(s.world, s.exits) && WinnersFit(s.racers, s.exits)
    ensures WinnersFit(Next(s, SettleRequest(i)).racers, Next(s, SettleRequest(i)).exits)
  {
    var r := s.racers[i].request;
    assert RacerFits(s.world, s.racers[i]);
    SettledExits(s, i);
    var reply := Settle(s.world, r).1;
    if reply == Recorded {
      SettleKeepsTable(s.world, s.now, r, s.exits);
    }
    AnsweredKeepsWinners(s.racers, s.exits, i, reply);
  }

  lemma AnsweredKeepsWinners(racers: seq<Racer>, exits: multiset<Exit>, i: nat, reply: Reply)
    requires WinnersFit(racers, exits) && i < |racers| && racers[i].stage == Examined
    requires reply == Recorded ==> forall e :: e in exits ==> e.decision != racers[i].request.decision
    ensures var r := racers[i].request;
            WinnersFit(racers[i := Racer(r, Answered(reply))],
                       if reply == Recorded then exits + multiset{ExitOf(r)} else exits)
  {
  }

  /** An answer is final. */
  lemma RecordedStays(s: System, step: Step, e: Exit)
    requires Enabled(s, step) && RecordedFor(s.racers, e)
    ensures RecordedFor(RacersAfter(s, step), e)
  {
    var i :| 0 <= i < |s.racers| && s.racers[i].stage == Answered(Recorded) && ExitOf(s.racers[i].request) == e;
    assert RacersAfter(s, step)[i] == s.racers[i];
  }

  lemma NextKeepsRecorded(s: System, step: Step)
    requires Inv(s) && Enabled(s, step) && ExitsRecorded(s.racers, s.exits)
    ensures ExitsRecorded(Next(s, step).racers, Next(s, step).exits)
  {
    forall e | e in Next(s, step).exits ensures RecordedFor(RacersAfter(s, step), e) {
      if e in s.exits {
        RecordedStays(s, step, e);
      } else {
        NewExitRecorded(s, step, e);
      }
    }
  }

  lemma NewExitRecorded(s: System, step: Step, e: Exit)
    requires Inv(s) && Enabled(s, step) && e in Next(s, step).exits && e !in s.exits
    ensures RecordedFor(RacersAfter(s, step), e)
  {
    if step.SettleRequest? {
      SettledExits(s, step.i);
      assert RacersAfter(s, step)[step.i] == Racer(s.racers[step.i].request, Answered(Recorded));
    } else {
      OnlyVerdictsExit(s, step);
    }
  }

  lemma {:induction false} RunKeepsTable(s: System, steps: seq<Step>)
    requires Inv(s) && ExitsFit(s.world, s.exits) && WinnersFit(s.racers, s.exits) && Legal(s, steps)
    requires ExitsRecorded(s.racers, s.exits)
    ensures ExitsFit(Run(s, steps).world, Run(s, steps).exits) && WinnersFit(Run(s, steps).racers, Run(s, steps).exits)
    ensures ExitsRecorded(Run(s, steps).racers, Run(s, steps).exits)
  {
    if steps != [] {
      var front := steps[..|steps| - 1];
      RunKeepsInv(s, front);
      RunKeepsTable(s, front);
      NextKeepsTable(Run(s, front), steps[|steps| - 1]);
      NextKeepsWinners(Run(s, front), steps[|steps| - 1]);
      NextKeepsRecorded(Run(s, front), steps[|steps| - 1]);
    }
  }

  /**
   * However requests race, approval rows and exits from the gate correspond one for one: a decision that still
   * exists has a row exactly if its job left the gate with that verdict, a job in the gate has none, and every
   * exit is one recorded request and every recorded request one exit.
   */
  lemma OneRowPerExit(s: System, steps: seq<Step>, id: string, v: Verdict)
    requires Initial(s) && Legal(s, steps) && id in Run(s, steps).world.decisions
    ensures var end := Run(s, steps);
            var decision := end.world.decisions[id].id;
            var row, exit := Approval(id, decision, v), Exit(id, decision, TargetOf(v));
            && multiset(end.world.approvals)[row] == end.exits[exit] <= 1
            && (HasStatus(end.world, id, PendingApproval) ==> row !in end.world.approvals)
            && WinnersFit(end.racers, end.exits) && ExitsRecorded(end.racers, end.exits)
  {
    InitialFits(s);
    RunKeepsTable(s, steps);
    RowOfDecision(Run(s, steps).world, Run(s, steps).exits, id, v);
  }

  lemma RowOfDecision(w: World, exits: multiset<Exit>, id: string, v: Verdict)
    requires ExitsFit(w, exits) && id in w.decisions
    ensures var decision := w.decisions[id].id;
            var row, exit := Approval(id, decision, v), Exit(id, decision, TargetOf(v));
            && multiset(w.approvals)[row] == exits[exit] <= 1
            && (HasStatus(w, id, PendingApproval) ==> row !in w.approvals)
  {
    var row := Approval(id, w.decisions[id].id, v);
    assert RowMatches(w, exits, row);
    assert row in w.approvals <==> multiset(w.approvals)[row] > 0;
  }

  // ---- Jobs left dispatching ----

  predicate WorksOn(p: Phase, id: string) {
    (p.Begun? || p.Sent?) && p.id == id
  }

  /** Marked as dispatching, with the dispatcher not at work on it. */
  predicate Orphaned(s: System, id: string) {
    HasStatus(s.world, id, Dispatching) && !WorksOn(s.dispatcher, id)
  }

  // ---- What only an outside poll can do ----

  /** No execution has ever been polled, and no job runs or has completed. */
  ghost predicate NeverPolled(w: World) {
    && (forall id :: id in w.executions ==> w.executions[id].kube.None?)
    && forall id :: id in w.jobs ==> w.jobs[id].status !in {Running, Completed}
  }

  lemma NextStaysUnpolled(s: System, step: Step)
    requires Inv(s) && Enabled(s, step) && !step.AskJob? && NeverPolled(s.world)
    ensures NeverPolled(WorldAfter(s, step))
  {
    if IsDispatcherStep(step) {
      DispatcherNeverPolls(s, step);
    } else {
      OthersNeverPoll(s, step);
    }
  }

  lemma DispatcherNeverPolls(s: System, step: Step)
    requires Enabled(s, step) && NeverPolled(s.world)
    ensures NeverPolled(DispatcherWorld(s, step))
  {
  }

  lemma OthersNeverPoll(s: System, step: Step)
    requires Inv(s) && Enabled(s, step) && !step.AskJob? && NeverPolled(s.world)
    ensures NeverPolled(OthersWorld(s, step))
  {
  }

  /**
   * The dispatcher loop alone never sees a job run: it polls executions by a status that only a poll sets, so
   * without a request from outside nothing is ever running or completed.
   */
  lemma {:induction false} LoopAloneNeverSeesAJobRun(s: System, steps: seq<Step>)
    requires Initial(s) && Legal(s, steps) && forall step :: step in steps ==> !step.AskJob?
    ensures NeverPolled(Run(s, steps).world)
  {
    if steps != [] {
      var front, last := steps[..|steps| - 1], steps[|steps| - 1];
      assert steps == front + [last];
      LoopAloneNeverSeesAJobRun(s, front);
      InitialFits(s);
      RunKeepsInv(s, front);
      NextStaysUnpolled(Run(s, front), last);
    }
  }

  /**
   * A poll from outside writes whatever the cluster shows, whatever the job's own status. It keeps the job's
   * guarantees for every answer of the cluster exactly when the job is cleared and its decision due.
   */
  lemma PollSafeIff(w: World, now: Time, id: string)
    requires WorldFits(w, now) && id in w.jobs && id in w.executions
    ensures (forall cluster :: JobFits(Poll(w.(cluster := cluster), id), id, now))
       <==> Cleared(w, id) && id in w.decisions && w.decisions[id].start <= now
  {
    if Cleared(w, id) && id in w.decisions && w.decisions[id].start <= now {
      forall cluster ensures JobFits(Poll(w.(cluster := cluster), id), id, now) {
        PollOfClearedFits(w.(cluster := cluster), id, now);
      }
    } else {
      PollOfUnclearedBreaks(w, id, now);
    }
  }

  lemma PollOfClearedFits(w: World, id: string, now: Time)
    requires id in w.jobs && id in w.executions
    requires Cleared(w, id) && id in w.decisions && w.decisions[id].start <= now
    ensures JobFits(Poll(w, id), id, now)
  {
  }

  lemma PollOfUnclearedBreaks(w: World, id: string, now: Time)
    requires id in w.jobs && id in w.executions
    requires !(Cleared(w, id) && id in w.decisions && w.decisions[id].start <= now)
    ensures !JobFits(Poll(w.(cluster := map[w.executions[id].name := KubeStatus.Pending]), id), id, now)
  {
  }
}
