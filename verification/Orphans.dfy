/**
 * Jobs left dispatching with no worker at work on them. Recovery looks at claims and resubmission refuses them;
 * what can move them is a poll of the execution row, if they have one, a cancellation or a dispatch by hand.
 */
module Orphans {
  import opened JobStore
  import opened Dispatching
  import opened Lifecycle
  import opened LifecycleProperties
  import opened Fleet

  predicate Involved(p: Phase, id: string) {
    match p
    case Idle => false
    case Holding(ids) => id in ids
    case Begun(other, rest) => id == other || id in rest
    case Sent(other, rest) => id == other || id in rest
  }

  /** Dispatching, and no worker holds the job or works on it. */
  predicate Adrift(f: Fleet, id: string) {
    HasStatus(f.world, id, Dispatching) && forall w | w in f.workers :: !Involved(f.workers[w], id)
  }

  predicate Polls(a: Act, id: string) {
    a.Act? && (a.step.AskJob? || a.step.WatchJob?) && a.step.id == id
  }

  predicate Cancels(a: Act, id: string) {
    a.Cancel? && a.id == id
  }

  /** A dispatch by hand that the gate lets through. */
  predicate TakesUp(f: Fleet, a: Act, id: string) {
    a.Manual? && a.id == id && GateOpens(f, id)
  }

  predicate Rescues(f: Fleet, a: Act, id: string) {
    Polls(a, id) || Cancels(a, id) || TakesUp(f, a, id)
  }

  /** A worker drops a job that is dispatching and stays so. */
  predicate LetsGo(f: Fleet, a: Act, id: string) {
    a.Act? &&
    var w, p := f.world, f.PhaseOf(a.worker);
    match a.step
    case RestartDispatcher => Involved(p, id)
    case RecordJob(replace) => p.Sent? && p.id == id && id !in p.rest && Clashes(w, id, replace)
    case BeginJob(other) => p.Holding? && other == id && id in p.ids && Gate(w, id, Claiming, f.now).Some?
    case _ => false
  }

  // ---- What moves a dispatching job ----

  /** Only a poll or a cancellation moves a dispatching job that the acting worker has nothing to do with. */
  lemma StaysDispatchingIff(f: Fleet, a: Act, id: string)
    requires CanAct(f, a) && HasStatus(f.world, id, Dispatching) && !Involved(f.PhaseOf(a.worker), id)
    ensures HasStatus(After(f, a).world, id, Dispatching) <==> !Polls(a, id) && !Cancels(a, id)
    ensures Polls(a, id) ==> id in f.world.executions
  {
    if a.Act? {
      if IsDispatcherStep(a.step) {
        UninvolvedLeavesJob(f.Seen(a.worker), a.step, id);
      } else {
        OthersLeaveDispatching(f, a, id);
      }
    }
  }

  lemma UninvolvedLeavesJob(s: System, step: Step, id: string)
    requires Enabled(s, step) && IsDispatcherStep(step)
    requires HasStatus(s.world, id, Dispatching) && !Involved(s.dispatcher, id)
    ensures HasStatus(DispatcherWorld(s, step), id, Dispatching)
  {
  }

  lemma OthersLeaveDispatching(f: Fleet, a: Act, id: string)
    requires CanAct(f, a) && HasStatus(f.world, id, Dispatching) && a.Act? && !IsDispatcherStep(a.step)
    ensures HasStatus(OthersWorld(f.Seen(a.worker), a.step), id, Dispatching) <==> !Polls(a, id)
  {
  }

  /** An execution row is written for the job of the acting worker only. */
  lemma RowsOfOthersStay(f: Fleet, a: Act, id: string)
    requires CanAct(f, a) && !Involved(f.PhaseOf(a.worker), id)
    ensures id in After(f, a).world.executions <==> id in f.world.executions
  {
    if a.Act? {
      if IsDispatcherStep(a.step) {
        UninvolvedWritesNoRow(f.Seen(a.worker), a.step, id);
      } else {
        OthersWriteNoRow(f.Seen(a.worker), a.step, id);
      }
    }
  }

  lemma UninvolvedWritesNoRow(s: System, step: Step, id: string)
    requires !Involved(s.dispatcher, id)
    ensures id in DispatcherWorld(s, step).executions <==> id in s.world.executions
  {
  }

  lemma OthersWriteNoRow(s: System, step: Step, id: string)
    ensures id in OthersWorld(s, step).executions <==> id in s.world.executions
  {
  }

  // ---- Setting a job adrift ----

  ghost predicate NobodyElse(f: Fleet, worker: string, id: string) {
    forall w :: w in f.workers && w != worker ==> !Involved(f.workers[w], id)
  }

  lemma AdriftByWorker(f: Fleet, worker: string, id: string)
    ensures Adrift(f, id)
       <==> HasStatus(f.world, id, Dispatching) && !Involved(f.PhaseOf(worker), id) && NobodyElse(f, worker, id)
  {
  }

  lemma OthersKeepTheirMemory(f: Fleet, a: Act, id: string)
    ensures NobodyElse(After(f, a), a.worker, id) <==> NobodyElse(f, a.worker, id)
  {
    var g := After(f, a);
    assert forall w :: w != a.worker ==> (w in g.workers <==> w in f.workers);
    assert forall w :: w != a.worker && w in f.workers ==> g.workers[w] == f.workers[w];
  }

  /**
   * A job goes adrift exactly when the only worker that has to do with it restarts, meets an earlier execution row
   * in the way of its closing transaction, or is stopped at the gate with a job some other worker began; and it
   * stays adrift exactly until its execution is polled, it is cancelled, or it is dispatched by hand.
   */
  lemma AdriftIff(f: Fleet, a: Act, id: string)
    requires CanAct(f, a)
    ensures Adrift(After(f, a), id)
       <==> || (Adrift(f, id) && !Rescues(f, a, id))
            || (HasStatus(f.world, id, Dispatching) && NobodyElse(f, a.worker, id) && LetsGo(f, a, id))
  {
    var g := After(f, a);
    AdriftByWorker(f, a.worker, id);
    AdriftByWorker(g, a.worker, id);
    OthersKeepTheirMemory(f, a, id);
    if Involved(f.PhaseOf(a.worker), id) {
      InvolvedLetsGoIff(f, a, id);
    } else {
      if HasStatus(g.world, id, Dispatching) {
        UninvolvedStays(f, a, id);
      }
      if HasStatus(f.world, id, Dispatching) {
        StaysDispatchingIff(f, a, id);
      }
    }
  }

  lemma InvolvedLetsGoIff(f: Fleet, a: Act, id: string)
    requires CanAct(f, a) && Involved(f.PhaseOf(a.worker), id)
    ensures HasStatus(After(f, a).world, id, Dispatching) && !Involved(After(f, a).PhaseOf(a.worker), id)
       <==> HasStatus(f.world, id, Dispatching) && LetsGo(f, a, id)
  {
  }

  /** A worker comes by a job by claiming it, when the job is not dispatching, or by hand. */
  lemma UninvolvedStays(f: Fleet, a: Act, id: string)
    requires CanAct(f, a) && !Involved(f.PhaseOf(a.worker), id) && HasStatus(After(f, a).world, id, Dispatching)
    ensures !Involved(After(f, a).PhaseOf(a.worker), id) ==> HasStatus(f.world, id, Dispatching)
    ensures HasStatus(f.world, id, Dispatching) ==>
              (Involved(After(f, a).PhaseOf(a.worker), id) <==> TakesUp(f, a, id))
  {
    if a.Act? {
      if IsDispatcherStep(a.step) {
        UninvolvedWorker(f.Seen(a.worker), a.step, id);
      } else {
        OthersNeverDispatch(f.Seen(a.worker), a.step, id);
      }
    }
  }

  lemma UninvolvedWorker(s: System, step: Step, id: string)
    requires Enabled(s, step) && IsDispatcherStep(step) && !Involved(s.dispatcher, id)
    requires HasStatus(DispatcherWorld(s, step), id, Dispatching)
    ensures HasStatus(s.world, id, Dispatching) && !Involved(DispatcherAfter(s, step), id)
  {
  }

  lemma OthersNeverDispatch(s: System, step: Step, id: string)
    requires !IsDispatcherStep(step) && HasStatus(OthersWorld(s, step), id, Dispatching)
    ensures HasStatus(s.world, id, Dispatching)
  {
  }

  // ---- Whole runs ----

  ghost predicate AdriftThroughout(f: Fleet, acts: seq<Act>, id: string) {
    forall k :: 0 <= k <= |acts| ==> Adrift(RunFleet(f, acts[..k]), id)
  }

  ghost predicate NeverRescued(f: Fleet, acts: seq<Act>, id: string) {
    forall k :: 0 <= k < |acts| ==> !Rescues(RunFleet(f, acts[..k]), acts[k], id)
  }

  /**
   * Whatever any number of workers, planners and approvers do, a job adrift stays so exactly while nobody polls
   * its execution, cancels it or dispatches it by hand.
   */
  lemma AdriftUntilRescuedIff(f: Fleet, acts: seq<Act>, id: string)
    requires Adrift(f, id) && LegalFleet(f, acts)
    ensures AdriftThroughout(f, acts, id) <==> NeverRescued(f, acts, id)
  {
    if AdriftThroughout(f, acts, id) {
      forall k | 0 <= k < |acts| ensures !Rescues(RunFleet(f, acts[..k]), acts[k], id) {
        AdriftAt(f, acts, k, id);
      }
    }
    if NeverRescued(f, acts, id) {
      forall k | 0 <= k <= |acts| ensures Adrift(RunFleet(f, acts[..k]), id) {
        UnrescuedPrefix(f, acts, k, id);
      }
    }
  }

  lemma AdriftAt(f: Fleet, acts: seq<Act>, k: nat, id: string)
    requires LegalFleet(f, acts) && k < |acts| && Adrift(RunFleet(f, acts[..k]), id)
    ensures Adrift(RunFleet(f, acts[..k + 1]), id) <==> !Rescues(RunFleet(f, acts[..k]), acts[k], id)
  {
    PrefixLegal(f, acts, k + 1);
    FleetNext(f, acts, k);
    AdriftStep(RunFleet(f, acts[..k]), acts[k], id);
  }

  lemma AdriftStep(f: Fleet, a: Act, id: string)
    requires CanAct(f, a) && Adrift(f, id)
    ensures Adrift(After(f, a), id) <==> !Rescues(f, a, id)
  {
    AdriftByWorker(f, a.worker, id);
    AdriftIff(f, a, id);
    UninvolvedKeeps(f, a, id);
  }

  lemma UninvolvedKeeps(f: Fleet, a: Act, id: string)
    requires !Involved(f.PhaseOf(a.worker), id)
    ensures !LetsGo(f, a, id)
  {
  }

  lemma UnrescuedStep(f: Fleet, acts: seq<Act>, k: nat, id: string)
    requires LegalFleet(f, acts) && NeverRescued(f, acts, id)
    requires k < |acts| && Adrift(RunFleet(f, acts[..k]), id)
    ensures Adrift(RunFleet(f, acts[..k + 1]), id)
  {
    AdriftAt(f, acts, k, id);
  }

  lemma {:induction false} UnrescuedPrefix(f: Fleet, acts: seq<Act>, k: nat, id: string)
    requires Adrift(f, id) && LegalFleet(f, acts) && NeverRescued(f, acts, id) && k <= |acts|
    ensures Adrift(RunFleet(f, acts[..k]), id)
  {
    if k == 0 {
      assert acts[..k] == [];
    } else {
      UnrescuedPrefix(f, acts, k - 1, id);
      UnrescuedStep(f, acts, k - 1, id);
    }
  }

  // ---- Polls need an execution row ----

  /** Workers, planners, approvers and polls, without anyone cancelling or dispatching by hand. */
  ghost predicate Unattended(acts: seq<Act>) {
    forall a :: a in acts ==> a.Act?
  }

  /** Without an execution row there is nothing to poll, and the job is adrift for ever unless someone steps in. */
  lemma {:induction false} AdriftForeverWithoutRow(f: Fleet, acts: seq<Act>, id: string)
    requires Adrift(f, id) && id !in f.world.executions && LegalFleet(f, acts) && Unattended(acts)
    ensures Adrift(RunFleet(f, acts), id) && id !in RunFleet(f, acts).world.executions
  {
    if acts != [] {
      var front, last := acts[..|acts| - 1], acts[|acts| - 1];
      AdriftForeverWithoutRow(f, front, id);
      RowlessStaysAdrift(RunFleet(f, front), last, id);
    }
  }

  lemma RowlessStaysAdrift(f: Fleet, a: Act, id: string)
    requires CanAct(f, a) && a.Act? && Adrift(f, id) && id !in f.world.executions
    ensures Adrift(After(f, a), id) && id !in After(f, a).world.executions
  {
    AdriftByWorker(f, a.worker, id);
    StaysDispatchingIff(f, a, id);
    AdriftStep(f, a, id);
    RowsOfOthersStay(f, a, id);
  }

  ghost predicate MovedUnattended(f: Fleet, id: string) {
    exists acts :: LegalFleet(f, acts) && Unattended(acts) && !Adrift(RunFleet(f, acts), id)
  }

  /** So a job adrift is moved by some run without such help exactly when it has an execution row: one poll will do. */
  lemma MovableIff(f: Fleet, id: string)
    requires Adrift(f, id)
    ensures MovedUnattended(f, id) <==> id in f.world.executions
  {
    if id in f.world.executions {
      var a := Act("", AskJob(id));
      OnePoll(f, a);
      AdriftStep(f, a, id);
      assert Unattended([a]);
    } else if acts :| LegalFleet(f, acts) && Unattended(acts) && !Adrift(RunFleet(f, acts), id) {
      AdriftForeverWithoutRow(f, acts, id);
    }
  }

  lemma OnePoll(f: Fleet, a: Act)
    requires CanAct(f, a)
    ensures LegalFleet(f, [a]) && RunFleet(f, [a]) == After(f, a)
  {
    assert [a][..0] == [];
  }

  /** For one dispatcher, whose memory is accurate, this is the orphaned job of its system. */
  lemma OrphanedIsAdrift(s: System, worker: string, id: string)
    requires Inv(s)
    ensures Orphaned(s, id) <==> Adrift(Alone(s, worker), id)
  {
    AdriftByWorker(Alone(s, worker), worker, id);
    assert HasStatus(s.world, id, Dispatching) ==> (Involved(s.dispatcher, id) <==> WorksOn(s.dispatcher, id));
  }
}
