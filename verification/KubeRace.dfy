/**
 * Several workers dispatching at once, even the same job after a lease ran out (app/dispatch/dispatcher.py).
 * Reading by name and creating are two calls to an API server that refuses a name it already has.
 */
module KubeRace {
  import opened JobStore
  import opened Dispatching

  datatype Event = Created(name: string) | Deleted(name: string)

  datatype Courier = Resting | Reading(id: string) | Creating(id: string) | Recording(id: string)

  datatype Site = Site(world: World, couriers: map<string, Courier>, log: seq<Event>)

  datatype Step =
    | Start(worker: string, id: string)
    | Read(worker: string)
    | Create(worker: string)
    | Finish(worker: string, replace: bool)
    | Delete(name: string)
    | Progress(name: string, status: KubeStatus)

  function CourierOf(s: Site, worker: string): Courier {
    if worker in s.couriers then s.couriers[worker] else Resting
  }

  function Next(s: Site, step: Step): Site {
    match step
    case Start(c, id) =>
      if CourierOf(s, c).Resting? then s.(world := Begin(s.world, id), couriers := s.couriers[c := Reading(id)]) else s
    case Read(c) =>
      (match CourierOf(s, c)
       case Reading(id) =>
         s.(couriers := s.couriers[c := if KubeName(id) in s.world.cluster then Recording(id) else Creating(id)])
       case _ => s)
    case Create(c) =>
      (match CourierOf(s, c)
       case Creating(id) =>
         if KubeName(id) in s.world.cluster
         then s.(world := Release(s.world, id, Failed), couriers := s.couriers[c := Resting])
         else s.(world := Submit(s.world, id, Answering), couriers := s.couriers[c := Recording(id)],
                 log := s.log + [Created(KubeName(id))])
       case _ => s)
    case Finish(c, replace) =>
      (match CourierOf(s, c)
       case Recording(id) =>
         s.(world := Dispatching.Record(s.world, id, replace), couriers := s.couriers[c := Resting])
       case _ => s)
    case Delete(name) =>
      if name in s.world.cluster
      then s.(world := s.world.(cluster := s.world.cluster - {name}), log := s.log + [Deleted(name)]) else s
    case Progress(name, status) =>
      if name in s.world.cluster then s.(world := s.world.(cluster := s.world.cluster[name := status])) else s
  }

  /** Whether the last thing that happened to a name is its creation. */
  predicate Live(log: seq<Event>, name: string) {
    log != [] &&
      var last := log[|log| - 1];
      if last.name == name then last.Created? else Live(log[..|log| - 1], name)
  }

  /** Creations and deletions of a name take turns, creation first. */
  ghost predicate TakesTurns(log: seq<Event>) {
    forall k :: 0 <= k < |log| ==> Live(log[..k], log[k].name) == log[k].Deleted?
  }

  ghost predicate Accurate(s: Site) {
    TakesTurns(s.log) && forall name :: name in s.world.cluster <==> Live(s.log, name)
  }

  lemma LogStep(log: seq<Event>, e: Event, name: string)
    ensures Live(log + [e], name) == if e.name == name then e.Created? else Live(log, name)
    ensures TakesTurns(log) && Live(log, e.name) == e.Deleted? ==> TakesTurns(log + [e])
  {
    var longer := log + [e];
    assert longer[..|log|] == log;
    if TakesTurns(log) && Live(log, e.name) == e.Deleted? {
      forall k | 0 <= k < |longer| ensures Live(longer[..k], longer[k].name) == longer[k].Deleted? {
        assert k < |log| ==> longer[..k] == log[..k];
      }
    }
  }

  lemma NextStaysAccurate(s: Site, step: Step)
    requires Accurate(s)
    ensures Accurate(Next(s, step))
  {
    if Next(s, step).log != s.log {
      EventStaysAccurate(s, step);
    }
  }

  /** A creation happens only where the name was free, a deletion only where it was taken. */
  lemma EventMatchesCluster(s: Site, step: Step) returns (e: Event)
    requires Next(s, step).log != s.log
    ensures Next(s, step).log == s.log + [e] && (e.name in s.world.cluster <==> e.Deleted?)
    ensures Next(s, step).world.cluster.Keys
         == if e.Created? then s.world.cluster.Keys + {e.name} else s.world.cluster.Keys - {e.name}
  {
    e := Next(s, step).log[|s.log|];
  }

  lemma EventStaysAccurate(s: Site, step: Step)
    requires Accurate(s) && Next(s, step).log != s.log
    ensures Accurate(Next(s, step))
  {
    var e := EventMatchesCluster(s, step);
    NamesFollowLog(s.world.cluster.Keys, Next(s, step).world.cluster.Keys, s.log, e);
  }

  lemma NamesFollowLog(names: set<string>, after: set<string>, log: seq<Event>, e: Event)
    requires TakesTurns(log) && (forall name :: name in names <==> Live(log, name)) && (e.name in names <==> e.Deleted?)
    requires after == if e.Created? then names + {e.name} else names - {e.name}
    ensures TakesTurns(log + [e]) && forall name :: name in after <==> Live(log + [e], name)
  {
    forall name ensures name in after <==> Live(log + [e], name) {
      LogStep(log, e, name);
    }
    LogStep(log, e, e.name);
  }

  function Run(s: Site, steps: seq<Step>): Site
    decreases steps
  {
    if steps == [] then s else Run(Next(s, steps[0]), steps[1..])
  }

  lemma {:induction false} RunStaysAccurate(s: Site, steps: seq<Step>)
    requires Accurate(s)
    ensures Accurate(Run(s, steps))
    decreases steps
  {
    if steps != [] {
      NextStaysAccurate(s, steps[0]);
      RunStaysAccurate(Next(s, steps[0]), steps[1..]);
    }
  }

  lemma {:induction false} LiveSince(log: seq<Event>, name: string, i: nat)
    requires i < |log| && log[i] == Created(name)
    requires forall k :: i < k < |log| ==> log[k] != Deleted(name)
    ensures Live(log, name)
  {
    var n := |log| - 1;
    if i < n {
      LiveSince(log[..n], name, i);
    }
  }

  /** Over any run a name is created at most once between two deletions, however many workers dispatch it. */
  lemma CreatedOnceBetweenDeletions(s: Site, steps: seq<Step>, i: nat, j: nat)
    requires Accurate(s)
    requires i < j < |Run(s, steps).log|
    requires Run(s, steps).log[i].Created? && Run(s, steps).log[j] == Run(s, steps).log[i]
    ensures exists k :: i < k < j && Run(s, steps).log[k] == Deleted(Run(s, steps).log[i].name)
  {
    RunStaysAccurate(s, steps);
    var log := Run(s, steps).log;
    assert !Live(log[..j], log[j].name);
    if forall k :: i < k < j ==> log[k] != Deleted(log[i].name) {
      LiveSince(log[..j], log[i].name, i);
    }
  }

  // ---- When a creation is refused ----

  predicate TakenBy(step: Step, worker: string) {
    match step
    case Start(w, _) => w == worker
    case Read(w) => w == worker
    case Create(w) => w == worker
    case Finish(w, _) => w == worker
    case _ => false
  }

  /** A worker that does nothing stays where it is, and the log only grows. */
  lemma {:induction false} OthersRun(s: Site, steps: seq<Step>, worker: string)
    requires forall step :: step in steps ==> !TakenBy(step, worker)
    ensures CourierOf(Run(s, steps), worker) == CourierOf(s, worker) && s.log <= Run(s, steps).log
    decreases steps
  {
    if steps != [] {
      assert steps[0] in steps && forall step :: step in steps[1..] ==> step in steps;
      OthersStep(s, steps[0], worker);
      OthersRun(Next(s, steps[0]), steps[1..], worker);
    }
  }

  lemma OthersStep(s: Site, step: Step, worker: string)
    requires !TakenBy(step, worker)
    ensures CourierOf(Next(s, step), worker) == CourierOf(s, worker) && s.log <= Next(s, step).log
  {
  }

  /** From some point on the name was created and not deleted again. */
  ghost predicate CreatedForGood(log: seq<Event>, from: nat, name: string) {
    exists k :: from <= k < |log| && log[k] == Created(name) && forall m :: k < m < |log| ==> log[m] != Deleted(name)
  }

  lemma {:induction false} LiveIffCreatedForGood(log: seq<Event>, from: nat, name: string)
    requires from <= |log| && !Live(log[..from], name)
    ensures Live(log, name) <==> CreatedForGood(log, from, name)
  {
    if from == |log| {
      assert log[..from] == log;
    } else {
      var front, last := log[..|log| - 1], log[|log| - 1];
      assert front[..from] == log[..from];
      LiveIffCreatedForGood(front, from, name);
      if last.name != name {
        assert CreatedForGood(front, from, name) <==> CreatedForGood(log, from, name) by {
          LaterEventOfOtherName(log, from, name);
        }
      } else if last.Created? {
        assert log[|log| - 1] == Created(name);
      }
    }
  }

  lemma LaterEventOfOtherName(log: seq<Event>, from: nat, name: string)
    requires from < |log| && log[|log| - 1].name != name
    ensures CreatedForGood(log[..|log| - 1], from, name) <==> CreatedForGood(log, from, name)
  {
    var front := log[..|log| - 1];
    assert forall m :: 0 <= m < |front| ==> front[m] == log[m];
    if CreatedForGood(front, from, name) {
      var k :| from <= k < |front| && front[k] == Created(name)
               && forall m :: k < m < |front| ==> front[m] != Deleted(name);
      assert log[k] == Created(name);
    }
    if CreatedForGood(log, from, name) {
      var k :| from <= k < |log| && log[k] == Created(name) && forall m :: k < m < |log| ==> log[m] != Deleted(name);
      assert front[k] == Created(name);
    }
  }

  /**
   * A worker that found its job missing, while others run on, has its creation refused exactly when the name was
   * created meanwhile and not deleted again; the job is then marked failed although its Kubernetes Job exists.
   */
  lemma CreationRefusedIff(s: Site, worker: string, id: string, steps: seq<Step>)
    requires Accurate(s) && CourierOf(s, worker) == Reading(id) && KubeName(id) !in s.world.cluster
    requires forall step :: step in steps ==> !TakenBy(step, worker)
    ensures var before := Run(Next(s, Read(worker)), steps);
            var after := Next(before, Create(worker));
            if CreatedForGood(before.log, |s.log|, KubeName(id))
            then && CourierOf(after, worker) == Resting && after.log == before.log
                 && KubeName(id) in after.world.cluster
                 && (id in before.world.jobs ==> HasStatus(after.world, id, Failed))
            else && CourierOf(after, worker) == Recording(id) && after.world.jobs == before.world.jobs
                 && after.log == before.log + [Created(KubeName(id))]
  {
    var read := Next(s, Read(worker));
    var before := Run(read, steps);
    NextStaysAccurate(s, Read(worker));
    RunStaysAccurate(read, steps);
    OthersRun(read, steps, worker);
    assert before.log[..|s.log|] == s.log;
    LiveIffCreatedForGood(before.log, |s.log|, KubeName(id));
    RefusedIffTaken(before, worker, id);
  }

  lemma RefusedIffTaken(s: Site, worker: string, id: string)
    requires CourierOf(s, worker) == Creating(id)
    ensures var after := Next(s, Create(worker));
            if KubeName(id) in s.world.cluster
            then && CourierOf(after, worker) == Resting && after.world.cluster == s.world.cluster && after.log == s.log
                 && (id in s.world.jobs ==> HasStatus(after.world, id, Failed))
            else && CourierOf(after, worker) == Recording(id) && after.world.jobs == s.world.jobs
                 && after.log == s.log + [Created(KubeName(id))]
  {
  }

  /**
   * Concretely, from any site: two resting workers start on one job, both find it missing, and the second creation
   * marks the job failed although its Kubernetes Job runs.
   */
  lemma LoserFailsARunningJob(s: Site, a: string, b: string, id: string)
    requires a != b && CourierOf(s, a) == CourierOf(s, b) == Resting
    requires id in s.world.jobs && KubeName(id) !in s.world.cluster
    ensures var reading := Next(Next(s, Start(a, id)), Start(b, id));
            var creating := Next(Next(reading, Read(a)), Read(b));
            var end := Next(Next(Next(creating, Create(a)), Finish(a, true)), Create(b));
            HasStatus(end.world, id, Failed) && KubeName(id) in end.world.cluster && id in end.world.executions
  {
    var reading := Next(Next(s, Start(a, id)), Start(b, id));
    assert CourierOf(reading, a) == CourierOf(reading, b) == Reading(id);
    var creating := Next(Next(reading, Read(a)), Read(b));
    assert CourierOf(creating, a) == CourierOf(creating, b) == Creating(id);
    SecondCreationFails(creating, a, b, id);
  }

  lemma SecondCreationFails(s: Site, a: string, b: string, id: string)
    requires a != b && CourierOf(s, a) == CourierOf(s, b) == Creating(id)
    requires id in s.world.jobs && KubeName(id) !in s.world.cluster
    ensures var end := Next(Next(Next(s, Create(a)), Finish(a, true)), Create(b));
            HasStatus(end.world, id, Failed) && KubeName(id) in end.world.cluster && id in end.world.executions
  {
  }

  /** A job whose name is taken by another job is queued without any Kubernetes Job of its own. */
  lemma NameTakenMeansNothingCreated(s: Site, worker: string, id: string, other: string)
    requires CourierOf(s, worker) == Reading(id)
    requires KubeName(other) == KubeName(id) && KubeName(other) in s.world.cluster
    requires id in s.world.jobs && id !in s.world.executions
    ensures var end := Next(Next(s, Read(worker)), Finish(worker, false));
            end.log == s.log && end.world.cluster == s.world.cluster && HasStatus(end.world, id, Queued)
  {
  }
}
