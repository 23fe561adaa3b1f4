/** The background loops as programs: every tick of theirs is a legal run of the lifecycle. */
module DispatchLoop {
  import opened Prelude
  import opened Sorting
  import opened JobStore
  import opened Claims
  import opened Dispatching
  import opened Lifecycle
  import opened LifecycleProperties

  datatype Stats = Stats(recovered: nat, promoted: nat, claimed: nat, dispatched: nat, failed: nat, refreshed: nat)

  /** The rows of a query, in some order. */
  method ListRows(ids: set<string>) returns (rows: seq<string>)
    ensures Lists(rows, ids)
  {
    rows := [];
    var left := ids;
    while left != {}
      invariant left <= ids && Lists(rows, ids - left)
      decreases |left|
    {
      var id :| id in left;
      rows, left := rows + [id], left - {id};
    }
    assert ids - left == ids;
  }

  lemma LegalNext(s: System, steps: seq<Step>, step: Step)
    requires Legal(s, steps) && Enabled(Run(s, steps), step)
    ensures Legal(s, steps + [step]) && Run(s, steps + [step]) == Next(Run(s, steps), step)
  {
  }

  /** The steps one dispatch takes. */
  function DispatchSteps(id: string, api: Api, replace: bool): seq<Step> {
    [BeginJob(id)] + [SubmitJob(api)] + (if api.Error? then [] else [RecordJob(replace)])
  }

  /** What one dispatch leaves. */
  function AfterDispatch(w: World, id: string, api: Api, replace: bool): World {
    if api.Error? then Release(Begin(w, id), id, Failed) else Record(Submit(Begin(w, id), id, api), id, replace)
  }

  /** The ghost run a program has followed: legal from an initial state, and where the store stands. */
  ghost predicate Follows(s: System, steps: seq<Step>, w: World, now: Time, p: Phase) {
    Inv(s) && Legal(s, steps) && Run(s, steps).world == w && Run(s, steps).now == now && Run(s, steps).dispatcher == p
  }

  lemma BeginFollows(s: System, steps: seq<Step>, w: World, now: Time, held: set<string>, id: string)
    requires Follows(s, steps, w, now, Holding(held)) && id in held
    ensures Follows(s, steps + [BeginJob(id)], Begin(w, id), now, Begun(id, held - {id}))
    ensures HasStatus(w, id, Claiming) && Gate(w, id, Claiming, now).None?
  {
    RunKeepsInv(s, steps);
    GateNeverBlocks(Run(s, steps), id);
    LegalNext(s, steps, BeginJob(id));
  }

  /** After a legal run that left the dispatcher holding a job, dispatching it extends the run. */
  lemma DispatchFollows(s: System, steps: seq<Step>, w: World, now: Time, held: set<string>, id: string, api: Api,
                        replace: bool)
    requires Follows(s, steps, w, now, Holding(held)) && id in held
    ensures Follows(s, steps + DispatchSteps(id, api, replace), AfterDispatch(w, id, api, replace), now,
                    Holding(held - {id}))
    ensures HasStatus(w, id, Claiming) && Gate(w, id, Claiming, now).None?
  {
    BeginFollows(s, steps, w, now, held, id);
    var longer := steps + [BeginJob(id)];
    DispatchStepsJoin(steps, id, api, replace);
    WorkFollows(s, longer, Begin(w, id), now, id, held - {id}, api, replace);
  }

  lemma DispatchStepsJoin(steps: seq<Step>, id: string, api: Api, replace: bool)
    ensures steps + DispatchSteps(id, api, replace)
         == if api.Error? then steps + [BeginJob(id)] + [SubmitJob(api)]
            else steps + [BeginJob(id)] + [SubmitJob(api)] + [RecordJob(replace)]
  {
  }

  lemma WorkFollows(s: System, steps: seq<Step>, w: World, now: Time, id: string, rest: set<string>, api: Api,
                    replace: bool)
    requires Follows(s, steps, w, now, Begun(id, rest))
    ensures if api.Error? then Follows(s, steps + [SubmitJob(api)], Release(w, id, Failed), now, Holding(rest))
            else Follows(s, steps + [SubmitJob(api)] + [RecordJob(replace)], Record(Submit(w, id, api), id, replace),
                         now, Holding(rest))
  {
    SubmitFollows(s, steps, w, now, id, rest, api);
    if !api.Error? {
      RecordFollows(s, steps + [SubmitJob(api)], Submit(w, id, api), now, id, rest, replace);
    }
  }

  lemma RecordFollows(s: System, steps: seq<Step>, w: World, now: Time, id: string, rest: set<string>, replace: bool)
    requires Follows(s, steps, w, now, Sent(id, rest))
    ensures Follows(s, steps + [RecordJob(replace)], Record(w, id, replace), now, Holding(rest))
  {
  }

  lemma SubmitFollows(s: System, steps: seq<Step>, w: World, now: Time, id: string, rest: set<string>, api: Api)
    requires Follows(s, steps, w, now, Begun(id, rest))
    ensures if api.Error? then Follows(s, steps + [SubmitJob(api)], Release(w, id, Failed), now, Holding(rest))
            else Follows(s, steps + [SubmitJob(api)], Submit(w, id, api), now, Sent(id, rest))
  {
  }

  /** Stopped by an earlier execution row: the job stays dispatching, and the session needs a rollback. */
  ghost predicate LeftDispatching(w: World, id: string, replace: bool) {
    HasStatus(w, id, Dispatching) && Clashes(w, id, replace)
  }

  ghost predicate OthersUntouched(before: map<string, Job>, after: map<string, Job>, id: string) {
    before.Keys == after.Keys && forall other :: other in before && other != id ==> after[other] == before[other]
  }

  /** Whoever is approved now was approved before. */
  ghost predicate NoneApproved(before: map<string, Job>, after: map<string, Job>) {
    forall id :: id in after && after[id].status == Approved ==> id in before && before[id].status == Approved
  }

  method DispatchOne(store: Store, id: string, now: Time, api: Api, replace: bool, ghost s: System,
                     ghost steps: seq<Step>, ghost held: set<string>)
    returns (outcome: Outcome)
    requires Follows(s, steps, store.View(), now, Holding(held)) && id in held
    modifies store`jobs, store`executions, store`cluster
    ensures Follows(s, steps + DispatchSteps(id, api, replace), store.View(), now, Holding(held - {id}))
    ensures outcome.RowClash? ==> LeftDispatching(store.View(), id, replace)
    ensures outcome.KubeFailed? <==> api.Error?
    ensures !outcome.Blocked?
    ensures !outcome.RowClash? ==> HasStatus(store.View(), id, if api.Error? then Failed else Queued)
    ensures OthersUntouched(old(store.jobs), store.jobs, id) && NoneApproved(old(store.jobs), store.jobs)
  {
    DispatchFollows(s, steps, store.View(), now, held, id, api, replace);
    outcome := DispatchJob(store, id, Claiming, now, api, replace);
    DispatchMovesOne(old(store.View()), id, api, replace);
    OneMoved(old(store.jobs), store.jobs, id);
  }

  lemma DispatchMovesOne(w: World, id: string, api: Api, replace: bool)
    requires id in w.jobs
    ensures var after := AfterDispatch(w, id, api, replace);
            && OthersUntouched(w.jobs, after.jobs, id)
            && HasStatus(after, id, if api.Error? then Failed
                                    else if Clashes(w, id, replace) then Dispatching else Queued)
            && (Clashes(w, id, replace) && !api.Error? ==> LeftDispatching(after, id, replace))
  {
  }

  lemma OneMoved(before: map<string, Job>, after: map<string, Job>, id: string)
    requires OthersUntouched(before, after, id) && id in after && after[id].status != Approved
    ensures NoneApproved(before, after)
  {
  }

  /** The steps of dispatching a list of claimed jobs in order. */
  function DispatchAll(ids: seq<string>, apis: nat -> Api, replace: bool): seq<Step> {
    if ids == [] then []
    else
      var n := |ids| - 1;
      DispatchAll(ids[..n], apis, replace) + DispatchSteps(ids[n], apis(n), replace)
  }

  lemma DispatchAllNext(ids: seq<string>, i: nat, apis: nat -> Api, replace: bool)
    requires i < |ids|
    ensures DispatchAll(ids[..i + 1], apis, replace)
         == DispatchAll(ids[..i], apis, replace) + DispatchSteps(ids[i], apis(i), replace)
  {
    assert ids[..i + 1][..i] == ids[..i];
  }

  /** How many of the first n dispatches meet an API that answers or is out of reach, rather than failing. */
  function Served(apis: nat -> Api, n: nat): (r: nat)
    ensures r <= n
  {
    if n == 0 then 0 else Served(apis, n - 1) + (if apis(n - 1).Error? then 0 else 1)
  }

  /** The first n jobs are queued, or failed where the API failed. */
  ghost predicate Settled(w: World, ids: seq<string>, n: nat, apis: nat -> Api) {
    n <= |ids| && forall k :: 0 <= k < n ==> HasStatus(w, ids[k], if apis(k).Error? then Failed else Queued)
  }

  lemma SettledNext(before: World, after: World, ids: seq<string>, i: nat, apis: nat -> Api)
    requires i < |ids| && Distinct(ids) && Settled(before, ids, i, apis)
    requires OthersUntouched(before.jobs, after.jobs, ids[i])
    requires HasStatus(after, ids[i], if apis(i).Error? then Failed else Queued)
    ensures Settled(after, ids, i + 1, apis)
  {
  }

  /**
   * Step four of a tick: dispatch every claimed job in order. A dispatch that fails at the API does not stop the
   * rest; one whose closing commit fails does, because even logging its failure reads from the session that commit
   * broke.
   */
  method DispatchClaimed(store: Store, claimed: seq<string>, now: Time, apis: nat -> Api, replace: bool,
                         ghost s: System, ghost before: seq<Step>)
    returns (dispatched: nat, tried: nat, clash: bool, ghost steps: seq<Step>)
    requires Follows(s, before, store.View(), now, Holding(Elements(claimed))) && Distinct(claimed)
    modifies store`jobs, store`executions, store`cluster
    ensures tried <= |claimed| && steps == before + DispatchAll(claimed[..tried], apis, replace)
    ensures Follows(s, steps, store.View(), now, Holding(Elements(claimed[tried..])))
    ensures !clash ==> tried == |claimed| && dispatched == Served(apis, tried)
    ensures !clash ==> Settled(store.View(), claimed, tried, apis)
    ensures clash ==> tried > 0 && LeftDispatching(store.View(), claimed[tried - 1], replace)
    ensures clash ==> Settled(store.View(), claimed, tried - 1, apis)
    ensures NoneApproved(old(store.jobs), store.jobs)
  {
    dispatched, tried, clash := 0, 0, false;
    NothingDispatched(s, before, claimed, apis, replace, store.View(), now);
    while tried < |claimed| && !clash
      invariant tried <= |claimed| && DispatchedSoFar(s, before, claimed, tried, apis, replace, store.View(), now)
      invariant !clash ==> dispatched == Served(apis, tried) && Settled(store.View(), claimed, tried, apis)
      invariant clash ==> tried > 0 && LeftDispatching(store.View(), claimed[tried - 1], replace)
      invariant clash ==> Settled(store.View(), claimed, tried - 1, apis)
      invariant NoneApproved(old(store.jobs), store.jobs)
    {
      var outcome := DispatchNext(store, claimed, tried, now, apis, replace, s, before);
      tried := tried + 1;
      if outcome.RowClash? {
        clash := true;
      } else if outcome.Dispatched? {
        dispatched := dispatched + 1;
      }
    }
    steps := before + DispatchAll(claimed[..tried], apis, replace);
  }

  /** The run so far, when the first i claimed jobs have been dispatched. */
  ghost predicate DispatchedSoFar(s: System, before: seq<Step>, claimed: seq<string>, i: nat, apis: nat -> Api,
                                  replace: bool, w: World, now: Time)
    requires i <= |claimed|
  {
    Follows(s, before + DispatchAll(claimed[..i], apis, replace), w, now, Holding(Elements(claimed[i..])))
  }

  lemma NothingDispatched(s: System, before: seq<Step>, claimed: seq<string>, apis: nat -> Api, replace: bool,
                          w: World, now: Time)
    requires Follows(s, before, w, now, Holding(Elements(claimed)))
    ensures DispatchedSoFar(s, before, claimed, 0, apis, replace, w, now)
  {
    assert claimed[0..] == claimed && before + [] == before;
  }

  method DispatchNext(store: Store, claimed: seq<string>, i: nat, now: Time, apis: nat -> Api, replace: bool,
                      ghost s: System, ghost before: seq<Step>)
    returns (outcome: Outcome)
    requires i < |claimed| && Distinct(claimed) && Settled(store.View(), claimed, i, apis)
    requires DispatchedSoFar(s, before, claimed, i, apis, replace, store.View(), now)
    modifies store`jobs, store`executions, store`cluster
    ensures DispatchedSoFar(s, before, claimed, i + 1, apis, replace, store.View(), now)
    ensures Settled(store.View(), claimed, if outcome.RowClash? then i else i + 1, apis)
    ensures outcome.RowClash? ==> LeftDispatching(store.View(), claimed[i], replace)
    ensures !outcome.RowClash? ==> (outcome.Dispatched? <==> !apis(i).Error?)
    ensures NoneApproved(old(store.jobs), store.jobs)
  {
    RemainingElements(claimed, i);
    DispatchAllNext(claimed, i, apis, replace);
    ghost var here := store.View();
    outcome := DispatchOne(store, claimed[i], now, apis(i), replace, s,
                           before + DispatchAll(claimed[..i], apis, replace), Elements(claimed[i..]));
    StepsJoin(before, DispatchAll(claimed[..i], apis, replace), DispatchSteps(claimed[i], apis(i), replace));
    if outcome.RowClash? {
      SettledStays(here, store.View(), claimed, i, apis);
    } else {
      SettledNext(here, store.View(), claimed, i, apis);
    }
  }

  lemma StepsJoin(a: seq<Step>, b: seq<Step>, c: seq<Step>)
    ensures a + b + c == a + (b + c)
  {
  }

  lemma SettledStays(before: World, after: World, ids: seq<string>, i: nat, apis: nat -> Api)
    requires i < |ids| && Distinct(ids) && Settled(before, ids, i, apis)
    requires OthersUntouched(before.jobs, after.jobs, ids[i])
    ensures Settled(after, ids, i, apis)
  {
  }

  lemma RemainingElements(ids: seq<string>, i: nat)
    requires i < |ids| && Distinct(ids)
    ensures ids[i] in Elements(ids[i..]) && Elements(ids[i..]) - {ids[i]} == Elements(ids[i + 1..])
  {
  }

  function WatchedIds(w: World): set<string> {
    set id | id in w.executions && Watched(w, id)
  }

  /** The polls that were answered, in the order of the list. */
  function WatchSteps(ids: seq<string>, answers: string -> bool): seq<Step> {
    if ids == [] then []
    else
      var last := ids[|ids| - 1];
      WatchSteps(ids[..|ids| - 1], answers) + (if answers(last) then [WatchJob(last)] else [])
  }

  lemma WatchStepsNext(ids: seq<string>, i: nat, answers: string -> bool)
    requires i < |ids|
    ensures WatchSteps(ids[..i + 1], answers)
         == WatchSteps(ids[..i], answers) + (if answers(ids[i]) then [WatchJob(ids[i])] else [])
  {
    assert ids[..i + 1][..i] == ids[..i];
  }

  /** The executions a status says are pending or running. */
  lemma WatchedIdsExact(w: World, id: string)
    ensures id in WatchedIds(w)
       <==> id in w.executions
            && (w.executions[id].kube == Some(KubeStatus.Pending) || w.executions[id].kube == Some(Active))
  {
  }

  /** Step five: poll every execution last seen pending or running; polls that fail are counted too. */
  method RefreshActive(store: Store, now: Time, answers: string -> bool, ghost s: System, ghost before: seq<Step>,
                       ghost p: Phase)
    returns (refreshed: nat, ghost active: seq<string>, ghost steps: seq<Step>)
    requires Follows(s, before, store.View(), now, p)
    modifies store`jobs, store`executions
    ensures Lists(active, WatchedIds(old(store.View()))) && refreshed == |active|
    ensures steps == before + WatchSteps(active, answers) && Follows(s, steps, store.View(), now, p)
    ensures NoneApproved(old(store.jobs), store.jobs)
  {
    var rows := ListRows(WatchedIds(store.View()));
    active := rows;
    steps := before;
    assert before + [] == before && rows[0..] == rows;
    for i := 0 to |rows|
      invariant Follows(s, steps, store.View(), now, p) && steps == before + WatchSteps(rows[..i], answers)
      invariant AllWatched(store.View(), rows[i..])
      invariant NoneApproved(old(store.jobs), store.jobs)
    {
      WatchStepsNext(rows, i, answers);
      RemainingElements(rows, i);
      RefreshOne(store, rows[i], now, answers(rows[i]), s, steps, p);
      StepsJoin(before, WatchSteps(rows[..i], answers), if answers(rows[i]) then [WatchJob(rows[i])] else []);
      steps := steps + (if answers(rows[i]) then [WatchJob(rows[i])] else []);
    }
    assert rows[..|rows|] == rows;
    refreshed := |rows|;
  }

  ghost predicate AllWatched(w: World, ids: seq<string>) {
    forall id :: id in Elements(ids) ==> Watched(w, id)
  }

  method RefreshOne(store: Store, id: string, now: Time, answered: bool, ghost s: System, ghost steps: seq<Step>,
                    ghost p: Phase)
    requires Follows(s, steps, store.View(), now, p) && Watched(store.View(), id)
    modifies store`jobs, store`executions
    ensures Follows(s, steps + (if answered then [WatchJob(id)] else []), store.View(), now, p)
    ensures forall other :: other != id && Watched(old(store.View()), other) ==> Watched(store.View(), other)
    ensures NoneApproved(old(store.jobs), store.jobs)
  {
    LegalNext(s, steps, WatchJob(id));
    PollLeavesOthers(store.View(), id);
    RefreshJobStatus(store, id, answered);
    assert steps + [] == steps;
  }

  lemma PollLeavesOthers(w: World, id: string)
    ensures forall other :: other != id && Watched(w, other) ==> Watched(Poll(w, id), other)
    ensures NoneApproved(w.jobs, Poll(w, id).jobs)
  {
  }

  // ---- The tick ----

  /** Everything a tick does: recover, promote, claim, dispatch as far as it gets, poll, and forget. */
  function TickSteps(claimed: seq<string>, tried: nat, active: seq<string>, apis: nat -> Api, answers: string -> bool,
                     replace: bool): seq<Step>
    requires tried <= |claimed|
  {
    ClaimSteps(claimed) + DispatchAll(claimed[..tried], apis, replace) + WatchSteps(active, answers)
    + [RestartDispatcher]
  }

  function ClaimSteps(claimed: seq<string>): seq<Step> {
    [RecoverClaims] + [PromoteDue] + [ClaimBatch(Elements(claimed))]
  }

  function AfterRecovery(w: World, now: Time): map<string, Job> {
    Recovered(w.jobs, Expired(w.jobs, now))
  }

  function AfterPromotion(w: World, now: Time): map<string, Job> {
    Promoted(AfterRecovery(w, now), Promotable(AfterRecovery(w, now), w.decisions, now))
  }

  /** The list is what a claim of the world so promoted takes, in claim order. */
  ghost predicate ClaimedFrom(w: World, now: Time, claimed: seq<string>) {
    var jobs := AfterPromotion(w, now);
    && FirstK(jobs, ReadyJobs(jobs), Elements(claimed), CLAIM_BATCH_SIZE) && Distinct(claimed)
    && TakesFirst(jobs, ReadyJobs(jobs), Elements(claimed)) && InClaimOrder(jobs, claimed)
    && |Elements(claimed)| == if |ReadyJobs(jobs)| <= 50 then |ReadyJobs(jobs)| else 50
  }

  /** The counters say what was done, out of the world the tick found. */
  ghost predicate Counts(stats: Stats, w: World, now: Time, claimed: seq<string>, apis: nat -> Api, active: seq<string>)
  {
    && stats.recovered == |Expired(w.jobs, now)|
    && stats.promoted == |Promotable(AfterRecovery(w, now), w.decisions, now)|
    && stats.claimed == |claimed|
    && stats.dispatched == Served(apis, |claimed|) && stats.failed == |claimed| - stats.dispatched
    && stats.refreshed == |active|
  }

  /** Approved with a decision that is due: what a tick must not leave approved. */
  predicate ApprovedAndDue(w: World, id: string, now: Time) {
    HasStatus(w, id, Approved) && id in w.decisions && w.decisions[id].start <= now
  }

  ghost predicate DueLeft(before: World, after: map<string, Job>, now: Time) {
    forall id :: ApprovedAndDue(before, id, now) ==> !(id in after && after[id].status == Approved)
  }

  /**
   * One tick: recover, promote, claim, dispatch, refresh; its steps are exactly these, and a legal run of the
   * lifecycle. It raises only when a dispatch is stopped by an earlier execution row; then the jobs it had still to
   * dispatch wait for their leases to run out, nothing is refreshed, and the job that was stopped is orphaned.
   * Either way no job that was approved and due is left approved.
   */
  method DispatchLoopTick(store: Store, now: Time, apis: nat -> Api, answers: string -> bool, replace: bool,
                          ghost s: System)
    returns (stats: Option<Stats>, claimed: seq<string>, tried: nat, ghost active: seq<string>, ghost steps: seq<Step>)
    requires Follows(s, [], store.View(), now, Idle)
    modifies store
    ensures tried <= |claimed| && steps == TickSteps(claimed, tried, active, apis, answers, replace)
    ensures Follows(s, steps, store.View(), now, Idle)
    ensures ClaimedFrom(old(store.View()), now, claimed) && DueLeft(old(store.View()), store.jobs, now)
    ensures stats.Some? ==> tried == |claimed| && Counts(stats.value, old(store.View()), now, claimed, apis, active)
    ensures stats.Some? ==>
              Lists(active, WatchedIds(Run(s, ClaimSteps(claimed) + DispatchAll(claimed, apis, replace)).world))
    ensures stats.None? ==> !replace && tried > 0 && active == [] && Orphaned(Run(s, steps), claimed[tried - 1])
  {
    var recovered, promoted;
    recovered, promoted, claimed, steps := RecoverPromoteClaim(store, now, s);
    ghost var before := store.jobs;
    var counts;
    counts, tried, active, steps := DispatchAndRefresh(store, claimed, now, apis, answers, replace, s, steps);
    DueStaysLeft(old(store.View()), before, store.jobs, now);
    stats := if counts.None? then None
             else Some(Stats(recovered, promoted, |claimed|, counts.value.0, |claimed| - counts.value.0,
                             counts.value.1));
  }

  lemma DueStaysLeft(w: World, middle: map<string, Job>, after: map<string, Job>, now: Time)
    requires DueLeft(w, middle, now) && NoneApproved(middle, after)
    ensures DueLeft(w, after, now)
  {
  }

  /** Steps one to three: what the database is asked before anything is dispatched. */
  method RecoverPromoteClaim(store: Store, now: Time, ghost s: System)
    returns (recovered: nat, promoted: nat, claimed: seq<string>, ghost steps: seq<Step>)
    requires Follows(s, [], store.View(), now, Idle)
    modifies store`jobs
    ensures steps == ClaimSteps(claimed) && Follows(s, steps, store.View(), now, Holding(Elements(claimed)))
    ensures ClaimedFrom(old(store.View()), now, claimed) && DueLeft(old(store.View()), store.jobs, now)
    ensures recovered == |Expired(old(store.jobs), now)|
    ensures promoted == |Promotable(AfterRecovery(old(store.View()), now), old(store.decisions), now)|
  {
    var expired := ListRows(Expired(store.jobs, now));
    LegalNext(s, [], RecoverClaims);
    recovered := RecoverExpiredClaims(store, expired, now);
    steps := [] + [RecoverClaims];
    promoted, claimed, steps := PromoteAndClaim(store, now, s, steps);
    DueIsPromoted(old(store.View()), now, Elements(claimed));
  }

  lemma DueIsPromoted(w: World, now: Time, batch: set<string>)
    ensures DueLeft(w, Claimed(AfterPromotion(w, now), batch, WORKER, now), now)
  {
  }

  /** Steps four and five: how many were dispatched and refreshed, or None when a row clash ended the tick. */
  method DispatchAndRefresh(store: Store, claimed: seq<string>, now: Time, apis: nat -> Api, answers: string -> bool,
                            replace: bool, ghost s: System, ghost before: seq<Step>)
    returns (counts: Option<(nat, nat)>, tried: nat, ghost active: seq<string>, ghost steps: seq<Step>)
    requires Follows(s, before, store.View(), now, Holding(Elements(claimed))) && Distinct(claimed)
    modifies store`jobs, store`executions, store`cluster
    ensures tried <= |claimed|
    ensures steps == before + DispatchAll(claimed[..tried], apis, replace) + WatchSteps(active, answers)
                     + [RestartDispatcher]
    ensures Follows(s, steps, store.View(), now, Idle) && NoneApproved(old(store.jobs), store.jobs)
    ensures counts.Some? ==>
              && tried == |claimed| && counts.value == (Served(apis, tried), |active|)
              && Lists(active, WatchedIds(Run(s, before + DispatchAll(claimed, apis, replace)).world))
    ensures counts.None? ==> !replace && tried > 0 && active == [] && Orphaned(Run(s, steps), claimed[tried - 1])
  {
    var dispatched, clash;
    dispatched, tried, clash, steps := DispatchClaimed(store, claimed, now, apis, replace, s, before);
    active := [];
    if clash {
      assert steps + WatchSteps(active, answers) == steps;
      ClashEndsTick(s, steps, store.View(), now, Elements(claimed[tried..]), claimed[tried - 1], replace);
      return None, tried, active, steps + [RestartDispatcher];
    }
    assert claimed[..tried] == claimed && Elements(claimed[tried..]) == {};
    var refreshed;
    refreshed, active, steps := RefreshActive(store, now, answers, s, steps, Holding({}));
    EndOfTick(s, steps, store.View(), now, {});
    steps := steps + [RestartDispatcher];
    counts := Some((dispatched, refreshed));
  }

  lemma ClashEndsTick(s: System, steps: seq<Step>, w: World, now: Time, left: set<string>, id: string, replace: bool)
    requires Follows(s, steps, w, now, Holding(left)) && LeftDispatching(w, id, replace)
    ensures Follows(s, steps + [RestartDispatcher], w, now, Idle)
    ensures !replace && Orphaned(Run(s, steps + [RestartDispatcher]), id)
  {
    EndOfTick(s, steps, w, now, left);
  }

  /** A tick forgets what it held, like a restart. */
  lemma EndOfTick(s: System, steps: seq<Step>, w: World, now: Time, left: set<string>)
    requires Follows(s, steps, w, now, Holding(left))
    ensures Follows(s, steps + [RestartDispatcher], w, now, Idle)
  {
    LegalNext(s, steps, RestartDispatcher);
  }

  method PromoteAndClaim(store: Store, now: Time, ghost s: System, ghost before: seq<Step>)
    returns (promoted: nat, claimed: seq<string>, ghost steps: seq<Step>)
    requires Follows(s, before, store.View(), now, Idle)
    modifies store`jobs
    ensures steps == before + [PromoteDue] + [ClaimBatch(Elements(claimed))]
    ensures Follows(s, steps, store.View(), now, Holding(Elements(claimed)))
    ensures promoted == |Promotable(old(store.jobs), store.decisions, now)|
    ensures var ready := Promoted(old(store.jobs), Promotable(old(store.jobs), store.decisions, now));
            && FirstK(ready, ReadyJobs(ready), Elements(claimed), CLAIM_BATCH_SIZE) && Distinct(claimed)
            && TakesFirst(ready, ReadyJobs(ready), Elements(claimed)) && InClaimOrder(ready, claimed)
            && store.jobs == Claimed(ready, Elements(claimed), WORKER, now)
  {
    var due := ListRows(Promotable(store.jobs, store.decisions, now));
    LegalNext(s, before, PromoteDue);
    promoted := PromoteScheduledToReady(store, due, now);
    steps := before + [PromoteDue];
    var ready := ListRows(ReadyJobs(store.jobs));
    claimed := ClaimSqlite(store, ready, CLAIM_BATCH_SIZE, WORKER, now);
    LegalNext(s, steps, ClaimBatch(Elements(claimed)));
    steps := steps + [ClaimBatch(Elements(claimed))];
  }

  // ---- The planning loop ----

  /** Stores what the scheduler decided for one job, or that it found nothing. */
  method ScheduleAndStore(store: Store, id: string, start: Option<Time>)
    requires id in store.jobs
    modifies store
    ensures store.View() == Plan(old(store.View()), id, start)
  {
    if start.None? {
      store.jobs := store.jobs[id := store.jobs[id].(status := Failed)];
      return;
    }
    if id in store.decisions {
      store.decisions := store.decisions[id := store.decisions[id].(start := start.value)];
    } else {
      store.decisions := store.decisions[id := Decision(store.nextDecision, start.value)];
      store.nextDecision := store.nextDecision + 1;
    }
    var gate := if store.jobs[id].deferrable == Some(false) then Approved else PendingApproval;
    store.jobs := store.jobs[id := store.jobs[id].(status := gate)];
  }

  function AwaitingIds(w: World, now: Time): set<string> {
    set id | id in w.jobs && AwaitsPlan(w, id, now)
  }

  ghost predicate AllAwait(w: World, ids: seq<string>, now: Time) {
    forall id :: id in Elements(ids) ==> AwaitsPlan(w, id, now)
  }

  method PlanOne(store: Store, id: string, now: Time, start: Option<Time>, ghost s: System, ghost steps: seq<Step>,
                 ghost p: Phase)
    requires Follows(s, steps, store.View(), now, p) && AwaitsPlan(store.View(), id, now)
    modifies store
    ensures Follows(s, steps + [PlanJob(id, start)], store.View(), now, p)
    ensures forall other :: other != id && AwaitsPlan(old(store.View()), other, now) ==>
              AwaitsPlan(store.View(), other, now)
  {
    LegalNext(s, steps, PlanJob(id, start));
    ScheduleAndStore(store, id, start);
  }

  /** One pass of the planning loop; a job the scheduler cannot place fails, and the rest go on. */
  method ProcessPendingJobs(store: Store, now: Time, planner: string -> Option<Time>, ghost s: System, ghost p: Phase)
    returns (count: nat, pending: seq<string>, ghost steps: seq<Step>)
    requires Follows(s, [], store.View(), now, p)
    modifies store
    ensures Lists(pending, AwaitingIds(old(store.View()), now)) && count == Placed(pending, planner)
    ensures steps == PlanSteps(pending, planner) && Follows(s, steps, store.View(), now, p)
  {
    pending := ListRows(AwaitingIds(store.View(), now));
    count := 0;
    NothingPlannedYet(s, pending, planner, store.View(), now, p);
    for i := 0 to |pending|
      invariant PlannedSoFar(s, pending, i, planner, store.View(), now, p) && count == Placed(pending[..i], planner)
    {
      var placed := PlanNext(store, pending, i, now, planner, s, p);
      if placed {
        count := count + 1;
      }
    }
    assert pending[..|pending|] == pending;
    steps := PlanSteps(pending, planner);
  }

  /** The run so far, when the first i waiting jobs have been planned; the others wait still. */
  ghost predicate PlannedSoFar(s: System, pending: seq<string>, i: nat, planner: string -> Option<Time>, w: World,
                               now: Time, p: Phase)
    requires i <= |pending|
  {
    Follows(s, PlanSteps(pending[..i], planner), w, now, p) && AllAwait(w, pending[i..], now)
  }

  lemma NothingPlannedYet(s: System, pending: seq<string>, planner: string -> Option<Time>, w: World, now: Time,
                          p: Phase)
    requires Follows(s, [], w, now, p) && Lists(pending, AwaitingIds(w, now))
    ensures PlannedSoFar(s, pending, 0, planner, w, now, p)
  {
    assert pending[0..] == pending;
  }

  method PlanNext(store: Store, pending: seq<string>, i: nat, now: Time, planner: string -> Option<Time>,
                  ghost s: System, ghost p: Phase)
    returns (placed: bool)
    requires i < |pending| && Distinct(pending) && PlannedSoFar(s, pending, i, planner, store.View(), now, p)
    modifies store
    ensures PlannedSoFar(s, pending, i + 1, planner, store.View(), now, p)
    ensures Placed(pending[..i + 1], planner) == Placed(pending[..i], planner) + (if placed then 1 else 0)
  {
    RemainingElements(pending, i);
    PlanStepsNext(pending, i, planner);
    var start := planner(pending[i]);
    PlanOne(store, pending[i], now, start, s, PlanSteps(pending[..i], planner), p);
    placed := start.Some?;
  }

  /** How many of the jobs the planner finds a start for. */
  function Placed(ids: seq<string>, planner: string -> Option<Time>): nat {
    if ids == [] then 0
    else Placed(ids[..|ids| - 1], planner) + (if planner(ids[|ids| - 1]).Some? then 1 else 0)
  }

  lemma PlanStepsNext(ids: seq<string>, i: nat, planner: string -> Option<Time>)
    requires i < |ids|
    ensures Placed(ids[..i + 1], planner) == Placed(ids[..i], planner) + (if planner(ids[i]).Some? then 1 else 0)
    ensures PlanSteps(ids[..i + 1], planner) == PlanSteps(ids[..i], planner) + [PlanJob(ids[i], planner(ids[i]))]
  {
    assert ids[..i + 1][..i] == ids[..i];
  }

  function PlanSteps(ids: seq<string>, planner: string -> Option<Time>): (r: seq<Step>)
    ensures |r| == |ids|
  {
    if ids == [] then []
    else
      var last := ids[|ids| - 1];
      PlanSteps(ids[..|ids| - 1], planner) + [PlanJob(last, planner(last))]
  }
}
