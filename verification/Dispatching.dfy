/** Kubernetes dispatch and status refresh (app/dispatch/dispatcher.py, app/dispatch/status_tracker.py). */
module Dispatching {
  import opened Prelude
  import opened JobStore

  // ---- Names (app/shared/utils.py, k8s_safe_name; ASCII identifiers) ----

  function SafeChar(c: char): char {
    if 'A' <= c <= 'Z' then 'a' + (c - 'A')
    else if c == '_' || c == '.' then '-'
    else c
  }

  function SafeString(s: string): string {
    if s == "" then "" else [SafeChar(s[0])] + SafeString(s[1..])
  }

  function KubeName(id: string): string {
    "gs-" + SafeString(id)
  }

  /** The same letter but for its case, or both of them separators. */
  predicate Confusable(c: char, d: char) {
    var separators := {'_', '.', '-'};
    || c == d
    || (c in separators && d in separators)
    || ('A' <= c <= 'Z' && d == 'a' + (c - 'A'))
    || ('A' <= d <= 'Z' && c == 'a' + (d - 'A'))
  }

  lemma {:induction false} SafeStringAt(s: string, k: nat)
    ensures |SafeString(s)| == |s|
    ensures k < |s| ==> SafeString(s)[k] == SafeChar(s[k])
  {
    if s != "" {
      SafeStringAt(s[1..], if k == 0 then 0 else k - 1);
    }
  }

  /** Two jobs share a Kubernetes name exactly when they differ in letter case and separators only. */
  lemma NamesCollideIff(a: string, b: string)
    ensures KubeName(a) == KubeName(b) <==> |a| == |b| && forall k :: 0 <= k < |a| ==> Confusable(a[k], b[k])
  {
    SafeStringAt(a, 0);
    SafeStringAt(b, 0);
    forall k: nat | k < |a| == |b| ensures SafeString(a)[k] == SafeString(b)[k] <==> Confusable(a[k], b[k]) {
      SafeStringAt(a, k);
      SafeStringAt(b, k);
    }
    assert KubeName(a)[3..] == SafeString(a) && KubeName(b)[3..] == SafeString(b);
  }

  // ---- One dispatch ----

  datatype Block = AwaitsApproval | WasDeclined | WrongStatus | NoDecision | TooEarly

  const DISPATCHABLE: set<Status> := {Approved, Scheduled, Ready, Claiming, Queued, Dispatching}

  /** The gate sees the worker's cached copy of the status, not the row. */
  function Gate(w: World, id: string, cached: Status, now: Time): Option<Block> {
    if cached == PendingApproval then Some(AwaitsApproval)
    else if cached == Declined then Some(WasDeclined)
    else if cached !in DISPATCHABLE then Some(WrongStatus)
    else if id !in w.decisions then Some(NoDecision)
    else if w.decisions[id].start > now then Some(TooEarly)
    else None
  }

  function Begin(w: World, id: string): World {
    SetStatus(w, id, Dispatching)
  }

  /** What the API server does when asked to run a job: it may be out of reach, fail, or answer. */
  datatype Api = Unreachable | Error | Answering

  /** Read by name, create when absent; without a reachable cluster the dispatch is simulated. */
  function Submit(w: World, id: string, api: Api): World {
    if api.Answering? && KubeName(id) !in w.cluster then w.(cluster := w.cluster[KubeName(id) := Pending]) else w
  }

  function Release(w: World, id: string, s: Status): World {
    if id in w.jobs then w.(jobs := w.jobs[id := w.jobs[id].(status := s, lease := None)]) else w
  }

  /** Clashing: an execution row of an earlier dispatch is in the way of the insert. */
  predicate Clashes(w: World, id: string, replace: bool) {
    id in w.executions && !replace
  }

  /**
   * Records the execution and queues the job. When the insert clashes with an earlier row the transaction fails
   * and the job stays as it is; when rows are replaced instead, the status last seen is kept.
   */
  function Record(w: World, id: string, replace: bool): World {
    if Clashes(w, id, replace) then w
    else
      var seen := if id in w.executions then w.executions[id].kube else None;
      Release(w.(executions := w.executions[id := Execution(KubeName(id), seen)]), id, Queued)
  }

  datatype Outcome = Blocked(why: Block) | Dispatched | KubeFailed | RowClash

  method ValidateJobForDispatch(store: Store, id: string, cached: Status, now: Time) returns (block: Option<Block>)
    ensures block == Gate(store.View(), id, cached, now)
  {
    if cached == PendingApproval {
      return Some(AwaitsApproval);
    } else if cached == Declined {
      return Some(WasDeclined);
    } else if cached !in DISPATCHABLE {
      return Some(WrongStatus);
    }
    if id !in store.decisions {
      return Some(NoDecision);
    }
    if store.decisions[id].start > now {
      return Some(TooEarly);
    }
    return None;
  }

  /** Validate, mark as dispatching, run it on the cluster, record it. */
  method DispatchJob(store: Store, id: string, cached: Status, now: Time, api: Api, replace: bool) returns (r: Outcome)
    requires id in store.jobs
    modifies store`jobs, store`executions, store`cluster
    ensures r.Blocked? <==> Gate(old(store.View()), id, cached, now).Some?
    ensures r.KubeFailed? <==> !r.Blocked? && api.Error?
    ensures r.RowClash? <==> !r.Blocked? && !api.Error? && Clashes(old(store.View()), id, replace)
    ensures r.Blocked? ==> store.View() == old(store.View())
    ensures r.KubeFailed? ==> store.View() == Release(Begin(old(store.View()), id), id, Failed)
    ensures r.Dispatched? || r.RowClash? ==>
              store.View() == Record(Submit(Begin(old(store.View()), id), id, api), id, replace)
  {
    var block := ValidateJobForDispatch(store, id, cached, now);
    if block.Some? {
      return Blocked(block.value);
    }
    store.jobs := store.jobs[id := store.jobs[id].(status := Dispatching)];
    if api.Error? {
      store.jobs := store.jobs[id := store.jobs[id].(status := Failed, lease := None)];
      return KubeFailed;
    }
    if api.Answering? {
      var name := KubeName(id);
      if name !in store.cluster {
        store.cluster := store.cluster[name := Pending];
      }
    }
    var recorded := RecordExecution(store, id, replace);
    return if recorded then Dispatched else RowClash;
  }

  /** The closing transaction: the execution row, the queued status, the lease given back. */
  method RecordExecution(store: Store, id: string, replace: bool) returns (ok: bool)
    requires id in store.jobs
    modifies store`jobs, store`executions
    ensures ok == !Clashes(old(store.View()), id, replace)
    ensures store.View() == Record(old(store.View()), id, replace)
  {
    if id in store.executions && !replace {
      return false;
    }
    var seen := if id in store.executions then store.executions[id].kube else None;
    store.executions := store.executions[id := Execution(KubeName(id), seen)];
    store.jobs := store.jobs[id := store.jobs[id].(status := Queued, lease := None)];
    return true;
  }

  // ---- Refreshing ----

  function Observed(w: World, name: string): Option<KubeStatus> {
    if name in w.cluster then Some(w.cluster[name]) else None
  }

  /** A job that has vanished from the cluster counts as failed. */
  function StatusOf(kube: Option<KubeStatus>): Status {
    match kube
    case Some(Pending) => Queued
    case Some(Active) => Running
    case Some(Succeeded) => Completed
    case Some(Broken) => Failed
    case None => Failed
  }

  /** Writes what the cluster shows to the execution and, whatever the job's own status, to the job. */
  function Poll(w: World, id: string): World {
    if id !in w.executions then w
    else
      var kube := Observed(w, w.executions[id].name);
      SetStatus(w.(executions := w.executions[id := w.executions[id].(kube := kube)]), id, StatusOf(kube))
  }

  /** The executions the dispatcher loop polls: those last seen pending or running. */
  predicate Watched(w: World, id: string) {
    id in w.executions && w.executions[id].kube in {Some(KubeStatus.Pending), Some(Active)}
  }

  /** A refresh; when the cluster answers with an error nothing is written. */
  method RefreshJobStatus(store: Store, id: string, answered: bool)
    modifies store`jobs, store`executions
    ensures store.View() == if answered then Poll(old(store.View()), id) else old(store.View())
  {
    if id in store.executions && answered {
      var name := store.executions[id].name;
      var kube := if name in store.cluster then Some(store.cluster[name]) else None;
      store.executions := store.executions[id := store.executions[id].(kube := kube)];
      if id in store.jobs {
        store.jobs := store.jobs[id := store.jobs[id].(status := StatusOf(kube))];
      }
    }
  }

  // ---- In plain terms ----

  /** A Kubernetes name is the identifier behind its prefix, without capitals and separators other than the hyphen. */
  lemma KubeNameIsSafe(id: string, k: nat)
    requires k < |id|
    ensures |KubeName(id)| == |id| + 3 && KubeName(id)[..3] == "gs-"
    ensures var c := KubeName(id)[k + 3];
            && !('A' <= c <= 'Z') && c != '_' && c != '.'
            && (!('A' <= id[k] <= 'Z') && id[k] != '_' && id[k] != '.' ==> c == id[k])
            && (id[k] == '_' || id[k] == '.' ==> c == '-')
  {
    SafeStringAt(id, k);
  }

  /** The gate lets through exactly these statuses, and only with a decision whose start has come. */
  lemma GateExact(w: World, id: string, cached: Status, now: Time)
    ensures Gate(w, id, cached, now).None?
       <==> && (cached == Approved || cached == Scheduled || cached == Ready || cached == Claiming || cached == Queued
                || cached == Dispatching)
            && id in w.decisions && w.decisions[id].start <= now
    ensures cached == PendingApproval <==> Gate(w, id, cached, now) == Some(AwaitsApproval)
    ensures cached == Declined <==> Gate(w, id, cached, now) == Some(WasDeclined)
  {
  }

  /** A poll leaves the job as the cluster shows it, and failed where the cluster shows nothing. */
  lemma PollExact(w: World, id: string)
    requires id in w.executions && id in w.jobs
    ensures var name, after := w.executions[id].name, Poll(w, id);
            var shows := (s: KubeStatus) => name in w.cluster && w.cluster[name] == s;
            && (HasStatus(after, id, Queued) <==> shows(Pending))
            && (HasStatus(after, id, Running) <==> shows(Active))
            && (HasStatus(after, id, Completed) <==> shows(Succeeded))
            && (HasStatus(after, id, Failed) <==> shows(Broken) || name !in w.cluster)
            && after.executions[id].kube == (if name in w.cluster then Some(w.cluster[name]) else None)
  {
  }
}
