/** The tables the services share (app/shared/models.py), as one value and as one mutable store. */
module JobStore {
  import opened Prelude

  datatype Status =
    | Submitted | Validated | Scheduled | PendingApproval | Approved | Ready | Claiming | Declined | Rejected
    | Queued | Dispatching | Running | Completed | Failed | Cancelled

  /** claimed_by, claimed_at and lease_expires_at: the three columns are always set and cleared together. */
  datatype Lease = Lease(owner: string, since: Time, expires: Time)

  datatype Job = Job(status: Status, priority: Option<string>, deadline: Time, deferrable: Option<bool>,
                     lease: Option<Lease>)

  /** A job has at most one schedule decision; the database assigns its id and, as with a sequence, never reuses one. */
  datatype Decision = Decision(id: nat, start: Time)

  datatype Verdict = Approve | Decline

  datatype Approval = Approval(job: string, decision: nat, verdict: Verdict)

  datatype KubeStatus = Pending | Active | Succeeded | Broken

  /** At most one execution row per job; the Kubernetes status is unknown until the first poll. */
  datatype Execution = Execution(name: string, kube: Option<KubeStatus>)

  datatype World = World(
    jobs: map<string, Job>, decisions: map<string, Decision>, nextDecision: nat, approvals: seq<Approval>,
    executions: map<string, Execution>, cluster: map<string, KubeStatus>)

  predicate HasStatus(w: World, id: string, s: Status) {
    id in w.jobs && w.jobs[id].status == s
  }

  function SetStatus(w: World, id: string, s: Status): World {
    if id in w.jobs then w.(jobs := w.jobs[id := w.jobs[id].(status := s)]) else w
  }

  class Store {
    var jobs: map<string, Job>
    var decisions: map<string, Decision>
    var nextDecision: nat
    var approvals: seq<Approval>
    var executions: map<string, Execution>
    var cluster: map<string, KubeStatus>

    constructor ()
      ensures View() == World(map[], map[], 0, [], map[], map[])
    {
      jobs, decisions, nextDecision, approvals, executions, cluster := map[], map[], 0, [], map[], map[];
    }

    function View(): World
      reads this
    {
      World(jobs, decisions, nextDecision, approvals, executions, cluster)
    }
  }
}
