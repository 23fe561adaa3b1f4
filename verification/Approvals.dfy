/** The human approval gate (app/approval/service.py): reading a request, settling it, resubmitting a job. */
module Approvals {
  import opened Prelude
  import opened JobStore

  datatype Request = Request(job: string, decision: nat, verdict: Verdict, reason: Option<string>)

  datatype Reply =
    | BlankReason | JobNotFound | DecisionNotFound | NotThisJobs | AlreadyDone | BadStatus
    | Conflict | Vanished | Recorded

  /** The characters Python's str.strip removes. */
  predicate IsSpace(c: char) {
    var code := c as int;
    || 0x09 <= code <= 0x0d || 0x1c <= code <= 0x20 || 0x2000 <= code <= 0x200a
    || code in {0x85, 0xa0, 0x1680, 0x2028, 0x2029, 0x202f, 0x205f, 0x3000}
  }

  predicate Blank(reason: Option<string>) {
    reason.None? || forall c | c in reason.value :: IsSpace(c)
  }

  /** A reason counts exactly when some character of it is neither a space nor a tab, line or separator control. */
  lemma ReasonCountsIff(reason: string)
    requires forall c :: c in reason ==> c as int < 0x80
    ensures !Blank(Some(reason))
       <==> exists k :: 0 <= k < |reason| && !(9 <= reason[k] as int <= 13) && !(28 <= reason[k] as int <= 32)
    ensures Blank(None)
  {
    if !Blank(Some(reason)) {
      var c :| c in reason && !IsSpace(c);
      var k :| 0 <= k < |reason| && reason[k] == c;
    }
    if k :| 0 <= k < |reason| && !(9 <= reason[k] as int <= 13) && !(28 <= reason[k] as int <= 32) {
      assert reason[k] in reason && !IsSpace(reason[k]);
    }
  }

  function TargetOf(v: Verdict): Status {
    if v == Approve then Approved else Declined
  }

  predicate DecisionExists(w: World, decision: nat) {
    exists id | id in w.decisions :: w.decisions[id].id == decision
  }

  /** The decision is the one the job has now. */
  predicate Current(w: World, job: string, decision: nat) {
    job in w.decisions && w.decisions[job].id == decision
  }

  function RowOf(r: Request): Approval {
    Approval(r.job, r.decision, r.verdict)
  }

  /** The reads a request starts with; None lets it go on to the write. */
  function Examine(w: World, r: Request): Option<Reply> {
    if r.verdict == Decline && Blank(r.reason) then Some(BlankReason)
    else if r.job !in w.jobs then Some(JobNotFound)
    else if !DecisionExists(w, r.decision) then Some(DecisionNotFound)
    else if !Current(w, r.job, r.decision) then Some(NotThisJobs)
    else if w.jobs[r.job].status == TargetOf(r.verdict) && RowOf(r) in w.approvals then Some(AlreadyDone)
    else if w.jobs[r.job].status != PendingApproval && w.jobs[r.job].status != TargetOf(r.verdict) then Some(BadStatus)
    else None
  }

  /**
   * The write transaction: insert the row, move the job if it is still pending, commit. A job that has moved on
   * rolls it back; so does a decision deleted meanwhile, through the foreign key.
   */
  function Settle(w: World, r: Request): (World, Reply) {
    if !HasStatus(w, r.job, PendingApproval) then (w, Conflict)
    else if !DecisionExists(w, r.decision) then (w, Vanished)
    else (SetStatus(w, r.job, TargetOf(r.verdict)).(approvals := w.approvals + [RowOf(r)]), Recorded)
  }

  /** A request that deserves the write: well-founded, on the job's own decision, and with something left to do. */
  predicate MayProceed(w: World, r: Request) {
    && (r.verdict == Decline ==> !Blank(r.reason))
    && Current(w, r.job, r.decision)
    && (HasStatus(w, r.job, PendingApproval)
        || (HasStatus(w, r.job, TargetOf(r.verdict)) && RowOf(r) !in w.approvals))
  }

  /**
   * The reads let a request through exactly when it may proceed, and then the write records it exactly when the
   * job is still pending: one that is already at its target, like a job that never needed approval, conflicts.
   */
  lemma ProceedsIff(w: World, r: Request)
    ensures Examine(w, r).None? <==> MayProceed(w, r)
    ensures MayProceed(w, r) ==>
              (Settle(w, r).1 == Recorded <==> HasStatus(w, r.job, PendingApproval))
              && (Settle(w, r).1 == Conflict <==> HasStatus(w, r.job, TargetOf(r.verdict)))
  {
    if Current(w, r.job, r.decision) {
      assert r.job in w.decisions;
    }
  }

  /** Once recorded, the same request is answered as done, the opposite one is refused, and neither writes again. */
  lemma RecordedRequestStands(w: World, r: Request, other: Request)
    requires MayProceed(w, r) && Settle(w, r).1 == Recorded
    requires other.job == r.job && other.decision == r.decision && (other.verdict == Decline ==> !Blank(other.reason))
    ensures var after := Settle(w, r).0;
            && Examine(after, other) == Some(if other.verdict == r.verdict then AlreadyDone else BadStatus)
            && Settle(after, other) == (after, Conflict)
  {
    var after := Settle(w, r).0;
    assert after.decisions == w.decisions && Current(after, other.job, other.decision);
    assert r.job in after.decisions;
  }

  method ValidateRequest(store: Store, r: Request) returns (reply: Option<Reply>)
    ensures reply == Examine(store.View(), r)
    ensures reply.None? <==> MayProceed(store.View(), r)
  {
    ProceedsIff(store.View(), r);
    if r.verdict == Decline && Blank(r.reason) {
      return Some(BlankReason);
    }
    if r.job !in store.jobs {
      return Some(JobNotFound);
    }
    if !DecisionExists(store.View(), r.decision) {
      return Some(DecisionNotFound);
    }
    if !Current(store.View(), r.job, r.decision) {
      return Some(NotThisJobs);
    }
    var status := store.jobs[r.job].status;
    if status == TargetOf(r.verdict) && RowOf(r) in store.approvals {
      return Some(AlreadyDone);
    }
    if status != PendingApproval && status != TargetOf(r.verdict) {
      return Some(BadStatus);
    }
    return None;
  }

  method SettleRequest(store: Store, r: Request) returns (reply: Reply)
    modifies store`jobs, store`approvals
    ensures (store.View(), reply) == Settle(old(store.View()), r)
  {
    var jobs, approvals := store.jobs, store.approvals;
    store.approvals := store.approvals + [RowOf(r)];
    var rows := 0;
    if r.job in store.jobs && store.jobs[r.job].status == PendingApproval {
      store.jobs := store.jobs[r.job := store.jobs[r.job].(status := TargetOf(r.verdict))];
      rows := 1;
    }
    if rows == 0 {
      store.approvals := approvals;
      return Conflict;
    }
    if !DecisionExists(store.View(), r.decision) {
      store.jobs, store.approvals := jobs, approvals;
      return Vanished;
    }
    return Recorded;
  }

  /** Rows of every decision but one. */
  function Without(rows: seq<Approval>, decision: nat): seq<Approval> {
    if rows == [] then []
    else (if rows[0].decision == decision then [] else [rows[0]]) + Without(rows[1..], decision)
  }

  lemma {:induction false} WithoutCounts(rows: seq<Approval>, decision: nat, a: Approval)
    ensures multiset(Without(rows, decision))[a] == if a.decision == decision then 0 else multiset(rows)[a]
  {
    if rows != [] {
      WithoutCounts(rows[1..], decision, a);
      assert rows == [rows[0]] + rows[1..];
    }
  }

  const RESUBMITTABLE: set<Status> := {Declined, Cancelled, Failed}

  /** Back to submitted; the stale decision goes, and with it the approvals that hang on it. */
  function Resubmit(w: World, id: string): World {
    if id !in w.jobs || w.jobs[id].status !in RESUBMITTABLE then w
    else
      var again := SetStatus(w, id, Submitted);
      if id in w.decisions
      then again.(decisions := w.decisions - {id}, approvals := Without(w.approvals, w.decisions[id].id))
      else again
  }

  method ResubmitWorkload(store: Store, id: string) returns (ok: bool)
    modifies store`jobs, store`decisions, store`approvals
    ensures ok <==> id in old(store.jobs) && old(store.jobs)[id].status in RESUBMITTABLE
    ensures ok <==> || HasStatus(old(store.View()), id, Declined) || HasStatus(old(store.View()), id, Cancelled)
                    || HasStatus(old(store.View()), id, Failed)
    ensures store.View() == Resubmit(old(store.View()), id)
  {
    if id !in store.jobs || store.jobs[id].status !in RESUBMITTABLE {
      return false;
    }
    store.jobs := store.jobs[id := store.jobs[id].(status := Submitted)];
    if id in store.decisions {
      store.approvals := Without(store.approvals, store.decisions[id].id);
      store.decisions := store.decisions - {id};
    }
    return true;
  }

  /** A verdict is recorded exactly for a job still pending on a live decision; every other reply changes nothing. */
  lemma LosersChangeNothing(w: World, r: Request)
    ensures Settle(w, r).1 == Recorded <==> HasStatus(w, r.job, PendingApproval) && DecisionExists(w, r.decision)
    ensures Settle(w, r).1 != Recorded ==> Settle(w, r).0 == w
    ensures Settle(w, r).1 == Recorded ==>
              var after := Settle(w, r).0;
              && HasStatus(after, r.job, TargetOf(r.verdict)) && after.approvals == w.approvals + [RowOf(r)]
              && after.jobs.Keys == w.jobs.Keys
              && forall id :: id in w.jobs && id != r.job ==> after.jobs[id] == w.jobs[id]
  {
  }
}
