/** Claiming jobs for dispatch: batches, leases, recovery and promotion (app/dispatch/job_claimer.py). */
module Claims {
  import opened Prelude
  import opened Priorities
  import opened Sorting
  import opened JobStore

  const CLAIM_BATCH_SIZE: nat := 50
  const CLAIM_LEASE: int := 120 * SECOND

  // ---- The three bulk updates, as values ----

  predicate ClaimLe(a: Job, b: Job) {
    var ra, rb := ClaimRank(a.priority), ClaimRank(b.priority);
    ra < rb || (ra == rb && a.deadline <= b.deadline)
  }

  const NO_JOB: Job := Job(Submitted, None, 0, None, None)

  function JobOf(jobs: map<string, Job>, id: string): Job {
    if id in jobs then jobs[id] else NO_JOB
  }

  function ByClaim(jobs: map<string, Job>): (string, string) -> bool {
    (a: string, b: string) => ClaimLe(JobOf(jobs, a), JobOf(jobs, b))
  }

  function ReadyJobs(jobs: map<string, Job>): set<string> {
    set id | id in jobs && jobs[id].status == Ready
  }

  function Expired(jobs: map<string, Job>, now: Time): set<string> {
    set id | id in jobs && jobs[id].status == Claiming && jobs[id].lease.Some? && jobs[id].lease.value.expires < now
  }

  /** Scheduled or approved jobs whose chosen start has come. */
  function Promotable(jobs: map<string, Job>, decisions: map<string, Decision>, now: Time): set<string> {
    set id | id in jobs && id in decisions && jobs[id].status in {Scheduled, Approved} && decisions[id].start <= now
  }

  function Claimed(jobs: map<string, Job>, ids: set<string>, worker: string, now: Time): map<string, Job> {
    map id | id in jobs :: if id in ids
                           then jobs[id].(status := Claiming, lease := Some(Lease(worker, now, now + CLAIM_LEASE)))
                           else jobs[id]
  }

  function Recovered(jobs: map<string, Job>, ids: set<string>): map<string, Job> {
    map id | id in jobs :: if id in ids then jobs[id].(status := Ready, lease := None) else jobs[id]
  }

  function Promoted(jobs: map<string, Job>, ids: set<string>): map<string, Job> {
    map id | id in jobs :: if id in ids then jobs[id].(status := Ready) else jobs[id]
  }

  /** A batch of the first k of a pool: none of the pool left behind comes strictly before one taken. */
  ghost predicate FirstK(jobs: map<string, Job>, pool: set<string>, batch: set<string>, k: nat) {
    && batch <= pool
    && |batch| == (if |pool| <= k then |pool| else k)
    && forall a, b :: a in batch && b in pool - batch ==> ClaimLe(JobOf(jobs, a), JobOf(jobs, b))
  }

  // ---- The operations on the store ----

  /** The rows a query returned, in whatever order the database lists them: each id once. */
  ghost predicate Lists(rows: seq<string>, ids: set<string>) {
    && (forall id :: id in rows <==> id in ids)
    && Distinct(rows)
  }

  function Elements(s: seq<string>): set<string> {
    set id | id in s
  }

  lemma {:induction false} DistinctCount(s: seq<string>)
    requires Distinct(s)
    ensures |Elements(s)| == |s|
  {
    if s != [] {
      var front, last := s[..|s| - 1], s[|s| - 1];
      DistinctCount(front);
      assert Elements(s) == Elements(front) + {last};
      assert last !in front;
    }
  }

  /** Nobody of a higher priority rank is left behind, and nobody of the same rank with an earlier deadline. */
  predicate LeavesBehind(taken: Job, left: Job) {
    && !(ClaimRank(left.priority) < ClaimRank(taken.priority))
    && !(ClaimRank(left.priority) == ClaimRank(taken.priority) && left.deadline < taken.deadline)
  }

  /** Whoever is taken from a pool leaves nobody in it behind who should have gone first. */
  ghost predicate TakesFirst(jobs: map<string, Job>, pool: set<string>, batch: set<string>) {
    forall a, b :: a in batch && b in pool && b !in batch ==> LeavesBehind(JobOf(jobs, a), JobOf(jobs, b))
  }

  /** And in a list nobody stands behind someone he should have gone before. */
  ghost predicate InClaimOrder(jobs: map<string, Job>, ids: seq<string>) {
    forall i, j :: 0 <= i < j < |ids| ==> LeavesBehind(JobOf(jobs, ids[i]), JobOf(jobs, ids[j]))
  }

  lemma FirstKTakesFirst(jobs: map<string, Job>, pool: set<string>, batch: set<string>, k: nat)
    requires FirstK(jobs, pool, batch, k)
    ensures TakesFirst(jobs, pool, batch)
  {
  }

  lemma SortedInClaimOrder(jobs: map<string, Job>, ids: seq<string>)
    requires Sorted(ByClaim(jobs), ids)
    ensures InClaimOrder(jobs, ids)
  {
    forall i, j | 0 <= i < j < |ids| ensures LeavesBehind(JobOf(jobs, ids[i]), JobOf(jobs, ids[j])) {
      assert ByClaim(jobs)(ids[i], ids[j]);
    }
  }

  /** A claim is the worker's for two minutes; nobody else's row is touched. */
  lemma ClaimedExact(jobs: map<string, Job>, ids: set<string>, worker: string, now: Time, id: string)
    requires id in jobs
    ensures var after := Claimed(jobs, ids, worker, now);
            && id in after && after[id].priority == jobs[id].priority && after[id].deadline == jobs[id].deadline
            && (id !in ids ==> after[id] == jobs[id])
            && (id in ids ==> after[id].status == Claiming
                              && after[id].lease == Some(Lease(worker, now, now + 2 * MINUTE)))
  {
  }

  /** What ORDER BY, LIMIT and SKIP LOCKED do together: walk the sorted rows, pass over locked ones, stop when full. */
  method SelectSkipLocked(jobs: map<string, Job>, rows: seq<string>, locked: set<string>, batchSize: nat)
    returns (batch: seq<string>)
    requires Lists(rows, ReadyJobs(jobs))
    ensures FirstK(jobs, ReadyJobs(jobs) - locked, Elements(batch), batchSize) && Distinct(batch)
    ensures TakesFirst(jobs, ReadyJobs(jobs) - locked, Elements(batch))
  {
    var sorted := Sort(ByClaim(jobs), rows);
    SortSorts(ByClaim(jobs), rows);
    SortMembers(ByClaim(jobs), rows);
    SortedRowsDistinct(jobs, rows);
    batch := [];
    var i := 0;
    while i < |sorted| && |batch| < batchSize
      invariant i <= |sorted| && |batch| <= batchSize && Distinct(batch)
      invariant Elements(batch) == Elements(sorted[..i]) - locked
    {
      assert Elements(sorted[..i + 1]) == Elements(sorted[..i]) + {sorted[i]};
      assert sorted[i] !in sorted[..i] && forall id :: id in batch ==> id in Elements(batch);
      if sorted[i] !in locked {
        assert Elements(batch + [sorted[i]]) == Elements(batch) + {sorted[i]};
        batch := batch + [sorted[i]];
      }
      i := i + 1;
    }
    WalkedPrefixIsFirstK(jobs, sorted, i, locked, batch, batchSize);
    FirstKTakesFirst(jobs, ReadyJobs(jobs) - locked, Elements(batch), batchSize);
  }

  lemma WalkedPrefixIsFirstK(jobs: map<string, Job>, sorted: seq<string>, i: nat, locked: set<string>,
                             batch: seq<string>, k: nat)
    requires Sorted(ByClaim(jobs), sorted) && (forall id :: id in sorted <==> id in ReadyJobs(jobs))
    requires i <= |sorted| && Distinct(batch) && Elements(batch) == Elements(sorted[..i]) - locked
    requires |batch| == k || (i == |sorted| && |batch| <= k)
    ensures FirstK(jobs, ReadyJobs(jobs) - locked, Elements(batch), k)
  {
    WalkedPrefixCounts(ReadyJobs(jobs), sorted, i, locked, batch, k);
    var pool := ReadyJobs(jobs) - locked;
    forall a, b | a in Elements(batch) && b in pool - Elements(batch) ensures ClaimLe(JobOf(jobs, a), JobOf(jobs, b)) {
      WalkedEarlier(jobs, sorted, i, a, b);
    }
  }

  lemma WalkedPrefixCounts(ready: set<string>, sorted: seq<string>, i: nat, locked: set<string>, batch: seq<string>,
                           k: nat)
    requires (forall id :: id in sorted <==> id in ready) && i <= |sorted| && Distinct(batch)
    requires Elements(batch) == Elements(sorted[..i]) - locked
    requires |batch| == k || (i == |sorted| && |batch| <= k)
    ensures var pool := ready - locked;
            Elements(batch) <= pool && |Elements(batch)| == if |pool| <= k then |pool| else k
  {
    var pool := ready - locked;
    DistinctCount(batch);
    assert forall id :: id in sorted[..i] ==> id in sorted;
    SubsetNoLarger(Elements(batch), pool);
    if i == |sorted| {
      assert sorted[..i] == sorted;
      assert Elements(batch) == pool;
    }
  }

  lemma WalkedEarlier(jobs: map<string, Job>, sorted: seq<string>, i: nat, a: string, b: string)
    requires Sorted(ByClaim(jobs), sorted) && i <= |sorted| && a in sorted[..i] && b in sorted && b !in sorted[..i]
    ensures ClaimLe(JobOf(jobs, a), JobOf(jobs, b))
  {
    var m :| 0 <= m < i && sorted[m] == a;
    var n :| 0 <= n < |sorted| && sorted[n] == b;
    assert forall j :: 0 <= j < i ==> sorted[j] in sorted[..i];
    assert ByClaim(jobs)(sorted[m], sorted[n]);
  }

  lemma {:induction false} SubsetNoLarger(a: set<string>, b: set<string>)
    requires a <= b
    ensures |a| <= |b|
  {
    if a != {} {
      var x :| x in a;
      SubsetNoLarger(a - {x}, b - {x});
    }
  }

  /** The SQLite path: sort the ready rows, take the first batch, lease them one by one. */
  method ClaimSqlite(store: Store, rows: seq<string>, batchSize: nat, worker: string, now: Time)
    returns (claimed: seq<string>)
    requires Lists(rows, ReadyJobs(store.jobs))
    modifies store`jobs
    ensures FirstK(old(store.jobs), ReadyJobs(old(store.jobs)), Elements(claimed), batchSize)
    ensures Sorted(ByClaim(old(store.jobs)), claimed) && Distinct(claimed) && |claimed| <= batchSize
    ensures store.jobs == Claimed(old(store.jobs), Elements(claimed), worker, now)
    ensures TakesFirst(old(store.jobs), ReadyJobs(old(store.jobs)), Elements(claimed))
    ensures InClaimOrder(old(store.jobs), claimed)
  {
    var sorted := Sort(ByClaim(store.jobs), rows);
    claimed := if |sorted| <= batchSize then sorted else sorted[..batchSize];
    FirstOfSorted(store.jobs, rows, batchSize, claimed);
    FirstKTakesFirst(store.jobs, ReadyJobs(store.jobs), Elements(claimed), batchSize);
    SortedInClaimOrder(store.jobs, claimed);
    LeaseRows(store, claimed, worker, now);
  }

  method LeaseRows(store: Store, ids: seq<string>, worker: string, now: Time)
    requires Elements(ids) <= store.jobs.Keys
    modifies store`jobs
    ensures store.jobs == Claimed(old(store.jobs), Elements(ids), worker, now)
  {
    ghost var before := store.jobs;
    for i := 0 to |ids|
      invariant store.jobs == Claimed(before, Elements(ids[..i]), worker, now)
    {
      assert ids[i] in Elements(ids);
      assert Elements(ids[..i + 1]) == Elements(ids[..i]) + {ids[i]};
      var leased := store.jobs[ids[i]].(status := Claiming, lease := Some(Lease(worker, now, now + CLAIM_LEASE)));
      store.jobs := store.jobs[ids[i] := leased];
    }
    assert ids[..|ids|] == ids;
  }

  lemma FirstOfSorted(jobs: map<string, Job>, rows: seq<string>, k: nat, claimed: seq<string>)
    requires Lists(rows, ReadyJobs(jobs))
    requires var sorted := Sort(ByClaim(jobs), rows); claimed == if |sorted| <= k then sorted else sorted[..k]
    ensures FirstK(jobs, ReadyJobs(jobs), Elements(claimed), k)
    ensures Sorted(ByClaim(jobs), claimed) && Distinct(claimed) && Elements(claimed) <= ReadyJobs(jobs)
  {
    var sorted := Sort(ByClaim(jobs), rows);
    SortSorts(ByClaim(jobs), rows);
    SortMembers(ByClaim(jobs), rows);
    SortedRowsDistinct(jobs, rows);
    DistinctCount(rows);
    DistinctCount(claimed);
    assert Elements(rows) == ReadyJobs(jobs);
    forall a, b | a in Elements(claimed) && b in ReadyJobs(jobs) - Elements(claimed)
      ensures ClaimLe(JobOf(jobs, a), JobOf(jobs, b))
    {
    }
  }

  lemma SortedRowsDistinct(jobs: map<string, Job>, rows: seq<string>)
    requires Distinct(rows)
    ensures Distinct(Sort(ByClaim(jobs), rows))
  {
    SortPermutes(ByClaim(jobs), rows);
    PermutedDistinct(Sort(ByClaim(jobs), rows), rows);
  }

  /** Recovery puts back exactly the claims whose lease has run out, without their leases. */
  lemma RecoveredExact(jobs: map<string, Job>, now: Time, id: string)
    requires id in jobs
    ensures var job, after := jobs[id], Recovered(jobs, Expired(jobs, now));
            var ranOut := job.status == Claiming && job.lease.Some? && job.lease.value.expires < now;
            id in after && after[id] == if ranOut then job.(status := Ready, lease := None) else job
  {
  }

  /** Promotion makes ready exactly the scheduled and approved jobs whose decision is due. */
  lemma PromotedExact(jobs: map<string, Job>, decisions: map<string, Decision>, now: Time, id: string)
    requires id in jobs
    ensures var job, after := jobs[id], Promoted(jobs, Promotable(jobs, decisions, now));
            var due := id in decisions && decisions[id].start <= now;
            id in after && after[id] == if due && (job.status == Scheduled || job.status == Approved)
                                        then job.(status := Ready) else job
  {
  }

  /** Puts every claim whose lease has run out back into the queue. */
  method RecoverExpiredClaims(store: Store, rows: seq<string>, now: Time) returns (count: nat)
    requires Lists(rows, Expired(store.jobs, now))
    modifies store`jobs
    ensures store.jobs == Recovered(old(store.jobs), Expired(old(store.jobs), now))
    ensures count == |Expired(old(store.jobs), now)|
  {
    ghost var before := store.jobs;
    DistinctCount(rows);
    for i := 0 to |rows|
      invariant store.jobs == Recovered(before, Elements(rows[..i]))
    {
      assert rows[i] in Expired(before, now);
      assert Elements(rows[..i + 1]) == Elements(rows[..i]) + {rows[i]};
      store.jobs := store.jobs[rows[i] := store.jobs[rows[i]].(status := Ready, lease := None)];
    }
    assert rows[..|rows|] == rows && Elements(rows) == Expired(before, now);
    count := |rows|;
  }

  /** The bridge from approval to the dispatch queue. */
  method PromoteScheduledToReady(store: Store, rows: seq<string>, now: Time) returns (count: nat)
    requires Lists(rows, Promotable(store.jobs, store.decisions, now))
    modifies store`jobs
    ensures store.jobs == Promoted(old(store.jobs), Promotable(old(store.jobs), store.decisions, now))
    ensures count == |Promotable(old(store.jobs), store.decisions, now)|
  {
    ghost var before := store.jobs;
    DistinctCount(rows);
    for i := 0 to |rows|
      invariant store.jobs == Promoted(before, Elements(rows[..i]))
    {
      assert rows[i] in Promotable(before, store.decisions, now);
      assert Elements(rows[..i + 1]) == Elements(rows[..i]) + {rows[i]};
      store.jobs := store.jobs[rows[i] := store.jobs[rows[i]].(status := Ready)];
    }
    assert rows[..|rows|] == rows && Elements(rows) == Promotable(before, store.decisions, now);
    count := |rows|;
  }
}
