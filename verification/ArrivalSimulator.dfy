/** Event-driven workload arrivals (app/arrival/simulator.py). */
module ArrivalSimulation {
  import opened Prelude
  import opened Sorting

  // 0001-01-01, the earliest instant the source can represent; rows without a submission time sort there.
  const EARLIEST: Time := -62_135_596_800 * SECOND

  type Instant = t: Time | EARLIEST <= t witness EARLIEST

  /** A dataset row: its identifier and, when the file gives one, its submission time. */
  datatype Row = Row(id: string, submit: Option<Instant>)

  datatype State = Pending | Arrived | Submitted | FailedIngest

  datatype Record = Record(id: string, submit: Instant, state: State, backlog: bool, releasedAt: Option<Instant>)
  {
    predicate Ready(t: Instant) { state == Pending && submit <= t }
  }

  function ByArrival(): (Row, Row) -> bool {
    (a: Row, b: Row) =>
      var ta, tb := a.submit.GetOr(EARLIEST), b.submit.GetOr(EARLIEST);
      ta < tb || (ta == tb && StringLe(a.id, b.id))
  }

  lemma ByArrivalIsTotal()
    ensures TotalPreorder(ByArrival())
  {
    forall a: Row, b: Row ensures ByArrival()(a, b) || ByArrival()(b, a) {
      StringLeTotal(a.id, b.id);
    }
    forall a: Row, b: Row, c: Row | ByArrival()(a, b) && ByArrival()(b, c) ensures ByArrival()(a, c) {
      if StringLe(a.id, b.id) && StringLe(b.id, c.id) {
        StringLeTransitive(a.id, b.id, c.id);
      }
    }
  }

  /** The rows in arrival order, cut to the configured number when that is positive. */
  function Arranged(dataset: seq<Row>, maxJobs: Option<int>): seq<Row> {
    var sorted := Sort(ByArrival(), dataset);
    if maxJobs.Some? && 0 < maxJobs.value < |sorted| then sorted[..maxJobs.value] else sorted
  }

  function RecordOf(row: Row, start: Instant): Record {
    var submit := row.submit.GetOr(start);
    Record(row.id, submit, Pending, submit <= start, None)
  }

  /** When a job may be released: never before the simulation starts. */
  function ReleaseTime(start: Instant, r: Record): Instant {
    Max(start, r.submit)
  }

  /** Release times never decrease along the list. */
  ghost predicate InReleaseOrder(start: Instant, jobs: seq<Record>) {
    forall i, j :: 0 <= i < j < |jobs| ==> ReleaseTime(start, jobs[i]) <= ReleaseTime(start, jobs[j])
  }

  /** Sorting by submission makes the list release-ordered, even with missing times that sort first. */
  lemma SortedRowsInReleaseOrder(rows: seq<Row>, start: Instant, jobs: seq<Record>)
    requires Sorted(ByArrival(), rows) && |jobs| == |rows|
    requires forall i :: 0 <= i < |rows| ==> jobs[i] == RecordOf(rows[i], start)
    ensures InReleaseOrder(start, jobs)
  {
  }

  lemma ArrangedSorted(dataset: seq<Row>, maxJobs: Option<int>)
    ensures Sorted(ByArrival(), Arranged(dataset, maxJobs))
    ensures forall r :: r in Arranged(dataset, maxJobs) ==> r in dataset
    ensures dataset == [] <==> Arranged(dataset, maxJobs) == []
  {
    ByArrivalIsTotal();
    SortSorts(ByArrival(), dataset);
    SortMembers(ByArrival(), dataset);
  }

  /** Whether a row goes before another: by submission, rows without one first, and by identifier among equals. */
  predicate GoesBefore(a: Row, b: Row) {
    if a.submit == b.submit then a.id != b.id && StringLe(a.id, b.id)
    else a.submit.None? || (b.submit.Some? && a.submit.value < b.submit.value)
  }

  /** The cut keeps as many rows as asked for, in order, and drops none that goes before one it keeps. */
  lemma ArrangedExact(dataset: seq<Row>, maxJobs: Option<int>) returns (dropped: seq<Row>)
    ensures var kept := Arranged(dataset, maxJobs);
            && |kept| == (if maxJobs.Some? && 0 < maxJobs.value < |dataset| then maxJobs.value else |dataset|)
            && multiset(kept) + multiset(dropped) == multiset(dataset)
            && NoOvertaking(kept)
            && forall a, b :: a in kept && b in dropped ==> !Overtakes(b, a)
  {
    var sorted, kept := Sort(ByArrival(), dataset), Arranged(dataset, maxJobs);
    dropped := sorted[|kept|..];
    ByArrivalIsTotal();
    SortSorts(ByArrival(), dataset);
    SortPermutes(ByArrival(), dataset);
    assert kept == sorted[..|kept|] && sorted == kept + dropped;
    SortedNoOvertaking(sorted);
    SortedNoOvertaking(kept);
    forall a, b | a in kept && b in dropped ensures !Overtakes(b, a) {
      CutNoOvertaking(sorted, |kept|, a, b);
    }
  }

  ghost predicate NoOvertaking(rows: seq<Row>) {
    forall i, j :: 0 <= i < j < |rows| ==> !Overtakes(rows[j], rows[i])
  }

  lemma SortedNoOvertaking(sorted: seq<Row>)
    requires Sorted(ByArrival(), sorted)
    ensures NoOvertaking(sorted)
  {
    forall i, j | 0 <= i < j < |sorted| ensures !Overtakes(sorted[j], sorted[i]) {
      InOrderNoOvertaking(sorted[i], sorted[j]);
    }
  }

  lemma CutNoOvertaking(sorted: seq<Row>, cut: nat, a: Row, b: Row)
    requires cut <= |sorted| && a in sorted[..cut] && b in sorted[cut..]
    requires NoOvertaking(sorted)
    ensures !Overtakes(b, a)
  {
    var i :| 0 <= i < cut && sorted[i] == a;
    var j :| cut <= j < |sorted| && sorted[j] == b;
  }

  /** Strictly before; a submission at the earliest instant there is counts like a missing one. */
  predicate Overtakes(a: Row, b: Row) {
    && GoesBefore(a, b)
    && !(a.submit == Some(EARLIEST) && b.submit.None?)
    && !(a.submit.None? && b.submit == Some(EARLIEST))
  }

  lemma InOrderNoOvertaking(a: Row, b: Row)
    requires ByArrival()(a, b)
    ensures !Overtakes(b, a)
  {
    if a.submit == b.submit && StringLe(b.id, a.id) {
      StringLeAntisymmetric(a.id, b.id);
    }
  }

  /** A job is backlog exactly when it is released at the simulation start. */
  lemma BacklogIff(row: Row, start: Instant)
    ensures RecordOf(row, start).backlog <==> ReleaseTime(start, RecordOf(row, start)) == start
    ensures RecordOf(row, start).state == Pending && RecordOf(row, start).id == row.id
  {
  }

  function ReadyIds(jobs: seq<Record>, t: Instant): seq<nat> {
    if jobs == [] then []
    else ReadyIds(jobs[..|jobs| - 1], t) + (if jobs[|jobs| - 1].Ready(t) then [|jobs| - 1] else [])
  }

  ghost predicate Increasing(s: seq<nat>) {
    forall i, j :: 0 <= i < j < |s| ==> s[i] < s[j]
  }

  lemma {:induction false} ReadyIdsExact(jobs: seq<Record>, t: Instant)
    ensures Increasing(ReadyIds(jobs, t))
    ensures forall i: nat :: i in ReadyIds(jobs, t) <==> i < |jobs| && jobs[i].Ready(t)
  {
    if jobs != [] {
      var n := |jobs| - 1;
      ReadyIdsExact(jobs[..n], t);
      var front := ReadyIds(jobs[..n], t);
      forall i: nat ensures i in ReadyIds(jobs, t) <==> i < |jobs| && jobs[i].Ready(t) {
        assert i in ReadyIds(jobs, t) <==> i in front || (i == n && jobs[n].Ready(t));
        assert i < n ==> jobs[..n][i] == jobs[i];
      }
      assert forall k :: 0 <= k < |front| ==> front[k] in front;
    }
  }

  function Tally(jobs: seq<Record>, state: State): nat {
    if jobs == [] then 0
    else Tally(jobs[..|jobs| - 1], state) + (if jobs[|jobs| - 1].state == state then 1 else 0)
  }

  lemma {:induction false} TallyUpdate(jobs: seq<Record>, i: nat, r: Record, state: State)
    requires i < |jobs|
    ensures Tally(jobs[i := r], state) + (if jobs[i].state == state then 1 else 0)
         == Tally(jobs, state) + (if r.state == state then 1 else 0)
  {
    var n := |jobs| - 1;
    if i < n {
      TallyUpdate(jobs[..n], i, r, state);
      assert jobs[i := r][..n] == jobs[..n][i := r];
    } else {
      assert jobs[i := r][..n] == jobs[..n];
    }
  }

  lemma {:induction false} TallyZero(jobs: seq<Record>, state: State)
    ensures Tally(jobs, state) == 0 <==> forall i :: 0 <= i < |jobs| ==> jobs[i].state != state
  {
    if jobs != [] {
      TallyZero(jobs[..|jobs| - 1], state);
      var n := |jobs| - 1;
      assert forall i :: 0 <= i < n ==> jobs[..n][i] == jobs[i];
    }
  }

  /** Once nothing is pending, every job either reached ingest or failed there. */
  lemma {:induction false} TallyAll(jobs: seq<Record>)
    requires forall i :: 0 <= i < |jobs| ==> jobs[i].state == Submitted || jobs[i].state == FailedIngest
    ensures Tally(jobs, Submitted) + Tally(jobs, FailedIngest) == |jobs|
  {
    if jobs != [] {
      TallyAll(jobs[..|jobs| - 1]);
    }
  }

  /** A record after its release: what the ingest callback answered decides its final state. */
  function ReleasedRecord(r: Record, t: Instant, accepted: bool): Record {
    r.(state := if accepted then Submitted else FailedIngest, releasedAt := Some(t))
  }

  datatype Summary = Summary(total: nat, released: nat, succeeded: nat, failed: nat, backlog: nat,
                             start: Instant, end: Instant)

  function BacklogCount(jobs: seq<Record>): nat {
    if jobs == [] then 0
    else BacklogCount(jobs[..|jobs| - 1]) + (if jobs[|jobs| - 1].backlog then 1 else 0)
  }

  /** The log names exactly the released jobs, each once, and their states are what the callback answered. */
  ghost predicate Consistent(start: Instant, accepts: nat -> bool, jobs: seq<Record>, log: seq<nat>) {
    && InReleaseOrder(start, jobs)
    && (forall a, b :: 0 <= a < b < |log| ==> log[a] != log[b])
    && (forall k :: 0 <= k < |log| ==>
          log[k] < |jobs| && jobs[log[k]].state == if accepts(k) then Submitted else FailedIngest)
    && (forall i: nat :: i < |jobs| ==> (i in log <==> jobs[i].state != Pending))
  }

  ghost predicate InRange(jobs: seq<Record>, ids: seq<nat>) {
    forall i :: i in ids ==> i < |jobs|
  }

  /** The jobs after releasing some of them in order, when the callback has been called so often already. */
  ghost function ReleaseAll(accepts: nat -> bool, jobs: seq<Record>, ids: seq<nat>, calls: nat, t: Instant)
    : (r: seq<Record>)
    requires InRange(jobs, ids)
    ensures |r| == |jobs|
  {
    if ids == [] then jobs
    else
      var n := |ids| - 1;
      assert (forall i :: i in ids[..n] ==> i in ids) && ids[n] in ids;
      var before := ReleaseAll(accepts, jobs, ids[..n], calls, t);
      before[ids[n] := ReleasedRecord(before[ids[n]], t, accepts(calls + n))]
  }

  lemma PrefixInRange(jobs: seq<Record>, ids: seq<nat>, k: nat)
    requires InRange(jobs, ids) && k <= |ids|
    ensures InRange(jobs, ids[..k])
  {
    assert forall i :: i in ids[..k] ==> i in ids;
  }

  lemma ReleaseNext(accepts: nat -> bool, jobs: seq<Record>, ids: seq<nat>, calls: nat, t: Instant, k: nat)
    requires InRange(jobs, ids) && k < |ids|
    ensures InRange(jobs, ids[..k]) && InRange(jobs, ids[..k + 1]) && ids[..k + 1] == ids[..k] + [ids[k]]
    ensures var before := ReleaseAll(accepts, jobs, ids[..k], calls, t);
            && ids[k] < |before|
            && ReleaseAll(accepts, jobs, ids[..k + 1], calls, t)
            == before[ids[k] := ReleasedRecord(before[ids[k]], t, accepts(calls + k))]
  {
    PrefixInRange(jobs, ids, k);
    PrefixInRange(jobs, ids, k + 1);
    assert ids[..k + 1][..k] == ids[..k] && ids[k] in ids;
  }

  lemma {:induction false} ReleaseAllKeeps(accepts: nat -> bool, jobs: seq<Record>, ids: seq<nat>, calls: nat,
                                           t: Instant, i: nat)
    requires InRange(jobs, ids) && i < |jobs| && i !in ids
    ensures ReleaseAll(accepts, jobs, ids, calls, t)[i] == jobs[i]
  {
    if ids != [] {
      var n := |ids| - 1;
      assert forall k :: k in ids[..n] ==> k in ids;
      assert ids[n] in ids;
      ReleaseAllKeeps(accepts, jobs, ids[..n], calls, t, i);
    }
  }

  lemma {:induction false} ReleaseAllHits(accepts: nat -> bool, jobs: seq<Record>, ids: seq<nat>, calls: nat,
                                          t: Instant, k: nat)
    requires InRange(jobs, ids) && Increasing(ids) && k < |ids|
    ensures ids[k] < |jobs|
    ensures ReleaseAll(accepts, jobs, ids, calls, t)[ids[k]] == ReleasedRecord(jobs[ids[k]], t, accepts(calls + k))
  {
    var n := |ids| - 1;
    assert forall k :: k in ids[..n] ==> k in ids;
    assert ids[k] in ids;
    if k < n {
      ReleaseAllHits(accepts, jobs, ids[..n], calls, t, k);
    } else {
      ReleaseAllKeeps(accepts, jobs, ids[..n], calls, t, ids[n]);
    }
  }

  lemma ReleaseAllExact(accepts: nat -> bool, jobs: seq<Record>, ids: seq<nat>, calls: nat, t: Instant, i: nat)
    requires InRange(jobs, ids) && Increasing(ids) && i < |jobs|
    ensures var after := ReleaseAll(accepts, jobs, ids, calls, t)[i];
            if i in ids then ReleasedAs(after, jobs[i], t) else after == jobs[i]
  {
    if i in ids {
      var k :| 0 <= k < |ids| && ids[k] == i;
      ReleaseAllHits(accepts, jobs, ids, calls, t, k);
    } else {
      ReleaseAllKeeps(accepts, jobs, ids, calls, t, i);
    }
  }

  lemma ReleaseAllConsistent(start: Instant, accepts: nat -> bool, jobs: seq<Record>, log: seq<nat>, ids: seq<nat>,
                             t: Instant)
    requires Consistent(start, accepts, jobs, log) && InRange(jobs, ids) && Increasing(ids)
    requires forall i :: i in ids ==> jobs[i].state == Pending
    ensures Consistent(start, accepts, ReleaseAll(accepts, jobs, ids, |log|, t), log + ids)
  {
    var after := ReleaseAll(accepts, jobs, ids, |log|, t);
    ReleaseAllAnswers(start, accepts, jobs, log, ids, t);
    forall i: nat | i < |jobs|
      ensures after[i].submit == jobs[i].submit
      ensures after[i].state != Pending <==> i in log + ids
    {
      ReleaseAllExact(accepts, jobs, ids, |log|, t, i);
    }
    forall a, b | 0 <= a < b < |log + ids| ensures (log + ids)[a] != (log + ids)[b] {
      if a < |log| <= b {
        assert log[a] in log && ids[b - |log|] in ids;
      }
    }
  }

  lemma ReleaseAllAnswers(start: Instant, accepts: nat -> bool, jobs: seq<Record>, log: seq<nat>, ids: seq<nat>,
                          t: Instant)
    requires Consistent(start, accepts, jobs, log) && InRange(jobs, ids) && Increasing(ids)
    requires forall i :: i in ids ==> jobs[i].state == Pending
    ensures var after := ReleaseAll(accepts, jobs, ids, |log|, t);
            forall k :: 0 <= k < |log + ids| ==>
              (log + ids)[k] < |jobs| && after[(log + ids)[k]].state == if accepts(k) then Submitted else FailedIngest
  {
    forall k | 0 <= k < |log + ids|
      ensures (log + ids)[k] < |jobs|
      ensures ReleaseAll(accepts, jobs, ids, |log|, t)[(log + ids)[k]].state
           == if accepts(k) then Submitted else FailedIngest
    {
      if k < |log| {
        assert log[k] in log;
        ReleaseAllKeeps(accepts, jobs, ids, |log|, t, log[k]);
      } else {
        ReleaseAllHits(accepts, jobs, ids, |log|, t, k - |log|);
      }
    }
  }

  lemma {:induction false} ReleaseAllTally(accepts: nat -> bool, jobs: seq<Record>, ids: seq<nat>, calls: nat,
                                           t: Instant)
    requires InRange(jobs, ids) && Increasing(ids) && forall i :: i in ids ==> jobs[i].state == Pending
    ensures Tally(ReleaseAll(accepts, jobs, ids, calls, t), Pending) + |ids| == Tally(jobs, Pending)
  {
    if ids != [] {
      var n := |ids| - 1;
      assert (forall k :: k in ids[..n] ==> k in ids) && ids[n] in ids;
      ReleaseAllTally(accepts, jobs, ids[..n], calls, t);
      var before := ReleaseAll(accepts, jobs, ids[..n], calls, t);
      assert before[ids[n]] == jobs[ids[n]] by {
        ReleaseAllKeeps(accepts, jobs, ids[..n], calls, t, ids[n]);
      }
      ReleaseTally(before, ids[n], t, accepts(calls + n));
    }
  }

  lemma ReleaseTally(jobs: seq<Record>, i: nat, t: Instant, accepted: bool)
    requires i < |jobs| && jobs[i].state == Pending
    ensures Tally(jobs[i := ReleasedRecord(jobs[i], t, accepted)], Pending) + 1 == Tally(jobs, Pending)
  {
    TallyUpdate(jobs, i, ReleasedRecord(jobs[i], t, accepted), Pending);
  }

  class Simulator {
    const accepts: nat -> bool  // the ingest callback's answers, in the order it is called
    var jobs: seq<Record>
    var start: Instant
    var clock: Instant
    var calls: nat              // how often the callback has been called
    ghost var log: seq<nat>       // the jobs handed to ingest, in order
    ghost var ticks: seq<Instant> // every value the clock was set to, in order

    constructor (accepts: nat -> bool, now: Instant)
      ensures Valid() && jobs == [] && start == clock == now && this.accepts == accepts
    {
      this.accepts, jobs, start, clock, calls := accepts, [], now, now, 0;
      log, ticks := [], [];
    }

    ghost predicate Valid()
      reads this
    {
      calls == |log| && Consistent(start, accepts, jobs, log)
    }

    /** Sorts and cuts the dataset, fixes the simulation start, and lists every job as pending. */
    method LoadDataset(dataset: seq<Row>, maxJobs: Option<int>, configuredStart: Option<Instant>, now: Instant)
      modifies this
      ensures Valid() && log == []
      ensures |jobs| == |Arranged(dataset, maxJobs)|
      ensures dataset != [] ==>
                var rows := Arranged(dataset, maxJobs);
                && rows != [] && start == clock == configuredStart.GetOr(rows[0].submit.GetOr(now))
                && forall i :: 0 <= i < |rows| ==> jobs[i] == RecordOf(rows[i], start)
      ensures dataset == [] ==> start == old(start) && clock == old(clock)
    {
      var rows := Arranged(dataset, maxJobs);
      ArrangedSorted(dataset, maxJobs);
      jobs, calls, log, ticks := [], 0, [], [];
      if dataset == [] {
        return;
      }
      start := configuredStart.GetOr(rows[0].submit.GetOr(now));
      clock := start;
      for i := 0 to |rows|
        invariant |jobs| == i && forall k :: 0 <= k < i ==> jobs[k] == RecordOf(rows[k], start)
        invariant log == [] && calls == 0 && start == clock == configuredStart.GetOr(rows[0].submit.GetOr(now))
      {
        jobs := jobs + [RecordOf(rows[i], start)];
      }
      SortedRowsInReleaseOrder(rows, start, jobs);
    }

    /** Sets the clock and releases, in list order, every pending job submitted by then. */
    method StepToTime(target: Instant) returns (arrived: seq<nat>)
      requires Valid()
      modifies this
      ensures Valid() && clock == target && start == old(start) && ticks == old(ticks) + [target]
      ensures arrived == ReadyIds(old(jobs), target) && log == old(log) + arrived
      ensures InRange(old(jobs), arrived) && jobs == ReleaseAll(accepts, old(jobs), arrived, |old(log)|, target)
    {
      clock := target;
      ticks := ticks + [target];
      arrived := ReadyIds(jobs, target);
      ReadyIdsExact(jobs, target);
      ReleaseAllConsistent(start, accepts, jobs, log, arrived, target);
      ReleaseEach(arrived, target);
    }

    method ReleaseEach(ids: seq<nat>, target: Instant)
      requires InRange(jobs, ids) && calls == |log|
      modifies this
      ensures calls == |log| && log == old(log) + ids
      ensures jobs == ReleaseAll(accepts, old(jobs), ids, |old(log)|, target)
      ensures (clock, start, ticks) == (old(clock), old(start), old(ticks))
    {
      ghost var before, oldLog := jobs, log;
      for k := 0 to |ids|
        invariant InRange(before, ids[..k]) && jobs == ReleaseAll(accepts, before, ids[..k], |oldLog|, target)
        invariant calls == |log| && log == oldLog + ids[..k]
        invariant (clock, start, ticks) == (old(clock), old(start), old(ticks))
      {
        ReleaseNext(accepts, before, ids, |oldLog|, target, k);
        Release(ids[k], target);
      }
      assert ids[..|ids|] == ids;
    }

    /** One job arrives and goes to ingest; a failure there is recorded, never propagated. */
    method Release(i: nat, target: Instant)
      requires i < |jobs| && calls == |log|
      modifies this
      ensures jobs == old(jobs)[i := ReleasedRecord(old(jobs)[i], target, accepts(|old(log)|))]
      ensures log == old(log) + [i] && calls == |log|
      ensures (clock, start, ticks) == (old(clock), old(start), old(ticks))
    {
      var answer := accepts(calls);
      jobs := jobs[i := jobs[i].(state := Arrived, releasedAt := Some(target))];
      jobs := jobs[i := jobs[i].(state := if answer then Submitted else FailedIngest)];
      calls, log := calls + 1, log + [i];
    }

    /** Runs until nothing is pending; each job goes to ingest once, in list order, at its release time. */
    method Run() returns (s: Summary)
      requires Valid()
      modifies this
      ensures Valid() && start == old(start)
      ensures if old(jobs) == [] then jobs == [] && (ticks, log) == (old(ticks), old(log))
              else Progress(start, old(jobs), old(log), jobs, log, clock) && ClockRuns(start, old(ticks), ticks, clock)
      ensures forall i :: 0 <= i < |jobs| ==> jobs[i].state != Pending
      ensures s.total == |jobs| == s.released == s.succeeded + s.failed && s.backlog == BacklogCount(jobs)
      ensures s.succeeded == Tally(jobs, Submitted) && s.start == start
      ensures s.end == if jobs == [] then start else clock
    {
      if jobs == [] {
        return Summary(0, 0, 0, 0, 0, start, start);
      }
      ghost var before, oldLog, oldTicks := jobs, log, ticks;
      NoProgressYet(start, before, oldLog);
      var backlog := StepToTime(start);
      ProgressStep(start, accepts, before, oldLog, before, oldLog, start - 1, backlog, start);
      while Tally(jobs, Pending) > 0
        invariant Valid() && start == old(start) <= clock
        invariant Progress(start, before, oldLog, jobs, log, clock) && ClockRuns(start, oldTicks, ticks, clock)
        decreases Tally(jobs, Pending)
      {
        var next := FirstPending(jobs);
        var nextTime := Max(clock, jobs[next].submit);
        NextIsNext(start, before, oldLog, jobs, log, clock, next);
        ProgressStep(start, accepts, before, oldLog, jobs, log, clock, ReadyIds(jobs, nextTime), nextTime);
        ReadyTally(accepts, jobs, |log|, nextTime, next);
        ClockTicks(start, oldTicks, ticks, clock, nextTime);
        var arrived := StepToTime(nextTime);
      }
      AllReleased(start, accepts, jobs, log);
      s := Summary(|jobs|, |jobs| - Tally(jobs, Pending), Tally(jobs, Submitted), Tally(jobs, FailedIngest),
                   BacklogCount(jobs), start, clock);
    }
  }

  lemma AllReleased(start: Instant, accepts: nat -> bool, jobs: seq<Record>, log: seq<nat>)
    requires Consistent(start, accepts, jobs, log) && Tally(jobs, Pending) == 0
    ensures forall i :: 0 <= i < |jobs| ==> jobs[i].state != Pending
    ensures Tally(jobs, Submitted) + Tally(jobs, FailedIngest) == |jobs|
  {
    TallyZero(jobs, Pending);
    forall i | 0 <= i < |jobs| ensures jobs[i].state == Submitted || jobs[i].state == FailedIngest {
      assert i in log;
    }
    TallyAll(jobs);
  }

  /** A step to the first pending job's time releases at least that job. */
  lemma ReadyTally(accepts: nat -> bool, jobs: seq<Record>, calls: nat, t: Instant, next: nat)
    requires next < |jobs| && jobs[next].Ready(t)
    ensures InRange(jobs, ReadyIds(jobs, t))
    ensures Tally(ReleaseAll(accepts, jobs, ReadyIds(jobs, t), calls, t), Pending) < Tally(jobs, Pending)
  {
    ReadyIdsExact(jobs, t);
    assert next in ReadyIds(jobs, t);
    ReleaseAllTally(accepts, jobs, ReadyIds(jobs, t), calls, t);
  }

  /** Since the run began the clock was first set to the simulation start and has never gone back. */
  ghost predicate ClockRuns(start: Instant, before: seq<Instant>, ticks: seq<Instant>, clock: Instant) {
    && |before| < |ticks| && ticks[..|before|] == before
    && ticks[|before|] == start && ticks[|ticks| - 1] == clock
    && forall i, j :: |before| <= i < j < |ticks| ==> ticks[i] <= ticks[j]
  }

  lemma ClockTicks(start: Instant, before: seq<Instant>, ticks: seq<Instant>, clock: Instant, t: Instant)
    requires ClockRuns(start, before, ticks, clock) && clock <= t
    ensures ClockRuns(start, before, ticks + [t], t)
  {
  }

  /** The same job, released at the given instant. */
  ghost predicate ReleasedAs(after: Record, before: Record, t: Instant) {
    && (after.id, after.submit, after.backlog) == (before.id, before.submit, before.backlog)
    && after.state != Pending && after.releasedAt == Some(t)
  }

  /**
   * How far a run has come at a clock value: exactly the jobs pending at first whose release time has come are
   * released, each stamped with that time, and handed to ingest once, in list order.
   */
  ghost predicate Progress(start: Instant, before: seq<Record>, oldLog: seq<nat>, jobs: seq<Record>, log: seq<nat>,
                           clock: Time) {
    && |jobs| == |before| && |oldLog| <= |log| && log[..|oldLog|] == oldLog
    && Increasing(log[|oldLog|..])
    && (forall i: nat :: i in log[|oldLog|..] <==> i < |before| && Released(start, before[i], clock))
    && forall i :: 0 <= i < |before| ==>
         if Released(start, before[i], clock)
         then ReleasedAs(jobs[i], before[i], ReleaseTime(start, before[i]))
         else jobs[i] == before[i]
  }

  ghost predicate Released(start: Instant, r: Record, clock: Time) {
    r.state == Pending && ReleaseTime(start, r) <= clock
  }

  predicate Awaiting(start: Instant, r: Record, clock: Time) {
    r.state == Pending && clock < ReleaseTime(start, r)
  }

  /** Of the jobs still waiting at a clock value, those submitted by t are to be released at t itself. */
  ghost predicate DueExactlyAt(start: Instant, before: seq<Record>, clock: Time, t: Instant) {
    forall i :: 0 <= i < |before| && Awaiting(start, before[i], clock) && before[i].submit <= t
      ==> ReleaseTime(start, before[i]) == t
  }

  lemma NoProgressYet(start: Instant, jobs: seq<Record>, log: seq<nat>)
    ensures Progress(start, jobs, log, jobs, log, start - 1)
  {
  }

  function FirstPending(jobs: seq<Record>): (i: nat)
    requires Tally(jobs, Pending) > 0
    ensures i < |jobs| && jobs[i].state == Pending && forall j :: 0 <= j < i ==> jobs[j].state != Pending
  {
    var front := jobs[..|jobs| - 1];
    if Tally(front, Pending) > 0 then FirstPending(front)
    else
      TallyZero(front, Pending);
      assert forall j :: 0 <= j < |front| ==> front[j] == jobs[j];
      |jobs| - 1
  }

  /** The first pending job lies ahead of the clock, and whatever else is due by its time is due exactly then. */
  lemma NextIsNext(start: Instant, before: seq<Record>, oldLog: seq<nat>, jobs: seq<Record>, log: seq<nat>,
                   clock: Instant, next: nat)
    requires InReleaseOrder(start, before) && Progress(start, before, oldLog, jobs, log, clock) && start <= clock
    requires next < |jobs| && jobs[next].state == Pending && forall j :: 0 <= j < next ==> jobs[j].state != Pending
    ensures var t := Max(clock, jobs[next].submit);
            clock < t && DueExactlyAt(start, before, clock, t)
  {
  }

  lemma ProgressStep(start: Instant, accepts: nat -> bool, before: seq<Record>, oldLog: seq<nat>, jobs: seq<Record>,
                     log: seq<nat>, clock: Time, arrived: seq<nat>, t: Instant)
    requires InReleaseOrder(start, before) && Progress(start, before, oldLog, jobs, log, clock)
    requires start <= t && start - 1 <= clock < t
    requires DueExactlyAt(start, before, clock, t)
    requires arrived == ReadyIds(jobs, t)
    ensures InRange(jobs, arrived)
    ensures Progress(start, before, oldLog, ReleaseAll(accepts, jobs, arrived, |log|, t), log + arrived, t)
  {
    ReadyIdsExact(jobs, t);
    assert (log + arrived)[|oldLog|..] == log[|oldLog|..] + arrived;
    var after := ReleaseAll(accepts, jobs, arrived, |log|, t);
    forall i: nat | i < |before|
      ensures i in arrived <==> Released(start, before[i], t) && !Released(start, before[i], clock)
      ensures if Released(start, before[i], t) then ReleasedAs(after[i], before[i], ReleaseTime(start, before[i]))
              else after[i] == before[i]
    {
      ReleaseAllExact(accepts, jobs, arrived, |log|, t, i);
    }
    ArrivedLater(start, before, log[|oldLog|..], arrived, clock);
  }

  /** Whoever is released after the clock comes later in the list than whoever was released by then. */
  lemma ArrivedLater(start: Instant, before: seq<Record>, done: seq<nat>, arrived: seq<nat>, clock: Time)
    requires InReleaseOrder(start, before) && Increasing(done) && Increasing(arrived)
    requires forall i: nat :: i in done ==> i < |before| && ReleaseTime(start, before[i]) <= clock
    requires forall i: nat :: i in arrived ==> i < |before| && clock < ReleaseTime(start, before[i])
    ensures Increasing(done + arrived)
  {
    forall a, b | 0 <= a < |done| && 0 <= b < |arrived| ensures done[a] < arrived[b] {
      assert done[a] in done && arrived[b] in arrived;
    }
  }

  lemma {:induction false} IncreasingCover(s: seq<nat>, n: nat)
    requires Increasing(s) && forall i: nat :: i in s <==> i < n
    ensures |s| == n && forall k :: 0 <= k < |s| ==> s[k] == k
  {
    if s == [] {
      assert 0 in s <==> 0 < n;
    } else {
      var last := |s| - 1;
      assert s[last] in s;
      assert n - 1 in s;
      assert s[last] == n - 1 by {
        var k :| 0 <= k < |s| && s[k] == n - 1;
      }
      assert s == s[..last] + [s[last]];
      assert forall k :: 0 <= k < last ==> s[..last][k] == s[k];
      forall i: nat ensures i in s[..last] <==> i < n - 1 {
        assert i in s <==> i in s[..last] || i == n - 1;
      }
      IncreasingCover(s[..last], n - 1);
    }
  }

  /** From a freshly loaded dataset a run ingests every job exactly once, in sorted order, each at its release time. */
  lemma FreshRunIngestsAllInOrder(start: Instant, rows: seq<Row>, before: seq<Record>, after: seq<Record>,
                                  log: seq<nat>, clock: Time)
    requires |before| == |rows| && forall i :: 0 <= i < |rows| ==> before[i] == RecordOf(rows[i], start)
    requires Progress(start, before, [], after, log, clock)
    requires forall i :: 0 <= i < |after| ==> after[i].state != Pending
    ensures |log| == |rows| && forall k :: 0 <= k < |log| ==> log[k] == k
    ensures forall i :: 0 <= i < |rows| ==>
              after[i].id == rows[i].id && after[i].releasedAt == Some(Max(start, rows[i].submit.GetOr(start)))
  {
    assert log[0..] == log;
    forall i: nat | i < |before| ensures i in log {
      assert after[i].state != before[i].state;
    }
    IncreasingCover(log, |before|);
  }

  /**
   * A simulation from a dataset file's rows: every row kept is ingested exactly once, in sorted order, at the later
   * of the simulation start and its submission time, and its final state is what ingest answered.
   */
  method RunDynamicArrivalSimulation(accepts: nat -> bool, dataset: seq<Row>, maxJobs: Option<int>,
                                     configuredStart: Option<Instant>, now: Instant)
    returns (sim: Simulator, s: Summary)
    ensures fresh(sim) && sim.accepts == accepts
    ensures Ingested(Arranged(dataset, maxJobs), sim.start, accepts, sim.jobs, sim.log)
    ensures s.total == s.released == s.succeeded + s.failed == |Arranged(dataset, maxJobs)|
    ensures dataset != [] ==>
              sim.start == configuredStart.GetOr(Arranged(dataset, maxJobs)[0].submit.GetOr(now)) == s.start
  {
    ArrangedSorted(dataset, maxJobs);
    sim := new Simulator(accepts, now);
    sim.LoadDataset(dataset, maxJobs, configuredStart, now);
    ghost var before := sim.jobs;
    s := sim.Run();
    if dataset != [] {
      FreshRunIngestsAllInOrder(sim.start, Arranged(dataset, maxJobs), before, sim.jobs, sim.log, sim.clock);
    }
  }

  /** The log is the whole list in order, and every job was released when its row says. */
  ghost predicate Ingested(rows: seq<Row>, start: Instant, accepts: nat -> bool, jobs: seq<Record>, log: seq<nat>) {
    && |jobs| == |log| == |rows|
    && (forall k :: 0 <= k < |log| ==> log[k] == k)
    && forall i :: 0 <= i < |rows| ==>
         && jobs[i].id == rows[i].id && jobs[i].releasedAt == Some(Max(start, rows[i].submit.GetOr(start)))
         && jobs[i].state == if accepts(i) then Submitted else FailedIngest
  }
}
