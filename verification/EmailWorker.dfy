/** Notification email worker: bounded retries with capped exponential backoff (app/notify/email.py). */
module EmailWorker {
  import opened Prelude
  import opened Sorting

  datatype Status = NotRequired | Pending | Sent | Failed

  datatype Row = Row(required: bool, status: Status, attempts: nat, nextAttempt: Option<Time>, createdAt: Time)

  /** What one delivery meets: the recipient has no address, the mail server takes the mail, or anything fails. */
  datatype Outcome = NoAddress | Delivered | Bounced

  datatype Visit = Visit(now: Time, outcome: Outcome)

  function Pow2(n: nat): nat {
    if n == 0 then 1 else 2 * Pow2(n - 1)
  }

  function Backoff(attempt: int): int {
    var delay := 60 * Pow2(Max(0, attempt - 1));
    if delay <= 3600 then delay else 3600
  }

  lemma {:induction false} Pow2Grows(n: nat)
    ensures Pow2(n) >= 1
  {
    if n > 0 {
      Pow2Grows(n - 1);
    }
  }

  /** One minute first, doubling each time, never beyond the hour. */
  lemma BackoffDoubles(attempt: int)
    ensures attempt <= 1 ==> Backoff(attempt) == 60
    ensures attempt >= 1 ==> Backoff(attempt + 1) == if 2 * Backoff(attempt) <= 3600 then 2 * Backoff(attempt) else 3600
    ensures 60 <= Backoff(attempt) <= 3600
  {
    Pow2Grows(Max(0, attempt - 1));
  }

  predicate Due(row: Row, now: Time) {
    && row.required && row.status == Pending
    && (row.nextAttempt.Some? ==> row.nextAttempt.value <= now)
  }

  function Deliver(maxAttempts: int, row: Row, visit: Visit): Row {
    match visit.outcome
    case NoAddress => row.(status := Failed)
    case Delivered => row.(attempts := row.attempts + 1, status := Sent, nextAttempt := None)
    case Bounced =>
      var attempts := row.attempts + 1;
      if attempts >= maxAttempts then row.(attempts := attempts, status := Failed, nextAttempt := None)
      else row.(attempts := attempts, nextAttempt := Some(visit.now + Backoff(attempts) * SECOND))
  }

  // ---- One notification over its whole life ----

  function Play(maxAttempts: int, row: Row, visits: seq<Visit>): Row {
    if visits == [] then row
    else Deliver(maxAttempts, Play(maxAttempts, row, visits[..|visits| - 1]), visits[|visits| - 1])
  }

  /** Every visit found the notification due. */
  ghost predicate Visited(maxAttempts: int, row: Row, visits: seq<Visit>) {
    visits != [] ==>
      var front, last := visits[..|visits| - 1], visits[|visits| - 1];
      Visited(maxAttempts, row, front) && Due(Play(maxAttempts, row, front), last.now)
  }

  /** Visits that reached the mail server. */
  function Sends(visits: seq<Visit>): nat {
    if visits == [] then 0
    else Sends(visits[..|visits| - 1]) + (if visits[|visits| - 1].outcome.NoAddress? then 0 else 1)
  }

  predicate Fresh(row: Row) {
    row.attempts == 0 && row.nextAttempt.None? && row.status == (if row.required then Pending else NotRequired)
  }

  /** Where a notification stands after its visits: at most one final visit, everything before it bounced. */
  lemma {:induction false} LifeOfANotification(maxAttempts: int, row: Row, visits: seq<Visit>)
    requires Fresh(row) && Visited(maxAttempts, row, visits)
    ensures forall i :: 0 <= i < |visits| - 1 ==> visits[i].outcome == Bounced
    ensures Play(maxAttempts, row, visits).attempts == Sends(visits) <= Max(1, maxAttempts)
    ensures visits != [] ==>
              var last := visits[|visits| - 1].outcome;
              Play(maxAttempts, row, visits).status ==
              match last
              case NoAddress => Failed
              case Delivered => Sent
              case Bounced => if |visits| >= maxAttempts then Failed else Pending
    ensures (forall v :: v in visits ==> v.outcome == Bounced) ==> Sends(visits) == |visits|
    ensures Play(maxAttempts, row, visits).status.Pending? ==> Sends(visits) < Max(1, maxAttempts)
    ensures Play(maxAttempts, row, visits).required == row.required
  {
    if visits != [] {
      var front, last := visits[..|visits| - 1], visits[|visits| - 1];
      LifeOfANotification(maxAttempts, row, front);
      if front != [] {
        assert front[|front| - 1].outcome == Bounced;
      }
      assert forall v :: v in front ==> v.outcome == Bounced;
      assert Sends(front) == |front|;
    }
  }

  /** Consecutive attempts are at least the backoff of the earlier one apart. */
  lemma {:induction false} AttemptsAreSpaced(maxAttempts: int, row: Row, visits: seq<Visit>, i: nat)
    requires Fresh(row) && Visited(maxAttempts, row, visits)
    requires i + 1 < |visits|
    ensures visits[i + 1].now >= visits[i].now + Backoff(i + 1) * SECOND
  {
    var front := visits[..|visits| - 1];
    if i + 1 < |front| {
      AttemptsAreSpaced(maxAttempts, row, front, i);
    } else {
      LifeOfANotification(maxAttempts, row, visits);
      LifeOfANotification(maxAttempts, row, front[..i]);
      assert forall v :: v in front[..i] ==> v.outcome == Bounced;
      assert front[i] == visits[i] && visits[i].outcome == Bounced;
      assert Play(maxAttempts, row, front[..i]).attempts == i;
    }
  }

  /** A bounced mail that has attempts left is due again exactly when its backoff has passed. */
  lemma BouncedDueIff(maxAttempts: int, row: Row, visit: Visit, t: Time)
    requires row.required && row.status == Pending && visit.outcome == Bounced
    ensures var after := Deliver(maxAttempts, row, visit);
            Due(after, t) <==> row.attempts + 1 < maxAttempts && visit.now + Backoff(row.attempts + 1) * SECOND <= t
    ensures Deliver(maxAttempts, row, visit).status == if row.attempts + 1 < maxAttempts then Pending else Failed
  {
  }

  /** A new notification is due at once if it needs a mail, and one that does not never is. */
  lemma FreshDueIff(row: Row, t: Time)
    requires Fresh(row)
    ensures Due(row, t) <==> row.required
  {
  }

  // ---- The table and a pass over it ----

  function DueIds(rows: seq<Row>, now: Time): seq<nat> {
    if rows == [] then []
    else DueIds(rows[..|rows| - 1], now) + (if Due(rows[|rows| - 1], now) then [|rows| - 1] else [])
  }

  function Created(rows: seq<Row>, id: nat): Time {
    if id < |rows| then rows[id].createdAt else 0
  }

  function ByCreation(rows: seq<Row>): (nat, nat) -> bool {
    (a: nat, b: nat) => Created(rows, a) <= Created(rows, b)
  }

  function Take<T>(s: seq<T>, limit: nat): seq<T> {
    if |s| <= limit then s else s[..limit]
  }

  /** The due notifications a pass picks: oldest first, at most the limit. */
  function Selected(rows: seq<Row>, now: Time, limit: nat): seq<nat> {
    Take(Sort(ByCreation(rows), DueIds(rows, now)), limit)
  }

  lemma {:induction false} DueIdsExact(rows: seq<Row>, now: Time)
    ensures Distinct(DueIds(rows, now))
    ensures forall i: nat :: i in DueIds(rows, now) <==> i < |rows| && Due(rows[i], now)
  {
    if rows != [] {
      var n := |rows| - 1;
      DueIdsExact(rows[..n], now);
      var front := DueIds(rows[..n], now);
      forall i: nat ensures i in DueIds(rows, now) <==> i < |rows| && Due(rows[i], now) {
        assert i in DueIds(rows, now) <==> i in front || (i == n && Due(rows[n], now));
        assert i < n ==> rows[..n][i] == rows[i];
      }
      assert forall k :: 0 <= k < |front| ==> front[k] in front;
    }
  }

  /** A pass picks distinct due notifications, and leaves one out only when the limit is spent on older ones. */
  lemma SelectedExact(rows: seq<Row>, now: Time, limit: nat)
    ensures var ids := Selected(rows, now, limit);
            && Distinct(ids) && |ids| <= limit
            && (forall i: nat :: i in ids ==> i < |rows| && Due(rows[i], now))
            && (forall i: nat, j: nat :: i < |rows| && Due(rows[i], now) && i !in ids && j in ids ==>
                  |ids| == limit && rows[j].createdAt <= rows[i].createdAt)
  {
    var due := DueIds(rows, now);
    var sorted := Sort(ByCreation(rows), due);
    DueIdsExact(rows, now);
    SortMembers(ByCreation(rows), due);
    SortPermutes(ByCreation(rows), due);
    PermutedDistinct(sorted, due);
    SortSorts(ByCreation(rows), due);
    var ids := Selected(rows, now, limit);
    assert forall i :: i in ids ==> i in sorted;
    forall i: nat, j: nat | i < |rows| && Due(rows[i], now) && i !in ids && j in ids
      ensures |ids| == limit && rows[j].createdAt <= rows[i].createdAt
    {
    }
  }

  /** The rows after delivering the picked notifications in order; the k-th delivery meets reply k. */
  function DeliverAll(maxAttempts: int, rows: seq<Row>, ids: seq<nat>, replies: nat -> Visit): (r: seq<Row>)
    requires forall i :: i in ids ==> i < |rows|
    ensures |r| == |rows|
  {
    if ids == [] then rows
    else
      var n := |ids| - 1;
      assert (forall i :: i in ids[..n] ==> i in ids) && ids[n] in ids;
      var before := DeliverAll(maxAttempts, rows, ids[..n], replies);
      before[ids[n] := Deliver(maxAttempts, before[ids[n]], replies(n))]
  }

  /** Each picked notification is delivered exactly once, as it stood when picked; no other is touched. */
  lemma {:induction false} DeliverAllAt(maxAttempts: int, rows: seq<Row>, ids: seq<nat>, replies: nat -> Visit, i: nat)
    requires (forall k :: k in ids ==> k < |rows|) && Distinct(ids) && i < |rows|
    ensures i !in ids ==> DeliverAll(maxAttempts, rows, ids, replies)[i] == rows[i]
    ensures forall k :: 0 <= k < |ids| && ids[k] == i ==>
              DeliverAll(maxAttempts, rows, ids, replies)[i] == Deliver(maxAttempts, rows[i], replies(k))
  {
    if ids != [] {
      var n := |ids| - 1;
      assert forall k :: k in ids[..n] ==> k in ids;
      DeliverAllAt(maxAttempts, rows, ids[..n], replies, i);
    }
  }

  /** Sent and failed notifications, and those that never needed a mail, stay as they are through any pass. */
  lemma SettledStaysSettled(maxAttempts: int, rows: seq<Row>, now: Time, limit: nat, replies: nat -> Visit, i: nat)
    requires i < |rows| && !(rows[i].required && rows[i].status == Pending)
    ensures forall k: nat :: k in Selected(rows, now, limit) ==> k < |rows|
    ensures DeliverAll(maxAttempts, rows, Selected(rows, now, limit), replies)[i] == rows[i]
  {
    SelectedExact(rows, now, limit);
    DeliverAllAt(maxAttempts, rows, Selected(rows, now, limit), replies, i);
  }

  // ---- Termination ----

  /** The deliveries a notification has left: none once it is settled, else up to its remaining attempts. */
  function Left(maxAttempts: int, row: Row): nat {
    if row.required && row.status == Pending then Max(1, Max(1, maxAttempts) - row.attempts) else 0
  }

  function TotalLeft(maxAttempts: int, rows: seq<Row>): nat {
    if rows == [] then 0
    else TotalLeft(maxAttempts, rows[..|rows| - 1]) + Left(maxAttempts, rows[|rows| - 1])
  }

  lemma {:induction false} TotalLeftUpdate(maxAttempts: int, rows: seq<Row>, i: nat, row: Row)
    requires i < |rows|
    ensures TotalLeft(maxAttempts, rows[i := row]) + Left(maxAttempts, rows[i])
         == TotalLeft(maxAttempts, rows) + Left(maxAttempts, row)
  {
    var n := |rows| - 1;
    if i < n {
      TotalLeftUpdate(maxAttempts, rows[..n], i, row);
      assert rows[i := row][..n] == rows[..n][i := row];
    } else {
      assert rows[i := row][..n] == rows[..n];
    }
  }

  /** Every delivery uses up at least one of the deliveries left in the table, so only so many can ever happen. */
  lemma {:induction false} EveryDeliveryCounts(maxAttempts: int, rows: seq<Row>, ids: seq<nat>, replies: nat -> Visit)
    requires Distinct(ids)
    requires forall i :: i in ids ==> i < |rows| && rows[i].required && rows[i].status == Pending
    ensures TotalLeft(maxAttempts, DeliverAll(maxAttempts, rows, ids, replies)) + |ids| <= TotalLeft(maxAttempts, rows)
  {
    if ids != [] {
      var n := |ids| - 1;
      assert forall k :: k in ids[..n] ==> k in ids;
      EveryDeliveryCounts(maxAttempts, rows, ids[..n], replies);
      var before := DeliverAll(maxAttempts, rows, ids[..n], replies);
      assert ids[n] in ids;
      DeliverAllAt(maxAttempts, rows, ids[..n], replies, ids[n]);
      assert before[ids[n]] == rows[ids[n]];
      TotalLeftUpdate(maxAttempts, before, ids[n], Deliver(maxAttempts, before[ids[n]], replies(n)));
    }
  }

  // ---- The worker over the shared table ----

  class Outbox {
    const maxAttempts: int
    var rows: seq<Row>
    ghost var origins: seq<Row>           // each notification as it was created
    ghost var histories: seq<seq<Visit>>  // every delivery of each notification

    constructor (maxAttempts: int)
      ensures Valid() && rows == [] && this.maxAttempts == maxAttempts
    {
      this.maxAttempts := maxAttempts;
      rows, origins, histories := [], [], [];
    }

    ghost predicate Valid()
      reads this
    {
      && |rows| == |origins| == |histories|
      && forall i :: 0 <= i < |rows| ==>
           && Fresh(origins[i]) && Visited(maxAttempts, origins[i], histories[i])
           && rows[i] == Play(maxAttempts, origins[i], histories[i])
    }

    method Create(required: bool, now: Time)
      requires Valid()
      modifies this
      ensures Valid() && |rows| == |old(rows)| + 1 && rows[..|old(rows)|] == old(rows)
      ensures histories == old(histories) + [[]] && Fresh(rows[|old(rows)|])
      ensures rows[|old(rows)|].required == required && rows[|old(rows)|].createdAt == now
    {
      var row := Row(required, if required then Pending else NotRequired, 0, None, now);
      rows, origins, histories := rows + [row], origins + [row], histories + [[]];
    }

    method DeliverOne(id: nat, visit: Visit)
      requires Valid() && id < |rows| && Due(rows[id], visit.now)
      modifies this
      ensures Valid() && origins == old(origins)
      ensures rows == old(rows)[id := Deliver(maxAttempts, old(rows)[id], visit)]
      ensures histories == old(histories)[id := old(histories)[id] + [visit]]
    {
      var row := RowAfter(rows[id], visit);
      ghost var history := histories[id] + [visit];
      assert history[..|histories[id]|] == histories[id];
      rows, histories := rows[id := row], histories[id := history];
    }

    /** The row after one delivery. */
    method RowAfter(before: Row, visit: Visit) returns (row: Row)
      ensures row == Deliver(maxAttempts, before, visit)
    {
      row := before;
      if visit.outcome.NoAddress? {
        row := row.(status := Failed);
      } else {
        row := row.(attempts := row.attempts + 1);
        if visit.outcome.Delivered? {
          row := row.(status := Sent, nextAttempt := None);
        } else if row.attempts >= maxAttempts {
          row := row.(status := Failed, nextAttempt := None);
        } else {
          row := row.(nextAttempt := Some(visit.now + Backoff(row.attempts) * SECOND));
        }
      }
    }

    /** One pass; the clock of a delivery is read after the query, so it never lies before it. */
    method ProcessPending(smtpEnabled: bool, now: Time, limit: nat, replies: nat -> Visit) returns (count: nat)
      requires Valid() && forall k: nat :: now <= replies(k).now
      modifies this
      ensures Valid() && origins == old(origins)
      ensures (forall i: nat :: i in Selected(old(rows), now, limit) ==> i < |old(rows)|)
      ensures count == if smtpEnabled then |Selected(old(rows), now, limit)| else 0
      ensures rows == if smtpEnabled then DeliverAll(maxAttempts, old(rows), Selected(old(rows), now, limit), replies)
                      else old(rows)
      ensures TotalLeft(maxAttempts, rows) + count <= TotalLeft(maxAttempts, old(rows))
    {
      SelectedExact(rows, now, limit);
      if !smtpEnabled {
        return 0;
      }
      var ids := Selected(rows, now, limit);
      ghost var before := rows;
      for k := 0 to |ids|
        invariant Valid() && origins == old(origins)
        invariant forall i :: i in ids[..k] ==> i in ids
        invariant rows == DeliverAll(maxAttempts, before, ids[..k], replies)
      {
        assert ids[..k + 1][..k] == ids[..k] && ids[k] in ids;
        DeliverAllAt(maxAttempts, before, ids[..k], replies, ids[k]);
        DeliverOne(ids[k], replies(k));
      }
      assert ids[..|ids|] == ids;
      EveryDeliveryCounts(maxAttempts, before, ids, replies);
      count := |ids|;
    }
  }
}
