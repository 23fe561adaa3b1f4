/** Region-by-hour capacity registry (app/decide/slot_capacity.py) and the reservation ledger it refines. */
module SlotCapacities {
  import opened Prelude
  import opened Rounding

  // ---- Values ----

  /** An hour of one region; hours are counted from the epoch, so the slot starts at hour * HOUR. */
  datatype SlotKey = SlotKey(region: string, hour: int)

  datatype Usage = Usage(cpu: real, mem: real, gpus: int, jobs: nat)

  datatype SlotState = SlotState(maxCpu: real, maxMem: real, maxGpus: int, used: Usage)

  datatype Registry = Registry(maxCpu: real, maxMem: real, maxGpus: int, slots: map<SlotKey, SlotState>)

  const IDLE: Usage := Usage(0.0, 0.0, 0, 0)

  function HourOf(t: Time): int {
    t / HOUR
  }

  lemma HourOfMark(hour: int)
    ensures HourOf(hour * HOUR) == hour
  {
  }

  function Ceiling(x: real): int {
    -((-x).Floor)
  }

  function SpanHours(durationHours: real): nat {
    Max(1, Ceiling(durationHours))
  }

  function Plus(u: Usage, r: Resources): Usage {
    Usage(u.cpu + r.cpu, u.mem + r.mem, u.gpus + r.gpus, u.jobs + 1)
  }

  predicate Fits(s: SlotState, r: Resources) {
    && s.used.cpu + r.cpu <= s.maxCpu + EPSILON
    && s.used.mem + r.mem <= s.maxMem + EPSILON
    && s.used.gpus + r.gpus <= s.maxGpus
  }

  ghost predicate WithinCapacity(s: SlotState) {
    && s.used.cpu <= s.maxCpu + EPSILON
    && s.used.mem <= s.maxMem + EPSILON
    && s.used.gpus <= s.maxGpus
  }

  /** A slot takes a request exactly when it is within capacity with it. */
  lemma FitsIffWithinAfter(s: SlotState, r: Resources)
    ensures Fits(s, r) <==> WithinCapacity(s.(used := Plus(s.used, r)))
    ensures Fits(s, r) <==> && s.used.cpu + r.cpu - s.maxCpu <= 0.000001 && s.used.mem + r.mem - s.maxMem <= 0.000001
                            && s.used.gpus + r.gpus - s.maxGpus <= 0
  {
  }

  function Utilization(s: SlotState): real {
    if s.maxCpu <= 0.0 then 100.0
    else if s.used.cpu / s.maxCpu * 100.0 <= 100.0 then s.used.cpu / s.maxCpu * 100.0 else 100.0
  }

  /** The slot of a key; an hour nobody has touched yet is idle at the default maximum. */
  function Slot(v: Registry, key: SlotKey): SlotState {
    if key in v.slots then v.slots[key] else SlotState(v.maxCpu, v.maxMem, v.maxGpus, IDLE)
  }

  function UtilizationAt(v: Registry, region: string, t: Time): real {
    var key := SlotKey(region, HourOf(t));
    if key in v.slots then Utilization(v.slots[key]) else 0.0
  }

  predicate SpanFits(v: Registry, region: string, hour: int, hours: nat, r: Resources) {
    forall h :: hour <= h < hour + hours ==> Fits(Slot(v, SlotKey(region, h)), r)
  }

  function ChargeSlot(v: Registry, key: SlotKey, r: Resources): Registry {
    var s := Slot(v, key);
    v.(slots := v.slots[key := s.(used := Plus(s.used, r))])
  }

  function ChargeSpan(v: Registry, region: string, hour: int, hours: nat, r: Resources): Registry {
    if hours == 0 then v
    else ChargeSlot(ChargeSpan(v, region, hour, hours - 1, r), SlotKey(region, hour + hours - 1), r)
  }

  function CanFit(v: Registry, region: string, start: Time, durationHours: real, r: Resources): bool {
    SpanFits(v, region, HourOf(start), SpanHours(durationHours), r)
  }

  function Allocate(v: Registry, region: string, start: Time, durationHours: real, r: Resources): Registry {
    if CanFit(v, region, start, durationHours, r)
    then ChargeSpan(v, region, HourOf(start), SpanHours(durationHours), r)
    else v
  }

  // ---- What a charge means, hour by hour ----

  predicate Covers(region: string, hour: int, hours: nat, key: SlotKey) {
    key.region == region && hour <= key.hour < hour + hours
  }

  lemma {:induction false} ChargeSpanAt(v: Registry, region: string, hour: int, hours: nat, r: Resources, key: SlotKey)
    ensures var after := ChargeSpan(v, region, hour, hours, r);
            && (after.maxCpu, after.maxMem, after.maxGpus) == (v.maxCpu, v.maxMem, v.maxGpus)
            && (key in after.slots <==> key in v.slots || Covers(region, hour, hours, key))
            && Slot(after, key) == (if Covers(region, hour, hours, key)
                                    then Slot(v, key).(used := Plus(Slot(v, key).used, r)) else Slot(v, key))
  {
    if hours > 0 {
      ChargeSpanAt(v, region, hour, hours - 1, r, key);
    }
  }

  /** Charging the first hours of a span that fits leaves the next hour as it was. */
  lemma NextHourStillFits(v: Registry, region: string, hour: int, done: nat, hours: nat, r: Resources)
    requires done < hours && SpanFits(v, region, hour, hours, r)
    ensures Fits(Slot(ChargeSpan(v, region, hour, done, r), SlotKey(region, hour + done)), r)
    ensures ChargeSpan(v, region, hour, done + 1, r)
         == ChargeSlot(ChargeSpan(v, region, hour, done, r), SlotKey(region, hour + done), r)
  {
    ChargeSpanAt(v, region, hour, done, r, SlotKey(region, hour + done));
  }

  // ---- The mutable classes ----

  class SlotCapacity {
    const key: SlotKey  // the registry entry the slot belongs to
    const slotStart: Time := key.hour * HOUR
    const maxCpu: real
    const maxMem: real
    const maxGpus: int
    var allocatedCpu: real
    var allocatedMem: real
    var allocatedGpus: int
    var jobCount: nat

    constructor (key: SlotKey, maxCpu: real, maxMem: real, maxGpus: int)
      ensures State() == SlotState(maxCpu, maxMem, maxGpus, IDLE) && this.key == key
    {
      this.key, this.maxCpu, this.maxMem, this.maxGpus := key, maxCpu, maxMem, maxGpus;
      allocatedCpu, allocatedMem, allocatedGpus, jobCount := 0.0, 0.0, 0, 0;
    }

    function State(): SlotState
      reads this
    {
      SlotState(maxCpu, maxMem, maxGpus, Usage(allocatedCpu, allocatedMem, allocatedGpus, jobCount))
    }

    method CanFitRequest(r: Resources) returns (ok: bool)
      ensures ok == Fits(State(), r)
    {
      if allocatedCpu + r.cpu > maxCpu + EPSILON {
        return false;
      }
      if allocatedMem + r.mem > maxMem + EPSILON {
        return false;
      }
      if allocatedGpus + r.gpus > maxGpus {
        return false;
      }
      return true;
    }

    method AllocateRequest(r: Resources) returns (ok: bool)
      modifies this
      ensures ok == Fits(old(State()), r)
      ensures State() == if ok then old(State()).(used := Plus(old(State()).used, r)) else old(State())
    {
      ok := CanFitRequest(r);
      if ok {
        allocatedCpu := allocatedCpu + r.cpu;
        allocatedMem := allocatedMem + r.mem;
        allocatedGpus := allocatedGpus + r.gpus;
        jobCount := jobCount + 1;
      }
    }
  }

  class SlotCapacityRegistry {
    const defaultMaxCpu: real
    const defaultMaxMem: real
    const defaultMaxGpus: int
    var slots: map<SlotKey, SlotCapacity>
    ghost var states: map<SlotKey, SlotState>  // what the slot objects currently hold
    ghost var Repr: set<SlotCapacity>          // the slot objects

    constructor (maxCpu: real, maxMem: real, maxGpus: int)
      ensures Valid() && View() == Registry(maxCpu, maxMem, maxGpus, map[])
      ensures Repr == {}
    {
      defaultMaxCpu, defaultMaxMem, defaultMaxGpus := maxCpu, maxMem, maxGpus;
      slots, states, Repr := map[], map[], {};
    }

    /** Each entry has a slot object of its own, and the ghost view of the slots is accurate. */
    ghost predicate Valid()
      reads this, Repr
    {
      && states.Keys == slots.Keys
      && forall k :: k in slots ==> slots[k] in Repr && slots[k].key == k && slots[k].State() == states[k]
    }

    ghost function View(): Registry
      reads this
    {
      Registry(defaultMaxCpu, defaultMaxMem, defaultMaxGpus, states)
    }

    method GetOrCreateSlot(region: string, t: Time) returns (slot: SlotCapacity)
      requires Valid()
      modifies this
      ensures Valid()
      ensures SlotKey(region, HourOf(t)) in slots && slots[SlotKey(region, HourOf(t))] == slot
      ensures slot in Repr && fresh(Repr - old(Repr))
      ensures slots == old(slots)[SlotKey(region, HourOf(t)) := slot]
      ensures states == old(states)[SlotKey(region, HourOf(t)) := Slot(old(View()), SlotKey(region, HourOf(t)))]
    {
      var key := SlotKey(region, HourOf(t));
      if key !in slots {
        var created := new SlotCapacity(key, defaultMaxCpu, defaultMaxMem, defaultMaxGpus);
        slots := slots[key := created];
        states, Repr := states[key := created.State()], Repr + {created};
      }
      slot := slots[key];
    }

    method CanFitSpan(region: string, start: Time, durationHours: real, r: Resources) returns (ok: bool)
      requires Valid()
      ensures ok == CanFit(View(), region, start, durationHours, r)
    {
      var hours := SpanHours(durationHours);
      for i := 0 to hours
        invariant SpanFits(View(), region, HourOf(start), i, r)
      {
        var key := SlotKey(region, HourOf(start) + i);
        var fits;
        if key in slots {
          fits := slots[key].CanFitRequest(r);
        } else {
          fits := !(r.cpu > defaultMaxCpu + EPSILON || r.mem > defaultMaxMem + EPSILON || r.gpus > defaultMaxGpus);
        }
        assert fits == Fits(Slot(View(), key), r);
        if !fits {
          return false;
        }
      }
      return true;
    }

    method UtilizationOf(region: string, t: Time) returns (pct: real)
      requires Valid()
      ensures pct == UtilizationAt(View(), region, t)
    {
      var key := SlotKey(region, HourOf(t));
      if key !in slots {
        return 0.0;
      }
      var slot := slots[key];
      if slot.maxCpu <= 0.0 {
        return 100.0;
      }
      pct := slot.allocatedCpu / slot.maxCpu * 100.0;
      if pct > 100.0 {
        pct := 100.0;
      }
    }

    /** All or nothing, although what the per-hour allocations answer is thrown away. */
    method AllocateSpan(region: string, start: Time, durationHours: real, r: Resources) returns (ok: bool)
      requires Valid()
      modifies this, Repr
      ensures Valid()
      ensures fresh(Repr - old(Repr))
      ensures ok == CanFit(old(View()), region, start, durationHours, r)
      ensures View() == Allocate(old(View()), region, start, durationHours, r)
    {
      ok := CanFitSpan(region, start, durationHours, r);
      if ok {
        ChargeHours(region, HourOf(start), SpanHours(durationHours), r);
      }
    }

    method ChargeHours(region: string, hour: int, hours: nat, r: Resources)
      requires Valid() && SpanFits(View(), region, hour, hours, r)
      modifies this, Repr
      ensures Valid()
      ensures fresh(Repr - old(Repr))
      ensures View() == ChargeSpan(old(View()), region, hour, hours, r)
    {
      ghost var before := View();
      for i := 0 to hours
        invariant Valid() && fresh(Repr - old(Repr))
        invariant View() == ChargeSpan(before, region, hour, i, r)
      {
        ghost var middle := View();
        assert Fits(Slot(middle, SlotKey(region, hour + i)), r)
            && ChargeSpan(before, region, hour, i + 1, r) == ChargeSlot(middle, SlotKey(region, hour + i), r) by {
          NextHourStillFits(before, region, hour, i, hours, r);
        }
        ChargeHour(region, hour + i, r);
      }
    }

    /** One round of the loop above: the slot's answer is discarded, so the caller must know it fits. */
    method ChargeHour(region: string, hour: int, r: Resources)
      requires Valid() && Fits(Slot(View(), SlotKey(region, hour)), r)
      modifies this, Repr
      ensures Valid()
      ensures fresh(Repr - old(Repr))
      ensures View() == ChargeSlot(old(View()), SlotKey(region, hour), r)
    {
      HourOfMark(hour);
      var slot := GetOrCreateSlot(region, hour * HOUR);
      ChargeEntry(SlotKey(region, hour), slot, r);
    }

    method ChargeEntry(ghost key: SlotKey, slot: SlotCapacity, r: Resources)
      requires Valid() && key in slots && slots[key] == slot && Fits(states[key], r)
      modifies this`states, slot
      ensures Valid() && slots == old(slots) && Repr == old(Repr)
      ensures states == old(states)[key := old(states)[key].(used := Plus(old(states)[key].used, r))]
    {
      assert forall k :: k in slots && k != key ==> slots[k] != slot;
      var _ := slot.AllocateRequest(r);
      states := states[key := slot.State()];
    }
  }

  // ---- The reservation ledger ----

  /** One call of allocate: a request for a span of hours. */
  datatype Reservation = Reservation(region: string, hour: int, hours: nat, request: Resources)
  {
    predicate At(key: SlotKey) { Covers(region, hour, hours, key) }
    predicate Granted(v: Registry) { SpanFits(v, region, hour, hours, request) }
    function Apply(v: Registry): Registry {
      if Granted(v) then ChargeSpan(v, region, hour, hours, request) else v
    }
  }

  function RunAll(v: Registry, attempts: seq<Reservation>): Registry
    decreases attempts
  {
    if attempts == [] then v else RunAll(attempts[0].Apply(v), attempts[1..])
  }

  /** The attempts that were granted, in order. */
  function Ledger(v: Registry, attempts: seq<Reservation>): seq<Reservation>
    decreases attempts
  {
    if attempts == [] then []
    else (if attempts[0].Granted(v) then [attempts[0]] else []) + Ledger(attempts[0].Apply(v), attempts[1..])
  }

  /** What a ledger of reservations puts on one hour. */
  function Load(ledger: seq<Reservation>, key: SlotKey): Usage {
    if ledger == [] then IDLE
    else if ledger[0].At(key) then Plus(Load(ledger[1..], key), ledger[0].request)
    else Load(ledger[1..], key)
  }

  function Sum(a: Usage, b: Usage): Usage {
    Usage(a.cpu + b.cpu, a.mem + b.mem, a.gpus + b.gpus, a.jobs + b.jobs)
  }

  ghost predicate SameLimits(a: SlotState, b: SlotState) {
    a.maxCpu == b.maxCpu && a.maxMem == b.maxMem && a.maxGpus == b.maxGpus
  }

  lemma ApplyAt(v: Registry, a: Reservation, key: SlotKey)
    ensures SameLimits(Slot(a.Apply(v), key), Slot(v, key))
    ensures Slot(a.Apply(v), key).used
         == if a.Granted(v) && a.At(key) then Plus(Slot(v, key).used, a.request) else Slot(v, key).used
    ensures key in a.Apply(v).slots <==> key in v.slots || (a.Granted(v) && a.At(key))
  {
    ChargeSpanAt(v, a.region, a.hour, a.hours, a.request, key);
  }

  lemma LedgerOfHead(v: Registry, a: Reservation, rest: seq<Reservation>)
    ensures Ledger(v, [a] + rest)
         == if a.Granted(v) then [a] + Ledger(a.Apply(v), rest) else Ledger(a.Apply(v), rest)
    ensures RunAll(v, [a] + rest) == RunAll(a.Apply(v), rest)
  {
  }

  lemma {:induction false} LimitsNeverMove(v: Registry, attempts: seq<Reservation>, key: SlotKey)
    ensures SameLimits(Slot(RunAll(v, attempts), key), Slot(v, key))
    decreases attempts
  {
    if attempts != [] {
      ApplyAt(v, attempts[0], key);
      LimitsNeverMove(attempts[0].Apply(v), attempts[1..], key);
    }
  }

  lemma LoadOfLedgerHead(v: Registry, a: Reservation, rest: seq<Reservation>, key: SlotKey)
    ensures var tail := Load(Ledger(a.Apply(v), rest), key);
            Load(Ledger(v, [a] + rest), key) == if a.Granted(v) && a.At(key) then Plus(tail, a.request) else tail
  {
    LedgerOfHead(v, a, rest);
  }

  lemma SumOfIdle(u: Usage)
    ensures Sum(u, IDLE) == u
  {
  }

  lemma SumOfPlus(u: Usage, load: Usage, r: Resources)
    ensures Sum(Plus(u, r), load) == Sum(u, Plus(load, r))
  {
  }

  ghost predicate Balances(v: Registry, attempts: seq<Reservation>, key: SlotKey) {
    Slot(RunAll(v, attempts), key).used == Sum(Slot(v, key).used, Load(Ledger(v, attempts), key))
  }

  lemma BalancesWithHead(v: Registry, a: Reservation, rest: seq<Reservation>, key: SlotKey)
    requires Balances(a.Apply(v), rest, key)
    ensures Balances(v, [a] + rest, key)
  {
    ApplyAt(v, a, key);
    LedgerOfHead(v, a, rest);
    LoadOfLedgerHead(v, a, rest, key);
    SumOfPlus(Slot(v, key).used, Load(Ledger(a.Apply(v), rest), key), a.request);
  }

  /** Conservation: every hour carries its initial usage plus exactly the granted reservations over it. */
  lemma {:induction false} LedgerRefinement(v: Registry, attempts: seq<Reservation>, key: SlotKey)
    ensures Balances(v, attempts, key)
    decreases attempts
  {
    if attempts == [] {
      SumOfIdle(Slot(v, key).used);
    } else {
      var a, rest := attempts[0], attempts[1..];
      assert attempts == [a] + rest;
      LedgerRefinement(a.Apply(v), rest, key);
      BalancesWithHead(v, a, rest, key);
    }
  }

  ghost predicate Covered(ledger: seq<Reservation>, key: SlotKey) {
    exists r :: r in ledger && r.At(key)
  }

  /** The registry holds a slot for exactly the hours it started with and those a granted reservation covers. */
  lemma {:induction false} LedgerSlots(v: Registry, attempts: seq<Reservation>, key: SlotKey)
    ensures key in RunAll(v, attempts).slots <==> key in v.slots || Covered(Ledger(v, attempts), key)
    decreases attempts
  {
    if attempts != [] {
      var a := attempts[0];
      ApplyAt(v, a, key);
      LedgerSlots(a.Apply(v), attempts[1..], key);
      var head := if a.Granted(v) then [a] else [];
      assert Covered(head, key) <==> a.Granted(v) && a.At(key) by {
        if a.Granted(v) && a.At(key) {
          assert a in head;
        }
      }
    }
  }

  /** Safety: an hour that was within capacity, or that any granted reservation covers, ends within it. */
  lemma {:induction false} LedgerWithinCapacity(v: Registry, attempts: seq<Reservation>, key: SlotKey)
    requires WithinCapacity(Slot(v, key)) || Covered(Ledger(v, attempts), key)
    ensures WithinCapacity(Slot(RunAll(v, attempts), key))
    decreases attempts
  {
    if attempts != [] {
      var a := attempts[0];
      var next := a.Apply(v);
      ApplyAt(v, a, key);
      LedgerWithinCapacity(next, attempts[1..], key);
    }
  }

  /** A refused request leaves the whole registry as it was; a granted one charges every hour of its span. */
  lemma AllOrNothing(v: Registry, a: Reservation)
    ensures (exists h :: a.hour <= h < a.hour + a.hours && !Fits(Slot(v, SlotKey(a.region, h)), a.request))
            ==> a.Apply(v) == v
    ensures (forall h :: a.hour <= h < a.hour + a.hours ==> Fits(Slot(v, SlotKey(a.region, h)), a.request))
            ==> forall key :: a.At(key) ==> Slot(a.Apply(v), key).used == Plus(Slot(v, key).used, a.request)
  {
    forall key ensures a.Granted(v) && a.At(key) ==>
                       Slot(a.Apply(v), key).used == Plus(Slot(v, key).used, a.request) {
      ChargeSpanAt(v, a.region, a.hour, a.hours, a.request, key);
    }
  }

  // ---- Which hours a run occupies and which are charged ----

  /** The run [start, start + minutes) overlaps the hour [h, h + 1). */
  predicate Occupies(start: Time, minutes: nat, h: int) {
    h * HOUR < start + minutes * MINUTE && start < (h + 1) * HOUR
  }

  /**
   * Every occupied hour is charged exactly when the run, started that far into its first hour, ends within
   * the charged span. On the hour that always holds.
   */
  lemma ChargedHoursCoverRunIff(start: Time, minutes: nat)
    requires minutes > 0
    ensures var hours := SpanHours(minutes as real / 60.0);
            (forall h :: Occupies(start, minutes, h) ==> HourOf(start) <= h < HourOf(start) + hours)
            <==> start % HOUR + minutes * MINUTE <= hours * HOUR
    ensures start % HOUR == 0 ==> start % HOUR + minutes * MINUTE <= SpanHours(minutes as real / 60.0) * HOUR
  {
    var hours := SpanHours(minutes as real / 60.0);
    var first := HourOf(start);
    assert start == first * HOUR + start % HOUR;
    assert Occupies(start, minutes, first + hours) <==> start % HOUR + minutes * MINUTE > hours * HOUR;
    forall h | Occupies(start, minutes, h) && start % HOUR + minutes * MINUTE <= hours * HOUR
      ensures first <= h < first + hours
    {
      assert h * HOUR < (first + hours) * HOUR && first * HOUR < (h + 1) * HOUR;
    }
  }

  /** A span is the least whole number of hours, at least one, that holds the duration. */
  lemma SpanIsLeast(durationHours: real)
    ensures var hours := SpanHours(durationHours);
            && hours >= 1 && durationHours <= hours as real
            && (hours == 1 || (hours - 1) as real < durationHours)
  {
  }

  /** Nothing is charged in vain: whenever a run starts, it occupies every hour it is charged to. */
  lemma ChargedHoursAreOccupied(start: Time, minutes: nat, h: int)
    requires minutes > 0
    requires HourOf(start) <= h < HourOf(start) + SpanHours(minutes as real / 60.0)
    ensures Occupies(start, minutes, h)
  {
    SpanIsLeast(minutes as real / 60.0);
    assert start == HourOf(start) * HOUR + start % HOUR;
  }

  /** So on the hour a run is charged to exactly the hours it occupies. */
  lemma ChargedExactlyOnTheHour(start: Time, minutes: nat, h: int)
    requires minutes > 0 && start % HOUR == 0
    ensures HourOf(start) <= h < HourOf(start) + SpanHours(minutes as real / 60.0) <==> Occupies(start, minutes, h)
  {
    ChargedHoursCoverRunIff(start, minutes);
    if HourOf(start) <= h < HourOf(start) + SpanHours(minutes as real / 60.0) {
      ChargedHoursAreOccupied(start, minutes, h);
    }
  }

  /** A one-hour run started at half past is charged to its first hour only and also occupies the next. */
  lemma HalfPastRunOccupiesAnUnchargedHour()
    ensures SpanHours(60.0 / 60.0) == 1 && HourOf(HOUR / 2) == 0 && Occupies(HOUR / 2, 60, 1)
  {
  }

  // ---- Utilisation ----

  /** The share of the CPU maximum in use, in percent and at most a hundred; a hundred without any maximum. */
  lemma UtilizationExact(s: SlotState)
    ensures s.maxCpu <= 0.0 || s.used.cpu >= s.maxCpu ==> Utilization(s) == 100.0
    ensures s.maxCpu > 0.0 && s.used.cpu <= s.maxCpu ==> Utilization(s) * s.maxCpu == 100.0 * s.used.cpu
  {
  }

  /** An hour counts as idle until something is charged to it, and then with all that was. */
  lemma UtilizationAfter(v: Registry, a: Reservation, t: Time)
    ensures SlotKey(a.region, HourOf(t)) !in v.slots ==> UtilizationAt(v, a.region, t) == 0.0
    ensures var key := SlotKey(a.region, HourOf(t));
            a.Granted(v) && a.At(key) ==>
              UtilizationAt(a.Apply(v), a.region, t)
              == Utilization(Slot(v, key).(used := Plus(Slot(v, key).used, a.request)))
  {
    ChargeSpanAt(v, a.region, a.hour, a.hours, a.request, SlotKey(a.region, HourOf(t)));
  }
}
