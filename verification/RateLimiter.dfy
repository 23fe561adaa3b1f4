/** In-memory sliding-window rate limiter (app/api/rate_limit.py). */
module RateLimiting {
  import opened Prelude

  /** What a check answers; a limiter configured with no requests at all fails on its empty window instead. */
  datatype Verdict = Accepted | Refused(retryAfter: int) | IndexError

  // ---- One client's window, as a value ----

  function Evict(window: seq<real>, cutoff: real): seq<real> {
    if window != [] && window[0] < cutoff then Evict(window[1..], cutoff) else window
  }

  class RateLimiter {
    const maxRequests: int
    const windowSeconds: int
    var windows: map<string, seq<real>>
    ghost var logs: map<string, seq<real>>  // every accepted request of each client since its last reset
    ghost var clock: real                   // the latest instant seen; the source reads a monotonic clock

    constructor (maxRequests: int, windowSeconds: int)
      ensures Valid() && logs == map[] && this.maxRequests == maxRequests && this.windowSeconds == windowSeconds
    {
      this.maxRequests, this.windowSeconds := maxRequests, windowSeconds;
      windows, logs, clock := map[], map[], 0.0;
    }

    ghost predicate Valid()
      reads this
    {
      && windows.Keys == logs.Keys
      && forall k :: k in windows ==> Tracks(maxRequests, windowSeconds, windows[k], logs[k], clock)
    }

    ghost function Log(client: string): seq<real>
      reads this
    {
      if client in logs then logs[client] else []
    }

    /**
     * Accepts exactly when fewer than the maximum were accepted in the closed last window; otherwise reports the
     * least whole number of seconds worth waiting. Touches no other client.
     */
    method Check(client: string, now: real) returns (v: Verdict)
      requires Valid() && clock <= now
      modifies this
      ensures Valid() && clock == now
      ensures v.Accepted? <==> Admits(maxRequests, windowSeconds, old(Log(client)), now)
      ensures v.IndexError? <==> maxRequests <= 0
      ensures v.Refused? ==> LeastWait(maxRequests, windowSeconds, old(Log(client)), now, v.retryAfter)
      ensures logs == old(logs)[client := if v.Accepted? then old(Log(client)) + [now] else old(Log(client))]
      ensures windows - {client} == old(windows) - {client}
    {
      var window := WindowOf(client);
      v, window := Slide(window, now, Log(client), clock);
      Store(client, window, now, if v.Accepted? then Log(client) + [now] else Log(client));
    }

    method WindowOf(client: string) returns (window: seq<real>)
      requires Valid()
      ensures Tracks(maxRequests, windowSeconds, window, Log(client), clock)
    {
      window := if client in windows then windows[client] else [];
    }

    method Store(client: string, window: seq<real>, now: real, ghost log: seq<real>)
      requires Valid() && clock <= now && Tracks(maxRequests, windowSeconds, window, log, now)
      modifies this
      ensures Valid() && clock == now
      ensures windows == old(windows)[client := window] && logs == old(logs)[client := log]
    {
      AllTrack(maxRequests, windowSeconds, windows, logs, clock, client, window, log, now);
      windows, logs, clock := windows[client := window], logs[client := log], now;
    }

    method DropOlder(before: seq<real>, cutoff: real) returns (window: seq<real>)
      ensures window == Evict(before, cutoff)
    {
      window := before;
      while window != [] && window[0] < cutoff
        invariant Evict(window, cutoff) == Evict(before, cutoff)
        decreases |window|
      {
        window := window[1..];
      }
    }

    /** One client's deque: drop what has left the window, then answer. */
    method Slide(before: seq<real>, now: real, ghost log: seq<real>, ghost clock: real)
      returns (v: Verdict, window: seq<real>)
      requires Tracks(maxRequests, windowSeconds, before, log, clock) && clock <= now
      ensures v.Accepted? <==> Admits(maxRequests, windowSeconds, log, now)
      ensures v.IndexError? <==> maxRequests <= 0
      ensures v.Refused? ==> LeastWait(maxRequests, windowSeconds, log, now, v.retryAfter)
      ensures Tracks(maxRequests, windowSeconds, window, if v.Accepted? then log + [now] else log, now)
    {
      window := DropOlder(before, now - windowSeconds as real);
      EvictTracks(maxRequests, windowSeconds, before, log, clock, now);
      v := Answer(window, now, log);
      if v.Accepted? {
        AcceptTracks(maxRequests, windowSeconds, window, log, now);
        window := window + [now];
      }
    }

    method Answer(window: seq<real>, now: real, ghost log: seq<real>) returns (v: Verdict)
      requires Tracks(maxRequests, windowSeconds, window, log, now)
      requires forall i :: 0 <= i < |window| ==> window[i] >= now - windowSeconds as real
      ensures v.Accepted? <==> Admits(maxRequests, windowSeconds, log, now)
      ensures v.Accepted? <==> |window| < maxRequests
      ensures v.IndexError? <==> maxRequests <= 0
      ensures v.Refused? ==> LeastWait(maxRequests, windowSeconds, log, now, v.retryAfter)
    {
      RecentCount(maxRequests, windowSeconds, window, log, now);
      if |window| < maxRequests {
        return Accepted;
      }
      if window == [] {
        return IndexError;
      }
      RetryAfterIsLeastWait(maxRequests, windowSeconds, window, log, now);
      return Refused((windowSeconds as real - (now - window[0])).Floor + 1);
    }

    /** Forgets one client, or all of them; an empty key counts as no key. */
    method Reset(client: Option<string>)
      requires Valid()
      modifies this
      ensures Valid() && clock == old(clock)
      ensures var all := client.None? || client.value == "";
              forall k :: k in logs <==> k in old(logs) && !all && k != client.value
      ensures forall k :: k in logs ==> logs[k] == old(logs)[k] && windows[k] == old(windows)[k]
    {
      if client.Some? && client.value != "" {
        windows, logs := windows - {client.value}, logs - {client.value};
      } else {
        windows, logs := map[], map[];
      }
    }
  }

  // ---- The reference: a log of accepted requests ----

  /** How many log entries fall in the closed interval [from, to]. */
  function Count(log: seq<real>, from: real, to: real): nat {
    if log == [] then 0
    else Count(log[..|log| - 1], from, to) + (if from <= log[|log| - 1] <= to then 1 else 0)
  }

  /** Fewer than the maximum were accepted in the closed last window. */
  ghost predicate Admits(maxRequests: int, windowSeconds: int, log: seq<real>, now: real) {
    Count(log, now - windowSeconds as real, now) < maxRequests
  }

  ghost predicate Ordered(log: seq<real>) {
    forall i, j :: 0 <= i < j < |log| ==> log[i] <= log[j]
  }

  /** Any request and the one accepted maxRequests later lie more than a window apart. */
  ghost predicate Spaced(maxRequests: int, windowSeconds: int, log: seq<real>) {
    maxRequests > 0 ==>
      forall i, j :: 0 <= i < j < |log| && j - i == maxRequests ==> log[j] - log[i] > windowSeconds as real
  }

  /** A window is the tail of the log, and everything dropped is older than the window is long. */
  ghost predicate Tracks(maxRequests: int, windowSeconds: int, window: seq<real>, log: seq<real>, clock: real) {
    && |window| <= |log| && window == log[|log| - |window|..]
    && |window| <= Max(0, maxRequests) && (maxRequests <= 0 ==> log == [])
    && Ordered(log) && Spaced(maxRequests, windowSeconds, log)
    && (forall i :: 0 <= i < |log| ==> log[i] <= clock)
    && (forall i :: 0 <= i < |log| - |window| ==> log[i] < clock - windowSeconds as real)
  }

  lemma AllTrack(maxRequests: int, windowSeconds: int, windows: map<string, seq<real>>, logs: map<string, seq<real>>,
                 clock: real, client: string, window: seq<real>, log: seq<real>, now: real)
    requires windows.Keys == logs.Keys && clock <= now
    requires forall k :: k in windows ==> Tracks(maxRequests, windowSeconds, windows[k], logs[k], clock)
    requires Tracks(maxRequests, windowSeconds, window, log, now)
    ensures var after, grown := windows[client := window], logs[client := log];
            && after.Keys == grown.Keys
            && forall k :: k in after ==> Tracks(maxRequests, windowSeconds, after[k], grown[k], now)
  {
  }

  /** Eviction keeps exactly the tail that is not older than the cutoff. */
  lemma {:induction false} EvictCuts(window: seq<real>, cutoff: real)
    requires Ordered(window)
    ensures |Evict(window, cutoff)| <= |window|
    ensures Evict(window, cutoff) == window[|window| - |Evict(window, cutoff)|..]
    ensures forall i :: 0 <= i < |window| - |Evict(window, cutoff)| ==> window[i] < cutoff
    ensures forall i :: 0 <= i < |Evict(window, cutoff)| ==> Evict(window, cutoff)[i] >= cutoff
  {
    if window != [] && window[0] < cutoff {
      EvictCuts(window[1..], cutoff);
    }
  }

  /** After eviction the window holds exactly the recent part of the log. */
  lemma EvictTracks(maxRequests: int, windowSeconds: int, window: seq<real>, log: seq<real>, clock: real, now: real)
    requires Tracks(maxRequests, windowSeconds, window, log, clock) && clock <= now
    ensures var kept := Evict(window, now - windowSeconds as real);
            && Tracks(maxRequests, windowSeconds, kept, log, now)
            && forall i :: 0 <= i < |kept| ==> kept[i] >= now - windowSeconds as real
  {
    var cutoff := now - windowSeconds as real;
    TailOrdered(log, |log| - |window|);
    EvictCuts(window, cutoff);
    KeptTracks(maxRequests, windowSeconds, window, log, clock, now, Evict(window, cutoff));
  }

  lemma TailOrdered(log: seq<real>, cut: nat)
    requires Ordered(log) && cut <= |log|
    ensures Ordered(log[cut..])
  {
  }

  lemma KeptTracks(maxRequests: int, windowSeconds: int, window: seq<real>, log: seq<real>, clock: real, now: real,
                   kept: seq<real>)
    requires Tracks(maxRequests, windowSeconds, window, log, clock) && clock <= now
    requires |kept| <= |window| && kept == window[|window| - |kept|..]
    requires forall i :: 0 <= i < |window| - |kept| ==> window[i] < now - windowSeconds as real
    ensures Tracks(maxRequests, windowSeconds, kept, log, now)
  {
    TailCut(window, log, |window| - |kept|, now - windowSeconds as real);
  }

  /** Dropping older entries off a tail of the log leaves a tail, and only older entries before it. */
  lemma TailCut(window: seq<real>, log: seq<real>, cut: nat, cutoff: real)
    requires |window| <= |log| && window == log[|log| - |window|..] && cut <= |window|
    requires forall i :: 0 <= i < |log| - |window| ==> log[i] < cutoff
    requires forall i :: 0 <= i < cut ==> window[i] < cutoff
    ensures window[cut..] == log[|log| - |window[cut..]|..]
    ensures forall i :: 0 <= i < |log| - |window[cut..]| ==> log[i] < cutoff
  {
    forall i | |log| - |window| <= i < |log| - |window[cut..]| ensures log[i] < cutoff {
      assert log[i] == window[i - (|log| - |window|)];
    }
  }

  /** Accepting keeps the window in step with the log, and requests a window apart. */
  lemma AcceptTracks(maxRequests: int, windowSeconds: int, kept: seq<real>, log: seq<real>, now: real)
    requires Tracks(maxRequests, windowSeconds, kept, log, now) && |kept| < maxRequests
    ensures Tracks(maxRequests, windowSeconds, kept + [now], log + [now], now)
  {
  }

  lemma {:induction false} CountNone(log: seq<real>, from: real, to: real)
    requires forall i :: 0 <= i < |log| ==> log[i] < from
    ensures Count(log, from, to) == 0
  {
    if log != [] {
      CountNone(log[..|log| - 1], from, to);
    }
  }

  /** Entries before a point are all too old and those after it all recent: the count is the length of the tail. */
  lemma {:induction false} CountTail(log: seq<real>, from: real, to: real, cut: nat)
    requires cut <= |log|
    requires forall i :: 0 <= i < cut ==> log[i] < from
    requires forall i :: cut <= i < |log| ==> from <= log[i] <= to
    ensures Count(log, from, to) == |log| - cut
  {
    if cut == |log| {
      CountNone(log, from, to);
    } else {
      CountTail(log[..|log| - 1], from, to, cut);
    }
  }

  /** What the window holds is what the log shows for the closed last window. */
  lemma RecentCount(maxRequests: int, windowSeconds: int, kept: seq<real>, log: seq<real>, now: real)
    requires Tracks(maxRequests, windowSeconds, kept, log, now)
    requires forall i :: 0 <= i < |kept| ==> kept[i] >= now - windowSeconds as real
    ensures Count(log, now - windowSeconds as real, now) == |kept|
  {
    var cut := |log| - |kept|;
    forall i | cut <= i < |log| ensures now - windowSeconds as real <= log[i] <= now {
      assert log[i] == kept[i - cut];
    }
    CountTail(log, now - windowSeconds as real, now, cut);
  }

  /** No closed interval as long as the window, wherever it starts, holds more than the maximum. */
  lemma {:induction false} NoWindowExceedsTheMaximum(maxRequests: int, windowSeconds: int, log: seq<real>, from: real)
    requires maxRequests > 0 && Ordered(log) && Spaced(maxRequests, windowSeconds, log)
    ensures Count(log, from, from + windowSeconds as real) <= maxRequests
  {
    var to := from + windowSeconds as real;
    if log != [] {
      var n := |log| - 1;
      if from <= log[n] <= to {
        CountOfRecent(maxRequests, windowSeconds, log, from);
      } else {
        NoWindowExceedsTheMaximum(maxRequests, windowSeconds, log[..n], from);
      }
    }
  }

  /** So for every limiter, whatever was checked and reset before, and every client. */
  lemma LimiterNeverExceedsTheMaximum(limiter: RateLimiter, client: string, from: real)
    requires limiter.Valid()
    ensures Count(limiter.Log(client), from, from + limiter.windowSeconds as real) <= Max(0, limiter.maxRequests)
  {
    if limiter.maxRequests > 0 {
      NoWindowExceedsTheMaximum(limiter.maxRequests, limiter.windowSeconds, limiter.Log(client), from);
    }
  }

  lemma CountOfRecent(maxRequests: int, windowSeconds: int, log: seq<real>, from: real)
    requires maxRequests > 0 && Ordered(log) && Spaced(maxRequests, windowSeconds, log)
    requires log != [] && from <= log[|log| - 1] <= from + windowSeconds as real
    ensures Count(log, from, from + windowSeconds as real) <= maxRequests
  {
    var n := |log| - 1;
    var cut := Max(0, n + 1 - maxRequests);
    forall i | 0 <= i < cut ensures log[i] < from {
      assert log[n] - log[n - maxRequests] > windowSeconds as real && log[i] <= log[n - maxRequests];
    }
    CountFrom(log, from, from + windowSeconds as real, cut);
  }

  lemma {:induction false} CountFrom(log: seq<real>, from: real, to: real, cut: nat)
    requires cut <= |log| && forall i :: 0 <= i < cut ==> log[i] < from
    ensures Count(log, from, to) <= |log| - cut
  {
    if cut == |log| {
      CountNone(log, from, to);
    } else {
      CountFrom(log[..|log| - 1], from, to, cut);
    }
  }

  /**
   * The wait is worth it: while nothing else of this client is accepted, a request any time from then on is
   * accepted, and one any smaller whole number of seconds later is refused.
   */
  ghost predicate LeastWait(maxRequests: int, windowSeconds: int, log: seq<real>, now: real, wait: int) {
    && wait >= 1
    && (forall later: real :: later >= now + wait as real ==> Admits(maxRequests, windowSeconds, log, later))
    && (forall k: nat :: k < wait ==> !AdmitsAfter(maxRequests, windowSeconds, log, now, k))
  }

  ghost predicate AdmitsAfter(maxRequests: int, windowSeconds: int, log: seq<real>, now: real, seconds: nat) {
    Admits(maxRequests, windowSeconds, log, now + seconds as real)
  }

  lemma RetryAfterIsLeastWait(maxRequests: int, windowSeconds: int, kept: seq<real>, log: seq<real>, now: real)
    requires Tracks(maxRequests, windowSeconds, kept, log, now) && kept != [] && |kept| >= maxRequests
    requires forall i :: 0 <= i < |kept| ==> kept[i] >= now - windowSeconds as real
    ensures LeastWait(maxRequests, windowSeconds, log, now, (windowSeconds as real - (now - kept[0])).Floor + 1)
  {
    var wait := (windowSeconds as real - (now - kept[0])).Floor + 1;
    forall later: real | later >= now + wait as real ensures Admits(maxRequests, windowSeconds, log, later) {
      WaitSuffices(maxRequests, windowSeconds, kept, log, now, later);
    }
    forall k: nat | k < wait ensures !AdmitsAfter(maxRequests, windowSeconds, log, now, k) {
      ShorterWaitFails(maxRequests, windowSeconds, kept, log, now, k);
    }
  }

  lemma WaitSuffices(maxRequests: int, windowSeconds: int, kept: seq<real>, log: seq<real>, now: real, later: real)
    requires Tracks(maxRequests, windowSeconds, kept, log, now) && kept != [] && |kept| >= maxRequests
    requires later >= now + ((windowSeconds as real - (now - kept[0])).Floor + 1) as real
    requires kept[0] >= now - windowSeconds as real
    ensures Admits(maxRequests, windowSeconds, log, later)
  {
    var oldest := |log| - |kept|;
    assert log[oldest] == kept[0];
    forall i | 0 <= i < oldest + 1 ensures log[i] < later - windowSeconds as real {
    }
    CountFrom(log, later - windowSeconds as real, later, oldest + 1);
  }

  lemma {:induction false} CountSince(log: seq<real>, from: real, to: real, cut: nat)
    requires Ordered(log) && cut < |log| && from <= log[cut] && forall i :: 0 <= i < |log| ==> log[i] <= to
    ensures Count(log, from, to) >= |log| - cut
  {
    if cut < |log| - 1 {
      CountSince(log[..|log| - 1], from, to, cut);
    }
  }

  lemma WholeSecondsFit(spare: real, wait: nat)
    requires wait < spare.Floor + 1
    ensures wait as real <= spare
  {
  }

  lemma ShorterWaitFails(maxRequests: int, windowSeconds: int, kept: seq<real>, log: seq<real>, now: real, wait: nat)
    requires Tracks(maxRequests, windowSeconds, kept, log, now) && kept != [] && |kept| >= maxRequests
    requires wait < (windowSeconds as real - (now - kept[0])).Floor + 1
    ensures !AdmitsAfter(maxRequests, windowSeconds, log, now, wait)
  {
    var later := now + wait as real;
    var oldest := |log| - |kept|;
    assert log[oldest] == kept[0];
    WholeSecondsFit(windowSeconds as real - (now - kept[0]), wait);
    CountSince(log, later - windowSeconds as real, later, oldest);
  }
}
