/** Policy-aware ranking of hard-constraint-feasible candidates (app/decide/optimization_policy.py). */
module Ranking {
  import opened Prelude
  import opened Rounding
  import opened Sorting

  datatype Policy = CarbonFirst | CostFirst | CarbonConstrained

  datatype RankError = InvalidTolerance(pct: real)

  const DEFAULT_TOLERANCE_PCT: real := 5.0
  const MIN_TOLERANCE_PCT: real := 0.0
  const MAX_TOLERANCE_PCT: real := 100.0

  /** The accessors a caller supplies: which figure of a candidate counts as carbon, cost and start. */
  datatype Lens<!T(!new)> = Lens(carbon: T -> Option<real>, cost: T -> Option<real>, start: T -> Time)
  {
    function Carbon(c: T): real { carbon(c).GetOr(0.0) }
    function Cost(c: T): real { cost(c).GetOr(0.0) }
    function CarbonBucket(c: T): int { Quantise(Carbon(c)) }
    function CostBucket(c: T): int { Quantise(Cost(c)) }
  }

  /** A figure that is missing counts as nothing. */
  lemma MissingFiguresAreZero<T(!new)>(lens: Lens<T>, c: T)
    ensures lens.Carbon(c) == (if lens.carbon(c).Some? then lens.carbon(c).value else 0.0)
    ensures lens.Cost(c) == (if lens.cost(c).Some? then lens.cost(c).value else 0.0)
  {
  }

  // ---- Sort keys ----

  datatype Key = Key(first: int, second: int, third: int)

  predicate KeyLe(a: Key, b: Key) {
    || a.first < b.first
    || (a.first == b.first && (a.second < b.second || (a.second == b.second && a.third <= b.third)))
  }

  function CarbonFirstKey<T(!new)>(lens: Lens<T>, c: T): Key {
    Key(lens.CarbonBucket(c), lens.CostBucket(c), lens.start(c))
  }

  function CostFirstKey<T(!new)>(lens: Lens<T>, c: T): Key {
    Key(lens.CostBucket(c), lens.CarbonBucket(c), lens.start(c))
  }

  function WithinKey<T(!new)>(lens: Lens<T>, c: T): Key {
    Key(lens.CostBucket(c), lens.start(c), 0)
  }

  function ByCarbon<T(!new)>(lens: Lens<T>): (T, T) -> bool {
    (a, b) => KeyLe(CarbonFirstKey(lens, a), CarbonFirstKey(lens, b))
  }

  function ByCost<T(!new)>(lens: Lens<T>): (T, T) -> bool {
    (a, b) => KeyLe(CostFirstKey(lens, a), CostFirstKey(lens, b))
  }

  function ByCostWithin<T(!new)>(lens: Lens<T>): (T, T) -> bool {
    (a, b) => KeyLe(WithinKey(lens, a), WithinKey(lens, b))
  }

  lemma OrdersAreTotal<T(!new)>(lens: Lens<T>)
    ensures TotalPreorder(ByCarbon(lens)) && TotalPreorder(ByCost(lens)) && TotalPreorder(ByCostWithin(lens))
  {
  }

  ghost predicate DistinctStarts<T(!new)>(lens: Lens<T>, s: seq<T>) {
    forall a, b :: a in s && b in s && lens.start(a) == lens.start(b) ==> a == b
  }

  // ---- The carbon tolerance band ----

  function MinCarbon<T(!new)>(lens: Lens<T>, s: seq<T>): (m: real)
    requires s != []
    ensures forall c :: c in s ==> m <= lens.Carbon(c)
  {
    if |s| == 1 then lens.Carbon(s[0])
    else
      var rest := MinCarbon(lens, s[1..]);
      assert s == [s[0]] + s[1..];
      if lens.Carbon(s[0]) <= rest then lens.Carbon(s[0]) else rest
  }

  lemma {:induction false} MinCarbonAttained<T(!new)>(lens: Lens<T>, s: seq<T>) returns (c: T)
    requires s != []
    ensures c in s && lens.Carbon(c) == MinCarbon(lens, s)
  {
    c := s[0];
    if |s| > 1 && MinCarbon(lens, s[1..]) < lens.Carbon(c) {
      c := MinCarbonAttained(lens, s[1..]);
    }
  }

  function CarbonLimit(minimum: real, pct: real): real {
    minimum * (1.0 + pct / 100.0)
  }

  predicate InBand<T(!new)>(lens: Lens<T>, limit: real, c: T) {
    lens.Carbon(c) <= limit + EPSILON
  }

  /** The candidates inside (or outside) the band, in input order. */
  function Band<T(!new)>(lens: Lens<T>, limit: real, inside: bool, s: seq<T>): seq<T> {
    if s == [] then []
    else
      var front, last := s[..|s| - 1], s[|s| - 1];
      Band(lens, limit, inside, front) + (if InBand(lens, limit, last) == inside then [last] else [])
  }

  function Within<T(!new)>(lens: Lens<T>, limit: real, s: seq<T>): seq<T> {
    Band(lens, limit, true, s)
  }

  function Outside<T(!new)>(lens: Lens<T>, limit: real, s: seq<T>): seq<T> {
    Band(lens, limit, false, s)
  }

  function Tolerance(tol: Option<real>): real {
    tol.GetOr(DEFAULT_TOLERANCE_PCT)
  }

  predicate ValidTolerance(pct: real) {
    MIN_TOLERANCE_PCT <= pct <= MAX_TOLERANCE_PCT
  }

  function Limit<T(!new)>(lens: Lens<T>, tol: Option<real>, s: seq<T>): real
    requires s != []
  {
    CarbonLimit(MinCarbon(lens, s), Tolerance(tol))
  }

  // ---- Ranking ----

  function Rank<T(!new)>(lens: Lens<T>, policy: Policy, tol: Option<real>, s: seq<T>): Result<seq<T>, RankError> {
    if s == [] then Success([])
    else
      match policy
      case CarbonFirst => Success(Sort(ByCarbon(lens), s))
      case CostFirst => Success(Sort(ByCost(lens), s))
      case CarbonConstrained =>
        if !ValidTolerance(Tolerance(tol)) then Failure(InvalidTolerance(Tolerance(tol)))
        else
          var limit := Limit(lens, tol, s);
          Success(Sort(ByCostWithin(lens), Within(lens, limit, s)) + Sort(ByCarbon(lens), Outside(lens, limit, s)))
  }

  lemma BandAppend<T(!new)>(lens: Lens<T>, limit: real, inside: bool, s: seq<T>, c: T)
    ensures Band(lens, limit, inside, s + [c])
         == Band(lens, limit, inside, s) + (if InBand(lens, limit, c) == inside then [c] else [])
  {
    assert (s + [c])[..|s|] == s;
  }

  /** The source's loop that splits the candidates on the tolerance band. */
  method PartitionByBand<T(!new)>(lens: Lens<T>, limit: real, candidates: seq<T>)
    returns (within: seq<T>, outside: seq<T>)
    ensures within == Within(lens, limit, candidates) && outside == Outside(lens, limit, candidates)
  {
    within, outside := [], [];
    for i := 0 to |candidates|
      invariant within == Band(lens, limit, true, candidates[..i])
      invariant outside == Band(lens, limit, false, candidates[..i])
    {
      BandAppend(lens, limit, true, candidates[..i], candidates[i]);
      BandAppend(lens, limit, false, candidates[..i], candidates[i]);
      assert candidates[..i + 1] == candidates[..i] + [candidates[i]];
      if InBand(lens, limit, candidates[i]) {
        within := within + [candidates[i]];
      } else {
        outside := outside + [candidates[i]];
      }
    }
    assert candidates[..|candidates|] == candidates;
  }

  method RankFeasibleCandidates<T(!new)>(lens: Lens<T>, policy: Policy, tol: Option<real>, candidates: seq<T>)
    returns (r: Result<seq<T>, RankError>)
    ensures r == Rank(lens, policy, tol, candidates)
  {
    if candidates == [] {
      return Success([]);
    }
    match policy {
      case CarbonFirst => r := Success(Sort(ByCarbon(lens), candidates));
      case CostFirst => r := Success(Sort(ByCost(lens), candidates));
      case CarbonConstrained =>
        var pct := Tolerance(tol);
        if !ValidTolerance(pct) {
          return Failure(InvalidTolerance(pct));
        }
        var limit := CarbonLimit(MinCarbon(lens, candidates), pct);
        var within, outside := PartitionByBand(lens, limit, candidates);
        r := Success(Sort(ByCostWithin(lens), within) + Sort(ByCarbon(lens), outside));
    }
  }

  /** Ranking refuses its input in exactly one case: a band policy with a tolerance off the 0..100 scale. */
  lemma RankRaises<T(!new)>(lens: Lens<T>, policy: Policy, tol: Option<real>, s: seq<T>)
    ensures Rank(lens, policy, tol, s).Failure?
       <==> s != [] && policy == CarbonConstrained && !(0.0 <= Tolerance(tol) <= 100.0)
  {
  }

  lemma CountLast<T>(s: seq<T>, x: T)
    requires s != []
    ensures multiset(s)[x] == multiset(s[..|s| - 1])[x] + (if s[|s| - 1] == x then 1 else 0)
  {
    assert s == s[..|s| - 1] + [s[|s| - 1]];
  }

  /** Without a stored tolerance the band is five percent wide. */
  lemma DefaultBand<T(!new)>(lens: Lens<T>, policy: Policy, s: seq<T>)
    ensures Rank(lens, policy, None, s) == Rank(lens, policy, Some(5.0), s)
  {
  }

  lemma {:induction false} BandCounts<T(!new)>(lens: Lens<T>, limit: real, inside: bool, s: seq<T>, x: T)
    ensures multiset(Band(lens, limit, inside, s))[x]
         == (if InBand(lens, limit, x) == inside then multiset(s)[x] else 0)
  {
    if s != [] {
      BandCounts(lens, limit, inside, s[..|s| - 1], x);
      CountLast(s, x);
    }
  }

  lemma BandMember<T(!new)>(lens: Lens<T>, limit: real, inside: bool, s: seq<T>, x: T)
    ensures x in Band(lens, limit, inside, s) <==> x in s && InBand(lens, limit, x) == inside
  {
    BandCounts(lens, limit, inside, s, x);
    assert x in Band(lens, limit, inside, s) <==> multiset(Band(lens, limit, inside, s))[x] > 0;
    assert x in s <==> multiset(s)[x] > 0;
  }

  lemma BandPartitions<T(!new)>(lens: Lens<T>, limit: real, s: seq<T>)
    ensures multiset(Within(lens, limit, s)) + multiset(Outside(lens, limit, s)) == multiset(s)
  {
    forall x ensures multiset(Within(lens, limit, s))[x] + multiset(Outside(lens, limit, s))[x] == multiset(s)[x] {
      BandCounts(lens, limit, true, s, x);
      BandCounts(lens, limit, false, s, x);
    }
  }

  /** Nothing is dropped and nothing is invented. */
  lemma RankPermutes<T(!new)>(lens: Lens<T>, policy: Policy, tol: Option<real>, s: seq<T>)
    requires Rank(lens, policy, tol, s).Success?
    ensures IsPermutation(Rank(lens, policy, tol, s).value, s)
    ensures |Rank(lens, policy, tol, s).value| == |s|
    ensures forall c :: c in Rank(lens, policy, tol, s).value <==> c in s
  {
    if s != [] {
      SortPermutes(ByCarbon(lens), s);
      SortPermutes(ByCost(lens), s);
      if policy == CarbonConstrained {
        var limit := Limit(lens, tol, s);
        BandPartitions(lens, limit, s);
        SortPermutes(ByCostWithin(lens), Within(lens, limit, s));
        SortPermutes(ByCarbon(lens), Outside(lens, limit, s));
      }
    }
    PermutationMembers(Rank(lens, policy, tol, s).value, s);
  }

  /** The order a policy promises between a candidate and one listed after it. */
  ghost predicate Precedes<T(!new)>(lens: Lens<T>, policy: Policy, limit: real, a: T, b: T) {
    match policy
    case CarbonFirst => KeyLe(CarbonFirstKey(lens, a), CarbonFirstKey(lens, b))
    case CostFirst => KeyLe(CostFirstKey(lens, a), CostFirstKey(lens, b))
    case CarbonConstrained =>
      if InBand(lens, limit, a) then InBand(lens, limit, b) ==> KeyLe(WithinKey(lens, a), WithinKey(lens, b))
      else !InBand(lens, limit, b) && KeyLe(CarbonFirstKey(lens, a), CarbonFirstKey(lens, b))
  }

  /** Ranked best first; under the band policy every candidate in the band precedes every other one. */
  lemma RankOrders<T(!new)>(lens: Lens<T>, policy: Policy, tol: Option<real>, s: seq<T>, i: nat, j: nat)
    requires s != [] && Rank(lens, policy, tol, s).Success?
    requires i < j < |Rank(lens, policy, tol, s).value|
    ensures Precedes(lens, policy, Limit(lens, tol, s),
                     Rank(lens, policy, tol, s).value[i], Rank(lens, policy, tol, s).value[j])
  {
    OrdersAreTotal(lens);
    match policy {
      case CarbonFirst => SortSorts(ByCarbon(lens), s);
      case CostFirst => SortSorts(ByCost(lens), s);
      case CarbonConstrained => BandOrders(lens, Limit(lens, tol, s), s, i, j);
    }
  }

  lemma BandOrders<T(!new)>(lens: Lens<T>, limit: real, s: seq<T>, i: nat, j: nat)
    requires i < j < |Within(lens, limit, s)| + |Outside(lens, limit, s)|
    ensures var r := Sort(ByCostWithin(lens), Within(lens, limit, s)) + Sort(ByCarbon(lens), Outside(lens, limit, s));
            Precedes(lens, CarbonConstrained, limit, r[i], r[j])
  {
    OrdersAreTotal(lens);
    var within := Sort(ByCostWithin(lens), Within(lens, limit, s));
    var outside := Sort(ByCarbon(lens), Outside(lens, limit, s));
    SortSorts(ByCostWithin(lens), Within(lens, limit, s));
    SortSorts(ByCarbon(lens), Outside(lens, limit, s));
    SortMembers(ByCostWithin(lens), Within(lens, limit, s));
    SortMembers(ByCarbon(lens), Outside(lens, limit, s));
    forall k: nat | k < |within| ensures InBand(lens, limit, within[k]) {
      assert within[k] in within;
      BandMember(lens, limit, true, s, within[k]);
    }
    forall k: nat | k < |outside| ensures !InBand(lens, limit, outside[k]) {
      assert outside[k] in outside;
      BandMember(lens, limit, false, s, outside[k]);
    }
  }

  lemma MinCarbonIgnoresOrder<T(!new)>(lens: Lens<T>, s: seq<T>, t: seq<T>)
    requires s != [] && t != [] && forall c :: c in s <==> c in t
    ensures MinCarbon(lens, s) == MinCarbon(lens, t)
  {
    var a := MinCarbonAttained(lens, s);
    var b := MinCarbonAttained(lens, t);
    assert a in t && b in s;
  }

  /** With distinct start times the ranking is a function of the candidate set, not of its order. */
  lemma RankIgnoresInputOrder<T(!new)>(lens: Lens<T>, policy: Policy, tol: Option<real>, s: seq<T>, t: seq<T>)
    requires IsPermutation(s, t) && DistinctStarts(lens, s)
    ensures Rank(lens, policy, tol, s) == Rank(lens, policy, tol, t)
  {
    PermutationMembers(s, t);
    OrdersAreTotal(lens);
    if s != [] {
      match policy {
        case CarbonFirst => SortIgnoresInputOrder(ByCarbon(lens), s, t);
        case CostFirst => SortIgnoresInputOrder(ByCost(lens), s, t);
        case CarbonConstrained =>
          MinCarbonIgnoresOrder(lens, s, t);
          BandSortIgnoresOrder(lens, Limit(lens, tol, s), s, t);
      }
    }
  }

  lemma BandPermutes<T(!new)>(lens: Lens<T>, limit: real, inside: bool, s: seq<T>, t: seq<T>)
    requires IsPermutation(s, t)
    ensures IsPermutation(Band(lens, limit, inside, s), Band(lens, limit, inside, t))
  {
    forall x ensures multiset(Band(lens, limit, inside, s))[x] == multiset(Band(lens, limit, inside, t))[x] {
      BandCounts(lens, limit, inside, s, x);
      BandCounts(lens, limit, inside, t, x);
    }
  }

  lemma BandSortIgnoresOrder<T(!new)>(lens: Lens<T>, limit: real, s: seq<T>, t: seq<T>)
    requires IsPermutation(s, t) && DistinctStarts(lens, s)
    ensures Sort(ByCostWithin(lens), Within(lens, limit, s)) == Sort(ByCostWithin(lens), Within(lens, limit, t))
    ensures Sort(ByCarbon(lens), Outside(lens, limit, s)) == Sort(ByCarbon(lens), Outside(lens, limit, t))
  {
    OrdersAreTotal(lens);
    BandPermutes(lens, limit, true, s, t);
    BandPermutes(lens, limit, false, s, t);
    forall x
      ensures x in Within(lens, limit, s) ==> x in s
      ensures x in Outside(lens, limit, s) ==> x in s
    {
      BandMember(lens, limit, true, s, x);
      BandMember(lens, limit, false, s, x);
    }
    SortIgnoresInputOrder(ByCostWithin(lens), Within(lens, limit, s), Within(lens, limit, t));
    SortIgnoresInputOrder(ByCarbon(lens), Outside(lens, limit, s), Outside(lens, limit, t));
  }

  // ---- Winners ----

  function Winner<T(!new)>(lens: Lens<T>, policy: Policy, tol: Option<real>, s: seq<T>): T
    requires s != [] && Rank(lens, policy, tol, s).Success?
  {
    RankPermutes(lens, policy, tol, s);
    Rank(lens, policy, tol, s).value[0]
  }

  /** The winner is a candidate and nothing ranks before it. */
  lemma WinnerIsBest<T(!new)>(lens: Lens<T>, policy: Policy, tol: Option<real>, s: seq<T>, c: T)
    requires s != [] && Rank(lens, policy, tol, s).Success? && c in s
    ensures Winner(lens, policy, tol, s) in s
    ensures Precedes(lens, policy, Limit(lens, tol, s), Winner(lens, policy, tol, s), c)
  {
    RankPermutes(lens, policy, tol, s);
    var r := Rank(lens, policy, tol, s).value;
    assert r[0] in r;
    var i :| 0 <= i < |r| && r[i] == c;
    FirstPrecedes(lens, policy, tol, s, i);
  }

  lemma FirstPrecedes<T(!new)>(lens: Lens<T>, policy: Policy, tol: Option<real>, s: seq<T>, i: nat)
    requires s != [] && Rank(lens, policy, tol, s).Success? && i < |Rank(lens, policy, tol, s).value|
    ensures Precedes(lens, policy, Limit(lens, tol, s),
                     Rank(lens, policy, tol, s).value[0], Rank(lens, policy, tol, s).value[i])
  {
    if i > 0 {
      RankOrders(lens, policy, tol, s, 0, i);
    }
  }

  /** Carbon-first: least carbon, of those the cheapest, of those the earliest. */
  lemma CarbonFirstWinner<T(!new)>(lens: Lens<T>, tol: Option<real>, s: seq<T>, c: T)
    requires c in s
    ensures var w := Winner(lens, CarbonFirst, tol, s);
            && lens.CarbonBucket(w) <= lens.CarbonBucket(c)
            && (lens.CarbonBucket(w) == lens.CarbonBucket(c) ==> lens.CostBucket(w) <= lens.CostBucket(c))
            && (lens.CarbonBucket(w) == lens.CarbonBucket(c) && lens.CostBucket(w) == lens.CostBucket(c) ==>
                  lens.start(w) <= lens.start(c))
  {
    WinnerIsBest(lens, CarbonFirst, tol, s, c);
  }

  /** Cost-first: cheapest, of those the least carbon, of those the earliest. */
  lemma CostFirstWinner<T(!new)>(lens: Lens<T>, tol: Option<real>, s: seq<T>, c: T)
    requires c in s
    ensures var w := Winner(lens, CostFirst, tol, s);
            && lens.CostBucket(w) <= lens.CostBucket(c)
            && (lens.CostBucket(w) == lens.CostBucket(c) ==> lens.CarbonBucket(w) <= lens.CarbonBucket(c))
            && (lens.CostBucket(w) == lens.CostBucket(c) && lens.CarbonBucket(w) == lens.CarbonBucket(c) ==>
                  lens.start(w) <= lens.start(c))
  {
    WinnerIsBest(lens, CostFirst, tol, s, c);
  }

  /** The band policy: cheapest of what emits at most the tolerance over the minimum, of those the earliest. */
  lemma BandWinner<T(!new)>(lens: Lens<T>, tol: Option<real>, s: seq<T>, c: T)
    requires c in s && ValidTolerance(Tolerance(tol))
    requires lens.Carbon(c) <= Limit(lens, tol, s) + EPSILON
    ensures var w := Winner(lens, CarbonConstrained, tol, s);
            && lens.Carbon(w) <= Limit(lens, tol, s) + EPSILON
            && lens.CostBucket(w) <= lens.CostBucket(c)
            && (lens.CostBucket(w) == lens.CostBucket(c) ==> lens.start(w) <= lens.start(c))
  {
    WinnerIsBest(lens, CarbonConstrained, tol, s, c);
  }

  /**
   * The band is never empty for emissions that are not negative; in general it is empty exactly when
   * scaling a negative minimum pushes the limit more than one epsilon below it.
   */
  lemma BandNonEmptyIff<T(!new)>(lens: Lens<T>, tol: Option<real>, s: seq<T>)
    requires s != [] && ValidTolerance(Tolerance(tol))
    ensures Within(lens, Limit(lens, tol, s), s) != []
       <==> -MinCarbon(lens, s) * (Tolerance(tol) / 100.0) <= EPSILON
    ensures MinCarbon(lens, s) >= 0.0 ==> Within(lens, Limit(lens, tol, s), s) != []
  {
    LimitGap(MinCarbon(lens, s), Tolerance(tol));
    BandReachesMinimum(lens, Limit(lens, tol, s), s);
  }

  lemma BandReachesMinimum<T(!new)>(lens: Lens<T>, limit: real, s: seq<T>)
    requires s != []
    ensures Within(lens, limit, s) != [] <==> MinCarbon(lens, s) <= limit + EPSILON
  {
    var a := MinCarbonAttained(lens, s);
    BandInhabitedIff(lens, limit, true, s);
  }

  lemma LimitGap(m: real, pct: real)
    requires ValidTolerance(pct)
    ensures m <= CarbonLimit(m, pct) + EPSILON <==> -m * (pct / 100.0) <= EPSILON
    ensures m >= 0.0 ==> m <= CarbonLimit(m, pct) + EPSILON
  {
    LimitAboveMinimum(m, pct);
  }

  lemma BandInhabitedIff<T(!new)>(lens: Lens<T>, limit: real, inside: bool, s: seq<T>)
    ensures Band(lens, limit, inside, s) != [] <==> exists c :: c in s && InBand(lens, limit, c) == inside
  {
    var band := Band(lens, limit, inside, s);
    if band != [] {
      assert band[0] in band;
      BandMember(lens, limit, inside, s, band[0]);
    }
    if c :| c in s && InBand(lens, limit, c) == inside {
      BandMember(lens, limit, inside, s, c);
    }
  }

  lemma LimitAboveMinimum(m: real, pct: real)
    requires ValidTolerance(pct)
    ensures CarbonLimit(m, pct) == m + m * (pct / 100.0)
    ensures -m * (pct / 100.0) == -(m * (pct / 100.0))
    ensures m >= 0.0 ==> m * (pct / 100.0) >= 0.0
  {
  }

  /** Concretely: one candidate at -1 kg with a 5% tolerance leaves nothing in the band. */
  lemma NegativeCarbonEmptiesTheBand(lens: Lens<int>)
    requires lens.carbon(0) == Some(-1.0)
    ensures Rank(lens, CarbonConstrained, Some(5.0), [0]).Success?
    ensures Within(lens, Limit(lens, Some(5.0), [0]), [0]) == []
  {
    assert MinCarbon(lens, [0]) == -1.0;
    BandNonEmptyIff(lens, Some(5.0), [0]);
  }

  /** A band winner is in the band: it emits at most limit + 1e-6. */
  lemma BandWinnerInBand<T(!new)>(lens: Lens<T>, tol: Option<real>, s: seq<T>)
    requires s != [] && ValidTolerance(Tolerance(tol)) && MinCarbon(lens, s) >= 0.0
    ensures lens.Carbon(Winner(lens, CarbonConstrained, tol, s)) <= Limit(lens, tol, s) + EPSILON
  {
    BandNonEmptyIff(lens, tol, s);
    var within := Within(lens, Limit(lens, tol, s), s);
    BandMember(lens, Limit(lens, tol, s), true, s, within[0]);
    assert within[0] in within;
    WinnerIsBest(lens, CarbonConstrained, tol, s, within[0]);
  }

  /** Relaxing the carbon discipline never costs money: cost-first <= band <= carbon-first. */
  lemma CostSandwich<T(!new)>(lens: Lens<T>, tol: Option<real>, s: seq<T>)
    requires s != [] && ValidTolerance(Tolerance(tol))
    requires forall c :: c in s ==> lens.Carbon(c) >= 0.0
    ensures lens.CostBucket(Winner(lens, CostFirst, None, s))
         <= lens.CostBucket(Winner(lens, CarbonConstrained, tol, s))
         <= lens.CostBucket(Winner(lens, CarbonFirst, None, s))
  {
    var m := MinCarbon(lens, s);
    var least := MinCarbonAttained(lens, s);
    LimitAboveMinimum(m, Tolerance(tol));
    WinnerIsBest(lens, CarbonFirst, None, s, least);
    var carbonFirst := Winner(lens, CarbonFirst, None, s);
    QuantiseOrder(lens.Carbon(carbonFirst), m);
    assert InBand(lens, Limit(lens, tol, s), carbonFirst);
    BandWinnerInBand(lens, tol, s);
    WinnerIsBest(lens, CarbonConstrained, tol, s, carbonFirst);
    WinnerIsBest(lens, CostFirst, None, s, Winner(lens, CarbonConstrained, tol, s));
  }

  lemma LimitMonotone(m: real, tight: real, wide: real)
    requires m >= 0.0 && tight <= wide
    ensures CarbonLimit(m, tight) <= CarbonLimit(m, wide)
  {
  }

  /** A wider tolerance never makes the band winner dearer. */
  lemma ToleranceLowersCost<T(!new)>(lens: Lens<T>, tight: real, wide: real, s: seq<T>)
    requires s != [] && 0.0 <= tight <= wide <= 100.0
    requires forall c :: c in s ==> lens.Carbon(c) >= 0.0
    ensures lens.CostBucket(Winner(lens, CarbonConstrained, Some(wide), s))
         <= lens.CostBucket(Winner(lens, CarbonConstrained, Some(tight), s))
  {
    var least := MinCarbonAttained(lens, s);
    var m := MinCarbon(lens, s);
    LimitMonotone(m, tight, wide);
    BandWinnerInBand(lens, Some(tight), s);
    BandWinnerInBand(lens, Some(wide), s);
    var t := Winner(lens, CarbonConstrained, Some(tight), s);
    WinnerIsBest(lens, CarbonConstrained, Some(tight), s, s[0]);
    WinnerIsBest(lens, CarbonConstrained, Some(wide), s, t);
  }
}
