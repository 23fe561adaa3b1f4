/** The stable sort the source calls for every ordering (urgency, ranking, claims, arrivals). */
module Sorting {

  ghost predicate TotalPreorder<T(!new)>(le: (T, T) -> bool) {
    && (forall a, b :: le(a, b) || le(b, a))
    && (forall a, b, c :: le(a, b) && le(b, c) ==> le(a, c))
  }

  ghost predicate Sorted<T>(le: (T, T) -> bool, s: seq<T>) {
    forall i, j :: 0 <= i < j < |s| ==> le(s[i], s[j])
  }

  ghost predicate IsPermutation<T>(s: seq<T>, t: seq<T>) {
    multiset(s) == multiset(t)
  }

  /** Elements of s that are pairwise different under the order: no two distinct elements tie. */
  ghost predicate NoTies<T>(le: (T, T) -> bool, s: seq<T>) {
    forall a, b :: a in s && b in s && le(a, b) && le(b, a) ==> a == b
  }

  function Insert<T>(le: (T, T) -> bool, x: T, s: seq<T>): (r: seq<T>)
    ensures |r| == |s| + 1
  {
    if s == [] then [x]
    else if le(x, s[0]) then [x] + s
    else [s[0]] + Insert(le, x, s[1..])
  }

  /** Stable: x goes before the elements it ties with, and those all came later in the input. */
  function Sort<T>(le: (T, T) -> bool, s: seq<T>): (r: seq<T>)
    ensures |r| == |s|
  {
    if s == [] then [] else Insert(le, s[0], Sort(le, s[1..]))
  }

  lemma {:induction false} InsertPermutes<T>(le: (T, T) -> bool, x: T, s: seq<T>)
    ensures multiset(Insert(le, x, s)) == multiset{x} + multiset(s)
  {
    if s != [] && !le(x, s[0]) {
      InsertPermutes(le, x, s[1..]);
      assert s == [s[0]] + s[1..];
    }
  }

  lemma {:induction false} SortPermutes<T>(le: (T, T) -> bool, s: seq<T>)
    ensures IsPermutation(Sort(le, s), s)
  {
    if s != [] {
      SortPermutes(le, s[1..]);
      InsertPermutes(le, s[0], Sort(le, s[1..]));
      assert s == [s[0]] + s[1..];
    }
  }

  lemma PermutationMembers<T>(s: seq<T>, t: seq<T>)
    requires IsPermutation(s, t)
    ensures |s| == |t|
    ensures forall x :: x in s <==> x in t
  {
    assert |multiset(s)| == |multiset(t)|;
    forall x ensures x in s <==> x in t {
      assert x in s <==> x in multiset(s);
      assert x in t <==> x in multiset(t);
    }
  }

  lemma {:induction false} InsertSorts<T(!new)>(le: (T, T) -> bool, x: T, s: seq<T>)
    requires TotalPreorder(le) && Sorted(le, s)
    ensures Sorted(le, Insert(le, x, s))
  {
    if s != [] && !le(x, s[0]) {
      InsertSorts(le, x, s[1..]);
      InsertPermutes(le, x, s[1..]);
      var r := Insert(le, x, s[1..]);
      PermutationMembers(r, [x] + s[1..]);
      forall j | 0 <= j < |r| ensures le(s[0], r[j]) {
        assert r[j] in [x] + s[1..];
      }
    }
  }

  lemma {:induction false} SortSorts<T(!new)>(le: (T, T) -> bool, s: seq<T>)
    requires TotalPreorder(le)
    ensures Sorted(le, Sort(le, s))
  {
    if s != [] {
      SortSorts(le, s[1..]);
      InsertSorts(le, s[0], Sort(le, s[1..]));
    }
  }

  lemma SortMembers<T>(le: (T, T) -> bool, s: seq<T>)
    ensures |Sort(le, s)| == |s|
    ensures forall x :: x in Sort(le, s) <==> x in s
  {
    SortPermutes(le, s);
    PermutationMembers(Sort(le, s), s);
  }

  lemma TailsPermute<T>(s: seq<T>, t: seq<T>)
    requires s != [] && t != [] && s[0] == t[0] && IsPermutation(s, t)
    ensures IsPermutation(s[1..], t[1..])
  {
    assert s == [s[0]] + s[1..] && t == [t[0]] + t[1..];
    assert multiset(s[1..]) == multiset(s) - multiset{s[0]};
    assert multiset(t[1..]) == multiset(t) - multiset{t[0]};
  }

  /** Two sorted arrangements of the same elements agree when no two distinct elements tie. */
  lemma {:induction false} SortedUnique<T(!new)>(le: (T, T) -> bool, s: seq<T>, t: seq<T>)
    requires TotalPreorder(le) && Sorted(le, s) && Sorted(le, t) && IsPermutation(s, t)
    requires NoTies(le, s)
    ensures s == t
  {
    PermutationMembers(s, t);
    if s != [] {
      assert s[0] == t[0] by {
        assert s[0] in t && t[0] in s;
        assert le(s[0], t[0]) && le(t[0], s[0]);
      }
      TailsPermute(s, t);
      assert forall x :: x in s[1..] ==> x in s;
      SortedUnique(le, s[1..], t[1..]);
    }
  }

  /** Sorting forgets the input order when no two distinct elements tie. */
  lemma SortIgnoresInputOrder<T(!new)>(le: (T, T) -> bool, s: seq<T>, t: seq<T>)
    requires TotalPreorder(le) && IsPermutation(s, t) && NoTies(le, s)
    ensures Sort(le, s) == Sort(le, t)
  {
    SortPermutes(le, s);
    SortPermutes(le, t);
    SortSorts(le, s);
    SortSorts(le, t);
    SortMembers(le, s);
    SortedUnique(le, Sort(le, s), Sort(le, t));
  }

  /** Elements that all come strictly later sort into a suffix and leave the prefix alone. */
  lemma SortSplits<T(!new)>(le: (T, T) -> bool, early: seq<T>, late: seq<T>, all: seq<T>)
    requires TotalPreorder(le) && IsPermutation(all, early + late) && NoTies(le, all)
    requires forall a, b :: a in early && b in late ==> le(a, b)
    ensures Sort(le, all) == Sort(le, early) + Sort(le, late)
  {
    SortPermutes(le, early);
    SortPermutes(le, late);
    SortSorts(le, early);
    SortSorts(le, late);
    SortMembers(le, early);
    SortMembers(le, late);
    SortPermutes(le, all);
    SortSorts(le, all);
    SortMembers(le, all);
    var joined := Sort(le, early) + Sort(le, late);
    assert multiset(joined) == multiset(early) + multiset(late) == multiset(early + late);
    forall i, j | 0 <= i < j < |joined| ensures le(joined[i], joined[j]) {
      if i < |early| <= j {
        assert joined[i] in Sort(le, early) && joined[j] in Sort(le, late);
      }
    }
    SortedUnique(le, Sort(le, all), joined);
  }

  function TiedWith<T>(le: (T, T) -> bool, x: T, s: seq<T>): seq<T> {
    if s == [] then []
    else (if le(x, s[0]) && le(s[0], x) then [s[0]] else []) + TiedWith(le, x, s[1..])
  }

  lemma {:induction false} InsertKeepsTies<T(!new)>(le: (T, T) -> bool, x: T, y: T, s: seq<T>)
    requires TotalPreorder(le)
    ensures TiedWith(le, x, Insert(le, y, s)) == TiedWith(le, x, [y] + s)
  {
    if s != [] && !le(y, s[0]) {
      InsertKeepsTies(le, x, y, s[1..]);
      assert ([y] + s)[1..] == s && ([y] + s[1..])[1..] == s[1..];
      var r := Insert(le, y, s[1..]);
      assert ([s[0]] + r)[1..] == r;
    }
  }

  /** Elements that tie keep their input order. */
  lemma {:induction false} SortStable<T(!new)>(le: (T, T) -> bool, x: T, s: seq<T>)
    requires TotalPreorder(le)
    ensures TiedWith(le, x, Sort(le, s)) == TiedWith(le, x, s)
  {
    if s != [] {
      SortStable(le, x, s[1..]);
      InsertKeepsTies(le, x, s[0], Sort(le, s[1..]));
      var r := Sort(le, s[1..]);
      assert ([s[0]] + r)[1..] == r;
    }
  }

  ghost predicate Distinct<T>(s: seq<T>) {
    forall i, j :: 0 <= i < j < |s| ==> s[i] != s[j]
  }

  lemma {:induction false} DistinctOnce<T>(s: seq<T>, x: T)
    requires Distinct(s)
    ensures multiset(s)[x] <= 1
  {
    if s != [] {
      DistinctOnce(s[1..], x);
      assert s == [s[0]] + s[1..];
      assert x in s[1..] ==> exists k :: 0 <= k < |s[1..]| && s[1..][k] == x && s[k + 1] == x;
    }
  }

  lemma RepeatCountsTwice<T>(s: seq<T>, i: nat, j: nat)
    requires i < j < |s| && s[i] == s[j]
    ensures multiset(s)[s[i]] >= 2
  {
    assert s == s[..j] + s[j..] && s[i] == s[..j][i] && s[j] == s[j..][0];
    assert s[i] in multiset(s[..j]) && s[i] in multiset(s[j..]);
  }

  lemma PermutedDistinct<T>(s: seq<T>, t: seq<T>)
    requires IsPermutation(s, t) && Distinct(t)
    ensures Distinct(s)
  {
    forall i, j | 0 <= i < j < |s| ensures s[i] != s[j] {
      DistinctOnce(t, s[i]);
      if s[i] == s[j] {
        RepeatCountsTwice(s, i, j);
      }
    }
  }
}
