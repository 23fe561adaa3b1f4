/** How urgency and claiming read a free-text priority (app/decide/batch_scheduler.py, app/dispatch/job_claimer.py). */
module Priorities {
  import opened Prelude

  function UpperChar(c: char): char {
    if 'a' <= c <= 'z' then 'A' + (c - 'a') else c
  }

  function Upper(s: string): string {
    if s == "" then "" else [UpperChar(s[0])] + Upper(s[1..])
  }

  /** A batch ranks the upper-cased name; a missing or empty name counts as medium, and an unknown one ranks with it. */
  function UrgencyRank(p: Option<string>): int {
    if p == None || p == Some("") then 2 else RankOf(Upper(p.value), 2)
  }

  function RankOf(name: string, unknown: int): int {
    if name == "CRITICAL" then 0
    else if name == "HIGH" then 1
    else if name == "MEDIUM" then 2
    else if name == "LOW" then 3
    else unknown
  }

  /** A claim ranks the name as it is written, with everything else behind all of them. */
  function ClaimRank(p: Option<string>): int {
    if p == None then 4 else RankOf(p.value, 4)
  }

  lemma {:induction false} UpperAt(s: string, k: nat)
    ensures |Upper(s)| == |s|
    ensures k < |s| ==> Upper(s)[k] == UpperChar(s[k])
  {
    if s != "" {
      UpperAt(s[1..], if k == 0 then 0 else k - 1);
    }
  }

  /** The same letter, whatever its case. */
  predicate SameLetter(c: char, d: char) {
    c == d || ('a' <= c <= 'z' && d == 'A' + (c - 'a')) || ('a' <= d <= 'z' && c == 'A' + (d - 'a'))
  }

  lemma UpperIgnoresCase(a: string, b: string)
    requires |a| == |b| && forall k :: 0 <= k < |a| ==> SameLetter(a[k], b[k])
    ensures Upper(a) == Upper(b)
  {
    UpperAt(a, 0);
    UpperAt(b, 0);
    forall k: nat | k < |a| ensures Upper(a)[k] == Upper(b)[k] {
      UpperAt(a, k);
      UpperAt(b, k);
    }
  }

  /** Claiming has the same order for the names in capitals and puts everything else behind all of them. */
  lemma ClaimRanksExact(p: Option<string>)
    ensures ClaimRank(Some("CRITICAL")) < ClaimRank(Some("HIGH")) < ClaimRank(Some("MEDIUM")) < ClaimRank(Some("LOW"))
    ensures p.None? || !IsKnown(p.value) ==> ClaimRank(Some("LOW")) < ClaimRank(p) == ClaimRank(None)
  {
  }

  predicate InCapitals(s: string) {
    forall k :: 0 <= k < |s| ==> !('a' <= s[k] <= 'z')
  }

  lemma CapitalsStay(s: string)
    requires InCapitals(s)
    ensures Upper(s) == s
  {
    UpperAt(s, 0);
    forall k: nat | k < |s| ensures Upper(s)[k] == s[k] {
      UpperAt(s, k);
    }
  }

  predicate IsKnown(name: string) {
    name == "CRITICAL" || name == "HIGH" || name == "MEDIUM" || name == "LOW"
  }

  /** The two rankings agree on the four names written in capitals, and on nothing else. */
  lemma RanksAgreeIff(p: Option<string>)
    ensures UrgencyRank(p) == ClaimRank(p) <==> p.Some? && IsKnown(p.value)
  {
    if p.Some? && IsKnown(p.value) {
      KnownNamesInCapitals(p.value);
      CapitalsStay(p.value);
    }
  }

  lemma KnownNamesInCapitals(name: string)
    requires IsKnown(name)
    ensures InCapitals(name)
  {
  }

  /** Urgency puts critical before high before medium before low. */
  lemma UrgencyRanksInOrder()
    ensures UrgencyRank(Some("CRITICAL")) < UrgencyRank(Some("HIGH")) < UrgencyRank(Some("MEDIUM"))
         < UrgencyRank(Some("LOW"))
  {
    RanksAgreeIff(Some("CRITICAL"));
    RanksAgreeIff(Some("HIGH"));
    RanksAgreeIff(Some("MEDIUM"));
    RanksAgreeIff(Some("LOW"));
    ClaimRanksExact(None);
  }

  /** It ranks a missing, an empty and an unknown priority with medium. */
  lemma OthersRankWithMedium(p: Option<string>)
    requires p.None? || p.value == "" || !IsKnown(Upper(p.value))
    ensures UrgencyRank(p) == UrgencyRank(Some("MEDIUM"))
  {
    KnownNamesInCapitals("MEDIUM");
    CapitalsStay("MEDIUM");
  }

  /** And it ignores case. */
  lemma UrgencyIgnoresCase(a: string, b: string)
    requires |a| == |b| && forall k :: 0 <= k < |a| ==> SameLetter(a[k], b[k])
    ensures UrgencyRank(Some(a)) == UrgencyRank(Some(b))
  {
    UpperIgnoresCase(a, b);
  }
}
