/**
 * The two maintenance scripts that number employees within their company:
 * backend/resequence_ids.py renumbers each company's profiles 1..n, and
 * backend/backfill_ids.py gives a number to profiles that have none.
 *
 * The profile table is an array updated in place. Its order stands for the
 * order the queries return (by user id for the resequencing). A company id
 * or employee number of 0 stands for NULL, which the scripts treat alike.
 */
module EmployeeIds {
  import opened Common

  datatype Profile = Profile(userId: int, companyId: int, employeeId: int)

  /** How many profiles before `i` belong to company `c`. */
  function RankBefore(s: seq<Profile>, i: int, c: int): (r: nat)
    requires 0 <= i <= |s|
    ensures r <= i
  {
    if i == 0 then 0 else RankBefore(s, i - 1, c) + (if s[i - 1].companyId == c then 1 else 0)
  }

  /** Each profile of a company gets its position among that company's profiles, from 1. */
  function Resequenced(s: seq<Profile>): (r: seq<Profile>)
    ensures |r| == |s|
    ensures forall i :: 0 <= i < |s| ==> r[i].userId == s[i].userId && r[i].companyId == s[i].companyId
  {
    seq(|s|, i requires 0 <= i < |s| =>
      if s[i].companyId == 0 then s[i] else s[i].(employeeId := RankBefore(s, i, s[i].companyId) + 1))
  }

  /** Number of positions below `n` where `a` and `b` differ. */
  function DiffCount(a: seq<Profile>, b: seq<Profile>, n: int): nat
    requires 0 <= n <= |a| && n <= |b|
  {
    if n == 0 then 0 else DiffCount(a, b, n - 1) + (if a[n - 1] != b[n - 1] then 1 else 0)
  }

  /** Number of positions below `n` of company `c` where `a` and `b` differ. */
  function DiffIn(a: seq<Profile>, b: seq<Profile>, c: int, n: int): nat
    requires 0 <= n <= |a| && n <= |b|
  {
    if n == 0 then 0 else DiffIn(a, b, c, n - 1) + (if a[n - 1].companyId == c && a[n - 1] != b[n - 1] then 1 else 0)
  }

  /** Σ over the (non-null) companies of `cs` of their differing positions. */
  function CompanySum(cs: seq<int>, a: seq<Profile>, b: seq<Profile>, n: int): nat
    requires 0 <= n <= |a| && n <= |b|
  {
    if cs == [] then 0
    else
      var last := cs[|cs| - 1];
      CompanySum(cs[..|cs| - 1], a, b, n) + (if last != 0 then DiffIn(a, b, last, n) else 0)
  }

  lemma {:induction false} CompanySumStep(cs: seq<int>, a: seq<Profile>, b: seq<Profile>, n: int)
    requires NoDuplicates(cs)
    requires 0 < n <= |a| && n <= |b|
    ensures CompanySum(cs, a, b, n) == CompanySum(cs, a, b, n - 1)
      + (if a[n - 1] != b[n - 1] && a[n - 1].companyId in cs && a[n - 1].companyId != 0 then 1 else 0)
  {
    if cs != [] {
      var init := cs[..|cs| - 1];
      assert NoDuplicates(init);
      CompanySumStep(init, a, b, n);
      assert forall x :: x in cs <==> x in init || x == cs[|cs| - 1];
    }
  }

  /** Counting company by company counts every changed profile exactly once. */
  lemma {:induction false} CompanySumIsDiffCount(cs: seq<int>, a: seq<Profile>, b: seq<Profile>, n: int)
    requires NoDuplicates(cs)
    requires 0 <= n <= |a| && n <= |b|
    requires forall j :: 0 <= j < n && a[j] != b[j] ==> a[j].companyId != 0 && a[j].companyId in cs
    ensures CompanySum(cs, a, b, n) == DiffCount(a, b, n)
  {
    if n == 0 {
      ZeroCompanySum(cs, a, b);
    } else {
      CompanySumIsDiffCount(cs, a, b, n - 1);
      CompanySumStep(cs, a, b, n);
    }
  }

  lemma {:induction false} ZeroCompanySum(cs: seq<int>, a: seq<Profile>, b: seq<Profile>)
    ensures CompanySum(cs, a, b, 0) == 0
  {
    if cs != [] {
      ZeroCompanySum(cs[..|cs| - 1], a, b);
    }
  }

  lemma {:induction false} DiffCountZero(a: seq<Profile>, b: seq<Profile>, n: int)
    requires 0 <= n <= |a| && n <= |b|
    ensures DiffCount(a, b, n) == 0 <==> forall j :: 0 <= j < n ==> a[j] == b[j]
  {
    if n > 0 {
      DiffCountZero(a, b, n - 1);
    }
  }

  /** Whether profile `j` has been renumbered once companies `cs`, and company `cid` up to `i`, are done. */
  predicate Done(s0: seq<Profile>, cs: seq<int>, cid: int, i: int, j: int)
    requires 0 <= j < |s0|
  {
    s0[j].companyId != 0 && (s0[j].companyId in cs || (s0[j].companyId == cid && j < i))
  }

  /** The table part-way through the renumbering. */
  function Stage(s0: seq<Profile>, cs: seq<int>, cid: int, i: int): (r: seq<Profile>)
    ensures |r| == |s0|
  {
    seq(|s0|, j requires 0 <= j < |s0| => if Done(s0, cs, cid, i, j) then Resequenced(s0)[j] else s0[j])
  }

  lemma StageStep(s0: seq<Profile>, cs: seq<int>, cid: int, i: int)
    requires 0 <= i < |s0| && cid != 0 && cid !in cs
    ensures Stage(s0, cs, cid, i)[i] == s0[i] || s0[i].companyId != cid
    ensures s0[i].companyId == cid ==> Stage(s0, cs, cid, i + 1) == Stage(s0, cs, cid, i)[i := Resequenced(s0)[i]]
    ensures s0[i].companyId != cid ==> Stage(s0, cs, cid, i + 1) == Stage(s0, cs, cid, i)
  {
  }

  lemma StageEnds(s0: seq<Profile>, cs: seq<int>, cid: int)
    requires cid != 0
    ensures Stage(s0, cs, 0, 0) == Stage(s0, cs, cid, 0)
    ensures Stage(s0, cs, cid, |s0|) == Stage(s0, cs + [cid], 0, 0)
  {
    assert forall x :: x in cs + [cid] <==> x in cs || x == cid;
  }

  /** The inner loop of `resequence_ids`: number the profiles of company `cid` from 1. */
  method NumberCompany(profiles: array<Profile>, ghost s0: seq<Profile>, ghost cs: seq<int>, cid: int)
    returns (updates: nat)
    requires cid != 0 && cid !in cs && |s0| == profiles.Length
    requires profiles[..] == Stage(s0, cs, 0, 0)
    modifies profiles
    ensures profiles[..] == Stage(s0, cs + [cid], 0, 0)
    ensures updates == DiffIn(s0, Resequenced(s0), cid, profiles.Length)
  {
    StageEnds(s0, cs, cid);
    var current := 1;
    updates := 0;
    for i := 0 to profiles.Length
      invariant profiles[..] == Stage(s0, cs, cid, i)
      invariant current == RankBefore(s0, i, cid) + 1
      invariant updates == DiffIn(s0, Resequenced(s0), cid, i)
    {
      StageStep(s0, cs, cid, i);
      if profiles[i].companyId == cid {
        if profiles[i].employeeId != current {
          profiles[i] := profiles[i].(employeeId := current);
          updates := updates + 1;
        }
        current := current + 1;
      }
    }
  }

  /**
   * `resequence_ids`: for each company, walk its profiles in user-id order
   * with a counter from 1 and store the counter where it differs; commit
   * only when something changed.
   */
  method Resequence(profiles: array<Profile>, companies: seq<int>) returns (totalUpdates: nat, committed: bool)
    requires NoDuplicates(companies)
    requires forall j :: 0 <= j < profiles.Length && profiles[j].companyId != 0 ==> profiles[j].companyId in companies
    modifies profiles
    ensures profiles[..] == Resequenced(old(profiles[..]))
    ensures totalUpdates == DiffCount(old(profiles[..]), profiles[..], profiles.Length)
    ensures committed <==> old(profiles[..]) != profiles[..]
  {
    ghost var s0 := profiles[..];
    ghost var t := Resequenced(s0);
    var n := profiles.Length;
    totalUpdates := 0;
    assert Stage(s0, [], 0, 0) == s0;
    for k := 0 to |companies|
      invariant NoDuplicates(companies[..k])
      invariant profiles[..] == Stage(s0, companies[..k], 0, 0)
      invariant totalUpdates == CompanySum(companies[..k], s0, t, n)
    {
      var cid := companies[k];
      assert companies[..k + 1] == companies[..k] + [cid];
      assert companies[..k + 1][..k] == companies[..k];
      if cid == 0 {
        assert forall j :: 0 <= j < n ==> (Done(s0, companies[..k], 0, 0, j) <==> Done(s0, companies[..k + 1], 0, 0, j));
        assert Stage(s0, companies[..k + 1], 0, 0) == Stage(s0, companies[..k], 0, 0);
        continue;
      }
      var u := NumberCompany(profiles, s0, companies[..k], cid);
      totalUpdates := totalUpdates + u;
    }
    assert companies[..|companies|] == companies;
    assert profiles[..] == t;
    CompanySumIsDiffCount(companies, s0, t, n);
    DiffCountZero(s0, t, n);
    committed := totalUpdates > 0;
  }

  lemma {:induction false} RankGrows(s: seq<Profile>, i: int, j: int, c: int)
    requires 0 <= i < j <= |s| && s[i].companyId == c
    ensures RankBefore(s, i, c) < RankBefore(s, j, c)
  {
    if j > i + 1 {
      RankGrows(s, i, j - 1, c);
    }
  }

  /**
   * After resequencing, the profiles of each company carry 1..n in user-id
   * order: every number is between 1 and the company's head count, and a
   * later profile has a larger number.
   */
  lemma ResequencedNumbering(s: seq<Profile>, i: int, j: int)
    requires 0 <= i < j < |s| && s[i].companyId != 0 && s[i].companyId == s[j].companyId
    ensures 1 <= Resequenced(s)[i].employeeId < Resequenced(s)[j].employeeId <= RankBefore(s, |s|, s[i].companyId)
  {
    RankGrows(s, i, j, s[i].companyId);
    RankGrows(s, j, |s|, s[i].companyId);
  }

  lemma {:induction false} RankSameCompanies(a: seq<Profile>, b: seq<Profile>, i: int, c: int)
    requires |a| == |b| && 0 <= i <= |a|
    requires forall j :: 0 <= j < |a| ==> a[j].companyId == b[j].companyId
    ensures RankBefore(a, i, c) == RankBefore(b, i, c)
  {
    if i > 0 {
      RankSameCompanies(a, b, i - 1, c);
    }
  }

  /** A second run changes nothing. */
  lemma ResequenceIdempotent(s: seq<Profile>)
    ensures Resequenced(Resequenced(s)) == Resequenced(s)
  {
    var r := Resequenced(s);
    forall i | 0 <= i < |s|
      ensures Resequenced(r)[i] == r[i]
    {
      RankSameCompanies(s, r, i, s[i].companyId);
    }
  }

  // ---------------------------------------------------------------------
  // backfill_ids
  // ---------------------------------------------------------------------

  /** `company_counters[c]` after the first `i` profiles. */
  function Counter(s: seq<Profile>, i: int, c: int): (r: int)
    requires 0 <= i <= |s|
    ensures r >= 0
  {
    if i == 0 then 0
    else
      var p := s[i - 1];
      var prev := Counter(s, i - 1, c);
      if p.companyId != c || c == 0 then prev
      else if p.employeeId == 0 then prev + 1
      else if p.employeeId > prev then p.employeeId
      else prev
  }

  /** `backfill_ids` as written: a profile without a number gets its company's counter + 1. */
  function Backfilled(s: seq<Profile>): (r: seq<Profile>)
    ensures |r| == |s|
    ensures forall i :: 0 <= i < |s| ==> r[i].userId == s[i].userId && r[i].companyId == s[i].companyId
    ensures forall i :: 0 <= i < |s| && (s[i].companyId == 0 || s[i].employeeId != 0) ==> r[i] == s[i]
    ensures forall i :: 0 <= i < |s| && s[i].companyId != 0 ==> r[i].employeeId != 0
  {
    seq(|s|, i requires 0 <= i < |s| =>
      if s[i].companyId == 0 || s[i].employeeId != 0 then s[i]
      else s[i].(employeeId := Counter(s, i, s[i].companyId) + 1))
  }

  /** `counters` holds `company_counters` after the first `i` profiles; a missing key reads as 0. */
  ghost predicate CountersAfter(counters: map<int, int>, s: seq<Profile>, i: int)
    requires 0 <= i <= |s|
  {
    forall c :: Counter(s, i, c) == if c in counters then counters[c] else 0
  }

  lemma CountersStep(counters: map<int, int>, s: seq<Profile>, i: int, counter: int)
    requires 0 <= i < |s| && s[i].companyId != 0 && CountersAfter(counters, s, i)
    requires counter == Counter(s, i + 1, s[i].companyId)
    ensures CountersAfter(counters[s[i].companyId := counter], s, i + 1)
  {
  }

  /** Exactly the profiles of a company that lack a number are changed. */
  lemma BackfillChangeCount(s: seq<Profile>, i: int)
    requires 0 <= i < |s|
    ensures DiffCount(s, Backfilled(s), i + 1)
      == DiffCount(s, Backfilled(s), i) + if s[i].companyId != 0 && s[i].employeeId == 0 then 1 else 0
  {
  }

  /** The scan of `backfill_ids`, with its per-company counters; commits only when a number was given. */
  method Backfill(profiles: array<Profile>) returns (updates: nat, committed: bool)
    modifies profiles
    ensures profiles[..] == Backfilled(old(profiles[..]))
    ensures updates == DiffCount(old(profiles[..]), profiles[..], profiles.Length)
    ensures committed <==> updates > 0
  {
    ghost var s0 := profiles[..];
    ghost var t := Backfilled(s0);
    var counters: map<int, int> := map[];
    updates := 0;
    for i := 0 to profiles.Length
      invariant profiles[..i] == t[..i] && profiles[i..] == s0[i..]
      invariant CountersAfter(counters, s0, i)
      invariant updates == DiffCount(s0, t, i)
    {
      var p := profiles[i];
      assert p == s0[i];
      BackfillChangeCount(s0, i);
      var cid := p.companyId;
      if cid == 0 {
        assert t[i] == s0[i];
        continue;
      }
      var counter := if cid in counters then counters[cid] else 0;
      if p.employeeId == 0 {
        counter := counter + 1;
        profiles[i] := p.(employeeId := counter);
        updates := updates + 1;
      } else if p.employeeId > counter {
        counter := p.employeeId;
      }
      CountersStep(counters, s0, i, counter);
      counters := counters[cid := counter];
    }
    assert profiles[..] == profiles[..profiles.Length];
    committed := updates > 0;
  }

  /** Counters never go down. */
  lemma {:induction false} CounterMonotone(s: seq<Profile>, i: int, j: int, c: int)
    requires 0 <= i <= j <= |s|
    ensures Counter(s, i, c) <= Counter(s, j, c)
  {
    if i < j {
      CounterMonotone(s, i, j - 1, c);
    }
  }

  /**
   * The counter is the largest number a profile of the company carries so
   * far (given or kept), or 0 when there is none.
   */
  lemma {:induction false} CounterIsLargestSoFar(s: seq<Profile>, i: int, c: int)
    requires 0 <= i <= |s| && c != 0
    ensures forall j :: 0 <= j < i && s[j].companyId == c ==> Backfilled(s)[j].employeeId <= Counter(s, i, c)
    ensures Counter(s, i, c) == 0
      || exists j :: 0 <= j < i && s[j].companyId == c && Backfilled(s)[j].employeeId == Counter(s, i, c)
  {
    if i > 0 {
      CounterIsLargestSoFar(s, i - 1, c);
      var t := Backfilled(s);
      if s[i - 1].companyId == c && Counter(s, i, c) != Counter(s, i - 1, c) {
        assert t[i - 1].employeeId == Counter(s, i, c);
      }
    }
  }

  /** A number the backfill gives differs from every number its company showed before it. */
  lemma GivenNumberIsNewSoFar(s: seq<Profile>, i: int, j: int)
    requires 0 <= j < i < |s| && s[i].companyId != 0 && s[i].employeeId == 0
    requires s[j].companyId == s[i].companyId
    ensures Backfilled(s)[j].employeeId < Backfilled(s)[i].employeeId
  {
    CounterIsLargestSoFar(s, i, s[i].companyId);
  }

  /**
   * A profile without a number that comes before a profile already numbered
   * 1 is given 1 as well: the company ends with two employees numbered 1.
   */
  lemma BackfillCanDuplicate()
    ensures var s := [Profile(10, 5, 0), Profile(11, 5, 1)];
      Backfilled(s)[0].employeeId == 1 && Backfilled(s)[1].employeeId == 1
  {
    var s := [Profile(10, 5, 0), Profile(11, 5, 1)];
    assert Counter(s, 0, 5) == 0;
  }

  /** The largest number already held in company `c` among the first `n` profiles, or 0. */
  function MaxHeld(s: seq<Profile>, n: int, c: int): (r: int)
    requires 0 <= n <= |s|
    ensures r >= 0
    ensures forall j :: 0 <= j < n && s[j].companyId == c && s[j].employeeId != 0 ==> s[j].employeeId <= r
  {
    if n == 0 then 0
    else
      var prev := MaxHeld(s, n - 1, c);
      var p := s[n - 1];
      if p.companyId == c && p.employeeId != 0 && p.employeeId > prev then p.employeeId else prev
  }

  /** How many profiles of company `c` before `i` have no number. */
  function MissingBefore(s: seq<Profile>, i: int, c: int): (r: nat)
    requires 0 <= i <= |s|
  {
    if i == 0 then 0
    else MissingBefore(s, i - 1, c) + (if s[i - 1].companyId == c && s[i - 1].employeeId == 0 then 1 else 0)
  }

  /**
   * The backfill with its counters started at each company's largest
   * number over the whole table: numbers are handed out above every number
   * already in use.
   */
  function BackfilledAboveAll(s: seq<Profile>): (r: seq<Profile>)
    ensures |r| == |s|
    ensures forall i :: 0 <= i < |s| ==> r[i].userId == s[i].userId && r[i].companyId == s[i].companyId
    ensures forall i :: 0 <= i < |s| && (s[i].companyId == 0 || s[i].employeeId != 0) ==> r[i] == s[i]
  {
    seq(|s|, i requires 0 <= i < |s| =>
      if s[i].companyId == 0 || s[i].employeeId != 0 then s[i]
      else s[i].(employeeId := MaxHeld(s, |s|, s[i].companyId) + MissingBefore(s, i, s[i].companyId) + 1))
  }

  /** No two profiles of a company share a number, and every one has a number. */
  predicate NumbersUnique(s: seq<Profile>)
  {
    forall i, j :: 0 <= i < j < |s| && s[i].companyId != 0 && s[i].companyId == s[j].companyId ==>
      s[i].employeeId != s[j].employeeId
  }

  /** The numbers already held are distinct within each company. */
  predicate HeldUnique(s: seq<Profile>)
  {
    forall i, j ::
      0 <= i < j < |s| && s[i].companyId != 0 && s[i].companyId == s[j].companyId && s[i].employeeId != 0 && s[j].employeeId != 0
      ==> s[i].employeeId != s[j].employeeId
  }

  lemma {:induction false} MissingGrows(s: seq<Profile>, i: int, j: int, c: int)
    requires 0 <= i < j <= |s| && s[i].companyId == c && s[i].employeeId == 0
    ensures MissingBefore(s, i, c) < MissingBefore(s, j, c)
  {
    if j > i + 1 {
      MissingGrows(s, i, j - 1, c);
    }
  }

  /** Started above all numbers in use, the backfill never repeats a number within a company. */
  lemma AboveAllKeepsNumbersUnique(s: seq<Profile>)
    requires HeldUnique(s)
    ensures NumbersUnique(BackfilledAboveAll(s))
    ensures forall i :: 0 <= i < |s| && s[i].companyId != 0 ==> BackfilledAboveAll(s)[i].employeeId != 0
  {
    var r := BackfilledAboveAll(s);
    forall i, j | 0 <= i < j < |s| && r[i].companyId != 0 && r[i].companyId == r[j].companyId
      ensures r[i].employeeId != r[j].employeeId
    {
      var c := s[i].companyId;
      if s[i].employeeId == 0 && s[j].employeeId == 0 {
        MissingGrows(s, i, j, c);
      }
    }
  }
}
