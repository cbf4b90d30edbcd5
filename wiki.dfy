/**
 * The statistics generate_file_upload_wiki.py computes over the packages file test-stats.py
 * writes: for each of ten categories, how many records fall in it and which percentage of
 * all records that is, rendered as "48 (42%)".  The records are read back with `eval`; here
 * they are the values test-stats.py stored.
 */
module Wiki {
  import opened Wrappers
  import opened Text
  import opened Json
  import opened Records
  import Tools
  import TestStats

  /** The ten key paths _get_packages_number_in_category is asked about. */
  datatype Category =
    | DistgitTestYml | DistgitMissing | DistgitPending
    | DistgitClassic | DistgitContainer | DistgitAtomic
    | UpstreamTestYml | UpstreamClassic | UpstreamContainer | UpstreamAtomic

  /** Whether the value at the category's key path of a record is truthy. */
  predicate InCategory(r: PackageRecord, c: Category)
  {
    match c
    case DistgitTestYml => r.distgit.testYml
    case DistgitMissing => Truthy(r.distgit.missing)
    case DistgitPending => r.distgit.pending.status
    case DistgitClassic => r.distgit.testTags.classic
    case DistgitContainer => r.distgit.testTags.container
    case DistgitAtomic => r.distgit.testTags.atomic
    case UpstreamTestYml => r.upstreamfirst.testYml
    case UpstreamClassic => r.upstreamfirst.testTags.classic
    case UpstreamContainer => r.upstreamfirst.testTags.container
    case UpstreamAtomic => r.upstreamfirst.testTags.atomic
  }

  /** How many records are in the category; never more than there are records. */
  function CountIn(records: seq<PackageRecord>, c: Category): (n: nat)
    ensures n <= |records|
    decreases |records|
  {
    if records == [] then 0
    else CountIn(records[..|records| - 1], c) + (if InCategory(records[|records| - 1], c) then 1 else 0)
  }

  // ---------------------------------------------------------------------------
  // Percentages

  /**
   * Python 3's `round(p / q)`: the integer nearest to p/q, and the even one of the two when
   * p/q lies exactly half-way between them.
   */
  function RoundHalfEven(p: int, q: int): (r: int)
    requires p >= 0 && q > 0
    ensures r >= 0
    ensures -q <= 2 * (p - r * q) <= q
    ensures 2 * (p - r * q) == q || 2 * (p - r * q) == -q ==> r % 2 == 0
  {
    var f := p / q;
    var rem := p % q;
    assert p - f * q == rem;
    assert p - (f + 1) * q == rem - q;
    if 2 * rem < q then f
    else if 2 * rem > q then f + 1
    else if f % 2 == 0 then f
    else f + 1
  }

  lemma Distribute(a: int, b: int, q: int)
    ensures (a - b) * q == a * q - b * q
  {
  }

  lemma SmallMultiple(d: int, q: int)
    requires q > 0 && -q <= d * q <= q
    ensures -1 <= d <= 1
  {
  }

  lemma AtMostOne(d: int, q: int)
    requires q > 0 && d * q <= q
    ensures d <= 1
  {
  }

  /** Two integers nearest to p/q, ties going to the even one, are the same integer. */
  lemma NearestUnique(p: int, q: int, r: int, s: int)
    requires q > 0
    requires -q <= 2 * (p - r * q) <= q
    requires 2 * (p - r * q) == q || 2 * (p - r * q) == -q ==> r % 2 == 0
    requires -q <= 2 * (p - s * q) <= q
    requires 2 * (p - s * q) == q || 2 * (p - s * q) == -q ==> s % 2 == 0
    ensures r == s
  {
    Distribute(s, r, q);
    SmallMultiple(s - r, q);
    assert s - r == 1 ==> (s - r) * q == q;
    assert s - r == -1 ==> (s - r) * q == -q;
  }

  /** The rounding is the only integer with its two properties. */
  lemma RoundHalfEvenUnique(p: int, q: int, r: int)
    requires p >= 0 && q > 0
    requires -q <= 2 * (p - r * q) <= q
    requires 2 * (p - r * q) == q || 2 * (p - r * q) == -q ==> r % 2 == 0
    ensures r == RoundHalfEven(p, q)
  {
    NearestUnique(p, q, r, RoundHalfEven(p, q));
  }

  /** A larger numerator never rounds to less. */
  lemma RoundHalfEvenMonotonic(p1: int, p2: int, q: int)
    requires 0 <= p1 <= p2 && q > 0
    ensures RoundHalfEven(p1, q) <= RoundHalfEven(p2, q)
  {
    var a := RoundHalfEven(p1, q);
    var b := RoundHalfEven(p2, q);
    Distribute(a, b, q);
    AtMostOne(a - b, q);
    assert a - b == 1 ==> (a - b) * q == q;
  }

  /** `round((100 * n) / total)`, the percentage the statistics show. */
  function Percent(n: nat, total: nat): (pct: nat)
    requires total > 0
    ensures n <= total ==> pct <= 100
    ensures n == 0 ==> pct == 0
    ensures n == total ==> pct == 100
  {
    RoundHalfEvenUnique(0, total, 0);
    RoundHalfEvenUnique(100 * total, total, 100);
    if n <= total then RoundHalfEvenMonotonic(100 * n, 100 * total, total); RoundHalfEven(100 * n, total)
    else RoundHalfEven(100 * n, total)
  }

  /** More records in a category never show a smaller percentage. */
  lemma PercentMonotonic(m: nat, n: nat, total: nat)
    requires total > 0 && m <= n
    ensures Percent(m, total) <= Percent(n, total)
  {
    RoundHalfEvenMonotonic(100 * m, 100 * n, total);
  }

  /** The "{} ({}%)" rendering of a count. */
  function FormatCount(n: nat, total: nat): string
    requires total > 0
  {
    NatToString(n) + " (" + NatToString(Percent(n, total)) + "%)"
  }

  /** A category holding an eighth of the records shows 12%: the tie 12.5 goes to the even 12. */
  lemma OneEighthRoundsDown()
    ensures FormatCount(1, 8) == "1 (12%)"
  {
    RoundHalfEvenUnique(100, 8, 12);
  }

  /** Three eighths, 37.5, go up to the even 38. */
  lemma ThreeEighthsRoundUp()
    ensures FormatCount(3, 8) == "3 (38%)"
  {
    RoundHalfEvenUnique(300, 8, 38);
  }

  /** A third shows 33%. */
  lemma OneThirdRoundsDown()
    ensures FormatCount(1, 3) == "1 (33%)"
  {
    RoundHalfEvenUnique(100, 3, 33);
  }

  // ---------------------------------------------------------------------------
  // Counting

  /**
   * _get_packages_number_in_category, generate_file_upload_wiki.py:115-137: the count of the
   * records in the category and its percentage of `total`; None where the division by a zero
   * total raises.
   */
  method NumberInCategory(total: nat, records: seq<PackageRecord>, c: Category) returns (s: Option<string>)
    ensures s.None? <==> total == 0
    ensures s.Some? ==> s.value == FormatCount(CountIn(records, c), total)
  {
    var number := 0;
    for i := 0 to |records|
      invariant number == CountIn(records[..i], c)
    {
      if InCategory(records[i], c) {
        number := number + 1;
      }
      assert records[..i + 1][..i] == records[..i];
    }
    assert records[..|records|] == records;
    if total == 0 {
      return None;
    }
    s := Some(FormatCount(number, total));
  }

  /** The count of a concatenation is the sum of the counts. */
  lemma {:induction false} CountInAppend(a: seq<PackageRecord>, b: seq<PackageRecord>, c: Category)
    ensures CountIn(a + b, c) == CountIn(a, c) + CountIn(b, c)
    decreases |b|
  {
    if b == [] {
      assert a + b == a;
    } else {
      var init := b[..|b| - 1];
      CountInAppend(a, init, c);
      assert (a + b)[..|a + b| - 1] == a + init;
      assert (a + b)[|a + b| - 1] == b[|b| - 1];
    }
  }

  /** Removing one record lowers the count by one exactly when that record is in the category. */
  lemma CountInRemove(b: seq<PackageRecord>, i: nat, c: Category)
    requires i < |b|
    ensures CountIn(b, c) == CountIn(b[..i] + b[i + 1..], c) + (if InCategory(b[i], c) then 1 else 0)
  {
    assert b == b[..i] + [b[i]] + b[i + 1..];
    CountInAppend(b[..i], [b[i]], c);
    CountInAppend(b[..i] + [b[i]], b[i + 1..], c);
    CountInAppend(b[..i], b[i + 1..], c);
    assert CountIn([b[i]], c) == CountIn([b[i]][..0], c) + (if InCategory(b[i], c) then 1 else 0);
    assert [b[i]][..0] == [];
  }

  /**
   * The last element of `a` occurs in its permutation `b`; taking one occurrence out of each
   * leaves permutations of each other.
   */
  lemma MatchLast<T>(a: seq<T>, b: seq<T>) returns (i: nat)
    requires a != [] && multiset(a) == multiset(b)
    ensures i < |b| && b[i] == a[|a| - 1]
    ensures multiset(a[..|a| - 1]) == multiset(b[..i] + b[i + 1..])
  {
    var x := a[|a| - 1];
    assert a == a[..|a| - 1] + [x];
    assert x in multiset(b);
    i :| 0 <= i < |b| && b[i] == x;
    assert b == b[..i] + [x] + b[i + 1..];
    assert multiset(b[..i] + b[i + 1..]) == multiset(b) - multiset{x} by {
      assert multiset(b) == multiset(b[..i]) + multiset{x} + multiset(b[i + 1..]);
      assert multiset(b[..i] + b[i + 1..]) == multiset(b[..i]) + multiset(b[i + 1..]);
    }
    assert multiset(a[..|a| - 1]) == multiset(a) - multiset{x};
  }

  /** The count does not depend on the order of the records in the file. */
  lemma {:induction false} CountInPermutation(a: seq<PackageRecord>, b: seq<PackageRecord>, c: Category)
    requires multiset(a) == multiset(b)
    ensures CountIn(a, c) == CountIn(b, c)
    decreases |a|
  {
    if a == [] {
      assert |b| == |multiset(b)| == 0;
      assert b == [];
    } else {
      var i := MatchLast(a, b);
      CountInPermutation(a[..|a| - 1], b[..i] + b[i + 1..], c);
      CountInRemove(b, i, c);
    }
  }

  /** Every record is in the category exactly when the count is the number of records. */
  lemma {:induction false} CountInAll(records: seq<PackageRecord>, c: Category)
    ensures CountIn(records, c) == |records| <==> forall k :: 0 <= k < |records| ==> InCategory(records[k], c)
    decreases |records|
  {
    if records != [] {
      var init := records[..|records| - 1];
      CountInAll(init, c);
      if forall k :: 0 <= k < |records| ==> InCategory(records[k], c) {
        assert forall k :: 0 <= k < |init| ==> InCategory(init[k], c) by {
          forall k | 0 <= k < |init| ensures InCategory(init[k], c) {
            assert init[k] == records[k];
          }
        }
      } else if InCategory(records[|records| - 1], c) {
        var k :| 0 <= k < |records| && !InCategory(records[k], c);
        assert init[k] == records[k];
      }
    }
  }

  /** No record is in the category exactly when the count is zero. */
  lemma {:induction false} CountInNone(records: seq<PackageRecord>, c: Category)
    ensures CountIn(records, c) == 0 <==> forall k :: 0 <= k < |records| ==> !InCategory(records[k], c)
    decreases |records|
  {
    if records != [] {
      var init := records[..|records| - 1];
      CountInNone(init, c);
      if forall k :: 0 <= k < |records| ==> !InCategory(records[k], c) {
        assert forall k :: 0 <= k < |init| ==> !InCategory(init[k], c) by {
          forall k | 0 <= k < |init| ensures !InCategory(init[k], c) {
            assert init[k] == records[k];
          }
        }
      } else if !InCategory(records[|records| - 1], c) {
        var k :| 0 <= k < |records| && InCategory(records[k], c);
        assert init[k] == records[k];
      }
    }
  }

  // ---------------------------------------------------------------------------
  // The statistics dictionary

  /** A `test_tags` entry of `statistic_json`. */
  datatype TagCounts = TagCounts(classic: string, container: string, atomic: string)

  datatype DistgitStatistic = DistgitStatistic(testYml: string, missing: string, pending: string, testTags: TagCounts)

  datatype UpstreamStatistic = UpstreamStatistic(testYml: string, testTags: TagCounts)

  /** `statistic_json`, generate_file_upload_wiki.py:73-80. */
  datatype Statistics = Statistics(total: string, distgit: DistgitStatistic, upstreamfirst: UpstreamStatistic)

  /** The entry of `statistic_json` at a category's key path. */
  function Entry(st: Statistics, c: Category): string
  {
    match c
    case DistgitTestYml => st.distgit.testYml
    case DistgitMissing => st.distgit.missing
    case DistgitPending => st.distgit.pending
    case DistgitClassic => st.distgit.testTags.classic
    case DistgitContainer => st.distgit.testTags.container
    case DistgitAtomic => st.distgit.testTags.atomic
    case UpstreamTestYml => st.upstreamfirst.testYml
    case UpstreamClassic => st.upstreamfirst.testTags.classic
    case UpstreamContainer => st.upstreamfirst.testTags.container
    case UpstreamAtomic => st.upstreamfirst.testTags.atomic
  }

  /** The statistics of a non-empty packages file: the number of records and every category's count. */
  function StatisticsOf(records: seq<PackageRecord>): Statistics
    requires records != []
  {
    var n := |records|;
    Statistics(
      NatToString(n),
      DistgitStatistic(
        FormatCount(CountIn(records, DistgitTestYml), n),
        FormatCount(CountIn(records, DistgitMissing), n),
        FormatCount(CountIn(records, DistgitPending), n),
        TagCounts(
          FormatCount(CountIn(records, DistgitClassic), n),
          FormatCount(CountIn(records, DistgitContainer), n),
          FormatCount(CountIn(records, DistgitAtomic), n))),
      UpstreamStatistic(
        FormatCount(CountIn(records, UpstreamTestYml), n),
        TagCounts(
          FormatCount(CountIn(records, UpstreamClassic), n),
          FormatCount(CountIn(records, UpstreamContainer), n),
          FormatCount(CountIn(records, UpstreamAtomic), n))))
  }

  /** Every entry of the statistics is its category's count and percentage of all records. */
  lemma StatisticsEntry(records: seq<PackageRecord>, c: Category)
    requires records != []
    ensures StatisticsOf(records).total == NatToString(|records|)
    ensures Entry(StatisticsOf(records), c) == FormatCount(CountIn(records, c), |records|)
  {
  }

  /**
   * get_packages_statistic, generate_file_upload_wiki.py:63-112: the statistics of the
   * records; None for an empty packages file, where the first count divides by zero.
   */
  method GetPackagesStatistic(records: seq<PackageRecord>) returns (st: Option<Statistics>)
    ensures st.None? <==> records == []
    ensures st.Some? ==> st.value == StatisticsOf(records)
  {
    var totalPackages := |records|;
    var total := NatToString(totalPackages);
    var distgitTestYml := NumberInCategory(totalPackages, records, DistgitTestYml);
    if distgitTestYml.None? {
      return None;
    }
    var distgitMissing := NumberInCategory(totalPackages, records, DistgitMissing);
    var distgitPending := NumberInCategory(totalPackages, records, DistgitPending);
    var distgitClassic := NumberInCategory(totalPackages, records, DistgitClassic);
    var distgitContainer := NumberInCategory(totalPackages, records, DistgitContainer);
    var distgitAtomic := NumberInCategory(totalPackages, records, DistgitAtomic);
    var upstreamTestYml := NumberInCategory(totalPackages, records, UpstreamTestYml);
    var upstreamClassic := NumberInCategory(totalPackages, records, UpstreamClassic);
    var upstreamContainer := NumberInCategory(totalPackages, records, UpstreamContainer);
    var upstreamAtomic := NumberInCategory(totalPackages, records, UpstreamAtomic);
    var distgit := DistgitStatistic(
      distgitTestYml.value, distgitMissing.value, distgitPending.value,
      TagCounts(distgitClassic.value, distgitContainer.value, distgitAtomic.value));
    var upstreamfirst := UpstreamStatistic(
      upstreamTestYml.value,
      TagCounts(upstreamClassic.value, upstreamContainer.value, upstreamAtomic.value));
    st := Some(Statistics(total, distgit, upstreamfirst));
  }

  // ---------------------------------------------------------------------------
  // Statistics of a survey

  /** The text after the count starts with a space, so the count is read back from the front. */
  lemma FormatCountSplit(n: nat, total: nat) returns (tail: string)
    requires total > 0
    ensures FormatCount(n, total) == NatToString(n) + tail && tail != [] && !IsDigit(tail[0])
  {
    tail := " (" + NatToString(Percent(n, total)) + "%)";
    assert tail[0] == ' ';
  }

  lemma HundredText()
    ensures NatToString(100) == "100"
  {
    assert NatToString(10) == "10";
  }

  /** The line shows "<total> (100%)" exactly when the count is the total. */
  lemma FormatCountFull(n: nat, total: nat)
    requires total > 0 && n <= total
    ensures FormatCount(n, total) == NatToString(total) + " (100%)" <==> n == total
  {
    var tail := FormatCountSplit(n, total);
    if n == total {
      HundredText();
      assert Percent(n, total) == 100;
    }
    if FormatCount(n, total) == NatToString(total) + " (100%)" {
      NatToStringInjective(n, total, tail, " (100%)");
    }
  }

  /** The line shows "0 (0%)" exactly when the count is zero. */
  lemma FormatCountZero(n: nat, total: nat)
    requires total > 0
    ensures FormatCount(n, total) == "0 (0%)" <==> n == 0
  {
    var tail := FormatCountSplit(n, total);
    assert "0 (0%)" == NatToString(0) + " (0%)";
    if FormatCount(n, total) == "0 (0%)" {
      NatToStringInjective(n, 0, tail, " (0%)");
    }
  }

  /** A category every record is in, and only such a category, shows all records at 100%. */
  lemma FullCategory(records: seq<PackageRecord>, c: Category)
    requires records != []
    ensures (forall k :: 0 <= k < |records| ==> InCategory(records[k], c)) <==>
            FormatCount(CountIn(records, c), |records|) == NatToString(|records|) + " (100%)"
  {
    CountInAll(records, c);
    FormatCountFull(CountIn(records, c), |records|);
  }

  /** A category no record is in, and only such a category, shows "0 (0%)". */
  lemma EmptyCategory(records: seq<PackageRecord>, c: Category)
    requires records != []
    ensures (forall k :: 0 <= k < |records| ==> !InCategory(records[k], c)) <==>
            FormatCount(CountIn(records, c), |records|) == "0 (0%)"
  {
    CountInNone(records, c);
    FormatCountZero(CountIn(records, c), |records|);
  }

  /**
   * On the records test-stats.py writes, the `missing` statistic is always "0 (0%)": no
   * record ever has a truthy `missing`.
   */
  lemma SurveyShowsNoMissing(pkgs: seq<Value>, net: Tools.Network)
    requires TestStats.AllStrings(pkgs) && pkgs != []
    ensures FormatCount(CountIn(TestStats.ClassifyAll(pkgs, net), DistgitMissing), |pkgs|) == "0 (0%)"
  {
    var records := TestStats.ClassifyAll(pkgs, net);
    TestStats.ClassifyAllSpec(pkgs, net);
    forall k | 0 <= k < |records| ensures !InCategory(records[k], DistgitMissing) {
      assert TestStats.WellFormedRecord(records[k]);
    }
    EmptyCategory(records, DistgitMissing);
  }
}
