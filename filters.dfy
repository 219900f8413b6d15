/**
 * `filter_data_by_month` and `filter_data_by_year`: list comprehensions that
 * keep, in order, the entries whose timestamp falls in a period.
 */
module Filters {
  import opened Records

  /** A reporting period: one month of one year, or a whole year. */
  datatype Period = InMonth(month: int, year: int) | InYear(year: int)

  predicate Within(r: Record, p: Period)
    ensures Within(r, p) ==> r.date.year == p.year
    ensures p.InMonth? && !(1 <= p.month <= 12) ==> !Within(r, p)
  {
    match p
    case InMonth(m, y) => r.date.month == m && r.date.year == y
    case InYear(y) => r.date.year == y
  }

  /** `[item for item in d if <item's date is within p>]`. */
  function Select(d: seq<Record>, p: Period): (r: seq<Record>)
    ensures |r| <= |d|
    ensures forall i :: 0 <= i < |r| ==> Within(r[i], p)
  {
    if d == [] then [] else (if Within(d[0], p) then [d[0]] else []) + Select(d[1..], p)
  }

  lemma {:induction false} SelectCons(d: seq<Record>, p: Period)
    requires d != []
    ensures Select(d, p) == (if Within(d[0], p) then [d[0]] else []) + Select(d[1..], p)
  {
  }

  /** `a` is `b` with some elements deleted, the rest kept in their order. */
  ghost predicate IsSubsequence<T>(a: seq<T>, b: seq<T>)
    decreases |b|
  {
    if b == [] then a == []
    else IsSubsequence(a, b[1..]) || (a != [] && a[0] == b[0] && IsSubsequence(a[1..], b[1..]))
  }

  lemma {:induction false} SelectIsSubsequence(d: seq<Record>, p: Period)
    ensures IsSubsequence(Select(d, p), d)
  {
    if d != [] {
      SelectIsSubsequence(d[1..], p);
      var r := Select(d, p);
      if Within(d[0], p) {
        assert r[0] == d[0] && r[1..] == Select(d[1..], p);
      } else {
        assert r == Select(d[1..], p);
      }
    }
  }

  /** An entry occurs in the selection as often as in `d` when it is within the period, else never. */
  lemma {:induction false} SelectCount(d: seq<Record>, p: Period, x: Record)
    ensures multiset(Select(d, p))[x] == if Within(x, p) then multiset(d)[x] else 0
  {
    if d != [] {
      assert d == [d[0]] + d[1..];
      SelectCount(d[1..], p, x);
    }
  }

  lemma {:induction false} SelectCounts(d: seq<Record>, p: Period)
    ensures forall x :: multiset(Select(d, p))[x] == if Within(x, p) then multiset(d)[x] else 0
  {
    forall x {
      SelectCount(d, p, x);
    }
  }

  /** Every entry of `d` within the period is in the selection. */
  lemma {:induction false} SelectKeeps(d: seq<Record>, p: Period)
    ensures forall i :: 0 <= i < |d| && Within(d[i], p) ==> d[i] in Select(d, p)
  {
    forall i | 0 <= i < |d| && Within(d[i], p)
      ensures d[i] in Select(d, p)
    {
      SelectCount(d, p, d[i]);
      assert d[i] in multiset(d);
    }
  }

  lemma {:induction false} SubsequenceMultiset<T>(a: seq<T>, b: seq<T>)
    requires IsSubsequence(a, b)
    ensures multiset(a) <= multiset(b)
    decreases |b|
  {
    if b != [] {
      assert b == [b[0]] + b[1..];
      if a != [] && a[0] == b[0] && IsSubsequence(a[1..], b[1..]) {
        assert a == [a[0]] + a[1..];
        SubsequenceMultiset(a[1..], b[1..]);
      } else {
        SubsequenceMultiset(a, b[1..]);
      }
    }
  }

  /**
   * The contract of the filters determines their result: any subsequence of
   * `d` that holds only entries within `p`, each as often as `d` does, is
   * the selection itself.
   */
  lemma {:induction false} SelectUnique(d: seq<Record>, p: Period, a: seq<Record>)
    requires IsSubsequence(a, d)
    requires forall i :: 0 <= i < |a| ==> Within(a[i], p)
    requires forall x :: multiset(a)[x] == if Within(x, p) then multiset(d)[x] else 0
    ensures a == Select(d, p)
    decreases |d|
  {
    if d != [] {
      var x := d[0];
      assert d == [x] + d[1..];
      if a != [] && a[0] == x && IsSubsequence(a[1..], d[1..]) {
        assert a == [x] + a[1..];
        assert Within(a[0], p);
        forall z
          ensures multiset(a[1..])[z] == if Within(z, p) then multiset(d[1..])[z] else 0
        {
          assert multiset(a)[z] == multiset([x])[z] + multiset(a[1..])[z];
        }
        SelectUnique(d[1..], p, a[1..]);
      } else {
        SubsequenceMultiset(a, d[1..]);
        if Within(x, p) {
          assert false;
        }
        forall z
          ensures multiset(a)[z] == if Within(z, p) then multiset(d[1..])[z] else 0
        {
          if Within(z, p) {
            assert z != x;
          }
        }
        SelectUnique(d[1..], p, a);
      }
    }
  }

  /** Narrowing a selection to a period inside it equals selecting that period directly. */
  lemma {:induction false} SelectNarrows(d: seq<Record>, p: Period, q: Period)
    requires forall r :: Within(r, p) ==> Within(r, q)
    ensures Select(Select(d, q), p) == Select(d, p)
  {
    if d != [] {
      SelectNarrows(d[1..], p, q);
      var head := if Within(d[0], q) then [d[0]] else [];
      SelectConcat(head, Select(d[1..], q), p);
    }
  }

  /** Selection distributes over concatenation. */
  lemma {:induction false} SelectConcat(a: seq<Record>, b: seq<Record>, p: Period)
    ensures Select(a + b, p) == Select(a, p) + Select(b, p)
  {
    if a == [] {
      assert a + b == b;
    } else {
      assert (a + b)[0] == a[0] && (a + b)[1..] == a[1..] + b;
      SelectConcat(a[1..], b, p);
    }
  }

  /** A selection from entries that all passed the entry gate holds only such entries. */
  lemma {:induction false} SelectWellFormed(d: seq<Record>, p: Period)
    requires AllWellFormed(d)
    ensures AllWellFormed(Select(d, p))
  {
    if d != [] {
      assert WellFormed(d[0]);
      SelectWellFormed(d[1..], p);
    }
  }

  /** Appending an entry appends it to every selection whose period it falls in. */
  lemma {:induction false} SelectAppend(d: seq<Record>, x: Record, p: Period)
    ensures Select(d + [x], p) == Select(d, p) + (if Within(x, p) then [x] else [])
  {
    SelectConcat(d, [x], p);
    assert [x][1..] == [];
  }

  /** `filter_data_by_month(data, month, year)`. */
  function FilterByMonth(data: seq<Record>, month: int, year: int): (r: seq<Record>)
    ensures forall i :: 0 <= i < |r| ==> r[i].date.month == month && r[i].date.year == year
  {
    Select(data, InMonth(month, year))
  }

  /** `filter_data_by_year(data, year)`. */
  function FilterByYear(data: seq<Record>, year: int): (r: seq<Record>)
    ensures forall i :: 0 <= i < |r| ==> r[i].date.year == year
  {
    Select(data, InYear(year))
  }

  /**
   * The month filter keeps exactly the entries dated in that month: each of
   * them, as often as it occurs, in the original order, and nothing else.
   */
  lemma {:induction false} FilterByMonthKeepsExactly(data: seq<Record>, month: int, year: int)
    ensures forall i :: 0 <= i < |data| && data[i].date.month == month && data[i].date.year == year ==>
      data[i] in FilterByMonth(data, month, year)
    ensures IsSubsequence(FilterByMonth(data, month, year), data)
    ensures forall x ::
      multiset(FilterByMonth(data, month, year))[x] == if x.date.month == month && x.date.year == year then multiset(data)[x] else 0
  {
    SelectIsSubsequence(data, InMonth(month, year));
    SelectCounts(data, InMonth(month, year));
    SelectKeeps(data, InMonth(month, year));
  }

  /**
   * The year filter keeps exactly the entries dated in that year: each of
   * them, as often as it occurs, in the original order, and nothing else.
   */
  lemma {:induction false} FilterByYearKeepsExactly(data: seq<Record>, year: int)
    ensures forall i :: 0 <= i < |data| && data[i].date.year == year ==> data[i] in FilterByYear(data, year)
    ensures IsSubsequence(FilterByYear(data, year), data)
    ensures forall x :: multiset(FilterByYear(data, year))[x] == if x.date.year == year then multiset(data)[x] else 0
  {
    SelectIsSubsequence(data, InYear(year));
    SelectCounts(data, InYear(year));
    SelectKeeps(data, InYear(year));
  }

  /** Filtering by a month twice is filtering once. */
  lemma {:induction false} FilterByMonthIdempotent(data: seq<Record>, month: int, year: int)
    ensures FilterByMonth(FilterByMonth(data, month, year), month, year) == FilterByMonth(data, month, year)
  {
    SelectNarrows(data, InMonth(month, year), InMonth(month, year));
  }

  /** Filtering by a year twice is filtering once. */
  lemma {:induction false} FilterByYearIdempotent(data: seq<Record>, year: int)
    ensures FilterByYear(FilterByYear(data, year), year) == FilterByYear(data, year)
  {
    SelectNarrows(data, InYear(year), InYear(year));
  }

  /** A month of the year-filtered list is the same month of the whole list. */
  lemma {:induction false} FilterByMonthOfYear(data: seq<Record>, month: int, year: int)
    ensures FilterByMonth(FilterByYear(data, year), month, year) == FilterByMonth(data, month, year)
  {
    SelectNarrows(data, InMonth(month, year), InYear(year));
  }

  /** A month's entries are an order-preserving part of its year's entries. */
  lemma {:induction false} MonthWithinYear(data: seq<Record>, month: int, year: int)
    ensures IsSubsequence(FilterByMonth(data, month, year), FilterByYear(data, year))
    ensures forall x :: x in FilterByMonth(data, month, year) ==> x in FilterByYear(data, year)
  {
    FilterByMonthOfYear(data, month, year);
    var yr := FilterByYear(data, year);
    FilterByMonthKeepsExactly(yr, month, year);
    SubsequenceMultiset(FilterByMonth(yr, month, year), yr);
  }

  /** A new entry shows up at the end of its own month's and year's lists. */
  lemma {:induction false} LatestEntryFiltered(data: seq<Record>, x: Record)
    ensures FilterByMonth(data + [x], x.date.month, x.date.year) == FilterByMonth(data, x.date.month, x.date.year) + [x]
    ensures FilterByYear(data + [x], x.date.year) == FilterByYear(data, x.date.year) + [x]
  {
    SelectAppend(data, x, InMonth(x.date.month, x.date.year));
    SelectAppend(data, x, InYear(x.date.year));
  }
}
