/**
 * Totals and savings: `sum(item['amount'] for item in items)` and
 * `calculate_savings`, with exact real arithmetic in place of floats.
 */
module Savings {
  import opened Records

  /** The amounts of `items`, in order: the generator `item['amount'] for item in items`. */
  function Amounts(items: seq<Record>): (xs: seq<real>)
    ensures |xs| == |items|
    ensures forall i :: 0 <= i < |items| ==> xs[i] == items[i].amount
  {
    seq(|items|, i requires 0 <= i < |items| => items[i].amount)
  }

  /** Python's `sum`: a left fold from 0, adding one value at a time. */
  function Sum(xs: seq<real>): (r: real)
    ensures xs == [] ==> r == 0.0
    ensures |xs| == 1 ==> r == xs[0]
  {
    if xs == [] then 0.0 else Sum(xs[..|xs| - 1]) + xs[|xs| - 1]
  }

  /** The sum of the amounts of `items`. */
  function Total(items: seq<Record>): (r: real)
    ensures items == [] ==> r == 0.0
    ensures |items| == 1 ==> r == items[0].amount
  {
    Sum(Amounts(items))
  }

  /** Income total minus expense total, with no currency conversion. */
  function CalculateSavings(income: seq<Record>, expenses: seq<Record>): (r: real)
    ensures income == [] && expenses == [] ==> r == 0.0
  {
    Total(income) - Total(expenses)
  }

  lemma {:induction false} SumConcat(xs: seq<real>, ys: seq<real>)
    ensures Sum(xs + ys) == Sum(xs) + Sum(ys)
    decreases |ys|
  {
    if ys == [] {
      assert xs + ys == xs;
    } else {
      var zs := xs + ys;
      assert zs[..|zs| - 1] == xs + ys[..|ys| - 1];
      SumConcat(xs, ys[..|ys| - 1]);
    }
  }

  /** A total is additive over concatenation of the lists it is taken over. */
  lemma {:induction false} TotalConcat(a: seq<Record>, b: seq<Record>)
    ensures Total(a + b) == Total(a) + Total(b)
  {
    assert Amounts(a + b) == Amounts(a) + Amounts(b);
    SumConcat(Amounts(a), Amounts(b));
  }

  /** Entries that passed the gate have a positive total, and a zero one when there are none. */
  lemma {:induction false} TotalOfWellFormed(items: seq<Record>)
    requires AllWellFormed(items)
    ensures items == [] ==> Total(items) == 0.0
    ensures items != [] ==> Total(items) > 0.0
    decreases |items|
  {
    if items != [] {
      var n := |items|;
      assert Amounts(items)[..n - 1] == Amounts(items[..n - 1]);
      assert WellFormed(items[n - 1]);
      TotalOfWellFormed(items[..n - 1]);
    }
  }

  /** Savings of concatenated periods is the sum of each period's savings. */
  lemma {:induction false} SavingsAdditive(i1: seq<Record>, i2: seq<Record>, e1: seq<Record>, e2: seq<Record>)
    ensures CalculateSavings(i1 + i2, e1 + e2) == CalculateSavings(i1, e1) + CalculateSavings(i2, e2)
  {
    TotalConcat(i1, i2);
    TotalConcat(e1, e2);
  }

  /**
   * With entries that passed the gate, savings never exceed total income and
   * never fall below minus total expenses.
   */
  lemma {:induction false} SavingsBounds(income: seq<Record>, expenses: seq<Record>)
    requires AllWellFormed(income) && AllWellFormed(expenses)
    ensures -Total(expenses) <= CalculateSavings(income, expenses) <= Total(income)
  {
    TotalOfWellFormed(income);
    TotalOfWellFormed(expenses);
  }
}
