/**
 * The savings-by-month chart of a year: the year's entries are filtered by
 * year once, then the loop over months 1 to 12 appends each month's savings.
 */
module YearChart {
  import opened Records
  import opened Savings
  import opened Filters

  datatype Option<T> = None | Some(value: T)

  /** The total of `data` over months 1 to `k` of `year`, month by month. */
  ghost function MonthsTotal(data: seq<Record>, year: int, k: nat): real {
    if k == 0 then 0.0 else MonthsTotal(data, year, k - 1) + Total(FilterByMonth(data, k, year))
  }

  lemma {:induction false} MonthsTotalEmpty(year: int, k: nat)
    ensures MonthsTotal([], year, k) == 0.0
  {
    if k > 0 {
      MonthsTotalEmpty(year, k - 1);
      assert FilterByMonth([], k, year) == [];
    }
  }

  /** The first entry of `data` adds its amount to the total of its own month. */
  lemma {:induction false} MonthTotalCons(data: seq<Record>, year: int, k: int)
    requires data != []
    ensures Total(FilterByMonth(data, k, year))
         == Total(FilterByMonth(data[1..], k, year))
          + (if data[0].date.month == k && data[0].date.year == year then data[0].amount else 0.0)
  {
    var head := if data[0].date.month == k && data[0].date.year == year then [data[0]] else [];
    SelectCons(data, InMonth(k, year));
    TotalConcat(head, FilterByMonth(data[1..], k, year));
  }

  /** The first entry of `data` adds its amount to the months 1 to `k` of its own year it falls in. */
  lemma {:induction false} MonthsTotalCons(data: seq<Record>, year: int, k: nat)
    requires data != []
    ensures MonthsTotal(data, year, k)
         == MonthsTotal(data[1..], year, k)
          + (if data[0].date.year == year && data[0].date.month <= k then data[0].amount else 0.0)
  {
    if k > 0 {
      MonthsTotalCons(data, year, k - 1);
      MonthTotalCons(data, year, k);
    }
  }

  /** Every month is one of 1 to 12, so the twelve monthly totals add up to the year's total. */
  lemma {:induction false} TwelveMonthsMakeTheYear(data: seq<Record>, year: int)
    ensures MonthsTotal(data, year, 12) == Total(FilterByYear(data, year))
  {
    if data == [] {
      MonthsTotalEmpty(year, 12);
    } else {
      var x := data[0];
      MonthsTotalCons(data, year, 12);
      TwelveMonthsMakeTheYear(data[1..], year);
      var head := if x.date.year == year then [x] else [];
      SelectCons(data, InYear(year));
      TotalConcat(head, FilterByYear(data[1..], year));
    }
  }

  /**
   * The savings of month `month` of `year`, the value one pass of the loop
   * appends. A month number outside 1..12 matches no entry, so its savings are 0.
   */
  function MonthSavings(income: seq<Record>, expenses: seq<Record>, month: int, year: int): (r: real)
    ensures !(1 <= month <= 12) ==> r == 0.0
  {
    CalculateSavings(FilterByMonth(income, month, year), FilterByMonth(expenses, month, year))
  }

  /** The loop invariant after `done` months, for the values computed so far. */
  ghost predicate ChartSoFar(income: seq<Record>, expenses: seq<Record>, year: int, monthly: seq<real>, done: nat) {
    && |monthly| == done
    && (forall i :: 0 <= i < done ==> monthly[i] == MonthSavings(income, expenses, i + 1, year))
    && Sum(monthly) == MonthsTotal(income, year, done) - MonthsTotal(expenses, year, done)
  }

  /**
   * With entries that all passed the entry gate, a month's savings lie between
   * minus that month's expenses and that month's income.
   */
  lemma {:induction false} MonthSavingsBounds(income: seq<Record>, expenses: seq<Record>, month: int, year: int)
    requires AllWellFormed(income) && AllWellFormed(expenses)
    ensures -Total(FilterByMonth(expenses, month, year)) <= MonthSavings(income, expenses, month, year)
    ensures MonthSavings(income, expenses, month, year) <= Total(FilterByMonth(income, month, year))
  {
    SelectWellFormed(income, InMonth(month, year));
    SelectWellFormed(expenses, InMonth(month, year));
    SavingsBounds(FilterByMonth(income, month, year), FilterByMonth(expenses, month, year));
  }

  /**
   * One pass of the loop body keeps the loop invariant. Stated apart from the
   * method so that the method's own proof stays small.
   */
  lemma {:induction false} ChartStep(income: seq<Record>, expenses: seq<Record>, year: int, monthly: seq<real>, month: nat)
    requires 1 <= month && ChartSoFar(income, expenses, year, monthly, month - 1)
    ensures ChartSoFar(income, expenses, year, monthly + [MonthSavings(income, expenses, month, year)], month)
  {
    assert (monthly + [MonthSavings(income, expenses, month, year)])[..month - 1] == monthly;
  }

  /** After all twelve months the values add up to the savings of the whole year. */
  lemma {:induction false} ChartComplete(income: seq<Record>, expenses: seq<Record>, year: int, monthly: seq<real>)
    requires ChartSoFar(income, expenses, year, monthly, 12)
    ensures Sum(monthly) == CalculateSavings(FilterByYear(income, year), FilterByYear(expenses, year))
  {
    TwelveMonthsMakeTheYear(income, year);
    TwelveMonthsMakeTheYear(expenses, year);
  }

  /**
   * The loop over months 1 to 12: entry `i` is the savings of month `i + 1`
   * of `year`, and the entries add up to the savings of the whole year.
   */
  method MonthlySavings(incomeYear: seq<Record>, expensesYear: seq<Record>, year: int)
    returns (monthly: seq<real>)
    ensures |monthly| == 12
    ensures forall i :: 0 <= i < 12 ==> monthly[i] == MonthSavings(incomeYear, expensesYear, i + 1, year)
    ensures Sum(monthly) == CalculateSavings(FilterByYear(incomeYear, year), FilterByYear(expensesYear, year))
  {
    monthly := [];
    for month := 1 to 13
      invariant ChartSoFar(incomeYear, expensesYear, year, monthly, month - 1)
    {
      var monthlyIncome := FilterByMonth(incomeYear, month, year);
      var monthlyExpense := FilterByMonth(expensesYear, month, year);
      var savings := CalculateSavings(monthlyIncome, monthlyExpense);
      assert savings == MonthSavings(incomeYear, expensesYear, month, year);
      ChartStep(incomeYear, expensesYear, year, monthly, month);
      monthly := monthly + [savings];
    }
    ChartComplete(incomeYear, expensesYear, year, monthly);
  }

  /**
   * "Visualize Savings for the Year": no chart when the year has no entries
   * at all; otherwise the twelve monthly savings of the year.
   */
  method SavingsByMonth(income: seq<Record>, expenses: seq<Record>, year: int)
    returns (chart: Option<seq<real>>)
    ensures chart.None? <==> FilterByYear(income, year) == [] && FilterByYear(expenses, year) == []
    ensures chart.Some? ==> |chart.value| == 12
    ensures chart.Some? ==> forall i :: 0 <= i < 12 ==> chart.value[i] == MonthSavings(income, expenses, i + 1, year)
    ensures chart.Some? ==>
      Sum(chart.value) == CalculateSavings(FilterByYear(income, year), FilterByYear(expenses, year))
  {
    var incomeYear := FilterByYear(income, year);
    var expensesYear := FilterByYear(expenses, year);
    if incomeYear != [] || expensesYear != [] {
      var monthly := MonthlySavings(incomeYear, expensesYear, year);
      forall m | 1 <= m <= 12
        ensures FilterByMonth(incomeYear, m, year) == FilterByMonth(income, m, year)
        ensures FilterByMonth(expensesYear, m, year) == FilterByMonth(expenses, m, year)
      {
        FilterByMonthOfYear(income, m, year);
        FilterByMonthOfYear(expenses, m, year);
      }
      FilterByYearIdempotent(income, year);
      FilterByYearIdempotent(expenses, year);
      chart := Some(monthly);
    } else {
      chart := None;
    }
  }
}
