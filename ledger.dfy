/**
 * The ledger held in the session: the income list, the expense list and the
 * currency that new entries are tagged with. Entries are only ever appended.
 */
module Ledger {
  import opened Records
  import opened Savings
  import opened Filters
  import YearChart

  /** The currency of a fresh session. */
  const DefaultCurrency: string := "USD"

  class FinanceLedger {
    var income: seq<Record>
    var expenses: seq<Record>
    var currency: string

    /** Every stored entry came through the entry gate. */
    ghost predicate Valid()
      reads this
    {
      AllWellFormed(income) && AllWellFormed(expenses)
    }

    /** A fresh session: both lists empty, currency USD. */
    constructor ()
      ensures Valid()
      ensures income == [] && expenses == [] && currency == DefaultCurrency
    {
      income := [];
      expenses := [];
      currency := DefaultCurrency;
    }

    /** The currency selector sets the currency for the entries made after it. */
    method SelectCurrency(c: string)
      modifies this
      ensures currency == c
      ensures income == old(income) && expenses == old(expenses)
    {
      currency := c;
    }

    /** `add_income(source, amount)`, made at time `now`: appends an income entry unchecked. */
    method AddIncome(source: string, amount: real, now: Date)
      modifies this
      ensures income == old(income) + [Record(source, amount, now, old(currency))]
      ensures expenses == old(expenses) && currency == old(currency)
    {
      income := income + [Record(source, amount, now, currency)];
    }

    /** `add_expense(category, amount)`, made at time `now`: appends an expense entry unchecked. */
    method AddExpense(category: string, amount: real, now: Date)
      modifies this
      ensures expenses == old(expenses) + [Record(category, amount, now, old(currency))]
      ensures income == old(income) && currency == old(currency)
    {
      expenses := expenses + [Record(category, amount, now, currency)];
    }

    /**
     * The "Add Income" button: the entry is added exactly when the source is
     * non-empty and the amount positive; otherwise nothing changes. It runs on
     * any ledger, and keeps `Valid()` on one that had it.
     */
    method SubmitIncome(source: string, amount: real, now: Date) returns (added: bool)
      modifies this
      ensures old(Valid()) ==> Valid()
      ensures added <==> Acceptable(source, amount)
      ensures income == if added then old(income) + [Record(source, amount, now, old(currency))] else old(income)
      ensures expenses == old(expenses) && currency == old(currency)
    {
      if source != "" && amount > 0.0 {
        AddIncome(source, amount, now);
        added := true;
      } else {
        added := false;
      }
    }

    /**
     * The "Add Expense" button: the entry is added exactly when the category
     * is non-empty and the amount positive; otherwise nothing changes. It runs
     * on any ledger, and keeps `Valid()` on one that had it.
     */
    method SubmitExpense(category: string, amount: real, now: Date) returns (added: bool)
      modifies this
      ensures old(Valid()) ==> Valid()
      ensures added <==> Acceptable(category, amount)
      ensures expenses == if added then old(expenses) + [Record(category, amount, now, old(currency))] else old(expenses)
      ensures income == old(income) && currency == old(currency)
    {
      if category != "" && amount > 0.0 {
        AddExpense(category, amount, now);
        added := true;
      } else {
        added := false;
      }
    }
  }

  /**
   * The invariant kept by the two buttons bounds every report: on a valid
   * ledger a month's savings never exceed that month's income and never fall
   * below minus that month's expenses.
   */
  lemma ValidLedgerMonthSavings(ledger: FinanceLedger, month: int, year: int)
    requires ledger.Valid()
    ensures -Total(FilterByMonth(ledger.expenses, month, year))
         <= YearChart.MonthSavings(ledger.income, ledger.expenses, month, year)
         <= Total(FilterByMonth(ledger.income, month, year))
  {
    YearChart.MonthSavingsBounds(ledger.income, ledger.expenses, month, year);
  }

  /**
   * A session from the empty ledger: income "job" 1000 and expense "rent"
   * 400 in January 2024, then two rejected expenses (no category; a negative
   * amount). January shows one income entry and savings of 600.
   */
  method JanuaryScenario() returns (januaryIncome: seq<Record>, expenseCount: nat, savings: real)
    ensures |januaryIncome| == 1 && januaryIncome[0].name == "job" && januaryIncome[0].amount == 1000.0
    ensures januaryIncome[0].currency == DefaultCurrency
    ensures expenseCount == 1
    ensures savings == 600.0
  {
    var ledger := new FinanceLedger();
    var january := Date(2024, 1);
    var ok := ledger.SubmitIncome("job", 1000.0, january);
    ok := ledger.SubmitExpense("rent", 400.0, january);
    ok := ledger.SubmitExpense("", 10.0, january);
    ok := ledger.SubmitExpense("rent", -5.0, january);
    expenseCount := |ledger.expenses|;
    januaryIncome := FilterByMonth(ledger.income, 1, 2024);
    var januaryExpenses := FilterByMonth(ledger.expenses, 1, 2024);
    assert januaryIncome == ledger.income;
    assert januaryExpenses == ledger.expenses;
    savings := CalculateSavings(januaryIncome, januaryExpenses);
  }
}
