# Personal finance ledger — a Dafny model

This project models the ledger at the heart of a single-user personal finance
tracker (`main.py`). The ledger holds an income list, an expense list and the
currency that new entries are tagged with. The user adds entries through an
entry form. The form lets an entry through only when its label is non-empty
and its amount is positive. Entries are only ever appended. The ledger's
reports filter the entries by month or by year, then subtract the expense
total from the income total to give the savings. One chart shows the savings
of each of the twelve months of a year.

Modules, one per part of the core:

- `Records` (records.dfy): an entry is `Record(name, amount, date, currency)`.
  `name` is the entry's `source` on the income list and its `category` on the
  expense list. `date` keeps only what the ledger reads from the entry's
  timestamp: the year and a month in 1..12. `Acceptable` is the entry form's
  gate.
- `Savings` (savings.dfy): `Sum` is Python's `sum`, a left fold from 0.
  `Total` is the sum of the amounts, and `CalculateSavings` is one total minus
  the other.
- `Filters` (filters.dfy): both list comprehensions are one `Select` over a
  `Period`, either `InMonth(month, year)` or `InYear(year)`. `FilterByMonth` and
  `FilterByYear` are `Select` at those periods. The lemmas state that a filter
  keeps exactly the matching entries: each of them, as often as it occurs, in
  the original order, and nothing else. `SelectUnique` shows that this
  description determines the result. The lemmas also show that the filters are
  idempotent, that a month of the year-filtered list is the same month of the
  whole list, and that an appended entry ends up last in its month and year.
- `YearChart` (monthly.dfy): the loop over months 1 to 12, as a method with
  invariants, and the button handler around it. The twelve values are the
  monthly savings. Every month lies in 1..12, so the twelve values add up to
  the savings of the whole year.
- `Ledger` (ledger.dfy): class `FinanceLedger` with fields `income`,
  `expenses` and `currency`. `AddIncome`/`AddExpense` append without checking,
  as `add_income`/`add_expense` do. `SubmitIncome`/`SubmitExpense` are the two
  form buttons: they apply the gate, then either append or change nothing. They
  keep the invariant `Valid()`, which says every stored entry passed the gate.
  `JanuaryScenario` runs a short session from an empty ledger.

The clock (`datetime.datetime.now()`) is a `now: Date` parameter. Amounts are
exact `real`s.

`add_income`/`add_expense` (main.py:42-58) do not validate their input; the
button handlers at main.py:108 and main.py:119 do, so the model keeps the check
in `SubmitIncome`/`SubmitExpense`.

`save_data` (main.py:32-39) does not catch write errors; persistence is not
modelled.

## Model

| member | source | states |
|---|---|---|
| `Records.Acceptable` | main.py:108 | the entry gate of both buttons (main.py:108 and main.py:119): an empty name or an amount of 0 or less is refused, and a non-empty name with a positive amount is let through |
| `Savings.Amounts` | main.py:61-62 | the generator `item['amount'] for item in items`: one value per entry, value i being entry i's amount |
| `Savings.Sum` | main.py:61-62 | Python's `sum` as a left fold from 0: the sum of no values is 0 and of one value is that value |
| `Savings.Total` | main.py:61-62 | the sum of the entries' amounts: 0 for no entries, the entry's amount for one entry |
| `Savings.CalculateSavings` | main.py:60-63 | the savings of two empty lists is 0 |
| `Savings.SumConcat` | main.py:61-62 | the left-fold sum of a concatenation is the sum of the parts' sums |
| `Savings.TotalConcat` | main.py:61-62 | the amount total is additive over concatenation of entry lists |
| `Savings.TotalOfWellFormed` | main.py:60-63 | a total over gated entries is 0 for no entries and positive otherwise |
| `Savings.SavingsAdditive` | main.py:60-63 | the savings of concatenated income and expense lists are the sum of the two parts' savings |
| `Savings.SavingsBounds` | main.py:60-63 | with gated entries, savings lie between minus the expense total and the income total |
| `Filters.Within` | main.py:65-69 | the date test of the two comprehensions (main.py:66 and main.py:69): an entry within a period is dated in its year, and no entry is within a month outside 1..12 |
| `Filters.Select` | main.py:65-69 | a selection is no longer than its input, and every selected entry lies within the period |
| `Filters.SelectIsSubsequence` | main.py:65-69 | a selection is an order-preserving subsequence of its input |
| `Filters.SelectCount` | main.py:65-69 | an entry occurs in a selection as often as in the input if it is within the period, otherwise never |
| `Filters.SelectCounts` | main.py:65-69 | the same occurrence count, for every entry at once |
| `Filters.SelectKeeps` | main.py:65-69 | every input entry within the period is in the selection |
| `Filters.SubsequenceMultiset` | main.py:65-69 | a subsequence holds each element at most as often as the sequence does |
| `Filters.SelectUnique` | main.py:65-69 | any order-preserving subsequence holding only in-period entries, each as often as the input does, equals the selection, so the filter's contract determines its result |
| `Filters.SelectNarrows` | main.py:65-69 | selecting a period inside another from an earlier selection equals selecting it from the input |
| `Filters.SelectConcat` | main.py:65-69 | selection distributes over concatenation: selecting from `a + b` is selecting from `a` followed by selecting from `b` |
| `Filters.SelectWellFormed` | main.py:65-69 | a selection from entries that all passed the entry gate holds only such entries, so the savings bounds apply to filtered lists |
| `Filters.SelectAppend` | main.py:65-69 | appending an entry appends it to a selection exactly when it lies in the period |
| `Filters.FilterByMonth` | main.py:65-66 | every returned entry is dated in the given month and year |
| `Filters.FilterByYear` | main.py:68-69 | every returned entry is dated in the given year |
| `Filters.FilterByMonthKeepsExactly` | main.py:65-66 | the month filter returns every entry of that month, each as often as in the input, as an order-preserving subsequence |
| `Filters.FilterByYearKeepsExactly` | main.py:68-69 | the year filter returns every entry of that year, each as often as in the input, as an order-preserving subsequence |
| `Filters.FilterByMonthIdempotent` | main.py:65-66 | filtering by the same month twice equals filtering once |
| `Filters.FilterByYearIdempotent` | main.py:68-69 | filtering by the same year twice equals filtering once |
| `Filters.FilterByMonthOfYear` | main.py:166-174 | a month of the year-filtered list equals the same month of the whole list |
| `Filters.MonthWithinYear` | main.py:65-69 | a month's entries are an order-preserving subsequence of that year's entries, and each of them is among the year's entries |
| `Filters.LatestEntryFiltered` | main.py:42-58 | an appended entry becomes the last entry of its own month's list and of its own year's list, and those lists are otherwise unchanged |
| `YearChart.MonthsTotalEmpty` | main.py:170-176 | the month-by-month total of an empty list is 0 |
| `YearChart.MonthTotalCons` | main.py:65-66 | the first entry adds its amount to its own month's total of its own year, and nothing to any other month's |
| `YearChart.MonthsTotalCons` | main.py:170-176 | the first entry adds its amount to the totals of months 1..k exactly when it is dated in that year at a month up to k |
| `YearChart.TwelveMonthsMakeTheYear` | main.py:170-176 | the totals of months 1 to 12 add up to the year-filtered total |
| `YearChart.MonthSavings` | main.py:173-175 | the value one pass of the loop appends, the savings of one month's filtered lists; a month number outside 1..12 has savings 0 |
| `YearChart.MonthSavingsBounds` | main.py:173-175 | with gated entries, a month's savings lie between minus that month's expense total and that month's income total |
| `YearChart.ChartStep` | main.py:172-176 | one more pass of the loop body keeps the loop invariant: the values so far are the savings of months 1..k in order, and they add up to the month-by-month totals of income minus expenses |
| `YearChart.ChartComplete` | main.py:170-176 | once the invariant holds for all twelve months, the values add up to the savings of the year-filtered lists |
| `YearChart.MonthlySavings` | main.py:170-176 | the loop returns exactly 12 values; value i is the savings of month i+1, and the values add up to the savings of the year-filtered lists |
| `YearChart.SavingsByMonth` | main.py:166-176 | no chart exactly when the year has no entries; otherwise 12 values, value i equal to the savings of month i+1 of the whole lists, adding up to the year's savings |
| `Ledger.FinanceLedger.constructor` | main.py:12-20 | a fresh session has two empty lists and currency USD, and satisfies the ledger invariant |
| `Ledger.FinanceLedger.SelectCurrency` | main.py:99 | the currency becomes the chosen one, and both lists are unchanged |
| `Ledger.FinanceLedger.AddIncome` | main.py:42-49 | the income list gains one entry at the end, holding the source, the amount, the time and the current currency; the earlier entries, the expense list and the currency are unchanged |
| `Ledger.FinanceLedger.AddExpense` | main.py:51-58 | the expense list gains one entry at the end, holding the category, the amount, the time and the current currency; the income list and the currency are unchanged |
| `Ledger.FinanceLedger.SubmitIncome` | main.py:107-112 | the income entry is added exactly when the source is non-empty and the amount is positive; otherwise both lists and the currency stay as they were; the invariant that all entries passed the gate is kept |
| `Ledger.FinanceLedger.SubmitExpense` | main.py:118-123 | the same as SubmitIncome, for the expense list and the category |
| `Ledger.ValidLedgerMonthSavings` | main.py:107-112 | on a ledger whose entries all came through the two buttons (main.py:107-112 and main.py:118-123), every month's savings lie between minus that month's expense total and that month's income total |
| `Ledger.JanuaryScenario` | main.py:107-131 | adding income "job" 1000 and expense "rent" 400 in January 2024 gives one January income entry and savings of 600; an expense with no category and one with a negative amount are both rejected |

## Left out

- `load_data`/`save_data` (main.py:23-39): reading and writing the JSON file are
  disk I/O. The fresh-session state of main.py:12-20 is the constructor. Loading
  can bring in entries that never passed the gate, so `Valid()` is guaranteed
  only for ledgers built through the constructor and the two buttons.
- `generate_csv_report` (main.py:71-89): it is `DataFrame.to_csv`, float
  formatting to two decimals and month names from `strftime`, all calls into
  libraries that are not modelled.
- The charts and the per-category pie-chart sums (main.py:153-186,
  main.py:218-227) are plotting and pandas `groupby` calls. Only the monthly
  savings values that feed the bar chart are modelled.
- The Streamlit widgets, messages, layout and the reruns that drive them
  (main.py:95-238, apart from the gates and the monthly loop). The chart handler
  only runs when the current month has entries (main.py:135); the model does not
  capture that outer condition.
- The clock and ISO-8601 timestamps: the moment of entry is a `(year, month)`
  parameter, and the day and time of day, which no filter reads, are dropped.
  Years are unbounded integers, not the Python range 1..9999.
- Float arithmetic: amounts are exact reals, so rounding, and the order in which
  `sum` adds, have no effect in the model. `float(amount)` is the identity.
- The fixed list of currencies the selector offers (USD, EUR, GBP, INR;
  main.py:98-99) is UI. The ledger accepts any currency string, as the code does.
- The currency of the stored entries is never converted. Totals add amounts
  whatever their currency, exactly as the code does.
