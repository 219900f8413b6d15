/**
 * The entries of the personal finance ledger.
 *
 * An entry is stored as a dictionary {name, amount, date, currency}; on the
 * income list the name key is `source`, on the expense list it is `category`.
 * The date is an ISO timestamp of the moment the entry was made; the ledger
 * only ever reads its calendar year and month, so that is all a `Date` keeps.
 */
module Records {

  /** A calendar month number, as a parsed timestamp reports it. */
  type Month = m: int | 1 <= m <= 12 witness 1

  /** The part of an entry's timestamp that the ledger reads. */
  datatype Date = Date(year: int, month: Month)

  /** One income entry (name = source) or expense entry (name = category). */
  datatype Record = Record(name: string, amount: real, date: Date, currency: string)

  /**
   * The entry form's gate: the name must be a non-empty string (a Python
   * string is true exactly when it is non-empty) and the amount positive.
   */
  predicate Acceptable(name: string, amount: real)
    ensures name == "" ==> !Acceptable(name, amount)
    ensures amount <= 0.0 ==> !Acceptable(name, amount)
  {
    name != "" && amount > 0.0
  }

  /** An entry that could only have come through the gate. */
  predicate WellFormed(r: Record) {
    Acceptable(r.name, r.amount)
  }

  predicate AllWellFormed(rs: seq<Record>) {
    forall i :: 0 <= i < |rs| ==> WellFormed(rs[i])
  }
}
