/**
 * One parsed row of the transaction ledger and the policy that decides,
 * per row, whether it takes part in the balance and with what sign.
 */
module Ledger {
  import opened Options

  /** A ledger row after CSV parsing: the four named columns of the file. */
  datatype Record = Record(
    token: string,
    transactionType: string,
    amount: real,
    timestamp: int
  )

  /** The transaction type the aggregation adds. */
  const Deposit: string := "DEPOSIT"

  /** The transaction type the aggregation subtracts, spelled as the program spells it. */
  const Withdrawl: string := "WITHDRAWL"

  /** A token filter is in force only when it is set to a non-empty symbol (JavaScript truthiness). */
  predicate FilterActive(filter: Option<string>)
  {
    filter.Some? && filter.value != ""
  }

  /** A date cutoff is in force only when it is set to a non-zero instant (JavaScript truthiness). */
  predicate CutoffActive(cutoff: Option<int>)
  {
    cutoff.Some? && cutoff.value != 0
  }

  /** The row's token is one the run asks about. */
  predicate TokenSelected(token: string, filter: Option<string>)
  {
    FilterActive(filter) ==> token == filter.value
  }

  /** The row happened at or before the cutoff: as-of-date semantics. */
  predicate WithinCutoff(timestamp: int, cutoff: Option<int>)
  {
    CutoffActive(cutoff) ==> timestamp <= cutoff.value
  }

  /** The row takes part in the aggregation. */
  predicate Survives(r: Record, filter: Option<string>, cutoff: Option<int>)
  {
    TokenSelected(r.token, filter) && WithinCutoff(r.timestamp, cutoff)
  }

  /** The signed change a surviving row makes to its token's balance. */
  function Delta(r: Record): real
  {
    if r.transactionType == Deposit then r.amount
    else if r.transactionType == Withdrawl then -r.amount
    else 0.0
  }

  /** The balance a map records for a token, reading an absent key as 0. */
  function Balance(m: map<string, real>, t: string): real
  {
    if t in m then m[t] else 0.0
  }

}
