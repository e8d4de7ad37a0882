/**
 * Worked runs of the aggregation on a three-record ledger: A deposits 10,
 * A withdraws 3, B deposits 5, at instants 1, 2 and 3.
 */
module LedgerExamples {
  import opened Options
  import opened Ledger
  import opened Balances

  function Ledger3(withdrawalType: string): seq<Record>
  {
    [Record("A", Deposit, 10.0, 1), Record("A", withdrawalType, 3.0, 2), Record("B", Deposit, 5.0, 3)]
  }

  /** With the type spelled as the program expects, A nets 7 and B nets 5. */
  lemma ExampleNoOptions()
    ensures Aggregate(Ledger3(Withdrawl), None, None) == map["A" := 7.0, "B" := 5.0]
  {
    var rs := Ledger3(Withdrawl);
    var m1 := Step(map[], rs[0], None, None);
    var m2 := Step(m1, rs[1], None, None);
    assert Fold(map[], rs, None, None) == Fold(m1, rs[1..], None, None);
    assert Fold(m1, rs[1..], None, None) == Fold(m2, rs[2..], None, None);
  }

  /** A row typed "WITHDRAWAL" is not a withdrawal to the program: A keeps all 10. */
  lemma ExampleCorrectSpellingIgnored()
    ensures Aggregate(Ledger3("WITHDRAWAL"), None, None) == map["A" := 10.0, "B" := 5.0]
  {
    var rs := Ledger3("WITHDRAWAL");
    var m1 := Step(map[], rs[0], None, None);
    var m2 := Step(m1, rs[1], None, None);
    assert Fold(map[], rs, None, None) == Fold(m1, rs[1..], None, None);
    assert Fold(m1, rs[1..], None, None) == Fold(m2, rs[2..], None, None);
  }

  /** With `--token A` only A's entry remains. */
  lemma ExampleTokenFilter()
    ensures Aggregate(Ledger3(Withdrawl), Some("A"), None) == map["A" := 7.0]
  {
    var rs := Ledger3(Withdrawl);
    var m1 := Step(map[], rs[0], Some("A"), None);
    var m2 := Step(m1, rs[1], Some("A"), None);
    assert Fold(map[], rs, Some("A"), None) == Fold(m1, rs[1..], Some("A"), None);
    assert Fold(m1, rs[1..], Some("A"), None) == Fold(m2, rs[2..], Some("A"), None);
  }

  /** A cutoff at the second record's instant keeps that record and excludes B's deposit and B itself. */
  lemma ExampleCutoff()
    ensures Aggregate(Ledger3(Withdrawl), None, Some(2)) == map["A" := 7.0]
  {
    var rs := Ledger3(Withdrawl);
    var m1 := Step(map[], rs[0], None, Some(2));
    var m2 := Step(m1, rs[1], None, Some(2));
    assert Fold(map[], rs, None, Some(2)) == Fold(m1, rs[1..], None, Some(2));
    assert Fold(m1, rs[1..], None, Some(2)) == Fold(m2, rs[2..], None, Some(2));
  }

  /** An unsupported type still creates a zero entry for a token seen first. */
  lemma ExampleTransferCreatesZeroEntry()
    ensures Aggregate([Record("C", "TRANSFER", 4.0, 1)], None, None) == map["C" := 0.0]
  {
    var rs := [Record("C", "TRANSFER", 4.0, 1)];
    assert Fold(map[], rs, None, None) == Fold(Step(map[], rs[0], None, None), rs[1..], None, None);
  }

}
