/**
 * The balance aggregation: each parsed record is folded, in file order, into
 * a map from token symbol to net balance, starting from the empty map.
 */
module Balances {
  import opened Options
  import opened Ledger

  /** Ensure the token has an entry, written as the program's falsy test: absent or 0 becomes 0. */
  function EnsureKey(m: map<string, real>, t: string): (r: map<string, real>)
    ensures r.Keys == m.Keys + {t}
    ensures r[t] == Balance(m, t)
    ensures forall k :: k in m && k != t ==> r[k] == m[k]
  {
    if t !in m || m[t] == 0.0 then m[t := 0.0] else m
  }

  /** Apply a record's transaction type to its token's entry, which must exist. */
  function ApplyType(m: map<string, real>, r: Record): (r': map<string, real>)
    requires r.token in m
    ensures r' == m[r.token := m[r.token] + Delta(r)]
  {
    if r.transactionType == Deposit then m[r.token := m[r.token] + r.amount]
    else if r.transactionType == Withdrawl then m[r.token := m[r.token] - r.amount]
    else m
  }

  /**
   * One iteration of the record loop, with the program's two branches (token
   * filter set, token filter unset) written out as they stand.
   */
  function Step(m: map<string, real>, rec: Record, filter: Option<string>, cutoff: Option<int>)
    : (r: map<string, real>)
    ensures !Survives(rec, filter, cutoff) ==> r == m
    ensures Survives(rec, filter, cutoff) ==>
              r.Keys == m.Keys + {rec.token} && r[rec.token] == Balance(m, rec.token) + Delta(rec)
    ensures forall k :: k in m && k != rec.token ==> k in r && r[k] == m[k]
    ensures forall k :: k in r && k != rec.token ==> k in m
  {
    if FilterActive(filter) then
      if rec.token != filter.value then m
      else if CutoffActive(cutoff) && cutoff.value < rec.timestamp then m
      else ApplyType(EnsureKey(m, rec.token), rec)
    else
      if CutoffActive(cutoff) && cutoff.value < rec.timestamp then m
      else ApplyType(EnsureKey(m, rec.token), rec)
  }

  /** The tokens of the records that take part in the aggregation. */
  function SurvivingTokens(rs: seq<Record>, filter: Option<string>, cutoff: Option<int>): set<string>
  {
    set r | r in rs && Survives(r, filter, cutoff) :: r.token
  }

  lemma SurvivingTokensCons(rs: seq<Record>, filter: Option<string>, cutoff: Option<int>)
    requires |rs| > 0
    ensures SurvivingTokens(rs, filter, cutoff) ==
              (if Survives(rs[0], filter, cutoff) then {rs[0].token} else {})
              + SurvivingTokens(rs[1..], filter, cutoff)
  {
    assert forall r :: r in rs <==> r == rs[0] || r in rs[1..] by {
      assert rs == [rs[0]] + rs[1..];
    }
  }

  /** Process the records in order, starting from the map m. */
  function Fold(m: map<string, real>, rs: seq<Record>, filter: Option<string>, cutoff: Option<int>)
    : (r: map<string, real>)
    ensures r.Keys == m.Keys + SurvivingTokens(rs, filter, cutoff)
    decreases |rs|
  {
    if |rs| == 0 then m
    else
      SurvivingTokensCons(rs, filter, cutoff);
      Fold(Step(m, rs[0], filter, cutoff), rs[1..], filter, cutoff)
  }

  /** The balance map of a run: the fold from the empty map. */
  function Aggregate(rs: seq<Record>, filter: Option<string>, cutoff: Option<int>): (r: map<string, real>)
    ensures r.Keys == SurvivingTokens(rs, filter, cutoff)
  {
    Fold(map[], rs, filter, cutoff)
  }

  /** The sum of the amounts of surviving records of token t whose type is kind. */
  function Total(rs: seq<Record>, t: string, kind: string, filter: Option<string>, cutoff: Option<int>): real
    decreases |rs|
  {
    if |rs| == 0 then 0.0
    else
      (if Survives(rs[0], filter, cutoff) && rs[0].token == t && rs[0].transactionType == kind
       then rs[0].amount else 0.0)
      + Total(rs[1..], t, kind, filter, cutoff)
  }

  /** Sum of surviving deposits of token t. */
  function Deposits(rs: seq<Record>, t: string, filter: Option<string>, cutoff: Option<int>): real
  {
    Total(rs, t, Deposit, filter, cutoff)
  }

  /** Sum of surviving withdrawals of token t. */
  function Withdrawals(rs: seq<Record>, t: string, filter: Option<string>, cutoff: Option<int>): real
  {
    Total(rs, t, Withdrawl, filter, cutoff)
  }

  /** Each token's balance after the fold is its starting balance plus deposits minus withdrawals. */
  lemma {:induction false} FoldBalance(m: map<string, real>, rs: seq<Record>, t: string,
                                       filter: Option<string>, cutoff: Option<int>)
    ensures Balance(Fold(m, rs, filter, cutoff), t)
            == Balance(m, t) + Deposits(rs, t, filter, cutoff) - Withdrawals(rs, t, filter, cutoff)
    decreases |rs|
  {
    if |rs| > 0 {
      var m' := Step(m, rs[0], filter, cutoff);
      FoldBalance(m', rs[1..], t, filter, cutoff);
    }
  }

  /** The final balance of every token equals its surviving deposits minus its surviving withdrawals. */
  lemma AggregateBalance(rs: seq<Record>, t: string, filter: Option<string>, cutoff: Option<int>)
    ensures t in Aggregate(rs, filter, cutoff) <==> t in SurvivingTokens(rs, filter, cutoff)
    ensures t in Aggregate(rs, filter, cutoff) ==>
              Aggregate(rs, filter, cutoff)[t] == Deposits(rs, t, filter, cutoff) - Withdrawals(rs, t, filter, cutoff)
  {
    FoldBalance(map[], rs, t, filter, cutoff);
  }

  /** Appending a record to the input applies one more step to the result. */
  lemma {:induction false} FoldSnoc(m: map<string, real>, rs: seq<Record>, rec: Record,
                                    filter: Option<string>, cutoff: Option<int>)
    ensures Fold(m, rs + [rec], filter, cutoff) == Step(Fold(m, rs, filter, cutoff), rec, filter, cutoff)
    decreases |rs|
  {
    if |rs| == 0 {
      assert rs + [rec] == [rec];
    } else {
      assert (rs + [rec])[1..] == rs[1..] + [rec];
      FoldSnoc(Step(m, rs[0], filter, cutoff), rs[1..], rec, filter, cutoff);
    }
  }

  /** The program's record loop: read records one at a time and update the balances. */
  method AggregateRecords(records: seq<Record>, filter: Option<string>, cutoff: Option<int>)
    returns (balances: map<string, real>)
    ensures balances == Aggregate(records, filter, cutoff)
    ensures balances.Keys == SurvivingTokens(records, filter, cutoff)
  {
    balances := map[];
    var i := 0;
    while i < |records|
      invariant 0 <= i <= |records|
      invariant balances == Fold(map[], records[..i], filter, cutoff)
    {
      FoldSnoc(map[], records[..i], records[i], filter, cutoff);
      assert records[..i + 1] == records[..i] + [records[i]];
      balances := Step(balances, records[i], filter, cutoff);
      i := i + 1;
    }
    assert records[..i] == records;
  }

}
