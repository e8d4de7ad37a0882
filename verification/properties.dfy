/**
 * Properties of the balance aggregation as a whole: what the token filter and
 * the date cutoff do, independence from record order, and worked examples.
 */
module AggregateProperties {
  import opened Options
  import opened Ledger
  import opened Balances

  /** The entry of m for key k alone, if m has one. */
  function Only(m: map<string, real>, k: string): (r: map<string, real>)
    ensures r.Keys == m.Keys * {k}
    ensures k in m ==> r[k] == m[k]
  {
    if k in m then map[k := m[k]] else map[]
  }

  /** The two branches of the loop body differ only in the token check: a surviving record is handled alike. */
  lemma StepBySurvival(m: map<string, real>, rec: Record, filter: Option<string>, cutoff: Option<int>)
    ensures Step(m, rec, filter, cutoff) == (if Survives(rec, filter, cutoff) then Step(m, rec, None, None) else m)
  {
  }

  /** Two runs whose options let through the same records produce the same balances. */
  lemma {:induction false} FoldSameSurvivors(m: map<string, real>, rs: seq<Record>,
                                             f1: Option<string>, c1: Option<int>,
                                             f2: Option<string>, c2: Option<int>)
    requires forall i :: 0 <= i < |rs| ==> (Survives(rs[i], f1, c1) <==> Survives(rs[i], f2, c2))
    ensures Fold(m, rs, f1, c1) == Fold(m, rs, f2, c2)
    decreases |rs|
  {
    if |rs| > 0 {
      StepBySurvival(m, rs[0], f1, c1);
      StepBySurvival(m, rs[0], f2, c2);
      FoldSameSurvivors(Step(m, rs[0], f1, c1), rs[1..], f1, c1, f2, c2);
    }
  }

  /** `--token ""` is falsy, so it filters nothing. */
  lemma EmptyTokenFilterIgnored(rs: seq<Record>, cutoff: Option<int>)
    ensures Aggregate(rs, Some(""), cutoff) == Aggregate(rs, None, cutoff)
  {
    FoldSameSurvivors(map[], rs, Some(""), cutoff, None, cutoff);
  }

  /** A cutoff of 0 is falsy, so it excludes nothing. */
  lemma ZeroCutoffIgnored(rs: seq<Record>, filter: Option<string>)
    ensures Aggregate(rs, filter, Some(0)) == Aggregate(rs, filter, None)
  {
    FoldSameSurvivors(map[], rs, filter, Some(0), filter, None);
  }

  /** A cutoff no record is later than changes nothing. */
  lemma LateCutoffIgnored(rs: seq<Record>, filter: Option<string>, cutoff: int)
    requires forall i :: 0 <= i < |rs| ==> rs[i].timestamp <= cutoff
    ensures Aggregate(rs, filter, Some(cutoff)) == Aggregate(rs, filter, None)
  {
    FoldSameSurvivors(map[], rs, filter, Some(cutoff), filter, None);
  }

  /** A record strictly later than an active cutoff leaves the map as it was. */
  lemma LateRecordSkipped(m: map<string, real>, rec: Record, filter: Option<string>, cutoff: int)
    requires cutoff != 0 && cutoff < rec.timestamp
    ensures Step(m, rec, filter, Some(cutoff)) == m
  {
  }

  /** A record at exactly the cutoff instant is included: its token gets an entry and its delta. */
  lemma RecordAtCutoffIncluded(m: map<string, real>, rec: Record, filter: Option<string>)
    requires TokenSelected(rec.token, filter)
    ensures rec.token in Step(m, rec, filter, Some(rec.timestamp))
    ensures Step(m, rec, filter, Some(rec.timestamp))[rec.token] == Balance(m, rec.token) + Delta(rec)
  {
  }

  /** Under a token filter X every key of the result is X, so there is at most one entry. */
  lemma FilteredKeys(rs: seq<Record>, x: string, cutoff: Option<int>)
    requires x != ""
    ensures Aggregate(rs, Some(x), cutoff).Keys <= {x}
    ensures |Aggregate(rs, Some(x), cutoff)| <= 1
  {
    var keys := Aggregate(rs, Some(x), cutoff).Keys;
    if x in keys {
      assert keys == {x};
    } else {
      assert keys == {};
    }
  }

  /** The filter plays no part in a total for a token it selects. */
  lemma {:induction false} TotalIgnoresFilter(rs: seq<Record>, t: string, kind: string,
                                              filter: Option<string>, cutoff: Option<int>)
    requires TokenSelected(t, filter)
    ensures Total(rs, t, kind, filter, cutoff) == Total(rs, t, kind, None, cutoff)
    decreases |rs|
  {
    if |rs| > 0 {
      TotalIgnoresFilter(rs[1..], t, kind, filter, cutoff);
    }
  }

  /** Filtering on X equals aggregating everything and keeping only X's entry. */
  lemma FilterIsRestriction(rs: seq<Record>, x: string, cutoff: Option<int>)
    requires x != ""
    ensures Aggregate(rs, Some(x), cutoff) == Only(Aggregate(rs, None, cutoff), x)
  {
    var filtered := Aggregate(rs, Some(x), cutoff);
    var all := Aggregate(rs, None, cutoff);
    assert filtered.Keys == all.Keys * {x};
    if x in filtered {
      AggregateBalance(rs, x, Some(x), cutoff);
      AggregateBalance(rs, x, None, cutoff);
      TotalIgnoresFilter(rs, x, Deposit, Some(x), cutoff);
      TotalIgnoresFilter(rs, x, Withdrawl, Some(x), cutoff);
    }
  }

  /** Totals distribute over concatenation of the record sequence. */
  lemma {:induction false} TotalAppend(a: seq<Record>, b: seq<Record>, t: string, kind: string,
                                       filter: Option<string>, cutoff: Option<int>)
    ensures Total(a + b, t, kind, filter, cutoff)
            == Total(a, t, kind, filter, cutoff) + Total(b, t, kind, filter, cutoff)
    decreases |a|
  {
    if |a| == 0 {
      assert a + b == b;
    } else {
      assert (a + b)[1..] == a[1..] + b;
      TotalAppend(a[1..], b, t, kind, filter, cutoff);
    }
  }

  /** Removing the record at position i takes its own contribution out of a total. */
  lemma TotalRemoveAt(b: seq<Record>, i: int, t: string, kind: string,
                      filter: Option<string>, cutoff: Option<int>)
    requires 0 <= i < |b|
    ensures Total(b, t, kind, filter, cutoff)
            == Total([b[i]], t, kind, filter, cutoff) + Total(b[..i] + b[i + 1..], t, kind, filter, cutoff)
  {
    assert b == b[..i] + ([b[i]] + b[i + 1..]);
    TotalAppend(b[..i], [b[i]] + b[i + 1..], t, kind, filter, cutoff);
    TotalAppend([b[i]], b[i + 1..], t, kind, filter, cutoff);
    TotalAppend(b[..i], b[i + 1..], t, kind, filter, cutoff);
  }

  /** Removing the record at position i removes one occurrence from the multiset. */
  lemma MultisetRemoveAt(b: seq<Record>, i: int)
    requires 0 <= i < |b|
    ensures multiset(b[..i] + b[i + 1..]) == multiset(b) - multiset{b[i]}
  {
    assert b == b[..i] + [b[i]] + b[i + 1..];
  }

  /** Totals depend on the multiset of records only, not on their order. */
  lemma {:induction false} TotalPermutation(a: seq<Record>, b: seq<Record>, t: string, kind: string,
                                            filter: Option<string>, cutoff: Option<int>)
    requires multiset(a) == multiset(b)
    ensures Total(a, t, kind, filter, cutoff) == Total(b, t, kind, filter, cutoff)
    decreases |a|
  {
    if |a| == 0 {
      assert |b| == |multiset(b)| == 0;
    } else {
      var x := a[0];
      assert x in multiset(b);
      var i :| 0 <= i < |b| && b[i] == x;
      MultisetRemoveAt(b, i);
      MultisetRemoveAt(a, 0);
      assert a[..0] + a[1..] == a[1..];
      TotalPermutation(a[1..], b[..i] + b[i + 1..], t, kind, filter, cutoff);
      TotalRemoveAt(b, i, t, kind, filter, cutoff);
      TotalRemoveAt(a, 0, t, kind, filter, cutoff);
    }
  }

  /** The balance map does not depend on the order of the records in the file. */
  lemma OrderIndependence(a: seq<Record>, b: seq<Record>, filter: Option<string>, cutoff: Option<int>)
    requires multiset(a) == multiset(b)
    ensures Aggregate(a, filter, cutoff) == Aggregate(b, filter, cutoff)
  {
    var ma := Aggregate(a, filter, cutoff);
    var mb := Aggregate(b, filter, cutoff);
    forall r | true
      ensures r in a <==> r in b
    {
      assert r in a <==> r in multiset(a);
      assert r in b <==> r in multiset(b);
    }
    assert ma.Keys == mb.Keys;
    forall t | t in ma
      ensures ma[t] == mb[t]
    {
      AggregateBalance(a, t, filter, cutoff);
      AggregateBalance(b, t, filter, cutoff);
      TotalPermutation(a, b, t, Deposit, filter, cutoff);
      TotalPermutation(a, b, t, Withdrawl, filter, cutoff);
    }
  }

  /** A later active cutoff never drops a token from the result. */
  lemma CutoffMonotoneKeys(rs: seq<Record>, filter: Option<string>, c1: int, c2: int)
    requires c1 != 0 && c1 <= c2
    ensures Aggregate(rs, filter, Some(c1)).Keys <= Aggregate(rs, filter, Some(c2)).Keys
  {
  }

  /** With non-negative amounts, a later cutoff never lowers a total. */
  lemma {:induction false} TotalCutoffMonotone(rs: seq<Record>, t: string, kind: string,
                                               filter: Option<string>, c1: int, c2: int)
    requires c1 != 0 && c1 <= c2
    requires forall i :: 0 <= i < |rs| ==> rs[i].amount >= 0.0
    ensures Total(rs, t, kind, filter, Some(c1)) <= Total(rs, t, kind, filter, Some(c2))
    decreases |rs|
  {
    if |rs| > 0 {
      TotalCutoffMonotone(rs[1..], t, kind, filter, c1, c2);
    }
  }

  /** Without withdrawals no total of withdrawals arises. */
  lemma {:induction false} NoWithdrawals(rs: seq<Record>, t: string, filter: Option<string>, cutoff: Option<int>)
    requires forall i :: 0 <= i < |rs| ==> rs[i].transactionType != Withdrawl
    ensures Withdrawals(rs, t, filter, cutoff) == 0.0
    decreases |rs|
  {
    if |rs| > 0 {
      NoWithdrawals(rs[1..], t, filter, cutoff);
    }
  }

  /** For a ledger of non-negative amounts with no withdrawals, a later cutoff never lowers a balance. */
  lemma CutoffMonotoneBalance(rs: seq<Record>, t: string, filter: Option<string>, c1: int, c2: int)
    requires c1 != 0 && c1 <= c2
    requires forall i :: 0 <= i < |rs| ==> rs[i].amount >= 0.0 && rs[i].transactionType != Withdrawl
    ensures Balance(Aggregate(rs, filter, Some(c1)), t) <= Balance(Aggregate(rs, filter, Some(c2)), t)
  {
    FoldBalance(map[], rs, t, filter, Some(c1));
    FoldBalance(map[], rs, t, filter, Some(c2));
    NoWithdrawals(rs, t, filter, Some(c1));
    NoWithdrawals(rs, t, filter, Some(c2));
    TotalCutoffMonotone(rs, t, Deposit, filter, c1, c2);
  }

  /** A surviving record of any other type, "WITHDRAWAL" included, only ensures its token has an entry. */
  lemma OtherTypeOnlyCreatesKey(rs: seq<Record>, rec: Record, filter: Option<string>, cutoff: Option<int>)
    requires Survives(rec, filter, cutoff)
    requires rec.transactionType != Deposit && rec.transactionType != Withdrawl
    ensures Aggregate(rs + [rec], filter, cutoff)
            == Aggregate(rs, filter, cutoff)[rec.token := Balance(Aggregate(rs, filter, cutoff), rec.token)]
  {
    FoldSnoc(map[], rs, rec, filter, cutoff);
  }

}
