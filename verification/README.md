# Transactions-CLI balance aggregation in Dafny

The tool reads a ledger of token transactions (a CSV file with the columns
`token`, `transaction_type`, `amount`, `timestamp`), folds it into a net
balance per token, and then values each balance in USD through a price
service. This project models the fold: the record loop of the parser's
`readable` handler in `index.js`, together with the `tokenBalances`
accumulator it fills, starting from an empty object.

For every record, in file order:

1. if a token filter (`--token`) is in force and the record's token differs, skip it;
2. if a date cutoff (`--date`, as a Unix instant) is in force and `cutoff < timestamp`, skip it;
3. give the token an entry of 0 if it has none;
4. add the amount for `DEPOSIT`, subtract it for `WITHDRAWL`, and leave the balance alone for any other type.

Files and modules:

- `options.dfy` (`Options`): the optional value type used for the two command-line options.
- `ledger.dfy` (`Ledger`): the `Record` datatype, the two transaction-type literals, and the
  declarative policy. `Survives` says whether a record takes part. `Delta` gives the signed
  change a record makes. `Balance` reads an absent key as 0.
- `balances.dfy` (`Balances`): the program's loop body `Step`, written with its two branches
  as they stand, then `Fold`, `Aggregate`, the loop as the method `AggregateRecords`, and the
  sums of surviving deposits and withdrawals that give each final balance.
- `properties.dfy` (`AggregateProperties`): what the filter and the cutoff do,
  order independence, and monotonicity in the cutoff.
- `examples.dfy` (`LedgerExamples`): worked runs on a three-record ledger.

Decisions where the code and its description differ (the model follows the code):

- The withdrawal literal is `WITHDRAWL` (index.js:91, 106). A record typed `WITHDRAWAL` is an
  "other type": it creates a zero entry but does not change the balance. So the ledger
  A +10 / A "WITHDRAWAL" 3 / B +5 aggregates to `{A: 10, B: 5}`, not `{A: 7, B: 5}`.
  `LedgerExamples.ExampleCorrectSpellingIgnored` shows this.
- Both options are tested for truthiness (index.js:76, 81, 96). `--token ""` filters
  nothing, and a cutoff of 0 excludes nothing. `FilterActive` and `CutoffActive` model this.
- The key test `!tokenBalances[token]` (index.js:85, 100) also fires on a stored 0.
  `EnsureKey` is written that way, and its contract shows it is the same as "insert 0 if absent"
  for every token that does not name a property inherited from `Object.prototype` (see "## Left out").
- Amounts are not checked for sign, so the model accepts any amount.
- The balance is not monotone in the cutoff date when the ledger holds withdrawals. The
  model proves that the key set is monotone, and that balances are monotone for ledgers of
  non-negative deposits.

Running the aggregation twice on the same input gives the same map. `Aggregate` is a pure
function, so this needs no lemma.

Amounts and balances are `real`: exact arithmetic takes the place of binary floats.
Timestamps and the cutoff are `int`.

## Model

| member | source | states |
|---|---|---|
| Balances.EnsureKey | index.js:85-86 | the falsy test followed by the assignment of 0 adds exactly the token to the keys, keeps the token's existing balance (0 when it was absent), and leaves every other entry alone |
| Balances.ApplyType | index.js:88-94 | on an existing entry, the token's balance moves by the record's signed delta (+amount for DEPOSIT, -amount for WITHDRAWL, unchanged for any other type) and every other entry stays as it was |
| Balances.Step | index.js:76-110 | a record that fails the token filter or lies strictly after the cutoff leaves the map unchanged; a surviving record makes its token a key and adds its signed delta (+amount for DEPOSIT, -amount for WITHDRAWL, 0 otherwise) to the previous balance; no other key is created, changed or removed |
| Balances.Fold | index.js:75-111 | processing records in order from a map keeps every existing key and adds exactly the tokens of surviving records |
| Balances.Aggregate | index.js:54-112 | starting from the empty object, the keys of the result are exactly the tokens of surviving records: no spurious zero entries, and a filtered-out token never appears |
| Balances.FoldBalance | index.js:88-109 | after the fold, each token's balance is its starting balance plus the sum of its surviving DEPOSIT amounts minus the sum of its surviving WITHDRAWL amounts |
| Balances.AggregateBalance | index.js:73-112 | a token is in the result iff some surviving record carries it, and its balance is surviving deposits minus surviving withdrawals |
| Balances.FoldSnoc | index.js:75 | reading one more record applies one more loop iteration to the balances so far |
| Balances.AggregateRecords | index.js:73-112 | the read loop over all records yields the aggregate balance map, whose keys are the surviving tokens |
| AggregateProperties.StepBySurvival | index.js:76-110 | the filtered and unfiltered branches treat a surviving record identically and differ only in the token check |
| AggregateProperties.FoldSameSurvivors | index.js:76-110 | two option settings that let the same records through give the same balances |
| AggregateProperties.EmptyTokenFilterIgnored | index.js:76 | an empty `--token` value is falsy and gives the same result as no filter |
| AggregateProperties.ZeroCutoffIgnored | index.js:81-83 | a cutoff of 0 is falsy and gives the same result as no cutoff |
| AggregateProperties.LateCutoffIgnored | index.js:96-98 | a cutoff at or after every record's timestamp gives the same result as no cutoff |
| AggregateProperties.LateRecordSkipped | index.js:81-83 | a record strictly after an active cutoff changes nothing: no balance moves and no key is created |
| AggregateProperties.RecordAtCutoffIncluded | index.js:96-102 | a record whose timestamp equals the cutoff is included: its token gets an entry and its delta |
| AggregateProperties.FilteredKeys | index.js:76-80 | with a non-empty token filter X every key of the result is X, so the result has at most one entry |
| AggregateProperties.TotalIgnoresFilter | index.js:78 | the token filter does not change the deposit or withdrawal sum of a token it selects |
| AggregateProperties.FilterIsRestriction | index.js:76-110 | running with filter X equals running without a filter and keeping only X's entry |
| AggregateProperties.TotalPermutation | index.js:88-109 | the deposit and withdrawal sums of a token depend only on the multiset of records, not their order |
| AggregateProperties.OrderIndependence | index.js:73-112 | any reordering of the records yields the same balance map |
| AggregateProperties.CutoffMonotoneKeys | index.js:96-102 | moving an active cutoff later never removes a token from the result |
| AggregateProperties.TotalCutoffMonotone | index.js:96-109 | with non-negative amounts, moving an active cutoff later never lowers a deposit or withdrawal sum |
| AggregateProperties.CutoffMonotoneBalance | index.js:96-109 | for a ledger of non-negative amounts with no WITHDRAWL rows, moving an active cutoff later never lowers a token's balance |
| AggregateProperties.OtherTypeOnlyCreatesKey | index.js:100-109 | a surviving record of any type other than DEPOSIT or WITHDRAWL, "WITHDRAWAL" included, only ensures its token has an entry and changes no balance |
| LedgerExamples.ExampleNoOptions | index.js:73-112 | A +10, A WITHDRAWL 3, B +5 with no options gives {A: 7, B: 5} |
| LedgerExamples.ExampleCorrectSpellingIgnored | index.js:106-109 | the same ledger with the type spelled WITHDRAWAL gives {A: 10, B: 5} |
| LedgerExamples.ExampleTokenFilter | index.js:76-94 | the same ledger with token filter A gives {A: 7} |
| LedgerExamples.ExampleCutoff | index.js:96-98 | a cutoff at the second record's instant keeps that record (the bound is inclusive) and excludes the third, giving {A: 7} with no entry for B |
| LedgerExamples.ExampleTransferCreatesZeroEntry | index.js:100-102 | a lone TRANSFER record creates a zero entry for its token |

## Left out

- CSV streaming and parsing (index.js:44-46, 115-117, 150): these are library I/O. The model starts from the already-parsed record sequence. The `error` handler only logs.
- Parsing `--date` with moment in strict MM-DD-YYYY mode and adding 23:59:59 (index.js:56-70): this needs a library and the local time zone. The cutoff is taken as a given optional integer. The early return on an invalid date is CLI plumbing.
- Price lookups (index.js:12-38): these are network calls to the price service.
- Valuation and printing (index.js:119-148): float multiplication and terminal colouring. In current-price mode the program prints the response's keys, not the balance keys.
- `parseFloat` coercions: an amount that does not parse gives NaN. NaN and binary-float rounding are not modelled; amounts are exact reals.
- Timestamps are strings that JavaScript compares numerically; the model takes integers. A non-numeric timestamp (NaN, never excluded) is not modelled.
- Record validation: the program checks no record, and a row without a token column is keyed by `undefined`. The model's records always carry a token string.
- `commander`, `dotenv` and the progress spinner are not modelled.
- Balances.EnsureKey: assumes no token names a property that a plain `{}` inherits from `Object.prototype` (`constructor`, `toString`, `valueOf`, `hasOwnProperty`, `__proto__`, ...). For such a token the falsy test at index.js:85/100 sees the inherited member, so no 0 entry is created. A first DEPOSIT then stores NaN, which a later record resets to 0, and an assignment to `__proto__` is ignored by its setter, so that token never becomes a key. Balances.Step, Balances.Fold, Balances.Aggregate, Balances.AggregateBalance and the lemmas built on them inherit this gap: for such tokens they promise an entry with the deposits-minus-withdrawals balance, which the program does not produce. Modelling it would need JavaScript's prototype lookup and NaN, which the model excludes.
- AggregateProperties.CutoffMonotoneBalance: is weaker than "a later date never lowers a balance", because that claim is false once the later window holds withdrawals. It is proved only for ledgers of non-negative amounts without WITHDRAWL rows.
