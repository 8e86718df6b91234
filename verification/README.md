# Batch import of fund purchases (tsoiland/ffl), modelled in Dafny

`Main.main` in `src/main/java/com/skagenfondene/ffl/Main.java` reads a CSV
file of customer instructions and imports it into a database in one
transaction:

- The first line is a header and is skipped.
- Every later line is split on commas into `customerId`, `operation` and
  `amount`.
- A `BUY` line is checked in this order:
  1. The customer must exist in `customer`.
  2. The customer's cash balance, `SUM(amount)` over `cash_transaction` with
     NULL read as zero, must cover the amount. The test is
     `cashBalance.subtract(amount).intValue() < 0`.
  3. Exactly one `nav` row must match the lookup key and the value date.
- A `BUY` that passes computes `units = amount / nav` and inserts one row into
  `cash_transaction`.
- `SELL` and any other operation do nothing.
- Any exception leaves the loop before `connection.commit()`, so the
  connection closes with the transaction uncommitted. Only a file whose every
  line succeeds is committed.

The model follows the code as written, including where it differs from what
its comments, its TODOs and its table and column names suggest:

- The NAV query binds the customer id, not the ISIN, to the `isin` column.
  `isin` only appears in the error messages (`Processing.ApplyBuyIgnoresIsin`).
- The BUY insert goes into `cash_transaction`, with `value_date` and `units`
  set and `amount` left NULL. `SUM(amount)` skips NULLs, so no purchase in a
  batch lowers the balance that later purchases are checked against.
  `Scenarios.BuysInOneBatchShareTheBalance` shows two purchases of 150 both
  passing against 200 in cash.
- `intValue()` drops the fraction and keeps the low 32 bits. A shortfall of
  less than one unit therefore passes. A shortfall of exactly 2^32 also
  passes, and a surplus of 2^31 fails.

Layout:

| module | file | contents |
|---|---|---|
| `Schema` | `schema.dfy` | The three tables as values. |
| `Queries` | `queries.dfy` | The three SELECT statements as functions over the tables. |
| `Arithmetic` | `arithmetic.dfy` | `BigDecimal.intValue()` and the cash check. |
| `Columns` | `columns.dfy` | `String.split(",")`. |
| `Processing` | `processing.dfy` | What one line does, as a function. |
| `Batching` | `batching.dfy` | The loop's shape: the header skip, file order, and stopping at the first failure. It is stated for any per-line step. |
| `BatchProperties` | `batch_properties.dfy` | What a batch of BUY/SELL lines appends. |
| `BatchImport` | `ledger.dfy` | The `Ledger` class: committed tables, pending inserts, and the loop as methods proved against `Processing` and `Batching`. |
| `Scenarios` | `scenarios.dfy` | Whole batches over the source's test data. |
| `Seqs` | `seqs.dfy` | Sequence facts used by the proofs. |

## Model

All source paths are `src/main/java/com/skagenfondene/ffl/Main.java`.

| member | source | states |
|---|---|---|
| Schema.Tables.WithCash | src/main/java/com/skagenfondene/ffl/Main.java:129-134 | An insert into cash_transaction keeps the earlier rows as they were, puts the new rows after them, and leaves the customer and nav tables unchanged. |
| Queries.NoCustomerRow | src/main/java/com/skagenfondene/ffl/Main.java:72-81 | The value stored in `customerExists` is true exactly when the id is not in the customer table, so the throw happens only for unknown customers. |
| Queries.Contribution | src/main/java/com/skagenfondene/ffl/Main.java:85-89 | What one cash_transaction row adds to a customer's SUM(amount): nothing when the row belongs to someone else or its amount is NULL. It equals the balance of a table holding only that row. |
| Queries.SumAmounts | src/main/java/com/skagenfondene/ffl/Main.java:85-89 | SUM(amount) is NULL exactly when every one of the customer's rows has a NULL amount, which includes having no rows. |
| Queries.CashBalance | src/main/java/com/skagenfondene/ffl/Main.java:85-95 | The balance is zero when the customer has no non-NULL amount. |
| Queries.BalanceConcat | src/main/java/com/skagenfondene/ffl/Main.java:85-95 | The balance over two stretches of cash_transaction is the sum of the two balances: each row counts once, wherever it sits. |
| Queries.BalanceAppend | src/main/java/com/skagenfondene/ffl/Main.java:85-95 | Appending a row changes a customer's balance by that row's amount if the row is theirs and the amount is not NULL; otherwise the balance does not change. |
| Queries.NullAmountsKeepBalance | src/main/java/com/skagenfondene/ffl/Main.java:85-95 | Appending rows whose amount is NULL changes no customer's balance. |
| Queries.NextMatch | src/main/java/com/skagenfondene/ffl/Main.java:109-121 | The result-set cursor returns the first row at or after a position that matches (key, date), or nothing if no such row exists. |
| Queries.NavLookup | src/main/java/com/skagenfondene/ffl/Main.java:106-123 | A nav row matches when its isin column equals the key the query binds, which line 107 binds to the customer id, and its nav_date equals the date. NoNav exactly when no row matches. ManyNavs exactly when two different rows match. Found(v) exactly when one row matches, and v is that row's nav_value: it is Found(v) only then, and whenever one row alone matches the result is Found of its nav_value. |
| Queries.NavLookupOneRow | src/main/java/com/skagenfondene/ffl/Main.java:106-123 | Over a nav table of one row, the lookup finds that row's nav_value when the row matches and reports no NAV when it does not. |
| Arithmetic.TruncateTowardZero | src/main/java/com/skagenfondene/ffl/Main.java:99 | The integer part of x, rounding toward zero: less than one away from x, and on x's side of zero. |
| Arithmetic.LowBits32 | src/main/java/com/skagenfondene/ffl/Main.java:99 | A 32-bit two's-complement value congruent to n modulo 2^32; it is n itself when n fits. |
| Arithmetic.IntValue | src/main/java/com/skagenfondene/ffl/Main.java:99 | intValue() lies in the int range and is congruent modulo 2^32 to x truncated toward zero. When x truncates into the int range it equals that truncation. |
| Arithmetic.CashCheckPasses | src/main/java/com/skagenfondene/ffl/Main.java:99 | The guard `cashBalance.subtract(amount).intValue() < 0` lets a BUY through whenever balance minus amount is between 0 and 2^31. When it lets one through, the shortfall is less than one, or at least 2^31 + 1 so that it wraps around. |
| Arithmetic.CashCheckNearZero | src/main/java/com/skagenfondene/ffl/Main.java:99-101 | While balance minus amount fits in an int, the guard lets a BUY through exactly when balance - amount > -1. |
| Arithmetic.CoveredAmountPasses | src/main/java/com/skagenfondene/ffl/Main.java:99-101 | A balance that covers the amount passes, as long as the surplus fits in an int. |
| Arithmetic.SubUnitShortfallPasses | src/main/java/com/skagenfondene/ffl/Main.java:99-101 | 100 in cash passes a BUY of 100.5. |
| Arithmetic.ShortfallOfOneFails | src/main/java/com/skagenfondene/ffl/Main.java:99-101 | A shortfall of one or more is refused, as long as it fits in an int. |
| Arithmetic.CashCheckWrapsAround | src/main/java/com/skagenfondene/ffl/Main.java:99-101 | A shortfall of 2^32 passes the guard, and a surplus of 2^31 fails it. |
| Columns.Fields | src/main/java/com/skagenfondene/ffl/Main.java:58 | The pieces of a line between commas: at least one, and none containing a comma. |
| Columns.JoinFields | src/main/java/com/skagenfondene/ffl/Main.java:58 | Joining a line's pieces with commas gives back the line. |
| Columns.FieldsJoin | src/main/java/com/skagenfondene/ffl/Main.java:58 | Splitting comma-free pieces joined with commas gives back the pieces. |
| Columns.DropTrailingEmpty | src/main/java/com/skagenfondene/ffl/Main.java:58 | The result is a prefix of the pieces that does not end in an empty piece, and every piece dropped is empty. |
| Columns.JavaSplit | src/main/java/com/skagenfondene/ffl/Main.java:58 | `split(",")`: a line without a comma is returned whole, even when it is empty. Otherwise the result is the pieces with the trailing empty ones removed. |
| Columns.JavaSplitJoin | src/main/java/com/skagenfondene/ffl/Main.java:58 | Splitting comma-free columns joined with commas gives back the columns, provided the last column is not empty. |
| Processing.ParseLine | src/main/java/com/skagenfondene/ffl/Main.java:58-61 | A line with fewer than three columns fails with MissingColumn, naming the first missing index, which is the number of columns. Otherwise, an amount column that `parse` rejects fails with MalformedAmount naming that column. An amount that `parse` accepts gives the instruction (column 0, column 1, the parsed amount). No other error is possible. |
| Processing.ParseLineOfColumns | src/main/java/com/skagenfondene/ffl/Main.java:58-61 | A line written as three or more comma-free columns, the last one non-empty, with a well-formed third column reads back as the first two columns and that amount. Columns after the third are ignored. |
| Processing.ApplyBuy | src/main/java/com/skagenfondene/ffl/Main.java:68-134 | The checks in the source's order: UnknownCustomer exactly when the customer is missing; InsufficientCash(customerId, amount, balance), carrying the balance the check read, exactly when the customer exists and the guard fails; NavMissing or NavAmbiguous exactly when both earlier checks pass and zero or several nav rows match; ZeroNav exactly when both pass and the one matching row's nav_value is zero. Success happens exactly when both checks pass and one row matches with a non-zero nav, and the row is then (customerId, value date, NULL amount, amount / nav). |
| Processing.ApplyBuyIgnoresIsin | src/main/java/com/skagenfondene/ffl/Main.java:64-123 | The isin a batch is imported under never decides a BUY. With any two isins, both runs succeed or both fail, with the same row or the same error, except that NavMissing and NavAmbiguous each name their own isin. |
| Processing.ApplyLine | src/main/java/com/skagenfondene/ffl/Main.java:57-143 | A parse error is the line's error. A BUY gives ApplyBuy's outcome: its row as the line's one row, or its error. SELL and any other operation append nothing and succeed. So a line appends at most one row, only for a BUY of a known customer, with the batch's value date, a NULL amount and units set. |
| Batching.Extend | src/main/java/com/skagenfondene/ffl/Main.java:50-144 | After a failure nothing more runs. A new failure is reported at its own line. A success only appends rows to those already appended. |
| Batching.Run | src/main/java/com/skagenfondene/ffl/Main.java:50-144 | A stopped run names a line inside the run. |
| Batching.Batch | src/main/java/com/skagenfondene/ffl/Main.java:49-55 | A stopped batch names a line after the header. |
| Batching.HeaderIgnored | src/main/java/com/skagenfondene/ffl/Main.java:49-55 | The header's contents never affect the outcome. |
| Batching.HeaderOnlyAppendsNothing | src/main/java/com/skagenfondene/ffl/Main.java:49-55 | A file holding only the header succeeds and appends nothing. |
| Batching.RunSnoc | src/main/java/com/skagenfondene/ffl/Main.java:50-144 | Proof step of ImportBatch's loop: a line added at the end runs after all the others, on their outcome. |
| Batching.RunConcat | src/main/java/com/skagenfondene/ffl/Main.java:50-144 | Running a + b is running a, then b on the tables a left behind, with b's positions after a's. This covers file order and reading the transaction's own writes. |
| Batching.StoppedPrefixStopsBatch | src/main/java/com/skagenfondene/ffl/Main.java:50-144 | Once an early part of the file stops, the whole file stops there: later lines never run. |
| Batching.RunStopsAtFirstFailure | src/main/java/com/skagenfondene/ffl/Main.java:50-144 | A run that stops at position k ran every earlier line successfully, and line k failed, on the rows those lines appended, with the reported error. |
| Batching.BatchStopsAtFirstFailure | src/main/java/com/skagenfondene/ffl/Main.java:49-144 | The same for a whole file, counting the header as line 0. |
| Batching.AlwaysFailingLineStopsBatch | src/main/java/com/skagenfondene/ffl/Main.java:50-144 | A line that fails whatever rows came before it stops the batch at that line or at an earlier one. |
| Batching.FileStepFails | src/main/java/com/skagenfondene/ffl/Main.java:50-144 | When lines 1 to i - 1 succeeded and line i fails, the file stops at i with that error. |
| Batching.FileStepSucceeds | src/main/java/com/skagenfondene/ffl/Main.java:50-144 | Proof step of ImportBatch's loop: when lines 1 to i - 1 succeeded and line i succeeds, the run grows by line i's rows. |
| Batching.FileDone | src/main/java/com/skagenfondene/ffl/Main.java:49-146 | Proof step of ImportBatch's loop: when every line after the header succeeded, the file's outcome is the rows they appended. |
| BatchProperties.RunAppendsBuyRows | src/main/java/com/skagenfondene/ffl/Main.java:126-134 | Every row a batch appends names a known customer and carries the batch's value date, a NULL amount and units. |
| BatchProperties.RunKeepsBalances | src/main/java/com/skagenfondene/ffl/Main.java:85-134 | A successful batch changes no customer's cash balance. |
| BatchProperties.UnknownCustomerStopsBatch | src/main/java/com/skagenfondene/ffl/Main.java:72-81 | A BUY by a customer missing from the customer table stops the batch at that line or at an earlier one. |
| BatchImport.Ledger.View | src/main/java/com/skagenfondene/ffl/Main.java:43 | Queries inside the transaction see the committed tables plus the transaction's own inserts. |
| BatchImport.Ledger.constructor | src/main/java/com/skagenfondene/ffl/Main.java:41-43 | A connection starts from the committed tables with nothing pending. |
| BatchImport.Ledger.Insert | src/main/java/com/skagenfondene/ffl/Main.java:129-134 | The insert adds exactly one pending row after the earlier ones and leaves the committed tables alone. |
| BatchImport.Ledger.Commit | src/main/java/com/skagenfondene/ffl/Main.java:146 | The pending rows become committed and nothing is left pending. |
| BatchImport.Ledger.Rollback | src/main/java/com/skagenfondene/ffl/Main.java:41-147 | Closing without a commit drops the pending rows and keeps the committed tables. |
| BatchImport.Ledger.ImportLine | src/main/java/com/skagenfondene/ffl/Main.java:57-143 | The loop body does what ApplyLine says on the tables it sees. On success it appends exactly ApplyLine's rows. On failure it reports ApplyLine's error and appends nothing, so every check runs before the insert. |
| BatchImport.Ledger.ImportBuy | src/main/java/com/skagenfondene/ffl/Main.java:68-134 | The BUY branch run imperatively does what ApplyBuy says on the tables the transaction sees. On success it appends exactly ApplyBuy's row. On failure it reports ApplyBuy's error and inserts nothing, so every check runs before the insert. |
| BatchImport.Ledger.ImportBatch | src/main/java/com/skagenfondene/ffl/Main.java:41-147 | The import is atomic and follows file order. It commits exactly Batch's rows when every line succeeds. Otherwise it rolls back at the first failing line with that line's error, and the committed tables are unchanged. |
| Scenarios.BuyWithoutCashFails | src/main/java/com/skagenfondene/ffl/Main.java:99-101 | A BUY of 50 by a known customer with a zero balance is refused by the cash check. |
| Scenarios.NoCashRowsMeansZeroBalance | src/main/java/com/skagenfondene/ffl/Main.java:85-101 | Over the test data, customer 2 has no cash rows. Their BUY of 50 stops the batch at its line with a balance of 0. |
| Scenarios.UnknownCustomerAfterSell | src/main/java/com/skagenfondene/ffl/Main.java:72-142 | Over the test data, a SELL is accepted, then a BUY by customer 3 stops the batch at line 2. |
| Scenarios.BuyOfHundredFiftyPasses | src/main/java/com/skagenfondene/ffl/Main.java:99-134 | A BUY of 150 against 200 in cash, at a NAV of 2, appends one row of 75 units. |
| Scenarios.TestDataBalances | src/main/java/com/skagenfondene/ffl/Main.java:33-35 | Over the test data, customer 1 has 200 in cash and customer 2 has none. |
| Scenarios.BuyOfHundredFiftyAfterInserts | src/main/java/com/skagenfondene/ffl/Main.java:85-134 | After any inserts that leave amount NULL, a BUY of 150 by customer 1 at a NAV of 2 still passes and appends 75 units. |
| Scenarios.BuysInOneBatchShareTheBalance | src/main/java/com/skagenfondene/ffl/Main.java:85-134 | Over the test data, two BUYs of 150 against 200 in cash both pass and the batch commits both rows: the inserted rows never lower the balance. |

## Left out

- Datasource setup, schema creation and the test-data inserts (`Main.java:19-37`) are database bootstrapping. The model starts from a `Tables` value; `Scenarios.TestData` rebuilds the test data (lines 33-35).
- Reading `data.csv` (`Main.java:46`) is file I/O. The lines are a parameter.
- The `BigDecimal(String)` constructor (`Main.java:61`) is library code. It is the parameter `parse`, and a string it rejects is the `MalformedAmount` error.
- BigDecimal arithmetic is modelled on exact reals:
  - `divide` throwing on a non-terminating quotient (such as 1 / 3) is not modelled; only a zero NAV fails (`ZeroNav`);
  - the scale of `units` and its `toString` form are not modelled.
- `String.split` takes a regular expression. Only the one-character separator `","` that the source uses is modelled.
- The failures the program as written would hit before any check matters are not modelled:
  - the `nav` table is never created (`Main.java:106`);
  - `isin` and `value_date` are null, so `value_date.toString()` throws (`Main.java:64-65`, `108`);
  - the insert names `value_date` and `units` columns that `cash_transaction` lacks (`Main.java:29` against `129`).

  The model treats `isin` and `valueDate` as batch parameters and assumes the columns exist.
- Cash amounts are reals in the model. The source's `cash_transaction.amount` column is declared INTEGER (`Main.java:29`), so the stored balances are whole numbers.
- A NULL `nav_value` (`Main.java:116`) would make `divide` throw. In the model `navValue` is never NULL.
- `SQLException`s, a failing `commit()`, and what the driver does with an open transaction when the connection closes are not modelled. The model assumes the driver discards it, which is `Ledger.Rollback`.
- Selling and posting to `unit_transaction` (`Main.java:136`, `141`) are unimplemented in the source. `SELL`, like any unrecognised operation, is a no-op.
- Queries return rows in table order. The source's queries have no `ORDER BY`, so `NavLookup` can only depend on which rows match and how many, not on their order.
