/** What a batch of BUY/SELL lines appends, and what stops it. */
module BatchProperties {
  import opened Schema
  import opened Queries
  import opened Processing
  import opened Batching

  /** Every row a run appends is a BUY's insert: it names a known customer,
      carries the batch's value date and units, and leaves amount NULL. */
  lemma {:induction false} RunAppendsBuyRows(t: Tables, lines: seq<string>,
                                             isin: string, valueDate: string,
                                             parse: string -> Option<real>)
    requires Run(t, lines, LineStep(isin, valueDate, parse)).Done?
    ensures var rows := Run(t, lines, LineStep(isin, valueDate, parse)).rows;
      forall i :: 0 <= i < |rows| ==>
        rows[i].customerId in t.customers && rows[i].valueDate == Some(valueDate) &&
        rows[i].amount.None? && rows[i].units.Some?
    decreases |lines|
  {
    if lines != [] {
      var step := LineStep(isin, valueDate, parse);
      var prefix := lines[..|lines| - 1];
      RunAppendsBuyRows(t, prefix, isin, valueDate, parse);
      var before := Run(t, prefix, step).rows;
      var u := t.WithCash(before);
      var more := ApplyLine(u, lines[|lines| - 1], isin, valueDate, parse).value;
      assert Run(t, lines, step).rows == before + more;
      assert u.customers == t.customers;
    }
  }

  /** Because the inserted rows leave amount NULL, no line of a run changes any
      customer's cash balance: every BUY of a batch is checked against the
      balance the batch started with. */
  lemma RunKeepsBalances(t: Tables, lines: seq<string>, isin: string, valueDate: string,
                         parse: string -> Option<real>, customerId: string)
    requires Run(t, lines, LineStep(isin, valueDate, parse)).Done?
    ensures CashBalance(t.WithCash(Run(t, lines, LineStep(isin, valueDate, parse)).rows).cash, customerId)
            == CashBalance(t.cash, customerId)
  {
    var rows := Run(t, lines, LineStep(isin, valueDate, parse)).rows;
    RunAppendsBuyRows(t, lines, isin, valueDate, parse);
    NullAmountsKeepBalance(t.cash, rows, customerId);
  }

  /** A BUY line for a customer missing from the customer table stops the
      batch at that line or at an earlier one. */
  lemma UnknownCustomerStopsBatch(t: Tables, lines: seq<string>, k: nat,
                                  isin: string, valueDate: string, parse: string -> Option<real>)
    requires 1 <= k < |lines|
    requires ParseLine(lines[k], parse).Ok?
    requires ParseLine(lines[k], parse).value.operation == "BUY"
    requires ParseLine(lines[k], parse).value.customerId !in t.customers
    ensures Batch(t, lines, LineStep(isin, valueDate, parse)).Stopped?
    ensures Batch(t, lines, LineStep(isin, valueDate, parse)).index <= k
  {
    var step := LineStep(isin, valueDate, parse);
    forall rows: seq<CashRow>
      ensures step(t.WithCash(rows), lines[k]).Err?
    {
      var ins := ParseLine(lines[k], parse).value;
      assert ApplyBuy(t.WithCash(rows), ins.customerId, ins.amount, isin, valueDate).Err?;
    }
    AlwaysFailingLineStopsBatch(t, lines, k, step);
  }
}
