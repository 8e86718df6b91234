/** The import loop of Main.main as a class: the committed tables, the rows
    written by the open transaction, and the methods that run a file. */
module BatchImport {
  import opened Schema
  import opened Queries
  import opened Arithmetic
  import opened Columns
  import opened Processing
  import opened Batching

  /** How a batch ends: committed, or rolled back because the line at index
      (counting the header as 0) failed. */
  datatype BatchOutcome = Committed | RolledBack(index: nat, error: Error)

  class Ledger {
    /** The tables as last committed. */
    var committed: Tables
    /** Rows inserted into cash_transaction by the open transaction, in order. */
    var pending: seq<CashRow>

    /** What queries inside the transaction see: committed state plus the
        transaction's own inserts. */
    function View(): (t: Tables)
      reads this
      ensures t.customers == committed.customers && t.navs == committed.navs
      ensures t.cash == committed.cash + pending
    {
      committed.WithCash(pending)
    }

    constructor (initial: Tables)
      ensures committed == initial && pending == []
    {
      committed := initial;
      pending := [];
    }

    /** INSERT INTO cash_transaction inside the open transaction. */
    method Insert(row: CashRow)
      modifies this
      ensures committed == old(committed)
      ensures pending == old(pending) + [row]
    {
      pending := pending + [row];
    }

    /** connection.commit(): the transaction's inserts become committed. */
    method Commit()
      modifies this
      ensures committed == old(View())
      ensures pending == []
    {
      committed := View();
      pending := [];
    }

    /** The connection is closed without a commit: the inserts are dropped. */
    method Rollback()
      modifies this
      ensures committed == old(committed)
      ensures pending == []
    {
      pending := [];
    }

    /** The body of the loop for one line after the header: split it, read the
        columns, and for BUY run the customer, cash and NAV checks before the
        one insert. SELL and other operations do nothing. */
    method ImportLine(line: string, isin: string, valueDate: string, parse: string -> Option<real>)
      returns (failure: Option<Error>)
      modifies this
      ensures committed == old(committed)
      ensures var step := ApplyLine(old(View()), line, isin, valueDate, parse);
        if step.Ok? then failure == None && pending == old(pending) + step.value
        else failure == Some(step.error) && pending == old(pending)
    {
      var columns := JavaSplit(line, ',');
      if |columns| < 1 { return Some(MissingColumn(0)); }
      var customerId := columns[0];
      if |columns| < 2 { return Some(MissingColumn(1)); }
      var operation := columns[1];
      if |columns| < 3 { return Some(MissingColumn(2)); }
      var parsed := parse(columns[2]);
      if parsed.None? { return Some(MalformedAmount(columns[2])); }
      var amount := parsed.value;
      assert ParseLine(line, parse) == Ok(Instruction(customerId, operation, amount));

      if operation == "BUY" {
        failure := ImportBuy(customerId, amount, isin, valueDate);
        return;
      } else if operation == "SELL" {
        // Selling is not implemented: the line is accepted and changes nothing.
      }
      return None;
    }

    /** The BUY branch: the customer query, the cash check and the NAV lookup
        run on the tables the transaction sees, and only a BUY that passes all
        three inserts its row. */
    method ImportBuy(customerId: string, amount: real, isin: string, valueDate: string)
      returns (failure: Option<Error>)
      modifies this
      ensures committed == old(committed)
      ensures var buy := ApplyBuy(old(View()), customerId, amount, isin, valueDate);
        if buy.Ok? then failure == None && pending == old(pending) + [buy.value]
        else failure == Some(buy.error) && pending == old(pending)
    {
      var tables := View();
      ghost var buy := ApplyBuy(tables, customerId, amount, isin, valueDate);
      var customerExists := NoCustomerRow(tables.customers, customerId);
      if customerExists {
        assert buy == Err(UnknownCustomer(customerId));
        return Some(UnknownCustomer(customerId));
      }
      var cashBalance := CashBalance(tables.cash, customerId);
      if IntValue(cashBalance - amount) < 0 {
        assert buy == Err(InsufficientCash(customerId, amount, cashBalance));
        return Some(InsufficientCash(customerId, amount, cashBalance));
      }
      var found := NavLookup(tables.navs, customerId, valueDate);
      if found.NoNav? {
        assert buy == Err(NavMissing(isin, valueDate));
        return Some(NavMissing(isin, valueDate));
      }
      if found.ManyNavs? {
        assert buy == Err(NavAmbiguous(isin, valueDate));
        return Some(NavAmbiguous(isin, valueDate));
      }
      if found.nav == 0.0 {
        assert buy == Err(ZeroNav);
        return Some(ZeroNav);
      }
      var units := amount / found.nav;
      assert buy == Ok(CashRow(customerId, Some(valueDate), None, Some(units)));
      Insert(CashRow(customerId, Some(valueDate), None, Some(units)));
      return None;
    }

    /** Main.main's import: one transaction around the whole file; the first
        line is skipped as the header, every later line runs in file order, the
        first failing line rolls everything back, and the commit is reached only
        when every line succeeded. */
    method ImportBatch(lines: seq<string>, isin: string, valueDate: string,
                       parse: string -> Option<real>)
      returns (outcome: BatchOutcome)
      requires pending == []
      modifies this
      ensures pending == []
      ensures match Batch(old(committed), lines, LineStep(isin, valueDate, parse))
        case Done(rows) => outcome == Committed && committed == old(committed).WithCash(rows)
        case Stopped(k, e) => outcome == RolledBack(k, e) && committed == old(committed)
    {
      ghost var start := committed;
      var first := true;
      for i := 0 to |lines|
        invariant first <==> i == 0
        invariant committed == start
        invariant i == 0 ==> pending == []
        invariant i > 0 ==> Run(start, lines[1..i], LineStep(isin, valueDate, parse)) == Done(pending)
      {
        var line := lines[i];
        if first {
          first := false;
          assert lines[1..1] == [];
          continue;
        }
        ghost var before := pending;
        ghost var step := ApplyLine(View(), line, isin, valueDate, parse);
        var failure := ImportLine(line, isin, valueDate, parse);
        if failure.Some? {
          FileStepFails(start, lines, i, before, failure.value, LineStep(isin, valueDate, parse));
          Rollback();
          return RolledBack(i, failure.value);
        }
        FileStepSucceeds(start, lines, i, before, step.value, LineStep(isin, valueDate, parse));
      }
      FileDone(start, lines, pending, LineStep(isin, valueDate, parse));
      Commit();
      outcome := Committed;
    }
  }
}
