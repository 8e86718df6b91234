/** Whole batches run against the rows Main.main inserts before its import:
    customers 1 and 2, and 200 in cash for customer 1. */
module Scenarios {
  import opened Schema
  import opened Queries
  import opened Columns
  import opened Processing
  import opened Batching
  import opened Arithmetic

  /** The test data, with whatever NAV rows the scenario needs. */
  function TestData(navs: seq<NavRow>): Tables
  {
    Tables(["1", "2"], [CashRow("1", None, Some(200.0), None)], navs)
  }

  /** A file of a header and two lines whose second line fails after the
      first succeeded stops at the second. */
  lemma SecondLineStops(t: Tables, lines: seq<string>, step: Step, rows: seq<CashRow>, e: Error)
    requires |lines| == 3
    requires step(t.WithCash([]), lines[1]) == Ok(rows)
    requires step(t.WithCash(rows), lines[2]) == Err(e)
    ensures Batch(t, lines, step) == Stopped(2, e)
  {
    assert lines[1..1] == [];
    FileStepSucceeds(t, lines, 1, [], rows, step);
    assert [] + rows == rows;
    FileStepFails(t, lines, 2, rows, e, step);
  }

  /** A file of a header and two lines that both succeed appends the rows of
      the first and then those of the second. */
  lemma BothLinesPass(t: Tables, lines: seq<string>, step: Step, first: seq<CashRow>,
                      second: seq<CashRow>)
    requires |lines| == 3
    requires step(t.WithCash([]), lines[1]) == Ok(first)
    requires step(t.WithCash(first), lines[2]) == Ok(second)
    ensures Batch(t, lines, step) == Done(first + second)
  {
    assert lines[1..1] == [];
    FileStepSucceeds(t, lines, 1, [], first, step);
    assert [] + first == first;
    FileStepSucceeds(t, lines, 2, first, second, step);
    FileDone(t, lines, first + second, step);
  }

  /** The lines the scenarios use, split and parsed. */
  lemma ParseBuyOfFifty(parse: string -> Option<real>)
    requires parse("50") == Some(50.0)
    ensures ParseLine("2,BUY,50", parse) == Ok(Instruction("2", "BUY", 50.0))
  {
    assert Join(["2", "BUY", "50"], ',') == "2,BUY,50";
    ParseLineOfColumns(["2", "BUY", "50"], 50.0, parse);
  }

  lemma ParseSellOfTen(parse: string -> Option<real>)
    requires parse("10") == Some(10.0)
    ensures ParseLine("1,SELL,10", parse) == Ok(Instruction("1", "SELL", 10.0))
  {
    assert Join(["1", "SELL", "10"], ',') == "1,SELL,10";
    ParseLineOfColumns(["1", "SELL", "10"], 10.0, parse);
  }

  lemma ParseBuyOfTen(parse: string -> Option<real>)
    requires parse("10") == Some(10.0)
    ensures ParseLine("3,BUY,10", parse) == Ok(Instruction("3", "BUY", 10.0))
  {
    assert Join(["3", "BUY", "10"], ',') == "3,BUY,10";
    ParseLineOfColumns(["3", "BUY", "10"], 10.0, parse);
  }

  lemma ParseBuyOfHundredFifty(parse: string -> Option<real>)
    requires parse("150") == Some(150.0)
    ensures ParseLine("1,BUY,150", parse) == Ok(Instruction("1", "BUY", 150.0))
  {
    assert Join(["1", "BUY", "150"], ',') == "1,BUY,150";
    ParseLineOfColumns(["1", "BUY", "150"], 150.0, parse);
  }

  /** A BUY of 50 by a known customer whose balance is zero: the cash check
      refuses it. */
  lemma BuyWithoutCashFails(t: Tables, line: string, isin: string, valueDate: string,
                            parse: string -> Option<real>)
    requires ParseLine(line, parse) == Ok(Instruction("2", "BUY", 50.0))
    requires "2" in t.customers && CashBalance(t.cash, "2") == 0.0
    ensures LineStep(isin, valueDate, parse)(t, line) == Err(InsufficientCash("2", 50.0, 0.0))
  {
    ShortfallOfOneFails(0.0, 50.0);
  }

  /** Customer 2 has no cash rows, so SUM(amount) is NULL, the balance is
      zero, and a batch with a BUY of 50 by customer 2 rolls back at that line. */
  lemma NoCashRowsMeansZeroBalance(navs: seq<NavRow>, lines: seq<string>, isin: string,
                                   valueDate: string, parse: string -> Option<real>)
    requires parse("50") == Some(50.0)
    requires |lines| == 2 && lines[1] == "2,BUY,50"
    ensures Batch(TestData(navs), lines, LineStep(isin, valueDate, parse)) ==
            Stopped(1, InsufficientCash("2", 50.0, 0.0))
  {
    var t := TestData(navs);
    var step := LineStep(isin, valueDate, parse);
    var e := InsufficientCash("2", 50.0, 0.0);
    assert step(t.WithCash([]), lines[1]) == Err(e) by {
      ParseBuyOfFifty(parse);
      assert t.WithCash([]) == t;
      TestDataBalances(navs);
      BuyWithoutCashFails(t, lines[1], isin, valueDate, parse);
    }
    assert Run(t, lines[1..1], step) == Done([]) by {
      assert lines[1..1] == [];
    }
    FileStepFails(t, lines, 1, [], e, step);
  }

  /** The batch stops at a BUY by customer 3, who is not in the customer
      table, even though the SELL before it succeeded; nothing of the batch is
      kept. */
  lemma UnknownCustomerAfterSell(navs: seq<NavRow>, lines: seq<string>, isin: string,
                                 valueDate: string, parse: string -> Option<real>)
    requires parse("10") == Some(10.0)
    requires |lines| == 3 && lines[1] == "1,SELL,10" && lines[2] == "3,BUY,10"
    ensures Batch(TestData(navs), lines, LineStep(isin, valueDate, parse)) ==
            Stopped(2, UnknownCustomer("3"))
  {
    var t := TestData(navs);
    var step := LineStep(isin, valueDate, parse);
    assert step(t.WithCash([]), lines[1]) == Ok([]) by {
      ParseSellOfTen(parse);
    }
    assert step(t.WithCash([]), lines[2]) == Err(UnknownCustomer("3")) by {
      ParseBuyOfTen(parse);
    }
    SecondLineStops(t, lines, step, [], UnknownCustomer("3"));
  }

  /** A BUY of 150 by customer 1 at a NAV of 2, on tables where customer 1
      has 200 in cash: it passes and appends 75 units. */
  lemma BuyOfHundredFiftyPasses(t: Tables, line: string, isin: string, valueDate: string,
                                parse: string -> Option<real>)
    requires ParseLine(line, parse) == Ok(Instruction("1", "BUY", 150.0))
    requires "1" in t.customers && t.navs == [NavRow("1", valueDate, 2.0)]
    requires CashBalance(t.cash, "1") == 200.0
    ensures LineStep(isin, valueDate, parse)(t, line) ==
            Ok([CashRow("1", Some(valueDate), None, Some(75.0))])
  {
    var row := CashRow("1", Some(valueDate), None, Some(75.0));
    CoveredAmountPasses(200.0, 150.0);
    assert NavLookup(t.navs, "1", valueDate) == Found(2.0);
    assert ApplyBuy(t, "1", 150.0, isin, valueDate) == Ok(row);
  }

  /** In the test data customer 1 has 200 in cash and customer 2 has none. */
  lemma TestDataBalances(navs: seq<NavRow>)
    ensures CashBalance(TestData(navs).cash, "1") == 200.0
    ensures CashBalance(TestData(navs).cash, "2") == 0.0
  {
    BalanceCons(TestData(navs).cash, "1");
  }

  /** After any inserts that leave amount NULL, customer 1 still has 200 in
      cash, so a BUY of 150 at a NAV of 2 passes again. */
  lemma BuyOfHundredFiftyAfterInserts(rows: seq<CashRow>, line: string, isin: string,
                                      valueDate: string, parse: string -> Option<real>)
    requires ParseLine(line, parse) == Ok(Instruction("1", "BUY", 150.0))
    requires forall i :: 0 <= i < |rows| ==> rows[i].amount.None?
    ensures LineStep(isin, valueDate, parse)(TestData([NavRow("1", valueDate, 2.0)]).WithCash(rows), line) ==
            Ok([CashRow("1", Some(valueDate), None, Some(75.0))])
  {
    var t := TestData([NavRow("1", valueDate, 2.0)]);
    TestDataBalances(t.navs);
    NullAmountsKeepBalance(t.cash, rows, "1");
    BuyOfHundredFiftyPasses(t.WithCash(rows), line, isin, valueDate, parse);
  }

  /** Two BUYs of 150 against 200 in cash both pass: the inserted rows leave
      amount NULL, so the second BUY sees the same balance as the first, and
      the batch commits 300 of purchases. */
  lemma BuysInOneBatchShareTheBalance(lines: seq<string>, isin: string, valueDate: string,
                                      parse: string -> Option<real>)
    requires parse("150") == Some(150.0)
    requires |lines| == 3 && lines[1] == "1,BUY,150" && lines[2] == "1,BUY,150"
    ensures var row := CashRow("1", Some(valueDate), None, Some(75.0));
      Batch(TestData([NavRow("1", valueDate, 2.0)]), lines, LineStep(isin, valueDate, parse)) ==
      Done([row, row])
  {
    var t := TestData([NavRow("1", valueDate, 2.0)]);
    var step := LineStep(isin, valueDate, parse);
    var row := CashRow("1", Some(valueDate), None, Some(75.0));
    ParseBuyOfHundredFifty(parse);
    BuyOfHundredFiftyAfterInserts([], lines[1], isin, valueDate, parse);
    BuyOfHundredFiftyAfterInserts([row], lines[2], isin, valueDate, parse);
    BothLinesPass(t, lines, step, [row], [row]);
    assert [row] + [row] == [row, row];
  }
}
