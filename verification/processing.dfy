/** What one line of the batch file does to the tables, and what a whole file
    does, as functions. The Ledger class runs the same steps imperatively and
    is proved against these. */
module Processing {
  import opened Schema
  import opened Queries
  import opened Arithmetic
  import opened Columns

  /** Why a line stops the import. Each is an exception in the source. */
  datatype Error =
    | MissingColumn(index: nat)                                // columns[index] does not exist
    | MalformedAmount(text: string)                            // new BigDecimal(columns[2]) rejects the text
    | UnknownCustomer(customerId: string)
    | InsufficientCash(customerId: string, amount: real, balance: real)
    | NavMissing(isin: string, valueDate: string)
    | NavAmbiguous(isin: string, valueDate: string)
    | ZeroNav                                                  // amount.divide(nav) with nav == 0

  datatype Result<T> = Ok(value: T) | Err(error: Error)

  /** The three columns the source reads from a line. */
  datatype Instruction = Instruction(customerId: string, operation: string, amount: real)

  /** Split the line on commas and read customerId, operation and amount, in
      that order; parse stands for the BigDecimal(String) constructor. */
  function ParseLine(line: string, parse: string -> Option<real>): (r: Result<Instruction>)
    ensures r.Err? ==> r.error.MissingColumn? || r.error.MalformedAmount?
    ensures var columns := JavaSplit(line, ',');
      |columns| < 3 ==> r == Err(MissingColumn(|columns|))
    ensures var columns := JavaSplit(line, ',');
      |columns| >= 3 && parse(columns[2]).None? ==> r == Err(MalformedAmount(columns[2]))
    ensures var columns := JavaSplit(line, ',');
      |columns| >= 3 && parse(columns[2]).Some? ==>
        r == Ok(Instruction(columns[0], columns[1], parse(columns[2]).value))
  {
    var columns := JavaSplit(line, ',');
    if |columns| < 1 then Err(MissingColumn(0))
    else if |columns| < 2 then Err(MissingColumn(1))
    else if |columns| < 3 then Err(MissingColumn(2))
    else match parse(columns[2])
      case None => Err(MalformedAmount(columns[2]))
      case Some(amount) => Ok(Instruction(columns[0], columns[1], amount))
  }

  /** A line written as three or more comma-free columns, the last not
      empty, reads back as its first three columns; later columns are ignored. */
  lemma ParseLineOfColumns(fields: seq<string>, value: real, parse: string -> Option<real>)
    requires |fields| >= 3 && fields[|fields| - 1] != ""
    requires forall k :: 0 <= k < |fields| ==> ',' !in fields[k]
    requires parse(fields[2]) == Some(value)
    ensures ParseLine(Join(fields, ','), parse) == Ok(Instruction(fields[0], fields[1], value))
  {
    JavaSplitJoin(fields, ',');
  }

  /** The BUY branch: customer check, then cash check, then NAV lookup, then
      units = amount / nav; on success the one row it inserts into
      cash_transaction. The NAV query is bound to the customer id; isin only
      appears in the error. */
  function ApplyBuy(t: Tables, customerId: string, amount: real, isin: string, valueDate: string)
    : (r: Result<CashRow>)
    ensures r == Err(UnknownCustomer(customerId)) <==> customerId !in t.customers
    ensures r == Err(InsufficientCash(customerId, amount, CashBalance(t.cash, customerId))) <==>
      customerId in t.customers && !CashCheckPasses(CashBalance(t.cash, customerId), amount)
    ensures (r.Err? && (r.error.NavMissing? || r.error.NavAmbiguous? || r.error.ZeroNav?)) ==>
      customerId in t.customers && CashCheckPasses(CashBalance(t.cash, customerId), amount)
    ensures r == Err(NavMissing(isin, valueDate)) <==>
      customerId in t.customers && CashCheckPasses(CashBalance(t.cash, customerId), amount) &&
      forall i :: 0 <= i < |t.navs| ==> !NavMatches(t.navs[i], customerId, valueDate)
    ensures r == Err(NavAmbiguous(isin, valueDate)) <==>
      customerId in t.customers && CashCheckPasses(CashBalance(t.cash, customerId), amount) &&
      exists i, j :: 0 <= i < j < |t.navs| &&
        NavMatches(t.navs[i], customerId, valueDate) && NavMatches(t.navs[j], customerId, valueDate)
    ensures r == Err(ZeroNav) <==>
      customerId in t.customers && CashCheckPasses(CashBalance(t.cash, customerId), amount) &&
      exists i :: OnlyMatch(t.navs, customerId, valueDate, i) && t.navs[i].navValue == 0.0
    ensures r.Ok? ==>
      customerId in t.customers && CashCheckPasses(CashBalance(t.cash, customerId), amount) &&
      exists i :: OnlyMatch(t.navs, customerId, valueDate, i) && t.navs[i].navValue != 0.0 &&
        r.value == CashRow(customerId, Some(valueDate), None, Some(amount / t.navs[i].navValue))
    ensures forall i ::
      (customerId in t.customers && CashCheckPasses(CashBalance(t.cash, customerId), amount) &&
       OnlyMatch(t.navs, customerId, valueDate, i) && t.navs[i].navValue != 0.0) ==>
      r == Ok(CashRow(customerId, Some(valueDate), None, Some(amount / t.navs[i].navValue)))
  {
    if NoCustomerRow(t.customers, customerId) then Err(UnknownCustomer(customerId))
    else
      var cashBalance := CashBalance(t.cash, customerId);
      if IntValue(cashBalance - amount) < 0 then Err(InsufficientCash(customerId, amount, cashBalance))
      else match NavLookup(t.navs, customerId, valueDate)
        case NoNav => Err(NavMissing(isin, valueDate))
        case ManyNavs => Err(NavAmbiguous(isin, valueDate))
        case Found(nav) =>
          if nav == 0.0 then Err(ZeroNav)
          else Ok(CashRow(customerId, Some(valueDate), None, Some(amount / nav)))
  }

  /** The isin a batch is imported under never decides a BUY: two runs of the
      BUY branch that differ only in isin succeed or fail alike, with the same
      row, and differ at most in the isin the NAV errors report. */
  lemma ApplyBuyIgnoresIsin(t: Tables, customerId: string, amount: real, valueDate: string,
                            isin: string, other: string)
    ensures var r := ApplyBuy(t, customerId, amount, isin, valueDate);
      var s := ApplyBuy(t, customerId, amount, other, valueDate);
      (r.Ok? <==> s.Ok?) &&
      (r == Err(NavMissing(isin, valueDate)) <==> s == Err(NavMissing(other, valueDate))) &&
      (r == Err(NavAmbiguous(isin, valueDate)) <==> s == Err(NavAmbiguous(other, valueDate))) &&
      (r.Err? && !r.error.NavMissing? && !r.error.NavAmbiguous? ==> r == s) &&
      (r.Ok? ==> r == s)
  {
  }

  /** One line after the header: the rows it appends to cash_transaction. A BUY
      that passes appends exactly one row; SELL and any other operation append
      none. */
  function ApplyLine(t: Tables, line: string, isin: string, valueDate: string,
                     parse: string -> Option<real>): (r: Result<seq<CashRow>>)
    ensures r.Ok? ==> |r.value| <= 1
    ensures r.Ok? && |r.value| == 1 ==>
      ParseLine(line, parse).Ok? && ParseLine(line, parse).value.operation == "BUY" &&
      r.value[0].customerId == ParseLine(line, parse).value.customerId &&
      r.value[0].customerId in t.customers &&
      r.value[0].valueDate == Some(valueDate) && r.value[0].amount.None? && r.value[0].units.Some?
    ensures ParseLine(line, parse).Ok? && ParseLine(line, parse).value.operation != "BUY" ==> r == Ok([])
    ensures ParseLine(line, parse).Err? ==> r == Err(ParseLine(line, parse).error)
    ensures var p := ParseLine(line, parse);
      p.Ok? && p.value.operation == "BUY" ==>
        var buy := ApplyBuy(t, p.value.customerId, p.value.amount, isin, valueDate);
        if buy.Ok? then r == Ok([buy.value]) else r == Err(buy.error)
  {
    match ParseLine(line, parse)
    case Err(e) => Err(e)
    case Ok(ins) =>
      if ins.operation == "BUY" then
        match ApplyBuy(t, ins.customerId, ins.amount, isin, valueDate)
        case Err(e) => Err(e)
        case Ok(row) => Ok([row])
      else Ok([])
  }

  /** The step the import loop takes for each line after the header. */
  function LineStep(isin: string, valueDate: string, parse: string -> Option<real>)
    : (Tables, string) -> Result<seq<CashRow>>
  {
    (t: Tables, line: string) => ApplyLine(t, line, isin, valueDate, parse)
  }
}
