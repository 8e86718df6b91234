/** The tables the batch import reads and writes, held in memory.
    A column that SQL may leave NULL is an Option. */
module Schema {

  datatype Option<T> = None | Some(value: T)

  /** A row of cash_transaction. Rows created before a batch carry an amount;
      the BUY insert fills value_date and units and leaves amount NULL. */
  datatype CashRow = CashRow(
    customerId: string,
    valueDate: Option<string>,
    amount: Option<real>,
    units: Option<real>)

  /** A row of nav: the price of one unit of a fund on one date. */
  datatype NavRow = NavRow(isin: string, navDate: string, navValue: real)

  /** The whole store: the customer table (its one column), cash_transaction and nav. */
  datatype Tables = Tables(customers: seq<string>, cash: seq<CashRow>, navs: seq<NavRow>)
  {
    /** The same store with rows appended to cash_transaction. */
    function WithCash(rows: seq<CashRow>): (t: Tables)
      ensures t.customers == customers && t.navs == navs
      ensures |t.cash| == |cash| + |rows|
      ensures t.cash[..|cash|] == cash && t.cash[|cash|..] == rows
    {
      Tables(customers, cash + rows, navs)
    }
  }
}
