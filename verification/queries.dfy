/** The three SELECT statements of the BUY branch, each a function over the tables. */
module Queries {
  import opened Schema

  // ---------------------------------------------------------------------------
  // SELECT * FROM customer WHERE customer_id = ?

  /** True when the customer query returns no row. The source stores this value
      in a variable named customerExists and throws when it is true. */
  function NoCustomerRow(customers: seq<string>, id: string): (r: bool)
    ensures r <==> id !in customers
  {
    if customers == [] then true
    else customers[0] != id && NoCustomerRow(customers[1..], id)
  }

  // ---------------------------------------------------------------------------
  // SELECT sum(amount) FROM cash_transaction WHERE customer_id = ?

  /** What one row adds to a customer's SUM(amount): its amount when the row
      belongs to the customer and the amount is not NULL, otherwise nothing. */
  function Contribution(row: CashRow, id: string): (r: real)
    ensures row.customerId != id || row.amount.None? ==> r == 0.0
    ensures r == CashBalance([row], id)
  {
    if row.customerId == id && row.amount.Some? then row.amount.value else 0.0
  }

  /** SQL SUM over the customer's amounts: NULLs are skipped, and the sum of
      no values is NULL. */
  function SumAmounts(cash: seq<CashRow>, id: string): (r: Option<real>)
    ensures r.None? <==>
      forall i :: 0 <= i < |cash| && cash[i].customerId == id ==> cash[i].amount.None?
  {
    if cash == [] then None
    else
      var rest := SumAmounts(cash[1..], id);
      if cash[0].customerId != id || cash[0].amount.None? then rest
      else Some(cash[0].amount.value + (if rest.Some? then rest.value else 0.0))
  }

  /** The cash balance the BUY check uses: the SUM, with NULL read as zero. */
  function CashBalance(cash: seq<CashRow>, id: string): (r: real)
    ensures (forall i :: 0 <= i < |cash| && cash[i].customerId == id ==> cash[i].amount.None?)
            ==> r == 0.0
  {
    var sum := SumAmounts(cash, id);
    if sum.None? then 0.0 else sum.value
  }

  /** Peeling one row off the front of the table. */
  lemma BalanceCons(cash: seq<CashRow>, id: string)
    requires cash != []
    ensures CashBalance(cash, id) == Contribution(cash[0], id) + CashBalance(cash[1..], id)
  {
  }

  /** The balance of two tables put together is the sum of their balances:
      every row is counted once, whatever it sits next to. */
  lemma {:induction false} BalanceConcat(a: seq<CashRow>, b: seq<CashRow>, id: string)
    ensures CashBalance(a + b, id) == CashBalance(a, id) + CashBalance(b, id)
  {
    if a == [] {
      assert a + b == b;
    } else {
      assert (a + b)[1..] == a[1..] + b;
      BalanceCons(a + b, id);
      BalanceCons(a, id);
      BalanceConcat(a[1..], b, id);
    }
  }

  /** Appending a row changes a customer's balance by exactly that row's amount
      when it is theirs and not NULL, and leaves it alone otherwise. */
  lemma BalanceAppend(cash: seq<CashRow>, row: CashRow, id: string)
    ensures CashBalance(cash + [row], id) == CashBalance(cash, id) + Contribution(row, id)
  {
    BalanceConcat(cash, [row], id);
    BalanceCons([row], id);
    assert [row][1..] == [];
  }

  /** Rows whose amount is NULL never change any balance. */
  lemma {:induction false} NullAmountsKeepBalance(cash: seq<CashRow>, rows: seq<CashRow>, id: string)
    requires forall i :: 0 <= i < |rows| ==> rows[i].amount.None?
    ensures CashBalance(cash + rows, id) == CashBalance(cash, id)
  {
    BalanceConcat(cash, rows, id);
  }

  // ---------------------------------------------------------------------------
  // SELECT * FROM nav WHERE isin = ? AND nav_date = ?

  /** The row satisfies the WHERE clause of the NAV query bound to (key, date). */
  predicate NavMatches(row: NavRow, key: string, date: string)
  {
    row.isin == key && row.navDate == date
  }

  /** Row i is the one and only row the NAV query returns. */
  predicate OnlyMatch(navs: seq<NavRow>, key: string, date: string, i: int)
  {
    0 <= i < |navs| && NavMatches(navs[i], key, date) &&
    forall j :: 0 <= j < |navs| && NavMatches(navs[j], key, date) ==> j == i
  }

  /** The position of the next row the NAV query's cursor yields at or after from. */
  function NextMatch(navs: seq<NavRow>, key: string, date: string, from: nat): (r: Option<nat>)
    requires from <= |navs|
    ensures r.Some? ==> from <= r.value < |navs| && NavMatches(navs[r.value], key, date)
    ensures r.Some? ==> forall j :: from <= j < r.value ==> !NavMatches(navs[j], key, date)
    ensures r.None? ==> forall j :: from <= j < |navs| ==> !NavMatches(navs[j], key, date)
    decreases |navs| - from
  {
    if from == |navs| then None
    else if NavMatches(navs[from], key, date) then Some(from)
    else NextMatch(navs, key, date, from + 1)
  }

  datatype NavResult = Found(nav: real) | NoNav | ManyNavs

  /** The NAV lookup as the source runs it: no first row is an error, a second
      row is an error, otherwise the nav_value of the one row. */
  function NavLookup(navs: seq<NavRow>, key: string, date: string): (r: NavResult)
    ensures r == NoNav <==> forall i :: 0 <= i < |navs| ==> !NavMatches(navs[i], key, date)
    ensures r == ManyNavs <==>
      exists i, j :: 0 <= i < j < |navs| && NavMatches(navs[i], key, date) && NavMatches(navs[j], key, date)
    ensures r.Found? ==> exists i :: OnlyMatch(navs, key, date, i) && navs[i].navValue == r.nav
    ensures forall i :: OnlyMatch(navs, key, date, i) ==> r == Found(navs[i].navValue)
  {
    match NextMatch(navs, key, date, 0)
    case None => NoNav
    case Some(first) =>
      if NextMatch(navs, key, date, first + 1).Some? then ManyNavs
      else Found(navs[first].navValue)
  }

  /** A nav table of one row: the lookup finds that row's nav_value exactly
      when the row matches, and finds nothing otherwise. */
  lemma NavLookupOneRow(row: NavRow, key: string, date: string)
    ensures NavMatches(row, key, date) ==> NavLookup([row], key, date) == Found(row.navValue)
    ensures !NavMatches(row, key, date) ==> NavLookup([row], key, date) == NoNav
  {
  }
}
