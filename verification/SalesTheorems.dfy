/** The reports over any run of the protocol: the sales export agrees with the orders' frozen prices, the
    daily summary with the stock. */
module SalesTheorems {
  import opened Wrappers
  import opened OrderModel
  import opened Ledger
  import opened Money
  import opened Protocol
  import opened ProtocolInvariant
  import opened ProtocolTheorems
  import opened Inventory
  import opened SalesExport
  import opened StockReports

  /** The committed ledger with its days, and lookups answered from the committed tables. */
  ghost predicate Exports(w: World, rows: seq<Row>, using: Lookup) {
    && Moves(rows) == w.db.ledger
    && Inverse(w.db.catalog, using.bySku)
    && (forall o :: o in using.itemsOf <==> 0 <= o < |w.db.orders|)
    && (forall o :: 0 <= o < |w.db.orders| ==> using.itemsOf[o] == w.db.orders[o].req.items)
  }

  /** What an order contributes: the tracked goods of an order that started cooking, else nothing. */
  function CookedGoods(w: World, o: nat): int
    requires o < |w.db.orders|
  {
    if CookingOrLater(w.db.orders[o].state) then
      TrackedGoods(w.db.catalog, w.db.stock.Keys, w.db.orders[o].req.items)
    else 0
  }

  function AllCookedGoods(w: World, n: nat): int
    requires n <= |w.db.orders|
  {
    if n == 0 then 0 else AllCookedGoods(w, n - 1) + CookedGoods(w, n - 1)
  }

  /** The exported amounts of one order, after any run. */
  lemma ExportedOrder(catalog: map<nat, string>, stock: map<string, int>, actions: seq<Action>, rows: seq<Row>, using: Lookup, o: nat)
    requires var w := After(catalog, stock, actions);
             Exports(w, rows, using) && o < |w.db.orders| && CheckoutLines(w.db.orders[o].req.items)
    ensures OrderAmount(rows, using, o) == CookedGoods(After(catalog, stock, actions), o)
  {
    hide After;
    var w := After(catalog, stock, actions);
    CookedExactlyOnce(catalog, stock, actions, o);
    if CookingOrLater(w.db.orders[o].state) {
      OrderAmountIsTrackedGoods(w.db.catalog, w.db.stock.Keys, rows, using, o);
    } else {
      OrderAmountIsPlan(rows, using, o);
    }
  }

  lemma {:induction false} ExportedOrders(catalog: map<nat, string>, stock: map<string, int>, actions: seq<Action>,
                                          rows: seq<Row>, using: Lookup, n: nat)
    requires var w := After(catalog, stock, actions);
             Exports(w, rows, using) && n <= |w.db.orders|
             && forall o :: 0 <= o < n ==> CheckoutLines(w.db.orders[o].req.items)
    ensures SumOrders(rows, using, n) == AllCookedGoods(After(catalog, stock, actions), n)
  {
    hide After;
    if n > 0 {
      ExportedOrders(catalog, stock, actions, rows, using, n - 1);
      ExportedOrder(catalog, stock, actions, rows, using, n - 1);
    }
  }

  /** After any run, the export's grand total is the goods value, at frozen prices, of the stock-tracked
      lines of exactly the orders that started cooking. */
  lemma RevenueMatchesOrders(catalog: map<nat, string>, stock: map<string, int>, actions: seq<Action>, rows: seq<Row>, using: Lookup)
    requires var w := After(catalog, stock, actions);
             Exports(w, rows, using) && forall o :: 0 <= o < |w.db.orders| ==> CheckoutLines(w.db.orders[o].req.items)
    ensures var w := After(catalog, stock, actions);
            Grand(rows, using) == AllCookedGoods(w, |w.db.orders|)
  {
    hide After;
    var n := |After(catalog, stock, actions).db.orders|;
    GrandIsSumOfOrders(rows, using, n);
    ExportedOrders(catalog, stock, actions, rows, using, n);
  }

  /** After any run, restocked minus sold over all days of the summary is the net change of all quantities
      since the start of the run. */
  lemma SummaryMatchesRun(catalog: map<nat, string>, stock: map<string, int>, actions: seq<Action>, rows: seq<Row>, skus: seq<string>)
    requires Moves(rows) == After(catalog, stock, actions).db.ledger
    requires Distinct(skus) && forall s :: s in skus <==> s in stock
    ensures var now := After(catalog, stock, actions).db.stock;
            now.Keys == stock.Keys && Balance(Summary(rows, None, None)) == ChangeOf(stock, now, skus)
  {
    hide After;
    Reached(catalog, stock, actions);
    SummaryMatchesStock(stock, After(catalog, stock, actions).db.stock, rows, skus);
  }
}
