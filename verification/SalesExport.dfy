/** The row-level sales export and what its amounts add up to. */
module SalesExport {
  import opened Wrappers
  import opened OrderModel
  import opened Ledger
  import opened Money
  import opened Inventory
  import opened StockReports

  /** What the export looks up: the product of a sku, and the frozen items of an order. */
  datatype Lookup = Lookup(bySku: map<string, nat>, itemsOf: map<nat, seq<Item>>)

  /** One exported line; price and amount are blank unless the sale could be priced. */
  datatype Line = Line(row: Row, price: Option<int>, amount: Option<int>)

  /** The first line of the order for this product. */
  function FirstMatch(items: seq<Item>, product: nat): Option<Item> {
    if items == [] then None
    else if items[0].product == Some(product) then Some(items[0])
    else FirstMatch(items[1..], product)
  }

  function PriceIn(items: seq<Item>, bySku: map<string, nat>, sku: string): Option<int> {
    if sku !in bySku then None
    else match FirstMatch(items, bySku[sku])
      case Some(item) => Some(item.price)
      case None => None
  }

  function Abs(x: int): nat { if x < 0 then -x else x }

  function Export(row: Row, using: Lookup): Line {
    var m := row.move;
    if m.reason == Sale && m.source.Some? && m.source.value in using.itemsOf then
      match PriceIn(using.itemsOf[m.source.value], using.bySku, m.sku)
      case Some(price) => Line(row, Some(price), Some(price * Abs(m.delta)))
      case None => Line(row, None, None)
    else Line(row, None, None)
  }

  function Amount(row: Row, using: Lookup): int {
    match Export(row, using).amount case Some(amount) => amount case None => 0
  }

  function Grand(rows: seq<Row>, using: Lookup): int {
    if rows == [] then 0 else Grand(rows[..|rows| - 1], using) + Amount(rows[|rows| - 1], using)
  }

  /** Sum of one day's sale amounts. */
  function DayAmount(rows: seq<Row>, using: Lookup, day: int): int {
    if rows == [] then 0
    else
      var last := rows[|rows| - 1];
      DayAmount(rows[..|rows| - 1], using, day) + if last.day == day then Amount(last, using) else 0
  }

  /** The days on which a sale could be priced. */
  function SaleDays(rows: seq<Row>, using: Lookup): set<int> {
    if rows == [] then {}
    else
      var last := rows[|rows| - 1];
      SaleDays(rows[..|rows| - 1], using) + if Export(last, using).amount.Some? then {last.day} else {}
  }

  /** The loop of export_movements_csv over the selected rows. */
  method ExportMovements(rows: seq<Row>, using: Lookup) returns (lines: seq<Line>, daily: map<int, int>, grandTotal: int)
    ensures |lines| == |rows| && forall k :: 0 <= k < |rows| ==> lines[k] == Export(rows[k], using)
    ensures daily.Keys == SaleDays(rows, using)
    ensures forall day :: day in daily ==> daily[day] == DayAmount(rows, using, day)
    ensures grandTotal == Grand(rows, using)
  {
    lines, daily, grandTotal := [], map[], 0;
    for k := 0 to |rows|
      invariant |lines| == k && forall j :: 0 <= j < k ==> lines[j] == Export(rows[j], using)
      invariant daily.Keys == SaleDays(rows[..k], using)
      invariant forall day :: day in daily ==> daily[day] == DayAmount(rows[..k], using, day)
      invariant grandTotal == Grand(rows[..k], using)
    {
      var row := rows[k];
      var m := row.move;
      assert rows[..k + 1][..k] == rows[..k];
      NoSaleNoAmount(rows[..k], using, row.day);
      var price: Option<int>, amount: Option<int> := None, None;
      if m.reason == Sale && m.source.Some? {
        var items := if m.source.value in using.itemsOf then using.itemsOf[m.source.value] else [];
        if m.sku in using.bySku {
          var matched := FirstMatch(items, using.bySku[m.sku]);
          if matched.Some? {
            price := Some(matched.value.price);
            amount := Some(matched.value.price * Abs(m.delta));
            daily := daily[row.day := (if row.day in daily then daily[row.day] else 0) + amount.value];
            grandTotal := grandTotal + amount.value;
          }
        }
      }
      lines := lines + [Line(row, price, amount)];
    }
    assert rows[..|rows|] == rows;
  }

  lemma {:induction false} FirstMatchMeans(items: seq<Item>, product: nat)
    ensures match FirstMatch(items, product)
            case Some(item) => exists k :: 0 <= k < |items| && items[k] == item && IsFirstFor(items, product, k)
            case None => forall item :: item in items ==> item.product != Some(product)
  {
    if items != [] && items[0].product != Some(product) {
      FirstMatchMeans(items[1..], product);
      if FirstMatch(items, product).Some? {
        var k :| 0 <= k < |items| - 1 && items[1..][k] == FirstMatch(items, product).value && IsFirstFor(items[1..], product, k);
        forall j | 0 <= j < k + 1 ensures items[j].product != Some(product) {
          assert j > 0 ==> items[j] == items[1..][j - 1];
        }
        assert IsFirstFor(items, product, k + 1);
      }
    } else if items != [] {
      assert IsFirstFor(items, product, 0);
    }
  }

  predicate IsFirstFor(items: seq<Item>, product: nat, k: nat)
    requires k < |items|
  {
    items[k].product == Some(product) && forall j :: 0 <= j < k ==> items[j].product != Some(product)
  }

  /** The two money columns: filled together, and exactly for a SALE of a known product that the order has a line
      for; the price is the one frozen in the first such line, the amount that price for every unit sold. */
  lemma ExportedColumns(row: Row, using: Lookup)
    ensures var line, m := Export(row, using), row.move;
            && line.row == row && (line.price.Some? <==> line.amount.Some?)
            && (line.price.Some? <==>
                 && m.reason == Sale && m.source.Some? && m.source.value in using.itemsOf && m.sku in using.bySku
                 && exists item :: item in using.itemsOf[m.source.value] && item.product == Some(using.bySku[m.sku]))
            && (line.price.Some? ==>
                 var items := using.itemsOf[m.source.value];
                 exists k :: 0 <= k < |items| && IsFirstFor(items, using.bySku[m.sku], k) && line.price == Some(items[k].price)
                             && line.amount == Some(items[k].price * if m.delta < 0 then -m.delta else m.delta))
  {
    hide FirstMatch, IsFirstFor;
    var m := row.move;
    if m.source.Some? && m.source.value in using.itemsOf && m.sku in using.bySku {
      var items, product := using.itemsOf[m.source.value], using.bySku[m.sku];
      FirstMatchMeans(items, product);
      forall k | 0 <= k < |items| ensures IsFirstFor(items, product, k) ==> items[k] in items && items[k].product == Some(product) {
        FirstIsOne(items, product, k);
      }
    }
  }

  lemma FirstIsOne(items: seq<Item>, product: nat, k: nat)
    requires k < |items|
    ensures IsFirstFor(items, product, k) ==> items[k].product == Some(product)
  {
  }

  lemma {:induction false} NoSaleNoAmount(rows: seq<Row>, using: Lookup, day: int)
    ensures day !in SaleDays(rows, using) ==> DayAmount(rows, using, day) == 0
  {
    if rows != [] {
      NoSaleNoAmount(rows[..|rows| - 1], using, day);
    }
  }

  // ----- the footer ----------------------------------------------------------------------------------------

  function SumDays(rows: seq<Row>, using: Lookup, days: seq<int>): int {
    if days == [] then 0
    else SumDays(rows, using, days[..|days| - 1]) + DayAmount(rows, using, days[|days| - 1])
  }

  predicate DistinctDays(days: seq<int>) {
    forall j, k :: 0 <= j < k < |days| ==> days[j] != days[k]
  }

  lemma {:induction false} SumDaysPush(rows: seq<Row>, using: Lookup, days: seq<int>)
    requires rows != [] && DistinctDays(days)
    ensures var last := rows[|rows| - 1];
            SumDays(rows, using, days) ==
            SumDays(rows[..|rows| - 1], using, days) + if last.day in days then Amount(last, using) else 0
  {
    if days != [] {
      var n := |days| - 1;
      SumDaysPush(rows, using, days[..n]);
      assert days == days[..n] + [days[n]];
    }
  }

  lemma {:induction false} SumDaysOfNothing(using: Lookup, days: seq<int>)
    ensures SumDays([], using, days) == 0
  {
    if days != [] {
      SumDaysOfNothing(using, days[..|days| - 1]);
    }
  }

  /** The daily totals, listed once each, sum to the grand total. */
  lemma {:induction false} DailyTotalsSumToGrand(rows: seq<Row>, using: Lookup, days: seq<int>)
    requires DistinctDays(days) && forall day :: day in SaleDays(rows, using) ==> day in days
    ensures SumDays(rows, using, days) == Grand(rows, using)
  {
    if rows == [] {
      SumDaysOfNothing(using, days);
    } else {
      DailyTotalsSumToGrand(rows[..|rows| - 1], using, days);
      SumDaysPush(rows, using, days);
    }
  }

  // ----- back to the checkout prices -------------------------------------------------------------------------

  /** The exported amount of one order. */
  function OrderAmount(rows: seq<Row>, using: Lookup, order: nat): int {
    if rows == [] then 0
    else
      var last := rows[|rows| - 1];
      OrderAmount(rows[..|rows| - 1], using, order) + if last.move.source == Some(order) then Amount(last, using) else 0
  }

  /** What planned (sku, delta) rows of an order are worth at its frozen prices. */
  function PlanAmount(plan: seq<(string, int)>, items: seq<Item>, bySku: map<string, nat>): int {
    if plan == [] then 0
    else
      var (sku, delta) := plan[|plan| - 1];
      PlanAmount(plan[..|plan| - 1], items, bySku)
      + match PriceIn(items, bySku, sku) case Some(price) => price * Abs(delta) case None => 0
  }

  /** Goods value of the lines that the reservation decrements. */
  function TrackedGoods(catalog: map<nat, string>, skus: set<string>, items: seq<Item>): int {
    if items == [] then 0
    else
      var last := items[|items| - 1];
      TrackedGoods(catalog, skus, items[..|items| - 1]) + if Tracked(catalog, skus, last) then last.price * last.qty else 0
  }

  /** Skus are unique, and the lookup is the inverse of the catalogue. */
  ghost predicate Inverse(catalog: map<nat, string>, bySku: map<string, nat>) {
    forall p :: p in catalog && catalog[p] != "" ==> catalog[p] in bySku && bySku[catalog[p]] == p
  }

  /** Lines as checkout writes them, with one price per product. */
  ghost predicate CheckoutLines(items: seq<Item>) {
    && (forall i :: i in items ==> i.sku == "" && i.product.Some? && 0 < i.qty)
    && (forall i, j :: i in items && j in items && i.product == j.product ==> i.price == j.price)
  }

  lemma {:induction false} FirstMatchPrice(items: seq<Item>, product: nat, item: Item)
    requires item in items && item.product == Some(product)
    ensures FirstMatch(items, product).Some? && FirstMatch(items, product).value in items
    ensures FirstMatch(items, product).value.product == Some(product)
  {
    if items[0].product != Some(product) {
      FirstMatchPrice(items[1..], product, item);
    }
  }

  lemma PlanAmountPush(plan: seq<(string, int)>, sku: string, delta: int, items: seq<Item>, bySku: map<string, nat>)
    ensures PlanAmount(plan + [(sku, delta)], items, bySku) == PlanAmount(plan, items, bySku)
              + match PriceIn(items, bySku, sku) case Some(price) => price * Abs(delta) case None => 0
  {
    assert (plan + [(sku, delta)])[..|plan|] == plan;
  }

  lemma LinePrice(catalog: map<nat, string>, skus: set<string>, item: Item, all: seq<Item>, bySku: map<string, nat>)
    requires Inverse(catalog, bySku) && CheckoutLines(all) && item in all && Tracked(catalog, skus, item)
    ensures PriceIn(all, bySku, Resolve(catalog, item)) == Some(item.price)
  {
    FirstMatchPrice(all, item.product.value, item);
  }

  lemma {:induction false} PlanIsWorth(catalog: map<nat, string>, skus: set<string>, items: seq<Item>, all: seq<Item>, bySku: map<string, nat>)
    requires Inverse(catalog, bySku) && CheckoutLines(all) && forall i :: i in items ==> i in all
    ensures PlanAmount(Plan(catalog, skus, items), all, bySku) == TrackedGoods(catalog, skus, items)
  {
    if items != [] {
      var n := |items| - 1;
      var item := items[n];
      hide PriceIn, Resolve, Inverse;
      assert forall i :: i in items[..n] ==> i in items;
      PlanIsWorth(catalog, skus, items[..n], all, bySku);
      if Tracked(catalog, skus, item) {
        var sku := Resolve(catalog, item);
        LinePrice(catalog, skus, item, all, bySku);
        PlanAmountPush(Plan(catalog, skus, items[..n]), sku, -item.qty, all, bySku);
        assert Plan(catalog, skus, items) == Plan(catalog, skus, items[..n]) + [(sku, -item.qty)];
        assert item.price * Abs(-item.qty) == item.price * item.qty;
      } else {
        assert Plan(catalog, skus, items) == Plan(catalog, skus, items[..n]);
      }
    }
  }

  lemma {:induction false} OrderAmountIsPlan(rows: seq<Row>, using: Lookup, order: nat)
    requires order in using.itemsOf
    ensures OrderAmount(rows, using, order) == PlanAmount(SaleRows(Moves(rows), order), using.itemsOf[order], using.bySku)
  {
    if rows != [] {
      var n := |rows| - 1;
      OrderAmountIsPlan(rows[..n], using, order);
      var moves := Moves(rows);
      assert moves[..|moves| - 1] == Moves(rows[..n]) && moves[|moves| - 1] == rows[n].move;
      var m := rows[n].move;
      if m.reason == Sale && m.source == Some(order) {
        PlanAmountPush(SaleRows(Moves(rows[..n]), order), m.sku, m.delta, using.itemsOf[order], using.bySku);
        assert SaleRows(moves, order) == SaleRows(Moves(rows[..n]), order) + [(m.sku, m.delta)];
      } else {
        assert SaleRows(moves, order) == SaleRows(Moves(rows[..n]), order);
      }
    }
  }

  /** If the ledger holds exactly the planned SALE rows of a checkout order, the export's amounts for the
      order are price times quantity over its stock-tracked lines. */
  lemma OrderAmountIsTrackedGoods(catalog: map<nat, string>, skus: set<string>, rows: seq<Row>, using: Lookup, order: nat)
    requires order in using.itemsOf && Inverse(catalog, using.bySku) && CheckoutLines(using.itemsOf[order])
    requires SaleRows(Moves(rows), order) == Plan(catalog, skus, using.itemsOf[order])
    ensures OrderAmount(rows, using, order) == TrackedGoods(catalog, skus, using.itemsOf[order])
  {
    OrderAmountIsPlan(rows, using, order);
    PlanIsWorth(catalog, skus, using.itemsOf[order], using.itemsOf[order], using.bySku);
  }

  /** When every line is tracked, that is the order's goods total. */
  lemma {:induction false} AllTrackedIsGoodsTotal(catalog: map<nat, string>, skus: set<string>, items: seq<Item>)
    requires forall i :: i in items ==> Tracked(catalog, skus, i)
    ensures TrackedGoods(catalog, skus, items) == GoodsTotal(items)
  {
    if items != [] {
      assert forall i :: i in items[..|items| - 1] ==> i in items;
      AllTrackedIsGoodsTotal(catalog, skus, items[..|items| - 1]);
    }
  }

  /** Reserving a checkout order and exporting the new rows yields price times quantity over exactly its
      tracked lines. */
  lemma ReserveThenExport(catalog: map<nat, string>, stock: map<string, int>, items: seq<Item>, order: nat, day: int, using: Lookup)
    requires order in using.itemsOf && using.itemsOf[order] == items
    requires Inverse(catalog, using.bySku) && CheckoutLines(items)
    ensures var rows := OnDay(Reserved(catalog, stock, items, order), day);
            Grand(rows, using) == TrackedGoods(catalog, stock.Keys, items)
  {
    var moves := Reserved(catalog, stock, items, order);
    ReservedIsPlan(catalog, stock, items, order);
    MovesOnDay(moves, day);
    OrderAmountIsTrackedGoods(catalog, stock.Keys, OnDay(moves, day), using, order);
    OneOrderGrand(moves, day, using, order);
  }

  lemma {:induction false} OneOrderGrand(moves: seq<Movement>, day: int, using: Lookup, order: nat)
    requires forall m :: m in moves ==> m.source == Some(order)
    ensures Grand(OnDay(moves, day), using) == OrderAmount(OnDay(moves, day), using, order)
  {
    if moves != [] {
      var n := |moves| - 1;
      OneOrderGrand(moves[..n], day, using, order);
      var rows := OnDay(moves, day);
      assert rows[..|rows| - 1] == OnDay(moves[..n], day) && rows[|rows| - 1] == Row(moves[n], day);
    }
  }

  // ----- all orders --------------------------------------------------------------------------------------

  function SumOrders(rows: seq<Row>, using: Lookup, n: nat): int {
    if n == 0 then 0 else SumOrders(rows, using, n - 1) + OrderAmount(rows, using, n - 1)
  }

  lemma {:induction false} SumOrdersPush(rows: seq<Row>, using: Lookup, n: nat)
    requires rows != []
    ensures var last := rows[|rows| - 1];
            SumOrders(rows, using, n) == SumOrders(rows[..|rows| - 1], using, n)
              + if last.move.source.Some? && last.move.source.value < n then Amount(last, using) else 0
  {
    if n > 0 {
      SumOrdersPush(rows, using, n - 1);
    }
  }

  lemma {:induction false} SumOrdersOfNothing(using: Lookup, n: nat)
    ensures SumOrders([], using, n) == 0
  {
    if n > 0 {
      SumOrdersOfNothing(using, n - 1);
    }
  }

  /** The grand total is the sum over the orders the sales name. */
  lemma {:induction false} GrandIsSumOfOrders(rows: seq<Row>, using: Lookup, n: nat)
    requires forall o :: o in using.itemsOf ==> o < n
    ensures Grand(rows, using) == SumOrders(rows, using, n)
  {
    if rows == [] {
      SumOrdersOfNothing(using, n);
    } else {
      GrandIsSumOfOrders(rows[..|rows| - 1], using, n);
      SumOrdersPush(rows, using, n);
    }
  }
}
