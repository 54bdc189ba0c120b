/** The inventory ledger as a value: movement rows, running sums and what a reservation plans. */
module Ledger {
  import opened Wrappers
  import opened OrderModel

  datatype Reason = RestockManual | RestockAgent | Sale | Adjustment | SyncInit

  /** One inventory_movements row. `source` is the order a SALE row belongs to. */
  datatype Movement = Movement(sku: string, delta: int, reason: Reason, source: Option<nat>, belowZero: bool)

  /** Net change of one sku over a ledger. */
  function Net(moves: seq<Movement>, sku: string): int {
    if moves == [] then 0
    else
      var last := moves[|moves| - 1];
      Net(moves[..|moves| - 1], sku) + if last.sku == sku then last.delta else 0
  }

  lemma {:induction false} NetAppend(a: seq<Movement>, b: seq<Movement>, sku: string)
    ensures Net(a + b, sku) == Net(a, sku) + Net(b, sku)
  {
    if b == [] {
      assert a + b == a;
    } else {
      var n := |b| - 1;
      assert (a + b)[..|a + b| - 1] == a + b[..n];
      NetAppend(a, b[..n], sku);
    }
  }

  /** A sku that no row mentions has no net change. */
  lemma {:induction false} NetAbsent(moves: seq<Movement>, sku: string)
    requires forall m :: m in moves ==> m.sku != sku
    ensures Net(moves, sku) == 0
  {
    if moves != [] {
      NetAbsent(moves[..|moves| - 1], sku);
    }
  }

  /** Every `below_zero` flag of a SALE row says exactly whether the running quantity after that
      row is negative; other rows never set it. */
  ghost predicate FlagsTruthful(start: map<string, int>, moves: seq<Movement>) {
    forall k :: 0 <= k < |moves| ==> FlagTruthful(start, moves, k)
  }

  ghost predicate FlagTruthful(start: map<string, int>, moves: seq<Movement>, k: nat)
    requires k < |moves|
  {
    var m := moves[k];
    && m.sku in start
    && (m.belowZero <==> m.reason == Sale && start[m.sku] + Net(moves[..k + 1], m.sku) < 0)
  }

  /** Stock after a committed batch of movements. */
  function AfterMoves(stock: map<string, int>, moves: seq<Movement>): (r: map<string, int>) {
    map s | s in stock :: stock[s] + Net(moves, s)
  }

  /** The sku an order line decrements: its own sku, else its product's, else none. */
  function Resolve(catalog: map<nat, string>, item: Item): string {
    if item.sku != "" then item.sku
    else if item.product.Some? && item.product.value in catalog then catalog[item.product.value]
    else ""
  }

  /** Whether the reservation decrements this line at all. */
  predicate Tracked(catalog: map<nat, string>, skus: set<string>, item: Item) {
    var sku := Resolve(catalog, item);
    sku != "" && sku in skus
  }

  /** The (sku, delta) pairs a reservation of `items` must write, in order. */
  function Plan(catalog: map<nat, string>, skus: set<string>, items: seq<Item>): seq<(string, int)> {
    if items == [] then []
    else
      var n := |items| - 1;
      Plan(catalog, skus, items[..n])
      + if Tracked(catalog, skus, items[n]) then [(Resolve(catalog, items[n]), -items[n].qty)] else []
  }

  /** The (sku, delta) columns of the SALE rows of one order. */
  function SaleRows(moves: seq<Movement>, order: nat): seq<(string, int)> {
    if moves == [] then []
    else
      var last := moves[|moves| - 1];
      SaleRows(moves[..|moves| - 1], order)
      + if last.reason == Sale && last.source == Some(order) then [(last.sku, last.delta)] else []
  }

  lemma {:induction false} SaleRowsAppend(a: seq<Movement>, b: seq<Movement>, order: nat)
    ensures SaleRows(a + b, order) == SaleRows(a, order) + SaleRows(b, order)
  {
    if b == [] {
      assert a + b == a;
    } else {
      var n := |b| - 1;
      assert (a + b)[..|a + b| - 1] == a + b[..n];
      SaleRowsAppend(a, b[..n], order);
    }
  }

  /** The row a reservation step buffers for one tracked line, `before` being its earlier rows. */
  function SaleMove(stock: map<string, int>, before: seq<Movement>, sku: string, qty: int, order: nat): Movement
    requires sku in stock
  {
    Movement(sku, -qty, Sale, Some(order), stock[sku] + Net(before, sku) - qty < 0)
  }

  /** Appending truthful rows for the current stock keeps the whole ledger truthful. */
  lemma FlagsAppend(start: map<string, int>, ledger: seq<Movement>, stock: map<string, int>, moves: seq<Movement>)
    requires FlagsTruthful(start, ledger)
    requires stock.Keys == start.Keys
    requires forall s :: s in stock ==> stock[s] == start[s] + Net(ledger, s)
    requires FlagsTruthful(stock, moves)
    ensures FlagsTruthful(start, ledger + moves)
  {
    var all := ledger + moves;
    forall k | 0 <= k < |all| ensures FlagTruthful(start, all, k) {
      if k < |ledger| {
        assert all[..k + 1] == ledger[..k + 1];
        assert FlagTruthful(start, ledger, k);
      } else {
        var j := k - |ledger|;
        assert all[..k + 1] == ledger + moves[..j + 1];
        NetAppend(ledger, moves[..j + 1], moves[j].sku);
        assert FlagTruthful(stock, moves, j);
      }
    }
  }

  /** One more tracked line: one more planned row, with a truthful flag. */
  lemma SaleMoveTruthful(stock: map<string, int>, moves: seq<Movement>, sku: string, qty: int, order: nat)
    requires FlagsTruthful(stock, moves) && sku in stock
    ensures FlagsTruthful(stock, moves + [SaleMove(stock, moves, sku, qty, order)])
    ensures SaleRows(moves + [SaleMove(stock, moves, sku, qty, order)], order) == SaleRows(moves, order) + [(sku, -qty)]
  {
    var all := moves + [SaleMove(stock, moves, sku, qty, order)];
    assert all[..|all| - 1] == moves;
    forall j | 0 <= j < |all| ensures FlagTruthful(stock, all, j) {
      assert all[..j + 1][..j] == all[..j];
      if j < |moves| {
        assert all[..j + 1] == moves[..j + 1];
        assert FlagTruthful(stock, moves, j);
      } else {
        assert all[..j] == moves;
      }
    }
  }

  /** The rows that reserving the lines of an order appends, in order. */
  function Reserved(catalog: map<nat, string>, stock: map<string, int>, items: seq<Item>, order: nat): seq<Movement> {
    if items == [] then []
    else
      var item := items[|items| - 1];
      var before := Reserved(catalog, stock, items[..|items| - 1], order);
      if Tracked(catalog, stock.Keys, item) then
        before + [SaleMove(stock, before, Resolve(catalog, item), item.qty, order)]
      else before
  }

  /** A reservation writes exactly the planned rows, and their flags are true even when a sku repeats. */
  lemma {:induction false} ReservedIsPlan(catalog: map<nat, string>, stock: map<string, int>, items: seq<Item>, order: nat)
    ensures var moves := Reserved(catalog, stock, items, order);
            && SaleRows(moves, order) == Plan(catalog, stock.Keys, items)
            && FlagsTruthful(stock, moves)
            && forall m :: m in moves ==> m.reason == Sale && m.source == Some(order) && m.sku in stock
  {
    if items != [] {
      var n := |items| - 1;
      ReservedIsPlan(catalog, stock, items[..n], order);
      if Tracked(catalog, stock.Keys, items[n]) {
        SaleMoveTruthful(stock, Reserved(catalog, stock, items[..n], order), Resolve(catalog, items[n]), items[n].qty, order);
      }
    }
  }

  /** Units of a sku that the lines order: lines that name the sku, or whose product has it. */
  function Ordered(catalog: map<nat, string>, items: seq<Item>, sku: string): int {
    if items == [] then 0
    else
      var item := items[|items| - 1];
      var named := item.sku == sku
                   || (item.sku == "" && item.product.Some? && item.product.value in catalog && catalog[item.product.value] == sku);
      Ordered(catalog, items[..|items| - 1], sku) + if sku != "" && named then item.qty else 0
  }

  /** A reservation takes from every sku in stock exactly the units that the lines order of it. */
  lemma {:induction false} ReservationTakes(catalog: map<nat, string>, stock: map<string, int>, items: seq<Item>, order: nat, sku: string)
    requires sku in stock
    ensures AfterMoves(stock, Reserved(catalog, stock, items, order))[sku] == stock[sku] - Ordered(catalog, items, sku)
  {
    if items != [] {
      var n := |items| - 1;
      ReservationTakes(catalog, stock, items[..n], order, sku);
      var before := Reserved(catalog, stock, items[..n], order);
      if Tracked(catalog, stock.Keys, items[n]) {
        var row := SaleMove(stock, before, Resolve(catalog, items[n]), items[n].qty, order);
        assert (before + [row])[..|before|] == before;
      }
    }
  }
}
