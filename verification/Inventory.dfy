/** The inventory table, its ledger of movements, and the writers that change both. */
module Inventory {
  import opened Wrappers
  import opened OrderModel
  import opened Ledger

  datatype StockState = OutOfStock | Critical | LowStock | Available

  /** A ledger row with the day of its created_at. */
  datatype Row = Row(move: Movement, day: int)

  function Moves(rows: seq<Row>): seq<Movement> {
    if rows == [] then [] else Moves(rows[..|rows| - 1]) + [rows[|rows| - 1].move]
  }

  /** One day's copies of a batch of movements. */
  function OnDay(moves: seq<Movement>, day: int): seq<Row> {
    if moves == [] then [] else OnDay(moves[..|moves| - 1], day) + [Row(moves[|moves| - 1], day)]
  }

  lemma {:induction false} MovesAppend(a: seq<Row>, b: seq<Row>)
    ensures Moves(a + b) == Moves(a) + Moves(b)
  {
    if b == [] {
      assert a + b == a;
    } else {
      assert (a + b)[..|a + b| - 1] == a + b[..|b| - 1];
      MovesAppend(a, b[..|b| - 1]);
    }
  }

  lemma {:induction false} MovesOnDay(moves: seq<Movement>, day: int)
    ensures Moves(OnDay(moves, day)) == moves
  {
    if moves != [] {
      var n := |moves| - 1;
      MovesOnDay(moves[..n], day);
      assert OnDay(moves, day)[..|OnDay(moves, day)| - 1] == OnDay(moves[..n], day);
    }
  }

  function StateFor(quantity: int): StockState {
    if quantity <= 0 then OutOfStock
    else if quantity < 5 then Critical
    else if quantity < 20 then LowStock
    else Available
  }

  /** Quantities explained by the ledger, with truthful below-zero flags. */
  ghost predicate Explained(start: map<string, int>, quantity: map<string, int>, rows: seq<Row>) {
    && quantity.Keys == start.Keys
    && (forall s :: s in start ==> quantity[s] == start[s] + Net(Moves(rows), s))
    && FlagsTruthful(start, Moves(rows))
  }

  /** Appending a batch of truthful movements and applying it keeps the ledger equation. */
  lemma ExplainedByBatch(start: map<string, int>, quantity: map<string, int>, rows: seq<Row>, moves: seq<Movement>, day: int)
    requires Explained(start, quantity, rows) && FlagsTruthful(quantity, moves)
    ensures Explained(start, AfterMoves(quantity, moves), rows + OnDay(moves, day))
  {
    MovesOnDay(moves, day);
    MovesAppend(rows, OnDay(moves, day));
    forall s | s in start ensures AfterMoves(quantity, moves)[s] == start[s] + Net(Moves(rows) + moves, s) {
      NetAppend(Moves(rows), moves, s);
    }
    FlagsAppend(start, Moves(rows), quantity, moves);
  }

  lemma UnknownSkuHasNoMoves(start: map<string, int>, quantity: map<string, int>, rows: seq<Row>, sku: string)
    requires Explained(start, quantity, rows) && sku !in quantity
    ensures Net(Moves(rows), sku) == 0
  {
    var moves := Moves(rows);
    forall m | m in moves ensures m.sku != sku {
      var k :| 0 <= k < |moves| && moves[k] == m;
      assert FlagTruthful(start, moves, k);
    }
    NetAbsent(moves, sku);
  }

  /** A new inventory row starts at zero and no older movement mentions it. */
  lemma ExplainedByNewSku(start: map<string, int>, quantity: map<string, int>, rows: seq<Row>, sku: string)
    requires Explained(start, quantity, rows) && sku !in quantity
    ensures Explained(start[sku := 0], quantity[sku := 0], rows)
  {
    var moves := Moves(rows);
    UnknownSkuHasNoMoves(start, quantity, rows, sku);
    var more := start[sku := 0];
    forall k | 0 <= k < |moves| ensures FlagTruthful(more, moves, k) {
      assert FlagTruthful(start, moves, k);
    }
  }

  /** One row: the quantity moves by its delta. */
  lemma ExplainedByRow(start: map<string, int>, quantity: map<string, int>, rows: seq<Row>, m: Movement, day: int)
    requires Explained(start, quantity, rows) && m.sku in quantity
    requires m.belowZero <==> m.reason == Sale && quantity[m.sku] + m.delta < 0
    ensures Explained(start, quantity[m.sku := quantity[m.sku] + m.delta], rows + [Row(m, day)])
  {
    var one := [m];
    assert one[..0] == [] && one[..1] == one && one[0] == m;
    assert Net(one[..0], m.sku) == 0;
    assert Net(one, m.sku) == m.delta;
    assert FlagTruthful(quantity, one, 0);
    forall s | s in quantity ensures Net(one, s) == if s == m.sku then m.delta else 0 {
      assert Net(one[..0], s) == 0;
    }
    assert AfterMoves(quantity, one) == quantity[m.sku := quantity[m.sku] + m.delta];
    assert OnDay(one, day) == [Row(m, day)] by {
      assert OnDay(one[..0], day) == [];
    }
    ExplainedByBatch(start, quantity, rows, one, day);
  }

  /** Some row of the batch is flagged. */
  predicate AnyBelowZero(moves: seq<Movement>) {
    exists k :: 0 <= k < |moves| && moves[k].belowZero
  }

  /** The tables the inventory tools write within their caller's transaction. */
  class Warehouse {
    var quantity: map<string, int>
    var condition: map<string, StockState>
    var rows: seq<Row>
    ghost var start: map<string, int>

    ghost predicate Valid()
      reads this
    {
      Explained(start, quantity, rows) && condition.Keys == quantity.Keys
    }

    constructor (initial: map<string, int>)
      ensures Valid() && quantity == initial == start && rows == []
    {
      quantity, rows, start := initial, [], initial;
      condition := map s | s in initial :: StateFor(initial[s]);
    }

    /** record_movement */
    method RecordMovement(sku: string, delta: int, reason: Reason, source: Option<nat>, belowZero: bool, day: int)
      modifies this`rows
      ensures rows == old(rows) + [Row(Movement(sku, delta, reason, source, belowZero), day)]
    {
      rows := rows + [Row(Movement(sku, delta, reason, source, belowZero), day)];
    }

    /** check_inventory_stock: what the ledger says is left of the sku (an unknown sku has no movement and
        reads as zero), and for a positive demand exactly the answer to "can it be taken?". */
    method CheckInventoryStock(sku: string) returns (onHand: int)
      requires Valid()
      ensures onHand == (if sku in start then start[sku] else 0) + Net(Moves(rows), sku)
      ensures forall demand :: 0 < demand ==> (demand <= onHand <==> CanTake(sku, demand))
    {
      if sku in quantity {
        return quantity[sku];
      }
      UnknownSkuHasNoMoves(start, quantity, rows, sku);
      return 0;
    }

    /** The guard under which decrement_inventory takes stock. */
    predicate CanTake(sku: string, qty: int)
      reads this
    {
      sku in quantity && qty <= quantity[sku]
    }

    /** decrement_inventory: 1 when the stock sufficed and was taken, 0 when nothing changed. */
    method DecrementInventory(sku: string, qty: int, day: int) returns (taken: int)
      requires Valid()
      modifies this`quantity, this`rows
      ensures Valid()
      ensures taken == if old(CanTake(sku, qty)) then 1 else 0
      ensures taken == 0 ==> quantity == old(quantity) && rows == old(rows)
      ensures taken == 1 ==>
                && quantity == old(quantity)[sku := old(quantity[sku]) - qty]
                && rows == old(rows) + [Row(Movement(sku, -qty, Adjustment, None, false), day)]
    {
      hide Explained;
      if sku !in quantity {
        return 0;
      }
      if quantity[sku] < qty {
        return 0;
      }
      ExplainedByRow(start, quantity, rows, Movement(sku, -qty, Adjustment, None, false), day);
      quantity := quantity[sku := quantity[sku] - qty];
      RecordMovement(sku, -qty, Adjustment, None, false, day);
      return 1;
    }

    /** increment_inventory: any reason other than the two restock reasons is recorded as manual. */
    method IncrementInventory(sku: string, qty: int, reason: Option<Reason>, source: Option<nat>, day: int)
      returns (outcome: Outcome<()>)
      requires Valid()
      modifies this`quantity, this`rows
      ensures Valid()
      ensures outcome.Ok? <==> sku in old(quantity)
      ensures outcome.Raise? ==> quantity == old(quantity) && rows == old(rows)
      ensures outcome.Ok? ==>
                && quantity == old(quantity)[sku := old(quantity[sku]) + qty]
                && exists why :: rows == old(rows) + [Row(Movement(sku, qty, why, source, false), day)]
                                 && (why == RestockAgent <==> reason == Some(RestockAgent))
                                 && (why == RestockAgent || why == RestockManual)
    {
      hide Explained;
      if sku !in quantity {
        return Raise("sku not found");
      }
      var why := if reason == Some(RestockManual) || reason == Some(RestockAgent) then reason.value else RestockManual;
      ExplainedByRow(start, quantity, rows, Movement(sku, qty, why, source, false), day);
      quantity := quantity[sku := quantity[sku] + qty];
      RecordMovement(sku, qty, why, source, false, day);
      return Ok(());
    }

    /** set_inventory_quantity: exactly the typed value, negative included; no row when nothing changed. */
    method SetInventoryQuantity(sku: string, value: int, day: int) returns (outcome: Outcome<()>)
      requires Valid()
      modifies this`quantity, this`rows
      ensures Valid()
      ensures outcome.Ok? <==> sku in old(quantity)
      ensures outcome.Raise? ==> quantity == old(quantity) && rows == old(rows)
      ensures outcome.Ok? ==> quantity == old(quantity)[sku := value]
      ensures outcome.Ok? ==>
                rows == old(rows) + if value == old(quantity[sku]) then []
                                    else [Row(Movement(sku, value - old(quantity[sku]), Adjustment, None, false), day)]
    {
      hide Explained;
      if sku !in quantity {
        return Raise("sku not found");
      }
      var delta := value - quantity[sku];
      ExplainedByRow(start, quantity, rows, Movement(sku, delta, Adjustment, None, false), day);
      assert delta == 0 ==> quantity[sku := value] == quantity;
      quantity := quantity[sku := value];
      if delta != 0 {
        RecordMovement(sku, delta, Adjustment, None, false, day);
      }
      return Ok(());
    }

    /** set_inventory_state */
    method SetInventoryState(sku: string) returns (outcome: Outcome<()>)
      requires Valid()
      modifies this`condition
      ensures Valid()
      ensures outcome.Ok? <==> sku in quantity
      ensures condition == if sku in quantity then old(condition)[sku := StateFor(quantity[sku])] else old(condition)
      ensures outcome.Ok? ==>
                && (condition[sku] == OutOfStock <==> quantity[sku] <= 0)
                && (condition[sku] == Critical <==> 1 <= quantity[sku] <= 4)
                && (condition[sku] == LowStock <==> 5 <= quantity[sku] <= 19)
                && (condition[sku] == Available <==> 20 <= quantity[sku])
    {
      if sku !in quantity {
        return Raise("sku not found");
      }
      var current := quantity[sku];
      var newState := Available;
      if current <= 0 {
        newState := OutOfStock;
      } else if current < 5 {
        newState := Critical;
      } else if current < 20 {
        newState := LowStock;
      }
      condition := condition[sku := newState];
      return Ok(());
    }

    /** InventoryService.set_quantity: the state never goes stale relative to the quantity. */
    method SetQuantity(sku: string, value: int, day: int) returns (outcome: Outcome<(int, StockState)>)
      requires Valid()
      modifies this`quantity, this`rows, this`condition
      ensures Valid()
      ensures outcome == if sku in old(quantity) then Ok((value, StateFor(value))) else Raise("sku not found")
      ensures outcome.Raise? ==> quantity == old(quantity) && rows == old(rows) && condition == old(condition)
      ensures outcome.Ok? ==> quantity == old(quantity)[sku := value] && condition[sku] == StateFor(quantity[sku])
      ensures outcome.Ok? ==>
                match condition[sku]
                case OutOfStock => value <= 0
                case Critical => 1 <= value <= 4
                case LowStock => 5 <= value <= 19
                case Available => 20 <= value
      ensures outcome.Ok? ==> forall s :: s in condition && s != sku ==> s in old(condition) && condition[s] == old(condition)[s]
    {
      var written := SetInventoryQuantity(sku, value, day);
      if written.Raise? {
        return Raise("sku not found");
      }
      var _ := SetInventoryState(sku);
      return Ok((quantity[sku], condition[sku]));
    }

    /** The loop of reserve_inventory_items over an existing order's lines: never blocks, returns 1 exactly
        when some row of this reservation is flagged. */
    method ReserveInventoryItems(catalog: map<nat, string>, items: seq<Item>, order: nat, day: int) returns (alert: int)
      requires Valid()
      modifies this`quantity, this`rows
      ensures Valid()
      ensures var moves := Reserved(catalog, old(quantity), items, order);
              && quantity == AfterMoves(old(quantity), moves)
              && rows == old(rows) + OnDay(moves, day)
              && alert == if AnyBelowZero(moves) then 1 else 0
    {
      hide Explained, Reserved, AfterMoves, AnyBelowZero, OnDay, SaleMove, FlagsTruthful;
      var anyBelowZero := false;
      ghost var was, ledger := quantity, rows;
      ReservedIsPlan(catalog, was, items, order);
      NothingReserved(catalog, was, order, day);
      assert items[..0] == [] && ledger + [] == ledger;
      for k := 0 to |items|
        invariant quantity == AfterMoves(was, Reserved(catalog, was, items[..k], order))
        invariant rows == ledger + OnDay(Reserved(catalog, was, items[..k], order), day)
        invariant anyBelowZero == AnyBelowZero(Reserved(catalog, was, items[..k], order))
      {
        var item := items[k];
        ghost var before := Reserved(catalog, was, items[..k], order);
        ReservedStep(catalog, was, items, k, order);
        var sku := item.sku;
        if sku == "" && item.product.Some? && item.product.value in catalog {
          sku := catalog[item.product.value];
        }
        SameSkus(was, before);
        if sku != "" && sku in quantity {
          var belowZero := quantity[sku] - item.qty < 0;
          if belowZero {
            anyBelowZero := true;
          }
          OneMoreRow(was, before, sku, item.qty, order, day);
          quantity := quantity[sku := quantity[sku] - item.qty];
          RecordMovement(sku, -item.qty, Sale, Some(order), belowZero, day);
          assert rows == ledger + (OnDay(before, day) + [Row(SaleMove(was, before, sku, item.qty, order), day)]);
        }
      }
      assert items[..|items|] == items;
      ExplainedByBatch(start, was, ledger, Reserved(catalog, was, items, order), day);
      SameSkus(was, Reserved(catalog, was, items, order));
      return if anyBelowZero then 1 else 0;
    }

    /** The loop of sync_from_menu over the skus of the active products: fills gaps, touches nothing else. */
    method SyncFromMenu(products: seq<Option<string>>) returns (created: nat, skippedNoSku: nat)
      requires Valid()
      modifies this`quantity, this`condition, this`start
      ensures Valid()
      ensures quantity == Filled(old(quantity), Skus(products), 0)
      ensures condition == Filled(old(condition), Skus(products), OutOfStock)
      ensures created == |quantity| - old(|quantity|)
      ensures skippedNoSku == CountNone(products)
    {
      hide Explained, Filled, Skus, CountNone;
      NoProducts();
      assert products[..0] == [];
      created, skippedNoSku := 0, 0;
      FilledNothing(quantity, 0);
      FilledNothing(condition, OutOfStock);
      for k := 0 to |products|
        invariant Valid()
        invariant quantity == Filled(old(quantity), Skus(products[..k]), 0)
        invariant condition == Filled(old(condition), Skus(products[..k]), OutOfStock)
        invariant created == |quantity| - old(|quantity|)
        invariant skippedNoSku == CountNone(products[..k])
      {
        OneMoreProduct(products, k);
        match products[k]
        case None =>
          skippedNoSku := skippedNoSku + 1;
        case Some(sku) =>
          FilledStep(old(quantity), Skus(products[..k]), 0, sku);
          FilledStep(old(condition), Skus(products[..k]), OutOfStock, sku);
          if sku !in quantity {
            ExplainedByNewSku(start, quantity, rows, sku);
            start := start[sku := 0];
            quantity := quantity[sku := 0];
            condition := condition[sku := OutOfStock];
            created := created + 1;
          }
      }
      assert products[..|products|] == products;
    }
  }

  lemma NoProducts()
    ensures Skus([]) == {} && CountNone([]) == 0
  {
  }

  lemma OneMoreProduct(products: seq<Option<string>>, k: nat)
    requires k < |products|
    ensures Skus(products[..k + 1]) == Skus(products[..k]) + (if products[k].Some? then {products[k].value} else {})
    ensures CountNone(products[..k + 1]) == CountNone(products[..k]) + if products[k].None? then 1 else 0
    ensures products[k].None? ==> Skus(products[..k + 1]) == Skus(products[..k])
  {
    assert products[..k + 1][..k] == products[..k];
  }

  /** A table with a default row for every key it lacked. */
  function Filled<V>(table: map<string, V>, keys: set<string>, v: V): map<string, V> {
    map s | s in table.Keys + keys :: if s in table then table[s] else v
  }

  lemma FilledNothing<V>(table: map<string, V>, v: V)
    ensures Filled(table, {}, v) == table
  {
  }

  lemma FilledStep<V>(table: map<string, V>, keys: set<string>, v: V, key: string)
    ensures var before := Filled(table, keys, v);
            && Filled(table, keys + {key}, v) == (if key in before then before else before[key := v])
            && (key !in before ==> |before[key := v]| == |before| + 1)
  {
    var before := Filled(table, keys, v);
    assert before[key := v].Keys == before.Keys + {key};
    assert key in before ==> table.Keys + (keys + {key}) == table.Keys + keys;
  }

  /** Filling twice with the same keys is filling once. */
  lemma FilledTwice<V>(table: map<string, V>, keys: set<string>, v: V)
    ensures Filled(Filled(table, keys, v), keys, v) == Filled(table, keys, v)
  {
  }

  function Skus(products: seq<Option<string>>): set<string> {
    if products == [] then {}
    else
      var last := products[|products| - 1];
      Skus(products[..|products| - 1]) + if last.Some? then {last.value} else {}
  }

  function CountNone(products: seq<Option<string>>): nat {
    if products == [] then 0
    else CountNone(products[..|products| - 1]) + if products[|products| - 1].None? then 1 else 0
  }

  lemma NothingReserved(catalog: map<nat, string>, stock: map<string, int>, order: nat, day: int)
    ensures Reserved(catalog, stock, [], order) == [] && AfterMoves(stock, []) == stock
    ensures OnDay([], day) == [] && !AnyBelowZero([])
  {
  }

  lemma ReservedStep(catalog: map<nat, string>, stock: map<string, int>, items: seq<Item>, k: nat, order: nat)
    requires k < |items|
    ensures var before, sku := Reserved(catalog, stock, items[..k], order), Resolve(catalog, items[k]);
            Reserved(catalog, stock, items[..k + 1], order) ==
              if sku != "" && sku in stock then before + [SaleMove(stock, before, sku, items[k].qty, order)] else before
  {
    assert items[..k + 1][..k] == items[..k];
  }

  lemma SameSkus(stock: map<string, int>, moves: seq<Movement>)
    ensures AfterMoves(stock, moves).Keys == stock.Keys
  {
  }

  /** What one loop iteration does to the quantity, the ledger and the alert. */
  lemma OneMoreRow(was: map<string, int>, before: seq<Movement>, sku: string, qty: int, order: nat, day: int)
    requires sku in was
    ensures var now, m := AfterMoves(was, before), SaleMove(was, before, sku, qty, order);
            && sku in now
            && m == Movement(sku, -qty, Sale, Some(order), now[sku] - qty < 0)
            && AfterMoves(was, before + [m]) == now[sku := now[sku] - qty]
            && OnDay(before + [m], day) == OnDay(before, day) + [Row(m, day)]
            && AnyBelowZero(before + [m]) == (AnyBelowZero(before) || now[sku] - qty < 0)
  {
    var m := SaleMove(was, before, sku, qty, order);
    var all := before + [m];
    assert all[..|before|] == before;
    assert AnyBelowZero(before) ==> AnyBelowZero(all) by {
      if AnyBelowZero(before) {
        var k :| 0 <= k < |before| && before[k].belowZero;
        assert all[k].belowZero;
      }
    }
    assert m.belowZero ==> all[|before|].belowZero;
  }
}
