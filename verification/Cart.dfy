/** Freezing a cart: the order's lines take their prices from the menu once. */
module Cart {
  import opened Wrappers
  import opened OrderModel
  import opened Money
  import opened SalesExport

  /** A line as the cart sends it. */
  datatype CartLine = CartLine(product: nat, qty: int)

  /** Reads of one product at different moments found one price. */
  ghost predicate PricesAgree(cart: seq<CartLine>, snapshots: seq<Option<nat>>)
    requires |snapshots| == |cart|
  {
    forall j, k :: 0 <= j < k < |cart| && cart[j].product == cart[k].product ==> snapshots[j] == snapshots[k]
  }

  /** resolve_checkout_items. `snapshots[k]` is the price that the k-th read of the menu finds, None for a
      missing or unpriced product; the menu may change from one read to the next. The first such line
      raises; otherwise every line is kept in order at the price of its own read, and the lines have one
      price per product exactly when the reads agreed. */
  method ResolveCheckoutItems(cart: seq<CartLine>, snapshots: seq<Option<nat>>) returns (outcome: Outcome<seq<Item>>)
    requires |snapshots| == |cart| && forall line :: line in cart ==> 0 < line.qty
    ensures outcome.Ok? <==> forall k :: 0 <= k < |cart| ==> snapshots[k].Some?
    ensures outcome.Ok? ==>
              && |outcome.result| == |cart|
              && (forall k :: 0 <= k < |cart| ==>
                   outcome.result[k] == Item("", Some(cart[k].product), snapshots[k].value, cart[k].qty))
              && (CheckoutLines(outcome.result) <==> PricesAgree(cart, snapshots))
  {
    var resolved: seq<Item> := [];
    for k := 0 to |cart|
      invariant |resolved| == k
      invariant forall j :: 0 <= j < k ==>
                  snapshots[j].Some? && resolved[j] == Item("", Some(cart[j].product), snapshots[j].value, cart[j].qty)
    {
      var line, price := cart[k], snapshots[k];
      if price.None? {
        return Raise("product not found or has no price");
      }
      resolved := resolved + [Item("", Some(line.product), price.value, line.qty)];
    }
    OnePricePerProduct(cart, snapshots, resolved);
    return Ok(resolved);
  }

  lemma OnePricePerProduct(cart: seq<CartLine>, snapshots: seq<Option<nat>>, items: seq<Item>)
    requires |snapshots| == |cart| == |items| && forall line :: line in cart ==> 0 < line.qty
    requires forall k :: 0 <= k < |cart| ==>
               snapshots[k].Some? && items[k] == Item("", Some(cart[k].product), snapshots[k].value, cart[k].qty)
    ensures CheckoutLines(items) <==> PricesAgree(cart, snapshots)
  {
    forall i | i in items ensures i.sku == "" && i.product.Some? && 0 < i.qty {
      var k :| 0 <= k < |items| && items[k] == i;
      assert cart[k] in cart;
    }
    if PricesAgree(cart, snapshots) {
      forall i, j | i in items && j in items && i.product == j.product ensures i.price == j.price {
        var x :| 0 <= x < |items| && items[x] == i;
        var y :| 0 <= y < |items| && items[y] == j;
        assert x < y || y < x || x == y;
      }
    }
    if CheckoutLines(items) {
      forall j, k | 0 <= j < k < |cart| && cart[j].product == cart[k].product ensures snapshots[j] == snapshots[k] {
        assert items[j] in items && items[k] in items;
      }
    }
  }
}
