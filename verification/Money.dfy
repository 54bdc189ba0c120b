/** Checkout arithmetic: goods total, promo effects, the charged total. */
module Money {
  import opened Wrappers
  import opened OrderModel

  /** settings.DELIVERY_FEE, the fallback when no zone could be resolved. */
  const DELIVERY_FEE: nat := 99

  /** What a resolved promo code does: a final rouble discount, or a waived delivery fee. */
  datatype PromoEffect = PromoEffect(discount: int, freeDelivery: bool)

  function GoodsTotal(items: seq<Item>): int {
    if items == [] then 0
    else GoodsTotal(items[..|items| - 1]) + items[|items| - 1].price * items[|items| - 1].qty
  }

  function Max0(x: int): int { if x < 0 then 0 else x }

  function CheckoutTotal(items: seq<Item>, pickup: bool, promo: Option<PromoEffect>, zoneFee: Option<nat>): int {
    var goods := match promo case Some(p) => Max0(GoodsTotal(items) - p.discount) case None => GoodsTotal(items);
    if pickup then goods
    else
      var fee := match zoneFee case Some(f) => f case None => DELIVERY_FEE;
      goods + if promo.Some? && promo.value.freeDelivery then 0 else fee
  }

  lemma {:induction false} GoodsAdd(a: seq<Item>, b: seq<Item>)
    ensures GoodsTotal(a + b) == GoodsTotal(a) + GoodsTotal(b)
  {
    if b == [] {
      assert a + b == a;
    } else {
      assert (a + b)[..|a + b| - 1] == a + b[..|b| - 1];
      GoodsAdd(a, b[..|b| - 1]);
    }
  }

  /** What changes a total, and by how much: a line adds its price for every unit, delivery adds the zone's fee, or
      99 without a zone, unless a promo waives it, and a discount takes off its amount but never more than there is. */
  lemma TotalLaws(items: seq<Item>, more: Item, pickup: bool, promo: Option<PromoEffect>, zoneFee: Option<nat>, discount: nat)
    ensures CheckoutTotal([], true, None, zoneFee) == 0
    ensures CheckoutTotal(items + [more], pickup, None, zoneFee) == CheckoutTotal(items, pickup, None, zoneFee) + more.price * more.qty
    ensures CheckoutTotal(items, false, promo, zoneFee) - CheckoutTotal(items, true, promo, zoneFee) ==
            match (promo, zoneFee)
            case (Some(PromoEffect(_, true)), _) => 0
            case (_, Some(fee)) => fee
            case (_, None) => 99
    ensures var goods := CheckoutTotal(items, true, None, zoneFee);
            0 <= goods ==>
              CheckoutTotal(items, true, Some(PromoEffect(discount, false)), zoneFee) == if discount <= goods then goods - discount else 0
    ensures CheckoutTotal(items, true, Some(PromoEffect(0, true)), zoneFee) == Max0(CheckoutTotal(items, true, None, zoneFee))
  {
    GoodsAdd(items, [more]);
    assert [more][..0] == [];
  }
}
