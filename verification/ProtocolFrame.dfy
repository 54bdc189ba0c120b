/** What one process's step can do to the others: the tables only move forward, and a locked row
    does not move at all. */
module ProtocolFrame {
  import opened Wrappers
  import opened OrderModel
  import opened Ledger
  import opened Money
  import opened Protocol
  import opened ProtocolInvariant

  ghost predicate Edge(s: OrderState, t: OrderState) {
    exists e :: Next(s, e) == Some(t)
  }

  /** v is a later world than w. */
  ghost predicate Extends(w: World, v: World) {
    && OrdersExtend(w.db.orders, v.db.orders)
    && |w.db.tickets| <= |v.db.tickets|
    && (forall t :: 0 <= t < |w.db.tickets| ==>
         && v.db.tickets[t].order == w.db.tickets[t].order
         && (w.db.tickets[t].state == HandedOff ==> v.db.tickets[t].state == HandedOff))
    && |w.db.payments| <= |v.db.payments|
    && (forall r :: 0 <= r < |w.db.payments| ==>
         && v.db.payments[r].order == w.db.payments[r].order
         && v.db.payments[r].charge == w.db.payments[r].charge
         && v.db.payments[r].amount == w.db.payments[r].amount)
    && |w.traces| <= |v.traces|
    && (forall t :: 0 <= t < |w.traces| ==> v.traces[t] == w.traces[t])
    && |w.charges| <= |v.charges|
    && (forall c :: 0 <= c < |w.charges| ==>
         && v.charges[c].trace == w.charges[c].trace && v.charges[c].amount == w.charges[c].amount
         && (w.charges[c].status.Some? ==> v.charges[c].status == w.charges[c].status))
    && (forall k :: k in w.db.keys ==>
         k in v.db.keys && (w.db.keys[k].Saved? ==> v.db.keys[k] == w.db.keys[k]))
    && v.db.catalog == w.db.catalog
    && v.db.stock.Keys == w.db.stock.Keys
  }

  ghost predicate OrdersExtend(a: seq<Order>, b: seq<Order>) {
    && |a| <= |b|
    && forall o :: 0 <= o < |a| ==>
         b[o].req == a[o].req && b[o].total == a[o].total && (b[o].state == a[o].state || Edge(a[o].state, b[o].state))
  }

  /** Once paid (or cancelled) no edge leads back before payment. */
  lemma PaidStays(s: OrderState, t: OrderState)
    requires s == t || Edge(s, t)
    requires PaidOrLater(s) || s == Cancelled
    ensures PaidOrLater(t) || t == Cancelled
  {
  }

  lemma JobStable(w: World, v: World, job: Job)
    requires Extends(w, v) && JobOk(w, job)
    ensures JobOk(v, job)
  {
    match job
    case Transition(o, e, phase, caller) =>
      if caller.PaidCook? {
        PaidStays(w.db.orders[o].state, v.db.orders[o].state);
      }
    case HookRecord(kind, trace, c) => VerifiedStable(w, v, kind, trace, c);
    case HookPayment(kind, trace, c) => VerifiedStable(w, v, kind, trace, c);
    case HookOrder(kind, trace, c) => VerifiedStable(w, v, kind, trace, c);
    case HookLock(kind, trace, c, _) => VerifiedStable(w, v, kind, trace, c);
    case HookCommit(kind, trace, c, _) => VerifiedStable(w, v, kind, trace, c);
    case _ =>
  }

  lemma VerifiedStable(w: World, v: World, kind: Settlement, trace: nat, charge: nat)
    requires Extends(w, v) && Verified(w, kind, trace, charge)
    ensures Verified(v, kind, trace, charge)
  {
    var r :| 0 <= r < |w.db.payments| && w.db.payments[r].charge == charge && w.db.payments[r].amount == w.charges[charge].amount;
    assert v.db.payments[r].charge == charge && v.db.payments[r].amount == v.charges[charge].amount;
  }

  /** The rows p has locked are as they were. */
  ghost predicate Untouched(w: World, v: World, p: Proc) {
    && (p.tx.order.Some? && p.tx.order.value.order < |w.db.orders| && p.tx.order.value.order < |v.db.orders| ==>
         v.db.orders[p.tx.order.value.order].state == w.db.orders[p.tx.order.value.order].state)
    && (p.tx.ticket.Some? && p.tx.ticket.value.ticket < |w.db.tickets| && p.tx.ticket.value.ticket < |v.db.tickets| ==>
         v.db.tickets[p.tx.ticket.value.ticket].state == w.db.tickets[p.tx.ticket.value.ticket].state)
    && (forall k :: 0 <= k < |p.tx.moves| && p.tx.moves[k].sku in w.db.stock && p.tx.moves[k].sku in v.db.stock ==>
         v.db.stock[p.tx.moves[k].sku] == w.db.stock[p.tx.moves[k].sku])
  }

  lemma ReservedStable(w: World, v: World, o: nat, k: nat, p: Proc)
    requires Extends(w, v) && Untouched(w, v, p) && ReservedOk(w, o, k, p.tx.moves)
    ensures ReservedOk(v, o, k, p.tx.moves)
  {
    var moves := p.tx.moves;
    forall j | 0 <= j < |moves| ensures FlagTruthful(v.db.stock, moves, j) {
      assert FlagTruthful(w.db.stock, moves, j);
    }
  }

  lemma TxStable(w: World, v: World, p: Proc)
    requires Extends(w, v) && Untouched(w, v, p) && TxOk(w, p)
    ensures TxOk(v, p)
  {
    match p.job
    case Transition(o, e, phase, _) =>
      match phase {
        case Reserving(_, k) => ReservedStable(w, v, o, k, p);
        case WriteCooking(_) => ReservedStable(w, v, o, |w.db.orders[o].req.items|, p);
        case Written(_) => if e == StartCooking { ReservedStable(w, v, o, |w.db.orders[o].req.items|, p); }
        case _ =>
      }
    case _ =>
  }

  /** Process i's commit leaves every row that another process holds untouched. */
  lemma CommitRespectsLocks(w: World, v: World, i: nat, j: nat)
    requires i < |w.procs| && j < |w.procs| && i != j && LocksOk(w)
    requires v.db == Commit(w.db, w.procs[i].tx)
    ensures Untouched(w, v, w.procs[j])
  {
    var tx := w.procs[i].tx;
    var p := w.procs[j];
    assert Disjoint(p, w.procs[i]);
    forall k | 0 <= k < |p.tx.moves| && p.tx.moves[k].sku in w.db.stock
      ensures v.db.stock[p.tx.moves[k].sku] == w.db.stock[p.tx.moves[k].sku]
    {
      var sku := p.tx.moves[k].sku;
      assert !HoldsSku(w.procs[i], sku);
      assert forall m :: m in tx.moves ==> m.sku != sku;
      NetAbsent(tx.moves, sku);
    }
  }
}
