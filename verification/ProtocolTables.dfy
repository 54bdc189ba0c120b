/** Each kind of commit keeps the committed tables consistent. */
module ProtocolTables {
  import opened Wrappers
  import opened OrderModel
  import opened Ledger
  import opened Money
  import opened Protocol
  import opened ProtocolInvariant

  // ----- counting tickets ----------------------------------------------------------------------------

  lemma {:induction false} TicketCountSame(a: seq<Ticket>, b: seq<Ticket>, o: nat)
    requires |a| == |b| && forall t :: 0 <= t < |a| ==> a[t].order == b[t].order
    ensures TicketCount(a, o) == TicketCount(b, o)
  {
    if a != [] {
      TicketCountSame(a[..|a| - 1], b[..|b| - 1], o);
    }
  }

  lemma TicketCountInsert(a: seq<Ticket>, t: Ticket, o: nat)
    ensures TicketCount(a + [t], o) == TicketCount(a, o) + if t.order == o then 1 else 0
  {
    assert (a + [t])[..|a|] == a;
  }

  lemma {:induction false} TicketCountPositive(a: seq<Ticket>, t: nat)
    requires t < |a|
    ensures TicketCount(a, a[t].order) >= 1
  {
    if t < |a| - 1 {
      TicketCountPositive(a[..|a| - 1], t);
    }
  }

  /** An order with a single ticket has that ticket and no other. */
  lemma {:induction false} OnlyTicket(a: seq<Ticket>, t: nat, u: nat)
    requires t < |a| && u < |a| && a[t].order == a[u].order
    requires TicketCount(a, a[t].order) <= 1
    ensures t == u
  {
    var n := |a| - 1;
    if t < n && u < n {
      OnlyTicket(a[..n], t, u);
    } else if t < n {
      TicketCountPositive(a[..n], t);
    } else if u < n {
      TicketCountPositive(a[..n], u);
    }
  }

  // ----- commits ---------------------------------------------------------------------------------------

  /** Worlds with the same tables agree on TablesOk, whatever their processes do. */
  lemma TablesSame(w: World, v: World)
    requires TablesOk(w) && v.db == w.db && v.traces == w.traces && v.charges == w.charges
    ensures TablesOk(v)
  {
    forall o | 0 <= o < |v.db.orders| ensures OrderOk(v, o) {
      assert OrderOk(w, o);
    }
    forall t | 0 <= t < |v.db.tickets| ensures TicketOk(v, t) {
      assert TicketOk(w, t);
    }
    forall r | 0 <= r < |v.db.payments| ensures PaymentOk(v, r) {
      assert PaymentOk(w, r);
    }
  }

  ghost predicate HandedOffTicket(w: World, o: nat) {
    exists t :: 0 <= t < |w.db.tickets| && w.db.tickets[t].order == o && w.db.tickets[t].state == HandedOff
  }

  /** What must be known before a plain state write of an order may commit. */
  ghost predicate MayWrite(w: World, write: OrderWrite) {
    && write.order < |w.db.orders| && w.db.orders[write.order].state == write.from
    && Next(write.from, write.event) == Some(write.to)
    && write.event != StartCooking
    && (write.to == Packing ==> HandedOffTicket(w, write.order))
    && (write.to == Closed ==> w.db.orders[write.order].req.pickup)
    && (write.to == Paid && w.db.orders[write.order].req.online ==> HasSuccess(w, write.order))
  }

  /** A plain state write (anything but START_COOKING). */
  lemma OrderWriteKeepsTables(w: World, v: World, write: OrderWrite)
    requires TablesOk(w) && MayWrite(w, write)
    requires v.db == w.db.(orders := WriteOrder(w.db.orders, Some(write)))
    requires v.traces == w.traces && v.charges == w.charges
    ensures TablesOk(v)
  {
    forall o | 0 <= o < |v.db.orders| ensures OrderOk(v, o) {
      assert OrderOk(w, o);
      assert HasSuccess(w, o) ==> HasSuccess(v, o);
    }
    forall t | 0 <= t < |v.db.tickets| ensures TicketOk(v, t) {
      assert TicketOk(w, t);
      if w.db.tickets[t].order == write.order && write.to == Packing {
        var u :| 0 <= u < |w.db.tickets| && w.db.tickets[u].order == write.order && w.db.tickets[u].state == HandedOff;
        assert OrderOk(w, write.order);
        OnlyTicket(w.db.tickets, t, u);
      }
    }
    forall r | 0 <= r < |v.db.payments| ensures PaymentOk(v, r) {
      assert PaymentOk(w, r);
    }
  }

  /** START_COOKING's commit: the state write, the new ticket and the SALE rows together. */
  ghost predicate CookingCommit(w: World, v: World, write: OrderWrite, moves: seq<Movement>) {
    && write.order < |w.db.orders| && w.db.orders[write.order].state == write.from
    && write.event == StartCooking && Next(write.from, write.event) == Some(write.to)
    && (w.db.orders[write.order].req.online ==> write.from == Paid)
    && ReservedOk(w, write.order, |w.db.orders[write.order].req.items|, moves)
    && v.db == w.db.(orders := WriteOrder(w.db.orders, Some(write)), tickets := w.db.tickets + [Ticket(write.order, New)],
                     stock := AfterMoves(w.db.stock, moves), ledger := w.db.ledger + moves)
    && v.traces == w.traces && v.charges == w.charges
  }

  lemma CookingKeepsOrder(w: World, v: World, write: OrderWrite, moves: seq<Movement>, o: nat)
    requires TablesOk(w) && CookingCommit(w, v, write, moves) && o < |v.db.orders|
    ensures OrderOk(v, o)
  {
    hide Next, FlagsTruthful, TicketOk, PaymentOk, Plan, SaleRows, TicketCount;
    var me := write.order;
    EdgeFacts(write.from, write.event, write.to);
    assert OrderOk(w, o);
    assert HasSuccess(w, o) ==> HasSuccess(v, o);
    assert v.db.stock.Keys == w.db.stock.Keys;
    TicketCountInsert(w.db.tickets, Ticket(me, New), o);
    SaleRowsAppend(w.db.ledger, moves, o);
    if o == me {
      var items := w.db.orders[me].req.items;
      assert items[..|items|] == items;
    } else {
      NoRowsYet(moves, o);
    }
  }

  lemma CookingKeepsTables(w: World, v: World, write: OrderWrite, moves: seq<Movement>)
    requires TablesOk(w) && CookingCommit(w, v, write, moves)
    ensures TablesOk(v)
  {
    forall o | 0 <= o < |v.db.orders| ensures OrderOk(v, o) {
      CookingKeepsOrder(w, v, write, moves, o);
    }
    forall t | 0 <= t < |v.db.tickets| ensures TicketOk(v, t) {
      if t < |w.db.tickets| {
        assert TicketOk(w, t);
        assert v.db.tickets[t] == w.db.tickets[t];
      }
    }
    forall r | 0 <= r < |v.db.payments| ensures PaymentOk(v, r) {
      assert PaymentOk(w, r);
    }
    assert SourcesKnown(v.db) by {
      assert SourcesKnown(w.db);
    }
  }

  /** A restock, decrement or stock-take changes no order's SALE rows. */
  lemma StockWriterKeepsTables(w: World, v: World, moves: seq<Movement>)
    requires TablesOk(w) && forall m :: m in moves ==> m.source == None
    requires v.db == w.db.(stock := AfterMoves(w.db.stock, moves), ledger := w.db.ledger + moves)
    requires v.traces == w.traces && v.charges == w.charges
    ensures TablesOk(v)
  {
    assert v.db.stock.Keys == w.db.stock.Keys;
    forall o | 0 <= o < |v.db.orders| ensures OrderOk(v, o) {
      assert OrderOk(w, o);
      SaleRowsAppend(w.db.ledger, moves, o);
      NoRowsYet(moves, o);
      assert HasSuccess(w, o) ==> HasSuccess(v, o);
    }
    forall t | 0 <= t < |v.db.tickets| ensures TicketOk(v, t) {
      assert TicketOk(w, t);
    }
    forall r | 0 <= r < |v.db.payments| ensures PaymentOk(v, r) {
      assert PaymentOk(w, r);
    }
  }

  /** A new PENDING payment row. */
  lemma NewPaymentKeepsTables(w: World, v: World, row: Payment)
    requires TablesOk(w) && row.state == Pending && row.order < |w.db.orders| && ChargeOf(w, row.charge, row.order)
    requires row.amount == Amount(w.db.orders[row.order].total, "RUB")
    requires v.db == w.db.(payments := w.db.payments + [row]) && v.traces == w.traces && v.charges == w.charges
    ensures TablesOk(v)
  {
    forall o | 0 <= o < |v.db.orders| ensures OrderOk(v, o) {
      assert OrderOk(w, o);
      if HasSuccess(w, o) {
        var r :| 0 <= r < |w.db.payments| && w.db.payments[r].order == o && w.db.payments[r].state == Success;
        assert v.db.payments[r] == w.db.payments[r];
      }
    }
    forall t | 0 <= t < |v.db.tickets| ensures TicketOk(v, t) {
      assert TicketOk(w, t);
    }
    forall r | 0 <= r < |v.db.payments| ensures PaymentOk(v, r) {
      if r < |w.db.payments| {
        assert PaymentOk(w, r);
        assert v.db.payments[r] == w.db.payments[r];
      }
    }
  }

  /** confirm_payment or fail_payment writes a payment state that the provider gate allowed. The
      row is never in the other terminal state, because the provider's status is the opposite one. */
  lemma PaymentWriteKeepsTables(w: World, v: World, write: PaymentWrite)
    requires TablesOk(w) && write.row < |w.db.payments| && write.to == HookState(write.kind)
    requires var c := w.db.payments[write.row].charge;
             c < |w.charges| && w.charges[c].status == Some(write.kind) && w.charges[c].amount == w.db.payments[write.row].amount
    requires v.db == w.db.(payments := WritePayment(w.db.payments, Some(write)))
    requires v.traces == w.traces && v.charges == w.charges
    ensures TablesOk(v)
    ensures write.kind == Succeeded ==> HasSuccess(v, w.db.payments[write.row].order)
  {
    assert PaymentOk(w, write.row);
    forall o | 0 <= o < |v.db.orders| ensures OrderOk(v, o) {
      assert OrderOk(w, o);
      if HasSuccess(w, o) {
        var r :| 0 <= r < |w.db.payments| && w.db.payments[r].order == o && w.db.payments[r].state == Success;
        assert PaymentOk(w, r);
        assert v.db.payments[r].order == o && v.db.payments[r].state == Success;
      }
    }
    forall t | 0 <= t < |v.db.tickets| ensures TicketOk(v, t) {
      assert TicketOk(w, t);
    }
    forall r | 0 <= r < |v.db.payments| ensures PaymentOk(v, r) {
      assert PaymentOk(w, r);
    }
    if write.kind == Succeeded {
      assert v.db.payments[write.row].state == Success && v.db.payments[write.row].order == w.db.payments[write.row].order;
    }
  }

  /** A kitchen write along its edge; HANDED_OFF has no outgoing edge. */
  lemma TicketWriteKeepsTables(w: World, v: World, write: TicketWrite)
    requires TablesOk(w) && write.ticket < |w.db.tickets| && w.db.tickets[write.ticket].state == write.from
    requires write.from != HandedOff
    requires v.db == w.db.(tickets := WriteTicket(w.db.tickets, Some(write)))
    requires v.traces == w.traces && v.charges == w.charges
    ensures TablesOk(v)
  {
    forall o | 0 <= o < |v.db.orders| ensures OrderOk(v, o) {
      assert OrderOk(w, o);
      TicketCountSame(w.db.tickets, v.db.tickets, o);
      assert HasSuccess(w, o) ==> HasSuccess(v, o);
    }
    forall t | 0 <= t < |v.db.tickets| ensures TicketOk(v, t) {
      assert TicketOk(w, t);
    }
    forall r | 0 <= r < |v.db.payments| ensures PaymentOk(v, r) {
      assert PaymentOk(w, r);
    }
  }

  /** A DRAFT order inserted under a recorded key. */
  lemma NewOrderKeepsTables(w: World, v: World, req: Request)
    requires TablesOk(w) && CheckoutKey(req.key) in w.db.keys
    requires v.db == w.db.(orders := w.db.orders + [Order(req, Total(req), Draft)])
    requires v.traces == w.traces && v.charges == w.charges
    ensures TablesOk(v)
  {
    var n := |w.db.orders|;
    forall o | 0 <= o < |v.db.orders| ensures OrderOk(v, o) {
      if o < n {
        assert OrderOk(w, o);
        assert v.db.orders[o] == w.db.orders[o];
        assert HasSuccess(w, o) ==> HasSuccess(v, o);
      } else {
        forall t | 0 <= t < |w.db.tickets| ensures w.db.tickets[t].order != o {
          assert TicketOk(w, t);
        }
        NoTicketYet(w.db.tickets, o);
        NoRowsYet(w.db.ledger, o);
      }
    }
    forall t | 0 <= t < |v.db.tickets| ensures TicketOk(v, t) {
      assert TicketOk(w, t);
    }
    forall r | 0 <= r < |v.db.payments| ensures PaymentOk(v, r) {
      assert PaymentOk(w, r);
    }
  }

  lemma {:induction false} NoRowsYet(moves: seq<Movement>, o: nat)
    requires forall m :: m in moves ==> m.source != Some(o)
    ensures SaleRows(moves, o) == []
  {
    if moves != [] {
      NoRowsYet(moves[..|moves| - 1], o);
    }
  }

  lemma {:induction false} NoTicketYet(tickets: seq<Ticket>, o: nat)
    requires forall t :: 0 <= t < |tickets| ==> tickets[t].order != o
    ensures TicketCount(tickets, o) == 0
  {
    if tickets != [] {
      NoTicketYet(tickets[..|tickets| - 1], o);
    }
  }

  /** Recording or answering an idempotency key. */
  lemma KeyWriteKeepsTables(w: World, v: World, key: Key, payload: Payload)
    requires TablesOk(w) && v.db == w.db.(keys := w.db.keys[key := payload])
    requires v.traces == w.traces && v.charges == w.charges
    ensures TablesOk(v)
  {
    forall o | 0 <= o < |v.db.orders| ensures OrderOk(v, o) {
      assert OrderOk(w, o);
      assert HasSuccess(w, o) ==> HasSuccess(v, o);
    }
    forall t | 0 <= t < |v.db.tickets| ensures TicketOk(v, t) {
      assert TicketOk(w, t);
    }
    forall r | 0 <= r < |v.db.payments| ensures PaymentOk(v, r) {
      assert PaymentOk(w, r);
    }
  }

  /** The provider's and the trace list's own steps: a new trace, a new open charge, a settlement. */
  lemma OutsideKeepsTables(w: World, v: World)
    requires TablesOk(w) && v.db == w.db
    requires |w.traces| <= |v.traces| && (forall t :: 0 <= t < |w.traces| ==> v.traces[t] == w.traces[t])
    requires forall t :: |w.traces| <= t < |v.traces| ==> v.traces[t] < |w.db.orders|
    requires |w.charges| <= |v.charges|
    requires forall c :: 0 <= c < |w.charges| ==>
      && v.charges[c].trace == w.charges[c].trace && v.charges[c].amount == w.charges[c].amount
      && (w.charges[c].status.Some? ==> v.charges[c].status == w.charges[c].status)
    requires forall c :: |w.charges| <= c < |v.charges| ==> v.charges[c].trace < |v.traces|
    ensures TablesOk(v)
  {
    forall o | 0 <= o < |v.db.orders| ensures OrderOk(v, o) {
      assert OrderOk(w, o);
      assert HasSuccess(w, o) ==> HasSuccess(v, o);
    }
    forall t | 0 <= t < |v.db.tickets| ensures TicketOk(v, t) {
      assert TicketOk(w, t);
    }
    forall r | 0 <= r < |v.db.payments| ensures PaymentOk(v, r) {
      assert PaymentOk(w, r);
    }
  }
}
