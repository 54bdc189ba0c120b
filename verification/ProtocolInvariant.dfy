/** What every reachable state of the protocol satisfies. */
module ProtocolInvariant {
  import opened Wrappers
  import opened OrderModel
  import opened Ledger
  import opened Money
  import opened Protocol

  // ----- committed tables --------------------------------------------------------------------------

  /** Number of kitchen tickets of one order. */
  function TicketCount(tickets: seq<Ticket>, order: nat): nat {
    if tickets == [] then 0
    else TicketCount(tickets[..|tickets| - 1], order) + if tickets[|tickets| - 1].order == order then 1 else 0
  }

  ghost predicate HasSuccess(w: World, o: nat) {
    exists r :: 0 <= r < |w.db.payments| && w.db.payments[r].order == o && w.db.payments[r].state == Success
  }

  ghost predicate OrderOk(w: World, o: nat)
    requires o < |w.db.orders|
  {
    var row := w.db.orders[o];
    && row.total == Total(row.req)
    && CheckoutKey(row.req.key) in w.db.keys
    && TicketCount(w.db.tickets, o) == (if CookingOrLater(row.state) then 1 else 0)
    && SaleRows(w.db.ledger, o) ==
       (if CookingOrLater(row.state) then Plan(w.db.catalog, w.db.stock.Keys, row.req.items) else [])
    && (row.state == Closed ==> row.req.pickup)
    && (row.req.online && PaidOrLater(row.state) ==> HasSuccess(w, o))
  }

  ghost predicate TicketOk(w: World, t: nat)
    requires t < |w.db.tickets|
  {
    var row := w.db.tickets[t];
    row.order < |w.db.orders| && (PackingOrLater(w.db.orders[row.order].state) ==> row.state == HandedOff)
  }

  ghost predicate PaymentOk(w: World, r: nat)
    requires r < |w.db.payments|
  {
    var row := w.db.payments[r];
    && row.order < |w.db.orders|
    && row.charge < |w.charges|
    && w.charges[row.charge].trace < |w.traces|
    && w.traces[w.charges[row.charge].trace] == row.order
    && row.amount == Amount(w.db.orders[row.order].total, "RUB")
    && (row.state == Success ==> w.charges[row.charge].status == Some(Succeeded) && w.charges[row.charge].amount == row.amount)
    && (row.state == Failed ==> w.charges[row.charge].status == Some(Canceled))
  }

  ghost predicate TablesOk(w: World) {
    && (forall o :: 0 <= o < |w.db.orders| ==> OrderOk(w, o))
    && (forall t :: 0 <= t < |w.db.tickets| ==> TicketOk(w, t))
    && (forall r :: 0 <= r < |w.db.payments| ==> PaymentOk(w, r))
    && (forall c :: 0 <= c < |w.charges| ==> w.charges[c].trace < |w.traces|)
    && (forall t :: 0 <= t < |w.traces| ==> w.traces[t] < |w.db.orders|)
    && SourcesKnown(w.db)
  }

  ghost predicate SourcesKnown(db: Db) {
    forall m :: m in db.ledger && m.source.Some? ==> m.source.value < |db.orders|
  }

  ghost predicate StockOk(w: World, start: map<string, int>) {
    && w.db.stock.Keys == start.Keys
    && (forall s :: s in start ==> w.db.stock[s] == start[s] + Net(w.db.ledger, s))
    && FlagsTruthful(start, w.db.ledger)
  }

  // ----- audit trail -------------------------------------------------------------------------------

  function ChangeCount(changes: seq<Change>, o: nat): nat {
    if changes == [] then 0
    else ChangeCount(changes[..|changes| - 1], o) + if changes[|changes| - 1].order == o then 1 else 0
  }

  function FailureCount(changes: seq<Change>, o: nat): nat {
    if changes == [] then 0
    else
      var last := changes[|changes| - 1];
      FailureCount(changes[..|changes| - 1], o) + if last.order == o && last.event == PaymentFailed then 1 else 0
  }

  function LastState(changes: seq<Change>, o: nat): OrderState {
    if changes == [] then Draft
    else
      var last := changes[|changes| - 1];
      if last.order == o then last.to else LastState(changes[..|changes| - 1], o)
  }

  predicate ChangeOk(c: Change) {
    Next(c.from, c.event) == Some(c.to) && c.reported == c.to
  }

  /** Every entry is an edge of the graph from the state the order was left in, and is reported truthfully. */
  ghost predicate Path(changes: seq<Change>) {
    forall k :: 0 <= k < |changes| ==>
      ChangeOk(changes[k]) && changes[k].from == LastState(changes[..k], changes[k].order)
  }

  ghost predicate HistoryOk(w: World) {
    && Path(w.changes)
    && (forall k :: 0 <= k < |w.changes| ==> w.changes[k].order < |w.db.orders|)
    && (forall o :: 0 <= o < |w.db.orders| ==>
         && LastState(w.changes, o) == w.db.orders[o].state
         && ChangeCount(w.changes, o) <= Rank(w.db.orders[o].state) + 2 * FailureCount(w.changes, o))
  }

  // ----- processes -----------------------------------------------------------------------------------

  ghost predicate IsOrderOf(w: World, o: nat, req: Request) {
    o < |w.db.orders| && w.db.orders[o].req == req
  }

  /** Why this caller may fire this event on this order. */
  ghost predicate CallerOk(w: World, o: nat, e: OrderEvent, caller: Caller) {
    match caller
    case Dispatch => e in {AssignCourier, Pickup, Deliver, Cancel}
    case CheckoutConfirm(req) => e == Confirm && IsOrderOf(w, o, req)
    case CheckoutRequest(req) => e == RequestPayment && IsOrderOf(w, o, req)
    case CheckoutCook(req) => e == StartCooking && IsOrderOf(w, o, req) && !req.online
    case PaidCook =>
      && e == StartCooking && o < |w.db.orders|
      && (PaidOrLater(w.db.orders[o].state) || w.db.orders[o].state == Cancelled)
    case KitchenPack(t, pickup) =>
      && e == StartPacking && o < |w.db.orders| && w.db.orders[o].req.pickup == pickup
      && t < |w.db.tickets| && w.db.tickets[t].order == o && w.db.tickets[t].state == HandedOff
    case KitchenClose => e == Close && o < |w.db.orders| && w.db.orders[o].req.pickup
  }

  ghost predicate PhaseOk(w: World, o: nat, e: OrderEvent, phase: Phase) {
    match phase
    case Begin => true
    case Planned(read) => o < |w.db.orders| && e != StartCooking && Next(read, e).Some?
    case Reserving(read, k) =>
      o < |w.db.orders| && e == StartCooking && Next(read, e).Some? && k <= |w.db.orders[o].req.items|
    case WriteCooking(read) => o < |w.db.orders| && e == StartCooking && Next(read, e).Some?
    case Written(read) => o < |w.db.orders| && Next(read, e).Some?
  }

  ghost predicate PayerOk(w: World, o: nat, payer: Payer) {
    o < |w.db.orders| && (payer.ForCheckout? ==> w.db.orders[o].req == payer.req)
  }

  ghost predicate ChargeOf(w: World, charge: nat, order: nat) {
    charge < |w.charges| && w.charges[charge].trace < |w.traces| && w.traces[w.charges[charge].trace] == order
  }

  ghost predicate Linked(w: World, trace: nat, charge: nat) {
    charge < |w.charges| && w.charges[charge].trace == trace
  }

  /** The gate has been passed: the provider settled this charge as `kind`, for the recorded amount. */
  ghost predicate Verified(w: World, kind: Settlement, trace: nat, charge: nat) {
    && Linked(w, trace, charge)
    && w.charges[charge].status == Some(kind)
    && exists r :: 0 <= r < |w.db.payments| && w.db.payments[r].charge == charge
                   && w.db.payments[r].amount == w.charges[charge].amount
  }

  /** What a process knows from its earlier reads; nothing here can be invalidated by others. */
  ghost predicate JobOk(w: World, job: Job) {
    match job
    case CheckoutSave(req, o, _, _) => IsOrderOf(w, o, req)
    case CheckoutReply(key, o, token, url) =>
      CheckoutKey(key) in w.db.keys && w.db.keys[CheckoutKey(key)] == Saved(o, token, url)
    case Transition(o, e, phase, caller) => CallerOk(w, o, e, caller) && PhaseOk(w, o, e, phase)
    case PayCall(o, amount, payer) => PayerOk(w, o, payer) && amount == w.db.orders[o].total
    case PayInsert(o, amount, c, _, _, payer) =>
      PayerOk(w, o, payer) && amount == w.db.orders[o].total && ChargeOf(w, c, o)
    case PayLock(o, c, _, _, _, payer) => PayerOk(w, o, payer) && ChargeOf(w, c, o)
    case PayCommit(o, c, _, _, _, payer) => PayerOk(w, o, payer) && ChargeOf(w, c, o)
    case HookGate(_, trace, c) => Linked(w, trace, c)
    case HookVerify(_, trace, c, remote) =>
      && Linked(w, trace, c)
      && remote.amount == w.charges[c].amount
      && (remote.status.Some? ==> w.charges[c].status == remote.status)
    case HookRecord(kind, trace, c) => Verified(w, kind, trace, c)
    case HookPayment(kind, trace, c) => Verified(w, kind, trace, c)
    case HookOrder(kind, trace, c) => Verified(w, kind, trace, c)
    case HookLock(kind, trace, c, _) => Verified(w, kind, trace, c)
    case HookCommit(kind, trace, c, _) => Verified(w, kind, trace, c)
    case TicketCommit(t, _) => t < |w.db.tickets|
    case HandOffRead(t) => t < |w.db.tickets| && w.db.tickets[t].state == HandedOff
    case _ => true
  }

  /** A buffered order write: the locked row still has the state that was checked. */
  ghost predicate WriteOk(w: World, write: OrderWrite, o: nat, e: OrderEvent) {
    && write.order == o && write.event == e
    && o < |w.db.orders| && w.db.orders[o].state == write.from
    && Next(write.from, e) == Some(write.to)
  }

  /** Buffered SALE rows for the first k lines of order o. */
  ghost predicate ReservedOk(w: World, o: nat, k: nat, moves: seq<Movement>) {
    && o < |w.db.orders| && k <= |w.db.orders[o].req.items|
    && SaleRows(moves, o) == Plan(w.db.catalog, w.db.stock.Keys, w.db.orders[o].req.items[..k])
    && (forall m :: m in moves ==> m.reason == Sale && m.source == Some(o))
    && FlagsTruthful(w.db.stock, moves)
  }

  ghost predicate PaymentWriteOk(w: World, write: PaymentWrite, kind: Settlement, trace: nat, charge: nat) {
    && write.to == HookState(kind) && write.trace == trace && write.kind == kind
    && write.row < |w.db.payments| && w.db.payments[write.row].charge == charge
  }

  /** The buffered writes of a process: exactly what its program has done so far. */
  ghost predicate TxOk(w: World, p: Proc) {
    var tx := p.tx;
    match p.job
    case Transition(o, e, phase, _) =>
      (match phase
       case Begin => tx == Empty
       case Planned(_) => tx == Empty
       case Reserving(_, k) => tx == Empty.(moves := tx.moves) && ReservedOk(w, o, k, tx.moves)
       case WriteCooking(_) =>
         && tx == Empty.(moves := tx.moves, newTicket := Some(o))
         && o < |w.db.orders| && ReservedOk(w, o, |w.db.orders[o].req.items|, tx.moves)
       case Written(read) =>
         && tx.order.Some? && WriteOk(w, tx.order.value, o, e)
         && Next(read, e) == Some(tx.order.value.to)
         && (if e == StartCooking then
               && tx == Empty.(order := tx.order, moves := tx.moves, newTicket := Some(o))
               && ReservedOk(w, o, |w.db.orders[o].req.items|, tx.moves)
             else tx == Empty.(order := tx.order)))
    case PayLock(o, c, _, _, _, _) =>
      && o < |w.db.orders|
      && tx == Empty.(newPayment := Some(Payment(o, c, Amount(w.db.orders[o].total, "RUB"), Pending)))
    case PayCommit(o, c, _, _, _, _) =>
      && o < |w.db.orders|
      && tx == Empty.(newPayment := Some(Payment(o, c, Amount(w.db.orders[o].total, "RUB"), Pending)), order := tx.order)
      && (tx.order.Some? ==> WriteOk(w, tx.order.value, o, RequestPayment))
    case HookOrder(kind, trace, c) =>
      tx.payment.Some? && tx == Empty.(payment := tx.payment) && PaymentWriteOk(w, tx.payment.value, kind, trace, c)
    case HookLock(kind, trace, c, _) =>
      tx.payment.Some? && tx == Empty.(payment := tx.payment) && PaymentWriteOk(w, tx.payment.value, kind, trace, c)
    case HookCommit(kind, trace, c, _) =>
      && tx.payment.Some? && tx == Empty.(payment := tx.payment, order := tx.order)
      && PaymentWriteOk(w, tx.payment.value, kind, trace, c)
      && (tx.order.Some? ==> trace < |w.traces| && WriteOk(w, tx.order.value, w.traces[trace], HookEvent(kind)))
    case TicketCommit(t, e) =>
      && tx.ticket.Some? && tx == Empty.(ticket := tx.ticket)
      && tx.ticket.value.ticket == t && t < |w.db.tickets|
      && tx.ticket.value.from == w.db.tickets[t].state == ExpectedTicketState(e)
      && KitchenNext(tx.ticket.value.from, e) == Some(tx.ticket.value.to)
    case _ => tx == Empty
  }

  ghost predicate ProcsOk(w: World) {
    forall i :: 0 <= i < |w.procs| ==> JobOk(w, w.procs[i].job) && TxOk(w, w.procs[i])
  }

  /** No row lock has two holders. */
  ghost predicate LocksOk(w: World) {
    forall i, j :: 0 <= i < |w.procs| && 0 <= j < |w.procs| && i != j ==> Disjoint(w.procs[i], w.procs[j])
  }

  ghost predicate Disjoint(p: Proc, q: Proc) {
    && (p.tx.order.Some? ==> !HoldsOrder(q, p.tx.order.value.order))
    && (p.tx.ticket.Some? ==> !HoldsTicket(q, p.tx.ticket.value.ticket))
    && (forall k :: 0 <= k < |p.tx.moves| ==> !HoldsSku(q, p.tx.moves[k].sku))
  }

  // ----- single ownership of keys and charges --------------------------------------------------------

  /** The idempotency key this process inserted and is still working under. */
  function OwnedKey(job: Job): Option<Key> {
    match job
    case CheckoutCreate(req) => Some(CheckoutKey(req.key))
    case CheckoutSave(req, _, _, _) => Some(CheckoutKey(req.key))
    case Transition(_, _, _, CheckoutConfirm(req)) => Some(CheckoutKey(req.key))
    case Transition(_, _, _, CheckoutRequest(req)) => Some(CheckoutKey(req.key))
    case Transition(_, _, _, CheckoutCook(req)) => Some(CheckoutKey(req.key))
    case PayCall(_, _, ForCheckout(req)) => Some(CheckoutKey(req.key))
    case PayInsert(_, _, _, _, _, ForCheckout(req)) => Some(CheckoutKey(req.key))
    case PayLock(_, _, _, _, _, ForCheckout(req)) => Some(CheckoutKey(req.key))
    case PayCommit(_, _, _, _, _, ForCheckout(req)) => Some(CheckoutKey(req.key))
    case HookPayment(kind, trace, _) => Some(HookKey(trace, kind))
    case HookOrder(kind, trace, _) => Some(HookKey(trace, kind))
    case HookLock(kind, trace, _, _) => Some(HookKey(trace, kind))
    case HookCommit(kind, trace, _, _) => Some(HookKey(trace, kind))
    case _ => None
  }

  /** The provider charge this process created and has not yet recorded locally. */
  function OwnedCharge(job: Job): Option<nat> {
    match job
    case PayInsert(_, _, c, _, _, _) => Some(c)
    case PayLock(_, c, _, _, _, _) => Some(c)
    case PayCommit(_, c, _, _, _, _) => Some(c)
    case _ => None
  }

  ghost predicate OwnerOk(w: World, job: Job) {
    && (OwnedKey(job).Some? ==>
         && OwnedKey(job).value in w.db.keys && w.db.keys[OwnedKey(job).value] == Started
         && forall k :: 0 <= k < |w.payWrites| ==> HookKey(w.payWrites[k].trace, w.payWrites[k].kind) != OwnedKey(job).value)
    && (job.CheckoutCreate? ==> forall o :: 0 <= o < |w.db.orders| ==> w.db.orders[o].req.key != job.req.key)
    && (OwnedCharge(job).Some? ==>
         && OwnedCharge(job).value < |w.charges|
         && forall r :: 0 <= r < |w.db.payments| ==> w.db.payments[r].charge != OwnedCharge(job).value)
  }

  ghost predicate OwnersDiffer(p: Job, q: Job) {
    && (OwnedKey(p).Some? ==> OwnedKey(p) != OwnedKey(q))
    && (OwnedCharge(p).Some? ==> OwnedCharge(p) != OwnedCharge(q))
  }

  ghost predicate OwnersOk(w: World) {
    && (forall i :: 0 <= i < |w.procs| ==> OwnerOk(w, w.procs[i].job))
    && (forall i, j :: 0 <= i < |w.procs| && 0 <= j < |w.procs| && i != j ==> OwnersDiffer(w.procs[i].job, w.procs[j].job))
  }

  ghost predicate ReplyOk(w: World, r: Reply) {
    && CheckoutKey(r.key) in w.db.keys
    && match w.db.keys[CheckoutKey(r.key)]
       case Started => false
       case Saved(o, token, url) => r.order == o && r.token == NonEmpty(token) && r.url == NonEmpty(url)
  }

  ghost predicate KeysOk(w: World) {
    && (forall a, b :: 0 <= a < b < |w.db.orders| ==> w.db.orders[a].req.key != w.db.orders[b].req.key)
    && (forall a, b :: 0 <= a < b < |w.db.payments| ==> w.db.payments[a].charge != w.db.payments[b].charge)
    && (forall k :: 0 <= k < |w.replies| ==> ReplyOk(w, w.replies[k]))
    && (forall k :: 0 <= k < |w.payWrites| ==> HookKey(w.payWrites[k].trace, w.payWrites[k].kind) in w.db.keys)
    && (forall a, b :: 0 <= a < b < |w.payWrites| ==>
         (w.payWrites[a].trace, w.payWrites[a].kind) != (w.payWrites[b].trace, w.payWrites[b].kind))
    && (forall key :: CheckoutKey(key) in w.db.keys && w.db.keys[CheckoutKey(key)].Saved? ==>
         var o := w.db.keys[CheckoutKey(key)].order; o < |w.db.orders| && w.db.orders[o].req.key == key)
  }

  ghost predicate Inv(w: World, start: map<string, int>) {
    TablesOk(w) && StockOk(w, start) && HistoryOk(w) && ProcsOk(w) && LocksOk(w) && OwnersOk(w) && KeysOk(w)
  }
}
