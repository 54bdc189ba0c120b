/** The order, payment and kitchen protocol as a machine of interleaved steps.

    The environment is PostgreSQL at Read Committed (section 13.2.1 of its manual) with row locks
    (section 13.3.2): an unlocked read sees the latest committed row, SELECT ... FOR UPDATE waits
    until no other open transaction holds the row, and an open transaction's writes are seen by
    nobody until it commits. A transaction is therefore a buffer (`Tx`) that also says which rows
    it has locked; committing applies the buffer, leaving without a commit drops it. */
module Protocol {
  import opened Wrappers
  import opened OrderModel
  import opened Ledger
  import opened Money

  /** A validated checkout body together with what the unlocked catalogue reads returned:
      the frozen priced items, the promo effect and the zone's fee. */
  datatype Request = Request(key: string, items: seq<Item>, pickup: bool, online: bool,
                             promo: Option<PromoEffect>, zoneFee: Option<nat>)

  function Total(r: Request): int {
    CheckoutTotal(r.items, r.pickup, r.promo, r.zoneFee)
  }

  datatype Order = Order(req: Request, total: int, state: OrderState)

  datatype Ticket = Ticket(order: nat, state: KitchenState)

  datatype Amount = Amount(value: int, currency: string)

  datatype PaymentState = Pending | Success | Failed

  /** A local payments row; `charge` is its provider_id. */
  datatype Payment = Payment(order: nat, charge: nat, amount: Amount, state: PaymentState)

  /** A terminal status of a payment object at the provider. */
  datatype Settlement = Succeeded | Canceled

  /** The provider's own payment object, with the trace id this server put in its metadata. */
  datatype Charge = Charge(trace: nat, amount: Amount, status: Option<Settlement>)

  /** idempotency_keys.key: the checkout prefix and the two webhook suffixes. */
  datatype Key = CheckoutKey(client: string) | HookKey(trace: nat, kind: Settlement)

  /** idempotency_keys.payload: as first inserted, or with the finished order's answer. */
  datatype Payload = Started | Saved(order: nat, token: string, url: string)

  /** The committed tables. Row ids are positions, so a fresh id is the table's length. */
  datatype Db = Db(orders: seq<Order>, tickets: seq<Ticket>, payments: seq<Payment>,
                   keys: map<Key, Payload>, catalog: map<nat, string>,
                   stock: map<string, int>, ledger: seq<Movement>)

  datatype OrderWrite = OrderWrite(order: nat, from: OrderState, event: OrderEvent, to: OrderState)

  datatype TicketWrite = TicketWrite(ticket: nat, from: KitchenState, to: KitchenState)

  datatype PaymentWrite = PaymentWrite(row: nat, to: PaymentState, trace: nat, kind: Settlement)

  /** An open transaction: its buffered writes. Holding a write on an order, a ticket or a sku
      means holding that row's lock. */
  datatype Tx = Tx(order: Option<OrderWrite>, ticket: Option<TicketWrite>, newTicket: Option<nat>,
                   moves: seq<Movement>, newPayment: Option<Payment>, payment: Option<PaymentWrite>)

  const Empty := Tx(None, None, None, [], None, None)

  /** Who awaits a transition's result, and so what runs after it. */
  datatype Caller =
    | Dispatch                                    // a staff button
    | CheckoutConfirm(req: Request)
    | CheckoutRequest(req: Request)
    | CheckoutCook(req: Request)                  // cash checkout
    | PaidCook                                    // confirm_payment's auto-advance
    | KitchenPack(ticket: nat, pickup: bool)      // hand-off cascade
    | KitchenClose

  /** Where OrderService.transition_order stands. */
  datatype Phase =
    | Begin
    | Planned(read: OrderState)                   // unlocked read done, program chosen
    | Reserving(read: OrderState, next: nat)      // START_COOKING: `next` lines already handled
    | WriteCooking(read: OrderState)              // ticket inserted
    | Written(read: OrderState)                   // state write buffered under the lock

  /** Who called PaymentService.create_payment. */
  datatype Payer = ForCheckout(req: Request) | ForPay

  datatype Job =
    | Finished
    | CheckoutStart(req: Request)
    | CheckoutReplay(req: Request)
    | CheckoutCreate(req: Request)
    | CheckoutSave(req: Request, order: nat, token: string, url: string)
    | CheckoutReply(key: string, order: nat, token: string, url: string)
    | Transition(order: nat, event: OrderEvent, phase: Phase, caller: Caller)
    | PayGuard(order: nat, amount: int)
    | PayCall(order: nat, amount: int, payer: Payer)
    | PayInsert(order: nat, amount: int, charge: nat, token: string, url: string, payer: Payer)
    | PayLock(order: nat, charge: nat, read: OrderState, token: string, url: string, payer: Payer)
    | PayCommit(order: nat, charge: nat, read: OrderState, token: string, url: string, payer: Payer)
    | HookGate(kind: Settlement, trace: nat, charge: nat)
    | HookVerify(kind: Settlement, trace: nat, charge: nat, remote: Charge)
    | HookRecord(kind: Settlement, trace: nat, charge: nat)
    | HookPayment(kind: Settlement, trace: nat, charge: nat)
    | HookOrder(kind: Settlement, trace: nat, charge: nat)
    | HookLock(kind: Settlement, trace: nat, charge: nat, read: OrderState)
    | HookCommit(kind: Settlement, trace: nat, charge: nat, read: OrderState)
    | TicketBegin(ticket: nat, kitchenEvent: KitchenEvent)
    | TicketLock(ticket: nat, kitchenEvent: KitchenEvent)
    | TicketCommit(ticket: nat, kitchenEvent: KitchenEvent)
    | HandOffRead(ticket: nat)

  datatype Proc = Proc(job: Job, tx: Tx)

  /** Audit trail: one entry per committed change of orders.state, with the new_state that the
      transition reported to its caller. */
  datatype Change = Change(order: nat, from: OrderState, event: OrderEvent, to: OrderState, reported: OrderState)

  /** One successful checkout response. */
  datatype Reply = Reply(key: string, order: nat, token: Option<string>, url: Option<string>)

  /** `traces` is the in-memory trace list: position = trace id, element = order id. */
  datatype World = World(db: Db, traces: seq<nat>, charges: seq<Charge>, procs: seq<Proc>,
                         changes: seq<Change>, payWrites: seq<PaymentWrite>, replies: seq<Reply>)

  /** What the environment does during a step. */
  datatype Choice =
    | Go
    | DbError                                      // the database aborts the transaction (e.g. a deadlock)
    | ProviderDown
    | ProviderSays(charged: Amount, token: string, url: string)

  datatype Action =
    | ArriveCheckout(req: Request)
    | ArrivePay(order: nat, amount: int)
    | ArriveWebhook(kind: Settlement, trace: nat, charge: nat)
    | ArriveStaff(role: StaffRole, order: nat, orderEvent: OrderEvent)
    | ArriveKitchen(role: StaffRole, ticket: nat, kitchenEvent: KitchenEvent)
    | Step(proc: nat, choice: Choice)
    | Crash(proc: nat)                             // the request dies; its session is left uncommitted
    | Settle(charge: nat, outcome: Settlement)     // the provider reaches a terminal status
    | AdjustStock(sku: string, delta: int, reason: Reason)  // an admin or agent writer's whole transaction

  // ----- locks ---------------------------------------------------------------------------------

  predicate HoldsOrder(p: Proc, order: nat) {
    p.tx.order.Some? && p.tx.order.value.order == order
  }

  predicate HoldsTicket(p: Proc, ticket: nat) {
    p.tx.ticket.Some? && p.tx.ticket.value.ticket == ticket
  }

  predicate HoldsSku(p: Proc, sku: string) {
    exists k :: 0 <= k < |p.tx.moves| && p.tx.moves[k].sku == sku
  }

  predicate OrderFree(w: World, i: nat, order: nat) {
    forall j :: 0 <= j < |w.procs| && j != i ==> !HoldsOrder(w.procs[j], order)
  }

  predicate TicketFree(w: World, i: nat, ticket: nat) {
    forall j :: 0 <= j < |w.procs| && j != i ==> !HoldsTicket(w.procs[j], ticket)
  }

  predicate SkuFree(w: World, i: nat, sku: string) {
    forall j :: 0 <= j < |w.procs| && j != i ==> !HoldsSku(w.procs[j], sku)
  }

  // ----- committing ------------------------------------------------------------------------------

  function WriteOrder(orders: seq<Order>, write: Option<OrderWrite>): seq<Order> {
    if write.Some? && write.value.order < |orders| then
      orders[write.value.order := orders[write.value.order].(state := write.value.to)]
    else orders
  }

  function WriteTicket(tickets: seq<Ticket>, write: Option<TicketWrite>): seq<Ticket> {
    if write.Some? && write.value.ticket < |tickets| then
      tickets[write.value.ticket := tickets[write.value.ticket].(state := write.value.to)]
    else tickets
  }

  function WritePayment(rows: seq<Payment>, write: Option<PaymentWrite>): seq<Payment> {
    if write.Some? && write.value.row < |rows| then
      rows[write.value.row := rows[write.value.row].(state := write.value.to)]
    else rows
  }

  function Insert<T>(rows: seq<T>, row: Option<T>): seq<T> {
    if row.Some? then rows + [row.value] else rows
  }

  function NewTicket(tx: Tx): Option<Ticket> {
    match tx.newTicket
    case Some(order) => Some(Ticket(order, New))
    case None => None
  }

  function Commit(db: Db, tx: Tx): Db {
    db.(orders := WriteOrder(db.orders, tx.order),
        tickets := Insert(WriteTicket(db.tickets, tx.ticket), NewTicket(tx)),
        payments := Insert(WritePayment(db.payments, tx.payment), tx.newPayment),
        stock := AfterMoves(db.stock, tx.moves),
        ledger := db.ledger + tx.moves)
  }

  /** The world after process i commits, before it goes on; `reported` is the transition's new_state. */
  function Committed(w: World, i: nat, reported: OrderState): World
    requires i < |w.procs|
  {
    var tx := w.procs[i].tx;
    w.(db := Commit(w.db, tx),
       changes := match tx.order
                  case Some(c) => w.changes + [Change(c.order, c.from, c.event, c.to, reported)]
                  case None => w.changes,
       payWrites := Insert(w.payWrites, tx.payment))
  }

  // ----- one process -----------------------------------------------------------------------------

  function Put(w: World, i: nat, job: Job, tx: Tx): World
    requires i < |w.procs|
  {
    w.(procs := w.procs[i := Proc(job, tx)])
  }

  /** Leave the session (dropping the buffer, or after a commit) and go on with `job`. */
  function Goto(w: World, i: nat, job: Job): World
    requires i < |w.procs|
  {
    Put(w, i, job, Empty)
  }

  /** The job that follows a transition that returned success = ok. */
  function AfterTransition(order: nat, total: int, caller: Caller, ok: bool): Job {
    match caller
    case Dispatch => Finished
    case CheckoutConfirm(req) =>
      if req.online then Transition(order, RequestPayment, Begin, CheckoutRequest(req))
      else Transition(order, StartCooking, Begin, CheckoutCook(req))
    case CheckoutRequest(req) => PayCall(order, total, ForCheckout(req))
    case CheckoutCook(req) => CheckoutSave(req, order, "", "")
    case PaidCook => Finished
    case KitchenPack(ticket, pickup) =>
      if ok && pickup then Transition(order, Close, Begin, KitchenClose) else Finished
    case KitchenClose => Finished
  }

  /** OrderService.transition_order, one interaction with the database per step. */
  function StepTransition(w: World, i: nat, choice: Choice): World
    requires i < |w.procs| && w.procs[i].job.Transition?
  {
    var Transition(o, e, phase, caller) := w.procs[i].job;
    var tx := w.procs[i].tx;
    if o >= |w.db.orders| then Goto(w, i, Finished)
    else
      var now := w.db.orders[o].state;
      var total := w.db.orders[o].total;
      var rejected := Goto(w, i, AfterTransition(o, total, caller, false));
      if choice == DbError && phase != Begin then rejected
      else match phase
        case Begin =>
          if Next(now, e).None? then rejected
          else if e == StartCooking then Put(w, i, Transition(o, e, Reserving(now, 0), caller), tx)
          else Put(w, i, Transition(o, e, Planned(now), caller), tx)
        case Planned(read) =>
          (match Next(read, e)
           case None => rejected
           case Some(to) =>
             var program := SimpleProgram(e, read, to);
             if !OrderFree(w, i, o) then w
             else if now != program.0 then rejected
             else Put(w, i, Transition(o, e, Written(read), caller),
                      tx.(order := Some(OrderWrite(o, program.0, e, program.1)))))
        case Reserving(read, k) =>
          var items := w.db.orders[o].req.items;
          if k >= |items| then Put(w, i, Transition(o, e, WriteCooking(read), caller), tx.(newTicket := Some(o)))
          else
            var sku := Resolve(w.db.catalog, items[k]);
            if sku == "" || sku !in w.db.stock then Put(w, i, Transition(o, e, Reserving(read, k + 1), caller), tx)
            else if !SkuFree(w, i, sku) then w
            else Put(w, i, Transition(o, e, Reserving(read, k + 1), caller),
                     tx.(moves := tx.moves + [SaleMove(w.db.stock, tx.moves, sku, items[k].qty, o)]))
        case WriteCooking(read) =>
          if !OrderFree(w, i, o) then w
          else if now != Paid && now != Confirmed then rejected
          else Put(w, i, Transition(o, e, Written(read), caller), tx.(order := Some(OrderWrite(o, now, e, Cooking))))
        case Written(read) =>
          (match Next(read, e)
           case None => rejected
           case Some(reported) =>
             Goto(Committed(w, i, reported), i, AfterTransition(o, total, caller, true)))
  }

  /** The checkout route from the key insert to the response. */
  function StepCheckout(w: World, i: nat): World
    requires i < |w.procs|
  {
    var job := w.procs[i].job;
    match job
    case CheckoutStart(req) =>
      if CheckoutKey(req.key) in w.db.keys then Goto(w, i, CheckoutReplay(req))
      else Goto(w.(db := w.db.(keys := w.db.keys[CheckoutKey(req.key) := Started])), i, CheckoutCreate(req))
    case CheckoutReplay(req) =>
      (if CheckoutKey(req.key) !in w.db.keys then Goto(w, i, Finished)
       else match w.db.keys[CheckoutKey(req.key)]
         case Started => Goto(w, i, Finished)  // 409: still being processed
         case Saved(order, token, url) => Goto(Replied(w, req.key, order, token, url), i, Finished))
    case CheckoutCreate(req) =>
      Goto(w.(db := w.db.(orders := w.db.orders + [Order(req, Total(req), Draft)])), i,
           Transition(|w.db.orders|, Confirm, Begin, CheckoutConfirm(req)))
    case CheckoutSave(req, order, token, url) =>
      Goto(w.(db := w.db.(keys := w.db.keys[CheckoutKey(req.key) := Saved(order, token, url)])), i,
           CheckoutReply(req.key, order, token, url))
    case CheckoutReply(key, order, token, url) => Goto(Replied(w, key, order, token, url), i, Finished)
    case _ => w
  }

  function NonEmpty(s: string): Option<string> {
    if s == "" then None else Some(s)
  }

  function Replied(w: World, key: string, order: nat, token: string, url: string): World {
    w.(replies := w.replies + [Reply(key, order, NonEmpty(token), NonEmpty(url))])
  }

  /** Whether a run of the generic state-write tool from the state read earlier writes anything. */
  function LockedWrite(w: World, order: nat, event: OrderEvent, read: OrderState): Option<OrderWrite> {
    match Next(read, event)
    case Some(to) =>
      if order < |w.db.orders| && w.db.orders[order].state == read then Some(OrderWrite(order, read, event, to)) else None
    case None => None
  }

  /** pay_order's guard and PaymentService.create_payment. */
  function StepPay(w: World, i: nat, choice: Choice): World
    requires i < |w.procs|
  {
    var job := w.procs[i].job;
    var tx := w.procs[i].tx;
    match job
    case PayGuard(order, amount) =>
      if order < |w.db.orders| && w.db.orders[order].state == Confirmed && amount == w.db.orders[order].total then
        Goto(w, i, PayCall(order, amount, ForPay))
      else Goto(w, i, Finished)
    case PayCall(order, amount, payer) =>
      (match choice
       case ProviderSays(charged, token, url) =>
         Goto(w.(traces := w.traces + [order], charges := w.charges + [Charge(|w.traces|, charged, None)]), i,
              PayInsert(order, amount, |w.charges|, token, url, payer))
       case _ => Goto(w.(traces := w.traces + [order]), i, Finished))  // 502
    case PayInsert(order, amount, charge, token, url, payer) =>
      if order >= |w.db.orders| then Goto(w, i, Finished)
      else Put(w, i, PayLock(order, charge, w.db.orders[order].state, token, url, payer),
               tx.(newPayment := Some(Payment(order, charge, Amount(amount, "RUB"), Pending))))
    case PayLock(order, charge, read, token, url, payer) =>
      if Next(read, RequestPayment).Some? && !OrderFree(w, i, order) then w
      else Put(w, i, PayCommit(order, charge, read, token, url, payer),
               tx.(order := LockedWrite(w, order, RequestPayment, read)))
    case PayCommit(order, charge, read, token, url, payer) =>
      Goto(Committed(w, i, PaymentPending), i,
           match payer
           case ForCheckout(req) => CheckoutSave(req, order, token, url)
           case ForPay => Finished)
    case _ => w
  }

  function HookEvent(kind: Settlement): OrderEvent {
    match kind case Succeeded => PaymentConfirmed case Canceled => PaymentFailed
  }

  function HookState(kind: Settlement): PaymentState {
    match kind case Succeeded => Success case Canceled => Failed
  }

  function HookTarget(kind: Settlement): OrderState {
    match kind case Succeeded => Paid case Canceled => Confirmed
  }

  /** Position of the local row with this provider id, or the table's length. */
  function FindPayment(rows: seq<Payment>, charge: nat): (r: nat)
    ensures r <= |rows|
    ensures r < |rows| ==> rows[r].charge == charge
    ensures forall k :: 0 <= k < r ==> rows[k].charge != charge
  {
    if rows == [] then 0
    else
      var r := FindPayment(rows[..|rows| - 1], charge);
      if r < |rows| - 1 then r
      else if rows[|rows| - 1].charge == charge then |rows| - 1 else |rows|
  }

  /** The webhook route, the provider gate, then confirm_payment or fail_payment. */
  function StepHook(w: World, i: nat): World
    requires i < |w.procs|
  {
    var job := w.procs[i].job;
    var tx := w.procs[i].tx;
    match job
    case HookGate(kind, trace, charge) =>
      if trace >= |w.traces| || charge >= |w.charges| then Goto(w, i, Finished)
      else Goto(w, i, HookVerify(kind, trace, charge, w.charges[charge]))
    case HookVerify(kind, trace, charge, remote) =>
      var row := FindPayment(w.db.payments, charge);
      if row < |w.db.payments| && remote.status == Some(kind) && remote.amount == w.db.payments[row].amount then
        Goto(w, i, HookRecord(kind, trace, charge))
      else Goto(w, i, Finished)
    case HookRecord(kind, trace, charge) =>
      if HookKey(trace, kind) in w.db.keys then Goto(w, i, Finished)
      else Goto(w.(db := w.db.(keys := w.db.keys[HookKey(trace, kind) := Started])), i, HookPayment(kind, trace, charge))
    case HookPayment(kind, trace, charge) =>
      var row := FindPayment(w.db.payments, charge);
      if row >= |w.db.payments| then Goto(w, i, Finished)
      else
        var local := w.db.payments[row].state;
        if local == Success || (kind == Canceled && local == Failed) then Goto(w, i, Finished)
        else Put(w, i, HookOrder(kind, trace, charge),
                 tx.(payment := Some(PaymentWrite(row, HookState(kind), trace, kind))))
    case HookOrder(kind, trace, charge) =>
      if trace >= |w.traces| || w.traces[trace] >= |w.db.orders| then Goto(w, i, Finished)
      else Put(w, i, HookLock(kind, trace, charge, w.db.orders[w.traces[trace]].state), tx)
    case HookLock(kind, trace, charge, read) =>
      if trace >= |w.traces| then Goto(w, i, Finished)
      else
        var order := w.traces[trace];
        if Next(read, HookEvent(kind)).Some? && !OrderFree(w, i, order) then w
        else Put(w, i, HookCommit(kind, trace, charge, read),
                 tx.(order := LockedWrite(w, order, HookEvent(kind), read)))
    case HookCommit(kind, trace, charge, read) =>
      if trace >= |w.traces| then Goto(w, i, Finished)
      else
        Goto(Committed(w, i, HookTarget(kind)), i,
             if kind == Succeeded && tx.order.Some? then Transition(w.traces[trace], StartCooking, Begin, PaidCook)
             else Finished)
    case _ => w
  }

  /** KitchenService.transition_ticket and the read that opens the hand-off cascade. */
  function StepTicket(w: World, i: nat): World
    requires i < |w.procs|
  {
    var job := w.procs[i].job;
    match job
    case TicketBegin(t, e) =>
      if t >= |w.db.tickets| || KitchenNext(w.db.tickets[t].state, e).None? then Goto(w, i, Finished)
      else Goto(w, i, TicketLock(t, e))
    case TicketLock(t, e) =>
      if t >= |w.db.tickets| then Goto(w, i, Finished)
      else if !TicketFree(w, i, t) then w
      else
        var from := ExpectedTicketState(e);
        (match KitchenNext(from, e)
         case Some(to) =>
           if w.db.tickets[t].state != from then Goto(w, i, Finished)
           else Put(w, i, TicketCommit(t, e), Empty.(ticket := Some(TicketWrite(t, from, to))))
         case None => Goto(w, i, Finished))
    case TicketCommit(t, e) =>
      Goto(w.(db := Commit(w.db, w.procs[i].tx)), i, if e == HandOff then HandOffRead(t) else Finished)
    case HandOffRead(t) =>
      if t >= |w.db.tickets| || w.db.tickets[t].order >= |w.db.orders| then Goto(w, i, Finished)
      else
        var order := w.db.tickets[t].order;
        Goto(w, i, Transition(order, StartPacking, Begin, KitchenPack(t, w.db.orders[order].req.pickup)))
    case _ => w
  }

  function StepProc(w: World, i: nat, choice: Choice): World {
    if i >= |w.procs| then w
    else match w.procs[i].job
      case Finished => w
      case CheckoutStart(_) => StepCheckout(w, i)
      case CheckoutReplay(_) => StepCheckout(w, i)
      case CheckoutCreate(_) => StepCheckout(w, i)
      case CheckoutSave(_, _, _, _) => StepCheckout(w, i)
      case CheckoutReply(_, _, _, _) => StepCheckout(w, i)
      case Transition(_, _, _, _) => StepTransition(w, i, choice)
      case PayGuard(_, _) => StepPay(w, i, choice)
      case PayCall(_, _, _) => StepPay(w, i, choice)
      case PayInsert(_, _, _, _, _, _) => StepPay(w, i, choice)
      case PayLock(_, _, _, _, _, _) => StepPay(w, i, choice)
      case PayCommit(_, _, _, _, _, _) => StepPay(w, i, choice)
      case TicketBegin(_, _) => StepTicket(w, i)
      case TicketLock(_, _) => StepTicket(w, i)
      case TicketCommit(_, _) => StepTicket(w, i)
      case HandOffRead(_) => StepTicket(w, i)
      case _ => StepHook(w, i)
  }

  // ----- runs --------------------------------------------------------------------------------------

  function Arrive(w: World, job: Job): World {
    w.(procs := w.procs + [Proc(job, Empty)])
  }

  /** The whole transaction of a restock, decrement or stock-take tool: the inventory row is locked,
      changed by `delta` and recorded in one movement row. */
  function StockWriter(w: World, sku: string, delta: int, reason: Reason): World {
    if sku !in w.db.stock || reason == Sale || !SkuFree(w, |w.procs|, sku) then w
    else w.(db := Commit(w.db, Empty.(moves := [Movement(sku, delta, reason, None, false)])))
  }

  function Apply(w: World, a: Action): World {
    match a
    case ArriveCheckout(req) => if req.items == [] then w else Arrive(w, CheckoutStart(req))
    case ArrivePay(order, amount) => Arrive(w, PayGuard(order, amount))
    case ArriveWebhook(kind, trace, charge) =>
      // A notification's trace id and payment id come from one create_payment call.
      if charge < |w.charges| && w.charges[charge].trace == trace then Arrive(w, HookGate(kind, trace, charge)) else w
    case ArriveStaff(role, order, e) =>
      if RoleMayFire(role, e) then Arrive(w, Transition(order, e, Begin, Dispatch)) else w
    case ArriveKitchen(role, ticket, e) => if RoleMayCook(role) then Arrive(w, TicketBegin(ticket, e)) else w
    case Step(i, choice) => StepProc(w, i, choice)
    case Crash(i) => if i < |w.procs| then Goto(w, i, Finished) else w
    case Settle(c, outcome) =>
      if c < |w.charges| && w.charges[c].status == None then
        w.(charges := w.charges[c := w.charges[c].(status := Some(outcome))])
      else w
    case AdjustStock(sku, delta, reason) => StockWriter(w, sku, delta, reason)
  }

  function Run(w: World, actions: seq<Action>): World
    decreases |actions|
  {
    if actions == [] then w else Run(Apply(w, actions[0]), actions[1..])
  }

  /** Nothing ordered yet; any catalogue and any stock. */
  function Initial(catalog: map<nat, string>, stock: map<string, int>): World {
    World(Db([], [], [], map[], catalog, stock, []), [], [], [], [], [], [])
  }
}
