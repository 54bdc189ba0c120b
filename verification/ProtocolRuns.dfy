/** What a single step of a process may touch besides its own place. */
module ProtocolRuns {
  import opened Wrappers
  import opened OrderModel
  import opened Ledger
  import opened Protocol
  import opened ProtocolInvariant

  /** Payment rows change only when a transaction commits, and a payment write is logged then. */
  ghost predicate PaymentsMove(w: World, v: World, tx: Tx) {
    || (v.db.payments == w.db.payments && v.payWrites == w.payWrites)
    || (v.db.payments == Insert(WritePayment(w.db.payments, tx.payment), tx.newPayment)
        && v.payWrites == Insert(w.payWrites, tx.payment))
  }

  /** A process touches only the key it owns or a new one, and comes to own nothing but a new one. */
  ghost predicate KeysMove(w: World, v: World, i: nat)
    requires i < |w.procs|
  {
    var mine := OwnedKey(w.procs[i].job);
    && |v.procs| == |w.procs|
    && (forall j :: 0 <= j < |w.procs| && j != i ==> v.procs[j] == w.procs[j])
    && (forall k :: k in w.db.keys && Some(k) != mine ==> k in v.db.keys && v.db.keys[k] == w.db.keys[k])
    && (OwnedKey(v.procs[i].job) in {None, mine} || OwnedKey(v.procs[i].job).value !in w.db.keys)
  }

  /** Orders are only added, and only under the key that the process owns. */
  ghost predicate OrdersMove(w: World, v: World, mine: Option<Key>) {
    && |w.db.orders| <= |v.db.orders|
    && (forall o :: 0 <= o < |w.db.orders| ==> v.db.orders[o].req == w.db.orders[o].req)
    && forall o :: |w.db.orders| <= o < |v.db.orders| ==> Some(CheckoutKey(v.db.orders[o].req.key)) == mine
  }

  ghost predicate SameRequests(w: World, v: World) {
    |v.db.orders| == |w.db.orders| && forall o :: 0 <= o < |w.db.orders| ==> v.db.orders[o].req == w.db.orders[o].req
  }

  ghost predicate StepFrame(w: World, v: World, i: nat)
    requires i < |w.procs|
  {
    && OrdersMove(w, v, OwnedKey(w.procs[i].job)) && PaymentsMove(w, v, w.procs[i].tx) && KeysMove(w, v, i)
    && w.charges <= v.charges
  }

  lemma TransitionRows(w: World, i: nat, choice: Choice)
    requires i < |w.procs| && w.procs[i].job.Transition?
    ensures SameRequests(w, StepTransition(w, i, choice))
    ensures PaymentsMove(w, StepTransition(w, i, choice), w.procs[i].tx)
  {
    hide Next, SaleMove, AfterTransition, Resolve, AfterMoves, SimpleProgram, OrderFree, SkuFree;
  }

  lemma TransitionFrame(w: World, i: nat, choice: Choice)
    requires i < |w.procs| && w.procs[i].job.Transition?
    ensures StepFrame(w, StepTransition(w, i, choice), i)
  {
    hide Next, SaleMove, AfterTransition, Resolve, AfterMoves, SimpleProgram, OrderFree, SkuFree, OwnedKey,
      PaymentsMove, Insert, WriteOrder, WriteTicket, WritePayment, NewTicket;
    TransitionRows(w, i, choice);
    var Transition(o, e, phase, caller) := w.procs[i].job;
    NoKey();
    if o < |w.db.orders| {
      KeyFollows(o, e, phase, w.db.orders[o].total, caller);
    }
  }

  lemma KeyFollows(o: nat, e: OrderEvent, phase: Phase, total: int, caller: Caller)
    ensures forall ok :: OwnedKey(AfterTransition(o, total, caller, ok)) in {None, OwnedKey(Transition(o, e, phase, caller))}
    ensures forall next :: OwnedKey(Transition(o, e, next, caller)) == OwnedKey(Transition(o, e, phase, caller))
  {
  }

  lemma NoKey()
    ensures OwnedKey(Finished) == None
  {
  }

  /** The keys that a webhook owns from its key insert to its commit. */
  lemma HookKeys(kind: Settlement, trace: nat, charge: nat)
    ensures OwnedKey(HookPayment(kind, trace, charge)) == OwnedKey(HookOrder(kind, trace, charge)) == Some(HookKey(trace, kind))
    ensures forall read :: OwnedKey(HookLock(kind, trace, charge, read)) == Some(HookKey(trace, kind))
    ensures forall read :: OwnedKey(HookCommit(kind, trace, charge, read)) == Some(HookKey(trace, kind))
    ensures OwnedKey(HookRecord(kind, trace, charge)) == OwnedKey(HookGate(kind, trace, charge)) == None
    ensures forall remote :: OwnedKey(HookVerify(kind, trace, charge, remote)) == None
    ensures forall order :: OwnedKey(Transition(order, StartCooking, Begin, PaidCook)) == None
  {
  }

  /** The key that a checkout owns. */
  lemma CheckoutKeys(req: Request)
    ensures OwnedKey(CheckoutCreate(req)) == Some(CheckoutKey(req.key))
    ensures forall order :: OwnedKey(Transition(order, Confirm, Begin, CheckoutConfirm(req))) == Some(CheckoutKey(req.key))
    ensures forall order, token, url :: OwnedKey(CheckoutSave(req, order, token, url)) == Some(CheckoutKey(req.key))
    ensures OwnedKey(CheckoutReplay(req)) == None
    ensures forall key, order, token, url :: OwnedKey(CheckoutReply(key, order, token, url)) == None
  {
  }

  /** The key that a payment creation owns: its checkout's. */
  lemma PayKeys(payer: Payer)
    ensures var mine := match payer case ForCheckout(req) => Some(CheckoutKey(req.key)) case ForPay => None;
            && (forall order, amount :: OwnedKey(PayCall(order, amount, payer)) == mine)
            && (forall order, amount, charge, token, url :: OwnedKey(PayInsert(order, amount, charge, token, url, payer)) == mine)
            && (forall order, charge, read, token, url :: OwnedKey(PayLock(order, charge, read, token, url, payer)) == mine)
            && (forall order, charge, read, token, url :: OwnedKey(PayCommit(order, charge, read, token, url, payer)) == mine)
            && (payer.ForCheckout? ==> forall order, token, url :: OwnedKey(CheckoutSave(payer.req, order, token, url)) == mine)
  {
  }

  lemma PayRows(w: World, i: nat, choice: Choice)
    requires i < |w.procs|
    ensures SameRequests(w, StepPay(w, i, choice)) && PaymentsMove(w, StepPay(w, i, choice), w.procs[i].tx)
  {
    hide Next, AfterMoves, OrderFree, LockedWrite, WriteTicket, NewTicket, WriteOrder;
    WriteKeepsRequests(w.db.orders);
  }

  lemma WriteKeepsRequests(orders: seq<Order>)
    ensures forall write :: |WriteOrder(orders, write)| == |orders|
    ensures forall write, o :: 0 <= o < |orders| ==> WriteOrder(orders, write)[o].req == orders[o].req
  {
  }

  lemma PayFrame(w: World, i: nat, choice: Choice)
    requires i < |w.procs|
    ensures StepFrame(w, StepPay(w, i, choice), i)
  {
    hide Next, AfterMoves, OrderFree, LockedWrite, PaymentsMove, WriteOrder, WriteTicket, WritePayment, NewTicket, Insert, OwnedKey;
    PayRows(w, i, choice);
    NoKey();
    match w.procs[i].job
    case PayGuard(_, _) => PayKeys(ForPay);
    case PayCall(_, _, payer) => PayKeys(payer);
    case PayInsert(_, _, _, _, _, payer) => PayKeys(payer);
    case PayLock(_, _, _, _, _, payer) => PayKeys(payer);
    case PayCommit(_, _, _, _, _, payer) => PayKeys(payer);
    case _ =>
  }

  lemma HookRows(w: World, i: nat)
    requires i < |w.procs|
    ensures SameRequests(w, StepHook(w, i)) && PaymentsMove(w, StepHook(w, i), w.procs[i].tx)
  {
    hide Next, AfterMoves, OrderFree, LockedWrite, FindPayment, WriteTicket, NewTicket, WriteOrder;
    WriteKeepsRequests(w.db.orders);
  }

  lemma HookFrame(w: World, i: nat)
    requires i < |w.procs|
    ensures StepFrame(w, StepHook(w, i), i)
  {
    hide Next, AfterMoves, OrderFree, LockedWrite, FindPayment, PaymentsMove, WriteOrder, WriteTicket, WritePayment, NewTicket, Insert, OwnedKey;
    HookRows(w, i);
    NoKey();
    match w.procs[i].job
    case HookGate(kind, trace, charge) => HookKeys(kind, trace, charge);
    case HookVerify(kind, trace, charge, _) => HookKeys(kind, trace, charge);
    case HookRecord(kind, trace, charge) => HookKeys(kind, trace, charge);
    case HookPayment(kind, trace, charge) => HookKeys(kind, trace, charge);
    case HookOrder(kind, trace, charge) => HookKeys(kind, trace, charge);
    case HookLock(kind, trace, charge, _) => HookKeys(kind, trace, charge);
    case HookCommit(kind, trace, charge, _) => HookKeys(kind, trace, charge);
    case _ =>
  }

  /** Ticket requests own no key. */
  lemma TicketKeys()
    ensures forall ticket, e :: OwnedKey(TicketLock(ticket, e)) == OwnedKey(TicketCommit(ticket, e)) == None
    ensures forall ticket :: OwnedKey(HandOffRead(ticket)) == None
    ensures forall order, ticket, pickup :: OwnedKey(Transition(order, StartPacking, Begin, KitchenPack(ticket, pickup))) == None
  {
  }

  lemma TicketFrame(w: World, i: nat)
    requires i < |w.procs| && (w.procs[i].job.TicketCommit? ==> w.procs[i].tx.payment == None)
    ensures StepFrame(w, StepTicket(w, i), i)
  {
    hide KitchenNext, AfterMoves, TicketFree, ExpectedTicketState, OwnedKey;
    NoKey();
    TicketKeys();
  }

  lemma CheckoutFrame(w: World, i: nat)
    requires i < |w.procs|
    ensures StepFrame(w, StepCheckout(w, i), i)
  {
    hide Total, OwnedKey;
    NoKey();
    match w.procs[i].job
    case CheckoutStart(req) => CheckoutKeys(req);
    case CheckoutReplay(req) => CheckoutKeys(req);
    case CheckoutCreate(req) => CheckoutKeys(req);
    case CheckoutSave(req, _, _, _) => CheckoutKeys(req);
    case CheckoutReply(_, _, _, _) =>
    case _ =>
  }

  lemma ProcFrame(w: World, i: nat, choice: Choice)
    requires i < |w.procs| && TxOk(w, w.procs[i])
    ensures StepFrame(w, StepProc(w, i, choice), i)
  {
    hide StepTransition, StepPay, StepHook, StepTicket, StepCheckout;
    if w.procs[i].job.Transition? {
      TransitionFrame(w, i, choice);
    } else {
      PayFrame(w, i, choice);
      HookFrame(w, i);
      TicketFrame(w, i);
      CheckoutFrame(w, i);
    }
  }
}
