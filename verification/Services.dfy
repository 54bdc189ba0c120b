/** The services in the order of their own statements: each runs its tools in an open session and commits
    only if all of them succeeded. Each is proved to do exactly what the machine does when the request runs
    alone, and so to keep everything the machine keeps. */
module Services {
  import opened Wrappers
  import opened OrderModel
  import opened Ledger
  import opened Money
  import opened Protocol
  import opened ProtocolInvariant
  import opened ProtocolCommit
  import opened ProtocolRoutes
  import opened Solo
  import Inventory

  /** The state that each of the four kitchen write tools writes. */
  function WrittenState(e: KitchenEvent): KitchenState {
    match e
    case Queue => Queued
    case StartPrep => Preparing
    case MarkReady => Ready
    case HandOff => HandedOff
  }

  /** Each tool's expected and written states are one edge of the kitchen graph, and no other state allows the
      event. */
  lemma ToolWritesTheEdge(e: KitchenEvent)
    ensures KitchenNext(ExpectedTicketState(e), e) == Some(WrittenState(e))
    ensures forall s :: KitchenNext(s, e).Some? ==> s == ExpectedTicketState(e)
  {
  }

  /** An open transaction: the tables as it sees them, its own uncommitted writes included. */
  class Session {
    var view: Db

    constructor (committed: Db)
      ensures view == committed
    {
      view := committed;
    }

    /** transition_order_state */
    method TransitionOrderState(order: nat, from: OrderState, to: OrderState) returns (outcome: Outcome<()>)
      modifies this
      ensures outcome.Ok? <==> order < |old(view).orders| && old(view).orders[order].state == from
      ensures outcome.Raise? ==> view == old(view)
      ensures outcome.Ok? ==> view == old(view).(orders := old(view).orders[order := old(view).orders[order].(state := to)])
    {
      if order >= |view.orders| {
        return Raise("order not found");
      }
      if view.orders[order].state != from {
        return Raise("invalid state transition");
      }
      view := view.(orders := view.orders[order := view.orders[order].(state := to)]);
      return Ok(());
    }

    /** reserve_inventory_items: 1 exactly when a row of this reservation went below zero. */
    method ReserveInventoryItems(order: nat) returns (outcome: Outcome<int>)
      modifies this
      ensures outcome.Ok? <==> order < |old(view).orders|
      ensures outcome.Raise? ==> view == old(view)
      ensures outcome.Ok? ==>
                var moves := Reserved(old(view).catalog, old(view).stock, old(view).orders[order].req.items, order);
                && view == old(view).(stock := AfterMoves(old(view).stock, moves), ledger := old(view).ledger + moves)
                && outcome.result == if Inventory.AnyBelowZero(moves) then 1 else 0
    {
      if order >= |view.orders| {
        return Raise("order not found");
      }
      var items := view.orders[order].req.items;
      var warehouse := new Inventory.Warehouse(view.stock);
      ghost var moves := Reserved(view.catalog, view.stock, items, order);
      var alert := warehouse.ReserveInventoryItems(view.catalog, items, order, 0);
      Inventory.MovesOnDay(moves, 0);
      assert warehouse.rows == Inventory.OnDay(moves, 0);
      view := view.(stock := warehouse.quantity, ledger := view.ledger + Inventory.Moves(warehouse.rows));
      return Ok(alert);
    }

    /** create_kitchen_ticket */
    method CreateKitchenTicket(order: nat) returns (ticket: nat)
      modifies this
      ensures ticket == |old(view).tickets| && view == old(view).(tickets := old(view).tickets + [Ticket(order, New)])
    {
      ticket := |view.tickets|;
      view := view.(tickets := view.tickets + [Ticket(order, New)]);
    }

    /** write_order_state_cooking */
    method WriteOrderStateCooking(order: nat, ticket: nat) returns (outcome: Outcome<()>)
      modifies this
      ensures outcome.Ok? <==> order < |old(view).orders| && old(view).orders[order].state in {Paid, Confirmed}
      ensures outcome.Raise? ==> view == old(view)
      ensures outcome.Ok? ==>
                view == old(view).(orders := old(view).orders[order := old(view).orders[order].(state := Cooking)],
                                   tickets := if ticket < |old(view).tickets|
                                              then old(view).tickets[ticket := old(view).tickets[ticket].(order := order)]
                                              else old(view).tickets)
    {
      if order >= |view.orders| {
        return Raise("order not found");
      }
      var current := view.orders[order].state;
      if current != Paid && current != Confirmed {
        return Raise("invalid state transition");
      }
      view := view.(orders := view.orders[order := view.orders[order].(state := Cooking)]);
      if ticket < |view.tickets| {
        view := view.(tickets := view.tickets[ticket := view.tickets[ticket].(order := order)]);
      }
      return Ok(());
    }

    /** The four write_kitchen_state tools. */
    method WriteKitchenState(ticket: nat, e: KitchenEvent) returns (outcome: Outcome<()>)
      modifies this
      ensures outcome.Ok? <==> ticket < |old(view).tickets| && old(view).tickets[ticket].state == ExpectedTicketState(e)
      ensures outcome.Raise? ==> view == old(view)
      ensures outcome.Ok? ==>
                view == old(view).(tickets := old(view).tickets[ticket := old(view).tickets[ticket].(state := WrittenState(e))])
    {
      if ticket >= |view.tickets| {
        return Raise("ticket not found");
      }
      if view.tickets[ticket].state != ExpectedTicketState(e) {
        return Raise("invalid state transition");
      }
      view := view.(tickets := view.tickets[ticket := view.tickets[ticket].(state := WrittenState(e))]);
      return Ok(());
    }

    /** PaymentRepository.create */
    method CreatePaymentRow(row: Payment)
      modifies this
      ensures view == old(view).(payments := old(view).payments + [row])
    {
      view := view.(payments := view.payments + [row]);
    }

    /** PaymentRepository.write_state */
    method WritePaymentState(row: nat, state: PaymentState)
      requires row < |view.payments|
      modifies this
      ensures view == old(view).(payments := old(view).payments[row := old(view).payments[row].(state := state)])
    {
      view := view.(payments := view.payments[row := view.payments[row].(state := state)]);
    }

    /** PaymentService._run_simple_transition: a rejected or raising transition leaves the session usable. */
    method RunSimpleTransition(order: nat, e: OrderEvent, current: OrderState) returns (success: bool)
      modifies this
      ensures success <==> order < |old(view).orders| && old(view).orders[order].state == current && Next(current, e).Some?
      ensures view == if success then
                        old(view).(orders := old(view).orders[order := old(view).orders[order].(state := Next(current, e).value)])
                      else old(view)
    {
      var allowed := Next(current, e);
      if allowed.None? {
        return false;
      }
      var outcome := TransitionOrderState(order, current, allowed.value);
      return outcome.Ok?;
    }
  }

  /** Whether the environment answers a request without a database error. */
  predicate Answered(choice: Choice) {
    choice != DbError
  }

  class Backend {
    var db: Db
    var traces: seq<nat>
    var charges: seq<Charge>
    ghost var changes: seq<Change>
    ghost var payWrites: seq<PaymentWrite>
    ghost var replies: seq<Reply>
    ghost const start: map<string, int>

    ghost function Idle(): World
      reads this
    {
      World(db, traces, charges, [], changes, payWrites, replies)
    }

    /** The machine's world with one process at this job. */
    ghost function Serving(job: Job): World
      reads this
    {
      At(Idle(), job, Empty)
    }

    ghost predicate Valid()
      reads this
    {
      Inv(Idle(), start)
    }

    constructor (catalog: map<nat, string>, stock: map<string, int>)
      ensures Valid() && Idle() == Initial(catalog, stock) && start == stock
    {
      db := Db([], [], [], map[], catalog, stock, []);
      traces, charges, changes, payWrites, replies := [], [], [], [], [];
      start := stock;
      new;
      InitialInv(catalog, stock);
    }

    /** OrderService.transition_order */
    method TransitionOrder(order: nat, e: OrderEvent, ghost caller: Caller, ghost choice: Choice) returns (result: Outcome<OrderState>)
      requires Answered(choice)
      modifies this`db, this`changes
      ensures (db, result) == Transitioned(old(db), order, e)
      ensures result.Ok? <==> order < |old(db).orders| && AllowedIn(e, old(db).orders[order].state)
      ensures result.Ok? ==> result.result == LeavesIn(e)
      ensures db == if result.Ok? then Moved(old(db), order, e) else old(db)
      ensures Leads(old(Serving(Transition(order, e, Begin, caller))), choice, Serving(Following(old(db), order, caller, result.Ok?)))
    {
      hide Leads, Reserved, AfterMoves, StepProc;
      TransitionedMeans(db, order, e);
      TransitionAlone(Idle(), order, e, caller, choice);
      AfterSoloJob(Idle(), order, e, caller);
      if order >= |db.orders| {
        return Raise("order not found");
      }
      var current := db.orders[order].state;
      var allowed := Next(current, e);
      if allowed.None? {
        return Raise("event not allowed");
      }
      var newState := allowed.value;
      var session := new Session(db);
      var success;
      if e == StartCooking {
        var alert := session.ReserveInventoryItems(order);
        success := alert.Ok?;
        if success {
          var ticket := session.CreateKitchenTicket(order);
          var written := session.WriteOrderStateCooking(order, ticket);
          success := written.Ok?;
        }
      } else {
        var program := SimpleProgram(e, current, newState);
        var written := session.TransitionOrderState(order, program.0, program.1);
        success := written.Ok?;
        NoMoves(db);
      }
      result := if success then Ok(newState) else Raise("Execution failed");
      if success {
        assert session.view == Commit(db, TransitionTx(db, order, e, newState));
        db := session.view;
        changes := changes + [Change(order, current, e, newState, newState)];
      }
    }

    /** KitchenService.transition_ticket with the hand-off cascade. */
    method TransitionTicket(ticket: nat, e: KitchenEvent, ghost choice: Choice) returns (result: Outcome<KitchenState>)
      requires Answered(choice)
      modifies this`db, this`changes
      ensures result.Ok? <==> ticket < |old(db).tickets| && KitchenNext(old(db).tickets[ticket].state, e).Some?
      ensures result.Ok? ==> result.result == KitchenNext(old(db).tickets[ticket].state, e).value
      ensures db == if result.Ok? then TicketMoved(old(db), ticket, e) else old(db)
      ensures Leads(old(Serving(TicketBegin(ticket, e))), choice, Serving(Finished))
    {
      hide Commit, Cascaded, Leads, StepTransition, StepCheckout, StepPay, StepHook;
      ghost var begun := Serving(TicketBegin(ticket, e));
      if ticket >= |db.tickets| || KitchenNext(db.tickets[ticket].state, e).None? {
        OneStep(begun, Serving(Finished), choice);
        return Raise("event not allowed");
      }
      var to := KitchenNext(db.tickets[ticket].state, e).value;
      var session := new Session(db);
      var written := session.WriteKitchenState(ticket, e);
      ToolWritesTheEdge(e);
      TicketWritten(Idle(), ticket, e, choice);
      db := session.view;
      result := Ok(to);
      if e == HandOff {
        ghost var read := Serving(HandOffRead(ticket));
        AdvanceOrder(ticket, choice);
        LeadsTrans(begun, read, Serving(Finished), choice);
      }
    }

    /** The cascade of a hand-off, after the ticket's own commit: pack the order, and close it when it is
        picked up. */
    method AdvanceOrder(ticket: nat, ghost choice: Choice)
      requires Answered(choice) && ticket < |db.tickets|
      modifies this`db, this`changes
      ensures db == Cascaded(old(db), ticket)
      ensures Leads(old(Serving(HandOffRead(ticket))), choice, Serving(Finished))
    {
      hide Commit, Transitioned, Leads, StepTransition, StepCheckout, StepPay, StepHook, AllowedIn, LeavesIn;
      ghost var read := Serving(HandOffRead(ticket));
      var order := db.tickets[ticket].order;
      if order >= |db.orders| {
        OneStep(read, Serving(Finished), choice);
        return;
      }
      var pickup := db.orders[order].req.pickup;
      ghost var packing := Serving(Transition(order, StartPacking, Begin, KitchenPack(ticket, pickup)));
      OneStep(read, packing, choice);
      var packed := TransitionOrder(order, StartPacking, KitchenPack(ticket, pickup), choice);
      ghost var closing := Serving(if packed.Ok? && pickup then Transition(order, Close, Begin, KitchenClose) else Finished);
      LeadsTrans(read, packing, closing, choice);
      if packed.Ok? && pickup {
        var closed := TransitionOrder(order, Close, KitchenClose, choice);
        LeadsTrans(read, closing, Serving(Finished), choice);
      }
    }

    /** IdempotencyService.check_and_record: in a transaction of its own. */
    method CheckAndRecord(key: Key) returns (inserted: bool)
      modifies this`db
      ensures inserted <==> key !in old(db).keys
      ensures db == if inserted then old(db).(keys := old(db).keys[key := Started]) else old(db)
    {
      inserted := key !in db.keys;
      if inserted {
        db := db.(keys := db.keys[key := Started]);
      }
    }

    /** IdempotencyService.get_payload */
    method GetPayload(key: Key) returns (payload: Option<Payload>)
      ensures payload == if key in db.keys then Some(db.keys[key]) else None
    {
      payload := if key in db.keys then Some(db.keys[key]) else None;
    }

    /** IdempotencyService.update_payload */
    method UpdatePayload(key: Key, payload: Payload)
      modifies this`db
      ensures db == old(db).(keys := old(db).keys[key := payload])
    {
      db := db.(keys := db.keys[key := payload]);
    }

    /** PaymentService.create_payment: the trace is recorded first, a provider error leaves the rest undone. */
    method CreatePayment(order: nat, amount: int, answer: Choice, ghost payer: Payer) returns (result: Outcome<(string, string)>)
      requires Answered(answer)
      modifies this`db, this`traces, this`charges, this`changes
      ensures result == if answer.ProviderSays? && order < |old(db).orders| then Ok((answer.token, answer.url)) else Raise("502")
      ensures traces == old(traces) + [order]
      ensures charges == if answer.ProviderSays? then old(charges) + [Charge(|old(traces)|, answer.charged, None)] else old(charges)
      ensures result.Raise? ==> db == old(db)
      ensures result.Ok? ==>
                db == old(db).(payments := old(db).payments + [Payment(order, |old(charges)|, Amount(amount, "RUB"), Pending)],
                               orders := if old(db).orders[order].state == Confirmed
                                         then old(db).orders[order := old(db).orders[order].(state := PaymentPending)]
                                         else old(db).orders)
      ensures Leads(old(Serving(PayCall(order, amount, payer))), answer,
                    Serving(if result.Ok? then PaidFor(order, answer.token, answer.url, payer) else Finished))
    {
      hide Leads, Next, StepProc, AfterMoves;
      ghost var was := Idle();
      if order < |db.orders| {
        GraphByEvent(db.orders[order].state, RequestPayment);
      }
      traces := traces + [order];
      match answer
      case ProviderSays(charged, token, url) =>
        var charge := |charges|;
        charges := charges + [Charge(|traces| - 1, charged, None)];
        PaymentCreated(was, order, amount, payer, answer);
        if order >= |db.orders| {
          return Raise("502");
        }
        var session := new Session(db);
        session.CreatePaymentRow(Payment(order, charge, Amount(amount, "RUB"), Pending));
        var current := session.view.orders[order].state;
        var success := session.RunSimpleTransition(order, RequestPayment, current);
        db := session.view;
        if success {
          changes := changes + [Change(order, current, RequestPayment, PaymentPending, PaymentPending)];
        }
        return Ok((token, url));
      case _ =>
        ProviderFailed(was, order, amount, payer, answer);
        return Raise("502");
    }

    /** pay_order: only a CONFIRMED order, only for its own total. */
    method PayOrder(order: nat, amount: int, answer: Choice) returns (result: Outcome<(string, string)>)
      requires Answered(answer)
      modifies this`db, this`traces, this`charges, this`changes
      ensures result.Ok? <==> MayPay(old(db), order, amount) && answer.ProviderSays?
      ensures result.Ok? ==> result.result == (answer.token, answer.url)
      ensures result.Ok? ==>
                db == old(db).(payments := old(db).payments + [Payment(order, |old(charges)|, Amount(amount, "RUB"), Pending)],
                               orders := old(db).orders[order := old(db).orders[order].(state := PaymentPending)])
      ensures result.Raise? ==> db == old(db)
      ensures traces == if MayPay(old(db), order, amount) then old(traces) + [order] else old(traces)
      ensures charges == if result.Ok? then old(charges) + [Charge(|old(traces)|, answer.charged, None)] else old(charges)
      ensures Leads(old(Serving(PayGuard(order, amount))), answer, Serving(Finished))
    {
      ghost var begun := Serving(PayGuard(order, amount));
      if order >= |db.orders| {
        OneStep(begun, Serving(Finished), answer);
        return Raise("404");
      }
      if db.orders[order].state != Confirmed || amount != db.orders[order].total {
        OneStep(begun, Serving(Finished), answer);
        return Raise("409");
      }
      ghost var call := Serving(PayCall(order, amount, ForPay));
      OneStep(begun, call, answer);
      result := CreatePayment(order, amount, answer, ForPay);
      LeadsTrans(begun, call, Serving(Finished), answer);
    }

    /** The stored answer, then the response. */
    method SaveAndReply(req: Request, order: nat, token: string, url: string, ghost choice: Choice) returns (reply: Reply)
      modifies this`db, this`replies
      ensures reply == Reply(req.key, order, NonEmpty(token), NonEmpty(url)) && replies == old(replies) + [reply]
      ensures db == old(db).(keys := old(db).keys[CheckoutKey(req.key) := Saved(order, token, url)])
      ensures Leads(old(Serving(CheckoutSave(req, order, token, url))), choice, Serving(Finished))
    {
      AnswerSaved(Idle(), req, order, token, url, choice);
      UpdatePayload(CheckoutKey(req.key), Saved(order, token, url));
      reply := Reply(req.key, order, NonEmpty(token), NonEmpty(url));
      replies := replies + [reply];
    }

    /** The online branch of checkout, after CONFIRM. */
    method CheckoutOnline(req: Request, order: nat, answer: Choice) returns (result: Outcome<Reply>)
      requires Answered(answer) && order < |db.orders|
      modifies this`db, this`traces, this`charges, this`changes, this`replies
      ensures traces == old(traces) + [order]
      ensures charges == if answer.ProviderSays? then old(charges) + [Charge(|old(traces)|, answer.charged, None)] else old(charges)
      ensures old(db).orders[order].state == Confirmed ==>
                var requested := old(db).(orders := old(db).orders[order := old(db).orders[order].(state := PaymentPending)]);
                db == if answer.ProviderSays? then
                        requested.(keys := old(db).keys[CheckoutKey(req.key) := Saved(order, answer.token, answer.url)],
                                   payments := old(db).payments
                                               + [Payment(order, |old(charges)|, Amount(old(db).orders[order].total, "RUB"), Pending)])
                      else requested
      ensures result == if answer.ProviderSays? then Ok(Reply(req.key, order, NonEmpty(answer.token), NonEmpty(answer.url))) else Raise("502")
      ensures replies == if result.Ok? then old(replies) + [result.result] else old(replies)
      ensures Leads(old(Serving(Transition(order, RequestPayment, Begin, CheckoutRequest(req)))), answer, Serving(Finished))
    {
      hide Transitioned, LockedWrite, Leads;
      var total := db.orders[order].total;
      ghost var requesting := Serving(Transition(order, RequestPayment, Begin, CheckoutRequest(req)));
      TransitionedKeepsOrders(db, order, RequestPayment);
      var _ := TransitionOrder(order, RequestPayment, CheckoutRequest(req), answer);
      ghost var paying := Serving(PayCall(order, total, ForCheckout(req)));
      var payment := CreatePayment(order, total, answer, ForCheckout(req));
      ghost var paid := Serving(if payment.Ok? then CheckoutSave(req, order, answer.token, answer.url) else Finished);
      LeadsTrans(requesting, paying, paid, answer);
      if payment.Raise? {
        return Raise("502");
      }
      var (token, url) := payment.result;
      var reply := SaveAndReply(req, order, token, url, answer);
      LeadsTrans(requesting, paid, Serving(Finished), answer);
      return Ok(reply);
    }

    /** The cash branch of checkout, after CONFIRM. */
    method CheckoutCash(req: Request, order: nat, ghost choice: Choice) returns (reply: Reply)
      requires Answered(choice) && order < |db.orders|
      modifies this`db, this`changes, this`replies
      ensures reply == Reply(req.key, order, None, None) && replies == old(replies) + [reply]
      ensures old(db).orders[order].state == Confirmed ==>
                var cooked := Moved(old(db), order, StartCooking);
                db == cooked.(keys := old(db).keys[CheckoutKey(req.key) := Saved(order, "", "")])
      ensures Leads(old(Serving(Transition(order, StartCooking, Begin, CheckoutCook(req)))), choice, Serving(Finished))
    {
      hide Transitioned, Leads;
      ghost var cooking := Serving(Transition(order, StartCooking, Begin, CheckoutCook(req)));
      var _ := TransitionOrder(order, StartCooking, CheckoutCook(req), choice);
      ghost var cooked := Serving(CheckoutSave(req, order, "", ""));
      reply := SaveAndReply(req, order, "", "", choice);
      LeadsTrans(cooking, cooked, Serving(Finished), choice);
    }

    /** _recover_idempotent_result, for a key that was already there. */
    method RecoverIdempotentResult(req: Request, ghost choice: Choice) returns (result: Outcome<Reply>)
      requires CheckoutKey(req.key) in db.keys
      modifies this`replies
      ensures result == match db.keys[CheckoutKey(req.key)]
                        case Saved(order, token, url) => Ok(Reply(req.key, order, NonEmpty(token), NonEmpty(url)))
                        case Started => Raise("409")
      ensures replies == if result.Ok? then old(replies) + [result.result] else old(replies)
      ensures Leads(old(Serving(CheckoutStart(req))), choice, Serving(Finished))
    {
      Replayed(Idle(), req, choice);
      var payload := GetPayload(CheckoutKey(req.key));
      match payload.value
      case Saved(order, token, url) =>
        var reply := Reply(req.key, order, NonEmpty(token), NonEmpty(url));
        replies := replies + [reply];
        return Ok(reply);
      case Started =>
        return Raise("409");
    }

    /** checkout: the key first, then the order, then the transitions, then the stored answer. */
    method Checkout(req: Request, answer: Choice) returns (result: Outcome<Reply>)
      requires Answered(answer)
      modifies this`db, this`traces, this`charges, this`changes, this`replies
      ensures result == CheckoutAnswer(old(db), req, answer)
      ensures db == CheckedOut(old(db), req, answer, |old(charges)|)
      ensures CheckoutKey(req.key) in old(db).keys || !req.online ==> traces == old(traces) && charges == old(charges)
      ensures CheckoutKey(req.key) !in old(db).keys && req.online ==>
                && traces == old(traces) + [|old(db).orders|]
                && charges == if answer.ProviderSays? then old(charges) + [Charge(|old(traces)|, answer.charged, None)] else old(charges)
      ensures replies == if result.Ok? then old(replies) + [result.result] else old(replies)
      ensures Leads(old(Serving(CheckoutStart(req))), answer, Serving(Finished))
    {
      hide Transitioned, Leads, Total, CheckoutTotal, CheckedOut, Moved, AllowedIn, NewlyConfirmed;
      ghost var begun, was := Serving(CheckoutStart(req)), Idle();
      KnownKey(db, req, answer, |charges|);
      var inserted := CheckAndRecord(CheckoutKey(req.key));
      if !inserted {
        result := RecoverIdempotentResult(req, answer);
        return;
      }
      var order := |db.orders|;
      var total := CheckoutTotal(req.items, req.pickup, req.promo, req.zoneFee);
      TotalIsCheckoutTotal(req);
      db := db.(orders := db.orders + [Order(req, total, Draft)]);
      ghost var confirming := Serving(Transition(order, Confirm, Begin, CheckoutConfirm(req)));
      OrderCreated(was, req, answer);
      ConfirmsNewOrder(was.db, req);
      TransitionedKeepsOrders(db, order, Confirm);
      var _ := TransitionOrder(order, Confirm, CheckoutConfirm(req), answer);
      assert db == NewlyConfirmed(was.db, req);
      if req.online {
        OnlineTables(was.db, req, answer, |charges|);
        ghost var requesting := Serving(Transition(order, RequestPayment, Begin, CheckoutRequest(req)));
        LeadsTrans(begun, confirming, requesting, answer);
        result := CheckoutOnline(req, order, answer);
        LeadsTrans(begun, requesting, Serving(Finished), answer);
      } else {
        CashTables(was.db, req, answer, |charges|);
        ghost var cooking := Serving(Transition(order, StartCooking, Begin, CheckoutCook(req)));
        LeadsTrans(begun, confirming, cooking, answer);
        var reply := CheckoutCash(req, order, answer);
        LeadsTrans(begun, cooking, Serving(Finished), answer);
        result := Ok(reply);
      }
    }

    /** verify_provider_payment: the provider's own status, amount and currency must match the local row. */
    method VerifyProviderPayment(charge: nat, kind: Settlement) returns (verified: bool)
      ensures verified <==> charge < |charges| && MatchesProvider(db.payments, charges[charge], kind, charge)
    {
      if charge >= |charges| {
        return false;
      }
      var remote := charges[charge];
      var row := FindPayment(db.payments, charge);
      if row >= |db.payments| {
        return false;
      }
      return remote.status == Some(kind) && remote.amount == db.payments[row].amount;
    }

    /** confirm_payment (kind Succeeded) and fail_payment (kind Canceled), for a notification that passed the
        provider check: the key first, then the payment row and the order in one transaction, then the
        auto-advance. */
    method SettlePayment(kind: Settlement, trace: nat, charge: nat, ghost choice: Choice) returns (success: bool)
      requires Answered(choice) && trace < |traces| && charge < |charges|
      requires MatchesProvider(db.payments, charges[charge], kind, charge)
      modifies this`db, this`changes, this`payWrites
      ensures success <==> MovesOrder(old(Idle()), kind, trace, charge)
      ensures db == AfterNotice(old(Idle()), kind, trace, charge)
      ensures Leads(old(Serving(HookRecord(kind, trace, charge))), choice, Serving(Finished))
    {
      hide Transitioned, Leads, FindPayment, Commit, StepProc, Next, LockedWrite, WriteOrder, HookEvent, HookTarget;
      ghost var begun := Serving(HookRecord(kind, trace, charge));
      HookRecorded(Idle(), kind, trace, charge, choice);
      var order := traces[trace];
      var inserted := CheckAndRecord(HookKey(trace, kind));
      if !inserted {
        return false;
      }
      var row := FindPayment(db.payments, charge);
      var state := db.payments[row].state;
      if state == Success || (kind == Canceled && state == Failed) || order >= |db.orders| {
        return false;
      }
      var session := new Session(db);
      session.WritePaymentState(row, HookState(kind));
      HookEdge(Idle(), order, kind);
      var current := session.view.orders[order].state;
      success := session.RunSimpleTransition(order, HookEvent(kind), current);
      db := session.view;
      payWrites := payWrites + [PaymentWrite(row, HookState(kind), trace, kind)];
      if success {
        changes := changes + [Change(order, current, HookEvent(kind), HookTarget(kind), HookTarget(kind))];
      }
      if success && kind == Succeeded {
        ghost var cooking := Serving(Transition(order, StartCooking, Begin, PaidCook));
        var _ := TransitionOrder(order, StartCooking, PaidCook, choice);
        LeadsTrans(begun, cooking, Serving(Finished), choice);
      }
    }

    /** yookassa_webhook: nothing happens unless the trace is known and the provider confirms the claim. */
    method YookassaWebhook(kind: Settlement, trace: nat, charge: nat, ghost choice: Choice) returns (success: bool)
      requires Answered(choice)
      modifies this`db, this`changes, this`payWrites
      ensures success <==> MovesOrder(old(Idle()), kind, trace, charge)
      ensures db == AfterNotice(old(Idle()), kind, trace, charge)
      ensures Leads(old(Serving(HookGate(kind, trace, charge))), choice, Serving(Finished))
    {
      hide Leads, FindPayment;
      ghost var was := Idle();
      if trace >= |traces| {
        HookGated(was, kind, trace, charge, choice);
        return false;
      }
      var verified := VerifyProviderPayment(charge, kind);
      if !verified {
        HookGated(was, kind, trace, charge, choice);
        return false;
      }
      success := SettlePayment(kind, trace, charge, choice);
      HookPassed(was, kind, trace, charge, choice, Serving(Finished));
    }
  }

  /** The tables after an allowed event: the order's state and, when cooking starts, one new ticket and the
      reservation of its lines. */
  function Moved(db: Db, order: nat, e: OrderEvent): Db
    requires order < |db.orders|
  {
    var orders := db.orders[order := db.orders[order].(state := LeavesIn(e))];
    if e == StartCooking then
      var moves := Reserved(db.catalog, db.stock, db.orders[order].req.items, order);
      db.(orders := orders, tickets := db.tickets + [Ticket(order, New)],
          stock := AfterMoves(db.stock, moves), ledger := db.ledger + moves)
    else db.(orders := orders)
  }

  lemma TransitionedMeans(db: Db, order: nat, e: OrderEvent)
    ensures var (after, result) := Transitioned(db, order, e);
            && (result.Ok? <==> order < |db.orders| && AllowedIn(e, db.orders[order].state))
            && (result.Ok? ==> result.result == LeavesIn(e))
            && after == if result.Ok? then Moved(db, order, e) else db
  {
    hide Next, AfterMoves, Reserved, AllowedIn, LeavesIn;
    if order < |db.orders| {
      GraphByEvent(db.orders[order].state, e);
    }
    NoMoves(db);
  }

  /** The tables after a checkout that nothing disturbs. A known key changes nothing. A new cash order cooks at
      once: one ticket, its lines reserved, and the stored answer names no payment. A new online order waits for
      its payment: one PENDING row for its total, and the stored answer holds what the provider said; if the
      provider could not be reached there is no row, and the key stays unfinished. */
  function CheckedOut(db: Db, req: Request, answer: Choice, charge: nat): Db {
    var order, key := |db.orders|, CheckoutKey(req.key);
    if key in db.keys then db
    else if !req.online then
      var moves := Reserved(db.catalog, db.stock, req.items, order);
      db.(keys := db.keys[key := Saved(order, "", "")],
          orders := db.orders + [Order(req, Total(req), Cooking)],
          tickets := db.tickets + [Ticket(order, New)],
          stock := AfterMoves(db.stock, moves),
          ledger := db.ledger + moves)
    else if answer.ProviderSays? then
      db.(keys := db.keys[key := Saved(order, answer.token, answer.url)],
          orders := db.orders + [Order(req, Total(req), PaymentPending)],
          payments := db.payments + [Payment(order, charge, Amount(Total(req), "RUB"), Pending)])
    else
      db.(keys := db.keys[key := Started],
          orders := db.orders + [Order(req, Total(req), PaymentPending)])
  }

  lemma KnownKey(db: Db, req: Request, answer: Choice, charge: nat)
    ensures CheckoutKey(req.key) in db.keys ==> CheckedOut(db, req, answer, charge) == db
  {
  }

  /** The tables once a new order is confirmed. */
  function NewlyConfirmed(db: Db, req: Request): Db {
    db.(keys := db.keys[CheckoutKey(req.key) := Started], orders := db.orders + [Order(req, Total(req), Confirmed)])
  }

  lemma ConfirmsNewOrder(db: Db, req: Request)
    ensures var created := db.(keys := db.keys[CheckoutKey(req.key) := Started], orders := db.orders + [Order(req, Total(req), Draft)]);
            AllowedIn(Confirm, created.orders[|db.orders|].state)
            && Moved(created, |db.orders|, Confirm) == NewlyConfirmed(db, req)
  {
    hide Total;
  }

  lemma CashTables(db: Db, req: Request, answer: Choice, charge: nat)
    requires CheckoutKey(req.key) !in db.keys && !req.online
    ensures var confirmed, order := NewlyConfirmed(db, req), |db.orders|;
            && confirmed.orders[order].state == Confirmed
            && Moved(confirmed, order, StartCooking).(keys := confirmed.keys[CheckoutKey(req.key) := Saved(order, "", "")])
               == CheckedOut(db, req, answer, charge)
  {
    hide Total, AfterMoves, Reserved;
    var key, order := CheckoutKey(req.key), |db.orders|;
    assert db.keys[key := Started][key := Saved(order, "", "")] == db.keys[key := Saved(order, "", "")];
    var confirmed := NewlyConfirmed(db, req);
    assert confirmed.orders[order := Order(req, Total(req), Cooking)] == db.orders + [Order(req, Total(req), Cooking)];
  }

  lemma OnlineTables(db: Db, req: Request, answer: Choice, charge: nat)
    requires CheckoutKey(req.key) !in db.keys && req.online
    ensures var confirmed, order := NewlyConfirmed(db, req), |db.orders|;
            var requested := confirmed.(orders := confirmed.orders[order := confirmed.orders[order].(state := PaymentPending)]);
            && confirmed.orders[order].state == Confirmed
            && CheckedOut(db, req, answer, charge) ==
               if answer.ProviderSays? then
                 requested.(keys := confirmed.keys[CheckoutKey(req.key) := Saved(order, answer.token, answer.url)],
                            payments := confirmed.payments
                                        + [Payment(order, charge, Amount(confirmed.orders[order].total, "RUB"), Pending)])
               else requested
  {
    hide Total;
    var key, order := CheckoutKey(req.key), |db.orders|;
    var confirmed := NewlyConfirmed(db, req);
    assert confirmed.orders[order := Order(req, Total(req), PaymentPending)] == db.orders + [Order(req, Total(req), PaymentPending)];
    if answer.ProviderSays? {
      var saved := Saved(order, answer.token, answer.url);
      assert db.keys[key := Started][key := saved] == db.keys[key := saved];
    }
  }

  /** The job after a transition. */
  function Following(db: Db, order: nat, caller: Caller, ok: bool): Job {
    if order >= |db.orders| then Finished else AfterTransition(order, db.orders[order].total, caller, ok)
  }

  lemma AfterSoloJob(w: World, order: nat, e: OrderEvent, caller: Caller)
    ensures var v := AfterSolo(w, order, e, caller);
            v == At(v, Following(w.db, order, caller, Transitioned(w.db, order, e).1.Ok?), Empty)
  {
    hide AfterTransition, Commit;
  }

  lemma TicketRow(w: World, ticket: nat, e: KitchenEvent, choice: Choice)
    requires ticket < |w.db.tickets| && KitchenNext(w.db.tickets[ticket].state, e).Some?
    ensures w.db.tickets[ticket].state == ExpectedTicketState(e)
    ensures var write := TicketWrite(ticket, ExpectedTicketState(e), KitchenNext(w.db.tickets[ticket].state, e).value);
            Leads(At(w, TicketBegin(ticket, e), Empty), choice, At(w, TicketCommit(ticket, e), Empty.(ticket := Some(write))))
  {
    hide Leads, StepProc;
    var from := ExpectedTicketState(e);
    var to := KitchenNext(from, e).value;
    var a := At(w, TicketBegin(ticket, e), Empty);
    var b := At(w, TicketLock(ticket, e), Empty);
    var c := At(w, TicketCommit(ticket, e), Empty.(ticket := Some(TicketWrite(ticket, from, to))));
    TicketStepsAlone(a, choice);
    TicketStepsAlone(b, choice);
    assert StepTicket(a, 0) == b;
    assert StepTicket(b, 0) == c;
    OneStep(b, c, choice);
    LeadsStep(a, b, c, choice);
  }

  /** The two transactions of a ticket transition on its own. */
  lemma TicketWritten(w: World, ticket: nat, e: KitchenEvent, choice: Choice)
    requires ticket < |w.db.tickets| && KitchenNext(w.db.tickets[ticket].state, e).Some?
    ensures w.db.tickets[ticket].state == ExpectedTicketState(e)
    ensures var to := KitchenNext(w.db.tickets[ticket].state, e).value;
            var v := w.(db := w.db.(tickets := w.db.tickets[ticket := w.db.tickets[ticket].(state := to)]));
            Leads(At(w, TicketBegin(ticket, e), Empty), choice,
                  At(v, if e == HandOff then HandOffRead(ticket) else Finished, Empty))
  {
    TicketRow(w, ticket, e, choice);
    hide Leads, StepProc, AfterMoves, KitchenNext;
    NoMoves(w.db);
    var to := KitchenNext(w.db.tickets[ticket].state, e).value;
    var a := At(w, TicketBegin(ticket, e), Empty);
    var c := At(w, TicketCommit(ticket, e), Empty.(ticket := Some(TicketWrite(ticket, ExpectedTicketState(e), to))));
    var v := w.(db := w.db.(tickets := w.db.tickets[ticket := w.db.tickets[ticket].(state := to)]));
    var d := At(v, if e == HandOff then HandOffRead(ticket) else Finished, Empty);
    TicketStepsAlone(c, choice);
    assert StepTicket(c, 0) == d;
    OneStep(c, d, choice);
    LeadsTrans(a, c, d, choice);
  }

  /** The tables after the cascade of a hand-off. */
  function Cascaded(db: Db, ticket: nat): Db
    requires ticket < |db.tickets|
  {
    var order := db.tickets[ticket].order;
    if order >= |db.orders| then db
    else
      var (packed, result) := Transitioned(db, order, StartPacking);
      if result.Ok? && db.orders[order].req.pickup then Transitioned(packed, order, Close).0 else packed
  }

  /** The tables after an accepted ticket event: the ticket's own write and, for a hand-off, the cascade. */
  function TicketMoved(db: Db, ticket: nat, e: KitchenEvent): Db
    requires ticket < |db.tickets|
  {
    var written := db.(tickets := db.tickets[ticket := db.tickets[ticket].(state := WrittenState(e))]);
    if e == HandOff then Cascaded(written, ticket) else written
  }

  /** The cascade in one line: only a hand-off of a cooking order moves it, to PACKING or, for pickup, to CLOSED. */
  lemma HandOffCascade(db: Db, ticket: nat, e: KitchenEvent)
    requires ticket < |db.tickets|
    ensures var order := db.tickets[ticket].order;
            TicketMoved(db, ticket, e) ==
            db.(tickets := db.tickets[ticket := db.tickets[ticket].(state := WrittenState(e))],
                orders := if e == HandOff && order < |db.orders| && db.orders[order].state == Cooking
                          then db.orders[order := db.orders[order].(state := if db.orders[order].req.pickup then Closed else Packing)]
                          else db.orders)
  {
    hide AfterMoves, Reserved;
    NoMoves(db);
  }

  /** pay_order's guard. */
  predicate MayPay(db: Db, order: nat, amount: int) {
    order < |db.orders| && db.orders[order].state == Confirmed && amount == db.orders[order].total
  }

  /** The response of a checkout that nothing disturbs: the stored answer for a known key, else a new order. */
  function CheckoutAnswer(db: Db, req: Request, answer: Choice): Outcome<Reply> {
    if CheckoutKey(req.key) in db.keys then
      match db.keys[CheckoutKey(req.key)]
      case Saved(order, token, url) => Ok(Reply(req.key, order, NonEmpty(token), NonEmpty(url)))
      case Started => Raise("409")
    else if !req.online then Ok(Reply(req.key, |db.orders|, None, None))
    else if answer.ProviderSays? then Ok(Reply(req.key, |db.orders|, NonEmpty(answer.token), NonEmpty(answer.url)))
    else Raise("502")
  }

  /** What the payment call leads to. */
  function PaidFor(order: nat, token: string, url: string, payer: Payer): Job {
    match payer
    case ForCheckout(req) => CheckoutSave(req, order, token, url)
    case ForPay => Finished
  }

  lemma TotalIsCheckoutTotal(req: Request)
    ensures Total(req) == CheckoutTotal(req.items, req.pickup, req.promo, req.zoneFee)
  {
  }

  /** A transition keeps every order but one state. */
  lemma TransitionedKeepsOrders(db: Db, order: nat, e: OrderEvent)
    ensures var after := Transitioned(db, order, e).0;
            && |after.orders| == |db.orders|
            && forall k :: 0 <= k < |db.orders| ==> after.orders[k] == db.orders[k].(state := after.orders[k].state)
  {
    hide Next, AfterMoves, Reserved;
  }

  /** The world after create_payment's transaction. */
  function PaymentMade(w: World, order: nat, amount: int, answer: Choice): World
    requires answer.ProviderSays? && order < |w.db.orders|
  {
    var read := w.db.orders[order].state;
    var write := LockedWrite(w, order, RequestPayment, read);
    w.(traces := w.traces + [order],
       charges := w.charges + [Charge(|w.traces|, answer.charged, None)],
       db := w.db.(payments := w.db.payments + [Payment(order, |w.charges|, Amount(amount, "RUB"), Pending)],
                   orders := WriteOrder(w.db.orders, write)),
       changes := if write.Some? then w.changes + [Change(order, read, RequestPayment, write.value.to, PaymentPending)] else w.changes)
  }

  lemma ProviderFailed(w: World, order: nat, amount: int, payer: Payer, answer: Choice)
    requires Answered(answer) && !answer.ProviderSays?
    ensures Leads(At(w, PayCall(order, amount, payer), Empty), answer, At(w.(traces := w.traces + [order]), Finished, Empty))
  {
    hide Leads;
    var a, f := At(w, PayCall(order, amount, payer), Empty), At(w.(traces := w.traces + [order]), Finished, Empty);
    assert StepProc(a, 0, answer) == f;
    OneStep(a, f, answer);
  }

  lemma PaymentCreated(w: World, order: nat, amount: int, payer: Payer, answer: Choice)
    requires answer.ProviderSays?
    ensures var a := At(w, PayCall(order, amount, payer), Empty);
            if order < |w.db.orders| then
              Leads(a, answer, At(PaymentMade(w, order, amount, answer), PaidFor(order, answer.token, answer.url, payer), Empty))
            else
              Leads(a, answer, At(w.(traces := w.traces + [order],
                                     charges := w.charges + [Charge(|w.traces|, answer.charged, None)]), Finished, Empty))
  {
    hide Leads, StepProc, AfterMoves;
    var a := At(w, PayCall(order, amount, payer), Empty);
    var called := w.(traces := w.traces + [order], charges := w.charges + [Charge(|w.traces|, answer.charged, None)]);
    var b := At(called, PayInsert(order, amount, |w.charges|, answer.token, answer.url, payer), Empty);
    PayStepsAlone(a, answer);
    PayStepsAlone(b, answer);
    assert StepPay(a, 0, answer) == b;
    if order < |w.db.orders| {
      NoMoves(w.db);
      var read := w.db.orders[order].state;
      var row := Payment(order, |w.charges|, Amount(amount, "RUB"), Pending);
      var write := LockedWrite(w, order, RequestPayment, read);
      var c := At(called, PayLock(order, |w.charges|, read, answer.token, answer.url, payer), Empty.(newPayment := Some(row)));
      var d := At(called, PayCommit(order, |w.charges|, read, answer.token, answer.url, payer),
                  Empty.(newPayment := Some(row), order := write));
      var f := At(PaymentMade(w, order, amount, answer), PaidFor(order, answer.token, answer.url, payer), Empty);
      PayStepsAlone(c, answer);
      PayStepsAlone(d, answer);
      assert StepPay(b, 0, answer) == c;
      assert StepPay(c, 0, answer) == d;
      assert StepPay(d, 0, answer) == f;
      OneStep(d, f, answer);
      LeadsStep(c, d, f, answer);
      LeadsStep(b, c, f, answer);
      LeadsStep(a, b, f, answer);
    } else {
      var f := At(called, Finished, Empty);
      assert StepPay(b, 0, answer) == f;
      OneStep(b, f, answer);
      LeadsStep(a, b, f, answer);
    }
  }

  lemma AnswerSaved(w: World, req: Request, order: nat, token: string, url: string, choice: Choice)
    ensures var saved := w.(db := w.db.(keys := w.db.keys[CheckoutKey(req.key) := Saved(order, token, url)]));
            Leads(At(w, CheckoutSave(req, order, token, url), Empty), choice,
                  At(Replied(saved, req.key, order, token, url), Finished, Empty))
  {
    hide Leads;
    var saved := w.(db := w.db.(keys := w.db.keys[CheckoutKey(req.key) := Saved(order, token, url)]));
    var a := At(w, CheckoutSave(req, order, token, url), Empty);
    var b := At(saved, CheckoutReply(req.key, order, token, url), Empty);
    var c := At(Replied(saved, req.key, order, token, url), Finished, Empty);
    assert StepProc(a, 0, choice) == b;
    assert StepProc(b, 0, choice) == c;
    OneStep(b, c, choice);
    LeadsStep(a, b, c, choice);
  }

  lemma Replayed(w: World, req: Request, choice: Choice)
    requires CheckoutKey(req.key) in w.db.keys
    ensures Leads(At(w, CheckoutStart(req), Empty), choice,
                  At(match w.db.keys[CheckoutKey(req.key)]
                     case Saved(order, token, url) => Replied(w, req.key, order, token, url)
                     case Started => w, Finished, Empty))
  {
    hide Leads;
    var a, b := At(w, CheckoutStart(req), Empty), At(w, CheckoutReplay(req), Empty);
    var c := At(match w.db.keys[CheckoutKey(req.key)]
                case Saved(order, token, url) => Replied(w, req.key, order, token, url)
                case Started => w, Finished, Empty);
    assert StepProc(a, 0, choice) == b;
    assert StepProc(b, 0, choice) == c;
    OneStep(b, c, choice);
    LeadsStep(a, b, c, choice);
  }

  lemma OrderCreated(w: World, req: Request, choice: Choice)
    requires CheckoutKey(req.key) !in w.db.keys
    ensures var v := w.(db := w.db.(keys := w.db.keys[CheckoutKey(req.key) := Started],
                                    orders := w.db.orders + [Order(req, Total(req), Draft)]));
            Leads(At(w, CheckoutStart(req), Empty), choice,
                  At(v, Transition(|w.db.orders|, Confirm, Begin, CheckoutConfirm(req)), Empty))
  {
    hide Leads, Total;
    var keyed := w.(db := w.db.(keys := w.db.keys[CheckoutKey(req.key) := Started]));
    var v := keyed.(db := keyed.db.(orders := w.db.orders + [Order(req, Total(req), Draft)]));
    var a, b := At(w, CheckoutStart(req), Empty), At(keyed, CheckoutCreate(req), Empty);
    var c := At(v, Transition(|w.db.orders|, Confirm, Begin, CheckoutConfirm(req)), Empty);
    assert StepProc(a, 0, choice) == b;
    assert StepProc(b, 0, choice) == c;
    OneStep(b, c, choice);
    LeadsStep(a, b, c, choice);
  }

  /** The provider's object and the local row agree. */
  predicate MatchesProvider(payments: seq<Payment>, remote: Charge, kind: Settlement, charge: nat) {
    var row := FindPayment(payments, charge);
    row < |payments| && remote.status == Some(kind) && remote.amount == payments[row].amount
  }

  /** Whether a verified notification still has something to write. */
  predicate Writes(payments: seq<Payment>, charge: nat, kind: Settlement)
  {
    var row := FindPayment(payments, charge);
    row < |payments| && payments[row].state != Success && !(kind == Canceled && payments[row].state == Failed)
  }

  /** The world after a notification's own transactions, without the auto-advance. */
  function Notified(w: World, kind: Settlement, trace: nat, charge: nat): World {
    if trace >= |w.traces| || charge >= |w.charges| || !MatchesProvider(w.db.payments, w.charges[charge], kind, charge) then w
    else if HookKey(trace, kind) in w.db.keys then w
    else
      var keyed := w.(db := w.db.(keys := w.db.keys[HookKey(trace, kind) := Started]));
      var order := w.traces[trace];
      if order >= |w.db.orders| || !Writes(w.db.payments, charge, kind) then keyed
      else PaymentSettled(keyed, kind, trace, charge)
  }

  /** The notification is confirmed by the provider, new, and its payment and order are still waiting for it. */
  predicate MovesOrder(w: World, kind: Settlement, trace: nat, charge: nat) {
    && trace < |w.traces| && charge < |w.charges| && MatchesProvider(w.db.payments, w.charges[charge], kind, charge)
    && HookKey(trace, kind) !in w.db.keys && Writes(w.db.payments, charge, kind)
    && w.traces[trace] < |w.db.orders| && w.db.orders[w.traces[trace]].state == PaymentPending
  }

  /** The tables after a notification and the auto-advance that follows a confirmed payment. */
  function AfterNotice(w: World, kind: Settlement, trace: nat, charge: nat): Db {
    var db := Notified(w, kind, trace, charge).db;
    if MovesOrder(w, kind, trace, charge) && kind == Succeeded then Transitioned(db, w.traces[trace], StartCooking).0 else db
  }

  /** What a notification that moves its order does to it: a confirmed payment is settled, the order cooks, its
      lines are reserved and one ticket is opened, all at once; a canceled one is settled and the order waits
      for another attempt. Nothing else changes but the notification's key. */
  lemma NoticeMoves(w: World, kind: Settlement, trace: nat, charge: nat)
    requires MovesOrder(w, kind, trace, charge)
    ensures var order, row := w.traces[trace], FindPayment(w.db.payments, charge);
            var moves := if kind == Succeeded then Reserved(w.db.catalog, w.db.stock, w.db.orders[order].req.items, order) else [];
            AfterNotice(w, kind, trace, charge) ==
            w.db.(keys := w.db.keys[HookKey(trace, kind) := Started],
                  payments := w.db.payments[row := w.db.payments[row].(state := if kind == Succeeded then Success else Failed)],
                  orders := w.db.orders[order := w.db.orders[order].(state := if kind == Succeeded then Cooking else Confirmed)],
                  tickets := w.db.tickets + (if kind == Succeeded then [Ticket(order, New)] else []),
                  stock := AfterMoves(w.db.stock, moves), ledger := w.db.ledger + moves)
  {
    hide FindPayment, AfterMoves, Reserved;
    NoMoves(w.db);
  }

  /** A notification that does not move its order changes no order, ticket, stock or ledger row, and a payment
      only when the row was still waiting. */
  lemma NoticeKeeps(w: World, kind: Settlement, trace: nat, charge: nat)
    requires !MovesOrder(w, kind, trace, charge)
    ensures var after := AfterNotice(w, kind, trace, charge);
            && after == w.db.(keys := after.keys, payments := after.payments)
            && forall k :: 0 <= k < |w.db.payments| && w.db.payments[k].state == Success ==>
                 k < |after.payments| && after.payments[k] == w.db.payments[k]
  {
    hide FindPayment;
  }

  /** What runs after it. */
  function AfterNotified(w: World, kind: Settlement, trace: nat, charge: nat): Job {
    if |Notified(w, kind, trace, charge).changes| > |w.changes| && kind == Succeeded && trace < |w.traces| then
      Transition(w.traces[trace], StartCooking, Begin, PaidCook)
    else Finished
  }

  lemma HookGated(w: World, kind: Settlement, trace: nat, charge: nat, choice: Choice)
    requires trace >= |w.traces| || charge >= |w.charges| || !MatchesProvider(w.db.payments, w.charges[charge], kind, charge)
    ensures Leads(At(w, HookGate(kind, trace, charge), Empty), choice, At(w, Finished, Empty))
  {
    hide Leads, FindPayment;
    var a, f := At(w, HookGate(kind, trace, charge), Empty), At(w, Finished, Empty);
    if trace >= |w.traces| || charge >= |w.charges| {
      assert StepProc(a, 0, choice) == f;
      OneStep(a, f, choice);
    } else {
      var b := At(w, HookVerify(kind, trace, charge, w.charges[charge]), Empty);
      assert StepProc(a, 0, choice) == b;
      assert StepProc(b, 0, choice) == f;
      OneStep(b, f, choice);
      LeadsStep(a, b, f, choice);
    }
  }

  lemma HookPassed(w: World, kind: Settlement, trace: nat, charge: nat, choice: Choice, v: World)
    requires trace < |w.traces| && charge < |w.charges| && MatchesProvider(w.db.payments, w.charges[charge], kind, charge)
    requires Leads(At(w, HookRecord(kind, trace, charge), Empty), choice, v)
    ensures Leads(At(w, HookGate(kind, trace, charge), Empty), choice, v)
  {
    hide Leads, FindPayment;
    var a := At(w, HookGate(kind, trace, charge), Empty);
    var b := At(w, HookVerify(kind, trace, charge, w.charges[charge]), Empty);
    var c := At(w, HookRecord(kind, trace, charge), Empty);
    assert StepProc(a, 0, choice) == b;
    assert StepProc(b, 0, choice) == c;
    LeadsStep(b, c, v, choice);
    LeadsStep(a, b, v, choice);
  }

  lemma HookStepsAlone(w: World, choice: Choice)
    requires |w.procs| == 1 && IsHook(w.procs[0].job)
    ensures StepProc(w, 0, choice) == StepHook(w, 0)
  {
    hide StepHook;
  }

  lemma PayStepsAlone(w: World, choice: Choice)
    requires |w.procs| == 1
    requires var job := w.procs[0].job; job.PayCall? || job.PayInsert? || job.PayLock? || job.PayCommit?
    ensures StepProc(w, 0, choice) == StepPay(w, 0, choice)
  {
    hide StepPay;
  }

  lemma TicketStepsAlone(w: World, choice: Choice)
    requires |w.procs| == 1
    requires var job := w.procs[0].job; job.TicketBegin? || job.TicketLock? || job.TicketCommit?
    ensures StepProc(w, 0, choice) == StepTicket(w, 0)
  {
    hide StepTicket;
  }

  /** The world after the payment row's transaction. */
  function PaymentSettled(w: World, kind: Settlement, trace: nat, charge: nat): World
    requires trace < |w.traces| && w.traces[trace] < |w.db.orders| && Writes(w.db.payments, charge, kind)
  {
    var order, row := w.traces[trace], FindPayment(w.db.payments, charge);
    var read := w.db.orders[order].state;
    var write := LockedWrite(w, order, HookEvent(kind), read);
    w.(db := w.db.(payments := w.db.payments[row := w.db.payments[row].(state := HookState(kind))],
                   orders := WriteOrder(w.db.orders, write)),
       payWrites := w.payWrites + [PaymentWrite(row, HookState(kind), trace, kind)],
       changes := if write.Some? then w.changes + [Change(order, read, HookEvent(kind), write.value.to, HookTarget(kind))] else w.changes)
  }

  lemma HookReads(w: World, kind: Settlement, trace: nat, charge: nat, choice: Choice)
    requires trace < |w.traces| && w.traces[trace] < |w.db.orders| && Writes(w.db.payments, charge, kind)
    ensures var order, row := w.traces[trace], FindPayment(w.db.payments, charge);
            var read := w.db.orders[order].state;
            var paid := Some(PaymentWrite(row, HookState(kind), trace, kind));
            var write := LockedWrite(w, order, HookEvent(kind), read);
            Leads(At(w, HookPayment(kind, trace, charge), Empty), choice,
                  At(w, HookCommit(kind, trace, charge, read), Empty.(payment := paid, order := write)))
  {
    hide Leads, FindPayment, LockedWrite, StepProc, Next, AfterMoves;
    var order, row := w.traces[trace], FindPayment(w.db.payments, charge);
    var read := w.db.orders[order].state;
    var paid := Some(PaymentWrite(row, HookState(kind), trace, kind));
    var a := At(w, HookPayment(kind, trace, charge), Empty);
    var b := At(w, HookOrder(kind, trace, charge), Empty.(payment := paid));
    var c := At(w, HookLock(kind, trace, charge, read), Empty.(payment := paid));
    var d := At(w, HookCommit(kind, trace, charge, read),
                Empty.(payment := paid, order := LockedWrite(w, order, HookEvent(kind), read)));
    HookStepsAlone(a, choice);
    HookStepsAlone(b, choice);
    HookStepsAlone(c, choice);
    assert StepHook(a, 0) == b;
    assert StepHook(b, 0) == c;
    LockedWriteSame(w, c, order, HookEvent(kind), read);
    assert StepHook(c, 0) == d;
    OneStep(c, d, choice);
    LeadsStep(b, c, d, choice);
    LeadsStep(a, b, d, choice);
  }

  lemma HookCommits(w: World, kind: Settlement, trace: nat, charge: nat, choice: Choice)
    requires trace < |w.traces| && w.traces[trace] < |w.db.orders| && Writes(w.db.payments, charge, kind)
    ensures var order, row := w.traces[trace], FindPayment(w.db.payments, charge);
            var read := w.db.orders[order].state;
            var paid := Some(PaymentWrite(row, HookState(kind), trace, kind));
            var write := LockedWrite(w, order, HookEvent(kind), read);
            StepProc(At(w, HookCommit(kind, trace, charge, read), Empty.(payment := paid, order := write)), 0, choice) ==
            At(PaymentSettled(w, kind, trace, charge),
               if kind == Succeeded && write.Some? then Transition(order, StartCooking, Begin, PaidCook) else Finished, Empty)
  {
    hide FindPayment, LockedWrite, StepProc, Next, AfterMoves;
    NoMoves(w.db);
    var order, row := w.traces[trace], FindPayment(w.db.payments, charge);
    var read := w.db.orders[order].state;
    var paid := Some(PaymentWrite(row, HookState(kind), trace, kind));
    WrittenAs(w, order, HookEvent(kind), read);
    HookStepsAlone(At(w, HookCommit(kind, trace, charge, read),
                      Empty.(payment := paid, order := LockedWrite(w, order, HookEvent(kind), read))), choice);
  }

  /** From the payment row's write to the commit. */
  lemma HookWritten(w: World, kind: Settlement, trace: nat, charge: nat, choice: Choice)
    requires trace < |w.traces| && w.traces[trace] < |w.db.orders| && Writes(w.db.payments, charge, kind)
    ensures var order := w.traces[trace];
            var write := LockedWrite(w, order, HookEvent(kind), w.db.orders[order].state);
            Leads(At(w, HookPayment(kind, trace, charge), Empty), choice,
                  At(PaymentSettled(w, kind, trace, charge),
                     if kind == Succeeded && write.Some? then Transition(order, StartCooking, Begin, PaidCook) else Finished, Empty))
  {
    hide Leads, FindPayment, LockedWrite, StepProc, PaymentSettled;
    var order, row := w.traces[trace], FindPayment(w.db.payments, charge);
    var read := w.db.orders[order].state;
    var paid := Some(PaymentWrite(row, HookState(kind), trace, kind));
    var write := LockedWrite(w, order, HookEvent(kind), read);
    var d := At(w, HookCommit(kind, trace, charge, read), Empty.(payment := paid, order := write));
    var f := At(PaymentSettled(w, kind, trace, charge),
                if kind == Succeeded && write.Some? then Transition(order, StartCooking, Begin, PaidCook) else Finished, Empty);
    HookReads(w, kind, trace, charge, choice);
    HookCommits(w, kind, trace, charge, choice);
    OneStep(d, f, choice);
    LeadsTrans(At(w, HookPayment(kind, trace, charge), Empty), d, f, choice);
  }

  lemma LockedWriteSame(w: World, v: World, order: nat, e: OrderEvent, read: OrderState)
    requires v.db == w.db
    ensures LockedWrite(v, order, e, read) == LockedWrite(w, order, e, read)
  {
  }

  lemma WrittenAs(w: World, order: nat, e: OrderEvent, read: OrderState)
    ensures match LockedWrite(w, order, e, read)
            case Some(write) => write.order == order && write.from == read && write.event == e
            case None => true
  {
  }

  /** A new notification that finds its payment settled, or no order. */
  lemma HookIdle(w: World, kind: Settlement, trace: nat, charge: nat, choice: Choice)
    requires trace < |w.traces| && (w.traces[trace] >= |w.db.orders| || !Writes(w.db.payments, charge, kind))
    ensures Leads(At(w, HookPayment(kind, trace, charge), Empty), choice, At(w, Finished, Empty))
  {
    hide Leads, FindPayment, LockedWrite;
    var b, f := At(w, HookPayment(kind, trace, charge), Empty), At(w, Finished, Empty);
    if !Writes(w.db.payments, charge, kind) {
      assert StepProc(b, 0, choice) == f;
      OneStep(b, f, choice);
    } else {
      var row := FindPayment(w.db.payments, charge);
      var c := At(w, HookOrder(kind, trace, charge), Empty.(payment := Some(PaymentWrite(row, HookState(kind), trace, kind))));
      assert StepProc(b, 0, choice) == c;
      assert StepProc(c, 0, choice) == f;
      OneStep(c, f, choice);
      LeadsStep(b, c, f, choice);
    }
  }

  lemma HookKeyed(w: World, kind: Settlement, trace: nat, charge: nat, choice: Choice)
    requires trace < |w.traces|
    ensures StepProc(At(w, HookRecord(kind, trace, charge), Empty), 0, choice) ==
            if HookKey(trace, kind) in w.db.keys then At(w, Finished, Empty)
            else At(w.(db := w.db.(keys := w.db.keys[HookKey(trace, kind) := Started])), HookPayment(kind, trace, charge), Empty)
  {
  }

  lemma HookRecorded(w: World, kind: Settlement, trace: nat, charge: nat, choice: Choice)
    requires trace < |w.traces| && charge < |w.charges| && MatchesProvider(w.db.payments, w.charges[charge], kind, charge)
    ensures Leads(At(w, HookRecord(kind, trace, charge), Empty), choice,
                  At(Notified(w, kind, trace, charge), AfterNotified(w, kind, trace, charge), Empty))
  {
    hide Leads, FindPayment, StepProc, Next, Writes, MatchesProvider;
    var a := At(w, HookRecord(kind, trace, charge), Empty);
    var f := At(Notified(w, kind, trace, charge), AfterNotified(w, kind, trace, charge), Empty);
    HookKeyed(w, kind, trace, charge, choice);
    if HookKey(trace, kind) in w.db.keys {
      OneStep(a, f, choice);
    } else {
      var keyed := w.(db := w.db.(keys := w.db.keys[HookKey(trace, kind) := Started]));
      if w.traces[trace] >= |w.db.orders| || !Writes(w.db.payments, charge, kind) {
        HookIdle(keyed, kind, trace, charge, choice);
      } else {
        HookWritten(keyed, kind, trace, charge, choice);
        LockedWriteKeyed(w, keyed, w.traces[trace], HookEvent(kind), w.db.orders[w.traces[trace]].state);
      }
      LeadsStep(a, At(keyed, HookPayment(kind, trace, charge), Empty), f, choice);
    }
  }

  /** A notification moves its order only from PAYMENT_PENDING. */
  lemma HookEdge(w: World, order: nat, kind: Settlement)
    requires order < |w.db.orders|
    ensures var read := w.db.orders[order].state;
            var write := LockedWrite(w, order, HookEvent(kind), read);
            && Next(read, HookEvent(kind)) == (if read == PaymentPending then Some(HookTarget(kind)) else None)
            && write == (if read == PaymentPending then Some(OrderWrite(order, read, HookEvent(kind), HookTarget(kind))) else None)
            && WriteOrder(w.db.orders, write) ==
               if read == PaymentPending then w.db.orders[order := w.db.orders[order].(state := HookTarget(kind))] else w.db.orders
  {
  }

  lemma LockedWriteKeyed(w: World, v: World, order: nat, e: OrderEvent, read: OrderState)
    requires v.db.orders == w.db.orders
    ensures LockedWrite(v, order, e, read) == LockedWrite(w, order, e, read)
  {
  }
}
