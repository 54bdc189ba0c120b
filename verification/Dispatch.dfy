/** Entry points: the routes and the staff buttons, served one request at a time. Whatever is requested, the
    tables keep the protocol's invariant. */
module Dispatch {
  import opened Wrappers
  import opened OrderModel
  import opened Ledger
  import opened Protocol
  import opened ProtocolInvariant
  import opened ProtocolRoutes
  import opened ProtocolTables
  import opened Solo
  import opened Services

  lemma {:induction false} StepsKeepInv(w: World, choice: Choice, n: nat, start: map<string, int>)
    requires Inv(w, start)
    ensures Inv(Steps(w, choice, n), start)
    decreases n
  {
    hide Inv, StepProc, Apply;
    if n > 0 {
      ActionKeepsInv(w, Step(0, choice), start);
      StepIsApply(w, choice);
      StepsKeepInv(StepProc(w, 0, choice), choice, n - 1, start);
    }
  }

  lemma StepIsApply(w: World, choice: Choice)
    ensures Apply(w, Step(0, choice)) == StepProc(w, 0, choice)
  {
    hide StepProc;
  }

  /** A finished request leaves nothing behind but the tables. */
  lemma DropFinished(v: World, start: map<string, int>)
    requires v.procs == [] && Inv(At(v, Finished, Empty), start)
    ensures Inv(v, start)
  {
    hide FlagsTruthful;
    var u := At(v, Finished, Empty);
    TablesSame(u, v);
    forall k | 0 <= k < |v.replies| ensures ReplyOk(v, v.replies[k]) {
      assert ReplyOk(u, u.replies[k]);
    }
  }

  /** A request that arrives and runs to its end keeps the invariant. */
  lemma ServedKeepsInv(w: World, a: Action, job: Job, choice: Choice, v: World, start: map<string, int>)
    requires Inv(w, start) && w.procs == [] && v.procs == []
    requires Apply(w, a) == At(w, job, Empty)
    requires Leads(At(w, job, Empty), choice, At(v, Finished, Empty))
    ensures Inv(v, start)
  {
    hide Inv, StepProc, Apply;
    ActionKeepsInv(w, a, start);
    var n: nat :| Steps(At(w, job, Empty), choice, n) == At(v, Finished, Empty);
    StepsKeepInv(At(w, job, Empty), choice, n, start);
    DropFinished(v, start);
  }

  /** The checkout route: an empty cart is refused before anything is written. */
  method ServeCheckout(backend: Backend, req: Request, answer: Choice) returns (result: Outcome<Reply>)
    requires backend.Valid() && Answered(answer)
    modifies backend
    ensures backend.Valid()
    ensures req.items == [] ==> result.Raise? && backend.Idle() == old(backend.Idle())
    ensures req.items != [] ==> result == CheckoutAnswer(old(backend.db), req, answer)
    ensures req.items != [] && CheckoutKey(req.key) !in old(backend.db).keys && answer.ProviderSays? ==>
              result == Ok(Reply(req.key, |old(backend.db).orders|,
                                 if req.online && answer.token != "" then Some(answer.token) else None,
                                 if req.online && answer.url != "" then Some(answer.url) else None))
    ensures req.items != [] ==> backend.db == CheckedOut(old(backend.db), req, answer, |old(backend.charges)|)
    ensures backend.replies == if result.Ok? then old(backend.replies) + [result.result] else old(backend.replies)
  {
    hide Inv, Leads;
    if req.items == [] {
      return Raise("400");
    }
    ghost var was := backend.Idle();
    result := backend.Checkout(req, answer);
    ArrivesAs(was, ArriveCheckout(req), CheckoutStart(req));
    ServedKeepsInv(was, ArriveCheckout(req), CheckoutStart(req), answer, backend.Idle(), backend.start);
  }

  /** The pay_order route. */
  method ServePayOrder(backend: Backend, order: nat, amount: int, answer: Choice) returns (result: Outcome<(string, string)>)
    requires backend.Valid() && Answered(answer)
    modifies backend
    ensures backend.Valid()
    ensures result.Ok? <==> MayPay(old(backend.db), order, amount) && answer.ProviderSays?
    ensures result.Ok? ==>
              var was := old(backend.db);
              backend.db == was.(payments := was.payments + [Payment(order, |old(backend.charges)|, Amount(amount, "RUB"), Pending)],
                                 orders := was.orders[order := was.orders[order].(state := PaymentPending)])
    ensures result.Raise? ==> backend.db == old(backend.db)
  {
    hide Inv, Leads;
    ghost var was := backend.Idle();
    result := backend.PayOrder(order, amount, answer);
    ArrivesAs(was, ArrivePay(order, amount), PayGuard(order, amount));
    ServedKeepsInv(was, ArrivePay(order, amount), PayGuard(order, amount), answer, backend.Idle(), backend.start);
  }

  /** The payment webhook, for a notification whose trace id and payment id come from one create_payment call. */
  method ServeWebhook(backend: Backend, kind: Settlement, trace: nat, charge: nat, ghost choice: Choice) returns (success: bool)
    requires backend.Valid() && Answered(choice)
    requires charge < |backend.charges| && backend.charges[charge].trace == trace
    modifies backend
    ensures backend.Valid()
    ensures success <==> MovesOrder(old(backend.Idle()), kind, trace, charge)
    ensures backend.db == AfterNotice(old(backend.Idle()), kind, trace, charge)
  {
    hide Inv, Leads;
    ghost var was := backend.Idle();
    success := backend.YookassaWebhook(kind, trace, charge, choice);
    ArrivesAs(was, ArriveWebhook(kind, trace, charge), HookGate(kind, trace, charge));
    ServedKeepsInv(was, ArriveWebhook(kind, trace, charge), HookGate(kind, trace, charge), choice, backend.Idle(), backend.start);
  }

  /** dispatch_order: the role table first, then the transition. */
  method DispatchOrder(backend: Backend, role: StaffRole, order: nat, e: OrderEvent, ghost choice: Choice)
    returns (result: Outcome<OrderState>)
    requires backend.Valid() && Answered(choice)
    modifies backend
    ensures backend.Valid()
    ensures (backend.db, result) ==
            if RoleMayFire(role, e) then Transitioned(old(backend.db), order, e) else (old(backend.db), Raise("not allowed for this role"))
    ensures result.Ok? <==>
              && order < |old(backend.db).orders|
              && var state := old(backend.db).orders[order].state;
              || (e == AssignCourier && role in {CourierRole, StaffMember} && state == Packing)
              || (e == Pickup && role in {CourierRole, StaffMember} && state == CourierAssigned)
              || (e == Deliver && role in {CourierRole, StaffMember} && state == Delivering)
              || (e == Cancel && role in {AdminRole, StaffMember} && state in {Draft, Confirmed, PaymentPending, Paid})
    ensures result.Ok? ==>
              var was := old(backend.db);
              && backend.db == was.(orders := was.orders[order := was.orders[order].(state := result.result)])
              && result.result == match e
                                  case AssignCourier => CourierAssigned
                                  case Pickup => Delivering
                                  case Deliver => Delivered
                                  case _ => Cancelled
    ensures result.Raise? ==> backend.db == old(backend.db)
  {
    StaffEvents(role, e);
    hide Inv, Leads, RoleMayFire, Transitioned, AllowedIn, LeavesIn, Moved;
    if !RoleMayFire(role, e) {
      return Raise("not allowed for this role");
    }
    ghost var was := backend.Idle();
    result := backend.TransitionOrder(order, e, Caller.Dispatch, choice);
    ArrivesAs(was, ArriveStaff(role, order, e), Transition(order, e, Begin, Caller.Dispatch));
    DispatchEnds(was.db, order, result.Ok?);
    ServedKeepsInv(was, ArriveStaff(role, order, e), Transition(order, e, Begin, Caller.Dispatch), choice, backend.Idle(), backend.start);
  }

  /** dispatch_kitchen */
  method DispatchKitchen(backend: Backend, role: StaffRole, ticket: nat, e: KitchenEvent, ghost choice: Choice)
    returns (result: Outcome<KitchenState>)
    requires backend.Valid() && Answered(choice)
    modifies backend
    ensures backend.Valid()
    ensures result.Ok? <==> RoleMayCook(role) && ticket < |old(backend.db).tickets|
                            && KitchenNext(old(backend.db).tickets[ticket].state, e).Some?
    ensures backend.db == if result.Ok? then TicketMoved(old(backend.db), ticket, e) else old(backend.db)
    ensures result.Ok? <==>
              && role in {KitchenRole, StaffMember} && ticket < |old(backend.db).tickets|
              && old(backend.db).tickets[ticket].state == match e
                                                         case Queue => New
                                                         case StartPrep => Queued
                                                         case MarkReady => Preparing
                                                         case HandOff => Ready
    ensures result.Ok? ==> result.result == match e
                                            case Queue => Queued
                                            case StartPrep => Preparing
                                            case MarkReady => Ready
                                            case HandOff => HandedOff
  {
    KitchenEdges(role, e);
    hide Inv, Leads, RoleMayCook, TicketMoved, KitchenNext;
    if !RoleMayCook(role) {
      return Raise("not allowed for this role");
    }
    ghost var was := backend.Idle();
    result := backend.TransitionTicket(ticket, e, choice);
    ArrivesAs(was, ArriveKitchen(role, ticket, e), TicketBegin(ticket, e));
    ServedKeepsInv(was, ArriveKitchen(role, ticket, e), TicketBegin(ticket, e), choice, backend.Idle(), backend.start);
  }

  lemma KitchenEdges(role: StaffRole, e: KitchenEvent)
    ensures RoleMayCook(role) <==> role in {KitchenRole, StaffMember}
    ensures forall s :: KitchenNext(s, e) == match e
                                             case Queue => if s == New then Some(Queued) else None
                                             case StartPrep => if s == Queued then Some(Preparing) else None
                                             case MarkReady => if s == Preparing then Some(Ready) else None
                                             case HandOff => if s == Ready then Some(HandedOff) else None
  {
  }

  /** Who may fire what, where it is allowed, and where it leads. */
  lemma StaffEvents(role: StaffRole, e: OrderEvent)
    ensures RoleMayFire(role, e) <==>
            || (e in {AssignCourier, Pickup, Deliver} && role in {CourierRole, StaffMember})
            || (e == Cancel && role in {AdminRole, StaffMember})
    ensures RoleMayFire(role, e) ==>
              && (forall s :: AllowedIn(e, s) <==>
                   || (e == AssignCourier && s == Packing) || (e == Pickup && s == CourierAssigned)
                   || (e == Deliver && s == Delivering) || (e == Cancel && s in {Draft, Confirmed, PaymentPending, Paid}))
              && LeavesIn(e) == (match e
                                 case AssignCourier => CourierAssigned
                                 case Pickup => Delivering
                                 case Deliver => Delivered
                                 case _ => Cancelled)
              && forall db: Db, order: nat :: order < |db.orders| ==>
                   Moved(db, order, e) == db.(orders := db.orders[order := db.orders[order].(state := LeavesIn(e))])
  {
  }

  lemma DispatchEnds(db: Db, order: nat, ok: bool)
    ensures Following(db, order, Caller.Dispatch, ok) == Finished
  {
  }

  /** What each arrival starts, in an idle world. */
  lemma ArrivesAs(w: World, a: Action, job: Job)
    requires w.procs == []
    requires match a
             case ArriveCheckout(req) => req.items != [] && job == CheckoutStart(req)
             case ArrivePay(order, amount) => job == PayGuard(order, amount)
             case ArriveWebhook(kind, trace, charge) =>
               charge < |w.charges| && w.charges[charge].trace == trace && job == HookGate(kind, trace, charge)
             case ArriveStaff(role, order, e) => RoleMayFire(role, e) && job == Transition(order, e, Begin, Caller.Dispatch)
             case ArriveKitchen(role, ticket, e) => RoleMayCook(role) && job == TicketBegin(ticket, e)
             case _ => false
    ensures Apply(w, a) == At(w, job, Empty)
  {
  }
}
