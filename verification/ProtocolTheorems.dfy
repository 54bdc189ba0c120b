/** What every run of the protocol guarantees, from an empty database with any catalogue and stock. */
module ProtocolTheorems {
  import opened Wrappers
  import opened OrderModel
  import opened Ledger
  import opened Money
  import opened Protocol
  import opened ProtocolInvariant
  import opened ProtocolFrame
  import opened ProtocolRoutes
  import opened ProtocolRuns
  import ProtocolTables

  /** The world after any run. */
  function After(catalog: map<nat, string>, stock: map<string, int>, actions: seq<Action>): World {
    Run(Initial(catalog, stock), actions)
  }

  lemma Reached(catalog: map<nat, string>, stock: map<string, int>, actions: seq<Action>)
    ensures Inv(After(catalog, stock, actions), stock)
  {
    InitialInv(catalog, stock);
    RunKeepsInv(Initial(catalog, stock), actions, stock);
  }

  // ----- the audit trail ---------------------------------------------------------------------------------

  function CookCount(changes: seq<Change>, o: nat): nat {
    if changes == [] then 0
    else
      var last := changes[|changes| - 1];
      CookCount(changes[..|changes| - 1], o) + if last.order == o && last.event == StartCooking then 1 else 0
  }

  lemma PathPrefix(changes: seq<Change>, n: nat)
    requires Path(changes) && n <= |changes|
    ensures Path(changes[..n])
  {
    forall k | 0 <= k < n
      ensures ChangeOk(changes[..n][k]) && changes[..n][k].from == LastState(changes[..n][..k], changes[..n][k].order)
    {
      assert changes[..n][..k] == changes[..k];
    }
  }

  lemma DraftIsNotCooking()
    ensures !CookingOrLater(Draft)
  {
  }

  /** On a path of the graph an order starts cooking once if it got that far, and never otherwise. */
  lemma {:induction false} CookedOnceOnPath(changes: seq<Change>, o: nat)
    requires Path(changes)
    ensures CookCount(changes, o) == if CookingOrLater(LastState(changes, o)) then 1 else 0
  {
    hide Next, CookingOrLater, Rank;
    if changes == [] {
      assert !CookingOrLater(Draft) by { DraftIsNotCooking(); }
    } else {
      var n := |changes| - 1;
      PathPrefix(changes, n);
      CookedOnceOnPath(changes[..n], o);
      assert ChangeOk(changes[n]);
      EdgeFacts(changes[n].from, changes[n].event, changes[n].to);
    }
  }

  /** CLOSED and CANCELLED absorb: whatever is appended, the order's state stays. */
  lemma {:induction false} TerminalAbsorbs(changes: seq<Change>, n: nat, o: nat)
    requires Path(changes) && n <= |changes|
    requires LastState(changes[..n], o) == Closed || LastState(changes[..n], o) == Cancelled
    ensures LastState(changes, o) == LastState(changes[..n], o)
  {
    hide Next, Rank, CookingOrLater;
    if n < |changes| {
      var m := |changes| - 1;
      PathPrefix(changes, m);
      assert changes[..m][..n] == changes[..n];
      TerminalAbsorbs(changes[..m], n, o);
      assert ChangeOk(changes[m]) && changes[m].from == LastState(changes[..m], changes[m].order);
      EdgeFacts(changes[m].from, changes[m].event, changes[m].to);
    } else {
      assert changes[..n] == changes;
    }
  }

  /** A step appends at most one entry to the audit trail and forgets none. */
  lemma TrailGrows(w: World, a: Action)
    ensures var v := Apply(w, a); v.changes == w.changes || exists c :: v.changes == w.changes + [c]
  {
  }

  lemma {:induction false} RunTrailGrows(w: World, actions: seq<Action>)
    ensures var v := Run(w, actions); |w.changes| <= |v.changes| && v.changes[..|w.changes|] == w.changes
    decreases |actions|
  {
    if actions != [] {
      var u := Apply(w, actions[0]);
      TrailGrows(w, actions[0]);
      RunTrailGrows(u, actions[1..]);
      assert Run(w, actions).changes[..|w.changes|] == Run(w, actions).changes[..|u.changes|][..|w.changes|];
    }
  }

  // ----- theorems ------------------------------------------------------------------------------------------

  /** START_COOKING takes effect exactly once for an order that is cooking or later, and not at all
      otherwise (CANCELLED included): its state change, its kitchen ticket and its batch of SALE rows,
      which is exactly what its frozen lines plan for the tracked skus. */
  lemma CookedExactlyOnce(catalog: map<nat, string>, stock: map<string, int>, actions: seq<Action>, o: nat)
    requires o < |After(catalog, stock, actions).db.orders|
    ensures var w := After(catalog, stock, actions);
            var order := w.db.orders[o];
            if CookingOrLater(order.state) then
              && CookCount(w.changes, o) == 1
              && TicketCount(w.db.tickets, o) == 1
              && SaleRows(w.db.ledger, o) == Plan(w.db.catalog, w.db.stock.Keys, order.req.items)
            else
              && CookCount(w.changes, o) == 0
              && TicketCount(w.db.tickets, o) == 0
              && SaleRows(w.db.ledger, o) == []
  {
    Reached(catalog, stock, actions);
    var w := After(catalog, stock, actions);
    assert OrderOk(w, o);
    CookedOnceOnPath(w.changes, o);
  }

  /** An order placed with an online method that is PAID or later has a SUCCESS payment row for the
      total computed from its frozen items, and the provider settled that charge for that amount. */
  lemma NoPaidStateWithoutMoney(catalog: map<nat, string>, stock: map<string, int>, actions: seq<Action>, o: nat)
    requires var w := After(catalog, stock, actions);
             o < |w.db.orders| && w.db.orders[o].req.online && PaidOrLater(w.db.orders[o].state)
    ensures var w := After(catalog, stock, actions);
            exists r :: 0 <= r < |w.db.payments|
              && w.db.payments[r].order == o
              && w.db.payments[r].state == Success
              && w.db.payments[r].amount == Amount(Total(w.db.orders[o].req), "RUB")
              && w.db.payments[r].charge < |w.charges|
              && w.charges[w.db.payments[r].charge].status == Some(Succeeded)
              && w.charges[w.db.payments[r].charge].amount == w.db.payments[r].amount
  {
    Reached(catalog, stock, actions);
    var w := After(catalog, stock, actions);
    assert OrderOk(w, o);
    var r :| 0 <= r < |w.db.payments| && w.db.payments[r].order == o && w.db.payments[r].state == Success;
    assert PaymentOk(w, r);
  }

  /** Orders and kitchen tickets stay coupled: every ticket belongs to an order that is cooking or
      later and is that order's only ticket; once the order is being packed the ticket is HANDED_OFF;
      and only a pickup order is ever CLOSED. */
  lemma OrdersAndTicketsCoupled(catalog: map<nat, string>, stock: map<string, int>, actions: seq<Action>)
    ensures var w := After(catalog, stock, actions);
            && (forall t :: 0 <= t < |w.db.tickets| ==>
                 && w.db.tickets[t].order < |w.db.orders|
                 && CookingOrLater(w.db.orders[w.db.tickets[t].order].state)
                 && (PackingOrLater(w.db.orders[w.db.tickets[t].order].state) ==> w.db.tickets[t].state == HandedOff))
            && (forall t, u | 0 <= t < |w.db.tickets| && 0 <= u < |w.db.tickets| ::
                 w.db.tickets[t].order == w.db.tickets[u].order ==> t == u)
            && (forall o :: 0 <= o < |w.db.orders| && CookingOrLater(w.db.orders[o].state) ==>
                 TicketCount(w.db.tickets, o) == 1)
            && (forall o :: 0 <= o < |w.db.orders| && w.db.orders[o].state == Closed ==> w.db.orders[o].req.pickup)
  {
    Reached(catalog, stock, actions);
    var w := After(catalog, stock, actions);
    forall t | 0 <= t < |w.db.tickets|
      ensures w.db.tickets[t].order < |w.db.orders| && CookingOrLater(w.db.orders[w.db.tickets[t].order].state)
      ensures PackingOrLater(w.db.orders[w.db.tickets[t].order].state) ==> w.db.tickets[t].state == HandedOff
    {
      assert TicketOk(w, t) && OrderOk(w, w.db.tickets[t].order);
      ProtocolTables.TicketCountPositive(w.db.tickets, t);
    }
    forall t, u | 0 <= t < |w.db.tickets| && 0 <= u < |w.db.tickets| && w.db.tickets[t].order == w.db.tickets[u].order
      ensures t == u
    {
      assert TicketOk(w, t) && OrderOk(w, w.db.tickets[t].order);
      ProtocolTables.OnlyTicket(w.db.tickets, t, u);
    }
    forall o | 0 <= o < |w.db.orders|
      ensures CookingOrLater(w.db.orders[o].state) ==> TicketCount(w.db.tickets, o) == 1
      ensures w.db.orders[o].state == Closed ==> w.db.orders[o].req.pickup
    {
      assert OrderOk(w, o);
    }
  }

  /** Checkout is idempotent per client key under interleaved and aborted requests: at most one
      order is ever created for a key, every successful response names that order, and any two
      successful responses for the key are equal. */
  lemma CheckoutIdempotent(catalog: map<nat, string>, stock: map<string, int>, actions: seq<Action>)
    ensures var w := After(catalog, stock, actions);
            && (forall a, b | 0 <= a < |w.db.orders| && 0 <= b < |w.db.orders| ::
                 w.db.orders[a].req.key == w.db.orders[b].req.key ==> a == b)
            && (forall k :: 0 <= k < |w.replies| ==>
                 w.replies[k].order < |w.db.orders| && w.db.orders[w.replies[k].order].req.key == w.replies[k].key)
            && (forall k, n :: 0 <= k < |w.replies| && 0 <= n < |w.replies| && w.replies[k].key == w.replies[n].key ==>
                 w.replies[k] == w.replies[n])
  {
    Reached(catalog, stock, actions);
    var w := After(catalog, stock, actions);
    forall k | 0 <= k < |w.replies|
      ensures w.replies[k].order < |w.db.orders| && w.db.orders[w.replies[k].order].req.key == w.replies[k].key
    {
      assert ReplyOk(w, w.replies[k]);
      assert CheckoutKey(w.replies[k].key) in w.db.keys;
    }
    forall k, n | 0 <= k < |w.replies| && 0 <= n < |w.replies| && w.replies[k].key == w.replies[n].key
      ensures w.replies[k] == w.replies[n]
    {
      assert ReplyOk(w, w.replies[k]) && ReplyOk(w, w.replies[n]);
    }
  }

  /** Despite the unlocked first read, every committed change of an order's state is an edge of the
      graph from the state the order was left in, is what was reported to the caller, and the row holds
      the end of that path; an order with k payment failures changes at most 9 + 2k times. */
  lemma EveryChangeIsAnEdge(catalog: map<nat, string>, stock: map<string, int>, actions: seq<Action>)
    ensures var w := After(catalog, stock, actions);
            && (forall k :: 0 <= k < |w.changes| ==>
                 && Next(w.changes[k].from, w.changes[k].event) == Some(w.changes[k].to)
                 && w.changes[k].reported == w.changes[k].to
                 && w.changes[k].from == LastState(w.changes[..k], w.changes[k].order))
            && (forall o :: 0 <= o < |w.db.orders| ==>
                 && w.db.orders[o].state == LastState(w.changes, o)
                 && ChangeCount(w.changes, o) <= 9 + 2 * FailureCount(w.changes, o))
  {
    Reached(catalog, stock, actions);
    var w := After(catalog, stock, actions);
    assert forall k :: 0 <= k < |w.changes| ==> ChangeOk(w.changes[k]);
  }

  /** The events of one order, in order. */
  function Trail(changes: seq<Change>, o: nat): seq<OrderEvent> {
    if changes == [] then []
    else
      var last := changes[|changes| - 1];
      Trail(changes[..|changes| - 1], o) + if last.order == o then [last.event] else []
  }

  /** Confirmation and k payment attempts that failed. */
  function Attempts(k: nat): seq<OrderEvent> {
    if k == 0 then [Confirm] else Attempts(k - 1) + [RequestPayment, PaymentFailed]
  }

  /** The whole life of an order up to cooking: the failed attempts, then either a successful payment or none. */
  function UpToCooking(k: nat, paid: bool): seq<OrderEvent> {
    Attempts(k) + (if paid then [RequestPayment, PaymentConfirmed] else []) + [StartCooking]
  }

  /** The trails with which an order can be in a state. */
  predicate LeadsHere(trail: seq<OrderEvent>, k: nat, paid: bool, s: OrderState) {
    match s
    case Draft => trail == []
    case Confirmed => trail == Attempts(k)
    case PaymentPending => trail == Attempts(k) + [RequestPayment]
    case Paid => trail == Attempts(k) + [RequestPayment, PaymentConfirmed]
    case Cooking => trail == UpToCooking(k, paid)
    case Packing => trail == UpToCooking(k, paid) + [StartPacking]
    case CourierAssigned => trail == UpToCooking(k, paid) + [StartPacking, AssignCourier]
    case Delivering => trail == UpToCooking(k, paid) + [StartPacking, AssignCourier, Pickup]
    case Delivered => trail == UpToCooking(k, paid) + [StartPacking, AssignCourier, Pickup, Deliver]
    case Closed =>
      || trail == UpToCooking(k, paid) + [StartPacking, Close]
      || trail == UpToCooking(k, paid) + [StartPacking, AssignCourier, Pickup, Deliver, Close]
    case Cancelled =>
      || trail == [Cancel]
      || trail == Attempts(k) + [Cancel]
      || trail == Attempts(k) + [RequestPayment, Cancel]
      || trail == Attempts(k) + [RequestPayment, PaymentConfirmed, Cancel]
  }

  ghost predicate HasHistory(trail: seq<OrderEvent>, s: OrderState) {
    exists k: nat, paid: bool :: LeadsHere(trail, k, paid, s)
  }

  lemma OneMoreEvent(trail: seq<OrderEvent>, s: OrderState, e: OrderEvent, to: OrderState)
    requires HasHistory(trail, s) && Next(s, e) == Some(to)
    ensures HasHistory(trail + [e], to)
  {
    var k: nat, paid: bool :| LeadsHere(trail, k, paid, s);
    var next := trail + [e];
    match e
    case Confirm => assert Attempts(0) == next; assert LeadsHere(next, 0, paid, to);
    case PaymentFailed => assert Attempts(k + 1) == next; assert LeadsHere(next, k + 1, paid, to);
    case StartCooking => assert UpToCooking(k, s == Paid) == next; assert LeadsHere(next, k, s == Paid, to);
    case _ => assert LeadsHere(next, k, paid, to);
  }

  lemma {:induction false} PathHasHistory(changes: seq<Change>, o: nat)
    requires Path(changes)
    ensures HasHistory(Trail(changes, o), LastState(changes, o))
  {
    hide Next, LeadsHere, Rank;
    if changes == [] {
      assert LeadsHere([], 0, false, Draft) by { NoHistory(); }
    } else {
      var n := |changes| - 1;
      PathPrefix(changes, n);
      PathHasHistory(changes[..n], o);
      assert ChangeOk(changes[n]) && changes[n].from == LastState(changes[..n], changes[n].order);
      if changes[n].order == o {
        OneMoreEvent(Trail(changes[..n], o), changes[n].from, changes[n].event, changes[n].to);
      } else {
        assert Trail(changes, o) == Trail(changes[..n], o);
      }
    }
  }

  lemma NoHistory()
    ensures LeadsHere([], 0, false, Draft)
  {
  }

  /** After any run the events of an order are one of the few trails that its state admits: confirmation, failed
      payment attempts, at most one successful payment, cooking, packing, then the courier's three events in
      order or none of them, closing; or a cancellation before cooking. */
  lemma OrderHistory(catalog: map<nat, string>, stock: map<string, int>, actions: seq<Action>, o: nat)
    requires o < |After(catalog, stock, actions).db.orders|
    ensures var w := After(catalog, stock, actions);
            HasHistory(Trail(w.changes, o), w.db.orders[o].state)
  {
    Reached(catalog, stock, actions);
    PathHasHistory(After(catalog, stock, actions).changes, o);
  }

  /** CLOSED and CANCELLED are final: no continuation of the run changes the order again. */
  lemma TerminalOrdersStay(catalog: map<nat, string>, stock: map<string, int>, actions: seq<Action>, more: seq<Action>, o: nat)
    requires var w := After(catalog, stock, actions);
             o < |w.db.orders| && (w.db.orders[o].state == Closed || w.db.orders[o].state == Cancelled)
    ensures var w := After(catalog, stock, actions);
            var v := Run(w, more);
            o < |v.db.orders| && v.db.orders[o].state == w.db.orders[o].state
            && ChangeCount(v.changes, o) == ChangeCount(w.changes, o)
  {
    Reached(catalog, stock, actions);
    var w := After(catalog, stock, actions);
    var v := Run(w, more);
    RunKeepsInv(w, more, stock);
    RunTrailGrows(w, more);
    OrdersStay(w, more, o, stock);
    TerminalAbsorbs(v.changes, |w.changes|, o);
    NoLaterChange(v.changes, |w.changes|, o);
  }

  lemma {:induction false} NoLaterChange(changes: seq<Change>, n: nat, o: nat)
    requires Path(changes) && n <= |changes|
    requires LastState(changes[..n], o) == Closed || LastState(changes[..n], o) == Cancelled
    ensures ChangeCount(changes, o) == ChangeCount(changes[..n], o)
  {
    hide Next, Rank, CookingOrLater;
    if n < |changes| {
      var m := |changes| - 1;
      PathPrefix(changes, m);
      assert changes[..m][..n] == changes[..n];
      NoLaterChange(changes[..m], n, o);
      TerminalAbsorbs(changes[..m], n, o);
      assert ChangeOk(changes[m]);
      EdgeFacts(changes[m].from, changes[m].event, changes[m].to);
    } else {
      assert changes[..n] == changes;
    }
  }

  lemma OrderStays(w: World, a: Action, o: nat, start: map<string, int>)
    requires Inv(w, start) && o < |w.db.orders|
    ensures o < |Apply(w, a).db.orders|
  {
    hide StepTransition, StepPay, StepHook, StepTicket, StepCheckout, AfterMoves;
    if a.Step? && a.proc < |w.procs| {
      assert TxOk(w, w.procs[a.proc]);
      ProcFrame(w, a.proc, a.choice);
    }
  }

  lemma {:induction false} OrdersStay(w: World, actions: seq<Action>, o: nat, start: map<string, int>)
    requires Inv(w, start) && o < |w.db.orders|
    ensures o < |Run(w, actions).db.orders|
    decreases |actions|
  {
    hide Inv, Apply;
    if actions != [] {
      OrderStays(w, actions[0], o, start);
      ActionKeepsInv(w, actions[0], start);
      OrdersStay(Apply(w, actions[0]), actions[1..], o, start);
    }
  }

  /** With a provider whose terminal status never changes, under any interleaving of duplicate
      notifications: local SUCCESS means the provider succeeded for the same amount and currency,
      local FAILED means it canceled. */
  lemma PaymentMatchesProvider(catalog: map<nat, string>, stock: map<string, int>, actions: seq<Action>, r: nat)
    requires r < |After(catalog, stock, actions).db.payments|
    ensures var w := After(catalog, stock, actions);
            var row := w.db.payments[r];
            && row.charge < |w.charges|
            && (row.state == Success ==>
                 w.charges[row.charge].status == Some(Succeeded) && w.charges[row.charge].amount == row.amount)
            && (row.state == Failed ==> w.charges[row.charge].status == Some(Canceled))
  {
    Reached(catalog, stock, actions);
    assert PaymentOk(After(catalog, stock, actions), r);
  }

  /** Two different log entries are never for the same trace and event kind: each payment is written
      at most once per trace and kind, however often a notification is delivered. */
  lemma NoRepeatedPaymentWrite(catalog: map<nat, string>, stock: map<string, int>, actions: seq<Action>, a: nat, b: nat)
    requires a < b < |After(catalog, stock, actions).payWrites|
    ensures var log := After(catalog, stock, actions).payWrites;
            log[a].trace != log[b].trace || log[a].kind != log[b].kind
  {
    Reached(catalog, stock, actions);
    var log := After(catalog, stock, actions).payWrites;
    assert (log[a].trace, log[a].kind) != (log[b].trace, log[b].kind);
  }

  /** A transaction writes payment states only to SUCCESS or FAILED. */
  lemma PaymentTargets(w: World, p: Proc)
    requires TxOk(w, p) && p.tx.payment.Some?
    ensures p.tx.payment.value.to != Pending
  {
  }

  /** A step changes a payment row only by a logged write to a terminal state. */
  ghost predicate RowMove(w: World, v: World, r: nat)
    requires r < |w.db.payments|
  {
    && r < |v.db.payments| && v.db.payments[r] == w.db.payments[r].(state := v.db.payments[r].state)
    && (v.db.payments[r].state != w.db.payments[r].state ==>
         && v.db.payments[r].state != Pending
         && |v.payWrites| == |w.payWrites| + 1 && v.payWrites[|w.payWrites|].row == r
         && v.payWrites[|w.payWrites|].to == v.db.payments[r].state)
  }

  lemma PaymentRowStep(w: World, a: Action, r: nat, start: map<string, int>)
    requires Inv(w, start) && r < |w.db.payments|
    ensures RowMove(w, Apply(w, a), r)
  {
    if a.Step? && a.proc < |w.procs| {
      var p := w.procs[a.proc];
      assert TxOk(w, p);
      ProcFrame(w, a.proc, a.choice);
      if p.tx.payment.Some? {
        PaymentTargets(w, p);
      }
    }
  }

  lemma SettledStays(w: World, a: Action, c: nat, start: map<string, int>)
    requires Inv(w, start) && c < |w.charges| && w.charges[c].status.Some?
    ensures c < |Apply(w, a).charges| && Apply(w, a).charges[c].status == w.charges[c].status
  {
    hide StepTransition, StepPay, StepHook, StepTicket, StepCheckout, AfterMoves;
    if a.Step? && a.proc < |w.procs| {
      assert TxOk(w, w.procs[a.proc]);
      ProcFrame(w, a.proc, a.choice);
    }
  }

  lemma TerminalRowStays(w: World, v: World, r: nat)
    requires r < |w.db.payments| && RowMove(w, v, r) && w.db.payments[r].state != Pending
    requires PaymentOk(w, r) && PaymentOk(v, r)
    requires var c := w.db.payments[r].charge; c < |v.charges| && v.charges[c].status == w.charges[c].status
    ensures v.db.payments[r] == w.db.payments[r]
  {
  }

  /** A payment that reached SUCCESS or FAILED is never overwritten. */
  lemma TerminalPaymentsStay(catalog: map<nat, string>, stock: map<string, int>, actions: seq<Action>, a: Action, r: nat)
    requires var w := After(catalog, stock, actions);
             r < |w.db.payments| && w.db.payments[r].state != Pending
    ensures var w := After(catalog, stock, actions);
            var v := Apply(w, a);
            r < |v.db.payments| && v.db.payments[r] == w.db.payments[r]
  {
    Reached(catalog, stock, actions);
    var w := After(catalog, stock, actions);
    PaymentRowStep(w, a, r, stock);
    ActionKeepsInv(w, a, stock);
    assert PaymentOk(w, r) && PaymentOk(Apply(w, a), r);
    SettledStays(w, a, w.db.payments[r].charge, stock);
    TerminalRowStays(w, Apply(w, a), r);
  }

  // ----- stranded idempotency keys -----------------------------------------------------------------------

  /** A key that was recorded before the work it guards, with nobody left to do that work. */
  ghost predicate Stranded(w: World, key: Key) {
    && key in w.db.keys && w.db.keys[key] == Started
    && forall j :: 0 <= j < |w.procs| ==> OwnedKey(w.procs[j].job) != Some(key)
  }

  /** No payment write is logged under the key. */
  ghost predicate Unwritten(w: World, key: Key) {
    forall n :: 0 <= n < |w.payWrites| ==> HookKey(w.payWrites[n].trace, w.payWrites[n].kind) != key
  }

  /** v has the orders of w and perhaps others, none of them for the key. */
  ghost predicate NoNewOrder(w: World, v: World, key: Key) {
    && |w.db.orders| <= |v.db.orders|
    && (forall o :: 0 <= o < |w.db.orders| ==> v.db.orders[o].req == w.db.orders[o].req)
    && forall o :: |w.db.orders| <= o < |v.db.orders| ==> CheckoutKey(v.db.orders[o].req.key) != key
  }

  /** A request that dies strands the key it was working under. */
  lemma CrashStrandsKey(catalog: map<nat, string>, stock: map<string, int>, actions: seq<Action>, i: nat, key: Key)
    requires var w := After(catalog, stock, actions);
             i < |w.procs| && OwnedKey(w.procs[i].job) == Some(key)
    ensures var v := Apply(After(catalog, stock, actions), Crash(i));
            Stranded(v, key) && Unwritten(v, key)
  {
    Reached(catalog, stock, actions);
    var w := After(catalog, stock, actions);
    assert OwnerOk(w, w.procs[i].job);
    forall j | 0 <= j < |w.procs| && j != i ensures OwnedKey(w.procs[j].job) != Some(key) {
      assert OwnersDiffer(w.procs[j].job, w.procs[i].job);
    }
  }

  lemma WriterOwnsKey(w: World, p: Proc)
    requires TxOk(w, p) && p.tx.payment.Some?
    ensures OwnedKey(p.job) == Some(HookKey(p.tx.payment.value.trace, p.tx.payment.value.kind))
  {
  }

  lemma StrandedStep(w: World, i: nat, choice: Choice, key: Key)
    requires i < |w.procs| && TxOk(w, w.procs[i]) && Stranded(w, key)
    ensures var v := StepProc(w, i, choice);
            Stranded(v, key) && (Unwritten(w, key) ==> Unwritten(v, key)) && NoNewOrder(w, v, key)
  {
    ProcFrame(w, i, choice);
    hide StepProc, OwnedKey, TxOk;
    if w.procs[i].tx.payment.Some? {
      WriterOwnsKey(w, w.procs[i]);
    }
  }

  lemma StrandedStays(w: World, a: Action, key: Key, start: map<string, int>)
    requires Inv(w, start) && Stranded(w, key)
    ensures var v := Apply(w, a);
            Stranded(v, key) && (Unwritten(w, key) ==> Unwritten(v, key)) && NoNewOrder(w, v, key)
  {
    hide StepTransition, StepPay, StepHook, StepTicket, StepCheckout, AfterMoves;
    if a.Step? && a.proc < |w.procs| {
      assert TxOk(w, w.procs[a.proc]);
      StrandedStep(w, a.proc, a.choice, key);
    }
  }

  lemma {:induction false} StrandedForever(w: World, more: seq<Action>, key: Key, start: map<string, int>)
    requires Inv(w, start) && Stranded(w, key)
    ensures var v := Run(w, more);
            Inv(v, start) && Stranded(v, key) && (Unwritten(w, key) ==> Unwritten(v, key)) && NoNewOrder(w, v, key)
    decreases |more|
  {
    hide Inv, Apply, Stranded, Unwritten;
    if more != [] {
      StrandedStays(w, more[0], key, start);
      ActionKeepsInv(w, more[0], start);
      StrandedForever(Apply(w, more[0]), more[1..], key, start);
    }
  }

  /** A stranded key is never worked on again, in any continuation: a stranded notification never writes
      its payment, and a stranded checkout neither creates an order nor gets an answer. */
  lemma StrandedKeyIsInert(catalog: map<nat, string>, stock: map<string, int>, actions: seq<Action>, more: seq<Action>, key: Key)
    requires Stranded(After(catalog, stock, actions), key)
    ensures var w := After(catalog, stock, actions);
            var v := Run(w, more);
            && Stranded(v, key)
            && (Unwritten(w, key) ==> Unwritten(v, key))
            && NoNewOrder(w, v, key)
            && forall k :: 0 <= k < |v.replies| ==> CheckoutKey(v.replies[k].key) != key
  {
    Reached(catalog, stock, actions);
    var w := After(catalog, stock, actions);
    StrandedForever(w, more, key, stock);
    var v := Run(w, more);
    forall k | 0 <= k < |v.replies| ensures CheckoutKey(v.replies[k].key) != key {
      assert ReplyOk(v, v.replies[k]);
    }
  }

  /** Stock is conserved at every committed point under any interleaving of reservations and stock
      writers: the quantity is the starting quantity plus all recorded movements. */
  lemma StockConserved(catalog: map<nat, string>, stock: map<string, int>, actions: seq<Action>, sku: string)
    requires sku in stock
    ensures var w := After(catalog, stock, actions);
            sku in w.db.stock && w.db.stock[sku] == stock[sku] + Net(w.db.ledger, sku)
  {
    Reached(catalog, stock, actions);
  }

  /** Every SALE row's below_zero flag is the truth about the running quantity after that row, although
      reservations interleave with each other and with other stock writers. */
  lemma BelowZeroFlagsTruthful(catalog: map<nat, string>, stock: map<string, int>, actions: seq<Action>, k: nat)
    requires var w := After(catalog, stock, actions); k < |w.db.ledger| && w.db.ledger[k].reason == Sale
    ensures var w := After(catalog, stock, actions);
            var row := w.db.ledger[k];
            && row.sku in stock
            && (row.belowZero <==> stock[row.sku] + Net(w.db.ledger[..k + 1], row.sku) < 0)
  {
    Reached(catalog, stock, actions);
    assert FlagTruthful(stock, After(catalog, stock, actions).db.ledger, k);
  }
}
