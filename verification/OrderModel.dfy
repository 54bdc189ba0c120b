/** Order and kitchen vocabularies and their constant transition tables. */
module OrderModel {
  import opened Wrappers

  datatype OrderState =
    | Draft | Confirmed | PaymentPending | Paid | Cooking | Packing
    | CourierAssigned | Delivering | Delivered | Closed | Cancelled

  datatype OrderEvent =
    | Confirm | RequestPayment | PaymentConfirmed | PaymentFailed | StartCooking | StartPacking
    | AssignCourier | Pickup | Deliver | Close | Cancel

  datatype KitchenState = New | Queued | Preparing | Ready | HandedOff

  datatype KitchenEvent = Queue | StartPrep | MarkReady | HandOff

  datatype StaffRole = KitchenRole | CourierRole | AdminRole | StaffMember

  /** One line of an order, frozen at checkout. Checkout lines carry a product and no sku;
      lines written by the order agent carry a sku. */
  datatype Item = Item(sku: string, product: Option<nat>, price: nat, qty: int)

  /** The order graph; `None` is "event not allowed from this state". */
  function Next(s: OrderState, e: OrderEvent): Option<OrderState> {
    match (s, e)
    case (Draft, Confirm) => Some(Confirmed)
    case (Draft, Cancel) => Some(Cancelled)
    case (Confirmed, RequestPayment) => Some(PaymentPending)
    case (Confirmed, StartCooking) => Some(Cooking)
    case (Confirmed, Cancel) => Some(Cancelled)
    case (PaymentPending, PaymentConfirmed) => Some(Paid)
    case (PaymentPending, PaymentFailed) => Some(Confirmed)
    case (PaymentPending, Cancel) => Some(Cancelled)
    case (Paid, StartCooking) => Some(Cooking)
    case (Paid, Cancel) => Some(Cancelled)
    case (Cooking, StartPacking) => Some(Packing)
    case (Packing, AssignCourier) => Some(CourierAssigned)
    case (Packing, Close) => Some(Closed)
    case (CourierAssigned, Pickup) => Some(Delivering)
    case (Delivering, Deliver) => Some(Delivered)
    case (Delivered, Close) => Some(Closed)
    case _ => None
  }

  /** The graph read by events: the states in which an event is allowed. */
  predicate AllowedIn(e: OrderEvent, s: OrderState) {
    match e
    case Confirm => s == Draft
    case RequestPayment => s == Confirmed
    case PaymentConfirmed => s == PaymentPending
    case PaymentFailed => s == PaymentPending
    case StartCooking => s == Confirmed || s == Paid
    case StartPacking => s == Cooking
    case AssignCourier => s == Packing
    case Pickup => s == CourierAssigned
    case Deliver => s == Delivering
    case Close => s == Packing || s == Delivered
    case Cancel => s == Draft || s == Confirmed || s == PaymentPending || s == Paid
  }

  /** The state in which an event leaves the order, wherever it came from. */
  function LeavesIn(e: OrderEvent): OrderState {
    match e
    case Confirm => Confirmed
    case RequestPayment => PaymentPending
    case PaymentConfirmed => Paid
    case PaymentFailed => Confirmed
    case StartCooking => Cooking
    case StartPacking => Packing
    case AssignCourier => CourierAssigned
    case Pickup => Delivering
    case Deliver => Delivered
    case Close => Closed
    case Cancel => Cancelled
  }

  /** Both readings are the same graph: an event has one target state, and these sources. */
  lemma GraphByEvent(s: OrderState, e: OrderEvent)
    ensures Next(s, e) == if AllowedIn(e, s) then Some(LeavesIn(e)) else None
  {
  }

  function KitchenNext(s: KitchenState, e: KitchenEvent): Option<KitchenState> {
    match (s, e)
    case (New, Queue) => Some(Queued)
    case (Queued, StartPrep) => Some(Preparing)
    case (Preparing, MarkReady) => Some(Ready)
    case (Ready, HandOff) => Some(HandedOff)
    case _ => None
  }

  /** The state each of the four kitchen write tools insists on under the row lock. */
  function ExpectedTicketState(e: KitchenEvent): KitchenState {
    match e
    case Queue => New
    case StartPrep => Queued
    case MarkReady => Preparing
    case HandOff => Ready
  }

  /** The (from, to) arguments of the single-step program chosen for an event other than
      START_COOKING: CONFIRM and PAYMENT_FAILED have fixed programs, CANCEL takes its `from`
      from the context, every other event gets a program built from the state just read. */
  function SimpleProgram(e: OrderEvent, read: OrderState, to: OrderState): (OrderState, OrderState) {
    match e
    case Confirm => (Draft, Confirmed)
    case PaymentFailed => (PaymentPending, Confirmed)
    case Cancel => (read, Cancelled)
    case _ => (read, to)
  }

  predicate RoleMayFire(role: StaffRole, e: OrderEvent) {
    match role
    case KitchenRole => false
    case CourierRole => e in {AssignCourier, Pickup, Deliver}
    case AdminRole => e == Cancel
    case StaffMember => e in {AssignCourier, Pickup, Deliver, Cancel}
  }

  predicate RoleMayCook(role: StaffRole) {
    role == KitchenRole || role == StaffMember
  }

  predicate CookingOrLater(s: OrderState) {
    s in {Cooking, Packing, CourierAssigned, Delivering, Delivered, Closed}
  }

  predicate PackingOrLater(s: OrderState) {
    s in {Packing, CourierAssigned, Delivering, Delivered, Closed}
  }

  predicate PaidOrLater(s: OrderState) {
    s == Paid || CookingOrLater(s)
  }

  /** Length of the longest path from DRAFT without a payment failure. */
  function Rank(s: OrderState): (r: nat)
    ensures r <= 9
  {
    match s
    case Draft => 0
    case Confirmed => 1
    case PaymentPending => 2
    case Paid => 3
    case Cooking => 4
    case Packing => 5
    case CourierAssigned => 6
    case Delivering => 7
    case Delivered => 8
    case Closed => 9
    case Cancelled => 9
  }

  /** Every edge climbs the graph except a payment failure, cooking is entered only by START_COOKING
      and never left, and nothing leaves CLOSED or CANCELLED. */
  lemma EdgeFacts(from: OrderState, e: OrderEvent, to: OrderState)
    requires Next(from, e) == Some(to)
    ensures from != Closed && from != Cancelled
    ensures CookingOrLater(to) <==> CookingOrLater(from) || e == StartCooking
    ensures e == StartCooking ==> !CookingOrLater(from) && to == Cooking
    ensures Rank(from) + 1 <= Rank(to) + if e == PaymentFailed then 2 else 0
  {
  }
}
