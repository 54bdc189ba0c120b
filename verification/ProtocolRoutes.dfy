/** The payment, webhook and checkout routes keep the invariant; so does the environment. */
module ProtocolRoutes {
  import opened Wrappers
  import opened OrderModel
  import opened Ledger
  import opened Money
  import opened Protocol
  import opened ProtocolInvariant
  import opened ProtocolTables
  import opened ProtocolFrame
  import opened ProtocolAssembly
  import opened ProtocolCommit
  import opened ProtocolSteps

  // ----- PaymentService.create_payment -----------------------------------------------------------------

  /** Process i recorded a trace and, if the provider answered, a new charge. */
  ghost predicate CalledProvider(w: World, v: World, i: nat) {
    && OthersSame(w, v, i) && w.procs[i].job.PayCall?
    && v == w.(traces := w.traces + [w.procs[i].job.order], charges := v.charges, procs := v.procs)
    && (v.charges == w.charges || exists amount :: v.charges == w.charges + [Charge(|w.traces|, amount, None)])
    && var job := v.procs[i].job;
       && v.procs[i].tx == Empty && TxOk(v, v.procs[i]) && JobOk(v, job) && !job.CheckoutCreate?
       && (OwnedKey(job) == OwnedKey(w.procs[i].job) || OwnedKey(job) == None)
       && (OwnedCharge(job) == None || (OwnedCharge(job) == Some(|w.charges|) && v.charges != w.charges))
  }

  lemma ProviderCallProcs(w: World, v: World, i: nat)
    requires TablesOk(w) && ProcsOk(w) && LocksOk(w) && CalledProvider(w, v, i)
    ensures TablesOk(v) && ProcsOk(v) && LocksOk(v)
  {
    assert JobOk(w, w.procs[i].job);
    OutsideKeepsTables(w, v);
    EmptyIsCompatible(v, i);
    ProcsAndLocksKept(w, v, i);
  }

  lemma ProviderCallOwners(w: World, v: World, i: nat)
    requires OwnersOk(w) && KeysOk(w) && CalledProvider(w, v, i)
    requires forall r :: 0 <= r < |w.db.payments| ==> w.db.payments[r].charge < |w.charges|
    ensures OwnersOk(v) && KeysOk(v)
  {
    assert OwnerOk(w, w.procs[i].job);
    assert OwnerOk(v, v.procs[i].job);
    OwnersKept(w, v, i);
    assert forall k :: 0 <= k < |v.replies| ==> ReplyOk(w, w.replies[k]);
  }

  lemma ProviderCall(w: World, v: World, i: nat, start: map<string, int>)
    requires Inv(w, start) && CalledProvider(w, v, i)
    ensures Inv(v, start)
  {
    ProviderCallProcs(w, v, i);
    forall r | 0 <= r < |w.db.payments| ensures w.db.payments[r].charge < |w.charges| {
      assert PaymentOk(w, r);
    }
    ProviderCallOwners(w, v, i);
  }

  lemma PayCallStep(w: World, i: nat, choice: Choice, start: map<string, int>)
    requires Inv(w, start) && i < |w.procs| && w.procs[i].job.PayCall?
    ensures Inv(StepPay(w, i, choice), start)
  {
    var v := StepPay(w, i, choice);
    assert JobOk(w, w.procs[i].job);
    match choice
    case ProviderSays(charged, _, _) =>
      assert v.charges == w.charges + [Charge(|w.traces|, charged, None)];
      ProviderCall(w, v, i, start);
    case _ => ProviderCall(w, v, i, start);
  }

  lemma PayInsertStep(w: World, i: nat, start: map<string, int>)
    requires Inv(w, start) && i < |w.procs| && w.procs[i].job.PayInsert?
    ensures Inv(StepPay(w, i, Go), start)
  {
    var PayInsert(order, amount, charge, token, url, payer) := w.procs[i].job;
    assert JobOk(w, w.procs[i].job) && TxOk(w, w.procs[i]);
    var job := PayLock(order, charge, w.db.orders[order].state, token, url, payer);
    var tx := w.procs[i].tx.(newPayment := Some(Payment(order, charge, Amount(amount, "RUB"), Pending)));
    SameLocksCompatible(w, Put(w, i, job, tx), i);
    LocalStep(w, i, job, tx, start);
  }

  lemma PayLockStep(w: World, i: nat, start: map<string, int>)
    requires Inv(w, start) && i < |w.procs| && w.procs[i].job.PayLock?
    ensures Inv(StepPay(w, i, Go), start)
  {
    var PayLock(order, charge, read, token, url, payer) := w.procs[i].job;
    assert JobOk(w, w.procs[i].job) && TxOk(w, w.procs[i]);
    if Next(read, RequestPayment).None? || OrderFree(w, i, order) {
      var job := PayCommit(order, charge, read, token, url, payer);
      LockedWriteStep(w, i, job, order, RequestPayment, read, start);
    }
  }

  lemma PayGuardStep(w: World, i: nat, start: map<string, int>)
    requires Inv(w, start) && i < |w.procs| && w.procs[i].job.PayGuard?
    ensures Inv(StepPay(w, i, Go), start)
  {
    var PayGuard(order, amount) := w.procs[i].job;
    LeaveSession(w, i, Finished, start);
    if order < |w.db.orders| && amount == w.db.orders[order].total {
      LeaveSession(w, i, PayCall(order, amount, ForPay), start);
    }
  }

  predicate IsPay(job: Job) {
    job.PayGuard? || job.PayCall? || job.PayInsert? || job.PayLock? || job.PayCommit?
  }

  lemma PayStep(w: World, i: nat, choice: Choice, start: map<string, int>)
    requires Inv(w, start) && i < |w.procs| && IsPay(w.procs[i].job)
    ensures Inv(StepProc(w, i, choice), start)
  {
    hide TablesOk, StockOk, HistoryOk, LocksOk, OwnersOk, KeysOk;
    match w.procs[i].job
    case PayGuard(_, _) => PayGuardStep(w, i, start);
    case PayCall(_, _, _) => PayCallStep(w, i, choice, start);
    case PayInsert(_, _, _, _, _, _) => PayInsertStep(w, i, start);
    case PayLock(_, _, _, _, _, _) => PayLockStep(w, i, start);
    case PayCommit(_, _, _, _, _, _) => PayCommitStep(w, i, start);
  }

  /** Re-checking the order under its lock, after an unlocked read, inside a payment session. */
  lemma LockedWriteStep(w: World, i: nat, job: Job, order: nat, e: OrderEvent, read: OrderState, start: map<string, int>)
    requires Inv(w, start) && i < |w.procs| && w.procs[i].tx.order.None?
    requires w.procs[i].tx.ticket.None? && w.procs[i].tx.moves == []
    requires Next(read, e).None? || OrderFree(w, i, order)
    requires var tx := w.procs[i].tx.(order := LockedWrite(w, order, e, read));
             JobOk(w, job) && TxOk(w, Proc(job, tx))
    requires OwnedKey(job) == OwnedKey(w.procs[i].job) && OwnedCharge(job) == OwnedCharge(w.procs[i].job)
    requires !job.CheckoutCreate?
    ensures Inv(Put(w, i, job, w.procs[i].tx.(order := LockedWrite(w, order, e, read))), start)
  {
    var tx := w.procs[i].tx.(order := LockedWrite(w, order, e, read));
    if tx.order.Some? {
      OrderLockCompatible(w, Put(w, i, job, tx), i, order);
    } else {
      EmptyIsCompatible(Put(w, i, job, tx), i);
    }
    LocalStep(w, i, job, tx, start);
  }

  lemma PayCommitStep(w: World, i: nat, start: map<string, int>)
    requires Inv(w, start) && i < |w.procs| && w.procs[i].job.PayCommit?
    ensures Inv(StepPay(w, i, Go), start)
  {
    hide StockOk, HistoryOk, LocksOk, OwnersOk, KeysOk;
    var PayCommit(o, c, read, token, url, payer) := w.procs[i].job;
    var tx := w.procs[i].tx;
    assert JobOk(w, w.procs[i].job) && TxOk(w, w.procs[i]);
    var job := match payer case ForCheckout(req) => CheckoutSave(req, o, token, url) case ForPay => Finished;
    var v := Goto(Committed(w, i, PaymentPending), i, job);
    NoMoves(w.db);
    var mid := w.(db := w.db.(payments := w.db.payments + [tx.newPayment.value]));
    NewPaymentKeepsTables(w, mid, tx.newPayment.value);
    if tx.order.Some? {
      OrderWriteKeepsTables(mid, v, tx.order.value);
    } else {
      TablesSame(mid, v);
    }
    CommitStep(w, i, PaymentPending, job, start);
  }

  // ----- webhook ---------------------------------------------------------------------------------------

  lemma HookGateStep(w: World, i: nat, start: map<string, int>)
    requires Inv(w, start) && i < |w.procs| && w.procs[i].job.HookGate?
    ensures Inv(StepHook(w, i), start)
  {
    var HookGate(kind, trace, charge) := w.procs[i].job;
    assert JobOk(w, w.procs[i].job);
    LeaveSession(w, i, Finished, start);
    LeaveSession(w, i, HookVerify(kind, trace, charge, w.charges[charge]), start);
  }

  lemma HookVerifyStep(w: World, i: nat, start: map<string, int>)
    requires Inv(w, start) && i < |w.procs| && w.procs[i].job.HookVerify?
    ensures Inv(StepHook(w, i), start)
  {
    var HookVerify(kind, trace, charge, remote) := w.procs[i].job;
    assert JobOk(w, w.procs[i].job);
    LeaveSession(w, i, Finished, start);
    var row := FindPayment(w.db.payments, charge);
    if row < |w.db.payments| && remote.status == Some(kind) && remote.amount == w.db.payments[row].amount {
      assert Verified(w, kind, trace, charge);
      LeaveSession(w, i, HookRecord(kind, trace, charge), start);
    }
  }

  lemma HookRecordStep(w: World, i: nat, start: map<string, int>)
    requires Inv(w, start) && i < |w.procs| && w.procs[i].job.HookRecord?
    ensures Inv(StepHook(w, i), start)
  {
    var HookRecord(kind, trace, charge) := w.procs[i].job;
    assert JobOk(w, w.procs[i].job);
    LeaveSession(w, i, Finished, start);
    if HookKey(trace, kind) !in w.db.keys {
      KeyInsertStep(w, i, HookKey(trace, kind), HookPayment(kind, trace, charge), start);
    }
  }

  lemma HookPaymentStep(w: World, i: nat, start: map<string, int>)
    requires Inv(w, start) && i < |w.procs| && w.procs[i].job.HookPayment?
    ensures Inv(StepHook(w, i), start)
  {
    hide TablesOk, StockOk, HistoryOk, LocksOk, OwnersOk, KeysOk;
    var HookPayment(kind, trace, charge) := w.procs[i].job;
    assert JobOk(w, w.procs[i].job) && TxOk(w, w.procs[i]);
    LeaveSession(w, i, Finished, start);
    var row := FindPayment(w.db.payments, charge);
    if row < |w.db.payments| {
      var job, tx := HookOrder(kind, trace, charge), w.procs[i].tx.(payment := Some(PaymentWrite(row, HookState(kind), trace, kind)));
      SameLocksCompatible(w, Put(w, i, job, tx), i);
      LocalStep(w, i, job, tx, start);
    }
  }

  lemma HookOrderStep(w: World, i: nat, start: map<string, int>)
    requires Inv(w, start) && i < |w.procs| && w.procs[i].job.HookOrder?
    ensures Inv(StepHook(w, i), start)
  {
    hide TablesOk, StockOk, HistoryOk, LocksOk, OwnersOk, KeysOk;
    var HookOrder(kind, trace, charge) := w.procs[i].job;
    var tx := w.procs[i].tx;
    assert JobOk(w, w.procs[i].job) && TxOk(w, w.procs[i]);
    LeaveSession(w, i, Finished, start);
    if trace < |w.traces| && w.traces[trace] < |w.db.orders| {
      var job := HookLock(kind, trace, charge, w.db.orders[w.traces[trace]].state);
      SameLocksCompatible(w, Put(w, i, job, tx), i);
      LocalStep(w, i, job, tx, start);
    }
  }

  lemma HookLockStep(w: World, i: nat, start: map<string, int>)
    requires Inv(w, start) && i < |w.procs| && w.procs[i].job.HookLock?
    ensures Inv(StepHook(w, i), start)
  {
    hide TablesOk, StockOk, HistoryOk, LocksOk, OwnersOk, KeysOk;
    var HookLock(kind, trace, charge, read) := w.procs[i].job;
    assert JobOk(w, w.procs[i].job) && TxOk(w, w.procs[i]);
    LeaveSession(w, i, Finished, start);
    if trace < |w.traces| && (Next(read, HookEvent(kind)).None? || OrderFree(w, i, w.traces[trace])) {
      LockedWriteStep(w, i, HookCommit(kind, trace, charge, read), w.traces[trace], HookEvent(kind), read, start);
    }
  }

  predicate IsHook(job: Job) {
    job.HookGate? || job.HookVerify? || job.HookRecord? || job.HookPayment? || job.HookOrder? || job.HookLock? || job.HookCommit?
  }

  lemma HookStep(w: World, i: nat, choice: Choice, start: map<string, int>)
    requires Inv(w, start) && i < |w.procs| && IsHook(w.procs[i].job)
    ensures Inv(StepProc(w, i, choice), start)
  {
    hide TablesOk, StockOk, HistoryOk, LocksOk, OwnersOk, KeysOk;
    match w.procs[i].job
    case HookGate(_, _, _) => HookGateStep(w, i, start);
    case HookVerify(_, _, _, _) => HookVerifyStep(w, i, start);
    case HookRecord(_, _, _) => HookRecordStep(w, i, start);
    case HookPayment(_, _, _) => HookPaymentStep(w, i, start);
    case HookOrder(_, _, _) => HookOrderStep(w, i, start);
    case HookLock(_, _, _, _) => HookLockStep(w, i, start);
    case HookCommit(_, _, _, _) => HookCommitStep(w, i, start);
  }

  /** The provider's amount and the locally recorded amount of a verified payment agree. */
  lemma VerifiedRow(w: World, kind: Settlement, trace: nat, charge: nat, row: nat)
    requires TablesOk(w) && KeysOk(w) && Verified(w, kind, trace, charge)
    requires row < |w.db.payments| && w.db.payments[row].charge == charge
    ensures w.charges[charge].status == Some(kind) && w.charges[charge].amount == w.db.payments[row].amount
    ensures trace < |w.traces| && w.traces[trace] == w.db.payments[row].order < |w.db.orders|
  {
    var r :| 0 <= r < |w.db.payments| && w.db.payments[r].charge == charge && w.db.payments[r].amount == w.charges[charge].amount;
    assert r == row;
    assert PaymentOk(w, row);
  }

  /** The tables after a webhook's commit. */
  lemma HookTables(w: World, i: nat, v: World)
    requires TablesOk(w) && ProcsOk(w) && KeysOk(w) && i < |w.procs| && w.procs[i].job.HookCommit?
    requires v.db == Commit(w.db, w.procs[i].tx) && v.traces == w.traces && v.charges == w.charges
    ensures TablesOk(v)
  {
    hide TablesOk, KeysOk;
    var HookCommit(kind, trace, charge, read) := w.procs[i].job;
    var tx := w.procs[i].tx;
    assert JobOk(w, w.procs[i].job) && TxOk(w, w.procs[i]);
    var write := tx.payment.value;
    VerifiedRow(w, kind, trace, charge, write.row);
    NoMoves(w.db);
    var mid := w.(db := w.db.(payments := WritePayment(w.db.payments, tx.payment)));
    PaymentWriteKeepsTables(w, mid, write);
    if tx.order.Some? {
      OrderWriteKeepsTables(mid, v, tx.order.value);
    } else {
      TablesSame(mid, v);
    }
  }

  lemma HookCommitStep(w: World, i: nat, start: map<string, int>)
    requires Inv(w, start) && i < |w.procs| && w.procs[i].job.HookCommit?
    ensures Inv(StepHook(w, i), start)
  {
    hide TablesOk, StockOk, HistoryOk, LocksOk, OwnersOk, KeysOk, CookingOrLater, PackingOrLater;
    var HookCommit(kind, trace, charge, read) := w.procs[i].job;
    var tx := w.procs[i].tx;
    assert JobOk(w, w.procs[i].job) && TxOk(w, w.procs[i]);
    VerifiedRow(w, kind, trace, charge, tx.payment.value.row);
    var job := if kind == Succeeded && tx.order.Some? then Transition(w.traces[trace], StartCooking, Begin, PaidCook) else Finished;
    HookTables(w, i, Goto(Committed(w, i, HookTarget(kind)), i, job));
    CommitStep(w, i, HookTarget(kind), job, start);
  }

  // ----- idempotency keys ------------------------------------------------------------------------------

  function KeyInserted(w: World, i: nat, key: Key, job: Job): World
    requires i < |w.procs|
  {
    Goto(w.(db := w.db.(keys := w.db.keys[key := Started])), i, job)
  }

  lemma KeyInsertProcs(w: World, i: nat, key: Key, job: Job)
    requires TablesOk(w) && ProcsOk(w) && LocksOk(w) && i < |w.procs| && key !in w.db.keys
    requires JobOk(w, job) && TxOk(w, Proc(job, Empty))
    ensures var v := KeyInserted(w, i, key, job); TablesOk(v) && ProcsOk(v) && LocksOk(v)
  {
    var v := KeyInserted(w, i, key, job);
    KeyWriteKeepsTables(w, v, key, Started);
    JobStable(w, v, job);
    TxStable(w, v, Proc(job, Empty));
    EmptyIsCompatible(v, i);
    ProcsAndLocksKept(w, v, i);
  }

  lemma KeyInsertOwners(w: World, i: nat, key: Key, job: Job)
    requires OwnersOk(w) && KeysOk(w) && i < |w.procs| && key !in w.db.keys
    requires OwnedKey(job) == Some(key) && OwnedCharge(job) == None
    requires job.CheckoutCreate? ==> key == CheckoutKey(job.req.key)
    requires forall o :: 0 <= o < |w.db.orders| ==> CheckoutKey(w.db.orders[o].req.key) in w.db.keys
    ensures var v := KeyInserted(w, i, key, job); OwnersOk(v) && KeysOk(v)
  {
    var v := KeyInserted(w, i, key, job);
    assert OwnerOk(w, w.procs[i].job);
    assert OwnerOk(v, job);
    OwnersKept(w, v, i);
    assert forall k :: 0 <= k < |v.replies| ==> ReplyOk(w, w.replies[k]);
  }

  /** check_and_record inserting a new key: its own transaction, committed before the guarded work. */
  lemma KeyInsertStep(w: World, i: nat, key: Key, job: Job, start: map<string, int>)
    requires Inv(w, start) && i < |w.procs| && key !in w.db.keys
    requires OwnedKey(job) == Some(key) && OwnedCharge(job) == None
    requires JobOk(w, job) && TxOk(w, Proc(job, Empty))
    requires job.CheckoutCreate? ==> key == CheckoutKey(job.req.key)
    ensures Inv(KeyInserted(w, i, key, job), start)
  {
    KeyInsertProcs(w, i, key, job);
    forall o | 0 <= o < |w.db.orders| ensures CheckoutKey(w.db.orders[o].req.key) in w.db.keys {
      assert OrderOk(w, o);
    }
    KeyInsertOwners(w, i, key, job);
  }

  lemma {:induction false} UnmentionedOrder(changes: seq<Change>, o: nat)
    requires forall k :: 0 <= k < |changes| ==> changes[k].order != o
    ensures LastState(changes, o) == Draft && ChangeCount(changes, o) == 0
  {
    if changes != [] {
      UnmentionedOrder(changes[..|changes| - 1], o);
    }
  }

  lemma CreateProcs(w: World, i: nat, req: Request)
    requires TablesOk(w) && ProcsOk(w) && LocksOk(w) && i < |w.procs| && w.procs[i].job == CheckoutCreate(req)
    requires CheckoutKey(req.key) in w.db.keys
    ensures var v := StepCheckout(w, i); TablesOk(v) && ProcsOk(v) && LocksOk(v)
  {
    var v := StepCheckout(w, i);
    assert JobOk(w, w.procs[i].job) && TxOk(w, w.procs[i]);
    NewOrderKeepsTables(w, v, req);
    assert JobOk(v, v.procs[i].job) && TxOk(v, v.procs[i]);
    EmptyIsCompatible(v, i);
    ProcsAndLocksKept(w, v, i);
  }

  lemma CreateOwners(w: World, i: nat, req: Request)
    requires OwnersOk(w) && KeysOk(w) && i < |w.procs| && w.procs[i].job == CheckoutCreate(req)
    ensures var v := StepCheckout(w, i); OwnersOk(v) && KeysOk(v)
  {
    var v := StepCheckout(w, i);
    assert OwnerOk(w, w.procs[i].job);
    assert OwnerOk(v, v.procs[i].job);
    OwnersKept(w, v, i);
    assert forall k :: 0 <= k < |v.replies| ==> ReplyOk(w, w.replies[k]);
  }

  lemma CreateStep(w: World, i: nat, req: Request, start: map<string, int>)
    requires Inv(w, start) && i < |w.procs| && w.procs[i].job == CheckoutCreate(req)
    ensures Inv(StepCheckout(w, i), start)
  {
    assert OwnerOk(w, w.procs[i].job);
    CreateProcs(w, i, req);
    CreateOwners(w, i, req);
    UnmentionedOrder(w.changes, |w.db.orders|);
    assert HistoryOk(StepCheckout(w, i));
  }

  /** The world after a checkout's answer is stored. */
  function KeySaved(w: World, i: nat, req: Request, order: nat, token: string, url: string): World
    requires i < |w.procs|
  {
    Goto(w.(db := w.db.(keys := w.db.keys[CheckoutKey(req.key) := Saved(order, token, url)])), i,
         CheckoutReply(req.key, order, token, url))
  }

  lemma SaveProcs(w: World, i: nat, req: Request, order: nat, token: string, url: string)
    requires ProcsOk(w) && LocksOk(w) && i < |w.procs|
    requires CheckoutKey(req.key) in w.db.keys ==> w.db.keys[CheckoutKey(req.key)] == Started
    ensures var v := KeySaved(w, i, req, order, token, url); ProcsOk(v) && LocksOk(v)
  {
    hide ProcsOk, LocksOk;
    var v := KeySaved(w, i, req, order, token, url);
    EmptyIsCompatible(v, i);
    ProcsAndLocksKept(w, v, i);
  }

  lemma SaveOwners(w: World, i: nat, req: Request, order: nat, token: string, url: string)
    requires OwnersOk(w) && KeysOk(w) && i < |w.procs|
    requires w.procs[i].job == CheckoutSave(req, order, token, url)
    requires order < |w.db.orders| && w.db.orders[order].req == req
    ensures var v := KeySaved(w, i, req, order, token, url); OwnersOk(v) && KeysOk(v)
  {
    var v := KeySaved(w, i, req, order, token, url);
    assert OwnerOk(w, w.procs[i].job);
    assert OwnerOk(v, v.procs[i].job);
    OwnersKept(w, v, i);
    forall k | 0 <= k < |v.replies| ensures ReplyOk(v, v.replies[k]) {
      assert ReplyOk(w, w.replies[k]);
    }
  }

  lemma SaveStep(w: World, i: nat, start: map<string, int>)
    requires Inv(w, start) && i < |w.procs| && w.procs[i].job.CheckoutSave?
    ensures Inv(StepCheckout(w, i), start)
  {
    hide TablesOk, StockOk, HistoryOk, LocksOk, KeysOk;
    var CheckoutSave(req, order, token, url) := w.procs[i].job;
    assert JobOk(w, w.procs[i].job) && OwnerOk(w, w.procs[i].job);
    hide ProcsOk, OwnersOk;
    var v := KeySaved(w, i, req, order, token, url);
    assert StepCheckout(w, i) == v;
    KeyWriteKeepsTables(w, v, CheckoutKey(req.key), Saved(order, token, url));
    StockSame(w, v, start);
    HistorySame(w, v);
    SaveProcs(w, i, req, order, token, url);
    SaveOwners(w, i, req, order, token, url);
  }

  lemma ReplyKeepsKeys(w: World, v: World, r: Reply)
    requires KeysOk(w) && ReplyOk(w, r) && v == w.(replies := w.replies + [r])
    ensures KeysOk(v)
  {
    forall k | 0 <= k < |v.replies| ensures ReplyOk(v, v.replies[k]) {
      if k < |w.replies| {
        assert ReplyOk(w, w.replies[k]);
      }
    }
  }

  /** Answering a request from the saved payload. */
  lemma ReplyStep(w: World, i: nat, key: string, order: nat, token: string, url: string, start: map<string, int>)
    requires Inv(w, start) && i < |w.procs|
    requires CheckoutKey(key) in w.db.keys && w.db.keys[CheckoutKey(key)] == Saved(order, token, url)
    ensures Inv(Goto(Replied(w, key, order, token, url), i, Finished), start)
  {
    var u := Goto(w, i, Finished);
    var v := Goto(Replied(w, key, order, token, url), i, Finished);
    LeaveSession(w, i, Finished, start);
    hide TablesOk, StockOk, HistoryOk, ProcsOk, LocksOk, KeysOk, OwnersOk;
    TablesSame(u, v);
    StockSame(u, v, start);
    HistorySame(u, v);
    ProcsExtend(u, v);
    OwnersExtend(u, v);
    ReplyKeepsKeys(u, v, Reply(key, order, NonEmpty(token), NonEmpty(url)));
  }

  lemma CheckoutStep(w: World, i: nat, start: map<string, int>)
    requires Inv(w, start) && i < |w.procs|
    ensures Inv(StepCheckout(w, i), start)
  {
    hide TablesOk, StockOk, HistoryOk, LocksOk, OwnersOk, KeysOk;
    var job := w.procs[i].job;
    assert JobOk(w, job) && TxOk(w, w.procs[i]);
    match job
    case CheckoutStart(req) =>
      LeaveSession(w, i, CheckoutReplay(req), start);
      if CheckoutKey(req.key) !in w.db.keys {
        KeyInsertStep(w, i, CheckoutKey(req.key), CheckoutCreate(req), start);
      }
    case CheckoutReplay(req) =>
      LeaveSession(w, i, Finished, start);
      if CheckoutKey(req.key) in w.db.keys {
        match w.db.keys[CheckoutKey(req.key)]
        case Started =>
        case Saved(order, token, url) => ReplyStep(w, i, req.key, order, token, url, start);
      }
    case CheckoutCreate(req) => CreateStep(w, i, req, start);
    case CheckoutSave(_, _, _, _) => SaveStep(w, i, start);
    case CheckoutReply(key, order, token, url) => ReplyStep(w, i, key, order, token, url, start);
    case _ =>
  }

  // ----- environment -------------------------------------------------------------------------------------

  lemma ArriveProcs(w: World, job: Job)
    requires ProcsOk(w) && LocksOk(w) && JobOk(w, job) && TxOk(w, Proc(job, Empty))
    ensures ProcsOk(Arrive(w, job)) && LocksOk(Arrive(w, job))
  {
    var v := Arrive(w, job);
    forall j | 0 <= j < |v.procs| ensures JobOk(v, v.procs[j].job) && TxOk(v, v.procs[j]) {
      if j < |w.procs| {
        JobStable(w, v, w.procs[j].job);
        TxStable(w, v, w.procs[j]);
      } else {
        JobStable(w, v, job);
        TxStable(w, v, Proc(job, Empty));
      }
    }
    forall j, k | 0 <= j < |v.procs| && 0 <= k < |v.procs| && j != k ensures Disjoint(v.procs[j], v.procs[k]) {
      if j < |w.procs| && k < |w.procs| {
        assert Disjoint(w.procs[j], w.procs[k]);
      }
    }
  }

  lemma ArriveOwners(w: World, job: Job)
    requires OwnersOk(w) && KeysOk(w)
    requires OwnedKey(job) == None && OwnedCharge(job) == None && !job.CheckoutCreate?
    ensures OwnersOk(Arrive(w, job)) && KeysOk(Arrive(w, job))
  {
    var v := Arrive(w, job);
    forall j | 0 <= j < |v.procs| ensures OwnerOk(v, v.procs[j].job) {
      if j < |w.procs| {
        assert OwnerOk(w, w.procs[j].job);
      }
    }
    forall j, k | 0 <= j < |v.procs| && 0 <= k < |v.procs| && j != k ensures OwnersDiffer(v.procs[j].job, v.procs[k].job) {
      if j < |w.procs| && k < |w.procs| {
        assert OwnersDiffer(w.procs[j].job, w.procs[k].job);
      }
    }
    assert forall k :: 0 <= k < |v.replies| ==> ReplyOk(w, w.replies[k]);
  }

  lemma ArriveKeeps(w: World, job: Job, start: map<string, int>)
    requires Inv(w, start) && JobOk(w, job) && TxOk(w, Proc(job, Empty))
    requires OwnedKey(job) == None && OwnedCharge(job) == None && !job.CheckoutCreate?
    ensures Inv(Arrive(w, job), start)
  {
    TablesSame(w, Arrive(w, job));
    ArriveProcs(w, job);
    ArriveOwners(w, job);
  }

  lemma SettleKeeps(w: World, c: nat, outcome: Settlement, start: map<string, int>)
    requires Inv(w, start)
    ensures Inv(Apply(w, Settle(c, outcome)), start)
  {
    hide TablesOk, StockOk, HistoryOk, ProcsOk, LocksOk, KeysOk, OwnersOk;
    var v := Apply(w, Settle(c, outcome));
    OutsideKeepsTables(w, v);
    StockSame(w, v, start);
    HistorySame(w, v);
    KeysSame(w, v);
    ProcsExtend(w, v);
    OwnersExtend(w, v);
  }

  lemma StockWriterKeeps(w: World, sku: string, delta: int, reason: Reason, start: map<string, int>)
    requires Inv(w, start)
    ensures Inv(StockWriter(w, sku, delta, reason), start)
  {
    hide TablesOk, StockOk, HistoryOk, ProcsOk, LocksOk, KeysOk, OwnersOk;
    var v := StockWriter(w, sku, delta, reason);
    if v != w {
      var moves := [Movement(sku, delta, reason, None, false)];
      assert v.db == w.db.(stock := AfterMoves(w.db.stock, moves), ledger := w.db.ledger + moves);
      StockWriterKeepsTables(w, v, moves);
      assert FlagTruthful(w.db.stock, moves, 0);
      StockCommit(w, v, moves, start);
      HistorySame(w, v);
      KeysSame(w, v);
      assert v.db.stock.Keys == w.db.stock.Keys;
      forall j | 0 <= j < |w.procs| ensures Untouched(w, v, w.procs[j]) {
        forall k | 0 <= k < |w.procs[j].tx.moves| && w.procs[j].tx.moves[k].sku in w.db.stock
          ensures v.db.stock[w.procs[j].tx.moves[k].sku] == w.db.stock[w.procs[j].tx.moves[k].sku]
        {
          assert !HoldsSku(w.procs[j], sku);
          NetAbsent(moves, w.procs[j].tx.moves[k].sku);
        }
      }
      ProcsExtend(w, v);
      OwnersExtend(w, v);
    }
  }

  lemma ProcStep(w: World, i: nat, choice: Choice, start: map<string, int>)
    requires Inv(w, start)
    ensures Inv(StepProc(w, i, choice), start)
  {
    if i < |w.procs| {
      var job := w.procs[i].job;
      if job.Transition? {
        TransitionStep(w, i, choice, start);
      } else if IsPay(job) {
        PayStep(w, i, choice, start);
      } else if IsHook(job) {
        HookStep(w, i, choice, start);
      } else if job.TicketBegin? || job.TicketLock? || job.TicketCommit? || job.HandOffRead? {
        TicketStep(w, i, start);
      } else if !job.Finished? {
        CheckoutStep(w, i, start);
      }
    }
  }

  /** The invariant survives every action of every process and of the environment. */
  lemma ActionKeepsInv(w: World, a: Action, start: map<string, int>)
    requires Inv(w, start)
    ensures Inv(Apply(w, a), start)
  {
    hide TablesOk, StockOk, HistoryOk, LocksOk, OwnersOk, KeysOk, ProcsOk;
    match a
    case ArriveCheckout(req) => if req.items != [] { ArriveKeeps(w, CheckoutStart(req), start); }
    case ArrivePay(order, amount) => ArriveKeeps(w, PayGuard(order, amount), start);
    case ArriveWebhook(kind, trace, charge) =>
      if charge < |w.charges| && w.charges[charge].trace == trace { ArriveKeeps(w, HookGate(kind, trace, charge), start); }
    case ArriveStaff(role, order, e) =>
      if RoleMayFire(role, e) { ArriveKeeps(w, Transition(order, e, Begin, Dispatch), start); }
    case ArriveKitchen(role, ticket, e) => if RoleMayCook(role) { ArriveKeeps(w, TicketBegin(ticket, e), start); }
    case Step(i, choice) => ProcStep(w, i, choice, start);
    case Crash(i) => if i < |w.procs| { LeaveSession(w, i, Finished, start); }
    case Settle(c, outcome) => SettleKeeps(w, c, outcome, start);
    case AdjustStock(sku, delta, reason) => StockWriterKeeps(w, sku, delta, reason, start);
  }

  lemma {:induction false} RunKeepsInv(w: World, actions: seq<Action>, start: map<string, int>)
    requires Inv(w, start)
    ensures Inv(Run(w, actions), start)
    decreases |actions|
  {
    if actions != [] {
      ActionKeepsInv(w, actions[0], start);
      RunKeepsInv(Apply(w, actions[0]), actions[1..], start);
    }
  }

  lemma InitialInv(catalog: map<nat, string>, stock: map<string, int>)
    ensures Inv(Initial(catalog, stock), stock)
  {
  }
}
