/** Every step of every kind of process keeps the invariant. */
module ProtocolSteps {
  import opened Wrappers
  import opened OrderModel
  import opened Ledger
  import opened Money
  import opened Protocol
  import opened ProtocolInvariant
  import opened ProtocolTables
  import opened ProtocolFrame
  import opened ProtocolAssembly
  import opened ProtocolCommit

  // ----- OrderService.transition_order -----------------------------------------------------------------

  lemma AfterTransitionOk(w: World, o: nat, e: OrderEvent, caller: Caller, ok: bool)
    requires o < |w.db.orders| && CallerOk(w, o, e, caller)
    ensures var job := AfterTransition(o, w.db.orders[o].total, caller, ok);
            JobOk(w, job) && TxOk(w, Proc(job, Empty)) && OwnedCharge(job) == None && !job.CheckoutCreate?
    ensures forall phase :: OwnedKey(AfterTransition(o, w.db.orders[o].total, caller, ok)) in
              {None, OwnedKey(Transition(o, e, phase, caller))}
  {
  }

  /** The single-step program chosen for an allowed event writes exactly the graph's edge. */
  lemma ProgramIsTheEdge(e: OrderEvent, read: OrderState, to: OrderState)
    requires Next(read, e) == Some(to)
    ensures SimpleProgram(e, read, to) == (read, to)
  {
  }

  lemma RejectStep(w: World, i: nat, start: map<string, int>)
    requires Inv(w, start) && i < |w.procs| && w.procs[i].job.Transition? && w.procs[i].job.order < |w.db.orders|
    ensures var job := w.procs[i].job;
            Inv(Goto(w, i, AfterTransition(job.order, w.db.orders[job.order].total, job.caller, false)), start)
  {
    var Transition(o, e, phase, caller) := w.procs[i].job;
    assert JobOk(w, w.procs[i].job);
    AfterTransitionOk(w, o, e, caller, false);
    LeaveSession(w, i, AfterTransition(o, w.db.orders[o].total, caller, false), start);
  }

  lemma PlannedStep(w: World, i: nat, start: map<string, int>)
    requires Inv(w, start) && i < |w.procs| && w.procs[i].job.Transition? && w.procs[i].job.phase.Planned?
    requires w.procs[i].job.order < |w.db.orders|
    ensures Inv(StepTransition(w, i, Go), start)
  {
    hide TablesOk, StockOk, HistoryOk, LocksOk, OwnersOk, KeysOk;
    var Transition(o, e, phase, caller) := w.procs[i].job;
    var read := phase.read;
    assert JobOk(w, w.procs[i].job) && TxOk(w, w.procs[i]);
    var to := Next(read, e).value;
    ProgramIsTheEdge(e, read, to);
    RejectStep(w, i, start);
    if OrderFree(w, i, o) && w.db.orders[o].state == read {
      var job := Transition(o, e, Written(read), caller);
      var tx := Empty.(order := Some(OrderWrite(o, read, e, to)));
      OrderLockCompatible(w, Put(w, i, job, tx), i, o);
      LocalStep(w, i, job, tx, start);
    }
  }

  lemma ReservingStep(w: World, i: nat, start: map<string, int>)
    requires Inv(w, start) && i < |w.procs| && w.procs[i].job.Transition? && w.procs[i].job.phase.Reserving?
    requires w.procs[i].job.order < |w.db.orders|
    ensures Inv(StepTransition(w, i, Go), start)
  {
    var Transition(o, e, phase, caller) := w.procs[i].job;
    var k := phase.next;
    assert JobOk(w, w.procs[i].job) && TxOk(w, w.procs[i]);
    var items := w.db.orders[o].req.items;
    if k >= |items| {
      TicketInserted(w, i, start);
    } else {
      var sku := Resolve(w.db.catalog, items[k]);
      if sku == "" || sku !in w.db.stock {
        LineSkipped(w, i, start);
      } else if SkuFree(w, i, sku) {
        LineReserved(w, i, start);
      }
    }
  }

  ghost predicate AtLine(w: World, i: nat) {
    && i < |w.procs| && w.procs[i].job.Transition? && w.procs[i].job.phase.Reserving?
    && w.procs[i].job.order < |w.db.orders|
    && w.procs[i].job.phase.next < |w.db.orders[w.procs[i].job.order].req.items|
  }

  function CurrentLine(w: World, i: nat): Item
    requires AtLine(w, i)
  {
    w.db.orders[w.procs[i].job.order].req.items[w.procs[i].job.phase.next]
  }

  lemma TicketInserted(w: World, i: nat, start: map<string, int>)
    requires Inv(w, start) && i < |w.procs| && w.procs[i].job.Transition? && w.procs[i].job.phase.Reserving?
    requires w.procs[i].job.order < |w.db.orders|
    requires w.procs[i].job.phase.next >= |w.db.orders[w.procs[i].job.order].req.items|
    ensures Inv(StepTransition(w, i, Go), start)
  {
    hide TablesOk, StockOk, HistoryOk, LocksOk, OwnersOk, KeysOk, Plan, SaleRows, FlagsTruthful, SaleMove;
    var Transition(o, e, phase, caller) := w.procs[i].job;
    assert JobOk(w, w.procs[i].job) && TxOk(w, w.procs[i]);
    var job, tx := Transition(o, e, WriteCooking(phase.read), caller), w.procs[i].tx.(newTicket := Some(o));
    SameLocksCompatible(w, Put(w, i, job, tx), i);
    LocalStep(w, i, job, tx, start);
  }

  lemma LineSkipped(w: World, i: nat, start: map<string, int>)
    requires Inv(w, start) && AtLine(w, i) && !Tracked(w.db.catalog, w.db.stock.Keys, CurrentLine(w, i))
    ensures Inv(StepTransition(w, i, Go), start)
  {
    hide TablesOk, StockOk, HistoryOk, LocksOk, OwnersOk, KeysOk, FlagsTruthful, SaleMove;
    var Transition(o, e, phase, caller) := w.procs[i].job;
    var Reserving(read, k) := phase;
    var tx := w.procs[i].tx;
    assert JobOk(w, w.procs[i].job) && TxOk(w, w.procs[i]);
    var job := Transition(o, e, Reserving(read, k + 1), caller);
    var items := w.db.orders[o].req.items;
    assert items[..k + 1][..k] == items[..k];
    assert ReservedOk(w, o, k + 1, tx.moves);
    SameLocksCompatible(w, Put(w, i, job, tx), i);
    LocalStep(w, i, job, tx, start);
  }

  lemma LineReserved(w: World, i: nat, start: map<string, int>)
    requires Inv(w, start) && AtLine(w, i) && Tracked(w.db.catalog, w.db.stock.Keys, CurrentLine(w, i))
    requires SkuFree(w, i, Resolve(w.db.catalog, CurrentLine(w, i)))
    ensures Inv(StepTransition(w, i, Go), start)
  {
    hide TablesOk, StockOk, HistoryOk, LocksOk, OwnersOk, KeysOk, Plan, SaleRows, FlagsTruthful;
    var Transition(o, e, phase, caller) := w.procs[i].job;
    var Reserving(read, k) := phase;
    var tx := w.procs[i].tx;
    assert JobOk(w, w.procs[i].job) && TxOk(w, w.procs[i]);
    var job := Transition(o, e, Reserving(read, k + 1), caller);
    var item := w.db.orders[o].req.items[k];
    var m := SaleMove(w.db.stock, tx.moves, Resolve(w.db.catalog, item), item.qty, o);
    var tx' := tx.(moves := tx.moves + [m]);
    ReserveOne(w, o, k, tx.moves, m);
    SkuLockCompatible(w, Put(w, i, job, tx'), i, m);
    LocalStep(w, i, job, tx', start);
  }

  /** One more tracked line: one more planned row, with a truthful flag. */
  lemma ReserveOne(w: World, o: nat, k: nat, moves: seq<Movement>, m: Movement)
    requires ReservedOk(w, o, k, moves) && k < |w.db.orders[o].req.items|
    requires var item := w.db.orders[o].req.items[k];
             var sku := Resolve(w.db.catalog, item);
             sku != "" && sku in w.db.stock && m == SaleMove(w.db.stock, moves, sku, item.qty, o)
    ensures ReservedOk(w, o, k + 1, moves + [m])
  {
    var items := w.db.orders[o].req.items;
    assert items[..k + 1][..k] == items[..k];
    SaleMoveTruthful(w.db.stock, moves, Resolve(w.db.catalog, items[k]), items[k].qty, o);
  }

  lemma WriteCookingStep(w: World, i: nat, start: map<string, int>)
    requires Inv(w, start) && i < |w.procs| && w.procs[i].job.Transition? && w.procs[i].job.phase.WriteCooking?
    requires w.procs[i].job.order < |w.db.orders|
    ensures Inv(StepTransition(w, i, Go), start)
  {
    hide TablesOk, StockOk, HistoryOk, LocksOk, OwnersOk, KeysOk;
    var Transition(o, e, phase, caller) := w.procs[i].job;
    var now := w.db.orders[o].state;
    assert JobOk(w, w.procs[i].job) && TxOk(w, w.procs[i]);
    RejectStep(w, i, start);
    if OrderFree(w, i, o) && (now == Paid || now == Confirmed) {
      var job := Transition(o, e, Written(phase.read), caller);
      var tx := w.procs[i].tx.(order := Some(OrderWrite(o, now, e, Cooking)));
      OrderLockCompatible(w, Put(w, i, job, tx), i, o);
      LocalStep(w, i, job, tx, start);
    }
  }

  /** The tables after a transition's commit. */
  lemma WrittenTables(w: World, i: nat, v: World)
    requires TablesOk(w) && ProcsOk(w) && i < |w.procs| && w.procs[i].job.Transition? && w.procs[i].job.phase.Written?
    requires v.db == Commit(w.db, w.procs[i].tx) && v.traces == w.traces && v.charges == w.charges
    ensures TablesOk(v)
  {
    hide TablesOk, Plan, SaleRows, TicketCount;
    var Transition(o, e, phase, caller) := w.procs[i].job;
    var tx := w.procs[i].tx;
    assert JobOk(w, w.procs[i].job) && TxOk(w, w.procs[i]);
    var write := tx.order.value;
    if e == StartCooking {
      CookFromPaid(w, o, caller, write);
      assert CookingCommit(w, v, write, tx.moves);
      CookingKeepsTables(w, v, write, tx.moves);
    } else {
      NoMoves(w.db);
      WriteIsAllowed(w, o, e, caller, write);
      OrderWriteKeepsTables(w, v, write);
    }
  }

  /** Cooking an online order starts from PAID: only a cash checkout cooks a CONFIRMED order. */
  lemma CookFromPaid(w: World, o: nat, caller: Caller, write: OrderWrite)
    requires TablesOk(w) && CallerOk(w, o, StartCooking, caller) && WriteOk(w, write, o, StartCooking)
    ensures w.db.orders[o].req.online ==> write.from == Paid
  {
    assert OrderOk(w, o);
  }

  lemma WrittenStep(w: World, i: nat, start: map<string, int>)
    requires Inv(w, start) && i < |w.procs| && w.procs[i].job.Transition? && w.procs[i].job.phase.Written?
    requires w.procs[i].job.order < |w.db.orders|
    ensures Inv(StepTransition(w, i, Go), start)
  {
    hide TablesOk, StockOk, HistoryOk, LocksOk, OwnersOk, KeysOk, Plan, SaleRows, Extends;
    var Transition(o, e, phase, caller) := w.procs[i].job;
    assert JobOk(w, w.procs[i].job) && TxOk(w, w.procs[i]);
    var reported := Next(phase.read, e).value;
    var job := AfterTransition(o, w.db.orders[o].total, caller, true);
    var v := Goto(Committed(w, i, reported), i, job);
    AfterTransitionOk(w, o, e, caller, true);
    CommitExtends(w, v, w.procs[i]);
    JobStable(w, v, job);
    WrittenTables(w, i, v);
    CommitStep(w, i, reported, job, start);
  }

  /** PACKING only after hand-off, CLOSED only for pickup, and PAID never through this path. */
  lemma WriteIsAllowed(w: World, o: nat, e: OrderEvent, caller: Caller, write: OrderWrite)
    requires CallerOk(w, o, e, caller) && WriteOk(w, write, o, e) && e != StartCooking
    ensures MayWrite(w, write)
  {
    if write.to == Packing {
      assert caller.KitchenPack?;
    }
  }

  lemma TransitionStep(w: World, i: nat, choice: Choice, start: map<string, int>)
    requires Inv(w, start) && i < |w.procs| && w.procs[i].job.Transition?
    ensures Inv(StepTransition(w, i, choice), start)
  {
    hide TablesOk, StockOk, HistoryOk, LocksOk, OwnersOk, KeysOk;
    var Transition(o, e, phase, caller) := w.procs[i].job;
    if o >= |w.db.orders| {
      LeaveSession(w, i, Finished, start);
    } else if choice == DbError && phase != Begin {
      RejectStep(w, i, start);
    } else {
      match phase
      case Begin =>
        var now := w.db.orders[o].state;
        assert JobOk(w, w.procs[i].job) && TxOk(w, w.procs[i]);
        RejectStep(w, i, start);
        if Next(now, e).Some? {
          var job := if e == StartCooking then Transition(o, e, Reserving(now, 0), caller) else Transition(o, e, Planned(now), caller);
          SameLocksCompatible(w, Put(w, i, job, Empty), i);
          LocalStep(w, i, job, Empty, start);
        }
      case Planned(_) => PlannedStep(w, i, start);
      case Reserving(_, _) => ReservingStep(w, i, start);
      case WriteCooking(_) => WriteCookingStep(w, i, start);
      case Written(_) => WrittenStep(w, i, start);
    }
  }

  // ----- kitchen ---------------------------------------------------------------------------------------

  lemma TicketLockStep(w: World, i: nat, t: nat, e: KitchenEvent, start: map<string, int>)
    requires Inv(w, start) && i < |w.procs| && w.procs[i].job == TicketLock(t, e)
    ensures Inv(StepTicket(w, i), start)
  {
    hide TablesOk, StockOk, HistoryOk, LocksOk, OwnersOk, KeysOk, ProcsOk;
    LeaveSession(w, i, Finished, start);
    if t < |w.db.tickets| && TicketFree(w, i, t) && w.db.tickets[t].state == ExpectedTicketState(e) {
      var write := TicketWrite(t, ExpectedTicketState(e), KitchenNext(ExpectedTicketState(e), e).value);
      var job', tx := TicketCommit(t, e), Empty.(ticket := Some(write));
      TicketLockCompatible(w, Put(w, i, job', tx), i, t);
      LocalStep(w, i, job', tx, start);
    }
  }

  lemma TicketStep(w: World, i: nat, start: map<string, int>)
    requires Inv(w, start) && i < |w.procs|
    ensures Inv(StepTicket(w, i), start)
  {
    hide TablesOk, StockOk, HistoryOk, LocksOk, OwnersOk, KeysOk;
    var job := w.procs[i].job;
    assert JobOk(w, job) && TxOk(w, w.procs[i]);
    match job
    case TicketBegin(t, e) =>
      LeaveSession(w, i, Finished, start);
      LeaveSession(w, i, TicketLock(t, e), start);
    case TicketLock(t, e) => TicketLockStep(w, i, t, e, start);
    case TicketCommit(t, e) => TicketCommitStep(w, i, t, e, start);
    case HandOffRead(t) =>
      LeaveSession(w, i, Finished, start);
      if w.db.tickets[t].order < |w.db.orders| {
        var order := w.db.tickets[t].order;
        LeaveSession(w, i, Transition(order, StartPacking, Begin, KitchenPack(t, w.db.orders[order].req.pickup)), start);
      }
    case _ =>
  }

  lemma TicketLockCompatible(w: World, v: World, i: nat, t: nat)
    requires LocksOk(w) && OthersSame(w, v, i) && TicketFree(w, i, t)
    requires v.procs[i].tx == Empty.(ticket := v.procs[i].tx.ticket)
    requires v.procs[i].tx.ticket.Some? && v.procs[i].tx.ticket.value.ticket == t
    ensures LocksCompatible(v, i)
  {
    forall j | 0 <= j < |v.procs| && j != i
      ensures Disjoint(v.procs[i], v.procs[j]) && Disjoint(v.procs[j], v.procs[i])
    {
      assert !HoldsTicket(w.procs[j], t);
    }
  }

  lemma TicketCommitStep(w: World, i: nat, t: nat, e: KitchenEvent, start: map<string, int>)
    requires Inv(w, start) && i < |w.procs| && w.procs[i].job == TicketCommit(t, e)
    ensures Inv(StepTicket(w, i), start)
  {
    assert JobOk(w, w.procs[i].job) && TxOk(w, w.procs[i]);
    var tx := w.procs[i].tx;
    var job := if e == HandOff then HandOffRead(t) else Finished;
    NoMoves(w.db);
    var v := Goto(Committed(w, i, Draft), i, job);
    TicketWriteKeepsTables(w, v, tx.ticket.value);
    CommitStep(w, i, Draft, job, start);
    assert v == StepTicket(w, i);
  }
}
