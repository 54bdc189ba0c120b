/** The protocol machine with one request running alone: what it does from start to end. */
module Solo {
  import opened Wrappers
  import opened OrderModel
  import opened Ledger
  import opened Money
  import opened Protocol

  /** The world with a single process. */
  function At(w: World, job: Job, tx: Tx): World {
    w.(procs := [Proc(job, tx)])
  }

  function Steps(w: World, choice: Choice, n: nat): World
    decreases n
  {
    if n == 0 then w else Steps(StepProc(w, 0, choice), choice, n - 1)
  }

  /** Some number of steps of the first process, with the same environment choice throughout. */
  ghost predicate Leads(w: World, choice: Choice, v: World) {
    exists n: nat :: Steps(w, choice, n) == v
  }

  lemma LeadsNowhere(w: World, choice: Choice)
    ensures Leads(w, choice, w)
  {
    assert Steps(w, choice, 0) == w;
  }

  lemma {:induction false} StepsAdd(w: World, choice: Choice, m: nat, n: nat)
    ensures Steps(w, choice, m + n) == Steps(Steps(w, choice, m), choice, n)
    decreases m
  {
    hide StepProc;
    if m > 0 {
      StepsAdd(StepProc(w, 0, choice), choice, m - 1, n);
    }
  }

  lemma LeadsTrans(u: World, v: World, w: World, choice: Choice)
    requires Leads(u, choice, v) && Leads(v, choice, w)
    ensures Leads(u, choice, w)
  {
    hide StepProc;
    var m: nat :| Steps(u, choice, m) == v;
    var n: nat :| Steps(v, choice, n) == w;
    StepsAdd(u, choice, m, n);
  }

  lemma LeadsStep(u: World, v: World, w: World, choice: Choice)
    requires StepProc(u, 0, choice) == v && Leads(v, choice, w)
    ensures Leads(u, choice, w)
  {
    hide StepProc;
    var n: nat :| Steps(v, choice, n) == w;
    assert Steps(u, choice, n + 1) == w;
  }

  lemma OneStep(u: World, v: World, choice: Choice)
    requires StepProc(u, 0, choice) == v
    ensures Leads(u, choice, v)
  {
    LeadsNowhere(v, choice);
    LeadsStep(u, v, v, choice);
  }

  lemma {:induction false} FinishedStays(w: World, choice: Choice, n: nat)
    requires |w.procs| == 1 && w.procs[0].job == Finished
    ensures Steps(w, choice, n) == w
  {
    if n > 0 {
      FinishedStays(w, choice, n - 1);
    }
  }

  /** A finished request is the only end a run of it can lead to. */
  lemma OneEnd(w: World, choice: Choice, u: World, v: World)
    requires Leads(w, choice, u) && Leads(w, choice, v)
    requires |u.procs| == 1 && |v.procs| == 1 && u.procs[0].job == Finished && v.procs[0].job == Finished
    ensures u == v
  {
    hide StepProc;
    var m: nat :| Steps(w, choice, m) == u;
    var n: nat :| Steps(w, choice, n) == v;
    if m <= n {
      StepsAdd(w, choice, m, n - m);
      FinishedStays(u, choice, n - m);
    } else {
      StepsAdd(w, choice, n, m - n);
      FinishedStays(v, choice, m - n);
    }
  }

  // ----- a transition on its own -------------------------------------------------------------------------------

  /** What a transition that nothing disturbs buffers before it commits. */
  function TransitionTx(db: Db, o: nat, e: OrderEvent, to: OrderState): Tx
    requires o < |db.orders|
  {
    var write := Some(OrderWrite(o, db.orders[o].state, e, to));
    if e == StartCooking then
      Empty.(order := write, newTicket := Some(o), moves := Reserved(db.catalog, db.stock, db.orders[o].req.items, o))
    else Empty.(order := write)
  }

  /** The outcome of a transition that nothing disturbs: the tables, and the new state if it was allowed. */
  function Transitioned(db: Db, o: nat, e: OrderEvent): (Db, Outcome<OrderState>) {
    if o >= |db.orders| then (db, Raise("order not found"))
    else match Next(db.orders[o].state, e)
      case None => (db, Raise("event not allowed"))
      case Some(to) => (Commit(db, TransitionTx(db, o, e, to)), Ok(to))
  }

  /** The world after it, with the caller's next job. */
  function AfterSolo(w: World, o: nat, e: OrderEvent, caller: Caller): World {
    if o >= |w.db.orders| then At(w, Finished, Empty)
    else
      var (db, outcome) := Transitioned(w.db, o, e);
      var from, total := w.db.orders[o].state, w.db.orders[o].total;
      match outcome
      case Raise(_) => At(w, AfterTransition(o, total, caller, false), Empty)
      case Ok(to) =>
        At(w.(db := db, changes := w.changes + [Change(o, from, e, to, to)]), AfterTransition(o, total, caller, true), Empty)
  }

  lemma SimpleAlone(w: World, o: nat, e: OrderEvent, caller: Caller, choice: Choice)
    requires choice != DbError && o < |w.db.orders| && e != StartCooking && Next(w.db.orders[o].state, e).Some?
    ensures Leads(At(w, Transition(o, e, Begin, caller), Empty), choice, AfterSolo(w, o, e, caller))
  {
    hide AfterTransition, Commit;
    var now := w.db.orders[o].state;
    var to := Next(now, e).value;
    var a := At(w, Transition(o, e, Begin, caller), Empty);
    var b := At(w, Transition(o, e, Planned(now), caller), Empty);
    var c := At(w, Transition(o, e, Written(now), caller), TransitionTx(w.db, o, e, to));
    var d := AfterSolo(w, o, e, caller);
    assert StepProc(a, 0, choice) == b;
    assert SimpleProgram(e, now, to) == (now, to);
    assert StepProc(b, 0, choice) == c;
    assert StepProc(c, 0, choice) == d;
    OneStep(c, d, choice);
    LeadsStep(b, c, d, choice);
    LeadsStep(a, b, d, choice);
  }

  function ReservingAt(w: World, o: nat, read: OrderState, caller: Caller, k: nat): World
    requires o < |w.db.orders| && k <= |w.db.orders[o].req.items|
  {
    At(w, Transition(o, StartCooking, Reserving(read, k), caller),
       Empty.(moves := Reserved(w.db.catalog, w.db.stock, w.db.orders[o].req.items[..k], o)))
  }

  lemma ReserveLine(w: World, o: nat, read: OrderState, caller: Caller, k: nat, choice: Choice)
    requires choice != DbError && o < |w.db.orders| && k < |w.db.orders[o].req.items|
    ensures StepProc(ReservingAt(w, o, read, caller, k), 0, choice) == ReservingAt(w, o, read, caller, k + 1)
  {
    hide AfterTransition, Commit, Resolve, SaleMove;
    var items := w.db.orders[o].req.items;
    assert items[..k + 1][..k] == items[..k];
  }

  lemma {:induction false} ReserveAll(w: World, o: nat, read: OrderState, caller: Caller, k: nat, choice: Choice)
    requires choice != DbError && o < |w.db.orders| && k <= |w.db.orders[o].req.items|
    ensures Leads(ReservingAt(w, o, read, caller, k), choice, ReservingAt(w, o, read, caller, |w.db.orders[o].req.items|))
    decreases |w.db.orders[o].req.items| - k
  {
    hide StepProc, ReservingAt;
    if k == |w.db.orders[o].req.items| {
      LeadsNowhere(ReservingAt(w, o, read, caller, k), choice);
    } else {
      ReserveLine(w, o, read, caller, k, choice);
      ReserveAll(w, o, read, caller, k + 1, choice);
      LeadsStep(ReservingAt(w, o, read, caller, k), ReservingAt(w, o, read, caller, k + 1),
                ReservingAt(w, o, read, caller, |w.db.orders[o].req.items|), choice);
    }
  }

  lemma CookingStart(w: World, o: nat, caller: Caller, choice: Choice)
    requires choice != DbError && o < |w.db.orders| && Next(w.db.orders[o].state, StartCooking).Some?
    ensures StepProc(At(w, Transition(o, StartCooking, Begin, caller), Empty), 0, choice) ==
            ReservingAt(w, o, w.db.orders[o].state, caller, 0)
  {
    hide AfterTransition, Commit;
    assert w.db.orders[o].req.items[..0] == [];
  }

  lemma TransitionSteps(w: World, choice: Choice)
    requires |w.procs| == 1 && w.procs[0].job.Transition?
    ensures StepProc(w, 0, choice) == StepTransition(w, 0, choice)
  {
    hide StepTransition;
  }

  lemma CookingEnd(w: World, o: nat, caller: Caller, choice: Choice)
    requires choice != DbError && o < |w.db.orders| && Next(w.db.orders[o].state, StartCooking).Some?
    ensures Leads(ReservingAt(w, o, w.db.orders[o].state, caller, |w.db.orders[o].req.items|), choice,
                  AfterSolo(w, o, StartCooking, caller))
  {
    hide AfterTransition, Commit, StepProc, SaleMove, Resolve, SimpleProgram;
    var now, items := w.db.orders[o].state, w.db.orders[o].req.items;
    assert items[..|items|] == items;
    var moves := Reserved(w.db.catalog, w.db.stock, items, o);
    var b := ReservingAt(w, o, now, caller, |items|);
    var c := At(w, Transition(o, StartCooking, WriteCooking(now), caller), Empty.(moves := moves, newTicket := Some(o)));
    var d := At(w, Transition(o, StartCooking, Written(now), caller), TransitionTx(w.db, o, StartCooking, Cooking));
    var f := AfterSolo(w, o, StartCooking, caller);
    TransitionSteps(b, choice);
    TransitionSteps(c, choice);
    TransitionSteps(d, choice);
    assert StepTransition(b, 0, choice) == c;
    assert StepTransition(c, 0, choice) == d;
    assert StepTransition(d, 0, choice) == f;
    OneStep(d, f, choice);
    LeadsStep(c, d, f, choice);
    LeadsStep(b, c, f, choice);
  }

  lemma RejectedAlone(w: World, o: nat, e: OrderEvent, caller: Caller, choice: Choice)
    requires o >= |w.db.orders| || Next(w.db.orders[o].state, e).None?
    ensures Leads(At(w, Transition(o, e, Begin, caller), Empty), choice, AfterSolo(w, o, e, caller))
  {
    hide AfterTransition, Commit;
    OneStep(At(w, Transition(o, e, Begin, caller), Empty), AfterSolo(w, o, e, caller), choice);
  }

  /** A transition that nothing disturbs, step by step, is `Transitioned`. */
  lemma TransitionAlone(w: World, o: nat, e: OrderEvent, caller: Caller, choice: Choice)
    requires choice != DbError
    ensures Leads(At(w, Transition(o, e, Begin, caller), Empty), choice, AfterSolo(w, o, e, caller))
  {
    hide AfterTransition, StepProc, AfterSolo, ReservingAt;
    if o >= |w.db.orders| || Next(w.db.orders[o].state, e).None? {
      RejectedAlone(w, o, e, caller, choice);
    } else if e == StartCooking {
      var now, items := w.db.orders[o].state, w.db.orders[o].req.items;
      CookingStart(w, o, caller, choice);
      ReserveAll(w, o, now, caller, 0, choice);
      CookingEnd(w, o, caller, choice);
      LeadsTrans(ReservingAt(w, o, now, caller, 0), ReservingAt(w, o, now, caller, |items|), AfterSolo(w, o, e, caller), choice);
      LeadsStep(At(w, Transition(o, e, Begin, caller), Empty), ReservingAt(w, o, now, caller, 0), AfterSolo(w, o, e, caller), choice);
    } else {
      SimpleAlone(w, o, e, caller, choice);
    }
  }
}
