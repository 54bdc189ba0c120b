/** Committing any process's transaction keeps the stock equation, the audit trail and the keys. */
module ProtocolCommit {
  import opened Wrappers
  import opened OrderModel
  import opened Ledger
  import opened Money
  import opened Protocol
  import opened ProtocolInvariant
  import opened ProtocolTables
  import opened ProtocolFrame
  import opened ProtocolAssembly

  /** What every committing transaction has in common, whatever program filled it. */
  ghost predicate TxSound(w: World, p: Proc) {
    var tx := p.tx;
    && (tx.order.Some? ==> WriteOk(w, tx.order.value, tx.order.value.order, tx.order.value.event))
    && (tx.ticket.Some? ==>
         tx.ticket.value.ticket < |w.db.tickets| && w.db.tickets[tx.ticket.value.ticket].state == tx.ticket.value.from
         && tx.ticket.value.from != HandedOff)
    && FlagsTruthful(w.db.stock, tx.moves)
    && (tx.newPayment.Some? ==> OwnedCharge(p.job) == Some(tx.newPayment.value.charge))
    && (tx.payment.Some? ==> OwnedKey(p.job) == Some(HookKey(tx.payment.value.trace, tx.payment.value.kind)))
  }

  lemma CommitExtends(w: World, v: World, p: Proc)
    requires TxSound(w, p) && v.db == Commit(w.db, p.tx) && v.traces == w.traces && v.charges == w.charges
    ensures Extends(w, v)
  {
    assert v.db.stock.Keys == w.db.stock.Keys;
  }

  lemma NoMoves(db: Db)
    ensures AfterMoves(db.stock, []) == db.stock && db.ledger + [] == db.ledger
  {
  }

  lemma StockCommit(w: World, v: World, moves: seq<Movement>, start: map<string, int>)
    requires StockOk(w, start) && FlagsTruthful(w.db.stock, moves)
    requires v.db.stock == AfterMoves(w.db.stock, moves) && v.db.ledger == w.db.ledger + moves
    ensures StockOk(v, start)
  {
    assert v.db.stock.Keys == w.db.stock.Keys;
    forall s | s in start ensures v.db.stock[s] == start[s] + Net(v.db.ledger, s) {
      NetAppend(w.db.ledger, moves, s);
    }
    FlagsAppend(start, w.db.ledger, w.db.stock, moves);
  }

  lemma HistoryCommit(w: World, v: World, write: OrderWrite, reported: OrderState)
    requires HistoryOk(w) && WriteOk(w, write, write.order, write.event) && reported == write.to
    requires v.db.orders == WriteOrder(w.db.orders, Some(write))
    requires v.changes == w.changes + [Change(write.order, write.from, write.event, write.to, reported)]
    ensures HistoryOk(v)
  {
    hide Next, Rank, CookingOrLater, LastState, ChangeCount, FailureCount;
    forall o | 0 <= o < |v.db.orders|
      ensures LastState(v.changes, o) == v.db.orders[o].state
      ensures ChangeCount(v.changes, o) <= Rank(v.db.orders[o].state) + 2 * FailureCount(v.changes, o)
    {
      OneMoreChange(w.changes, v.changes[|w.changes|], o);
      EdgeFacts(write.from, write.event, write.to);
    }
    forall k | 0 <= k < |v.changes|
      ensures ChangeOk(v.changes[k]) && v.changes[k].from == LastState(v.changes[..k], v.changes[k].order)
    {
      if k < |w.changes| {
        assert v.changes[..k] == w.changes[..k];
      } else {
        assert v.changes[..k] == w.changes;
      }
    }
  }

  lemma OneMoreChange(changes: seq<Change>, c: Change, o: nat)
    ensures LastState(changes + [c], o) == if c.order == o then c.to else LastState(changes, o)
    ensures ChangeCount(changes + [c], o) == ChangeCount(changes, o) + if c.order == o then 1 else 0
    ensures FailureCount(changes + [c], o) ==
            FailureCount(changes, o) + if c.order == o && c.event == PaymentFailed then 1 else 0
  {
    assert (changes + [c])[..|changes|] == changes;
  }

  /** No order has two equal keys, no row two equal provider ids, no webhook is logged twice. */
  lemma KeysCommit(w: World, v: World, i: nat)
    requires i < |w.procs| && KeysOk(w) && OwnersOk(w) && OwnWritesOnly(w, v, i)
    requires v.db.keys == w.db.keys && v.replies == w.replies
    requires |v.db.orders| == |w.db.orders|
    requires |v.db.payments| <= |w.db.payments| + 1 && |v.payWrites| <= |w.payWrites| + 1
    ensures KeysOk(v)
  {
    assert OwnerOk(w, w.procs[i].job);
    forall k | 0 <= k < |v.replies| ensures ReplyOk(v, v.replies[k]) {
      assert ReplyOk(w, w.replies[k]);
    }
  }

  /** Process i commits and goes on with `job`. */
  lemma CommitStep(w: World, i: nat, reported: OrderState, job: Job, start: map<string, int>)
    requires Inv(w, start) && i < |w.procs| && TxSound(w, w.procs[i])
    requires w.procs[i].tx.order.Some? ==> reported == w.procs[i].tx.order.value.to
    requires var v := Goto(Committed(w, i, reported), i, job);
             TablesOk(v) && JobOk(v, job) && TxOk(v, Proc(job, Empty))
    requires OwnedKey(job) == None || (OwnedKey(job) == OwnedKey(w.procs[i].job) && w.procs[i].tx.payment.None?)
    requires OwnedCharge(job) == None && !job.CheckoutCreate?
    ensures Inv(Goto(Committed(w, i, reported), i, job), start)
  {
    var p := w.procs[i];
    var v := Goto(Committed(w, i, reported), i, job);
    CommitExtends(w, v, p);
    forall j | 0 <= j < |w.procs| && j != i ensures Untouched(w, v, w.procs[j]) {
      CommitRespectsLocks(w, v, i, j);
    }
    EmptyIsCompatible(v, i);
    ProcsAndLocksKept(w, v, i);
    StockCommit(w, v, p.tx.moves, start);
    if p.tx.order.Some? {
      HistoryCommit(w, v, p.tx.order.value, reported);
    } else {
      HistorySame(w, v);
    }
    assert OwnWritesOnly(w, v, i);
    assert OwnerOk(w, p.job);
    assert OwnerOk(v, job);
    OwnersKept(w, v, i);
    KeysCommit(w, v, i);
  }
}
