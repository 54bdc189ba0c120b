/** Putting a step back together: if the stepping process is fine and it touched only what it owns,
    the whole invariant holds again. */
module ProtocolAssembly {
  import opened Wrappers
  import opened OrderModel
  import opened Ledger
  import opened Money
  import opened Protocol
  import opened ProtocolInvariant
  import opened ProtocolTables
  import opened ProtocolFrame

  ghost predicate OthersSame(w: World, v: World, i: nat) {
    && i < |w.procs| && |v.procs| == |w.procs|
    && forall j :: 0 <= j < |w.procs| && j != i ==> v.procs[j] == w.procs[j]
  }

  ghost predicate LocksCompatible(v: World, i: nat)
    requires i < |v.procs|
  {
    forall j :: 0 <= j < |v.procs| && j != i ==> Disjoint(v.procs[i], v.procs[j]) && Disjoint(v.procs[j], v.procs[i])
  }

  lemma ProcsAndLocksKept(w: World, v: World, i: nat)
    requires ProcsOk(w) && LocksOk(w) && OthersSame(w, v, i) && Extends(w, v)
    requires forall j :: 0 <= j < |w.procs| && j != i ==> Untouched(w, v, w.procs[j])
    requires JobOk(v, v.procs[i].job) && TxOk(v, v.procs[i])
    requires LocksCompatible(v, i)
    ensures ProcsOk(v) && LocksOk(v)
  {
    forall j | 0 <= j < |v.procs| ensures JobOk(v, v.procs[j].job) && TxOk(v, v.procs[j]) {
      if j != i {
        JobStable(w, v, w.procs[j].job);
        TxStable(w, v, w.procs[j]);
      }
    }
  }

  /** A process without locks is compatible with everybody. */
  lemma EmptyIsCompatible(v: World, i: nat)
    requires i < |v.procs| && v.procs[i].tx.order.None? && v.procs[i].tx.ticket.None? && v.procs[i].tx.moves == []
    ensures LocksCompatible(v, i)
  {
  }

  /** Keeping or dropping the locks one had. */
  lemma SameLocksCompatible(w: World, v: World, i: nat)
    requires LocksOk(w) && OthersSame(w, v, i)
    requires v.procs[i].tx.order == w.procs[i].tx.order && v.procs[i].tx.ticket == w.procs[i].tx.ticket
    requires v.procs[i].tx.moves == w.procs[i].tx.moves
    ensures LocksCompatible(v, i)
  {
    forall j | 0 <= j < |v.procs| && j != i
      ensures Disjoint(v.procs[i], v.procs[j]) && Disjoint(v.procs[j], v.procs[i])
    {
      assert Disjoint(w.procs[i], w.procs[j]) && Disjoint(w.procs[j], w.procs[i]);
      forall k | 0 <= k < |v.procs[j].tx.moves| ensures !HoldsSku(v.procs[i], v.procs[j].tx.moves[k].sku) {
        assert !HoldsSku(w.procs[i], w.procs[j].tx.moves[k].sku);
      }
    }
  }

  /** Taking a free order row. */
  lemma OrderLockCompatible(w: World, v: World, i: nat, o: nat)
    requires LocksOk(w) && OthersSame(w, v, i) && OrderFree(w, i, o)
    requires v.procs[i].tx.order.Some? && v.procs[i].tx.order.value.order == o
    requires v.procs[i].tx.ticket == w.procs[i].tx.ticket && v.procs[i].tx.moves == w.procs[i].tx.moves
    ensures LocksCompatible(v, i)
  {
    forall j | 0 <= j < |v.procs| && j != i
      ensures Disjoint(v.procs[i], v.procs[j]) && Disjoint(v.procs[j], v.procs[i])
    {
      assert !HoldsOrder(w.procs[j], o);
      assert Disjoint(w.procs[i], w.procs[j]) && Disjoint(w.procs[j], w.procs[i]);
      forall k | 0 <= k < |v.procs[j].tx.moves| ensures !HoldsSku(v.procs[i], v.procs[j].tx.moves[k].sku) {
        assert !HoldsSku(w.procs[i], w.procs[j].tx.moves[k].sku);
      }
    }
  }

  /** Taking a free inventory row. */
  lemma SkuLockCompatible(w: World, v: World, i: nat, m: Movement)
    requires LocksOk(w) && OthersSame(w, v, i) && SkuFree(w, i, m.sku)
    requires v.procs[i].tx.order == w.procs[i].tx.order && v.procs[i].tx.ticket == w.procs[i].tx.ticket
    requires v.procs[i].tx.moves == w.procs[i].tx.moves + [m]
    ensures LocksCompatible(v, i)
  {
    forall j | 0 <= j < |v.procs| && j != i
      ensures Disjoint(v.procs[i], v.procs[j]) && Disjoint(v.procs[j], v.procs[i])
    {
      assert !HoldsSku(w.procs[j], m.sku);
      assert Disjoint(w.procs[i], w.procs[j]) && Disjoint(w.procs[j], w.procs[i]);
      forall k | 0 <= k < |v.procs[j].tx.moves| ensures !HoldsSku(v.procs[i], v.procs[j].tx.moves[k].sku) {
        assert !HoldsSku(w.procs[i], w.procs[j].tx.moves[k].sku);
        assert w.procs[j].tx.moves[k].sku != m.sku;
      }
    }
  }

  // ----- ownership -------------------------------------------------------------------------------------

  /** Process i wrote only under the key and the charge it owned, or under new ones. */
  ghost predicate OwnWritesOnly(w: World, v: World, i: nat)
    requires i < |w.procs|
  {
    var mine := w.procs[i].job;
    && (forall k :: k in w.db.keys && Some(k) != OwnedKey(mine) ==> k in v.db.keys && v.db.keys[k] == w.db.keys[k])
    && |w.payWrites| <= |v.payWrites|
    && (forall n :: 0 <= n < |w.payWrites| ==> v.payWrites[n] == w.payWrites[n])
    && (forall n :: |w.payWrites| <= n < |v.payWrites| ==>
         Some(HookKey(v.payWrites[n].trace, v.payWrites[n].kind)) == OwnedKey(mine))
    && |w.db.orders| <= |v.db.orders|
    && (forall o :: 0 <= o < |w.db.orders| ==> v.db.orders[o].req == w.db.orders[o].req)
    && (forall o :: |w.db.orders| <= o < |v.db.orders| ==> Some(CheckoutKey(v.db.orders[o].req.key)) == OwnedKey(mine))
    && |w.db.payments| <= |v.db.payments|
    && (forall r :: 0 <= r < |w.db.payments| ==> v.db.payments[r].charge == w.db.payments[r].charge)
    && (forall r :: |w.db.payments| <= r < |v.db.payments| ==> Some(v.db.payments[r].charge) == OwnedCharge(mine))
    && |w.charges| <= |v.charges|
  }

  lemma OthersStillOwn(w: World, v: World, i: nat, j: nat)
    requires OwnersOk(w) && OthersSame(w, v, i) && OwnWritesOnly(w, v, i)
    requires j < |w.procs| && j != i
    ensures OwnerOk(v, w.procs[j].job)
  {
    var mine, theirs := w.procs[i].job, w.procs[j].job;
    assert OwnersDiffer(theirs, mine) && OwnerOk(w, theirs);
  }

  /** The stepping process keeps its key and charge, drops them, or takes fresh ones. */
  ghost predicate TakesOnlyFresh(w: World, was: Job, job: Job) {
    && (OwnedKey(job) == OwnedKey(was) || OwnedKey(job) == None || OwnedKey(job).value !in w.db.keys)
    && (OwnedCharge(job) == OwnedCharge(was) || OwnedCharge(job) == None || OwnedCharge(job).value >= |w.charges|)
  }

  lemma OwnersKept(w: World, v: World, i: nat)
    requires OwnersOk(w) && OthersSame(w, v, i) && OwnWritesOnly(w, v, i)
    requires TakesOnlyFresh(w, w.procs[i].job, v.procs[i].job)
    requires OwnerOk(v, v.procs[i].job)
    ensures OwnersOk(v)
  {
    forall j | 0 <= j < |v.procs| ensures OwnerOk(v, v.procs[j].job) {
      if j != i {
        OthersStillOwn(w, v, i, j);
      }
    }
    forall j, k | 0 <= j < |v.procs| && 0 <= k < |v.procs| && j != k
      ensures OwnersDiffer(v.procs[j].job, v.procs[k].job)
    {
      assert OwnersDiffer(w.procs[j].job, w.procs[k].job);
      assert OwnerOk(w, w.procs[j].job) && OwnerOk(w, w.procs[k].job);
    }
  }

  lemma HistorySame(w: World, v: World)
    requires HistoryOk(w) && v.changes == w.changes
    requires |v.db.orders| == |w.db.orders| && forall o :: 0 <= o < |w.db.orders| ==> v.db.orders[o].state == w.db.orders[o].state
    ensures HistoryOk(v)
  {
  }

  // ----- parts that a step leaves alone ------------------------------------------------------------------

  lemma StockSame(w: World, v: World, start: map<string, int>)
    requires StockOk(w, start) && v.db.stock == w.db.stock && v.db.ledger == w.db.ledger
    ensures StockOk(v, start)
  {
  }

  lemma KeysSame(w: World, v: World)
    requires KeysOk(w) && v.db.keys == w.db.keys && v.replies == w.replies && v.payWrites == w.payWrites
    requires v.db.orders == w.db.orders && v.db.payments == w.db.payments
    ensures KeysOk(v)
  {
    forall k | 0 <= k < |v.replies| ensures ReplyOk(v, v.replies[k]) {
      assert ReplyOk(w, w.replies[k]);
    }
  }

  /** The environment moves the tables on; every process is where it was. */
  lemma ProcsExtend(w: World, v: World)
    requires ProcsOk(w) && LocksOk(w) && v.procs == w.procs && Extends(w, v)
    requires forall j :: 0 <= j < |w.procs| ==> Untouched(w, v, w.procs[j])
    ensures ProcsOk(v) && LocksOk(v)
  {
    hide JobOk, TxOk, Extends, Untouched, Disjoint;
    forall j | 0 <= j < |v.procs| ensures JobOk(v, v.procs[j].job) && TxOk(v, v.procs[j]) {
      JobStable(w, v, w.procs[j].job);
      TxStable(w, v, w.procs[j]);
    }
  }

  lemma OwnersExtend(w: World, v: World)
    requires OwnersOk(w) && v.procs == w.procs && v.db.keys == w.db.keys && v.payWrites == w.payWrites
    requires v.db.orders == w.db.orders && v.db.payments == w.db.payments && |w.charges| <= |v.charges|
    ensures OwnersOk(v)
  {
    hide OwnersDiffer, OwnedKey, OwnedCharge;
    forall j | 0 <= j < |v.procs| ensures OwnerOk(v, v.procs[j].job) {
      assert OwnerOk(w, w.procs[j].job);
    }
  }

  // ----- steps that commit nothing ---------------------------------------------------------------------

  lemma PutExtends(w: World, i: nat, job: Job, tx: Tx)
    requires i < |w.procs|
    ensures Extends(w, Put(w, i, job, tx))
  {
  }

  lemma PutUntouched(w: World, i: nat, job: Job, tx: Tx)
    requires i < |w.procs|
    ensures forall p :: Untouched(w, Put(w, i, job, tx), p)
  {
  }

  lemma StillOwns(w: World, i: nat, job: Job, tx: Tx)
    requires OwnersOk(w) && i < |w.procs| && !job.CheckoutCreate?
    requires OwnedKey(job) == OwnedKey(w.procs[i].job) || OwnedKey(job) == None
    requires OwnedCharge(job) == OwnedCharge(w.procs[i].job) || OwnedCharge(job) == None
    ensures OwnerOk(Put(w, i, job, tx), job)
  {
    hide OwnedKey, OwnedCharge;
    assert OwnerOk(w, w.procs[i].job);
  }

  /** A step that only moves process i (an unlocked read, a lock with a buffered write, a rejection). */
  lemma LocalStep(w: World, i: nat, job: Job, tx: Tx, start: map<string, int>)
    requires Inv(w, start) && i < |w.procs|
    requires JobOk(w, job) && TxOk(w, Proc(job, tx))
    requires LocksCompatible(Put(w, i, job, tx), i)
    requires OwnedKey(job) == OwnedKey(w.procs[i].job) || OwnedKey(job) == None
    requires OwnedCharge(job) == OwnedCharge(w.procs[i].job) || OwnedCharge(job) == None
    requires !job.CheckoutCreate?
    ensures Inv(Put(w, i, job, tx), start)
  {
    hide TablesOk, StockOk, HistoryOk, ProcsOk, LocksOk, KeysOk, OwnersOk, JobOk, TxOk;
    var v := Put(w, i, job, tx);
    PutExtends(w, i, job, tx);
    TablesSame(w, v);
    StockSame(w, v, start);
    HistorySame(w, v);
    KeysSame(w, v);
    JobStable(w, v, job);
    TxStable(w, v, Proc(job, tx));
    PutUntouched(w, i, job, tx);
    ProcsAndLocksKept(w, v, i);
    StillOwns(w, i, job, tx);
    OwnersKept(w, v, i);
  }

  /** A step to a job that holds nothing: a rejection, a plain read, the end of a request. */
  lemma LeaveSession(w: World, i: nat, job: Job, start: map<string, int>)
    requires Inv(w, start) && i < |w.procs|
    requires JobOk(w, job) && TxOk(w, Proc(job, Empty))
    requires OwnedKey(job) == OwnedKey(w.procs[i].job) || OwnedKey(job) == None
    requires OwnedCharge(job) == OwnedCharge(w.procs[i].job) || OwnedCharge(job) == None
    requires !job.CheckoutCreate?
    ensures Inv(Goto(w, i, job), start)
  {
    EmptyIsCompatible(Goto(w, i, job), i);
    LocalStep(w, i, job, Empty, start);
  }
}
