/** The daily movements summary and the sales export: both re-derive totals from the ledger. */
module StockReports {
  import opened Wrappers
  import opened OrderModel
  import opened Ledger
  import opened Money
  import opened Inventory

  // ----- the daily summary -------------------------------------------------------------------------------

  datatype DayTotal = DayTotal(day: int, restocked: nat, sold: nat)

  /** Both bounds optional and inclusive. */
  predicate InRange(day: int, from: Option<int>, to: Option<int>) {
    (from.Some? ==> from.value <= day) && (to.Some? ==> day <= to.value)
  }

  function Positive(delta: int): nat { if delta > 0 then delta else 0 }

  /** Add one delta to its day's totals, keeping the days in ascending order. */
  function Bucket(totals: seq<DayTotal>, day: int, delta: int): seq<DayTotal> {
    if totals == [] || day < totals[0].day then [DayTotal(day, Positive(delta), Positive(-delta))] + totals
    else if day == totals[0].day then
      [DayTotal(day, totals[0].restocked + Positive(delta), totals[0].sold + Positive(-delta))] + totals[1..]
    else [totals[0]] + Bucket(totals[1..], day, delta)
  }

  /** movements_summary: one entry per day that has a movement in range. */
  function Summary(rows: seq<Row>, from: Option<int>, to: Option<int>): seq<DayTotal> {
    if rows == [] then []
    else
      var n := |rows| - 1;
      var before := Summary(rows[..n], from, to);
      if InRange(rows[n].day, from, to) then Bucket(before, rows[n].day, rows[n].move.delta) else before
  }

  /** Sum of the positive (or of the negated negative) deltas of one day. */
  function DaySum(rows: seq<Row>, day: int, sign: int): nat {
    if rows == [] then 0
    else
      var last := rows[|rows| - 1];
      DaySum(rows[..|rows| - 1], day, sign)
      + if last.day == day && sign * last.move.delta > 0 then sign * last.move.delta else 0
  }

  predicate HasDay(rows: seq<Row>, day: int) {
    exists k :: 0 <= k < |rows| && rows[k].day == day
  }

  predicate Ascending(totals: seq<DayTotal>) {
    forall j, k :: 0 <= j < k < |totals| ==> totals[j].day < totals[k].day
  }

  /** The totals listed for a day, zero when it is not listed. */
  function Listed(totals: seq<DayTotal>, day: int): (int, int) {
    if totals == [] then (0, 0)
    else if totals[0].day == day then (totals[0].restocked, totals[0].sold)
    else Listed(totals[1..], day)
  }

  predicate ListsDay(totals: seq<DayTotal>, day: int) {
    exists k :: 0 <= k < |totals| && totals[k].day == day
  }

  lemma {:induction false} BucketAscends(totals: seq<DayTotal>, day: int, delta: int)
    requires Ascending(totals)
    ensures Ascending(Bucket(totals, day, delta))
  {
    if !(totals == [] || day <= totals[0].day) {
      var rest := totals[1..];
      forall j, k | 0 <= j < k < |rest| ensures rest[j].day < rest[k].day {
        assert totals[j + 1].day < totals[k + 1].day;
      }
      BucketAscends(rest, day, delta);
      var tail := Bucket(rest, day, delta);
      forall k | 0 <= k < |tail| ensures totals[0].day < tail[k].day {
        TailDays(rest, day, delta, totals[0].day, k);
      }
    }
  }

  lemma {:induction false} BucketLists(totals: seq<DayTotal>, day: int, delta: int, d: int)
    ensures ListsDay(Bucket(totals, day, delta), d) <==> ListsDay(totals, d) || d == day
  {
    hide ListsDay;
    var all := Bucket(totals, day, delta);
    ListsFront(all, d);
    if totals == [] || day < totals[0].day {
      assert all[1..] == totals;
    } else {
      ListsFront(totals, d);
      if day == totals[0].day {
        assert all[1..] == totals[1..];
      } else {
        assert all[1..] == Bucket(totals[1..], day, delta);
        BucketLists(totals[1..], day, delta, d);
      }
    }
  }

  lemma {:induction false} BucketListed(totals: seq<DayTotal>, day: int, delta: int, d: int)
    requires Ascending(totals)
    ensures var (i, o) := Listed(totals, d);
            Listed(Bucket(totals, day, delta), d) ==
              if d == day then (i + Positive(delta), o + Positive(-delta)) else (i, o)
  {
    var all := Bucket(totals, day, delta);
    if totals == [] || day < totals[0].day {
      assert all[1..] == totals;
      NotListed(totals, day);
    } else if day == totals[0].day {
      assert all[1..] == totals[1..];
    } else {
      var rest := totals[1..];
      forall j, k | 0 <= j < k < |rest| ensures rest[j].day < rest[k].day {
        assert totals[j + 1].day < totals[k + 1].day;
      }
      BucketListed(rest, day, delta, d);
      assert all[1..] == Bucket(rest, day, delta);
    }
  }

  lemma ListsFront(totals: seq<DayTotal>, d: int)
    requires totals != []
    ensures ListsDay(totals, d) <==> totals[0].day == d || ListsDay(totals[1..], d)
  {
    if ListsDay(totals, d) {
      var k :| 0 <= k < |totals| && totals[k].day == d;
      assert k > 0 ==> totals[1..][k - 1].day == d;
    }
    if ListsDay(totals[1..], d) {
      var k :| 0 <= k < |totals[1..]| && totals[1..][k].day == d;
      assert totals[k + 1].day == d;
    }
  }

  lemma {:induction false} TailDays(rest: seq<DayTotal>, day: int, delta: int, low: int, k: nat)
    requires low < day && (forall j :: 0 <= j < |rest| ==> low < rest[j].day) && k < |Bucket(rest, day, delta)|
    ensures low < Bucket(rest, day, delta)[k].day
  {
    if !(rest == [] || day <= rest[0].day) && k > 0 {
      TailDays(rest[1..], day, delta, low, k - 1);
    }
  }

  lemma {:induction false} NotListed(totals: seq<DayTotal>, day: int)
    requires forall k :: 0 <= k < |totals| ==> totals[k].day != day
    ensures Listed(totals, day) == (0, 0)
  {
    if totals != [] {
      NotListed(totals[1..], day);
    }
  }

  lemma HasDayPush(rows: seq<Row>, day: int)
    requires rows != []
    ensures HasDay(rows, day) <==> HasDay(rows[..|rows| - 1], day) || rows[|rows| - 1].day == day
  {
    if HasDay(rows[..|rows| - 1], day) {
      var k :| 0 <= k < |rows| - 1 && rows[..|rows| - 1][k].day == day;
      assert rows[k].day == day;
    }
    if HasDay(rows, day) {
      var k :| 0 <= k < |rows| && rows[k].day == day;
      assert k < |rows| - 1 ==> rows[..|rows| - 1][k].day == day;
    }
  }

  /** Days ascend without repetition, exactly the days in range with a movement are listed, and each day's
      two totals are the sums of its positive and of its negative deltas. */
  lemma {:induction false} SummaryPerDay(rows: seq<Row>, from: Option<int>, to: Option<int>, day: int)
    ensures Ascending(Summary(rows, from, to))
    ensures var totals := Summary(rows, from, to);
            var inRange := (from.Some? ==> from.value <= day) && (to.Some? ==> day <= to.value);
            && (ListsDay(totals, day) <==> inRange && HasDay(rows, day))
            && (inRange ==> Listed(totals, day) == (DaySum(rows, day, 1), DaySum(rows, day, -1)))
  {
    hide Bucket, Listed, Ascending, HasDay, ListsDay;
    if rows == [] {
      NoRows(day);
    } else {
      var n := |rows| - 1;
      SummaryPerDay(rows[..n], from, to, day);
      HasDayPush(rows, day);
      var before := Summary(rows[..n], from, to);
      BucketAscends(before, rows[n].day, rows[n].move.delta);
      BucketLists(before, rows[n].day, rows[n].move.delta, day);
      BucketListed(before, rows[n].day, rows[n].move.delta, day);
    }
  }

  lemma NoRows(day: int)
    ensures Ascending([]) && !ListsDay([], day) && !HasDay([], day) && Listed([], day) == (0, 0)
  {
  }

  // ----- conservation ------------------------------------------------------------------------------------

  function Balance(totals: seq<DayTotal>): int {
    if totals == [] then 0 else totals[0].restocked - totals[0].sold + Balance(totals[1..])
  }

  lemma {:induction false} BucketBalance(totals: seq<DayTotal>, day: int, delta: int)
    ensures Balance(Bucket(totals, day, delta)) == Balance(totals) + delta
  {
    var all := Bucket(totals, day, delta);
    if totals == [] || day < totals[0].day {
      assert all[1..] == totals;
    } else if day == totals[0].day {
      assert all[1..] == totals[1..];
    } else {
      BucketBalance(totals[1..], day, delta);
      assert all[1..] == Bucket(totals[1..], day, delta);
    }
  }

  /** Net change of a list of skus over a ledger. */
  function NetOf(moves: seq<Movement>, skus: seq<string>): int {
    if skus == [] then 0 else NetOf(moves, skus[..|skus| - 1]) + Net(moves, skus[|skus| - 1])
  }

  function ChangeOf(start: map<string, int>, now: map<string, int>, skus: seq<string>): int
    requires forall s :: s in skus ==> s in start && s in now
  {
    if skus == [] then 0
    else
      var sku := skus[|skus| - 1];
      ChangeOf(start, now, skus[..|skus| - 1]) + now[sku] - start[sku]
  }

  predicate Distinct(skus: seq<string>) {
    forall j, k :: 0 <= j < k < |skus| ==> skus[j] != skus[k]
  }

  lemma {:induction false} NetOfPush(moves: seq<Movement>, m: Movement, skus: seq<string>)
    requires Distinct(skus)
    ensures NetOf(moves + [m], skus) == NetOf(moves, skus) + if m.sku in skus then m.delta else 0
  {
    assert (moves + [m])[..|moves|] == moves;
    if skus != [] {
      var n := |skus| - 1;
      NetOfPush(moves, m, skus[..n]);
      assert skus == skus[..n] + [skus[n]];
    }
  }

  lemma {:induction false} NetOfNothing(skus: seq<string>)
    ensures NetOf([], skus) == 0
  {
    if skus != [] {
      NetOfNothing(skus[..|skus| - 1]);
    }
  }

  lemma {:induction false} SummaryBalance(rows: seq<Row>, skus: seq<string>)
    requires Distinct(skus) && forall r :: r in rows ==> r.move.sku in skus
    ensures Balance(Summary(rows, None, None)) == NetOf(Moves(rows), skus)
  {
    if rows == [] {
      NetOfNothing(skus);
    } else {
      var n := |rows| - 1;
      assert forall r :: r in rows[..n] ==> r in rows;
      SummaryBalance(rows[..n], skus);
      NetOfPush(Moves(rows[..n]), rows[n].move, skus);
      BucketBalance(Summary(rows[..n], None, None), rows[n].day, rows[n].move.delta);
    }
  }

  lemma {:induction false} ChangeIsNet(start: map<string, int>, now: map<string, int>, rows: seq<Row>, skus: seq<string>)
    requires Explained(start, now, rows) && forall s :: s in skus ==> s in start
    ensures ChangeOf(start, now, skus) == NetOf(Moves(rows), skus)
  {
    if skus != [] {
      assert forall s :: s in skus[..|skus| - 1] ==> s in skus;
      ChangeIsNet(start, now, rows, skus[..|skus| - 1]);
    }
  }

  lemma RowsKnown(start: map<string, int>, now: map<string, int>, rows: seq<Row>)
    requires Explained(start, now, rows)
    ensures forall r :: r in rows ==> r.move.sku in start
  {
    forall r | r in rows ensures r.move.sku in start {
      var k :| 0 <= k < |rows| && rows[k] == r;
      MovesAt(rows, k);
      assert FlagTruthful(start, Moves(rows), k);
    }
  }

  lemma {:induction false} MovesAt(rows: seq<Row>, k: nat)
    requires k < |rows|
    ensures |Moves(rows)| == |rows| && Moves(rows)[k] == rows[k].move
  {
    var n := |rows| - 1;
    if k < n {
      MovesAt(rows[..n], k);
    } else if n > 0 {
      MovesAt(rows[..n], 0);
    }
  }

  /** Over all days, restocked minus sold is the net change of all quantities. */
  lemma SummaryMatchesStock(start: map<string, int>, now: map<string, int>, rows: seq<Row>, skus: seq<string>)
    requires Explained(start, now, rows)
    requires Distinct(skus) && forall s :: s in skus <==> s in start
    ensures Balance(Summary(rows, None, None)) == ChangeOf(start, now, skus)
  {
    RowsKnown(start, now, rows);
    SummaryBalance(rows, skus);
    ChangeIsNet(start, now, rows, skus);
  }
}
