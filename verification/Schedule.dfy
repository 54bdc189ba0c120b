/** Schedule windows: permanent hours, day overrides, and the two readers. */
module Schedule {
  import opened Commands
  import opened Strings
  import opened Wrappers

  datatype Period = Morning | Evening

  /** A row of schedule_windows. Times are microseconds since midnight; `date` None is the permanent row. */
  datatype Window = Window(period: Period, start: nat, end: nat, active: bool, date: Option<int>)

  datatype Command = SetHours(period: Period, today: bool, start: Json, end: Json) | ResetToDefault(period: Period, today: bool)

  /** _required_command_shape */
  function Shape(raw: Raw): Option<Command> {
    if raw.None? then None
    else
      var fields := raw.value;
      var period := Get(fields, "period");
      var action := Get(fields, "action");
      var scope := Get(fields, "scope");
      if period !in {Text("morning"), Text("evening")} then None
      else if action !in {Text("set_hours"), Text("reset_to_default")} then None
      else if scope !in {Text("today"), Text("permanent")} then None
      else
        var p := if period == Text("morning") then Morning else Evening;
        if action == Text("set_hours") then
          Some(SetHours(p, scope == Text("today"), Get(fields, "start_time"), Get(fields, "end_time")))
        else Some(ResetToDefault(p, scope == Text("today")))
  }

  /** The command a caller writes. */
  function ToRaw(c: Command): Raw {
    var period := Text(if c.period == Morning then "morning" else "evening");
    var scope := Text(if c.today then "today" else "permanent");
    match c
    case SetHours(_, _, start, end) =>
      Some(map["period" := period, "action" := Text("set_hours"), "scope" := scope, "start_time" := start, "end_time" := end])
    case ResetToDefault(_, _) => Some(map["period" := period, "action" := Text("reset_to_default"), "scope" := scope])
  }

  /** The keys that parsing reads. */
  function ReadKeys(c: Command): set<string> {
    {"period", "action", "scope"} + if c.SetHours? then {"start_time", "end_time"} else {}
  }

  /** A raw command is read as `c` exactly when the values it has under the keys that are read are those of
      `c` written out; so every command is read back as it was written. */
  lemma ParsesBack(c: Command, raw: Raw)
    ensures Shape(raw) == Some(c) <==>
            raw.Some? && forall key :: key in ReadKeys(c) ==> Get(raw.value, key) == Get(ToRaw(c).value, key)
  {
    if raw.Some? {
      assert "period" in ReadKeys(c) && "action" in ReadKeys(c) && "scope" in ReadKeys(c);
      assert c.SetHours? ==> "start_time" in ReadKeys(c) && "end_time" in ReadKeys(c);
    }
  }

  /** What time.fromisoformat returns: microseconds since midnight on the clock, and the UTC offset in whole
      seconds, rounded down, when the text carries one. */
  datatype Clock = Clock(wall: nat, offset: Option<int>)

  /** time.fromisoformat, None for its ValueError. */
  type Iso = string -> Option<Clock>

  /** The instant that comparison looks at. */
  function Instant(c: Clock): int {
    c.wall - match c.offset case Some(seconds) => 1_000_000 * seconds case None => 0
  }

  /** The times that the comparison operators refuse with a TypeError. */
  predicate Incomparable(a: Clock, b: Clock) {
    a.offset.Some? != b.offset.Some?
  }

  /** _parse_time */
  function ParseTime(iso: Iso, value: Json): Option<Clock> {
    if value.Text? && Strip(value.text) != "" then iso(Strip(value.text)) else None
  }

  /** The times that the checks of set_hours let through, as the TIME columns store them: the driver sends
      the clock and no offset. */
  function Hours(iso: Iso, start: Json, end: Json): Option<(nat, nat)> {
    var from, to := ParseTime(iso, start), ParseTime(iso, end);
    if from.None? || to.None? || Incomparable(from.value, to.value) || Instant(from.value) >= Instant(to.value) then None
    else Some((from.value.wall, to.value.wall))
  }

  /** The validator itself raises: one time has an offset and the other has none. */
  predicate Clashes(iso: Iso, raw: Raw) {
    match Shape(raw)
    case Some(SetHours(_, _, start, end)) =>
      var from, to := ParseTime(iso, start), ParseTime(iso, end);
      from.Some? && to.Some? && Incomparable(from.value, to.value)
    case _ => false
  }

  /** The commands for which validate_apply_schedule_command returns 1. */
  predicate Validates(iso: Iso, raw: Raw) {
    match Shape(raw)
    case None => false
    case Some(SetHours(_, _, start, end)) => Hours(iso, start, end).Some?
    case Some(ResetToDefault(_, today)) => today
  }

  /** validate_apply_schedule_command */
  method ValidateApplyScheduleCommand(iso: Iso, raw: Raw) returns (outcome: Outcome<int>)
    ensures outcome.Raise? <==> Clashes(iso, raw)
    ensures outcome.Ok? ==> outcome.result == if Validates(iso, raw) then 1 else 0
  {
    hide Shape, ParseTime;
    var parsed := Shape(raw);
    if parsed.None? {
      return Ok(0);
    }
    match parsed.value {
      case SetHours(_, _, start, end) =>
        var from, to := ParseTime(iso, start), ParseTime(iso, end);
        if from.None? || to.None? {
          return Ok(0);
        }
        if Incomparable(from.value, to.value) {
          return Raise("can't compare offset-naive and offset-aware times");
        }
        if Instant(from.value) >= Instant(to.value) {
          return Ok(0);
        }
      case ResetToDefault(_, today) =>
        if !today {
          return Ok(0);
        }
    }
    return Ok(1);
  }

  // ----- writing ---------------------------------------------------------------------------------------------

  predicate InSlice(w: Window, period: Period, date: Option<int>) {
    w.period == period && w.date == date
  }

  /** Position of the slice's row, or the table's length. */
  function SliceIndex(table: seq<Window>, period: Period, date: Option<int>): (i: nat)
    ensures i <= |table|
    ensures i < |table| ==> InSlice(table[i], period, date)
    ensures forall j :: 0 <= j < i ==> !InSlice(table[j], period, date)
  {
    if table == [] then 0
    else if InSlice(table[0], period, date) then 0
    else 1 + SliceIndex(table[1..], period, date)
  }

  /** INSERT ... ON CONFLICT on the slice's partial unique index DO UPDATE. */
  function Upsert(table: seq<Window>, w: Window): seq<Window> {
    var i := SliceIndex(table, w.period, w.date);
    if i < |table| then table[i := w] else table + [w]
  }

  /** DELETE of the slice's rows. */
  function Delete(table: seq<Window>, period: Period, date: Option<int>): seq<Window> {
    if table == [] then []
    else
      var n := |table| - 1;
      Delete(table[..n], period, date) + if InSlice(table[n], period, date) then [] else [table[n]]
  }

  /** apply_schedule_command on the day `today`, None when it raises. */
  function Applied(iso: Iso, today: int, table: seq<Window>, raw: Raw): Option<seq<Window>> {
    match Shape(raw)
    case None => None
    case Some(SetHours(period, todayOnly, start, end)) =>
      (match Hours(iso, start, end)
       case None => None
       case Some((from, to)) => Some(Upsert(table, Window(period, from, to, true, if todayOnly then Some(today) else None))))
    case Some(ResetToDefault(period, todayOnly)) =>
      if todayOnly then Some(Delete(table, period, Some(today))) else None
  }

  class ScheduleTable {
    var windows: seq<Window>

    constructor (initial: seq<Window>)
      ensures windows == initial
    {
      windows := initial;
    }

    /** apply_schedule_command: 0 for a write, the number of deleted rows for a reset. */
    method ApplyScheduleCommand(iso: Iso, today: int, raw: Raw) returns (outcome: Outcome<nat>)
      modifies this
      ensures outcome.Ok? <==> Applied(iso, today, old(windows), raw).Some?
      ensures outcome.Raise? ==> windows == old(windows)
      ensures outcome.Ok? ==> windows == Applied(iso, today, old(windows), raw).value
      ensures outcome.Ok? && Shape(raw).value.ResetToDefault? ==> outcome.result == old(|windows|) - |windows|
    {
      hide Shape, ParseTime;
      var parsed := Shape(raw);
      if parsed.None? {
        return Raise("malformed command");
      }
      match parsed.value
      case SetHours(period, todayOnly, start, end) =>
        var from, to := ParseTime(iso, start), ParseTime(iso, end);
        if from.None? || to.None? {
          return Raise("invalid times at write time");
        }
        if Incomparable(from.value, to.value) {
          return Raise("can't compare offset-naive and offset-aware times");
        }
        if Instant(from.value) >= Instant(to.value) {
          return Raise("start_time >= end_time at write time");
        }
        var w := Window(period, from.value.wall, to.value.wall, true, if todayOnly then Some(today) else None);
        var i := SliceIndex(windows, w.period, w.date);
        if i < |windows| {
          windows := windows[i := w];
        } else {
          windows := windows + [w];
        }
        return Ok(0);
      case ResetToDefault(period, todayOnly) =>
        if !todayOnly {
          return Raise("reset_to_default requires scope=today");
        }
        var deleted := CountSlice(windows, period, Some(today));
        CountDeleted(windows, period, Some(today));
        windows := Delete(windows, period, Some(today));
        return Ok(deleted);
    }
  }

  function CountSlice(table: seq<Window>, period: Period, date: Option<int>): nat {
    if table == [] then 0
    else
      CountSlice(table[..|table| - 1], period, date) + if InSlice(table[|table| - 1], period, date) then 1 else 0
  }

  lemma {:induction false} CountDeleted(table: seq<Window>, period: Period, date: Option<int>)
    ensures |Delete(table, period, date)| + CountSlice(table, period, date) == |table|
  {
    if table != [] {
      CountDeleted(table[..|table| - 1], period, date);
    }
  }

  // ----- reading ---------------------------------------------------------------------------------------------

  /** The WHERE clause of both readers. */
  predicate Selected(w: Window, today: int) {
    w.date == Some(today) || w.date == None
  }

  function PeriodRank(p: Period): int {
    match p case Morning => 1 case Evening => 0
  }

  /** ORDER BY period, effective_date NULLS LAST ('evening' sorts before 'morning'). */
  predicate Before(a: Window, b: Window) {
    PeriodRank(a.period) < PeriodRank(b.period) || (a.period == b.period && (a.date.Some? || b.date.None?))
  }

  /** Any result of the readers' query. */
  ghost predicate QueryResult(rows: seq<Window>, table: seq<Window>, today: int) {
    && (forall w :: w in rows <==> w in table && Selected(w, today))
    && (forall j, k :: 0 <= j < k < |rows| ==> Before(rows[j], rows[k]))
  }

  /** _load_windows: the first row per period wins. */
  method LoadWindows(rows: seq<Window>) returns (windows: map<Period, Window>)
    ensures forall p :: p in windows <==> exists k :: 0 <= k < |rows| && rows[k].period == p
    ensures forall p :: p in windows ==>
              exists k :: 0 <= k < |rows| && rows[k] == windows[p] && FirstOfPeriod(rows, k, p)
  {
    windows := map[];
    for k := 0 to |rows|
      invariant forall p :: p in windows <==> exists j :: 0 <= j < k && rows[j].period == p
      invariant forall p :: p in windows ==> exists j :: 0 <= j < k && rows[j] == windows[p] && FirstOfPeriod(rows, j, p)
    {
      if rows[k].period !in windows {
        windows := windows[rows[k].period := rows[k]];
        assert FirstOfPeriod(rows, k, rows[k].period);
      }
    }
  }

  predicate FirstOfPeriod(rows: seq<Window>, k: nat, p: Period)
    requires k < |rows|
  {
    rows[k].period == p && forall j :: 0 <= j < k ==> rows[j].period != p
  }

  datatype AdminEntry = AdminEntry(permanent: Option<Window>, todayOverride: Option<Window>)

  /** get_admin_windows: later rows overwrite earlier ones. */
  method GetAdminWindows(rows: seq<Window>) returns (entries: map<Period, AdminEntry>)
    ensures entries.Keys == {Morning, Evening}
    ensures forall p :: p in entries ==>
              && (entries[p].permanent.Some? <==> exists k :: 0 <= k < |rows| && rows[k].period == p && rows[k].date.None?)
              && (entries[p].todayOverride.Some? <==> exists k :: 0 <= k < |rows| && rows[k].period == p && rows[k].date.Some?)
              && (entries[p].permanent.Some? ==>
                   entries[p].permanent.value in rows && entries[p].permanent.value.period == p && entries[p].permanent.value.date.None?)
              && (entries[p].todayOverride.Some? ==>
                   entries[p].todayOverride.value in rows && entries[p].todayOverride.value.period == p
                   && entries[p].todayOverride.value.date.Some?)
  {
    entries := map[Morning := AdminEntry(None, None), Evening := AdminEntry(None, None)];
    for k := 0 to |rows|
      invariant entries.Keys == {Morning, Evening}
      invariant forall p :: p in entries ==>
                  && (entries[p].permanent.Some? <==> exists j :: 0 <= j < k && rows[j].period == p && rows[j].date.None?)
                  && (entries[p].todayOverride.Some? <==> exists j :: 0 <= j < k && rows[j].period == p && rows[j].date.Some?)
                  && (entries[p].permanent.Some? ==>
                       entries[p].permanent.value in rows && entries[p].permanent.value.period == p && entries[p].permanent.value.date.None?)
                  && (entries[p].todayOverride.Some? ==>
                       entries[p].todayOverride.value in rows && entries[p].todayOverride.value.period == p
                       && entries[p].todayOverride.value.date.Some?)
    {
      var w := rows[k];
      var p := w.period;
      assert p == Morning || p == Evening;
      if w.date.None? {
        entries := entries[p := entries[p].(permanent := Some(w))];
      } else {
        entries := entries[p := entries[p].(todayOverride := Some(w))];
      }
    }
  }

  // ----- what is in effect -------------------------------------------------------------------------------------

  /** At most one permanent row per period and one row per period and date. */
  ghost predicate Consistent(table: seq<Window>) {
    forall j, k :: 0 <= j < k < |table| ==> !(table[j].period == table[k].period && table[j].date == table[k].date)
  }

  /** Every window ends after it starts. */
  ghost predicate Ordered(table: seq<Window>) {
    forall w :: w in table ==> w.start < w.end
  }

  function RowOf(table: seq<Window>, period: Period, date: Option<int>): Option<Window> {
    var i := SliceIndex(table, period, date);
    if i < |table| then Some(table[i]) else None
  }

  /** Today's override, else the permanent row. */
  function Effective(table: seq<Window>, today: int, period: Period): Option<Window> {
    var override := RowOf(table, period, Some(today));
    if override.Some? then override else RowOf(table, period, None)
  }

  lemma RowOfUnique(table: seq<Window>, w: Window)
    requires Consistent(table) && w in table
    ensures RowOf(table, w.period, w.date) == Some(w)
  {
    var k :| 0 <= k < |table| && table[k] == w;
    var i := SliceIndex(table, w.period, w.date);
    assert i < |table|;
    assert !(i < k) && !(k < i);
  }

  lemma RowOfMember(table: seq<Window>, period: Period, date: Option<int>)
    ensures RowOf(table, period, date).Some? ==>
              RowOf(table, period, date).value in table && InSlice(RowOf(table, period, date).value, period, date)
    ensures RowOf(table, period, date).None? ==> forall w :: w in table ==> !InSlice(w, period, date)
  {
    if RowOf(table, period, date).None? {
      forall w | w in table ensures !InSlice(w, period, date) {
        var k :| 0 <= k < |table| && table[k] == w;
      }
    }
  }

  /** The first row per period of any query result is the window in effect. */
  lemma FirstRowIsInEffect(table: seq<Window>, today: int, rows: seq<Window>, p: Period, k: nat)
    requires Consistent(table) && QueryResult(rows, table, today) && k < |rows| && FirstOfPeriod(rows, k, p)
    ensures Effective(table, today, p) == Some(rows[k])
  {
    hide Consistent, RowOf;
    var w := rows[k];
    assert w in rows;
    RowOfUnique(table, w);
    RowOfMember(table, p, Some(today));
    if w.date.None? && RowOf(table, p, Some(today)).Some? {
      var o := RowOf(table, p, Some(today)).value;
      assert o in rows;
      var j :| 0 <= j < |rows| && rows[j] == o;
      assert k < j ==> Before(rows[k], rows[j]);
    }
  }

  lemma NoRowNoEffect(table: seq<Window>, today: int, rows: seq<Window>, p: Period)
    requires QueryResult(rows, table, today) && forall k :: 0 <= k < |rows| ==> rows[k].period != p
    ensures Effective(table, today, p) == None
  {
    hide RowOf;
    RowOfMember(table, p, Some(today));
    RowOfMember(table, p, None);
    forall w | w in rows ensures w.period != p {
      var k :| 0 <= k < |rows| && rows[k] == w;
    }
  }

  /** Both readers agree on what is in effect, whatever order the query breaks ties in. */
  method ReadersAgree(table: seq<Window>, today: int, rows: seq<Window>)
    returns (windows: map<Period, Window>, entries: map<Period, AdminEntry>)
    requires Consistent(table) && QueryResult(rows, table, today)
    ensures forall p :: Effective(table, today, p) == if p in windows then Some(windows[p]) else None
    ensures entries.Keys == {Morning, Evening}
    ensures forall p :: p in entries ==>
              && entries[p].permanent == RowOf(table, p, None)
              && entries[p].todayOverride == RowOf(table, p, Some(today))
    ensures forall p :: p in entries ==>
              Effective(table, today, p) ==
                if entries[p].todayOverride.Some? then entries[p].todayOverride else entries[p].permanent
  {
    hide Consistent, RowOf, Effective, QueryResult;
    windows := LoadWindows(rows);
    entries := GetAdminWindows(rows);
    forall p ensures Effective(table, today, p) == if p in windows then Some(windows[p]) else None {
      if p in windows {
        var k :| 0 <= k < |rows| && rows[k] == windows[p] && FirstOfPeriod(rows, k, p);
        FirstRowIsInEffect(table, today, rows, p, k);
      } else {
        NoRowNoEffect(table, today, rows, p);
      }
    }
    forall p | p in entries
      ensures entries[p].permanent == RowOf(table, p, None) && entries[p].todayOverride == RowOf(table, p, Some(today))
      ensures Effective(table, today, p) == if entries[p].todayOverride.Some? then entries[p].todayOverride else entries[p].permanent
    {
      SliceSelected(table, today, rows, p, None, entries[p].permanent);
      SliceSelected(table, today, rows, p, Some(today), entries[p].todayOverride);
      EffectiveIs(table, today, p);
    }
  }

  lemma EffectiveIs(table: seq<Window>, today: int, p: Period)
    ensures Effective(table, today, p) ==
              if RowOf(table, p, Some(today)).Some? then RowOf(table, p, Some(today)) else RowOf(table, p, None)
  {
  }

  lemma SliceSelected(table: seq<Window>, today: int, rows: seq<Window>, p: Period, date: Option<int>, found: Option<Window>)
    requires Consistent(table) && QueryResult(rows, table, today) && (date == None || date == Some(today))
    requires found.Some? <==> exists k :: 0 <= k < |rows| && rows[k].period == p && rows[k].date.Some? == date.Some?
    requires found.Some? ==> found.value in rows && found.value.period == p && found.value.date.Some? == date.Some?
    ensures found == RowOf(table, p, date)
  {
    hide Consistent, RowOf;
    RowOfMember(table, p, date);
    if found.Some? {
      RowOfUnique(table, found.value);
    } else {
      forall w | w in rows ensures !(w.period == p && w.date.Some? == date.Some?) {
        var k :| 0 <= k < |rows| && rows[k] == w;
      }
    }
  }

  // ----- runs --------------------------------------------------------------------------------------------------

  lemma UpsertConsistent(table: seq<Window>, w: Window)
    requires Consistent(table)
    ensures Consistent(Upsert(table, w))
  {
  }

  lemma {:induction false} DeleteMeans(table: seq<Window>, period: Period, date: Option<int>)
    ensures forall w :: w in Delete(table, period, date) <==> w in table && !InSlice(w, period, date)
  {
    if table != [] {
      var n := |table| - 1;
      DeleteMeans(table[..n], period, date);
      assert table == table[..n] + [table[n]];
    }
  }

  lemma {:induction false} DeleteConsistent(table: seq<Window>, period: Period, date: Option<int>)
    requires Consistent(table)
    ensures Consistent(Delete(table, period, date))
  {
    if table != [] {
      var n := |table| - 1;
      DeleteConsistent(table[..n], period, date);
      DeleteMeans(table[..n], period, date);
      AppendConsistent(table, Delete(table[..n], period, date));
    }
  }

  lemma AppendConsistent(table: seq<Window>, kept: seq<Window>)
    requires table != [] && Consistent(table) && Consistent(kept)
    requires forall w :: w in kept ==> w in table[..|table| - 1]
    ensures Consistent(kept + [table[|table| - 1]])
  {
    var last := table[|table| - 1];
    forall k | 0 <= k < |kept| ensures !(kept[k].period == last.period && kept[k].date == last.date) {
      assert kept[k] in kept;
      var j :| 0 <= j < |table| - 1 && table[j] == kept[k];
    }
  }

  lemma AppliedConsistent(iso: Iso, today: int, table: seq<Window>, raw: Raw)
    requires Consistent(table) && Applied(iso, today, table, raw).Some?
    ensures Consistent(Applied(iso, today, table, raw).value)
  {
    hide Shape, Hours, Consistent, Upsert, Delete;
    match Shape(raw)
    case Some(SetHours(period, todayOnly, start, end)) =>
      var (from, to) := Hours(iso, start, end).value;
      UpsertConsistent(table, Window(period, from, to, true, if todayOnly then Some(today) else None));
    case Some(ResetToDefault(period, _)) =>
      DeleteConsistent(table, period, Some(today));
  }

  /** A command and the day on which it is applied. */
  datatype Event = Event(raw: Raw, today: int)

  function Run(iso: Iso, table: seq<Window>, events: seq<Event>): seq<Window> {
    if events == [] then table
    else
      var last := events[|events| - 1];
      var before := Run(iso, table, events[..|events| - 1]);
      match Applied(iso, last.today, before, last.raw) case Some(after) => after case None => before
  }

  /** Over every run of commands on any days, no slice ever gets a second row. */
  lemma {:induction false} RunsStayConsistent(iso: Iso, table: seq<Window>, events: seq<Event>)
    requires Consistent(table)
    ensures Consistent(Run(iso, table, events))
  {
    hide Consistent, Applied;
    if events != [] {
      var last := events[|events| - 1];
      RunsStayConsistent(iso, table, events[..|events| - 1]);
      var before := Run(iso, table, events[..|events| - 1]);
      if Applied(iso, last.today, before, last.raw).Some? {
        AppliedConsistent(iso, last.today, before, last.raw);
      }
    }
  }

  // ----- start before end ----------------------------------------------------------------------------------------

  /** On the clock, the times of the command are in order. */
  predicate ClocksInOrder(iso: Iso, raw: Raw) {
    match Shape(raw)
    case Some(SetHours(_, _, start, end)) =>
      var from, to := ParseTime(iso, start), ParseTime(iso, end);
      from.Some? && to.Some? && from.value.wall < to.value.wall
    case _ => true
  }

  /** The two offsets under which every pair of times that compares as ordered is also ordered on the clock:
      none, or a start that is not further east than the end. */
  lemma SafeOffsetsIff(start: Option<int>, end: Option<int>)
    requires start.Some? == end.Some?
    ensures (forall a: nat, b: nat :: Instant(Clock(a, start)) < Instant(Clock(b, end)) ==> a < b) <==>
            (start.Some? ==> start.value <= end.value)
  {
    if start.Some? && start.value > end.value {
      assert Instant(Clock(0, start)) < Instant(Clock(0, end));
    }
  }

  lemma AppliedOrderedIff(iso: Iso, today: int, table: seq<Window>, raw: Raw)
    requires Consistent(table) && Ordered(table) && Applied(iso, today, table, raw).Some?
    ensures Ordered(Applied(iso, today, table, raw).value) <==> ClocksInOrder(iso, raw)
  {
    hide Shape, ParseTime, Consistent, Upsert, Delete;
    match Shape(raw)
    case Some(SetHours(period, todayOnly, start, end)) =>
      var (from, to) := Hours(iso, start, end).value;
      var w := Window(period, from, to, true, if todayOnly then Some(today) else None);
      UpsertMeans(table, w, w);
      forall x | x in Upsert(table, w) ensures x == w || x in table {
        UpsertMeans(table, w, x);
      }
    case Some(ResetToDefault(period, _)) =>
      DeleteMeans(table, period, Some(today));
  }

  /** Exactly the runs whose accepted commands have their clocks in order keep start before end throughout. */
  lemma {:induction false} RunsStayOrderedIff(iso: Iso, table: seq<Window>, events: seq<Event>)
    requires Consistent(table) && Ordered(table)
    ensures (forall k :: 0 <= k <= |events| ==> Ordered(Run(iso, table, events[..k]))) <==>
            (forall k :: 0 <= k < |events| && Validates(iso, events[k].raw) ==> ClocksInOrder(iso, events[k].raw))
  {
    hide Consistent, Ordered, Applied, Validates, ClocksInOrder;
    assert events[..|events|] == events;
    if events == [] {
      forall k | 0 <= k <= |events| ensures Ordered(Run(iso, table, events[..k])) {
      }
    } else {
      var n := |events| - 1;
      var front, last := events[..n], events[n];
      assert forall k :: 0 <= k <= n ==> front[..k] == events[..k];
      RunsStayOrderedIff(iso, table, front);
      RunsStayConsistent(iso, table, front);
      AcceptedIffValid(iso, last.today, Run(iso, table, front), last.raw);
      var allBefore := forall k :: 0 <= k <= n ==> Ordered(Run(iso, table, front[..k]));
      if allBefore {
        assert front[..n] == front;
        assert Ordered(Run(iso, table, front));
        if Validates(iso, last.raw) {
          AppliedOrderedIff(iso, last.today, Run(iso, table, front), last.raw);
        }
        assert Ordered(Run(iso, table, events)) <==> (Validates(iso, last.raw) ==> ClocksInOrder(iso, last.raw));
      }
    }
  }

  /** Noon five hours east of Greenwich comes before ten in Greenwich, so this command is accepted; the stored
      window ends before it starts and is never open. */
  lemma OffsetsReverseWindow(iso: Iso, today: int, now: nat)
    requires iso("12:00+05:00") == Some(Clock(43_200_000_000, Some(18_000)))
    requires iso("10:00+00:00") == Some(Clock(36_000_000_000, Some(0)))
    ensures var raw := ToRaw(SetHours(Evening, true, Text("12:00+05:00"), Text("10:00+00:00")));
            var stored := Window(Evening, 43_200_000_000, 36_000_000_000, true, Some(today));
            && Validates(iso, raw)
            && Applied(iso, today, [], raw) == Some([stored])
            && !Ordered([stored])
            && !WindowOpen(Some(stored), now)
  {
    StripTrims("12:00+05:00");
    StripTrims("10:00+00:00");
    hide Strip;
    var command := SetHours(Evening, true, Text("12:00+05:00"), Text("10:00+00:00"));
    var stored := Window(Evening, 43_200_000_000, 36_000_000_000, true, Some(today));
    assert Hours(iso, command.start, command.end) == Some((43_200_000_000, 36_000_000_000));
    ParsesBack(command, ToRaw(command));
    assert Upsert([], stored) == [stored];
    assert Applied(iso, today, [], ToRaw(command)) == Some([stored]);
    assert !Ordered([stored]) by { assert stored in [stored]; }
    assert !WindowOpen(Some(stored), now);
  }

  /** The writer accepts exactly what the validator accepts. */
  lemma AcceptedIffValid(iso: Iso, today: int, table: seq<Window>, raw: Raw)
    ensures Applied(iso, today, table, raw).Some? <==> Validates(iso, raw)
  {
    hide Shape;
  }

  /** Exactly which commands are accepted: two readable times of which the start comes first, on the clock when
      neither has an offset and as instants when both have, stored as their clocks; or a reset for today. */
  lemma AcceptedMeans(iso: Iso, raw: Raw)
    ensures Validates(iso, raw) <==>
            match Shape(raw)
            case None => false
            case Some(ResetToDefault(_, today)) => today
            case Some(SetHours(_, _, start, end)) =>
              && start.Text? && end.Text? && Strip(start.text) != "" && Strip(end.text) != ""
              && iso(Strip(start.text)).Some? && iso(Strip(end.text)).Some?
              && var from, to := iso(Strip(start.text)).value, iso(Strip(end.text)).value;
              match (from.offset, to.offset)
              case (None, None) => from.wall < to.wall
              case (Some(a), Some(b)) => from.wall - 1_000_000 * a < to.wall - 1_000_000 * b
              case _ => false
    ensures Validates(iso, raw) && Shape(raw).value.SetHours? ==>
              var command := Shape(raw).value;
              Hours(iso, command.start, command.end) == Some((iso(Strip(command.start.text)).value.wall, iso(Strip(command.end.text)).value.wall))
  {
    hide Shape, Strip;
  }

  // ----- overrides -----------------------------------------------------------------------------------------------

  lemma {:induction false} DeletedSlice(table: seq<Window>, period: Period, date: Option<int>, p: Period, d: Option<int>)
    requires Consistent(table)
    ensures RowOf(Delete(table, period, date), p, d) == if p == period && d == date then None else RowOf(table, p, d)
  {
    hide Consistent, RowOf, Delete;
    var after := Delete(table, period, date);
    DeleteMeans(table, period, date);
    DeleteConsistent(table, period, date);
    RowOfMember(table, p, d);
    RowOfMember(after, p, d);
    if RowOf(after, p, d).Some? {
      RowOfUnique(table, RowOf(after, p, d).value);
    } else {
      assert RowOf(table, p, d).Some? ==> InSlice(RowOf(table, p, d).value, period, date);
    }
  }

  lemma UpsertMeans(table: seq<Window>, w: Window, x: Window)
    requires Consistent(table)
    ensures x in Upsert(table, w) <==> x == w || (x in table && !InSlice(x, w.period, w.date))
  {
    var i := SliceIndex(table, w.period, w.date);
    var after := Upsert(table, w);
    if x in table && !InSlice(x, w.period, w.date) {
      var k :| 0 <= k < |table| && table[k] == x;
      assert after[k] == x;
    }
    if x == w {
      assert after[i] == w;
    }
    if x in after && x != w {
      var k :| 0 <= k < |after| && after[k] == x;
      assert k != i && table[k] == x;
      assert i < |table| && InSlice(x, w.period, w.date) ==> (i < k || k < i);
    }
  }

  lemma UpsertedSlice(table: seq<Window>, w: Window, p: Period, d: Option<int>)
    requires Consistent(table)
    ensures RowOf(Upsert(table, w), p, d) == if InSlice(w, p, d) then Some(w) else RowOf(table, p, d)
  {
    hide Consistent, RowOf, Upsert;
    var after := Upsert(table, w);
    UpsertConsistent(table, w);
    RowOfMember(table, p, d);
    RowOfMember(after, p, d);
    UpsertMeans(table, w, w);
    if InSlice(w, p, d) {
      RowOfUnique(after, w);
    } else if RowOf(after, p, d).Some? {
      UpsertMeans(table, w, RowOf(after, p, d).value);
      RowOfUnique(table, RowOf(after, p, d).value);
    } else if RowOf(table, p, d).Some? {
      UpsertMeans(table, w, RowOf(table, p, d).value);
    }
  }

  /** A today command changes what is in effect for its own period and day only; a permanent command only
      where no override applies. */
  lemma CommandsReachOnlyTheirDay(iso: Iso, today: int, table: seq<Window>, raw: Raw, p: Period, day: int)
    requires Consistent(table) && Applied(iso, today, table, raw).Some?
    ensures var after := Applied(iso, today, table, raw).value;
            var command := Shape(raw).value;
            if command.today && (p != command.period || day != today) then Effective(after, day, p) == Effective(table, day, p)
            else if !command.today && (p != command.period || RowOf(table, p, Some(day)).Some?) then
              Effective(after, day, p) == Effective(table, day, p)
            else if command.SetHours? then
              Hours(iso, command.start, command.end).Some? &&
              var (from, to) := Hours(iso, command.start, command.end).value;
              Effective(after, day, p) == Some(Window(p, from, to, true, if command.today then Some(today) else None))
            else Effective(after, day, p) == RowOf(table, p, None)
  {
    hide Shape, Hours, Consistent, RowOf, Upsert, Delete;
    var command := Shape(raw).value;
    match command
    case SetHours(period, todayOnly, start, end) =>
      var (from, to) := Hours(iso, start, end).value;
      var w := Window(period, from, to, true, if todayOnly then Some(today) else None);
      UpsertedSlice(table, w, p, Some(day));
      UpsertedSlice(table, w, p, None);
    case ResetToDefault(period, _) =>
      DeletedSlice(table, period, Some(today), p, Some(day));
      DeletedSlice(table, period, Some(today), p, None);
  }

  lemma {:induction false} DeleteAppend(a: seq<Window>, b: seq<Window>, period: Period, date: Option<int>)
    ensures Delete(a + b, period, date) == Delete(a, period, date) + Delete(b, period, date)
  {
    if b == [] {
      assert a + b == a;
    } else {
      var n := |b| - 1;
      assert (a + b)[..|a + b| - 1] == a + b[..n];
      DeleteAppend(a, b[..n], period, date);
    }
  }

  lemma DeleteOne(w: Window, period: Period, date: Option<int>)
    ensures Delete([w], period, date) == if InSlice(w, period, date) then [] else [w]
  {
    assert [w][..0] == [];
  }

  /** Deleting a slice forgets whatever was upserted into it. */
  lemma DeleteAfterUpsert(table: seq<Window>, w: Window)
    ensures Delete(Upsert(table, w), w.period, w.date) == Delete(table, w.period, w.date)
  {
    hide Delete;
    var i := SliceIndex(table, w.period, w.date);
    DeleteOne(w, w.period, w.date);
    if i < |table| {
      var front, back := table[..i], table[i + 1..];
      assert table == front + [table[i]] + back && Upsert(table, w) == front + [w] + back;
      DeleteOne(table[i], w.period, w.date);
      DeleteAppend(front, [table[i]], w.period, w.date);
      DeleteAppend(front + [table[i]], back, w.period, w.date);
      DeleteAppend(front, [w], w.period, w.date);
      DeleteAppend(front + [w], back, w.period, w.date);
    } else {
      DeleteAppend(table, [w], w.period, w.date);
    }
  }

  /** Setting today's hours and then resetting them is resetting them. */
  lemma SetThenResetIsReset(iso: Iso, today: int, table: seq<Window>, setToday: Raw, reset: Raw)
    requires Shape(setToday).Some? && Shape(setToday).value.SetHours? && Shape(setToday).value.today
    requires Shape(reset) == Some(ResetToDefault(Shape(setToday).value.period, true))
    requires Applied(iso, today, table, setToday).Some?
    ensures Applied(iso, today, Applied(iso, today, table, setToday).value, reset) == Applied(iso, today, table, reset)
  {
    hide Shape, Hours, Upsert, Delete;
    var command := Shape(setToday).value;
    var (from, to) := Hours(iso, command.start, command.end).value;
    DeleteAfterUpsert(table, Window(command.period, from, to, true, Some(today)));
  }

  // ----- opening hours ---------------------------------------------------------------------------------------

  /** 23:59:59, the end of the day. */
  const END_OF_DAY: nat := 86_399_000_000

  predicate WindowOpen(w: Option<Window>, now: nat) {
    w.Some? && w.value.active && w.value.start <= now && (w.value.end == END_OF_DAY || now <= w.value.end)
  }

  /** `timeUntil` is in whole seconds. */
  datatype MenuContext = MenuContext(isOpen: bool, timeUntil: Option<int>)

  /** get_menu_window_context, from the effective windows and the business state. */
  function ContextAt(morning: Option<Window>, evening: Option<Window>, businessOpen: bool, now: nat): MenuContext {
    var isOpen := businessOpen && (WindowOpen(morning, now) || WindowOpen(evening, now));
    MenuContext(isOpen,
                if !isOpen && evening.Some? && evening.value.active && now < evening.value.start then
                  Some((evening.value.start - now) / 1_000_000)
                else None)
  }

  /** While the business is open, setting today's hours opens the menu at exactly the times that the new window or
      the other period's covers, to the very last second of the day for an end of 23:59:59; closed, a preorder is
      offered exactly as long as today's evening is still to come, with the whole seconds until then. */
  lemma SetHoursGovernsToday(iso: Iso, today: int, table: seq<Window>, raw: Raw, businessOpen: bool, now: nat)
    requires Consistent(table) && Applied(iso, today, table, raw).Some?
    requires Shape(raw).value.SetHours? && Shape(raw).value.today
    ensures var after := Applied(iso, today, table, raw).value;
            var command := Shape(raw).value;
            var other := if command.period == Morning then Evening else Morning;
            var context := ContextAt(Effective(after, today, Morning), Effective(after, today, Evening), businessOpen, now);
            var o := Effective(table, today, other);
            Hours(iso, command.start, command.end).Some? &&
            var (from, to) := Hours(iso, command.start, command.end).value;
            var evening := if command.period == Evening then Some(from) else if o.Some? && o.value.active then Some(o.value.start) else None;
            && (context.isOpen <==>
                 && businessOpen
                 && (|| (from <= now && (to == 86_399_000_000 || now <= to))
                     || (o.Some? && o.value.active && o.value.start <= now && (o.value.end == 86_399_000_000 || now <= o.value.end))))
            && (context.timeUntil.Some? <==> !context.isOpen && evening.Some? && now < evening.value)
            && (context.timeUntil.Some? ==>
                 1_000_000 * context.timeUntil.value <= evening.value - now < 1_000_000 * (context.timeUntil.value + 1))
  {
    hide Shape, Hours, Consistent, RowOf, Applied, Effective;
    CommandsReachOnlyTheirDay(iso, today, table, raw, Morning, today);
    CommandsReachOnlyTheirDay(iso, today, table, raw, Evening, today);
  }
}
