/** Delivery zones: the agent's create, update, deactivate and activate commands. */
module Zones {
  import opened Commands
  import opened Money
  import opened Strings
  import opened Wrappers

  /** A row of delivery_zones; its id is its position. */
  datatype Zone = Zone(name: string, minutes: int, active: bool, fee: int)

  datatype Command =
    | Create(name: string, minutes: int, fee: Option<int>)
    | Update(target: string, rename: Option<string>, newMinutes: Option<int>, fee: Option<int>)
    | Deactivate(target: string)
    | Activate(target: string)

  /** _required_command_shape */
  function Shape(raw: Raw): Option<Command> {
    if raw.None? then None
    else
      var fields := raw.value;
      var action := Get(fields, "action");
      var name := NonBlank(Get(fields, "name"));
      var target := NonBlank(Get(fields, "target_zone_name"));
      var minutes := Get(fields, "delivery_time_minutes");
      var fee := Get(fields, "delivery_fee_rub");
      if action !in {Text("create"), Text("update"), Text("deactivate"), Text("activate")} then None
      else if fee != Null && (WholeNumber(fee).None? || fee.number < 0) then None
      else if action == Text("create") then
        if name.None? || WholeNumber(minutes).None? || minutes.number <= 0 then None
        else Some(Create(name.value, minutes.number, WholeNumber(fee)))
      else if target.None? then None
      else if action == Text("deactivate") then Some(Deactivate(target.value))
      else if action == Text("activate") then Some(Activate(target.value))
      else if name.None? && minutes == Null && fee == Null then None
      else if minutes != Null && (WholeNumber(minutes).None? || minutes.number <= 0) then None
      else Some(Update(target.value, name, WholeNumber(minutes), WholeNumber(fee)))
  }

  /** The command a caller writes for an intended change; absent values are left out as null. */
  function ToRaw(c: Command): Raw {
    match c
    case Create(name, minutes, fee) =>
      Some(map["action" := Text("create"), "name" := Text(name), "delivery_time_minutes" := Int(minutes),
               "delivery_fee_rub" := OrNull(fee)])
    case Update(target, rename, minutes, fee) =>
      Some(map["action" := Text("update"), "target_zone_name" := Text(target), "name" := TextOrNull(rename),
               "delivery_time_minutes" := OrNull(minutes), "delivery_fee_rub" := OrNull(fee)])
    case Deactivate(target) => Some(map["action" := Text("deactivate"), "target_zone_name" := Text(target)])
    case Activate(target) => Some(map["action" := Text("activate"), "target_zone_name" := Text(target)])
  }

  function OrNull(n: Option<int>): Json {
    match n case Some(i) => Int(i) case None => Null
  }

  function TextOrNull(s: Option<string>): Json {
    match s case Some(text) => Text(text) case None => Null
  }

  /** The commands worth writing: names with something in them, positive times, fees from zero, and an
      update that updates something. */
  predicate WellFormed(c: Command) {
    match c
    case Create(name, minutes, fee) => Strip(name) != "" && 0 < minutes && (fee.Some? ==> 0 <= fee.value)
    case Update(target, rename, minutes, fee) =>
      && Strip(target) != "" && (rename.Some? ==> Strip(rename.value) != "")
      && (minutes.Some? ==> 0 < minutes.value) && (fee.Some? ==> 0 <= fee.value)
      && (rename.Some? || minutes.Some? || fee.Some?)
    case Deactivate(target) => Strip(target) != ""
    case Activate(target) => Strip(target) != ""
  }

  lemma WrittenIsRead(c: Command)
    requires WellFormed(c)
    ensures Shape(ToRaw(c)) == Some(c)
  {
    hide Strip;
  }

  lemma ReadIsWellFormed(raw: Raw)
    ensures Shape(raw).Some? ==> WellFormed(Shape(raw).value)
  {
    hide Strip;
  }

  /** Exactly the well-formed commands come out of parsing, and each is read back as it was written. */
  lemma ParsesBack(c: Command, raw: Raw)
    ensures WellFormed(c) ==> Shape(ToRaw(c)) == Some(c)
    ensures Shape(raw).Some? ==> WellFormed(Shape(raw).value)
  {
    hide Shape, ToRaw, WellFormed;
    ReadIsWellFormed(raw);
    if WellFormed(c) {
      WrittenIsRead(c);
    }
  }

  /** Positions of the zones with this lower-cased name and this activity. */
  function Matches(lower: string -> string, zones: seq<Zone>, name: string, active: bool): (found: seq<nat>)
    ensures forall k :: 0 <= k < |found| ==> found[k] < |zones|
  {
    if zones == [] then []
    else
      var n := |zones| - 1;
      Matches(lower, zones[..n], name, active)
      + if zones[n].active == active && lower(zones[n].name) == lower(name) then [n] else []
  }

  predicate Matching(lower: string -> string, zones: seq<Zone>, name: string, active: bool, i: nat)
    requires i < |zones|
  {
    zones[i].active == active && lower(zones[i].name) == lower(name)
  }

  lemma {:induction false} MatchesAreMatching(lower: string -> string, zones: seq<Zone>, name: string, active: bool)
    ensures var found := Matches(lower, zones, name, active);
            && (forall i :: 0 <= i < |zones| ==> (i in found <==> Matching(lower, zones, name, active, i)))
            && (forall j, k :: 0 <= j < k < |found| ==> found[j] < found[k])
  {
    if zones != [] {
      var n := |zones| - 1;
      MatchesAreMatching(lower, zones[..n], name, active);
      var before := Matches(lower, zones[..n], name, active);
      var found := Matches(lower, zones, name, active);
      forall i | 0 <= i < |zones| ensures i in found <==> Matching(lower, zones, name, active, i) {
        if i < n {
          assert Matching(lower, zones[..n], name, active, i) <==> Matching(lower, zones, name, active, i);
          assert i in before <==> i in found;
        } else {
          assert n !in before;
        }
      }
    }
  }

  lemma NoMatch(lower: string -> string, zones: seq<Zone>, name: string, active: bool)
    requires Matches(lower, zones, name, active) == []
    ensures forall i :: 0 <= i < |zones| ==> !Matching(lower, zones, name, active, i)
  {
    hide Matches, Matching;
    MatchesAreMatching(lower, zones, name, active);
    forall i | 0 <= i < |zones| ensures !Matching(lower, zones, name, active, i) {
      assert i !in Matches(lower, zones, name, active);
    }
  }

  lemma OneMatch(lower: string -> string, zones: seq<Zone>, name: string, active: bool)
    requires |Matches(lower, zones, name, active)| == 1
    ensures var i := Matches(lower, zones, name, active)[0];
            && Matching(lower, zones, name, active, i)
            && forall j :: 0 <= j < |zones| && j != i ==> !Matching(lower, zones, name, active, j)
  {
    hide Matches, Matching;
    MatchesAreMatching(lower, zones, name, active);
    var found := Matches(lower, zones, name, active);
    assert found[0] in found;
    forall j | 0 <= j < |zones| && j != found[0] ensures !Matching(lower, zones, name, active, j) {
      assert j !in found;
    }
  }

  lemma OnlyMatch(lower: string -> string, zones: seq<Zone>, name: string, active: bool, i: nat)
    requires i < |zones| && Matching(lower, zones, name, active, i)
    ensures i in Matches(lower, zones, name, active)
    ensures |Matches(lower, zones, name, active)| == 1 <==>
            forall j :: 0 <= j < |zones| && j != i ==> !Matching(lower, zones, name, active, j)
  {
    hide Matches, Matching;
    MatchesAreMatching(lower, zones, name, active);
    var found := Matches(lower, zones, name, active);
    assert i in found;
    if |found| == 1 {
      OneMatch(lower, zones, name, active);
      assert found[0] == i;
    } else {
      var k := if found[0] == i then 1 else 0;
      assert found[0] < found[1] && found[k] in found;
      assert Matching(lower, zones, name, active, found[k]);
    }
  }

  /** Another active zone with this name. */
  predicate NameInUse(lower: string -> string, zones: seq<Zone>, name: string, self: nat) {
    exists i :: 0 <= i < |zones| && i != self && Matching(lower, zones, name, true, i)
  }

  // ----- the two phases --------------------------------------------------------------------------------------

  /** validate_apply_zone_command */
  predicate Validates(lower: string -> string, zones: seq<Zone>, raw: Raw) {
    match Shape(raw)
    case None => false
    case Some(Create(name, _, _)) => Matches(lower, zones, name, true) == []
    case Some(Update(target, _, _, _)) => |Matches(lower, zones, target, true)| == 1
    case Some(Deactivate(target)) => |Matches(lower, zones, target, true)| == 1
    case Some(Activate(target)) =>
      |Matches(lower, zones, target, false)| == 1 && Matches(lower, zones, target, true) == []
  }

  /** The numbers of the command fit the columns they are written to. */
  predicate Storable(c: Command) {
    match c
    case Create(_, minutes, fee) => FitsInteger(minutes) && (fee.Some? ==> FitsInteger(fee.value))
    case Update(_, _, minutes, fee) =>
      (minutes.Some? ==> FitsInteger(minutes.value)) && (fee.Some? ==> FitsInteger(fee.value))
    case _ => true
  }

  function Updated(z: Zone, rename: Option<string>, minutes: Option<int>, fee: Option<int>): Zone {
    Zone(match rename case Some(name) => name case None => z.name,
         match minutes case Some(m) => m case None => z.minutes, z.active,
         match fee case Some(f) => f case None => z.fee)
  }

  /** The table after an accepted command, None when it is refused. */
  function Applied(lower: string -> string, zones: seq<Zone>, raw: Raw): Option<seq<Zone>> {
    match Shape(raw)
    case None => None
    case Some(Create(name, minutes, fee)) =>
      if Matches(lower, zones, name, true) != [] || !Storable(Shape(raw).value) then None
      else Some(zones + [Zone(name, minutes, true, match fee case Some(f) => f case None => DELIVERY_FEE)])
    case Some(Update(target, rename, minutes, fee)) =>
      var found := Matches(lower, zones, target, true);
      if |found| != 1 || (rename.Some? && NameInUse(lower, zones, rename.value, found[0])) then None
      else if !Storable(Shape(raw).value) then None
      else Some(zones[found[0] := Updated(zones[found[0]], rename, minutes, fee)])
    case Some(Deactivate(target)) =>
      var found := Matches(lower, zones, target, true);
      if |found| != 1 then None else Some(zones[found[0] := zones[found[0]].(active := false)])
    case Some(Activate(target)) =>
      var found := Matches(lower, zones, target, false);
      if |found| != 1 || NameInUse(lower, zones, target, found[0]) then None
      else Some(zones[found[0] := zones[found[0]].(active := true)])
  }

  /** The id that an accepted command returns: the new row, or the zone that the command names. */
  predicate IsSubject(lower: string -> string, zones: seq<Zone>, command: Command, id: nat) {
    match command
    case Create(_, _, _) => id == |zones|
    case Update(target, _, _, _) => id < |zones| && Matching(lower, zones, target, true, id)
    case Deactivate(target) => id < |zones| && Matching(lower, zones, target, true, id)
    case Activate(target) => id < |zones| && Matching(lower, zones, target, false, id)
  }

  /** What an accepted command does, to the zone with this id and to no other. */
  predicate Did(lower: string -> string, before: seq<Zone>, after: seq<Zone>, command: Command, id: nat) {
    match command
    case Create(name, minutes, fee) =>
      id == |before| && after == before + [Zone(name, minutes, true, if fee.Some? then fee.value else 99)]
    case Update(target, rename, minutes, fee) =>
      && id < |before| == |after| && before[id].active && lower(before[id].name) == lower(target)
      && after[id].active
      && after[id].name == (if rename.Some? then rename.value else before[id].name)
      && after[id].minutes == (if minutes.Some? then minutes.value else before[id].minutes)
      && after[id].fee == (if fee.Some? then fee.value else before[id].fee)
      && forall j :: 0 <= j < |before| && j != id ==> after[j] == before[j]
    case Deactivate(target) =>
      && id < |before| && before[id].active && lower(before[id].name) == lower(target)
      && after == before[id := before[id].(active := false)]
    case Activate(target) =>
      && id < |before| && !before[id].active && lower(before[id].name) == lower(target)
      && after == before[id := before[id].(active := true)]
  }

  lemma AppliedDid(lower: string -> string, zones: seq<Zone>, raw: Raw)
    requires Applied(lower, zones, raw).Some?
    ensures forall id :: IsSubject(lower, zones, Shape(raw).value, id) ==>
              Did(lower, zones, Applied(lower, zones, raw).value, Shape(raw).value, id)
  {
    hide Shape, Matches, NameInUse, Storable;
    match Shape(raw).value
    case Create(_, _, _) =>
    case Update(target, _, _, _) => OneMatch(lower, zones, target, true);
    case Deactivate(target) => OneMatch(lower, zones, target, true);
    case Activate(target) => OneMatch(lower, zones, target, false);
  }

  class ZoneTable {
    var zones: seq<Zone>

    constructor (initial: seq<Zone>)
      ensures zones == initial
    {
      zones := initial;
    }

    /** The numeric sentinel of the validator. */
    method ValidateApplyZoneCommand(lower: string -> string, raw: Raw) returns (valid: int)
      ensures valid == if Validates(lower, zones, raw) then 1 else 0
    {
      var parsed := Shape(raw);
      if parsed.None? {
        return 0;
      }
      match parsed.value {
        case Create(name, _, _) =>
          if Matches(lower, zones, name, true) != [] {
            return 0;
          }
        case Update(target, _, _, _) =>
          if |Matches(lower, zones, target, true)| != 1 {
            return 0;
          }
        case Deactivate(target) =>
          if |Matches(lower, zones, target, true)| != 1 {
            return 0;
          }
        case Activate(target) =>
          if |Matches(lower, zones, target, false)| != 1 {
            return 0;
          }
          if Matches(lower, zones, target, true) != [] {
            return 0;
          }
      }
      return 1;
    }

    /** apply_zone_command: re-checks everything at write time and raises, changing nothing, when a check
        fails. */
    method ApplyZoneCommand(lower: string -> string, raw: Raw) returns (outcome: Outcome<nat>)
      modifies this
      ensures outcome.Ok? <==> Applied(lower, old(zones), raw).Some?
      ensures outcome.Raise? ==> zones == old(zones)
      ensures outcome.Ok? ==> zones == Applied(lower, old(zones), raw).value
      ensures outcome.Ok? ==> Did(lower, old(zones), zones, Shape(raw).value, outcome.result)
    {
      hide Shape, Matches, NameInUse, Matching, Storable, Did;
      if Applied(lower, zones, raw).Some? {
        AppliedDid(lower, zones, raw);
      }
      var parsed := Shape(raw);
      if parsed.None? {
        return Raise("malformed command");
      }
      match parsed.value
      case Create(name, minutes, fee) =>
        if Matches(lower, zones, name, true) != [] {
          return Raise("zone name already in use by an active zone");
        }
        if !Storable(parsed.value) {
          return Raise("integer out of range");
        }
        zones := zones + [Zone(name, minutes, true, if fee.Some? then fee.value else DELIVERY_FEE)];
        return Ok(|zones| - 1);
      case Activate(target) =>
        var matches := Matches(lower, zones, target, false);
        if |matches| != 1 {
          return Raise("retired zone not uniquely resolvable at write time");
        }
        OneMatch(lower, zones, target, false);
        var zoneId := matches[0];
        if NameInUse(lower, zones, target, zoneId) {
          return Raise("zone name already in use by an active zone");
        }
        zones := zones[zoneId := zones[zoneId].(active := true)];
        return Ok(zoneId);
      case Update(target, rename, minutes, fee) =>
        var matches := Matches(lower, zones, target, true);
        if |matches| != 1 {
          return Raise("target zone not uniquely resolvable at write time");
        }
        OneMatch(lower, zones, target, true);
        var zoneId := matches[0];
        if rename.Some? && NameInUse(lower, zones, rename.value, zoneId) {
          return Raise("zone name already in use by an active zone");
        }
        if !Storable(parsed.value) {
          return Raise("integer out of range");
        }
        var row := zones[zoneId];
        if rename.Some? {
          row := row.(name := rename.value);
        }
        if minutes.Some? {
          row := row.(minutes := minutes.value);
        }
        if fee.Some? {
          row := row.(fee := fee.value);
        }
        zones := zones[zoneId := row];
        return Ok(zoneId);
      case Deactivate(target) =>
        var matches := Matches(lower, zones, target, true);
        if |matches| != 1 {
          return Raise("target zone not uniquely resolvable at write time");
        }
        OneMatch(lower, zones, target, true);
        zones := zones[matches[0] := zones[matches[0]].(active := false)];
        return Ok(matches[0]);
    }
  }

  // ----- runs --------------------------------------------------------------------------------------------------

  /** A raising command is rolled back. */
  function Next(lower: string -> string, zones: seq<Zone>, raw: Raw): seq<Zone> {
    match Applied(lower, zones, raw) case Some(after) => after case None => zones
  }

  function Run(lower: string -> string, zones: seq<Zone>, commands: seq<Raw>): seq<Zone> {
    if commands == [] then zones
    else Next(lower, Run(lower, zones, commands[..|commands| - 1]), commands[|commands| - 1])
  }

  ghost predicate UniqueActive(lower: string -> string, zones: seq<Zone>) {
    forall i, j :: 0 <= i < j < |zones| && zones[i].active && zones[j].active ==> lower(zones[i].name) != lower(zones[j].name)
  }

  ghost predicate Sane(zones: seq<Zone>) {
    forall i :: 0 <= i < |zones| ==>
      0 < zones[i].minutes && 0 <= zones[i].fee && FitsInteger(zones[i].minutes) && FitsInteger(zones[i].fee)
  }

  lemma NextKeepsUnique(lower: string -> string, zones: seq<Zone>, raw: Raw)
    requires UniqueActive(lower, zones)
    ensures UniqueActive(lower, Next(lower, zones, raw))
  {
    hide Shape, Matches;
    match Shape(raw)
    case None =>
    case Some(Create(name, _, _)) =>
      if Matches(lower, zones, name, true) == [] {
        NoMatch(lower, zones, name, true);
        forall i | 0 <= i < |zones| && zones[i].active ensures lower(zones[i].name) != lower(name) {
          assert !Matching(lower, zones, name, true, i);
        }
      }
    case Some(Update(target, rename, _, _)) =>
      if |Matches(lower, zones, target, true)| == 1 {
        OneMatch(lower, zones, target, true);
        var self := Matches(lower, zones, target, true)[0];
        if rename.Some? && !NameInUse(lower, zones, rename.value, self) {
          forall i | 0 <= i < |zones| && zones[i].active && i != self ensures lower(zones[i].name) != lower(rename.value) {
            assert !Matching(lower, zones, rename.value, true, i);
          }
        }
      }
    case Some(Deactivate(target)) =>
    case Some(Activate(target)) =>
      if |Matches(lower, zones, target, false)| == 1 {
        OneMatch(lower, zones, target, false);
        var self := Matches(lower, zones, target, false)[0];
        if !NameInUse(lower, zones, target, self) {
          forall i | 0 <= i < |zones| && zones[i].active && i != self ensures lower(zones[i].name) != lower(target) {
            assert !Matching(lower, zones, target, true, i);
          }
        }
      }
  }

  lemma NextKeepsRows(lower: string -> string, zones: seq<Zone>, raw: Raw)
    ensures |zones| <= |Next(lower, zones, raw)| <= |zones| + 1
    ensures Sane(zones) ==> Sane(Next(lower, zones, raw))
  {
    ParsesBack(Activate(""), raw);
    hide Shape, Matches, NameInUse, Strip;
  }

  /** Over every run of commands the active names stay unique without regard to case, no zone id
      disappears, times stay positive, fees non-negative, and both within their columns. */
  lemma {:induction false} RunsKeepZones(lower: string -> string, zones: seq<Zone>, commands: seq<Raw>)
    requires UniqueActive(lower, zones) && Sane(zones)
    ensures UniqueActive(lower, Run(lower, zones, commands)) && Sane(Run(lower, zones, commands))
    ensures |zones| <= |Run(lower, zones, commands)|
  {
    hide Next, UniqueActive, Sane;
    if commands != [] {
      var n := |commands| - 1;
      RunsKeepZones(lower, zones, commands[..n]);
      NextKeepsUnique(lower, Run(lower, zones, commands[..n]), commands[n]);
      NextKeepsRows(lower, Run(lower, zones, commands[..n]), commands[n]);
    }
  }

  /** Zone i, and no other, has the name and this activity. */
  predicate IsOnly(lower: string -> string, zones: seq<Zone>, name: string, active: bool, i: nat) {
    && i < |zones| && zones[i].active == active && lower(zones[i].name) == lower(name)
    && forall j :: 0 <= j < |zones| && j != i && zones[j].active == active ==> lower(zones[j].name) != lower(name)
  }

  lemma UniqueIff(lower: string -> string, zones: seq<Zone>, name: string, active: bool)
    ensures |Matches(lower, zones, name, active)| == 1 <==> exists i :: IsOnly(lower, zones, name, active, i)
    ensures |Matches(lower, zones, name, active)| == 1 ==> IsOnly(lower, zones, name, active, Matches(lower, zones, name, active)[0])
  {
    hide Matches;
    if |Matches(lower, zones, name, active)| == 1 {
      OneMatch(lower, zones, name, active);
      var i := Matches(lower, zones, name, active)[0];
      forall j | 0 <= j < |zones| && j != i && zones[j].active == active ensures lower(zones[j].name) != lower(name) {
        assert !Matching(lower, zones, name, active, j);
      }
      assert IsOnly(lower, zones, name, active, i);
    }
    if i :| IsOnly(lower, zones, name, active, i) {
      OnlyMatch(lower, zones, name, active, i);
    }
  }

  lemma NoneIff(lower: string -> string, zones: seq<Zone>, name: string, active: bool)
    ensures Matches(lower, zones, name, active) == [] <==>
            forall z :: z in zones && z.active == active ==> lower(z.name) != lower(name)
  {
    hide Matches;
    MatchesAreMatching(lower, zones, name, active);
    var found := Matches(lower, zones, name, active);
    if found != [] {
      assert found[0] in found && zones[found[0]] in zones;
    } else {
      forall z | z in zones && z.active == active ensures lower(z.name) != lower(name) {
        var i :| 0 <= i < |zones| && zones[i] == z;
        assert i !in found;
        assert !Matching(lower, zones, name, active, i);
      }
    }
  }

  /** Exactly which commands are accepted: no new name may be that of another active zone, a target must be the only
      active (or, to activate, the only retired) zone of its name, and numbers must be 32-bit. */
  lemma AcceptedMeans(lower: string -> string, zones: seq<Zone>, raw: Raw)
    ensures Applied(lower, zones, raw).Some? <==>
            match Shape(raw)
            case None => false
            case Some(Create(name, minutes, fee)) =>
              && (forall z :: z in zones && z.active ==> lower(z.name) != lower(name))
              && minutes <= 2_147_483_647 && (fee.Some? ==> fee.value <= 2_147_483_647)
            case Some(Update(target, rename, minutes, fee)) =>
              && (minutes.Some? ==> minutes.value <= 2_147_483_647) && (fee.Some? ==> fee.value <= 2_147_483_647)
              && exists i :: IsOnly(lower, zones, target, true, i)
                             && (rename.Some? ==> forall j :: 0 <= j < |zones| && j != i && zones[j].active ==>
                                                    lower(zones[j].name) != lower(rename.value))
            case Some(Deactivate(target)) => exists i :: IsOnly(lower, zones, target, true, i)
            case Some(Activate(target)) =>
              && (exists i :: IsOnly(lower, zones, target, false, i))
              && forall z :: z in zones && z.active ==> lower(z.name) != lower(target)
  {
    ParsesBack(Activate(""), raw);
    AcceptedIffValid(lower, zones, raw);
    hide Shape, Matches, IsOnly, Applied, Strip;
    match Shape(raw)
    case None =>
    case Some(Create(name, _, _)) => NoneIff(lower, zones, name, true);
    case Some(Update(target, rename, minutes, fee)) =>
      UniqueIff(lower, zones, target, true);
      if |Matches(lower, zones, target, true)| == 1 {
        var i := Matches(lower, zones, target, true)[0];
        forall k | IsOnly(lower, zones, target, true, k) ensures k == i {
          SameOnly(lower, zones, target, true, i, k);
        }
        if rename.Some? {
          InUseIff(lower, zones, rename.value, i);
        }
      }
    case Some(Deactivate(target)) => UniqueIff(lower, zones, target, true);
    case Some(Activate(target)) =>
      UniqueIff(lower, zones, target, false);
      NoneIff(lower, zones, target, true);
  }

  lemma SameOnly(lower: string -> string, zones: seq<Zone>, name: string, active: bool, i: nat, k: nat)
    requires IsOnly(lower, zones, name, active, i) && IsOnly(lower, zones, name, active, k)
    ensures i == k
  {
  }

  lemma InUseIff(lower: string -> string, zones: seq<Zone>, name: string, self: nat)
    ensures NameInUse(lower, zones, name, self) <==>
            exists j :: 0 <= j < |zones| && j != self && zones[j].active && lower(zones[j].name) == lower(name)
  {
    if j :| 0 <= j < |zones| && j != self && zones[j].active && lower(zones[j].name) == lower(name) {
      assert Matching(lower, zones, name, true, j);
    }
  }

  // ----- the validator and the writer ----------------------------------------------------------------------------

  /** The rename of an update collides with another active zone. */
  predicate RenameCollides(lower: string -> string, zones: seq<Zone>, raw: Raw) {
    match Shape(raw)
    case Some(Update(target, Some(name), _, _)) =>
      var found := Matches(lower, zones, target, true);
      |found| == 1 && NameInUse(lower, zones, name, found[0])
    case _ => false
  }

  /** The writer accepts exactly what the validator accepts, except an update whose new name another active
      zone has, and a time or fee that its column does not hold: the validator looks at neither. */
  lemma AcceptedIffValid(lower: string -> string, zones: seq<Zone>, raw: Raw)
    ensures Applied(lower, zones, raw).Some? <==>
            Validates(lower, zones, raw) && !RenameCollides(lower, zones, raw) && Storable(Shape(raw).value)
  {
    hide Shape, Matches;
    match Shape(raw)
    case Some(Activate(target)) =>
      if |Matches(lower, zones, target, false)| == 1 {
        OneMatch(lower, zones, target, false);
        if Matches(lower, zones, target, true) == [] {
          NoMatch(lower, zones, target, true);
        } else {
          MatchesAreMatching(lower, zones, target, true);
          var i := Matches(lower, zones, target, true)[0];
          assert i in Matches(lower, zones, target, true);
          assert Matching(lower, zones, target, true, i);
        }
      }
    case _ =>
  }

  /** An input the validator accepts and the writer refuses. */
  lemma ValidatorMissesRename(lower: string -> string)
    requires lower("A") != lower("B")
    ensures var zones := [Zone("A", 30, true, 99), Zone("B", 30, true, 99)];
            var raw := Some(map["action" := Text("update"), "target_zone_name" := Text("A"), "name" := Text("B")]);
            Validates(lower, zones, raw) && Applied(lower, zones, raw) == None
  {
    var zones := [Zone("A", 30, true, 99), Zone("B", 30, true, 99)];
    var raw := Some(map["action" := Text("update"), "target_zone_name" := Text("A"), "name" := Text("B")]);
    assert Shape(raw) == Some(Update("A", Some("B"), None, None)) by {
      StripTrims("A");
      StripTrims("B");
    }
    hide Shape, Matches;
    OnlyMatch(lower, zones, "A", true, 0);
    assert Matching(lower, zones, "B", true, 1);
  }

  /** A number beyond the column: accepted by the validator, refused by the writer. */
  lemma ValidatorMissesRange(lower: string -> string)
    ensures var raw := ToRaw(Create("A", 3_000_000_000, None));
            Validates(lower, [], raw) && Applied(lower, [], raw) == None
  {
    StripTrims("A");
    ParsesBack(Create("A", 3_000_000_000, None), None);
    assert Matches(lower, [], "A", true) == [];
  }

  // ----- retiring and restoring ------------------------------------------------------------------------------------

  predicate RetiredNamesake(lower: string -> string, zones: seq<Zone>, name: string) {
    exists i :: 0 <= i < |zones| && Matching(lower, zones, name, false, i)
  }

  function Retired(zones: seq<Zone>, i: nat): seq<Zone>
    requires i < |zones|
  {
    zones[i := zones[i].(active := false)]
  }

  lemma RetiredMatches(lower: string -> string, zones: seq<Zone>, i: nat, name: string, j: nat)
    requires i < |zones| && j < |zones| && Matching(lower, zones, name, true, i)
    ensures j != i ==> (Matching(lower, Retired(zones, i), name, false, j) <==> Matching(lower, zones, name, false, j))
    ensures j != i ==> (Matching(lower, Retired(zones, i), name, true, j) <==> Matching(lower, zones, name, true, j))
    ensures Matching(lower, Retired(zones, i), name, false, i)
  {
  }

  /** Activating the zone that was just retired. */
  lemma Reactivated(lower: string -> string, zones: seq<Zone>, i: nat, name: string, raw: Raw)
    requires i < |zones| && Matching(lower, zones, name, true, i) && Shape(raw) == Some(Activate(name))
    requires forall j :: 0 <= j < |zones| && j != i ==> !Matching(lower, zones, name, true, j)
    ensures Applied(lower, Retired(zones, i), raw) == if RetiredNamesake(lower, zones, name) then None else Some(zones)
  {
    hide Shape, Matches, Matching;
    var retired := Retired(zones, i);
    forall j | 0 <= j < |zones| && j != i
      ensures Matching(lower, retired, name, false, j) <==> Matching(lower, zones, name, false, j)
      ensures !Matching(lower, retired, name, true, j)
    {
      RetiredMatches(lower, zones, i, name, j);
    }
    RetiredMatches(lower, zones, i, name, i);
    OnlyMatch(lower, retired, name, false, i);
    ActiveIsNotRetired(lower, zones, name, i);
    if RetiredNamesake(lower, zones, name) {
      var j :| 0 <= j < |zones| && Matching(lower, zones, name, false, j);
      assert j != i && Matching(lower, retired, name, false, j);
    } else {
      assert Matches(lower, retired, name, false) == [i];
      assert retired[i := retired[i].(active := true)] == zones by { WasActive(lower, zones, name, i); }
    }
  }

  lemma ActiveIsNotRetired(lower: string -> string, zones: seq<Zone>, name: string, i: nat)
    requires i < |zones| && Matching(lower, zones, name, true, i)
    ensures !Matching(lower, zones, name, false, i)
  {
  }

  lemma WasActive(lower: string -> string, zones: seq<Zone>, name: string, i: nat)
    requires i < |zones| && Matching(lower, zones, name, true, i)
    ensures zones[i].active
  {
  }

  /** If retiring a zone is accepted, activating it again restores the table exactly when no other retired
      zone has its name; otherwise activating is refused. */
  lemma ActivateUndoesDeactivate(lower: string -> string, zones: seq<Zone>, name: string)
    requires Strip(name) != "" && Applied(lower, zones, ToRaw(Deactivate(name))).Some?
    ensures var retired := Applied(lower, zones, ToRaw(Deactivate(name))).value;
            Applied(lower, retired, ToRaw(Activate(name))) == if RetiredNamesake(lower, zones, name) then None else Some(zones)
  {
    ParsesBack(Deactivate(name), None);
    ParsesBack(Activate(name), None);
    hide Shape, Matches, Matching, ToRaw, RetiredNamesake;
    OneMatch(lower, zones, name, true);
    Reactivated(lower, zones, Matches(lower, zones, name, true)[0], name, ToRaw(Activate(name)));
  }
}
