/** Promotions: the agent's commands, the resolution of a promo code at checkout, and the money. */
module Promotions {
  import opened Commands
  import opened Money
  import opened OrderModel
  import opened Strings
  import opened Wrappers

  datatype State = Created | Active | Expired | Archived

  datatype Event = Activate | Expire | Archive

  datatype Effect = PercentDiscount | FixedAmount | FreeDelivery

  /** A row of promotions; the discount column is NUMERIC(10, 2), kept here in hundredths, None for the
      not-a-number that the type also holds. */
  datatype Promotion = Promotion(name: string, cents: Option<int>, state: State, effect: Effect, code: Option<string>)

  /** PROMOTION_TRANSITIONS */
  function Transition(s: State, e: Event): Option<State> {
    match (s, e)
    case (Created, Activate) => Some(Active)
    case (Active, Expire) => Some(Expired)
    case (Expired, Archive) => Some(Archived)
    case _ => None
  }

  datatype Command =
    | Create(name: string, discount: Option<Amount>, effect: Effect, code: Option<string>)
    | Fire(event: Event, target: string)

  /** A field that must be null or a string with something in it; Raise for anything else. */
  function OptionalText(value: Json): Outcome<Option<string>> {
    if value == Null then Ok(None)
    else match NonBlank(value)
      case Some(text) => Ok(Some(Strip(text)))
      case None => Raise("not a non-empty string")
  }

  /** The effect named by a command; a missing one means percent on create. */
  function EffectOf(value: Json, creating: bool): Outcome<Option<Effect>> {
    if value == Null then Ok(if creating then Some(PercentDiscount) else None)
    else if value == Text("PERCENT_DISCOUNT") then Ok(Some(PercentDiscount))
    else if value == Text("FIXED_AMOUNT") then Ok(Some(FixedAmount))
    else if value == Text("FREE_DELIVERY") then Ok(Some(FreeDelivery))
    else Raise("unknown effect")
  }

  function EventOf(action: Json): Option<Event> {
    if action == Text("activate") then Some(Activate)
    else if action == Text("expire") then Some(Expire)
    else if action == Text("archive") then Some(Archive)
    else None
  }

  /** _required_apply_fields */
  function ApplyFields(raw: Raw): Option<Command> {
    if raw.None? then None
    else
      var fields := raw.value;
      var action := Get(fields, "action");
      var creating := action == Text("create");
      var name := OptionalText(Get(fields, "name"));
      var discount := Get(fields, "discount");
      var target := OptionalText(Get(fields, "target_promotion_name"));
      var effect := EffectOf(Get(fields, "effect_type"), creating);
      var code := OptionalText(Get(fields, "trigger_code"));
      if !creating && EventOf(action).None? then None
      else if name.Raise? || (discount != Null && Number(discount).None?) || target.Raise? || effect.Raise? || code.Raise? then None
      else if creating then
        if name.result.None? then None
        else if effect.result.value != FreeDelivery && discount == Null then None
        else Some(Create(name.result.value, if effect.result.value == FreeDelivery then None else Number(discount),
                         effect.result.value, code.result))
      else if target.result.None? then None
      else Some(Fire(EventOf(action).value, target.result.value))
  }

  /** The command a caller writes. */
  function ToRaw(c: Command): Raw {
    match c
    case Create(name, discount, effect, code) =>
      Some(map["action" := Text("create"), "name" := Text(name), "trigger_code" := (match code case Some(t) => Text(t) case None => Null),
               "discount" := (match discount case Some(d) => Float(d) case None => Null),
               "effect_type" := Text(match effect
                                     case PercentDiscount => "PERCENT_DISCOUNT"
                                     case FixedAmount => "FIXED_AMOUNT"
                                     case FreeDelivery => "FREE_DELIVERY")])
    case Fire(event, target) =>
      Some(map["action" := Text(match event case Activate => "activate" case Expire => "expire" case Archive => "archive"),
               "target_promotion_name" := Text(target)])
  }

  /** Trimmed texts, and a discount exactly when the effect has an amount. */
  predicate WellFormed(c: Command) {
    match c
    case Create(name, discount, effect, code) =>
      Trimmed(name) && (code.Some? ==> Trimmed(code.value)) && (discount.Some? <==> effect != FreeDelivery)
    case Fire(event, target) => Trimmed(target)
  }

  lemma TrimmedText(value: Json)
    ensures match OptionalText(value)
            case Ok(Some(text)) => Trimmed(text) && value.Text? && text == Strip(value.text)
            case Ok(None) => value == Null
            case Raise(_) => true
    ensures value.Text? && Trimmed(value.text) ==> OptionalText(value) == Ok(Some(value.text))
    ensures value == Null ==> OptionalText(value) == Ok(None)
  {
    if value.Text? {
      StripTrims(value.text);
      StripTrims(Strip(value.text));
    }
  }

  /** What comes out of parsing is well formed. */
  lemma ParsedIsWellFormed(raw: Raw)
    ensures ApplyFields(raw).Some? ==> WellFormed(ApplyFields(raw).value)
  {
    hide OptionalText, Trimmed, Strip;
    if raw.Some? {
      TrimmedText(Get(raw.value, "name"));
      TrimmedText(Get(raw.value, "target_promotion_name"));
      TrimmedText(Get(raw.value, "trigger_code"));
    }
  }

  lemma EffectReadBack(effect: Effect)
    ensures EffectOf(Text(match effect
                          case PercentDiscount => "PERCENT_DISCOUNT"
                          case FixedAmount => "FIXED_AMOUNT"
                          case FreeDelivery => "FREE_DELIVERY"), true) == Ok(Some(effect))
  {
  }

  lemma CreateParsesBack(c: Command)
    requires WellFormed(c) && c.Create?
    ensures ApplyFields(ToRaw(c)) == Some(c)
  {
    hide OptionalText, Trimmed, Strip, EffectOf;
    var fields := ToRaw(c).value;
    TrimmedText(Get(fields, "name"));
    TrimmedText(Null);
    TrimmedText(Get(fields, "trigger_code"));
    EffectReadBack(c.effect);
  }

  lemma FireParsesBack(c: Command)
    requires WellFormed(c) && c.Fire?
    ensures ApplyFields(ToRaw(c)) == Some(c)
  {
    hide OptionalText, Trimmed, Strip, EffectOf;
    TrimmedText(Null);
    TrimmedText(Text(c.target));
    NoEffect();
  }

  /** Every well-formed command is read back as it was written. */
  lemma ParsesBack(c: Command)
    requires WellFormed(c)
    ensures ApplyFields(ToRaw(c)) == Some(c)
  {
    hide ApplyFields, ToRaw, WellFormed;
    if c.Create? {
      CreateParsesBack(c);
    } else {
      FireParsesBack(c);
    }
  }

  lemma NoEffect()
    ensures EffectOf(Null, false) == Ok(None)
  {
  }

  function Named(lower: string -> string, table: seq<Promotion>, name: string): (found: seq<nat>)
    ensures forall k :: 0 <= k < |found| ==> found[k] < |table|
  {
    if table == [] then []
    else
      var n := |table| - 1;
      Named(lower, table[..n], name) + if lower(table[n].name) == lower(name) then [n] else []
  }

  lemma {:induction false} NamedMeans(lower: string -> string, table: seq<Promotion>, name: string, k: nat)
    requires k < |Named(lower, table, name)|
    ensures lower(table[Named(lower, table, name)[k]].name) == lower(name)
  {
    if k < |Named(lower, table[..|table| - 1], name)| {
      NamedMeans(lower, table[..|table| - 1], name, k);
    }
  }

  predicate CodeInUse(lower: string -> string, table: seq<Promotion>, code: string) {
    exists k :: 0 <= k < |table| && table[k].code.Some? && lower(table[k].code.value) == lower(code)
  }

  /** The range checks of create: neither below nor above, which not-a-number passes. */
  predicate DiscountOk(effect: Effect, discount: Option<Amount>) {
    match effect
    case PercentDiscount => discount.Some? && !Below(discount.value, 0.0) && !Above(discount.value, 100.0)
    case FixedAmount => discount.Some? && !AtMost(discount.value, 0.0)
    case FreeDelivery => true
  }

  /** Rounding to hundredths. */
  function Hundredths(x: real): int {
    (x * 100.0 + 0.5).Floor
  }

  /** NUMERIC(10, 2) holds eight digits before the point, and no infinity. */
  predicate FitsColumn(discount: Option<Amount>) {
    match discount
    case Some(Finite(x)) => Hundredths(x) < 10_000_000_000
    case Some(Infinite(_)) => false
    case _ => true
  }

  /** What the column stores; a discount without an amount is stored as zero. */
  function Cents(discount: Option<Amount>): Option<int>
    requires FitsColumn(discount)
  {
    match discount
    case Some(Finite(x)) => Some(Hundredths(x))
    case Some(NotANumber) => None
    case None => Some(0)
  }

  /** validate_apply_promotion_command */
  predicate Validates(lower: string -> string, table: seq<Promotion>, raw: Raw) {
    match ApplyFields(raw)
    case None => false
    case Some(Create(name, discount, effect, code)) =>
      && DiscountOk(effect, discount)
      && Named(lower, table, name) == []
      && (code.Some? ==> !CodeInUse(lower, table, code.value))
    case Some(Fire(event, target)) =>
      var found := Named(lower, table, target);
      |found| == 1 && Transition(table[found[0]].state, event).Some?
  }

  /** The table after an accepted command, None when it raises. */
  function Applied(lower: string -> string, table: seq<Promotion>, raw: Raw): Option<seq<Promotion>> {
    match ApplyFields(raw)
    case None => None
    case Some(Create(name, discount, effect, code)) =>
      if !DiscountOk(effect, discount) || Named(lower, table, name) != [] then None
      else if code.Some? && CodeInUse(lower, table, code.value) then None
      else if !FitsColumn(discount) then None
      else Some(table + [Promotion(name, Cents(discount), Created, effect, code)])
    case Some(Fire(event, target)) =>
      var found := Named(lower, table, target);
      if |found| != 1 then None
      else match Transition(table[found[0]].state, event)
        case None => None
        case Some(to) => Some(table[found[0] := table[found[0]].(state := to)])
  }

  class PromotionTable {
    var table: seq<Promotion>

    constructor ()
      ensures table == []
    {
      table := [];
    }

    /** apply_promotion_command */
    method ApplyPromotionCommand(lower: string -> string, raw: Raw) returns (outcome: Outcome<nat>)
      modifies this
      ensures outcome.Ok? <==> Applied(lower, old(table), raw).Some?
      ensures outcome.Raise? ==> table == old(table)
      ensures outcome.Ok? ==> table == Applied(lower, old(table), raw).value
      ensures outcome.Ok? ==>
                match ApplyFields(raw).value
                case Create(_, _, _, _) => outcome.result == |old(table)|
                case Fire(_, target) => outcome.result < |table| && lower(table[outcome.result].name) == lower(target)
    {
      hide ApplyFields, Named, CodeInUse, Cents;
      var parsed := ApplyFields(raw);
      if parsed.None? {
        return Raise("malformed command");
      }
      match parsed.value
      case Create(name, discount, effect, code) =>
        if effect == PercentDiscount {
          if discount.None? || Below(discount.value, 0.0) || Above(discount.value, 100.0) {
            return Raise("discount out of range at write time");
          }
        } else if effect == FixedAmount {
          if discount.None? || AtMost(discount.value, 0.0) {
            return Raise("fixed-amount discount invalid at write time");
          }
        }
        if Named(lower, table, name) != [] {
          return Raise("promotion name already in use at write time");
        }
        if code.Some? && CodeInUse(lower, table, code.value) {
          return Raise("trigger_code already in use at write time");
        }
        if !FitsColumn(discount) {
          return Raise("numeric field overflow");
        }
        table := table + [Promotion(name, Cents(discount), Created, effect, code)];
        return Ok(|table| - 1);
      case Fire(event, target) =>
        var matches := Named(lower, table, target);
        if |matches| != 1 {
          return Raise("promotion not uniquely resolvable at write time");
        }
        NamedMeans(lower, table, target, 0);
        var p := matches[0];
        var newState := Transition(table[p].state, event);
        if newState.None? {
          return Raise("invalid transition at write time");
        }
        table := table[p := table[p].(state := newState.value)];
        return Ok(p);
    }
  }

  /** The writer accepts exactly what the validator accepts, except an amount too large for the column. */
  lemma AcceptedIffValid(lower: string -> string, table: seq<Promotion>, raw: Raw)
    ensures Applied(lower, table, raw).Some? <==>
            Validates(lower, table, raw)
            && (ApplyFields(raw).value.Create? ==> FitsColumn(ApplyFields(raw).value.discount))
  {
    hide ApplyFields, Named, CodeInUse, FitsColumn;
  }

  /** An amount that the validator accepts and the column does not hold. */
  lemma ValidatorMissesOverflow(lower: string -> string)
    ensures var raw := ToRaw(Create("A", Some(Finite(100_000_000.0)), FixedAmount, None));
            Validates(lower, [], raw) && Applied(lower, [], raw) == None
  {
    var c := Create("A", Some(Finite(100_000_000.0)), FixedAmount, None);
    ParsesBack(c);
    hide ApplyFields, ToRaw;
    assert Named(lower, [], "A") == [];
    assert Hundredths(100_000_000.0) == 10_000_000_000;
  }

  // ----- resolving a code ------------------------------------------------------------------------------------

  function ActiveWith(lower: string -> string, table: seq<Promotion>, code: string): (found: seq<nat>)
    ensures forall k :: 0 <= k < |found| ==> found[k] < |table|
  {
    if table == [] then []
    else
      var n := |table| - 1;
      ActiveWith(lower, table[..n], code) + if Carries(lower, table[n], code) then [n] else []
  }

  predicate Carries(lower: string -> string, p: Promotion, code: string) {
    p.state == Active && p.code.Some? && lower(p.code.value) == lower(code)
  }

  /** Float arithmetic: the exact result, rounded. */
  type Rounding = real -> real

  /** What is used of rounding: it is monotone, whole numbers up to 2^53 are floats, and below such a number
      the error is at most its 2^53rd part. */
  ghost predicate Rounds(round: Rounding) {
    && (forall x, y :: x <= y ==> round(x) <= round(y))
    && (forall n: nat :: n <= 0x20_0000_0000_0000 ==> IsFloat(round, n))
    && (forall x: real, n: nat :: 0.0 <= x <= n as real && n <= 0x20_0000_0000_0000 ==> IsNear(round, x, n))
  }

  predicate IsNear(round: Rounding, x: real, n: nat) {
    x - n as real / 9007199254740992.0 <= round(x) <= x + n as real / 9007199254740992.0
  }

  predicate IsFloat(round: Rounding, n: nat) {
    round(n as real) == n as real
  }

  /** resolve_promo_effect: nothing unless exactly one active promotion has the code. Goods are whole roubles,
      int() of a non-negative amount drops its fraction and raises on not-a-number. */
  function ResolvePromoEffect(round: Rounding, lower: string -> string, table: seq<Promotion>, code: Option<string>, goods: nat):
    Outcome<Option<PromoEffect>>
  {
    if code.None? || Strip(code.value) == "" then Ok(None)
    else
      var found := ActiveWith(lower, table, Strip(code.value));
      if |found| != 1 then Ok(None)
      else match EffectOn(round, table[found[0]], goods)
        case Some(effect) => Ok(Some(effect))
        case None => Raise("cannot convert NaN to integer")
  }

  function Product(a: real, b: real): real {
    a * b
  }

  function Times(round: Rounding, a: real, b: real): real {
    round(Product(a, b))
  }

  function Over100(round: Rounding, a: real): real {
    round(a / 100.0)
  }

  /** int(goods * percent / 100), in floats. */
  function PercentOf(round: Rounding, goods: nat, cents: int): int {
    Over100(round, Times(round, round(goods as real), Over100(round, cents as real))).Floor
  }

  function EffectOn(round: Rounding, p: Promotion, goods: nat): Option<PromoEffect> {
    if p.effect == FreeDelivery then Some(PromoEffect(0, true))
    else if p.cents.None? then None
    else if p.effect == PercentDiscount then Some(PromoEffect(PercentOf(round, goods, p.cents.value), false))
    else Some(PromoEffect(if p.cents.value / 100 < goods then p.cents.value / 100 else goods, false))
  }

  // ----- reachable tables --------------------------------------------------------------------------------------

  predicate WithinBounds(p: Promotion) {
    p.cents.Some? ==>
      match p.effect
      case PercentDiscount => 0 <= p.cents.value <= 10_000
      case FixedAmount => 0 <= p.cents.value
      case FreeDelivery => true
  }

  /** Names and codes are unique without regard to case, codes are trimmed, and discounts that are numbers are in range. */
  ghost predicate Consistent(lower: string -> string, table: seq<Promotion>) {
    && (forall k :: 0 <= k < |table| && table[k].code.Some? ==> Trimmed(table[k].code.value))
    && (forall j, k :: 0 <= j < k < |table| ==> lower(table[j].name) != lower(table[k].name))
    && (forall j, k :: 0 <= j < k < |table| && table[j].code.Some? && table[k].code.Some? ==>
         lower(table[j].code.value) != lower(table[k].code.value))
    && (forall k :: 0 <= k < |table| ==> WithinBounds(table[k]))
  }

  lemma CentsInRange(p: Promotion, discount: Option<Amount>)
    requires DiscountOk(p.effect, discount) && FitsColumn(discount) && p.cents == Cents(discount)
    ensures WithinBounds(p)
  {
    if discount.Some? && discount.value.Finite? {
      var x := discount.value.value * 100.0 + 0.5;
      assert x.Floor as real <= x < x.Floor as real + 1.0;
    }
  }

  lemma {:induction false} NotNamed(lower: string -> string, table: seq<Promotion>, name: string)
    requires Named(lower, table, name) == []
    ensures forall k :: 0 <= k < |table| ==> lower(table[k].name) != lower(name)
  {
    if table != [] {
      NotNamed(lower, table[..|table| - 1], name);
    }
  }

  function Next(lower: string -> string, table: seq<Promotion>, raw: Raw): seq<Promotion> {
    match Applied(lower, table, raw) case Some(after) => after case None => table
  }

  function Run(lower: string -> string, table: seq<Promotion>, commands: seq<Raw>): seq<Promotion>
    decreases |commands|
  {
    if commands == [] then table else Run(lower, Next(lower, table, commands[0]), commands[1..])
  }

  lemma CreateConsistent(lower: string -> string, table: seq<Promotion>, p: Promotion)
    requires Consistent(lower, table) && WithinBounds(p) && (p.code.Some? ==> Trimmed(p.code.value))
    requires forall k :: 0 <= k < |table| ==> lower(table[k].name) != lower(p.name)
    requires p.code.Some? ==> !CodeInUse(lower, table, p.code.value)
    ensures Consistent(lower, table + [p])
  {
    hide WithinBounds, Trimmed;
    var all := table + [p];
    forall j, k | 0 <= j < k < |all| && all[j].code.Some? && all[k].code.Some?
      ensures lower(all[j].code.value) != lower(all[k].code.value)
    {
      assert all[j] == table[j];
    }
  }

  lemma FireConsistent(lower: string -> string, table: seq<Promotion>, i: nat, to: State)
    requires Consistent(lower, table) && i < |table|
    ensures Consistent(lower, table[i := table[i].(state := to)])
  {
    var after := table[i := table[i].(state := to)];
    forall k | 0 <= k < |after| ensures WithinBounds(after[k]) {
      assert WithinBounds(table[k]);
    }
  }

  lemma NextConsistent(lower: string -> string, table: seq<Promotion>, raw: Raw)
    requires Consistent(lower, table)
    ensures Consistent(lower, Next(lower, table, raw))
  {
    hide ApplyFields, Named, Cents, Consistent, DiscountOk, FitsColumn, CodeInUse, Trimmed, WithinBounds;
    match ApplyFields(raw)
    case None =>
    case Some(Create(name, discount, effect, code)) =>
      if Applied(lower, table, raw).Some? {
        NotNamed(lower, table, name);
        var p := Promotion(name, Cents(discount), Created, effect, code);
        CentsInRange(p, discount);
        ParsedIsWellFormed(raw);
        CreateConsistent(lower, table, p);
      }
    case Some(Fire(event, target)) =>
      if Applied(lower, table, raw).Some? {
        var i := Named(lower, table, target)[0];
        FireConsistent(lower, table, i, Transition(table[i].state, event).value);
      }
  }

  lemma EmptyConsistent(lower: string -> string)
    ensures Consistent(lower, [])
  {
  }

  lemma {:induction false} RunConsistent(lower: string -> string, table: seq<Promotion>, commands: seq<Raw>)
    requires Consistent(lower, table)
    ensures Consistent(lower, Run(lower, table, commands))
    decreases |commands|
  {
    hide Consistent, Next;
    if commands != [] {
      NextConsistent(lower, table, commands[0]);
      RunConsistent(lower, Next(lower, table, commands[0]), commands[1..]);
    }
  }

  /** The promotions any run of commands can lead to, starting from none. */
  function Reachable(lower: string -> string, commands: seq<Raw>): seq<Promotion> {
    Run(lower, [], commands)
  }

  lemma HasMember(s: seq<nat>)
    requires s != []
    ensures exists k :: k in s
  {
    assert s[0] in s;
  }

  lemma {:induction false} ActiveWithMeans(lower: string -> string, table: seq<Promotion>, code: string)
    requires Consistent(lower, table)
    ensures |ActiveWith(lower, table, code)| <= 1
    ensures forall k :: k in ActiveWith(lower, table, code) <==> 0 <= k < |table| && Carries(lower, table[k], code)
  {
    if table != [] {
      var n := |table| - 1;
      assert Consistent(lower, table[..n]);
      ActiveWithMeans(lower, table[..n], code);
      var before := ActiveWith(lower, table[..n], code);
      if Carries(lower, table[n], code) {
        forall k | 0 <= k < n ensures !Carries(lower, table[..n][k], code) {
        }
        if before != [] {
          HasMember(before);
        }
      }
    }
  }

  lemma {:induction false} ActiveCode(lower: string -> string, commands: seq<Raw>, code: string, k: nat)
    requires var table := Reachable(lower, commands);
             k < |table| && Carries(lower, table[k], code)
    ensures ActiveWith(lower, Reachable(lower, commands), code) == [k]
  {
    hide Carries, Run, Consistent, ActiveWith;
    EmptyConsistent(lower);
    RunConsistent(lower, [], commands);
    ActiveWithMeans(lower, Reachable(lower, commands), code);
    assert k in ActiveWith(lower, Reachable(lower, commands), code);
  }

  /** An active code resolves to at most one promotion in every reachable table, so the "more than one row"
      refusal never happens: a code resolves exactly when some active promotion carries it. */
  lemma CodesResolveUniquely(round: Rounding, lower: string -> string, commands: seq<Raw>, code: string, goods: nat)
    requires Strip(code) != ""
    ensures var table := Reachable(lower, commands);
            && |ActiveWith(lower, table, Strip(code))| <= 1
            && (ResolvePromoEffect(round, lower, table, Some(code), goods) != Ok(None) <==>
                 exists k :: 0 <= k < |table| && Carries(lower, table[k], Strip(code)))
  {
    hide Carries, Run, Consistent, ActiveWith, EffectOn, Strip;
    EmptyConsistent(lower);
    RunConsistent(lower, [], commands);
    var table := Reachable(lower, commands);
    ActiveWithMeans(lower, table, Strip(code));
    var found := ActiveWith(lower, table, Strip(code));
    if found != [] {
      assert found[0] in found;
    } else {
      forall k | 0 <= k < |table| ensures !Carries(lower, table[k], Strip(code)) {
        assert k !in found;
      }
    }
  }

  /** A checkout fails over its promo code exactly when the active promotion with the code has an amount that
      is not a number. */
  lemma ResolutionRaisesIff(round: Rounding, lower: string -> string, commands: seq<Raw>, code: string, goods: nat)
    requires Strip(code) != ""
    ensures var table := Reachable(lower, commands);
            ResolvePromoEffect(round, lower, table, Some(code), goods).Raise? <==>
            exists k :: 0 <= k < |table| && Carries(lower, table[k], Strip(code))
                        && table[k].effect != FreeDelivery && table[k].cents.None?
  {
    hide Carries, Run, ActiveWith, PercentOf, Strip;
    CodesResolveUniquely(round, lower, commands, code, goods);
    var table := Reachable(lower, commands);
    forall k | 0 <= k < |table| && Carries(lower, table[k], Strip(code))
      ensures ActiveWith(lower, table, Strip(code)) == [k]
    {
      ActiveCode(lower, commands, Strip(code), k);
    }
  }

  lemma CreateAlone(lower: string -> string, c: Command)
    requires WellFormed(c) && c.Create? && DiscountOk(c.effect, c.discount) && FitsColumn(c.discount)
    ensures Validates(lower, [], ToRaw(c))
    ensures Applied(lower, [], ToRaw(c)) == Some([Promotion(c.name, Cents(c.discount), Created, c.effect, c.code)])
  {
    ParsesBack(c);
    hide ApplyFields, ToRaw, DiscountOk, FitsColumn, Cents, WellFormed;
    assert Named(lower, [], c.name) == [];
    assert [] + [Promotion(c.name, Cents(c.discount), Created, c.effect, c.code)] == [Promotion(c.name, Cents(c.discount), Created, c.effect, c.code)];
  }

  lemma ActivateAlone(lower: string -> string, p: Promotion)
    requires p.state == Created && Trimmed(p.name)
    ensures Validates(lower, [p], ToRaw(Fire(Activate, p.name)))
    ensures Applied(lower, [p], ToRaw(Fire(Activate, p.name))) == Some([p.(state := Active)])
  {
    ParsesBack(Fire(Activate, p.name));
    hide ApplyFields, ToRaw;
    assert [p][..0] == [];
    assert Named(lower, [p], p.name) == [0];
    assert [p][0 := p.(state := Active)] == [p.(state := Active)];
  }

  /** Two accepted commands after which every checkout with the code fails. */
  lemma NotANumberBreaksCode(round: Rounding, lower: string -> string, goods: nat)
    ensures var create := ToRaw(Create("A", Some(NotANumber), PercentDiscount, Some("A")));
            var activate := ToRaw(Fire(Activate, "A"));
            && Validates(lower, [], create)
            && Validates(lower, Reachable(lower, [create]), activate)
            && ResolvePromoEffect(round, lower, Reachable(lower, [create, activate]), Some("A"), goods).Raise?
  {
    hide Applied, Validates, ToRaw, Strip;
    var create, activate := ToRaw(Create("A", Some(NotANumber), PercentDiscount, Some("A"))), ToRaw(Fire(Activate, "A"));
    var row := Promotion("A", None, Created, PercentDiscount, Some("A"));
    var live := row.(state := Active);
    CreateAlone(lower, Create("A", Some(NotANumber), PercentDiscount, Some("A")));
    ActivateAlone(lower, row);
    assert [create][1..] == [];
    assert [create, activate][1..] == [activate] && [activate][1..] == [];
    assert Next(lower, [], create) == [row] && Next(lower, [row], activate) == [live];
    assert Run(lower, [live], []) == [live];
    assert Run(lower, [row], [activate]) == [live];
    assert [live][..0] == [];
    assert ActiveWith(lower, [live], "A") == [0];
    StripTrims("A");
  }

  lemma RoundedBelow(round: Rounding, x: real, n: nat)
    requires Rounds(round) && 0.0 <= x <= n as real && n <= 0x20_0000_0000_0000
    ensures 0.0 <= round(x) <= n as real
  {
    assert IsFloat(round, 0) && IsFloat(round, n);
    assert round(0 as real) <= round(x) <= round(n as real);
  }

  lemma Scaled(a: real, b: real, goods: nat)
    requires 0.0 <= a <= goods as real && 0.0 <= b <= 100.0
    ensures 0.0 <= Product(a, b) <= (100 * goods) as real
  {
    assert a * b <= a * 100.0;
  }

  lemma TimesInRange(round: Rounding, a: real, b: real, goods: nat)
    requires Rounds(round) && 0.0 <= a <= goods as real && 0.0 <= b <= 100.0 && 100 * goods <= 0x20_0000_0000_0000
    ensures 0.0 <= Times(round, a, b) <= (100 * goods) as real
  {
    hide Rounds, Product;
    Scaled(a, b, goods);
    RoundedBelow(round, Product(a, b), 100 * goods);
  }

  lemma PercentInRange(round: Rounding, goods: nat, cents: nat)
    requires Rounds(round) && cents <= 10_000 && 100 * goods <= 0x20_0000_0000_0000
    ensures 0 <= PercentOf(round, goods, cents) <= goods
  {
    hide Rounds, Times;
    var g, d := round(goods as real), Over100(round, cents as real);
    RoundedBelow(round, goods as real, goods);
    RoundedBelow(round, cents as real / 100.0, 100);
    TimesInRange(round, g, d, goods);
    RoundedBelow(round, Times(round, g, d) / 100.0, goods);
  }

  // ----- how much a code takes off ---------------------------------------------------------------------------------

  /** The float computation meets only numbers that are floats. */
  predicate IsExact(round: Rounding, goods: nat, cents: int) {
    && round(goods as real) == goods as real
    && round(cents as real / 100.0) == cents as real / 100.0
    && round((goods * cents) as real / 100.0) == (goods * cents) as real / 100.0
    && round((goods * cents) as real / 10000.0) == (goods * cents) as real / 10000.0
  }

  lemma FloorOfQuotient(a: int, b: int)
    requires 0 < b
    ensures (a as real / b as real).Floor == a / b
  {
    var q, r := a / b, a % b;
    assert a == q * b + r;
    assert a as real / b as real == q as real + r as real / b as real;
    assert 0.0 <= r as real / b as real < 1.0;
  }

  lemma ProductOf(goods: nat, cents: int)
    ensures Product(goods as real, cents as real / 100.0) == (goods * cents) as real / 100.0
  {
    assert goods as real * cents as real == (goods * cents) as real;
  }

  lemma PercentExact(round: Rounding, goods: nat, cents: int)
    requires IsExact(round, goods, cents)
    ensures PercentOf(round, goods, cents) == goods * cents / 10_000
  {
    hide Product;
    ProductOf(goods, cents);
    var product := (goods * cents) as real / 100.0;
    assert Times(round, round(goods as real), Over100(round, cents as real)) == product;
    assert product / 100.0 == (goods * cents) as real / 10000.0;
    FloorOfQuotient(goods * cents, 10_000);
  }

  lemma NearBy(round: Rounding, x: real, n: nat)
    requires Rounds(round) && 0.0 <= x <= n as real && n <= 0x20_0000_0000_0000
    ensures x - n as real / 9007199254740992.0 <= round(x) <= x + n as real / 9007199254740992.0
  {
    assert IsNear(round, x, n);
  }

  lemma ErrorsAdd(exact: real, scaled: real, product: real, quotient: real, e: real)
    requires 3.0 * e <= 0.5
    requires exact - 100.0 * e <= scaled <= exact + 100.0 * e
    requires scaled - 100.0 * e <= product <= scaled + 100.0 * e
    requires product / 100.0 - e <= quotient <= product / 100.0 + e
    ensures exact / 100.0 - 0.5 <= quotient <= exact / 100.0 + 0.5
  {
  }

  lemma PercentRounded(round: Rounding, goods: nat, cents: nat)
    requires Rounds(round) && cents <= 10_000 && 100 * goods <= 0x20_0000_0000_0000
    ensures var g, e, percent := goods as real, goods as real / 9007199254740992.0, cents as real / 100.0;
            var d := Over100(round, cents as real);
            Product(g, percent) - 100.0 * e <= Product(g, d) <= Product(g, percent) + 100.0 * e
    ensures 0.0 <= Over100(round, cents as real) <= 100.0
  {
    hide Rounds, Product;
    var percent := cents as real / 100.0;
    RoundedBelow(round, percent, 100);
    NearBy(round, percent, 100);
    ScaledError(goods as real, Over100(round, cents as real), percent);
  }

  lemma ProductRounded(round: Rounding, goods: nat, d: real)
    requires Rounds(round) && 0.0 <= d <= 100.0 && 100 * goods <= 0x20_0000_0000_0000
    ensures var g, e, p := goods as real, goods as real / 9007199254740992.0, Times(round, goods as real, d);
            && Product(g, d) - 100.0 * e <= p <= Product(g, d) + 100.0 * e
            && p / 100.0 - e <= Over100(round, p) <= p / 100.0 + e
  {
    hide Rounds, Product;
    var g := goods as real;
    Scaled(g, d, goods);
    NearBy(round, Product(g, d), 100 * goods);
    TimesInRange(round, g, d, goods);
    NearBy(round, Times(round, g, d) / 100.0, goods);
  }

  /** What the float computation is off by before the fraction is dropped. */
  lemma PercentError(round: Rounding, goods: nat, cents: nat)
    requires Rounds(round) && cents <= 10_000 && 100 * goods <= 0x20_0000_0000_0000
    ensures var exact := (goods * cents) as real / 10000.0;
            var d := Over100(round, cents as real);
            exact - 0.5 <= Over100(round, Times(round, round(goods as real), d)) <= exact + 0.5
  {
    hide Rounds, Times, Over100, Product;
    GoodsAreFloats(round, goods);
    var g, d := goods as real, Over100(round, cents as real);
    PercentRounded(round, goods, cents);
    ProductRounded(round, goods, d);
    ProductOf(goods, cents);
    ErrorsAdd(Product(g, cents as real / 100.0), Product(g, d), Times(round, g, d), Over100(round, Times(round, g, d)), g / 9007199254740992.0);
  }

  lemma GoodsAreFloats(round: Rounding, goods: nat)
    requires Rounds(round) && goods <= 0x20_0000_0000_0000
    ensures round(goods as real) == goods as real
  {
    assert IsFloat(round, goods);
  }

  lemma ProductGrows(g: real, a: real, b: real)
    requires 0.0 <= g && a <= b
    ensures Product(g, a) <= Product(g, b)
  {
  }

  lemma ProductPlus(g: real, a: real, e: real)
    ensures Product(g, a + 100.0 * e) == Product(g, a) + 100.0 * Product(g, e)
    ensures Product(g, a - 100.0 * e) == Product(g, a) - 100.0 * Product(g, e)
  {
  }

  lemma ScaledError(g: real, d: real, e: real)
    requires 0.0 <= g && e - 100.0 / 9007199254740992.0 <= d <= e + 100.0 / 9007199254740992.0
    ensures Product(g, e) - 100.0 * (g / 9007199254740992.0) <= Product(g, d) <= Product(g, e) + 100.0 * (g / 9007199254740992.0)
  {
    var unit := 1.0 / 9007199254740992.0;
    assert Product(g, unit) == g / 9007199254740992.0;
    hide Product;
    ProductPlus(g, e, unit);
    ProductGrows(g, e - 100.0 * unit, d);
    ProductGrows(g, d, e + 100.0 * unit);
  }

  /** A percentage is off by at most a rouble. */
  lemma PercentNear(round: Rounding, goods: nat, cents: nat)
    requires Rounds(round) && cents <= 10_000 && 100 * goods <= 0x20_0000_0000_0000
    ensures goods * cents / 10_000 - 1 <= PercentOf(round, goods, cents) <= goods * cents / 10_000 + 1
  {
    hide Rounds, Over100, Times;
    PercentError(round, goods, cents);
    FloorOfQuotient(goods * cents, 10_000);
    var exact := (goods * cents) as real / 10000.0;
    var percent := Over100(round, Times(round, round(goods as real), Over100(round, cents as real)));
    assert exact.Floor as real <= exact < exact.Floor as real + 1.0;
    assert percent.Floor as real <= percent < percent.Floor as real + 1.0;
  }

  /** What the code of an active promotion takes off: a waived fee, the smaller of the amount in whole roubles and
      the goods, or the percentage of the goods in whole roubles, off by at most one rouble where floats round. */
  lemma DiscountOfCode(round: Rounding, lower: string -> string, commands: seq<Raw>, code: string, goods: nat, k: nat)
    requires Strip(code) != ""
    requires var table := Reachable(lower, commands);
             k < |table| && table[k].state == Active && table[k].code.Some? && lower(table[k].code.value) == lower(Strip(code))
    ensures var p := Reachable(lower, commands)[k];
            var resolved := ResolvePromoEffect(round, lower, Reachable(lower, commands), Some(code), goods);
            match (p.effect, p.cents)
            case (FreeDelivery, _) => resolved == Ok(Some(PromoEffect(0, true)))
            case (_, None) => resolved.Raise?
            case (FixedAmount, Some(cents)) =>
              resolved == Ok(Some(PromoEffect(if cents / 100 <= goods then cents / 100 else goods, false)))
            case (PercentDiscount, Some(cents)) =>
              && resolved.Ok? && resolved.result.Some? && !resolved.result.value.freeDelivery
              && (IsExact(round, goods, cents) ==> resolved.result.value.discount == goods * cents / 10_000)
              && (Rounds(round) && 100 * goods <= 0x20_0000_0000_0000 ==>
                   goods * cents / 10_000 - 1 <= resolved.result.value.discount <= goods * cents / 10_000 + 1)
  {
    hide Run, ActiveWith, PercentOf, Strip, Rounds, IsExact;
    ActiveCode(lower, commands, Strip(code), k);
    RunConsistent(lower, [], commands);
    var p := Reachable(lower, commands)[k];
    assert WithinBounds(p);
    if p.effect == PercentDiscount && p.cents.Some? {
      if IsExact(round, goods, p.cents.value) {
        PercentExact(round, goods, p.cents.value);
      }
      if Rounds(round) && 100 * goods <= 0x20_0000_0000_0000 {
        PercentNear(round, goods, p.cents.value);
      }
    }
  }

  /** The column holds the amount of the command, rounded to the nearest hundredth. */
  predicate Stores(p: Promotion, discount: Option<Amount>) {
    match discount
    case None => p.cents == Some(0)
    case Some(NotANumber) => p.cents == None
    case Some(Infinite(_)) => false
    case Some(Finite(x)) => p.cents.Some? && p.cents.value as real - 0.5 <= 100.0 * x < p.cents.value as real + 0.5
  }

  /** The command wrote this row, up to its state. */
  predicate Wrote(raw: Raw, p: Promotion) {
    match ApplyFields(raw)
    case Some(Create(name, discount, effect, code)) =>
      p.name == name && p.effect == effect && p.code == code && Stores(p, discount)
    case _ => false
  }

  lemma NextRows(lower: string -> string, table: seq<Promotion>, raw: Raw, k: nat)
    requires k < |Next(lower, table, raw)|
    ensures var p := Next(lower, table, raw)[k];
            (k < |table| && p == table[k].(state := p.state)) || (k >= |table| && Wrote(raw, p))
  {
    hide ApplyFields, Named, CodeInUse, DiscountOk;
    match ApplyFields(raw)
    case Some(Create(_, Some(Finite(x)), _, _)) =>
      var y := x * 100.0 + 0.5;
      assert y.Floor as real <= y < y.Floor as real + 1.0;
    case _ =>
  }

  lemma {:induction false} RunRows(lower: string -> string, table: seq<Promotion>, commands: seq<Raw>, k: nat)
    requires k < |Run(lower, table, commands)|
    ensures var p := Run(lower, table, commands)[k];
            || (k < |table| && p == table[k].(state := p.state))
            || exists j :: 0 <= j < |commands| && Wrote(commands[j], p)
    decreases |commands|
  {
    hide Next, Wrote;
    if commands != [] {
      var next := Next(lower, table, commands[0]);
      var p := Run(lower, table, commands)[k];
      RunRows(lower, next, commands[1..], k);
      if k < |next| && p == next[k].(state := p.state) {
        NextRows(lower, table, commands[0], k);
        if Wrote(commands[0], next[k]) {
          WroteAnyState(commands[0], next[k], p.state);
        }
      } else {
        var j :| 0 <= j < |commands| - 1 && Wrote(commands[1..][j], p);
        assert commands[j + 1] == commands[1..][j];
      }
    }
  }

  lemma WroteAnyState(raw: Raw, p: Promotion, s: State)
    requires Wrote(raw, p)
    ensures Wrote(raw, p.(state := s))
  {
  }

  /** Every promotion is as one of the commands created it: name, effect and code, and the amount to the nearest
      hundredth. */
  lemma PromotionsAreAsCreated(lower: string -> string, commands: seq<Raw>, k: nat)
    requires k < |Reachable(lower, commands)|
    ensures exists j :: 0 <= j < |commands| && Wrote(commands[j], Reachable(lower, commands)[k])
  {
    hide Run, Wrote;
    RunRows(lower, [], commands, k);
  }

  lemma EffectInRange(round: Rounding, p: Promotion, goods: nat)
    requires Rounds(round) && WithinBounds(p) && 100 * goods <= 0x20_0000_0000_0000
    ensures EffectOn(round, p, goods).Some? ==>
              var effect := EffectOn(round, p, goods).value;
              0 <= effect.discount <= goods && (effect.freeDelivery ==> effect.discount == 0)
  {
    hide PercentOf, Rounds;
    if p.effect == PercentDiscount && p.cents.Some? {
      PercentInRange(round, goods, p.cents.value);
    }
  }

  /** The resolved discount never exceeds the goods, as far as floats count hundredths of the goods exactly. */
  lemma DiscountWithinGoods(round: Rounding, lower: string -> string, commands: seq<Raw>, code: Option<string>, goods: nat)
    requires Rounds(round) && 100 * goods <= 0x20_0000_0000_0000
    ensures match ResolvePromoEffect(round, lower, Reachable(lower, commands), code, goods)
            case Ok(Some(effect)) => 0 <= effect.discount <= goods && (effect.freeDelivery ==> effect.discount == 0)
            case _ => true
  {
    hide EffectOn, Run, WithinBounds, Rounds;
    RunConsistent(lower, [], commands);
    var table := Reachable(lower, commands);
    if code.Some? && |ActiveWith(lower, table, Strip(code.value))| == 1 {
      EffectInRange(round, table[ActiveWith(lower, table, Strip(code.value))[0]], goods);
    }
  }

  // ----- what a command does ---------------------------------------------------------------------------------------

  /** A creation is accepted exactly when neither the name nor the code is taken and the amount is a percentage, a
      positive amount of at most eight digits, or not a number; it adds one row as the command says. */
  lemma CreateMeans(lower: string -> string, table: seq<Promotion>, raw: Raw)
    requires ApplyFields(raw).Some? && ApplyFields(raw).value.Create?
    ensures var c, after := ApplyFields(raw).value, Applied(lower, table, raw);
            && (after.Some? <==>
                 && (forall p :: p in table ==> lower(p.name) != lower(c.name))
                 && (forall p :: p in table && p.code.Some? && c.code.Some? ==> lower(p.code.value) != lower(c.code.value))
                 && match (c.effect, c.discount)
                    case (FreeDelivery, _) => true
                    case (_, Some(NotANumber)) => true
                    case (PercentDiscount, Some(Finite(x))) => 0.0 <= x <= 100.0
                    case (FixedAmount, Some(Finite(x))) => 0.0 < x < 99_999_999.995
                    case _ => false)
            && (after.Some? ==>
                 && |after.value| == |table| + 1 && after.value[..|table|] == table
                 && Wrote(raw, after.value[|table|]) && after.value[|table|].state == Created)
  {
    ParsedIsWellFormed(raw);
    hide ApplyFields, Wrote;
    var c := ApplyFields(raw).value;
    NamedIff(lower, table, c.name);
    CodeInUseIff(lower, table, c.code);
    AmountAccepted(c);
    if Applied(lower, table, raw).Some? {
      NextRows(lower, table, raw, |table|);
    }
  }

  lemma AmountAccepted(c: Command)
    requires c.Create? && WellFormed(c)
    ensures DiscountOk(c.effect, c.discount) && FitsColumn(c.discount) <==>
            match (c.effect, c.discount)
            case (FreeDelivery, _) => true
            case (_, Some(NotANumber)) => true
            case (PercentDiscount, Some(Finite(x))) => 0.0 <= x <= 100.0
            case (FixedAmount, Some(Finite(x))) => 0.0 < x < 99_999_999.995
            case _ => false
  {
    if c.discount.Some? && c.discount.value.Finite? {
      var y := c.discount.value.value * 100.0 + 0.5;
      assert y.Floor as real <= y < y.Floor as real + 1.0;
    }
  }

  lemma NamedIff(lower: string -> string, table: seq<Promotion>, name: string)
    ensures Named(lower, table, name) == [] <==> forall p :: p in table ==> lower(p.name) != lower(name)
  {
    hide Named;
    var found := Named(lower, table, name);
    if found == [] {
      NotNamed(lower, table, name);
    } else {
      NamedMeans(lower, table, name, 0);
      assert table[found[0]] in table;
    }
  }

  lemma CodeInUseIff(lower: string -> string, table: seq<Promotion>, code: Option<string>)
    ensures code.Some? ==>
              (CodeInUse(lower, table, code.value) <==>
                exists p :: p in table && p.code.Some? && lower(p.code.value) == lower(code.value))
  {
  }

  lemma {:induction false} NamedIsThisOne(lower: string -> string, table: seq<Promotion>, name: string, k: nat)
    requires Consistent(lower, table) && k < |table| && lower(table[k].name) == lower(name)
    ensures Named(lower, table, name) == [k]
  {
    hide WithinBounds, Trimmed;
    var n := |table| - 1;
    if k < n {
      assert Consistent(lower, table[..n]);
      NamedIsThisOne(lower, table[..n], name, k);
    } else {
      forall p | p in table[..n] ensures lower(p.name) != lower(name) {
        var j :| 0 <= j < n && table[j] == p;
      }
      NamedIff(lower, table[..n], name);
    }
  }

  /** An event is accepted exactly when a promotion of that name is in the one state the event starts from; it
      changes that promotion's state and nothing else. */
  lemma FireMeans(lower: string -> string, table: seq<Promotion>, raw: Raw)
    requires Consistent(lower, table) && ApplyFields(raw).Some? && ApplyFields(raw).value.Fire?
    ensures var c, after := ApplyFields(raw).value, Applied(lower, table, raw);
            && (after.Some? <==>
                 exists k :: 0 <= k < |table| && lower(table[k].name) == lower(c.target)
                             && table[k].state == match c.event case Activate => Created case Expire => Active case Archive => Expired)
            && forall k :: 0 <= k < |table| && lower(table[k].name) == lower(c.target) && after.Some? ==>
                 after.value == table[k := table[k].(state := match c.event
                                                             case Activate => Active
                                                             case Expire => Expired
                                                             case Archive => Archived)]
  {
    hide ApplyFields, Named, Consistent;
    var c := ApplyFields(raw).value;
    forall k | 0 <= k < |table| && lower(table[k].name) == lower(c.target) ensures Named(lower, table, c.target) == [k] {
      NamedIsThisOne(lower, table, c.target, k);
    }
    if |Named(lower, table, c.target)| == 1 {
      NamedMeans(lower, table, c.target, 0);
    }
  }

  // ----- the total and the thanks page --------------------------------------------------------------------------

  /** The delivery part of a total: nothing for pickup or a free-delivery promo. */
  function FeeCharged(pickup: bool, promo: Option<PromoEffect>, zoneFee: Option<nat>): nat {
    if pickup || (promo.Some? && promo.value.freeDelivery) then 0
    else match zoneFee case Some(fee) => fee case None => DELIVERY_FEE
  }

  /** The fee the thanks page shows: the remainder of the total after goods and discount. */
  function ThanksFee(total: int, goods: int, discount: int): int {
    total - goods + discount
  }

  predicate Priced(items: seq<Item>) {
    forall i :: i in items ==> 0 < i.qty
  }

  lemma {:induction false} GoodsAreNonNegative(items: seq<Item>)
    requires Priced(items)
    ensures 0 <= GoodsTotal(items)
  {
    if items != [] {
      var last := items[|items| - 1];
      assert last in items;
      GoodsAreNonNegative(items[..|items| - 1]);
      assert 0 <= last.price * last.qty;
    }
  }

  /** For every reachable promotion table, code, cart, delivery mode and zone fee, if the code resolves and the
      order row holds the two amounts: the charged total lies between zero and goods plus fee, and the thanks
      page recovers exactly the fee that was charged. */
  lemma ThanksPageRecoversFee(round: Rounding, lower: string -> string, commands: seq<Raw>, code: Option<string>,
                              items: seq<Item>, pickup: bool, zoneFee: Option<nat>)
    requires Rounds(round) && Priced(items)
    ensures 0 <= GoodsTotal(items)
    ensures var goods := GoodsTotal(items);
            var resolved := ResolvePromoEffect(round, lower, Reachable(lower, commands), code, goods);
            resolved.Ok? ==>
              var promo := resolved.result;
              var total := CheckoutTotal(items, pickup, promo, zoneFee);
              var discount := match promo case Some(effect) => effect.discount case None => 0;
              FitsInteger(total) && FitsInteger(discount) ==>
                && 0 <= total <= goods + FeeCharged(pickup, promo, zoneFee)
                && total == goods - discount + FeeCharged(pickup, promo, zoneFee)
                && ThanksFee(total, goods, discount) == FeeCharged(pickup, promo, zoneFee)
  {
    hide Run, EffectOn, ResolvePromoEffect, Rounds;
    GoodsAreNonNegative(items);
    if 100 * GoodsTotal(items) <= 0x20_0000_0000_0000 {
      DiscountWithinGoods(round, lower, commands, code, GoodsTotal(items));
    }
  }

  // ----- the life of a promotion -------------------------------------------------------------------------------

  function Rank(s: State): nat {
    match s case Created => 0 case Active => 1 case Expired => 2 case Archived => 3
  }

  /** Rows keep everything but their state, which only moves forward. */
  ghost predicate Aged(before: seq<Promotion>, after: seq<Promotion>) {
    && |before| <= |after|
    && forall k :: 0 <= k < |before| ==>
         after[k] == before[k].(state := after[k].state) && Rank(before[k].state) <= Rank(after[k].state)
  }

  lemma NextAges(lower: string -> string, table: seq<Promotion>, raw: Raw)
    ensures Aged(table, Next(lower, table, raw))
  {
    hide ApplyFields, Named, CodeInUse, Cents, DiscountOk, FitsColumn;
  }

  lemma {:induction false} RunAges(lower: string -> string, table: seq<Promotion>, commands: seq<Raw>)
    ensures Aged(table, Run(lower, table, commands))
    decreases |commands|
  {
    hide Next;
    if commands != [] {
      NextAges(lower, table, commands[0]);
      RunAges(lower, Next(lower, table, commands[0]), commands[1..]);
    }
  }

  /** A code whose promotion has expired never gives a discount again: the code cannot be taken by another
      promotion and the expired one cannot come back. */
  lemma ExpiredCodeStaysDead(round: Rounding, lower: string -> string, commands: seq<Raw>, more: seq<Raw>, k: nat, goods: nat)
    requires var table := Reachable(lower, commands);
             k < |table| && table[k].code.Some? && Rank(table[k].state) >= 2
    ensures var table := Reachable(lower, commands);
            ResolvePromoEffect(round, lower, Run(lower, table, more), table[k].code, goods) == Ok(None)
  {
    hide Run, Named;
    var table := Reachable(lower, commands);
    RunConsistent(lower, [], commands);
    RunConsistent(lower, table, more);
    RunAges(lower, table, more);
    var after := Run(lower, table, more);
    var code := table[k].code.value;
    StripTrims(code);
    ActiveWithMeans(lower, after, code);
    var found := ActiveWith(lower, after, code);
    assert after[k].code == table[k].code && Rank(after[k].state) >= 2;
    forall j | 0 <= j < |after| ensures !Carries(lower, after[j], code) {
      assert j < k || k < j || j == k;
    }
    if found != [] {
      HasMember(found);
    }
  }
}
