/** Sku assignment: every product gets its own sku, and the inventory sync then covers the menu. */
module SkuGeneration {
  import opened Strings
  import opened Wrappers
  import opened MenuImport
  import opened MenuUpsert
  import Inventory

  // ----- slugs -----------------------------------------------------------------------------------------------

  predicate IsAlnum(c: char) {
    'A' <= c <= 'Z' || 'a' <= c <= 'z' || '0' <= c <= '9'
  }

  function AsciiOnly(s: string): string {
    if s == "" then "" else (if s[0] < '\U{80}' then [s[0]] else "") + AsciiOnly(s[1..])
  }

  function SkipOthers(s: string): (r: string)
    ensures |r| <= |s| && (s != "" && !IsAlnum(s[0]) ==> |r| < |s|)
    ensures r != "" ==> IsAlnum(r[0])
  {
    if s != "" && !IsAlnum(s[0]) then SkipOthers(s[1..]) else s
  }

  /** Runs of other characters become one dash. */
  function Dashed(s: string): string
    decreases |s|
  {
    if s == "" then ""
    else if IsAlnum(s[0]) then [s[0]] + Dashed(s[1..])
    else "-" + Dashed(SkipOthers(s))
  }

  function StripDashes(s: string): string
    decreases |s|
  {
    if s != "" && s[0] == '-' then StripDashes(s[1..])
    else if s != "" && s[|s| - 1] == '-' then StripDashes(s[..|s| - 1])
    else s
  }

  function UpperChar(c: char): char {
    if 'a' <= c <= 'z' then c - 'a' + 'A' else c
  }

  function Upper(s: string): string {
    if s == "" then "" else [UpperChar(s[0])] + Upper(s[1..])
  }

  /** _slugify_sku */
  function Slugify(name: string): string {
    Upper(StripDashes(Dashed(AsciiOnly(name))))
  }

  /** Words of letters and digits with single dashes between them. */
  predicate Slug(s: string) {
    && (forall k :: 0 <= k < |s| ==> IsAlnum(s[k]) || s[k] == '-')
    && (forall k :: 0 <= k < |s| - 1 ==> !(s[k] == '-' && s[k + 1] == '-'))
    && (s != "" ==> s[0] != '-' && s[|s| - 1] != '-')
  }

  predicate DashesApart(s: string) {
    && (forall k :: 0 <= k < |s| ==> IsAlnum(s[k]) || s[k] == '-')
    && (forall k :: 0 <= k < |s| - 1 ==> !(s[k] == '-' && s[k + 1] == '-'))
  }

  lemma {:induction false} DashedApart(s: string)
    ensures DashesApart(Dashed(s))
    ensures s != "" && IsAlnum(s[0]) ==> Dashed(s) != "" && Dashed(s)[0] == s[0]
    decreases |s|
  {
    if s != "" {
      if IsAlnum(s[0]) {
        DashedApart(s[1..]);
      } else {
        DashedApart(SkipOthers(s));
      }
    }
  }

  lemma {:induction false} StrippedIsSlug(s: string)
    requires DashesApart(s)
    ensures Slug(StripDashes(s))
    decreases |s|
  {
    if s != "" && s[0] == '-' {
      forall k | 0 <= k < |s[1..]| - 1 ensures !(s[1..][k] == '-' && s[1..][k + 1] == '-') {
        assert !(s[k + 1] == '-' && s[k + 2] == '-');
      }
      StrippedIsSlug(s[1..]);
    } else if s != "" && s[|s| - 1] == '-' {
      StrippedIsSlug(s[..|s| - 1]);
    }
  }

  lemma {:induction false} UpperAt(s: string)
    ensures |Upper(s)| == |s| && forall k :: 0 <= k < |s| ==> Upper(s)[k] == UpperChar(s[k])
  {
    if s != "" {
      UpperAt(s[1..]);
    }
  }

  /** A slug is words of upper-case letters and digits with single dashes between them. */
  lemma SlugShape(name: string)
    ensures Slug(Slugify(name)) && forall k :: 0 <= k < |Slugify(name)| ==> !('a' <= Slugify(name)[k] <= 'z')
  {
    DashedApart(AsciiOnly(name));
    StrippedIsSlug(Dashed(AsciiOnly(name)));
    UpperAt(StripDashes(Dashed(AsciiOnly(name))));
  }

  /** The letters and digits of a text, in order. */
  function Letters(s: string): string {
    if s == "" then "" else (if IsAlnum(s[0]) then [s[0]] else "") + Letters(s[1..])
  }

  lemma {:induction false} LettersAppend(a: string, b: string)
    ensures Letters(a + b) == Letters(a) + Letters(b)
  {
    hide IsAlnum;
    if a == "" {
      assert a + b == b;
    } else {
      assert (a + b)[1..] == a[1..] + b;
      LettersAppend(a[1..], b);
      var first := if IsAlnum(a[0]) then [a[0]] else "";
      assert first + (Letters(a[1..]) + Letters(b)) == (first + Letters(a[1..])) + Letters(b);
    }
  }

  lemma {:induction false} LettersOfAscii(s: string)
    ensures Letters(AsciiOnly(s)) == Letters(s)
  {
    if s != "" {
      LettersOfAscii(s[1..]);
      LettersAppend(if s[0] < '\U{80}' then [s[0]] else "", AsciiOnly(s[1..]));
    }
  }

  lemma {:induction false} LettersOfRest(s: string)
    ensures Letters(SkipOthers(s)) == Letters(s)
  {
    if s != "" && !IsAlnum(s[0]) {
      LettersOfRest(s[1..]);
    }
  }

  lemma {:induction false} LettersOfDashed(s: string)
    ensures Letters(Dashed(s)) == Letters(s)
    decreases |s|
  {
    if s != "" {
      if IsAlnum(s[0]) {
        LettersOfDashed(s[1..]);
        LettersAppend([s[0]], Dashed(s[1..]));
      } else {
        LettersOfDashed(SkipOthers(s));
        LettersOfRest(s);
        LettersAppend("-", Dashed(SkipOthers(s)));
      }
    }
  }

  lemma {:induction false} LettersOfStripped(s: string)
    ensures Letters(StripDashes(s)) == Letters(s)
    decreases |s|
  {
    if s != "" && s[0] == '-' {
      LettersOfStripped(s[1..]);
    } else if s != "" && s[|s| - 1] == '-' {
      LettersOfStripped(s[..|s| - 1]);
      assert s == s[..|s| - 1] + "-";
      LettersAppend(s[..|s| - 1], "-");
    }
  }

  lemma {:induction false} LettersOfUpper(s: string)
    ensures Letters(Upper(s)) == Upper(Letters(s))
  {
    if s != "" {
      LettersOfUpper(s[1..]);
      assert Upper(s)[1..] == Upper(s[1..]) && IsAlnum(Upper(s)[0]) == IsAlnum(s[0]);
      if IsAlnum(s[0]) {
        assert Letters(s) == [s[0]] + Letters(s[1..]);
        assert Letters(s)[0] == s[0] && Letters(s)[1..] == Letters(s[1..]);
        assert Upper(Letters(s)) == [UpperChar(s[0])] + Upper(Letters(s[1..]));
        assert Letters(Upper(s)) == [UpperChar(s[0])] + Letters(Upper(s[1..]));
      } else {
        assert Letters(s) == Letters(s[1..]);
        assert Letters(Upper(s)) == Letters(Upper(s[1..]));
      }
    }
  }

  /** A slug has exactly the Latin letters and digits of the name, in order and in upper case. */
  lemma SlugKeepsLetters(name: string)
    ensures var letters := Letters(name);
            |Letters(Slugify(name))| == |letters|
            && forall k :: 0 <= k < |letters| ==>
                 Letters(Slugify(name))[k] == if 'a' <= letters[k] <= 'z' then letters[k] - 'a' + 'A' else letters[k]
  {
    LettersOfAscii(name);
    LettersOfDashed(AsciiOnly(name));
    LettersOfStripped(Dashed(AsciiOnly(name)));
    LettersOfUpper(StripDashes(Dashed(AsciiOnly(name))));
    UpperAt(Letters(name));
  }

  lemma {:induction false} DashedSame(s: string)
    requires Slug(s) || (s != "" && DashesApart(s) && s[|s| - 1] != '-')
    ensures Dashed(s) == s
    decreases |s|
  {
    if s != "" {
      var rest := s[1..];
      assert s == [s[0]] + rest;
      forall k | 0 <= k < |rest| - 1 ensures !(rest[k] == '-' && rest[k + 1] == '-') {
        assert !(s[k + 1] == '-' && s[k + 2] == '-');
      }
      if IsAlnum(s[0]) {
        DashedSame(rest);
      } else {
        assert !(s[0] == '-' && s[1] == '-');
        assert SkipOthers(s) == rest;
        DashedSame(rest);
      }
    }
  }

  lemma {:induction false} AsciiSame(s: string)
    requires forall k :: 0 <= k < |s| ==> s[k] < '\U{80}'
    ensures AsciiOnly(s) == s
  {
    if s != "" {
      AsciiSame(s[1..]);
    }
  }

  lemma {:induction false} UpperSame(s: string)
    requires forall k :: 0 <= k < |s| ==> !('a' <= s[k] <= 'z')
    ensures Upper(s) == s
  {
    if s != "" {
      UpperSame(s[1..]);
    }
  }

  /** A sku that is already a slug is its own slug, so slugs are fixed points. */
  lemma SlugIsFixed(s: string)
    requires Slug(s) && forall k :: 0 <= k < |s| ==> !('a' <= s[k] <= 'z')
    ensures Slugify(s) == s
  {
    AsciiSame(s);
    DashedSame(s);
    UpperSame(s);
  }

  predicate HasAlnum(s: string) {
    exists k :: 0 <= k < |s| && IsAlnum(s[k])
  }

  lemma HasAlnumFront(s: string)
    requires s != ""
    ensures HasAlnum(s) <==> IsAlnum(s[0]) || HasAlnum(s[1..])
  {
    if HasAlnum(s) {
      var k :| 0 <= k < |s| && IsAlnum(s[k]);
      assert k > 0 ==> IsAlnum(s[1..][k - 1]);
    }
    if HasAlnum(s[1..]) {
      var k :| 0 <= k < |s[1..]| && IsAlnum(s[1..][k]);
      assert IsAlnum(s[k + 1]);
    }
  }

  lemma {:induction false} AsciiAlnum(s: string)
    ensures HasAlnum(AsciiOnly(s)) <==> HasAlnum(s)
  {
    if s != "" {
      AsciiAlnum(s[1..]);
      HasAlnumFront(s);
      if s[0] < '\U{80}' {
        HasAlnumFront(AsciiOnly(s));
        assert AsciiOnly(s)[1..] == AsciiOnly(s[1..]);
      } else {
        assert AsciiOnly(s) == AsciiOnly(s[1..]);
      }
    }
  }

  lemma {:induction false} SkipAlnum(s: string)
    ensures HasAlnum(SkipOthers(s)) <==> HasAlnum(s)
  {
    if s != "" && !IsAlnum(s[0]) {
      SkipAlnum(s[1..]);
      HasAlnumFront(s);
    }
  }

  lemma {:induction false} DashedAlnum(s: string)
    ensures HasAlnum(Dashed(s)) <==> HasAlnum(s)
    decreases |s|
  {
    if s != "" {
      HasAlnumFront(s);
      HasAlnumFront(Dashed(s));
      if IsAlnum(s[0]) {
        DashedAlnum(s[1..]);
      } else {
        DashedAlnum(SkipOthers(s));
        SkipAlnum(s);
        assert Dashed(s)[1..] == Dashed(SkipOthers(s));
      }
    }
  }

  lemma {:induction false} StripAlnum(s: string)
    ensures HasAlnum(StripDashes(s)) <==> HasAlnum(s)
    decreases |s|
  {
    if s != "" && s[0] == '-' {
      HasAlnumFront(s);
      StripAlnum(s[1..]);
    } else if s != "" && s[|s| - 1] == '-' {
      StripAlnum(s[..|s| - 1]);
      forall k | 0 <= k < |s| && IsAlnum(s[k]) ensures k < |s| - 1 && s[..|s| - 1][k] == s[k] {
      }
    }
  }

  /** The id-based fallback is used exactly for names without a Latin letter or digit. */
  lemma SlugEmptyIff(name: string)
    ensures Slugify(name) == "" <==> !HasAlnum(name)
  {
    AsciiAlnum(name);
    DashedAlnum(AsciiOnly(name));
    var dashed := Dashed(AsciiOnly(name));
    StripAlnum(dashed);
    UpperAt(StripDashes(dashed));
    DashedApart(AsciiOnly(name));
    StrippedIsSlug(dashed);
    var slug := StripDashes(dashed);
    if slug != "" {
      assert IsAlnum(slug[0]);
    }
  }

  // ----- suffixes --------------------------------------------------------------------------------------------

  function Digit(d: nat): char
    requires d < 10
  {
    '0' + d as char
  }

  /** Decimal rendering of a number. */
  function Digits(n: nat): string {
    if n < 10 then [Digit(n)] else Digits(n / 10) + [Digit(n % 10)]
  }

  function ValueOf(s: string): int {
    if s == "" then 0 else 10 * ValueOf(s[..|s| - 1]) + (s[|s| - 1] as int - '0' as int)
  }

  lemma {:induction false} DigitsValue(n: nat)
    ensures ValueOf(Digits(n)) == n
  {
    if n < 10 {
      assert Digits(n)[..0] == "";
    } else {
      DigitsValue(n / 10);
      assert Digits(n)[..|Digits(n)| - 1] == Digits(n / 10);
    }
  }

  /** The k-th name tried: the base, then base-2, base-3 and so on. */
  function Candidate(base: string, k: nat): string {
    if k == 0 then base else base + "-" + Digits(k + 1)
  }

  lemma CandidatesDiffer(base: string, j: nat, k: nat)
    requires j < k
    ensures Candidate(base, j) != Candidate(base, k)
  {
    DigitsValue(j + 1);
    DigitsValue(k + 1);
    var n := |base| + 1;
    assert (base + "-" + Digits(j + 1))[n..] == Digits(j + 1);
    assert (base + "-" + Digits(k + 1))[n..] == Digits(k + 1);
  }

  /** The first name of the list that is free. */
  ghost predicate FirstFree(base: string, taken: set<string>, candidate: string) {
    exists k: nat :: FreeAfter(base, taken, candidate, k)
  }

  ghost predicate FreeAfter(base: string, taken: set<string>, candidate: string, k: nat) {
    candidate == Candidate(base, k) && candidate !in taken && forall j: nat :: j < k ==> Candidate(base, j) in taken
  }

  /** There is only one first free name. */
  lemma FirstFreeUnique(base: string, taken: set<string>, a: string, b: string)
    requires FirstFree(base, taken, a) && FirstFree(base, taken, b)
    ensures a == b
  {
    var j: nat :| FreeAfter(base, taken, a, j);
    var k: nat :| FreeAfter(base, taken, b, k);
    assert !(j < k) && !(k < j);
  }

  /** The first k names of the search. */
  ghost function Tried(base: string, k: nat): set<string> {
    if k == 0 then {} else Tried(base, k - 1) + {Candidate(base, k - 1)}
  }

  lemma {:induction false} TriedMeans(base: string, k: nat, name: string)
    ensures name in Tried(base, k) <==> exists j: nat :: j < k && name == Candidate(base, j)
  {
    hide Candidate;
    if k > 0 {
      TriedMeans(base, k - 1, name);
    }
  }

  /** The names are all different, so if all of them are taken there are at least as many taken skus. */
  lemma {:induction false} TriedSize(base: string, k: nat, taken: set<string>)
    ensures |Tried(base, k)| == k
    ensures Tried(base, k) <= taken ==> k <= |taken|
  {
    hide Candidate;
    if k > 0 {
      TriedSize(base, k - 1, taken);
      TriedMeans(base, k - 1, Candidate(base, k - 1));
      forall j: nat | j < k - 1 ensures Candidate(base, j) != Candidate(base, k - 1) {
        CandidatesDiffer(base, j, k - 1);
      }
    }
    if Tried(base, k) <= taken {
      assert taken == Tried(base, k) + (taken - Tried(base, k));
    }
  }

  /** The suffix search. It stops within one more try than there are taken skus: the names tried are
      different and all of them taken. */
  method FreshSku(base: string, taken: set<string>) returns (candidate: string, tries: nat)
    ensures FreeAfter(base, taken, candidate, tries)
    ensures tries <= |taken|
  {
    candidate := base;
    var suffix := 2;
    while candidate in taken
      invariant suffix >= 2 && candidate == Candidate(base, suffix - 2)
      invariant Tried(base, suffix - 2) <= taken
      invariant suffix - 2 <= |taken|
      decreases |taken| + 2 - suffix
    {
      TriedSize(base, suffix - 1, taken);
      candidate := base + "-" + Digits(suffix);
      suffix := suffix + 1;
    }
    tries := suffix - 2;
    forall j: nat | j < tries ensures Candidate(base, j) in taken {
      TriedMeans(base, tries, Candidate(base, j));
    }
  }

  // ----- the batch -------------------------------------------------------------------------------------------

  /** One inventory row as the batch reads it. */
  datatype Legacy = Legacy(sku: string, name: string)

  function LegacyKey(reading: Reading, name: string): string {
    reading.lower(Strip(name))
  }

  /** The sku of the first inventory row with this name. */
  function LegacySku(reading: Reading, inventory: seq<Legacy>, name: string): Option<string> {
    if inventory == [] then None
    else if LegacyKey(reading, inventory[0].name) == LegacyKey(reading, name) then Some(inventory[0].sku)
    else LegacySku(reading, inventory[1..], name)
  }

  /** The batch's table of inventory names; setdefault keeps the first row of a name. */
  method LegacyByName(reading: Reading, inventory: seq<Legacy>) returns (byName: map<string, string>)
    ensures forall name :: LegacySku(reading, inventory, name) ==
              if LegacyKey(reading, name) in byName then Some(byName[LegacyKey(reading, name)]) else None
  {
    hide LegacyKey;
    byName := map[];
    for k := 0 to |inventory|
      invariant forall name :: LegacySku(reading, inventory[..k], name) ==
                  if LegacyKey(reading, name) in byName then Some(byName[LegacyKey(reading, name)]) else None
    {
      var key := LegacyKey(reading, inventory[k].name);
      forall name { LegacySkuPush(reading, inventory[..k], inventory[k], name); }
      assert inventory[..k + 1] == inventory[..k] + [inventory[k]];
      if key !in byName {
        byName := byName[key := inventory[k].sku];
      }
    }
    assert inventory[..|inventory|] == inventory;
  }

  lemma {:induction false} LegacySkuPush(reading: Reading, inventory: seq<Legacy>, row: Legacy, name: string)
    ensures LegacySku(reading, inventory + [row], name) ==
              if LegacySku(reading, inventory, name).Some? then LegacySku(reading, inventory, name)
              else if LegacyKey(reading, row.name) == LegacyKey(reading, name) then Some(row.sku) else None
  {
    hide LegacyKey;
    if inventory != [] {
      assert (inventory + [row])[1..] == inventory[1..] + [row];
      LegacySkuPush(reading, inventory[1..], row, name);
    }
  }

  /** What the search starts from: the slug, or ITEM- and eight characters of the id. */
  function BaseSku(name: string, id: string): string {
    if Slugify(name) != "" then Slugify(name) else "ITEM-" + Upper(if |id| > 8 then id[..8] else id)
  }

  function KnownSkus(products: seq<Product>): set<string> {
    set i | 0 <= i < |products| && products[i].sku.Some? :: products[i].sku.value
  }

  ghost predicate SkusDistinct(products: seq<Product>) {
    forall i, j :: 0 <= i < j < |products| && products[i].sku.Some? ==> products[i].sku != products[j].sku
  }

  predicate AllAssigned(products: seq<Product>) {
    forall i :: 0 <= i < |products| ==> products[i].sku.Some?
  }

  /** The positions of the products without a sku, in the order of the query. */
  ghost predicate TargetsOk(products: seq<Product>, targets: seq<nat>) {
    && (forall j :: 0 <= j < |targets| ==> targets[j] < |products| && products[targets[j]].sku == None)
    && (forall i, j :: 0 <= i < j < |targets| ==> targets[i] != targets[j])
    && (forall p :: 0 <= p < |products| && products[p].sku == None ==> p in targets)
  }

  /** Why a target may get this sku while `taken` is in use: an unclaimed inventory row of its name, else the
      first free name. */
  ghost predicate RightSku(reading: Reading, inventory: seq<Legacy>, name: string, id: string, taken: set<string>, sku: string) {
    var legacy := LegacySku(reading, inventory, name);
    if legacy.Some? && legacy.value !in taken then sku == legacy.value else FirstFree(BaseSku(name, id), taken, sku)
  }

  /** The skus in use when target j is handled. */
  function TakenBefore(was: seq<Product>, now: seq<Product>, targets: seq<nat>, j: nat): set<string>
    requires j <= |targets| && forall i :: 0 <= i < j ==> targets[i] < |now|
  {
    KnownSkus(was) + set i | 0 <= i < j && now[targets[i]].sku.Some? :: now[targets[i]].sku.value
  }

  /** How many of the first n targets took over the sku of an inventory row. */
  ghost function AdoptedCount(reading: Reading, inventory: seq<Legacy>, was: seq<Product>, now: seq<Product>,
                              targets: seq<nat>, n: nat): nat
    requires n <= |targets| && forall i :: 0 <= i < n ==> targets[i] < |now|
  {
    if n == 0 then 0
    else
      var legacy := LegacySku(reading, inventory, now[targets[n - 1]].name);
      AdoptedCount(reading, inventory, was, now, targets, n - 1)
      + if legacy.Some? && legacy.value !in TakenBefore(was, now, targets, n - 1) then 1 else 0
  }

  lemma {:induction false} AdoptedSame(reading: Reading, inventory: seq<Legacy>, was: seq<Product>, before: seq<Product>,
                                       now: seq<Product>, targets: seq<nat>, n: nat)
    requires n <= |targets| && |now| == |before| && forall i :: 0 <= i < n ==> targets[i] < |now|
    requires forall i :: 0 <= i < n ==> now[targets[i]].name == before[targets[i]].name
    requires forall j :: 0 <= j <= n ==> TakenBefore(was, now, targets, j) == TakenBefore(was, before, targets, j)
    ensures AdoptedCount(reading, inventory, was, now, targets, n) == AdoptedCount(reading, inventory, was, before, targets, n)
  {
    hide TakenBefore, LegacySku;
    if n > 0 {
      AdoptedSame(reading, inventory, was, before, now, targets, n - 1);
    }
  }

  /** Assigning one free sku. */
  lemma AssignOne(products: seq<Product>, p: nat, sku: string)
    requires p < |products| && products[p].sku == None && sku !in KnownSkus(products)
    ensures KnownSkus(products[p := products[p].(sku := Some(sku))]) == KnownSkus(products) + {sku}
    ensures SkusDistinct(products) ==> SkusDistinct(products[p := products[p].(sku := Some(sku))])
  {
    var now := products[p := products[p].(sku := Some(sku))];
    forall s ensures s in KnownSkus(now) <==> s in KnownSkus(products) || s == sku {
      if s == sku {
        assert now[p].sku == Some(sku);
      }
      if s in KnownSkus(products) {
        var i :| 0 <= i < |products| && products[i].sku == Some(s);
        assert now[i].sku == Some(s);
      }
    }
    if SkusDistinct(products) {
      forall i, j | 0 <= i < j < |now| && now[i].sku.Some? ensures now[i].sku != now[j].sku {
        assert i != p && products[i].sku.Some? ==> products[i].sku.value in KnownSkus(products);
        assert j != p && products[j].sku.Some? ==> products[j].sku.value in KnownSkus(products);
      }
    }
  }

  /** Only skus of products without one were filled in. */
  ghost predicate OnlyFilled(was: seq<Product>, now: seq<Product>) {
    && |now| == |was|
    && forall p :: 0 <= p < |was| ==> now[p] == was[p].(sku := now[p].sku) && (was[p].sku.Some? ==> now[p] == was[p])
  }

  /** The batch has handled the first n targets. */
  ghost predicate Progress(reading: Reading, inventory: seq<Legacy>, ids: seq<string>, targets: seq<nat>,
                           was: seq<Product>, now: seq<Product>, n: nat, adopted: nat)
    requires |ids| == |was| && TargetsOk(was, targets) && n <= |targets|
  {
    && OnlyFilled(was, now) && SkusDistinct(now)
    && adopted == AdoptedCount(reading, inventory, was, now, targets, n)
    && KnownSkus(now) == TakenBefore(was, now, targets, n)
    && (forall j :: 0 <= j < |targets| ==> (now[targets[j]].sku.Some? <==> j < n))
    && (forall j :: 0 <= j < n ==>
         RightSku(reading, inventory, now[targets[j]].name, ids[targets[j]], TakenBefore(was, now, targets, j),
                  now[targets[j]].sku.value))
  }

  /** generate_missing_skus */
  method GenerateMissingSkus(table: MenuTable, reading: Reading, inventory: seq<Legacy>, ids: seq<string>, targets: seq<nat>)
    returns (generated: nat, adoptedLegacy: nat)
    requires |ids| == |table.products| && TargetsOk(table.products, targets) && SkusDistinct(table.products)
    modifies table
    ensures OnlyFilled(old(table.products), table.products)
    ensures AllAssigned(table.products) && SkusDistinct(table.products)
    ensures generated == |targets|
    ensures adoptedLegacy == AdoptedCount(reading, inventory, old(table.products), table.products, targets, |targets|)
    ensures forall j :: 0 <= j < |targets| ==>
              var p := targets[j];
              RightSku(reading, inventory, table.products[p].name, ids[p],
                       TakenBefore(old(table.products), table.products, targets, j), table.products[p].sku.value)
  {
    hide KnownSkus, SkusDistinct, FirstFree, LegacySku, BaseSku, Progress, TakenBefore, AdoptedCount;
    ghost var was := table.products;
    var taken := KnownSkus(table.products);
    var legacyByName := LegacyByName(reading, inventory);
    generated, adoptedLegacy := 0, 0;
    AtFirstTarget(reading, inventory, ids, targets, was);
    while generated < |targets|
      invariant generated <= |targets|
      invariant |table.products| == |was| && taken == KnownSkus(table.products)
      invariant Progress(reading, inventory, ids, targets, was, table.products, generated, adoptedLegacy)
    {
      var p := targets[generated];
      var product := table.products[p];
      ghost var before, adopted := table.products, adoptedLegacy;
      ThisTarget(reading, inventory, ids, targets, was, before, generated, adopted);
      var candidate;
      var key := LegacyKey(reading, product.name);
      assert LegacySku(reading, inventory, product.name) == if key in legacyByName then Some(legacyByName[key]) else None;
      if key in legacyByName && legacyByName[key] !in taken {
        candidate := legacyByName[key];
        adoptedLegacy := adoptedLegacy + 1;
      } else {
        ghost var tries;
        candidate, tries := FreshSku(BaseSku(product.name, ids[p]), taken);
        FreeIsFirst(BaseSku(product.name, ids[p]), taken, candidate, tries);
      }
      AssignOne(table.products, p, candidate);
      taken := taken + {candidate};
      table.products := table.products[p := product.(sku := Some(candidate))];
      NextTarget(reading, inventory, ids, targets, was, before, table.products, generated, adopted, candidate);
      generated := generated + 1;
    }
    AfterLastTarget(reading, inventory, ids, targets, was, table.products, adoptedLegacy);
  }

  lemma AtFirstTarget(reading: Reading, inventory: seq<Legacy>, ids: seq<string>, targets: seq<nat>, was: seq<Product>)
    requires |ids| == |was| && TargetsOk(was, targets) && SkusDistinct(was)
    ensures Progress(reading, inventory, ids, targets, was, was, 0, 0)
  {
    hide SkusDistinct, RightSku;
    forall p | 0 <= p < |was| ensures was[p] == was[p].(sku := was[p].sku) {
    }
  }

  lemma ThisTarget(reading: Reading, inventory: seq<Legacy>, ids: seq<string>, targets: seq<nat>,
                   was: seq<Product>, now: seq<Product>, n: nat, adopted: nat)
    requires |ids| == |was| && TargetsOk(was, targets) && n < |targets|
    requires Progress(reading, inventory, ids, targets, was, now, n, adopted)
    ensures |now| == |was| && now[targets[n]].sku == None && SkusDistinct(now)
  {
    hide SkusDistinct, RightSku, KnownSkus, TakenBefore;
  }

  lemma NextTarget(reading: Reading, inventory: seq<Legacy>, ids: seq<string>, targets: seq<nat>,
                   was: seq<Product>, before: seq<Product>, now: seq<Product>, n: nat, adopted: nat, sku: string)
    requires |ids| == |was| && TargetsOk(was, targets) && n < |targets|
    requires Progress(reading, inventory, ids, targets, was, before, n, adopted)
    requires now == before[targets[n] := before[targets[n]].(sku := Some(sku))]
    requires SkusDistinct(now) && KnownSkus(now) == KnownSkus(before) + {sku}
    requires RightSku(reading, inventory, before[targets[n]].name, ids[targets[n]], KnownSkus(before), sku)
    ensures var legacy := LegacySku(reading, inventory, before[targets[n]].name);
            Progress(reading, inventory, ids, targets, was, now, n + 1,
                     adopted + if legacy.Some? && legacy.value !in KnownSkus(before) then 1 else 0)
  {
    hide SkusDistinct, RightSku, KnownSkus, TakenBefore, LegacySku;
    TakenStep(was, before, now, targets, n, sku);
    AdoptedSame(reading, inventory, was, before, now, targets, n);
    forall j | 0 <= j < |targets| && j != n ensures now[targets[j]] == before[targets[j]] {
      assert targets[j] != targets[n];
    }
  }

  lemma AfterLastTarget(reading: Reading, inventory: seq<Legacy>, ids: seq<string>, targets: seq<nat>,
                        was: seq<Product>, now: seq<Product>, adopted: nat)
    requires |ids| == |was| && TargetsOk(was, targets)
    requires Progress(reading, inventory, ids, targets, was, now, |targets|, adopted)
    ensures adopted == AdoptedCount(reading, inventory, was, now, targets, |targets|)
    ensures OnlyFilled(was, now) && AllAssigned(now) && SkusDistinct(now)
    ensures forall j :: 0 <= j < |targets| ==>
              RightSku(reading, inventory, now[targets[j]].name, ids[targets[j]], TakenBefore(was, now, targets, j),
                       now[targets[j]].sku.value)
  {
    hide SkusDistinct, RightSku, KnownSkus, TakenBefore;
    forall p | 0 <= p < |was| ensures now[p].sku.Some? {
      if was[p].sku == None {
        assert p in targets;
        var j :| 0 <= j < |targets| && targets[j] == p;
        assert now[targets[j]].sku.Some?;
      }
    }
  }

  lemma FreeIsFirst(base: string, taken: set<string>, candidate: string, k: nat)
    requires FreeAfter(base, taken, candidate, k)
    ensures FirstFree(base, taken, candidate) && candidate !in taken
  {
  }

  lemma TakenStep(was: seq<Product>, before: seq<Product>, now: seq<Product>, targets: seq<nat>, n: nat, sku: string)
    requires n < |targets| && |before| == |was| && TargetsOk(was, targets)
    requires now == before[targets[n] := before[targets[n]].(sku := Some(sku))]
    ensures forall j :: 0 <= j <= n ==> TakenBefore(was, now, targets, j) == TakenBefore(was, before, targets, j)
    ensures TakenBefore(was, now, targets, n + 1) == TakenBefore(was, before, targets, n) + {sku}
  {
    hide KnownSkus;
    forall i | 0 <= i < n ensures now[targets[i]] == before[targets[i]] {
      assert targets[i] != targets[n];
    }
    assert now[targets[n]].sku == Some(sku);
  }

  // ----- a second run, and the inventory sync ------------------------------------------------------------------

  lemma TargetHasNoSku(products: seq<Product>, targets: seq<nat>, j: nat)
    requires TargetsOk(products, targets) && j < |targets|
    ensures targets[j] < |products| && products[targets[j]].sku == None
  {
  }

  /** When every product has a sku there is nothing left to do. */
  lemma NothingLeft(products: seq<Product>, targets: seq<nat>)
    requires TargetsOk(products, targets) && AllAssigned(products)
    ensures targets == []
  {
    if targets != [] {
      TargetHasNoSku(products, targets, 0);
    }
  }

  /** What sync_from_menu reads: the skus of the active products. */
  function ActiveSkus(products: seq<Product>): seq<Option<string>> {
    if products == [] then []
    else
      var last := products[|products| - 1];
      ActiveSkus(products[..|products| - 1]) + if last.active then [last.sku] else []
  }

  lemma {:induction false} ActiveCovered(products: seq<Product>)
    requires AllAssigned(products)
    ensures Inventory.CountNone(ActiveSkus(products)) == 0
    ensures forall i :: 0 <= i < |products| && products[i].active ==> products[i].sku.value in Inventory.Skus(ActiveSkus(products))
  {
    if products != [] {
      var n := |products| - 1;
      ActiveCovered(products[..n]);
      var skus := ActiveSkus(products);
      if products[n].active {
        assert skus[..|skus| - 1] == ActiveSkus(products[..n]);
      } else {
        assert skus == ActiveSkus(products[..n]);
      }
    }
  }

  /** After the batch, the sync gives every active product an inventory row, skips none, keeps every
      existing quantity, and syncing again changes nothing. */
  lemma SyncCoversMenu(products: seq<Product>, quantity: map<string, int>)
    requires AllAssigned(products)
    ensures var skus := ActiveSkus(products);
            var synced := Inventory.Filled(quantity, Inventory.Skus(skus), 0);
            && Inventory.CountNone(skus) == 0
            && (forall i :: 0 <= i < |products| && products[i].active ==> products[i].sku.value in synced)
            && (forall s :: s in quantity ==> s in synced && synced[s] == quantity[s])
            && Inventory.Filled(synced, Inventory.Skus(skus), 0) == synced
  {
    ActiveCovered(products);
    Inventory.FilledTwice(quantity, Inventory.Skus(ActiveSkus(products)), 0);
  }
}
