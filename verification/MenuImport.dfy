/** The CSV validator: which rows of an uploaded menu are accepted, and why the others are skipped. */
module MenuImport {
  import opened Strings
  import opened Wrappers

  /** The library functions on text: str.lower, str(int(s)) and float(s), the parsers giving None for the
      ValueError. Parsed prices are finite. */
  datatype Reading = Reading(lower: string -> string, canonicalInt: string -> Option<string>, parseFloat: string -> Option<real>)

  datatype Category = Category(id: nat, externalId: Option<string>, name: string)

  datatype Product = Product(name: string, category: Option<nat>, price: Option<int>, description: Option<string>,
                             image: Option<string>, active: bool, sku: Option<string>)

  /** A validated row, ready to upsert. */
  datatype ProductRow = ProductRow(name: string, category: Option<nat>, price: Option<int>, description: Option<string>,
                                   image: Option<string>, active: bool)

  datatype SkipReason = MissingName | AmbiguousName(count: nat) | DuplicateInFile | UnknownCategory(text: string) | InvalidPrice

  datatype SkippedRow = SkippedRow(rowNum: nat, name: Option<string>, reason: SkipReason)

  // ----- names ---------------------------------------------------------------------------------------------

  function WithoutSpaces(s: string): string {
    if s == "" then "" else (if IsSpace(s[0]) then "" else [s[0]]) + WithoutSpaces(s[1..])
  }

  /** _normalize */
  function Normalize(reading: Reading, s: string): string {
    WithoutSpaces(reading.lower(s))
  }

  /** Names that differ only in white space are the same name. */
  lemma {:induction false} SpacesIgnored(a: string, c: char, b: string)
    ensures WithoutSpaces(a + [c] + b) == WithoutSpaces(a) + (if IsSpace(c) then "" else [c]) + WithoutSpaces(b)
  {
    hide IsSpace;
    var s := a + [c] + b;
    if a == "" {
      assert s[0] == c && s[1..] == b;
    } else {
      assert s[0] == a[0] && s[1..] == a[1..] + [c] + b;
      SpacesIgnored(a[1..], c, b);
      var first, middle := if IsSpace(a[0]) then "" else [a[0]], if IsSpace(c) then "" else [c];
      assert first + (WithoutSpaces(a[1..]) + middle + WithoutSpaces(b)) == (first + WithoutSpaces(a[1..])) + middle + WithoutSpaces(b);
    }
  }

  function CountNamed(reading: Reading, products: seq<Product>, norm: string): nat {
    if products == [] then 0
    else
      CountNamed(reading, products[..|products| - 1], norm)
      + if Normalize(reading, products[|products| - 1].name) == norm then 1 else 0
  }

  // ----- columns -------------------------------------------------------------------------------------------

  datatype Field = NameField | CategoryField | DescriptionField | PriceField | ImageField

  function Alias(key: string): Option<Field> {
    if key == "name" then Some(NameField)
    else if key == "category" then Some(CategoryField)
    else if key == "description" then Some(DescriptionField)
    else if key in ["pricerub", "price", "price(rub)"] then Some(PriceField)
    else if key in ["photourl", "photo", "image", "imageurl", "img", "url"] then Some(ImageField)
    else None
  }

  function WithoutBlanks(s: string): string {
    if s == "" then "" else (if s[0] == ' ' then "" else [s[0]]) + WithoutBlanks(s[1..])
  }

  function HeaderField(reading: Reading, cell: string): Option<Field> {
    Alias(WithoutBlanks(reading.lower(Strip(cell))))
  }

  /** Column of each known field; the last header cell that names a field wins. */
  function Columns(reading: Reading, header: seq<string>): map<Field, nat> {
    if header == [] then map[]
    else
      var n := |header| - 1;
      match HeaderField(reading, header[n])
      case Some(field) => Columns(reading, header[..n])[field := n]
      case None => Columns(reading, header[..n])
  }

  /** The trimmed cell of a field, blank when the column or the cell is missing. */
  function Cell(row: seq<string>, columns: map<Field, nat>, field: Field): string {
    if field in columns && columns[field] < |row| then Strip(row[columns[field]]) else Strip("")
  }

  // ----- categories and prices -------------------------------------------------------------------------------

  function ByExternalId(categories: seq<Category>): map<string, nat> {
    if categories == [] then map[]
    else
      var last := categories[|categories| - 1];
      var before := ByExternalId(categories[..|categories| - 1]);
      if last.externalId.Some? then before[Strip(last.externalId.value) := last.id] else before
  }

  function ByName(reading: Reading, categories: seq<Category>): map<string, nat> {
    if categories == [] then map[]
    else
      var last := categories[|categories| - 1];
      ByName(reading, categories[..|categories| - 1])[Normalize(reading, last.name) := last.id]
  }

  /** What the validator is given. */
  datatype Context = Context(reading: Reading, categories: seq<Category>, products: seq<Product>)

  function Find(table: map<string, nat>, key: string): Option<nat> {
    if key in table then Some(table[key]) else None
  }

  /** A number is first tried as an external id; anything unresolved is tried as a name. */
  function ResolveCategory(ctx: Context, text: string): Option<nat> {
    var byId := match ctx.reading.canonicalInt(text)
      case Some(key) => Find(ByExternalId(ctx.categories), key)
      case None => None;
    if byId.Some? then byId else Find(ByName(ctx.reading, ctx.categories), Normalize(ctx.reading, text))
  }

  predicate CategoryOk(ctx: Context, text: string) {
    text == "" || ResolveCategory(ctx, text).Some?
  }

  predicate PriceOk(reading: Reading, text: string) {
    text == "" || (reading.parseFloat(text).Some? && reading.parseFloat(text).value >= 0.0)
  }

  /** Whole roubles; a blank price leaves the product unpriced. */
  function Price(reading: Reading, text: string): Option<int>
    requires PriceOk(reading, text)
  {
    if text == "" then None else Some(reading.parseFloat(text).value.Floor)
  }

  function Blank(text: string): Option<string> {
    if text == "" then None else Some(text)
  }

  // ----- one row ---------------------------------------------------------------------------------------------

  datatype Verdict = Accept(row: ProductRow) | Reject(name: Option<string>, reason: SkipReason)

  /** The decision on one data row, given the normalised names accepted above it. */
  function Judge(ctx: Context, columns: map<Field, nat>, taken: set<string>, raw: seq<string>): Verdict {
    var name := Cell(raw, columns, NameField);
    var norm := Normalize(ctx.reading, name);
    var count := CountNamed(ctx.reading, ctx.products, norm);
    var category := Cell(raw, columns, CategoryField);
    var price := Cell(raw, columns, PriceField);
    if name == "" then Reject(None, MissingName)
    else if count > 1 then Reject(Some(name), AmbiguousName(count))
    else if norm in taken then Reject(Some(name), DuplicateInFile)
    else if !CategoryOk(ctx, category) then Reject(Some(name), UnknownCategory(category))
    else if !PriceOk(ctx.reading, price) then Reject(Some(name), InvalidPrice)
    else Accept(RowOf(ctx, columns, raw))
  }

  function RowOf(ctx: Context, columns: map<Field, nat>, raw: seq<string>): ProductRow
    requires PriceOk(ctx.reading, Cell(raw, columns, PriceField))
  {
    var category := Cell(raw, columns, CategoryField);
    var price := Price(ctx.reading, Cell(raw, columns, PriceField));
    ProductRow(Cell(raw, columns, NameField), if category == "" then None else ResolveCategory(ctx, category), price,
               Blank(Cell(raw, columns, DescriptionField)), Blank(Cell(raw, columns, ImageField)), price.Some?)
  }

  /** Normalised names of the accepted rows. */
  function Taken(reading: Reading, verdicts: seq<Verdict>): set<string> {
    if verdicts == [] then {}
    else
      var last := verdicts[|verdicts| - 1];
      Taken(reading, verdicts[..|verdicts| - 1]) + if last.Accept? then {Normalize(reading, last.row.name)} else {}
  }

  function Verdicts(ctx: Context, columns: map<Field, nat>, data: seq<seq<string>>): (verdicts: seq<Verdict>)
    ensures |verdicts| == |data|
  {
    if data == [] then []
    else
      var before := Verdicts(ctx, columns, data[..|data| - 1]);
      before + [Judge(ctx, columns, Taken(ctx.reading, before), data[|data| - 1])]
  }

  function Accepted(verdicts: seq<Verdict>): seq<ProductRow> {
    if verdicts == [] then []
    else
      var last := verdicts[|verdicts| - 1];
      Accepted(verdicts[..|verdicts| - 1]) + if last.Accept? then [last.row] else []
  }

  /** Data rows are numbered from 2: the header is row 1. */
  function Rejected(verdicts: seq<Verdict>): seq<SkippedRow> {
    if verdicts == [] then []
    else
      var n := |verdicts| - 1;
      Rejected(verdicts[..n])
      + if verdicts[n].Reject? then [SkippedRow(n + 2, verdicts[n].name, verdicts[n].reason)] else []
  }

  // ----- the loop ----------------------------------------------------------------------------------------------

  /** parse_and_validate_csv, from the grid of cells that csv.reader returns. */
  method ParseAndValidate(ctx: Context, grid: seq<seq<string>>) returns (valid: seq<ProductRow>, skipped: seq<SkippedRow>)
    ensures grid == [] ==> valid == [] && skipped == []
    ensures grid != [] ==>
              var verdicts := Verdicts(ctx, Columns(ctx.reading, grid[0]), grid[1..]);
              valid == Accepted(verdicts) && skipped == Rejected(verdicts)
  {
    hide Judge, Taken, CountNamed, Columns, Accepted, Rejected, ByExternalId, ByName, Normalize, Cell;
    valid, skipped := [], [];
    var byExternalId, byName := CategoryTables(ctx.reading, ctx.categories);
    var nameCounts := NameCounts(ctx.reading, ctx.products);
    if grid == [] {
      return;
    }
    var columns := ColumnIndex(ctx.reading, grid[0]);
    var inFile: map<string, nat> := map[];
    ghost var data := grid[1..];
    assert data[..0] == [];
    NoVerdicts(ctx.reading);
    for k := 0 to |grid| - 1
      invariant valid == Accepted(Verdicts(ctx, columns, data[..k]))
      invariant skipped == Rejected(Verdicts(ctx, columns, data[..k]))
      invariant forall norm :: (norm in inFile && inFile[norm] > 0) <==> norm in Taken(ctx.reading, Verdicts(ctx, columns, data[..k]))
    {
      var raw := grid[k + 1];
      ghost var taken := Taken(ctx.reading, Verdicts(ctx, columns, data[..k]));
      OneMoreVerdict(ctx, columns, data, k);
      var verdict := JudgeRow(ctx, columns, byExternalId, byName, nameCounts, inFile, raw, taken);
      match verdict
      case Reject(name, reason) =>
        skipped := skipped + [SkippedRow(k + 2, name, reason)];
      case Accept(row) =>
        valid := valid + [row];
        var norm := Normalize(ctx.reading, row.name);
        inFile := inFile[norm := (if norm in inFile then inFile[norm] else 0) + 1];
    }
    assert data[..|data|] == data;
  }

  /** The body of the row loop up to the append: guards in order, each skipping the row. */
  method JudgeRow(ctx: Context, columns: map<Field, nat>, byExternalId: map<string, nat>, byName: map<string, nat>,
                  nameCounts: map<string, nat>, inFile: map<string, nat>, raw: seq<string>, ghost taken: set<string>)
    returns (verdict: Verdict)
    requires byExternalId == ByExternalId(ctx.categories) && byName == ByName(ctx.reading, ctx.categories)
    requires forall norm :: (if norm in nameCounts then nameCounts[norm] else 0) == CountNamed(ctx.reading, ctx.products, norm)
    requires forall norm :: (norm in inFile && inFile[norm] > 0) <==> norm in taken
    ensures verdict == Judge(ctx, columns, taken, raw)
  {
    hide Cell, Normalize, CountNamed, ByExternalId, ByName;
    var name := Cell(raw, columns, NameField);
    if name == "" {
      return Reject(None, MissingName);
    }
    var norm := Normalize(ctx.reading, name);
    var existingCount := if norm in nameCounts then nameCounts[norm] else 0;
    if existingCount > 1 {
      return Reject(Some(name), AmbiguousName(existingCount));
    }
    if norm in inFile && inFile[norm] > 0 {
      return Reject(Some(name), DuplicateInFile);
    }
    var categoryRaw := Cell(raw, columns, CategoryField);
    var category: Option<nat> := None;
    if categoryRaw != "" {
      var resolved: Option<nat> := None;
      var asInt := ctx.reading.canonicalInt(categoryRaw);
      if asInt.Some? {
        resolved := Find(byExternalId, asInt.value);
      }
      if resolved == None {
        resolved := Find(byName, Normalize(ctx.reading, categoryRaw));
      }
      if resolved == None {
        return Reject(Some(name), UnknownCategory(categoryRaw));
      }
      category := resolved;
    }
    var priceRaw := Cell(raw, columns, PriceField);
    var price: Option<int> := None;
    if priceRaw != "" {
      var num := ctx.reading.parseFloat(priceRaw);
      if num.None? || num.value < 0.0 {
        return Reject(Some(name), InvalidPrice);
      }
      price := Some(num.value.Floor);
    }
    return Accept(ProductRow(name, category, price, Blank(Cell(raw, columns, DescriptionField)),
                             Blank(Cell(raw, columns, ImageField)), price.Some?));
  }

  method CategoryTables(reading: Reading, categories: seq<Category>)
    returns (byExternalId: map<string, nat>, byName: map<string, nat>)
    ensures byExternalId == ByExternalId(categories) && byName == ByName(reading, categories)
  {
    byExternalId, byName := map[], map[];
    for k := 0 to |categories|
      invariant byExternalId == ByExternalId(categories[..k]) && byName == ByName(reading, categories[..k])
    {
      assert categories[..k + 1][..k] == categories[..k];
      var category := categories[k];
      if category.externalId.Some? {
        byExternalId := byExternalId[Strip(category.externalId.value) := category.id];
      }
      byName := byName[Normalize(reading, category.name) := category.id];
    }
    assert categories[..|categories|] == categories;
  }

  method NameCounts(reading: Reading, products: seq<Product>) returns (counts: map<string, nat>)
    ensures forall norm :: (if norm in counts then counts[norm] else 0) == CountNamed(reading, products, norm)
  {
    counts := map[];
    for k := 0 to |products|
      invariant forall norm :: (if norm in counts then counts[norm] else 0) == CountNamed(reading, products[..k], norm)
    {
      assert products[..k + 1][..k] == products[..k];
      var key := Normalize(reading, products[k].name);
      counts := counts[key := (if key in counts then counts[key] else 0) + 1];
    }
    assert products[..|products|] == products;
  }

  method ColumnIndex(reading: Reading, header: seq<string>) returns (columns: map<Field, nat>)
    ensures columns == Columns(reading, header)
  {
    columns := map[];
    for i := 0 to |header|
      invariant columns == Columns(reading, header[..i])
    {
      assert header[..i + 1][..i] == header[..i];
      var field := HeaderField(reading, header[i]);
      if field.Some? {
        columns := columns[field.value := i];
      }
    }
    assert header[..|header|] == header;
  }

  lemma NoVerdicts(reading: Reading)
    ensures Accepted([]) == [] && Rejected([]) == [] && Taken(reading, []) == {}
  {
  }

  lemma OneMoreVerdict(ctx: Context, columns: map<Field, nat>, data: seq<seq<string>>, k: nat)
    requires k < |data|
    ensures var before, all := Verdicts(ctx, columns, data[..k]), Verdicts(ctx, columns, data[..k + 1]);
            var verdict := Judge(ctx, columns, Taken(ctx.reading, before), data[k]);
            && all == before + [verdict]
            && Accepted(all) == Accepted(before) + (if verdict.Accept? then [verdict.row] else [])
            && Rejected(all) == Rejected(before) + (if verdict.Reject? then [SkippedRow(k + 2, verdict.name, verdict.reason)] else [])
            && Taken(ctx.reading, all) ==
               Taken(ctx.reading, before) + if verdict.Accept? then {Normalize(ctx.reading, verdict.row.name)} else {}
  {
    hide Judge;
    assert data[..k + 1][..k] == data[..k];
    var before := Verdicts(ctx, columns, data[..k]);
    var all := before + [Judge(ctx, columns, Taken(ctx.reading, before), data[k])];
    assert all[..|all| - 1] == before;
  }
}
