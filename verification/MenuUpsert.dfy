/** The upsert of validated rows, and what importing a file does to the product table. */
module MenuUpsert {
  import opened Strings
  import opened Wrappers
  import opened MenuImport

  // ----- what the validator accepts ----------------------------------------------------------------------------

  /** The row by itself would be accepted. */
  predicate Acceptable(ctx: Context, columns: map<Field, nat>, raw: seq<string>) {
    var name := Cell(raw, columns, NameField);
    && name != ""
    && CountNamed(ctx.reading, ctx.products, Normalize(ctx.reading, name)) <= 1
    && CategoryOk(ctx, Cell(raw, columns, CategoryField))
    && PriceOk(ctx.reading, Cell(raw, columns, PriceField))
  }

  function NormOf(ctx: Context, columns: map<Field, nat>, raw: seq<string>): string {
    Normalize(ctx.reading, Cell(raw, columns, NameField))
  }

  /** No acceptable row above row k has its normalised name. */
  ghost predicate FirstOfItsName(ctx: Context, columns: map<Field, nat>, data: seq<seq<string>>, k: nat)
    requires k < |data|
  {
    forall j :: 0 <= j < k && Acceptable(ctx, columns, data[j]) ==> NormOf(ctx, columns, data[j]) != NormOf(ctx, columns, data[k])
  }

  lemma JudgeMeans(ctx: Context, columns: map<Field, nat>, taken: set<string>, raw: seq<string>)
    ensures var verdict := Judge(ctx, columns, taken, raw);
            && (verdict.Accept? <==> Acceptable(ctx, columns, raw) && NormOf(ctx, columns, raw) !in taken)
            && (verdict.Accept? ==> verdict.row == RowOf(ctx, columns, raw) && verdict.row.name == Cell(raw, columns, NameField))
  {
  }

  lemma {:induction false} VerdictsPrefix(ctx: Context, columns: map<Field, nat>, data: seq<seq<string>>, k: nat)
    requires k <= |data|
    ensures Verdicts(ctx, columns, data)[..k] == Verdicts(ctx, columns, data[..k])
  {
    hide Judge, Taken;
    if k == |data| {
      assert data[..k] == data;
    } else {
      var n := |data| - 1;
      VerdictsPrefix(ctx, columns, data[..n], k);
      assert data[..n][..k] == data[..k];
      assert Verdicts(ctx, columns, data)[..n] == Verdicts(ctx, columns, data[..n]);
    }
  }

  lemma {:induction false} TakenMeans(ctx: Context, columns: map<Field, nat>, data: seq<seq<string>>, norm: string)
    ensures norm in Taken(ctx.reading, Verdicts(ctx, columns, data)) <==>
            exists j :: 0 <= j < |data| && Acceptable(ctx, columns, data[j]) && NormOf(ctx, columns, data[j]) == norm
  {
    hide Judge, Acceptable, NormOf;
    if data == [] {
      NoVerdicts(ctx.reading);
    } else {
      var n := |data| - 1;
      TakenMeans(ctx, columns, data[..n], norm);
      assert data[..n + 1] == data;
      OneMoreVerdict(ctx, columns, data, n);
      var taken := Taken(ctx.reading, Verdicts(ctx, columns, data[..n]));
      JudgeMeans(ctx, columns, taken, data[n]);
      NormOfRow(ctx, columns, taken, data[n]);
      forall j | 0 <= j < n ensures data[..n][j] == data[j] {
      }
      if Acceptable(ctx, columns, data[n]) && NormOf(ctx, columns, data[n]) in taken {
        TakenMeans(ctx, columns, data[..n], NormOf(ctx, columns, data[n]));
      }
    }
  }

  lemma NormOfRow(ctx: Context, columns: map<Field, nat>, taken: set<string>, raw: seq<string>)
    ensures var verdict := Judge(ctx, columns, taken, raw);
            verdict.Accept? ==> Normalize(ctx.reading, verdict.row.name) == NormOf(ctx, columns, raw)
  {
  }

  /** Exactly the first acceptable row of every normalised name is accepted, with the values of its cells. */
  lemma AcceptedIffFirst(ctx: Context, columns: map<Field, nat>, data: seq<seq<string>>, k: nat)
    requires k < |data|
    ensures var verdict := Verdicts(ctx, columns, data)[k];
            && (verdict.Accept? <==> Acceptable(ctx, columns, data[k]) && FirstOfItsName(ctx, columns, data, k))
            && (verdict.Accept? ==> verdict.row == RowOf(ctx, columns, data[k]))
  {
    hide Judge, Acceptable, NormOf;
    VerdictsPrefix(ctx, columns, data, k);
    VerdictsPrefix(ctx, columns, data, k + 1);
    OneMoreVerdict(ctx, columns, data, k);
    assert Verdicts(ctx, columns, data)[k] == Verdicts(ctx, columns, data[..k + 1])[k];
    var taken := Taken(ctx.reading, Verdicts(ctx, columns, data[..k]));
    JudgeMeans(ctx, columns, taken, data[k]);
    TakenMeans(ctx, columns, data[..k], NormOf(ctx, columns, data[k]));
    forall j | 0 <= j < k ensures data[..k][j] == data[j] {
    }
  }

  // ----- the cells of a row --------------------------------------------------------------------------------------

  /** The text is a number, and the category has it as its external id. */
  predicate HasNumber(ctx: Context, c: Category, text: string) {
    var number := ctx.reading.canonicalInt(text);
    number.Some? && c.externalId.Some? && Strip(c.externalId.value) == number.value
  }

  predicate HasName(ctx: Context, c: Category, text: string) {
    Normalize(ctx.reading, c.name) == Normalize(ctx.reading, text)
  }

  /** Category j is the last with this property. */
  ghost predicate IsLast(categories: seq<Category>, property: Category -> bool, j: nat)
    requires j < |categories|
  {
    property(categories[j]) && forall l :: j < l < |categories| ==> !property(categories[l])
  }

  /** The category that a text names: by number if there is one with that number, otherwise by name; the later of
      two. */
  ghost predicate Denotes(ctx: Context, text: string, id: nat) {
    var byNumber, byName := c => HasNumber(ctx, c, text), c => HasName(ctx, c, text);
    || (exists j :: 0 <= j < |ctx.categories| && IsLast(ctx.categories, byNumber, j) && ctx.categories[j].id == id)
    || ((forall c :: c in ctx.categories ==> !HasNumber(ctx, c, text))
        && exists j :: 0 <= j < |ctx.categories| && IsLast(ctx.categories, byName, j) && ctx.categories[j].id == id)
  }

  lemma LastOfMore(categories: seq<Category>, property: Category -> bool)
    requires categories != []
    ensures var n := |categories| - 1;
            if property(categories[n]) then IsLast(categories, property, n)
            else forall j :: 0 <= j < n && IsLast(categories[..n], property, j) ==> IsLast(categories, property, j)
  {
    var n := |categories| - 1;
    assert forall l :: 0 <= l < n ==> categories[..n][l] == categories[l];
  }

  lemma {:induction false} LastByNumber(categories: seq<Category>, key: string, property: Category -> bool)
    requires forall c :: property(c) <==> c.externalId.Some? && Strip(c.externalId.value) == key
    ensures key in ByExternalId(categories) <==> exists c :: c in categories && property(c)
    ensures key in ByExternalId(categories) ==>
              exists j :: 0 <= j < |categories| && IsLast(categories, property, j) && categories[j].id == ByExternalId(categories)[key]
  {
    hide Strip, IsLast;
    if categories != [] {
      var n := |categories| - 1;
      LastByNumber(categories[..n], key, property);
      assert forall c :: c in categories <==> c in categories[..n] || c == categories[n];
      LastOfMore(categories, property);
      if !property(categories[n]) && key in ByExternalId(categories) {
        var j :| 0 <= j < n && IsLast(categories[..n], property, j) && categories[..n][j].id == ByExternalId(categories[..n])[key];
        assert IsLast(categories, property, j);
      }
    }
  }

  lemma {:induction false} LastByName(reading: Reading, categories: seq<Category>, key: string, property: Category -> bool)
    requires forall c :: property(c) <==> Normalize(reading, c.name) == key
    ensures key in ByName(reading, categories) <==> exists c :: c in categories && property(c)
    ensures key in ByName(reading, categories) ==>
              exists j :: 0 <= j < |categories| && IsLast(categories, property, j) && categories[j].id == ByName(reading, categories)[key]
  {
    hide Normalize, IsLast;
    if categories != [] {
      var n := |categories| - 1;
      LastByName(reading, categories[..n], key, property);
      assert forall c :: c in categories <==> c in categories[..n] || c == categories[n];
      LastOfMore(categories, property);
      if !property(categories[n]) && key in ByName(reading, categories) {
        var j :| 0 <= j < n && IsLast(categories[..n], property, j) && categories[..n][j].id == ByName(reading, categories[..n])[key];
        assert IsLast(categories, property, j);
      }
    }
  }

  /** A text resolves exactly when it names a category, and to that one. */
  lemma ResolvesWhatItDenotes(ctx: Context, text: string)
    ensures match ResolveCategory(ctx, text)
            case Some(id) => Denotes(ctx, text, id)
            case None => forall id :: !Denotes(ctx, text, id)
  {
    hide ByExternalId, ByName, Normalize, Strip, IsLast;
    var byNumber, byName := c => HasNumber(ctx, c, text), c => HasName(ctx, c, text);
    var number := ctx.reading.canonicalInt(text);
    if number.Some? {
      LastByNumber(ctx.categories, number.value, byNumber);
    }
    LastByName(ctx.reading, ctx.categories, Normalize(ctx.reading, text), byName);
    forall j | 0 <= j < |ctx.categories| ensures IsLast(ctx.categories, byNumber, j) ==> HasNumber(ctx, ctx.categories[j], text) {
      LastHasIt(ctx.categories, byNumber, j);
    }
    forall j | 0 <= j < |ctx.categories| ensures IsLast(ctx.categories, byName, j) ==> HasName(ctx, ctx.categories[j], text) {
      LastHasIt(ctx.categories, byName, j);
    }
  }

  lemma LastHasIt(categories: seq<Category>, property: Category -> bool, j: nat)
    requires j < |categories|
    ensures IsLast(categories, property, j) ==> property(categories[j])
  {
  }

  /** Which rows are acceptable, cell by cell, and what each cell becomes. */
  lemma CellsOfRow(ctx: Context, columns: map<Field, nat>, raw: seq<string>)
    ensures var name, category, price := Cell(raw, columns, NameField), Cell(raw, columns, CategoryField), Cell(raw, columns, PriceField);
            Acceptable(ctx, columns, raw) <==>
            && name != "" && CountNamed(ctx.reading, ctx.products, Normalize(ctx.reading, name)) <= 1
            && (category == "" || exists id :: Denotes(ctx, category, id))
            && (price == "" || exists x :: ctx.reading.parseFloat(price) == Some(x) && 0.0 <= x)
    ensures Acceptable(ctx, columns, raw) ==>
              var row, category, price := RowOf(ctx, columns, raw), Cell(raw, columns, CategoryField), Cell(raw, columns, PriceField);
              var description, image := Cell(raw, columns, DescriptionField), Cell(raw, columns, ImageField);
              && row.name == Cell(raw, columns, NameField)
              && (if category == "" then row.category == None else row.category.Some? && Denotes(ctx, category, row.category.value))
              && (if price == "" then row.price == None && !row.active
                  else row.price.Some? && row.active
                       && exists x :: ctx.reading.parseFloat(price) == Some(x) && row.price.value as real <= x < row.price.value as real + 1.0)
              && row.description == (if description == "" then None else Some(description))
              && row.image == (if image == "" then None else Some(image))
  {
    hide CountNamed, Cell, Normalize, ResolveCategory, Denotes;
    var category, price := Cell(raw, columns, CategoryField), Cell(raw, columns, PriceField);
    ResolvesWhatItDenotes(ctx, category);
    if price != "" && ctx.reading.parseFloat(price).Some? {
      var x := ctx.reading.parseFloat(price).value;
      assert ctx.reading.parseFloat(price) == Some(x);
      assert x.Floor as real <= x < x.Floor as real + 1.0;
    }
  }

  /** Every data row ends up in exactly one of the two results, under its own row number. */
  lemma {:induction false} EveryRowOnce(verdicts: seq<Verdict>, num: nat)
    ensures |Accepted(verdicts)| + |Rejected(verdicts)| == |verdicts|
    ensures forall s :: s in Rejected(verdicts) ==>
              2 <= s.rowNum < |verdicts| + 2 && verdicts[s.rowNum - 2] == Reject(s.name, s.reason)
    ensures (exists s :: s in Rejected(verdicts) && s.rowNum == num) <==>
            2 <= num < |verdicts| + 2 && verdicts[num - 2].Reject?
    ensures forall i, j :: 0 <= i < j < |Rejected(verdicts)| ==> Rejected(verdicts)[i].rowNum < Rejected(verdicts)[j].rowNum
  {
    if verdicts != [] {
      var n := |verdicts| - 1;
      var before := Rejected(verdicts[..n]);
      EveryRowOnce(verdicts[..n], num);
      var all := Rejected(verdicts);
      if verdicts[n].Reject? {
        var last := SkippedRow(n + 2, verdicts[n].name, verdicts[n].reason);
        assert all == before + [last] && last in all;
        forall i, j | 0 <= i < j < |all| ensures all[i].rowNum < all[j].rowNum {
          assert before[i] in before;
        }
      } else {
        assert all == before;
      }
    }
  }

  /** Rows as the validator hands them to the writer: names trimmed, at most one product of each normalised
      name, no two rows of the same one. */
  ghost predicate ValidRows(reading: Reading, products: seq<Product>, rows: seq<ProductRow>) {
    && (forall r :: r in rows ==> RowValid(reading, products, r))
    && (forall i, j :: 0 <= i < j < |rows| ==> Normalize(reading, rows[i].name) != Normalize(reading, rows[j].name))
  }

  ghost predicate RowValid(reading: Reading, products: seq<Product>, r: ProductRow) {
    && Trimmed(r.name)
    && CountNamed(reading, products, Normalize(reading, r.name)) <= 1
    && (r.price.Some? ==> 0 <= r.price.value)
    && (r.active <==> r.price.Some?)
  }

  lemma RowIsValid(ctx: Context, columns: map<Field, nat>, raw: seq<string>)
    requires Acceptable(ctx, columns, raw)
    ensures RowValid(ctx.reading, ctx.products, RowOf(ctx, columns, raw))
  {
    hide CountNamed;
    var name := Cell(raw, columns, NameField);
    CellTrimmed(raw, columns, NameField);
  }

  lemma CellTrimmed(row: seq<string>, columns: map<Field, nat>, field: Field)
    ensures Cell(row, columns, field) == "" || Trimmed(Cell(row, columns, field))
  {
    StripTrims(if field in columns && columns[field] < |row| then row[columns[field]] else "");
  }

  lemma OneMoreValid(reading: Reading, products: seq<Product>, rows: seq<ProductRow>, taken: set<string>, row: ProductRow)
    requires ValidRows(reading, products, rows) && RowValid(reading, products, row)
    requires (forall r :: r in rows ==> Normalize(reading, r.name) in taken) && Normalize(reading, row.name) !in taken
    ensures ValidRows(reading, products, rows + [row])
  {
    hide RowValid, Normalize;
    forall i | 0 <= i < |rows| ensures Normalize(reading, rows[i].name) != Normalize(reading, row.name) {
      assert rows[i] in rows;
    }
  }

  lemma {:induction false} AcceptedRowsAreValid(ctx: Context, columns: map<Field, nat>, data: seq<seq<string>>)
    ensures var verdicts := Verdicts(ctx, columns, data);
            && ValidRows(ctx.reading, ctx.products, Accepted(verdicts))
            && (forall r :: r in Accepted(verdicts) ==> Normalize(ctx.reading, r.name) in Taken(ctx.reading, verdicts))
  {
    hide Judge, Acceptable, NormOf, RowValid, Normalize, ValidRows;
    if data == [] {
      NoVerdicts(ctx.reading);
      NoRowsAreValid(ctx.reading, ctx.products);
    } else {
      var n := |data| - 1;
      AcceptedRowsAreValid(ctx, columns, data[..n]);
      assert data[..n + 1] == data;
      OneMoreVerdict(ctx, columns, data, n);
      var taken := Taken(ctx.reading, Verdicts(ctx, columns, data[..n]));
      var verdict := Judge(ctx, columns, taken, data[n]);
      JudgeMeans(ctx, columns, taken, data[n]);
      NormOfRow(ctx, columns, taken, data[n]);
      if verdict.Accept? {
        RowIsValid(ctx, columns, data[n]);
        OneMoreValid(ctx.reading, ctx.products, Accepted(Verdicts(ctx, columns, data[..n])), taken, verdict.row);
      } else {
        assert Accepted(Verdicts(ctx, columns, data)) == Accepted(Verdicts(ctx, columns, data[..n]));
      }
    }
  }

  // ----- the writer ------------------------------------------------------------------------------------------

  /** Number of products the writer's lookup returns. */
  function CountLower(reading: Reading, products: seq<Product>, key: string): nat {
    if products == [] then 0
    else
      CountLower(reading, products[..|products| - 1], key)
      + if reading.lower(products[|products| - 1].name) == key then 1 else 0
  }

  /** Position of the first match, or the table's length. */
  function IndexOf(reading: Reading, products: seq<Product>, key: string): (i: nat)
    ensures i <= |products|
    ensures i < |products| ==> reading.lower(products[i].name) == key
    ensures forall j :: 0 <= j < i ==> reading.lower(products[j].name) != key
  {
    if products == [] then 0
    else if reading.lower(products[0].name) == key then 0
    else 1 + IndexOf(reading, products[1..], key)
  }

  /** The UPDATE: name and sku stay. */
  function Fill(p: Product, row: ProductRow): Product {
    p.(category := row.category, price := row.price, description := row.description, image := row.image, active := row.active)
  }

  function NewProduct(row: ProductRow): Product {
    Product(row.name, row.category, row.price, row.description, row.image, row.active, None)
  }

  function Upsert(reading: Reading, products: seq<Product>, row: ProductRow): seq<Product> {
    var key := reading.lower(row.name);
    var i := IndexOf(reading, products, key);
    if CountLower(reading, products, key) > 1 then products
    else if i < |products| then products[i := Fill(products[i], row)]
    else products + [NewProduct(row)]
  }

  function Upserted(reading: Reading, products: seq<Product>, rows: seq<ProductRow>): seq<Product> {
    if rows == [] then products
    else Upsert(reading, Upserted(reading, products, rows[..|rows| - 1]), rows[|rows| - 1])
  }

  /** Names the writer refuses because several products match. */
  function WriteSkipped(reading: Reading, products: seq<Product>, rows: seq<ProductRow>): seq<string> {
    if rows == [] then []
    else
      var n := |rows| - 1;
      WriteSkipped(reading, products, rows[..n])
      + if CountLower(reading, Upserted(reading, products, rows[..n]), reading.lower(rows[n].name)) > 1 then [rows[n].name] else []
  }

  lemma NoRowsYet(reading: Reading, products: seq<Product>, rows: seq<ProductRow>)
    ensures Upserted(reading, products, rows[..0]) == products && WriteSkipped(reading, products, rows[..0]) == []
  {
  }

  lemma OneMoreRow(reading: Reading, products: seq<Product>, rows: seq<ProductRow>, k: nat)
    requires k < |rows|
    ensures var before := Upserted(reading, products, rows[..k]);
            && Upserted(reading, products, rows[..k + 1]) == Upsert(reading, before, rows[k])
            && WriteSkipped(reading, products, rows[..k + 1]) ==
               WriteSkipped(reading, products, rows[..k])
               + if CountLower(reading, before, reading.lower(rows[k].name)) > 1 then [rows[k].name] else []
  {
    assert rows[..k + 1][..k] == rows[..k];
  }

  predicate PriceFits(row: ProductRow) {
    row.price.Some? ==> FitsInteger(row.price.value)
  }

  /** Row k reaches its statement, and its price does not fit the column. */
  predicate Overflows(reading: Reading, products: seq<Product>, rows: seq<ProductRow>, k: nat)
    requires k < |rows|
  {
    CountLower(reading, Upserted(reading, products, rows[..k]), reading.lower(rows[k].name)) <= 1 && !PriceFits(rows[k])
  }

  lemma {:induction false} IndexIsMatch(reading: Reading, products: seq<Product>, key: string)
    ensures CountLower(reading, products, key) == 0 <==> IndexOf(reading, products, key) == |products|
  {
    if products != [] {
      var n := |products| - 1;
      IndexIsMatch(reading, products[..n], key);
      var i, j := IndexOf(reading, products, key), IndexOf(reading, products[..n], key);
      if j < n {
        assert products[..n][j] == products[j];
        assert i <= j;
      } else {
        forall k | 0 <= k < n ensures reading.lower(products[k].name) != key {
          assert products[..n][k] == products[k];
        }
      }
    }
  }

  class MenuTable {
    var products: seq<Product>

    constructor (initial: seq<Product>)
      ensures products == initial
    {
      products := initial;
    }

    /** apply_menu_import: the first row whose price the column does not hold makes its statement fail. */
    method ApplyMenuImport(reading: Reading, rows: seq<ProductRow>) returns (outcome: Outcome<nat>, writeSkipped: seq<string>)
      modifies this
      ensures outcome.Raise? <==> exists k :: 0 <= k < |rows| && Overflows(reading, old(products), rows, k)
      ensures outcome.Ok? ==> products == Upserted(reading, old(products), rows)
      ensures outcome.Ok? ==> writeSkipped == WriteSkipped(reading, old(products), rows)
      ensures outcome.Ok? ==> outcome.result + |writeSkipped| == |rows|
    {
      hide CountLower, PriceFits, Upserted, WriteSkipped;
      NoRowsYet(reading, products, rows);
      var imported := 0;
      writeSkipped := [];
      for k := 0 to |rows|
        invariant products == Upserted(reading, old(products), rows[..k])
        invariant writeSkipped == WriteSkipped(reading, old(products), rows[..k])
        invariant imported + |writeSkipped| == k
        invariant forall j :: 0 <= j < k ==> !Overflows(reading, old(products), rows, j)
      {
        OneMoreRow(reading, old(products), rows, k);
        var row := rows[k];
        var key := reading.lower(row.name);
        var matches := CountLower(reading, products, key);
        IndexIsMatch(reading, products, key);
        if matches > 1 {
          writeSkipped := writeSkipped + [row.name];
        } else {
          if !PriceFits(row) {
            assert Overflows(reading, old(products), rows, k);
            return Raise("integer out of range"), writeSkipped;
          }
          if matches == 0 {
            products := products + [Product(row.name, row.category, row.price, row.description, row.image, row.active, None)];
          } else {
            var i := IndexOf(reading, products, key);
            products := products[i := products[i].(category := row.category, price := row.price, description := row.description,
                                                   image := row.image, active := row.active)];
          }
          imported := imported + 1;
        }
      }
      assert rows[..|rows|] == rows;
      return Ok(imported), writeSkipped;
    }

    /** MenuImportService.import_csv: validate against the current table, write, and keep everything or roll
        everything back. */
    method ImportCsv(reading: Reading, categories: seq<Category>, grid: seq<seq<string>>)
      returns (success: bool, imported: nat, skipped: seq<SkippedRow>, writeSkipped: seq<string>)
      modifies this
      ensures var accepted := AcceptedOf(reading, categories, old(products), grid);
              && (success <==> forall r :: r in accepted ==> PriceFits(r))
              && |accepted| + |skipped| == (if grid == [] then 0 else |grid| - 1)
              && imported == (if success then |accepted| else 0)
      ensures products == Imported(reading, categories, old(products), grid)
      ensures success ==> Reflects(reading, old(products), products, AcceptedOf(reading, categories, old(products), grid))
      ensures !success ==> products == old(products)
      ensures writeSkipped == []
    {
      hide Overflows, WriteSkipped, Upserted, Verdicts, Columns, PriceFits, ValidRows, Reflects;
      var before := products;
      var ctx := Context(reading, categories, products);
      var valid;
      valid, skipped := MenuImport.ParseAndValidate(ctx, grid);
      if grid != [] {
        var verdicts := Verdicts(ctx, Columns(reading, grid[0]), grid[1..]);
        EveryRowOnce(verdicts, 0);
        AcceptedRowsAreValid(ctx, Columns(reading, grid[0]), grid[1..]);
      }
      NoRowsAreValid(reading, products);
      NothingWriteSkipped(reading, products, valid);
      ImportReflects(reading, products, valid);
      OverflowIsMisfit(reading, products, valid);
      var outcome;
      outcome, writeSkipped := ApplyMenuImport(reading, valid);
      if outcome.Raise? {
        products := before;
        return false, 0, skipped, [];
      }
      return true, outcome.result, skipped, writeSkipped;
    }
  }

  /** The rows the validator accepts from a file. */
  function AcceptedOf(reading: Reading, categories: seq<Category>, products: seq<Product>, grid: seq<seq<string>>): seq<ProductRow> {
    if grid == [] then []
    else Accepted(Verdicts(Context(reading, categories, products), Columns(reading, grid[0]), grid[1..]))
  }

  /** All rows or none: one price that the column does not hold undoes the whole import. */
  function Imported(reading: Reading, categories: seq<Category>, products: seq<Product>, grid: seq<seq<string>>): seq<Product> {
    var accepted := AcceptedOf(reading, categories, products, grid);
    if forall r :: r in accepted ==> PriceFits(r) then Upserted(reading, products, accepted) else products
  }

  lemma NoRowsAreValid(reading: Reading, products: seq<Product>)
    ensures ValidRows(reading, products, [])
  {
  }

  lemma OverflowIsMisfit(reading: Reading, products: seq<Product>, rows: seq<ProductRow>)
    requires ValidRows(reading, products, rows)
    ensures (exists k :: 0 <= k < |rows| && Overflows(reading, products, rows, k)) <==> exists r :: r in rows && !PriceFits(r)
  {
    hide ValidRows, PriceFits, CountLower, Upserted;
    forall k | 0 <= k < |rows| ensures Overflows(reading, products, rows, k) <==> !PriceFits(rows[k]) {
      WriterFindsAtMostOne(reading, products, rows, k);
    }
    if r :| r in rows && !PriceFits(r) {
      var k :| 0 <= k < |rows| && rows[k] == r;
      assert Overflows(reading, products, rows, k);
    }
  }

  // ----- counting matches ------------------------------------------------------------------------------------

  /** The writer's match is finer than the validator's. */
  lemma {:induction false} LowerWithinNorm(reading: Reading, products: seq<Product>, name: string)
    ensures CountLower(reading, products, reading.lower(name)) <= CountNamed(reading, products, Normalize(reading, name))
  {
    if products != [] {
      LowerWithinNorm(reading, products[..|products| - 1], name);
    }
  }

  lemma {:induction false} CountUpdated(reading: Reading, products: seq<Product>, i: nat, row: ProductRow, key: string, norm: string)
    requires i < |products|
    ensures CountLower(reading, products[i := Fill(products[i], row)], key) == CountLower(reading, products, key)
    ensures CountNamed(reading, products[i := Fill(products[i], row)], norm) == CountNamed(reading, products, norm)
  {
    hide Normalize;
    var n := |products| - 1;
    var all := products[i := Fill(products[i], row)];
    if i < n {
      CountUpdated(reading, products[..n], i, row, key, norm);
      assert all[..n] == products[..n][i := Fill(products[i], row)];
    } else {
      assert all[..n] == products[..n];
    }
  }

  lemma CountAppended(reading: Reading, products: seq<Product>, row: ProductRow, key: string, norm: string)
    ensures CountLower(reading, products + [NewProduct(row)], key) ==
            CountLower(reading, products, key) + if reading.lower(row.name) == key then 1 else 0
    ensures CountNamed(reading, products + [NewProduct(row)], norm) ==
            CountNamed(reading, products, norm) + if Normalize(reading, row.name) == norm then 1 else 0
  {
    assert (products + [NewProduct(row)])[..|products|] == products;
  }

  /** An upsert only adds to the counts of its own name. */
  lemma UpsertCounts(reading: Reading, products: seq<Product>, row: ProductRow, key: string, norm: string)
    ensures reading.lower(row.name) != key ==> CountLower(reading, Upsert(reading, products, row), key) == CountLower(reading, products, key)
    ensures Normalize(reading, row.name) != norm ==>
              CountNamed(reading, Upsert(reading, products, row), norm) == CountNamed(reading, products, norm)
    ensures CountNamed(reading, Upsert(reading, products, row), norm) >= CountNamed(reading, products, norm)
    ensures CountLower(reading, products, reading.lower(row.name)) <= 1 ==>
              CountLower(reading, Upsert(reading, products, row), reading.lower(row.name)) == 1
  {
    hide CountLower, CountNamed, Fill, NewProduct, Normalize;
    var mine := reading.lower(row.name);
    var i := IndexOf(reading, products, mine);
    IndexIsMatch(reading, products, mine);
    if CountLower(reading, products, mine) <= 1 {
      if i < |products| {
        CountUpdated(reading, products, i, row, key, norm);
        CountUpdated(reading, products, i, row, mine, norm);
      } else {
        CountAppended(reading, products, row, key, norm);
        CountAppended(reading, products, row, mine, norm);
      }
    }
  }

  lemma {:induction false} CountsBefore(reading: Reading, products: seq<Product>, rows: seq<ProductRow>, name: string)
    requires forall r :: r in rows ==> Normalize(reading, r.name) != Normalize(reading, name)
    ensures CountLower(reading, Upserted(reading, products, rows), reading.lower(name)) == CountLower(reading, products, reading.lower(name))
  {
    hide CountLower, CountNamed, Upsert;
    if rows != [] {
      var n := |rows| - 1;
      CountsBefore(reading, products, rows[..n], name);
      assert rows[n] in rows;
      UpsertCounts(reading, Upserted(reading, products, rows[..n]), rows[n], reading.lower(name), Normalize(reading, name));
    }
  }

  lemma ValidPrefix(reading: Reading, products: seq<Product>, rows: seq<ProductRow>, n: nat)
    requires ValidRows(reading, products, rows) && n <= |rows|
    ensures ValidRows(reading, products, rows[..n])
    ensures n < |rows| ==> forall r :: r in rows[..n] ==> Normalize(reading, r.name) != Normalize(reading, rows[n].name)
  {
    hide RowValid, Normalize;
  }

  lemma WriterFindsAtMostOne(reading: Reading, products: seq<Product>, rows: seq<ProductRow>, n: nat)
    requires ValidRows(reading, products, rows) && n < |rows|
    ensures CountLower(reading, Upserted(reading, products, rows[..n]), reading.lower(rows[n].name)) <= 1
  {
    hide CountLower, CountNamed, Upserted;
    ValidPrefix(reading, products, rows, n);
    CountsBefore(reading, products, rows[..n], rows[n].name);
    LowerWithinNorm(reading, products, rows[n].name);
    assert rows[n] in rows;
    assert RowValid(reading, products, rows[n]);
  }

  /** Without concurrent writers nothing the validator accepted is refused at write time. */
  lemma {:induction false} NothingWriteSkipped(reading: Reading, products: seq<Product>, rows: seq<ProductRow>)
    requires ValidRows(reading, products, rows)
    ensures WriteSkipped(reading, products, rows) == []
  {
    hide CountLower, Upserted, ValidRows;
    if rows != [] {
      var n := |rows| - 1;
      ValidPrefix(reading, products, rows, n);
      NothingWriteSkipped(reading, products, rows[..n]);
      WriterFindsAtMostOne(reading, products, rows, n);
    }
  }

  // ----- what an import leaves in the table ----------------------------------------------------------------------

  lemma {:induction false} MatchCounted(reading: Reading, products: seq<Product>, key: string, i: nat)
    requires i < |products| && reading.lower(products[i].name) == key
    ensures CountLower(reading, products, key) >= 1
  {
    if i < |products| - 1 {
      MatchCounted(reading, products[..|products| - 1], key, i);
    }
  }

  lemma {:induction false} OnlyMatch(reading: Reading, products: seq<Product>, key: string, i: nat, j: nat)
    requires i < j < |products| && reading.lower(products[i].name) == key == reading.lower(products[j].name)
    ensures CountLower(reading, products, key) >= 2
  {
    var n := |products| - 1;
    if j < n {
      OnlyMatch(reading, products[..n], key, i, j);
    } else {
      MatchCounted(reading, products[..n], key, i);
    }
  }

  lemma DifferentLower(reading: Reading, products: seq<Product>, rows: seq<ProductRow>, i: nat, j: nat)
    requires ValidRows(reading, products, rows) && i < j < |rows|
    ensures reading.lower(rows[i].name) != reading.lower(rows[j].name)
  {
    hide RowValid;
    assert Normalize(reading, rows[i].name) != Normalize(reading, rows[j].name);
  }

  /** Product i, and no other, is named by the row and holds its values; a product that was there keeps its name
      and sku, a new one has the row's name and no sku. */
  ghost predicate Written(reading: Reading, before: seq<Product>, after: seq<Product>, i: nat, row: ProductRow)
    requires i < |after|
  {
    var p := after[i];
    && reading.lower(p.name) == reading.lower(row.name)
    && p.category == row.category && p.price == row.price && p.active == row.active
    && p.description == row.description && p.image == row.image
    && (if i < |before| then p.name == before[i].name && p.sku == before[i].sku else p.name == row.name && p.sku == None)
    && forall j :: 0 <= j < |after| && j != i ==> reading.lower(after[j].name) != reading.lower(row.name)
  }

  /** Some row names the product. */
  predicate NamedBy(reading: Reading, p: Product, rows: seq<ProductRow>) {
    exists k :: 0 <= k < |rows| && reading.lower(rows[k].name) == reading.lower(p.name)
  }

  ghost predicate RowWritten(reading: Reading, before: seq<Product>, after: seq<Product>, row: ProductRow) {
    exists i :: 0 <= i < |after| && Written(reading, before, after, i, row)
  }

  ghost predicate NamesKept(before: seq<Product>, after: seq<Product>) {
    |before| <= |after| && forall i :: 0 <= i < |before| ==> after[i].name == before[i].name && after[i].sku == before[i].sku
  }

  /** Products that no row names are as they were, and every new product is named by a row. */
  ghost predicate OthersKept(reading: Reading, before: seq<Product>, after: seq<Product>, rows: seq<ProductRow>)
    requires |before| <= |after|
  {
    forall i :: 0 <= i < |after| && !NamedBy(reading, after[i], rows) ==> i < |before| && after[i] == before[i]
  }

  /** Every row is written to exactly one product, and nothing else changes. */
  ghost predicate Reflects(reading: Reading, before: seq<Product>, after: seq<Product>, rows: seq<ProductRow>) {
    && NamesKept(before, after)
    && OthersKept(reading, before, after, rows)
    && forall k :: 0 <= k < |rows| ==> RowWritten(reading, before, after, rows[k])
  }

  lemma NothingReflected(reading: Reading, products: seq<Product>)
    ensures Reflects(reading, products, products, [])
  {
  }

  /** No new product has the row's name yet, and at most one product has it. */
  ghost predicate Free(reading: Reading, before: seq<Product>, now: seq<Product>, row: ProductRow) {
    && NamesKept(before, now)
    && CountLower(reading, now, reading.lower(row.name)) <= 1
    && forall i :: |before| <= i < |now| ==> reading.lower(now[i].name) != reading.lower(row.name)
  }

  /** One upsert. */
  lemma UpsertWrites(reading: Reading, before: seq<Product>, now: seq<Product>, row: ProductRow)
    requires Free(reading, before, now, row)
    ensures var after := Upsert(reading, now, row);
            var i := IndexOf(reading, now, reading.lower(row.name));
            && NamesKept(before, after)
            && |now| <= |after| <= |now| + 1 && i < |after| && (|after| == |now| + 1 ==> i == |now|)
            && Written(reading, before, after, i, row)
            && forall j :: 0 <= j < |now| && j != i ==> after[j] == now[j]
  {
    hide CountLower;
    var key := reading.lower(row.name);
    var i := IndexOf(reading, now, key);
    forall j | 0 <= j < |now| && j != i ensures reading.lower(now[j].name) != key {
      if i < j && reading.lower(now[j].name) == key {
        OnlyMatch(reading, now, key, i, j);
      }
    }
  }

  lemma WrittenStays(reading: Reading, before: seq<Product>, now: seq<Product>, row: ProductRow, other: ProductRow)
    requires Free(reading, before, now, row)
    requires RowWritten(reading, before, now, other) && reading.lower(other.name) != reading.lower(row.name)
    ensures RowWritten(reading, before, Upsert(reading, now, row), other)
  {
    hide CountLower, Upsert;
    UpsertWrites(reading, before, now, row);
    var after := Upsert(reading, now, row);
    var i :| 0 <= i < |now| && Written(reading, before, now, i, other);
    var at := IndexOf(reading, now, reading.lower(row.name));
    assert i != at;
    forall j | 0 <= j < |after| && j != i ensures reading.lower(after[j].name) != reading.lower(other.name) {
      assert j == at ==> reading.lower(after[j].name) == reading.lower(row.name);
    }
    assert Written(reading, before, after, i, other);
  }

  lemma OthersStay(reading: Reading, before: seq<Product>, now: seq<Product>, rows: seq<ProductRow>)
    requires rows != [] && Free(reading, before, now, rows[|rows| - 1])
    requires OthersKept(reading, before, now, rows[..|rows| - 1])
    ensures var after := Upsert(reading, now, rows[|rows| - 1]);
            NamesKept(before, after) && OthersKept(reading, before, after, rows)
  {
    hide CountLower, Upsert;
    var n := |rows| - 1;
    var row, after := rows[n], Upsert(reading, now, rows[n]);
    UpsertWrites(reading, before, now, row);
    var at := IndexOf(reading, now, reading.lower(row.name));
    forall i | 0 <= i < |after| && !NamedBy(reading, after[i], rows) ensures i < |before| && after[i] == before[i] {
      NamedByMore(reading, after[i], rows);
      assert i != at;
    }
  }

  /** What importing validated rows leaves in the table, product by product and field by field. */
  lemma {:induction false} ImportReflects(reading: Reading, products: seq<Product>, rows: seq<ProductRow>)
    requires ValidRows(reading, products, rows)
    ensures Reflects(reading, products, Upserted(reading, products, rows), rows)
  {
    hide ValidRows, CountLower, Upsert, Normalize, RowWritten, NamesKept, OthersKept;
    if rows == [] {
      NothingReflected(reading, products);
    } else {
      var n := |rows| - 1;
      ValidPrefix(reading, products, rows, n);
      ImportReflects(reading, products, rows[..n]);
      var now, row := Upserted(reading, products, rows[..n]), rows[n];
      NameIsFree(reading, products, rows);
      OthersStay(reading, products, now, rows);
      var after := Upsert(reading, now, row);
      forall k | 0 <= k < n ensures RowWritten(reading, products, after, rows[k]) {
        assert RowWritten(reading, products, now, rows[..n][k]);
        DifferentLower(reading, products, rows, k, n);
        WrittenStays(reading, products, now, row, rows[k]);
      }
      assert RowWritten(reading, products, after, row) by { ThisRowWritten(reading, products, now, row); }
    }
  }

  lemma ThisRowWritten(reading: Reading, before: seq<Product>, now: seq<Product>, row: ProductRow)
    requires Free(reading, before, now, row)
    ensures RowWritten(reading, before, Upsert(reading, now, row), row)
  {
    hide Free, Written, Upsert;
    UpsertWrites(reading, before, now, row);
  }

  /** The name of the last row is still free when its turn comes. */
  lemma NameIsFree(reading: Reading, products: seq<Product>, rows: seq<ProductRow>)
    requires ValidRows(reading, products, rows) && rows != []
    requires Reflects(reading, products, Upserted(reading, products, rows[..|rows| - 1]), rows[..|rows| - 1])
    ensures Free(reading, products, Upserted(reading, products, rows[..|rows| - 1]), rows[|rows| - 1])
  {
    hide ValidRows, CountLower, Upserted, RowWritten;
    var n := |rows| - 1;
    var now := Upserted(reading, products, rows[..n]);
    WriterFindsAtMostOne(reading, products, rows, n);
    forall i | |products| <= i < |now| ensures reading.lower(now[i].name) != reading.lower(rows[n].name) {
      assert NamedBy(reading, now[i], rows[..n]);
      var k :| 0 <= k < n && reading.lower(rows[..n][k].name) == reading.lower(now[i].name);
      DifferentLower(reading, products, rows, k, n);
    }
  }

  lemma NamedByMore(reading: Reading, p: Product, rows: seq<ProductRow>)
    requires rows != []
    ensures NamedBy(reading, p, rows) <==>
            NamedBy(reading, p, rows[..|rows| - 1]) || reading.lower(rows[|rows| - 1].name) == reading.lower(p.name)
  {
    if NamedBy(reading, p, rows[..|rows| - 1]) {
      var k :| 0 <= k < |rows| - 1 && reading.lower(rows[..|rows| - 1][k].name) == reading.lower(p.name);
      assert rows[k] == rows[..|rows| - 1][k];
    }
    if NamedBy(reading, p, rows) {
      var k :| 0 <= k < |rows| && reading.lower(rows[k].name) == reading.lower(p.name);
      assert k < |rows| - 1 ==> rows[k] == rows[..|rows| - 1][k];
    }
  }
}
