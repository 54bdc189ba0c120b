/** Importing a file twice is importing it once, and the order of its rows does not matter. */
module MenuTheorems {
  import opened Wrappers
  import opened MenuImport
  import opened MenuUpsert

  // ----- a second import of the same file ----------------------------------------------------------------------

  /** Some product of the row's name already holds the row's values. */
  ghost predicate Settled(reading: Reading, products: seq<Product>, row: ProductRow) {
    exists i :: 0 <= i < |products| && Holds(reading, products[i], row)
  }

  predicate Holds(reading: Reading, p: Product, row: ProductRow) {
    reading.lower(p.name) == reading.lower(row.name) && Fill(p, row) == p
  }

  lemma UpsertSettles(reading: Reading, products: seq<Product>, row: ProductRow)
    requires CountLower(reading, products, reading.lower(row.name)) <= 1
    ensures Settled(reading, Upsert(reading, products, row), row)
  {
    hide CountLower;
    var i := IndexOf(reading, products, reading.lower(row.name));
    assert Holds(reading, Upsert(reading, products, row)[i], row);
  }

  lemma SettledStays(reading: Reading, products: seq<Product>, row: ProductRow, other: ProductRow)
    requires Settled(reading, products, row) && reading.lower(row.name) != reading.lower(other.name)
    ensures Settled(reading, Upsert(reading, products, other), row)
  {
    hide CountLower;
    var i :| 0 <= i < |products| && Holds(reading, products[i], row);
    assert Upsert(reading, products, other)[i] == products[i];
  }

  lemma UpsertAgain(reading: Reading, products: seq<Product>, row: ProductRow)
    requires Settled(reading, products, row)
    ensures Upsert(reading, products, row) == products
  {
    var key := reading.lower(row.name);
    var i :| 0 <= i < |products| && Holds(reading, products[i], row);
    var first := IndexOf(reading, products, key);
    if first < i {
      OnlyMatch(reading, products, key, first, i);
    }
  }

  /** After an import every accepted row is settled. */
  lemma {:induction false} ImportSettles(reading: Reading, products: seq<Product>, rows: seq<ProductRow>, k: nat)
    requires ValidRows(reading, products, rows) && k < |rows|
    ensures Settled(reading, Upserted(reading, products, rows), rows[k])
  {
    hide ValidRows, CountLower, Settled, Upsert, Normalize;
    var n := |rows| - 1;
    ValidPrefix(reading, products, rows, n);
    var before := Upserted(reading, products, rows[..n]);
    if k < n {
      ImportSettles(reading, products, rows[..n], k);
      assert rows[k] == rows[..n][k];
      DifferentLower(reading, products, rows, k, n);
      SettledStays(reading, before, rows[k], rows[n]);
    } else {
      WriterFindsAtMostOne(reading, products, rows, n);
      UpsertSettles(reading, before, rows[n]);
    }
  }

  lemma {:induction false} SettledRowsChangeNothing(reading: Reading, products: seq<Product>, rows: seq<ProductRow>)
    requires forall r :: r in rows ==> Settled(reading, products, r)
    ensures Upserted(reading, products, rows) == products
  {
    hide Settled, Upsert;
    if rows != [] {
      var n := |rows| - 1;
      SettledRowsChangeNothing(reading, products, rows[..n]);
      assert rows[n] in rows;
      UpsertAgain(reading, products, rows[n]);
    }
  }

  lemma {:induction false} CountsOnlyGrow(reading: Reading, products: seq<Product>, rows: seq<ProductRow>, norm: string)
    ensures CountNamed(reading, products, norm) <= CountNamed(reading, Upserted(reading, products, rows), norm)
  {
    hide CountNamed, Upsert;
    if rows != [] {
      var n := |rows| - 1;
      CountsOnlyGrow(reading, products, rows[..n], norm);
      UpsertCounts(reading, Upserted(reading, products, rows[..n]), rows[n], "", norm);
    }
  }

  lemma {:induction false} AcceptedMember(verdicts: seq<Verdict>, r: ProductRow)
    ensures r in Accepted(verdicts) <==> exists k :: 0 <= k < |verdicts| && verdicts[k] == Accept(r)
  {
    if verdicts != [] {
      var n := |verdicts| - 1;
      AcceptedMember(verdicts[..n], r);
      forall k | 0 <= k < n ensures verdicts[..n][k] == verdicts[k] {
      }
    }
  }

  /** With more products in the table fewer rows are accepted, never others: an accepted row of the second
      import was accepted in the first. */
  lemma AcceptedAgain(one: Context, two: Context, columns: map<Field, nat>, data: seq<seq<string>>, r: ProductRow)
    requires two.reading == one.reading && two.categories == one.categories
    requires forall norm :: CountNamed(one.reading, one.products, norm) <= CountNamed(two.reading, two.products, norm)
    requires r in Accepted(Verdicts(two, columns, data))
    ensures r in Accepted(Verdicts(one, columns, data))
  {
    hide CountNamed, Verdicts, Cell, CategoryOk, PriceOk, Normalize, ResolveCategory;
    AcceptedMember(Verdicts(two, columns, data), r);
    var k :| 0 <= k < |data| && Verdicts(two, columns, data)[k] == Accept(r);
    AcceptedIffFirst(two, columns, data, k);
    AcceptableInBoth(one, two, columns, data[k]);
    forall j | 0 <= j < k && Acceptable(one, columns, data[j])
      ensures NormOf(one, columns, data[j]) != NormOf(one, columns, data[k])
    {
      if NormOf(one, columns, data[j]) == NormOf(one, columns, data[k]) {
        AcceptableToo(one, two, columns, data[j], data[k]);
      }
    }
    AcceptedIffFirst(one, columns, data, k);
    AcceptedMember(Verdicts(one, columns, data), r);
  }

  lemma AcceptableInBoth(one: Context, two: Context, columns: map<Field, nat>, raw: seq<string>)
    requires two.reading == one.reading && two.categories == one.categories
    requires forall norm :: CountNamed(one.reading, one.products, norm) <= CountNamed(two.reading, two.products, norm)
    requires Acceptable(two, columns, raw)
    ensures Acceptable(one, columns, raw) && RowOf(two, columns, raw) == RowOf(one, columns, raw)
    ensures NormOf(two, columns, raw) == NormOf(one, columns, raw)
  {
    hide CountNamed, Cell, Normalize;
  }

  /** Acceptability depends on the table only through the count of the row's name. */
  lemma AcceptableToo(one: Context, two: Context, columns: map<Field, nat>, raw: seq<string>, other: seq<string>)
    requires two.reading == one.reading && two.categories == one.categories
    requires Acceptable(one, columns, raw) && Acceptable(two, columns, other)
    requires NormOf(one, columns, raw) == NormOf(one, columns, other)
    ensures Acceptable(two, columns, raw) && NormOf(two, columns, raw) == NormOf(two, columns, other)
  {
    hide CountNamed, Cell, Normalize;
  }

  /** Importing the same file twice leaves the product table exactly as importing it once, although the
      validator matches names without their white space and the writer only lower-cases them. */
  lemma ImportTwiceIsOnce(reading: Reading, categories: seq<Category>, products: seq<Product>, grid: seq<seq<string>>)
    ensures var once := Imported(reading, categories, products, grid);
            Imported(reading, categories, once, grid) == once
  {
    hide Verdicts, Upserted, Settled, ValidRows, Columns, PriceFits;
    var once := Imported(reading, categories, products, grid);
    var first := AcceptedOf(reading, categories, products, grid);
    var second := AcceptedOf(reading, categories, once, grid);
    if r :| r in first && !PriceFits(r) {
      return;
    }
    forall r | r in second ensures r in first && Settled(reading, once, r) {
      var one, two := Context(reading, categories, products), Context(reading, categories, once);
      var columns := Columns(reading, grid[0]);
      forall norm ensures CountNamed(reading, products, norm) <= CountNamed(reading, once, norm) {
        CountsOnlyGrow(reading, products, first, norm);
      }
      AcceptedAgain(one, two, columns, grid[1..], r);
      AcceptedRowsAreValid(one, columns, grid[1..]);
      var k :| 0 <= k < |first| && first[k] == r;
      ImportSettles(reading, products, first, k);
    }
    SettledRowsChangeNothing(reading, once, second);
  }

  // ----- the order of the rows -----------------------------------------------------------------------------------

  /** The row for this lower-cased name. */
  function RowFor(reading: Reading, rows: seq<ProductRow>, key: string): Option<ProductRow> {
    if rows == [] then None
    else if reading.lower(rows[|rows| - 1].name) == key then Some(rows[|rows| - 1])
    else RowFor(reading, rows[..|rows| - 1], key)
  }

  function FillFrom(reading: Reading, p: Product, rows: seq<ProductRow>): Product {
    match RowFor(reading, rows, reading.lower(p.name))
    case Some(row) => Product(p.name, row.category, row.price, row.description, row.image, row.active, p.sku)
    case None => p
  }

  /** The new products: rows whose name no product had. */
  function News(reading: Reading, products: seq<Product>, rows: seq<ProductRow>): seq<Product> {
    if rows == [] then []
    else
      var n := |rows| - 1;
      News(reading, products, rows[..n])
      + if CountLower(reading, products, reading.lower(rows[n].name)) == 0 then
          [Product(rows[n].name, rows[n].category, rows[n].price, rows[n].description, rows[n].image, rows[n].active, None)]
        else []
  }

  /** What an import does, position by position. */
  lemma {:induction false} UpsertedShape(reading: Reading, products: seq<Product>, rows: seq<ProductRow>)
    requires ValidRows(reading, products, rows)
    ensures var after := Upserted(reading, products, rows);
            && |after| == |products| + |News(reading, products, rows)|
            && after[|products|..] == News(reading, products, rows)
            && forall i :: 0 <= i < |products| ==> after[i] == FillFrom(reading, products[i], rows)
  {
    hide ValidRows, CountLower, Normalize, Upsert;
    if rows != [] {
      var n := |rows| - 1;
      ValidPrefix(reading, products, rows, n);
      UpsertedShape(reading, products, rows[..n]);
      var before, row := Upserted(reading, products, rows[..n]), rows[n];
      var key := reading.lower(row.name);
      WriterFindsAtMostOne(reading, products, rows, n);
      CountsBefore(reading, products, rows[..n], row.name);
      IndexIsMatch(reading, before, key);
      IndexIsMatch(reading, products, key);
      UpsertShape(reading, before, row);
      forall i | 0 <= i < |products| ensures reading.lower(before[i].name) == reading.lower(products[i].name) {
        FillKeepsName(reading, products[i], rows[..n]);
      }
      if IndexOf(reading, before, key) < |before| {
        FirstMatchIsOld(reading, products, before, key);
        var i := IndexOf(reading, before, key);
        NoRowYet(reading, rows[..n], row);
      } else {
        NoRowYet(reading, rows[..n], row);
        forall i | 0 <= i < |products| ensures reading.lower(products[i].name) != key {
          assert reading.lower(before[i].name) != key;
        }
      }
    }
  }

  lemma UpsertShape(reading: Reading, products: seq<Product>, row: ProductRow)
    requires CountLower(reading, products, reading.lower(row.name)) <= 1
    ensures var i := IndexOf(reading, products, reading.lower(row.name));
            Upsert(reading, products, row) ==
              if i < |products| then products[i := Fill(products[i], row)] else products + [NewProduct(row)]
    ensures forall i, j :: 0 <= i < j < |products| && reading.lower(products[i].name) == reading.lower(row.name) ==>
              reading.lower(products[j].name) != reading.lower(row.name)
  {
    forall i, j | 0 <= i < j < |products| && reading.lower(products[i].name) == reading.lower(row.name)
      ensures reading.lower(products[j].name) != reading.lower(row.name)
    {
      if reading.lower(products[j].name) == reading.lower(row.name) {
        OnlyMatch(reading, products, reading.lower(row.name), i, j);
      }
    }
  }

  lemma FillKeepsName(reading: Reading, p: Product, rows: seq<ProductRow>)
    ensures FillFrom(reading, p, rows).name == p.name
  {
  }

  /** A match in the table being built is one of the products that were there at the start. */
  lemma FirstMatchIsOld(reading: Reading, products: seq<Product>, before: seq<Product>, key: string)
    requires |products| <= |before| && IndexOf(reading, before, key) < |before|
    requires forall i :: 0 <= i < |products| ==> reading.lower(before[i].name) == reading.lower(products[i].name)
    requires CountLower(reading, before, key) == CountLower(reading, products, key)
    ensures IndexOf(reading, before, key) < |products| && CountLower(reading, products, key) > 0
  {
    hide CountLower;
    IndexIsMatch(reading, before, key);
    IndexIsMatch(reading, products, key);
    var i := IndexOf(reading, products, key);
    assert reading.lower(before[i].name) == key;
  }

  lemma {:induction false} NoRowYet(reading: Reading, rows: seq<ProductRow>, row: ProductRow)
    requires forall r :: r in rows ==> Normalize(reading, r.name) != Normalize(reading, row.name)
    ensures RowFor(reading, rows, reading.lower(row.name)) == None
  {
    hide WithoutSpaces;
    if rows != [] {
      assert rows[|rows| - 1] in rows;
      NoRowYet(reading, rows[..|rows| - 1], row);
    }
  }

  lemma {:induction false} RowForIsTheRow(reading: Reading, rows: seq<ProductRow>, k: nat)
    requires k < |rows|
    requires forall i, j :: 0 <= i < j < |rows| ==> reading.lower(rows[i].name) != reading.lower(rows[j].name)
    ensures RowFor(reading, rows, reading.lower(rows[k].name)) == Some(rows[k])
  {
    if k < |rows| - 1 {
      RowForIsTheRow(reading, rows[..|rows| - 1], k);
    }
  }

  lemma {:induction false} RowForMember(reading: Reading, rows: seq<ProductRow>, key: string)
    ensures match RowFor(reading, rows, key)
            case Some(r) => r in rows && reading.lower(r.name) == key
            case None => forall r :: r in rows ==> reading.lower(r.name) != key
  {
    if rows != [] {
      RowForMember(reading, rows[..|rows| - 1], key);
    }
  }

  lemma ValidPermuted(reading: Reading, products: seq<Product>, a: seq<ProductRow>, b: seq<ProductRow>)
    requires ValidRows(reading, products, a) && multiset(a) == multiset(b)
    ensures ValidRows(reading, products, b)
  {
    hide RowValid, Normalize;
    forall r | r in b ensures r in a {
      assert r in multiset(b);
    }
    forall i, j | 0 <= i < j < |b| ensures Normalize(reading, b[i].name) != Normalize(reading, b[j].name) {
      if b[i] == b[j] {
        Twice(b, i, j);
        OnceOnly(reading, a, b[i]);
      } else {
        var x :| 0 <= x < |a| && a[x] == b[i];
        var y :| 0 <= y < |a| && a[y] == b[j];
        assert x < y || y < x;
      }
    }
  }

  lemma Twice<T>(s: seq<T>, i: nat, j: nat)
    requires i < j < |s| && s[i] == s[j]
    ensures multiset(s)[s[i]] >= 2
  {
    assert s == s[..i] + [s[i]] + s[i + 1..j] + [s[j]] + s[j + 1..];
  }

  lemma {:induction false} OnceOnly(reading: Reading, a: seq<ProductRow>, r: ProductRow)
    requires forall i, j :: 0 <= i < j < |a| ==> Normalize(reading, a[i].name) != Normalize(reading, a[j].name)
    ensures multiset(a)[r] <= 1
  {
    hide Normalize;
    if a != [] {
      var n := |a| - 1;
      OnceOnly(reading, a[..n], r);
      assert a == a[..n] + [a[n]];
      assert forall k :: 0 <= k < n ==> Normalize(reading, a[k].name) != Normalize(reading, a[n].name);
      assert a[n] !in a[..n];
    }
  }

  lemma {:induction false} NewsAppend(reading: Reading, products: seq<Product>, a: seq<ProductRow>, b: seq<ProductRow>)
    ensures News(reading, products, a + b) == News(reading, products, a) + News(reading, products, b)
  {
    hide CountLower, NewProduct;
    if b == [] {
      assert a + b == a;
    } else {
      assert (a + b)[..|a + b| - 1] == a + b[..|b| - 1];
      NewsAppend(reading, products, a, b[..|b| - 1]);
    }
  }

  lemma {:induction false} NewsPermuted(reading: Reading, products: seq<Product>, a: seq<ProductRow>, b: seq<ProductRow>)
    requires multiset(a) == multiset(b)
    ensures multiset(News(reading, products, a)) == multiset(News(reading, products, b))
    decreases |a|
  {
    hide News;
    if a == [] {
      assert multiset(b) == multiset{};
      assert b == [];
    } else {
      var n := |a| - 1;
      assert a == a[..n] + [a[n]];
      assert a[n] in multiset(b);
      var k :| 0 <= k < |b| && b[k] == a[n];
      var front, back := b[..k], b[k + 1..];
      assert b == front + [a[n]] + back;
      assert multiset(a[..n]) == multiset(a) - multiset{a[n]} == multiset(front + back);
      NewsPermuted(reading, products, a[..n], front + back);
      NewsAppend(reading, products, a[..n], [a[n]]);
      NewsAppend(reading, products, front, back);
      NewsAppend(reading, products, front, [a[n]]);
      NewsAppend(reading, products, front + [a[n]], back);
    }
  }

  lemma FillPermuted(reading: Reading, products: seq<Product>, p: Product, a: seq<ProductRow>, b: seq<ProductRow>)
    requires ValidRows(reading, products, a) && multiset(a) == multiset(b)
    ensures FillFrom(reading, p, a) == FillFrom(reading, p, b)
  {
    hide Fill, ValidRows, Normalize, RowFor;
    var key := reading.lower(p.name);
    ValidPermuted(reading, products, a, b);
    RowForMember(reading, a, key);
    RowForMember(reading, b, key);
    forall r ensures r in a <==> r in b {
      assert r in multiset(a) <==> r in multiset(b);
    }
    if RowFor(reading, a, key).Some? {
      var r := RowFor(reading, a, key).value;
      var k :| 0 <= k < |b| && b[k] == r;
      forall i, j | 0 <= i < j < |b| ensures reading.lower(b[i].name) != reading.lower(b[j].name) {
        DifferentLower(reading, products, b, i, j);
      }
      RowForIsTheRow(reading, b, k);
    }
  }

  /** The result does not depend on the order of the rows: existing products end up the same, and the same
      products are added. */
  lemma OrderDoesNotMatter(reading: Reading, products: seq<Product>, a: seq<ProductRow>, b: seq<ProductRow>)
    requires ValidRows(reading, products, a) && multiset(a) == multiset(b)
    ensures var one, two := Upserted(reading, products, a), Upserted(reading, products, b);
            && |one| == |two| >= |products|
            && one[..|products|] == two[..|products|]
            && multiset(one) == multiset(two)
  {
    hide ValidRows, Upserted, News, FillFrom;
    ValidPermuted(reading, products, a, b);
    UpsertedShape(reading, products, a);
    UpsertedShape(reading, products, b);
    NewsPermuted(reading, products, a, b);
    var one, two, n := Upserted(reading, products, a), Upserted(reading, products, b), |products|;
    assert |multiset(News(reading, products, a))| == |multiset(News(reading, products, b))|;
    forall i | 0 <= i < n ensures one[i] == two[i] {
      FillPermuted(reading, products, products[i], a, b);
    }
    assert one == one[..n] + one[n..] && two == two[..n] + two[n..];
  }
}
