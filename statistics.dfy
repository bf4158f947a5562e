/**
 * GET /api/products/stats: how many records there are, how many are in
 * stock and out of stock, and how many there are in each category.
 */
module Statistics {
  import opened JsValues
  import opened Seqs
  import opened Catalog

  datatype Stats = Stats(totalProducts: nat, inStock: nat, outOfStock: nat, categories: map<Value, nat>)

  /** `products.filter(p => p.inStock).length`. */
  function InStockCount(ps: seq<Product>): nat
  {
    |Filter(ps, (p: Product) => Truthy(p.inStock))|
  }

  /** `products.filter(p => !p.inStock).length`. */
  function OutOfStockCount(ps: seq<Product>): nat
  {
    |Filter(ps, (p: Product) => !Truthy(p.inStock))|
  }

  /** Every record is counted once: in stock or out of stock. */
  lemma StockPartition(ps: seq<Product>)
    ensures InStockCount(ps) + OutOfStockCount(ps) == |ps|
  {
    FilterPartition(ps, (p: Product) => Truthy(p.inStock), (p: Product) => !Truthy(p.inStock));
  }

  /** The number of records in category `c`. */
  function CountCategory(ps: seq<Product>, c: Value): nat
  {
    |Filter(ps, (p: Product) => p.category == c)|
  }

  /** The categories that occur in the store. */
  function CategorySet(ps: seq<Product>): set<Value>
  {
    set p | p in ps :: p.category
  }

  /** Count `c` once more: `categories[c] = (categories[c] || 0) + 1`. */
  function Bump(m: map<Value, nat>, c: Value): map<Value, nat>
  {
    m[c := (if c in m then m[c] else 0) + 1]
  }

  /** The per-category counts the stats loop builds, one record at a time. */
  function CategoryCounts(ps: seq<Product>): map<Value, nat>
    decreases |ps|
  {
    if ps == [] then map[] else Bump(CategoryCounts(ps[..|ps| - 1]), ps[|ps| - 1].category)
  }

  /** A category that occurs has at least one record; one that does not has none. */
  lemma CountCategoryPositive(ps: seq<Product>, c: Value)
    ensures c in CategorySet(ps) <==> CountCategory(ps, c) >= 1
  {
    var f := (p: Product) => p.category == c;
    if c in CategorySet(ps) {
      var r :| r in ps && r.category == c;
      assert r in Filter(ps, f);
    } else if Filter(ps, f) != [] {
      assert Filter(ps, f)[0] in Filter(ps, f);
    }
  }

  lemma CategorySetSnoc(ps: seq<Product>, last: Product)
    ensures CategorySet(ps + [last]) == CategorySet(ps) + {last.category}
  {
    forall c | c in CategorySet(ps + [last]) ensures c in CategorySet(ps) + {last.category} {
      var r :| r in ps + [last] && r.category == c;
    }
    forall c | c in CategorySet(ps) ensures c in CategorySet(ps + [last]) {
      var r :| r in ps && r.category == c;
      assert r in ps + [last];
    }
    assert last in ps + [last];
  }

  /** One more record counts only towards its own category. */
  lemma CountCategorySnoc(ps: seq<Product>, last: Product, c: Value)
    ensures CountCategory(ps + [last], c) == CountCategory(ps, c) + (if last.category == c then 1 else 0)
  {
    var f := (p: Product) => p.category == c;
    FilterAppend(ps, [last], f);
    assert Filter([last], f) == if f(last) then [last] else [];
  }

  /**
   * Under each key, the counts the loop builds hold exactly the categories
   * that occur, each with its number of records.
   */
  lemma {:induction false} CategoryCountsAt(ps: seq<Product>, c: Value)
    ensures c in CategoryCounts(ps) <==> c in CategorySet(ps)
    ensures c in CategoryCounts(ps) ==> CategoryCounts(ps)[c] == CountCategory(ps, c)
    decreases |ps|
  {
    if ps == [] {
      assert CategorySet(ps) == {};
    } else {
      var init, last := ps[..|ps| - 1], ps[|ps| - 1];
      assert ps == init + [last];
      CategoryCountsAt(init, c);
      CategorySetSnoc(init, last);
      CountCategorySnoc(init, last, c);
      if c == last.category {
        CountCategoryPositive(init, c);
      }
    }
  }

  /** The sum of the values of a map. */
  ghost function MapSum(m: map<Value, nat>): nat
    decreases |m|
  {
    if m == map[] then 0
    else
      var k :| k in m;
      m[k] + MapSum(m - {k})
  }

  /** `MapSum` does not depend on which key it takes first. */
  lemma {:induction false} MapSumTake(m: map<Value, nat>, k: Value)
    requires k in m
    ensures MapSum(m) == m[k] + MapSum(m - {k})
    decreases |m|
  {
    var k' :| k' in m && MapSum(m) == m[k'] + MapSum(m - {k'});
    if k' != k {
      MapSumTake(m - {k'}, k);
      MapSumTake(m - {k}, k');
      assert m - {k'} - {k} == m - {k} - {k'};
    }
  }

  /** Setting a key's value changes the sum by the difference. */
  lemma MapSumUpdate(m: map<Value, nat>, k: Value, v: nat)
    ensures MapSum(m[k := v]) == MapSum(m) - (if k in m then m[k] else 0) + v
  {
    MapSumTake(m[k := v], k);
    assert m[k := v] - {k} == m - {k};
    if k in m {
      MapSumTake(m, k);
    } else {
      assert m - {k} == m;
    }
  }

  /** The per-category counts add up to the number of records. */
  lemma {:induction false} CategoryCountsSum(ps: seq<Product>)
    ensures MapSum(CategoryCounts(ps)) == |ps|
    decreases |ps|
  {
    if ps != [] {
      var init, last := ps[..|ps| - 1], ps[|ps| - 1];
      CategoryCountsSum(init);
      var m := CategoryCounts(init);
      MapSumUpdate(m, last.category, (if last.category in m then m[last.category] else 0) + 1);
    }
  }

  /**
   * The per-category counts name exactly the categories that occur, give
   * each its number of records (at least one), and add up to the number of
   * records.
   */
  lemma CategoryCountsSpec(ps: seq<Product>)
    ensures CategoryCounts(ps).Keys == CategorySet(ps)
    ensures forall c :: c in CategoryCounts(ps) ==> CategoryCounts(ps)[c] == CountCategory(ps, c) >= 1
    ensures MapSum(CategoryCounts(ps)) == |ps|
  {
    CategoryCountsSum(ps);
    forall c ensures c in CategoryCounts(ps) <==> c in CategorySet(ps) {
      CategoryCountsAt(ps, c);
    }
    forall c | c in CategoryCounts(ps) ensures CategoryCounts(ps)[c] == CountCategory(ps, c) >= 1 {
      CategoryCountsAt(ps, c);
      CountCategoryPositive(ps, c);
    }
  }

  /**
   * The stats handler. The counts come from `filter(...).length`; the
   * per-category counts are filled in by a loop over the records, one
   * increment per record: `categories[c] = (categories[c] || 0) + 1`.
   */
  method ComputeStats(ps: seq<Product>) returns (s: Stats)
    ensures s.totalProducts == |ps|
    ensures s.inStock == InStockCount(ps) && s.outOfStock == OutOfStockCount(ps)
    ensures s.inStock + s.outOfStock == s.totalProducts
    ensures s.categories.Keys == CategorySet(ps)
    ensures forall c :: c in s.categories ==> s.categories[c] == CountCategory(ps, c) >= 1
    ensures MapSum(s.categories) == s.totalProducts
  {
    var categories: map<Value, nat> := map[];
    assert ps[..0] == [];
    for i := 0 to |ps|
      invariant categories == CategoryCounts(ps[..i])
    {
      var c := ps[i].category;
      var seen := if c in categories then categories[c] else 0;
      assert ps[..i + 1][..i] == ps[..i];
      categories := categories[c := seen + 1];
    }
    assert ps[..|ps|] == ps;
    StockPartition(ps);
    CategoryCountsSpec(ps);
    s := Stats(|ps|, InStockCount(ps), OutOfStockCount(ps), categories);
  }

  /** On the seed records: 2 in stock and 1 out of stock. */
  lemma SeedStockCounts()
    ensures InStockCount(Seed()) == 2 && OutOfStockCount(Seed()) == 1
  {
    var ps := Seed();
    var inStock := (p: Product) => Truthy(p.inStock);
    assert Filter(ps[2..], inStock) == [];
    var outOfStock := (p: Product) => !Truthy(p.inStock);
    assert Filter(ps[2..], outOfStock) == [ps[2]];
    assert Filter(ps[1..], outOfStock) == [ps[2]];
  }

  /** On the seed records: 2 in electronics and 1 in kitchen. */
  lemma SeedCategoryCounts()
    ensures CategoryCounts(Seed()) == map[Str("electronics") := 2, Str("kitchen") := 1]
  {
    var ps := Seed();
    assert ps[..2][..1][..0] == [];
    assert CategoryCounts(ps[..1]) == map[Str("electronics") := 1];
    assert CategoryCounts(ps[..2]) == map[Str("electronics") := 2];
  }
}
