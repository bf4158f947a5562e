/**
 * GET /api/products: filter the store by category and by stock, then cut
 * one page out of the filtered list with `slice`.
 */
module Listing {
  import opened JsValues
  import opened Seqs
  import opened Catalog

  /**
   * The query string. `page` and `limit` are what `parseInt` made of them,
   * None standing for a missing or non-numeric parameter (NaN).
   */
  datatype ListQuery = ListQuery(
    category: Option<string>,
    inStock: Option<string>,
    page: Option<int>,
    limit: Option<int>)

  datatype Pagination = Pagination(currentPage: int, totalPages: int, totalItems: nat, itemsPerPage: int)

  datatype ListPage = ListPage(products: seq<Product>, pagination: Pagination)

  /** `parseInt(raw) || fallback`: NaN and 0 fall back. */
  function IntOr(raw: Option<int>, fallback: int): (r: int)
    ensures raw.Some? && raw.value != 0 ==> r == raw.value
    ensures raw.None? || raw.value == 0 ==> r == fallback
    ensures r == 0 ==> fallback == 0
  {
    if raw.None? || raw.value == 0 then fallback else raw.value
  }

  /** Whether the category filter applies: `if (req.query.category)`. */
  predicate CategoryGiven(q: ListQuery)
  {
    q.category.Some? && q.category.value != ""
  }

  /** The category filter, applied only when a non-empty category is given. */
  function ByCategory(ps: seq<Product>, category: Option<string>): seq<Product>
  {
    if category.Some? && category.value != "" then
      var c := category.value;
      Filter(ps, (p: Product) => p.category == Str(c))
    else ps
  }

  /** The stock filter, applied whenever the parameter is present: `=== 'true'` picks the wanted flag. */
  function ByStock(ps: seq<Product>, inStock: Option<string>): seq<Product>
  {
    if inStock.Some? then
      var wanted := inStock.value == "true";
      Filter(ps, (p: Product) => p.inStock == Bool(wanted))
    else ps
  }

  /** The list the page is cut from. */
  function Filtered(ps: seq<Product>, q: ListQuery): seq<Product>
  {
    ByStock(ByCategory(ps, q.category), q.inStock)
  }

  /** The two conditions a listed record meets, stated on one record. */
  predicate Selected(p: Product, q: ListQuery)
  {
    && (CategoryGiven(q) ==> p.category == Str(q.category.value))
    && (q.inStock.Some? ==> p.inStock == Bool(q.inStock.value == "true"))
  }

  /** The two filters in a row select exactly the records that meet both conditions. */
  lemma FilteredIsSelection(ps: seq<Product>, q: ListQuery)
    ensures Filtered(ps, q) == Filter(ps, (p: Product) => Selected(p, q))
  {
    var selected := (p: Product) => Selected(p, q);
    if CategoryGiven(q) {
      var c := q.category.value;
      var byCategory := (p: Product) => p.category == Str(c);
      if q.inStock.Some? {
        var wanted := q.inStock.value == "true";
        FilterOfFilter(ps, byCategory, (p: Product) => p.inStock == Bool(wanted), selected);
      } else {
        FilterExtensional(ps, byCategory, selected);
      }
    } else if q.inStock.Some? {
      var wanted := q.inStock.value == "true";
      FilterExtensional(ps, (p: Product) => p.inStock == Bool(wanted), selected);
    } else {
      FilterKeepsAll(ps, selected);
    }
  }

  /**
   * The filtered list is an order-preserving subsequence of the store that
   * holds every copy of each record meeting the conditions, and nothing else.
   */
  lemma FilteredSpec(ps: seq<Product>, q: ListQuery)
    ensures IsSubsequence(Filtered(ps, q), ps)
    ensures forall p :: p in Filtered(ps, q) <==> p in ps && Selected(p, q)
    ensures forall p :: multiset(Filtered(ps, q))[p] == if Selected(p, q) then multiset(ps)[p] else 0
  {
    FilteredIsSelection(ps, q);
    var selected := (p: Product) => Selected(p, q);
    FilterIsSubsequence(ps, selected);
    forall p ensures multiset(Filtered(ps, q))[p] == if Selected(p, q) then multiset(ps)[p] else 0 {
      FilterMultiplicity(ps, selected, p);
    }
  }

  /** `Math.ceil(n / limit)`. */
  function TotalPages(n: nat, limit: int): (r: int)
    requires limit != 0
    ensures limit > 0 ==> 0 <= r && (r - 1) * limit < n <= r * limit
    ensures limit < 0 ==> r <= 0 && r * limit <= n < (r - 1) * limit
  {
    if limit > 0 then
      var r := (n + limit - 1) / limit;
      assert r * limit + (n + limit - 1) % limit == n + limit - 1;
      r
    else
      var r := -(n / -limit);
      assert (n / -limit) * -limit + n % -limit == n;
      r
  }

  /** Where page `page` starts: `(page - 1) * limit`. */
  function PageStart(page: int, limit: int): (start: int)
    ensures page >= 1 && limit >= 1 ==> start >= 0
    ensures start + limit == page * limit
  {
    (page - 1) * limit
  }

  /** Page `page` of `s`: `s.slice((page - 1) * limit, page * limit)`. */
  function Paginate<T>(s: seq<T>, page: int, limit: int): seq<T>
  {
    Slice(s, PageStart(page, limit), page * limit)
  }

  /**
   * The route's answer. Every listed record is in the store and meets the
   * conditions; there are never more of them than matched.
   */
  function List(ps: seq<Product>, q: ListQuery): (r: ListPage)
    ensures forall p :: p in r.products ==> p in ps && Selected(p, q)
    ensures |r.products| <= r.pagination.totalItems <= |ps|
    ensures r.pagination.itemsPerPage != 0
  {
    var filtered := Filtered(ps, q);
    FilteredSpec(ps, q);
    var page := IntOr(q.page, 1);
    var limit := IntOr(q.limit, 10);
    ListPage(
      Paginate(filtered, page, limit),
      Pagination(page, TotalPages(|filtered|, limit), |filtered|, limit))
  }

  /**
   * For a positive page and limit the page is the window that starts at
   * `(page - 1) * limit`: empty when that is past the end, never longer than
   * `limit`, and cut short only by the end of the list.
   */
  lemma PageWindow<T>(s: seq<T>, page: int, limit: int)
    requires page >= 1 && limit >= 1
    ensures var start := PageStart(page, limit);
      && (start >= |s| ==> Paginate(s, page, limit) == [])
      && (start < |s| ==> Paginate(s, page, limit) == s[start..Min(start + limit, |s|)])
      && |Paginate(s, page, limit)| == Max(0, Min(limit, |s| - start))
      && |Paginate(s, page, limit)| <= limit
  {
  }

  /** The first `k` pages, one after the other. */
  function Pages<T>(s: seq<T>, limit: int, k: nat): seq<T>
  {
    if k == 0 then [] else Pages(s, limit, k - 1) + Paginate(s, k, limit)
  }

  /** The first `k` pages are the first `k * limit` items (or all of them). */
  lemma {:induction false} PagesArePrefix<T>(s: seq<T>, limit: int, k: nat)
    requires limit >= 1
    ensures Pages(s, limit, k) == s[..Min(k * limit, |s|)]
  {
    if k > 0 {
      PagesArePrefix(s, limit, k - 1);
      PageWindow(s, k, limit);
      var start := PageStart(k, limit);
      if start < |s| {
        assert s[..Min(k * limit, |s|)] == s[..start] + s[start..Min(k * limit, |s|)];
      }
    }
  }

  /**
   * Pages 1 to `totalPages` together hold the filtered list exactly once, in
   * order: nothing is skipped and nothing is shown twice.
   */
  lemma AllPagesCoverList<T>(s: seq<T>, limit: int)
    requires limit >= 1
    ensures TotalPages(|s|, limit) >= 0
    ensures Pages(s, limit, TotalPages(|s|, limit)) == s
  {
    var n := TotalPages(|s|, limit);
    PagesArePrefix(s, limit, n);
  }

  /**
   * The route's answer for a positive page and limit: the window of the
   * filtered list that starts at `(page - 1) * limit`, at most `limit` long,
   * with `totalItems` the number of matches and `totalPages` the least number
   * of pages of `limit` items that holds them all.
   */
  lemma ListSpec(ps: seq<Product>, q: ListQuery, page: int, limit: int)
    requires page == IntOr(q.page, 1) && limit == IntOr(q.limit, 10)
    requires page >= 1 && limit >= 1
    ensures var r, n, start := List(ps, q), |Filtered(ps, q)|, PageStart(page, limit);
      && r.pagination.currentPage == page
      && r.pagination.itemsPerPage == limit
      && r.pagination.totalItems == n
      && (r.pagination.totalPages - 1) * limit < n <= r.pagination.totalPages * limit
      && (start >= n ==> r.products == [])
      && (start < n ==> r.products == Filtered(ps, q)[start..Min(start + limit, n)])
      && |r.products| == Max(0, Min(limit, n - start))
  {
    PageWindow(Filtered(ps, q), page, limit);
  }

  /** Filtering the seed records by `category=electronics` gives the laptop and the smartphone. */
  lemma ElectronicsOfSeed()
    ensures Filtered(Seed(), ListQuery(Some("electronics"), None, None, None)) == Seed()[..2]
  {
    var ps := Seed();
    var f := (p: Product) => p.category == Str("electronics");
    assert Filter(ps[2..], f) == [];
    assert Filter(ps[1..], f) == [ps[1]];
  }
}
