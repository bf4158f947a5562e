/**
 * GET /api/products/search: the records whose lower-cased name or
 * description contains the lower-cased query, in store order.
 */
module Search {
  import opened JsValues
  import opened Seqs
  import opened Catalog

  const MissingQueryMessage: string := "Search query parameter \"q\" is required"

  /** The record matches the lower-cased query `needle` by name or by description. */
  predicate Matches(p: Product, needle: string)
  {
    || (p.name.Str? && Includes(ToLowerCase(p.name.s), needle))
    || (p.description.Str? && Includes(ToLowerCase(p.description.s), needle))
  }

  /**
   * The filter callback does not throw on this record: `toLowerCase` is
   * called on the name, and on the description only when the name does not
   * match, and each must be a string by then.
   */
  predicate Searchable(p: Product, needle: string)
  {
    p.name.Str? && (Includes(ToLowerCase(p.name.s), needle) || p.description.Str?)
  }

  /**
   * The filter callback on one record. Calling `toLowerCase` on a value that
   * is not a string raises a TypeError, which reaches the error middleware
   * as an internal error.
   */
  function MatchStep(p: Product, needle: string): (r: Result<bool>)
    ensures r.Ok? <==> Searchable(p, needle)
    ensures r.Ok? ==> r.value == Matches(p, needle)
    ensures r.Err? ==> r.error == Internal
  {
    if !p.name.Str? then Err(Internal)
    else if Includes(ToLowerCase(p.name.s), needle) then Ok(true)
    else if !p.description.Str? then Err(Internal)
    else Ok(Includes(ToLowerCase(p.description.s), needle))
  }

  /**
   * `products.filter(callback)`: the callback runs on each record in order
   * and the first error it raises ends the whole search.
   */
  function SearchAll(ps: seq<Product>, needle: string): (r: Result<seq<Product>>)
    ensures r.Ok? <==> forall p :: p in ps ==> Searchable(p, needle)
    ensures r.Ok? ==> r.value == Filter(ps, (p: Product) => Matches(p, needle))
    ensures r.Err? ==> r.error == Internal
  {
    if ps == [] then Ok([])
    else
      match MatchStep(ps[0], needle)
      case Err(e) => Err(e)
      case Ok(keep) =>
        match SearchAll(ps[1..], needle)
        case Err(e) => Err(e)
        case Ok(rest) => Ok(if keep then [ps[0]] + rest else rest)
  }

  /**
   * The search handler. A missing or empty `q` raises a ValidationError;
   * otherwise the result is every record matching the lower-cased query, in
   * store order, unless some record makes the filter callback throw.
   */
  function SearchProducts(ps: seq<Product>, q: Option<string>): (r: Result<seq<Product>>)
    ensures q.None? || q.value == "" <==> r == Err(Validation(MissingQueryMessage))
    ensures r.Ok? <==> q.Some? && q.value != "" && forall p :: p in ps ==> Searchable(p, ToLowerCase(q.value))
    ensures r.Ok? ==> r.value == Filter(ps, (p: Product) => Matches(p, ToLowerCase(q.value)))
    ensures r.Err? && q.Some? && q.value != "" ==> r.error == Internal
  {
    if q.None? || q.value == "" then Err(Validation(MissingQueryMessage))
    else SearchAll(ps, ToLowerCase(q.value))
  }

  /**
   * A successful search returns an order-preserving subsequence of the store
   * holding every copy of each matching record and nothing else.
   */
  lemma SearchSpec(ps: seq<Product>, q: string)
    requires SearchProducts(ps, Some(q)).Ok?
    ensures var found := SearchProducts(ps, Some(q)).value;
      && IsSubsequence(found, ps)
      && (forall p :: p in found <==> p in ps && Matches(p, ToLowerCase(q)))
      && (forall p :: multiset(found)[p] == if Matches(p, ToLowerCase(q)) then multiset(ps)[p] else 0)
  {
    var matches := (p: Product) => Matches(p, ToLowerCase(q));
    FilterIsSubsequence(ps, matches);
    forall p ensures multiset(Filter(ps, matches))[p] == if Matches(p, ToLowerCase(q)) then multiset(ps)[p] else 0 {
      FilterMultiplicity(ps, matches, p);
    }
  }

  /** The query's letter case does not matter. */
  lemma SearchIgnoresQueryCase(ps: seq<Product>, q: string, q': string)
    requires ToLowerCase(q) == ToLowerCase(q')
    ensures SearchProducts(ps, Some(q)) == SearchProducts(ps, Some(q'))
  {
    assert |q| == |ToLowerCase(q)| == |q'|;
  }

  /** A record's letter case does not matter either. */
  lemma MatchIgnoresRecordCase(p: Product, name: string, description: string, needle: string)
    requires p.name.Str? && p.description.Str?
    requires ToLowerCase(p.name.s) == ToLowerCase(name)
    requires ToLowerCase(p.description.s) == ToLowerCase(description)
    ensures Matches(p, needle) <==> Matches(p.(name := Str(name), description := Str(description)), needle)
  {
  }

  /** A store whose names and descriptions are all strings never makes a search fail internally. */
  lemma StringStoreSearchSucceeds(ps: seq<Product>, q: string)
    requires q != ""
    requires forall p :: p in ps ==> p.name.Str? && p.description.Str?
    ensures SearchProducts(ps, Some(q)).Ok?
  {
  }

  /** A needle whose first two characters never appear side by side after lowering does not occur. */
  lemma NoPairNotIncluded(s: string, t: string)
    requires |t| >= 2
    requires forall i :: 0 <= i < |s| - 1 ==> !(LowerChar(s[i]) == t[0] && LowerChar(s[i + 1]) == t[1])
    ensures !Includes(ToLowerCase(s), t)
  {
    var lower := ToLowerCase(s);
    IncludesIffOccurs(lower, t);
  }

  /** The laptop's description, lowered, does not contain "coffee". */
  lemma LaptopTextMissesCoffee(s: string)
    requires s == "High-performance laptop with 16GB RAM"
    ensures !Includes(ToLowerCase(s), "coffee")
  {
    assert forall i :: 0 <= i < |s| - 1 ==> !(LowerChar(s[i]) == 'c' && LowerChar(s[i + 1]) == 'o');
    NoPairNotIncluded(s, "coffee");
  }

  /** The other texts of the laptop and the smartphone, lowered, do not contain "coffee". */
  lemma OtherTextMissesCoffee(s: string)
    requires s == "Laptop" || s == "Smartphone" || s == "Latest model with 128GB storage"
    ensures !Includes(ToLowerCase(s), "coffee")
  {
    assert forall i :: 0 <= i < |s| - 1 ==> !(LowerChar(s[i]) == 'c' && LowerChar(s[i + 1]) == 'o');
    NoPairNotIncluded(s, "coffee");
  }

  /** The Coffee Maker's name, lowered, contains "coffee", and "coffee" is already lower case. */
  lemma CoffeeMakerMatches(s: string, q: string)
    requires s == "Coffee Maker" && q == "coffee"
    ensures ToLowerCase(q) == q && Includes(ToLowerCase(s), q)
  {
    var lower := ToLowerCase(s);
    assert lower[..6] == q;
  }

  /** The filter callback on each seed record, for the query "coffee". */
  lemma SeedCoffeeSteps(ps: seq<Product>)
    requires ps == Seed()
    ensures MatchStep(ps[0], "coffee") == Ok(false)
    ensures MatchStep(ps[1], "coffee") == Ok(false)
    ensures MatchStep(ps[2], "coffee") == Ok(true)
  {
    OtherTextMissesCoffee(ps[0].name.s);
    LaptopTextMissesCoffee(ps[0].description.s);
    OtherTextMissesCoffee(ps[1].name.s);
    OtherTextMissesCoffee(ps[1].description.s);
    CoffeeMakerMatches(ps[2].name.s, "coffee");
  }

  /** A search over three records of which only the last matches returns that record. */
  lemma SearchLastOfThree(ps: seq<Product>, needle: string)
    requires |ps| == 3
    requires MatchStep(ps[0], needle) == Ok(false) && MatchStep(ps[1], needle) == Ok(false)
    requires MatchStep(ps[2], needle) == Ok(true)
    ensures SearchAll(ps, needle) == Ok([ps[2]])
  {
    var tail := ps[2..];
    assert tail[0] == ps[2] && tail[1..] == [];
    assert SearchAll(tail[1..], needle) == Ok([]);
    assert [tail[0]] + [] == [ps[2]];
    assert SearchAll(tail, needle) == Ok([ps[2]]);
    var rest := ps[1..];
    assert rest[0] == ps[1] && rest[1..] == tail;
    assert SearchAll(rest, needle) == Ok([ps[2]]);
  }

  /** On the seed records, searching for "coffee" finds only the Coffee Maker. */
  lemma CoffeeOfSeed(ps: seq<Product>)
    requires ps == Seed()
    ensures SearchProducts(ps, Some("coffee")) == Ok([ps[2]])
  {
    SeedCoffeeSteps(ps);
    SearchLastOfThree(ps, "coffee");
    CoffeeMakerMatches("Coffee Maker", "coffee");
  }

  /**
   * Validation lets a numeric name through, and once such a record is stored
   * every search that reaches it fails with an internal error.
   */
  lemma NumericNameBreaksSearch(newId: string, q: string)
    requires q != ""
    ensures var body := Record(Undefined, Num(5), Str("five"), Num(5), Str("misc"), Bool(true));
      && ValidateProduct(body)
      && SearchProducts(Seed() + [NewProduct(newId, body)], Some(q)) == Err(Internal)
  {
    var body := Record(Undefined, Num(5), Str("five"), Num(5), Str("misc"), Bool(true));
    var ps := Seed() + [NewProduct(newId, body)];
    assert !Searchable(ps[3], ToLowerCase(q));
  }
}
