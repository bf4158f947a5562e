/**
 * The product records, the seed data, the two request gates (API key and
 * field validation), the object spread that builds and updates records,
 * and lookup by id.
 */
module Catalog {
  import opened JsValues
  import opened Seqs

  /**
   * A plain object with the six properties the handlers read or write.
   * The parsed request body and a stored product are both such objects.
   */
  datatype Record = Record(
    id: Value,
    name: Value,
    description: Value,
    price: Value,
    category: Value,
    inStock: Value)

  type Product = Record

  type Body = Record

  /** The errors a handler raises: `NotFoundError`, `ValidationError`, or any other. */
  datatype Failure = NotFound(message: string) | Validation(message: string) | Internal

  datatype Result<T> = Ok(value: T) | Err(error: Failure)

  const NotFoundMessage: string := "Product not found"

  /** The fixed secret the `x-api-key` header is compared with. */
  const ApiKey: string := "mysecretapikey"

  /** The three records the store holds when the process starts. */
  function Seed(): (ps: seq<Product>)
    ensures |ps| == 3 && UniqueIds(ps)
  {
    [ Record(Str("1"), Str("Laptop"), Str("High-performance laptop with 16GB RAM"),
             Num(1200), Str("electronics"), Bool(true)),
      Record(Str("2"), Str("Smartphone"), Str("Latest model with 128GB storage"),
             Num(800), Str("electronics"), Bool(true)),
      Record(Str("3"), Str("Coffee Maker"), Str("Programmable coffee maker with timer"),
             Num(50), Str("kitchen"), Bool(false)) ]
  }

  /** No two records share an id. */
  ghost predicate UniqueIds(ps: seq<Product>)
  {
    forall i, j :: 0 <= i < j < |ps| ==> ps[i].id != ps[j].id
  }

  /**
   * The `authenticate` middleware: true when the request is passed on, false
   * when it is answered with 401 because the `x-api-key` header (None when
   * absent) is missing, empty or wrong.
   */
  function Authenticate(apiKey: Option<string>): (passed: bool)
    ensures passed <==> apiKey == Some(ApiKey)
  {
    var missing := apiKey.None? || apiKey.value == "";
    !(missing || apiKey.value != ApiKey)
  }

  /**
   * The `validateProduct` middleware: true when the body is passed on, false
   * when it is answered with 400. Name, description and category need only be
   * truthy (any non-empty string, a non-zero number, `true`, an object or an
   * array); price must be a number and inStock a boolean.
   */
  function ValidateProduct(body: Body): (passed: bool)
    ensures passed <==>
      && body.name !in Falsy
      && body.description !in Falsy
      && body.price.Num?
      && body.category !in Falsy
      && body.inStock.Bool?
  {
    !(!Truthy(body.name) || !Truthy(body.description) || !body.price.Num?
      || !Truthy(body.category) || !body.inStock.Bool?)
  }

  /** One property of `{...base, ...over}`. A parsed body never holds `undefined`. */
  function Override(base: Value, over: Value): Value
  {
    if over == Undefined then base else over
  }

  /** `{...base, ...over}`: every property `over` has, otherwise `base`'s. */
  function Spread(base: Record, over: Record): Record
  {
    Record(
      Override(base.id, over.id),
      Override(base.name, over.name),
      Override(base.description, over.description),
      Override(base.price, over.price),
      Override(base.category, over.category),
      Override(base.inStock, over.inStock))
  }

  /** The empty object. */
  const Empty: Record := Record(Undefined, Undefined, Undefined, Undefined, Undefined, Undefined)

  /** Spreading the empty object changes nothing; spreading the same object twice is spreading it once. */
  lemma SpreadLaws(base: Record, over: Record, more: Record)
    ensures Spread(base, Empty) == base
    ensures Spread(Empty, over) == over
    ensures Spread(Spread(base, over), over) == Spread(base, over)
    ensures Spread(Spread(base, over), more) == Spread(base, Spread(over, more))
  {
  }

  /**
   * A body that passed validation replaces every stored property but the id,
   * which it replaces only when it carries one itself.
   */
  lemma ValidatedSpread(base: Record, body: Body)
    requires ValidateProduct(body)
    ensures Spread(base, body) == body.(id := Override(base.id, body.id))
  {
  }

  /** `{ id: newId, ...body }`: the record the POST handler appends. */
  function NewProduct(newId: string, body: Body): (p: Product)
    ensures p.id == if body.id == Undefined then Str(newId) else body.id
    ensures p.(id := body.id) == body
  {
    Spread(Empty.(id := Str(newId)), body)
  }

  /**
   * `products.findIndex(p => p.id === id)`: the first index whose id is the
   * string `id`, or -1.
   */
  function FindIndex(ps: seq<Product>, id: string): (i: int)
    ensures -1 <= i < |ps|
    ensures i == -1 <==> forall j :: 0 <= j < |ps| ==> ps[j].id != Str(id)
    ensures 0 <= i ==> ps[i].id == Str(id) && forall j :: 0 <= j < i ==> ps[j].id != Str(id)
  {
    if ps == [] then -1
    else if ps[0].id == Str(id) then 0
    else
      var k := FindIndex(ps[1..], id);
      if k == -1 then -1 else k + 1
  }

  /**
   * The GET /api/products/:id handler: `products.find(p => p.id === id)`,
   * raising NotFound when no record has that id.
   */
  function FindProduct(ps: seq<Product>, id: string): (r: Result<Product>)
    ensures r.Ok? <==> exists j :: 0 <= j < |ps| && ps[j].id == Str(id)
    ensures r.Ok? ==> r.value in ps && r.value.id == Str(id)
    ensures r.Ok? ==> exists i :: 0 <= i < |ps| && ps[i] == r.value && forall j :: 0 <= j < i ==> ps[j].id != Str(id)
    ensures r.Err? ==> r.error == NotFound(NotFoundMessage)
  {
    var i := FindIndex(ps, id);
    if i == -1 then Err(NotFound(NotFoundMessage)) else Ok(ps[i])
  }

  /**
   * When the ids are unique, a fresh id with a body that carries no id of its
   * own keeps them unique, and the new record is then found under that id.
   */
  lemma CreateKeepsIdsUnique(ps: seq<Product>, newId: string, body: Body)
    requires UniqueIds(ps)
    requires FindIndex(ps, newId) == -1
    requires body.id == Undefined
    ensures UniqueIds(ps + [NewProduct(newId, body)])
    ensures FindIndex(ps + [NewProduct(newId, body)], newId) == |ps|
  {
    var qs := ps + [NewProduct(newId, body)];
    assert qs[|ps|].id == Str(newId);
    forall i, j | 0 <= i < j < |qs| ensures qs[i].id != qs[j].id {
      assert qs[i] == ps[i];
      if j < |ps| {
        assert qs[j] == ps[j];
      }
    }
    forall j | 0 <= j < |ps| ensures qs[j].id != Str(newId) {
      assert qs[j] == ps[j];
    }
  }

  /** An update whose body carries no id keeps the ids unique. */
  lemma UpdateKeepsIdsUnique(ps: seq<Product>, i: nat, body: Body)
    requires UniqueIds(ps) && i < |ps|
    requires body.id == Undefined
    ensures UniqueIds(ps[i := Spread(ps[i], body)])
  {
    var qs := ps[i := Spread(ps[i], body)];
    assert forall k :: 0 <= k < |ps| ==> qs[k].id == ps[k].id;
  }

  /**
   * Ids are not kept unique by the handlers themselves: an update whose
   * validated body carries another record's id duplicates that id.
   */
  lemma UpdateCanDuplicateIds()
    ensures var body := Record(Str("2"), Str("Tablet"), Str("A tablet"), Num(300), Str("electronics"), Bool(true));
      && ValidateProduct(body)
      && UniqueIds(Seed())
      && !UniqueIds(Seed()[0 := Spread(Seed()[0], body)])
  {
    var body := Record(Str("2"), Str("Tablet"), Str("A tablet"), Num(300), Str("electronics"), Bool(true));
    var qs := Seed()[0 := Spread(Seed()[0], body)];
    assert qs[0].id == qs[1].id;
  }

  /**
   * Removing the record at `i` keeps the others in their order, takes away
   * exactly one copy of it, keeps ids unique, and (with unique ids) leaves no
   * record under its id.
   */
  lemma RemoveAt(ps: seq<Product>, i: nat)
    requires i < |ps|
    ensures var rest := ps[..i] + ps[i + 1..];
      && |rest| == |ps| - 1
      && IsSubsequence(rest, ps)
      && multiset(rest) == multiset(ps) - multiset{ps[i]}
      && (UniqueIds(ps) ==> UniqueIds(rest))
      && (UniqueIds(ps) && ps[i].id.Str? ==> FindIndex(rest, ps[i].id.s) == -1)
  {
    var rest := ps[..i] + ps[i + 1..];
    assert ps == ps[..i] + [ps[i]] + ps[i + 1..];
    SkipOneIsSubsequence(ps[..i], ps[i], ps[i + 1..]);
    if UniqueIds(ps) {
      RemoveAtKeepsIdsUnique(ps, i);
      forall k | 0 <= k < |rest| ensures rest[k].id != ps[i].id {
        if k < i {
          assert rest[k] == ps[k];
        } else {
          assert rest[k] == ps[k + 1];
        }
      }
    }
  }

  lemma RemoveAtKeepsIdsUnique(ps: seq<Product>, i: nat)
    requires i < |ps| && UniqueIds(ps)
    ensures UniqueIds(ps[..i] + ps[i + 1..])
  {
    var rest := ps[..i] + ps[i + 1..];
    assert forall k :: 0 <= k < i ==> rest[k] == ps[k];
    assert forall k :: i <= k < |rest| ==> rest[k] == ps[k + 1];
  }

  /** Leaving out one element between two blocks gives a subsequence. */
  lemma {:induction false} SkipOneIsSubsequence<T>(a: seq<T>, x: T, b: seq<T>)
    ensures IsSubsequence(a + b, a + [x] + b)
    decreases |a|
  {
    if a == [] {
      assert a + b == b && (a + [x] + b)[1..] == b;
      SubsequenceReflexive(b);
    } else {
      SkipOneIsSubsequence(a[1..], x, b);
      assert (a + b)[1..] == a[1..] + b;
      assert (a + [x] + b)[1..] == a[1..] + [x] + b;
    }
  }

  lemma {:induction false} SubsequenceReflexive<T>(s: seq<T>)
    ensures IsSubsequence(s, s)
  {
    if s != [] {
      SubsequenceReflexive(s[1..]);
    }
  }
}
