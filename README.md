# Product API: a Dafny model

This project models the request handling of a small Express product API that keeps its records in memory. The API lets any caller list, search, count and fetch products. Creating, updating and deleting need a fixed API key. The model contains:

- `JsValues`: the JavaScript values a parsed JSON body can hold, truthiness, ASCII `toLowerCase` and `includes`.
- `Seqs`: `Array.prototype.filter` and `Array.prototype.slice` (negative positions included), with what filtering preserves.
- `Catalog`: the product record, the three seed records, the `authenticate` and `validateProduct` middleware, the object spread `{...a, ...b}`, and lookup by id (`findIndex`, `find`).
- `Store`: the `ProductStore` class. It owns the `products` list, and its methods are the three handlers that change the list: push, index assignment and splice.
- `Listing`: the listing route. It filters by category and by stock, then paginates.
- `Search`: the search route, including the TypeError that `toLowerCase` raises on a value that is not a string.
- `Statistics`: the stats route. Its per-category counts are filled in by a loop.
- `Routes`: each route as the client sees it. This is the middleware chain, the handler, and the global error handler that maps NotFound to 404, Validation to 400 and anything else to 500.

A request body and a stored product are both plain objects with the properties `id`, `name`, `description`, `price`, `category` and `inStock` (`Catalog.Record`). An absent property is `Undefined`. The store is a `seq<Record>`.

Three consequences of the code are worth stating up front:

- Ids are not kept unique. An update whose body carries another record's id duplicates that id (`Catalog.UpdateCanDuplicateIds`). Uniqueness is proved only for bodies without an `id` (`CreateKeepsIdsUnique`, `UpdateKeepsIdsUnique`, `RemoveAt`).
- Validation accepts any truthy `name` and `description`, not only non-empty strings. A numeric name therefore passes, and every later search that reaches such a record fails with 500 (`Search.NumericNameBreaksSearch`).
- Search rejects an empty `q` as well as a missing one.

## Model

| member | source | states |
|---|---|---|
| `JsValues.LowerChar` | server.js:136-137 | no ASCII upper-case letter survives; only A-Z change, each moved by 32 code points |
| `JsValues.ToLowerCase` | server.js:136-137 | keeps the length and lowers each character on its own |
| `JsValues.ToLowerCaseIdempotent` | server.js:136-137 | lowering twice is lowering once |
| `JsValues.IncludesIffOccurs` | server.js:136-137 | `includes` is true exactly when the needle occurs as a contiguous block at some index |
| `Seqs.Filter` | server.js:96-102 | the result is no longer than the input; it holds only elements of the input that pass; every element that passes is in it |
| `Seqs.FilterIsSubsequence` | server.js:96-102 | a filtered list is an order-preserving subsequence of its input |
| `Seqs.FilterMultiplicity` | server.js:96-102 | filtering keeps every copy of a passing element and none of a failing one |
| `Seqs.FilterPartition` | server.js:151-152 | filtering by a condition and by its negation splits the input into two parts whose sizes add up to its length |
| `Seqs.FilterOfFilter` | server.js:96-102 | two filters in a row are one filter by both conditions |
| `Seqs.Slice` | server.js:111 | `slice` is never longer than its input; with 0 <= start <= end it is the block between the clamped positions |
| `Catalog.Seed` | server.js:57-82 | the store starts with three records whose ids are unique |
| `Catalog.Authenticate` | server.js:39-45 | the request passes exactly when the `x-api-key` header equals `mysecretapikey` (the missing or empty check is subsumed) |
| `Catalog.ValidateProduct` | server.js:48-54 | passes exactly when name, description and category are not one of the falsy values, price is a number and inStock is a boolean |
| `Catalog.SpreadLaws` | server.js:203 | spreading the empty object is the identity; spreading the same body twice equals spreading it once; spreads compose |
| `Catalog.ValidatedSpread` | server.js:203 | a validated body replaces every stored property but the id, which it replaces only if it carries one |
| `Catalog.NewProduct` | server.js:184-187 | the new record has the body's properties and the generated id, unless the body carries its own id |
| `Catalog.FindIndex` | server.js:198 | -1 exactly when no record has the id; otherwise the first index whose id is that string |
| `Catalog.FindProduct` | server.js:171-174 | succeeds exactly when some record has the id, returning the first such record; otherwise NotFound("Product not found") |
| `Catalog.CreateKeepsIdsUnique` | server.js:184-188 | with unique ids, a fresh id and a body without an id, ids stay unique and the new record is found under its id at the end |
| `Catalog.UpdateKeepsIdsUnique` | server.js:203 | an update whose body has no id keeps ids unique |
| `Catalog.UpdateCanDuplicateIds` | server.js:203 | a validated body carrying another record's id makes the ids of the seed store non-unique |
| `Catalog.RemoveAt` | server.js:218 | splicing out index i keeps the rest in order, removes exactly one copy of that record, keeps ids unique, and leaves no record under that id when ids were unique |
| `Store.ProductStore.constructor` | server.js:57-82 | the store starts as the seed records |
| `Store.ProductStore.Create` | server.js:184-189 | appends exactly the new record at the end and returns it; earlier records are unchanged |
| `Store.ProductStore.Update` | server.js:198-204 | unknown id: NotFound and the store is unchanged; otherwise only the first matching index changes, to the spread of the old record and the body, and the length is kept |
| `Store.ProductStore.Delete` | server.js:213-219 | unknown id: NotFound and the store is unchanged; otherwise the first matching record is removed and returned, and the others keep their order |
| `Listing.IntOr` | server.js:106-107 | a missing, non-numeric or zero parameter falls back to the default; any other value is kept |
| `Listing.FilteredIsSelection` | server.js:92-103 | the category filter followed by the stock filter selects exactly the records that meet both conditions |
| `Listing.FilteredSpec` | server.js:92-103 | the filtered list is an order-preserving subsequence of the store; it holds every copy of each record that meets the conditions and nothing else |
| `Listing.TotalPages` | server.js:117 | `Math.ceil(n / limit)`: for a positive limit, the least page count whose pages hold n items; for a negative limit, the matching ceiling |
| `Listing.List` | server.js:90-121 | every listed record is in the store and meets the conditions; the page is no longer than the number of matches |
| `Listing.PageWindow` | server.js:108-111 | for page, limit >= 1 the page starts at (page-1)*limit; it is empty past the end, at most limit long, and its length is max(0, min(limit, n - start)) |
| `Listing.ListSpec` | server.js:106-121 | the response echoes page and limit; totalItems is the number of matches, totalPages is their ceiling over limit, and the page is the window of the filtered list |
| `Listing.PagesArePrefix` | server.js:108-111 | the first k pages together are the first min(k*limit, n) filtered records |
| `Listing.AllPagesCoverList` | server.js:108-117 | pages 1..totalPages together are the filtered list exactly: nothing skipped, nothing repeated |
| `Listing.ElectronicsOfSeed` | server.js:95-97 | `category=electronics` on the seed store gives the laptop and the smartphone |
| `Search.MatchStep` | server.js:135-138 | the callback succeeds exactly when it never calls `toLowerCase` on a non-string; then it is true exactly when the name or the description matches |
| `Search.SearchAll` | server.js:135-138 | succeeds exactly when every record is searchable, and then returns the matching records in store order; otherwise an internal error |
| `Search.SearchProducts` | server.js:130-138 | a missing or empty query is a ValidationError; otherwise the result is the matches or an internal error |
| `Search.SearchSpec` | server.js:135-138 | a successful search is an order-preserving subsequence of the store; it holds every copy of each matching record and nothing else |
| `Search.SearchIgnoresQueryCase` | server.js:136-137 | queries that agree after lowering give the same result |
| `Search.MatchIgnoresRecordCase` | server.js:136-137 | changing the letter case of a name or description does not change whether it matches |
| `Search.StringStoreSearchSucceeds` | server.js:135-138 | when every name and description is a string, a non-empty query never fails |
| `Search.CoffeeOfSeed` | server.js:130-138 | on the seed store, the query `coffee` returns the Coffee Maker and nothing else |
| `Search.NumericNameBreaksSearch` | server.js:135-138 | a body with a numeric name passes validation, and after it is stored every search returns an internal error |
| `Statistics.StockPartition` | server.js:151-152 | in-stock plus out-of-stock is the number of records |
| `Statistics.CountCategoryPositive` | server.js:158-160 | a category has at least one record exactly when it occurs in the store |
| `Statistics.CountCategorySnoc` | server.js:158-160 | one more record counts towards its own category only |
| `Statistics.CategoryCountsAt` | server.js:158-160 | under each key, the map the loop builds holds exactly the categories that occur, each with its number of records |
| `Statistics.CategoryCountsSum` | server.js:158-160 | the per-category counts add up to the number of records |
| `Statistics.CategoryCountsSpec` | server.js:158-160 | the counts name exactly the categories that occur, each with its number of records (at least one), and add up to the total |
| `Statistics.ComputeStats` | server.js:149-160 | total, in-stock and out-of-stock counts that partition the store, and a per-category map built by the loop whose keys are the categories present, whose values count their records and whose sum is the total |
| `Statistics.SeedStockCounts` | server.js:151-152 | the seed store has 2 records in stock and 1 out of stock |
| `Statistics.SeedCategoryCounts` | server.js:158-160 | the seed store has 2 electronics records and 1 kitchen record |
| `Routes.HandleError` | server.js:226-239 | NotFound is 404 and Validation is 400, both with their own message; anything else is 500 "Internal Server Error" |
| `Routes.GetProducts` | server.js:90-121 | always 200 with the listing page, so the window and totals of `Listing.ListSpec` hold for the response; every listed record is in the store and meets the query |
| `Routes.SearchProducts` | server.js:128-144 | 400 exactly when q is missing or empty; 500 exactly when some record makes the callback throw; otherwise 200 with the matches and the query |
| `Routes.GetStats` | server.js:147-166 | always 200 with the total, the in-stock and out-of-stock filter counts (which partition it), and the per-category counts |
| `Routes.GetProduct` | server.js:169-179 | 200 with the first record with that id exactly when there is one; otherwise 404 "Product not found" |
| `Routes.PostProduct` | server.js:182-193 | 401 without the right key, then 400 for an invalid body, otherwise 201 with the appended record; the store changes only on 201 |
| `Routes.PutProduct` | server.js:196-208 | 401, then 400 (checked before the lookup), then 404 for an unknown id, otherwise 200 with the merged record; the store changes only on 200, and only at that index |
| `Routes.DeleteProduct` | server.js:211-223 | 401, then 404 for an unknown id, otherwise 200 with the removed record and the message; no validation; the store changes only on 200 |

## Left out

- Express routing is not modelled: route order (`/search` and `/stats` before `/:id`), the unmatched-route 404 `Route not found`, the welcome text at `/`, `bodyParser`, `app.listen`, the `PORT` variable and `module.exports`. These are transport plumbing. Each route is modelled on its own.
- Request logging and `console.error` are left out, because they are I/O and a clock.
- `uuidv4()` is a foreign call. The create route takes the new id as a parameter instead, and uniqueness is stated only under the assumption that this id is fresh.
- `averagePrice` is left out. It is a floating-point division, and it divides by zero on an empty store.
- `parseInt` on the query string is left out. `page` and `limit` arrive already parsed, with None for a missing or non-numeric value. The pagination lemmas cover page, limit >= 1. Negative values are still handled through `slice` and `Math.ceil`. Doubles beyond 2^53 are not modelled.
- Query parameters repeated in the URL, which the query parser turns into arrays, are not modelled. Every query value is a string.
- `toLowerCase` is modelled for ASCII letters only.
- Numbers are integers. Fractional values, NaN and -0 are not modelled.
- The contents of objects and arrays are not modelled. Neither are body properties other than the six above, which the spread copies into the stored record.
- Statistics.ComputeStats: keys the per-category map by the category value. The source uses the category as a property name, converted to a string, so 5 and "5" share a count there. On a plain object, a name that `Object.prototype` already has (such as `constructor`) gives a non-numeric count. An object category whose conversion to a string throws (such as `{"toString": 1}`) passes validation, and from then on every stats request answers 500. The model cannot show this, because `Obj` has no contents, so the "always 200" of `Routes.GetStats` holds only in the model. The order of keys in the JSON output is not modelled either.
- The listing handler calls `next` without declaring it. That call is unreachable, because listing never throws. The model has no error path for listing.
- Concurrency is not modelled. The server handles one request at a time.
