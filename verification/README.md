# Meal cache and popularity promotion

A Dafny model of the meal controller of a food-ordering backend
(`controllers/meal.js`). The controller has a read-through cache in Redis: a
string key `meal<id>` holds a JSON copy of the meal with an access counter
`count`. A meal that is read often enough has its copy added to the Redis set
`mostPopularMeals`. The `update` and `destroy` handlers write to the meals
table first. They then overwrite or delete the key and take a snapshot out of
the set.

The model has six modules:

- `Js` covers JavaScript values, truthiness and `||`.
- `Decimal` renders the identifier inside the key and proves that no two
  identifiers share a key.
- `Meals` holds the meal record and the JSON documents stored in Redis
  (`Doc`). It also has the counter, the promotion test and the update merge.
- `MealCache` gives each handler as a transition of one abstract state: the
  key map, the popular set and the table. It also defines the invariant
  `Valid`.
- `MealCacheProperties` proves what the handlers promise, one call at a time
  and over several calls.
- `Controller` has the class `MealController`. Its fields are the key map, the
  popular set and the table. Its handlers update those fields step by step, in
  the order of the code's remote calls. Each one is proved to perform exactly
  the `MealCache` transition and to keep `Valid`.

Some remote-call failures are inputs (`Faults`): a cache `get` or `smembers`,
either `set` in `getOne` (the seeding one, whose error is ignored, and the
write-back, whose error answers 500), a table lookup, and a table write. A JSON text is modelled by the document it
encodes.

Some behaviours follow from the code as written. Each is proved:

- A read that finds `count > 1` adds the cached text to the popular set and
  sends no response. The model replies `NoReply`.
- `update` caches `JSON.stringify(updatedMeal)`, which has no `count`. The
  next read computes `undefined + 1`, which is NaN, and stores it as `null`.
  The read after that stores 1 (`ReadsAfterUpdate`).
- The snapshot that `update` removes has no `count`. A promoted snapshot has
  `count: 2`, so an update never removes one (`UpdateKeepsPromotedSnapshots`).
- `destroy` looks the meal up without its associations. The snapshot it
  removes therefore never equals a member of the popular set, and the set is
  left as it was (`DestroyNeverShrinksPopular`). An updated and then deleted
  meal stays listed as popular (`DeletedMealStaysPopular`).
- A miss replies with `meal`, not the cached copy, but the copy is the
  instance's own `dataValues` object. Setting its `count` to 0 therefore puts
  `count: 0` into the reply as well, and the model replies with the seeded
  entry.
- A failed seeding `set` on a miss still answers 200 with the seeded entry,
  because its callback ignores the error. The key is then not written.

## Model

| member | source | states |
|---|---|---|
| `Js.Truthy` | controllers/meal.js:164-168 | undefined, null, false, 0 and the empty string are falsy; every other value is truthy |
| `Js.Or` | controllers/meal.js:164-168 | the logical-or operator yields its left operand when that is truthy and its right operand otherwise; the result is truthy iff either operand is |
| `Decimal.Digit` | controllers/meal.js:69 | a digit renders as a character between '0' and '9', and as '0' only for 0 |
| `Decimal.NatToString` | controllers/meal.js:69 | the decimal numeral of an identifier is non-empty, all digits, one character exactly below 10, and has no leading zero |
| `Decimal.NatToStringInjective` | controllers/meal.js:69 | distinct identifiers render as distinct numerals |
| `Meals.ToMeal` | controllers/meal.js:74 | decoding a cached document gives a record exactly when all associations are present, with the document's columns |
| `Meals.Snapshot` | controllers/meal.js:171 | `JSON.stringify` of a meal has no count; it decodes back to the meal exactly when all associations were loaded; a lookup without includes has no ratings |
| `Meals.Seed` | controllers/meal.js:108-110 | the entry a miss caches decodes back to the record and has `count = 0` |
| `Meals.Key` | controllers/meal.js:69 | a cache key is `meal` followed by a non-empty identifier |
| `Meals.KeyInjective` | controllers/meal.js:69 | two meals share a cache key iff they are the same meal |
| `Meals.IsPopular` | controllers/meal.js:77 | a count is popular exactly when it is a number above 1; a missing or null count never is |
| `Meals.Increment` | controllers/meal.js:80-81 | `count++` turns a missing count into null (NaN, stored as null) and null into 1, adds one to a number, and keeps the count within 0..2 when it was not above 1 |
| `Meals.Merge` | controllers/meal.js:163-169 | the update merge never changes the identifier |
| `Meals.MergeTakesSuppliedFields` | controllers/meal.js:164-168 | each of the five fields takes the request value when it is truthy and keeps the stored one otherwise |
| `Meals.MergeIdempotent` | controllers/meal.js:163-169 | applying the same request twice equals applying it once |
| `Meals.MergeFalsyBodyIsIdentity` | controllers/meal.js:163-169 | a request with no truthy field leaves the record unchanged |
| `MealCache.GetOne` | controllers/meal.js:66-119 | a read never touches the table, changes the popular set only on the no-reply promotion branch, and leaves every other key as it was |
| `MealCache.MostPopular` | controllers/meal.js:126-133 | the popular query answers 500 with an error object when `smembers` fails, and otherwise 200 with exactly the set's members |
| `MealCache.Update` | controllers/meal.js:141-187 | an update keeps the table's identifiers; it changes nothing unless the meal exists and the answer is 200 |
| `MealCache.Destroy` | controllers/meal.js:194-214 | a delete only shrinks the table and the popular set; it changes nothing unless the meal existed and the answer is 'Meal deleted.' |
| `MealCache.Create` | controllers/meal.js:23-37 | creating a meal never touches the cache or the popular set; it adds exactly the next identifier, or answers 500 and changes nothing |
| `MealCache.List` | controllers/meal.js:46-59 | listing answers 500 with an error object on a failed read; otherwise 200 with exactly the rows' snapshots with ratings, none carrying a count or all associations |
| `MealCacheProperties.EmptyCacheIsValid` | controllers/meal.js:4-9 | an empty cache store over a well-keyed table satisfies the invariant |
| `MealCacheProperties.GetOnePreservesValid` | controllers/meal.js:66-119 | reads keep the invariant: each entry is its meal's current record under its own key with count missing, null or 0..2, and popular members are full records with count 2 or none |
| `MealCacheProperties.UpdatePreservesValid` | controllers/meal.js:141-187 | updates keep the invariant |
| `MealCacheProperties.DestroyPreservesValid` | controllers/meal.js:194-214 | deletes keep the invariant |
| `MealCacheProperties.CreatePreservesValid` | controllers/meal.js:23-37 | creates keep the invariant |
| `MealCacheProperties.CachedCountAtMostTwo` | controllers/meal.js:77-80 | in a valid state a cached counter is missing, null or between 0 and 2, and the entry under `meal<id>` is meal `id`'s |
| `MealCacheProperties.CacheAgreesWithDatabase` | controllers/meal.js:102-113 | in a valid state a cached entry decodes to the meal's current row; this rests on the cache writes of `update` and `destroy` succeeding, which the model assumes |
| `MealCacheProperties.GetOneCacheReadError` | controllers/meal.js:69-72 | a failed cache read answers 500 and changes nothing, without consulting the table |
| `MealCacheProperties.GetOneMissSeeds` | controllers/meal.js:102-113 | a miss on an existing meal answers 200 with the seeded entry and caches it with count 0 (unless that write fails, which is ignored); the popular set and table are unchanged |
| `MealCacheProperties.GetOneMissNotFound` | controllers/meal.js:102-107 | a miss on a missing meal answers 404 'Meal Not Found' and changes nothing |
| `MealCacheProperties.GetOneMissDatabaseError` | controllers/meal.js:114-116 | a failed table lookup after a miss answers 500 and changes nothing |
| `MealCacheProperties.GetOneHitIncrements` | controllers/meal.js:79-86 | a hit whose count is not above 1 (missing, null, or a number up to 1) stores the same entry with the count incremented, a missing count becoming null, and returns it; a failed write-back answers 500 and changes nothing |
| `MealCacheProperties.GetOneHitPromotes` | controllers/meal.js:77-78 | a hit with count above 1 adds the exact cached entry to the popular set, writes no key and sends no reply |
| `MealCacheProperties.PromotionIsIdempotent` | controllers/meal.js:77-78 | a second read of a promoted entry changes nothing |
| `MealCacheProperties.PromotedSnapshotHasCountTwo` | controllers/meal.js:77-80 | in a valid state what a read promotes is the meal's current record with count 2 |
| `MealCacheProperties.MostPopularShape` | controllers/meal.js:126-133 | every returned popular member is a full record with count 2 or no count |
| `MealCacheProperties.UpdateNotFound` | controllers/meal.js:156-160 | updating a missing meal answers 404 'Meal Not Found' and changes nothing |
| `MealCacheProperties.UpdateDatabaseError` | controllers/meal.js:184-186 | a failed lookup or write answers 500 and changes nothing |
| `MealCacheProperties.UpdatePropagates` | controllers/meal.js:162-180 | the row gets the merged fields; the key holds the post-update snapshot; that snapshot is in the set and a different pre-update snapshot is not; other members are untouched; the reply is the post-update snapshot |
| `MealCacheProperties.UpdateKeepsPromotedSnapshots` | controllers/meal.js:171-175 | a snapshot promoted by reads (count 2) survives any update |
| `MealCacheProperties.DestroyNotFound` | controllers/meal.js:198-203 | deleting a missing meal answers 500 'Meal Not Found' and changes nothing |
| `MealCacheProperties.DestroyDatabaseError` | controllers/meal.js:204-213 | a failed lookup or delete answers 500 and changes nothing |
| `MealCacheProperties.DestroyInvalidates` | controllers/meal.js:204-210 | after a delete the row and the key are gone and the pre-delete snapshot is not in the set; other keys and members are untouched |
| `MealCacheProperties.DestroyNeverShrinksPopular` | controllers/meal.js:196-208 | in a valid state the snapshot a delete removes is never in the set, so the set is unchanged |
| `MealCacheProperties.HandlersTouchOnlyTheirMeal` | controllers/meal.js:69-209 | reading, updating or deleting a meal leaves every other meal's key and row as they were |
| `MealCacheProperties.FourReads` | controllers/meal.js:66-119 | four reads of an uncached meal answer with counts 0, 1 and 2, then promote the count-2 entry without replying; a fifth read changes nothing |
| `MealCacheProperties.ReadsAfterUpdate` | controllers/meal.js:80-85 | after an update the next read answers count null, and the one after answers count 1 |
| `MealCacheProperties.DeletedMealStaysPopular` | controllers/meal.js:171-209 | after an update then a delete, the meal is gone from table and cache but its post-update snapshot stays in the popular set |
| `Controller.MealController.constructor` | controllers/meal.js:4-9 | a controller starts over the given table with an empty key map and popular set, satisfying the invariant |
| `Controller.MealController.GetOne` | controllers/meal.js:66-119 | the read handler performs exactly the `MealCache.GetOne` transition, keeps the invariant, and leaves the table alone |
| `Controller.MealController.GetMostPopularMeals` | controllers/meal.js:126-133 | the popular query changes nothing; it answers 200 with the set, whose members are all full records with count 2 or none, or 500 |
| `Controller.MealController.Update` | controllers/meal.js:141-187 | the update handler performs exactly the `MealCache.Update` transition and keeps the invariant |
| `Controller.MealController.Destroy` | controllers/meal.js:194-214 | the delete handler performs exactly the `MealCache.Destroy` transition, keeps the invariant, and leaves the popular set as it was |
| `Controller.MealController.Create` | controllers/meal.js:23-37 | the create handler performs exactly the `MealCache.Create` transition and never touches the key map or the popular set |
| `Controller.MealController.List` | controllers/meal.js:46-59 | the list handler changes nothing and answers with every row and its ratings, or 500 |

## Left out

- Redis client construction and the `REDIS_URL` switch (controllers/meal.js:4-9) are I/O setup. The store is the controller's fields, starting empty.
- JSON syntax is not modelled. A document stands for its text, with `JSON.stringify` taken as deterministic and injective. Key order is taken to be the same for every serialization of a meal.
- The Sequelize calls are a table map from identifier to record. Instance aliasing is not modelled: `meal` and `updatedMeal` in `update` are the pre- and post-update records, as the text names them. If `update` returned the same instance, the removed snapshot would be the post-update one.
- Timestamps (`createdAt`, `updatedAt`) and ORM validation of field types are not modelled.
- Associated rows are identifiers. Changes to them by other controllers are outside the model.
- Failures of the fire-and-forget `sadd`, `srem` and `del` calls are not modelled, and neither is a failure of the `set` in `update` (controllers/meal.js:78, 173-178, 208-209); each is taken to succeed. The handler's own response does not depend on them, but later ones do. After a failed `del`, the next read of that meal would serve the deleted entry with 200 instead of 404. After a failed `set` in `update`, later reads would serve the pre-update entry. The invariant's clause that a cached entry is its meal's current row (`MealCache.Valid`, `MealCacheProperties.CacheAgreesWithDatabase`) holds only under this assumption. Only the two `set` calls in `getOne` (controllers/meal.js:81, 110) are modelled with their failures.
- Each handler is one atomic step. Interleavings of the asynchronous callbacks and concurrent requests are not modelled.
- `price` and other numbers are integers, not floats. NaN appears only as the `null` a NaN count is stored as.
- The route parameter `mealId` is a natural number rendered in decimal. A non-canonical string such as `07` would give a different key for the same row; that is not modelled.
- `list` returns rows in table order; the model returns them as a set.
- HTTP responses are reduced to a status and a payload tag. The message of a 500 from a thrown error is abstract.
- `controllers/user.js` (hashing, tokens, validation) and `routes/article-routes.js` (routing) are not part of this model.
