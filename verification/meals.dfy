/** The meal record, the JSON documents the controller stores in the cache
    store, and the small pieces of logic applied to them: the cache key, the
    access counter, the promotion test and the update field merge. A JSON text
    is modelled by the document it encodes; two texts are equal exactly when
    their documents are. */
module Meals {
  import opened Js
  import Decimal

  datatype Option<T> = None | Some(value: T)

  /** The columns of a row of the meals table. */
  datatype Columns = Columns(
    id: nat,
    title: Value,
    price: Value,
    availableQuantity: Value,
    image: Value,
    description: Value)

  /** The associated rows (ratings, comments, order-detail lines), each
      abstracted to an identifier. */
  datatype Related = Related(ratings: seq<int>, comments: seq<int>, orderDetails: seq<int>)

  /** A meal as the database holds it. */
  datatype Meal = Meal(columns: Columns, related: Related)

  /** Which associations a lookup loaded: none (`findById` without `include`),
      ratings only (`findAll` in `list`), or all three. */
  datatype Include = Bare | WithRatings | WithAll

  /** The `count` field of a cached document: missing, `null` (what a NaN
      becomes in JSON), or a number. */
  datatype CountField = Missing | JsonNull | Num(n: int)

  /** A serialized meal: its columns, the associations that were loaded, and
      the access counter. */
  datatype Doc = Doc(
    columns: Columns,
    ratings: Option<seq<int>>,
    comments: Option<seq<int>>,
    orderDetails: Option<seq<int>>,
    count: CountField)

  /** The request body fields `create` and `update` read. */
  datatype Body = Body(
    title: Value,
    price: Value,
    availableQuantity: Value,
    image: Value,
    description: Value)

  /** A document carries the whole record when all three associations are present. */
  predicate Loaded(d: Doc)
  {
    d.ratings.Some? && d.comments.Some? && d.orderDetails.Some?
  }

  /** Decoding a document back into a record; only a fully loaded one has all of it. */
  function ToMeal(d: Doc): (r: Option<Meal>)
    ensures r.Some? <==> Loaded(d)
    ensures r.Some? ==> r.value.columns == d.columns
  {
    if Loaded(d) then
      Some(Meal(d.columns, Related(d.ratings.value, d.comments.value, d.orderDetails.value)))
    else None
  }

  /** `JSON.stringify` of a meal instance: no counter, and the associations the
      lookup included. */
  function Snapshot(m: Meal, inc: Include): (d: Doc)
    ensures d.columns == m.columns && d.count == Missing
    ensures inc == WithAll <==> ToMeal(d) == Some(m)
    ensures inc == Bare ==> d.ratings == None
  {
    Doc(m.columns,
        if inc == Bare then None else Some(m.related.ratings),
        if inc == WithAll then Some(m.related.comments) else None,
        if inc == WithAll then Some(m.related.orderDetails) else None,
        Missing)
  }

  /** The entry a cache miss stores: the fully loaded record with `count = 0`. */
  function Seed(m: Meal): (d: Doc)
    ensures ToMeal(d) == Some(m)
    ensures d.count == Num(0)
  {
    Snapshot(m, WithAll).(count := Num(0))
  }

  /** The cache key of a meal, `meal` followed by its identifier. */
  function Key(id: nat): (k: string)
    ensures |k| > 4 && k[..4] == "meal"
  {
    "meal" + Decimal.NatToString(id)
  }

  lemma KeyInjective(a: nat, b: nat)
    ensures Key(a) == Key(b) <==> a == b
  {
    if Key(a) == Key(b) {
      assert Decimal.NatToString(a) == Key(a)[4..] == Key(b)[4..] == Decimal.NatToString(b);
      Decimal.NatToStringInjective(a, b);
    }
  }

  /** The promotion test `meal.count > 1`: false for a missing or null count. */
  predicate IsPopular(c: CountField)
    ensures IsPopular(c) ==> c.Num?
    ensures c.Num? ==> (IsPopular(c) <==> c.n > 1)
  {
    c.Num? && c.n > 1
  }

  /** The counter values reads can leave behind: missing, null, or 0 to 2. */
  predicate CountBounded(c: CountField)
  {
    c == Missing || c == JsonNull || (c.Num? && 0 <= c.n <= 2)
  }

  /** `meal.count++` followed by a JSON round trip: a missing count becomes
      NaN and is stored as null, null counts as 0. */
  function Increment(c: CountField): (r: CountField)
    ensures r.Num? <==> !c.Missing?
    ensures c == Missing ==> r == JsonNull
    ensures c == JsonNull ==> r == Num(1)
    ensures c.Num? ==> r.n == c.n + 1
    ensures CountBounded(c) && !IsPopular(c) ==> CountBounded(r)
  {
    match c
    case Missing => JsonNull
    case JsonNull => Num(1)
    case Num(n) => Num(n + 1)
  }

  /** The `update` merge: each field takes the request value when that value
      is truthy, and keeps the stored value otherwise. */
  function Merge(c: Columns, b: Body): (r: Columns)
    ensures r.id == c.id
  {
    c.(title := Or(b.title, c.title),
       price := Or(b.price, c.price),
       availableQuantity := Or(b.availableQuantity, c.availableQuantity),
       image := Or(b.image, c.image),
       description := Or(b.description, c.description))
  }

  lemma MergeTakesSuppliedFields(c: Columns, b: Body)
    ensures var r := Merge(c, b);
      (r.title == if Truthy(b.title) then b.title else c.title) &&
      (r.price == if Truthy(b.price) then b.price else c.price) &&
      (r.availableQuantity == if Truthy(b.availableQuantity) then b.availableQuantity else c.availableQuantity) &&
      (r.image == if Truthy(b.image) then b.image else c.image) &&
      (r.description == if Truthy(b.description) then b.description else c.description)
  {
  }

  /** Merging the same body twice changes nothing more. */
  lemma MergeIdempotent(c: Columns, b: Body)
    ensures Merge(Merge(c, b), b) == Merge(c, b)
  {
  }

  /** A body with no truthy field leaves the record as it was. */
  lemma MergeFalsyBodyIsIdentity(c: Columns, b: Body)
    requires !Truthy(b.title) && !Truthy(b.price) && !Truthy(b.availableQuantity)
    requires !Truthy(b.image) && !Truthy(b.description)
    ensures Merge(c, b) == c
  {
  }
}
