/** The meal controller's handlers as transitions of one abstract state: the
    cache store (string keys to documents, plus the `mostPopularMeals` set) and
    the meals table. Each handler is one atomic step. Store and database
    failures that reads can observe are inputs (`Faults`). */
module MealCache {
  import opened Js
  import opened Meals

  datatype Store = Store(
    cache: map<string, Doc>,  // the `meal<id>` string keys
    popular: set<Doc>,        // the `mostPopularMeals` set
    db: map<nat, Meal>,       // the meals table, by identifier
    nextId: nat)              // the table's next auto-increment identifier

  /** Which remote calls fail: a cache read (`get`, `smembers`), either
      cache `set` in `getOne`, a database lookup, a database
      write (`create`, `update`, `destroy`). */
  datatype Faults = Faults(cacheRead: bool, cacheWrite: bool, dbRead: bool, dbWrite: bool)

  const NoFaults := Faults(false, false, false, false)

  datatype Payload = OneDoc(doc: Doc) | Docs(docs: set<Doc>) | Message(text: string) | ErrorObject

  /** The HTTP response a handler sends, or none at all. */
  datatype Reply = Sent(status: int, payload: Payload) | NoReply

  datatype Step = Step(store: Store, reply: Reply)

  const NotFoundMessage := "Meal Not Found"
  const DeletedMessage := "Meal deleted."
  const ServerError := Sent(500, ErrorObject)

  /** A cache entry under key `k` is the fully loaded record of the meal whose
      key `k` is, that meal is in the table, and its counter is bounded. */
  predicate EntryFor(s: Store, k: string, d: Doc)
  {
    var id := d.columns.id;
    k == Key(id) && id in s.db && ToMeal(d) == Some(s.db[id]) && CountBounded(d.count)
  }

  /** Every member of the popular set is a fully loaded document whose count
      is either missing (added by `update`) or 2 (added by promotion). */
  predicate PopularShaped(d: Doc)
  {
    Loaded(d) && (d.count == Missing || d.count == Num(2))
  }

  /** The invariant every handler keeps. */
  predicate Valid(s: Store)
  {
    (forall id :: id in s.db ==> s.db[id].columns.id == id && id < s.nextId) &&
    (forall k :: k in s.cache ==> EntryFor(s, k, s.cache[k])) &&
    (forall d :: d in s.popular ==> PopularShaped(d))
  }

  /** `getOne`: read-through lookup, counter increment, promotion. */
  function GetOne(s: Store, id: nat, f: Faults): (r: Step)
    ensures r.store.db == s.db && r.store.nextId == s.nextId
    ensures r.store.popular == s.popular || r.reply == NoReply
    ensures forall k :: k != Key(id) && k in s.cache ==> k in r.store.cache && r.store.cache[k] == s.cache[k]
    ensures forall k :: k != Key(id) && k in r.store.cache ==> k in s.cache
  {
    if f.cacheRead then Step(s, ServerError)
    else if Key(id) in s.cache then
      var meal := s.cache[Key(id)];
      if IsPopular(meal.count) then
        Step(s.(popular := s.popular + {meal}), NoReply)
      else
        var bumped := meal.(count := Increment(meal.count));
        if f.cacheWrite then Step(s, ServerError)
        else Step(s.(cache := s.cache[Key(id) := bumped]), Sent(200, OneDoc(bumped)))
    else if f.dbRead then Step(s, ServerError)
    else if id !in s.db then Step(s, Sent(404, Message(NotFoundMessage)))
    else
      // `mealToCache` is the instance's own `dataValues`, so setting its
      // count to 0 also puts `count: 0` into the `meal` the reply sends
      var seeded := Seed(s.db[id]);
      // the callback of this `set` ignores its error
      var cache := if f.cacheWrite then s.cache else s.cache[Key(id) := seeded];
      Step(s.(cache := cache), Sent(200, OneDoc(seeded)))
  }

  /** `getMostPopularMeals`: the members of the popular set. */
  function MostPopular(s: Store, f: Faults): (r: Reply)
    ensures r.Sent? && (r.status == 200 <==> !f.cacheRead)
    ensures f.cacheRead ==> r == ServerError
    ensures r.status == 200 ==> r.payload.Docs? && forall d :: d in r.payload.docs <==> d in s.popular
  {
    if f.cacheRead then ServerError else Sent(200, Docs(s.popular))
  }

  /** `update`: merge the body into the record, then swap the snapshot in the
      popular set and overwrite the cache key. */
  function Update(s: Store, id: nat, body: Body, f: Faults): (r: Step)
    ensures r.store.nextId == s.nextId
    ensures r.store.db.Keys == s.db.Keys
    ensures r.store == s || (id in s.db && r.reply.Sent? && r.reply.status == 200)
  {
    if f.dbRead then Step(s, ServerError)
    else if id !in s.db then Step(s, Sent(404, Message(NotFoundMessage)))
    else if f.dbWrite then Step(s, ServerError)
    else
      var meal := s.db[id];
      var updated := meal.(columns := Merge(meal.columns, body));
      var before := Snapshot(meal, WithAll);
      var after := Snapshot(updated, WithAll);
      Step(Store(s.cache[Key(id) := after], s.popular - {before} + {after}, s.db[id := updated], s.nextId),
           Sent(200, OneDoc(after)))
  }

  /** `destroy`: delete the row, then remove its snapshot from the popular set
      and its key from the cache. The lookup loads no associations. */
  function Destroy(s: Store, id: nat, f: Faults): (r: Step)
    ensures r.store.nextId == s.nextId
    ensures r.store.popular <= s.popular && r.store.db.Keys <= s.db.Keys
    ensures r.store == s || (id in s.db && r.reply == Sent(200, Message(DeletedMessage)))
  {
    if f.dbRead then Step(s, ServerError)
    else if id !in s.db then Step(s, Sent(500, Message(NotFoundMessage)))
    else if f.dbWrite then Step(s, ServerError)
    else
      var before := Snapshot(s.db[id], Bare);
      Step(Store(s.cache - {Key(id)}, s.popular - {before}, s.db - {id}, s.nextId),
           Sent(200, Message(DeletedMessage)))
  }

  /** `create`: a new row under the next identifier; the cache is not touched. */
  function Create(s: Store, body: Body, f: Faults): (r: Step)
    ensures r.store.cache == s.cache && r.store.popular == s.popular
    ensures !f.dbWrite ==> s.nextId !in s.db ==> r.store.db.Keys == s.db.Keys + {s.nextId}
    ensures f.dbWrite ==> r == Step(s, ServerError)
  {
    if f.dbWrite then Step(s, ServerError)
    else
      var meal := Meal(Columns(s.nextId, body.title, body.price, body.availableQuantity, body.image, body.description),
                       Related([], [], []));
      Step(s.(db := s.db[s.nextId := meal], nextId := s.nextId + 1), Sent(200, OneDoc(Snapshot(meal, Bare))))
  }

  /** `list`: every row, with its ratings. Row order is not modelled. */
  function List(s: Store, f: Faults): (r: Reply)
    ensures r.Sent? && (r.status == 200 <==> !f.dbRead)
    ensures f.dbRead ==> r == ServerError
    ensures r.status == 200 ==> r.payload.Docs?
    ensures r.status == 200 ==> forall id :: id in s.db ==> Snapshot(s.db[id], WithRatings) in r.payload.docs
    ensures r.status == 200 ==> forall d :: d in r.payload.docs ==> exists id :: id in s.db && d == Snapshot(s.db[id], WithRatings)
    ensures r.status == 200 ==> forall d :: d in r.payload.docs ==> d.count == Missing && !Loaded(d)
  {
    if f.dbRead then ServerError
    else Sent(200, Docs(set id | id in s.db :: Snapshot(s.db[id], WithRatings)))
  }
}
