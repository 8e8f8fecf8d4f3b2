/** What the meal controller's handlers promise, stated over the transitions
    of `MealCache`: the outcome of each branch, the invariant they keep, the
    keys and members they leave alone, and what several calls in a row do. */
module MealCacheProperties {
  import opened Js
  import opened Meals
  import opened MealCache

  // ---- the invariant ----

  /** A fresh cache store over any table whose rows carry their own identifiers. */
  lemma EmptyCacheIsValid(db: map<nat, Meal>, nextId: nat)
    requires forall id :: id in db ==> db[id].columns.id == id && id < nextId
    ensures Valid(Store(map[], {}, db, nextId))
  {
  }

  lemma GetOnePreservesValid(s: Store, id: nat, f: Faults)
    requires Valid(s)
    ensures Valid(GetOne(s, id, f).store)
  {
  }

  lemma UpdatePreservesValid(s: Store, id: nat, body: Body, f: Faults)
    requires Valid(s)
    ensures Valid(Update(s, id, body, f).store)
  {
  }

  lemma DestroyPreservesValid(s: Store, id: nat, f: Faults)
    requires Valid(s)
    ensures Valid(Destroy(s, id, f).store)
  {
  }

  lemma CreatePreservesValid(s: Store, body: Body, f: Faults)
    requires Valid(s)
    ensures Valid(Create(s, body, f).store)
  {
  }

  /** Counters in the cache never exceed 2: reads seed 0 and increment only
      while the count is not above 1. */
  lemma CachedCountAtMostTwo(s: Store, id: nat)
    requires Valid(s) && Key(id) in s.cache
    ensures CountBounded(s.cache[Key(id)].count)
    ensures s.cache[Key(id)].columns.id == id
  {
    var d := s.cache[Key(id)];
    assert EntryFor(s, Key(id), d);
    KeyInjective(id, d.columns.id);
  }

  /** A cached entry decodes to the current row of its meal. This rests on
      the cache writes of `update` and `destroy` succeeding, which the model
      assumes: a failed `set` or `del` there would leave a stale or deleted
      entry for later reads to serve. */
  lemma CacheAgreesWithDatabase(s: Store, id: nat)
    requires Valid(s) && Key(id) in s.cache
    ensures id in s.db && ToMeal(s.cache[Key(id)]) == Some(s.db[id])
  {
    CachedCountAtMostTwo(s, id);
  }

  // ---- getOne, branch by branch ----

  lemma GetOneCacheReadError(s: Store, id: nat, f: Faults)
    requires f.cacheRead
    ensures GetOne(s, id, f) == Step(s, Sent(500, ErrorObject))
  {
  }

  lemma GetOneMissSeeds(s: Store, id: nat, f: Faults)
    requires !f.cacheRead && Key(id) !in s.cache && !f.dbRead && id in s.db
    ensures var r := GetOne(s, id, f);
      r.reply == Sent(200, OneDoc(Seed(s.db[id]))) &&
      r.store.popular == s.popular && r.store.db == s.db &&
      r.store.cache == (if f.cacheWrite then s.cache else s.cache[Key(id) := Seed(s.db[id])])
  {
  }

  lemma GetOneMissNotFound(s: Store, id: nat, f: Faults)
    requires !f.cacheRead && Key(id) !in s.cache && !f.dbRead && id !in s.db
    ensures GetOne(s, id, f) == Step(s, Sent(404, Message("Meal Not Found")))
  {
  }

  lemma GetOneMissDatabaseError(s: Store, id: nat, f: Faults)
    requires !f.cacheRead && Key(id) !in s.cache && f.dbRead
    ensures GetOne(s, id, f) == Step(s, Sent(500, ErrorObject))
  {
  }

  lemma GetOneHitIncrements(s: Store, id: nat, f: Faults)
    requires !f.cacheRead && Key(id) in s.cache
    requires !IsPopular(s.cache[Key(id)].count)
    ensures var cached := s.cache[Key(id)];
      var bumped := cached.(count := Increment(cached.count));
      GetOne(s, id, f) ==
        if f.cacheWrite then Step(s, Sent(500, ErrorObject))
        else Step(s.(cache := s.cache[Key(id) := bumped]), Sent(200, OneDoc(bumped)))
  {
  }

  lemma GetOneHitPromotes(s: Store, id: nat, f: Faults)
    requires !f.cacheRead && Key(id) in s.cache && IsPopular(s.cache[Key(id)].count)
    ensures GetOne(s, id, f) == Step(s.(popular := s.popular + {s.cache[Key(id)]}), NoReply)
  {
  }

  /** Once promoted, further reads change nothing: the snapshot is already a member. */
  lemma PromotionIsIdempotent(s: Store, id: nat, f: Faults)
    requires !f.cacheRead && Key(id) in s.cache && IsPopular(s.cache[Key(id)].count)
    ensures var once := GetOne(s, id, f);
      GetOne(once.store, id, f) == once
  {
  }

  /** In a valid store, what a read promotes is the record with count 2. */
  lemma PromotedSnapshotHasCountTwo(s: Store, id: nat, f: Faults)
    requires Valid(s) && !f.cacheRead && Key(id) in s.cache && IsPopular(s.cache[Key(id)].count)
    ensures var d := s.cache[Key(id)];
      d.count == Num(2) && id in s.db && ToMeal(d) == Some(s.db[id])
  {
    CachedCountAtMostTwo(s, id);
    CacheAgreesWithDatabase(s, id);
  }

  // ---- popular query ----

  /** Everything the popular query returns is a full record with count 2 or
      no count at all. */
  lemma MostPopularShape(s: Store, f: Faults)
    requires Valid(s) && !f.cacheRead
    ensures forall d :: d in MostPopular(s, f).payload.docs ==> PopularShaped(d)
  {
  }

  // ---- update ----

  lemma UpdateNotFound(s: Store, id: nat, body: Body, f: Faults)
    requires !f.dbRead && id !in s.db
    ensures Update(s, id, body, f) == Step(s, Sent(404, Message("Meal Not Found")))
  {
  }

  lemma UpdateDatabaseError(s: Store, id: nat, body: Body, f: Faults)
    requires f.dbRead || (id in s.db && f.dbWrite)
    ensures Update(s, id, body, f) == Step(s, Sent(500, ErrorObject))
  {
  }

  lemma UpdatePropagates(s: Store, id: nat, body: Body, f: Faults)
    requires !f.dbRead && id in s.db && !f.dbWrite
    ensures var r := Update(s, id, body, f);
      var before := Snapshot(s.db[id], WithAll);
      var after := Snapshot(r.store.db[id], WithAll);
      id in r.store.db &&
      r.store.db[id].columns == Merge(s.db[id].columns, body) &&
      r.store.db[id].related == s.db[id].related &&
      r.store.cache == s.cache[Key(id) := after] &&
      after in r.store.popular &&
      (before != after ==> before !in r.store.popular) &&
      (forall d :: d != before && d != after ==> (d in r.store.popular <==> d in s.popular)) &&
      r.reply == Sent(200, OneDoc(after))
  {
  }

  /** A promoted snapshot carries a count and the pre-update snapshot does
      not, so an update never removes what a read promoted. */
  lemma UpdateKeepsPromotedSnapshots(s: Store, id: nat, body: Body, f: Faults, d: Doc)
    requires d in s.popular && d.count == Num(2)
    ensures d in Update(s, id, body, f).store.popular
  {
  }

  // ---- destroy ----

  lemma DestroyNotFound(s: Store, id: nat, f: Faults)
    requires !f.dbRead && id !in s.db
    ensures Destroy(s, id, f) == Step(s, Sent(500, Message("Meal Not Found")))
  {
  }

  lemma DestroyDatabaseError(s: Store, id: nat, f: Faults)
    requires f.dbRead || (id in s.db && f.dbWrite)
    ensures Destroy(s, id, f) == Step(s, Sent(500, ErrorObject))
  {
  }

  lemma DestroyInvalidates(s: Store, id: nat, f: Faults)
    requires !f.dbRead && id in s.db && !f.dbWrite
    ensures var r := Destroy(s, id, f);
      var before := Snapshot(s.db[id], Bare);
      id !in r.store.db && Key(id) !in r.store.cache && before !in r.store.popular &&
      (forall k :: k != Key(id) ==> (k in r.store.cache <==> k in s.cache)) &&
      (forall k :: k != Key(id) && k in r.store.cache ==> r.store.cache[k] == s.cache[k]) &&
      (forall d :: d != before ==> (d in r.store.popular <==> d in s.popular))
  {
  }

  /** The snapshot `destroy` removes is taken without associations, while
      every popular member has them: in a valid store the removal never
      matches, and the popular set is left as it was. */
  lemma DestroyNeverShrinksPopular(s: Store, id: nat, f: Faults)
    requires Valid(s)
    ensures Destroy(s, id, f).store.popular == s.popular
  {
  }

  // ---- other meals are not touched ----

  /** No handler changes the cache entry or the row of a meal other than the
      one it was called for. */
  lemma HandlersTouchOnlyTheirMeal(s: Store, id: nat, other: nat, body: Body, f: Faults)
    requires other != id
    ensures var k := Key(other);
      var g, u, d := GetOne(s, id, f).store, Update(s, id, body, f).store, Destroy(s, id, f).store;
      (k in g.cache <==> k in s.cache) && (k in s.cache ==> g.cache[k] == s.cache[k]) &&
      (k in u.cache <==> k in s.cache) && (k in s.cache ==> u.cache[k] == s.cache[k]) &&
      (k in d.cache <==> k in s.cache) && (k in s.cache ==> d.cache[k] == s.cache[k]) &&
      (other in u.db <==> other in s.db) && (other in s.db ==> u.db[other] == s.db[other]) &&
      (other in d.db <==> other in s.db) && (other in s.db ==> d.db[other] == s.db[other])
  {
    KeyInjective(id, other);
  }

  // ---- several calls in a row ----

  /** Four reads of an uncached meal: seeded with 0, then 1, then 2, then the
      entry with count 2 joins the popular set and no reply is sent; a fifth
      read changes nothing. */
  lemma FourReads(s: Store, id: nat)
    requires id in s.db && Key(id) !in s.cache
    ensures var r1 := GetOne(s, id, NoFaults);
      var r2 := GetOne(r1.store, id, NoFaults);
      var r3 := GetOne(r2.store, id, NoFaults);
      var r4 := GetOne(r3.store, id, NoFaults);
      var seeded := Seed(s.db[id]);
      r1.reply == Sent(200, OneDoc(seeded)) &&
      r2.reply == Sent(200, OneDoc(seeded.(count := Num(1)))) &&
      r3.reply == Sent(200, OneDoc(seeded.(count := Num(2)))) &&
      r3.store == s.(cache := s.cache[Key(id) := seeded.(count := Num(2))]) &&
      r4 == Step(r3.store.(popular := s.popular + {seeded.(count := Num(2))}), NoReply) &&
      GetOne(r4.store, id, NoFaults) == r4
  {
    var seeded := Seed(s.db[id]);
    var r1 := GetOne(s, id, NoFaults);
    assert r1.store.cache[Key(id)] == seeded;
    var r2 := GetOne(r1.store, id, NoFaults);
    assert r2.store.cache[Key(id)] == seeded.(count := Num(1));
    var r3 := GetOne(r2.store, id, NoFaults);
    assert r3.store.cache[Key(id)] == seeded.(count := Num(2));
    assert r3.store.cache == s.cache[Key(id) := seeded.(count := Num(2))];
    var r4 := GetOne(r3.store, id, NoFaults);
    PromotionIsIdempotent(r3.store, id, NoFaults);
  }

  /** After an update the cached entry has no count; the next read stores
      `null` (the NaN of `undefined + 1`), and the read after that stores 1. */
  lemma ReadsAfterUpdate(s: Store, id: nat, body: Body)
    requires id in s.db
    ensures var u := Update(s, id, body, NoFaults).store;
      var after := Snapshot(u.db[id], WithAll);
      var g1 := GetOne(u, id, NoFaults);
      var g2 := GetOne(g1.store, id, NoFaults);
      g1.reply == Sent(200, OneDoc(after.(count := JsonNull))) &&
      g2.reply == Sent(200, OneDoc(after.(count := Num(1))))
  {
  }

  /** Updating then deleting a meal leaves its post-update snapshot in the
      popular set, though the meal is gone from the table and the cache. */
  lemma DeletedMealStaysPopular(s: Store, id: nat, body: Body)
    requires Valid(s) && id in s.db
    ensures var u := Update(s, id, body, NoFaults).store;
      var after := Snapshot(u.db[id], WithAll);
      var d := Destroy(u, id, NoFaults).store;
      id !in d.db && Key(id) !in d.cache && after in d.popular && after.columns.id == id
  {
  }
}
