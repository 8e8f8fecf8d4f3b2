/** The meal controller over shared mutable state: the cache store's string
    keys and popular set, and the meals table. Each handler updates the
    fields step by step in the order of the remote calls it makes, and is
    proved to perform exactly the transition `MealCache` describes, keeping
    `MealCache.Valid`. */
module Controller {
  import opened Js
  import opened Meals
  import opened MealCache
  import MealCacheProperties

  class MealController {
    var cache: map<string, Doc>
    var popular: set<Doc>
    var db: map<nat, Meal>
    var nextId: nat

    function State(): Store
      reads this
    {
      Store(cache, popular, db, nextId)
    }

    ghost predicate Valid()
      reads this
    {
      MealCache.Valid(State())
    }

    /** A controller over an existing table and an empty cache store. */
    constructor (rows: map<nat, Meal>, next: nat)
      requires forall id :: id in rows ==> rows[id].columns.id == id && id < next
      ensures Valid()
      ensures cache == map[] && popular == {} && db == rows && nextId == next
    {
      cache, popular, db, nextId := map[], {}, rows, next;
      MealCacheProperties.EmptyCacheIsValid(rows, next);
    }

    method GetOne(id: nat, f: Faults) returns (r: Reply)
      requires Valid()
      modifies this
      ensures Valid()
      ensures Step(State(), r) == MealCache.GetOne(old(State()), id, f)
      ensures db == old(db) && nextId == old(nextId)
    {
      ghost var s := State();
      MealCacheProperties.GetOnePreservesValid(s, id, f);
      var key := Key(id);
      if f.cacheRead {
        return ServerError;
      }
      if key in cache {
        var meal := cache[key];
        if IsPopular(meal.count) {
          popular := popular + {meal};
          r := NoReply;
        } else {
          meal := meal.(count := Increment(meal.count));
          if f.cacheWrite {
            return ServerError;
          }
          cache := cache[key := meal];
          r := Sent(200, OneDoc(meal));
        }
      } else {
        if f.dbRead {
          return ServerError;
        }
        if id !in db {
          return Sent(404, Message(NotFoundMessage));
        }
        var mealToCache := Snapshot(db[id], WithAll);
        mealToCache := mealToCache.(count := Num(0));
        if !f.cacheWrite {
          cache := cache[key := mealToCache];
        }
        r := Sent(200, OneDoc(mealToCache));
      }
    }

    /** Reads the popular set and changes nothing. */
    method GetMostPopularMeals(f: Faults) returns (r: Reply)
      requires Valid()
      ensures r == MostPopular(State(), f)
      ensures r.Sent? && (r.status == 200 <==> !f.cacheRead)
      ensures r.status == 200 ==> r.payload.Docs? && forall d :: d in r.payload.docs ==> PopularShaped(d)
    {
      if f.cacheRead {
        return ServerError;
      }
      r := Sent(200, Docs(popular));
    }

    method Update(id: nat, body: Body, f: Faults) returns (r: Reply)
      requires Valid()
      modifies this
      ensures Valid()
      ensures Step(State(), r) == MealCache.Update(old(State()), id, body, f)
      ensures nextId == old(nextId)
    {
      ghost var s := State();
      MealCacheProperties.UpdatePreservesValid(s, id, body, f);
      if f.dbRead {
        return ServerError;
      }
      if id !in db {
        return Sent(404, Message(NotFoundMessage));
      }
      var meal := db[id];
      if f.dbWrite {
        return ServerError;
      }
      var updatedMeal := meal.(columns := Merge(meal.columns, body));
      db := db[id := updatedMeal];
      var mealToUpdate := Snapshot(meal, WithAll);
      popular := popular - {mealToUpdate};
      popular := popular + {Snapshot(updatedMeal, WithAll)};
      cache := cache[Key(id) := Snapshot(updatedMeal, WithAll)];
      r := Sent(200, OneDoc(Snapshot(updatedMeal, WithAll)));
    }

    method Destroy(id: nat, f: Faults) returns (r: Reply)
      requires Valid()
      modifies this
      ensures Valid()
      ensures Step(State(), r) == MealCache.Destroy(old(State()), id, f)
      ensures popular == old(popular) && nextId == old(nextId)
    {
      ghost var s := State();
      MealCacheProperties.DestroyPreservesValid(s, id, f);
      MealCacheProperties.DestroyNeverShrinksPopular(s, id, f);
      if f.dbRead {
        return ServerError;
      }
      if id !in db {
        return Sent(500, Message(NotFoundMessage));
      }
      var meal := db[id];
      if f.dbWrite {
        return ServerError;
      }
      db := db - {id};
      var mealToDelete := Snapshot(meal, Bare);
      popular := popular - {mealToDelete};
      cache := cache - {Key(id)};
      r := Sent(200, Message(DeletedMessage));
    }

    method Create(body: Body, f: Faults) returns (r: Reply)
      requires Valid()
      modifies this
      ensures Valid()
      ensures Step(State(), r) == MealCache.Create(old(State()), body, f)
      ensures cache == old(cache) && popular == old(popular)
    {
      ghost var s := State();
      MealCacheProperties.CreatePreservesValid(s, body, f);
      if f.dbWrite {
        return ServerError;
      }
      var meal := Meal(Columns(nextId, body.title, body.price, body.availableQuantity, body.image, body.description),
                       Related([], [], []));
      db := db[nextId := meal];
      nextId := nextId + 1;
      r := Sent(200, OneDoc(Snapshot(meal, Bare)));
    }

    /** Reads the table and changes nothing. */
    method List(f: Faults) returns (r: Reply)
      requires Valid()
      ensures r == MealCache.List(State(), f)
      ensures r.Sent? && (r.status == 200 <==> !f.dbRead)
      ensures r.status == 200 ==> r.payload.Docs?
      ensures r.status == 200 ==> forall id :: id in db ==> Snapshot(db[id], WithRatings) in r.payload.docs
    {
      if f.dbRead {
        return ServerError;
      }
      r := Sent(200, Docs(set id | id in db :: Snapshot(db[id], WithRatings)));
    }
  }
}
