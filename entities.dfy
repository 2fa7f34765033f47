/**
 * The single-table key convention and the items each handler writes. Every
 * builder takes the parsed request body and keeps only the fields its
 * destructuring pattern names; decoy fields (client `PK`, `SK`, `createdAt`,
 * `editedAt` where the server mints them) and everything else are dropped.
 */
module Entities {
  import opened Js
  import opened Store

  // ---------------------------------------------------------------------------
  // Key strings
  // ---------------------------------------------------------------------------

  /** `USER#${username}`: both key parts of a user, and the partition of everything the user owns. */
  function UserKey(username: Value): (key: string)
    ensures UserPrefix <= key && key[|UserPrefix|..] == Interp(username)
  {
    "USER#" + Interp(username)
  }

  /** `WORKOUT#${date}`. */
  function WorkoutSortKey(date: Value): (key: string)
    ensures WorkoutPrefix <= key && key[|WorkoutPrefix|..] == Interp(date)
  {
    "WORKOUT#" + Interp(date)
  }

  /** `EXERCISE#${timestamp}#${exerciseName}`. */
  function ExerciseSortKey(timestamp: string, name: Value): (key: string)
    ensures ExercisePrefix <= key && key[|ExercisePrefix|..] == timestamp + "#" + Interp(name)
  {
    "EXERCISE#" + timestamp + "#" + Interp(name)
  }

  /** `TODO#${id}` and `USER#${id}`: the partition and sort key of a generic item. */
  function TodoPartitionKey(id: string): (key: string)
    ensures TodoPrefix <= key && key[|TodoPrefix|..] == id
  {
    "TODO#" + id
  }

  function TodoSortKey(id: string): (key: string)
    ensures UserPrefix <= key && key[|UserPrefix|..] == id
  {
    "USER#" + id
  }

  const UserPrefix := "USER#"
  const TodoPrefix := "TODO#"
  const WorkoutPrefix := "WORKOUT#"
  const ExercisePrefix := "EXERCISE#"
  const SetPrefix := "SET#"

  /** Different usernames give different user keys, so each user has one key. */
  lemma UserKeyInjective(a: string, b: string)
    requires UserKey(Str(a)) == UserKey(Str(b))
    ensures a == b
  {
    assert a == UserKey(Str(a))[5..];
    assert b == UserKey(Str(b))[5..];
  }

  /**
   * Sort keys say what kind of entity they hold: a workout key is found by
   * the workout prefix and by neither the exercise nor the set prefix, and an
   * exercise key the other way round.
   */
  lemma SortKeyKinds(date: Value, timestamp: string, name: Value)
    ensures WorkoutPrefix <= WorkoutSortKey(date)
    ensures !(ExercisePrefix <= WorkoutSortKey(date)) && !(SetPrefix <= WorkoutSortKey(date))
    ensures ExercisePrefix <= ExerciseSortKey(timestamp, name)
    ensures !(WorkoutPrefix <= ExerciseSortKey(timestamp, name)) && !(SetPrefix <= ExerciseSortKey(timestamp, name))
  {
    var w, e := WorkoutSortKey(date), ExerciseSortKey(timestamp, name);
    assert w[0] == 'W' && e[0] == 'E';
    assert w[..|WorkoutPrefix|] == WorkoutPrefix;
    assert e[..|ExercisePrefix|] == ExercisePrefix;
  }

  // ---------------------------------------------------------------------------
  // Sanitising client input
  // ---------------------------------------------------------------------------

  /** Two request bodies that give the same value to each of the named fields. */
  predicate AgreeOn(a: Value, b: Value, names: set<string>)
  {
    forall n | n in names :: Field(a, n) == Field(b, n)
  }

  /** The fields a user record takes from the body (the password reaches it only hashed). */
  const UserFields: set<string> := {"username", "emailAddress"}
  const WorkoutFields: set<string> := {"PK", "targetDay", "location", "date"}
  const ExerciseFields: set<string> := {"PK", "exerciseName", "numberOfSets", "weight", "unitMeasurement"}
  const SetFields: set<string> := {"PK", "SK", "numberOfReps", "weight"}
  const SetPatchFields: set<string> := {"numberOfReps", "weight"}

  /** The properties the generic-item pattern names; whatever else the body holds is `...rest`. */
  const ItemNamed: set<string> := {"priority", "description", "createdAt", "editedAt", "PK", "SK", "data"}

  /** The named properties that are thrown away. */
  const ItemDecoys: set<string> := {"createdAt", "editedAt", "PK", "SK"}

  // ---------------------------------------------------------------------------
  // Items
  // ---------------------------------------------------------------------------

  /** The user record of `POST /users`; `digest` is the hash of the body's password. */
  function NewUser(input: Value, timestamp: string, digest: string): (user: Item)
    ensures user.Keys == {"PK", "SK", "emailAddress", "createdAt", "password"}
    ensures user["PK"] == user["SK"] == Str(UserKey(Field(input, "username")))
    ensures user["emailAddress"] == Field(input, "emailAddress")
    ensures user["createdAt"] == Str(timestamp) && user["password"] == Str(digest)
  {
    var key := UserKey(Field(input, "username"));
    map[
      "PK" := Str(key),
      "SK" := Str(key),
      "emailAddress" := Field(input, "emailAddress"),
      "createdAt" := Str(timestamp),
      "password" := Str(digest)
    ]
  }

  /** The workout of `POST /workouts`: the owner's `PK` from the body, the sort key from the date. */
  function NewWorkout(input: Value, timestamp: string): (workout: Item)
    ensures workout.Keys == {"PK", "SK", "targetDay", "location", "createdAt", "date"}
    ensures workout["PK"] == Field(input, "PK")
    ensures workout["SK"] == Str(WorkoutSortKey(Field(input, "date")))
    ensures workout["targetDay"] == Field(input, "targetDay") && workout["location"] == Field(input, "location")
    ensures workout["date"] == Field(input, "date")
    ensures workout["createdAt"] == Str(timestamp)
  {
    map[
      "PK" := Field(input, "PK"),
      "SK" := Str(WorkoutSortKey(Field(input, "date"))),
      "targetDay" := Field(input, "targetDay"),
      "location" := Field(input, "location"),
      "createdAt" := Str(timestamp),
      "date" := Field(input, "date")
    ]
  }

  /** The exercise of `POST /exercises`: the sort key embeds the server timestamp and the name. */
  function NewExercise(input: Value, timestamp: string): (exercise: Item)
    ensures exercise.Keys == {"PK", "SK", "exerciseName", "numberOfSets", "weight", "unitMeasurement", "createdAt"}
    ensures exercise["PK"] == Field(input, "PK")
    ensures exercise["SK"] == Str(ExerciseSortKey(timestamp, Field(input, "exerciseName")))
    ensures exercise["exerciseName"] == Field(input, "exerciseName")
    ensures exercise["numberOfSets"] == Field(input, "numberOfSets")
    ensures exercise["weight"] == Field(input, "weight")
    ensures exercise["unitMeasurement"] == Field(input, "unitMeasurement")
    ensures exercise["createdAt"] == Str(timestamp)
  {
    map[
      "PK" := Field(input, "PK"),
      "SK" := Str(ExerciseSortKey(timestamp, Field(input, "exerciseName"))),
      "exerciseName" := Field(input, "exerciseName"),
      "numberOfSets" := Field(input, "numberOfSets"),
      "weight" := Field(input, "weight"),
      "unitMeasurement" := Field(input, "unitMeasurement"),
      "createdAt" := Str(timestamp)
    ]
  }

  /** The set of `POST /sets`: both key parts come from the body as they are. */
  function NewSet(input: Value, timestamp: string): (set_: Item)
    ensures set_.Keys == {"PK", "SK", "numberOfReps", "weight", "createdAt"}
    ensures set_["PK"] == Field(input, "PK") && set_["SK"] == Field(input, "SK")
    ensures set_["numberOfReps"] == Field(input, "numberOfReps") && set_["weight"] == Field(input, "weight")
    ensures set_["createdAt"] == Str(timestamp)
  {
    map[
      "PK" := Field(input, "PK"),
      "SK" := Field(input, "SK"),
      "numberOfReps" := Field(input, "numberOfReps"),
      "weight" := Field(input, "weight"),
      "createdAt" := Str(timestamp)
    ]
  }

  /**
   * The set `PATCH /sets` writes back: key and `createdAt` from the stored
   * item, the two mutable fields from the body, `editedAt` from the server.
   * No other field of the stored item survives.
   */
  function UpdatedSet(existing: Item, patch: Value, timestamp: string): (updated: Item)
    ensures updated.Keys == {"PK", "SK", "numberOfReps", "weight", "editedAt", "createdAt"}
    ensures updated["PK"] == Attr(existing, "PK") && updated["SK"] == Attr(existing, "SK")
    ensures updated["numberOfReps"] == Field(patch, "numberOfReps") && updated["weight"] == Field(patch, "weight")
    ensures updated["createdAt"] == Attr(existing, "createdAt")
    ensures updated["editedAt"] == Str(timestamp)
  {
    map[
      "PK" := Attr(existing, "PK"),
      "SK" := Attr(existing, "SK"),
      "numberOfReps" := Field(patch, "numberOfReps"),
      "weight" := Field(patch, "weight"),
      "editedAt" := Str(timestamp),
      "createdAt" := Attr(existing, "createdAt")
    ]
  }

  /**
   * `{ ...rest, ...(data ?? {}) }`: the body's unnamed fields overlaid by the
   * fields of its `data` object, so that a key present in `data` wins.
   */
  function ItemData(input: Value): (data: map<string, Value>)
    ensures var extra := OwnFields(Coalesce(Field(input, "data"), Obj(map[])));
      && data.Keys == extra.Keys + (OwnFields(input).Keys - ItemNamed)
      && (forall k | k in extra :: data[k] == extra[k])
      && (forall k | k in data && k !in extra :: data[k] == OwnFields(input)[k])
  {
    Rest(input, ItemNamed) + OwnFields(Coalesce(Field(input, "data"), Obj(map[])))
  }

  /** The generic item of `POST /items`: minted key, defaults for the two named fields, both timestamps. */
  function NewItem(input: Value, timestamp: string, id: string): (item: Item)
    ensures item.Keys == {"PK", "SK", "priority", "description", "createdAt", "editedAt", "data"}
    ensures item["PK"] == Str(TodoPartitionKey(id)) && item["SK"] == Str(TodoSortKey(id))
    ensures item["priority"] == Coalesce(Field(input, "priority"), Num(1))
    ensures item["description"] == Coalesce(Field(input, "description"), Str(""))
    ensures item["createdAt"] == item["editedAt"] == Str(timestamp)
    ensures item["data"] == Obj(ItemData(input))
  {
    map[
      "PK" := Str(TodoPartitionKey(id)),
      "SK" := Str(TodoSortKey(id)),
      "priority" := Coalesce(Field(input, "priority"), Num(1)),
      "description" := Coalesce(Field(input, "description"), Str("")),
      "createdAt" := Str(timestamp),
      "editedAt" := Str(timestamp),
      "data" := Obj(ItemData(input))
    ]
  }

  /** The generic item `PATCH /items/:id` writes back: key and `createdAt` from the stored item. */
  function UpdatedItem(existing: Item, input: Value, timestamp: string): (updated: Item)
    ensures updated.Keys == {"PK", "SK", "priority", "description", "createdAt", "editedAt", "data"}
    ensures updated["PK"] == Attr(existing, "PK") && updated["SK"] == Attr(existing, "SK")
    ensures updated["priority"] == Coalesce(Field(input, "priority"), Num(1))
    ensures updated["description"] == Coalesce(Field(input, "description"), Str(""))
    ensures updated["createdAt"] == Attr(existing, "createdAt")
    ensures updated["editedAt"] == Str(timestamp)
    ensures updated["data"] == Obj(ItemData(input))
  {
    map[
      "PK" := Attr(existing, "PK"),
      "SK" := Attr(existing, "SK"),
      "priority" := Coalesce(Field(input, "priority"), Num(1)),
      "description" := Coalesce(Field(input, "description"), Str("")),
      "createdAt" := Attr(existing, "createdAt"),
      "editedAt" := Str(timestamp),
      "data" := Obj(ItemData(input))
    ]
  }

  // ---------------------------------------------------------------------------
  // What the builders promise
  // ---------------------------------------------------------------------------

  /** A user record depends on the body only through `username` and `emailAddress`. */
  lemma NewUserSanitised(a: Value, b: Value, timestamp: string, digest: string)
    requires AgreeOn(a, b, UserFields)
    ensures NewUser(a, timestamp, digest) == NewUser(b, timestamp, digest)
  {
    assert Field(a, "username") == Field(b, "username");
    assert Field(a, "emailAddress") == Field(b, "emailAddress");
  }

  lemma NewWorkoutSanitised(a: Value, b: Value, timestamp: string)
    requires AgreeOn(a, b, WorkoutFields)
    ensures NewWorkout(a, timestamp) == NewWorkout(b, timestamp)
  {
    assert Field(a, "PK") == Field(b, "PK");
    assert Field(a, "targetDay") == Field(b, "targetDay");
    assert Field(a, "location") == Field(b, "location");
    assert Field(a, "date") == Field(b, "date");
  }

  lemma NewExerciseSanitised(a: Value, b: Value, timestamp: string)
    requires AgreeOn(a, b, ExerciseFields)
    ensures NewExercise(a, timestamp) == NewExercise(b, timestamp)
  {
    assert Field(a, "PK") == Field(b, "PK");
    assert Field(a, "exerciseName") == Field(b, "exerciseName");
    assert Field(a, "numberOfSets") == Field(b, "numberOfSets");
    assert Field(a, "weight") == Field(b, "weight");
    assert Field(a, "unitMeasurement") == Field(b, "unitMeasurement");
  }

  lemma NewSetSanitised(a: Value, b: Value, timestamp: string)
    requires AgreeOn(a, b, SetFields)
    ensures NewSet(a, timestamp) == NewSet(b, timestamp)
  {
    assert Field(a, "PK") == Field(b, "PK");
    assert Field(a, "SK") == Field(b, "SK");
    assert Field(a, "numberOfReps") == Field(b, "numberOfReps");
    assert Field(a, "weight") == Field(b, "weight");
  }

  /** The set written back depends on the body only through `numberOfReps` and `weight`. */
  lemma UpdatedSetSanitised(existing: Item, a: Value, b: Value, timestamp: string)
    requires AgreeOn(a, b, SetPatchFields)
    ensures UpdatedSet(existing, a, timestamp) == UpdatedSet(existing, b, timestamp)
  {
    assert Field(a, "numberOfReps") == Field(b, "numberOfReps");
    assert Field(a, "weight") == Field(b, "weight");
  }

  /**
   * The decoys of the generic-item body are dropped: two object bodies that
   * differ only in `createdAt`, `editedAt`, `PK` and `SK` give the same item,
   * on create and on update.
   */
  lemma ItemDecoysIgnored(a: map<string, Value>, b: map<string, Value>, existing: Item, timestamp: string, id: string)
    requires a - ItemDecoys == b - ItemDecoys
    ensures NewItem(Obj(a), timestamp, id) == NewItem(Obj(b), timestamp, id)
    ensures UpdatedItem(existing, Obj(a), timestamp) == UpdatedItem(existing, Obj(b), timestamp)
  {
    KeptFieldsAgree(a, b);
    RestAgrees(a, b);
    SameItemInputs(Obj(a), Obj(b), existing, timestamp, id);
  }

  /** The item builders read a body only through `priority`, `description` and the merged data. */
  lemma SameItemInputs(x: Value, y: Value, existing: Item, timestamp: string, id: string)
    requires Field(x, "priority") == Field(y, "priority") && Field(x, "description") == Field(y, "description")
    requires Field(x, "data") == Field(y, "data") && Rest(x, ItemNamed) == Rest(y, ItemNamed)
    ensures NewItem(x, timestamp, id) == NewItem(y, timestamp, id)
    ensures UpdatedItem(existing, x, timestamp) == UpdatedItem(existing, y, timestamp)
  {
    assert ItemData(x) == ItemData(y);
    SameNewItem(x, y, timestamp, id);
    SameUpdatedItem(x, y, existing, timestamp);
  }

  lemma SameNewItem(x: Value, y: Value, timestamp: string, id: string)
    requires Field(x, "priority") == Field(y, "priority") && Field(x, "description") == Field(y, "description")
    requires ItemData(x) == ItemData(y)
    ensures NewItem(x, timestamp, id) == NewItem(y, timestamp, id)
  {
  }

  lemma SameUpdatedItem(x: Value, y: Value, existing: Item, timestamp: string)
    requires Field(x, "priority") == Field(y, "priority") && Field(x, "description") == Field(y, "description")
    requires ItemData(x) == ItemData(y)
    ensures UpdatedItem(existing, x, timestamp) == UpdatedItem(existing, y, timestamp)
  {
  }

  /** Bodies equal but for the decoys agree on each kept named field. */
  lemma KeptFieldsAgree(a: map<string, Value>, b: map<string, Value>)
    requires a - ItemDecoys == b - ItemDecoys
    ensures forall n | n in ItemNamed - ItemDecoys :: Field(Obj(a), n) == Field(Obj(b), n)
  {
    forall n | n in ItemNamed - ItemDecoys ensures Field(Obj(a), n) == Field(Obj(b), n) {
      assert n in a <==> n in a - ItemDecoys;
      assert n in b <==> n in b - ItemDecoys;
      if n in a { assert a[n] == (a - ItemDecoys)[n]; }
    }
  }

  /** Bodies equal but for the decoys have the same `...rest`. */
  lemma RestAgrees(a: map<string, Value>, b: map<string, Value>)
    requires a - ItemDecoys == b - ItemDecoys
    ensures Rest(Obj(a), ItemNamed) == Rest(Obj(b), ItemNamed)
  {
    forall k | k in a && k !in ItemNamed ensures k in b && a[k] == b[k] {
      assert k !in ItemDecoys;
      assert k in a - ItemDecoys;
      assert a[k] == (a - ItemDecoys)[k] == (b - ItemDecoys)[k] == b[k];
    }
    forall k | k in b && k !in ItemNamed ensures k in a {
      assert k !in ItemDecoys;
      assert k in b - ItemDecoys;
    }
  }

  /** Create and update share the defaults of `priority` and `description` and the data merge. */
  lemma CreateAndUpdateAgree(input: Value, existing: Item, t1: string, t2: string, id: string)
    ensures var created, updated := NewItem(input, t1, id), UpdatedItem(existing, input, t2);
      && created["priority"] == updated["priority"]
      && created["description"] == updated["description"]
      && created["data"] == updated["data"]
  {
  }

  /** Without a `priority` or `description`, an item gets priority 1 and an empty description. */
  lemma ItemDefaults(input: Value, timestamp: string, id: string)
    requires Nullish(Field(input, "priority")) && Nullish(Field(input, "description"))
    ensures NewItem(input, timestamp, id)["priority"] == Num(1)
    ensures NewItem(input, timestamp, id)["description"] == Str("")
  {
  }

  /**
   * Updating a freshly created item with an empty change set keeps its key
   * and creation time, and resets the mutable fields to their defaults.
   */
  lemma EmptyUpdateOfNewItem(input: Value, t1: string, t2: string, id: string)
    ensures var updated := UpdatedItem(NewItem(input, t1, id), Obj(map[]), t2);
      && updated["PK"] == Str(TodoPartitionKey(id)) && updated["SK"] == Str(TodoSortKey(id))
      && updated["createdAt"] == Str(t1) && updated["editedAt"] == Str(t2)
      && updated["priority"] == Num(1) && updated["description"] == Str("")
      && updated["data"] == Obj(map[])
  {
    assert ItemData(Obj(map[])) == map[];
  }

  // ---------------------------------------------------------------------------
  // Which items the store accepts
  // ---------------------------------------------------------------------------

  /** A new generic item always carries its minted key. */
  lemma NewItemCarries(input: Value, timestamp: string, id: string, table: string)
    ensures Carries(NewItem(input, timestamp, id), Key(table, TodoPartitionKey(id), TodoSortKey(id)))
  {
    var item := NewItem(input, timestamp, id);
    assert !HasUndefined(item) by {
      forall k | k in item ensures !item[k].Undefined? {
      }
    }
  }

  /** An updated generic item keeps the stored key, and is storable exactly when the stored item has a `createdAt`. */
  lemma UpdatedItemCarries(existing: Item, input: Value, timestamp: string, k: Key)
    requires Carries(existing, k)
    ensures Carries(UpdatedItem(existing, input, timestamp), k) <==> "createdAt" in existing
  {
    var updated := UpdatedItem(existing, input, timestamp);
    if "createdAt" in existing {
      assert !existing["createdAt"].Undefined?;
      assert !HasUndefined(updated) by {
        forall n | n in updated ensures !updated[n].Undefined? {
        }
      }
    } else {
      assert updated["createdAt"].Undefined?;
    }
  }

  /**
   * An updated set keeps the stored key, and is storable exactly when the
   * stored set has a `createdAt` and the body has both mutable fields.
   */
  lemma UpdatedSetCarries(existing: Item, patch: Value, timestamp: string, k: Key)
    requires Carries(existing, k)
    ensures Carries(UpdatedSet(existing, patch, timestamp), k) <==>
      "createdAt" in existing && !Field(patch, "numberOfReps").Undefined? && !Field(patch, "weight").Undefined?
  {
    var updated := UpdatedSet(existing, patch, timestamp);
    if "createdAt" in existing && !Field(patch, "numberOfReps").Undefined? && !Field(patch, "weight").Undefined? {
      assert !existing["createdAt"].Undefined?;
      assert !HasUndefined(updated) by {
        forall n | n in updated ensures !updated[n].Undefined? {
        }
      }
    } else if "createdAt" !in existing {
      assert updated["createdAt"].Undefined?;
    } else if Field(patch, "numberOfReps").Undefined? {
      assert updated["numberOfReps"].Undefined?;
    } else {
      assert updated["weight"].Undefined?;
    }
  }
}
