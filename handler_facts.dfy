/**
 * What the route handlers promise, stated over their specifications in `Api`:
 * which requests succeed, what they store and under which key, what they
 * return, and what they leave alone.
 */
module HandlerFacts {
  import opened Js
  import opened Store
  import opened Entities
  import opened Api

  /** The status of a handler's record reply (0 for a bare value). */
  function StatusOf(e: Effect): int
  {
    if e.reply.Record? then e.reply.status else 0
  }

  /** The record carries a `Set-Cookie` header. */
  predicate SetsCookie(e: Effect)
  {
    e.reply.Record? && e.reply.headers.Some? && "Set-Cookie" in e.reply.headers.value
  }

  // ---------------------------------------------------------------------------
  // POST /users
  // ---------------------------------------------------------------------------

  /** The error path of the user builder: marshalling fails exactly when the body has no `emailAddress`. */
  lemma NewUserMarshals(input: Value, timestamp: string, digest: string)
    ensures HasUndefined(NewUser(input, timestamp, digest)) <==> Field(input, "emailAddress").Undefined?
    ensures KeyPart(Attr(NewUser(input, timestamp, digest), "PK")) && KeyPart(Attr(NewUser(input, timestamp, digest), "SK"))
  {
    var user := NewUser(input, timestamp, digest);
    if Field(input, "emailAddress").Undefined? {
      assert user["emailAddress"].Undefined?;
    }
  }

  /**
   * `POST /users` succeeds exactly for an object body with a string
   * password and an email address; it then stores the user under
   * `USER#<username>` in both key parts, with the hash of the password and
   * the server timestamp, overwriting any user of that name.
   */
  lemma PostUsersStores(db: Db, body: Body, now: string, hash: string -> string)
    ensures var r := PostUsers(db, body, now, hash);
      r.Ok? <==> (body.Json? && !Nullish(body.value) && Field(body.value, "password").Str?
                  && !Field(body.value, "emailAddress").Undefined?)
    ensures var r := PostUsers(db, body, now, hash);
      r.Ok? ==>
        var key := UserKey(Field(body.value, "username"));
        var user := NewUser(body.value, now, hash(Field(body.value, "password").s));
        && r.value.db == db[Key(WorkoutTable, key, key) := user]
        && user["password"] == Str(hash(Field(body.value, "password").s))
        && user["createdAt"] == Str(now)
        && StatusOf(r.value) == 201
  {
    if body.Json? && !Nullish(body.value) && Field(body.value, "password").Str? {
      NewUserMarshals(body.value, now, hash(Field(body.value, "password").s));
    }
  }

  /** Registering the same username twice leaves one user record: the second. */
  lemma PostUsersOverwrites(db: Db, first: Body, second: Body, t1: string, t2: string, hash: string -> string)
    requires PostUsers(db, first, t1, hash).Ok?
    requires PostUsers(PostUsers(db, first, t1, hash).value.db, second, t2, hash).Ok?
    requires first.Json? && second.Json? && Field(first.value, "username") == Field(second.value, "username")
    ensures var key := UserKey(Field(first.value, "username"));
      var after := PostUsers(PostUsers(db, first, t1, hash).value.db, second, t2, hash).value.db;
      && after == db[Key(WorkoutTable, key, key) := NewUser(second.value, t2, hash(Field(second.value, "password").s))]
      && after.Keys == db.Keys + {Key(WorkoutTable, key, key)}
  {
    var mid := PostUsers(db, first, t1, hash).value.db;
    UserWritten(db, first, t1, hash);
    UserWritten(mid, second, t2, hash);
    SecondWriteWins(db, UserItemKey(first.value), mid[UserItemKey(first.value)],
      NewUser(second.value, t2, hash(Field(second.value, "password").s)));
  }

  /** A successful `POST /users` writes the new user at its key and nothing else. */
  lemma UserWritten(db: Db, body: Body, now: string, hash: string -> string)
    requires PostUsers(db, body, now, hash).Ok?
    ensures body.Json? && Field(body.value, "password").Str?
    ensures PostUsers(db, body, now, hash).value.db ==
      db[UserItemKey(body.value) := NewUser(body.value, now, hash(Field(body.value, "password").s))]
  {
    PostUsersStores(db, body, now, hash);
  }

  lemma SecondWriteWins(db: Db, k: Key, u1: Item, u2: Item)
    ensures db[k := u1][k := u2] == db[k := u2]
    ensures db[k := u2].Keys == db.Keys + {k}
  {
  }

  // ---------------------------------------------------------------------------
  // POST /login
  // ---------------------------------------------------------------------------

  /** The key of the user a body names, `USER#<username>` in both parts: where `POST /users` writes and `POST /login` reads. */
  function UserItemKey(input: Value): Key
  {
    Key(WorkoutTable, UserKey(Field(input, "username")), UserKey(Field(input, "username")))
  }

  /** Only a successful login sets a cookie, and it is the session cookie of the user named in the body. */
  lemma LoginCookieOnlyOnSuccess(db: Db, body: Body, verify: (string, string) -> bool)
    ensures var r := PostLogin(db, body, verify);
      r.Ok? && SetsCookie(r.value) ==>
        && StatusOf(r.value) == 200
        && r.value.reply.headers == Some(LoginHeaders(UserKey(Field(body.value, "username"))))
        && r.value.reply.headers.value["Set-Cookie"] == SessionCookie(UserKey(Field(body.value, "username")))
  {
  }

  /** No user under the key: 404, and no cookie. */
  lemma LoginUnknownUser(db: Db, input: Value, verify: (string, string) -> bool)
    requires !Nullish(input) && UserItemKey(input) !in db
    ensures PostLogin(db, Json(input), verify) == Ok(Effect(Record(404, None, Data(Message("User not found"))), db))
  {
  }

  /** A stored user without a password hash: the login throws. */
  lemma LoginHashMissing(db: Db, input: Value, verify: (string, string) -> bool)
    requires !Nullish(input) && UserItemKey(input) in db && StoredHash(db[UserItemKey(input)]) == ""
    ensures PostLogin(db, Json(input), verify) == Thrown(HashMissingMessage)
  {
  }

  /** A password that is not a string: bcrypt's argument error. */
  lemma LoginPasswordNotString(db: Db, input: Value, verify: (string, string) -> bool)
    requires !Nullish(input) && UserItemKey(input) in db && StoredHash(db[UserItemKey(input)]) != ""
    requires !Field(input, "password").Str?
    ensures PostLogin(db, Json(input), verify) == Thrown(IllegalArguments(Field(input, "password")))
  {
  }

  /** A password that does not verify against the stored hash: 401, and no cookie. */
  lemma LoginRefused(db: Db, input: Value, verify: (string, string) -> bool)
    requires !Nullish(input) && UserItemKey(input) in db && StoredHash(db[UserItemKey(input)]) != ""
    requires Field(input, "password").Str? && !verify(Field(input, "password").s, StoredHash(db[UserItemKey(input)]))
    ensures PostLogin(db, Json(input), verify) == Ok(Effect(Record(401, None, Data(Message("Invalid credentials"))), db))
  {
  }

  /** A password that verifies: 200, the session cookie, and the stored partition key in the body. */
  lemma LoginAccepted(db: Db, input: Value, verify: (string, string) -> bool)
    requires !Nullish(input) && UserItemKey(input) in db && StoredHash(db[UserItemKey(input)]) != ""
    requires Field(input, "password").Str? && verify(Field(input, "password").s, StoredHash(db[UserItemKey(input)]))
    ensures var key := UserKey(Field(input, "username"));
      PostLogin(db, Json(input), verify) ==
        Ok(Effect(Record(200, Some(LoginHeaders(key)),
          Data(Obj(map["message" := Str("Login successful"), "PK" := Attr(db[UserItemKey(input)], "PK")]))), db))
  {
  }

  /** The registration body `{ username, password, emailAddress }`. */
  function Registration(username: string, password: string, email: string): Body
  {
    Json(Obj(map["username" := Str(username), "password" := Str(password), "emailAddress" := Str(email)]))
  }

  /** The login body `{ username, password }`. */
  function Credentials(username: string, password: string): Body
  {
    Json(Obj(map["username" := Str(username), "password" := Str(password)]))
  }

  /**
   * A user who has registered can log in with the same password, and gets the
   * session cookie for `USER#<username>`; assuming, of bcrypt, that the hash
   * of a password is not empty and verifies against that password.
   */
  lemma RegisterThenLogin(db: Db, username: string, password: string, email: string, now: string,
                          hash: string -> string, verify: (string, string) -> bool)
    requires hash(password) != "" && verify(password, hash(password))
    ensures PostUsers(db, Registration(username, password, email), now, hash).Ok?
    ensures var registered := PostUsers(db, Registration(username, password, email), now, hash).value.db;
      var key := "USER#" + username;
      PostLogin(registered, Credentials(username, password), verify) ==
        Ok(Effect(Record(200, Some(LoginHeaders(key)),
          Data(Obj(map["message" := Str("Login successful"), "PK" := Str(key)]))), registered))
  {
    var creds := Credentials(username, password).value;
    Registered(db, username, password, email, now, hash, creds);
    var registered := PostUsers(db, Registration(username, password, email), now, hash).value.db;
    LoginAccepted(registered, creds, verify);
  }

  /** A password that does not verify against the stored hash is refused with 401. */
  lemma WrongPasswordRefused(db: Db, username: string, password: string, guess: string, email: string,
                             now: string, hash: string -> string, verify: (string, string) -> bool)
    requires hash(password) != "" && !verify(guess, hash(password))
    ensures PostUsers(db, Registration(username, password, email), now, hash).Ok?
    ensures var registered := PostUsers(db, Registration(username, password, email), now, hash).value.db;
      PostLogin(registered, Credentials(username, guess), verify) ==
        Ok(Effect(Record(401, None, Data(Message("Invalid credentials"))), registered))
  {
    var creds := Credentials(username, guess).value;
    Registered(db, username, password, email, now, hash, creds);
    var registered := PostUsers(db, Registration(username, password, email), now, hash).value.db;
    LoginRefused(registered, creds, verify);
  }

  /** After registering, the login key of a body naming the same user holds that user, with the password's hash. */
  lemma Registered(db: Db, username: string, password: string, email: string, now: string,
                   hash: string -> string, creds: Value)
    requires creds.Obj? && "username" in creds.fields && creds.fields["username"] == Str(username)
    ensures PostUsers(db, Registration(username, password, email), now, hash).Ok?
    ensures var registered := PostUsers(db, Registration(username, password, email), now, hash).value.db;
      && UserItemKey(creds) == Key(WorkoutTable, "USER#" + username, "USER#" + username)
      && UserItemKey(creds) in registered
      && StoredHash(registered[UserItemKey(creds)]) == hash(password)
      && Attr(registered[UserItemKey(creds)], "PK") == Str("USER#" + username)
  {
    var v := Registration(username, password, email).value;
    PostUsersStores(db, Registration(username, password, email), now, hash);
    assert UserKey(Str(username)) == "USER#" + username;
    assert Field(creds, "username") == Field(v, "username");
  }

  // ---------------------------------------------------------------------------
  // POST /workouts, /exercises, /sets
  // ---------------------------------------------------------------------------

  /**
   * `POST /workouts` stores the sanitised workout under the body's `PK` and
   * `WORKOUT#<date>`, stamped with the server time; it fails exactly when the
   * `PK` is not a non-empty string or one of the copied fields is missing.
   */
  lemma PostWorkoutsStores(db: Db, input: Value, now: string)
    requires !Nullish(input)
    ensures var r := PostWorkouts(db, Json(input), now);
      && (r.Ok? <==> (KeyPart(Field(input, "PK"))
                      && !Field(input, "targetDay").Undefined? && !Field(input, "location").Undefined?
                      && !Field(input, "date").Undefined?))
      && (r.Ok? ==>
            && r.value.db == db[Key(WorkoutTable, Field(input, "PK").s, WorkoutSortKey(Field(input, "date"))) := NewWorkout(input, now)]
            && StatusOf(r.value) == 201)
  {
    var w := NewWorkout(input, now);
    if Field(input, "targetDay").Undefined? { assert w["targetDay"].Undefined?; }
    if Field(input, "location").Undefined? { assert w["location"].Undefined?; }
    if Field(input, "date").Undefined? { assert w["date"].Undefined?; }
  }

  /** `POST /exercises` stores under the body's `PK` and `EXERCISE#<now>#<exerciseName>`. */
  lemma PostExercisesStores(db: Db, input: Value, now: string)
    requires !Nullish(input)
    ensures var r := PostExercises(db, Json(input), now);
      && (r.Ok? <==> (KeyPart(Field(input, "PK"))
                      && !Field(input, "exerciseName").Undefined? && !Field(input, "numberOfSets").Undefined?
                      && !Field(input, "weight").Undefined? && !Field(input, "unitMeasurement").Undefined?))
      && (r.Ok? ==>
            && r.value.db == db[Key(WorkoutTable, Field(input, "PK").s, ExerciseSortKey(now, Field(input, "exerciseName"))) := NewExercise(input, now)]
            && StatusOf(r.value) == 201)
  {
    var e := NewExercise(input, now);
    if Field(input, "exerciseName").Undefined? { assert e["exerciseName"].Undefined?; }
    if Field(input, "numberOfSets").Undefined? { assert e["numberOfSets"].Undefined?; }
    if Field(input, "weight").Undefined? { assert e["weight"].Undefined?; }
    if Field(input, "unitMeasurement").Undefined? { assert e["unitMeasurement"].Undefined?; }
  }

  /** `POST /sets` stores under the client's own `PK` and `SK`, taken as they are. */
  lemma PostSetsStores(db: Db, input: Value, now: string)
    requires !Nullish(input)
    ensures var r := PostSets(db, Json(input), now);
      && (r.Ok? <==> (KeyPart(Field(input, "PK")) && KeyPart(Field(input, "SK"))
                      && !Field(input, "numberOfReps").Undefined? && !Field(input, "weight").Undefined?))
      && (r.Ok? ==>
            && r.value.db == db[Key(WorkoutTable, Field(input, "PK").s, Field(input, "SK").s) := NewSet(input, now)]
            && StatusOf(r.value) == 201)
  {
    var s := NewSet(input, now);
    if Field(input, "numberOfReps").Undefined? { assert s["numberOfReps"].Undefined?; }
    if Field(input, "weight").Undefined? { assert s["weight"].Undefined?; }
  }

  // ---------------------------------------------------------------------------
  // GET /workouts, /exercises, /sets
  // ---------------------------------------------------------------------------

  /** Without a non-empty `pk` query parameter the listing is refused with 400 and reads nothing. */
  lemma QueryOwnedNeedsPk(db: Db, query: map<string, string>, prefix: string)
    requires "pk" !in query || query["pk"] == ""
    ensures QueryOwned(db, query, prefix) == Ok(Effect(Record(400, None, Data(ErrorBody(MissingPkError))), db))
  {
  }

  /**
   * With a `pk`, the listing is exactly the workout table's items whose `PK`
   * is `pk` and whose `SK` starts with the prefix, and nothing is written.
   */
  lemma QueryOwnedFinds(db: Db, pk: string, prefix: string, item: Item)
    requires DbValid(db) && pk != ""
    ensures var r := QueryOwned(db, map["pk" := pk], prefix);
      && r.Ok? && r.value.db == db && StatusOf(r.value) == 200
      && r.value.reply.body.Items?
      && (item in r.value.reply.body.items <==>
            exists k | k in db && k.table == WorkoutTable :: db[k] == item
              && item["PK"] == Str(pk) && item["SK"].Str? && prefix <= item["SK"].s)
  {
    QueryByAttributes(db, WorkoutTable, pk, prefix, item);
  }

  /** A workout just stored is listed by `GET /workouts` for its owner, and by neither other listing. */
  lemma CreatedWorkoutListed(db: Db, input: Value, now: string)
    requires DbValid(db) && !Nullish(input)
    requires PostWorkouts(db, Json(input), now).Ok?
    ensures var after := PostWorkouts(db, Json(input), now).value.db;
      var pk := Field(input, "PK").s;
      && NewWorkout(input, now) in Query(after, WorkoutTable, pk, WorkoutPrefix)
      && NewWorkout(input, now) !in Query(after, WorkoutTable, pk, ExercisePrefix)
      && NewWorkout(input, now) !in Query(after, WorkoutTable, pk, SetPrefix)
  {
    PostWorkoutsStores(db, input, now);
    var after := PostWorkouts(db, Json(input), now).value.db;
    var pk := Field(input, "PK").s;
    var w := NewWorkout(input, now);
    var k := Key(WorkoutTable, pk, WorkoutSortKey(Field(input, "date")));
    SortKeyKinds(Field(input, "date"), now, Null);
    assert after[k] == w;
    QueryByAttributes(after, WorkoutTable, pk, ExercisePrefix, w);
    QueryByAttributes(after, WorkoutTable, pk, SetPrefix, w);
  }

  // ---------------------------------------------------------------------------
  // GET /users, GET /items
  // ---------------------------------------------------------------------------

  /**
   * The listing is the whole workout table, whatever kind of item: a user
   * just registered is listed with its password hash.
   */
  lemma ListingShowsStoredUser(db: Db, body: Body, now: string, hash: string -> string)
    requires PostUsers(db, body, now, hash).Ok?
    ensures var after := PostUsers(db, body, now, hash).value.db;
      var user := NewUser(body.value, now, hash(Field(body.value, "password").s));
      && ScanWorkoutTable(after) == Ok(Effect(Plain(Items(Scan(after, WorkoutTable))), after))
      && user in Scan(after, WorkoutTable)
      && user["password"] == Str(hash(Field(body.value, "password").s))
  {
    PostUsersStores(db, body, now, hash);
    var key := UserKey(Field(body.value, "username"));
    var after := PostUsers(db, body, now, hash).value.db;
    assert Key(WorkoutTable, key, key) in after;
  }

  // ---------------------------------------------------------------------------
  // DELETE /workouts, /exercises, /items/:id
  // ---------------------------------------------------------------------------

  /**
   * The body-keyed delete removes exactly the key `{ pk, sk }` of the body and
   * answers the same whether or not an item was there; it fails exactly when a
   * key part is not a non-empty string.
   */
  lemma DeleteByBodyKeyRemoves(db: Db, input: Value)
    requires !Nullish(input)
    ensures var r := DeleteByBodyKey(db, Json(input));
      var pk, sk := Field(input, "pk"), Field(input, "sk");
      && (r.Ok? <==> KeyPart(pk) && KeyPart(sk))
      && (r.Ok? ==>
            && r.value.db == db - {Key(WorkoutTable, pk.s, sk.s)}
            && r.value.reply == Record(200, None, Data(Message("Deleted item " + pk.s + ", " + sk.s)))
            && r.value.reply == DeleteByBodyKey(map[], Json(input)).value.reply)
  {
  }

  /** `DELETE /items/:id` always succeeds, and a later `GET /items/:id` finds `{}`. */
  lemma DeleteItemThenGet(db: Db, id: string)
    ensures DeleteItemById(db, id).Ok?
    ensures var after := DeleteItemById(db, id).value.db;
      && after == db - {Key(WorkoutTable, TodoPartitionKey(id), TodoSortKey(id))}
      && GetItemById(after, id) == Ok(Effect(Plain(Data(Obj(map[]))), after))
  {
    DeleteThenGet(db, WorkoutTable, TodoPartitionKey(id), TodoSortKey(id));
  }

  /** `GET /items/:id` reads the workout table: the stored item, or `{}`, and no write. */
  lemma GetItemByIdReads(db: Db, id: string)
    ensures var k := Key(WorkoutTable, TodoPartitionKey(id), TodoSortKey(id));
      GetItemById(db, id) == Ok(Effect(Plain(Data(Obj(if k in db then db[k] else map[]))), db))
  {
  }

  // ---------------------------------------------------------------------------
  // PATCH /workouts
  // ---------------------------------------------------------------------------

  /** The index lookup never writes, and refuses with 400 a body without a truthy `PK`. */
  lemma PatchWorkoutsReadOnly(db: Db, body: Body, byTargetDay: (Db, Value, Value) -> Outcome<set<Item>>)
    ensures var r := PatchWorkouts(db, body, byTargetDay);
      && (r.Ok? ==> r.value.db == db)
      && (body.Json? && !Nullish(body.value) && !Truthy(Field(body.value, "PK")) ==>
            r == Ok(Effect(Record(400, None, Data(ErrorBody(MissingPkError))), db)))
  {
  }

  // ---------------------------------------------------------------------------
  // PATCH /sets
  // ---------------------------------------------------------------------------

  /** `PATCH /sets` is refused with 400 exactly when neither `PK` nor `SK` of the body is truthy. */
  lemma PatchSetsRefusal(db: Db, patch: Value, now: string)
    ensures PatchSets(db, Json(patch), now) == Ok(Effect(Record(400, None, Data(ErrorBody(MissingPkOrSkError))), db))
      <==> !Truthy(Field(patch, "PK")) && !Truthy(Field(patch, "SK"))
  {
  }

  /** A set that is not stored is answered with 404, and nothing is written. */
  lemma PatchSetsMissing(db: Db, patch: Value, now: string)
    requires Truthy(Field(patch, "PK")) || Truthy(Field(patch, "SK"))
    requires Interp(Field(patch, "PK")) != "" && Interp(Field(patch, "SK")) != ""
    requires Key(WorkoutTable, Interp(Field(patch, "PK")), Interp(Field(patch, "SK"))) !in db
    ensures var pk, sk := Interp(Field(patch, "PK")), Interp(Field(patch, "SK"));
      PatchSets(db, Json(patch), now) ==
        Ok(Effect(Record(404, None, Data(Message("Not Found item " + pk + " with sort key " + sk))), db))
  {
  }

  /**
   * A stored set is overwritten in place: the new item sits under the same
   * key, keeps the stored `PK`, `SK` and `createdAt`, takes `editedAt` from
   * the server, and no other key changes. It fails only when the body lacks
   * `numberOfReps` or `weight` or the stored set has no `createdAt`.
   */
  lemma PatchSetsOverwrites(db: Db, patch: Value, now: string)
    requires DbValid(db)
    requires Truthy(Field(patch, "PK")) || Truthy(Field(patch, "SK"))
    requires Key(WorkoutTable, Interp(Field(patch, "PK")), Interp(Field(patch, "SK"))) in db
    ensures var k := Key(WorkoutTable, Interp(Field(patch, "PK")), Interp(Field(patch, "SK")));
      var r := PatchSets(db, Json(patch), now);
      var existing := db[k];
      && (r.Ok? <==> (!Field(patch, "numberOfReps").Undefined? && !Field(patch, "weight").Undefined?
                      && "createdAt" in existing))
      && (r.Ok? ==>
            && r.value.db == db[k := UpdatedSet(existing, patch, now)]
            && r.value.db.Keys == db.Keys
            && r.value.db[k]["PK"] == Str(k.pk) && r.value.db[k]["SK"] == Str(k.sk)
            && r.value.db[k]["createdAt"] == existing["createdAt"]
            && r.value.db[k]["editedAt"] == Str(now)
            && StatusOf(r.value) == 200)
  {
    var k := Key(WorkoutTable, Interp(Field(patch, "PK")), Interp(Field(patch, "SK")));
    var existing := db[k];
    assert Carries(existing, k);
    var updated := UpdatedSet(existing, patch, now);
    UpdatedSetCarries(existing, patch, now, k);
    if Carries(updated, k) {
      PutCarried(db, WorkoutTable, updated, k);
    }
  }

  // ---------------------------------------------------------------------------
  // POST /items, PATCH /items/:id
  // ---------------------------------------------------------------------------

  /** `POST /items` stores the new item under `TODO#<id>` and `USER#<id>` in the todo table. */
  lemma PostItemsStores(db: Db, input: Value, now: string, uuid: string)
    requires !Nullish(input)
    ensures var r := PostItems(db, Json(input), now, uuid);
      && r.Ok?
      && r.value.db == db[Key(TodoTable, TodoPartitionKey(uuid), TodoSortKey(uuid)) := NewItem(input, now, uuid)]
      && StatusOf(r.value) == 201
  {
    NewItemCarries(input, now, uuid, TodoTable);
    PutCarried(db, TodoTable, NewItem(input, now, uuid), Key(TodoTable, TodoPartitionKey(uuid), TodoSortKey(uuid)));
  }

  /**
   * An item created by `POST /items` is not what `GET /items/:id` reads: the
   * one writes the todo table and the other reads the workout table.
   */
  lemma CreatedItemNotReadBack(db: Db, input: Value, now: string, uuid: string)
    requires !Nullish(input)
    ensures var after := PostItems(db, Json(input), now, uuid).value.db;
      GetItemById(after, uuid).value.reply == GetItemById(db, uuid).value.reply
  {
    PostItemsStores(db, input, now, uuid);
  }

  /** An item that is not stored is answered with 404, and nothing is written. */
  lemma PatchItemMissing(db: Db, input: Value, now: string, id: string)
    requires Key(TodoTable, TodoPartitionKey(id), TodoSortKey(id)) !in db
    ensures PatchItemById(db, Json(input), now, id) == Ok(Effect(Record(404, None, Data(Message("Not Found item " + id))), db))
  {
  }

  /**
   * A stored item is overwritten in place, keeping its key and `createdAt`;
   * it fails only for a `null` body or a stored item without `createdAt`.
   */
  lemma PatchItemOverwrites(db: Db, input: Value, now: string, id: string)
    requires DbValid(db)
    requires Key(TodoTable, TodoPartitionKey(id), TodoSortKey(id)) in db
    ensures var k := Key(TodoTable, TodoPartitionKey(id), TodoSortKey(id));
      var r := PatchItemById(db, Json(input), now, id);
      var existing := db[k];
      && (r.Ok? <==> !Nullish(input) && "createdAt" in existing)
      && (r.Ok? ==>
            && r.value.db == db[k := UpdatedItem(existing, input, now)]
            && r.value.db.Keys == db.Keys
            && r.value.db[k]["PK"] == Str(k.pk) && r.value.db[k]["SK"] == Str(k.sk)
            && r.value.db[k]["createdAt"] == existing["createdAt"]
            && r.value.db[k]["editedAt"] == Str(now)
            && StatusOf(r.value) == 200)
  {
    var k := Key(TodoTable, TodoPartitionKey(id), TodoSortKey(id));
    assert Carries(db[k], k);
    PatchStoredItem(db, input, now, id);
  }

  /** The overwrite of `PATCH /items/:id` for a stored item that carries its key. */
  lemma PatchStoredItem(db: Db, input: Value, now: string, id: string)
    requires var k := Key(TodoTable, TodoPartitionKey(id), TodoSortKey(id)); k in db && Carries(db[k], k)
    ensures var k := Key(TodoTable, TodoPartitionKey(id), TodoSortKey(id));
      var r := PatchItemById(db, Json(input), now, id);
      && (r.Ok? <==> !Nullish(input) && "createdAt" in db[k])
      && (r.Ok? ==> r.value.db == db[k := UpdatedItem(db[k], input, now)] && StatusOf(r.value) == 200)
  {
    var k := Key(TodoTable, TodoPartitionKey(id), TodoSortKey(id));
    var existing := db[k];
    var updated := UpdatedItem(existing, input, now);
    assert Get(db, TodoTable, TodoPartitionKey(id), TodoSortKey(id)) == Ok(Some(existing));
    UpdatedItemCarries(existing, input, now, k);
    if !Nullish(input) && "createdAt" in existing {
      PutCarried(db, TodoTable, updated, k);
    }
  }

  /**
   * Creating an item and then updating it under its generated id finds it,
   * and the stored result keeps the creation time while `editedAt` moves on.
   */
  lemma CreateThenPatchItem(db: Db, input: Value, change: Value, t1: string, t2: string, uuid: string)
    requires !Nullish(input) && !Nullish(change)
    ensures PostItems(db, Json(input), t1, uuid).Ok?
    ensures var created := PostItems(db, Json(input), t1, uuid).value.db;
      var r := PatchItemById(created, Json(change), t2, uuid);
      var k := Key(TodoTable, TodoPartitionKey(uuid), TodoSortKey(uuid));
      && r.Ok? && StatusOf(r.value) == 200
      && r.value.db == created[k := UpdatedItem(NewItem(input, t1, uuid), change, t2)]
      && r.value.db[k]["createdAt"] == Str(t1) && r.value.db[k]["editedAt"] == Str(t2)
  {
    PostItemsStores(db, input, t1, uuid);
    var created := PostItems(db, Json(input), t1, uuid).value.db;
    var k := Key(TodoTable, TodoPartitionKey(uuid), TodoSortKey(uuid));
    var item := NewItem(input, t1, uuid);
    var updated := UpdatedItem(item, change, t2);
    NewItemCarries(input, t1, uuid, TodoTable);
    assert created[k] == item;
    PatchStoredItem(created, change, t2, uuid);
  }
}
