/**
 * What each route handler does, as a function of the store before the call:
 * the value it returns (or the error it throws) and the store after it.
 *
 * A handler that throws has changed nothing: every handler makes its one
 * write, if any, as its last storage call, and nothing after that can throw.
 * So an `Outcome<Effect>` carries the new store only on success.
 */
module Api {
  import opened Js
  import opened Store
  import opened Entities
  import Router

  type Headers = map<string, string>

  /** The raw request body: absent, the empty string, text `JSON.parse` rejects, or parsed JSON. */
  datatype Body = Absent | Empty | Unparsable(error: string) | Json(value: Value)

  /** What the handlers read from the gateway event. */
  datatype Request = Request(verb: string, path: string, query: map<string, string>, body: Body)

  /** The clock reading and the fresh identifier a request would draw (`new Date().toISOString()`, `uuidv4()`). */
  datatype Env = Env(now: string, uuid: string)

  /**
   * The collaborators the handlers call but whose code is not modelled:
   * bcrypt's hash and compare, and the query against index `GSI3`.
   */
  datatype Deps = Deps(
    hash: string -> string,
    verify: (string, string) -> bool,
    byTargetDay: (Db, Value, Value) -> Outcome<set<Item>>)

  /** What a reply carries: a value, or the items of a scan or query (in the store's order). */
  datatype Payload = Data(value: Value) | Items(items: set<Item>)

  /**
   * A handler's return value: either a record `{ statusCode, headers?, body }`
   * whose body is the JSON text of `body`, or a bare value.
   */
  datatype Reply =
    | Record(status: int, headers: Option<Headers>, body: Payload)
    | Plain(payload: Payload)

  /** A handler that returned: its reply and the store after it. */
  datatype Effect = Effect(reply: Reply, db: Db)

  const WorkoutTable := "workoutTable"
  const TodoTable := "todoTable"

  const MissingBodyMessage := "Missing request body"
  const HashMissingMessage := "Password hash is missing"
  /** What `JSON.parse(undefined)` and `JSON.parse("")` throw on the Node.js 18 runtime the function is deployed with. */
  const ParseUndefinedMessage := "Unexpected token u in JSON at position 0"
  const ParseEmptyMessage := "Unexpected end of JSON input"
  const MissingPkError := "Missing 'pk' query parameter"
  const MissingPkOrSkError := "Missing 'pk' or 'sk' query parameter"

  const PostCors: Headers := map[
    "Access-Control-Allow-Origin" := "*",
    "Access-Control-Allow-Headers" := "Content-Type",
    "Access-Control-Allow-Methods" := "POST, OPTIONS"
  ]

  const GetCors: Headers := map[
    "Access-Control-Allow-Origin" := "*",
    "Access-Control-Allow-Headers" := "Content-Type",
    "Access-Control-Allow-Methods" := "GET, OPTIONS",
    "Access-Control-Allow-Credentials" := "true"
  ]

  /** The session cookie a successful login sets: the user's partition key. */
  function SessionCookie(key: string): (cookie: string)
    ensures |cookie| > 3 + |key| && cookie[..3] == "PK=" && cookie[3..3 + |key|] == key
  {
    "PK=" + key + "; HttpOnly; SameSite=None; Path=/"
  }

  /** The headers of a successful login: the CORS headers of a POST and the session cookie. */
  function LoginHeaders(key: string): (h: Headers)
    ensures h.Keys == PostCors.Keys + {"Set-Cookie"}
    ensures h["Set-Cookie"] == SessionCookie(key)
    ensures forall name | name in PostCors :: h[name] == PostCors[name]
  {
    map[
      "Access-Control-Allow-Origin" := "*",
      "Access-Control-Allow-Headers" := "Content-Type",
      "Set-Cookie" := SessionCookie(key),
      "Access-Control-Allow-Methods" := "POST, OPTIONS"
    ]
  }

  function Message(text: string): Value
  {
    Obj(map["message" := Str(text)])
  }

  function ErrorBody(text: string): Value
  {
    Obj(map["error" := Str(text)])
  }

  const IllegalPrefix := "Illegal arguments: "

  /** What bcryptjs throws when the plaintext is not a string. */
  function IllegalArguments(plaintext: Value): (message: string)
    ensures IllegalPrefix <= message && message[|IllegalPrefix|..] == TypeOf(plaintext) + ", string"
  {
    IllegalPrefix + TypeOf(plaintext) + ", string"
  }

  /** `JSON.parse(event.body)`. */
  function ParseBody(body: Body): (r: Outcome<Value>)
    ensures r.Ok? <==> body.Json?
    ensures r.Ok? ==> r.value == body.value
  {
    match body
    case Absent => Thrown(ParseUndefinedMessage)
    case Empty => Thrown(ParseEmptyMessage)
    case Unparsable(e) => Thrown(e)
    case Json(v) => Ok(v)
  }

  /** `if (!event.body) throw new Error("Missing request body")`, then `JSON.parse(event.body)`. */
  function RequireBody(body: Body): (r: Outcome<Value>)
    ensures r.Ok? <==> body.Json?
    ensures r.Ok? ==> r.value == body.value
    ensures (body.Absent? || body.Empty?) ==> r == Thrown(MissingBodyMessage)
  {
    if body.Absent? || body.Empty? then Thrown(MissingBodyMessage) else ParseBody(body)
  }

  /** `Item?.password?.S`: the stored hash, or the empty string when there is none. */
  function StoredHash(item: Item): (hash: string)
    ensures hash != "" ==> "password" in item && item["password"] == Str(hash)
    ensures hash == "" <==> !("password" in item && item["password"].Str? && item["password"].s != "")
  {
    if "password" in item && item["password"].Str? then item["password"].s else ""
  }

  // ---------------------------------------------------------------------------
  // The handlers
  // ---------------------------------------------------------------------------

  /** `GET /users` and `GET /items`: every item of the workout table. */
  function ScanWorkoutTable(db: Db): (r: Outcome<Effect>)
    ensures r.Ok? ==> r.value.db == db
  {
    Ok(Effect(Plain(Items(Scan(db, WorkoutTable))), db))
  }

  /** `POST /users`. */
  function PostUsers(db: Db, body: Body, now: string, hash: string -> string): (r: Outcome<Effect>)
    ensures DbValid(db) && r.Ok? ==> DbValid(r.value.db)
  {
    var input :- RequireBody(body);
    var fields :- Destructure(input, "username", "inputData");
    var password := Field(fields, "password");
    if !password.Str? then Thrown(IllegalArguments(password))
    else
      var user := NewUser(fields, now, hash(password.s));
      var db' :- Put(db, WorkoutTable, user);
      Ok(Effect(Record(201, Some(PostCors), Data(Obj(map["message" := Str("Created new user"), "item" := Obj(user)]))), db'))
  }

  /** `POST /login`: reads the user at `USER#<username>` and checks the password against its hash. */
  function PostLogin(db: Db, body: Body, verify: (string, string) -> bool): (r: Outcome<Effect>)
    ensures r.Ok? ==> r.value.db == db
  {
    var input :- RequireBody(body);
    var fields :- Destructure(input, "username", "inputData");
    var username, password := Field(fields, "username"), Field(fields, "password");
    var key := UserKey(username);
    // The key parts start with `USER#`, so the get cannot fail.
    var found := Get(db, WorkoutTable, key, key).value;
    if found.None? then Ok(Effect(Record(404, None, Data(Message("User not found"))), db))
    else
      var stored := StoredHash(found.value);
      if stored == "" then Thrown(HashMissingMessage)
      else if !password.Str? then Thrown(IllegalArguments(password))
      else if !verify(password.s, stored) then Ok(Effect(Record(401, None, Data(Message("Invalid credentials"))), db))
      else
        // `PK: Item.PK.S`: the stored item's partition key.
        var reply := Obj(map["message" := Str("Login successful"), "PK" := Attr(found.value, "PK")]);
        Ok(Effect(Record(200, Some(LoginHeaders(key)), Data(reply)), db))
  }

  /** `GET /workouts`, `GET /exercises`, `GET /sets`: the owner's items of one kind. */
  function QueryOwned(db: Db, query: map<string, string>, prefix: string): (r: Outcome<Effect>)
    ensures r.Ok? ==> r.value.db == db
  {
    if "pk" !in query || query["pk"] == "" then Ok(Effect(Record(400, None, Data(ErrorBody(MissingPkError))), db))
    else Ok(Effect(Record(200, Some(GetCors), Items(Query(db, WorkoutTable, query["pk"], prefix))), db))
  }

  /** `POST /workouts`. */
  function PostWorkouts(db: Db, body: Body, now: string): (r: Outcome<Effect>)
    ensures DbValid(db) && r.Ok? ==> DbValid(r.value.db)
  {
    var input :- RequireBody(body);
    var fields :- Destructure(input, "PK", "inputData");
    var workout := NewWorkout(fields, now);
    var db' :- Put(db, WorkoutTable, workout);
    Ok(Effect(Record(201, Some(PostCors), Data(Obj(map["message" := Str("Created new workout"), "workout" := Obj(workout)]))), db'))
  }

  /** `DELETE /workouts` and `DELETE /exercises`: delete the key `{ pk, sk }` of the body. */
  function DeleteByBodyKey(db: Db, body: Body): (r: Outcome<Effect>)
    ensures DbValid(db) && r.Ok? ==> DbValid(r.value.db)
  {
    var input :- ParseBody(body);
    var fields :- Destructure(input, "pk", "inputData");
    var pk, sk := Field(fields, "pk"), Field(fields, "sk");
    var db' :- Delete(db, WorkoutTable, pk, sk);
    Ok(Effect(Record(200, None, Data(Message("Deleted item " + Interp(pk) + ", " + Interp(sk)))), db'))
  }

  /** `PATCH /workouts`: despite its method, a read of index `GSI3`. */
  function PatchWorkouts(db: Db, body: Body, byTargetDay: (Db, Value, Value) -> Outcome<set<Item>>): (r: Outcome<Effect>)
    ensures r.Ok? ==> r.value.db == db
  {
    var input :- ParseBody(body);
    var fields :- Destructure(input, "PK", "inputData");
    var pk := Field(fields, "PK");
    if !Truthy(pk) then Ok(Effect(Record(400, None, Data(ErrorBody(MissingPkError))), db))
    else
      var found :- byTargetDay(db, Field(fields, "targetDay"), pk);
      Ok(Effect(Record(200, Some(GetCors), Items(found)), db))
  }

  /** `POST /exercises`. */
  function PostExercises(db: Db, body: Body, now: string): (r: Outcome<Effect>)
    ensures DbValid(db) && r.Ok? ==> DbValid(r.value.db)
  {
    var input :- RequireBody(body);
    var fields :- Destructure(input, "PK", "inputData");
    var exercise := NewExercise(fields, now);
    var db' :- Put(db, WorkoutTable, exercise);
    Ok(Effect(Record(201, Some(PostCors), Data(Obj(map["message" := Str("Created new exercise"), "exercise" := Obj(exercise)]))), db'))
  }

  /** `POST /sets`. */
  function PostSets(db: Db, body: Body, now: string): (r: Outcome<Effect>)
    ensures DbValid(db) && r.Ok? ==> DbValid(r.value.db)
  {
    var input :- RequireBody(body);
    var fields :- Destructure(input, "PK", "inputData");
    var set_ := NewSet(fields, now);
    var db' :- Put(db, WorkoutTable, set_);
    Ok(Effect(Record(201, Some(PostCors), Data(Obj(map["message" := Str("Created new set"), "set" := Obj(set_)]))), db'))
  }

  /** `PATCH /sets`: read the set at the body's `${PK}`/`${SK}`, then overwrite it. */
  function PatchSets(db: Db, body: Body, now: string): (r: Outcome<Effect>)
    ensures DbValid(db) && r.Ok? ==> DbValid(r.value.db)
  {
    var patch :- ParseBody(body);
    var pk, sk := Field(patch, "PK"), Field(patch, "SK");
    if !Truthy(pk) && !Truthy(sk) then Ok(Effect(Record(400, None, Data(ErrorBody(MissingPkOrSkError))), db))
    else
      var found :- Get(db, WorkoutTable, Interp(pk), Interp(sk));
      if found.None? then
        Ok(Effect(Record(404, None, Data(Message("Not Found item " + Interp(pk) + " with sort key " + Interp(sk)))), db))
      else
        // `patch` is an object here (it has a truthy property), so destructuring it cannot throw.
        var updated := UpdatedSet(found.value, patch, now);
        var db' :- Put(db, WorkoutTable, updated);
        var reply := Obj(map["message" := Str("Updated item " + Interp(pk) + " with sort key " + Interp(sk)), "updated" := Obj(updated)]);
        Ok(Effect(Record(200, None, Data(reply)), db'))
  }

  /** `GET /items/:id`: the item, or `{}` when there is none. It reads the workout table. */
  function GetItemById(db: Db, id: string): (r: Outcome<Effect>)
    ensures r.Ok? ==> r.value.db == db
  {
    var found := Get(db, WorkoutTable, TodoPartitionKey(id), TodoSortKey(id)).value;
    Ok(Effect(Plain(Data(Obj(if found.Some? then found.value else map[]))), db))
  }

  /** `POST /items`: a new generic item under a minted id, in the todo table. */
  function PostItems(db: Db, body: Body, now: string, uuid: string): (r: Outcome<Effect>)
    ensures DbValid(db) && r.Ok? ==> DbValid(r.value.db)
  {
    var input :- RequireBody(body);
    var fields :- Destructure(input, "priority", "inputData");
    var item := NewItem(fields, now, uuid);
    var db' :- Put(db, TodoTable, item);
    var reply := Obj(map["message" := Str("Created new item"), "generatedId" := Str(uuid), "item" := Obj(item)]);
    Ok(Effect(Record(201, None, Data(reply)), db'))
  }

  /** `PATCH /items/:id`: read the item in the todo table, then overwrite it. */
  function PatchItemById(db: Db, body: Body, now: string, id: string): (r: Outcome<Effect>)
    ensures DbValid(db) && r.Ok? ==> DbValid(r.value.db)
  {
    var input :- RequireBody(body);
    var found := Get(db, TodoTable, TodoPartitionKey(id), TodoSortKey(id)).value;
    if found.None? then Ok(Effect(Record(404, None, Data(Message("Not Found item " + id))), db))
    else
      var fields :- Destructure(input, "priority", "updateData");
      var updated := UpdatedItem(found.value, fields, now);
      var db' :- Put(db, TodoTable, updated);
      Ok(Effect(Record(200, None, Data(Obj(map["message" := Str("Updated item " + id), "updated" := Obj(updated)]))), db'))
  }

  /** `DELETE /items/:id`: deletes in the workout table, without checking that the item was there. */
  function DeleteItemById(db: Db, id: string): (r: Outcome<Effect>)
    ensures DbValid(db) && r.Ok? ==> DbValid(r.value.db)
  {
    var db' := Delete(db, WorkoutTable, Str(TodoPartitionKey(id)), Str(TodoSortKey(id))).value;
    Ok(Effect(Plain(Data(Obj(map["message" := Str("Deleted item " + id), "id" := Str(id)]))), db'))
  }

  /** `${id}` of the captured id: `undefined` for a route without `:id`. */
  function IdText(id: Option<string>): string
  {
    if id.Some? then id.value else "undefined"
  }

  /** `matched.handler(event, matched.id)`. Every handler keeps the store invariant. */
  function Dispatch(op: Router.Op, db: Db, req: Request, id: Option<string>, env: Env, deps: Deps): (r: Outcome<Effect>)
    ensures DbValid(db) && r.Ok? ==> DbValid(r.value.db)
  {
    match op
    case ListUsers => ScanWorkoutTable(db)
    case CreateUser => PostUsers(db, req.body, env.now, deps.hash)
    case Login => PostLogin(db, req.body, deps.verify)
    case ListWorkouts => QueryOwned(db, req.query, WorkoutPrefix)
    case CreateWorkout => PostWorkouts(db, req.body, env.now)
    case DeleteWorkout => DeleteByBodyKey(db, req.body)
    case FindWorkouts => PatchWorkouts(db, req.body, deps.byTargetDay)
    case ListExercises => QueryOwned(db, req.query, ExercisePrefix)
    case DeleteExercise => DeleteByBodyKey(db, req.body)
    case CreateExercise => PostExercises(db, req.body, env.now)
    case ListSets => QueryOwned(db, req.query, SetPrefix)
    case CreateSet => PostSets(db, req.body, env.now)
    case UpdateSet => PatchSets(db, req.body, env.now)
    case ListItems => ScanWorkoutTable(db)
    case ReadItem => GetItemById(db, IdText(id))
    case CreateItem => PostItems(db, req.body, env.now, env.uuid)
    case UpdateItem => PatchItemById(db, req.body, env.now, IdText(id))
    case DeleteItem => DeleteItemById(db, IdText(id))
  }
}
