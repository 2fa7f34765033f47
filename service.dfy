/**
 * The deployed function as a stateful object: the store the document client
 * talks to is the field `db`, each route handler is a method that reads and
 * writes it step by step (the PATCH handlers read, then overwrite), and
 * `Handle` is the entry point that routes, runs the handler and builds the
 * response in the mutable locals `statusCode` and `body`.
 *
 * Every method is proved against the function of the same name in `Api`
 * (or `Gateway.Serve` for `Handle`).
 */
module Service {
  import opened Js
  import opened Store
  import opened Entities
  import Router
  import opened Api
  import opened Gateway

  /**
   * A run of a handler method did what its specification says: on success it
   * returned the specified reply and left the specified store; on an error it
   * threw the specified message and left the store as it was.
   */
  predicate Performs(spec: Outcome<Effect>, r: Outcome<Reply>, before: Db, after: Db)
  {
    match spec
    case Ok(effect) => r == Ok(effect.reply) && after == effect.db
    case Thrown(e) => r == Thrown(e) && after == before
  }

  class Backend {
    /** Every table's items, as the document client sees them. */
    var db: Db
    /** bcrypt and the `GSI3` index query. */
    const deps: Deps

    ghost predicate Valid()
      reads this
    {
      DbValid(db)
    }

    constructor (deps: Deps)
      ensures db == map[] && this.deps == deps
      ensures Valid()
    {
      db := map[];
      this.deps := deps;
    }

    // -------------------------------------------------------------------------
    // The document client
    // -------------------------------------------------------------------------

    /** `client.send(new PutCommand({ TableName, Item }))`: returns the key written. */
    method PutItem(table: string, item: Item) returns (r: Outcome<Key>)
      modifies this
      ensures r == ItemKey(table, item)
      ensures db == (if r.Ok? then old(db)[r.value := item] else old(db))
      ensures r.Ok? ==> Put(old(db), table, item) == Ok(db)
      ensures old(DbValid(db)) ==> DbValid(db)
    {
      var k :- ItemKey(table, item);
      db := db[k := item];
      return Ok(k);
    }

    /** `client.send(new GetCommand({ TableName, Key }))`. */
    method GetItem(table: string, pk: string, sk: string) returns (r: Outcome<Option<Item>>)
      ensures r == Get(db, table, pk, sk)
    {
      if pk == "" || sk == "" {
        return Thrown(InvalidKeyMessage);
      }
      var k := Key(table, pk, sk);
      if k in db {
        return Ok(Some(db[k]));
      }
      return Ok(None);
    }

    /** `client.send(new DeleteCommand({ TableName, Key }))`: returns the key removed. */
    method DeleteKey(table: string, pk: Value, sk: Value) returns (r: Outcome<Key>)
      modifies this
      ensures r.Ok? <==> Delete(old(db), table, pk, sk).Ok?
      ensures r.Thrown? ==> r == Delete(old(db), table, pk, sk).PropagateFailure() && db == old(db)
      ensures r.Ok? ==> r.value == Key(table, pk.s, sk.s) && db == Delete(old(db), table, pk, sk).value
    {
      if pk.Undefined? || sk.Undefined? {
        return Thrown(UndefinedMessage);
      }
      if !KeyPart(pk) || !KeyPart(sk) {
        return Thrown(InvalidKeyMessage);
      }
      var k := Key(table, pk.s, sk.s);
      db := db - {k};
      return Ok(k);
    }

    /** `client.send(new ScanCommand({ TableName }))`. */
    method ScanItems(table: string) returns (items: set<Item>)
      ensures items == Scan(db, table)
    {
      items := set k | k in db && k.table == table :: db[k];
    }

    /** `client.send(new QueryCommand(...))` with `PK = pk AND begins_with(SK, prefix)`. */
    method QueryItems(table: string, pk: string, prefix: string) returns (items: set<Item>)
      ensures items == Query(db, table, pk, prefix)
    {
      items := set k | k in db && k.table == table && k.pk == pk && prefix <= k.sk :: db[k];
    }

    // -------------------------------------------------------------------------
    // The route handlers
    // -------------------------------------------------------------------------

    method ScanWorkoutTable() returns (r: Outcome<Reply>)
      modifies this
      ensures Performs(Api.ScanWorkoutTable(old(db)), r, old(db), db)
    {
      var items := ScanItems(WorkoutTable);
      return Ok(Plain(Items(items)));
    }

    method PostUsers(body: Body, now: string) returns (r: Outcome<Reply>)
      requires Valid()
      modifies this
      ensures Valid()
      ensures Performs(Api.PostUsers(old(db), body, now, deps.hash), r, old(db), db)
    {
      var input :- RequireBody(body);
      var fields :- Destructure(input, "username", "inputData");
      var password := Field(fields, "password");
      if !password.Str? {
        return Thrown(IllegalArguments(password));
      }
      var user := NewUser(fields, now, deps.hash(password.s));
      var _ :- PutItem(WorkoutTable, user);
      return Ok(Record(201, Some(PostCors), Data(Obj(map["message" := Str("Created new user"), "item" := Obj(user)]))));
    }

    method PostLogin(body: Body) returns (r: Outcome<Reply>)
      modifies this
      ensures Performs(Api.PostLogin(old(db), body, deps.verify), r, old(db), db)
    {
      var input :- RequireBody(body);
      var fields :- Destructure(input, "username", "inputData");
      var username, password := Field(fields, "username"), Field(fields, "password");
      var key := UserKey(username);
      var got := GetItem(WorkoutTable, key, key);
      var found := got.value;
      if found.None? {
        return Ok(Record(404, None, Data(Message("User not found"))));
      }
      var stored := StoredHash(found.value);
      if stored == "" {
        return Thrown(HashMissingMessage);
      }
      if !password.Str? {
        return Thrown(IllegalArguments(password));
      }
      if !deps.verify(password.s, stored) {
        return Ok(Record(401, None, Data(Message("Invalid credentials"))));
      }
      var reply := Obj(map["message" := Str("Login successful"), "PK" := Attr(found.value, "PK")]);
      return Ok(Record(200, Some(LoginHeaders(key)), Data(reply)));
    }

    method QueryOwned(query: map<string, string>, prefix: string) returns (r: Outcome<Reply>)
      modifies this
      ensures Performs(Api.QueryOwned(old(db), query, prefix), r, old(db), db)
    {
      if "pk" !in query || query["pk"] == "" {
        return Ok(Record(400, None, Data(ErrorBody(MissingPkError))));
      }
      var items := QueryItems(WorkoutTable, query["pk"], prefix);
      return Ok(Record(200, Some(GetCors), Items(items)));
    }

    method PostWorkouts(body: Body, now: string) returns (r: Outcome<Reply>)
      requires Valid()
      modifies this
      ensures Valid()
      ensures Performs(Api.PostWorkouts(old(db), body, now), r, old(db), db)
    {
      var input :- RequireBody(body);
      var fields :- Destructure(input, "PK", "inputData");
      var workout := NewWorkout(fields, now);
      var _ :- PutItem(WorkoutTable, workout);
      return Ok(Record(201, Some(PostCors), Data(Obj(map["message" := Str("Created new workout"), "workout" := Obj(workout)]))));
    }

    method DeleteByBodyKey(body: Body) returns (r: Outcome<Reply>)
      requires Valid()
      modifies this
      ensures Valid()
      ensures Performs(Api.DeleteByBodyKey(old(db), body), r, old(db), db)
    {
      var input :- ParseBody(body);
      var fields :- Destructure(input, "pk", "inputData");
      var pk, sk := Field(fields, "pk"), Field(fields, "sk");
      var _ :- DeleteKey(WorkoutTable, pk, sk);
      return Ok(Record(200, None, Data(Message("Deleted item " + Interp(pk) + ", " + Interp(sk)))));
    }

    method PatchWorkouts(body: Body) returns (r: Outcome<Reply>)
      modifies this
      ensures Performs(Api.PatchWorkouts(old(db), body, deps.byTargetDay), r, old(db), db)
    {
      var input :- ParseBody(body);
      var fields :- Destructure(input, "PK", "inputData");
      var pk := Field(fields, "PK");
      if !Truthy(pk) {
        return Ok(Record(400, None, Data(ErrorBody(MissingPkError))));
      }
      var found :- deps.byTargetDay(db, Field(fields, "targetDay"), pk);
      return Ok(Record(200, Some(GetCors), Items(found)));
    }

    method PostExercises(body: Body, now: string) returns (r: Outcome<Reply>)
      requires Valid()
      modifies this
      ensures Valid()
      ensures Performs(Api.PostExercises(old(db), body, now), r, old(db), db)
    {
      var input :- RequireBody(body);
      var fields :- Destructure(input, "PK", "inputData");
      var exercise := NewExercise(fields, now);
      var _ :- PutItem(WorkoutTable, exercise);
      return Ok(Record(201, Some(PostCors), Data(Obj(map["message" := Str("Created new exercise"), "exercise" := Obj(exercise)]))));
    }

    method PostSets(body: Body, now: string) returns (r: Outcome<Reply>)
      requires Valid()
      modifies this
      ensures Valid()
      ensures Performs(Api.PostSets(old(db), body, now), r, old(db), db)
    {
      var input :- RequireBody(body);
      var fields :- Destructure(input, "PK", "inputData");
      var set_ := NewSet(fields, now);
      var _ :- PutItem(WorkoutTable, set_);
      return Ok(Record(201, Some(PostCors), Data(Obj(map["message" := Str("Created new set"), "set" := Obj(set_)]))));
    }

    /** Reads the stored set, then overwrites it. */
    method PatchSets(body: Body, now: string) returns (r: Outcome<Reply>)
      requires Valid()
      modifies this
      ensures Valid()
      ensures Performs(Api.PatchSets(old(db), body, now), r, old(db), db)
    {
      var patch :- ParseBody(body);
      var pk, sk := Field(patch, "PK"), Field(patch, "SK");
      if !Truthy(pk) && !Truthy(sk) {
        return Ok(Record(400, None, Data(ErrorBody(MissingPkOrSkError))));
      }
      var existing :- GetItem(WorkoutTable, Interp(pk), Interp(sk));
      if existing.None? {
        return Ok(Record(404, None, Data(Message("Not Found item " + Interp(pk) + " with sort key " + Interp(sk)))));
      }
      var updated := UpdatedSet(existing.value, patch, now);
      var _ :- PutItem(WorkoutTable, updated);
      var reply := Obj(map["message" := Str("Updated item " + Interp(pk) + " with sort key " + Interp(sk)), "updated" := Obj(updated)]);
      return Ok(Record(200, None, Data(reply)));
    }

    method GetItemById(id: string) returns (r: Outcome<Reply>)
      modifies this
      ensures Performs(Api.GetItemById(old(db), id), r, old(db), db)
    {
      var got := GetItem(WorkoutTable, TodoPartitionKey(id), TodoSortKey(id));
      var found := got.value;
      return Ok(Plain(Data(Obj(if found.Some? then found.value else map[]))));
    }

    method PostItems(body: Body, now: string, uuid: string) returns (r: Outcome<Reply>)
      requires Valid()
      modifies this
      ensures Valid()
      ensures Performs(Api.PostItems(old(db), body, now, uuid), r, old(db), db)
    {
      var input :- RequireBody(body);
      var fields :- Destructure(input, "priority", "inputData");
      var item := NewItem(fields, now, uuid);
      var _ :- PutItem(TodoTable, item);
      return Ok(Record(201, None, Data(Obj(map["message" := Str("Created new item"), "generatedId" := Str(uuid), "item" := Obj(item)]))));
    }

    /** Reads the stored item, then overwrites it. */
    method PatchItemById(body: Body, now: string, id: string) returns (r: Outcome<Reply>)
      requires Valid()
      modifies this
      ensures Valid()
      ensures Performs(Api.PatchItemById(old(db), body, now, id), r, old(db), db)
    {
      var input :- RequireBody(body);
      var got := GetItem(TodoTable, TodoPartitionKey(id), TodoSortKey(id));
      var existing := got.value;
      if existing.None? {
        return Ok(Record(404, None, Data(Message("Not Found item " + id))));
      }
      var fields :- Destructure(input, "priority", "updateData");
      var updated := UpdatedItem(existing.value, fields, now);
      var _ :- PutItem(TodoTable, updated);
      return Ok(Record(200, None, Data(Obj(map["message" := Str("Updated item " + id), "updated" := Obj(updated)]))));
    }

    method DeleteItemById(id: string) returns (r: Outcome<Reply>)
      requires Valid()
      modifies this
      ensures Valid()
      ensures Performs(Api.DeleteItemById(old(db), id), r, old(db), db)
    {
      var _ := DeleteKey(WorkoutTable, Str(TodoPartitionKey(id)), Str(TodoSortKey(id)));
      return Ok(Plain(Data(Obj(map["message" := Str("Deleted item " + id), "id" := Str(id)]))));
    }

    /** `matched.handler(event, matched.id)`. */
    method Dispatch(op: Router.Op, req: Request, id: Option<string>, env: Env) returns (r: Outcome<Reply>)
      requires Valid()
      modifies this
      ensures Valid()
      ensures Performs(Api.Dispatch(op, old(db), req, id, env, deps), r, old(db), db)
    {
      match op
      case ListUsers => r := ScanWorkoutTable();
      case CreateUser => r := PostUsers(req.body, env.now);
      case Login => r := PostLogin(req.body);
      case ListWorkouts => r := QueryOwned(req.query, WorkoutPrefix);
      case CreateWorkout => r := PostWorkouts(req.body, env.now);
      case DeleteWorkout => r := DeleteByBodyKey(req.body);
      case FindWorkouts => r := PatchWorkouts(req.body);
      case ListExercises => r := QueryOwned(req.query, ExercisePrefix);
      case DeleteExercise => r := DeleteByBodyKey(req.body);
      case CreateExercise => r := PostExercises(req.body, env.now);
      case ListSets => r := QueryOwned(req.query, SetPrefix);
      case CreateSet => r := PostSets(req.body, env.now);
      case UpdateSet => r := PatchSets(req.body, env.now);
      case ListItems => r := ScanWorkoutTable();
      case ReadItem => r := GetItemById(IdText(id));
      case CreateItem => r := PostItems(req.body, env.now, env.uuid);
      case UpdateItem => r := PatchItemById(req.body, env.now, IdText(id));
      case DeleteItem => r := DeleteItemById(IdText(id));
    }

    /**
     * `handler`: starts from status 200 and an empty body, routes the request,
     * runs the handler, and on any error switches to status 400 with the
     * error's message. The store invariant holds before and after.
     */
    method Handle(req: Request, env: Env) returns (response: Response)
      requires Valid()
      modifies this
      ensures Valid()
      ensures Served(response, db) == Serve(old(db), req, env, deps)
    {
      var statusCode := StatusOk;
      var body: Text := Raw("");
      var matched := Router.MatchRoute(Router.Routes, req.verb, req.path);
      var out: Outcome<Reply>;
      if matched.None? {
        out := Thrown(UnsupportedRoute(req.verb, req.path));
      } else {
        out := Dispatch(matched.value.op, req, matched.value.id, env);
      }
      match out {
        case Thrown(e) =>
          statusCode := StatusBadRequest;
          body := Raw(e);
        case Ok(reply) =>
          body := BodyText(reply);
      }
      response := Response(statusCode, JsonHeaders, body);
    }
  }
}
