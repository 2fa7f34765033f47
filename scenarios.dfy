/**
 * Whole requests through the entry point: routing, the handler, and the
 * response the gateway sends, over a few sequences of calls.
 */
module Scenarios {
  import opened Js
  import opened Store
  import opened Entities
  import opened Router
  import opened RoutingFacts
  import opened Api
  import opened Gateway
  import opened HandlerFacts

  function Call(verb: string, path: string, body: Body): Request
  {
    Request(verb, path, map[], body)
  }

  /** `GET /workouts/filter` has no route: 400 with the routing error as body, and no write. */
  lemma UnroutedFilter(db: Db, body: Body, env: Env, deps: Deps)
    ensures Serve(db, Call("GET", "/workouts/filter", body), env, deps) ==
      Served(Response(400, JsonHeaders, Raw(UnsupportedRoute("GET", "/workouts/filter"))), db)
  {
    WorkoutsFilterUnrouted("GET");
  }

  /**
   * The handler's own status does not reach the gateway: logging in as an
   * unknown user is answered with 200, and the 404 is inside the body.
   */
  lemma InnerStatusStaysInBody(db: Db, username: string, password: string, env: Env, deps: Deps)
    requires Key(WorkoutTable, "USER#" + username, "USER#" + username) !in db
    ensures Serve(db, Call("POST", "/login", Credentials(username, password)), env, deps) ==
      Served(Response(200, JsonHeaders, Serialized(Record(404, None, Data(Message("User not found"))))), db)
  {
    UserRoutesReached();
    assert UserKey(Str(username)) == "USER#" + username;
    LoginUnknownUser(db, Credentials(username, password).value, deps.verify);
  }

  /** A thrown error becomes a 400 whose body is the message: a login without a body. */
  lemma ErrorBecomesBadRequest(db: Db, env: Env, deps: Deps)
    ensures Serve(db, Call("POST", "/login", Absent), env, deps) ==
      Served(Response(400, JsonHeaders, Raw(MissingBodyMessage)), db)
  {
    UserRoutesReached();
  }

  /**
   * Registering and then logging in with the same password, through the
   * entry point: the second response carries the session cookie for the user.
   */
  lemma RegisterThenLoginServed(db: Db, username: string, password: string, email: string, env: Env, deps: Deps)
    requires deps.hash(password) != "" && deps.verify(password, deps.hash(password))
    ensures var first := Serve(db, Call("POST", "/users", Registration(username, password, email)), env, deps);
      var second := Serve(first.db, Call("POST", "/login", Credentials(username, password)), env, deps);
      var key := "USER#" + username;
      && first.response.statusCode == 200
      && second == Served(Response(200, JsonHeaders, Serialized(Record(200, Some(LoginHeaders(key)),
           Data(Obj(map["message" := Str("Login successful"), "PK" := Str(key)]))))), first.db)
  {
    UserRoutesReached();
    RegisterThenLogin(db, username, password, email, env.now, deps.hash, deps.verify);
  }

  /** `DELETE /items/<id>` and then `GET /items/<id>`: the read answers `{}`. */
  lemma DeleteThenReadServed(db: Db, id: string, env: Env, deps: Deps)
    requires id != [] && '/' !in id
    ensures var first := Serve(db, Call("DELETE", "/items/" + id, Absent), env, deps);
      var second := Serve(first.db, Call("GET", "/items/" + id, Absent), env, deps);
      && first.response.statusCode == 200
      && second == Served(Response(200, JsonHeaders, Serialized(Plain(Data(Obj(map[]))))), first.db)
  {
    ItemRoutesReached(id);
    ItemByIdRoute(id);
    DeleteItemThenGet(db, id);
    var delete := Call("DELETE", "/items/" + id, Absent);
    var deleted := DeleteItemById(db, id).value;
    ServeOk(db, delete, env, deps, DeleteItem, Some(id), deleted);
    var read := Call("GET", "/items/" + id, Absent);
    ServeOk(deleted.db, read, env, deps, ReadItem, Some(id), GetItemById(deleted.db, id).value);
  }

  /** A workout posted for an owner is in the owner's `GET /workouts` listing. */
  lemma PostThenListWorkouts(db: Db, input: Value, env: Env, deps: Deps)
    requires DbValid(db) && !Nullish(input) && KeyPart(Field(input, "PK"))
    requires !Field(input, "targetDay").Undefined? && !Field(input, "location").Undefined?
    requires !Field(input, "date").Undefined?
    ensures var first := Serve(db, Call("POST", "/workouts", Json(input)), env, deps);
      var pk := Field(input, "PK").s;
      var second := Serve(first.db, Request("GET", "/workouts", map["pk" := pk], Absent), env, deps);
      && first.response.statusCode == 200
      && second.db == first.db && second.response.statusCode == 200
      && second.response.body == Serialized(Record(200, Some(GetCors), Items(Query(first.db, WorkoutTable, pk, WorkoutPrefix))))
      && NewWorkout(input, env.now) in Query(first.db, WorkoutTable, pk, WorkoutPrefix)
  {
    WorkoutRoutesReached();
    PostWorkoutsStores(db, input, env.now);
    CreatedWorkoutListed(db, input, env.now);
    var post := Call("POST", "/workouts", Json(input));
    var created := PostWorkouts(db, Json(input), env.now).value;
    ServeOk(db, post, env, deps, CreateWorkout, None, created);
    var pk := Field(input, "PK").s;
    var list := Request("GET", "/workouts", map["pk" := pk], Absent);
    ServeOk(created.db, list, env, deps, ListWorkouts, None, QueryOwned(created.db, list.query, WorkoutPrefix).value);
  }
}
