/**
 * What the route table decides for particular requests: first match over
 * the table's groups, exact method comparison, whole-path anchoring, and the
 * one-segment `:id` capture.
 */
module RoutingFacts {
  import opened Js
  import opened Router

  /** Matching a concatenation of tables: the first table decides if it can, else the second. */
  lemma {:induction false} FirstMatchAppend(a: seq<Route>, b: seq<Route>, verb: string, path: string)
    ensures FirstMatch(a + b, verb, path) ==
      if FirstMatch(a, verb, path).Some? then FirstMatch(a, verb, path) else FirstMatch(b, verb, path)
  {
    if a == [] {
      assert a + b == b;
    } else {
      assert (a + b)[0] == a[0];
      assert (a + b)[1..] == a[1..] + b;
      FirstMatchAppend(a[1..], b, verb, path);
    }
  }

  /** A table none of whose routes accepts the request matches nothing. */
  lemma NoneAccepts(rs: seq<Route>, verb: string, path: string)
    requires forall i | 0 <= i < |rs| :: !Accepts(rs[i], verb, path)
    ensures FirstMatch(rs, verb, path) == None
  {
    FirstMatchIsFirst(rs, verb, path);
  }

  lemma UserRoutesMiss(verb: string, path: string)
    requires path != "/users" && path != "/login"
    ensures FirstMatch(UserRoutes, verb, path) == None
  {
    forall i | 0 <= i < |UserRoutes| ensures !Accepts(UserRoutes[i], verb, path) {
      if i == 0 {} else if i == 1 {} else {}
    }
    NoneAccepts(UserRoutes, verb, path);
  }

  lemma WorkoutRoutesMiss(verb: string, path: string)
    requires path != "/workouts"
    ensures FirstMatch(WorkoutRoutes, verb, path) == None
  {
    forall i | 0 <= i < |WorkoutRoutes| ensures !Accepts(WorkoutRoutes[i], verb, path) {
      if i == 0 {} else if i == 1 {} else if i == 2 {} else {}
    }
    NoneAccepts(WorkoutRoutes, verb, path);
  }

  lemma ExerciseRoutesMiss(verb: string, path: string)
    requires path != "/exercises"
    ensures FirstMatch(ExerciseRoutes, verb, path) == None
  {
    forall i | 0 <= i < |ExerciseRoutes| ensures !Accepts(ExerciseRoutes[i], verb, path) {
      if i == 0 {} else if i == 1 {} else {}
    }
    NoneAccepts(ExerciseRoutes, verb, path);
  }

  lemma SetRoutesMiss(verb: string, path: string)
    requires path != "/sets"
    ensures FirstMatch(SetRoutes, verb, path) == None
  {
    forall i | 0 <= i < |SetRoutes| ensures !Accepts(SetRoutes[i], verb, path) {
      if i == 0 {} else if i == 1 {} else {}
    }
    NoneAccepts(SetRoutes, verb, path);
  }

  /** A path outside the four groups before the items goes to the item routes. */
  lemma DecidedByItems(verb: string, path: string)
    requires path !in {"/users", "/login", "/workouts", "/exercises", "/sets"}
    ensures FirstMatch(Routes, verb, path) == FirstMatch(ItemRoutes, verb, path)
  {
    UserRoutesMiss(verb, path);
    WorkoutRoutesMiss(verb, path);
    ExerciseRoutesMiss(verb, path);
    SetRoutesMiss(verb, path);
    FirstMatchAppend(UserRoutes, WorkoutRoutes, verb, path);
    FirstMatchAppend(UserRoutes + WorkoutRoutes, ExerciseRoutes, verb, path);
    FirstMatchAppend(UserRoutes + WorkoutRoutes + ExerciseRoutes, SetRoutes, verb, path);
    FirstMatchAppend(UserRoutes + WorkoutRoutes + ExerciseRoutes + SetRoutes, ItemRoutes, verb, path);
  }

  /** `GET /items` is the item collection, with no id. */
  lemma ItemCollectionRoute()
    ensures FirstMatch(Routes, "GET", "/items") == Some(Match(ListItems, None))
  {
    DecidedByItems("GET", "/items");
  }

  /** `GET /items/<id>` reads one item, capturing exactly the segment after `/items/`. */
  lemma ItemByIdRoute(id: string)
    requires id != [] && '/' !in id
    ensures FirstMatch(Routes, "GET", "/items/" + id) == Some(Match(ReadItem, Some(id)))
  {
    var path := "/items/" + id;
    assert path[1] == 'i' && |path| > 6 && path[..7] == "/items/" && path[7..] == id;
    DecidedByItems("GET", path);
  }

  /** Under `/items/`, an empty segment or more than one segment matches no route of any method. */
  lemma ItemPathWithoutOneSegment(verb: string, rest: string)
    requires rest == [] || '/' in rest
    ensures FirstMatch(Routes, verb, "/items/" + rest) == None
  {
    var path := "/items/" + rest;
    assert path[1] == 'i' && |path| > 6 && path[..7] == "/items/" && path[7..] == rest;
    DecidedByItems(verb, path);
    forall i | 0 <= i < |ItemRoutes| ensures !Accepts(ItemRoutes[i], verb, path) {
      if i == 0 {} else if i == 1 {} else if i == 2 {} else if i == 3 {} else {}
    }
    NoneAccepts(ItemRoutes, verb, path);
  }

  /** There is no `/workouts/filter` route: the literal `/workouts` must match the whole path. */
  lemma WorkoutsFilterUnrouted(verb: string)
    ensures FirstMatch(Routes, verb, "/workouts/filter") == None
  {
    var path := "/workouts/filter";
    assert path[1] == 'w';
    DecidedByItems(verb, path);
    ItemRoutesMiss(verb, path);
  }

  lemma ItemRoutesMiss(verb: string, path: string)
    requires path != "/items" && !("/items/" <= path)
    ensures FirstMatch(ItemRoutes, verb, path) == None
  {
    forall i | 0 <= i < |ItemRoutes| ensures !Accepts(ItemRoutes[i], verb, path) {
      if i == 0 {} else if i == 1 {} else if i == 2 {} else if i == 3 {} else {}
    }
    NoneAccepts(ItemRoutes, verb, path);
  }

  /** Methods compare exactly: a method no route is registered under (`get`, `HEAD`, ...) matches nothing. */
  lemma UnknownMethodUnrouted(verb: string, path: string)
    requires verb != "GET" && verb != "POST" && verb != "PATCH" && verb != "DELETE"
    ensures FirstMatch(Routes, verb, path) == None
  {
    NoneAccepts(UserRoutes, verb, path);
    NoneAccepts(WorkoutRoutes, verb, path);
    NoneAccepts(ExerciseRoutes, verb, path);
    NoneAccepts(SetRoutes, verb, path);
    NoneAccepts(ItemRoutes, verb, path);
    FirstMatchAppend(UserRoutes, WorkoutRoutes, verb, path);
    FirstMatchAppend(UserRoutes + WorkoutRoutes, ExerciseRoutes, verb, path);
    FirstMatchAppend(UserRoutes + WorkoutRoutes + ExerciseRoutes, SetRoutes, verb, path);
    FirstMatchAppend(UserRoutes + WorkoutRoutes + ExerciseRoutes + SetRoutes, ItemRoutes, verb, path);
  }

  /** The first accepting route decides, whatever follows it. */
  lemma {:induction false} FirstMatchAt(rs: seq<Route>, i: nat, verb: string, path: string)
    requires i < |rs| && Accepts(rs[i], verb, path)
    requires forall j | 0 <= j < i :: !Accepts(rs[j], verb, path)
    ensures FirstMatch(rs, verb, path) == Some(MatchOf(rs[i], path))
  {
    if i > 0 {
      assert !Accepts(rs[0], verb, path);
      forall j | 0 <= j < i - 1 ensures !Accepts(rs[1..][j], verb, path) {
        assert rs[1..][j] == rs[j + 1];
      }
      FirstMatchAt(rs[1..], i - 1, verb, path);
    }
  }

  /** The table is tried group by group, in order. */
  lemma GroupsInOrder(verb: string, path: string)
    ensures FirstMatch(Routes, verb, path) ==
      if FirstMatch(UserRoutes, verb, path).Some? then FirstMatch(UserRoutes, verb, path)
      else if FirstMatch(WorkoutRoutes, verb, path).Some? then FirstMatch(WorkoutRoutes, verb, path)
      else if FirstMatch(ExerciseRoutes, verb, path).Some? then FirstMatch(ExerciseRoutes, verb, path)
      else if FirstMatch(SetRoutes, verb, path).Some? then FirstMatch(SetRoutes, verb, path)
      else FirstMatch(ItemRoutes, verb, path)
  {
    FirstMatchAppend(UserRoutes, WorkoutRoutes, verb, path);
    FirstMatchAppend(UserRoutes + WorkoutRoutes, ExerciseRoutes, verb, path);
    FirstMatchAppend(UserRoutes + WorkoutRoutes + ExerciseRoutes, SetRoutes, verb, path);
    FirstMatchAppend(UserRoutes + WorkoutRoutes + ExerciseRoutes + SetRoutes, ItemRoutes, verb, path);
  }

  /** A user route that accepts decides the whole table: it comes first. */
  lemma DecidedByUsers(verb: string, path: string)
    ensures FirstMatch(UserRoutes, verb, path).Some? ==>
      FirstMatch(Routes, verb, path) == FirstMatch(UserRoutes, verb, path)
  {
    GroupsInOrder(verb, path);
  }

  /** Each user route, on its own verb and path, is the one the table picks. */
  lemma UserRoutesReached()
    ensures FirstMatch(Routes, "GET", "/users") == Some(Match(ListUsers, None))
    ensures FirstMatch(Routes, "POST", "/users") == Some(Match(CreateUser, None))
    ensures FirstMatch(Routes, "POST", "/login") == Some(Match(Login, None))
  {
    DecidedByUsers("GET", "/users");
    FirstMatchAt(UserRoutes, 0, "GET", "/users");
    DecidedByUsers("POST", "/users");
    FirstMatchAt(UserRoutes, 1, "POST", "/users");
    DecidedByUsers("POST", "/login");
    FirstMatchAt(UserRoutes, 2, "POST", "/login");
  }

  /** On `/workouts`, a workout route that accepts decides the whole table. */
  lemma DecidedByWorkouts(verb: string)
    ensures FirstMatch(WorkoutRoutes, verb, "/workouts").Some? ==>
      FirstMatch(Routes, verb, "/workouts") == FirstMatch(WorkoutRoutes, verb, "/workouts")
  {
    UserRoutesMiss(verb, "/workouts");
    GroupsInOrder(verb, "/workouts");
  }

  /** Each workout route, on its own verb, is the one the table picks for `/workouts`. */
  lemma WorkoutRoutesReached()
    ensures FirstMatch(Routes, "GET", "/workouts") == Some(Match(ListWorkouts, None))
    ensures FirstMatch(Routes, "POST", "/workouts") == Some(Match(CreateWorkout, None))
    ensures FirstMatch(Routes, "DELETE", "/workouts") == Some(Match(DeleteWorkout, None))
    ensures FirstMatch(Routes, "PATCH", "/workouts") == Some(Match(FindWorkouts, None))
  {
    DecidedByWorkouts("GET");
    FirstMatchAt(WorkoutRoutes, 0, "GET", "/workouts");
    DecidedByWorkouts("POST");
    FirstMatchAt(WorkoutRoutes, 1, "POST", "/workouts");
    DecidedByWorkouts("DELETE");
    FirstMatchAt(WorkoutRoutes, 2, "DELETE", "/workouts");
    DecidedByWorkouts("PATCH");
    FirstMatchAt(WorkoutRoutes, 3, "PATCH", "/workouts");
  }

  /** For `/exercises`, the exercise routes decide whenever one of them accepts. */
  lemma DecidedByExercises(verb: string)
    ensures FirstMatch(ExerciseRoutes, verb, "/exercises").Some? ==>
      FirstMatch(Routes, verb, "/exercises") == FirstMatch(ExerciseRoutes, verb, "/exercises")
  {
    UserRoutesMiss(verb, "/exercises");
    WorkoutRoutesMiss(verb, "/exercises");
    GroupsInOrder(verb, "/exercises");
  }

  lemma ExerciseRoutesReached()
    ensures FirstMatch(Routes, "GET", "/exercises") == Some(Match(ListExercises, None))
    ensures FirstMatch(Routes, "DELETE", "/exercises") == Some(Match(DeleteExercise, None))
    ensures FirstMatch(Routes, "POST", "/exercises") == Some(Match(CreateExercise, None))
  {
    DecidedByExercises("GET");
    FirstMatchAt(ExerciseRoutes, 0, "GET", "/exercises");
    DecidedByExercises("DELETE");
    FirstMatchAt(ExerciseRoutes, 1, "DELETE", "/exercises");
    DecidedByExercises("POST");
    FirstMatchAt(ExerciseRoutes, 2, "POST", "/exercises");
  }

  /** For `/sets`, the set routes decide whenever one of them accepts. */
  lemma DecidedBySets(verb: string)
    ensures FirstMatch(SetRoutes, verb, "/sets").Some? ==>
      FirstMatch(Routes, verb, "/sets") == FirstMatch(SetRoutes, verb, "/sets")
  {
    UserRoutesMiss(verb, "/sets");
    WorkoutRoutesMiss(verb, "/sets");
    ExerciseRoutesMiss(verb, "/sets");
    GroupsInOrder(verb, "/sets");
  }

  lemma SetRoutesReached()
    ensures FirstMatch(Routes, "GET", "/sets") == Some(Match(ListSets, None))
    ensures FirstMatch(Routes, "POST", "/sets") == Some(Match(CreateSet, None))
    ensures FirstMatch(Routes, "PATCH", "/sets") == Some(Match(UpdateSet, None))
  {
    DecidedBySets("GET");
    FirstMatchAt(SetRoutes, 0, "GET", "/sets");
    DecidedBySets("POST");
    FirstMatchAt(SetRoutes, 1, "POST", "/sets");
    DecidedBySets("PATCH");
    FirstMatchAt(SetRoutes, 2, "PATCH", "/sets");
  }

  /** `POST /items` creates; `/items/<id>` with PATCH or DELETE captures the id like GET does. */
  lemma ItemRoutesReached(id: string)
    requires id != [] && '/' !in id
    ensures FirstMatch(Routes, "POST", "/items") == Some(Match(CreateItem, None))
    ensures FirstMatch(Routes, "PATCH", "/items/" + id) == Some(Match(UpdateItem, Some(id)))
    ensures FirstMatch(Routes, "DELETE", "/items/" + id) == Some(Match(DeleteItem, Some(id)))
  {
    DecidedByItems("POST", "/items");
    FirstMatchAt(ItemRoutes, 2, "POST", "/items");
    var path := "/items/" + id;
    assert path[1] == 'i' && |path| > 6 && path[..7] == "/items/" && path[7..] == id;
    DecidedByItems("PATCH", path);
    FirstMatchAt(ItemRoutes, 3, "PATCH", path);
    DecidedByItems("DELETE", path);
    FirstMatchAt(ItemRoutes, 4, "DELETE", path);
  }
}
