/**
 * The route table and the matcher that picks a handler for a method and a
 * raw path.
 *
 * Each route path becomes an anchored regular expression in which `:id`
 * stands for `([^/]+)`. No path in the table holds a regular-expression
 * metacharacter and `:id` only ever ends a path, so a path matches a route
 * either by plain equality, or, for a route ending in `:id`, by starting
 * with the text before `:id` and continuing with a non-empty rest that has
 * no `/`, which is then the captured id.
 */
module Router {
  import opened Js

  /** The operations of the route table, one per route, in table order. */
  datatype Op =
    | ListUsers | CreateUser | Login
    | ListWorkouts | CreateWorkout | DeleteWorkout | FindWorkouts
    | ListExercises | DeleteExercise | CreateExercise
    | ListSets | CreateSet | UpdateSet
    | ListItems | ReadItem | CreateItem | UpdateItem | DeleteItem

  datatype Route = Route(verb: string, path: string, op: Op)

  /** The compiled form of a route path. */
  datatype Pattern = Literal(text: string) | Param(prefix: string)

  /** What matching one pattern against a path gives: no match, a match, or a match with a capture. */
  datatype PathMatch = NoMatch | Exact | Captured(id: string)

  /** A routing decision: the operation and the first capture group (`undefined` for routes without one). */
  datatype Match = Match(op: Op, id: Option<string>)

  /**
   * The table, in the insertion order of the handler map, written as the
   * map's groups of entries (users and login, workouts, exercises, sets, items).
   */
  const Routes: seq<Route> := UserRoutes + WorkoutRoutes + ExerciseRoutes + SetRoutes + ItemRoutes

  const UserRoutes: seq<Route> := [
    Route("GET", "/users", ListUsers),
    Route("POST", "/users", CreateUser),
    Route("POST", "/login", Login)
  ]

  const WorkoutRoutes: seq<Route> := [
    Route("GET", "/workouts", ListWorkouts),
    Route("POST", "/workouts", CreateWorkout),
    Route("DELETE", "/workouts", DeleteWorkout),
    Route("PATCH", "/workouts", FindWorkouts)
  ]

  const ExerciseRoutes: seq<Route> := [
    Route("GET", "/exercises", ListExercises),
    Route("DELETE", "/exercises", DeleteExercise),
    Route("POST", "/exercises", CreateExercise)
  ]

  const SetRoutes: seq<Route> := [
    Route("GET", "/sets", ListSets),
    Route("POST", "/sets", CreateSet),
    Route("PATCH", "/sets", UpdateSet)
  ]

  const ItemRoutes: seq<Route> := [
    Route("GET", "/items", ListItems),
    Route("GET", "/items/:id", ReadItem),
    Route("POST", "/items", CreateItem),
    Route("PATCH", "/items/:id", UpdateItem),
    Route("DELETE", "/items/:id", DeleteItem)
  ]

  /** `routePath.replace(":id", "([^/]+)")` for a path whose only `:id` ends it. */
  function Compile(path: string): (p: Pattern)
    ensures p.Param? <==> |path| >= 3 && path[|path| - 3..] == ":id"
    ensures p.Param? ==> path == p.prefix + ":id"
    ensures p.Literal? ==> p.text == path
  {
    if |path| >= 3 && path[|path| - 3..] == ":id" then Param(path[..|path| - 3]) else Literal(path)
  }

  /** `path.match(new RegExp("^" + compiled + "$"))`. */
  function MatchPath(pattern: Pattern, path: string): (r: PathMatch)
    ensures pattern.Literal? ==> (r != NoMatch <==> path == pattern.text) && !r.Captured?
    ensures pattern.Param? ==> !r.Exact?
    ensures pattern.Param? ==> forall id :: r == Captured(id) <==>
      path == pattern.prefix + id && id != [] && '/' !in id
  {
    match pattern
    case Literal(text) => if path == text then Exact else NoMatch
    case Param(prefix) =>
      if |prefix| < |path| && path[..|prefix|] == prefix && '/' !in path[|prefix|..]
      then Captured(path[|prefix|..])
      else NoMatch
  }

  /** Whether a route accepts a request: exactly the same method, and the whole path. */
  predicate Accepts(route: Route, verb: string, path: string)
  {
    route.verb == verb && MatchPath(Compile(route.path), path) != NoMatch
  }

  /** `match[1]`: the captured id, undefined when the pattern has no group. */
  function Capture(m: PathMatch): Option<string>
  {
    if m.Captured? then Some(m.id) else None
  }

  function MatchOf(route: Route, path: string): Match
  {
    Match(route.op, Capture(MatchPath(Compile(route.path), path)))
  }

  /** The routing decision: the first accepting route of the list, or none. */
  function FirstMatch(routes: seq<Route>, verb: string, path: string): Option<Match>
  {
    if routes == [] then None
    else if Accepts(routes[0], verb, path) then Some(MatchOf(routes[0], path))
    else FirstMatch(routes[1..], verb, path)
  }

  /** The decision is the earliest accepting route's; there is none exactly when no route accepts. */
  lemma {:induction false} FirstMatchIsFirst(routes: seq<Route>, verb: string, path: string)
    ensures FirstMatch(routes, verb, path).None? <==>
      forall i | 0 <= i < |routes| :: !Accepts(routes[i], verb, path)
    ensures FirstMatch(routes, verb, path).Some? ==>
      exists i | 0 <= i < |routes| ::
        && Accepts(routes[i], verb, path)
        && (forall j | 0 <= j < i :: !Accepts(routes[j], verb, path))
        && FirstMatch(routes, verb, path) == Some(MatchOf(routes[i], path))
  {
    if routes == [] {
    } else if Accepts(routes[0], verb, path) {
      assert FirstMatch(routes, verb, path) == Some(MatchOf(routes[0], path));
    } else {
      var tail := routes[1..];
      FirstMatchIsFirst(tail, verb, path);
      assert FirstMatch(routes, verb, path) == FirstMatch(tail, verb, path);
      if FirstMatch(tail, verb, path).Some? {
        var i :| 0 <= i < |tail| && Accepts(tail[i], verb, path)
          && (forall j | 0 <= j < i :: !Accepts(tail[j], verb, path))
          && FirstMatch(tail, verb, path) == Some(MatchOf(tail[i], path));
        assert tail[i] == routes[i + 1];
        forall j | 0 <= j < i + 1 ensures !Accepts(routes[j], verb, path) {
          if j > 0 { assert routes[j] == tail[j - 1]; }
        }
      } else {
        forall i | 0 <= i < |routes| ensures !Accepts(routes[i], verb, path) {
          if i > 0 { assert routes[i] == tail[i - 1]; }
        }
      }
    }
  }

  /**
   * `matchRoute`: walks the table in order and returns at the first route
   * whose method is the same and whose compiled path matches the whole path.
   */
  method MatchRoute(routes: seq<Route>, verb: string, path: string) returns (m: Option<Match>)
    ensures m.None? <==> forall i | 0 <= i < |routes| :: !Accepts(routes[i], verb, path)
    ensures m.Some? ==> exists i | 0 <= i < |routes| ::
      && Accepts(routes[i], verb, path)
      && (forall j | 0 <= j < i :: !Accepts(routes[j], verb, path))
      && m.value == MatchOf(routes[i], path)
    ensures m == FirstMatch(routes, verb, path)
  {
    for i := 0 to |routes|
      invariant forall j | 0 <= j < i :: !Accepts(routes[j], verb, path)
      invariant FirstMatch(routes[i..], verb, path) == FirstMatch(routes, verb, path)
    {
      assert routes[i..][1..] == routes[i + 1..];
      var route := routes[i];
      if route.verb != verb {
        continue;
      }
      var found := MatchPath(Compile(route.path), path);
      if found != NoMatch {
        return Some(Match(route.op, Capture(found)));
      }
    }
    assert routes[|routes|..] == [];
    return None;
  }
}
