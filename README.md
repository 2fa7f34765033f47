# Workout tracker API: a Dafny model of the Lambda request handler

The system is a single AWS Lambda function behind an HTTP API. It keeps users,
workouts, exercises, sets and to-do items in DynamoDB, in a single-table
layout: every item has a partition key `PK` and a sort key `SK`, and the
kind of an item is spelled in its keys (`USER#<name>`, `WORKOUT#<date>`,
`EXERCISE#<timestamp>#<name>`, `SET#…`, `TODO#<id>`).

Every request goes through the same three steps:

1. **Routing** (`matchRoute`). The request method and path are looked up in
   an ordered route table. The method must be equal. The path pattern is
   anchored at both ends, and `:id` captures one non-empty segment that
   contains no `/`. The first route that accepts wins.
2. **The route handler.** It parses the JSON body (or reads the `pk` query
   parameter). It keeps only the fields it names and drops the rest. It
   builds the keys itself, makes one or two storage calls, and returns a
   small `{ statusCode, headers, body }` record or a bare value.
3. **The wrapper** (`handler`). Anything the handler throws, and an unmatched
   route, becomes a response with status 400 whose body is the error
   message. Otherwise the response status is 200, and the handler's return
   value, serialised, is the body. A status the handler chose (201, 401,
   404) therefore stays inside the body.

The model is organised as follows.

- `Js` (js.dfy) writes out the JavaScript semantics the handlers rely on:
  - values, including `undefined`;
  - truthiness and `??`;
  - destructuring, including the `TypeError` raised for `null` and `undefined`;
  - object rest and spread;
  - template-literal interpolation.
- `Store` (store.dfy) is the document client over a map from
  `(table, PK, SK)` to items:
  - put marshals the item first, and throws on a top-level `undefined` or a key that is not a non-empty string;
  - get, delete, scan and query-by-prefix.
- `Router` (router.dfy) is the route table as an ordered list. `FirstMatch` specifies routing; `MatchRoute` is the loop.
- `Entities` (entities.dfy) holds the key strings and the item builders, where the sanitising happens.
- `Api` (api.dfy) has one function per handler, from the store before the call to the reply and the store after it (or the error thrown).
- `Gateway` (gateway.dfy) is the wrapper: `Serve` is a whole request.
- `Service` (service.dfy) is the imperative form:
  - a `Backend` class whose `db` field is the store;
  - one method per handler, proved to do what its `Api` function says;
  - `Handle`, which reassigns `statusCode`/`body` as the entry point does.
- `RoutingFacts`, `HandlerFacts` and `Scenarios` hold the lemmas:
  - how the route table resolves each of its entries;
  - what each handler stores and returns;
  - request sequences through the entry point.

Behaviour of the handler worth noting:

- The route table has no `GET /workouts/filter` entry, so that request is answered with 400 `Unsupported route` (`RoutingFacts.WorkoutsFilterUnrouted`, `Scenarios.UnroutedFilter`).
- `POST /items` and `PATCH /items/:id` use the table `todoTable`, while `GET /items/:id`, `DELETE /items/:id` and `GET /items` use `workoutTable`. So an item just created is not what `GET /items/<id>` reads (`HandlerFacts.CreatedItemNotReadBack`).
- `GET /items` scans the whole `workoutTable`, the same as `GET /users`. Both return user items with their password hashes (`HandlerFacts.ListingShowsStoredUser`).
- A successful login never sets a cookie in the HTTP response. The entry point answers with the single header `Content-Type`, and the handler's `Set-Cookie` header ends up as text inside the serialised body (`Gateway.Wrap`, `Scenarios.RegisterThenLoginServed`).

## Model

| member | source | states |
|---|---|---|
| Js.Coalesce | src/actions/index.ts:554-555 | `a ?? b` is `a` unless `a` is `null`/`undefined`, and `b` then |
| Js.Field | src/actions/index.ts:41-49 | reading a property gives the own field's value, or `undefined` when the object has no such field |
| Js.Rest | src/actions/index.ts:48 | `...rest` holds exactly the own fields not named in the pattern, with their values |
| Js.Destructure | src/actions/index.ts:84 | destructuring succeeds exactly when the value is not `null`/`undefined`, and then sees the value unchanged |
| Js.Truthy | src/actions/index.ts:237 | `undefined`, `null` and `""` are falsy, every object and array is truthy, and a string is truthy exactly when it is non-empty |
| Js.TypeOf | src/actions/index.ts:109 | `typeof` gives `"undefined"`, `"string"`, `"number"` exactly for undefined, strings and numbers |
| Js.NatToString | src/actions/index.ts:466 | `${n}` of a natural number is a non-empty string of decimal digits without a leading zero (`0` alone starts with `0`) |
| Js.NatToStringRoundTrip | src/actions/index.ts:466 | the decimal text of a natural number parses back to the same number |
| Js.Interp | src/actions/index.ts:52 | `${v}` of a string is the string itself, of a natural number its decimal text, and of `undefined` the text `undefined` |
| Store.Attr | src/actions/index.ts:471 | an absent attribute reads as `undefined` |
| Store.ItemKey | src/actions/index.ts:59-64 | a put has a key exactly when no top-level attribute is `undefined` and `PK`, `SK` are non-empty strings; the key is `(table, PK, SK)` |
| Store.Put | src/actions/index.ts:59-64 | a put succeeds exactly when the item marshals and has a key; it then overwrites that one key, and the stored item carries that key |
| Store.Get | src/actions/index.ts:452-460 | a get with two non-empty string key parts succeeds, and finds an item exactly when that key is stored |
| Store.Delete | src/actions/index.ts:216-224 | a delete succeeds exactly when both key parts are non-empty strings; it then removes that one key, whether or not it was there |
| Store.Scan | src/actions/index.ts:30-32 | a scan returns every item stored in the table, and nothing that is not |
| Store.Query | src/actions/index.ts:143-152 | a query returns every item of the table under that `PK` whose stored `SK` starts with the prefix, and nothing else |
| Store.QueryByAttributes | src/actions/index.ts:143-152 | a query returns exactly the stored items of the table whose `PK` is the given string and whose `SK` starts with the prefix |
| Store.DeleteThenGet | src/actions/index.ts:647-657 | after deleting a key, a get of that key finds nothing |
| Store.PutThenGet | src/actions/index.ts:59-64 | after a put, a get of the item's own key returns the item |
| Store.PutCarried | src/actions/index.ts:494-498 | putting an item that carries a key of the table replaces exactly that key |
| Router.Compile | src/actions/index.ts:668 | a route path ending in `:id` becomes a prefix plus a capture, and any other path stays literal text |
| Router.MatchPath | src/actions/index.ts:667-669 | a literal pattern matches exactly its own text and captures nothing; a `:id` pattern captures exactly the non-empty, slash-free rest after its prefix |
| Router.FirstMatch | src/actions/index.ts:662-676 | the routing decision: the first route of the list that accepts, or none; its properties are those proved by `Router.FirstMatchIsFirst` |
| Router.FirstMatchIsFirst | src/actions/index.ts:662-676 | no route matches exactly when no route accepts; otherwise the result is that of the first route that accepts |
| Router.MatchRoute | src/actions/index.ts:662-676 | the loop returns none exactly when no route accepts, and otherwise the first accepting route's handler and capture, which is `FirstMatch` |
| RoutingFacts.FirstMatchAppend | src/actions/index.ts:662-676 | matching in a table made of two parts tries the first part, and only if it has no match, the second |
| RoutingFacts.NoneAccepts | src/actions/index.ts:675 | a table none of whose routes accept gives no match |
| RoutingFacts.FirstMatchAt | src/actions/index.ts:670-673 | the route at position `i` is the result when it accepts and none before it does |
| RoutingFacts.GroupsInOrder | src/actions/index.ts:28-659 | the table is resolved group by group (users, workouts, exercises, sets, items), the first group with a match deciding |
| RoutingFacts.UserRoutesMiss | src/actions/index.ts:29-131 | the user routes match only `/users` and `/login` |
| RoutingFacts.WorkoutRoutesMiss | src/actions/index.ts:133-266 | the workout routes match only `/workouts` |
| RoutingFacts.ExerciseRoutesMiss | src/actions/index.ts:268-363 | the exercise routes match only `/exercises` |
| RoutingFacts.SetRoutesMiss | src/actions/index.ts:365-508 | the set routes match only `/sets` |
| RoutingFacts.ItemRoutesMiss | src/actions/index.ts:510-658 | the item routes match only `/items` and paths under `/items/` |
| RoutingFacts.DecidedByItems | src/actions/index.ts:510-658 | a path outside the other groups is routed by the item routes alone |
| RoutingFacts.DecidedByUsers | src/actions/index.ts:29-131 | a user route that accepts decides the whole table |
| RoutingFacts.DecidedByWorkouts | src/actions/index.ts:133-266 | on `/workouts`, a workout route that accepts decides the whole table |
| RoutingFacts.DecidedByExercises | src/actions/index.ts:268-363 | on `/exercises`, an exercise route that accepts decides the whole table |
| RoutingFacts.DecidedBySets | src/actions/index.ts:365-508 | on `/sets`, a set route that accepts decides the whole table |
| RoutingFacts.UserRoutesReached | src/actions/index.ts:29-131 | `GET /users`, `POST /users` and `POST /login` reach their own handlers |
| RoutingFacts.WorkoutRoutesReached | src/actions/index.ts:133-266 | `GET`, `POST`, `DELETE`, `PATCH` on `/workouts` reach their own handlers |
| RoutingFacts.ExerciseRoutesReached | src/actions/index.ts:268-363 | `GET`, `DELETE`, `POST` on `/exercises` reach their own handlers |
| RoutingFacts.SetRoutesReached | src/actions/index.ts:365-508 | `GET`, `POST`, `PATCH` on `/sets` reach their own handlers |
| RoutingFacts.ItemCollectionRoute | src/actions/index.ts:510-515 | `GET /items` reaches the scan, with no capture |
| RoutingFacts.ItemByIdRoute | src/actions/index.ts:517-528 | `GET /items/<id>`, for a non-empty slash-free id, reaches the read with that id captured |
| RoutingFacts.ItemRoutesReached | src/actions/index.ts:530-658 | `POST /items`, and `PATCH`/`DELETE /items/<id>`, reach their own handlers with the id captured |
| RoutingFacts.ItemPathWithoutOneSegment | src/actions/index.ts:667-669 | `/items/` and `/items/a/b` (an empty rest, or one with a `/`) match no route for any method |
| RoutingFacts.WorkoutsFilterUnrouted | src/actions/index.ts:28-659 | `/workouts/filter` matches no route for any method |
| RoutingFacts.UnknownMethodUnrouted | src/actions/index.ts:665 | a method other than GET, POST, PATCH, DELETE matches no route |
| Entities.UserKeyInjective | src/actions/index.ts:52-53 | two usernames with the same `USER#` key are equal |
| Entities.UserKey | src/actions/index.ts:52-53 | a user key is `USER#` followed by the text of the username |
| Entities.WorkoutSortKey | src/actions/index.ts:184 | a workout sort key is `WORKOUT#` followed by the text of the date |
| Entities.ExerciseSortKey | src/actions/index.ts:338 | an exercise sort key is `EXERCISE#` followed by the timestamp, `#` and the text of the name |
| Entities.TodoPartitionKey | src/actions/index.ts:552 | an item partition key is `TODO#` followed by the id |
| Entities.TodoSortKey | src/actions/index.ts:553 | an item sort key is `USER#` followed by the id |
| Entities.SortKeyKinds | src/actions/index.ts:184 | a workout sort key starts with `WORKOUT#` and not with `EXERCISE#`/`SET#`, and the exercise sort key of line 338 the other way round |
| Entities.NewUser | src/actions/index.ts:51-57 | the stored user has exactly `PK`, `SK`, `emailAddress`, `createdAt`, `password`, with `PK = SK = USER#<username>`, the body's `emailAddress`, the server timestamp and the hash |
| Entities.NewWorkout | src/actions/index.ts:182-189 | the stored workout has exactly its six fields: the client's `PK`, `SK = WORKOUT#<date>`, the body's `targetDay`, `location` and `date`, and the server timestamp |
| Entities.NewExercise | src/actions/index.ts:336-344 | the stored exercise has exactly its seven fields: the client's `PK`, `SK = EXERCISE#<ts>#<name>`, the body's `exerciseName`, `numberOfSets`, `weight` and `unitMeasurement`, and the server timestamp |
| Entities.NewSet | src/actions/index.ts:411-417 | the stored set has exactly its five fields: the client's `PK` and `SK`, the body's `numberOfReps` and `weight`, and the server timestamp |
| Entities.UpdatedSet | src/actions/index.ts:471-491 | the patched set has exactly its six fields: it keeps the existing `PK`, `SK`, `createdAt`, takes `numberOfReps` and `weight` from the patch, and has the new `editedAt` |
| Entities.ItemData | src/actions/index.ts:558 | `data` holds the client's leftover fields overlaid by the client's `data`, whose keys win |
| Entities.NewItem | src/actions/index.ts:549-559 | the new item has exactly its seven fields: `PK = TODO#<id>`, `SK = USER#<id>`, `priority ?? 1`, `description ?? ""`, `createdAt = editedAt =` the timestamp, and `data` the merge of `Entities.ItemData` |
| Entities.UpdatedItem | src/actions/index.ts:605-628 | the patched item has exactly its seven fields: it keeps the existing `PK`, `SK`, `createdAt`, takes `priority ?? 1`, `description ?? ""` and the merged `data` from the body, and has the new `editedAt` |
| Entities.NewUserSanitised | src/actions/index.ts:41-57 | two bodies that agree on `username`, `password`, `emailAddress` build the same user: client `PK`/`SK`/`createdAt` and extra fields are dropped |
| Entities.NewWorkoutSanitised | src/actions/index.ts:172-189 | two bodies that agree on the named workout fields build the same workout |
| Entities.NewExerciseSanitised | src/actions/index.ts:326-344 | two bodies that agree on the named exercise fields build the same exercise |
| Entities.NewSetSanitised | src/actions/index.ts:403-417 | two bodies that agree on `PK`, `SK`, `numberOfReps`, `weight` build the same set |
| Entities.UpdatedSetSanitised | src/actions/index.ts:474-491 | two patches that agree on `numberOfReps` and `weight` give the same updated set |
| Entities.ItemDecoysIgnored | src/actions/index.ts:538-628 | client `PK`, `SK`, `createdAt`, `editedAt` change neither a new nor a patched item |
| Entities.SameItemInputs | src/actions/index.ts:551-628 | the item builders read a body only through `priority`, `description`, `data` and `...rest` |
| Entities.CreateAndUpdateAgree | src/actions/index.ts:551-628 | create and patch compute `priority`, `description` and `data` from a body the same way |
| Entities.ItemDefaults | src/actions/index.ts:554-555 | without `priority` and `description`, an item gets priority 1 and description `""` |
| Entities.EmptyUpdateOfNewItem | src/actions/index.ts:620-628 | patching a new item with `{}` keeps its keys and `createdAt`, resets priority and description to the defaults and empties `data` |
| Entities.NewItemCarries | src/actions/index.ts:551-553 | a new item carries the key `(table, TODO#<id>, USER#<id>)` |
| Entities.UpdatedItemCarries | src/actions/index.ts:620-636 | a patched item still carries the existing key exactly when the existing item has `createdAt` (otherwise the put rejects the `undefined`) |
| Entities.UpdatedSetCarries | src/actions/index.ts:484-498 | a patched set carries the existing key exactly when `createdAt` exists and the patch gives `numberOfReps` and `weight` |
| Api.ParseBody | src/actions/index.ts:213 | `JSON.parse` of the body succeeds exactly for JSON text, and gives its value |
| Api.RequireBody | src/actions/index.ts:36 | a missing or empty body throws `Missing request body`; otherwise the body is parsed |
| Api.StoredHash | src/actions/index.ts:103-107 | the hash is non-empty exactly when the item has a non-empty string `password`, and it is then that string |
| Api.SessionCookie | src/actions/index.ts:124 | the cookie is `PK=` followed by the user key and its attributes |
| Api.LoginHeaders | src/actions/index.ts:120-125 | the login headers are the three CORS headers of a POST plus `Set-Cookie` holding the session cookie |
| Api.IllegalArguments | src/actions/index.ts:109 | bcrypt's error names the type of the plaintext it refuses: `Illegal arguments: <typeof>, string` |
| Api.ScanWorkoutTable | src/actions/index.ts:29-34 | `GET /users` (and `GET /items`) never writes |
| Api.PostUsers | src/actions/index.ts:35-77 | `POST /users` keeps every stored item's key consistent |
| Api.PostLogin | src/actions/index.ts:79-131 | `POST /login` never writes |
| Api.QueryOwned | src/actions/index.ts:133-164 | the three `pk` queries never write |
| Api.PostWorkouts | src/actions/index.ts:166-209 | `POST /workouts` keeps every stored item's key consistent |
| Api.DeleteByBodyKey | src/actions/index.ts:211-230 | `DELETE /workouts` and `DELETE /exercises` keep every stored item's key consistent |
| Api.PatchWorkouts | src/actions/index.ts:232-266 | `PATCH /workouts` never writes |
| Api.PostExercises | src/actions/index.ts:321-363 | `POST /exercises` keeps every stored item's key consistent |
| Api.PostSets | src/actions/index.ts:398-436 | `POST /sets` keeps every stored item's key consistent |
| Api.PatchSets | src/actions/index.ts:438-508 | `PATCH /sets` keeps every stored item's key consistent |
| Api.GetItemById | src/actions/index.ts:517-528 | `GET /items/:id` never writes |
| Api.PostItems | src/actions/index.ts:530-576 | `POST /items` keeps every stored item's key consistent |
| Api.PatchItemById | src/actions/index.ts:578-645 | `PATCH /items/:id` keeps every stored item's key consistent |
| Api.DeleteItemById | src/actions/index.ts:647-658 | `DELETE /items/:id` keeps every stored item's key consistent |
| Api.Dispatch | src/actions/index.ts:28-659 | whichever handler the route selects, every stored item's key stays consistent |
| Gateway.BodyText | src/actions/index.ts:698 | a string return value is the body as it is; anything else is serialised |
| Gateway.UnsupportedRoute | src/actions/index.ts:687 | the error for an unmatched request is `Unsupported route: ` followed by the method, a space and the path |
| Gateway.Wrap | src/actions/index.ts:679-699 | the status is 200 or 400, and 400 exactly when something threw, with the message as body; the header is always `Content-Type: application/json` |
| Gateway.Serve | src/actions/index.ts:678-700 | the status is only ever 200 or 400; an unmatched route gives 400 `Unsupported route: <method> <path>` and no write; a 400 never writes; the key invariant is kept |
| Gateway.ServeOk | src/actions/index.ts:686-698 | a routed request whose handler returns is answered 200, with the serialised return value and the handler's store |
| Service.Backend.constructor | src/actions/index.ts:23 | the backend starts with an empty store and satisfies its invariant |
| Service.Backend.PutItem | src/actions/index.ts:59-64 | the method puts exactly as `Put` says, returning the item's key |
| Service.Backend.GetItem | src/actions/index.ts:452-460 | the method reads exactly what `Get` says |
| Service.Backend.DeleteKey | src/actions/index.ts:216-224 | the method deletes exactly as `Delete` says, and changes nothing when it throws |
| Service.Backend.ScanItems | src/actions/index.ts:30-32 | the method returns exactly the table's items |
| Service.Backend.QueryItems | src/actions/index.ts:143-152 | the method returns exactly the query's items |
| Service.Backend.ScanWorkoutTable | src/actions/index.ts:29-34 | the method returns and stores what `Api.ScanWorkoutTable` says |
| Service.Backend.PostUsers | src/actions/index.ts:35-77 | the method returns (or throws) and stores what `Api.PostUsers` says |
| Service.Backend.PostLogin | src/actions/index.ts:79-131 | the method returns (or throws) and stores what `Api.PostLogin` says |
| Service.Backend.QueryOwned | src/actions/index.ts:133-164 | the method returns and stores what `Api.QueryOwned` says |
| Service.Backend.PostWorkouts | src/actions/index.ts:166-209 | the method returns (or throws) and stores what `Api.PostWorkouts` says |
| Service.Backend.DeleteByBodyKey | src/actions/index.ts:211-230 | the method returns (or throws) and stores what `Api.DeleteByBodyKey` says |
| Service.Backend.PatchWorkouts | src/actions/index.ts:232-266 | the method returns (or throws) and stores what `Api.PatchWorkouts` says |
| Service.Backend.PostExercises | src/actions/index.ts:321-363 | the method returns (or throws) and stores what `Api.PostExercises` says |
| Service.Backend.PostSets | src/actions/index.ts:398-436 | the method returns (or throws) and stores what `Api.PostSets` says |
| Service.Backend.PatchSets | src/actions/index.ts:438-508 | the method reads, then overwrites, as `Api.PatchSets` says |
| Service.Backend.GetItemById | src/actions/index.ts:517-528 | the method returns and stores what `Api.GetItemById` says |
| Service.Backend.PostItems | src/actions/index.ts:530-576 | the method returns (or throws) and stores what `Api.PostItems` says |
| Service.Backend.PatchItemById | src/actions/index.ts:578-645 | the method reads, then overwrites, as `Api.PatchItemById` says |
| Service.Backend.DeleteItemById | src/actions/index.ts:647-658 | the method returns and stores what `Api.DeleteItemById` says |
| Service.Backend.Dispatch | src/actions/index.ts:689 | the method runs the selected handler as `Api.Dispatch` says |
| Service.Backend.Handle | src/actions/index.ts:678-700 | the entry point's response and new store are those of `Gateway.Serve`, and the store invariant is kept |
| HandlerFacts.NewUserMarshals | src/actions/index.ts:51-64 | a new user has valid key parts, and fails to marshal exactly when `emailAddress` is `undefined` |
| HandlerFacts.PostUsersStores | src/actions/index.ts:35-77 | `POST /users` succeeds exactly for an object body with a string password and a defined `emailAddress`; it then stores the user under `USER#<username>` with the hash, never the plaintext, and the server timestamp, and answers 201 |
| HandlerFacts.UserWritten | src/actions/index.ts:51-64 | a successful `POST /users` writes exactly the new user at `USER#<username>` |
| HandlerFacts.PostUsersOverwrites | src/actions/index.ts:51-64 | two registrations with the same username leave one item: the second user |
| HandlerFacts.LoginCookieOnlyOnSuccess | src/actions/index.ts:118-130 | a login that sets a cookie answers 200, and the cookie is `PK=USER#<username>; HttpOnly; SameSite=None; Path=/` |
| HandlerFacts.LoginUnknownUser | src/actions/index.ts:96-101 | no user under the key: 404 `User not found`, no cookie, no write |
| HandlerFacts.LoginHashMissing | src/actions/index.ts:103-107 | a stored user without a password hash: the login throws `Password hash is missing` |
| HandlerFacts.LoginPasswordNotString | src/actions/index.ts:109 | a password that is not a string: bcrypt's argument error is thrown |
| HandlerFacts.LoginRefused | src/actions/index.ts:109-116 | a password that does not verify: 401 `Invalid credentials`, no cookie, no write |
| HandlerFacts.LoginAccepted | src/actions/index.ts:118-130 | a password that verifies: 200 with the session cookie and the stored `PK`, no write |
| HandlerFacts.Registered | src/actions/index.ts:51-94 | after registering, the key a login for the same username reads holds the user, with the password's hash |
| HandlerFacts.RegisterThenLogin | src/actions/index.ts:35-131 | registering and then logging in with the same password succeeds with the user's session cookie |
| HandlerFacts.WrongPasswordRefused | src/actions/index.ts:35-131 | after registering, a password that does not verify against the stored hash is refused with 401 |
| HandlerFacts.PostWorkoutsStores | src/actions/index.ts:166-209 | `POST /workouts` succeeds exactly when `PK` is a non-empty string and the named fields are defined; it then writes exactly the workout under `(PK, WORKOUT#<date>)` and answers 201 |
| HandlerFacts.PostExercisesStores | src/actions/index.ts:321-363 | `POST /exercises` succeeds exactly when `PK` is a non-empty string and the named fields are defined; it then writes exactly the exercise under `(PK, EXERCISE#<ts>#<name>)` and answers 201 |
| HandlerFacts.PostSetsStores | src/actions/index.ts:398-436 | `POST /sets` succeeds exactly when the client's `PK`, `SK` are non-empty strings and the named fields are defined; it then writes exactly the set under that key and answers 201 |
| HandlerFacts.QueryOwnedNeedsPk | src/actions/index.ts:134-141 | a missing or empty `pk` gives 400 `Missing 'pk' query parameter` without touching the store |
| HandlerFacts.QueryOwnedFinds | src/actions/index.ts:143-163 | with a `pk`, the reply is 200 and lists exactly the `workoutTable` items with that `PK` whose `SK` starts with the prefix |
| HandlerFacts.CreatedWorkoutListed | src/actions/index.ts:133-209 | a posted workout is in its owner's workout listing, and in neither the exercise nor the set listing |
| HandlerFacts.ListingShowsStoredUser | src/actions/index.ts:29-77 | after registering, `GET /users` lists the stored user, password hash included |
| HandlerFacts.DeleteByBodyKeyRemoves | src/actions/index.ts:211-230 | the body-keyed delete succeeds exactly for two non-empty string key parts, removes only that key, and answers the same whether or not it existed |
| HandlerFacts.DeleteItemThenGet | src/actions/index.ts:517-658 | `DELETE /items/<id>` always succeeds, removes only that key, and a following `GET /items/<id>` answers `{}` |
| HandlerFacts.GetItemByIdReads | src/actions/index.ts:517-528 | `GET /items/<id>` answers the item under `(TODO#<id>, USER#<id>)` in `workoutTable`, or `{}` |
| HandlerFacts.PatchWorkoutsReadOnly | src/actions/index.ts:232-266 | `PATCH /workouts` never writes, and without a truthy `PK` answers 400 |
| HandlerFacts.PatchSetsRefusal | src/actions/index.ts:443-450 | `PATCH /sets` refuses with 400 exactly when both `PK` and `SK` are falsy |
| HandlerFacts.PatchSetsMissing | src/actions/index.ts:452-469 | a patch of a set that is not stored answers 404 and does not write |
| HandlerFacts.PatchSetsOverwrites | src/actions/index.ts:452-507 | a patch of a stored set succeeds exactly when the put can marshal it; it then replaces only that item, keeps its keys and `createdAt`, stamps `editedAt` and answers 200 |
| HandlerFacts.PostItemsStores | src/actions/index.ts:530-576 | `POST /items` with an object body writes exactly the new item under `(todoTable, TODO#<uuid>, USER#<uuid>)` and answers 201 |
| HandlerFacts.CreatedItemNotReadBack | src/actions/index.ts:517-576 | creating an item does not change what `GET /items/<id>` answers for its id, because the two use different tables |
| HandlerFacts.PatchItemMissing | src/actions/index.ts:586-603 | a patch of an item that is not stored answers 404 `Not Found item <id>` and does not write |
| HandlerFacts.PatchItemOverwrites | src/actions/index.ts:586-645 | a patch of a stored item succeeds exactly when the body is an object and the item has `createdAt`; it then replaces only that item, keeps its keys and `createdAt`, stamps `editedAt` and answers 200 |
| HandlerFacts.PatchStoredItem | src/actions/index.ts:586-645 | a patch of a stored item that carries its key succeeds exactly when the body is an object and the item has `createdAt`, and then writes the updated item |
| HandlerFacts.CreateThenPatchItem | src/actions/index.ts:530-645 | creating an item and patching it writes the patch of the new item, with the creation time kept and the patch time as `editedAt` |
| Scenarios.UnroutedFilter | src/actions/index.ts:678-700 | `GET /workouts/filter` is answered 400 `Unsupported route: GET /workouts/filter` and nothing is written |
| Scenarios.InnerStatusStaysInBody | src/actions/index.ts:689-699 | logging in as an unknown user is answered 200, with the 404 record of lines 96-101 serialised in the body |
| Scenarios.ErrorBecomesBadRequest | src/actions/index.ts:690-692 | a login without a body (line 80) is answered 400 with `Missing request body` as the body |
| Scenarios.RegisterThenLoginServed | src/actions/index.ts:35-131 | through the entry point, registering and then logging in gives 200 twice; the second response has only the `Content-Type` header, and its body is the serialised login record whose headers hold the session cookie |
| Scenarios.DeleteThenReadServed | src/actions/index.ts:517-658 | through the entry point, `DELETE /items/<id>` and then `GET /items/<id>` answer 200 and `{}` |
| Scenarios.PostThenListWorkouts | src/actions/index.ts:133-209 | through the entry point, a posted workout is in the owner's `GET /workouts` listing |

## Left out

- bcrypt: `hashSync` and `compare` are the parameters `Deps.hash` and `Deps.verify`. Salting, the cost factor and randomness are not modelled. The model assumes nothing about them beyond what a lemma's requires states, for example that `verify(p, hash(p))` holds.
- The clock and `uuidv4()` are the parameter `Env`. The form of the timestamp and the uniqueness of ids are not modelled.
- `PATCH /workouts` queries an index `GSI3` that the deployment stack does not declare. That query is the opaque parameter `Deps.byTargetDay`. The model states only that this handler never writes and answers 400 without `PK`.
- JSON text: `JSON.parse` is modelled by the `Body` datatype (absent, empty, unparsable, parsed), and serialisation by `Text.Serialized` on the structured reply. Key order, escaping and the exact text are not modelled.
- The attribute-value encoding of the low-level client's results is flattened: a string attribute is read as its string. This covers the `GetItemCommand` of `POST /login` (`Item.password.S`, `Item.PK.S`) and the `QueryCommand` of `GET /workouts`, `GET /exercises`, `GET /sets` and `PATCH /workouts`, whose listing bodies really hold encoded items (`{"PK": {"S": …}}`). The model returns plain items from those queries, the same as from the document client's `ScanCommand` of `GET /users` and `GET /items`.
- Scan and query results are sets. Their order and DynamoDB's pagination are not modelled.
- Numbers are integers. Floating-point values, `NaN` and their text are not modelled.
- Spreading a string or an array as an object, and the own fields of values that are not plain objects, are not modelled: `OwnFields` of a non-object is empty.
- The document client's marshalling is modelled for top-level `undefined` attributes only. Nested `undefined` inside `data`, and other marshalling errors, are not modelled.
- Storage errors: the texts of the messages a rejected put, get or delete throws stand in for the SDK's own messages. Table existence is not modelled, so `todoTable` (which the stack does not declare) is a table like any other.
- The deployment stack, the CORS mock integration and the bundler configuration are infrastructure wiring and are not part of this model.
- `async`/`await` and concurrent requests: every storage call is made in sequence, and requests are served one at a time.
- `key.split(" ")` on the route table keys is replaced by routes with separate method and path fields.
- The event's other fields are left out: base64-encoded bodies, headers, and cookies sent by the client.
- Api.PostUsers, Api.PostWorkouts, Api.DeleteByBodyKey, Api.PostExercises, Api.PostSets, Api.PatchSets, Api.PostItems, Api.PatchItemById, Api.DeleteItemById: each function's own contract states only that the key invariant is kept. What each one stores and answers is stated by the `HandlerFacts` lemma about it.
