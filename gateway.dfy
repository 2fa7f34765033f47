/**
 * The Lambda entry point: route the request, run the handler, and turn what
 * it returned or threw into the HTTP response of the gateway.
 *
 * The response status is decided here alone: 200 when the handler returned,
 * 400 when anything threw (including an unmatched route). A handler's own
 * `{ statusCode, headers, body }` record is not unpacked; it becomes the JSON
 * text of the response body.
 */
module Gateway {
  import opened Js
  import opened Store
  import opened Router
  import opened Api

  /** The response body: a string passed through as it is, or the JSON text of a value. */
  datatype Text = Raw(text: string) | Serialized(reply: Reply)

  datatype Response = Response(statusCode: int, headers: Headers, body: Text)

  /** A served request: the response and the store after it. */
  datatype Served = Served(response: Response, db: Db)

  const StatusOk := 200
  const StatusBadRequest := 400

  const JsonHeaders: Headers := map["Content-Type" := "application/json"]

  const UnsupportedPrefix := "Unsupported route: "

  /** The message of the error thrown for a request no route accepts: it names the method and the path. */
  function UnsupportedRoute(verb: string, path: string): (message: string)
    ensures UnsupportedPrefix <= message && message[|UnsupportedPrefix|..] == verb + " " + path
  {
    UnsupportedPrefix + verb + " " + path
  }

  /** `typeof body === "string" ? body : JSON.stringify(body)`. */
  function BodyText(reply: Reply): (t: Text)
    ensures t.Raw? <==> reply.Plain? && reply.payload.Data? && reply.payload.value.Str?
    ensures t.Raw? ==> reply == Plain(Data(Str(t.text)))
    ensures t.Serialized? ==> t.reply == reply
  {
    if reply.Plain? && reply.payload.Data? && reply.payload.value.Str? then Raw(reply.payload.value.s)
    else Serialized(reply)
  }

  /** The response for what the handler did: its value on 200, the error's message on 400. */
  function Wrap(out: Outcome<Reply>): (r: Response)
    ensures r.headers == JsonHeaders
    ensures r.statusCode == StatusOk || r.statusCode == StatusBadRequest
    ensures r.statusCode == StatusBadRequest <==> out.Thrown?
    ensures out.Thrown? ==> r.body == Raw(out.message)
    ensures out.Ok? ==> r.body == BodyText(out.value)
  {
    match out
    case Thrown(e) => Response(StatusBadRequest, JsonHeaders, Raw(e))
    case Ok(reply) => Response(StatusOk, JsonHeaders, BodyText(reply))
  }

  /** `handler`: the whole request, from routing to response, with the store it leaves. */
  function Serve(db: Db, req: Request, env: Env, deps: Deps): (r: Served)
    ensures r.response.headers == JsonHeaders
    ensures r.response.statusCode == StatusOk || r.response.statusCode == StatusBadRequest
    ensures FirstMatch(Routes, req.verb, req.path).None? ==>
      r == Served(Response(StatusBadRequest, JsonHeaders, Raw(UnsupportedRoute(req.verb, req.path))), db)
    ensures r.response.statusCode == StatusBadRequest ==> r.db == db
    ensures DbValid(db) ==> DbValid(r.db)
  {
    match FirstMatch(Routes, req.verb, req.path)
    case None => Served(Wrap(Thrown(UnsupportedRoute(req.verb, req.path))), db)
    case Some(m) =>
      match Dispatch(m.op, db, req, m.id, env, deps)
      case Thrown(e) => Served(Wrap(Thrown(e)), db)
      case Ok(effect) => Served(Wrap(Ok(effect.reply)), effect.db)
  }

  /** A routed request whose handler returns is answered 200, with the handler's store. */
  lemma ServeOk(db: Db, req: Request, env: Env, deps: Deps, op: Op, id: Option<string>, e: Effect)
    requires FirstMatch(Routes, req.verb, req.path) == Some(Match(op, id))
    requires Dispatch(op, db, req, id, env, deps) == Ok(e)
    ensures Serve(db, req, env, deps) == Served(Response(StatusOk, JsonHeaders, BodyText(e.reply)), e.db)
  {
  }
}
