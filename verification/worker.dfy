/** The Worker's `fetch` handler (`src/index.ts`): it answers Slack's Events API webhook and
    hands each user message to the chat room of its channel. */
module Worker {
  import opened Wrappers
  import opened Slack

  /** The fields of the JSON body the handler destructures: `type`, `challenge` and `event`,
      each of which may be absent. */
  datatype Payload = Payload(kind: Option<string>, challenge: Option<string>, event: Option<Event>)

  /** An inbound request: its HTTP method and its body. The body is None when `JSON.parse`
      throws or yields `null`, so that the destructuring throws; any other JSON value
      destructures, and fields it lacks are None. */
  datatype Request = Request(httpMethod: string, body: Option<Payload>)

  /** The handler's decision. `Dispatch` hands the event to the chat room named by `channel`;
      `Thrown` is an exception that escapes `fetch`. */
  datatype Route =
    | NotAllowed
    | Verification(challenge: Option<string>)
    | Ignored
    | Dispatch(channel: string, event: Event)
    | Thrown

  /** A response body: plain text, or the JSON object `{ challenge }`. */
  datatype Body = Text(text: string) | ChallengeJson(challenge: Option<string>)

  datatype Response = Response(status: nat, body: Body)

  /** The chain of early returns in `fetch`. */
  function Classify(req: Request): (r: Route)
    // Anything but POST is refused, whatever the body holds: it is never read.
    ensures r.NotAllowed? <==> req.httpMethod != "POST"
    // A body that does not parse throws; so does an `event_callback` without an event.
    ensures r.Thrown? <==>
      req.httpMethod == "POST"
      && (req.body.None?
          || (req.body.value.kind == Some("event_callback") && req.body.value.event.None?))
    // The URL-verification handshake is answered before bot and type filtering.
    ensures r.Verification? <==> req.httpMethod == "POST" && req.body.Some? && req.body.value.kind == Some("url_verification")
    ensures r.Verification? ==> r.challenge == req.body.value.challenge
    // Bot messages and every type other than `event_callback` are ignored.
    ensures r.Ignored? <==>
      req.httpMethod == "POST" && req.body.Some? && req.body.value.kind != Some("url_verification")
      && ((req.body.value.event.Some? && IsBotEvent(req.body.value.event.value))
          || req.body.value.kind != Some("event_callback"))
    // What remains is dispatched to the room of the event's channel.
    ensures r.Dispatch? <==>
      req.httpMethod == "POST" && req.body.Some? && req.body.value.kind == Some("event_callback")
      && req.body.value.event.Some? && !IsBotEvent(req.body.value.event.value)
    ensures r.Dispatch? ==> r.event == req.body.value.event.value && r.channel == r.event.channel
  {
    if req.httpMethod != "POST" then NotAllowed
    else match req.body
      case None => Thrown
      case Some(p) =>
        if p.kind == Some("url_verification") then Verification(p.challenge)
        else if (p.event.Some? && IsBotEvent(p.event.value)) || p.kind != Some("event_callback") then Ignored
        else match p.event
          case None => Thrown
          case Some(e) => Dispatch(e.channel, e)
  }

  /** The response `fetch` returns for a decision; None when an exception escapes instead. */
  function Respond(route: Route): (r: Option<Response>)
    ensures r.None? <==> route.Thrown?
    ensures r.Some? && r.value.status != 200 <==> route.NotAllowed?
    ensures route.NotAllowed? ==> r == Some(Response(405, Text("Method not allowed")))
    ensures route.Ignored? ==> r == Some(Response(200, Text("Ignored")))
    ensures route.Dispatch? ==> r == Some(Response(200, Text("OK")))
    // Only the handshake answers with JSON, echoing the challenge it was given.
    ensures r.Some? && r.value.body.ChallengeJson? <==> route.Verification?
    ensures route.Verification? ==> r.value.body.challenge == route.challenge
  {
    match route
    case NotAllowed => Some(Response(405, Text("Method not allowed")))
    case Verification(c) => Some(Response(200, ChallengeJson(c)))
    case Ignored => Some(Response(200, Text("Ignored")))
    case Dispatch(_, _) => Some(Response(200, Text("OK")))
    case Thrown => None
  }
}
