/**
 * The HTTP entry point of the chat function: a fixed chain of checks
 * (preflight, method, access token, body, message), then one load of the
 * knowledge base and one call of the language model.
 */
module Handler {
  import opened Wrappers
  import opened KnowledgeBase
  import opened Conversation

  /** The CORS headers sent with every response. */
  const CorsHeaders: map<string, string> := map[
    "Access-Control-Allow-Origin" := "*",
    "Access-Control-Allow-Headers" := "authorization, x-client-info, apikey, content-type, x-access-token",
    "Access-Control-Allow-Methods" := "POST, OPTIONS"
  ]

  const MethodNotAllowed: string := "Método no permitido"
  const Unauthorised: string := "Acceso no autorizado"
  const MessageRequired: string := "El campo \"message\" es requerido"

  /**
   * The `history` field: absent (defaulting to `[]`) or an array of entries;
   * or a value on which `history.map` throws (one without `map`, such as
   * `null`, or an array holding a `null` entry), with the thrown message.
   */
  datatype History = Entries(items: seq<Entry>) | NotAList(reason: string)

  /**
   * The request body after `JSON.parse` and destructuring: the `message`
   * field (`None` for a missing, `null` or otherwise falsy value) and the
   * history; or the message of the error that parsing threw.
   */
  datatype Body = Parsed(message: Option<string>, history: History) | ParseError(reason: string)

  /** The parts of the incoming event the handler looks at. */
  datatype Request = Request(httpMethod: string, accessToken: Option<string>, body: Body)

  datatype ResponseBody = NoBody | ErrorJson(error: string) | ReplyJson(reply: string)

  datatype Response = Response(statusCode: int, headers: map<string, string>, body: ResponseBody)

  /** What the model call produced: the reply text, or the message of the error it threw. */
  datatype ModelOutcome = Generated(text: string) | Threw(message: string)

  /** The outcome of the checks: an early response, or a valid message to answer. */
  datatype Gated = Respond(response: Response) | Proceed(message: string, history: History)

  /** JavaScript truthiness of an optional string: present and not empty. */
  predicate Truthy(s: Option<string>)
  {
    s.Some? && s.value != ""
  }

  /**
   * The token check: the header is truthy and strictly equal to the
   * configured token, so an unset configured token admits nobody.
   */
  predicate Authorised(token: Option<string>, configured: Option<string>)
    ensures Authorised(token, configured) ==> Truthy(configured) && token == configured
  {
    Truthy(token) && token == configured
  }

  /** The checks of the handler, in order, up to the point where the knowledge base is loaded. */
  function Gate(event: Request, configured: Option<string>): (r: Gated)
    // preflight: 200, no body, decided before any other check
    ensures event.httpMethod == "OPTIONS" <==> r == Respond(Response(200, CorsHeaders, NoBody))
    // any other method but POST: 405
    ensures (event.httpMethod != "OPTIONS" && event.httpMethod != "POST") <==>
      r == Respond(Response(405, CorsHeaders, ErrorJson(MethodNotAllowed)))
    // a POST without the right token: 401, whatever the body
    ensures (event.httpMethod == "POST" && !Authorised(event.accessToken, configured)) <==>
      r == Respond(Response(401, CorsHeaders, ErrorJson(Unauthorised)))
    // an authorised POST whose body does not parse: 500 with the parse error's message
    ensures (event.httpMethod == "POST" && Authorised(event.accessToken, configured) && event.body.ParseError?) <==>
      (r.Respond? && r.response.statusCode == 500)
    ensures event.httpMethod == "POST" && Authorised(event.accessToken, configured) && event.body.ParseError? ==>
      r == Respond(Response(500, CorsHeaders, ErrorJson(event.body.reason)))
    // an authorised POST without a message: 400
    ensures (event.httpMethod == "POST" && Authorised(event.accessToken, configured) &&
             event.body.Parsed? && !Truthy(event.body.message)) <==>
      r == Respond(Response(400, CorsHeaders, ErrorJson(MessageRequired)))
    // only an authorised POST with a message goes on, carrying that message and history
    ensures r.Proceed? <==>
      (event.httpMethod == "POST" && Authorised(event.accessToken, configured) &&
       event.body.Parsed? && Truthy(event.body.message))
    ensures r.Proceed? ==> r.message == event.body.message.value && r.history == event.body.history
  {
    if event.httpMethod == "OPTIONS" then
      Respond(Response(200, CorsHeaders, NoBody))
    else if event.httpMethod != "POST" then
      Respond(Response(405, CorsHeaders, ErrorJson(MethodNotAllowed)))
    else if !Authorised(event.accessToken, configured) then
      Respond(Response(401, CorsHeaders, ErrorJson(Unauthorised)))
    else
      match event.body
      case ParseError(reason) => Respond(Response(500, CorsHeaders, ErrorJson(reason)))
      case Parsed(message, history) =>
        if !Truthy(message) then Respond(Response(400, CorsHeaders, ErrorJson(MessageRequired)))
        else Proceed(message.value, history)
  }

  /** With no token configured, every POST is refused with 401. */
  lemma UnsetTokenRejectsEveryPost(event: Request)
    requires event.httpMethod == "POST"
    ensures Gate(event, None).Respond? && Gate(event, None).response.statusCode == 401
  {
  }

  /** A request refused for its token gets the same response whatever its body. */
  lemma TokenCheckedBeforeBody(event: Request, configured: Option<string>, other: Body)
    requires event.httpMethod == "POST" && !Authorised(event.accessToken, configured)
    ensures Gate(event.(body := other), configured) == Gate(event, configured)
  {
  }

  /**
   * Everything after the knowledge base is loaded: build the contents, call
   * the model once, and answer 200 with its reply or 500 with the message of
   * whatever was thrown.
   */
  function Answer(knowledge: string, message: string, history: History, model: seq<Turn> -> ModelOutcome): (r: Response)
    ensures r.headers == CorsHeaders
    ensures r.statusCode == 200 || r.statusCode == 500
    // 200 exactly when the history is a list and the model produced a reply for these contents
    ensures r.statusCode == 200 <==> history.Entries? && model(Contents(knowledge, message, history.items)).Generated?
    ensures r.statusCode == 200 ==> r.body == ReplyJson(model(Contents(knowledge, message, history.items)).text)
    // a history that is not a list fails before the model is called
    ensures history.NotAList? ==> r.body == ErrorJson(history.reason)
    ensures history.Entries? && model(Contents(knowledge, message, history.items)).Threw? ==>
      r.body == ErrorJson(model(Contents(knowledge, message, history.items)).message)
  {
    match history
    case NotAList(reason) => Response(500, CorsHeaders, ErrorJson(reason))
    case Entries(items) =>
      match model(Contents(knowledge, message, items))
      case Generated(text) => Response(200, CorsHeaders, ReplyJson(text))
      case Threw(e) => Response(500, CorsHeaders, ErrorJson(e))
  }

  /**
   * `handler(event)`: the checks of `Gate`; then, for a valid request, one
   * call of the knowledge-base loader and, when the history is an array, one
   * model call. Returns the response and the contents the handler builds for
   * the model (`None` when it builds none). That a request stopped by the
   * checks calls no model is shown by its response being `Gate`'s, which does
   * not depend on `model`; `sent` only records what would be handed over.
   */
  method Handle(kb: KnowledgeCache, event: Request, configured: Option<string>, now: int,
                fetch: FetchResult, model: seq<Turn> -> ModelOutcome)
    returns (response: Response, sent: Option<seq<Turn>>)
    modifies kb
    ensures response.headers == CorsHeaders
    // a request stopped by the checks neither touches the cache nor reaches the model
    ensures Gate(event, configured).Respond? ==>
      response == Gate(event, configured).response && sent == None && unchanged(kb)
    // a valid request loads the knowledge base once and answers from what the loader returned
    ensures Gate(event, configured).Proceed? ==>
      var m, h := Gate(event, configured).message, Gate(event, configured).history;
      var step := LoadSpec(old(kb.State()), now, fetch);
      && kb.State() == step.state
      && response == Answer(step.text, m, h, model)
      && sent == (if h.Entries? then Some(Contents(step.text, m, h.items)) else None)
  {
    var gated := Gate(event, configured);
    match gated {
      case Respond(r) =>
        return r, None;
      case Proceed(message, history) =>
        var knowledge, _ := kb.Load(now, fetch);
        response := Answer(knowledge, message, history, model);
        sent := if history.Entries? then Some(Contents(knowledge, message, history.items)) else None;
    }
  }
}
