/** The `extract-medication` edge function: a fixed sequence of guards that maps
    a request to one response, making at most one outbound call to the vision
    completion service. The runtime's effects are inputs here: the outcome of
    reading the request body, the configured key, the outcome of the outbound
    call (an oracle consulted only when the call is made) and `JSON.parse`. */
module ExtractMedication {
  import opened Wrappers
  import opened Json

  const CorsHeaders: map<string, string> :=
    map["Access-Control-Allow-Origin" := "*",
        "Access-Control-Allow-Headers" := "authorization, x-client-info, apikey, content-type"]

  const JsonHeaders: map<string, string> := CorsHeaders["Content-Type" := "application/json"]

  const CompletionsUrl := "https://api.openai.com/v1/chat/completions"
  const CompletionModel := "gpt-4o-mini"
  const MaxTokens := 500
  const Temperature: real := 0.1

  const NoImageMessage := "No image provided"
  const NoKeyMessage := "OpenAI API key not configured"
  const UpstreamFailedMessage := "Failed to extract medication information"
  const ParseFailedMessage := "Failed to parse medication information from image"
  const NoNameMessage := "Could not extract medication name from image"

  /** An incoming request: its HTTP method (`verb`) and the outcome of `req.json()`. */
  datatype Request = Request(verb: string, body: Thrown<Json>)

  /** Where a TypeError arises: destructuring or reading property `key` of
      `null` (`ofNull`) or of `undefined`. */
  datatype TypeErrorSite = TypeErrorSite(destructuring: bool, key: string, ofNull: bool)

  /** What the host supplies: the `OPENAI_API_KEY` variable and the message the
      runtime gives the TypeError raised at each site. */
  datatype Env = Env(apiKey: Option<string>, typeError: TypeErrorSite -> string)

  /** The completion service's reply: the `ok` flag, and the outcomes of reading
      the body as text (error branch) or as JSON (success branch). */
  datatype Upstream = Upstream(ok: bool, text: Thrown<string>, json: Thrown<Json>)

  /** The one outbound request the function may send (the prompt text is omitted). */
  datatype Outbound = Outbound(
    url: string, verb: string, authorization: string,
    model: string, image: Json, maxTokens: int, temperature: real)

  datatype Body = NoBody | JsonBody(value: Json)

  datatype Response = Response(status: int, headers: map<string, string>, body: Body)

  /** The response together with the outbound call made on the way, if any. */
  datatype Handled = Handled(response: Response, outbound: Option<Outbound>)

  function Preflight(): Response {
    Response(200, CorsHeaders, NoBody)
  }

  function ErrorResponse(status: int, message: string): Response {
    Response(status, JsonHeaders, JsonBody(JObj(map["error" := JStr(message)])))
  }

  function SuccessResponse(medication: Json): Response {
    Response(200, JsonHeaders, JsonBody(JObj(map["success" := JBool(true), "medication" := medication])))
  }

  /** `!openAIApiKey` is false: the variable is set and not empty. */
  predicate KeyConfigured(key: Option<string>) {
    key.Some? && key.value != ""
  }

  /** A property read that throws the runtime's TypeError for its site. */
  function Access(v: Option<Json>, key: string, destructuring: bool, typeError: TypeErrorSite -> string): (r: Thrown<Option<Json>>)
    ensures r.Threw? <==> Get(v, key).ReadFails?
    ensures r.Threw? ==> r.message == typeError(TypeErrorSite(destructuring, key, v == Some(JNull)))
    ensures r.Returned? ==> r.value == Get(v, key).value
  {
    match Get(v, key)
    case ReadFails(ofNull) => Threw(typeError(TypeErrorSite(destructuring, key, ofNull)))
    case Found(x) => Returned(x)
  }

  /** `const { image } = body`: destructuring null throws, anything else is read. */
  function ReadImage(body: Json, typeError: TypeErrorSite -> string): (r: Thrown<Option<Json>>)
    ensures r.Threw? <==> body == JNull
    ensures r.Threw? ==> r.message == typeError(TypeErrorSite(true, "image", true))
    ensures body.JObj? ==> r == Returned(if "image" in body.fields then Some(body.fields["image"]) else None)
  {
    Access(Some(body), "image", true, typeError)
  }

  /** A link of a property chain that cannot be read from. */
  predicate Broken(v: Option<Json>) {
    v == None || v == Some(JNull)
  }

  /** `data.choices[0].message.content`, each step throwing on null/undefined:
      the read throws exactly at the first link that is null or undefined, with
      that site's message, and otherwise yields `content`. */
  function Content(data: Json, typeError: TypeErrorSite -> string): (r: Thrown<Option<Json>>)
    ensures r.Threw? <==>
      || data == JNull
      || Broken(Get(Some(data), "choices").value)
      || Broken(Get(Get(Some(data), "choices").value, "0").value)
      || Broken(Get(Get(Get(Some(data), "choices").value, "0").value, "message").value)
    ensures data == JNull ==> r == Threw(typeError(TypeErrorSite(false, "choices", true)))
    ensures data.JObj? && "choices" !in data.fields ==> r == Threw(typeError(TypeErrorSite(false, "0", false)))
    ensures data != JNull ==>
      var choices := Get(Some(data), "choices").value;
      Broken(choices) ==> r == Threw(typeError(TypeErrorSite(false, "0", choices == Some(JNull))))
    ensures data != JNull ==>
      var choices := Get(Some(data), "choices").value;
      !Broken(choices) ==>
        var first := Get(choices, "0").value;
        Broken(first) ==> r == Threw(typeError(TypeErrorSite(false, "message", first == Some(JNull))))
    ensures data != JNull ==>
      var choices := Get(Some(data), "choices").value;
      !Broken(choices) ==>
        var first := Get(choices, "0").value;
        !Broken(first) ==>
          var message := Get(first, "message").value;
          && (Broken(message) ==> r == Threw(typeError(TypeErrorSite(false, "content", message == Some(JNull)))))
          && (!Broken(message) ==> r == Returned(Get(message, "content").value))
  {
    match Access(Some(data), "choices", false, typeError)
    case Threw(m) => Threw(m)
    case Returned(choices) =>
      match Access(choices, "0", false, typeError)
      case Threw(m) => Threw(m)
      case Returned(first) =>
        match Access(first, "message", false, typeError)
        case Threw(m) => Threw(m)
        case Returned(message) => Access(message, "content", false, typeError)
  }

  /** A well-formed completion reply yields its first choice's message content,
      whatever other members the reply, the choice and the message carry
      (`index`, `finish_reason`, `role`, further choices). */
  lemma ContentOfReply(content: Json, message: map<string, Json>, choice: map<string, Json>,
                       rest: seq<Json>, extra: map<string, Json>, typeError: TypeErrorSite -> string)
    ensures var reply := JObj(extra["choices" := JArr([JObj(choice["message" := JObj(message["content" := content])])] + rest)]);
      Content(reply, typeError) == Returned(Some(content))
  {
  }

  /** An empty `choices` array throws when `.message` is read off `undefined`. */
  lemma MissingFirstChoice(extra: map<string, Json>, typeError: TypeErrorSite -> string)
    ensures Content(JObj(extra["choices" := JArr([])]), typeError)
      == Threw(typeError(TypeErrorSite(false, "message", false)))
  {
  }

  function CompletionRequest(key: string, image: Json): Outbound {
    Outbound(CompletionsUrl, "POST", "Bearer " + key, CompletionModel, image, MaxTokens, Temperature)
  }

  /** The inner `try`: parse the completion text and require a truthy `name`. A
      parse failure and a `null` parse result (whose `.name` throws) share the
      catch; the parsed value is passed on unchanged. */
  function Validate(parsed: Option<Json>): (r: Response)
    ensures r.status == 200 <==> parsed.Some? && parsed.value != JNull && Truthy(Get(parsed, "name").value)
    ensures r.status == 200 ==> r == SuccessResponse(parsed.value)
    ensures r.status != 200 ==> r.body.JsonBody? && r.body.value.JObj? && "error" in r.body.value.fields
  {
    match parsed
    case None => ErrorResponse(500, ParseFailedMessage)
    case Some(medication) =>
      match Get(parsed, "name")
      case ReadFails(_) => ErrorResponse(500, ParseFailedMessage)
      case Found(name) =>
        if !Truthy(name) then ErrorResponse(400, NoNameMessage)
        else SuccessResponse(medication)
  }

  /** Everything after the outbound call, given its outcome. */
  function AfterFetch(upstream: Thrown<Upstream>, typeError: TypeErrorSite -> string, parse: Option<Json> -> Option<Json>): Response {
    match upstream
    case Threw(m) => ErrorResponse(500, m)
    case Returned(u) =>
      if !u.ok then
        match u.text
        case Threw(m) => ErrorResponse(500, m)
        case Returned(_) => ErrorResponse(500, UpstreamFailedMessage)
      else
        match u.json
        case Threw(m) => ErrorResponse(500, m)
        case Returned(data) =>
          match Content(data, typeError)
          case Threw(m) => ErrorResponse(500, m)
          case Returned(text) => Validate(parse(text))
  }

  /** The handler. The outer `catch` turns any exception into a 500 carrying the
      exception's message. */
  function Handle(req: Request, env: Env, upstream: Thrown<Upstream>, parse: Option<Json> -> Option<Json>): (r: Handled)
    ensures CorsHeaders.Items <= r.response.headers.Items
    ensures r.response.status in {200, 400, 500}
    ensures r.response.body.NoBody? <==> req.verb == "OPTIONS"
    ensures r.outbound.Some? ==> KeyConfigured(env.apiKey) && r.outbound.value.authorization == "Bearer " + env.apiKey.value
  {
    if req.verb == "OPTIONS" then Handled(Preflight(), None)
    else
      match req.body
      case Threw(m) => Handled(ErrorResponse(500, m), None)
      case Returned(body) =>
        match ReadImage(body, env.typeError)
        case Threw(m) => Handled(ErrorResponse(500, m), None)
        case Returned(image) =>
          if !Truthy(image) then Handled(ErrorResponse(400, NoImageMessage), None)
          else if !KeyConfigured(env.apiKey) then Handled(ErrorResponse(500, NoKeyMessage), None)
          else Handled(AfterFetch(upstream, env.typeError, parse), Some(CompletionRequest(env.apiKey.value, image.value)))
  }

  /** The request passes every guard that precedes the outbound call. */
  predicate PassesGuards(req: Request, env: Env) {
    && req.verb != "OPTIONS"
    && req.body.Returned?
    && req.body.value != JNull
    && Truthy(Get(Some(req.body.value), "image").value)
    && KeyConfigured(env.apiKey)
  }

  /** A preflight request is answered with the CORS headers and no body, whatever
      else the request, the environment or the service would say. */
  lemma PreflightShortCircuit(req: Request, env: Env, upstream: Thrown<Upstream>, parse: Option<Json> -> Option<Json>)
    requires req.verb == "OPTIONS"
    ensures Handle(req, env, upstream, parse) == Handled(Response(200, CorsHeaders, NoBody), None)
  {
  }

  /** A falsy `image` is rejected with 400 before the key is even looked at. */
  lemma NoImageBeforeKey(req: Request, env: Env, upstream: Thrown<Upstream>, parse: Option<Json> -> Option<Json>)
    requires req.verb != "OPTIONS" && req.body.Returned? && req.body.value != JNull
    requires !Truthy(Get(Some(req.body.value), "image").value)
    ensures Handle(req, env, upstream, parse) == Handled(ErrorResponse(400, NoImageMessage), None)
  {
  }

  /** With an image but no usable key the answer is 500 and nothing is sent. */
  lemma MissingKeyNoRequest(req: Request, env: Env, upstream: Thrown<Upstream>, parse: Option<Json> -> Option<Json>)
    requires req.verb != "OPTIONS" && req.body.Returned? && req.body.value != JNull
    requires Truthy(Get(Some(req.body.value), "image").value)
    requires !KeyConfigured(env.apiKey)
    ensures Handle(req, env, upstream, parse) == Handled(ErrorResponse(500, NoKeyMessage), None)
  {
  }

  /** The outbound call is made exactly when every guard passes, and it carries
      the configured key and the request's image. */
  lemma OutboundIffGuards(req: Request, env: Env, upstream: Thrown<Upstream>, parse: Option<Json> -> Option<Json>)
    ensures Handle(req, env, upstream, parse).outbound.Some? <==> PassesGuards(req, env)
    ensures PassesGuards(req, env) ==>
      Handle(req, env, upstream, parse).outbound
        == Some(CompletionRequest(env.apiKey.value, Get(Some(req.body.value), "image").value.value))
  {
  }

  /** When no call is made, the service's behaviour and the parser cannot affect
      the response: the guards decide alone. */
  lemma NoCallNoDependence(req: Request, env: Env,
                           u1: Thrown<Upstream>, p1: Option<Json> -> Option<Json>,
                           u2: Thrown<Upstream>, p2: Option<Json> -> Option<Json>)
    requires Handle(req, env, u1, p1).outbound.None?
    ensures Handle(req, env, u1, p1) == Handle(req, env, u2, p2)
  {
  }

  /** A reply whose `ok` flag is false gives 500 with the fixed message. */
  lemma UpstreamNotOk(req: Request, env: Env, u: Upstream, parse: Option<Json> -> Option<Json>)
    requires PassesGuards(req, env)
    requires !u.ok && u.text.Returned?
    ensures Handle(req, env, Returned(u), parse).response == ErrorResponse(500, UpstreamFailedMessage)
  {
  }

  /** Completion text that does not parse, or parses to `null`, gives 500. */
  lemma UnparsableContent(req: Request, env: Env, u: Upstream, parse: Option<Json> -> Option<Json>)
    requires PassesGuards(req, env)
    requires u.ok && u.json.Returned? && Content(u.json.value, env.typeError).Returned?
    requires parse(Content(u.json.value, env.typeError).value) in {None, Some(JNull)}
    ensures Handle(req, env, Returned(u), parse).response == ErrorResponse(500, ParseFailedMessage)
  {
  }

  /** A parsed value without a truthy `name` gives 400. */
  lemma NamelessContent(req: Request, env: Env, u: Upstream, parse: Option<Json> -> Option<Json>)
    requires PassesGuards(req, env)
    requires u.ok && u.json.Returned? && Content(u.json.value, env.typeError).Returned?
    requires var p := parse(Content(u.json.value, env.typeError).value);
      p.Some? && p.value != JNull && !Truthy(Get(p, "name").value)
    ensures Handle(req, env, Returned(u), parse).response == ErrorResponse(400, NoNameMessage)
  {
  }

  /** A 200 to anything but a preflight is exactly the success envelope around
      the parsed completion, unchanged, and it arises only once every guard and
      every step of the service call has succeeded. */
  lemma SuccessIsPassThrough(req: Request, env: Env, upstream: Thrown<Upstream>, parse: Option<Json> -> Option<Json>)
    requires req.verb != "OPTIONS"
    requires Handle(req, env, upstream, parse).response.status == 200
    ensures PassesGuards(req, env)
    ensures upstream.Returned? && upstream.value.ok && upstream.value.json.Returned?
    ensures var content := Content(upstream.value.json.value, env.typeError);
      && content.Returned?
      && var parsed := parse(content.value);
      && parsed.Some? && parsed.value != JNull
      && Truthy(Get(parsed, "name").value)
      && Handle(req, env, upstream, parse).response == SuccessResponse(parsed.value)
  {
  }

  /** The request passes the guards and the service answers with a completion
      that parses to a non-null value with a truthy name: the answer is 200 with
      that value unchanged. */
  lemma SuccessForward(req: Request, env: Env, u: Upstream, parse: Option<Json> -> Option<Json>)
    requires PassesGuards(req, env)
    requires u.ok && u.json.Returned? && Content(u.json.value, env.typeError).Returned?
    requires var p := parse(Content(u.json.value, env.typeError).value);
      p.Some? && p.value != JNull && Truthy(Get(p, "name").value)
    ensures Handle(req, env, Returned(u), parse).response
      == SuccessResponse(parse(Content(u.json.value, env.typeError).value).value)
  {
  }

  /** Any exception outside the inner `try` becomes a 500 carrying its message:
      an unreadable request body, a null body, a failed call, an unreadable
      reply, or a reply without `choices[0].message`. */
  lemma ExceptionsAre500(req: Request, env: Env, upstream: Thrown<Upstream>, parse: Option<Json> -> Option<Json>)
    requires req.verb != "OPTIONS"
    ensures req.body.Threw? ==>
      Handle(req, env, upstream, parse) == Handled(ErrorResponse(500, req.body.message), None)
    ensures req.body == Returned(JNull) ==>
      Handle(req, env, upstream, parse)
        == Handled(ErrorResponse(500, env.typeError(TypeErrorSite(true, "image", true))), None)
    ensures PassesGuards(req, env) && upstream.Threw? ==>
      Handle(req, env, upstream, parse).response == ErrorResponse(500, upstream.message)
    ensures PassesGuards(req, env) && upstream.Returned? && !upstream.value.ok && upstream.value.text.Threw? ==>
      Handle(req, env, upstream, parse).response == ErrorResponse(500, upstream.value.text.message)
    ensures PassesGuards(req, env) && upstream.Returned? && upstream.value.ok && upstream.value.json.Threw? ==>
      Handle(req, env, upstream, parse).response == ErrorResponse(500, upstream.value.json.message)
    ensures (&& PassesGuards(req, env) && upstream.Returned? && upstream.value.ok && upstream.value.json.Returned?
             && Content(upstream.value.json.value, env.typeError).Threw?) ==>
      Handle(req, env, upstream, parse).response
        == ErrorResponse(500, Content(upstream.value.json.value, env.typeError).message)
  {
  }
}
