/**
 * The request/response core of `query_agent`: the configuration guard, the
 * completions URL, the ordered message array sent to the stateless remote
 * agent, and the classification of what comes back. The HTTP exchange itself
 * is a parameter, `post`, from the request that is sent to its outcome.
 */
module AgentClient {
  import opened Wrappers
  import opened PyJson
  import Numerals

  datatype Role = User | Assistant

  /** One transcript entry, the dict `{"role": ..., "content": ...}` kept in the session. */
  datatype Message = Message(role: Role, content: Json)

  /** Slider values, carried unexamined into every request. */
  datatype Params = Params(temperature: real, maxTokens: int)

  /** A POST as `requests.post` is asked to send it. */
  datatype Request = Request(url: string, authorization: string, contentType: string, payload: Json, timeout: nat)

  /** The parsed body of an HTTP reply: `response.json()` succeeded, or it raised and only `response.text` is left. */
  datatype Body = Structured(data: Json) | Raw(text: string)

  /**
   * What `requests.post` produced: it raised a `RequestException`, it raised some
   * other exception (a header value outside Latin-1 raises `UnicodeEncodeError`,
   * which requests does not wrap), or a reply arrived.
   */
  datatype HttpOutcome = TransportFailure(cause: string) | PostRaised(text: string) | Http(status: int, body: Body)

  datatype Details = ParsedBody(data: Json) | RawBody(text: string)

  /** The dict `query_agent` returns: `{"response": ...}` or `{"error": ..., "details": ...}`. */
  datatype AgentReply = Response(content: Json) | Error(message: string, details: Option<Details>)

  const CompletionsPath := "api/v1/chat/completions"
  const RequestTimeout := 60
  const ConfigErrorText := "Las credenciales de API no están configuradas correctamente."
  const UnexpectedFormatText := "Formato de respuesta inesperado"
  const StatusErrorPrefix := "Error en la solicitud. Código: "
  const TransportErrorPrefix := "Error en la solicitud HTTP: "
  const InternalErrorPrefix := "Error al comunicarse con el asistente: "

  function RoleName(role: Role): string {
    match role
    case User => "user"
    case Assistant => "assistant"
  }

  predicate EndsWithSlash(s: string) {
    |s| > 0 && s[|s| - 1] == '/'
  }

  // ---------------------------------------------------------------------------
  // Endpoint normalisation

  /** The endpoint with a '/' appended only when it does not already end in one. */
  function NormalizeEndpoint(endpoint: string): (r: string)
    ensures EndsWithSlash(r)
    ensures endpoint <= r && |r| <= |endpoint| + 1
    ensures EndsWithSlash(endpoint) ==> r == endpoint
  {
    if EndsWithSlash(endpoint) then endpoint else endpoint + "/"
  }

  lemma NormalizeIdempotent(endpoint: string)
    ensures NormalizeEndpoint(NormalizeEndpoint(endpoint)) == NormalizeEndpoint(endpoint)
  {
  }

  /** The URL the completion request is posted to. */
  function CompletionsUrl(endpoint: string): (url: string)
    ensures EndsWithSlash(endpoint) ==> url == endpoint + CompletionsPath
    ensures !EndsWithSlash(endpoint) ==> url == endpoint + "/" + CompletionsPath
    ensures endpoint <= url
    ensures |url| > |CompletionsPath| && url[|url| - |CompletionsPath| - 1..] == "/" + CompletionsPath
  {
    var base := NormalizeEndpoint(endpoint);
    assert (base + CompletionsPath)[|base| - 1..] == [base[|base| - 1]] + CompletionsPath;
    base + CompletionsPath
  }

  /** An endpoint written with or without its trailing '/' leads to the same URL. */
  lemma TrailingSlashIrrelevant(endpoint: string)
    requires !EndsWithSlash(endpoint)
    ensures CompletionsUrl(endpoint + "/") == CompletionsUrl(endpoint)
    ensures CompletionsUrl(endpoint) == endpoint + "/" + CompletionsPath
  {
  }

  // ---------------------------------------------------------------------------
  // The outbound message array

  /** `{"role": msg["role"], "content": msg["content"]}` */
  function EncodeMessage(m: Message): (j: Json)
    ensures j.JObj? && j.fields.Keys == {"role", "content"}
    ensures DecodeMessage(j) == Some(m)
  {
    JObj(map["role" := JStr(RoleName(m.role)), "content" := m.content])
  }

  /** Reads a `{"role", "content"}` object back; the partner of EncodeMessage. */
  function DecodeMessage(j: Json): Option<Message> {
    if j.JObj? && "role" in j.fields && "content" in j.fields then
      match j.fields["role"]
      case JStr(name) =>
        if name == "user" then Some(Message(User, j.fields["content"]))
        else if name == "assistant" then Some(Message(Assistant, j.fields["content"]))
        else None
      case _ => None
    else
      None
  }

  /** The history mapped entry by entry to its wire form, order kept. */
  function EncodeHistory(history: seq<Message>): (r: seq<Json>)
    ensures |r| == |history|
    ensures forall i :: 0 <= i < |history| ==> r[i] == EncodeMessage(history[i])
  {
    if history == [] then [] else [EncodeMessage(history[0])] + EncodeHistory(history[1..])
  }

  /** Reads a whole message array back; None as soon as one entry is not a message. */
  function DecodeMessages(js: seq<Json>): Option<seq<Message>> {
    if js == [] then Some([])
    else
      match (DecodeMessage(js[0]), DecodeMessages(js[1..]))
      case (Some(m), Some(ms)) => Some([m] + ms)
      case _ => None
  }

  lemma {:induction false} DecodeEncodeHistory(history: seq<Message>)
    ensures DecodeMessages(EncodeHistory(history)) == Some(history)
  {
    if history != [] {
      var js := EncodeHistory(history);
      assert js[1..] == EncodeHistory(history[1..]);
      DecodeEncodeHistory(history[1..]);
      assert [history[0]] + history[1..] == history;
    }
  }

  /**
   * The `messages` list of the payload: the history in its own order, then the
   * new prompt as the one final `user` entry.
   */
  function OutboundMessages(history: seq<Message>, prompt: string): (r: seq<Json>)
    ensures |r| == |history| + 1
    ensures forall i :: 0 <= i < |r| ==> r[i].JObj? && r[i].fields.Keys == {"role", "content"}
    ensures DecodeMessages(r) == Some(history + [Message(User, JStr(prompt))])
  {
    var all := history + [Message(User, JStr(prompt))];
    var r := EncodeHistory(history) + [EncodeMessage(Message(User, JStr(prompt)))];
    assert r == EncodeHistory(all);
    DecodeEncodeHistory(all);
    r
  }

  function Payload(messages: seq<Json>, params: Params): Json {
    JObj(map[
      "model" := JStr("n/a"),
      "messages" := JArr(messages),
      "temperature" := JFloat(params.temperature),
      "max_tokens" := JInt(params.maxTokens),
      "stream" := JBool(false)])
  }

  /** The request `query_agent` posts once its configuration guard has passed. */
  function BuildRequest(endpoint: string, accessKey: string, prompt: string, history: seq<Message>, params: Params): (req: Request)
    ensures req.url == CompletionsUrl(endpoint) && req.timeout == RequestTimeout
    ensures req.authorization == "Bearer " + accessKey && req.contentType == "application/json"
    ensures req.payload.JObj? && req.payload.fields.Keys == {"model", "messages", "temperature", "max_tokens", "stream"}
    ensures req.payload.fields["stream"] == JBool(false) && req.payload.fields["model"] == JStr("n/a")
    ensures req.payload.fields["temperature"] == JFloat(params.temperature)
    ensures req.payload.fields["max_tokens"] == JInt(params.maxTokens)
    ensures req.payload.fields["messages"].JArr?
    ensures forall i :: 0 <= i < |req.payload.fields["messages"].items| ==>
              var entry := req.payload.fields["messages"].items[i];
              entry.JObj? && entry.fields.Keys == {"role", "content"}
    ensures DecodeMessages(req.payload.fields["messages"].items) == Some(history + [Message(User, JStr(prompt))])
  {
    Request(CompletionsUrl(endpoint), "Bearer " + accessKey, "application/json",
            Payload(OutboundMessages(history, prompt), params), RequestTimeout)
  }

  // ---------------------------------------------------------------------------
  // Response classification

  /** The shape of a chat completion: a dict whose `choices` is a non-empty list whose first entry has `message.content`. */
  predicate IsChatCompletion(data: Json) {
    && data.JObj? && "choices" in data.fields
    && data.fields["choices"].JArr? && |data.fields["choices"].items| > 0
    && data.fields["choices"].items[0].JObj? && "message" in data.fields["choices"].items[0].fields
    && data.fields["choices"].items[0].fields["message"].JObj?
    && "content" in data.fields["choices"].items[0].fields["message"].fields
  }

  /**
   * A dict body on which none of the probe's steps can raise: `choices` is absent,
   * or a list that is empty or whose first entry is a dict whose `message` is
   * absent or a dict.
   */
  predicate WellTypedProbe(data: Json) {
    && data.JObj?
    && ("choices" in data.fields ==>
          && data.fields["choices"].JArr?
          && (|data.fields["choices"].items| > 0 ==>
                && data.fields["choices"].items[0].JObj?
                && ("message" in data.fields["choices"].items[0].fields ==>
                      data.fields["choices"].items[0].fields["message"].JObj?)))
  }

  function CompletionContent(data: Json): Json
    requires IsChatCompletion(data)
  {
    data.fields["choices"].items[0].fields["message"].fields["content"]
  }

  /**
   * The probing of a parsed 200 body, step by step as Python evaluates it: Some
   * content, None when the expected keys are not there, or the exception one of
   * the steps raises on a value of the wrong type.
   */
  function ExtractContent(data: Json): (r: Py<Option<Json>>)
    ensures (r.Ok? && r.value.Some?) <==> IsChatCompletion(data)
    ensures IsChatCompletion(data) ==> r == Ok(Some(CompletionContent(data)))
    ensures WellTypedProbe(data) ==> r.Ok?
    // the two cases below are instances of the ones above, kept for readability
    ensures data.JObj? && "choices" !in data.fields ==> r == Ok(None)
    ensures data.JObj? && "choices" in data.fields && data.fields["choices"] == JArr([]) ==> r == Ok(None)
  {
    var hasChoices :- Contains(data, "choices");
    if !hasChoices then Ok(None) else
    var choices :- Index(data, "choices");
    var count :- Len(choices);
    if count == 0 then Ok(None) else
    var choice :- First(choices);
    var hasMessage :- Contains(choice, "message");
    if !hasMessage then Ok(None) else
    var message :- Index(choice, "message");
    var hasContent :- Contains(message, "content");
    if !hasContent then Ok(None) else
    var content :- Index(message, "content");
    Ok(Some(content))
  }

  function BodyDetails(body: Body): Details {
    match body
    case Structured(data) => ParsedBody(data)
    case Raw(text) => RawBody(text)
  }

  /** Turns the outcome of the POST into the reply `query_agent` returns. */
  function Classify(outcome: HttpOutcome): (reply: AgentReply)
    ensures reply.Response? <==>
              outcome.Http? && outcome.status == 200 && (outcome.body.Raw? || IsChatCompletion(outcome.body.data))
    ensures outcome.Http? && outcome.status == 200 && outcome.body.Raw? ==> reply == Response(JStr(outcome.body.text))
    ensures outcome.Http? && outcome.status == 200 && outcome.body.Structured? && IsChatCompletion(outcome.body.data) ==>
              reply == Response(CompletionContent(outcome.body.data))
    ensures outcome.Http? && outcome.status == 200 && outcome.body.Structured? && !IsChatCompletion(outcome.body.data) ==>
              reply == Error(UnexpectedFormatText, Some(ParsedBody(outcome.body.data)))
              || (reply.Error? && reply.details == None && InternalErrorPrefix <= reply.message)
    ensures outcome.Http? && outcome.status == 200 && outcome.body.Structured?
            && WellTypedProbe(outcome.body.data) && !IsChatCompletion(outcome.body.data) ==>
              reply == Error(UnexpectedFormatText, Some(ParsedBody(outcome.body.data)))
    ensures outcome.Http? && outcome.status != 200 ==>
              reply.Error? && StatusErrorPrefix <= reply.message && reply.details == Some(BodyDetails(outcome.body))
    ensures outcome.TransportFailure? ==> reply == Error(TransportErrorPrefix + outcome.cause, None)
    ensures outcome.PostRaised? ==> reply == Error(InternalErrorPrefix + outcome.text, None)
  {
    match outcome
    case TransportFailure(cause) => Error(TransportErrorPrefix + cause, None)
    case PostRaised(text) => Error(InternalErrorPrefix + text, None)
    case Http(status, body) =>
      if status == 200 then
        match body
        case Raw(text) => Response(JStr(text))
        case Structured(data) =>
          match ExtractContent(data)
          case Raise(text) => Error(InternalErrorPrefix + text, None)
          case Ok(None) => Error(UnexpectedFormatText, Some(ParsedBody(data)))
          case Ok(Some(content)) => Response(content)
      else
        Error(StatusErrorPrefix + Numerals.IntToString(status), Some(BodyDetails(body)))
  }

  /** A reply with any status other than 200 names that status, and it can be read back out of the text. */
  lemma StatusCodeRecoverable(status: int, body: Body)
    requires status != 200
    ensures var reply := Classify(Http(status, body));
            var code := reply.message[|StatusErrorPrefix|..];
            && reply.Error?
            && |code| > 0 && (Numerals.AllDigits(code) || (code[0] == '-' && Numerals.AllDigits(code[1..])))
            && Numerals.ParseInt(code) == status
  {
    var reply := Classify(Http(status, body));
    assert reply.message[|StatusErrorPrefix|..] == Numerals.IntToString(status);
    Numerals.ParseIntToString(status);
  }

  /**
   * A 200 dict body without `choices`, or with an empty `choices` list, is an
   * unexpected format, not a crash: an instance of Classify's well-typed case,
   * kept for readability.
   */
  lemma MissingChoicesIsUnexpectedFormat(fields: map<string, Json>)
    requires "choices" !in fields || fields["choices"] == JArr([])
    ensures Classify(Http(200, Structured(JObj(fields)))) == Error(UnexpectedFormatText, Some(ParsedBody(JObj(fields))))
  {
  }

  // ---------------------------------------------------------------------------
  // query_agent

  /**
   * `query_agent(prompt, history)`: refuse without an endpoint and a key,
   * otherwise post the request built from them and classify what comes back.
   */
  function QueryAgent(endpoint: string, accessKey: string, prompt: string, history: seq<Message>,
                      params: Params, post: Request -> HttpOutcome): (reply: AgentReply)
    ensures endpoint == "" || accessKey == "" ==> reply == Error(ConfigErrorText, None)
    ensures endpoint != "" && accessKey != "" ==>
              reply == Classify(post(BuildRequest(endpoint, accessKey, prompt, history, params)))
  {
    if endpoint == "" || accessKey == "" then
      Error(ConfigErrorText, None)
    else
      Classify(post(BuildRequest(endpoint, accessKey, prompt, history, params)))
  }

  /** Without configuration the reply is the same whatever the network would do: nothing is sent. */
  lemma NoRequestWithoutConfiguration(endpoint: string, accessKey: string, prompt: string, history: seq<Message>,
                                      params: Params, post1: Request -> HttpOutcome, post2: Request -> HttpOutcome)
    requires endpoint == "" || accessKey == ""
    ensures QueryAgent(endpoint, accessKey, prompt, history, params, post1)
         == QueryAgent(endpoint, accessKey, prompt, history, params, post2)
  {
  }
}
