/**
 * `OpenAIModel` (src/models.py:52-128): the request body it builds and the
 * `(is_successful, response, error_message)` triple `_request` returns. The
 * HTTP exchange itself (`requests` and `.json()`) is a parameter.
 */
module OpenAI {
  import opened Conversation
  import opened Wrappers

  /** A decoded JSON value. Python's `None`, and JSON `null`, are `JNull`. */
  datatype Json =
    | JNull
    | JBool(b: bool)
    | JNum(n: int)
    | JStr(s: string)
    | JArr(items: seq<Json>)
    | JObj(fields: map<string, Json>)

  /** Python truthiness of a decoded JSON value. */
  predicate Truthy(j: Json) {
    match j
    case JNull => false
    case JBool(b) => b
    case JNum(n) => n != 0
    case JStr(s) => s != ""
    case JArr(items) => items != []
    case JObj(fields) => fields != map[]
  }

  /** `d.get(key)`: `None` when the key is missing. */
  function Get(fields: map<string, Json>, key: string): Json {
    if key in fields then fields[key] else JNull
  }

  const BaseUrl := "https://api.openai.com/v1"
  const ChatEndpoint := "/chat/completions"
  const ModelsEndpoint := "/models"
  /** The error text `_request` returns for every exception it catches. */
  const UnstableMessage := "OpenAI API 系統不穩定，請稍後再試"

  /** An `OpenAIModel` client: bound to one API key. */
  datatype OpenAIModel = OpenAIModel(apiKey: string) {
    /** The `Authorization` header sent with every request. */
    function Authorization(): string {
      "Bearer " + apiKey
    }
  }

  /** What `requests` sends: verb, full URL, the authorization header and the JSON body (`JNull` for none). */
  datatype HttpRequest = HttpRequest(verb: string, url: string, authorization: string, body: Json)

  /** What the HTTP exchange produced: an exception (network, `.json()` decoding), or a decoded body. */
  datatype HttpOutcome = Raised | Decoded(json: Json)

  /** The triple `(is_successful, response, error_message)`. */
  datatype RequestResult = RequestResult(success: bool, response: Json, errorMessage: Json)

  /** The result of every exception `_request` catches. */
  function Unstable(): RequestResult {
    RequestResult(false, JNull, JStr(UnstableMessage))
  }

  /**
   * Lines 95-102 after the call: a dict whose `error` is falsy succeeds with
   * the dict itself; a truthy dict `error` fails with its `message` (possibly
   * `None`); `.get` on anything that is not a dict raises, and that is caught.
   */
  function Interpret(j: Json): (r: RequestResult)
    ensures r.success <==> j.JObj? && !Truthy(Get(j.fields, "error"))
    ensures r.success ==> r.response == j && r.errorMessage == JNull
    ensures !r.success ==> r.response == JNull
    ensures !r.success && j.JObj? && Get(j.fields, "error").JObj? ==>
      r.errorMessage == Get(Get(j.fields, "error").fields, "message")
    ensures !r.success && !(j.JObj? && Get(j.fields, "error").JObj?) ==> r == Unstable()
  {
    match j
    case JObj(fields) =>
      var error := Get(fields, "error");
      if !Truthy(error) then RequestResult(true, j, JNull)
      else if error.JObj? then RequestResult(false, JNull, Get(error.fields, "message"))
      else Unstable()
    case _ => Unstable()
  }

  /** The request `requests.get`/`requests.post` sends: a GET carries no body. */
  function Outgoing(client: OpenAIModel, verb: string, endpoint: string, body: Json): HttpRequest {
    HttpRequest(verb, BaseUrl + endpoint, client.Authorization(), if verb == "GET" then JNull else body)
  }

  /**
   * `_request`: any verb other than GET or POST leaves `response` unbound and
   * the `UnboundLocalError` is caught; an exception from the exchange gives
   * `Unstable()`; otherwise the decoded body is interpreted.
   */
  function Request(client: OpenAIModel, verb: string, endpoint: string, body: Json,
                   http: HttpRequest -> HttpOutcome): (r: RequestResult)
    ensures verb != "GET" && verb != "POST" ==> r == Unstable()
    ensures verb == "GET" || verb == "POST" ==>
      var outcome := http(Outgoing(client, verb, endpoint, body));
      r == if outcome.Raised? then Unstable() else Interpret(outcome.json)
    ensures r.success ==> r.errorMessage == JNull && r.response.JObj?
    ensures !r.success ==> r.response == JNull
  {
    if verb != "GET" && verb != "POST" then Unstable()
    else
      match http(Outgoing(client, verb, endpoint, body))
      case Raised => Unstable()
      case Decoded(j) => Interpret(j)
  }

  /** One message as the JSON object the API receives. */
  function MessageJson(m: Message): Json {
    JObj(map["role" := JStr(m.role), "content" := JStr(m.content)])
  }

  /** A history as the JSON array the API receives, one object per message, in order. */
  function MessagesJson(ms: seq<Message>): (items: seq<Json>)
    ensures |items| == |ms|
  {
    if ms == [] then [] else [MessageJson(ms[0])] + MessagesJson(ms[1..])
  }

  /** Reads a message back from its JSON object. */
  function MessageOf(j: Json): Option<Message> {
    if j.JObj? && "role" in j.fields && "content" in j.fields
       && j.fields["role"].JStr? && j.fields["content"].JStr?
    then Some(Message(j.fields["role"].s, j.fields["content"].s))
    else None
  }

  /** Reads a history back from its JSON array. */
  function MessagesOf(items: seq<Json>): Option<seq<Message>> {
    if items == [] then Some([])
    else
      match (MessageOf(items[0]), MessagesOf(items[1..]))
      case (Some(m), Some(ms)) => Some([m] + ms)
      case _ => None
  }

  /** The body of a chat completion: `{'model': engine, 'messages': history}` and no other key. */
  function ChatBody(engine: string, messages: seq<Message>): (b: Json)
    ensures b.JObj? && b.fields.Keys == {"model", "messages"}
    ensures b.fields["model"] == JStr(engine)
  {
    JObj(map["model" := JStr(engine), "messages" := JArr(MessagesJson(messages))])
  }

  /** The body's `messages` array carries exactly the history, in order. */
  lemma {:induction false} MessagesRoundTrip(ms: seq<Message>)
    ensures MessagesOf(MessagesJson(ms)) == Some(ms)
  {
    if ms != [] {
      MessagesRoundTrip(ms[1..]);
      assert MessagesJson(ms)[1..] == MessagesJson(ms[1..]);
      assert MessagesJson(ms)[0] == MessageJson(ms[0]);
      assert MessageOf(MessageJson(ms[0])) == Some(ms[0]);
      assert [ms[0]] + ms[1..] == ms;
    }
  }

  /** The history can be read back from the chat body unchanged. */
  lemma ChatBodyCarriesHistory(engine: string, ms: seq<Message>)
    ensures ChatBody(engine, ms).fields["messages"].JArr?
    ensures MessagesOf(ChatBody(engine, ms).fields["messages"].items) == Some(ms)
  {
    MessagesRoundTrip(ms);
  }

  /** The two full URLs the client requests. */
  lemma Urls()
    ensures BaseUrl + ChatEndpoint == "https://api.openai.com/v1/chat/completions"
    ensures BaseUrl + ModelsEndpoint == "https://api.openai.com/v1/models"
  {
  }

  /** `chat_completions`: POSTs `ChatBody(engine, messages)` to `/chat/completions`. */
  function ChatCompletions(client: OpenAIModel, messages: seq<Message>, engine: string,
                           http: HttpRequest -> HttpOutcome): (r: RequestResult)
    ensures var q := Outgoing(client, "POST", ChatEndpoint, ChatBody(engine, messages));
      && q.verb == "POST"
      && q.url == "https://api.openai.com/v1/chat/completions"
      && q.authorization == "Bearer " + client.apiKey
      && q.body == ChatBody(engine, messages)
      && r == if http(q).Raised? then Unstable() else Interpret(http(q).json)
  {
    Urls();
    Request(client, "POST", ChatEndpoint, ChatBody(engine, messages), http)
  }

  /** `check_token_valid`: a bodiless GET of `/models`. */
  function CheckTokenValid(client: OpenAIModel, http: HttpRequest -> HttpOutcome): (r: RequestResult)
    ensures var q := Outgoing(client, "GET", ModelsEndpoint, JNull);
      && q.verb == "GET"
      && q.url == "https://api.openai.com/v1/models"
      && q.authorization == "Bearer " + client.apiKey
      && q.body == JNull
      && r == if http(q).Raised? then Unstable() else Interpret(http(q).json)
  {
    Urls();
    Request(client, "GET", ModelsEndpoint, JNull, http)
  }
}
