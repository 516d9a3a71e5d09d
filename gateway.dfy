/** The request gateway of the nodes that talk to the Posty5 REST API
    directly: building the request record handed to the runtime's HTTP helper,
    unwrapping the `{ result }` envelope of a response, turning failures into
    prefixed error messages, and the pre-signed upload `PUT`. */
module Gateway {
  import opened Json

  /** The production API base URL. */
  const DefaultBaseUrl: string := "https://api.posty5.com"

  datatype HttpMethod = GET | POST | PUT | PATCH | DELETE

  /** The options of one API request; `body` and `qs` are `Undefined` when not given. */
  datatype ApiOptions = ApiOptions(verb: HttpMethod, endpoint: string, body: Value, qs: Value)

  /** The request record handed to the runtime's HTTP helper; `body` and `qs`
      are `Undefined` when absent, `json` and `returnFullResponse` false when absent. */
  datatype HttpRequest = HttpRequest(
    verb: HttpMethod,
    url: string,
    headers: map<string, string>,
    body: Value,
    qs: Value,
    json: bool,
    returnFullResponse: bool)

  /** What the runtime's HTTP helper does with a request: it resolves to a
      response, or throws an error carrying the server's `body.message` and the
      error's own `message` (each `""` when missing or empty). */
  datatype HttpReply = Answered(response: Value) | Threw(bodyMessage: string, message: string)

  /** `process.env.POSTY5_BASE_URL || POSTY5_API_BASE_URL`. */
  function BaseUrl(environment: string): (url: string)
    ensures environment != "" ==> url == environment
    ensures environment == "" ==> url == DefaultBaseUrl
  {
    if environment != "" then environment else DefaultBaseUrl
  }

  /** The runtime's HTTP helper, with the remote side as an oracle: the reply to
      a request depends on the request and on how many requests came before.
      Every request is recorded, in order, in `sent`. */
  class HttpHelper {
    var sent: seq<HttpRequest>
    const server: (nat, HttpRequest) -> HttpReply
    /** The `POSTY5_BASE_URL` environment variable, `""` when unset. */
    const environment: string

    constructor (server: (nat, HttpRequest) -> HttpReply, environment: string)
      ensures sent == [] && this.server == server && this.environment == environment
    {
      sent := [];
      this.server := server;
      this.environment := environment;
    }

    /** `helpers.httpRequest(request)`. */
    method Send(request: HttpRequest) returns (reply: HttpReply)
      modifies this
      ensures sent == old(sent) + [request]
      ensures reply == server(|old(sent)|, request)
    {
      reply := server(|sent|, request);
      sent := sent + [request];
    }
  }

  /** The request `makeApiRequest` sends for `options`. */
  function RequestFor(baseUrl: string, apiKey: string, options: ApiOptions): HttpRequest
  {
    HttpRequest(
      options.verb,
      baseUrl + options.endpoint,
      map["X-API-Key" := apiKey, "Content-Type" := "application/json"],
      if options.verb == POST then Obj(Spread(options.body)["createdFrom" := Str("n8n")])
      else if Truthy(options.body) then options.body
      else Undefined,
      if Truthy(options.qs) then options.qs else Undefined,
      true,
      false)
  }

  /** Every POST body carries `createdFrom: "n8n"`, also when the caller passed
      no body and also over a `createdFrom` of the caller's; the caller's other
      fields are kept. */
  lemma PostCarriesCreatedFrom(baseUrl: string, apiKey: string, options: ApiOptions)
    requires options.verb == POST
    ensures var body := RequestFor(baseUrl, apiKey, options).body;
      && body.Obj?
      && "createdFrom" in body.fields && body.fields["createdFrom"] == Str("n8n")
      && (forall k :: k in Spread(options.body) && k != "createdFrom" ==>
            k in body.fields && body.fields[k] == Spread(options.body)[k])
      && (forall k :: k in body.fields && k != "createdFrom" ==> k in Spread(options.body))
  {
  }

  /** Any other request carries a body exactly when the caller passed a truthy
      one, and then that body, untouched. */
  lemma OtherBodiesUnchanged(baseUrl: string, apiKey: string, options: ApiOptions)
    requires options.verb != POST
    ensures var body := RequestFor(baseUrl, apiKey, options).body;
      && (body != Undefined <==> Truthy(options.body))
      && (Truthy(options.body) ==> body == options.body)
  {
  }

  /** The URL is the base URL followed by the endpoint; the API key and the
      JSON content type are always sent; a query string is attached exactly
      when the caller passed a truthy one. */
  lemma RequestShape(baseUrl: string, apiKey: string, options: ApiOptions)
    ensures var request := RequestFor(baseUrl, apiKey, options);
      && request.verb == options.verb
      && request.url[..|baseUrl|] == baseUrl && request.url[|baseUrl|..] == options.endpoint
      && "X-API-Key" in request.headers && request.headers["X-API-Key"] == apiKey
      && "Content-Type" in request.headers && request.headers["Content-Type"] == "application/json"
      && request.json && !request.returnFullResponse
      && (request.qs != Undefined <==> Truthy(options.qs))
      && (Truthy(options.qs) ==> request.qs == options.qs)
  {
    var url := baseUrl + options.endpoint;
    assert url[..|baseUrl|] == baseUrl;
    assert url[|baseUrl|..] == options.endpoint;
  }

  /** The `{ success, result, message }` envelope: an object with a `result`
      key stands for that result; every other response stands for itself. */
  function Unwrap(response: Value): (r: Value)
    ensures response.Obj? && "result" in response.fields ==> r == response.fields["result"]
    ensures !(response.Obj? && "result" in response.fields) ==> r == response
  {
    if response.Obj? && "result" in response.fields then response.fields["result"] else response
  }

  /** `error.response?.body?.message || error.message || 'Unknown error'`. */
  function ErrorDetail(bodyMessage: string, message: string): (detail: string)
    ensures bodyMessage != "" ==> detail == bodyMessage
    ensures bodyMessage == "" && message != "" ==> detail == message
    ensures bodyMessage == "" && message == "" ==> detail == "Unknown error"
  {
    if bodyMessage != "" then bodyMessage else if message != "" then message else "Unknown error"
  }

  const ApiErrorPrefix: string := "Posty5 API Error: "
  const UploadErrorPrefix: string := "File Upload Error: "

  /** What `makeApiRequest` resolves or throws for one reply. */
  function ApiOutcome(reply: HttpReply): Reply
  {
    match reply
    case Answered(response) => Ok(Unwrap(response))
    case Threw(bodyMessage, message) => Fail(ApiErrorPrefix + ErrorDetail(bodyMessage, message))
  }

  /** A failure is rethrown with the API prefix, the server's message taking
      precedence over the error's own; a response is unwrapped. */
  lemma ApiOutcomes(reply: HttpReply)
    ensures reply.Answered? ==> ApiOutcome(reply) == Ok(Unwrap(reply.response))
    ensures reply.Threw? ==>
      && ApiOutcome(reply).Fail?
      && ApiOutcome(reply).message[..|ApiErrorPrefix|] == ApiErrorPrefix
      && ApiOutcome(reply).message[|ApiErrorPrefix|..] == ErrorDetail(reply.bodyMessage, reply.message)
  {
    if reply.Threw? {
      var m := ApiErrorPrefix + ErrorDetail(reply.bodyMessage, reply.message);
      assert m[..|ApiErrorPrefix|] == ApiErrorPrefix;
      assert m[|ApiErrorPrefix|..] == ErrorDetail(reply.bodyMessage, reply.message);
    }
  }

  /** `makeApiRequest`: builds the request step by step, sends it once, and
      unwraps the response or rethrows the failure. */
  method MakeApiRequest(http: HttpHelper, apiKey: string, options: ApiOptions) returns (r: Reply)
    modifies http
    ensures http.sent == old(http.sent) + [RequestFor(BaseUrl(http.environment), apiKey, options)]
    ensures r == ApiOutcome(http.server(|old(http.sent)|, RequestFor(BaseUrl(http.environment), apiKey, options)))
  {
    var baseUrl := BaseUrl(http.environment);
    var request := HttpRequest(
      options.verb,
      baseUrl + options.endpoint,
      map["X-API-Key" := apiKey, "Content-Type" := "application/json"],
      Undefined, Undefined, true, false);
    if Truthy(options.body) {
      request := request.(body := options.body);
    }
    if options.verb == POST {
      request := request.(body := Obj(Spread(request.body)["createdFrom" := Str("n8n")]));
    }
    if Truthy(options.qs) {
      request := request.(qs := options.qs);
    }
    var reply := http.Send(request);
    match reply {
      case Answered(response) =>
        if response.Obj? && "result" in response.fields {
          r := Ok(response.fields["result"]);
        } else {
          r := Ok(response);
        }
      case Threw(bodyMessage, message) =>
        r := Fail(ApiErrorPrefix + ErrorDetail(bodyMessage, message));
    }
  }

  /** The options `makePaginatedRequest` passes on: a GET whose query string
      is the filters followed by the pagination. */
  function PaginatedOptions(endpoint: string, filters: Value, pagination: map<string, Value>): ApiOptions
  {
    ApiOptions(GET, endpoint, Undefined, Obj(Spread(filters) + pagination))
  }

  /** The paginated request is a GET without a body; its query string holds
      every filter and every pagination key, the pagination winning when both
      name the same key. */
  lemma PaginatedQuery(baseUrl: string, apiKey: string, endpoint: string, filters: Value, pagination: map<string, Value>)
    ensures var request := RequestFor(baseUrl, apiKey, PaginatedOptions(endpoint, filters, pagination));
      && request.verb == GET && request.body == Undefined
      && request.qs.Obj?
      && (forall k :: k in pagination ==> k in request.qs.fields && request.qs.fields[k] == pagination[k])
      && (forall k :: k in Spread(filters) && k !in pagination ==>
            k in request.qs.fields && request.qs.fields[k] == Spread(filters)[k])
      && (forall k :: k in request.qs.fields ==> k in pagination || k in Spread(filters))
  {
  }

  /** `makePaginatedRequest`: exactly one request, never a loop over pages. */
  method MakePaginatedRequest(http: HttpHelper, apiKey: string, endpoint: string, filters: Value, pagination: map<string, Value>)
    returns (r: Reply)
    modifies http
    ensures var request := RequestFor(BaseUrl(http.environment), apiKey, PaginatedOptions(endpoint, filters, pagination));
      && http.sent == old(http.sent) + [request]
      && r == ApiOutcome(http.server(|old(http.sent)|, request))
  {
    var qs := Spread(filters) + pagination;
    r := MakeApiRequest(http, apiKey, ApiOptions(GET, endpoint, Undefined, Obj(qs)));
  }

  /** The request `uploadFile` sends. */
  function UploadRequest(url: string, buffer: Value): HttpRequest
  {
    HttpRequest(PUT, url, map["Content-Type" := "application/octet-stream"], buffer, Undefined, false, true)
  }

  /** The upload goes straight to the pre-signed URL: a PUT of the raw buffer
      as an octet stream, without the API key, asking for the full response. */
  lemma UploadShape(url: string, buffer: Value)
    ensures var request := UploadRequest(url, buffer);
      && request.verb == PUT && request.url == url && request.body == buffer
      && "X-API-Key" !in request.headers
      && request.headers == map["Content-Type" := "application/octet-stream"]
      && request.returnFullResponse && !request.json && request.qs == Undefined
  {
  }

  /** What `uploadFile` resolves or throws for one reply: the full response,
      untouched, or the failure with the upload prefix. */
  function UploadOutcome(reply: HttpReply): (r: Reply)
    ensures reply.Answered? ==> r == Ok(reply.response)
    ensures reply.Threw? ==> r.Fail? && r.message == UploadErrorPrefix + ErrorDetail(reply.bodyMessage, reply.message)
  {
    match reply
    case Answered(response) => Ok(response)
    case Threw(bodyMessage, message) => Fail(UploadErrorPrefix + ErrorDetail(bodyMessage, message))
  }

  /** `uploadFile`: one PUT to the pre-signed URL. */
  method UploadFile(http: HttpHelper, url: string, buffer: Value) returns (r: Reply)
    modifies http
    ensures http.sent == old(http.sent) + [UploadRequest(url, buffer)]
    ensures r == UploadOutcome(http.server(|old(http.sent)|, UploadRequest(url, buffer)))
  {
    var request := HttpRequest(PUT, url, map["Content-Type" := "application/octet-stream"], buffer, Undefined, false, true);
    var reply := http.Send(request);
    match reply {
      case Answered(response) => r := Ok(response);
      case Threw(bodyMessage, message) => r := Fail(UploadErrorPrefix + ErrorDetail(bodyMessage, message));
    }
  }

  /** The requests sent so far and what the last exchange resolved or threw. */
  datatype Traffic = Traffic(sent: seq<HttpRequest>, reply: Reply)

  /** `makeApiRequest` on the values of a helper: the request joins the log and
      the server's answer to it, by its position in the log, is unwrapped. */
  function ApiCall(server: (nat, HttpRequest) -> HttpReply, environment: string, sent: seq<HttpRequest>,
                   apiKey: string, options: ApiOptions): Traffic
  {
    var request := RequestFor(BaseUrl(environment), apiKey, options);
    Traffic(sent + [request], ApiOutcome(server(|sent|, request)))
  }

  /** `uploadFile` on the values of a helper. */
  function UploadCall(server: (nat, HttpRequest) -> HttpReply, sent: seq<HttpRequest>, url: string, buffer: Value): Traffic
  {
    var request := UploadRequest(url, buffer);
    Traffic(sent + [request], UploadOutcome(server(|sent|, request)))
  }
}
