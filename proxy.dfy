/**
 * What the three proxy route handlers share: the server configuration, the
 * outcome of the one upstream call a handler makes, the request it sends,
 * the response it returns, and the common "parse as JSON, else wrap the
 * text" decoding with status propagation.
 */
module Proxy {
  import opened Wrappers
  import opened Js

  /** Process-wide configuration: the upstream base URL and the secret key, either possibly unset. */
  datatype Config = Config(baseUrl: Option<string>, apiKey: Option<string>)

  /** `!API_KEY` is false: the key is set and not empty. */
  predicate KeyConfigured(cfg: Config) {
    TruthyText(cfg.apiKey)
  }

  /**
   * A status code a resolved `fetch` can report: a final response's
   * three-digit code, which may lie beyond 599.
   */
  type HttpStatus = s: int | 200 <= s <= 999 witness 200

  /** `response.ok`. */
  predicate IsOk(status: int) {
    200 <= status <= 299
  }

  /**
   * A status whose response may not carry a body: building a JSON response
   * with one throws (WHATWG Fetch Standard, "initialize a response").
   */
  predicate NullBodyStatus(status: int) {
    status == 101 || status == 204 || status == 205 || status == 304
  }

  /**
   * A status `NextResponse.json` refuses: a null-body status (a TypeError)
   * or one outside 200 to 599 (a RangeError).
   */
  predicate RefusedStatus(status: int) {
    NullBodyStatus(status) || status < 200 || status > 599
  }

  /**
   * The upstream call: `fetch` (or reading its body) threw, or it answered
   * with a status and a body text, together with what `JSON.parse` makes
   * of that text (`None` when it throws).
   */
  datatype UpstreamOutcome =
    | Threw
    | Responded(status: HttpStatus, text: string, parsed: Option<JsonValue>)

  /** The upstream body after decoding. */
  datatype Parsed = Json(value: JsonValue) | PlainText(text: string)

  /** The shared decoding: the parsed JSON when the text parses, else the raw text. */
  function Decode(text: string, parsed: Option<JsonValue>): (r: Parsed)
    ensures r.Json? <==> parsed.Some?
    ensures r.Json? ==> r.value == parsed.value
    ensures r.PlainText? ==> r.text == text
  {
    if parsed.Some? then Json(parsed.value) else PlainText(text)
  }

  /** A JSON response as the browser receives it. */
  datatype Reply = Reply(status: int, body: JsonValue)

  /** The body `{ error: <message> }`. */
  function ErrorBody(message: string): JsonValue {
    TextObject("error", message)
  }

  datatype Verb = GET | POST

  /** One field of a multipart form: text, or a file. */
  datatype FormField = TextField(text: string) | FileField(file: Blob)

  datatype OutboundBody =
    | NoBody
    | JsonBody(json: JsonValue)
    | Multipart(fields: seq<(string, FormField)>)

  /** The request a handler sends upstream. */
  datatype Outbound = Outbound(verb: Verb, url: string, body: OutboundBody)

  /** What a handler does: the upstream request it sends, if any, and its response. */
  datatype Handled = Handled(sent: Option<Outbound>, response: Reply)

  const KeyMissingMessage := "API key not configured"

  /** The answer of every handler when the key is not configured: no upstream call. */
  function NotConfigured(): Handled {
    Handled(None, Reply(500, ErrorBody(KeyMissingMessage)))
  }

  /** The configured key. */
  function Key(cfg: Config): string
    requires KeyConfigured(cfg)
  {
    cfg.apiKey.value
  }

  /** The upstream base URL is set. */
  predicate BaseUrlSet(cfg: Config) {
    cfg.baseUrl.Some?
  }

  /** `${API_BASE_URL}<path>`: an unset base URL prints as "undefined". */
  function Url(cfg: Config, path: string): string {
    TemplateString(cfg.baseUrl) + path
  }

  /**
   * `NextResponse.json(body, { status })` inside the handler's `try`: for a
   * null-body status or one outside 200 to 599 the construction throws and
   * the `catch` answers 500 with the handler's fallback message.
   */
  function RespondWithStatus(body: JsonValue, status: int, fallback: string): (r: Reply)
    ensures RefusedStatus(status) ==> r == Reply(500, ErrorBody(fallback))
    ensures !RefusedStatus(status) ==> r == Reply(status, body)
  {
    if RefusedStatus(status) then Reply(500, ErrorBody(fallback)) else Reply(status, body)
  }

  /**
   * The decision table shared by the list, submit and key-details handlers
   * once the upstream call has been made: a thrown call gives 500 with the
   * fallback message; otherwise the body is the parsed JSON or
   * `{ error: text }`, sent with status 200 when upstream was OK and with
   * the upstream status when it was not.
   */
  function Relay(upstream: UpstreamOutcome, fallback: string): (r: Reply)
    ensures upstream.Threw? ==> r == Reply(500, ErrorBody(fallback))
    ensures upstream.Responded? && IsOk(upstream.status) ==> r.status == 200
    ensures upstream.Responded? && !IsOk(upstream.status) && !RefusedStatus(upstream.status) ==>
      r.status == upstream.status
    ensures upstream.Responded? && (IsOk(upstream.status) || !RefusedStatus(upstream.status)) ==>
      r.body == (if upstream.parsed.Some? then upstream.parsed.value else ErrorBody(upstream.text))
    ensures upstream.Responded? && !IsOk(upstream.status) && RefusedStatus(upstream.status) ==>
      r == Reply(500, ErrorBody(fallback))
  {
    match upstream
    case Threw => Reply(500, ErrorBody(fallback))
    case Responded(status, text, parsed) =>
      var data := match Decode(text, parsed)
        case Json(v) => v
        case PlainText(t) => ErrorBody(t);
      if !IsOk(status) then RespondWithStatus(data, status, fallback) else Reply(200, data)
  }

  /**
   * The handler's one upstream call. With the base URL set, `request` is
   * sent and `answer` is what the handler makes of the reply. With it unset
   * the URL reads "undefined/...", which a server-side `fetch` cannot parse:
   * it throws before anything is sent and the `catch` answers 500 with the
   * handler's fallback message.
   */
  function Call(cfg: Config, request: Outbound, answer: Reply, fallback: string): (h: Handled)
    ensures h.sent.Some? <==> BaseUrlSet(cfg)
    ensures BaseUrlSet(cfg) ==> h == Handled(Some(request), answer)
    ensures !BaseUrlSet(cfg) ==> h.response == Relay(Threw, fallback)
  {
    if BaseUrlSet(cfg) then Handled(Some(request), answer)
    else Handled(None, Reply(500, ErrorBody(fallback)))
  }
}
