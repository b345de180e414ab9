/** The list-checks (GET) and delete-all (DELETE) handlers of `/api/checks`. */
module ChecksRoute {
  import opened Wrappers
  import opened Js
  import opened Proxy

  const FetchFailedMessage := "Failed to fetch checks"
  const DeleteFailedMessage := "Failed to delete checks"

  /** `GET <base>/api/checks?apiKey=<key>`. */
  function ListRequest(cfg: Config): Outbound
    requires KeyConfigured(cfg)
  {
    Outbound(GET, Url(cfg, "/api/checks?apiKey=" + Key(cfg)), NoBody)
  }

  /** `POST <base>/api/deleteAll` with the JSON body `{ apiKey: <key> }`. */
  function DeleteAllRequest(cfg: Config): Outbound
    requires KeyConfigured(cfg)
  {
    Outbound(POST, Url(cfg, "/api/deleteAll"), JsonBody(TextObject("apiKey", Key(cfg))))
  }

  /**
   * GET: without a key, the configuration error and no call; without a base
   * URL, the fallback and no call; otherwise one list request, relayed.
   */
  function List(cfg: Config, upstream: UpstreamOutcome): (h: Handled)
    ensures !KeyConfigured(cfg) ==> h == NotConfigured()
    ensures KeyConfigured(cfg) && !BaseUrlSet(cfg) ==> h == Handled(None, Reply(500, ErrorBody(FetchFailedMessage)))
    ensures KeyConfigured(cfg) && BaseUrlSet(cfg) ==> h.sent == Some(ListRequest(cfg))
    ensures KeyConfigured(cfg) && BaseUrlSet(cfg) ==> h.response == Relay(upstream, FetchFailedMessage)
  {
    if !KeyConfigured(cfg) then NotConfigured()
    else Call(cfg, ListRequest(cfg), Relay(upstream, FetchFailedMessage), FetchFailedMessage)
  }

  /**
   * DELETE: on success the parsed JSON, or `{ message: text }` when the body
   * is not JSON; on failure always `{ error: text }` with the raw text, even
   * when it parsed, under the upstream status.
   */
  function DeleteAll(cfg: Config, upstream: UpstreamOutcome): (h: Handled)
    ensures !KeyConfigured(cfg) ==> h == NotConfigured()
    ensures KeyConfigured(cfg) && !BaseUrlSet(cfg) ==> h == Handled(None, Reply(500, ErrorBody(DeleteFailedMessage)))
    ensures KeyConfigured(cfg) && BaseUrlSet(cfg) ==> h.sent == Some(DeleteAllRequest(cfg))
    ensures KeyConfigured(cfg) && BaseUrlSet(cfg) && upstream.Threw? ==> h.response == Reply(500, ErrorBody(DeleteFailedMessage))
    ensures KeyConfigured(cfg) && BaseUrlSet(cfg) && upstream.Responded? && IsOk(upstream.status) ==>
      h.response == Reply(200, if upstream.parsed.Some? then upstream.parsed.value
                                 else TextObject("message", upstream.text))
    ensures KeyConfigured(cfg) && BaseUrlSet(cfg) && upstream.Responded? && !IsOk(upstream.status) && !RefusedStatus(upstream.status) ==>
      h.response == Reply(upstream.status, ErrorBody(upstream.text))
    ensures KeyConfigured(cfg) && BaseUrlSet(cfg) && upstream.Responded? && !IsOk(upstream.status) && RefusedStatus(upstream.status) ==>
      h.response == Reply(500, ErrorBody(DeleteFailedMessage))
  {
    if !KeyConfigured(cfg) then NotConfigured()
    else
      var response := match upstream
        case Threw => Reply(500, ErrorBody(DeleteFailedMessage))
        case Responded(status, text, parsed) =>
          var data := match Decode(text, parsed)
            case Json(v) => v
            case PlainText(t) => TextObject("message", t);
          if !IsOk(status) then RespondWithStatus(ErrorBody(text), status, DeleteFailedMessage)
          else Reply(200, data);
      Call(cfg, DeleteAllRequest(cfg), response, DeleteFailedMessage)
  }

  /**
   * The asymmetry between the two handlers: when a failed upstream answer is
   * JSON other than `{ error: text }`, GET forwards that JSON but DELETE
   * does not.
   */
  lemma FailedJsonForwardedByListOnly(cfg: Config, status: HttpStatus, text: string, v: JsonValue)
    requires KeyConfigured(cfg) && BaseUrlSet(cfg) && !IsOk(status) && !RefusedStatus(status)
    requires v != ErrorBody(text)
    ensures List(cfg, Responded(status, text, Some(v))).response == Reply(status, v)
    ensures DeleteAll(cfg, Responded(status, text, Some(v))).response == Reply(status, ErrorBody(text))
    ensures List(cfg, Responded(status, text, Some(v))).response != DeleteAll(cfg, Responded(status, text, Some(v))).response
  {
  }
}
