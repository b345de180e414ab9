/** The API-key-details (GET) handler of `/api/key/details`. */
module KeyDetailsRoute {
  import opened Wrappers
  import opened Proxy
  import ChecksRoute

  const DetailsFailedMessage := "Failed to fetch API key details"

  /** `GET <base>/api/key/details?apiKey=<key>`. */
  function DetailsRequest(cfg: Config): Outbound
    requires KeyConfigured(cfg)
  {
    Outbound(GET, Url(cfg, "/api/key/details?apiKey=" + Key(cfg)), NoBody)
  }

  /**
   * GET: without a key, the configuration error and no call; without a base
   * URL, the fallback and no call; otherwise one details request, relayed.
   */
  function Details(cfg: Config, upstream: UpstreamOutcome): (h: Handled)
    ensures !KeyConfigured(cfg) ==> h == NotConfigured()
    ensures KeyConfigured(cfg) && !BaseUrlSet(cfg) ==> h == Handled(None, Reply(500, ErrorBody(DetailsFailedMessage)))
    ensures KeyConfigured(cfg) && BaseUrlSet(cfg) ==> h.sent == Some(DetailsRequest(cfg))
    ensures KeyConfigured(cfg) && BaseUrlSet(cfg) ==> h.response == Relay(upstream, DetailsFailedMessage)
  {
    if !KeyConfigured(cfg) then NotConfigured()
    else Call(cfg, DetailsRequest(cfg), Relay(upstream, DetailsFailedMessage), DetailsFailedMessage)
  }

  /**
   * This handler and the checks list handler answer alike for every
   * configuration and upstream outcome, except for the fallback message of
   * a caught exception.
   */
  lemma SameTableAsChecksList(cfg: Config, upstream: UpstreamOutcome)
    ensures !KeyConfigured(cfg) ==> Details(cfg, upstream) == ChecksRoute.List(cfg, upstream)
    ensures Details(cfg, upstream).response.status == ChecksRoute.List(cfg, upstream).response.status
    ensures Details(cfg, upstream).response != ChecksRoute.List(cfg, upstream).response ==>
      && Details(cfg, upstream).response == Reply(500, ErrorBody(DetailsFailedMessage))
      && ChecksRoute.List(cfg, upstream).response == Reply(500, ErrorBody(ChecksRoute.FetchFailedMessage))
  {
  }
}
