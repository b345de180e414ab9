/** What the four proxy handlers have in common once they are seen side by side. */
module Routes {
  import opened Proxy
  import ChecksRoute
  import CheckRoute
  import KeyDetailsRoute

  /**
   * Without a key, or without a base URL, no handler sends anything, so
   * its answer cannot depend on what upstream would have said.
   */
  lemma NoCallWithoutKeyOrBaseUrl(cfg: Config, inbound: CheckRoute.Inbound, u1: UpstreamOutcome, u2: UpstreamOutcome)
    requires !KeyConfigured(cfg) || !BaseUrlSet(cfg)
    ensures ChecksRoute.List(cfg, u1).sent.None? && ChecksRoute.List(cfg, u1) == ChecksRoute.List(cfg, u2)
    ensures ChecksRoute.DeleteAll(cfg, u1).sent.None? && ChecksRoute.DeleteAll(cfg, u1) == ChecksRoute.DeleteAll(cfg, u2)
    ensures CheckRoute.Submit(cfg, inbound, u1).sent.None? && CheckRoute.Submit(cfg, inbound, u1) == CheckRoute.Submit(cfg, inbound, u2)
    ensures KeyDetailsRoute.Details(cfg, u1).sent.None? && KeyDetailsRoute.Details(cfg, u1) == KeyDetailsRoute.Details(cfg, u2)
  {
  }
}
