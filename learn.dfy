/** The learning-content listing: its chain-filter default, URL and unwrapping. */
module Learn {
  import opened Wrappers
  import opened Remote
  import opened Core
  import opened Query
  import Text

  /** The query of the learn URL for the chains actually requested. */
  function LearnQuery(cs: seq<ChainId>): string {
    ChainFilter(cs) + "&" + Text.Join(LearnTailPairs, "&")
  }

  /** The URL `learn` requests: the caller's chains, or every chain when none are given. */
  function LearnUrl(chainIds: seq<ChainId> := []): (r: string)
    ensures r == "https://api.phantom.app/explore/v1/learn-grid?" + LearnQuery(ChosenChains(chainIds, AllChains))
  {
    "https://api.phantom.app/explore/v1/learn-grid?" + LearnQuery(if chainIds == [] then AllChains else chainIds)
  }

  /**
   * `learn`: the listing under "data" of the response `server` gives for
   * `LearnUrl(chainIds)`, `[]` on a non-200 status.
   */
  function LearnListing(server: string -> Response, chainIds: seq<ChainId> := []): (r: Result<Json, ApiError>)
    ensures var resp := server(LearnUrl(chainIds));
      && (resp.status != 200 ==> r == Ok(JArr([])))
      && (resp.status == 200 && resp.body.JObj? ==> r == Ok(GetOr(resp.body.fields, "data", JArr([]))))
      && (resp.status == 200 && !resp.body.JObj? ==> r.Err? && r.error.WrongType?)
      && r == SoftListing(resp, "data")
  {
    SoftListing(server(LearnUrl(chainIds)), "data")
  }

  /**
   * The learn query carries one `chainIds[]` parameter per requested chain,
   * in order (every chain when none are given), followed by the fixed
   * platform, locale and appVersion parameters.
   */
  lemma LearnParams(chainIds: seq<ChainId>)
    ensures var cs := ChosenChains(chainIds, AllChains);
      && Text.Split(LearnQuery(cs), '&') == ChainPairs(cs) + LearnTailPairs
      && ParamValues(LearnQuery(cs), "chainIds[]") == Wires(cs)
  {
    var cs := ChosenChains(chainIds, AllChains);
    LearnTailIsPlain();
    FilterTail(cs, LearnTailPairs);
    assert [] + ChainPairs(cs) + LearnTailPairs == ChainPairs(cs) + LearnTailPairs;
    QueryLayout([], cs, LearnTailPairs);
  }
}
