/**
 * Trending tokens, dApps and collections: argument validation, the default
 * chain sets, the listing URLs and how their responses are unwrapped.
 * Enumeration arguments are Dafny datatypes, so membership holds by typing.
 */
module Trending {
  import opened Wrappers
  import opened Remote
  import opened Core
  import opened Query
  import Text

  /** The four chains trending collections default to, in this order. */
  const CollectionChains: seq<ChainId> := [Solana, Ethereum, Polygon, Bitcoin]

  // ---- trending tokens ----

  /**
   * The query of the trending-tokens URL.  Its chain filter is built from
   * every ChainId, not from the caller's chains: the caller's list is
   * defaulted and then never used.
   */
  function TrendingTokensQuery(timeframe: TokenTimeFrame, sortBy: SortBy, sortDirection: SortDirection, limit: int): string {
    Pair("timeFrame", TokenTimeFrameStr(timeframe)) + "&" + Pair("sortBy", SortByStr(sortBy))
    + "&" + Pair("sortDirection", SortDirectionStr(sortDirection)) + "&" + Pair("limit", Text.IntToString(limit))
    + "&" + ChainFilter(AllChains)
  }

  /** `get_trending_tokens` up to the request: validation, then the URL. */
  function TrendingTokensUrl(timeframe: TokenTimeFrame := TokenDay, sortBy: SortBy := Rank, sortDirection: SortDirection := Asc,
                             limit: int := 100, chainIds: seq<ChainId> := []): (r: Result<string, ApiError>)
    ensures r.Err? <==> !(1 <= limit <= 100)
    ensures r.Ok? ==> r.value == "https://api.phantom.app/explore/v2/trending-tokens?" + TrendingTokensQuery(timeframe, sortBy, sortDirection, limit)
  {
    if !(1 <= limit <= 100) then Err(InvalidParameter("limit must be between 1 and 100."))
    else
      var chosen := ChosenChains(chainIds, AllChains);  // computed, then unused: the URL lists every chain
      Ok("https://api.phantom.app/explore/v2/trending-tokens?" + TrendingTokensQuery(timeframe, sortBy, sortDirection, limit))
  }

  /**
   * `get_trending_tokens`: the listing under "results" of the response
   * `server` gives for the trending-tokens URL, `[]` on a non-200 status;
   * no request is made when the limit is out of bounds.
   */
  function TrendingTokens(server: string -> Response, timeframe: TokenTimeFrame := TokenDay, sortBy: SortBy := Rank,
                          sortDirection: SortDirection := Asc, limit: int := 100, chainIds: seq<ChainId> := []): (r: Result<Json, ApiError>)
    ensures !(1 <= limit <= 100) ==> r.Err? && r.error.InvalidParameter?
    ensures 1 <= limit <= 100 ==>
      r == SoftListing(server("https://api.phantom.app/explore/v2/trending-tokens?" + TrendingTokensQuery(timeframe, sortBy, sortDirection, limit)), "results")
  {
    var url :- TrendingTokensUrl(timeframe, sortBy, sortDirection, limit, chainIds);
    SoftListing(server(url), "results")
  }

  /** The caller's chain filter has no effect on the trending-tokens request. */
  lemma TrendingTokensIgnoresFilter(timeframe: TokenTimeFrame, sortBy: SortBy, sortDirection: SortDirection, limit: int, cs1: seq<ChainId>, cs2: seq<ChainId>)
    ensures TrendingTokensUrl(timeframe, sortBy, sortDirection, limit, cs1) == TrendingTokensUrl(timeframe, sortBy, sortDirection, limit, cs2)
  {
  }

  /** The fixed leading parameters of the trending-tokens query. */
  function TrendingTokensHead(timeframe: TokenTimeFrame, sortBy: SortBy, sortDirection: SortDirection, limit: int): seq<string> {
    [Pair("timeFrame", TokenTimeFrameStr(timeframe)), Pair("sortBy", SortByStr(sortBy)),
     Pair("sortDirection", SortDirectionStr(sortDirection)), Pair("limit", Text.IntToString(limit))]
  }

  lemma TrendingTokensQueryIsJoin(timeframe: TokenTimeFrame, sortBy: SortBy, sortDirection: SortDirection, limit: int)
    ensures TrendingTokensQuery(timeframe, sortBy, sortDirection, limit)
         == Text.Join(TrendingTokensHead(timeframe, sortBy, sortDirection, limit) + ChainPairs(AllChains), "&")
  {
    FourFilter(Pair("timeFrame", TokenTimeFrameStr(timeframe)), Pair("sortBy", SortByStr(sortBy)),
               Pair("sortDirection", SortDirectionStr(sortDirection)), Pair("limit", Text.IntToString(limit)), AllChains);
  }

  /**
   * The trending-tokens query carries timeFrame, sortBy, sortDirection and
   * limit, then one `chainIds[]` parameter for every ChainId in declaration
   * order, whatever chains the caller asked for.
   */
  lemma TrendingTokensParams(timeframe: TokenTimeFrame, sortBy: SortBy, sortDirection: SortDirection, limit: int)
    ensures var q := TrendingTokensQuery(timeframe, sortBy, sortDirection, limit);
      && Text.Split(q, '&') == TrendingTokensHead(timeframe, sortBy, sortDirection, limit) + ChainPairs(AllChains)
      && ParamValues(q, "chainIds[]") == Wires(AllChains)
  {
    var head := TrendingTokensHead(timeframe, sortBy, sortDirection, limit);
    TrendingTokensHeadIsPlain(timeframe, sortBy, sortDirection, limit);
    TrendingTokensQueryIsJoin(timeframe, sortBy, sortDirection, limit);
    HeadLayout(head, AllChains);
  }

  /** The leading parameters hold no `&` and none is a `chainIds[]` parameter. */
  lemma TrendingTokensHeadIsPlain(timeframe: TokenTimeFrame, sortBy: SortBy, sortDirection: SortDirection, limit: int)
    ensures var head := TrendingTokensHead(timeframe, sortBy, sortDirection, limit);
      forall i :: 0 <= i < |head| ==> '&' !in head[i] && NotKey(head[i], "chainIds[]")
  {
    var head := TrendingTokensHead(timeframe, sortBy, sortDirection, limit);
    forall i | 0 <= i < |head| ensures '&' !in head[i] && NotKey(head[i], "chainIds[]") {
      if i == 0 {
        PlainPair("timeFrame", TokenTimeFrameStr(timeframe));
      } else if i == 1 {
        PlainPair("sortBy", SortByStr(sortBy));
      } else if i == 2 {
        PlainPair("sortDirection", SortDirectionStr(sortDirection));
      } else {
        Text.IntToStringAvoids(limit, '&');
        PlainPair("limit", Text.IntToString(limit));
      }
    }
  }

  // ---- trending dApps and collections ----

  /** The fixed leading parameters of the dApp and collection queries. */
  function RankedHead(limit: int, rankBy: RankBy, timeframe: TimeFrame): seq<string> {
    [Pair("limit", Text.IntToString(limit)), Pair("rankBy", RankByStr(rankBy)), Pair("timeframe", TimeFrameStr(timeframe))]
  }

  /** The query shared by the dApp and collection URLs, for the chains actually requested. */
  function RankedQuery(limit: int, rankBy: RankBy, timeframe: TimeFrame, cs: seq<ChainId>): string {
    Pair("limit", Text.IntToString(limit)) + "&" + Pair("rankBy", RankByStr(rankBy))
    + "&" + Pair("timeframe", TimeFrameStr(timeframe)) + "&" + ChainFilter(cs) + "&" + Text.Join(ListingTailPairs, "&")
  }

  /** `get_trending_dapps` up to the request: validation, then the URL; its default chains are every chain. */
  function TrendingDappsUrl(limit: int := 50, rankBy: RankBy := RankBy.Trending, timeframe: TimeFrame := Day, chainIds: seq<ChainId> := []): (r: Result<string, ApiError>)
    ensures r.Err? <==> !(1 <= limit <= 50)
    ensures r.Ok? ==> r.value == "https://api.phantom.app/explore/v1/trending-dapps?" + RankedQuery(limit, rankBy, timeframe, ChosenChains(chainIds, AllChains))
  {
    if !(1 <= limit <= 50) then Err(InvalidParameter("limit must not be lower than 1 or greater than 50."))
    else Ok("https://api.phantom.app/explore/v1/trending-dapps?" + RankedQuery(limit, rankBy, timeframe, ChosenChains(chainIds, AllChains)))
  }

  /**
   * `get_trending_dapps`: the listing under "data" of the response `server`
   * gives for the trending-dapps URL, `[]` on a non-200 status; no request is made
   * when the limit is out of bounds.
   */
  function TrendingDapps(server: string -> Response, limit: int := 50, rankBy: RankBy := RankBy.Trending, timeframe: TimeFrame := Day,
                         chainIds: seq<ChainId> := []): (r: Result<Json, ApiError>)
    ensures !(1 <= limit <= 50) ==> r.Err? && r.error.InvalidParameter?
    ensures 1 <= limit <= 50 ==>
      r == SoftListing(server("https://api.phantom.app/explore/v1/trending-dapps?" + RankedQuery(limit, rankBy, timeframe, ChosenChains(chainIds, AllChains))), "data")
  {
    var url :- TrendingDappsUrl(limit, rankBy, timeframe, chainIds);
    SoftListing(server(url), "data")
  }

  /** `get_trending_collections` up to the request; its default chains are CollectionChains. */
  function TrendingCollectionsUrl(limit: int := 50, rankBy: RankBy := RankBy.Trending, timeframe: TimeFrame := Day, chainIds: seq<ChainId> := []): (r: Result<string, ApiError>)
    ensures r.Err? <==> !(1 <= limit <= 50)
    ensures r.Ok? ==> r.value == "https://api.phantom.app/explore/v1/trending-collections?" + RankedQuery(limit, rankBy, timeframe, ChosenChains(chainIds, CollectionChains))
  {
    if !(1 <= limit <= 50) then Err(InvalidParameter("limit must not be lower than 1 or greater than 50."))
    else Ok("https://api.phantom.app/explore/v1/trending-collections?" + RankedQuery(limit, rankBy, timeframe, ChosenChains(chainIds, CollectionChains)))
  }

  /**
   * `get_trending_collections`: the listing under "data" of the response `server`
   * gives for the trending-collections URL, `[]` on a non-200 status; no request is made
   * when the limit is out of bounds.
   */
  function TrendingCollections(server: string -> Response, limit: int := 50, rankBy: RankBy := RankBy.Trending, timeframe: TimeFrame := Day,
                              chainIds: seq<ChainId> := []): (r: Result<Json, ApiError>)
    ensures !(1 <= limit <= 50) ==> r.Err? && r.error.InvalidParameter?
    ensures 1 <= limit <= 50 ==>
      r == SoftListing(server("https://api.phantom.app/explore/v1/trending-collections?" + RankedQuery(limit, rankBy, timeframe, ChosenChains(chainIds, CollectionChains))), "data")
  {
    var url :- TrendingCollectionsUrl(limit, rankBy, timeframe, chainIds);
    SoftListing(server(url), "data")
  }

  lemma RankedQueryIsJoin(limit: int, rankBy: RankBy, timeframe: TimeFrame, cs: seq<ChainId>)
    requires cs != []
    ensures RankedQuery(limit, rankBy, timeframe, cs) == Text.Join(RankedHead(limit, rankBy, timeframe) + ChainPairs(cs) + ListingTailPairs, "&")
  {
    ThreeFilterTail(Pair("limit", Text.IntToString(limit)), Pair("rankBy", RankByStr(rankBy)),
                    Pair("timeframe", TimeFrameStr(timeframe)), cs, ListingTailPairs);
  }

  /**
   * The dApp and collection queries carry limit, rankBy and timeframe, then
   * one `chainIds[]` parameter per requested chain in order, then the fixed
   * rankAlgo, platform, locale and appVersion parameters.
   */
  lemma RankedQueryParams(limit: int, rankBy: RankBy, timeframe: TimeFrame, cs: seq<ChainId>)
    requires cs != []
    ensures var q := RankedQuery(limit, rankBy, timeframe, cs);
      && Text.Split(q, '&') == RankedHead(limit, rankBy, timeframe) + ChainPairs(cs) + ListingTailPairs
      && ParamValues(q, "chainIds[]") == Wires(cs)
  {
    var head := RankedHead(limit, rankBy, timeframe);
    forall i | 0 <= i < |head| ensures '&' !in head[i] && NotKey(head[i], "chainIds[]") {
      if i == 0 {
        Text.IntToStringAvoids(limit, '&');
        PlainPair("limit", Text.IntToString(limit));
      } else if i == 1 {
        PlainPair("rankBy", RankByStr(rankBy));
      } else {
        PlainPair("timeframe", TimeFrameStr(timeframe));
      }
    }
    ListingTailIsPlain();
    RankedQueryIsJoin(limit, rankBy, timeframe, cs);
    QueryLayout(head, cs, ListingTailPairs);
  }

  /** With no chains given, the dApp URL asks for every chain, in declaration order. */
  lemma TrendingDappsDefaultChains(limit: int, rankBy: RankBy, timeframe: TimeFrame, chainIds: seq<ChainId>)
    ensures var q := RankedQuery(limit, rankBy, timeframe, ChosenChains(chainIds, AllChains));
      ParamValues(q, "chainIds[]") == Wires(if chainIds == [] then AllChains else chainIds)
  {
    RankedQueryParams(limit, rankBy, timeframe, ChosenChains(chainIds, AllChains));
  }

  /** With no chains given, the collection URL asks for Solana, Ethereum, Polygon and Bitcoin, in that order. */
  lemma TrendingCollectionsDefaultChains(limit: int, rankBy: RankBy, timeframe: TimeFrame, chainIds: seq<ChainId>)
    ensures var q := RankedQuery(limit, rankBy, timeframe, ChosenChains(chainIds, CollectionChains));
      ParamValues(q, "chainIds[]") == Wires(if chainIds == [] then CollectionChains else chainIds)
  {
    RankedQueryParams(limit, rankBy, timeframe, ChosenChains(chainIds, CollectionChains));
  }
}
