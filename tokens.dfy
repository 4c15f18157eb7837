/**
 * Token queries: the lookup URLs that choose between the native-asset form
 * and the address form, the soft-failure unwrapping of the lookups, and the
 * cursor pagination of token search.
 */
module Tokens {
  import opened Wrappers
  import opened Remote
  import opened Core
  import opened Query
  import Text

  // ---- lookups ----

  /**
   * The token reference the lookup URLs carry after the endpoint:
   * `<chain>/nativeToken<sep><slip44>` for the native sentinel and
   * `<chain>/address<sep><address>` otherwise.  Token and price lookups use
   * `/` as the separator, price history uses `:`.
   */
  function TokenPath(c: ChainId, address: string, sep: char): string {
    Wire(c) + "/" + TokenRef(c, address, sep)
  }

  /** The part of a token reference after the chain. */
  function TokenRef(c: ChainId, address: string, sep: char): string {
    if address == NativeToken then NativeToken + [sep] + Slip44Text(c)
    else "address" + [sep] + address
  }

  lemma TokenRefInjective(c: ChainId, a1: string, a2: string, sep: char)
    requires TokenRef(c, a1, sep) == TokenRef(c, a2, sep)
    ensures a1 == a2
  {
    var x1, x2 := TokenRef(c, a1, sep), TokenRef(c, a2, sep);
    assert x1[0] == (if a1 == NativeToken then 'n' else 'a');
    assert x2[0] == (if a2 == NativeToken then 'n' else 'a');
    if a1 != NativeToken && a2 != NativeToken {
      assert a1 == x1[8..] == x2[8..] == a2;
    }
  }

  /**
   * The URL `get_token` (service "tokens") and `get_price` (service
   * "price") request: `nativeToken/<slip44>` after the chain for the native
   * sentinel, `address/<address>` otherwise.
   */
  function LookupUrl(service: string, c: ChainId, address: string): (r: string)
    ensures address == NativeToken ==> r == "https://api.phantom.app/" + service + "/v1/" + Wire(c) + "/nativeToken/" + Slip44Text(c)
    ensures address != NativeToken ==> r == "https://api.phantom.app/" + service + "/v1/" + Wire(c) + "/address/" + address
  {
    "https://api.phantom.app/" + service + "/v1/" + TokenPath(c, address, '/')
  }

  function TokenUrl(c: ChainId, address: string): string {
    LookupUrl("tokens", c, address)
  }

  function PriceUrl(c: ChainId, address: string): string {
    LookupUrl("price", c, address)
  }

  /**
   * The URL `get_price_history` requests: the token as `nativeToken:<slip44>`
   * or `address:<address>` after the chain, then the timeframe as `type`.
   */
  function PriceHistoryUrl(c: ChainId, address: string, timeframe: ChartTimeFrame): (r: string)
    ensures address == NativeToken ==>
      r == "https://api.phantom.app/price-history/v1?token=" + Wire(c) + "/nativeToken:" + Slip44Text(c) + "&type=" + ChartTimeFrameStr(timeframe)
    ensures address != NativeToken ==>
      r == "https://api.phantom.app/price-history/v1?token=" + Wire(c) + "/address:" + address + "&type=" + ChartTimeFrameStr(timeframe)
  {
    var base, path, tf := "https://api.phantom.app/price-history/v1?token=", TokenPath(c, address, ':'), ChartTimeFrameStr(timeframe);
    var form, code := if address == NativeToken then "/nativeToken:" else "/address:", if address == NativeToken then Slip44Text(c) else address;
    assert path == Wire(c) + form + code;
    ConcatAssoc(base, Wire(c), form, code, "&type=", tf);
    base + path + "&type=" + tf
  }

  lemma ConcatAssoc(a: string, b: string, c: string, d: string, e: string, f: string)
    ensures a + (b + c + d) + e + f == a + b + c + d + e + f
  {
  }

  lemma WireHasNoSlash(c: ChainId)
    ensures '/' !in Wire(c)
  {
  }

  lemma {:induction false} SlashSplit(w1: string, x: string, w2: string, y: string)
    requires '/' !in w1 && '/' !in w2
    requires w1 + "/" + x == w2 + "/" + y
    ensures w1 == w2 && x == y
  {
    var s, t := w1 + "/" + x, w2 + "/" + y;
    assert s[|w1|] == '/' && t[|w2|] == '/';
    assert forall k :: 0 <= k < |w1| ==> s[k] == w1[k] && w1[k] in w1;
    assert forall k :: 0 <= k < |w2| ==> t[k] == w2[k] && w2[k] in w2;
    assert w1 == s[..|w1|] == w2;
    assert x == s[|w1| + 1..] == y;
  }

  /**
   * A lookup's token reference identifies the chain and the address: two
   * different (chain, address) arguments never produce the same reference,
   * and the native form never coincides with an address form.
   */
  lemma TokenPathInjective(c1: ChainId, a1: string, c2: ChainId, a2: string, sep: char)
    requires TokenPath(c1, a1, sep) == TokenPath(c2, a2, sep)
    ensures c1 == c2 && a1 == a2
  {
    WireHasNoSlash(c1);
    WireHasNoSlash(c2);
    SlashSplit(Wire(c1), TokenRef(c1, a1, sep), Wire(c2), TokenRef(c2, a2, sep));
    WireInjective(c1, c2);
    TokenRefInjective(c1, a1, a2, sep);
  }

  /** The native form is chosen exactly for the sentinel; Bitcoin's has the exception text in place of a code. */
  lemma TokenPathNativeForm(c: ChainId, address: string, sep: char)
    ensures var p := TokenPath(c, address, sep);
      (address == NativeToken <==> p[|Wire(c)| + 1] == 'n')
      && (address == NativeToken && c == Bitcoin ==> p == Wire(c) + "/" + NativeToken + [sep] + "Chain not supported!")
  {
  }

  /** Different tokens are looked up at different URLs: a lookup URL determines the chain and the address. */
  lemma LookupUrlInjective(service: string, c1: ChainId, a1: string, c2: ChainId, a2: string)
    requires LookupUrl(service, c1, a1) == LookupUrl(service, c2, a2)
    ensures c1 == c2 && a1 == a2
  {
    var n := |"https://api.phantom.app/" + service + "/v1/"|;
    assert TokenPath(c1, a1, '/') == LookupUrl(service, c1, a1)[n..] == LookupUrl(service, c2, a2)[n..] == TokenPath(c2, a2, '/');
    TokenPathInjective(c1, a1, c2, a2, '/');
  }

  /**
   * `get_token`: requests `TokenUrl(c, address)` (`server` answers it);
   * `{}` on a non-200 status; otherwise the "data" object of the body
   * (`{}` when absent) with its "chain" key deleted.  Deleting raises
   * KeyError when "chain" is absent (so an absent "data" raises too), and
   * TypeError when "data" is not an object.
   */
  function GetToken(c: ChainId, address: string, server: string -> Response): (r: Result<map<string, Json>, ApiError>)
    ensures var resp := server(TokenUrl(c, address));
      && (resp.status != 200 ==> r == Ok(map[]))
      && (resp.status == 200 ==>
            (r.Ok? <==> resp.body.JObj? && "data" in resp.body.fields && resp.body.fields["data"].JObj?
                        && "chain" in resp.body.fields["data"].fields))
      && (resp.status == 200 && r.Ok? ==>
            r.value.Keys == resp.body.fields["data"].fields.Keys - {"chain"}
            && forall k :: k in r.value ==> r.value[k] == resp.body.fields["data"].fields[k])
    ensures r.Ok? ==> "chain" !in r.value
  {
    var resp := server(TokenUrl(c, address));
    if resp.status != 200 then Ok(map[])
    else if !resp.body.JObj? then Err(WrongType("response body is not a JSON object"))
    else
      match GetOr(resp.body.fields, "data", JObj(map[]))
      case JObj(data) =>
        if "chain" in data then Ok(data - {"chain"}) else Err(MissingKey("chain"))
      case _ => Err(WrongType("data does not support item deletion"))
  }

  /** `get_price`: requests `PriceUrl(c, address)`; `{}` on a non-200 status, the decoded body otherwise. */
  function GetPrice(c: ChainId, address: string, server: string -> Response): (r: Json)
    ensures var resp := server(PriceUrl(c, address));
      && (resp.status != 200 ==> r == JObj(map[]))
      && (resp.status == 200 ==> r == resp.body)
  {
    var resp := server(PriceUrl(c, address));
    if resp.status != 200 then JObj(map[]) else resp.body
  }

  /**
   * `get_price_history`: requests `PriceHistoryUrl(c, address, timeframe)`;
   * `[]` on a non-200 status, the body's "history" (default `[]`) otherwise.
   */
  function GetPriceHistory(c: ChainId, address: string, timeframe: ChartTimeFrame, server: string -> Response): (r: Result<Json, ApiError>)
    ensures var resp := server(PriceHistoryUrl(c, address, timeframe));
      && (resp.status != 200 ==> r == Ok(JArr([])))
      && (resp.status == 200 ==> (r.Ok? <==> resp.body.JObj?))
      && (r.Ok? && resp.status == 200 ==> r.value == GetOr(resp.body.fields, "history", JArr([])))
  {
    SoftListing(server(PriceHistoryUrl(c, address, timeframe)), "history")
  }


  // ---- search ----

  /** The parameters of a search URL, in order. */
  function SearchPairs(query: string, cs: seq<ChainId>, size: int, context: SearchContext): seq<string> {
    [Pair("query", query), Pair("chainIds", Text.Join(Wires(cs), ",")), Pair("pageSize", Text.IntToString(size)),
     Pair("searchContext", SearchContextStr(context)), Pair("platform", "extension"), Pair("searchTypes", "fungible")]
  }

  /** The query string of a search for `query` over chains `cs`, `size` tokens a page. */
  function SearchQuery(query: string, cs: seq<ChainId>, size: int, context: SearchContext): string {
    Text.Join(SearchPairs(query, cs, size, context), "&")
  }

  const SearchBase: string := "https://api.phantom.app/search/v1?"

  /**
   * `search_token` up to its first request: validation, default chains,
   * the page size (forced to 100 when every page is wanted), then the base URL.
   */
  function SearchUrl(query: string, chainIds: seq<ChainId> := [], pageSize: int := 100, context: SearchContext := Explore,
                     allResults: bool := true): (r: Result<string, ApiError>)
    ensures r.Err? <==> query == "" || !(1 <= pageSize <= 100)
    ensures r.Err? ==> r.error.InvalidParameter?
    ensures r.Ok? ==> r.value == SearchBase + SearchQuery(query, ChosenChains(chainIds, AllChains), if allResults then 100 else pageSize, context)
  {
    if query == "" then Err(InvalidParameter("query cannot be empty."))
    else if !(1 <= pageSize <= 100) then Err(InvalidParameter("page_size must be between 1 and 100."))
    else
      var cs := if chainIds == [] then AllChains else chainIds;
      var size := if allResults then 100 else pageSize;
      Ok(SearchBase + SearchQuery(query, cs, size, context))
  }

  /**
   * A search query whose text has no `&` splits back into its six
   * parameters; it carries the chain list once and the page size once.
   */
  lemma SearchQueryParams(query: string, cs: seq<ChainId>, size: int, context: SearchContext)
    requires '&' !in query
    ensures Text.Split(SearchQuery(query, cs, size, context), '&') == SearchPairs(query, cs, size, context)
    ensures ParamValues(SearchQuery(query, cs, size, context), "chainIds") == [Text.Join(Wires(cs), ",")]
    ensures ParamValues(SearchQuery(query, cs, size, context), "pageSize") == [Text.IntToString(size)]
  {
    var ps := SearchPairs(query, cs, size, context);
    SearchPairsHaveNoAmp(query, cs, size, context);
    Text.SplitJoin(ps, '&');
    SearchPairsKeys(query, cs, size, context);
    ValuesOfOne(ps, 1, "chainIds", Text.Join(Wires(cs), ","));
    ValuesOfOne(ps, 2, "pageSize", Text.IntToString(size));
  }

  lemma SearchPairsHaveNoAmp(query: string, cs: seq<ChainId>, size: int, context: SearchContext)
    requires '&' !in query
    ensures forall i :: 0 <= i < |SearchPairs(query, cs, size, context)| ==> '&' !in SearchPairs(query, cs, size, context)[i]
  {
    var ps := SearchPairs(query, cs, size, context);
    forall i | 0 <= i < |ps| ensures '&' !in ps[i] {
      if i == 0 {
        PairHasNoAmp("query", query);
      } else if i == 1 {
        forall k | 0 <= k < |Wires(cs)| ensures '&' !in Wires(cs)[k] {
          WireHasNoAmp(cs[k]);
        }
        Text.JoinAvoids(Wires(cs), ",", '&');
        PairHasNoAmp("chainIds", Text.Join(Wires(cs), ","));
      } else if i == 2 {
        Text.IntToStringAvoids(size, '&');
        PairHasNoAmp("pageSize", Text.IntToString(size));
      } else if i == 3 {
        PairHasNoAmp("searchContext", SearchContextStr(context));
      } else if i == 4 {
        PairHasNoAmp("platform", "extension");
      } else {
        PairHasNoAmp("searchTypes", "fungible");
      }
    }
  }

  /** Only the second parameter is `chainIds`, and only the third is `pageSize`. */
  lemma SearchPairsKeys(query: string, cs: seq<ChainId>, size: int, context: SearchContext)
    ensures var ps := SearchPairs(query, cs, size, context);
      && (forall j :: 0 <= j < |ps| && j != 1 ==> NotKey(ps[j], "chainIds"))
      && (forall j :: 0 <= j < |ps| && j != 2 ==> NotKey(ps[j], "pageSize"))
  {
    var js, sizeText, ctx := Text.Join(Wires(cs), ","), Text.IntToString(size), SearchContextStr(context);
    PairNotKey("query", query, "chainIds", 0);
    PairNotKey("pageSize", sizeText, "chainIds", 0);
    PairNotKey("searchContext", ctx, "chainIds", 0);
    PairNotKey("platform", "extension", "chainIds", 0);
    PairNotKey("searchTypes", "fungible", "chainIds", 0);
    PairNotKey("query", query, "pageSize", 0);
    PairNotKey("chainIds", js, "pageSize", 0);
    PairNotKey("searchContext", ctx, "pageSize", 0);
    PairNotKey("platform", "extension", "pageSize", 1);
    PairNotKey("searchTypes", "fungible", "pageSize", 0);
  }

  /** Every page is fetched 100 at a time when all results are wanted, whatever page size was asked for. */
  lemma SearchUrlPageSize(query: string, chainIds: seq<ChainId>, pageSize: int, context: SearchContext)
    requires query != "" && '&' !in query && 1 <= pageSize <= 100
    ensures SearchUrl(query, chainIds, pageSize, context, true) == SearchUrl(query, chainIds, 100, context, false)
    ensures SearchUrl(query, chainIds, pageSize, context, true)
      == Ok(SearchBase + SearchQuery(query, ChosenChains(chainIds, AllChains), 100, context))
    ensures ParamValues(SearchQuery(query, ChosenChains(chainIds, AllChains), 100, context), "pageSize") == ["100"]
  {
    SearchQueryParams(query, ChosenChains(chainIds, AllChains), 100, context);
    Text.Numeral100();
  }

  /**
   * The search URL's chain list is one parameter, which splits on commas back
   * into the wire strings of the chosen chains: every chain, in declaration
   * order, when none are given.
   */
  lemma SearchChainList(query: string, chainIds: seq<ChainId>, size: int, context: SearchContext)
    requires '&' !in query
    ensures var cs := ChosenChains(chainIds, AllChains);
      var v := ParamValues(SearchQuery(query, cs, size, context), "chainIds");
      |v| == 1 && Text.Split(v[0], ',') == Wires(cs)
  {
    var cs := ChosenChains(chainIds, AllChains);
    SearchQueryParams(query, cs, size, context);
    forall i | 0 <= i < |Wires(cs)| ensures ',' !in Wires(cs)[i] {
      WireHasNoComma(cs[i]);
    }
    assert cs != [] by { assert |AllChains| == 6; }
    Text.SplitJoin(Wires(cs), ',');
  }

  lemma WireHasNoComma(c: ChainId)
    ensures ',' !in Wire(c)
  {
  }

  /** The pages fetched by a search: the URL of each request and the tokens gathered. */
  datatype SearchRun = SearchRun(urls: seq<string>, tokens: seq<Json>)

  /** `data.get("results", [])`, which must be a list to extend the accumulated tokens. */
  function PageResults(page: Json): (r: Result<seq<Json>, ApiError>)
    ensures r.Ok? <==> page.JObj? && GetOr(page.fields, "results", JArr([])).JArr?
    ensures r.Ok? ==> JArr(r.value) == GetOr(page.fields, "results", JArr([]))
    ensures r.Ok? && "results" !in page.fields ==> r.value == []
    ensures r.Err? ==> r.error.WrongType?
  {
    if !page.JObj? then Err(WrongType("response body is not a JSON object"))
    else
      match GetOr(page.fields, "results", JArr([]))
      case JArr(items) => Ok(items)
      case _ => Err(WrongType("results is not a list"))
  }

  /** `data.get("hasMore", False)`, read for truthiness. */
  predicate HasMore(page: Json)
    requires page.JObj?
  {
    Truthy(GetOr(page.fields, "hasMore", JBool(false)))
  }

  /** How an f-string shows a scalar JSON value (Python's `str`). */
  function Render(v: Json): (r: Result<string, ApiError>)
    ensures v.JStr? ==> r == Ok(v.s)
    ensures v.JNum? ==> r == Ok(Text.IntToString(v.n)) && Text.ParseInt(r.value) == Some(v.n)
    ensures v.JBool? ==> r == Ok(if v.b then "True" else "False")
    ensures v.JNull? ==> r == Ok("None")
    ensures r.Err? <==> v.JArr? || v.JObj?
  {
    match v
    case JStr(s) => Ok(s)
    case JNum(n) => Text.ParseIntToString(n); Ok(Text.IntToString(n))
    case JBool(b) => Ok(if b then "True" else "False")
    case JNull => Ok("None")
    case _ => Err(Unrendered)
  }

  /** `data['nextCursor']` as the follow-up URL shows it. */
  function CursorText(page: Json): (r: Result<string, ApiError>)
    ensures r.Ok? ==> page.JObj? && "nextCursor" in page.fields
    ensures page.JObj? && "nextCursor" !in page.fields ==> r == Err(MissingKey("nextCursor"))
    ensures page.JObj? && "nextCursor" in page.fields ==> r == Render(page.fields["nextCursor"])
    ensures page.JObj? && "nextCursor" in page.fields && page.fields["nextCursor"].JStr? ==> r == Ok(page.fields["nextCursor"].s)
  {
    if !page.JObj? then Err(WrongType("response body is not a JSON object"))
    else if "nextCursor" !in page.fields then Err(MissingKey("nextCursor"))
    else Render(page.fields["nextCursor"])
  }

  /**
   * The pagination loop as a recursive definition.  `url` is the next
   * request, `pages` the responses still to come, in order, and `seen`
   * whether any token has been gathered so far.  After each page the loop
   * stops when the page says there is no more OR nothing has been gathered
   * yet; otherwise it requests `base + "&cursor=" + nextCursor`.
   */
  function Paginate(base: string, url: string, pages: seq<Json>, seen: bool): Result<SearchRun, ApiError>
    decreases |pages|
  {
    if pages == [] then Err(PagesExhausted)
    else
      var page := pages[0];
      var results :- PageResults(page);
      var gathered := seen || results != [];
      if !HasMore(page) || !gathered then Ok(SearchRun([url], results))
      else
        var cursor :- CursorText(page);
        var rest :- Paginate(base, base + "&cursor=" + cursor, pages[1..], gathered);
        Ok(SearchRun([url] + rest.urls, results + rest.tokens))
  }

  /** A run's requests and tokens, prefixed by those of earlier pages. */
  function After(urls: seq<string>, tokens: seq<Json>, r: Result<SearchRun, ApiError>): Result<SearchRun, ApiError> {
    match r
    case Ok(run) => Ok(SearchRun(urls + run.urls, tokens + run.tokens))
    case Err(e) => Err(e)
  }

  lemma AfterAfter(u1: seq<string>, t1: seq<Json>, u2: seq<string>, t2: seq<Json>, r: Result<SearchRun, ApiError>)
    ensures After(u1, t1, After(u2, t2, r)) == After(u1 + u2, t1 + t2, r)
  {
    if r.Ok? {
      assert u1 + (u2 + r.value.urls) == (u1 + u2) + r.value.urls;
      assert t1 + (t2 + r.value.tokens) == (t1 + t2) + r.value.tokens;
    }
  }

  /** With only a query given, search asks for every chain, 100 tokens per page, in the explore context. */
  lemma SearchDefaults(query: string)
    ensures SearchUrl(query) == SearchUrl(query, AllChains, 100, Explore, false)
  {
  }

  /** What `search_token` returns: a validation error, or the pagination from its base URL. */
  function SearchOutcome(query: string, chainIds: seq<ChainId>, pageSize: int, context: SearchContext, allResults: bool, pages: seq<Json>): Result<SearchRun, ApiError> {
    match SearchUrl(query, chainIds, pageSize, context, allResults)
    case Err(e) => Err(e)
    case Ok(base) => Paginate(base, base, pages, false)
  }

  /**
   * `search_token`.  `pages` are the server's responses in the order they
   * are requested; Err(PagesExhausted) means the loop asked for more pages
   * than were supplied.
   */
  method SearchToken(pages: seq<Json>, query: string, chainIds: seq<ChainId> := [], pageSize: int := 100,
                     context: SearchContext := Explore, allResults: bool := true)
    returns (r: Result<SearchRun, ApiError>)
    ensures r == SearchOutcome(query, chainIds, pageSize, context, allResults, pages)
  {
    var start := SearchUrl(query, chainIds, pageSize, context, allResults);
    if start.Err? {
      return Err(start.error);
    }
    r := FollowPages(start.value, pages);
  }

  /** The request loop of `search_token`, from its base URL. */
  method FollowPages(base: string, pages: seq<Json>) returns (r: Result<SearchRun, ApiError>)
    ensures r == Paginate(base, base, pages, false)
  {
    var url := base;
    var urls: seq<string> := [];
    var tokens: seq<Json> := [];
    var i := 0;
    assert pages[0..] == pages;
    assert After([], [], Paginate(base, url, pages, false)) == Paginate(base, url, pages, false) by {
      var r := Paginate(base, url, pages, false);
      if r.Ok? {
        assert [] + r.value.urls == r.value.urls && [] + r.value.tokens == r.value.tokens;
      }
    }
    while true
      invariant 0 <= i <= |pages|
      invariant Paginate(base, base, pages, false) == After(urls, tokens, Paginate(base, url, pages[i..], tokens != []))
      decreases |pages| - i
    {
      if i == |pages| {
        return Err(PagesExhausted);
      }
      var page := pages[i];
      PaginateUnfold(base, url, pages[i..], tokens != []);
      assert pages[i..][0] == page && pages[i..][1..] == pages[i + 1..];
      var results := PageResults(page);
      if results.Err? {
        return Err(results.error);
      }
      var gathered := tokens + results.value;
      if !HasMore(page) || gathered == [] {
        return Ok(SearchRun(urls + [url], gathered));
      }
      var cursor := CursorText(page);
      if cursor.Err? {
        return Err(cursor.error);
      }
      var next := base + "&cursor=" + cursor.value;
      AfterAfter(urls, tokens, [url], results.value, Paginate(base, next, pages[i + 1..], true));
      urls, tokens := urls + [url], gathered;
      url := next;
      i := i + 1;
    }
  }

  /** One step of the pagination: the first page either ends the run or leads to the next request. */
  lemma PaginateUnfold(base: string, url: string, pages: seq<Json>, seen: bool)
    requires pages != []
    ensures Paginate(base, url, pages, seen) ==
      match PageResults(pages[0])
      case Err(e) => Err(e)
      case Ok(results) =>
        if !HasMore(pages[0]) || !(seen || results != []) then Ok(SearchRun([url], results))
        else
          match CursorText(pages[0])
          case Err(e) => Err(e)
          case Ok(c) => After([url], results, Paginate(base, base + "&cursor=" + c, pages[1..], true))
  {
  }

  // ---- properties of the pagination ----

  /** The tokens of `pages`, concatenated in fetch order (a malformed page contributes none). */
  function Gathered(pages: seq<Json>): seq<Json> {
    if pages == [] then []
    else (match PageResults(pages[0]) case Ok(items) => items case Err(_) => []) + Gathered(pages[1..])
  }

  /**
   * A search that finishes has fetched k >= 1 of the supplied pages: its
   * first request is the base URL, each later request is the base URL plus
   * `&cursor=` and the previous page's nextCursor (not an accumulated URL),
   * and the tokens are the concatenation of those k pages' results.
   */
  lemma {:induction false} PaginateFetches(base: string, url: string, pages: seq<Json>, seen: bool)
    requires Paginate(base, url, pages, seen).Ok?
    ensures var run := Paginate(base, url, pages, seen).value;
      var k := |run.urls|;
      && 1 <= k <= |pages|
      && run.urls[0] == url
      && (forall j :: 0 <= j < k ==> PageResults(pages[j]).Ok?)
      && run.tokens == Gathered(pages[..k])
      && (forall j :: 0 <= j < k - 1 ==>
            CursorText(pages[j]).Ok? && run.urls[j + 1] == base + "&cursor=" + CursorText(pages[j]).value)
    decreases |pages|
  {
    var run := Paginate(base, url, pages, seen).value;
    var page := pages[0];
    var results := PageResults(page).value;
    var gathered := seen || results != [];
    if !HasMore(page) || !gathered {
      assert pages[..1][1..] == [];
    } else {
      var next := base + "&cursor=" + CursorText(page).value;
      PaginateFetches(base, next, pages[1..], gathered);
      var rest := Paginate(base, next, pages[1..], gathered).value;
      var k := |run.urls|;
      assert run.urls == [url] + rest.urls;
      assert pages[..k][1..] == pages[1..][..k - 1];
      forall j | 0 <= j < k - 1
        ensures CursorText(pages[j]).Ok? && run.urls[j + 1] == base + "&cursor=" + CursorText(pages[j]).value
      {
        if j > 0 {
          assert pages[j] == pages[1..][j - 1];
        }
      }
    }
  }

  /**
   * Whether the loop goes on after page j: the page says hasMore and some
   * token has been gathered by then (before the pages, when `seen`).
   */
  predicate Continues(pages: seq<Json>, seen: bool, j: nat)
    requires j < |pages|
  {
    pages[j].JObj? && HasMore(pages[j]) && (seen || Gathered(pages[..j + 1]) != [])
  }

  /**
   * The stop rule: the loop went on after each fetched page but the last
   * because that page said hasMore AND some token had been gathered by then;
   * it stopped after the last because one of the two failed.  An empty page
   * therefore stops the search only when nothing was gathered before it.
   */
  lemma {:induction false} PaginateStopRule(base: string, url: string, pages: seq<Json>, seen: bool)
    requires Paginate(base, url, pages, seen).Ok?
    ensures var k := |Paginate(base, url, pages, seen).value.urls|;
      && 1 <= k <= |pages|
      && (forall j :: 0 <= j < k - 1 ==> Continues(pages, seen, j))
      && pages[k - 1].JObj?
      && !Continues(pages, seen, k - 1)
    decreases |pages|
  {
    var run := Paginate(base, url, pages, seen).value;
    var page := pages[0];
    var results := PageResults(page).value;
    var gathered := seen || results != [];
    GatheredFirst(pages);
    if !HasMore(page) || !gathered {
      assert run.urls == [url];
    } else {
      var next := base + "&cursor=" + CursorText(page).value;
      PaginateStopRule(base, next, pages[1..], gathered);
      var rest := Paginate(base, next, pages[1..], gathered).value;
      var k := |run.urls|;
      assert run.urls == [url] + rest.urls;
      assert Continues(pages, seen, 0);
      forall j | 1 <= j < k
        ensures pages[j] == pages[1..][j - 1]
        ensures Continues(pages, seen, j) == Continues(pages[1..], gathered, j - 1)
      {
        ContinuesShift(pages, seen, j);
      }
    }
  }

  /** The tokens of the first page alone. */
  lemma GatheredFirst(pages: seq<Json>)
    requires pages != [] && PageResults(pages[0]).Ok?
    ensures Gathered(pages[..1]) == PageResults(pages[0]).value
  {
    assert pages[..1][1..] == [];
  }

  /** Page j goes on from the start exactly when it goes on after the first page. */
  lemma ContinuesShift(pages: seq<Json>, seen: bool, j: nat)
    requires 1 <= j < |pages| && PageResults(pages[0]).Ok?
    ensures pages[j] == pages[1..][j - 1]
    ensures Continues(pages, seen, j) == Continues(pages[1..], seen || PageResults(pages[0]).value != [], j - 1)
  {
    GatheredPrefix(pages, j);
  }

  /** The tokens of the first j + 1 pages are those of the first page followed by those of the next j. */
  lemma GatheredPrefix(pages: seq<Json>, j: nat)
    requires j < |pages|
    ensures Gathered(pages[..j + 1])
         == (match PageResults(pages[0]) case Ok(items) => items case Err(_) => []) + Gathered(pages[1..][..j])
  {
    assert pages[..j + 1][1..] == pages[1..][..j];
  }

  /** The first page stops the search when it brings no token, whatever hasMore says. */
  lemma EmptyFirstPageStops(base: string, pages: seq<Json>)
    requires pages != [] && PageResults(pages[0]) == Ok([])
    ensures Paginate(base, base, pages, false) == Ok(SearchRun([base], []))
  {
  }

  /** A later empty page that says hasMore does not stop the search: the next page is requested. */
  lemma LaterEmptyPageContinues(base: string, url: string, pages: seq<Json>, cursor: string)
    requires pages != [] && PageResults(pages[0]) == Ok([]) && HasMore(pages[0])
    requires CursorText(pages[0]) == Ok(cursor)
    ensures Paginate(base, url, pages, true) == After([url], [], Paginate(base, base + "&cursor=" + cursor, pages[1..], true))
  {
    var r := Paginate(base, base + "&cursor=" + cursor, pages[1..], true);
    if r.Ok? {
      assert [] + r.value.tokens == r.value.tokens;
    }
  }

  /**
   * A server that always says hasMore, with one token on page 1 and none on
   * page 2: the search does not stop after page 2 but requests a third page.
   */
  lemma HasMoreForeverOutlastsEmptyPage(base: string)
    ensures var p1 := JObj(map["results" := JArr([JStr("t")]), "hasMore" := JBool(true), "nextCursor" := JStr("c1")]);
      var p2 := JObj(map["results" := JArr([]), "hasMore" := JBool(true), "nextCursor" := JStr("c2")]);
      Paginate(base, base, [p1, p2], false) == Err(PagesExhausted)
  {
    var p1 := JObj(map["results" := JArr([JStr("t")]), "hasMore" := JBool(true), "nextCursor" := JStr("c1")]);
    var p2 := JObj(map["results" := JArr([]), "hasMore" := JBool(true), "nextCursor" := JStr("c2")]);
    assert PageResults(p1) == Ok([JStr("t")]) && HasMore(p1) && CursorText(p1) == Ok("c1");
    assert PageResults(p2) == Ok([]) && HasMore(p2) && CursorText(p2) == Ok("c2");
    var second := base + "&cursor=" + "c1";
    assert [p2][1..] == [];
    assert Paginate(base, base + "&cursor=" + "c2", [], true) == Err(PagesExhausted);
    assert Paginate(base, second, [p2], true) == Err(PagesExhausted);
    assert [p1, p2][1..] == [p2];
  }

  /** What a run fetched, forgetting the URLs: the number of requests and the tokens. */
  function Fetched(r: Result<SearchRun, ApiError>): Result<(nat, seq<Json>), ApiError> {
    match r
    case Ok(run) => Ok((|run.urls|, run.tokens))
    case Err(e) => Err(e)
  }

  /**
   * For the same sequence of responses, the loop makes the same number of
   * requests and gathers the same tokens whatever URLs it starts from: its
   * stop decisions read only the response bodies.  (A real server answers
   * according to the URL; here the responses are a fixed input.)
   */
  lemma {:induction false} PaginateIgnoresUrls(b1: string, u1: string, b2: string, u2: string, pages: seq<Json>, seen: bool)
    ensures Fetched(Paginate(b1, u1, pages, seen)) == Fetched(Paginate(b2, u2, pages, seen))
    decreases |pages|
  {
    if pages != [] && PageResults(pages[0]).Ok? {
      var page := pages[0];
      var gathered := seen || PageResults(page).value != [];
      if HasMore(page) && gathered && CursorText(page).Ok? {
        var c := CursorText(page).value;
        PaginateIgnoresUrls(b1, b1 + "&cursor=" + c, b2, b2 + "&cursor=" + c, pages[1..], gathered);
      }
    }
  }

  /**
   * The all-results flag never limits fetching: for the same sequence of
   * responses, a search with it set or not makes the same number of
   * requests and gathers the same tokens; only the page size in the URLs
   * differs (a real server may answer a larger page size with fewer pages).
   */
  lemma SearchFlagDoesNotLimit(query: string, chainIds: seq<ChainId>, pageSize: int, context: SearchContext, pages: seq<Json>)
    ensures Fetched(SearchOutcome(query, chainIds, pageSize, context, true, pages))
         == Fetched(SearchOutcome(query, chainIds, pageSize, context, false, pages))
  {
    var t := SearchUrl(query, chainIds, pageSize, context, true);
    var f := SearchUrl(query, chainIds, pageSize, context, false);
    if t.Ok? {
      PaginateIgnoresUrls(t.value, t.value, f.value, f.value, pages, false);
    }
  }
}
