# phantom-api in Dafny

A model of the request-building and response-reducing core of phantom-api.
phantom-api is a Python client for the unofficial HTTP endpoints of the Phantom wallet service.
Each remote response is an input of the model:

- a `Response(status, body)` with a decoded JSON body;
- a finite sequence of pages for token search;
- a function from URL to response for the token, price and price-history lookups (the swap quote depends on the token lookup), so the model states which URL each one requests.

Each Python function then becomes a deterministic Dafny function or method.
The exceptions it lets escape become the error side of a `Result`.
The source's default arguments are Dafny default parameters (`search_token`, the trending listings, `learn`, `get_quotes`, `get_best_quote`, `get_history`); the response inputs (`server`, `resp`, `pages`) come first so that the source's parameters keep their order.

Modules, one per source file plus shared helpers:

- `Wrappers` (`wrappers.dfy`): `Option` and `Result`.
- `Remote` (`remote.dfy`): decoded JSON, responses, exceptions, Python truthiness, `dict.get`, and the non-200-gives-empty listing rule.
- `Text` (`text.dfy`): ASCII `lower()`, `str()` of integers and a parser for integer numerals (standing in for `float()` of a quote's buyAmount, and reading back the sell amount), `str.join` and `str.split`, and their round trips.
- `Core` (`core.dfy`): the chain registry and its wire strings, the enums and how they render, the SLIP-44 table and the address normaliser.
- `Query` (`query.dfy`): the repeated `chainIds[]=` filter of the listing URLs, and a reader that recovers a parameter's values from a query string.
- `Tokens` (`tokens.dfy`): the native-or-address lookup URLs, the soft-failure lookups, and `search_token`. `search_token` is an imperative loop proved equal to a recursive definition of its pagination.
- `Trending` (`trending.dfy`), `Learn` (`learn.dfy`): the listing endpoints.
- `Wallet` (`wallet.dfy`): the batched wallet payloads, the swap-quote payload and the best-quote reduction.

Behaviour worth knowing, as the code has it:

- **Search stop rule.** Search stops after a page whose `hasMore` is false, or while nothing has been gathered yet (tokens.py:59). So an empty page stops the search regardless of `hasMore` only when nothing has been gathered yet; a later empty page that says `hasMore` is followed by another request. `Tokens.HasMoreForeverOutlastsEmptyPage` shows a two-page server that runs out of pages instead of stopping.
- **Native lookup for Bitcoin.** Looking up Bitcoin's native asset raises no unsupported-chain error. The code puts the text of the returned `Exception` into the URL (`.../nativeToken/Chain not supported!`) and issues the request. The swap payload for it fails only when serialised.
- **Trending-tokens filter.** The trending-tokens URL lists every chain whatever filter the caller gives (trending.py:39). The model keeps this.
- **Token lookup on a 200.** `get_token` raises `KeyError` on a 200 response whose data has no "chain" key, including a body with no "data" at all. It does not return an empty result.
- **History pages.** `get_history` returns the first page only, whatever `all_results` says.

## Model

| member | source | states |
|---|---|---|
| Core.Wires | phantom_api/core.py:16-29 | each chain renders as its wire string, in order, one string per chain |
| Core.ChainFromWire | phantom_api/core.py:16-29 | a string decodes to chain c exactly when it is c's wire string |
| Core.WireInjective | phantom_api/core.py:16-23 | the six wire strings are pairwise distinct |
| Core.AllChainsComplete | phantom_api/core.py:16-23 | `list(ChainId)` holds every chain once, in declaration order |
| Core.SearchContextRendersName | phantom_api/core.py:48-50 | `str()` of a SearchContext is its `SearchContext.NAME` form, not its value "swapper"/"explore" |
| Core.Slip44 | phantom_api/core.py:88-94 | Bitcoin alone has no code; every other chain's code is a non-empty decimal numeral |
| Core.Slip44Injective | phantom_api/core.py:88-93 | distinct chains have distinct codes |
| Core.Slip44Text | phantom_api/core.py:94 | an f-string shows the code, or "Chain not supported!" for Bitcoin |
| Core.FormatAddress | phantom_api/core.py:96 | identity on Solana and Bitcoin; otherwise no uppercase letter remains; the length is kept and only A-Z change, each to its lowercase letter |
| Core.FormatAddressIdempotent | phantom_api/core.py:96 | normalising a normalised address changes nothing |
| Text.ParseNatToString | phantom_api/wallet.py:125 | the decimal rendering of a non-negative integer parses back to it |
| Text.ParseInt | phantom_api/wallet.py:194 | a numeral is read exactly when it is a non-empty digit string, optionally after one sign; its value is the digits' value, negated after "-" |
| Text.NatToStringOfDigits | phantom_api/wallet.py:125 | a digit string without a leading zero renders back from its value unchanged, the other direction of the round trip |
| Text.ParseIntToString | phantom_api/wallet.py:194 | the decimal rendering of any integer, sign included, parses back to it |
| Text.SplitJoin | phantom_api/tokens.py:38 | joining pieces that do not contain the separator and splitting again gives the pieces back |
| Remote.SoftListing | phantom_api/trending.py:45-51 | a non-200 status gives `[]`; a 200 gives the body's value under the key, `[]` when absent, and fails when the body is not an object |
| Query.ChainPairs | phantom_api/trending.py:81 | one `chainIds[]=<wire>` parameter per chain, in order |
| Query.ValuesOfChainPairs | phantom_api/trending.py:81-83 | reading `chainIds[]` from those parameters gives back the wire strings in order |
| Query.ChainFilterIsPairs | phantom_api/trending.py:81-83 | the `"&chainIds[]=".join(...)` rendering equals the `&`-join of one parameter per chain |
| Query.QueryLayout | phantom_api/trending.py:83 | a query of fixed parameters, the chain filter and more fixed parameters splits back into exactly those parameters, and its `chainIds[]` values are the chains' wire strings in order |
| Tokens.TokenRefInjective | phantom_api/tokens.py:83-86 | the part after the chain determines the address, and the native form never equals an address form |
| Tokens.LookupUrl | phantom_api/tokens.py:83-86 | `<service>/v1/<chain>/nativeToken/<slip44>` for the native sentinel, `<service>/v1/<chain>/address/<address>` otherwise; `get_token` uses service "tokens", `get_price` (tokens.py:117-120) service "price" |
| Tokens.PriceHistoryUrl | phantom_api/tokens.py:152-155 | `price-history/v1?token=<chain>/nativeToken:<slip44>` or `…/address:<address>`, then `&type=` and the timeframe's string |
| Tokens.LookupUrlInjective | phantom_api/tokens.py:83-86 | different (chain, address) arguments are looked up at different token or price URLs |
| Tokens.TokenPathInjective | phantom_api/tokens.py:83-86 | distinct (chain, address) pairs give distinct lookup paths |
| Tokens.TokenPathNativeForm | phantom_api/tokens.py:152-155 | the native form is used exactly for the `nativeToken` sentinel; for Bitcoin it carries the exception text |
| Tokens.GetToken | phantom_api/tokens.py:83-98 | requests the "tokens" `LookupUrl` of its arguments; `{}` on a non-200 status; on a 200 it succeeds exactly when "data" is an object holding "chain"; the result is that object without "chain" and with every other key unchanged |
| Tokens.GetPrice | phantom_api/tokens.py:117-129 | requests the "price" `LookupUrl` of its arguments; `{}` on a non-200 status, the decoded body otherwise |
| Tokens.GetPriceHistory | phantom_api/tokens.py:152-165 | requests `PriceHistoryUrl` of its arguments; `[]` on a non-200 status; otherwise "history", `[]` when absent; fails on a body that is not an object |
| Tokens.SearchUrl | phantom_api/tokens.py:30-45 | rejected exactly when the query is empty or the page size is outside [1,100], always as an invalid parameter; otherwise the search base followed by the query for the chosen chains (every chain by default) with page size 100 when every page is wanted and the caller's size otherwise |
| Tokens.SearchQueryParams | phantom_api/tokens.py:35-45 | a query without `&` splits back into query, chainIds, pageSize, searchContext, platform and searchTypes, and carries exactly one chainIds and one pageSize value |
| Tokens.SearchUrlPageSize | phantom_api/tokens.py:40-41 | with all results wanted, the URL is the one for page size 100, whatever size was asked for, and its pageSize parameter reads "100" |
| Tokens.SearchChainList | phantom_api/tokens.py:35-38 | the search URL carries one chainIds value, which splits on commas back into the chosen chains' wire strings, every chain in declaration order when none is given |
| Tokens.PageResults | phantom_api/tokens.py:56-57 | a page's results are read exactly when the page is an object whose "results" is a list or absent; they are that list, `[]` when absent; anything else is a type error |
| Tokens.Render | phantom_api/tokens.py:62 | a string cursor appears as itself, an integer as its decimal numeral (which parses back to it), a bool as "True"/"False", null as "None"; only list and object cursors are not rendered |
| Tokens.CursorText | phantom_api/tokens.py:62 | an object page without "nextCursor" is a KeyError; with it, the cursor as an f-string shows it, a string cursor as itself |
| Tokens.SearchDefaults | phantom_api/tokens.py:7 | called with the query alone, search builds the URL for every chain, page size 100 and the explore context |
| Tokens.SearchToken | phantom_api/tokens.py:30-64 | the loop returns exactly the validation error or the recursive pagination from the base URL |
| Tokens.FollowPages | phantom_api/tokens.py:46-64 | the request loop with its accumulator returns exactly the recursive pagination from the base URL |
| Tokens.PaginateUnfold | phantom_api/tokens.py:48-62 | one pass of the loop: the first page either ends the run with its results or leads to the request for its cursor |
| Tokens.PaginateFetches | phantom_api/tokens.py:56-62 | a finished search fetched k >= 1 pages; the first request is the base URL; each later request is the base URL plus `&cursor=` and the previous page's cursor; the tokens are the k pages' results concatenated in order |
| Tokens.PaginateStopRule | phantom_api/tokens.py:54-60 | the loop continued after each earlier page because it said hasMore and some token had been gathered; it stopped after the last because one of the two failed |
| Tokens.EmptyFirstPageStops | phantom_api/tokens.py:59-60 | an empty first page ends the search after one request, whatever hasMore says |
| Tokens.LaterEmptyPageContinues | phantom_api/tokens.py:59-62 | a later empty page that says hasMore leads to the next request |
| Tokens.HasMoreForeverOutlastsEmptyPage | phantom_api/tokens.py:59 | a server that always says hasMore, with a token on page 1 and none on page 2, is asked for a third page |
| Tokens.PaginateIgnoresUrls | phantom_api/tokens.py:48-62 | for the same sequence of responses, the loop makes the same number of requests and gathers the same tokens whatever URLs it requests: its stop decisions read only the response bodies |
| Tokens.SearchFlagDoesNotLimit | phantom_api/tokens.py:40-43 | for the same sequence of responses, a search with or without the all-results flag makes the same number of requests and gathers the same tokens; only the page size in the URLs differs |
| Core.ChosenChains | phantom_api/trending.py:36-37 | the caller's chains when given, the default otherwise |
| Trending.TrendingTokensUrl | phantom_api/trending.py:30-41 | rejected exactly when the limit is outside [1,100] |
| Trending.TrendingTokens | phantom_api/trending.py:7-51 | a limit error and no request, or the soft listing under "results" of the response to the trending-tokens URL (every chain); defaults day, rank, ascending, limit 100 |
| Trending.TrendingTokensIgnoresFilter | phantom_api/trending.py:36-41 | the URL is the same whatever chains the caller asks for |
| Trending.TrendingTokensQueryIsJoin | phantom_api/trending.py:39-41 | the query is the `&`-join of the four fixed parameters and one parameter per chain |
| Trending.TrendingTokensParams | phantom_api/trending.py:39-41 | the query splits into timeFrame, sortBy, sortDirection, limit and one `chainIds[]` per chain; its `chainIds[]` values are every chain in declaration order |
| Trending.TrendingDappsUrl | phantom_api/trending.py:73-83 | rejected exactly when the limit is outside [1,50]; otherwise the ranked query for the chosen chains, every chain by default |
| Trending.TrendingDapps | phantom_api/trending.py:53-93 | a limit error and no request, or the soft listing under "data" of the response to the dapps URL for the chosen chains; defaults limit 50, trending, day |
| Trending.TrendingCollectionsUrl | phantom_api/trending.py:115-125 | rejected exactly when the limit is outside [1,50]; otherwise the ranked query for the chosen chains, Solana, Ethereum, Polygon and Bitcoin by default |
| Trending.TrendingCollections | phantom_api/trending.py:95-135 | a limit error and no request, or the soft listing under "data" of the response to the collections URL for the chosen chains; defaults limit 50, trending, day |
| Trending.RankedQueryIsJoin | phantom_api/trending.py:81-83 | the ranked query is the `&`-join of its fixed head, one parameter per chain, and its fixed tail |
| Trending.RankedQueryParams | phantom_api/trending.py:123-125 | the ranked query splits into limit, rankBy, timeframe, one `chainIds[]` per chain, then rankAlgo, platform, locale and appVersion |
| Trending.TrendingDappsDefaultChains | phantom_api/trending.py:78-83 | the dApp URL's `chainIds[]` values are the caller's chains, or every chain in declaration order |
| Trending.TrendingCollectionsDefaultChains | phantom_api/trending.py:120-125 | the collection URL's `chainIds[]` values are the caller's chains, or Solana, Ethereum, Polygon, Bitcoin in that order |
| Learn.LearnListing | phantom_api/learn.py:7-35 | reads the response to `LearnUrl` of the chains; `[]` on a non-200 status, otherwise "data", `[]` when absent, a type error when the body is not an object: the shared soft-listing rule under "data" |
| Learn.LearnUrl | phantom_api/learn.py:20-25 | the learn URL is its base followed by the learn query for the caller's chains, or every chain when none are given |
| Learn.LearnParams | phantom_api/learn.py:20-25 | the query carries one `chainIds[]` per chain in order, every chain by default, followed by platform, locale and appVersion |
| Wallet.AccountOf | phantom_api/wallet.py:25 | a wallet's entry decodes to its own chain and holds its own address normalised for that chain, unchanged on case-sensitive chains |
| Wallet.Accounts | phantom_api/wallet.py:217 | one entry per wallet, in input order |
| Wallet.AccountsAppend | phantom_api/wallet.py:25 | the entry list of concatenated wallet lists is the concatenation of their entry lists |
| Wallet.AccountsDecode | phantom_api/wallet.py:217 | entry i names wallet i's chain and holds wallet i's address, normalised |
| Wallet.GetBalance | phantom_api/wallet.py:23-29 | posts to the tokens/v1 endpoint; the payload has one entry per wallet with its chain and normalised address; the result is the decoded body |
| Wallet.Holders | phantom_api/wallet.py:254 | one entry per wallet, in order, each with resourceType "address" |
| Wallet.GetPendingTransactions | phantom_api/wallet.py:252-258 | succeeds exactly when the body is an object with "transactions", and returns that value; a missing key is a KeyError; the post goes to the pending endpoint with one `resourceType: "address"` holder per wallet |
| Wallet.GetHistory | phantom_api/wallet.py:215-228 | succeeds exactly when the first response's "results" is a list, and returns exactly it; a missing key is a KeyError; the payload is every wallet's entry, in order, with isSpam false |
| Wallet.HistoryIgnoresFlag | phantom_api/wallet.py:223-228 | the all-results flag changes nothing: the loop returns during its first pass |
| Wallet.BaseUnits | phantom_api/wallet.py:125 | the base-unit amount is the floor of amount · 10^decimals, never rounded up |
| Wallet.WholeAmountIsExact | phantom_api/wallet.py:125 | a whole amount with non-negative decimals converts with nothing cut off |
| Wallet.ScaledAmountIsExact | phantom_api/wallet.py:125 | an amount with no more decimal places than the token's decimals converts exactly |
| Wallet.DecimalsOf | phantom_api/wallet.py:125 | `pow(10, decimals)` accepts an integer or a bool; anything else is a type error |
| Wallet.SellSpec | phantom_api/wallet.py:85-97 | the sell token is native, with the chain's code, exactly when the resolved token's "address" is not truthy; otherwise it carries that address |
| Wallet.SwapPayload | phantom_api/wallet.py:74-140 | errors in source order, each once the earlier checks pass (sell_amount <= 0, negative explicit slippage, the lookup's own error, non-native buy token, missing decimals, unusable decimals); the payload has the sell/buy framing, the normalised from-chain taker, exactOut false, autoSlippage as given, a tolerance exactly when not automatic, the sell amount as the shortest decimal numeral of the floored base units (`str(int(...))`), and the cross-chain fields exactly when the chains differ |
| Wallet.GetQuotes | phantom_api/wallet.py:142-144 | posts the payload when it serialises, and fails with a serialisation error exactly when a native descriptor carries Bitcoin's missing code |
| Wallet.BitcoinBuyIsNotSerializable | phantom_api/wallet.py:99-104 | a swap into Bitcoin's native asset never reaches the server |
| Wallet.SellAmountReadsBack | phantom_api/wallet.py:125 | a whole sell amount reads back from the payload as amount · 10^decimals |
| Wallet.BuyAmountOf | phantom_api/wallet.py:194 | a quote's key needs an object with "buyAmount" (KeyError otherwise); a number is used as is, a bool as 1 or 0, a string as the integer it parses to (an error when it does not), anything else is a type error |
| Wallet.BuyAmountTextOrNumber | phantom_api/wallet.py:194 | a quote whose amount is an integer's numeral gets the same key as one whose amount is that integer |
| Wallet.BuyAmounts | phantom_api/wallet.py:194 | succeeds exactly when every quote's key does, with one key per quote in order |
| Wallet.FirstMaxIndex | phantom_api/wallet.py:194 | `max` picks a position whose key is greatest and strictly greater than every earlier key |
| Wallet.FirstMaxIsUnique | phantom_api/wallet.py:194 | that position is the only one with both properties |
| Wallet.BestQuote | phantom_api/wallet.py:193-196 | an empty "quotes" leaves the response unchanged; a non-empty list becomes the singleton of its first best quote, and every other key is unchanged; a missing "quotes" is a KeyError |
| Wallet.BestQuoteIdempotent | phantom_api/wallet.py:193-196 | reducing an already reduced response changes nothing |
| Wallet.BestQuoteExample | phantom_api/wallet.py:193-196 | buy amounts "100", "250", "90" reduce to the quote with "250" |
| Wallet.GetBestQuote | phantom_api/wallet.py:181-196 | succeeds exactly when the quote request and its reduction do; it posts the same payload to the same URL and returns the reduced response |

## Left out


- Network and JSON decoding: every request is left out. Each response is an input, and token search is given a finite list of pages. `PagesExhausted` marks a search that asked for more pages than were supplied; the real server has no such limit.
- `PHANTOM_VERSION` (core.py:7) is scraped from a web page at import time. It is I/O, and the header that carries it is not modelled.
- Runtime `isinstance` and enum-membership assertions: Dafny's types enforce them. This includes the repeated `from_*` checks that leave `to_chain_id`, `to_token` and `to_taker` unchecked (wallet.py:70-72).
- Wallet.BaseUnits: exact rational arithmetic. A float `sell_amount * pow(10, decimals)` can round in binary, and `str()` can print it in scientific notation before the cut at ".". Amounts are `mantissa / 10^scale`, and decimals are integers or bools only.
- Wallet.BuyAmountOf: reads integer amounts only, from numbers, bools and signed ASCII integer numerals. Python's `float()` also accepts fractions, exponents, surrounding blanks, underscores between digits ("1_000"), non-ASCII Unicode digits, "inf" and "nan". It also rounds integers above 2^53, which can make distinct amounts compare equal.
- Core.FormatAddress: ASCII lowercasing only; Unicode `str.lower` is not modelled.
- Tokens.Render: lists and objects used as a cursor are not rendered. Python's `str()` of a float cursor is not modelled either, since JSON numbers here are integers.
- Tokens.PageResults: `extend` accepts any iterable. The model accepts a list only and treats a string or object "results" as a type error.
- Wallet.GetHistory: `extend` accepts any iterable. The model accepts a list "results" only and treats a string or object as a type error.
- Tokens.PaginateIgnoresUrls and Tokens.SearchFlagDoesNotLimit: responses are a fixed input, so these speak of the same sequence of responses. A real server answers according to the URL, and with page size 100 it may need fewer pages.
- The unreachable pagination code after `return history` (wallet.py:230-234) is not behaviour and is not modelled.
- phantom_api/quests.py is not part of this model. It makes one POST with a fixed payload, and its `format_address(*wallet_addresses)` cannot succeed for a non-empty list.
- The search query is interpolated into the URL unescaped; the encoding `requests` applies to it is not modelled.
- Tokens.SearchQueryParams, Tokens.SearchUrlPageSize and Tokens.SearchChainList: stated for queries without `&`. The query is interpolated unescaped, so a query holding `&` splits into extra parameters.
- The enum renderings other than SearchContext (`ChartTimeFrameStr`, `SortByStr`, etc.) are plain tables with no contract.
