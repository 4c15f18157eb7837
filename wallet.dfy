/**
 * Wallet operations: the batched per-wallet payloads of the balance,
 * history and pending-transaction requests, the swap-quote payload, and the
 * selection of the best quote.  Every response is an input; the token
 * lookup that the swap payload depends on is a function from URL to
 * response, so the model states which URL is looked up.
 */
module Wallet {
  import opened Wrappers
  import opened Remote
  import opened Core
  import Text
  import Tokens

  // ---- batched wallet payloads ----

  /** One `(ChainId, address)` pair as the caller passes it. */
  datatype Wallet = Wallet(chain: ChainId, address: string)

  /** A `{"chainId", "address"}` entry of a batched payload. */
  datatype Account = Account(chainId: string, address: string)

  /** A `{"chainId", "address", "resourceType"}` entry. */
  datatype Holder = Holder(chainId: string, address: string, resourceType: string)

  /** A POST the library makes: where to, what it sends, and what it returns. */
  datatype Post<P> = Post(url: string, payload: P, result: Json)

  /** The entry a wallet contributes: its chain's wire string and its normalised address. */
  function AccountOf(w: Wallet): (r: Account)
    ensures ChainFromWire(r.chainId) == Some(w.chain)
    ensures r.address == FormatAddress(w.chain, w.address)
    ensures FormatAddress(w.chain, r.address) == r.address
    ensures |r.address| == |w.address|
    ensures CaseSensitive(w.chain) ==> r.address == w.address
  {
    FormatAddressIdempotent(w.chain, w.address);
    Account(Wire(w.chain), FormatAddress(w.chain, w.address))
  }

  /** The `addresses`/`accounts` list: one entry per wallet, in input order. */
  function Accounts(ws: seq<Wallet>): (r: seq<Account>)
    ensures |r| == |ws|
    ensures forall i :: 0 <= i < |ws| ==> r[i] == AccountOf(ws[i])
  {
    if ws == [] then [] else [AccountOf(ws[0])] + Accounts(ws[1..])
  }

  /** The list is built wallet by wallet, so it distributes over concatenation. */
  lemma AccountsAppend(a: seq<Wallet>, b: seq<Wallet>)
    ensures Accounts(a + b) == Accounts(a) + Accounts(b)
  {
  }

  /**
   * Each entry names its wallet's own chain, so a payload entry can be read
   * back to its chain, and holds that wallet's own address, normalised.
   */
  lemma AccountsDecode(ws: seq<Wallet>, i: int)
    requires 0 <= i < |ws|
    ensures ChainFromWire(Accounts(ws)[i].chainId) == Some(ws[i].chain)
    ensures Accounts(ws)[i].address == FormatAddress(ws[i].chain, ws[i].address)
    ensures FormatAddress(ws[i].chain, Accounts(ws)[i].address) == Accounts(ws)[i].address
  {
  }

  /** The payload of `get_balance`. */
  datatype BalancePayload = BalancePayload(addresses: seq<Account>)

  /** The payload of `get_history`. */
  datatype HistoryPayload = HistoryPayload(accounts: seq<Account>, isSpam: bool)

  /** The payload of `get_pending_transactions`. */
  datatype PendingPayload = PendingPayload(addresses: seq<Holder>)

  const BalanceEndpoint: string := "https://api.phantom.app/tokens/v1"
  const HistoryEndpoint: string := "https://api.phantom.app/history/v2"
  const PendingEndpoint: string := "https://api.phantom.app/pending-transactions/v1"

  /** `get_balance`: posts one entry per wallet and returns the decoded body as it is. */
  function GetBalance(ws: seq<Wallet>, resp: Response): (r: Post<BalancePayload>)
    ensures r.url == BalanceEndpoint
    ensures |r.payload.addresses| == |ws|
    ensures forall i :: 0 <= i < |ws| ==>
      ChainFromWire(r.payload.addresses[i].chainId) == Some(ws[i].chain)
      && r.payload.addresses[i].address == FormatAddress(ws[i].chain, ws[i].address)
    ensures r.result == resp.body
  {
    Post(BalanceEndpoint, BalancePayload(Accounts(ws)), resp.body)
  }

  /** The `{"chainId", "address", "resourceType": "address"}` entries of the pending-transactions payload. */
  function Holders(ws: seq<Wallet>): (r: seq<Holder>)
    ensures |r| == |ws|
    ensures forall i :: 0 <= i < |ws| ==>
      Account(r[i].chainId, r[i].address) == AccountOf(ws[i]) && r[i].resourceType == "address"
  {
    if ws == [] then [] else [Holder(Wire(ws[0].chain), FormatAddress(ws[0].chain, ws[0].address), "address")] + Holders(ws[1..])
  }

  /**
   * `get_pending_transactions`: the decoded body's "transactions".  A body
   * without that key raises KeyError; a body that is not a JSON object
   * cannot be indexed by a string.
   */
  function GetPendingTransactions(ws: seq<Wallet>, resp: Response): (r: Result<Post<PendingPayload>, ApiError>)
    ensures r.Ok? <==> resp.body.JObj? && "transactions" in resp.body.fields
    ensures resp.body.JObj? && "transactions" !in resp.body.fields ==> r == Err(MissingKey("transactions"))
    ensures !resp.body.JObj? ==> r.Err? && r.error.WrongType?
    ensures r.Ok? ==> r.value.url == PendingEndpoint && r.value.result == resp.body.fields["transactions"]
    ensures r.Ok? ==> r.value.payload.addresses == Holders(ws)
  {
    if !resp.body.JObj? then Err(WrongType("response body is not a JSON object"))
    else if "transactions" !in resp.body.fields then Err(MissingKey("transactions"))
    else Ok(Post(PendingEndpoint, PendingPayload(Holders(ws)), resp.body.fields["transactions"]))
  }

  /**
   * `get_history`: posts one entry per wallet with `isSpam` false and
   * returns the first response's "results" (a list, which `extend` copies
   * into the empty accumulator).  The request loop returns during its first
   * pass, so `allResults` has no effect and no second page is requested.
   */
  function GetHistory(resp: Response, ws: seq<Wallet>, allResults: bool := true): (r: Result<Post<HistoryPayload>, ApiError>)
    ensures r.Ok? <==> resp.body.JObj? && "results" in resp.body.fields && resp.body.fields["results"].JArr?
    ensures resp.body.JObj? && "results" !in resp.body.fields ==> r == Err(MissingKey("results"))
    ensures r.Ok? ==> r.value.url == HistoryEndpoint && r.value.result == resp.body.fields["results"]
    ensures r.Ok? ==> r.value.payload == HistoryPayload(Accounts(ws), false)
    ensures !resp.body.JObj? ==> r.Err? && r.error.WrongType?
  {
    if !resp.body.JObj? then Err(WrongType("response body is not a JSON object"))
    else if "results" !in resp.body.fields then Err(MissingKey("results"))
    else
      match resp.body.fields["results"]
      case JArr(items) => Ok(Post(HistoryEndpoint, HistoryPayload(Accounts(ws), false), JArr(items)))
      case _ => Err(WrongType("results is not a list"))
  }

  /** The page flag of `get_history` changes nothing: one request, one page. */
  lemma HistoryIgnoresFlag(ws: seq<Wallet>, resp: Response)
    ensures GetHistory(resp, ws, true) == GetHistory(resp, ws, false)
  {
  }

  // ---- amounts ----

  /** `10^n`. */
  function Pow10(n: nat): (r: nat)
    ensures r >= 1
  {
    if n == 0 then 1 else 10 * Pow10(n - 1)
  }

  lemma {:induction false} Pow10Add(a: nat, b: nat)
    ensures Pow10(a + b) == Pow10(a) * Pow10(b)
    decreases a
  {
    if a > 0 {
      Pow10Add(a - 1, b);
    }
  }

  /**
   * A decimal amount the caller passes as `int` or `float`: the value
   * `mantissa / 10^scale`.  Every finite binary float has such a form.
   */
  datatype Amount = Amount(mantissa: int, scale: nat)

  /** The numerator of `amount · 10^decimals` over the denominator `BaseDenominator`. */
  function BaseNumerator(a: Amount, decimals: int): int {
    a.mantissa * Pow10(if decimals >= 0 then decimals else 0)
  }

  function BaseDenominator(a: Amount, decimals: int): nat {
    Pow10(a.scale + (if decimals < 0 then -decimals else 0))
  }

  /**
   * `str(sell_amount * pow(10, decimals)).split(".")[0]` read as a number:
   * the positive amount in base units, with the fraction cut off.  Cutting
   * the text at "." truncates, which for a positive amount is the floor.
   */
  function BaseUnits(a: Amount, decimals: int): (r: nat)
    requires a.mantissa > 0
    ensures r * BaseDenominator(a, decimals) <= BaseNumerator(a, decimals)
    ensures BaseNumerator(a, decimals) < (r + 1) * BaseDenominator(a, decimals)
  {
    var num, den := BaseNumerator(a, decimals), BaseDenominator(a, decimals);
    MulLe(0, a.mantissa, Pow10(if decimals >= 0 then decimals else 0));
    FloorDiv(num, den);
    num / den
  }

  /** Integer division by a positive number is the floor. */
  lemma FloorDiv(num: int, den: int)
    requires den > 0
    ensures (num / den) * den <= num < (num / den + 1) * den
    ensures num >= 0 ==> num / den >= 0
  {
    var q, m := num / den, num % den;
    assert num == q * den + m && 0 <= m < den;
    assert (q + 1) * den == q * den + den;
    if num >= 0 && q < 0 {
      MulLe(q + 1, 0, den);
    }
  }

  lemma MulLe(a: int, b: int, p: int)
    requires a <= b && p > 0
    ensures a * p <= b * p
  {
    assert b * p - a * p == (b - a) * p;
  }

  /** Dividing a multiple of `p` by `p` is exact. */
  lemma DivExact(e: int, p: int)
    requires p > 0
    ensures (e * p) / p == e
  {
    var q := (e * p) / p;
    FloorDiv(e * p, p);
    if q < e {
      MulLe(q + 1, e, p);
    } else if q > e {
      MulLe(e + 1, q, p);
    }
  }

  /** A whole amount and non-negative decimals convert exactly: nothing is cut off. */
  lemma WholeAmountIsExact(m: int, decimals: nat)
    requires m > 0
    ensures BaseUnits(Amount(m, 0), decimals) == m * Pow10(decimals)
  {
    var a := Amount(m, 0);
    var q := BaseUnits(a, decimals);
    assert BaseDenominator(a, decimals) == 1;
  }

  /** An amount that gains at least its own number of decimal places converts exactly. */
  lemma {:induction false} ScaledAmountIsExact(m: int, scale: nat, decimals: nat)
    requires m > 0 && scale <= decimals
    ensures BaseUnits(Amount(m, scale), decimals) == m * Pow10(decimals - scale)
  {
    var a := Amount(m, scale);
    var e := m * Pow10(decimals - scale);
    Pow10Add(scale, decimals - scale);
    assert BaseNumerator(a, decimals) == e * Pow10(scale);
    assert BaseDenominator(a, decimals) == Pow10(scale);
    DivExact(e, Pow10(scale));
  }

  /** `pow(10, decimals)` accepts an integer or a bool (True is 1); anything else is a TypeError. */
  function DecimalsOf(v: Json): (r: Result<int, ApiError>)
    ensures r.Ok? <==> v.JNum? || v.JBool?
    ensures v.JNum? ==> r == Ok(v.n)
    ensures v.JBool? ==> r == Ok(if v.b then 1 else 0)
  {
    match v
    case JNum(n) => Ok(n)
    case JBool(b) => Ok(if b then 1 else 0)
    case _ => Err(WrongType("unsupported operand type for pow"))
  }

  // ---- swap quotes ----

  /**
   * A token descriptor of the swap payload: the native form (resourceType
   * "nativeToken") carries the chain's SLIP-44 code (the Exception value for
   * Bitcoin, `None` here), the address form (resourceType "address") carries
   * the token's address as the lookup returned it.
   */
  datatype TokenSpec =
    | NativeSpec(chainId: string, slip44: Option<string>)
    | AddressSpec(chainId: string, address: Json)

  /** The fields a cross-chain swap adds. */
  datatype CrossChain = CrossChain(takerDestination: Holder, refuel: int, ignoreRefuelFailures: bool)

  /** The swap-quote payload. */
  datatype SwapRequest = SwapRequest(
    sellToken: TokenSpec,
    buyToken: TokenSpec,
    taker: Holder,
    exactOut: bool,
    sellAmount: string,
    autoSlippage: bool,
    slippageTolerance: Option<Amount>,
    crossChain: Option<CrossChain>)

  /** The payload's native descriptors all carry a code, so `json.dumps` succeeds. */
  predicate Serializable(p: SwapRequest) {
    (p.sellToken.NativeSpec? ==> p.sellToken.slip44.Some?) && (p.buyToken.NativeSpec? ==> p.buyToken.slip44.Some?)
  }

  const QuotesEndpoint: string := "https://api.phantom.app/swap/v2/quotes"

  /** The sell-token descriptor for a resolved token: native iff its "address" is not truthy. */
  function SellSpec(c: ChainId, token: map<string, Json>): (r: TokenSpec)
    ensures r.chainId == Wire(c)
    ensures r.NativeSpec? <==> !Truthy(GetOr(token, "address", JNull))
    ensures r.NativeSpec? ==> r.slip44 == Slip44(c)
    ensures r.AddressSpec? ==> "address" in token && r.address == token["address"] && Truthy(r.address)
  {
    if Truthy(GetOr(token, "address", JNull)) then AddressSpec(Wire(c), token["address"])
    else NativeSpec(Wire(c), Slip44(c))
  }

  /**
   * The payload `get_quotes` builds, with its failures in the order they
   * occur: argument validation, the token lookup (`server` answers the
   * lookup URL), a non-native buy token (indexing a string by "address"),
   * and the token's "decimals".
   */
  function SwapPayload(server: string -> Response,
                       fromChain: ChainId, fromToken: string, fromTaker: string,
                       toChain: ChainId, toToken: string, toTaker: string,
                       sellAmount: Amount, autoSlippage: bool := true, slippage: Amount := Amount(0, 0)): (r: Result<SwapRequest, ApiError>)
    ensures sellAmount.mantissa <= 0 ==> r == Err(InvalidParameter("sell_amount must be greater than 0."))
    ensures sellAmount.mantissa > 0 && !autoSlippage && slippage.mantissa < 0 ==>
      r == Err(InvalidParameter("slippage must be a positive value."))
    ensures var lookup := Tokens.GetToken(fromChain, fromToken, server);
      sellAmount.mantissa > 0 && (autoSlippage || slippage.mantissa >= 0) ==>
        && (lookup.Err? ==> r == Err(lookup.error))
        && (lookup.Ok? && toToken != NativeToken ==> r == Err(WrongType("string indices must be integers")))
        && (lookup.Ok? && toToken == NativeToken && "decimals" !in lookup.value ==> r == Err(MissingKey("decimals")))
        && (lookup.Ok? && toToken == NativeToken && "decimals" in lookup.value && DecimalsOf(lookup.value["decimals"]).Err? ==>
              r == Err(DecimalsOf(lookup.value["decimals"]).error))
    ensures var lookup := Tokens.GetToken(fromChain, fromToken, server);
      r.Ok? <==>
        && sellAmount.mantissa > 0
        && (autoSlippage || slippage.mantissa >= 0)
        && lookup.Ok?
        && toToken == NativeToken
        && "decimals" in lookup.value
        && DecimalsOf(lookup.value["decimals"]).Ok?
    ensures var lookup := Tokens.GetToken(fromChain, fromToken, server);
      r.Ok? ==>
        var token := lookup.value;
        var p := r.value;
        && p.sellToken == SellSpec(fromChain, token)
        && p.buyToken == NativeSpec(Wire(toChain), Slip44(toChain))
        && p.taker == Holder(Wire(fromChain), FormatAddress(fromChain, fromTaker), "address")
        && !p.exactOut
        && p.autoSlippage == autoSlippage
        && (p.slippageTolerance.Some? <==> !autoSlippage)
        && (p.slippageTolerance.Some? ==> p.slippageTolerance.value == slippage)
        && p.sellAmount == Text.NatToString(BaseUnits(sellAmount, DecimalsOf(token["decimals"]).value))
        && Text.ParseNat(p.sellAmount) == Some(BaseUnits(sellAmount, DecimalsOf(token["decimals"]).value))
    ensures r.Ok? ==> (r.value.crossChain.Some? <==> fromChain != toChain)
    ensures r.Ok? && r.value.crossChain.Some? ==>
      r.value.crossChain.value == CrossChain(Holder(Wire(toChain), FormatAddress(toChain, toTaker), "address"), 1, true)
  {
    if sellAmount.mantissa <= 0 then Err(InvalidParameter("sell_amount must be greater than 0."))
    else if !autoSlippage && slippage.mantissa < 0 then Err(InvalidParameter("slippage must be a positive value."))
    else
      var token :- Tokens.GetToken(fromChain, fromToken, server);
      var sell := SellSpec(fromChain, token);
      if toToken != NativeToken then Err(WrongType("string indices must be integers"))
      else
        var buy := NativeSpec(Wire(toChain), Slip44(toChain));
        if "decimals" !in token then Err(MissingKey("decimals"))
        else
          var decimals :- DecimalsOf(token["decimals"]);
          var units := BaseUnits(sellAmount, decimals);
          Text.ParseNatToString(units);
          Ok(SwapRequest(
            sell,
            buy,
            Holder(Wire(fromChain), FormatAddress(fromChain, fromTaker), "address"),
            false,
            Text.NatToString(units),
            autoSlippage,
            if autoSlippage then None else Some(slippage),
            if fromChain != toChain
            then Some(CrossChain(Holder(Wire(toChain), FormatAddress(toChain, toTaker), "address"), 1, true))
            else None))
  }

  /**
   * `get_quotes`: builds the payload, serialises it (which fails when a
   * native descriptor holds Bitcoin's missing code) and returns the decoded
   * quote response.
   */
  function GetQuotes(server: string -> Response, quoteResp: Response,
                     fromChain: ChainId, fromToken: string, fromTaker: string,
                     toChain: ChainId, toToken: string, toTaker: string,
                     sellAmount: Amount, autoSlippage: bool := true, slippage: Amount := Amount(0, 0)): (r: Result<Post<SwapRequest>, ApiError>)
    ensures var p := SwapPayload(server, fromChain, fromToken, fromTaker, toChain, toToken, toTaker, sellAmount, autoSlippage, slippage);
      && (r.Ok? <==> p.Ok? && Serializable(p.value))
      && (p.Ok? && !Serializable(p.value) ==> r == Err(NotSerializable))
      && (p.Err? ==> r == Err(p.error))
      && (r.Ok? ==> r.value.url == QuotesEndpoint && r.value.payload == p.value && r.value.result == quoteResp.body)
  {
    var payload :- SwapPayload(server, fromChain, fromToken, fromTaker, toChain, toToken, toTaker, sellAmount, autoSlippage, slippage);
    if !Serializable(payload) then Err(NotSerializable)
    else Ok(Post(QuotesEndpoint, payload, quoteResp.body))
  }

  /** A swap into Bitcoin's native asset never reaches the server: its code cannot be serialised. */
  lemma BitcoinBuyIsNotSerializable(fromChain: ChainId, fromToken: string, fromTaker: string, toTaker: string,
                                    sellAmount: Amount, autoSlippage: bool, slippage: Amount,
                                    server: string -> Response, quoteResp: Response)
    requires SwapPayload(server, fromChain, fromToken, fromTaker, Bitcoin, NativeToken, toTaker, sellAmount, autoSlippage, slippage).Ok?
    ensures GetQuotes(server, quoteResp, fromChain, fromToken, fromTaker, Bitcoin, NativeToken, toTaker, sellAmount, autoSlippage, slippage)
         == Err(NotSerializable)
  {
  }

  /** The sell amount in the payload is `NatToString` of the base units, so it reads back exactly. */
  lemma SellAmountReadsBack(fromChain: ChainId, fromToken: string, fromTaker: string,
                            toChain: ChainId, toToken: string, toTaker: string,
                            m: int, decimals: nat, autoSlippage: bool, slippage: Amount,
                            server: string -> Response)
    requires m > 0
    requires var p := SwapPayload(server, fromChain, fromToken, fromTaker, toChain, toToken, toTaker, Amount(m, 0), autoSlippage, slippage);
      p.Ok? && DecimalsOf(Tokens.GetToken(fromChain, fromToken, server).value["decimals"]) == Ok(decimals)
    ensures Text.ParseNat(SwapPayload(server, fromChain, fromToken, fromTaker, toChain, toToken, toTaker, Amount(m, 0), autoSlippage, slippage).value.sellAmount)
         == Some(m * Pow10(decimals))
  {
    WholeAmountIsExact(m, decimals);
  }

  // ---- best quote ----

  /**
   * `float(quote["buyAmount"])` for a quote, read as an integer: a number,
   * a bool, or an integer numeral with an optional sign.
   */
  function BuyAmountOf(q: Json): (r: Result<int, ApiError>)
    ensures r.Ok? ==> q.JObj? && "buyAmount" in q.fields
    ensures q.JObj? && "buyAmount" !in q.fields ==> r == Err(MissingKey("buyAmount"))
    ensures q.JObj? && "buyAmount" in q.fields ==>
      var v := q.fields["buyAmount"];
      && (v.JNum? ==> r == Ok(v.n))
      && (v.JBool? ==> r == Ok(if v.b then 1 else 0))
      && (v.JStr? && Text.ParseInt(v.s).Some? ==> r == Ok(Text.ParseInt(v.s).value))
      && (v.JStr? && Text.ParseInt(v.s).None? ==> r == Err(BadNumber(v.s)))
      && (v.JNull? || v.JArr? || v.JObj? ==> r.Err? && r.error.WrongType?)
  {
    if !q.JObj? then Err(WrongType("quote is not a JSON object"))
    else if "buyAmount" !in q.fields then Err(MissingKey("buyAmount"))
    else
      match q.fields["buyAmount"]
      case JNum(n) => Ok(n)
      case JBool(b) => Ok(if b then 1 else 0)
      case JStr(s) =>
        (match Text.ParseInt(s)
         case Some(n) => Ok(n)
         case None => Err(BadNumber(s)))
      case _ => Err(WrongType("float() argument must be a string or a real number"))
  }

  /** A quote whose amount is the numeral of n ranks exactly as one whose amount is the number n. */
  lemma BuyAmountTextOrNumber(n: int)
    ensures BuyAmountOf(JObj(map["buyAmount" := JStr(Text.IntToString(n))])) == Ok(n)
    ensures BuyAmountOf(JObj(map["buyAmount" := JNum(n)])) == Ok(n)
  {
    Text.ParseIntToString(n);
  }

  /** A quote whose amount is the numeral `text` of n has key n. */
  lemma BuyAmountNumeral(q: Json, text: string, n: int)
    requires text == Text.IntToString(n) && q == JObj(map["buyAmount" := JStr(text)])
    ensures BuyAmountOf(q) == Ok(n)
  {
    BuyAmountTextOrNumber(n);
  }

  /** The key of every quote, in order; the first quote whose key fails decides the error. */
  function BuyAmounts(qs: seq<Json>): (r: Result<seq<int>, ApiError>)
    ensures r.Ok? <==> forall i :: 0 <= i < |qs| ==> BuyAmountOf(qs[i]).Ok?
    ensures r.Ok? ==> |r.value| == |qs| && forall i :: 0 <= i < |qs| ==> r.value[i] == BuyAmountOf(qs[i]).value
    decreases |qs|
  {
    if qs == [] then Ok([])
    else
      var k :- BuyAmountOf(qs[0]);
      var ks :- BuyAmounts(qs[1..]);
      assert forall i :: 1 <= i < |qs| ==> qs[i] == qs[1..][i - 1];
      Ok([k] + ks)
  }

  /**
   * The position `max` picks: a maximal key, and the first one, since `max`
   * keeps its current choice unless a later key is strictly greater.
   */
  function FirstMaxIndex(ks: seq<int>): (r: nat)
    requires ks != []
    ensures r < |ks|
    ensures forall i :: 0 <= i < |ks| ==> ks[i] <= ks[r]
    ensures forall i :: 0 <= i < r ==> ks[i] < ks[r]
    decreases |ks|
  {
    if |ks| == 1 then 0
    else
      var k := FirstMaxIndex(ks[..|ks| - 1]);
      if ks[|ks| - 1] > ks[k] then |ks| - 1 else k
  }

  /** The first maximal position is the only position that is maximal and beats everything before it. */
  lemma FirstMaxIsUnique(ks: seq<int>, j: int)
    requires 0 <= j < |ks|
    requires forall i :: 0 <= i < |ks| ==> ks[i] <= ks[j]
    requires forall i :: 0 <= i < j ==> ks[i] < ks[j]
    ensures j == FirstMaxIndex(ks)
  {
    var k := FirstMaxIndex(ks);
    assert ks[k] <= ks[j] && ks[j] <= ks[k];
  }

  /** A quote list `len()` reads as empty leaves the response as it is. */
  predicate EmptyQuotes(v: Json) {
    v == JArr([]) || v == JStr("") || v == JObj(map[])
  }

  /**
   * `get_best_quote`'s reduction of the decoded quote response: an empty
   * "quotes" leaves it unchanged; a non-empty list becomes the singleton of
   * its first quote with the greatest buy amount; nothing else changes.
   */
  function BestQuote(body: Json): (r: Result<Json, ApiError>)
    ensures r.Ok? ==> body.JObj? && "quotes" in body.fields
    ensures body.JObj? && "quotes" !in body.fields ==> r == Err(MissingKey("quotes"))
    ensures body.JObj? && "quotes" in body.fields && EmptyQuotes(body.fields["quotes"]) ==> r == Ok(body)
    ensures body.JObj? && "quotes" in body.fields && body.fields["quotes"].JArr? && body.fields["quotes"].items != [] ==>
      var qs := body.fields["quotes"].items;
      && (r.Ok? <==> BuyAmounts(qs).Ok?)
      && (r.Ok? ==>
            var ks := BuyAmounts(qs).value;
            var best := FirstMaxIndex(ks);
            && r.value.JObj?
            && r.value.fields.Keys == body.fields.Keys
            && (forall k :: k in body.fields && k != "quotes" ==> r.value.fields[k] == body.fields[k])
            && r.value.fields["quotes"] == JArr([qs[best]])
            && (forall i :: 0 <= i < |qs| ==> BuyAmountOf(qs[i]).value <= BuyAmountOf(qs[best]).value)
            && (forall i :: 0 <= i < best ==> BuyAmountOf(qs[i]).value < BuyAmountOf(qs[best]).value))
    ensures body.JObj? && "quotes" in body.fields && !body.fields["quotes"].JArr? && !EmptyQuotes(body.fields["quotes"]) ==> r.Err?
  {
    if !body.JObj? then Err(WrongType("response body is not a JSON object"))
    else if "quotes" !in body.fields then Err(MissingKey("quotes"))
    else
      var quotes := body.fields["quotes"];
      if EmptyQuotes(quotes) then Ok(body)
      else
        match quotes
        case JArr(qs) =>
          var ks :- BuyAmounts(qs);
          Ok(JObj(body.fields["quotes" := JArr([qs[FirstMaxIndex(ks)]])]))
        case JStr(_) => Err(WrongType("string indices must be integers"))
        case JObj(_) => Err(WrongType("string indices must be integers"))
        case _ => Err(WrongType("object has no len()"))
  }

  /** Reducing twice changes nothing more: the singleton's only quote is its own best. */
  lemma BestQuoteIdempotent(body: Json)
    requires BestQuote(body).Ok?
    ensures BestQuote(BestQuote(body).value) == BestQuote(body)
  {
    var quotes := body.fields["quotes"];
    if !EmptyQuotes(quotes) && quotes.JArr? {
      var qs := quotes.items;
      var r := BestQuote(body).value;
      var q := qs[FirstMaxIndex(BuyAmounts(qs).value)];
      assert r.fields["quotes"] == JArr([q]);
      assert BuyAmountOf(q).Ok?;
      assert BuyAmounts([q]).Ok?;
      assert BuyAmounts([q]).value == [BuyAmountOf(q).value];
      assert r.fields["quotes" := JArr([q])] == r.fields;
    }
  }

  /** Quotes with buy amounts "100", "250" and "90" reduce to the one with "250". */
  lemma BestQuoteExample()
    ensures var q100 := JObj(map["buyAmount" := JStr("100")]);
      var q250 := JObj(map["buyAmount" := JStr("250")]);
      var q90 := JObj(map["buyAmount" := JStr("90")]);
      BestQuote(JObj(map["quotes" := JArr([q100, q250, q90])])) == Ok(JObj(map["quotes" := JArr([q250])]))
  {
    var q100 := JObj(map["buyAmount" := JStr("100")]);
    var q250 := JObj(map["buyAmount" := JStr("250")]);
    var q90 := JObj(map["buyAmount" := JStr("90")]);
    var qs := [q100, q250, q90];
    ExampleAmounts(q100, q250, q90);
    FirstMaxIsUnique([100, 250, 90], 1);
    var body := JObj(map["quotes" := JArr(qs)]);
    assert body.fields["quotes" := JArr([q250])] == map["quotes" := JArr([q250])];
  }

  /** The keys of the three example quotes. */
  lemma ExampleAmounts(q100: Json, q250: Json, q90: Json)
    requires q100 == JObj(map["buyAmount" := JStr("100")])
    requires q250 == JObj(map["buyAmount" := JStr("250")])
    requires q90 == JObj(map["buyAmount" := JStr("90")])
    ensures BuyAmounts([q100, q250, q90]) == Ok([100, 250, 90])
  {
    Text.Numeral100();
    Text.Numeral250();
    Text.Numeral90();
    BuyAmountNumeral(q100, "100", 100);
    BuyAmountNumeral(q250, "250", 250);
    BuyAmountNumeral(q90, "90", 90);
    var qs := [q100, q250, q90];
    assert forall i :: 0 <= i < |qs| ==> BuyAmountOf(qs[i]).Ok?;
    var ks := BuyAmounts(qs).value;
    assert ks[0] == 100 && ks[1] == 250 && ks[2] == 90;
    assert ks == [100, 250, 90];
  }

  /** `get_best_quote`: the quote request, with its response reduced to the best quote. */
  function GetBestQuote(server: string -> Response, quoteResp: Response,
                        fromChain: ChainId, fromToken: string, fromTaker: string,
                        toChain: ChainId, toToken: string, toTaker: string,
                        sellAmount: Amount, autoSlippage: bool := true, slippage: Amount := Amount(0, 0)): (r: Result<Post<SwapRequest>, ApiError>)
    ensures var q := GetQuotes(server, quoteResp, fromChain, fromToken, fromTaker, toChain, toToken, toTaker, sellAmount, autoSlippage, slippage);
      && (r.Ok? <==> q.Ok? && BestQuote(q.value.result).Ok?)
      && (r.Ok? ==> r.value.url == q.value.url && r.value.payload == q.value.payload
                    && r.value.result == BestQuote(q.value.result).value)
  {
    var post :- GetQuotes(server, quoteResp, fromChain, fromToken, fromTaker, toChain, toToken, toTaker, sellAmount, autoSlippage, slippage);
    var best :- BestQuote(post.result);
    Ok(Post(post.url, post.payload, best))
  }
}
