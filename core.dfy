/**
 * The chain registry: the closed set of chains and their wire strings, the
 * other enumerations and how they render, the partial native-asset code table
 * and the address normaliser.
 */
module Core {
  import opened Wrappers
  import Text

  /** The sentinel a caller passes instead of an address to mean "the chain's native asset". */
  const NativeToken: string := "nativeToken"

  /** Supported chains, in declaration order. */
  datatype ChainId = Solana | Ethereum | Polygon | Sui | Base | Bitcoin

  /** `str(chain)`: the chain's wire string (namespace:reference). */
  function Wire(c: ChainId): string {
    match c
    case Solana => "solana:101"
    case Ethereum => "eip155:1"
    case Polygon => "eip155:137"
    case Sui => "sui:mainnet"
    case Base => "eip155:8453"
    case Bitcoin => "bip122:000000000019d6689c085ae165831e93"
  }

  /** `list(ChainId)`: every chain, in declaration order. */
  const AllChains: seq<ChainId> := [Solana, Ethereum, Polygon, Sui, Base, Bitcoin]

  function Wires(cs: seq<ChainId>): (r: seq<string>)
    ensures |r| == |cs|
    ensures forall i :: 0 <= i < |cs| ==> r[i] == Wire(cs[i])
  {
    if cs == [] then [] else [Wire(cs[0])] + Wires(cs[1..])
  }

  /** `ChainId(s)`: the chain whose wire string is `s`, if any. */
  function ChainFromWire(s: string): (r: Option<ChainId>)
    ensures forall c :: r == Some(c) <==> Wire(c) == s
  {
    if s == "solana:101" then Some(Solana)
    else if s == "eip155:1" then Some(Ethereum)
    else if s == "eip155:137" then Some(Polygon)
    else if s == "sui:mainnet" then Some(Sui)
    else if s == "eip155:8453" then Some(Base)
    else if s == "bip122:000000000019d6689c085ae165831e93" then Some(Bitcoin)
    else None
  }

  /** The chains a listing asks for: the caller's, or `fallback` when the caller gave none. */
  function ChosenChains(chainIds: seq<ChainId>, fallback: seq<ChainId>): (r: seq<ChainId>)
    ensures chainIds != [] ==> r == chainIds
    ensures chainIds == [] ==> r == fallback
  {
    if chainIds == [] then fallback else chainIds
  }

  /** The six wire strings are pairwise distinct. */
  lemma WireInjective(c: ChainId, d: ChainId)
    ensures Wire(c) == Wire(d) ==> c == d
  {
    assert ChainFromWire(Wire(c)) == Some(c);
  }

  /** AllChains lists each chain exactly once. */
  lemma AllChainsComplete()
    ensures forall c :: c in AllChains
    ensures forall i, j :: 0 <= i < j < |AllChains| ==> AllChains[i] != AllChains[j]
  {
    forall c: ChainId ensures c in AllChains {
      match c
      case Solana => assert AllChains[0] == c;
      case Ethereum => assert AllChains[1] == c;
      case Polygon => assert AllChains[2] == c;
      case Sui => assert AllChains[3] == c;
      case Base => assert AllChains[4] == c;
      case Bitcoin => assert AllChains[5] == c;
    }
  }

  datatype ChartTimeFrame = ChartDay | ChartWeek | ChartMonth | ChartYear | ChartAll

  function ChartTimeFrameStr(t: ChartTimeFrame): string {
    match t
    case ChartDay => "1D"
    case ChartWeek => "1W"
    case ChartMonth => "1M"
    case ChartYear => "YTD"
    case ChartAll => "ALL"
  }

  datatype RankBy = Top | Trending

  function RankByStr(r: RankBy): string {
    match r
    case Top => "top"
    case Trending => "trending"
  }

  datatype SearchContext = Swapper | Explore

  /** The member's value; the Python enum has it but `str()` never yields it. */
  function SearchContextValue(c: SearchContext): string {
    match c
    case Swapper => "swapper"
    case Explore => "explore"
  }

  /**
   * `str(context)`: SearchContext defines no `__str__`, so Enum's default
   * `ClassName.MEMBER` form is what reaches the search URL.
   */
  function SearchContextStr(c: SearchContext): string {
    match c
    case Swapper => "SearchContext.SWAPPER"
    case Explore => "SearchContext.EXPLORE"
  }

  /** Unlike every other enumeration, SearchContext does not render as its value. */
  lemma SearchContextRendersName(c: SearchContext)
    ensures SearchContextStr(c) != SearchContextValue(c)
    ensures SearchContextStr(c) == "SearchContext." + (if c == Swapper then "SWAPPER" else "EXPLORE")
  {
  }

  datatype SortBy = Volume | MarketCap | PriceChange | Price | Rank

  function SortByStr(s: SortBy): string {
    match s
    case Volume => "volume"
    case MarketCap => "market-cap"
    case PriceChange => "price-change"
    case Price => "price"
    case Rank => "rank"
  }

  datatype SortDirection = Desc | Asc

  function SortDirectionStr(d: SortDirection): string {
    match d
    case Desc => "desc"
    case Asc => "asc"
  }

  datatype TimeFrame = Day | Week | Month

  function TimeFrameStr(t: TimeFrame): string {
    match t
    case Day => "24h"
    case Week => "7d"
    case Month => "30d"
  }

  datatype TokenTimeFrame = TokenHour | TokenDay | TokenWeek | TokenMonth | TokenHalfYear | TokenYear

  function TokenTimeFrameStr(t: TokenTimeFrame): string {
    match t
    case TokenHour => "1h"
    case TokenDay => "24h"
    case TokenWeek => "7d"
    case TokenMonth => "30d"
    case TokenHalfYear => "6mo"
    case TokenYear => "1y"
  }

  /**
   * `get_slip44(chain)`: the chain's SLIP-44 native-asset code.  Bitcoin has
   * no entry, and the lookup then RETURNS an Exception object instead of a
   * code: that case is `None` here.
   */
  function Slip44(c: ChainId): (r: Option<string>)
    ensures r.None? <==> c == Bitcoin
    ensures r.Some? ==> r.value != "" && Text.AllDigits(r.value)
  {
    match c
    case Solana => Some("501")
    case Ethereum => Some("60")
    case Base => Some("8453")
    case Polygon => Some("966")
    case Sui => Some("784")
    case Bitcoin => None
  }

  /** The table maps distinct chains to distinct codes. */
  lemma Slip44Injective(c: ChainId, d: ChainId)
    requires Slip44(c).Some? && Slip44(c) == Slip44(d)
    ensures c == d
  {
  }

  /** What an f-string shows for `get_slip44(chain)`: the code, or the exception's message. */
  function Slip44Text(c: ChainId): (r: string)
    ensures Slip44(c).Some? ==> r == Slip44(c).value
    ensures Slip44(c).None? ==> r == "Chain not supported!"
  {
    match Slip44(c)
    case Some(code) => code
    case None => "Chain not supported!"
  }

  /** Solana and Bitcoin addresses are case-sensitive; the normaliser leaves them alone. */
  predicate CaseSensitive(c: ChainId) {
    c == Solana || c == Bitcoin
  }

  /** `format_address(chain, address)`. */
  function FormatAddress(c: ChainId, address: string): (r: string)
    ensures CaseSensitive(c) ==> r == address
    ensures |r| == |address|
    ensures !CaseSensitive(c) ==> forall i :: 0 <= i < |r| ==> !Text.IsUpper(r[i])
    ensures forall i :: 0 <= i < |r| ==> r[i] == address[i] || (Text.IsUpper(address[i]) && r[i] == (address[i] as int + 32) as char)
  {
    if CaseSensitive(c) then address else Text.ToLower(address)
  }

  /** Normalising an already normalised address changes nothing. */
  lemma FormatAddressIdempotent(c: ChainId, address: string)
    ensures FormatAddress(c, FormatAddress(c, address)) == FormatAddress(c, address)
  {
    if !CaseSensitive(c) {
      Text.ToLowerIdempotent(address);
    }
  }
}
