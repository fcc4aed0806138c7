/**
 * Token metadata resolution (`getTokenInfo`) as a function of the cache, the
 * clock reading and the price provider's answer. The provider is not called
 * here: its answer for this chain's platform and this token is a parameter,
 * `None` when the request fails.
 */
module Tokens {
  import opened Wrappers
  import opened Text
  import opened Config

  /** An entry younger than five minutes is served from the cache. */
  const FreshnessMs: int := 5 * 60 * 1000
  const DefaultDecimals: nat := 18

  /**
   * What `getTokenInfo` returns: the upper-cased symbol, the decimal places,
   * the USD price and the time it was resolved. The failure placeholder has
   * no timestamp.
   */
  datatype TokenInfo = TokenInfo(symbol: string, decimals: nat, price: real, timestamp: Option<int>)

  /** `tokenCache`: token address to the info resolved for it. */
  type Cache = map<string, TokenInfo>

  /**
   * The provider's answer: `symbol` (absent or not a string makes
   * `toUpperCase` throw), `detail_platforms[platform].decimal_place` per
   * platform (absent, null or 0 are all falsy), `market_data.current_price.usd`.
   */
  datatype Response = Response(symbol: Option<string>, decimalPlaces: map<string, nat>, usdPrice: Option<real>)

  /** The value returned when the lookup fails. */
  const Placeholder: TokenInfo := TokenInfo("UNKNOWN", 18, 0.0, None)

  /** What `getTokenInfo` returns together with the cache it leaves behind. */
  datatype Lookup = Lookup(info: TokenInfo, cache: Cache)

  /** An info that `getTokenInfo` may store: stamped, with non-zero decimals and an upper-cased symbol. */
  predicate Stored(info: TokenInfo) {
    info.timestamp.Some? && info.decimals > 0 && NoLowerAscii(info.symbol)
  }

  /** Every cache entry was produced by a successful lookup. */
  predicate CacheValid(c: Cache) {
    forall a :: a in c ==> Stored(c[a])
  }

  /** The cached entry for `addr` exists and is less than five minutes old at `now`. */
  predicate IsFresh(c: Cache, addr: string, now: int) {
    addr in c && c[addr].timestamp.Some? && now - c[addr].timestamp.value < FreshnessMs
  }

  /** `decimal_place || 18`: the provider's decimal places for `platform`, unless absent or 0. */
  function DecimalsFor(resp: Response, platform: string): (d: nat)
    ensures d > 0
    ensures (platform !in resp.decimalPlaces || resp.decimalPlaces[platform] == 0) ==> d == DefaultDecimals
    ensures platform in resp.decimalPlaces && resp.decimalPlaces[platform] != 0 ==> d == resp.decimalPlaces[platform]
  {
    if platform in resp.decimalPlaces && resp.decimalPlaces[platform] != 0
    then resp.decimalPlaces[platform]
    else DefaultDecimals
  }

  /** `usd || 0`: the USD price, 0 when absent. */
  function PriceOf(resp: Response): (p: real)
    ensures resp.usdPrice.None? ==> p == 0.0
    ensures resp.usdPrice.Some? ==> p == resp.usdPrice.value
  {
    resp.usdPrice.GetOr(0.0)
  }

  /** The info built from a provider answer at time `now`; `None` when the symbol is missing (the lookup throws). */
  function Normalise(resp: Response, platform: string, now: int): (r: Option<TokenInfo>)
    ensures r.Some? <==> resp.symbol.Some?
    ensures r.Some? ==> Stored(r.value) && r.value.timestamp == Some(now)
    ensures r.Some? ==> |r.value.symbol| == |resp.symbol.value|
  {
    match resp.symbol
    case None => None
    case Some(sym) => Some(TokenInfo(ToUpper(sym), DecimalsFor(resp, platform), PriceOf(resp), Some(now)))
  }

  /**
   * `getTokenInfo(addr, chainName)` at time `now`, with the provider answering
   * `fetched`: a fresh entry is returned as is; otherwise a successful answer
   * is normalised, stored under `addr` and returned; a failure returns the
   * placeholder and leaves the cache alone.
   */
  function Resolve(c: Cache, addr: string, chainName: string, now: int, fetched: Option<Response>): (r: Lookup)
    ensures forall a :: a in c && a != addr ==> a in r.cache && r.cache[a] == c[a]
    ensures r.cache.Keys == c.Keys || r.cache.Keys == c.Keys + {addr}
    ensures r.cache != c ==> addr in r.cache && r.cache[addr] == r.info && Stored(r.info) && r.info.timestamp == Some(now)
    ensures r.info.timestamp.None? ==> r.info == Placeholder || (addr in c && r.info == c[addr])
    ensures CacheValid(c) ==> CacheValid(r.cache) && r.info.decimals > 0
  {
    if IsFresh(c, addr, now) then Lookup(c[addr], c)
    else
      var platform := PlatformId(chainName);
      match fetched
      case None => Lookup(Placeholder, c)
      case Some(resp) =>
        match Normalise(resp, platform, now)
        case None => Lookup(Placeholder, c)
        case Some(info) => Lookup(info, c[addr := info])
  }

  /** A fresh entry is returned unchanged, the cache is untouched, and the provider's answer is never looked at. */
  lemma FreshEntryServed(c: Cache, addr: string, chainName: string, now: int, fetched: Option<Response>)
    requires IsFresh(c, addr, now)
    ensures Resolve(c, addr, chainName, now, fetched) == Lookup(c[addr], c)
  {
  }

  /** On a failed lookup the placeholder {UNKNOWN, 18, 0} is returned and the cache is exactly as before. */
  lemma FailureReturnsPlaceholder(c: Cache, addr: string, chainName: string, now: int, fetched: Option<Response>)
    requires !IsFresh(c, addr, now)
    requires fetched.None? || fetched.value.symbol.None?
    ensures Resolve(c, addr, chainName, now, fetched) == Lookup(Placeholder, c)
  {
  }

  /**
   * On a successful lookup the normalised info, stamped `now`, is stored under
   * `addr` and returned; every other key keeps its entry.
   */
  lemma SuccessStoresInfo(c: Cache, addr: string, chainName: string, now: int, resp: Response)
    requires !IsFresh(c, addr, now)
    requires resp.symbol.Some?
    ensures var r := Resolve(c, addr, chainName, now, Some(resp));
      && r.cache == c[addr := r.info]
      && r.info.symbol == ToUpper(resp.symbol.value)
      && r.info.decimals == DecimalsFor(resp, PlatformId(chainName))
      && r.info.price == PriceOf(resp)
      && r.info.timestamp == Some(now)
  {
  }

  /** The placeholder is never stored: a valid cache stays free of it whatever the lookup. */
  lemma PlaceholderNeverCached(c: Cache, addr: string, chainName: string, now: int, fetched: Option<Response>)
    requires CacheValid(c)
    ensures Placeholder !in Resolve(c, addr, chainName, now, fetched).cache.Values
  {
  }

  /**
   * An info stored at time `t` is served from the cache, for any chain name and
   * without the provider, by every lookup in the following five minutes; at
   * five minutes it is stale and the provider is consulted again.
   */
  lemma StoredInfoFreshForFiveMinutes(c: Cache, addr: string, chainName: string, t: int, resp: Response,
                                      otherChain: string, later: int, fetched: Option<Response>)
    requires !IsFresh(c, addr, t) && resp.symbol.Some?
    ensures var r := Resolve(c, addr, chainName, t, Some(resp));
      && (t <= later < t + FreshnessMs ==> Resolve(r.cache, addr, otherChain, later, fetched) == Lookup(r.info, r.cache))
      && (later >= t + FreshnessMs ==> !IsFresh(r.cache, addr, later))
  {
  }

  /** A provider answer without a price yields a zero price; one without decimal places yields 18. */
  lemma MissingFieldsDefault(c: Cache, addr: string, chainName: string, now: int, resp: Response)
    requires !IsFresh(c, addr, now) && resp.symbol.Some?
    requires resp.usdPrice.None?
    requires PlatformId(chainName) !in resp.decimalPlaces
    ensures Resolve(c, addr, chainName, now, Some(resp)).info.price == 0.0
    ensures Resolve(c, addr, chainName, now, Some(resp)).info.decimals == 18
  {
  }
}
