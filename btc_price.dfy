/** The price endpoint: a 15-second in-memory cache in front of three price
    providers tried in a fixed order, with a five-minute stale fallback when
    all of them fail. Provider replies and the clock are parameters. */
module BtcPrice {
  import opened Common

  const CacheTtl: int := 15000
  const StaleWindow: int := 300000
  const RetryAfterSeconds: int := 60

  /** A JavaScript number as far as the validation cares: a value or NaN. */
  datatype Number = Num(value: real) | NaN

  /** A price as the endpoint reports it. */
  datatype PriceResult = PriceResult(price: Number, change24h: real, timestamp: int, source: string, stale: bool)

  /** The module-level cache: the last result (null at cold start) and when it was stored. */
  datatype Cache = Cache(data: Option<PriceResult>, timestamp: int)

  /** Coinbase: a request or parse failure, or a body whose `data.rates.USD`
      text may be missing (any link of the path absent or empty), with
      `parseFloat` of it. */
  datatype CoinbaseReply = CoinbaseError(message: string) | CoinbaseBody(usd: Option<string>, rate: Number)

  /** CoinGecko: a failure, or a body whose `bitcoin.usd` is a number or not,
      and whose `bitcoin.usd_24h_change` may be missing. */
  datatype GeckoReply = GeckoError(message: string) | GeckoBody(usd: Option<Number>, change24h: Option<real>)

  /** Binance: a failure, or a body with `parseFloat(price)`. */
  datatype BinanceReply = BinanceError(message: string) | BinanceBody(price: Number)

  /** The three replies one fetch would get, in the order they are asked. */
  datatype Replies = Replies(coinbase: CoinbaseReply, gecko: GeckoReply, binance: BinanceReply)

  predicate Fresh(cache: Cache, now: int)
  {
    cache.data.Some? && now - cache.timestamp < CacheTtl
  }

  predicate UsableStale(cache: Cache, now: int)
  {
    cache.data.Some? && now - cache.timestamp < StaleWindow
  }

  /** The Coinbase attempt: its result, or the reason it was rejected. */
  function FromCoinbase(r: CoinbaseReply, now: int): (o: Result<PriceResult, string>)
    ensures o.Success? <==> r.CoinbaseBody? && PresentString(r.usd) && r.rate.Num? && r.rate.value > 0.0
    ensures o.Success? ==> o.value == PriceResult(r.rate, 0.0, now, "coinbase", false)
    ensures r.CoinbaseBody? && !PresentString(r.usd) ==> o == Failure("Invalid response structure from Coinbase")
  {
    match r
    case CoinbaseError(message) => Failure(message)
    case CoinbaseBody(usd, rate) =>
      if !PresentString(usd) then Failure("Invalid response structure from Coinbase")
      else if rate.NaN? || rate.value <= 0.0 then Failure("Invalid price value from Coinbase")
      else Success(PriceResult(rate, 0.0, now, "coinbase", false))
  }

  /** The CoinGecko attempt: any number is accepted; the change defaults to 0. */
  function FromGecko(r: GeckoReply, now: int): (o: Result<PriceResult, string>)
    ensures o.Success? <==> r.GeckoBody? && r.usd.Some?
    ensures o.Success? ==> o.value.price == r.usd.value && o.value.source == "coingecko" && !o.value.stale
    ensures o.Success? ==> o.value.change24h == (if r.change24h.Some? then r.change24h.value else 0.0)
  {
    match r
    case GeckoError(message) => Failure(message)
    case GeckoBody(usd, change) =>
      if usd.None? then Failure("Invalid response structure from CoinGecko")
      else Success(PriceResult(usd.value, if change.Some? && change.value != 0.0 then change.value else 0.0, now, "coingecko", false))
  }

  /** The Binance attempt: the parsed price is taken without validation. */
  function FromBinance(r: BinanceReply, now: int): (o: Result<PriceResult, string>)
    ensures o.Success? <==> r.BinanceBody?
    ensures o.Success? ==> o.value == PriceResult(r.price, 0.0, now, "binance", false)
  {
    match r
    case BinanceError(message) => Failure(message)
    case BinanceBody(price) => Success(PriceResult(price, 0.0, now, "binance", false))
  }

  /** One call's effect: the new cache, the result, and how many providers were asked. */
  datatype FetchOutcome = FetchOutcome(cache: Cache, result: Result<PriceResult, string>, contacted: nat)

  /** `fetchBitcoinPriceWithFallback`. */
  function Fallback(cache: Cache, now: int, replies: Replies): (o: FetchOutcome)
    // a fresh cache answers without asking anyone
    ensures Fresh(cache, now) ==> o == FetchOutcome(cache, Success(cache.data.value), 0)
    // otherwise the first provider that succeeds answers, and its result is cached
    ensures !Fresh(cache, now) && o.contacted > 0 && o.result.Success? && !o.result.value.stale ==>
              o.cache == Cache(Some(o.result.value), now)
    ensures !Fresh(cache, now) && FromCoinbase(replies.coinbase, now).Success? ==>
              o.result == FromCoinbase(replies.coinbase, now) && o.contacted == 1
    ensures !Fresh(cache, now) && FromCoinbase(replies.coinbase, now).Failure? && FromGecko(replies.gecko, now).Success? ==>
              o.result == FromGecko(replies.gecko, now) && o.contacted == 2
    ensures !Fresh(cache, now) && FromCoinbase(replies.coinbase, now).Failure? && FromGecko(replies.gecko, now).Failure? ==>
              o.contacted == 3
    ensures !Fresh(cache, now) && FromCoinbase(replies.coinbase, now).Failure? && FromGecko(replies.gecko, now).Failure?
            && FromBinance(replies.binance, now).Success? ==>
              o.result == FromBinance(replies.binance, now) && o.cache == Cache(Some(o.result.value), now)
    // with every provider failing: the stale copy if young enough, else an error listing each failure in order
    ensures !Fresh(cache, now) && FromCoinbase(replies.coinbase, now).Failure? && FromGecko(replies.gecko, now).Failure?
            && FromBinance(replies.binance, now).Failure? ==>
              o.cache == cache &&
              (UsableStale(cache, now) ==> o.result == Success(cache.data.value.(stale := true, timestamp := now))) &&
              (!UsableStale(cache, now) ==> o.result == Failure("All price sources failed: " +
                  Join(["Coinbase: " + FromCoinbase(replies.coinbase, now).error,
                        "CoinGecko: " + FromGecko(replies.gecko, now).error,
                        "Binance: " + FromBinance(replies.binance, now).error], ", ")))
  {
    if Fresh(cache, now) then FetchOutcome(cache, Success(cache.data.value), 0)
    else
      var cb := FromCoinbase(replies.coinbase, now);
      if cb.Success? then FetchOutcome(Cache(Some(cb.value), now), cb, 1)
      else
        var cg := FromGecko(replies.gecko, now);
        if cg.Success? then FetchOutcome(Cache(Some(cg.value), now), cg, 2)
        else
          var bn := FromBinance(replies.binance, now);
          if bn.Success? then FetchOutcome(Cache(Some(bn.value), now), bn, 3)
          else if UsableStale(cache, now) then
            FetchOutcome(cache, Success(cache.data.value.(stale := true, timestamp := now)), 3)
          else
            FetchOutcome(cache, Failure("All price sources failed: " +
              Join(["Coinbase: " + cb.error, "CoinGecko: " + cg.error, "Binance: " + bn.error], ", ")), 3)
  }

  /** A result fetched from a provider is served again, without asking any
      provider, to every call in the next 15 seconds, whatever they would reply. */
  lemma FetchedPriceIsReusedWithinTtl(cache: Cache, now: int, replies: Replies, later: int, replies2: Replies)
    requires Fallback(cache, now, replies).contacted > 0 && Fallback(cache, now, replies).result.Success?
    requires !Fallback(cache, now, replies).result.value.stale
    requires now <= later < now + CacheTtl
    ensures
      var first := Fallback(cache, now, replies);
      var second := Fallback(first.cache, later, replies2);
      second.result == first.result && second.contacted == 0 && second.cache == first.cache
  {
  }

  /** Once the cache is 15 seconds old, the next call asks Coinbase again. */
  lemma ExpiredCacheAsksAgain(cache: Cache, now: int, replies: Replies)
    requires now - cache.timestamp >= CacheTtl
    ensures Fallback(cache, now, replies).contacted >= 1
  {
  }

  /** The endpoint's server: the cache, reassigned on each provider success. */
  class PriceFeed {
    var cache: Cache

    /** Cold start: an empty cache. */
    constructor ()
      ensures cache == Cache(None, 0)
    {
      cache := Cache(None, 0);
    }

    /** The fallback chain, step by step. */
    method FetchWithFallback(now: int, replies: Replies) returns (result: Result<PriceResult, string>, contacted: nat)
      modifies this
      ensures Fallback(old(cache), now, replies) == FetchOutcome(cache, result, contacted)
    {
      var errors: seq<string> := [];
      if cache.data.Some? && now - cache.timestamp < CacheTtl {
        return Success(cache.data.value), 0;
      }
      var coinbase := FromCoinbase(replies.coinbase, now);
      if coinbase.Success? {
        cache := Cache(Some(coinbase.value), now);
        return coinbase, 1;
      }
      errors := errors + ["Coinbase: " + coinbase.error];
      var gecko := FromGecko(replies.gecko, now);
      if gecko.Success? {
        cache := Cache(Some(gecko.value), now);
        return gecko, 2;
      }
      errors := errors + ["CoinGecko: " + gecko.error];
      var binance := FromBinance(replies.binance, now);
      if binance.Success? {
        cache := Cache(Some(binance.value), now);
        return binance, 3;
      }
      errors := errors + ["Binance: " + binance.error];
      assert errors == ["Coinbase: " + coinbase.error, "CoinGecko: " + gecko.error, "Binance: " + binance.error];
      if cache.data.Some? && now - cache.timestamp < StaleWindow {
        return Success(cache.data.value.(stale := true, timestamp := now)), 3;
      }
      return Failure("All price sources failed: " + Join(errors, ", ")), 3;
    }

    /** The Lambda handler: OPTIONS is answered without fetching. */
    method Handle(isOptions: bool, now: int, replies: Replies) returns (response: Response)
      modifies this
      ensures isOptions ==> response == CorsPreflight && cache == old(cache)
      ensures !isOptions ==>
        var o := Fallback(old(cache), now, replies);
        cache == o.cache &&
        response == (if o.result.Success? then PriceBody(o.result.value) else Unavailable(o.result.error))
    {
      if isOptions {
        return CorsPreflight;
      }
      var result, _ := FetchWithFallback(now, replies);
      if result.Success? {
        response := PriceBody(result.value);
      } else {
        response := Unavailable(result.error);
      }
    }
  }

  /** The handler's responses: 200 for preflight and for a price, 503 with a
      60-second retry hint (and the error's text as details) otherwise. */
  datatype Response = CorsPreflight | PriceBody(result: PriceResult) | Unavailable(details: string)
  {
    function Status(): (code: int)
      ensures code == 503 <==> this.Unavailable?
      ensures code == 200 || code == 503
    {
      match this
      case CorsPreflight => 200
      case PriceBody(_) => 200
      case Unavailable(_) => 503
    }

    function RetryAfter(): (seconds: Option<int>)
      ensures seconds.Some? <==> this.Unavailable?
      ensures seconds.Some? ==> seconds.value == RetryAfterSeconds
    {
      if this.Unavailable? then Some(RetryAfterSeconds) else None
    }
  }
}
