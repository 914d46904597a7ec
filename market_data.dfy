/**
 * The quote client (`MarketDataService`): a per-symbol cache of live
 * quotes that stay fresh for 30 seconds, a synthetic quote for every
 * symbol whose fetch fails, and daily price histories with a synthetic
 * random walk standing in for a history that cannot be fetched.
 *
 * The network is not modelled: each fetch outcome is an input value, the
 * clock is an input in milliseconds, and every `Math.random()` call is a
 * `Draw` supplied by the caller.
 */
module MarketData {
  import opened Common

  /** A quote as the dashboard shows it (`StockData`). */
  datatype Quote = Quote(
    symbol: string, name: string,
    price: real, change: real, changePercent: real,
    volume: int, high: real, low: real, open: real)

  /** A tracked stock: its ticker upstream and the name the game shows. */
  datatype StockInfo = StockInfo(symbol: string, name: string, displaySymbol: string, displayName: string)

  /** The six tracked stocks (`REAL_STOCKS`), in display order. */
  const Roster: seq<StockInfo> := [
    StockInfo("AAPL", "Apple Inc.", "TECH", "Tech Leaders"),
    StockInfo("TSLA", "Tesla Inc.", "GREEN", "Green Energy"),
    StockInfo("JPM", "JPMorgan Chase & Co.", "BANK", "Banking Giant"),
    StockInfo("F", "Ford Motor Company", "AUTO", "Auto Industry"),
    StockInfo("JNJ", "Johnson & Johnson", "PHARMA", "Healthcare"),
    StockInfo("WMT", "Walmart Inc.", "RETAIL", "Retail Power")
  ]

  /** How long a cached quote is served without asking the network, in ms. */
  const CacheDuration: int := 30000

  /** The `chart.result[0].meta` object of a quote payload. */
  datatype Meta = Meta(
    regularMarketPrice: real, previousClose: real, regularMarketVolume: int,
    regularMarketDayHigh: real, regularMarketDayLow: real, regularMarketOpen: real)

  /**
   * What one quote request produced: a network failure or timeout, or a
   * response with its `ok` flag, the meta object if the payload has one
   * (`None` for any payload without `chart.result[0].meta`), and the clock
   * reading taken once the body has been read.
   */
  datatype QuoteResponse =
    | QuoteNetworkFailure
    | QuoteReply(ok: bool, meta: Option<Meta>, receivedAt: int)

  datatype CacheEntry = CacheEntry(data: Quote, timestamp: int)

  /** The meta object of a usable response; `None` sends the caller to the fallback. */
  function ExtractMeta(resp: QuoteResponse): (m: Option<Meta>)
    ensures m.Some? <==> resp.QuoteReply? && resp.ok && resp.meta.Some?
    ensures m.Some? ==> m == resp.meta
  {
    match resp
    case QuoteNetworkFailure => None
    case QuoteReply(ok, meta, _) => if ok then meta else None
  }

  /** Change in percent of the previous close. */
  function PercentOf(change: real, previousClose: real): real {
    if previousClose == 0.0 then 0.0 else change / previousClose * 100.0
  }

  /** The quote built from a live meta object, labelled with the display names. */
  function LiveQuote(info: StockInfo, meta: Meta): (q: Quote)
    ensures q.symbol == info.displaySymbol && q.name == info.displayName
    ensures AbsR(q.price - meta.regularMarketPrice) <= 0.005
    ensures AbsR(q.change - (meta.regularMarketPrice - meta.previousClose)) <= 0.005
    ensures meta.previousClose != 0.0 ==>
      AbsR(q.changePercent - (meta.regularMarketPrice - meta.previousClose) / meta.previousClose * 100.0) <= 0.005
    ensures q.volume == meta.regularMarketVolume && q.open == meta.regularMarketOpen
    ensures q.high == meta.regularMarketDayHigh && q.low == meta.regularMarketDayLow
  {
    var change := meta.regularMarketPrice - meta.previousClose;
    Quote(info.displaySymbol, info.displayName,
          Round2(meta.regularMarketPrice), Round2(change),
          Round2(PercentOf(change, meta.previousClose)),
          meta.regularMarketVolume, meta.regularMarketDayHigh,
          meta.regularMarketDayLow, meta.regularMarketOpen)
  }

  // ---------------------------------------------------------------------
  // Synthetic quotes
  // ---------------------------------------------------------------------

  /** The price a synthetic quote moves around; 150 for a symbol not in the table. */
  function BasePrice(symbol: string): (b: int)
    ensures b in {180, 220, 160, 12, 170, 150}
  {
    if symbol == "TECH" then 180
    else if symbol == "GREEN" then 220
    else if symbol == "BANK" then 160
    else if symbol == "AUTO" then 12
    else if symbol == "PHARMA" then 170
    else if symbol == "RETAIL" then 160
    else 150
  }

  /** The four `Math.random()` calls of one synthetic quote, in call order. */
  datatype FallbackDraws = FallbackDraws(change: Draw, volume: Draw, high: Draw, low: Draw)

  /** The unrounded move of a synthetic quote: within 1% of the base either way. */
  function FallbackChange(base: int, r: Draw): (c: real)
    requires base > 0
    ensures AbsR(c) <= base as real / 100.0
  {
    (r - 0.5) * 0.02 * base as real
  }

  /** The unrounded price of a synthetic quote, never below 5. */
  function FallbackPrice(base: int, r: Draw): real
    requires base > 0
  {
    MaxR(5.0, base as real + FallbackChange(base, r))
  }

  /** The synthetic quote served when a symbol's fetch fails. */
  function FallbackQuote(symbol: string, name: string, d: FallbackDraws): (q: Quote)
    ensures q.symbol == symbol && q.name == name
    ensures q.open == BasePrice(symbol) as real
    ensures q.price == Round2(FallbackPrice(BasePrice(symbol), d.change)) && q.price >= 5.0
    ensures q.change == Round2(FallbackChange(BasePrice(symbol), d.change))
    ensures AbsR(q.change) <= BasePrice(symbol) as real / 100.0
    ensures -1.0 <= q.changePercent <= 1.0
    ensures 500000 <= q.volume <= 1499999
    ensures q.low <= FallbackPrice(BasePrice(symbol), d.change) <= q.high
  {
    var base := BasePrice(symbol);
    var change := FallbackChange(base, d.change);
    var newPrice := FallbackPrice(base, d.change);
    var percent := change / base as real * 100.0;
    Round2AtLeast(newPrice, 500);
    Round2AtMost(change, base);
    Round2AtLeast(change, -base);
    assert -1.0 <= percent <= 1.0 by {
      assert change / base as real <= 0.01 && change / base as real >= -0.01;
    }
    Round2AtMost(percent, 100);
    Round2AtLeast(percent, -100);
    Quote(symbol, name, Round2(newPrice), Round2(change), Round2(percent),
          PickIndex(d.volume, 1000000) + 500000,
          newPrice + d.high * 5.0, newPrice - d.low * 5.0, base as real)
  }

  // ---------------------------------------------------------------------
  // One symbol of a refresh cycle
  // ---------------------------------------------------------------------

  /** A cache entry younger than the cache duration is served as it is. */
  predicate Fresh(e: CacheEntry, now: int) {
    now - e.timestamp < CacheDuration
  }

  predicate ServedFromCache(cache: map<string, CacheEntry>, info: StockInfo, now: int) {
    info.symbol in cache && Fresh(cache[info.symbol], now)
  }

  /** The quote a refresh cycle reports for one stock. */
  function Answer(cache: map<string, CacheEntry>, info: StockInfo, now: int,
                  resp: QuoteResponse, d: FallbackDraws): Quote
  {
    if ServedFromCache(cache, info, now) then cache[info.symbol].data
    else match ExtractMeta(resp)
      case Some(meta) => LiveQuote(info, meta)
      case None => FallbackQuote(info.displaySymbol, info.displayName, d)
  }

  /** The cache after a refresh cycle has handled one stock. */
  function Store(cache: map<string, CacheEntry>, info: StockInfo, now: int,
                 resp: QuoteResponse): map<string, CacheEntry>
  {
    if ServedFromCache(cache, info, now) then cache
    else match ExtractMeta(resp)
      case Some(meta) => cache[info.symbol := CacheEntry(LiveQuote(info, meta), resp.receivedAt)]
      case None => cache
  }

  /** A fresh entry answers the request and no fetch result is looked at. */
  lemma FreshEntryAnswers(cache: map<string, CacheEntry>, info: StockInfo, now: int,
                          resp: QuoteResponse, d: FallbackDraws)
    requires info.symbol in cache && now - cache[info.symbol].timestamp < 30000
    ensures Answer(cache, info, now, resp, d) == cache[info.symbol].data
    ensures Store(cache, info, now, resp) == cache
  {
  }

  /** An entry exactly 30 seconds old, or older, is refetched. */
  lemma StaleEntryRefetched(cache: map<string, CacheEntry>, info: StockInfo, now: int,
                            resp: QuoteResponse, d: FallbackDraws)
    requires info.symbol in cache && now - cache[info.symbol].timestamp >= 30000
    ensures Answer(cache, info, now, resp, d) ==
      if ExtractMeta(resp).Some? then LiveQuote(info, ExtractMeta(resp).value)
      else FallbackQuote(info.displaySymbol, info.displayName, d)
  {
  }

  /**
   * A successful fetch overwrites the entry with the new quote and the time
   * it arrived; a failed one leaves the cache as it was and answers with a
   * synthetic quote. Other symbols' entries are never touched.
   */
  lemma FetchOutcomeOnCache(cache: map<string, CacheEntry>, info: StockInfo, now: int,
                            resp: QuoteResponse, d: FallbackDraws)
    requires !ServedFromCache(cache, info, now)
    ensures ExtractMeta(resp).Some? ==>
      Store(cache, info, now, resp) ==
        cache[info.symbol := CacheEntry(Answer(cache, info, now, resp, d), resp.receivedAt)]
    ensures ExtractMeta(resp).None? ==>
      Store(cache, info, now, resp) == cache &&
      Answer(cache, info, now, resp, d) == FallbackQuote(info.displaySymbol, info.displayName, d)
  {
  }

  /** Every cached quote for a tracked stock carries that stock's display labels. */
  ghost predicate CacheLabelled(cache: map<string, CacheEntry>) {
    forall i :: 0 <= i < |Roster| && Roster[i].symbol in cache ==>
      cache[Roster[i].symbol].data.symbol == Roster[i].displaySymbol &&
      cache[Roster[i].symbol].data.name == Roster[i].displayName
  }

  lemma RosterSymbolsDistinct()
    ensures forall i, j :: 0 <= i < j < |Roster| ==> Roster[i].symbol != Roster[j].symbol
    ensures forall i, j :: 0 <= i < j < |Roster| ==> Roster[i].displaySymbol != Roster[j].displaySymbol
  {
  }

  /** Whatever the cache and the fetch outcome, the quote carries the stock's display labels. */
  lemma {:induction false} AnswerLabelled(cache: map<string, CacheEntry>, i: int, now: int,
                                          resp: QuoteResponse, d: FallbackDraws)
    requires CacheLabelled(cache) && 0 <= i < |Roster|
    ensures Answer(cache, Roster[i], now, resp, d).symbol == Roster[i].displaySymbol
    ensures Answer(cache, Roster[i], now, resp, d).name == Roster[i].displayName
    ensures CacheLabelled(Store(cache, Roster[i], now, resp))
  {
    RosterSymbolsDistinct();
  }

  /** The cache after a refresh cycle has handled the first n stocks of the roster. */
  function StoreUpTo(cache: map<string, CacheEntry>, now: int, responses: seq<QuoteResponse>, n: nat)
    : map<string, CacheEntry>
    requires n <= |Roster| && |responses| == |Roster|
  {
    if n == 0 then cache
    else Store(StoreUpTo(cache, now, responses, n - 1), Roster[n - 1], now, responses[n - 1])
  }

  /** Two caches hold the same entry (or none) under a key. */
  predicate SameAt(m1: map<string, CacheEntry>, m2: map<string, CacheEntry>, key: string) {
    (key in m1 <==> key in m2) && (key in m1 ==> m1[key] == m2[key])
  }

  /** Handling a stock never touches the entries of other tickers. */
  lemma {:induction false} StoreUpToElsewhere(cache: map<string, CacheEntry>, now: int,
                                              responses: seq<QuoteResponse>, n: nat, key: string)
    requires n <= |Roster| && |responses| == |Roster|
    requires forall j :: 0 <= j < n ==> Roster[j].symbol != key
    ensures SameAt(StoreUpTo(cache, now, responses, n), cache, key)
  {
    if n > 0 {
      StoreUpToElsewhere(cache, now, responses, n - 1, key);
    }
  }

  /**
   * When the refresh reaches stock i, the cache still holds what it held
   * before the refresh under that stock's ticker, so the stock is answered
   * as it would have been from the cache the refresh started with.
   */
  lemma RefreshStep(cache: map<string, CacheEntry>, now: int, responses: seq<QuoteResponse>,
                    d: FallbackDraws, i: nat)
    requires |responses| == |Roster| && i < |Roster|
    ensures Answer(StoreUpTo(cache, now, responses, i), Roster[i], now, responses[i], d)
         == Answer(cache, Roster[i], now, responses[i], d)
  {
    RosterSymbolsDistinct();
    StoreUpToElsewhere(cache, now, responses, i, Roster[i].symbol);
  }

  /**
   * After a whole refresh each stock's entry is exactly what handling that
   * stock alone would have left: the stocks do not interfere, so the order
   * in which the concurrent fetches finish does not matter.
   */
  lemma RefreshEntry(cache: map<string, CacheEntry>, now: int, responses: seq<QuoteResponse>, i: nat)
    requires |responses| == |Roster| && i < |Roster|
    ensures SameAt(StoreUpTo(cache, now, responses, |Roster|),
                   Store(cache, Roster[i], now, responses[i]), Roster[i].symbol)
  {
    RosterSymbolsDistinct();
    var key := Roster[i].symbol;
    StoreUpToElsewhere(cache, now, responses, i, key);
    StoreUpToLater(cache, now, responses, i, |Roster|);
  }

  /** Stocks handled after stock i leave stock i's entry alone. */
  lemma {:induction false} StoreUpToLater(cache: map<string, CacheEntry>, now: int,
                                          responses: seq<QuoteResponse>, i: nat, n: nat)
    requires |responses| == |Roster| && i < n <= |Roster|
    requires forall j, k :: 0 <= j < k < |Roster| ==> Roster[j].symbol != Roster[k].symbol
    ensures SameAt(StoreUpTo(cache, now, responses, n), StoreUpTo(cache, now, responses, i + 1), Roster[i].symbol)
  {
    if n > i + 1 {
      StoreUpToLater(cache, now, responses, i, n - 1);
      assert Roster[n - 1].symbol != Roster[i].symbol;
    }
  }

  /**
   * A second refresh while a stock's entry is still fresh repeats the first
   * refresh's quote for it, whatever the network does the second time.
   * Synthetic quotes are not cached, so this holds only for quotes that came
   * from the cache or from a successful fetch.
   */
  lemma SecondRefreshRepeats(cache: map<string, CacheEntry>, now: int, responses: seq<QuoteResponse>,
                             draws: seq<FallbackDraws>, i: nat, later: int,
                             resp2: QuoteResponse, d2: FallbackDraws)
    requires |responses| == |Roster| && |draws| == |Roster| && i < |Roster|
    requires if ServedFromCache(cache, Roster[i], now)
             then later - cache[Roster[i].symbol].timestamp < CacheDuration
             else ExtractMeta(responses[i]).Some? && later - responses[i].receivedAt < CacheDuration
    ensures Answer(StoreUpTo(cache, now, responses, |Roster|), Roster[i], later, resp2, d2)
         == Answer(cache, Roster[i], now, responses[i], draws[i])
  {
    RefreshEntry(cache, now, responses, i);
  }

  // ---------------------------------------------------------------------
  // Histories
  // ---------------------------------------------------------------------

  /** One point of a daily history: the day (days since 1970-01-01, UTC) and the price. */
  datatype PricePoint = PricePoint(date: int, price: real)

  /** `timestamp` and `indicators.quote[0].close` of a history payload. */
  datatype HistoryPayload = HistoryPayload(timestamps: seq<int>, closes: seq<Option<real>>)

  /** `payload` is `None` for any payload the parser throws on. */
  datatype HistoryResponse =
    | HistoryNetworkFailure
    | HistoryReply(ok: bool, payload: Option<HistoryPayload>)

  function ExtractHistory(resp: HistoryResponse): (p: Option<HistoryPayload>)
    ensures p.Some? <==> resp.HistoryReply? && resp.ok && resp.payload.Some?
  {
    match resp
    case HistoryNetworkFailure => None
    case HistoryReply(ok, payload) => if ok then payload else None
  }

  /** The day a Unix timestamp in seconds falls on. */
  function DayOf(timestamp: int): int {
    timestamp / 86400
  }

  /** `prices[index] || 0`: a missing or null close reads as 0. */
  function CloseAt(closes: seq<Option<real>>, i: nat): real {
    if i < |closes| && closes[i].Some? then closes[i].value else 0.0
  }

  /** Every timestamp paired with its close, before filtering. */
  function RawPoints(p: HistoryPayload): (s: seq<PricePoint>)
    ensures |s| == |p.timestamps|
    ensures forall i :: 0 <= i < |s| ==> s[i] == PricePoint(DayOf(p.timestamps[i]), CloseAt(p.closes, i))
  {
    seq(|p.timestamps|, i requires 0 <= i < |p.timestamps| =>
      PricePoint(DayOf(p.timestamps[i]), CloseAt(p.closes, i)))
  }

  /** The points with a positive price, in their original order. */
  function KeepPositive(s: seq<PricePoint>): (r: seq<PricePoint>)
    ensures |r| <= |s|
    ensures forall k :: 0 <= k < |r| ==> r[k].price > 0.0
  {
    if s == [] then []
    else if s[0].price > 0.0 then [s[0]] + KeepPositive(s[1..])
    else KeepPositive(s[1..])
  }

  /** The history built from a live payload. */
  function LiveHistory(p: HistoryPayload): seq<PricePoint> {
    KeepPositive(RawPoints(p))
  }

  predicate DatesAscending(s: seq<PricePoint>) {
    forall i, j :: 0 <= i < j < |s| ==> s[i].date <= s[j].date
  }

  /** The filter keeps exactly the points with a positive price. */
  lemma {:induction false} KeepPositiveExactly(s: seq<PricePoint>)
    ensures forall x :: x in KeepPositive(s) <==> x in s && x.price > 0.0
  {
    if s != [] {
      KeepPositiveExactly(s[1..]);
      assert s == [s[0]] + s[1..];
    }
  }

  /** Filtering keeps every date at or above a bound that held before. */
  lemma {:induction false} KeepPositiveAbove(s: seq<PricePoint>, d: int)
    requires forall k :: 0 <= k < |s| ==> d <= s[k].date
    ensures forall k :: 0 <= k < |KeepPositive(s)| ==> d <= KeepPositive(s)[k].date
  {
    if s != [] {
      KeepPositiveAbove(s[1..], d);
    }
  }

  lemma {:induction false} KeepPositiveKeepsOrder(s: seq<PricePoint>)
    requires DatesAscending(s)
    ensures DatesAscending(KeepPositive(s))
  {
    if s != [] {
      var t := s[1..];
      assert DatesAscending(t) by {
        forall i, j | 0 <= i < j < |t| ensures t[i].date <= t[j].date {
          assert t[i] == s[i + 1] && t[j] == s[j + 1];
        }
      }
      KeepPositiveKeepsOrder(t);
      var r := KeepPositive(t);
      if s[0].price > 0.0 {
        assert forall k :: 0 <= k < |t| ==> s[0].date <= t[k].date by {
          forall k | 0 <= k < |t| ensures s[0].date <= t[k].date {
            assert t[k] == s[k + 1];
          }
        }
        KeepPositiveAbove(t, s[0].date);
        var out := [s[0]] + r;
        assert KeepPositive(s) == out;
        forall i, j | 0 <= i < j < |out| ensures out[i].date <= out[j].date {
          assert out[j] == r[j - 1];
          if i > 0 {
            assert out[i] == r[i - 1];
          }
        }
      } else {
        assert KeepPositive(s) == r;
      }
    }
  }

  /** Timestamps that arrive in order give a live history in date order. */
  lemma LiveHistoryInOrder(p: HistoryPayload)
    requires forall i, j :: 0 <= i < j < |p.timestamps| ==> p.timestamps[i] <= p.timestamps[j]
    ensures DatesAscending(LiveHistory(p))
  {
    var raw := RawPoints(p);
    forall i, j | 0 <= i < j < |raw| ensures raw[i].date <= raw[j].date {
      DayOfMonotone(p.timestamps[i], p.timestamps[j]);
    }
    KeepPositiveKeepsOrder(raw);
  }

  lemma DayOfMonotone(a: int, b: int)
    requires a <= b
    ensures DayOf(a) <= DayOf(b)
  {
  }

  /** One day of the synthetic walk: a move of at most 2.5% either way, floored at 50. */
  function WalkStep(price: real, r: Draw): real {
    MaxR(50.0, price + (r - 0.5) * 0.05 * price)
  }

  /** The unrounded price after walking through all of `draws` from `start`. */
  function Walk(start: real, draws: seq<Draw>): real
    decreases |draws|
  {
    if draws == [] then start
    else WalkStep(Walk(start, draws[..|draws| - 1]), draws[|draws| - 1])
  }

  /** The walk never goes below its floor once it has taken a step. */
  lemma WalkAtLeastFloor(start: real, draws: seq<Draw>)
    requires draws != []
    ensures Walk(start, draws) >= 50.0
  {
  }

  /** The synthetic history's price on day k of the walk. */
  function FallbackPriceAt(draws: seq<Draw>, k: nat): (p: real)
    requires k < |draws|
    ensures p >= 50.0
  {
    WalkAtLeastFloor(180.0, draws[..k + 1]);
    Round2AtLeast(Walk(180.0, draws[..k + 1]), 5000);
    Round2(Walk(180.0, draws[..k + 1]))
  }

  /**
   * What the history of one stock is: the live points of a successful
   * fetch, or else a synthetic walk of one point per day ending today,
   * priced by that stock's own draws.
   */
  predicate HistoryFor(h: seq<PricePoint>, r: HistoryResponse, draws: seq<Draw>, days: int, today: int) {
    if ExtractHistory(r).Some? then h == LiveHistory(ExtractHistory(r).value)
    else (|h| == Max(0, days + 1) && |draws| == |h|
          && forall k :: 0 <= k < |h| ==> h[k].date == today - days + k && h[k].price == FallbackPriceAt(draws, k))
  }

  /** The display symbols of a list of stocks, in order. */
  function DisplaySymbols(stocks: seq<StockInfo>): (ks: seq<string>)
    ensures |ks| == |stocks| && forall i :: 0 <= i < |stocks| ==> ks[i] == stocks[i].displaySymbol
  {
    seq(|stocks|, i requires 0 <= i < |stocks| => stocks[i].displaySymbol)
  }

  /** Adding an entry under a new key keeps every earlier entry and adds that key. */
  lemma MapExtend<V>(m: map<string, V>, keys: seq<string>, i: nat, v: V)
    requires i < |keys| && forall a, b :: 0 <= a < b < |keys| ==> keys[a] != keys[b]
    requires forall k :: k in m <==> k in keys[..i]
    ensures var h := m[keys[i] := v];
      (forall k :: k in h <==> k in keys[..i + 1]) && forall j :: 0 <= j < i ==> h[keys[j]] == m[keys[j]]
  {
    assert keys[..i + 1] == keys[..i] + [keys[i]];
  }

  /**
   * The synthetic history (`getFallbackHistoricalData`): `days + 1` daily
   * points ending today, starting the walk at 180 and never below 50.
   */
  method FallbackHistory(days: int, today: int, draws: seq<Draw>) returns (data: seq<PricePoint>)
    requires |draws| == Max(0, days + 1)
    ensures |data| == Max(0, days + 1)
    ensures forall k :: 0 <= k < |data| ==> data[k].date == today - days + k
    ensures forall k :: 0 <= k < |data| ==> data[k].price == FallbackPriceAt(draws, k)
    ensures forall k :: 0 <= k < |data| ==> data[k].price >= 50.0
    ensures days >= 0 ==> data[|data| - 1].date == today
  {
    data := [];
    var currentPrice := 180.0;
    var i := days;
    while i >= 0
      invariant i <= days && (days >= 0 ==> -1 <= i) && (days < 0 ==> i == days)
      invariant |data| == days - i && |data| <= |draws|
      invariant currentPrice == Walk(180.0, draws[..|data|])
      invariant forall k :: 0 <= k < |data| ==> data[k].date == today - days + k
      invariant forall k :: 0 <= k < |data| ==> data[k].price == FallbackPriceAt(draws, k)
    {
      var step := |data|;
      assert draws[..step + 1][..step] == draws[..step];
      currentPrice := WalkStep(currentPrice, draws[step]);
      data := data + [PricePoint(today - i, Round2(currentPrice))];
      i := i - 1;
    }
  }

  /** One stock's history: the live points when the fetch worked, else the synthetic walk. */
  method StockHistory(resp: HistoryResponse, draws: seq<Draw>, days: int, today: int)
    returns (series: seq<PricePoint>)
    requires |draws| == Max(0, days + 1)
    ensures HistoryFor(series, resp, draws, days, today)
  {
    var payload := ExtractHistory(resp);
    if payload.Some? {
      series := LiveHistory(payload.value);
    } else {
      series := FallbackHistory(days, today, draws);
    }
  }

  /**
   * The loop of `getAllStocksHistoricalData` over a list of stocks with
   * distinct display symbols: each stock's history under its symbol.
   */
  method CollectHistories(stocks: seq<StockInfo>, days: int, today: int,
                          responses: seq<HistoryResponse>, draws: seq<seq<Draw>>)
    returns (histories: map<string, seq<PricePoint>>)
    requires |responses| == |stocks| && |draws| == |stocks|
    requires forall i :: 0 <= i < |stocks| ==> |draws[i]| == Max(0, days + 1)
    requires forall a, b :: 0 <= a < b < |stocks| ==> stocks[a].displaySymbol != stocks[b].displaySymbol
    ensures forall k :: k in histories <==> k in DisplaySymbols(stocks)
    ensures forall i :: 0 <= i < |stocks| ==>
      HistoryFor(histories[stocks[i].displaySymbol], responses[i], draws[i], days, today)
  {
    ghost var keys := DisplaySymbols(stocks);
    histories := map[];
    var i := 0;
    while i < |stocks|
      invariant 0 <= i <= |stocks|
      invariant forall k :: k in histories <==> k in keys[..i]
      invariant forall j :: 0 <= j < i ==>
        HistoryFor(histories[keys[j]], responses[j], draws[j], days, today)
    {
      var series := StockHistory(responses[i], draws[i], days, today);
      MapExtend(histories, keys, i, series);
      histories := histories[stocks[i].displaySymbol := series];
      i := i + 1;
    }
    assert keys[..i] == keys;
  }

  /** The quote client; its only state is the quote cache, keyed by upstream ticker. */
  class MarketDataService {
    var cache: map<string, CacheEntry>

    ghost predicate Valid()
      reads this
    {
      CacheLabelled(cache)
    }

    constructor ()
      ensures Valid() && cache == map[]
    {
      cache := map[];
    }

    /**
     * One refresh of all six stocks (`fetchAllStocksData`): one quote per
     * roster entry, in roster order, each from the cache, the network or the
     * fallback, with the cache updated for each successful fetch.
     */
    method FetchAllStocksData(now: int, responses: seq<QuoteResponse>, draws: seq<FallbackDraws>)
      returns (quotes: seq<Quote>)
      requires Valid()
      requires |responses| == |Roster| && |draws| == |Roster|
      modifies this
      ensures Valid()
      ensures |quotes| == |Roster|
      ensures forall i :: 0 <= i < |Roster| ==>
        quotes[i] == Answer(old(cache), Roster[i], now, responses[i], draws[i])
      ensures forall i :: 0 <= i < |Roster| ==>
        quotes[i].symbol == Roster[i].displaySymbol && quotes[i].name == Roster[i].displayName
      ensures cache == StoreUpTo(old(cache), now, responses, |Roster|)
    {
      RosterSymbolsDistinct();
      quotes := [];
      var i := 0;
      while i < |Roster|
        invariant 0 <= i <= |Roster| && |quotes| == i
        invariant cache == StoreUpTo(old(cache), now, responses, i)
        invariant CacheLabelled(cache)
        invariant forall j :: 0 <= j < i ==>
          quotes[j] == Answer(old(cache), Roster[j], now, responses[j], draws[j])
        invariant forall j :: 0 <= j < i ==>
          quotes[j].symbol == Roster[j].displaySymbol && quotes[j].name == Roster[j].displayName
      {
        var info := Roster[i];
        ghost var before := cache;
        RefreshStep(old(cache), now, responses, draws[i], i);
        AnswerLabelled(cache, i, now, responses[i], draws[i]);
        var q: Quote;
        if info.symbol in cache && now - cache[info.symbol].timestamp < CacheDuration {
          q := cache[info.symbol].data;
        } else {
          var meta := ExtractMeta(responses[i]);
          if meta.Some? {
            q := LiveQuote(info, meta.value);
            cache := cache[info.symbol := CacheEntry(q, responses[i].receivedAt)];
          } else {
            q := FallbackQuote(info.displaySymbol, info.displayName, draws[i]);
          }
        }
        assert q == Answer(before, info, now, responses[i], draws[i]);
        assert cache == Store(before, info, now, responses[i]);
        quotes := quotes + [q];
        i := i + 1;
      }
    }

    /** `fetchTechStockData`: the refresh, narrowed to the TECH quote. */
    method FetchTechStockData(now: int, responses: seq<QuoteResponse>, draws: seq<FallbackDraws>)
      returns (tech: seq<Quote>)
      requires Valid()
      requires |responses| == |Roster| && |draws| == |Roster|
      modifies this
      ensures Valid()
      ensures tech == [Answer(old(cache), Roster[0], now, responses[0], draws[0])]
    {
      var all := FetchAllStocksData(now, responses, draws);
      RosterSymbolsDistinct();
      tech := [];
      var i := 0;
      while i < |all|
        invariant 0 <= i <= |all|
        invariant tech == if i == 0 then [] else [all[0]]
      {
        if all[i].symbol == "TECH" {
          tech := tech + [all[i]];
        }
        i := i + 1;
      }
    }

    /** `clearCache`: forget every cached quote. */
    method ClearCache()
      modifies this
      ensures Valid() && cache == map[]
    {
      cache := map[];
    }

    /**
     * `getAllStocksHistoricalData`: a history for each stock, keyed by its
     * display symbol: the live points with a positive price when the fetch
     * worked, otherwise that stock's own synthetic walk.
     */
    method AllStocksHistoricalData(days: int, today: int, responses: seq<HistoryResponse>,
                                   draws: seq<seq<Draw>>)
      returns (histories: map<string, seq<PricePoint>>)
      requires |responses| == |Roster| && |draws| == |Roster|
      requires forall i :: 0 <= i < |Roster| ==> |draws[i]| == Max(0, days + 1)
      ensures forall k :: k in histories <==> k in DisplaySymbols(Roster)
      ensures forall i :: 0 <= i < |Roster| ==>
        HistoryFor(histories[Roster[i].displaySymbol], responses[i], draws[i], days, today)
    {
      RosterSymbolsDistinct();
      histories := CollectHistories(Roster, days, today, responses, draws);
    }

    /** `getTechHistoricalData`: the TECH entry of the full set of histories. */
    method TechHistoricalData(days: int, today: int, responses: seq<HistoryResponse>,
                              draws: seq<seq<Draw>>)
      returns (history: seq<PricePoint>)
      requires |responses| == |Roster| && |draws| == |Roster|
      requires forall i :: 0 <= i < |Roster| ==> |draws[i]| == Max(0, days + 1)
      ensures ExtractHistory(responses[0]).Some? ==> history == LiveHistory(ExtractHistory(responses[0]).value)
      ensures ExtractHistory(responses[0]).None? ==>
        |history| == Max(0, days + 1) &&
        forall k :: 0 <= k < |history| ==> history[k].date == today - days + k && history[k].price >= 50.0
      ensures HistoryFor(history, responses[0], draws[0], days, today)
    {
      var all := AllStocksHistoricalData(days, today, responses, draws);
      assert Roster[0].displaySymbol == "TECH";
      history := all["TECH"];
    }
  }
}
