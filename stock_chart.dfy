/**
 * The live candlestick chart (`StockChart`): each poll turns the latest
 * backend point into a candle that opens where the previous one closed,
 * with a little random wick and volume, and the chart keeps the last 50
 * candles.
 */
module StockChart {
  import opened Common

  /** The number of candles the chart keeps. */
  const WindowSize: nat := 50

  datatype Candle = Candle(time: string, open: real, high: real, low: real, close: real,
                           volume: int, range: real, ohlcDiff: real)

  /** The three `Math.random()` results one candle uses: wick above, wick below, volume. */
  datatype CandleDraws = CandleDraws(high: Draw, low: Draw, volume: Draw)

  /** The price levels of a candle are in order and its derived fields agree with them. */
  predicate WellFormed(c: Candle) {
    c.low <= MinR(c.open, c.close) && MaxR(c.open, c.close) <= c.high
    && c.range == c.high - c.low && c.range >= 0.0
    && c.ohlcDiff == AbsR(c.close - c.open)
    && 50 <= c.volume <= 549
  }

  /**
   * `transformData`: the new candle opens at the previous close (or at
   * its own value for the first candle), closes at the new value, and
   * reaches up to 2 above and below its body.
   */
  function TransformData(prev: seq<Candle>, time: string, value: real, d: CandleDraws): (c: Candle)
    ensures WellFormed(c)
    ensures c.open == (if |prev| > 0 then prev[|prev| - 1].close else value)
    ensures c.close == value && c.time == time
    ensures MaxR(c.open, c.close) <= c.high < MaxR(c.open, c.close) + 2.0
    ensures MinR(c.open, c.close) - 2.0 < c.low <= MinR(c.open, c.close)
  {
    var lastClose := if |prev| > 0 then prev[|prev| - 1].close else value;
    var open := lastClose;
    var close := value;
    var high := MaxR(open, close) + d.high * 2.0;
    var low := MinR(open, close) - d.low * 2.0;
    var volume := (d.volume * 500.0 + 50.0).Floor;
    Candle(time, open, high, low, close, volume, high - low, AbsR(close - open))
  }

  /** Every candle after the first opens at its predecessor's close. */
  predicate Chained(s: seq<Candle>) {
    forall i :: 0 < i < |s| ==> s[i].open == s[i - 1].close
  }

  /** A candle made from a chained series keeps it chained. */
  lemma AppendKeepsChained(prev: seq<Candle>, time: string, value: real, d: CandleDraws)
    requires Chained(prev)
    ensures Chained(prev + [TransformData(prev, time, value, d)])
  {
  }

  /** Dropping candles from the front keeps a series chained. */
  lemma SuffixKeepsChained(s: seq<Candle>, k: nat)
    requires Chained(s) && k <= |s|
    ensures Chained(s[k..])
  {
    forall i | 0 < i < |s[k..]| ensures s[k..][i].open == s[k..][i - 1].close {
      assert s[k..][i] == s[k + i] && s[k..][i - 1] == s[k + i - 1];
    }
  }

  /** At most 50 candles, each well formed, each opening at the previous close. */
  predicate ValidSeries(s: seq<Candle>) {
    |s| <= WindowSize && Chained(s) && forall i :: 0 <= i < |s| ==> WellFormed(s[i])
  }

  /** Adding the next candle and dropping the oldest beyond 50 keeps a series valid and ends it with that candle. */
  lemma PushKeepsValid(s: seq<Candle>, time: string, value: real, d: CandleDraws)
    requires ValidSeries(s)
    ensures var c := TransformData(s, time, value, d);
      var r := LastN(s + [c], WindowSize);
      ValidSeries(r) && r[|r| - 1] == c
  {
    var c := TransformData(s, time, value, d);
    var t := s + [c];
    AppendKeepsChained(s, time, value, d);
    var r := LastN(t, WindowSize);
    SuffixKeepsChained(t, |t| - |r|);
    forall i | 0 <= i < |r| ensures WellFormed(r[i]) {
      assert r[i] == t[|t| - |r| + i];
    }
  }

  /** One point of the backend's answer, with the fields the chart looks at. */
  datatype RawPoint = RawPoint(date: Option<string>, time: string,
                               close: Option<real>, value: Option<real>, open: real)

  /** A number as a JavaScript condition: absent or 0 is false. */
  predicate Truthy(x: Option<real>) {
    x.Some? && x.value != 0.0
  }

  /** `latestPoint.close || latestPoint.value || latestPoint.open`. */
  function PointValue(p: RawPoint): (v: real)
    ensures Truthy(p.close) ==> v == p.close.value
    ensures !Truthy(p.close) && Truthy(p.value) ==> v == p.value.value
    ensures !Truthy(p.close) && !Truthy(p.value) ==> v == p.open
  {
    if Truthy(p.close) then p.close.value
    else if Truthy(p.value) then p.value.value
    else p.open
  }

  /** `latestPoint.date || latestPoint.time`. */
  function PointTime(p: RawPoint): string {
    if p.date.Some? && p.date.value != "" then p.date.value else p.time
  }

  /** What one poll of the backend ends in. */
  datatype Poll = HttpError(status: int) | NetworkError | Points(points: seq<RawPoint>)

  datatype ChartError = HttpStatus(status: int) | NoData | FetchFailed

  class Chart {
    var data: seq<Candle>
    var isLoading: bool
    var error: Option<ChartError>

    ghost predicate Valid()
      reads this
    {
      ValidSeries(data)
    }

    constructor ()
      ensures Valid() && data == [] && isLoading && error == None
    {
      data := [];
      isLoading := true;
      error := None;
    }

    /**
     * `fetchNextData`: a failed request, or one with no points, records
     * the error and keeps the candles; otherwise the latest point becomes
     * a new last candle and the oldest falls out beyond 50.
     */
    method FetchNextData(poll: Poll, d: CandleDraws)
      requires Valid()
      modifies this
      ensures Valid() && !isLoading
      ensures poll.HttpError? ==> data == old(data) && error == Some(HttpStatus(poll.status))
      ensures poll.NetworkError? ==> data == old(data) && error == Some(FetchFailed)
      ensures poll.Points? && poll.points == [] ==> data == old(data) && error == Some(NoData)
      ensures poll.Points? && poll.points != [] ==>
        var latest := poll.points[|poll.points| - 1];
        var candle := TransformData(old(data), PointTime(latest), PointValue(latest), d);
        data == LastN(old(data) + [candle], WindowSize) && error == None
        && data[|data| - 1] == candle
    {
      match poll {
        case HttpError(status) =>
          error := Some(HttpStatus(status));
        case NetworkError =>
          error := Some(FetchFailed);
        case Points(points) =>
          if |points| == 0 {
            error := Some(NoData);
          } else {
            var latestPoint := points[|points| - 1];
            var newOhlc := TransformData(data, PointTime(latestPoint), PointValue(latestPoint), d);
            PushKeepsValid(data, PointTime(latestPoint), PointValue(latestPoint), d);
            var newData := data + [newOhlc];
            data := LastN(newData, WindowSize);
            error := None;
          }
      }
      isLoading := false;
    }
  }
}
