/**
 * The market-data candlestick panel (`RandomGraph`): the polled series
 * kept to its last 50 points, the vertical scale that maps prices to
 * pixel rows, candle colour and body height, and the spacing of the time
 * labels along the x axis.
 */
module RandomGraph {
  import opened Common

  /** The number of points the panel keeps. */
  const WindowSize: nat := 50

  /** The drawing height of the chart, in pixels. */
  const ChartHeight: real := 250.0

  datatype DataPoint = DataPoint(time: string, open: real, high: real, low: real, close: real, volume: int)

  /** The series after a poll: the last 50 of the old points followed by the new ones. */
  function Merge(prev: seq<DataPoint>, incoming: seq<DataPoint>): (r: seq<DataPoint>)
    ensures |r| == Min(WindowSize, |prev| + |incoming|)
    ensures r == (prev + incoming)[|prev| + |incoming| - |r|..]
  {
    LastN(prev + incoming, WindowSize)
  }

  /** The freshly fetched points always end the series. */
  lemma MergeEndsWithIncoming(prev: seq<DataPoint>, incoming: seq<DataPoint>)
    ensures |incoming| <= WindowSize ==> Merge(prev, incoming)[|Merge(prev, incoming)| - |incoming|..] == incoming
    ensures |incoming| > WindowSize ==> Merge(prev, incoming) == incoming[|incoming| - WindowSize..]
  {
    if |incoming| <= WindowSize {
      LastNKeepsTail(prev, incoming, WindowSize);
    } else {
      var s := prev + incoming;
      assert s[|s| - WindowSize..] == incoming[|incoming| - WindowSize..];
    }
  }

  /** A candle is drawn green when it closed at or above its open. */
  predicate IsGreen(p: DataPoint) {
    p.close >= p.open
  }

  /** The height of a candle's body: the distance between open and close. */
  function BodyHeight(p: DataPoint): (h: real)
    ensures h >= 0.0
    ensures IsGreen(p) ==> h == p.close - p.open
    ensures !IsGreen(p) ==> h == p.open - p.close
  {
    AbsR(p.close - p.open)
  }

  /** A body spans from the lower to the higher of open and close. */
  lemma BodySpan(p: DataPoint)
    ensures MinR(p.open, p.close) + BodyHeight(p) == MaxR(p.open, p.close)
  {
  }

  /**
   * `getY`: the pixel row of a price, with the chart's lowest low at the
   * bottom and its highest high at the top.
   */
  function GetY(value: real, minValue: real, maxValue: real): real
    requires minValue < maxValue
  {
    ChartHeight - (value - minValue) / (maxValue - minValue) * ChartHeight
  }

  /** The top of the scale is row 0, the bottom is the chart's height, and higher prices are higher up. */
  lemma GetYScale(minValue: real, maxValue: real, v: real, w: real)
    requires minValue < maxValue
    ensures GetY(maxValue, minValue, maxValue) == 0.0
    ensures GetY(minValue, minValue, maxValue) == ChartHeight
    ensures v < w ==> GetY(v, minValue, maxValue) > GetY(w, minValue, maxValue)
    ensures minValue <= v <= maxValue ==> 0.0 <= GetY(v, minValue, maxValue) <= ChartHeight
  {
    var range := maxValue - minValue;
    assert (maxValue - minValue) / range == 1.0;
    if v < w {
      assert (w - minValue) / range - (v - minValue) / range == (w - v) / range;
    }
    if minValue <= v <= maxValue {
      assert (v - minValue) / range <= 1.0;
    }
  }

  /** `Math.ceil(n / 6)` for a positive count: the step between labelled points. */
  function LabelStride(n: nat): (k: nat)
    requires n > 0
    ensures k >= 1 && 6 * (k - 1) < n <= 6 * k
  {
    (n + 5) / 6
  }

  /** A multiple of k leaves no remainder and divides back. */
  lemma MultipleOf(j: nat, k: nat)
    requires k > 0
    ensures (j * k) % k == 0 && (j * k) / k == j
  {
    DivModUnique(j * k, k, j, 0);
  }

  /** j * k stays at or below a exactly when j stays at or below a / k. */
  lemma ScaledBelow(j: nat, k: nat, a: nat)
    requires k > 0
    ensures j * k <= a <==> j <= a / k
  {
    var q := a / k;
    assert a == q * k + a % k;
    if j <= q {
      assert j * k <= q * k;
    } else {
      assert j * k >= (q + 1) * k == q * k + k;
    }
  }

  /** The indices of the labelled points: every stride-th one, starting at 0. */
  function LabelIndices(n: nat): (r: seq<nat>)
    requires n > 0
    ensures |r| <= 6
    ensures forall j :: 0 <= j < |r| ==> r[j] == j * LabelStride(n) && r[j] < n
  {
    var k := LabelStride(n);
    var count := (n - 1) / k + 1;
    assert count <= 6 by {
      ScaledBelow(6, k, n - 1);
    }
    assert forall j :: 0 <= j < count ==> j * k < n by {
      forall j | 0 <= j < count ensures j * k < n {
        ScaledBelow(j, k, n - 1);
      }
    }
    seq(count, j requires 0 <= j < count => j * k)
  }

  /**
   * An index is labelled exactly when it is a multiple of the stride, as
   * the x-axis filter keeps it, and at most six indices are.
   */
  lemma LabelIndicesAreFilter(n: nat, i: nat)
    requires n > 0 && i < n
    ensures i % LabelStride(n) == 0 <==> i in LabelIndices(n)
  {
    var k := LabelStride(n);
    var r := LabelIndices(n);
    if i % k == 0 {
      var j := i / k;
      assert i == j * k;
      ScaledBelow(j, k, n - 1);
      assert r[j] == i;
    }
    if i in r {
      var j :| 0 <= j < |r| && r[j] == i;
      MultipleOf(j, k);
    }
  }

  /** What one request for points ends in. */
  datatype Fetch = Failed | Fetched(points: seq<DataPoint>)

  class Panel {
    var data: seq<DataPoint>
    var isLoading: bool
    var error: Option<string>
    var mounted: bool

    constructor ()
      ensures data == [] && isLoading && error == None && mounted
    {
      data := [];
      isLoading := true;
      error := None;
      mounted := true;
    }

    /** The first load replaces the series with what was fetched, whatever its length. */
    method LoadInitialData(f: Fetch)
      modifies this
      ensures !mounted ==> data == old(data) && isLoading == old(isLoading) && error == old(error)
      ensures mounted && f.Fetched? ==> data == f.points && !isLoading && error == None
      ensures mounted && f.Failed? ==>
        data == old(data) && !isLoading && error == Some("Failed to load stock data")
      ensures mounted == old(mounted)
    {
      if !mounted {
        return;
      }
      match f {
        case Fetched(points) =>
          data := points;
          isLoading := false;
          error := None;
        case Failed =>
          error := Some("Failed to load stock data");
          isLoading := false;
      }
    }

    /** One tick of the 5-second poll: new points are merged in, a failure only sets the error. */
    method PollUpdate(f: Fetch)
      modifies this
      ensures !mounted ==> data == old(data) && error == old(error)
      ensures mounted && f.Fetched? ==>
        data == Merge(old(data), f.points) && |data| <= WindowSize && error == None
      ensures mounted && f.Failed? ==> data == old(data) && error == Some("Failed to update stock data")
      ensures isLoading == old(isLoading) && mounted == old(mounted)
    {
      if !mounted {
        return;
      }
      match f {
        case Fetched(points) =>
          data := LastN(data + points, WindowSize);
          error := None;
        case Failed =>
          error := Some("Failed to update stock data");
      }
    }

    /** Unmounting stops all further updates. */
    method Unmount()
      modifies this
      ensures !mounted && data == old(data) && isLoading == old(isLoading) && error == old(error)
    {
      mounted := false;
    }
  }
}
