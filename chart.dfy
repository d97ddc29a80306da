/**
 * The chart page's logic: the candle width for a number of candles, the
 * live price appended to the history, the visible slice of the line chart,
 * and the zoom that changes how many points are shown. Rendering, axis
 * formatting and the time padding of the candlestick window are not part
 * of this model.
 */
module Chart {
  import opened JsValues
  import opened Http

  const InitialDataPoints: int := 1440
  const MinDataPoints: int := 60
  const MaxDataPoints: int := 1440
  const DefaultCoin: string := "BTC"

  /** One point of the line chart: an ISO time and a price. */
  datatype ChartPoint = ChartPoint(time: string, price: real)

  /** `calculateCandleWidth(dataLength)` */
  function CandleWidth(n: int): (w: int)
    ensures w == 40 || w == 20 || w == 15 || w == 10 || w == 5
    ensures w == 40 <==> n <= 10
    ensures w == 20 <==> 10 < n <= 30
    ensures w == 15 <==> 30 < n <= 50
    ensures w == 10 <==> 50 < n <= 100
    ensures w == 5 <==> n > 100
  {
    if n <= 10 then 40
    else if n <= 30 then 20
    else if n <= 50 then 15
    else if n <= 100 then 10
    else 5
  }

  /** More candles never get wider ones. */
  lemma CandleWidthNonIncreasing(a: int, b: int)
    requires a <= b
    ensures CandleWidth(b) <= CandleWidth(a)
  {
  }

  /** No two points share a time. */
  predicate DistinctTimes(s: seq<ChartPoint>)
  {
    forall i, j :: 0 <= i < j < |s| ==> s[i].time != s[j].time
  }

  /** The update applied for a live price: appended unless a point already has its time. */
  function AppendLive(data: seq<ChartPoint>, time: string, price: real): (r: seq<ChartPoint>)
    ensures (exists i :: 0 <= i < |data| && data[i].time == time) ==> r == data
    ensures (forall i :: 0 <= i < |data| ==> data[i].time != time) ==> r == data + [ChartPoint(time, price)]
    ensures |data| <= |r| <= |data| + 1 && r[..|data|] == data
    ensures DistinctTimes(data) ==> DistinctTimes(r)
  {
    if exists i :: 0 <= i < |data| && data[i].time == time then data
    else data + [ChartPoint(time, price)]
  }

  /** `s.slice(-n)`; note that `slice(-0)` is the whole array. */
  function LastItems<T>(s: seq<T>, n: nat): (r: seq<T>)
    ensures n == 0 ==> r == s
    ensures n > 0 ==> |r| == (if n < |s| then n else |s|)
    ensures r == s[|s| - |r|..]
  {
    if n == 0 || n >= |s| then s else s[|s| - n..]
  }

  /** `Math.max(MIN_DATA_POINTS, Math.min(MAX_DATA_POINTS, newPoints))` */
  function Clamp(newPoints: int): (c: int)
    ensures MinDataPoints <= c <= MaxDataPoints
    ensures MinDataPoints <= newPoints <= MaxDataPoints ==> c == newPoints
    ensures newPoints < MinDataPoints ==> c == MinDataPoints
    ensures newPoints > MaxDataPoints ==> c == MaxDataPoints
  {
    if newPoints > MaxDataPoints then MaxDataPoints
    else if newPoints < MinDataPoints then MinDataPoints
    else newPoints
  }

  /** The candle indices `(startIndex, lastIndex)` the zoomed candlestick view spans. */
  function Window(clamped: int, count: nat): (w: (int, int))
    requires count > 0 && clamped >= MinDataPoints
    ensures 0 <= w.0 <= w.1 == count - 1
    ensures w.1 - w.0 + 1 == (if clamped < count then clamped else count)
  {
    var visible := if clamped < count then clamped else count;
    var lastIndex := count - 1;
    var startIndex := if lastIndex - visible + 1 > 0 then lastIndex - visible + 1 else 0;
    (startIndex, lastIndex)
  }

  /** The page's state. */
  class ChartState {
    var selectedCoin: string
    var historicalData: seq<ChartPoint>
    var loading: bool
    var historyFailed: bool
    var dataPoints: int
    var showCandlestick: bool
    /** The candle index range of `xExtents`, before padding; `None` is null. */
    var xExtents: Option<(int, int)>

    /** The zoom level always stays within one hour and one day of points. */
    predicate Valid()
      reads this
    {
      MinDataPoints <= dataPoints <= MaxDataPoints
    }

    constructor ()
      ensures Valid()
      ensures selectedCoin == DefaultCoin && historicalData == [] && loading && !historyFailed
      ensures dataPoints == InitialDataPoints && !showCandlestick && xExtents == None
    {
      selectedCoin := DefaultCoin;
      historicalData := [];
      loading := true;
      historyFailed := false;
      dataPoints := InitialDataPoints;
      showCandlestick := false;
      xExtents := None;
    }

    /** `lineChartData`: the last `dataPoints` points. */
    function LineChartData(): (r: seq<ChartPoint>)
      reads this
      requires Valid()
      ensures |r| == (if dataPoints < |historicalData| then dataPoints else |historicalData|)
      ensures r == historicalData[|historicalData| - |r|..]
    {
      LastItems(historicalData, dataPoints as nat)
    }

    /**
     * The history effect starts a request for the selected coin, on mount
     * and on every coin change: loading starts and the last error is cleared.
     */
    method HistoryRequested()
      modifies this
      ensures loading && !historyFailed
      ensures selectedCoin == old(selectedCoin) && historicalData == old(historicalData)
      ensures dataPoints == old(dataPoints) && xExtents == old(xExtents)
      ensures showCandlestick == old(showCandlestick)
    {
      loading := true;
      historyFailed := false;
    }

    /** The history request settles: its points replace the data, or the error is recorded. */
    method HistoryLoaded(reply: Reply<seq<ChartPoint>>)
      modifies this
      ensures !loading
      ensures reply.Ok? ==> historicalData == reply.data && !historyFailed
      ensures reply.Fail? ==> historicalData == old(historicalData) && historyFailed
      ensures selectedCoin == old(selectedCoin) && dataPoints == old(dataPoints) && xExtents == old(xExtents)
      ensures showCandlestick == old(showCandlestick)
    {
      match reply {
        case Ok(points) =>
          historicalData := points;
          historyFailed := false;
        case Fail(_, _, _) =>
          historyFailed := true;
      }
      loading := false;
    }

    /** The live-price effect: a published price is appended once per distinct time. */
    method OnPrice(priceTime: Option<string>, price: real)
      modifies this
      ensures priceTime.None? ==> historicalData == old(historicalData)
      ensures priceTime.Some? ==> historicalData == AppendLive(old(historicalData), priceTime.value, price)
      ensures selectedCoin == old(selectedCoin) && dataPoints == old(dataPoints) && xExtents == old(xExtents)
      ensures loading == old(loading) && historyFailed == old(historyFailed)
      ensures showCandlestick == old(showCandlestick)
    {
      if priceTime.Some? {
        var t := priceTime.value;
        var seen := exists i :: 0 <= i < |historicalData| && historicalData[i].time == t;
        if !seen {
          historicalData := historicalData + [ChartPoint(t, price)];
        }
      }
    }

    /**
     * `handleWheel`, given the rounded new point count and the number of
     * candles: the count is clamped; with candles shown, the view spans the
     * last candles that fit.
     */
    method HandleWheel(newPoints: int, candleCount: nat)
      modifies this
      ensures dataPoints == Clamp(newPoints)
      ensures showCandlestick && candleCount > 0 ==> xExtents == Some(Window(dataPoints, candleCount))
      ensures !(showCandlestick && candleCount > 0) ==> xExtents == old(xExtents)
      ensures historicalData == old(historicalData) && selectedCoin == old(selectedCoin)
      ensures showCandlestick == old(showCandlestick)
      ensures loading == old(loading) && historyFailed == old(historyFailed)
      ensures Valid()
    {
      var clamped := if newPoints > MaxDataPoints then MaxDataPoints
                     else if newPoints < MinDataPoints then MinDataPoints
                     else newPoints;
      if showCandlestick && candleCount > 0 {
        var visible := if clamped < candleCount then clamped else candleCount;
        var lastIndex := candleCount - 1;
        var startIndex := if lastIndex - visible + 1 > 0 then lastIndex - visible + 1 else 0;
        xExtents := Some((startIndex, lastIndex));
      }
      dataPoints := clamped;
    }

    /** The chart-type buttons: `setShowCandlestick(false)` for the line chart, `true` for candles. */
    method ShowCandlestick(show: bool)
      modifies this
      ensures showCandlestick == show
      ensures selectedCoin == old(selectedCoin) && historicalData == old(historicalData)
      ensures dataPoints == old(dataPoints) && xExtents == old(xExtents)
      ensures loading == old(loading) && historyFailed == old(historyFailed)
    {
      showCandlestick := show;
    }

    /** `handleCoinChange(newCoin)` */
    method HandleCoinChange(newCoin: string)
      modifies this
      ensures selectedCoin == newCoin && xExtents == None
      ensures historicalData == old(historicalData) && dataPoints == old(dataPoints)
      ensures showCandlestick == old(showCandlestick)
      ensures loading == old(loading) && historyFailed == old(historyFailed)
    {
      selectedCoin := newCoin;
      xExtents := None;
    }
  }

  /** With candles shown, zooming in to 100 points over 500 candles views the last 100 of them. */
  method ZoomOverCandles() returns (c: ChartState)
    ensures c.showCandlestick && c.dataPoints == 100 && c.xExtents == Some((400, 499))
  {
    c := new ChartState();
    c.ShowCandlestick(true);
    c.HandleWheel(100, 500);
  }
}
