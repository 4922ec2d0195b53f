/** The candlestick classifier: the simple-moving-average trend filter and the
    hammer, bullish-engulfing and piercing-line tests over a daily series. */
module Candles {
  import opened Wrappers
  import opened Dates

  /** One row of a daily download: its date and the OHLC prices. */
  datatype Bar = Bar(date: CalendarDate, open: real, high: real, low: real, close: real)

  /** A download, oldest bar first. */
  type Series = seq<Bar>

  /** The windows of the trend filter: the 20-day mean against the 50-day mean. */
  const ShortWindow: nat := 20
  const LongWindow: nat := 50
  /** The history guard each pattern applies before asking for the trend (`index >= 5`). */
  const HistoryGuard: nat := 5

  /** Hammer thresholds. */
  const BodyRatio: real := 0.3
  const LowerWickRatio: real := 2.0
  const UpperShadowRatio: real := 0.1

  function Sum(xs: seq<real>): real {
    if xs == [] then 0.0 else Sum(xs[..|xs| - 1]) + xs[|xs| - 1]
  }

  /** The `Close` column. */
  function Closes(data: Series): seq<real> {
    seq(|data|, i requires 0 <= i < |data| => data[i].close)
  }

  /** `calculate_sma(closes, window).iloc[index]`: `rolling(window).mean()` is
      the mean of the `window` values ending at `index`, and is missing (NaN)
      while fewer than `window` values exist. */
  function Sma(closes: seq<real>, window: nat, index: nat): (r: Option<real>)
    requires 0 < window && index < |closes|
    ensures r.Some? <==> window <= index + 1
  {
    if window <= index + 1 then Some(Sum(closes[index + 1 - window .. index + 1]) / window as real)
    else None
  }

  /** `is_downtrend`: the short mean is strictly below the long mean at `index`.
      Any comparison with a missing mean is false. */
  predicate IsDownTrend(data: Series, shortWindow: nat, longWindow: nat, index: nat): (r: bool)
    requires 0 < shortWindow && 0 < longWindow && index < |data|
    ensures r ==> shortWindow <= index + 1 && longWindow <= index + 1
  {
    var short := Sma(Closes(data), shortWindow, index);
    var long := Sma(Closes(data), longWindow, index);
    short.Some? && long.Some? && short.value < long.value
  }

  /** The trend condition all three patterns share: `index >= 5` and then the
      20/50 downtrend, false below the guard. */
  predicate TrendGate(data: Series, index: nat): (r: bool)
    requires index < |data|
    ensures r ==> HistoryGuard <= index && LongWindow <= index + 1
  {
    if index >= HistoryGuard then IsDownTrend(data, ShortWindow, LongWindow, index) else false
  }

  function Abs(x: real): real { if x < 0.0 then -x else x }
  function Min(x: real, y: real): real { if x <= y then x else y }
  function Max(x: real, y: real): real { if x >= y then x else y }

  /** `num / den <= bound` on floating-point numbers with a positive `bound`:
      dividing by zero gives +inf, NaN or -inf (for a positive, zero or
      negative numerator), so the test then holds only for a negative numerator. */
  predicate RatioAtMost(num: real, den: real, bound: real): (r: bool)
    ensures den > 0.0 ==> (r <==> num <= bound * den)
    ensures den < 0.0 ==> (r <==> bound * den <= num)
    ensures den == 0.0 ==> (r <==> num < 0.0)
  {
    if den == 0.0 then num < 0.0
    else
      var q := num / den;
      assert q * den == num;
      if den > 0.0 then ScaleOrder(q, bound, den); q <= bound
      else ScaleOrder(q, bound, -den); q <= bound
  }

  /** `is_hammer(candle, data, index)`: small body, long lower wick, small upper
      shadow, open differs from close, inside a downtrend. */
  predicate IsHammer(candle: Bar, data: Series, index: nat): (r: bool)
    requires index < |data|
    ensures r ==> candle.open != candle.close && candle.high != candle.low
    ensures r ==> candle.low < Min(candle.open, candle.close)
    ensures r ==> TrendGate(data, index)
  {
    var body := Abs(candle.close - candle.open);
    var total := candle.high - candle.low;
    var lowerWick := Min(candle.open, candle.close) - candle.low;
    var upperShadow := candle.high - Max(candle.open, candle.close);
    var smallBody := RatioAtMost(body, total, BodyRatio);
    var longLowerWick := lowerWick >= LowerWickRatio * body;
    var smallUpperShadow := RatioAtMost(upperShadow, total, UpperShadowRatio);
    var bodied := candle.open != candle.close;
    smallBody && longLowerWick && smallUpperShadow && bodied && TrendGate(data, index)
  }

  /** A bullish bar after a bearish one whose body it covers. */
  predicate EngulfingShape(previous: Bar, current: Bar) {
    && current.close > current.open
    && previous.close < previous.open
    && current.close > previous.open
    && current.open < previous.close
  }

  /** A bullish bar opening below a bearish one's close and closing above its body's midpoint. */
  predicate PiercingShape(previous: Bar, current: Bar) {
    && current.close > current.open
    && previous.close < previous.open
    && current.close > (previous.open + previous.close) / 2.0
    && current.open < previous.close
  }

  /** `is_engulfing(data, index)`; false at index 0, which has no previous bar. */
  predicate IsEngulfing(data: Series, index: nat): (r: bool)
    requires index < |data|
    ensures r ==> 1 <= index && TrendGate(data, index)
    ensures r ==> data[index].open < data[index - 1].close < data[index - 1].open < data[index].close
  {
    if index == 0 then false
    else EngulfingShape(data[index - 1], data[index]) && TrendGate(data, index)
  }

  /** `is_piercing_line(data, index)`; false at index 0, which has no previous bar. */
  predicate IsPiercingLine(data: Series, index: nat): (r: bool)
    requires index < |data|
    ensures r ==> 1 <= index && TrendGate(data, index)
    ensures r ==> data[index].open < data[index - 1].close < data[index].close
    ensures r ==> data[index - 1].close < data[index - 1].open
  {
    if index == 0 then false
    else PiercingShape(data[index - 1], data[index]) && TrendGate(data, index)
  }

  // ----- properties -----

  lemma {:induction false} SumBounds(xs: seq<real>, lo: real, hi: real)
    requires forall j :: 0 <= j < |xs| ==> lo <= xs[j] <= hi
    ensures lo * |xs| as real <= Sum(xs) <= hi * |xs| as real
  {
    if xs != [] {
      SumBounds(xs[..|xs| - 1], lo, hi);
    }
  }

  /** A defined moving average lies within the range of the closes it averages. */
  lemma SmaWithinWindow(closes: seq<real>, window: nat, index: nat, lo: real, hi: real)
    requires 0 < window <= index + 1 && index < |closes|
    requires forall j :: index + 1 - window <= j <= index ==> lo <= closes[j] <= hi
    ensures Sma(closes, window, index).Some?
    ensures lo <= Sma(closes, window, index).value <= hi
  {
    var xs := closes[index + 1 - window .. index + 1];
    assert |xs| == window;
    SumBounds(xs, lo, hi);
    MeanBounds(Sum(xs), window as real, lo, hi);
    assert Sma(closes, window, index) == Some(Sum(xs) / window as real);
  }

  /** A sum between `lo * w` and `hi * w` has its mean over `w` between `lo` and `hi`. */
  lemma MeanBounds(s: real, w: real, lo: real, hi: real)
    requires w > 0.0 && lo * w <= s <= hi * w
    ensures lo <= s / w <= hi
  {
    var m := s / w;
    assert m * w == s;
    ScaleOrder(lo, m, w);
    ScaleOrder(m, hi, w);
  }

  lemma MeanLessIffCrossed(a: real, s: real, b: real, l: real)
    requires s > 0.0 && l > 0.0
    ensures a / s < b / l <==> a * l < b * s
  {
    var x, y := a / s, b / l;
    assert x * s == a && y * l == b;
    assert a * l == x * (s * l) && b * s == y * (s * l);
    ScaleOrder(y, x, s * l);
  }

  lemma ScaleOrder(x: real, y: real, k: real)
    requires k > 0.0
    ensures x <= y <==> x * k <= y * k
  {
    assert (y - x) * k == y * k - x * k;
  }

  /** The trend filter without division: the short mean is below the long one
      exactly when both windows are full and `sum_short * long < sum_long * short`. */
  lemma DownTrendCrossMultiplied(data: Series, shortWindow: nat, longWindow: nat, index: nat)
    requires 0 < shortWindow && 0 < longWindow && index < |data|
    ensures IsDownTrend(data, shortWindow, longWindow, index) <==>
      && shortWindow <= index + 1
      && longWindow <= index + 1
      && Sum(Closes(data)[index + 1 - shortWindow .. index + 1]) * longWindow as real
         < Sum(Closes(data)[index + 1 - longWindow .. index + 1]) * shortWindow as real
  {
    if shortWindow <= index + 1 && longWindow <= index + 1 {
      MeanLessIffCrossed(Sum(Closes(data)[index + 1 - shortWindow .. index + 1]), shortWindow as real,
                         Sum(Closes(data)[index + 1 - longWindow .. index + 1]), longWindow as real);
    }
  }

  /** With windows 20 and 50 the filter needs 50 closes: it is false for every
      index below 49, although each pattern only guards with `index >= 5`. */
  lemma DownTrendNeedsLongWindow(data: Series, index: nat)
    requires index < |data| && index < LongWindow - 1
    ensures !IsDownTrend(data, ShortWindow, LongWindow, index)
    ensures !TrendGate(data, index)
  {
  }

  /** Every pattern is rejected where the trend filter is false, in particular at
      every index below 49, and the two-bar patterns at index 0. */
  lemma PatternsNeedDownTrend(data: Series, index: nat)
    requires index < |data|
    requires index < HistoryGuard || !IsDownTrend(data, ShortWindow, LongWindow, index)
    ensures !IsHammer(data[index], data, index)
    ensures !IsEngulfing(data, index)
    ensures !IsPiercingLine(data, index)
  {
  }

  lemma PatternsAtFirstBar(data: Series)
    requires 0 < |data|
    ensures !IsEngulfing(data, 0) && !IsPiercingLine(data, 0)
  {
  }

  /** A bar without a body is never a hammer; so a well-formed bar with
      `high == low` is not one either, and no division by zero is involved. */
  lemma HammerNeedsBody(candle: Bar, data: Series, index: nat)
    requires index < |data|
    requires candle.open == candle.close
             || (candle.low <= candle.open <= candle.high && candle.low <= candle.close <= candle.high
                 && candle.high == candle.low)
    ensures !IsHammer(candle, data, index)
  {
  }

  /** Engulfing is the stronger shape: whenever it holds, the piercing-line test holds too. */
  lemma EngulfingIsPiercing(data: Series, index: nat)
    requires index < |data| && IsEngulfing(data, index)
    ensures IsPiercingLine(data, index)
  {
  }
}
