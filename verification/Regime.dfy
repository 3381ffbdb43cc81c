/** Market regime from recent bars (autopilot/regime.py): moving averages, average true range and
    the settings each regime calls for. */
module Regimes {
  import opened Domain
  import opened Arithmetic
  import opened Calibration

  datatype Bar = Bar(high: real, low: real, close: real)

  datatype AutopilotConfig = AutopilotConfig(
    enabled: bool,
    atrPeriod: int,
    emaFast: int,
    emaSlow: int,
    volLookback: int,
    highVolRatio: real,
    lowVolRatio: real,
    trendSlopeThreshold: real,
    highVolPositionScale: real,
    highVolConsecutiveDelta: int,
    highVolThresholdMult: real,
    baseTpAtrMult: real,
    baseSlAtrMult: real,
    baseConsecutiveRequired: int)

  datatype RegimeKind = UnknownRegime | NormalRegime | HighVol | LowVol | Ranging | Trending

  datatype RegimeSnapshot = RegimeSnapshot(
    kind: RegimeKind,
    atr: real,
    atrPct: real,
    slope: real,
    thresholdMult: real,
    consecutiveDelta: int,
    positionScale: real,
    tpAtrMult: real,
    slAtrMult: real)

  // ---------------------------------------------------------------- exponential moving average

  function Smoothing(period: int): (k: real)
    requires period > 0
    ensures 0.0 < k <= 1.0
  {
    2.0 / (period + 1) as real
  }

  function EmaOf(values: seq<real>, k: real): real
    requires values != []
  {
    if |values| == 1 then values[0]
    else values[|values| - 1] * k + EmaOf(values[..|values| - 1], k) * (1.0 - k)
  }

  function EmaOver(values: seq<real>, period: int): real {
    if values == [] || period <= 0 then 0.0 else EmaOf(values, Smoothing(period))
  }

  method Ema(values: seq<real>, period: int) returns (ema: real)
    ensures ema == EmaOver(values, period)
  {
    if values == [] || period <= 0 {
      return 0.0;
    }
    var k := Smoothing(period);
    ema := values[0];
    var i := 1;
    while i < |values|
      invariant 1 <= i <= |values|
      invariant ema == EmaOf(values[..i], k)
    {
      assert values[..i + 1][..i] == values[..i];
      ema := values[i] * k + ema * (1.0 - k);
      i := i + 1;
    }
    assert values[..i] == values;
  }

  lemma SmoothingTimes(period: int, x: real, y: real)
    requires period > 0
    ensures (period + 1) as real * (x * Smoothing(period) + y * (1.0 - Smoothing(period))) == 2.0 * x + (period - 1) as real * y
  {
    var n, k := (period + 1) as real, Smoothing(period);
    DivideBack(2.0, n);
    assert n * k == 2.0;
    WeightedBy(n, k, x, y);
  }

  lemma WeightedBy(n: real, k: real, x: real, y: real)
    ensures n * (x * k + y * (1.0 - k)) == (n * k) * x + (n - n * k) * y
  {
  }

  /** One value averages to itself; each further one counts twice among period + 1. */
  lemma EmaStep(values: seq<real>, x: real, period: int)
    requires period > 0
    ensures EmaOver([x], period) == x
    ensures values != [] ==>
              (period + 1) as real * EmaOver(values + [x], period) == 2.0 * x + (period - 1) as real * EmaOver(values, period)
  {
    if values != [] {
      assert (values + [x])[..|values|] == values;
      SmoothingTimes(period, x, EmaOver(values, period));
    }
  }

  ghost predicate Within(values: seq<real>, low: real, high: real) {
    forall i :: 0 <= i < |values| ==> low <= values[i] <= high
  }

  lemma Distribute(c: real, k: real, j: real)
    requires k + j == 1.0
    ensures c * k + c * j == c
  {
    assert c * k + c * j == c * (k + j);
  }

  lemma PartsMonotone(a: real, b: real, c: real, d: real, k: real, j: real)
    requires 0.0 <= k && 0.0 <= j && a <= c && b <= d
    ensures a * k + b * j <= c * k + d * j
  {
    MulMono(a, c, k);
    MulMono(b, d, j);
  }

  lemma Blend(x: real, y: real, k: real, j: real, low: real, high: real)
    requires 0.0 <= k && 0.0 <= j && k + j == 1.0 && low <= x <= high && low <= y <= high
    ensures low <= x * k + y * j <= high
  {
    PartsMonotone(low, low, x, y, k, j);
    PartsMonotone(x, y, high, high, k, j);
    Distribute(low, k, j);
    Distribute(high, k, j);
  }

  /** An average stays between the extremes of its window. */
  lemma {:induction false} EmaWithin(values: seq<real>, k: real, low: real, high: real)
    requires values != [] && 0.0 <= k <= 1.0 && Within(values, low, high)
    ensures low <= EmaOf(values, k) <= high
  {
    if |values| > 1 {
      EmaWithin(values[..|values| - 1], k, low, high);
      Blend(values[|values| - 1], EmaOf(values[..|values| - 1], k), k, 1.0 - k, low, high);
    }
  }

  // ---------------------------------------------------------------- average true range

  function TrueRange(high: real, low: real, previousClose: real): real {
    MaxReal(high - low, MaxReal(AbsReal(high - previousClose), AbsReal(low - previousClose)))
  }

  /** The true range is the distance covered since the previous close, gap included; never negative. */
  lemma TrueRangeCovers(high: real, low: real, previousClose: real)
    ensures TrueRange(high, low, previousClose) >= 0.0
    ensures low <= high ==>
              TrueRange(high, low, previousClose) == MaxReal(high, previousClose) - MinReal(low, previousClose)
  {
  }

  function TrueRanges(bars: seq<Bar>): (r: seq<real>)
    ensures |r| == Max(0, |bars| - 1)
  {
    seq(Max(0, |bars| - 1), i requires 0 <= i < |bars| - 1 => TrueRange(bars[i + 1].high, bars[i + 1].low, bars[i].close))
  }

  function Sum(values: seq<real>): real {
    if values == [] then 0.0 else Sum(values[..|values| - 1]) + values[|values| - 1]
  }

  function Mean(values: seq<real>): real {
    if values == [] then 0.0 else Sum(values) / |values| as real
  }

  function AtrFromBars(bars: seq<Bar>, period: nat): real
    requires period >= 1
  {
    if |bars| < 2 then 0.0 else Mean(LastN(TrueRanges(bars), period))
  }

  function AtrSeriesOf(bars: seq<Bar>, period: nat): seq<real>
    requires period >= 1
  {
    if |bars| < period + 1 then []
    else seq(|bars| - period, j requires 0 <= j < |bars| - period => AtrFromBars(bars[j..j + period + 1], period))
  }

  method AtrSeries(bars: seq<Bar>, period: nat) returns (series: seq<real>)
    requires period >= 1
    ensures series == AtrSeriesOf(bars, period)
  {
    hide AtrFromBars;
    series := [];
    if |bars| < period + 1 {
      return;
    }
    var i := period;
    while i < |bars|
      invariant period <= i <= |bars|
      invariant |series| == i - period
      invariant forall j :: 0 <= j < |series| ==> series[j] == AtrFromBars(bars[j..j + period + 1], period)
    {
      series := series + [AtrFromBars(bars[i - period..i + 1], period)];
      i := i + 1;
    }
  }

  /** Entry j of the series is the average over all the bars up to it. */
  lemma SeriesIsPrefixAverages(bars: seq<Bar>, period: nat, j: nat)
    requires period >= 1 && j + period < |bars|
    ensures AtrSeriesOf(bars, period)[j] == AtrFromBars(bars[..period + j + 1], period)
  {
    hide TrueRange, Mean;
    var window, prefix := bars[j..j + period + 1], bars[..period + j + 1];
    assert LastN(TrueRanges(window), period) == TrueRanges(window);
    assert LastN(TrueRanges(prefix), period) == TrueRanges(prefix)[j..];
    assert TrueRanges(window) == TrueRanges(prefix)[j..];
  }

  /** So the current average is the series' last entry. */
  lemma CurrentIsLast(bars: seq<Bar>, period: nat)
    requires period >= 1 && |bars| >= period + 1
    ensures var series := AtrSeriesOf(bars, period);
            series != [] && series[|series| - 1] == AtrFromBars(bars, period)
  {
    SeriesIsPrefixAverages(bars, period, |bars| - period - 1);
    assert bars[..|bars|] == bars;
  }

  lemma {:induction false} SumNonNegative(values: seq<real>)
    requires forall i :: 0 <= i < |values| ==> values[i] >= 0.0
    ensures Sum(values) >= 0.0
  {
    if values != [] {
      SumNonNegative(values[..|values| - 1]);
    }
  }

  lemma Ratio(a: real, b: real)
    requires a >= 0.0 && b > 0.0
    ensures a / b >= 0.0
  {
  }

  lemma AtrNonNegative(bars: seq<Bar>, period: nat)
    requires period >= 1
    ensures AtrFromBars(bars, period) >= 0.0
  {
    hide TrueRange;
    forall i | 0 <= i < |bars| - 1
      ensures TrueRanges(bars)[i] >= 0.0
    {
      TrueRangeCovers(bars[i + 1].high, bars[i + 1].low, bars[i].close);
    }
    var used := LastN(TrueRanges(bars), period);
    SumNonNegative(used);
    if used != [] {
      Ratio(Sum(used), |used| as real);
    }
  }

  /** The average range times the bars it covers is what those bars' true ranges add up to. */
  lemma AtrTotal(bars: seq<Bar>, period: nat)
    requires period >= 1 && |bars| >= 2
    ensures var used := if |bars| - 1 <= period then TrueRanges(bars) else TrueRanges(bars)[|bars| - 1 - period..];
            && |used| == Min(period, |bars| - 1)
            && AtrFromBars(bars, period) * |used| as real == Sum(used)
  {
    hide TrueRange, Sum;
    var used := LastN(TrueRanges(bars), period);
    MeanTotal(used);
  }

  lemma MeanTotal(values: seq<real>)
    requires values != []
    ensures Mean(values) * |values| as real == Sum(values)
  {
    hide Sum;
    DivideBack(Sum(values), |values| as real);
  }

  // ---------------------------------------------------------------- the regime

  predicate Enough(cfg: AutopilotConfig, bars: seq<Bar>) {
    |bars| >= Max(cfg.atrPeriod + 2, cfg.emaSlow + 2)
  }

  predicate Sane(cfg: AutopilotConfig) {
    cfg.atrPeriod >= 1 && cfg.volLookback >= 1 && cfg.emaSlow >= 1
  }

  function Closes(bars: seq<Bar>): (r: seq<real>)
    ensures |r| == |bars|
  {
    seq(|bars|, i requires 0 <= i < |bars| => bars[i].close)
  }

  function Median(values: seq<real>): real
    requires values != []
  {
    SortedAscends(values);
    Sorted(values)[|values| / 2]
  }

  /** The current average against the median of the recent ones. */
  function VolRatio(cfg: AutopilotConfig, bars: seq<Bar>): real
    requires Sane(cfg) && Enough(cfg, bars)
  {
    var median := Median(LastN(AtrSeriesOf(bars, cfg.atrPeriod), cfg.volLookback));
    if median > 0.0 then AtrFromBars(bars, cfg.atrPeriod) / median else 1.0
  }

  function TrendSlope(cfg: AutopilotConfig, bars: seq<Bar>, price: real): real
    requires Sane(cfg) && price > 0.0
  {
    var closes := LastN(Closes(bars), cfg.emaSlow);
    (EmaOver(closes, cfg.emaFast) - EmaOver(closes, cfg.emaSlow)) / price
  }

  function KindOf(cfg: AutopilotConfig, ratio: real, slope: real): RegimeKind {
    if ratio >= cfg.highVolRatio then HighVol
    else if ratio <= cfg.lowVolRatio then LowVol
    else if AbsReal(slope) < cfg.trendSlopeThreshold then Ranging
    else Trending
  }

  function SnapshotFor(cfg: AutopilotConfig, kind: RegimeKind, atr: real, price: real, slope: real): RegimeSnapshot
    requires price > 0.0
  {
    var base := RegimeSnapshot(kind, atr, atr / price, slope, 1.0, 0, 1.0, cfg.baseTpAtrMult, cfg.baseSlAtrMult);
    match kind
    case HighVol =>
      base.(thresholdMult := cfg.highVolThresholdMult, consecutiveDelta := Max(0, cfg.highVolConsecutiveDelta),
            positionScale := MaxReal(0.1, MinReal(1.0, cfg.highVolPositionScale)), slAtrMult := cfg.baseSlAtrMult * 1.25)
    case LowVol => base.(thresholdMult := 0.85)
    case Ranging => base.(thresholdMult := 1.2, consecutiveDelta := 1)
    case Trending => base.(tpAtrMult := cfg.baseTpAtrMult * 1.25)
    case _ => base
  }

  function Detected(cfg: AutopilotConfig, bars: seq<Bar>, price: real): RegimeSnapshot
    requires Sane(cfg)
  {
    if !Enough(cfg, bars) || price <= 0.0 then
      RegimeSnapshot(UnknownRegime, 0.0, 0.0, 0.0, 1.0, 0, 1.0, cfg.baseTpAtrMult, cfg.baseSlAtrMult)
    else
      var slope := TrendSlope(cfg, bars, price);
      SnapshotFor(cfg, KindOf(cfg, VolRatio(cfg, bars), slope), AtrFromBars(bars, cfg.atrPeriod), price, slope)
  }

  class RegimeDetector {
    const cfg: AutopilotConfig

    constructor (cfg: AutopilotConfig)
      ensures this.cfg == cfg
    {
      this.cfg := cfg;
    }

    method Detect(bars: seq<Bar>, price: real) returns (r: RegimeSnapshot)
      requires Sane(cfg)
      ensures r == Detected(cfg, bars, price)
    {
      hide Sorted, TrueRanges, Mean, EmaOf;
      if |bars| < Max(cfg.atrPeriod + 2, cfg.emaSlow + 2) || price <= 0.0 {
        return RegimeSnapshot(UnknownRegime, 0.0, 0.0, 0.0, 1.0, 0, 1.0, cfg.baseTpAtrMult, cfg.baseSlAtrMult);
      }
      var atr := AtrFromBars(bars, cfg.atrPeriod);
      var history := AtrSeries(bars, cfg.atrPeriod);
      var lookback := LastN(history, cfg.volLookback);
      var median := Median(lookback);
      var ratio := if median > 0.0 then atr / median else 1.0;
      var closes := LastN(Closes(bars), cfg.emaSlow);
      var fast := Ema(closes, cfg.emaFast);
      var slow := Ema(closes, cfg.emaSlow);
      var slope := (fast - slow) / price;
      var kind, thresholdMult, delta, scale := NormalRegime, 1.0, 0, 1.0;
      var tp, sl := cfg.baseTpAtrMult, cfg.baseSlAtrMult;
      if ratio >= cfg.highVolRatio {
        kind, thresholdMult, delta := HighVol, cfg.highVolThresholdMult, Max(0, cfg.highVolConsecutiveDelta);
        scale := MaxReal(0.1, MinReal(1.0, cfg.highVolPositionScale));
        sl := cfg.baseSlAtrMult * 1.25;
      } else if ratio <= cfg.lowVolRatio {
        kind, thresholdMult := LowVol, 0.85;
      } else if !(AbsReal(slope) >= cfg.trendSlopeThreshold) {
        kind, thresholdMult, delta := Ranging, 1.2, 1;
      } else {
        kind, tp := Trending, cfg.baseTpAtrMult * 1.25;
      }
      r := RegimeSnapshot(kind, atr, atr / price, slope, thresholdMult, delta, scale, tp, sl);
    }
  }

  /** Both averages lie between the extremes of the closes they read, so the slope is at most that spread over the price. */
  lemma SlopeBounded(cfg: AutopilotConfig, bars: seq<Bar>, price: real, low: real, high: real)
    requires Sane(cfg) && cfg.emaFast >= 1 && price > 0.0 && bars != []
    requires Within(LastN(Closes(bars), cfg.emaSlow), low, high)
    ensures AbsReal(TrendSlope(cfg, bars, price)) <= (high - low) / price
  {
    var closes := LastN(Closes(bars), cfg.emaSlow);
    EmaWithin(closes, Smoothing(cfg.emaFast), low, high);
    EmaWithin(closes, Smoothing(cfg.emaSlow), low, high);
    var gap := EmaOver(closes, cfg.emaFast) - EmaOver(closes, cfg.emaSlow);
    QuotientMonotone(gap, high - low, price);
    QuotientMonotone(low - high, gap, price);
    assert (low - high) / price == -((high - low) / price);
  }

  /** In the middle of the values: one of them, with no more than half below and fewer than half above. */
  predicate IsMedian(values: seq<real>, m: real) {
    m in values && CountBelow(values, m) <= |values| / 2 && CountAbove(values, m) <= |values| - 1 - |values| / 2
  }

  lemma MedianIs(values: seq<real>)
    requires values != []
    ensures IsMedian(values, Median(values))
  {
    SortedAscends(values);
    var s := Sorted(values);
    AscendingCounts(s, |values| / 2);
    SortedCounts(values, s[|values| / 2]);
    assert s[|values| / 2] in multiset(s);
  }

  lemma RatioCompares(a: real, m: real, bound: real)
    requires m > 0.0
    ensures a / m >= bound <==> a >= bound * m
    ensures a / m <= bound <==> a <= bound * m
  {
    var q := a / m;
    QuotientTimes(a, m, q);
    ScaledCompares(q, bound, m, bound * m, a);
  }

  lemma ScaledCompares(q: real, bound: real, m: real, scaled: real, a: real)
    requires m > 0.0 && scaled == bound * m && a == q * m
    ensures q >= bound <==> a >= scaled
    ensures q <= bound <==> a <= scaled
  {
    if q < bound {
      StrictMono(q, bound, m);
    } else if q > bound {
      StrictMono(bound, q, m);
    }
  }

  lemma StrictMono(a: real, b: real, c: real)
    requires a < b && c > 0.0
    ensures a * c < b * c
  {
  }

  lemma GapCompares(gap: real, price: real, bound: real)
    requires price > 0.0
    ensures AbsReal(gap / price) < bound <==> AbsReal(gap) < bound * price
  {
    RatioCompares(gap, price, bound);
    RatioCompares(gap, price, -bound);
    assert (-bound) * price == -(bound * price);
    DivideBack(gap, price);
    if gap / price >= 0.0 {
      MulMono(0.0, gap / price, price);
    } else {
      StrictMono(gap / price, 0.0, price);
    }
  }

  /** The verdict, on the current range, the median m of the recent ones and the two averages of the closes: unknown without
      enough bars or a price; then high and low volatility by the range against m (a ratio of one when m is not positive);
      then ranging while the averages are closer than the threshold's share of the price, and trending otherwise. */
  lemma VerdictExactly(cfg: AutopilotConfig, bars: seq<Bar>, price: real)
    requires Sane(cfg)
    ensures var kind := Detected(cfg, bars, price).kind;
            if |bars| < cfg.atrPeriod + 2 || |bars| < cfg.emaSlow + 2 || price <= 0.0 then kind == UnknownRegime
            else
              var recent := LastN(AtrSeriesOf(bars, cfg.atrPeriod), cfg.volLookback);
              var closes := Closes(bars)[|bars| - cfg.emaSlow..];
              var range, gap := AtrFromBars(bars, cfg.atrPeriod), EmaOver(closes, cfg.emaFast) - EmaOver(closes, cfg.emaSlow);
              exists m :: IsMedian(recent, m) &&
                var high := if m > 0.0 then range >= cfg.highVolRatio * m else 1.0 >= cfg.highVolRatio;
                var low := if m > 0.0 then range <= cfg.lowVolRatio * m else 1.0 <= cfg.lowVolRatio;
                && (kind == HighVol <==> high)
                && (kind == LowVol <==> low && !high)
                && (kind == Ranging <==> !high && !low && AbsReal(gap) < cfg.trendSlopeThreshold * price)
                && (kind == Trending <==> !high && !low && AbsReal(gap) >= cfg.trendSlopeThreshold * price)
  {
    hide AtrFromBars, EmaOver, Median, IsMedian, AtrSeriesOf, AbsReal;
    if Enough(cfg, bars) && price > 0.0 {
      SeriesLength(bars, cfg.atrPeriod);
      var recent := LastN(AtrSeriesOf(bars, cfg.atrPeriod), cfg.volLookback);
      var m := Median(recent);
      MedianIs(recent);
      if m > 0.0 {
        RatioCompares(AtrFromBars(bars, cfg.atrPeriod), m, cfg.highVolRatio);
        RatioCompares(AtrFromBars(bars, cfg.atrPeriod), m, cfg.lowVolRatio);
      }
      var closes := LastN(Closes(bars), cfg.emaSlow);
      assert closes == Closes(bars)[|bars| - cfg.emaSlow..];
      GapCompares(EmaOver(closes, cfg.emaFast) - EmaOver(closes, cfg.emaSlow), price, cfg.trendSlopeThreshold);
    }
  }

  /** What a verdict changes: high volatility widens the stop by a quarter, asks for more confirmations and shrinks the order;
      ranging asks for one more; trending widens the target by a quarter; the rest is as configured. */
  lemma VerdictSettings(cfg: AutopilotConfig, bars: seq<Bar>, price: real)
    requires Sane(cfg)
    ensures var r := Detected(cfg, bars, price);
            && r.consecutiveDelta == (if r.kind == HighVol then Max(0, cfg.highVolConsecutiveDelta)
                                      else if r.kind == Ranging then 1 else 0)
            && r.positionScale == (if r.kind != HighVol || cfg.highVolPositionScale > 1.0 then 1.0
                                   else if cfg.highVolPositionScale < 0.1 then 0.1 else cfg.highVolPositionScale)
            && r.tpAtrMult * 4.0 == cfg.baseTpAtrMult * (if r.kind == Trending then 5.0 else 4.0)
            && r.slAtrMult * 4.0 == cfg.baseSlAtrMult * (if r.kind == HighVol then 5.0 else 4.0)
            && (r.kind != UnknownRegime ==> r.atr == AtrFromBars(bars, cfg.atrPeriod) && r.atrPct * price == r.atr)
  {
    hide AtrFromBars, VolRatio, TrendSlope;
    if Enough(cfg, bars) && price > 0.0 {
      DivideBack(AtrFromBars(bars, cfg.atrPeriod), price);
    }
  }

  lemma SeriesLength(bars: seq<Bar>, period: nat)
    requires period >= 1 && |bars| >= period + 1
    ensures |AtrSeriesOf(bars, period)| == |bars| - period
  {
  }

  /** Reported as high volatility (with a ratio above 1), the current average exceeds more than half of those it is
      compared with. */
  lemma HighVolExceedsMost(cfg: AutopilotConfig, bars: seq<Bar>, price: real)
    requires Sane(cfg) && cfg.highVolRatio > 1.0 && Detected(cfg, bars, price).kind == HighVol
    ensures Enough(cfg, bars)
    ensures var lookback := LastN(AtrSeriesOf(bars, cfg.atrPeriod), cfg.volLookback);
            CountBelow(lookback, Detected(cfg, bars, price).atr) > |lookback| / 2
  {
    hide Sorted, AtrFromBars, TrendSlope;
    var lookback := LastN(AtrSeriesOf(bars, cfg.atrPeriod), cfg.volLookback);
    var atr, m := AtrFromBars(bars, cfg.atrPeriod), Median(lookback);
    assert m > 0.0 && atr / m > 1.0;
    ExceedsDivisor(atr, m);
    SortedAscends(lookback);
    AscendingCounts(Sorted(lookback), |lookback| / 2);
    SortedCounts(lookback, m);
    SplitCount(lookback, m, atr);
  }

  lemma ExceedsDivisor(a: real, b: real)
    requires b > 0.0 && a / b > 1.0
    ensures a > b
  {
    var q := a / b;
    QuotientTimes(a, b, q);
    StrictlyMore(q, b);
  }

  lemma StrictlyMore(q: real, b: real)
    requires q > 1.0 && b > 0.0
    ensures q * b > b
  {
  }

  lemma {:induction false} SplitCount(s: seq<real>, m: real, v: real)
    requires m < v
    ensures CountBelow(s, v) >= |s| - CountAbove(s, m)
  {
    if s != [] {
      SplitCount(s[1..], m, v);
    }
  }

  // ---------------------------------------------------------------- a calm market

  const CALM: AutopilotConfig := AutopilotConfig(true, 1, 1, 1, 2, 1.5, 0.7, 0.001, 0.5, 2, 1.3, 1.5, 1.0, 2)

  /** A range of ten, then one of one. */
  const QUIETING: seq<Bar> := [Bar(100.0, 100.0, 100.0), Bar(110.0, 100.0, 100.0), Bar(101.0, 100.0, 100.0)]

  lemma AtrOfTwo(first: Bar, second: Bar)
    ensures AtrFromBars([first, second], 1) == TrueRange(second.high, second.low, first.close)
  {
    hide TrueRange;
    MeanOfOne(TrueRange(second.high, second.low, first.close));
    assert TrueRanges([first, second]) == [TrueRange(second.high, second.low, first.close)];
  }

  lemma MeanOfOne(x: real)
    ensures Mean([x]) == x
  {
    assert [x][..0] == [];
    assert Sum([x]) == Sum([]) + x;
  }

  lemma QuietingRanges()
    ensures AtrSeriesOf(QUIETING, 1) == [10.0, 1.0] && AtrFromBars(QUIETING, 1) == 1.0
  {
    hide AtrFromBars;
    AtrOfTwo(QUIETING[0], QUIETING[1]);
    AtrOfTwo(QUIETING[1], QUIETING[2]);
    assert QUIETING[0..2] == [QUIETING[0], QUIETING[1]] && QUIETING[1..3] == [QUIETING[1], QUIETING[2]];
    CurrentIsLast(QUIETING, 1);
  }

  lemma MedianOfTwo(a: real, b: real)
    requires b < a
    ensures Median([a, b]) == a
  {
    assert [a, b][1..] == [b] && [b][1..] == [];
    assert Sorted([b]) == Insert(b, []) == [b];
    assert Insert(a, [b]) == (if a <= b then [a] + [b] else [b] + Insert(a, [])) == [b, a];
    assert Sorted([a, b]) == Insert(a, Sorted([b]));
  }

  /** The low_vol verdict is reachable: the current range is a tenth of the median. */
  lemma CalmIsLowVol()
    ensures Sane(CALM) && CALM.enabled && Detected(CALM, QUIETING, 100.0).kind == LowVol
  {
    hide AtrFromBars, TrendSlope, Median, AtrSeriesOf;
    QuietingRanges();
    MedianOfTwo(10.0, 1.0);
    assert VolRatio(CALM, QUIETING) == 0.1;
  }

  // ---------------------------------------------------------------- take-profit and stop-loss distances

  function TpSlPct(price: real, atr: real, tpMult: real, slMult: real, minTp: real, minSl: real): (real, real) {
    if price <= 0.0 || atr <= 0.0 then (0.0, 0.0)
    else (MaxReal(MaxReal(atr * tpMult / price, minTp), 0.0), MaxReal(MaxReal(atr * slMult / price, minSl), 0.0))
  }

  /** With a positive range and price the distances are at least the cost floor and at least the chosen multiples of
      the range; otherwise both are zero. */
  lemma DistancesCoverCost(price: real, atr: real, tpMult: real, slMult: real, minTp: real, minSl: real)
    ensures var (tp, sl) := TpSlPct(price, atr, tpMult, slMult, minTp, minSl);
            && tp >= 0.0 && sl >= 0.0
            && (price > 0.0 && atr > 0.0 ==>
                  tp >= minTp && sl >= minSl && tp * price >= atr * tpMult && sl * price >= atr * slMult
                  && (tp == minTp || tp * price == atr * tpMult || tp == 0.0)
                  && (sl == minSl || sl * price == atr * slMult || sl == 0.0))
            && (price <= 0.0 || atr <= 0.0 ==> tp == 0.0 && sl == 0.0)
  {
    if price > 0.0 && atr > 0.0 {
      var (tp, sl) := TpSlPct(price, atr, tpMult, slMult, minTp, minSl);
      CoversShare(atr * tpMult, price, tp);
      CoversShare(atr * slMult, price, sl);
    }
  }

  lemma CoversShare(a: real, price: real, pct: real)
    requires price > 0.0 && pct >= a / price
    ensures pct * price >= a
  {
    var q := a / price;
    QuotientTimes(a, price, q);
    MulMono(q, pct, price);
  }
}
