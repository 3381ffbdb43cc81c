/** The adaptive threshold (autopilot/calibration.py): a percentile of the recent |score| window,
    never below the configured floor. */
module Calibration {
  import opened Domain
  import opened Arithmetic

  const MIN_WINDOW: nat := 10
  const MIN_SAMPLES: nat := 5

  datatype Calibrator = Calibrator(window: nat, minSamples: nat, percentile: real, k: real, scores: seq<real>)

  function NewCalibrator(window: int, minSamples: int, percentile: real, k: real): (c: Calibrator)
    ensures c.window >= 10 && c.minSamples >= 5 && 50.0 <= c.percentile <= 99.0 && c.k >= 0.1 && Valid(c)
    ensures c.scores == [] && (window >= 10 ==> c.window == window) && (minSamples >= 5 ==> c.minSamples == minSamples)
    ensures (50.0 <= percentile <= 99.0 ==> c.percentile == percentile) && (k >= 0.1 ==> c.k == k)
  {
    Calibrator(Max(MIN_WINDOW, window), Max(MIN_SAMPLES, minSamples), MinReal(99.0, MaxReal(50.0, percentile)),
               MaxReal(0.1, k), [])
  }

  predicate Valid(c: Calibrator) {
    && c.window >= 1 && c.minSamples >= 1 && 0.0 <= c.percentile <= 100.0 && c.k > 0.0
    && |c.scores| <= c.window && forall i :: 0 <= i < |c.scores| ==> c.scores[i] >= 0.0
  }

  // ---------------------------------------------------------------- the window

  function Push(window: nat, scores: seq<real>, score: real): seq<real> {
    LastN(scores + [AbsReal(score)], window)
  }

  function RecordAll(window: nat, scores: seq<real>, values: seq<real>): seq<real> {
    if values == [] then scores
    else Push(window, RecordAll(window, scores, values[..|values| - 1]), values[|values| - 1])
  }

  function AbsAll(values: seq<real>): seq<real> {
    seq(|values|, i requires 0 <= i < |values| => AbsReal(values[i]))
  }

  /** The bounded window is always the end of the whole history of absolute scores. */
  lemma {:induction false} WindowIsSuffix(window: nat, scores: seq<real>, values: seq<real>)
    requires |scores| <= window
    ensures RecordAll(window, scores, values) == LastN(scores + AbsAll(values), window)
  {
    if values == [] {
      assert scores + AbsAll(values) == scores;
    } else {
      var before, v := values[..|values| - 1], values[|values| - 1];
      WindowIsSuffix(window, scores, before);
      assert AbsAll(values) == AbsAll(before) + [AbsReal(v)];
      assert scores + AbsAll(values) == (scores + AbsAll(before)) + [AbsReal(v)];
      LastNPush(scores + AbsAll(before), AbsReal(v), window);
    }
  }

  /** Loading a history keeps only its end, and ends where recording it one by one would. */
  lemma LoadEqualsRecording(window: nat, scores: seq<real>, values: seq<real>)
    requires |scores| <= window
    ensures RecordAll(window, scores, LastN(values, window)) == RecordAll(window, scores, values)
  {
    hide RecordAll;
    WindowIsSuffix(window, scores, values);
    WindowIsSuffix(window, scores, LastN(values, window));
    assert AbsAll(LastN(values, window)) == LastN(AbsAll(values), window);
    LastNAppend(scores, AbsAll(values), window);
  }

  lemma LastNAppend(s: seq<real>, t: seq<real>, n: nat)
    ensures LastN(s + LastN(t, n), n) == LastN(s + t, n)
  {
  }

  // ---------------------------------------------------------------- order statistics

  function Insert(x: real, s: seq<real>): seq<real> {
    if s == [] || x <= s[0] then [x] + s else [s[0]] + Insert(x, s[1..])
  }

  /** The ascending rearrangement. */
  function Sorted(s: seq<real>): seq<real> {
    if s == [] then [] else Insert(s[0], Sorted(s[1..]))
  }

  ghost predicate Ascending(s: seq<real>) {
    forall i, j :: 0 <= i < j < |s| ==> s[i] <= s[j]
  }

  lemma {:induction false} InsertKeeps(x: real, s: seq<real>)
    ensures multiset(Insert(x, s)) == multiset(s) + multiset{x} && |Insert(x, s)| == |s| + 1
  {
    if s != [] && x > s[0] {
      InsertKeeps(x, s[1..]);
      assert s == [s[0]] + s[1..];
    }
  }

  lemma {:induction false} InsertAscends(x: real, s: seq<real>)
    requires Ascending(s)
    ensures Ascending(Insert(x, s))
  {
    if s != [] && x > s[0] {
      InsertAscends(x, s[1..]);
      InsertKeeps(x, s[1..]);
      StaysAbove(s[0], x, s[1..], Insert(x, s[1..]));
    }
  }

  lemma StaysAbove(low: real, x: real, s: seq<real>, r: seq<real>)
    requires multiset(r) == multiset(s) + multiset{x} && low <= x && forall i :: 0 <= i < |s| ==> low <= s[i]
    ensures forall i :: 0 <= i < |r| ==> low <= r[i]
  {
    forall i | 0 <= i < |r|
      ensures low <= r[i]
    {
      assert r[i] in multiset(r);
      assert r[i] == x || r[i] in s;
    }
  }

  lemma {:induction false} SortedAscends(s: seq<real>)
    ensures Ascending(Sorted(s)) && multiset(Sorted(s)) == multiset(s) && |Sorted(s)| == |s|
  {
    if s != [] {
      SortedAscends(s[1..]);
      InsertAscends(s[0], Sorted(s[1..]));
      InsertKeeps(s[0], Sorted(s[1..]));
      assert s == [s[0]] + s[1..];
    }
  }

  lemma {:induction false} AscendingUnique(a: seq<real>, b: seq<real>)
    requires Ascending(a) && Ascending(b) && multiset(a) == multiset(b)
    ensures a == b
  {
    assert |a| == |multiset(a)| == |multiset(b)| == |b|;
    if a != [] {
      assert a[0] in multiset(b) && b[0] in multiset(a);
      assert a[0] == b[0];
      assert a == [a[0]] + a[1..] && b == [b[0]] + b[1..];
      assert multiset(a[1..]) == multiset(a) - multiset{a[0]};
      assert multiset(b[1..]) == multiset(b) - multiset{b[0]};
      AscendingUnique(a[1..], b[1..]);
    }
  }

  function CountAbove(s: seq<real>, t: real): nat {
    if s == [] then 0 else CountAbove(s[1..], t) + if s[0] > t then 1 else 0
  }

  function CountBelow(s: seq<real>, t: real): nat {
    if s == [] then 0 else CountBelow(s[1..], t) + if s[0] < t then 1 else 0
  }

  lemma {:induction false} InsertCounts(x: real, s: seq<real>, t: real)
    ensures CountAbove(Insert(x, s), t) == CountAbove(s, t) + if x > t then 1 else 0
    ensures CountBelow(Insert(x, s), t) == CountBelow(s, t) + if x < t then 1 else 0
  {
    if s != [] && x > s[0] {
      InsertCounts(x, s[1..], t);
      assert Insert(x, s)[1..] == Insert(x, s[1..]);
    } else {
      assert ([x] + s)[1..] == s;
    }
  }

  lemma {:induction false} SortedCounts(s: seq<real>, t: real)
    ensures CountAbove(Sorted(s), t) == CountAbove(s, t) && CountBelow(Sorted(s), t) == CountBelow(s, t)
  {
    if s != [] {
      SortedCounts(s[1..], t);
      InsertCounts(s[0], Sorted(s[1..]), t);
    }
  }

  lemma {:induction false} AscendingCounts(s: seq<real>, i: nat)
    requires Ascending(s) && i < |s|
    ensures CountAbove(s, s[i]) <= |s| - 1 - i && CountBelow(s, s[i]) <= i
  {
    if i == 0 {
      NoneBelow(s, s[0]);
      AtMostAll(s[1..], s[0]);
    } else {
      AscendingCounts(s[1..], i - 1);
    }
  }

  /** The i-th smallest is below a bound exactly when more than i are. */
  lemma {:induction false} BelowAtIndexIff(s: seq<real>, i: nat, bound: real)
    requires Ascending(s) && i < |s|
    ensures s[i] < bound <==> CountBelow(s, bound) > i
  {
    if s[0] >= bound {
      NoneBelow(s, bound);
    } else if i > 0 {
      BelowAtIndexIff(s[1..], i - 1, bound);
    }
  }

  lemma {:induction false} NoneBelow(s: seq<real>, t: real)
    requires forall i :: 0 <= i < |s| ==> s[i] >= t
    ensures CountBelow(s, t) == 0
  {
    if s != [] {
      NoneBelow(s[1..], t);
    }
  }

  lemma {:induction false} AtMostAll(s: seq<real>, t: real)
    ensures CountAbove(s, t) <= |s|
  {
    if s != [] {
      AtMostAll(s[1..], t);
    }
  }

  // ---------------------------------------------------------------- the index

  /** Python's round: to the nearest integer, a tie to the even one. */
  function RoundHalfEven(x: real): int {
    var below := x.Floor;
    var rest := x - below as real;
    if rest < 0.5 then below else if rest > 0.5 then below + 1 else if below % 2 == 0 then below else below + 1
  }

  lemma RoundMonotone(x: real, y: real)
    requires x <= y
    ensures RoundHalfEven(x) <= RoundHalfEven(y)
  {
    assert x.Floor <= y.Floor;
  }

  lemma RoundOfInteger(n: int)
    ensures RoundHalfEven(n as real) == n
  {
  }

  function Share(n: nat, percentile: real): real {
    percentile / 100.0 * (n - 1) as real
  }

  function Rank(n: nat, percentile: real): int {
    RoundHalfEven(Share(n, percentile))
  }

  /** The source clamps the rank into range; it is there already. */
  lemma RankInRange(n: nat, percentile: real)
    requires n >= 1 && 0.0 <= percentile <= 100.0
    ensures 0 <= Rank(n, percentile) <= n - 1
    ensures Max(0, Min(Rank(n, percentile), n - 1)) == Rank(n, percentile)
  {
    hide Share, RoundHalfEven;
    ShareInRange(n, percentile);
    RoundMonotone(0.0, Share(n, percentile));
    RoundMonotone(Share(n, percentile), (n - 1) as real);
    RoundOfInteger(0);
    RoundOfInteger(n - 1);
  }

  lemma ShareInRange(n: nat, percentile: real)
    requires n >= 1 && 0.0 <= percentile <= 100.0
    ensures 0.0 <= Share(n, percentile) <= (n - 1) as real
  {
    var fraction := percentile / 100.0;
    assert 0.0 <= fraction <= 1.0;
    ShareBounds(fraction, (n - 1) as real);
    assert Share(n, percentile) == fraction * (n - 1) as real;
  }

  lemma ShareBounds(share: real, whole: real)
    requires 0.0 <= share <= 1.0 && whole >= 0.0
    ensures 0.0 <= share * whole <= whole
  {
  }

  lemma RankMonotone(n: nat, p: real, q: real)
    requires n >= 1 && p <= q
    ensures Rank(n, p) <= Rank(n, q)
  {
    MulMono(p / 100.0, q / 100.0, (n - 1) as real);
    RoundMonotone(Share(n, p), Share(n, q));
  }

  // ---------------------------------------------------------------- the threshold

  function AtRank(scores: seq<real>, percentile: real): real
    requires |scores| >= 1 && 0.0 <= percentile <= 100.0
  {
    var sorted := Sorted(scores);
    SortedAscends(scores);
    var i := Max(0, Min(Rank(|sorted|, percentile), |sorted| - 1));
    sorted[i]
  }

  function Times(score: real, mult: real): real {
    score * mult
  }

  function Threshold(c: Calibrator, minThreshold: real): real
    requires Valid(c)
  {
    var floor := MaxReal(minThreshold, 0.0);
    if |c.scores| < c.minSamples then floor else MaxReal(floor, Times(AtRank(c.scores, c.percentile), c.k))
  }

  /** The percentile is an order statistic of the window: a score in it, with at most idx scores below and at most
      n - 1 - idx above. */
  lemma RankIsOrderStatistic(scores: seq<real>, percentile: real)
    requires |scores| >= 1 && 0.0 <= percentile <= 100.0
    ensures var v, i, n := AtRank(scores, percentile), Rank(|scores|, percentile), |scores|;
            v in scores && CountBelow(scores, v) <= i && CountAbove(scores, v) <= n - 1 - i
  {
    SortedAscends(scores);
    RankInRange(|scores|, percentile);
    var s, i := Sorted(scores), Rank(|scores|, percentile);
    AscendingCounts(s, i);
    SortedCounts(scores, s[i]);
    assert s[i] in multiset(s);
  }

  /** Rounding ends within one half of its argument, and on the even side of a tie. */
  lemma RoundsToNearest(x: real)
    ensures var r := RoundHalfEven(x);
            && -0.5 <= r as real - x <= 0.5
            && (r as real - x == 0.5 || r as real - x == -0.5 ==> r % 2 == 0)
  {
  }

  lemma ShareTimes(n: nat, percentile: real)
    ensures Share(n, percentile) * 100.0 == percentile * (n - 1) as real
  {
    var fraction := percentile / 100.0;
    assert Share(n, percentile) == fraction * (n - 1) as real;
    FractionTimes(fraction, (n - 1) as real, percentile);
  }

  lemma FractionTimes(fraction: real, m: real, percentile: real)
    requires percentile == fraction * 100.0
    ensures fraction * m * 100.0 == percentile * m
  {
  }

  lemma Complement(percentile: real, m: real)
    ensures (100.0 - percentile) * m == 100.0 * m - percentile * m
  {
  }

  /** What a score must be to be the percentile of a window: in it, with no more than the percentile's share of the others
      below it and no more than the rest above it, up to half a score. */
  predicate IsPercentile(scores: seq<real>, percentile: real, v: real) {
    && v in scores
    && CountBelow(scores, v) as real * 100.0 <= percentile * (|scores| - 1) as real + 50.0
    && CountAbove(scores, v) as real * 100.0 <= (100.0 - percentile) * (|scores| - 1) as real + 50.0
  }

  lemma PercentileExactly(scores: seq<real>, percentile: real)
    requires |scores| >= 1 && 0.0 <= percentile <= 100.0
    ensures IsPercentile(scores, percentile, AtRank(scores, percentile))
  {
    hide AtRank, CountBelow, CountAbove, RoundHalfEven, Share;
    var n, i := |scores|, Rank(|scores|, percentile);
    RankIsOrderStatistic(scores, percentile);
    RoundsToNearest(Share(n, percentile));
    ShareTimes(n, percentile);
    Complement(percentile, (n - 1) as real);
  }

  /** The threshold, exactly: the configured one, at least zero, until there are enough scores; from then on the larger of
      it and the factor times the window's percentile. */
  lemma ThresholdExactly(c: Calibrator, minThreshold: real)
    requires Valid(c)
    ensures var t, floor := Threshold(c, minThreshold), if minThreshold > 0.0 then minThreshold else 0.0;
            if |c.scores| < c.minSamples then t == floor
            else exists v :: IsPercentile(c.scores, c.percentile, v) && t == if v * c.k > floor then v * c.k else floor
  {
    hide AtRank, IsPercentile;
    if |c.scores| >= c.minSamples {
      PercentileExactly(c.scores, c.percentile);
    }
  }

  /** The percentile is below a bound exactly when more scores than its rank are. */
  lemma RankBelowIff(scores: seq<real>, percentile: real, bound: real)
    requires |scores| >= 1 && 0.0 <= percentile <= 100.0
    ensures AtRank(scores, percentile) < bound <==> CountBelow(scores, bound) > Rank(|scores|, percentile)
  {
    hide Sorted, Rank, CountBelow;
    SortedAscends(scores);
    RankInRange(|scores|, percentile);
    BelowAtIndexIff(Sorted(scores), Rank(|scores|, percentile), bound);
    SortedCounts(scores, bound);
  }

  /** Only which scores are in the window matters, not their order. */
  lemma ThresholdOfMultiset(c: Calibrator, d: Calibrator, minThreshold: real)
    requires Valid(c) && Valid(d) && d == c.(scores := d.scores) && multiset(c.scores) == multiset(d.scores)
    ensures Threshold(c, minThreshold) == Threshold(d, minThreshold)
  {
    hide Sorted, Rank;
    assert |c.scores| == |multiset(c.scores)| == |d.scores|;
    SortedAscends(c.scores);
    SortedAscends(d.scores);
    AscendingUnique(Sorted(c.scores), Sorted(d.scores));
  }

  lemma AtRankMonotone(scores: seq<real>, p: real, q: real)
    requires |scores| >= 1 && 0.0 <= p <= q <= 100.0 && forall i :: 0 <= i < |scores| ==> scores[i] >= 0.0
    ensures 0.0 <= AtRank(scores, p) <= AtRank(scores, q)
  {
    SortedAscends(scores);
    RankMonotone(|scores|, p, q);
    RankInRange(|scores|, p);
    RankInRange(|scores|, q);
    RankIsOrderStatistic(scores, p);
  }

  lemma ScaleMonotone(a: real, b: real, j: real, k: real)
    requires 0.0 <= a <= b && 0.0 <= j <= k
    ensures a * j <= b * k
  {
    MulMono(a, b, j);
    MulMono(j, k, b);
    assert a * j <= b * j && j * b <= k * b;
  }

  /** A stricter percentile, factor or floor never lowers the threshold. */
  lemma ThresholdMonotone(c: Calibrator, d: Calibrator, low: real, high: real)
    requires Valid(c) && Valid(d) && d == c.(percentile := d.percentile, k := d.k)
    requires c.percentile <= d.percentile && c.k <= d.k && low <= high
    ensures Threshold(c, low) <= Threshold(d, high)
  {
    hide AtRank;
    if |c.scores| >= c.minSamples {
      AtRankMonotone(c.scores, c.percentile, d.percentile);
      ScaleMonotone(AtRank(c.scores, c.percentile), AtRank(d.scores, d.percentile), c.k, d.k);
    }
  }

  lemma {:induction false} FewerAboveHigher(s: seq<real>, low: real, high: real)
    requires low <= high
    ensures CountAbove(s, high) <= CountAbove(s, low)
  {
    if s != [] {
      FewerAboveHigher(s[1..], low, high);
    }
  }

  /** The threshold never falls below the configured one; once there are enough samples and k >= 1, at most
      n - 1 - idx of the window's scores exceed it. */
  lemma ThresholdFilters(c: Calibrator, minThreshold: real)
    requires Valid(c)
    ensures var t, n := Threshold(c, minThreshold), |c.scores|;
            && t >= minThreshold && t >= 0.0
            && (n < c.minSamples ==> t == MaxReal(minThreshold, 0.0))
            && (n >= c.minSamples && c.k >= 1.0 ==>
                  0 <= Rank(n, c.percentile) <= n - 1 && CountAbove(c.scores, t) <= n - 1 - Rank(n, c.percentile))
  {
    hide AtRank, Rank, CountAbove, CountBelow;
    if |c.scores| >= c.minSamples {
      var v := AtRank(c.scores, c.percentile);
      RankInRange(|c.scores|, c.percentile);
      RankIsOrderStatistic(c.scores, c.percentile);
      if c.k >= 1.0 {
        ScaleMonotone(v, v, 1.0, c.k);
        assert v <= v * c.k;
        FewerAboveHigher(c.scores, v, Threshold(c, minThreshold));
      }
    }
  }

  // ---------------------------------------------------------------- the threshold under a multiplier

  /** The score that factor and multiplier take to the configured threshold. */
  function TakenBack(configured: real, k: real, mult: real): real
    requires k > 0.0 && mult > 0.0
  {
    PositiveProduct(k, mult);
    configured / (k * mult)
  }

  lemma PositiveProduct(a: real, b: real)
    requires a > 0.0 && b > 0.0
    ensures a * b > 0.0
  {
  }

  lemma StrictScale(a: real, b: real, c: real)
    requires a < b && c > 0.0
    ensures a * c < b * c
  {
  }

  lemma ScaledBelow(v: real, scale: real, bound: real, quotient: real)
    requires scale > 0.0 && quotient == bound / scale
    ensures v * scale < bound <==> v < quotient
  {
    QuotientTimes(bound, scale, quotient);
    if v < quotient {
      StrictScale(v, quotient, scale);
    } else {
      MulMono(quotient, v, scale);
    }
  }

  lemma Regroup(v: real, k: real, mult: real, scale: real)
    requires scale == k * mult
    ensures Times(Times(v, k), mult) == v * scale
  {
  }

  lemma ScoreScaledBelow(v: real, k: real, mult: real, configured: real)
    requires k > 0.0 && mult > 0.0
    ensures Times(Times(v, k), mult) < configured <==> v < TakenBack(configured, k, mult)
  {
    hide Times;
    var scale := k * mult;
    PositiveProduct(k, mult);
    Regroup(v, k, mult, scale);
    ScaledBelow(v, scale, configured, TakenBack(configured, k, mult));
  }

  lemma SelfScaledBelow(configured: real, mult: real)
    requires configured > 0.0 && mult > 0.0
    ensures Times(configured, mult) < configured <==> mult < 1.0
  {
    if mult < 1.0 {
      StrictScale(mult, 1.0, configured);
    } else {
      MulMono(1.0, mult, configured);
    }
  }

  lemma FloorScaledBelow(configured: real, mult: real)
    requires mult > 0.0
    ensures Times(MaxReal(configured, 0.0), mult) < configured <==> configured > 0.0 && mult < 1.0
  {
    if configured > 0.0 {
      SelfScaledBelow(configured, mult);
    }
  }

  lemma MaxScaledBelow(a: real, b: real, c: real, bound: real)
    requires c > 0.0
    ensures Times(MaxReal(a, b), c) < bound <==> Times(a, c) < bound && Times(b, c) < bound
  {
    MulMono(MinReal(a, b), MaxReal(a, b), c);
  }

  /** What a caller can read off the calibrator: a positive configured threshold, a discount, and either too few scores
      or too many of them below the configured threshold taken back through factor and discount. */
  predicate Undercuts(c: Calibrator, configured: real, mult: real)
    requires Valid(c)
  {
    && configured > 0.0 && 0.0 < mult < 1.0
    && (|c.scores| < c.minSamples
        || CountBelow(c.scores, TakenBack(configured, c.k, mult)) > Rank(|c.scores|, c.percentile))
  }

  /** The calibrated threshold times a positive multiplier is below the configured one exactly then. */
  lemma UndercutsIff(c: Calibrator, configured: real, mult: real)
    requires Valid(c) && mult > 0.0
    ensures Times(Threshold(c, configured), mult) < configured <==> Undercuts(c, configured, mult)
  {
    hide AtRank, Rank, CountBelow, MaxReal, Times, TakenBack;
    FloorScaledBelow(configured, mult);
    if |c.scores| >= c.minSamples {
      var v := AtRank(c.scores, c.percentile);
      MaxScaledBelow(MaxReal(configured, 0.0), Times(v, c.k), mult, configured);
      ScoreScaledBelow(v, c.k, mult, configured);
      RankBelowIff(c.scores, c.percentile, TakenBack(configured, c.k, mult));
    }
  }

  /** A calibrator built anew, as every applied configuration does, answers the configured threshold until it has seen
      its minimum of scores again. */
  lemma RecalibratesFromScratch(window: int, minSamples: int, percentile: real, k: real, values: seq<real>, configured: real)
    requires |values| < Max(MIN_SAMPLES, minSamples)
    ensures var c := NewCalibrator(window, minSamples, percentile, k);
            var c' := c.(scores := RecordAll(c.window, c.scores, values));
            Valid(c') && Threshold(c', configured) == MaxReal(configured, 0.0)
  {
    hide RecordAll, AtRank;
    var c := NewCalibrator(window, minSamples, percentile, k);
    WindowIsSuffix(c.window, [], values);
    assert [] + AbsAll(values) == AbsAll(values);
    forall i | 0 <= i < |LastN(AbsAll(values), c.window)|
      ensures LastN(AbsAll(values), c.window)[i] >= 0.0
    {
    }
  }

  // ---------------------------------------------------------------- the calibrator

  class ThresholdCalibrator {
    const window: nat
    const minSamples: nat
    const percentile: real
    const k: real
    var scores: seq<real>

    function View(): Calibrator reads this {
      Calibrator(window, minSamples, percentile, k, scores)
    }

    constructor (window: int, minSamples: int, percentile: real, k: real)
      ensures View() == NewCalibrator(window, minSamples, percentile, k)
    {
      this.window := Max(MIN_WINDOW, window);
      this.minSamples := Max(MIN_SAMPLES, minSamples);
      this.percentile := MinReal(99.0, MaxReal(50.0, percentile));
      this.k := MaxReal(0.1, k);
      scores := [];
    }

    method Record(score: Option<real>)
      requires Valid(View())
      modifies this
      ensures View() == old(View()).(scores := if score.None? then old(scores) else Push(window, old(scores), score.value))
      ensures Valid(View())
    {
      if score.None? {
        return;
      }
      scores := LastN(scores + [AbsReal(score.value)], window);
    }

    /** Whatever the history's length, the window ends as if every score had been recorded. */
    method LoadScores(values: seq<real>)
      requires Valid(View())
      modifies this
      ensures View() == old(View()).(scores := RecordAll(window, old(scores), values))
      ensures Valid(View())
    {
      var recent := LastN(values, window);
      var i := 0;
      while i < |recent|
        invariant i <= |recent|
        invariant View() == old(View()).(scores := RecordAll(window, old(scores), recent[..i]))
        invariant Valid(View())
      {
        assert recent[..i + 1][..i] == recent[..i];
        scores := LastN(scores + [AbsReal(recent[i])], window);
        i := i + 1;
      }
      assert recent[..i] == recent;
      LoadEqualsRecording(window, old(scores), values);
    }

    method ComputeThreshold(minThreshold: real) returns (t: real)
      requires Valid(View())
      ensures t == Threshold(View(), minThreshold)
    {
      hide Sorted, Rank;
      var floor := MaxReal(minThreshold, 0.0);
      if |scores| < minSamples {
        return floor;
      }
      var sorted := Sorted(scores);
      SortedAscends(scores);
      var rank := Max(0, Min(Rank(|sorted|, percentile), |sorted| - 1));
      t := MaxReal(floor, sorted[rank] * k);
      assert sorted[rank] == AtRank(scores, percentile);
    }
  }
}
