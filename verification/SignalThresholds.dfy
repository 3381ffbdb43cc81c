/** The thresholds a predictor is configured with (predictor/timesfm_utils.py): round-trip cost, scaled from the
    reference candle and horizon to the ones in use. */
module SignalThresholds {
  import opened Domain
  import opened Arithmetic

  datatype SignalConfig = SignalConfig(
    feeRate: real,
    slippageRate: real,
    safetyMargin: real,
    signalThreshold: Option<real>,
    exitSignalThreshold: Option<real>,
    exitThresholdMult: real,
    scaleWithTimeframe: bool,
    timeframeMinutes: real,
    refMinutes: real,
    horizon: int,
    refHorizon: int,
    minFeeRatio: real)

  // ---------------------------------------------------------------- configured thresholds

  function FeeFloor(c: SignalConfig): real {
    c.feeRate * 2.0 + c.slippageRate + c.safetyMargin
  }

  function TimeFactor(c: SignalConfig): real
    requires c.timeframeMinutes > 0.0
  {
    MaxReal(c.refMinutes / c.timeframeMinutes, 0.15)
  }

  function HorizonFactor(c: SignalConfig): real {
    MaxReal(Max(1, c.refHorizon) as real / Max(1, c.horizon) as real, 0.5)
  }

  function Rescaled(floor: real, time: real, horizon: real): real {
    floor * time * horizon
  }

  function EntryThreshold(c: SignalConfig): real
    requires c.timeframeMinutes > 0.0
  {
    if c.signalThreshold.Some? then c.signalThreshold.value
    else if !c.scaleWithTimeframe then FeeFloor(c)
    else MaxReal(Rescaled(FeeFloor(c), TimeFactor(c), HorizonFactor(c)), FeeFloor(c) * c.minFeeRatio)
  }

  function ExitThreshold(c: SignalConfig, entry: real): real {
    if c.exitSignalThreshold.Some? then c.exitSignalThreshold.value else entry * MaxReal(0.1, c.exitThresholdMult)
  }

  lemma Reassociate(floor: real, time: real, horizon: real, factor: real)
    requires factor == time * horizon
    ensures Rescaled(floor, time, horizon) == floor * factor
  {
  }

  lemma FactorAtLeast(time: real, horizon: real)
    requires time >= 0.15 && horizon >= 0.5
    ensures time * horizon >= 0.075
  {
  }

  lemma FactorAtMost(time: real, horizon: real)
    requires 0.0 <= time <= 1.0 && horizon <= 1.0
    ensures time * horizon <= 1.0
  {
    MulMonoLeft(horizon, 1.0, time);
  }

  lemma ScaledBounds(floor: real, time: real, horizon: real)
    requires floor >= 0.0 && time >= 0.15 && horizon >= 0.5
    ensures Rescaled(floor, time, horizon) >= floor * 0.075
    ensures time <= 1.0 && horizon <= 1.0 ==> Rescaled(floor, time, horizon) <= floor
    ensures time == 1.0 && horizon == 1.0 ==> Rescaled(floor, time, horizon) == floor
  {
    hide Rescaled;
    var factor := time * horizon;
    Reassociate(floor, time, horizon, factor);
    FactorAtLeast(time, horizon);
    ShareAtLeast(Rescaled(floor, time, horizon), floor, factor);
    if time <= 1.0 && horizon <= 1.0 {
      FactorAtMost(time, horizon);
      ShareAtMost(Rescaled(floor, time, horizon), floor, factor);
    }
  }

  lemma ShareAtLeast(share: real, floor: real, factor: real)
    requires share == floor * factor && floor >= 0.0 && factor >= 0.075
    ensures share >= floor * 0.075
  {
    MulMonoLeft(0.075, factor, floor);
  }

  lemma ShareAtMost(share: real, floor: real, factor: real)
    requires share == floor * factor && floor >= 0.0 && factor <= 1.0
    ensures share <= floor
    ensures factor == 1.0 ==> share == floor
  {
    MulMonoLeft(factor, 1.0, floor);
  }

  lemma FactorsBounded(c: SignalConfig)
    requires c.timeframeMinutes > 0.0 && c.refMinutes > 0.0
    ensures TimeFactor(c) >= 0.15 && HorizonFactor(c) >= 0.5
    ensures c.timeframeMinutes >= c.refMinutes ==> TimeFactor(c) <= 1.0
    ensures c.timeframeMinutes == c.refMinutes ==> TimeFactor(c) == 1.0
    ensures Max(1, c.horizon) >= Max(1, c.refHorizon) ==> HorizonFactor(c) <= 1.0
    ensures Max(1, c.horizon) == Max(1, c.refHorizon) ==> HorizonFactor(c) == 1.0
  {
    UnitQuotient(c.refMinutes, c.timeframeMinutes);
    UnitQuotient(Max(1, c.refHorizon) as real, Max(1, c.horizon) as real);
  }

  lemma UnitQuotient(a: real, b: real)
    requires a > 0.0 && b > 0.0
    ensures a == b ==> a / b == 1.0
    ensures a <= b ==> a / b <= 1.0
  {
    if a <= b {
      QuotientMonotone(a, b, b);
    }
  }

  /** Without an explicit threshold, scaling is neutral at the reference timeframe and horizon, never raises the
      threshold for slower candles and longer horizons, and never lowers it below 7.5% of the cost floor nor
      below the configured share. */
  lemma EntryThresholdBounds(c: SignalConfig)
    requires c.signalThreshold.None? && c.scaleWithTimeframe && FeeFloor(c) >= 0.0
    requires c.timeframeMinutes > 0.0 && c.refMinutes > 0.0
    ensures var t, floor := EntryThreshold(c), FeeFloor(c);
            && t >= floor * 0.075 && t >= floor * c.minFeeRatio
            && (c.minFeeRatio <= 1.0 && c.timeframeMinutes >= c.refMinutes && Max(1, c.horizon) >= Max(1, c.refHorizon) ==>
                  t <= floor)
            && (c.minFeeRatio <= 1.0 && c.timeframeMinutes == c.refMinutes && Max(1, c.horizon) == Max(1, c.refHorizon) ==>
                  t == floor)
  {
    hide FeeFloor, TimeFactor, HorizonFactor, Rescaled;
    FactorsBounded(c);
    ScaledBounds(FeeFloor(c), TimeFactor(c), HorizonFactor(c));
    if c.minFeeRatio <= 1.0 {
      MulMonoLeft(c.minFeeRatio, 1.0, FeeFloor(c));
    }
  }

  /** A factor that follows a ratio down to a floor. */
  predicate Follows(factor: real, over: real, under: real, floor: real) {
    factor >= floor && (factor * under == over || (factor == floor && over <= floor * under))
  }

  lemma FloorsRatio(over: real, under: real, floor: real)
    requires under > 0.0
    ensures Follows(MaxReal(over / under, floor), over, under, floor)
  {
    var q := over / under;
    QuotientTimes(over, under, q);
    if q < floor {
      MulMono(q, floor, under);
    }
  }

  /** The configured entry threshold, exactly: the explicit one; else the round trip's cost, twice the fee plus slippage and
      margin; else, scaled, that cost times a factor that follows reference over actual timeframe down to 0.15 and one that
      follows reference over actual horizon down to 0.5, but no less than the configured share of it. */
  lemma EntryThresholdExactly(c: SignalConfig) returns (time: real, horizon: real)
    requires c.timeframeMinutes > 0.0
    ensures var t, cost := EntryThreshold(c), c.feeRate + c.feeRate + c.slippageRate + c.safetyMargin;
            if c.signalThreshold.Some? then t == c.signalThreshold.value
            else if !c.scaleWithTimeframe then t == cost
            else
              && Follows(time, c.refMinutes, c.timeframeMinutes, 0.15)
              && Follows(horizon, Max(1, c.refHorizon) as real, Max(1, c.horizon) as real, 0.5)
              && t == if cost * time * horizon > cost * c.minFeeRatio then cost * time * horizon else cost * c.minFeeRatio
  {
    hide Follows, Rescaled;
    time, horizon := TimeFactor(c), HorizonFactor(c);
    FloorsRatio(c.refMinutes, c.timeframeMinutes, 0.15);
    FloorsRatio(Max(1, c.refHorizon) as real, Max(1, c.horizon) as real, 0.5);
    RescaledIs(FeeFloor(c), TimeFactor(c), HorizonFactor(c));
  }

  lemma RescaledIs(cost: real, time: real, horizon: real)
    ensures Rescaled(cost, time, horizon) == cost * time * horizon
  {
  }
}
