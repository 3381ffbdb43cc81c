/** What the autopilot pushes into the predictor, the signal policy and the strategy before each
    prediction (autopilot/controller.py, predictor/timesfm_utils.py). */
module Autopilots {
  import opened Domain
  import opened Arithmetic
  import opened Exits
  import opened SignalPolicies
  import opened Strategies
  import opened Calibration
  import opened Regimes
  import opened SignalThresholds
  import opened CandleGate
  import opened EngineModel

  // ---------------------------------------------------------------- before a prediction

  /** The thresholds and the tuning one tick of the autopilot decides on. */
  datatype Push = Push(entryThreshold: real, exitThreshold: real, tuning: Tuning)

  function BasePlan(cfg: AutopilotConfig, signal: SignalConfig, calibrated: real, r: RegimeSnapshot, price: real): Push {
    var effective := Times(calibrated, r.thresholdMult);
    var (tp, sl) := TpSlPct(price, r.atr, r.tpAtrMult, r.slAtrMult, FeeFloor(signal), FeeFloor(signal));
    Push(effective, ExitThreshold(signal, effective),
         Tuning(Max(1, cfg.baseConsecutiveRequired + r.consecutiveDelta),
                if tp > 0.0 && sl > 0.0 then Some(DynamicExit(tp, sl, r.positionScale)) else None))
  }

  function Planned(cfg: AutopilotConfig, signal: SignalConfig, calibrator: Calibrator, bars: seq<Bar>, price: real): Option<Push>
    requires Sane(cfg) && Valid(calibrator) && signal.timeframeMinutes > 0.0
  {
    if !cfg.enabled then None
    else Some(BasePlan(cfg, signal, Threshold(calibrator, EntryThreshold(signal)), Detected(cfg, bars, price), price))
  }

  /** The policy and strategy after the engine's tuning step. */
  function TunedPolicy(p: Policy, t: Tuning): Policy {
    p.SetRequired(t.required)
  }

  function TunedStrategy(s: Strategy, t: Tuning): Strategy {
    if t.dynamicExit.None? then s
    else s.SetDynamicExit(t.dynamicExit.value.tp, t.dynamicExit.value.sl, t.dynamicExit.value.scale)
  }

  function Pushed(g: Gate, push: Push): Gate {
    SetThresholdsOf(g, push.entryThreshold, Some(push.exitThreshold))
  }

  class AutopilotController {
    var signal: SignalConfig
    var calibrator: ThresholdCalibrator
    var regime: RegimeDetector
    var tick: nat

    constructor (signal: SignalConfig, calibrator: ThresholdCalibrator, regime: RegimeDetector)
      ensures this.signal == signal && this.calibrator == calibrator && this.regime == regime && tick == 0
    {
      this.signal, this.calibrator, this.regime := signal, calibrator, regime;
      tick := 0;
    }

    /** An applied configuration starts the calibration over. */
    method UpdateConfig(cfg: AutopilotConfig, window: int, minSamples: int, percentile: real, k: real)
      modifies this`calibrator, this`regime
      ensures calibrator.View() == NewCalibrator(window, minSamples, percentile, k)
      ensures regime.cfg == cfg && fresh(calibrator) && fresh(regime)
    {
      calibrator := new ThresholdCalibrator(window, minSamples, percentile, k);
      regime := new RegimeDetector(cfg);
    }

    /** Thresholds to the predictor, confirmations to the policy, exits to the strategy. */
    method ApplyBeforePredict(bars: seq<Bar>, price: real, predictor: TimesFMPredictor, policy: ConsecutiveSignalPolicy,
                              strategy: PassthroughStrategy) returns (push: Option<Push>)
      requires Sane(regime.cfg) && Valid(calibrator.View()) && signal.timeframeMinutes > 0.0
      modifies this`tick, predictor`entry, predictor`exit, policy, strategy
      ensures push == Planned(regime.cfg, signal, calibrator.View(), bars, price)
      ensures tick == old(tick) + 1
      ensures predictor.View() == if push.None? then old(predictor.View()) else Pushed(old(predictor.View()), push.value)
      ensures policy.View() == if push.None? then old(policy.View()) else TunedPolicy(old(policy.View()), push.value.tuning)
      ensures strategy.View() ==
              if push.None? then old(strategy.View()) else TunedStrategy(old(strategy.View()), push.value.tuning)
    {
      hide Threshold, Detected, EntryThreshold, Times, TpSlPct, ExitThreshold, FeeFloor;
      tick := tick + 1;
      if !regime.cfg.enabled {
        return None;
      }
      var r := regime.Detect(bars, price);
      var base := calibrator.ComputeThreshold(EntryThreshold(signal));
      var effective := Times(base, r.thresholdMult);
      var exitThreshold := ExitThreshold(signal, effective);
      predictor.SetThresholds(effective, Some(exitThreshold));
      var required := Max(1, regime.cfg.baseConsecutiveRequired + r.consecutiveDelta);
      policy.SetConsecutiveRequired(required);
      var (tp, sl) := TpSlPct(price, r.atr, r.tpAtrMult, r.slAtrMult, FeeFloor(signal), FeeFloor(signal));
      var dynamicExit := None;
      if tp > 0.0 && sl > 0.0 {
        strategy.SetDynamicExit(tp, sl, r.positionScale);
        dynamicExit := Some(DynamicExit(tp, sl, r.positionScale));
      }
      assert r == Detected(regime.cfg, bars, price);
      push := Some(Push(effective, exitThreshold, Tuning(required, dynamicExit)));
    }
  }

  /** What the tick machine calls tuning is this push, as far as policy and strategy go; the thresholds act on the
      predictor, whose answers the tick machine takes as given. */
  lemma PushIsTuning(e: Engine, t: Tuning)
    ensures var e' := Tune(e, Some(t));
            e'.policy == TunedPolicy(e.policy, t) && e'.strategy == TunedStrategy(e.strategy, t)
  {
  }

  // ---------------------------------------------------------------- what the push guarantees

  lemma DetectedScale(cfg: AutopilotConfig, bars: seq<Bar>, price: real)
    requires Sane(cfg)
    ensures var r := Detected(cfg, bars, price);
            0.1 <= r.positionScale <= 1.0 && r.consecutiveDelta >= 0 && r.atr >= 0.0 && r.kind != NormalRegime
            && (r.atr > 0.0 ==> price > 0.0)
  {
    hide VolRatio, TrendSlope, AtrFromBars;
    if price > 0.0 {
      AtrNonNegative(bars, cfg.atrPeriod);
    }
  }

  /** At least one confirmation is always required; exits are pushed exactly when the range is positive (given a
      positive cost floor), never closer than the cost floor, with a scale that can only shrink the order. */
  lemma PushIsSafe(cfg: AutopilotConfig, signal: SignalConfig, calibrator: Calibrator, bars: seq<Bar>, price: real)
    requires Sane(cfg) && Valid(calibrator) && signal.timeframeMinutes > 0.0 && cfg.enabled && FeeFloor(signal) > 0.0
    ensures var t := Planned(cfg, signal, calibrator, bars, price).value.tuning;
            && t.required >= 1 && t.required >= cfg.baseConsecutiveRequired
            && (var asked := cfg.baseConsecutiveRequired + Detected(cfg, bars, price).consecutiveDelta;
                t.required == if asked < 1 then 1 else asked)
            && (t.dynamicExit.Some? <==> Detected(cfg, bars, price).atr > 0.0)
            && (t.dynamicExit.Some? ==>
                  t.dynamicExit.value.tp >= FeeFloor(signal) && t.dynamicExit.value.sl >= FeeFloor(signal)
                  && 0.1 <= t.dynamicExit.value.scale == Detected(cfg, bars, price).positionScale <= 1.0
                  && var r := Detected(cfg, bars, price);
                  && (t.dynamicExit.value.tp == FeeFloor(signal) || t.dynamicExit.value.tp * price == r.atr * r.tpAtrMult)
                  && (t.dynamicExit.value.sl == FeeFloor(signal) || t.dynamicExit.value.sl * price == r.atr * r.slAtrMult))
  {
    hide FeeFloor, Threshold, Detected, TpSlPct;
    var r := Detected(cfg, bars, price);
    DetectedScale(cfg, bars, price);
    DistancesCoverCost(price, r.atr, r.tpAtrMult, r.slAtrMult, FeeFloor(signal), FeeFloor(signal));
  }

  /** The thresholds of a push: the calibrated one times the regime's multiplier, and for exits the configured one or at least
      a tenth of that. */
  lemma PushedThresholds(cfg: AutopilotConfig, signal: SignalConfig, calibrator: Calibrator, bars: seq<Bar>, price: real)
    requires Sane(cfg) && Valid(calibrator) && signal.timeframeMinutes > 0.0 && cfg.enabled
    ensures var push := Planned(cfg, signal, calibrator, bars, price).value;
            && push.entryThreshold == Threshold(calibrator, EntryThreshold(signal)) * Detected(cfg, bars, price).thresholdMult
            && push.exitThreshold == (if signal.exitSignalThreshold.Some? then signal.exitSignalThreshold.value
                                      else push.entryThreshold
                                           * (if signal.exitThresholdMult > 0.1 then signal.exitThresholdMult else 0.1))
  {
    hide EntryThreshold, Threshold, Detected, TpSlPct, FeeFloor;
  }

  lemma AwayFromEntry(entry: real, side: Side, tpPct: real, slPct: real, floor: real)
    requires entry > 0.0 && 0.0 < floor <= tpPct && floor <= slPct
    ensures var tp, sl := TakeProfitPrice(entry, side, tpPct), StopLossPrice(entry, side, slPct);
            tp.Some? && sl.Some? && AbsReal(tp.value - entry) >= entry * floor && AbsReal(sl.value - entry) >= entry * floor
  {
    LevelAway(entry, tpPct, floor);
    LevelAway(entry, slPct, floor);
  }

  lemma LevelAway(entry: real, pct: real, floor: real)
    requires entry > 0.0 && 0.0 < floor <= pct
    ensures AbsReal(entry * (1.0 + pct) - entry) >= entry * floor && AbsReal(entry * (1.0 - pct) - entry) >= entry * floor
  {
    var move := entry * pct;
    MulMonoLeft(floor, pct, entry);
    assert entry * (1.0 + pct) == entry + move && entry * (1.0 - pct) == entry - move;
  }

  /** From controller to order: an entry decided under pushed exits keeps both levels at least the round-trip cost away
      from its price, loses at most the risk budget at its stop, and commits at most the capped notional. */
  lemma PushedEntryCoversCostAndBudget(cfg: AutopilotConfig, signal: SignalConfig, calibrator: Calibrator, bars: seq<Bar>,
                                       s: Strategy, symbol: Symbol, p: Prediction, price: real, balance: real)
    requires Sane(cfg) && Valid(calibrator) && signal.timeframeMinutes > 0.0 && cfg.enabled && FeeFloor(signal) > 0.0
    requires s.sizing.Some? && Detected(cfg, bars, price).atr > 0.0
    requires var tuned := TunedStrategy(s, Planned(cfg, signal, calibrator, bars, price).value.tuning);
             tuned.Decide(symbol, p, price, balance).Some?
    ensures var tuned := TunedStrategy(s, Planned(cfg, signal, calibrator, bars, price).value.tuning);
            var i := tuned.Decide(symbol, p, price, balance).value;
            var entry := OrElse(p.priceHint, price);
            && i.tp.Some? && i.sl.Some?
            && AbsReal(i.tp.value - entry) >= entry * FeeFloor(signal)
            && AbsReal(i.sl.value - entry) >= entry * FeeFloor(signal)
            && WithinBudget(s.sizing.value, s.Equity(balance), entry, i.sl, i.quantity)
  {
    hide FeeFloor, Threshold, Detected, TpSlPct, BasePlan, Calculate, WithinBudget, AbsReal, TakeProfitPrice, StopLossPrice;
    PushIsSafe(cfg, signal, calibrator, bars, price);
    var tuned := TunedStrategy(s, Planned(cfg, signal, calibrator, bars, price).value.tuning);
    DecidedWithinBudget(tuned, symbol, p, price, balance);
    BudgetHasEntry(s.sizing.value, s.Equity(balance), OrElse(p.priceHint, price),
                   tuned.Decide(symbol, p, price, balance).value.sl, tuned.Decide(symbol, p, price, balance).value.quantity);
    AwayFromEntry(OrElse(p.priceHint, price), if p.action == Buy then Long else Short, tuned.tpPct, tuned.slPct,
                  FeeFloor(signal));
  }

  lemma BudgetHasEntry(cfg: SizingConfig, equity: real, entry: real, sl: Option<real>, q: real)
    requires WithinBudget(cfg, equity, entry, sl, q)
    ensures entry > 0.0
  {
  }

  lemma MultiplierOf(cfg: AutopilotConfig, bars: seq<Bar>, price: real)
    requires Sane(cfg)
    ensures var r := Detected(cfg, bars, price);
            r.thresholdMult == match r.kind
                               case HighVol => cfg.highVolThresholdMult
                               case LowVol => 0.85
                               case Ranging => 1.2
                               case _ => 1.0
  {
    hide VolRatio, TrendSlope, AtrFromBars;
  }

  lemma TimesSign(a: real, b: real)
    requires a >= 0.0
    ensures Times(a, b) > 0.0 <==> a > 0.0 && b > 0.0
  {
    if b <= 0.0 {
      MulMonoLeft(b, 0.0, a);
    }
  }

  /** The calibrated threshold is never below the configured one. The predictor's entry threshold after a push is below
      it exactly when the pushed one is positive and the regime's discount undercuts, or the pushed one is not positive,
      so that the predictor keeps its old threshold, and that one is below. Only low volatility, or high volatility with
      a multiplier under 1, can discount. */
  lemma InForceBelowConfiguredIff(cfg: AutopilotConfig, signal: SignalConfig, calibrator: Calibrator, bars: seq<Bar>,
                                  price: real, g: Gate)
    requires Sane(cfg) && Valid(calibrator) && signal.timeframeMinutes > 0.0 && cfg.enabled
    ensures var configured, r := EntryThreshold(signal), Detected(cfg, bars, price);
            var base := Threshold(calibrator, configured);
            var inForce := Pushed(g, Planned(cfg, signal, calibrator, bars, price).value).entry;
            && base >= configured
            && (inForce < configured <==>
                  if base > 0.0 && r.thresholdMult > 0.0 then Undercuts(calibrator, configured, r.thresholdMult)
                  else g.entry < configured)
            && (r.thresholdMult < 1.0 ==> r.kind == LowVol || (r.kind == HighVol && cfg.highVolThresholdMult < 1.0))
  {
    hide EntryThreshold, Threshold, Detected, Times, Undercuts, ExitThreshold, TpSlPct, FeeFloor;
    var r := Detected(cfg, bars, price);
    var base := Threshold(calibrator, EntryThreshold(signal));
    MultiplierOf(cfg, bars, price);
    ThresholdFilters(calibrator, EntryThreshold(signal));
    TimesSign(base, r.thresholdMult);
    if r.thresholdMult > 0.0 {
      UndercutsIff(calibrator, EntryThreshold(signal), r.thresholdMult);
    }
  }

  /** It happens: at a positive configured threshold with too few samples to calibrate, any low volatility regime
      does it, whatever the predictor had before. */
  lemma LowVolUndercuts(cfg: AutopilotConfig, signal: SignalConfig, calibrator: Calibrator, bars: seq<Bar>, price: real,
                        g: Gate)
    requires Sane(cfg) && Valid(calibrator) && signal.timeframeMinutes > 0.0 && cfg.enabled
    requires EntryThreshold(signal) > 0.0 && |calibrator.scores| < calibrator.minSamples
    requires Detected(cfg, bars, price).kind == LowVol
    ensures Pushed(g, Planned(cfg, signal, calibrator, bars, price).value).entry < EntryThreshold(signal)
  {
    hide EntryThreshold, Detected, Planned, Pushed;
    MultiplierOf(cfg, bars, price);
    InForceBelowConfiguredIff(cfg, signal, calibrator, bars, price, g);
  }

  /** Such a case: a configured threshold of one per cent, a calibrator that has seen nothing, and a market that has
      gone quiet. The predictor's entry threshold ends up below the configured one. */
  lemma QuietMarketUndercuts(g: Gate)
    ensures var signal := SignalConfig(0.0004, 0.0005, 0.0002, Some(0.01), None, 0.5, false, 60.0, 60.0, 12, 12, 0.075);
            var c := NewCalibrator(200, 30, 70.0, 1.0);
            && signal.timeframeMinutes > 0.0 && Sane(CALM) && Valid(c)
            && EntryThreshold(signal) == 0.01
            && Pushed(g, Planned(CALM, signal, c, QUIETING, 100.0).value).entry < EntryThreshold(signal)
  {
    hide Detected, Planned, Pushed;
    var signal := SignalConfig(0.0004, 0.0005, 0.0002, Some(0.01), None, 0.5, false, 60.0, 60.0, 12, 12, 0.075);
    CalmIsLowVol();
    LowVolUndercuts(CALM, signal, NewCalibrator(200, 30, 70.0, 1.0), QUIETING, 100.0, g);
  }

  lemma TimesMonotone(a: real, b: real, c: real)
    requires a <= b && c >= 0.0
    ensures Times(a, c) <= Times(b, c)
  {
    MulMono(a, b, c);
  }

  /** From push to signal: after a push with a positive threshold, an entry signal has a forecast step beyond at least the
      configured threshold times the regime's multiplier. */
  lemma PushedSignalHasSupport(cfg: AutopilotConfig, signal: SignalConfig, calibrator: Calibrator, bars: seq<Bar>,
                               price: real, g: Gate, call: Call)
    requires Sane(cfg) && Valid(calibrator) && signal.timeframeMinutes > 0.0 && cfg.enabled
    requires var push := Planned(cfg, signal, calibrator, bars, price).value;
             && push.entryThreshold > 0.0 && !call.forExit && AnswerOf(Pushed(g, push), call).Acted?
    ensures var push := Planned(cfg, signal, calibrator, bars, price).value;
            var answer := AnswerOf(Pushed(g, push), call);
            var bound := Times(EntryThreshold(signal), Detected(cfg, bars, price).thresholdMult);
            && call.forecast.Some? && call.price > 0.0
            && var forecast, margin := call.forecast.value, bound * call.price;
            && (answer.action == Buy ==> exists i :: 0 <= i < |forecast| && forecast[i] > call.price + margin)
            && (answer.action == Sell ==> exists i :: 0 <= i < |forecast| && forecast[i] < call.price - margin)
  {
    hide EntryThreshold, Threshold, Detected, Times, ExitThreshold, TpSlPct, FeeFloor, AnswerOf, Infers;
    var r := Detected(cfg, bars, price);
    var base := Threshold(calibrator, EntryThreshold(signal));
    var push := Planned(cfg, signal, calibrator, bars, price).value;
    ThresholdFilters(calibrator, EntryThreshold(signal));
    TimesSign(base, r.thresholdMult);
    TimesMonotone(EntryThreshold(signal), base, r.thresholdMult);
    var g' := Pushed(g, push);
    ActedInfers(g', call);
    ForecastDecides(g', call, 0.0);
    MulMono(Times(EntryThreshold(signal), r.thresholdMult), push.entryThreshold, call.price);
  }

  lemma ActedInfers(g: Gate, call: Call)
    requires AnswerOf(g, call).Acted? && !call.forExit && g.entry > 0.0
    ensures Infers(g, call) && call.forecast.Some? && call.forecast.value != [] && call.price > 0.0
  {
    hide AnswerOf;
    AnswersExactly(g, call);
  }
}
