/** The candle gate of the predictor (predictor/timesfm_predictor.py): one inference a candle, shared by
    entry and exit calls, and what it makes of a full signal window. The model and the candle table are
    oracles. */
module CandleGate {
  import opened Domain
  import opened Arithmetic
  import opened SignalPolicies
  import opened Regimes
  import opened SignalThresholds

  datatype ForecastMode = Average | Last

  datatype PredictorConfig = PredictorConfig(signal: SignalConfig, onCandleClose: bool, minContext: nat, mode: ForecastMode, index: int)

  datatype HoldReason = AwaitingCandle | ModelUnloaded | InsufficientContext | InferenceError | BelowThreshold

  /** A prediction: BUY or SELL, or a HOLD and why; with the candle it is stamped with. */
  datatype Answer = Held(reason: HoldReason) | Acted(action: Action, score: real)

  /** Everything the outside world answers during one call: the newest candle when the gate asks and when the
      inference is done, the history, the model. */
  datatype Call = Call(
    symbol: Symbol,
    price: real,
    forExit: bool,
    gateCandle: Option<Time>,
    historyLength: nat,
    modelLoaded: bool,
    forecast: Option<seq<real>>,
    doneCandle: Option<Time>)

  datatype Gate = Gate(cfg: PredictorConfig, entry: real, exit: real, inferred: map<Symbol, Time>)

  // ---------------------------------------------------------------- from a forecast to an action

  function StepReturns(price: real, forecast: seq<real>): (r: seq<real>)
    ensures |r| == |forecast|
  {
    if price <= 0.0 then seq(|forecast|, _ => 0.0)
    else seq(|forecast|, i requires 0 <= i < |forecast| => (forecast[i] - price) / price)
  }

  /** A negative index counts from the end; either way it is clamped into the forecast. */
  function PickIndex(index: int, n: nat): (i: nat)
    requires n > 0
    ensures i < n && (0 <= index < n ==> i == index) && (0 - n as int <= index < 0 ==> i == n + index)
    ensures (index >= n ==> i == n - 1) && (index < 0 - n as int ==> i == 0)
  {
    var i := if index < 0 then n + index else index;
    if i < 0 then 0 else if i > n - 1 then n - 1 else i
  }

  function AggregateReturn(cfg: PredictorConfig, moves: seq<real>): real {
    if moves == [] then 0.0
    else if cfg.mode == Last then moves[PickIndex(cfg.index, |moves|)]
    else Sum(moves) / |moves| as real
  }

  function ToAction(expected: real, threshold: real): Action {
    if expected > threshold then Buy else if expected < -threshold then Sell else Hold
  }

  lemma {:induction false} SumBelow(values: seq<real>, bound: real)
    requires forall i :: 0 <= i < |values| ==> values[i] <= bound
    ensures Sum(values) <= |values| as real * bound
  {
    if values != [] {
      SumBelow(values[..|values| - 1], bound);
      assert |values| as real * bound == (|values| - 1) as real * bound + bound;
    }
  }

  lemma {:induction false} SumAbove(values: seq<real>, bound: real)
    requires forall i :: 0 <= i < |values| ==> values[i] >= bound
    ensures Sum(values) >= |values| as real * bound
  {
    if values != [] {
      SumAbove(values[..|values| - 1], bound);
      assert |values| as real * bound == (|values| - 1) as real * bound + bound;
    }
  }

  lemma MeanBelow(sum: real, n: real, bound: real)
    requires n > 0.0 && sum <= n * bound
    ensures sum / n <= bound
  {
    QuotientMonotone(sum, n * bound, n);
  }

  lemma MeanAbove(sum: real, n: real, bound: real)
    requires n > 0.0 && sum >= n * bound
    ensures sum / n >= bound
  {
    QuotientMonotone(n * bound, sum, n);
  }

  /** No signal against every step of the forecast: a BUY has a step above the threshold, a SELL one below its
      negative. */
  lemma SignalHasSupport(cfg: PredictorConfig, moves: seq<real>, threshold: real)
    requires threshold >= 0.0 || moves != []
    ensures var action := ToAction(AggregateReturn(cfg, moves), threshold);
            && (action == Buy ==> exists i :: 0 <= i < |moves| && moves[i] > threshold)
            && (action == Sell ==> exists i :: 0 <= i < |moves| && moves[i] < -threshold)
  {
    if moves != [] && cfg.mode == Average {
      if forall i :: 0 <= i < |moves| ==> moves[i] <= threshold {
        SumBelow(moves, threshold);
        MeanBelow(Sum(moves), |moves| as real, threshold);
      }
      if forall i :: 0 <= i < |moves| ==> moves[i] >= -threshold {
        SumAbove(moves, -threshold);
        MeanAbove(Sum(moves), |moves| as real, -threshold);
      }
    }
  }

  // ---------------------------------------------------------------- one call

  predicate IsNewCandle(g: Gate, call: Call) {
    call.gateCandle.None? || call.symbol !in g.inferred || call.gateCandle.value > g.inferred[call.symbol]
  }

  function ThresholdFor(g: Gate, call: Call): real {
    if call.forExit then g.exit else g.entry
  }

  function AnswerOf(g: Gate, call: Call): Answer {
    if g.cfg.onCandleClose && !IsNewCandle(g, call) then Held(AwaitingCandle)
    else if !call.modelLoaded then Held(ModelUnloaded)
    else if call.historyLength < g.cfg.minContext then Held(InsufficientContext)
    else if call.forecast.None? then Held(InferenceError)
    else
      var expected := AggregateReturn(g.cfg, StepReturns(call.price, call.forecast.value));
      var action := ToAction(expected, ThresholdFor(g, call));
      if action == Hold then Held(BelowThreshold) else Acted(action, expected)
  }

  /** The candle is consumed by every inference that completes, HOLD or not, and by nothing else. */
  function GateAfter(g: Gate, call: Call): Gate {
    var a := AnswerOf(g, call);
    if g.cfg.onCandleClose && (a.Acted? || a.reason == BelowThreshold) && call.doneCandle.Some? then
      g.(inferred := g.inferred[call.symbol := call.doneCandle.value])
    else g
  }

  /** Only positive thresholds are taken over; an exit threshold not given follows from the entry one. */
  function SetThresholdsOf(g: Gate, entry: real, exit: Option<real>): Gate {
    var e := if entry > 0.0 then entry else g.entry;
    g.(entry := e, exit := if exit.Some? && exit.value > 0.0 then exit.value else ExitThreshold(g.cfg.signal, e))
  }

  /** Thresholds in force afterwards: a positive one as given, otherwise entry stays and exit follows from the configuration,
      as set there or as at least a tenth of the entry threshold. Nothing else changes. */
  lemma ThresholdsTaken(g: Gate, entry: real, exit: Option<real>)
    ensures var g' := SetThresholdsOf(g, entry, exit);
            && g'.cfg == g.cfg && g'.inferred == g.inferred
            && g'.entry == (if entry > 0.0 then entry else g.entry)
            && g'.exit == (if exit.Some? && exit.value > 0.0 then exit.value
                           else if g.cfg.signal.exitSignalThreshold.Some? then g.cfg.signal.exitSignalThreshold.value
                           else g'.entry * (if g.cfg.signal.exitThresholdMult > 0.1 then g.cfg.signal.exitThresholdMult else 0.1))
  {
  }

  // ---------------------------------------------------------------- the answer, on forecast prices

  /** The forecast price the signal is taken from: one step's, or the average over the steps. */
  function ForecastPrice(cfg: PredictorConfig, forecast: seq<real>): real
    requires forecast != []
  {
    if cfg.mode == Last then forecast[PickIndex(cfg.index, |forecast|)] else Sum(forecast) / |forecast| as real
  }

  lemma ReturnTimesPrice(x: real, price: real, r: real)
    requires price > 0.0 && r == (x - price) / price
    ensures r * price == x - price
  {
    DivideBack(x - price, price);
  }

  lemma {:induction false} SumOfReturns(price: real, forecast: seq<real>)
    requires price > 0.0
    ensures Sum(StepReturns(price, forecast)) * price == Sum(forecast) - |forecast| as real * price
  {
    if forecast != [] {
      var n := |forecast| - 1;
      SumOfReturns(price, forecast[..n]);
      assert StepReturns(price, forecast)[..n] == StepReturns(price, forecast[..n]);
      var r := StepReturns(price, forecast)[n];
      ReturnTimesPrice(forecast[n], price, r);
      OneMore(Sum(StepReturns(price, forecast[..n])), r, price, n);
    }
  }

  lemma OneMore(sum: real, r: real, price: real, n: nat)
    ensures (sum + r) * price == sum * price + r * price
    ensures (n + 1) as real * price == n as real * price + price
  {
  }

  lemma MeanTimes(sum: real, n: real, price: real, total: real)
    requires n > 0.0 && sum * price == total - n * price
    ensures sum / n * price == total / n - price
  {
    var a, b := sum / n, total / n;
    DivideBack(sum, n);
    DivideBack(total, n);
    assert a * n == sum && b * n == total;
    assert (a * price - b + price) * n == 0.0 by {
      ThreeTimes(a, price, b, n);
    }
    ZeroFactor(a * price - b + price, n);
  }

  lemma ThreeTimes(a: real, price: real, b: real, n: real)
    ensures (a * price - b + price) * n == a * n * price - b * n + n * price
  {
  }

  lemma ZeroFactor(x: real, n: real)
    requires n > 0.0 && x * n == 0.0
    ensures x == 0.0
  {
  }

  /** The aggregate return, times the price, is how far the forecast price lies above the price. */
  lemma AggregateIsMove(cfg: PredictorConfig, price: real, forecast: seq<real>)
    requires price > 0.0 && forecast != []
    ensures AggregateReturn(cfg, StepReturns(price, forecast)) * price == ForecastPrice(cfg, forecast) - price
  {
    if cfg.mode == Last {
      var i := PickIndex(cfg.index, |forecast|);
      ReturnTimesPrice(forecast[i], price, StepReturns(price, forecast)[i]);
    } else {
      SumOfReturns(price, forecast);
      MeanTimes(Sum(StepReturns(price, forecast)), |forecast| as real, price, Sum(forecast));
    }
  }

  lemma CompareScaled(r: real, bound: real, price: real)
    requires price > 0.0
    ensures r > bound <==> r * price > bound * price
    ensures r < -bound <==> r * price < -(bound * price)
  {
    if r <= bound {
      MulMono(r, bound, price);
    } else {
      StrictlyScaled(bound, r, price);
    }
    if r >= -bound {
      MulMono(-bound, r, price);
    } else {
      StrictlyScaled(r, -bound, price);
    }
  }

  lemma StrictlyScaled(a: real, b: real, c: real)
    requires a < b && c > 0.0
    ensures a * c < b * c
  {
  }

  /** The candle the gate sees has been used for an inference on the symbol. */
  predicate Waits(g: Gate, call: Call) {
    g.cfg.onCandleClose && call.gateCandle.Some? && call.symbol in g.inferred && call.gateCandle.value <= g.inferred[call.symbol]
  }

  /** The model is asked: the gate is open, the model there, and enough history. */
  predicate Infers(g: Gate, call: Call) {
    !Waits(g, call) && call.modelLoaded && call.historyLength >= g.cfg.minContext
  }

  /** What a call answers, on the forecast price m: BUY exactly when m exceeds the price by more than the threshold's share
      of it, SELL when it falls short by more, otherwise a HOLD that names its cause. The score is the move's share. */
  lemma AnswersExactly(g: Gate, call: Call)
    ensures var a, threshold := AnswerOf(g, call), if call.forExit then g.exit else g.entry;
            && (a == Held(AwaitingCandle) <==> Waits(g, call))
            && (a == Held(ModelUnloaded) <==> !Waits(g, call) && !call.modelLoaded)
            && (a == Held(InsufficientContext) <==> !Waits(g, call) && call.modelLoaded && !Infers(g, call))
            && (a == Held(InferenceError) <==> Infers(g, call) && call.forecast.None?)
            && (Infers(g, call) && call.forecast.Some? && call.forecast.value != [] && call.price > 0.0 ==>
                  var m := ForecastPrice(g.cfg, call.forecast.value);
                  && (a.Acted? && a.action == Buy <==> m > call.price + threshold * call.price)
                  && (a.Acted? && a.action == Sell <==>
                        m < call.price - threshold * call.price && m <= call.price + threshold * call.price)
                  && (a.Acted? ==> a.action != Hold && a.score * call.price == m - call.price)
                  && (!a.Acted? ==> a == Held(BelowThreshold)))
            && (Infers(g, call) && call.forecast.Some? && (call.forecast.value == [] || call.price <= 0.0) && threshold >= 0.0 ==>
                  a == Held(BelowThreshold))
  {
    hide StepReturns, AggregateReturn, ForecastPrice;
    if call.forecast.Some? {
      var forecast := call.forecast.value;
      var expected := AggregateReturn(g.cfg, StepReturns(call.price, forecast));
      if forecast != [] && call.price > 0.0 {
        AggregateIsMove(g.cfg, call.price, forecast);
        CompareScaled(expected, ThresholdFor(g, call), call.price);
      } else {
        NothingToMove(g.cfg, call.price, forecast);
      }
    }
  }

  lemma NothingToMove(cfg: PredictorConfig, price: real, forecast: seq<real>)
    requires forecast == [] || price <= 0.0
    ensures AggregateReturn(cfg, StepReturns(price, forecast)) == 0.0
  {
    if forecast != [] {
      var zeros := StepReturns(price, forecast);
      SumBelow(zeros, 0.0);
      SumAbove(zeros, 0.0);
    }
  }

  /** The forecast price lies between the bounds of the forecast. */
  lemma ForecastWithin(cfg: PredictorConfig, forecast: seq<real>, bound: real)
    requires forecast != []
    ensures (forall i :: 0 <= i < |forecast| ==> forecast[i] <= bound) ==> ForecastPrice(cfg, forecast) <= bound
    ensures (forall i :: 0 <= i < |forecast| ==> forecast[i] >= bound) ==> ForecastPrice(cfg, forecast) >= bound
  {
    if cfg.mode == Average {
      if forall i :: 0 <= i < |forecast| ==> forecast[i] <= bound {
        SumBelow(forecast, bound);
        MeanBelow(Sum(forecast), |forecast| as real, bound);
      }
      if forall i :: 0 <= i < |forecast| ==> forecast[i] >= bound {
        SumAbove(forecast, bound);
        MeanAbove(Sum(forecast), |forecast| as real, bound);
      }
    }
  }

  /** On forecast prices, in either mode: a BUY has one above the price plus the threshold's share, a SELL one below the price
      minus it; and whenever the model is asked, a forecast entirely above some level beyond the first bound is answered BUY,
      one entirely below some level beyond the second SELL. */
  lemma ForecastDecides(g: Gate, call: Call, level: real)
    requires Infers(g, call) && call.forecast.Some? && call.forecast.value != [] && call.price > 0.0
    ensures var a, f := AnswerOf(g, call), call.forecast.value;
            var margin := (if call.forExit then g.exit else g.entry) * call.price;
            && (a.Acted? && a.action == Buy ==> exists i :: 0 <= i < |f| && f[i] > call.price + margin)
            && (a.Acted? && a.action == Sell ==> exists i :: 0 <= i < |f| && f[i] < call.price - margin)
            && (margin >= 0.0 && level > call.price + margin && (forall i :: 0 <= i < |f| ==> f[i] >= level) ==>
                  a.Acted? && a.action == Buy)
            && (margin >= 0.0 && level < call.price - margin && (forall i :: 0 <= i < |f| ==> f[i] <= level) ==>
                  a.Acted? && a.action == Sell)
  {
    hide AnswerOf, ForecastPrice, Infers;
    var f := call.forecast.value;
    var margin := (if call.forExit then g.exit else g.entry) * call.price;
    AnswersExactly(g, call);
    ForecastWithin(g.cfg, f, call.price + margin);
    ForecastWithin(g.cfg, f, call.price - margin);
    ForecastWithin(g.cfg, f, level);
  }

  /** A candle is used up by exactly the calls that got a forecast and were told the newest candle afterwards. */
  lemma ConsumesExactly(g: Gate, call: Call)
    ensures GateAfter(g, call) ==
            if g.cfg.onCandleClose && Infers(g, call) && call.forecast.Some? && call.doneCandle.Some? then
              g.(inferred := g.inferred[call.symbol := call.doneCandle.value])
            else g
  {
    hide AggregateReturn, StepReturns;
  }

  class TimesFMPredictor {
    const cfg: PredictorConfig
    var entry: real
    var exit: real
    var inferred: map<Symbol, Time>

    function View(): Gate reads this {
      Gate(cfg, entry, exit, inferred)
    }

    constructor (cfg: PredictorConfig, entry: real, exit: real)
      ensures View() == Gate(cfg, entry, exit, map[])
    {
      this.cfg, this.entry, this.exit := cfg, entry, exit;
      inferred := map[];
    }

    method SetThresholds(newEntry: real, newExit: Option<real>)
      modifies this`entry, this`exit
      ensures View() == SetThresholdsOf(old(View()), newEntry, newExit)
    {
      if newEntry > 0.0 {
        entry := newEntry;
      }
      if newExit.Some? && newExit.value > 0.0 {
        exit := newExit.value;
      } else {
        exit := ExitThreshold(cfg.signal, entry);
      }
    }

    method Predict(call: Call) returns (answer: Answer)
      modifies this
      ensures answer == AnswerOf(old(View()), call)
      ensures View() == GateAfter(old(View()), call)
    {
      var threshold := if call.forExit then exit else entry;
      if cfg.onCandleClose {
        var fresh_ := call.gateCandle.None? || call.symbol !in inferred || call.gateCandle.value > inferred[call.symbol];
        if !fresh_ {
          return Held(AwaitingCandle);
        }
      }
      if !call.modelLoaded {
        return Held(ModelUnloaded);
      }
      if call.historyLength < cfg.minContext {
        return Held(InsufficientContext);
      }
      if call.forecast.None? {
        return Held(InferenceError);
      }
      var expected := AggregateReturn(cfg, StepReturns(call.price, call.forecast.value));
      var action := ToAction(expected, threshold);
      if cfg.onCandleClose && call.doneCandle.Some? {
        inferred := inferred[call.symbol := call.doneCandle.value];
      }
      answer := if action == Hold then Held(BelowThreshold) else Acted(action, expected);
    }
  }

  // ---------------------------------------------------------------- predictions in a signal window

  /** One recorded prediction: the newest candle when its call began and when it ended, whether the gate knew the first
      (checked) and remembered the second (consumed), and how often the predictor had been replaced by then. */
  datatype Stamped = Stamped(action: Action, before: Time, after: Time, checked: bool, consumed: bool, epoch: nat)

  /** The predictor, the policy it feeds, the policy's windows with their candles, the number of reloads so far, and the
      candle table as last seen. Entry and exit calls go through the same gate and the same policy. */
  datatype Feed = Feed(gate: Gate, policy: Policy, stamps: map<Symbol, seq<Stamped>>, epoch: nat, table: map<Symbol, Time>)

  /** A call, with the newest candle of the table as it begins and as it ends; everything that moves the windows; and a
      configuration that builds a new predictor, which remembers no candle. */
  datatype FeedStep =
    | Predicted(call: Call, before: Time, after: Time)
    | Forgotten(symbol: Symbol)
    | Tuned(required: int)
    | Moded(mode: Mode)
    | Rethresholded(entry: real, exit: Option<real>)
    | Reloaded(cfg: PredictorConfig, newEntry: real, newExit: real)

  function StampsOf(f: Feed, symbol: Symbol): seq<Stamped> {
    if symbol in f.stamps then f.stamps[symbol] else []
  }

  function ActionOf(a: Answer): Action {
    if a.Acted? then a.action else Hold
  }

  function StampOf(f: Feed, call: Call, before: Time, after: Time): Stamped {
    var gated := f.gate.cfg.onCandleClose;
    Stamped(ActionOf(AnswerOf(f.gate, call)), before, after, gated && call.gateCandle.Some?, gated && call.doneCandle.Some?,
            f.epoch)
  }

  function FeedAfter(f: Feed, s: FeedStep): Feed {
    match s
    case Predicted(call, before, after) =>
      var a := AnswerOf(f.gate, call);
      var f1 := f.(gate := GateAfter(f.gate, call), table := f.table[call.symbol := after]);
      if a == Held(AwaitingCandle) then f1
      else
        f1.(policy := f.policy.Record(call.symbol, ActionOf(a)),
            stamps := f.stamps[call.symbol := LastN(StampsOf(f, call.symbol) + [StampOf(f, call, before, after)],
                                                    f.policy.required)])
    case Forgotten(symbol) => f.(policy := f.policy.Reset(symbol), stamps := f.stamps - {symbol})
    case Tuned(n) =>
      var p := f.policy.SetRequired(n);
      f.(policy := p, stamps := if p == f.policy then f.stamps else map[])
    case Moded(m) =>
      var p := f.policy.SetMode(m);
      f.(policy := p, stamps := if p == f.policy then f.stamps else map[])
    case Rethresholded(entry, exit) => f.(gate := SetThresholdsOf(f.gate, entry, exit))
    case Reloaded(cfg, entry, exit) => f.(gate := Gate(cfg, entry, exit, map[]), epoch := f.epoch + 1)
  }

  function FeedRun(f: Feed, steps: seq<FeedStep>): Feed {
    if steps == [] then f else FeedAfter(FeedRun(f, steps[..|steps| - 1]), steps[|steps| - 1])
  }

  /** The candle table never steps back, and an answer it gives is its newest candle. It may also give none. */
  predicate Truthful(f: Feed, s: FeedStep) {
    s.Predicted? ==>
      && s.before <= s.after
      && (s.call.symbol in f.table ==> f.table[s.call.symbol] <= s.before)
      && (s.call.gateCandle.Some? ==> s.call.gateCandle.value == s.before)
      && (s.call.doneCandle.Some? ==> s.call.doneCandle.value == s.after)
  }

  ghost predicate TruthfulRun(f: Feed, steps: seq<FeedStep>) {
    steps != [] ==>
      TruthfulRun(f, steps[..|steps| - 1]) && Truthful(FeedRun(f, steps[..|steps| - 1]), steps[|steps| - 1])
  }

  predicate Signal(s: Stamped) {
    s.action != Hold
  }

  /** Nothing links the two calls: the first was not remembered, the second was not compared, or the predictor was
      replaced in between. */
  predicate Unlinked(first: Stamped, second: Stamped) {
    !first.consumed || !second.checked || first.epoch != second.epoch
  }

  /** No call began before an earlier one ended, and linked signals are on strictly later candles. */
  ghost predicate Spaced(w: seq<Stamped>) {
    && (forall i :: 0 <= i < |w| ==> w[i].before <= w[i].after)
    && (forall i, j :: 0 <= i < j < |w| ==> w[i].after <= w[j].before)
    && (forall i, j :: 0 <= i < j < |w| && Signal(w[i]) && Signal(w[j]) ==> Unlinked(w[i], w[j]) || w[i].after < w[j].before)
  }

  /** Nothing in the window is later than the table, and the gate remembers what this predictor consumed. */
  ghost predicate Remembered(inferred: map<Symbol, Time>, table: map<Symbol, Time>, epoch: nat, symbol: Symbol,
                             w: seq<Stamped>) {
    && (forall i :: 0 <= i < |w| ==> symbol in table && w[i].after <= table[symbol] && w[i].epoch <= epoch)
    && (forall i :: 0 <= i < |w| && Signal(w[i]) && w[i].consumed && w[i].epoch == epoch ==>
          symbol in inferred && w[i].after <= inferred[symbol])
    && (symbol in inferred ==> symbol in table && inferred[symbol] <= table[symbol])
  }

  predicate SameActions(window: seq<Action>, w: seq<Stamped>) {
    |w| == |window| && forall i :: 0 <= i < |w| ==> w[i].action == window[i]
  }

  ghost predicate SymbolInv(f: Feed, symbol: Symbol) {
    var w := StampsOf(f, symbol);
    && Spaced(w) && SameActions(f.policy.Window(symbol), w)
    && Remembered(f.gate.inferred, f.table, f.epoch, symbol, w)
  }

  lemma SpacedGrows(w: seq<Stamped>, stamp: Stamped, n: nat)
    requires Spaced(w) && stamp.before <= stamp.after
    requires forall i :: 0 <= i < |w| ==> w[i].after <= stamp.before
    requires forall i :: 0 <= i < |w| && Signal(w[i]) && Signal(stamp) ==>
               Unlinked(w[i], stamp) || w[i].after < stamp.before
    ensures Spaced(LastN(w + [stamp], n))
  {
    assert Spaced(w + [stamp]);
  }

  lemma RememberedGrows(inferred: map<Symbol, Time>, table: map<Symbol, Time>, epoch: nat, symbol: Symbol,
                        w: seq<Stamped>, stamp: Stamped, n: nat)
    requires Remembered(inferred, table, epoch, symbol, w)
    requires symbol in table && stamp.after <= table[symbol] && stamp.epoch <= epoch
    requires Signal(stamp) && stamp.consumed && stamp.epoch == epoch ==>
               symbol in inferred && stamp.after <= inferred[symbol]
    ensures Remembered(inferred, table, epoch, symbol, LastN(w + [stamp], n))
  {
    assert Remembered(inferred, table, epoch, symbol, w + [stamp]);
  }

  /** Time passing on the symbol's table and a completed inference only raise what is remembered. */
  lemma RememberedAfterCall(f: Feed, call: Call, before: Time, after: Time, w: seq<Stamped>)
    requires Truthful(f, Predicted(call, before, after)) && Remembered(f.gate.inferred, f.table, f.epoch, call.symbol, w)
    ensures Remembered(GateAfter(f.gate, call).inferred, f.table[call.symbol := after], f.epoch, call.symbol, w)
  {
    hide AnswerOf;
  }

  lemma SameActionsGrow(window: seq<Action>, w: seq<Stamped>, stamp: Stamped, n: nat)
    requires SameActions(window, w)
    ensures SameActions(LastN(window + [stamp.action], n), LastN(w + [stamp], n))
  {
  }

  lemma PredictionKeeps(f: Feed, call: Call, before: Time, after: Time)
    requires SymbolInv(f, call.symbol) && Truthful(f, Predicted(call, before, after))
    ensures SymbolInv(FeedAfter(f, Predicted(call, before, after)), call.symbol)
  {
    hide AnswerOf, GateAfter, Spaced, Remembered, SameActions;
    var w := StampsOf(f, call.symbol);
    RememberedAfterCall(f, call, before, after, w);
    if AnswerOf(f.gate, call) != Held(AwaitingCandle) {
      var stamp := StampOf(f, call, before, after);
      StampFits(f, call, before, after);
      SpacedGrows(w, stamp, f.policy.required);
      RememberedGrows(GateAfter(f.gate, call).inferred, f.table[call.symbol := after], f.epoch, call.symbol, w, stamp,
                      f.policy.required);
      SameActionsGrow(f.policy.Window(call.symbol), w, stamp, f.policy.required);
    }
  }

  lemma StampFits(f: Feed, call: Call, before: Time, after: Time)
    requires Truthful(f, Predicted(call, before, after)) && AnswerOf(f.gate, call) != Held(AwaitingCandle)
    requires Remembered(f.gate.inferred, f.table, f.epoch, call.symbol, StampsOf(f, call.symbol))
    requires before <= after
    ensures var w, stamp := StampsOf(f, call.symbol), StampOf(f, call, before, after);
            && (forall i :: 0 <= i < |w| ==> w[i].after <= stamp.before)
            && (forall i :: 0 <= i < |w| && Signal(w[i]) && Signal(stamp) ==>
                  Unlinked(w[i], stamp) || w[i].after < stamp.before)
            && (Signal(stamp) && stamp.consumed ==>
                  call.symbol in GateAfter(f.gate, call).inferred && stamp.after == GateAfter(f.gate, call).inferred[call.symbol])
  {
    hide AggregateReturn, ToAction, StepReturns;
  }

  lemma EmptyWindow(f: Feed, symbol: Symbol)
    requires StampsOf(f, symbol) == [] && f.policy.Window(symbol) == []
    requires symbol in f.gate.inferred ==> symbol in f.table && f.gate.inferred[symbol] <= f.table[symbol]
    ensures SymbolInv(f, symbol)
  {
    assert Spaced([]) by { NothingSpaced(); }
  }

  /** A step that leaves the symbol's windows as they are, and its table and gate memory, or forgets the latter. */
  lemma UntouchedKeeps(f: Feed, f': Feed, symbol: Symbol)
    requires SymbolInv(f, symbol)
    requires StampsOf(f', symbol) == StampsOf(f, symbol) && f'.policy.Window(symbol) == f.policy.Window(symbol)
    requires (symbol in f'.table <==> symbol in f.table) && (symbol in f.table ==> f'.table[symbol] == f.table[symbol])
    requires (f'.epoch == f.epoch && (symbol in f'.gate.inferred <==> symbol in f.gate.inferred)
              && (symbol in f.gate.inferred ==> f'.gate.inferred[symbol] == f.gate.inferred[symbol]))
          || (f'.epoch > f.epoch && symbol !in f'.gate.inferred)
    ensures SymbolInv(f', symbol)
  {
    hide Spaced, SameActions;
  }

  lemma ElsewhereKeeps(f: Feed, s: FeedStep, symbol: Symbol)
    requires SymbolInv(f, symbol) && (s.Predicted? ==> s.call.symbol != symbol)
    ensures SymbolInv(FeedAfter(f, s), symbol)
  {
    hide AnswerOf, Spaced;
    var f' := FeedAfter(f, s);
    if StampsOf(f', symbol) != StampsOf(f, symbol) || f'.policy.Window(symbol) != f.policy.Window(symbol) {
      EmptyWindow(f', symbol);
    } else {
      UntouchedKeeps(f, f', symbol);
    }
  }

  lemma NothingSpaced()
    ensures Spaced([])
  {
  }

  /** A predictor, a policy and a table nothing has been asked of yet. */
  predicate Unused(f: Feed) {
    f.gate.inferred == map[] && f.policy.history == map[] && f.stamps == map[] && f.table == map[]
  }

  lemma {:induction false} FeedKeeps(f: Feed, steps: seq<FeedStep>, symbol: Symbol)
    requires Unused(f) && TruthfulRun(f, steps)
    ensures SymbolInv(FeedRun(f, steps), symbol)
  {
    hide FeedAfter, Truthful;
    if steps != [] {
      var before, s := steps[..|steps| - 1], steps[|steps| - 1];
      FeedKeeps(f, before, symbol);
      if s.Predicted? && s.call.symbol == symbol {
        PredictionKeeps(FeedRun(f, before), s.call, s.before, s.after);
      } else {
        ElsewhereKeeps(FeedRun(f, before), s, symbol);
      }
    }
  }

  /** Each call of the window began on a candle later than any earlier one had seen. */
  ghost predicate DistinctCandles(w: seq<Stamped>) {
    forall i, j :: 0 <= i < j < |w| ==> w[i].after < w[j].before
  }

  /** Two calls nothing links, while the table had not advanced from the end of the first to the start of the second. */
  ghost predicate RepeatsCandle(w: seq<Stamped>) {
    exists i, j :: 0 <= i < j < |w| && Unlinked(w[i], w[j]) && w[j].before == w[i].after
  }

  /** Over every run on a table that never steps back, reloads included: a confirmed signal rests on as many different,
      strictly later candles as it needs confirmations, whichever of entry and exit asked, if and only if its window
      holds no two calls with no answer after the inference of the first, none at the gate of the second, or a reload
      between them, while the table had not advanced. */
  lemma ConfirmationsAreDistinctIff(f: Feed, steps: seq<FeedStep>, symbol: Symbol, action: Action)
    requires Unused(f) && TruthfulRun(f, steps)
    requires action != Hold && FeedRun(f, steps).policy.IsConsecutive(symbol, action)
    ensures var w := StampsOf(FeedRun(f, steps), symbol);
            && |w| == FeedRun(f, steps).policy.required
            && (forall i :: 0 <= i < |w| ==> w[i].action == action)
            && (DistinctCandles(w) <==> !RepeatsCandle(w))
  {
    hide FeedRun, TruthfulRun, Unlinked;
    FeedKeeps(f, steps, symbol);
    var r := FeedRun(f, steps);
    var w := StampsOf(r, symbol);
    assert Spaced(w) && SameActions(r.policy.Window(symbol), w);
    if !RepeatsCandle(w) {
      forall i, j | 0 <= i < j < |w|
        ensures w[i].after < w[j].before
      {
        assert Signal(w[i]) && Signal(w[j]) && w[i].after <= w[j].before;
      }
    }
  }

  /** The table answered both questions of every call, and no patch replaced the predictor. */
  predicate AnsweredAndKept(steps: seq<FeedStep>) {
    forall i :: 0 <= i < |steps| ==>
      && !steps[i].Reloaded?
      && (steps[i].Predicted? ==> steps[i].call.gateCandle.Some? && steps[i].call.doneCandle.Some?)
  }

  ghost predicate Linked(f: Feed, symbol: Symbol) {
    f.gate.cfg.onCandleClose
    && forall w :: w in StampsOf(f, symbol) ==> w.checked && w.consumed && w.epoch == f.epoch
  }

  lemma StepStaysLinked(f: Feed, s: FeedStep, symbol: Symbol)
    requires Linked(f, symbol) && AnsweredAndKept([s])
    ensures Linked(FeedAfter(f, s), symbol)
  {
    hide AnswerOf;
    assert [s][0] == s;
  }

  lemma {:induction false} RunStaysLinked(f: Feed, steps: seq<FeedStep>, symbol: Symbol)
    requires Unused(f) && f.gate.cfg.onCandleClose && AnsweredAndKept(steps)
    ensures Linked(FeedRun(f, steps), symbol)
  {
    hide FeedAfter;
    if steps != [] {
      var s := steps[|steps| - 1];
      RunStaysLinked(f, steps[..|steps| - 1], symbol);
      StepStaysLinked(FeedRun(f, steps[..|steps| - 1]), s, symbol);
    }
  }

  /** In particular always, with the gate on, a table that answers and no reload. */
  lemma ConfirmationsAreDistinctCandles(f: Feed, steps: seq<FeedStep>, symbol: Symbol, action: Action)
    requires Unused(f) && TruthfulRun(f, steps) && f.gate.cfg.onCandleClose && AnsweredAndKept(steps)
    requires action != Hold && FeedRun(f, steps).policy.IsConsecutive(symbol, action)
    ensures DistinctCandles(StampsOf(FeedRun(f, steps), symbol))
  {
    hide FeedRun, TruthfulRun, Policy.IsConsecutive;
    ConfirmationsAreDistinctIff(f, steps, symbol, action);
    RunStaysLinked(f, steps, symbol);
  }

  // ---------------------------------------------------------------- inputs that repeat a candle

  /** Two calls that signal, on the same candle: the window is full and both entries are on it. */
  ghost predicate CountedTwice(f: Feed, steps: seq<FeedStep>, call: Call, candle: Time) {
    var r := FeedRun(f, steps);
    && TruthfulRun(f, steps) && AnswerOf(f.gate, call).Acted?
    && r.policy.IsConsecutive(call.symbol, AnswerOf(f.gate, call).action)
    && |StampsOf(r, call.symbol)| == 2
    && forall i :: 0 <= i < 2 ==> StampsOf(r, call.symbol)[i].before == StampsOf(r, call.symbol)[i].after == candle
  }

  lemma TwoSteps(f: Feed, a: FeedStep, b: FeedStep)
    ensures FeedRun(f, [a, b]) == FeedAfter(FeedAfter(f, a), b)
    ensures Truthful(f, a) && Truthful(FeedAfter(f, a), b) ==> TruthfulRun(f, [a, b])
  {
    hide FeedAfter, Truthful;
    assert [a, b][..1] == [a] && [a][..0] == [];
    assert FeedRun(f, [a]) == FeedAfter(f, a) && TruthfulRun(f, [a]) == Truthful(f, a);
  }

  /** No answer after the inference: the gate remembers nothing, and the same candle is asked again. */
  lemma SilentTableRepeatsCandle(f: Feed, call: Call, candle: Time)
    requires Unused(f) && f.gate.cfg.onCandleClose && f.policy.required == 2
    requires AnswerOf(f.gate, call).Acted? && call.gateCandle == Some(candle) && call.doneCandle == None
    ensures CountedTwice(f, [Predicted(call, candle, candle), Predicted(call, candle, candle)], call, candle)
  {
    hide AggregateReturn, ToAction, StepReturns;
    var s := Predicted(call, candle, candle);
    TwoSteps(f, s, s);
    ActedNotHold(f.gate, call);
  }

  /** No answer at the gate: it lets the call through although it remembers the candle. */
  lemma SilentGateRepeatsCandle(f: Feed, call: Call, candle: Time)
    requires Unused(f) && f.gate.cfg.onCandleClose && f.policy.required == 2
    requires AnswerOf(f.gate, call).Acted? && call.gateCandle == None && call.doneCandle == Some(candle)
    ensures CountedTwice(f, [Predicted(call, candle, candle), Predicted(call, candle, candle)], call, candle)
  {
    hide AggregateReturn, ToAction, StepReturns;
    var s := Predicted(call, candle, candle);
    TwoSteps(f, s, s);
    ActedNotHold(f.gate, call);
  }

  /** A reload between two answered calls: the new predictor has seen no candle, and the windows are kept. */
  lemma ReloadRepeatsCandle(f: Feed, call: Call, candle: Time)
    requires Unused(f) && f.gate.cfg.onCandleClose && f.policy.required == 2
    requires AnswerOf(f.gate, call).Acted? && call.gateCandle == Some(candle) && call.doneCandle == Some(candle)
    ensures CountedTwice(f, [Predicted(call, candle, candle), Reloaded(f.gate.cfg, f.gate.entry, f.gate.exit),
                             Predicted(call, candle, candle)], call, candle)
  {
    hide AggregateReturn, ToAction, StepReturns;
    var s, reload := Predicted(call, candle, candle), Reloaded(f.gate.cfg, f.gate.entry, f.gate.exit);
    TwoSteps(f, s, reload);
    assert [s, reload, s][..2] == [s, reload];
    ActedNotHold(f.gate, call);
  }

  lemma ActedNotHold(g: Gate, call: Call)
    ensures AnswerOf(g, call).Acted? ==> AnswerOf(g, call).action != Hold
  {
  }
}
