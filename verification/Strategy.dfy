/** From a confirmed signal to an order intent: percent-of-equity sizing (risk/sizing.py)
    under the pass-through strategy (strategy/passthrough.py). */
module Strategies {
  import opened Domain
  import opened Arithmetic
  import opened Exits
  import opened RiskChecking

  datatype SizingConfig = SizingConfig(riskPct: real, maxNotionalPct: real, minOrderNotional: real, maxLeverage: int)

  datatype SizingReason = Ok | NoEquity | NoEntryPrice | NoStopLoss | BelowMinNotional

  datatype Sizing = Sizing(quantity: real, notional: real, reason: SizingReason) {
    predicate IsValid() {
      quantity > 0.0 && notional > 0.0
    }
  }

  function StopDistance(entry: real, sl: Option<real>): real
    requires entry > 0.0
  {
    if sl.None? then 0.0 else AbsReal(entry - sl.value) / entry
  }

  function MaxNotional(cfg: SizingConfig, equity: real): real {
    equity * cfg.maxNotionalPct
  }

  function LeverageCap(cfg: SizingConfig, equity: real): real {
    equity * (Max(1, cfg.maxLeverage) as real)
  }

  /** The smallest of what the risk budget, the position cap and the leverage cap allow. */
  function TargetNotional(cfg: SizingConfig, equity: real, distance: real): real
    requires distance > 0.0
  {
    MinReal(equity * cfg.riskPct / distance, MinReal(MaxNotional(cfg, equity), LeverageCap(cfg, equity)))
  }

  function ToQuantity(notional: real, maxNotional: real, minNotional: real, entry: real): Sizing
    requires entry > 0.0
  {
    if notional < minNotional then Sizing(0.0, notional, BelowMinNotional)
    else
      var quantity := notional / entry;
      if quantity * entry > maxNotional then
        var floored := (maxNotional / entry * 100000000.0).Floor as real / 100000000.0;
        if floored * entry < minNotional then Sizing(0.0, floored * entry, BelowMinNotional)
        else Sizing(floored, floored * entry, Ok)
      else Sizing(quantity, notional, Ok)
  }

  function Calculate(cfg: SizingConfig, equity: real, entry: real, sl: Option<real>): Sizing {
    if equity <= 0.0 then Sizing(0.0, 0.0, NoEquity)
    else if entry <= 0.0 then Sizing(0.0, 0.0, NoEntryPrice)
    else
      var distance := StopDistance(entry, sl);
      if distance <= 0.0 then Sizing(0.0, 0.0, NoStopLoss)
      else ToQuantity(TargetNotional(cfg, equity, distance), MaxNotional(cfg, equity), cfg.minOrderNotional, entry)
  }

  datatype Strategy = Strategy(tpPct: real, slPct: real, scale: real, sizing: Option<SizingConfig>, fallbackEquity: real) {
    function SetDynamicExit(tp: real, sl: real, positionScale: real): Strategy {
      this.(tpPct := MaxReal(0.0, tp), slPct := MaxReal(0.0, sl), scale := MaxReal(0.1, MinReal(1.0, positionScale)))
    }

    /** The wallet balance, or the configured fallback when the wallet reports none. */
    function Equity(balance: real): real {
      if balance > 0.0 then balance else fallbackEquity
    }

    function Quantity(balance: real, entry: real, sl: Option<real>): real {
      if sizing.None? then 1.0
      else
        var result := Calculate(sizing.value, Equity(balance), entry, sl);
        if result.IsValid() then result.quantity * scale else 0.0
    }

    function Decide(symbol: Symbol, p: Prediction, price: real, balance: real): Option<Intent> {
      if p.action == Hold then None
      else
        var side := if p.action == Buy then Long else Short;
        var entry := OrElse(p.priceHint, price);
        var tp := TakeProfitPrice(entry, side, tpPct);
        var sl := StopLossPrice(entry, side, slPct);
        var quantity := Quantity(balance, entry, sl);
        if quantity <= 0.0 then None
        else Some(Intent(symbol, OpeningSide(side), quantity, Some(entry), tp, sl))
    }
  }

  class PassthroughStrategy {
    var tpPct: real
    var slPct: real
    var scale: real
    const sizing: Option<SizingConfig>
    const fallbackEquity: real

    function View(): Strategy
      reads this
    {
      Strategy(tpPct, slPct, scale, sizing, fallbackEquity)
    }

    constructor (tpPct: real, slPct: real, sizing: Option<SizingConfig>, fallbackEquity: real)
      ensures View() == Strategy(MaxReal(0.0, tpPct), MaxReal(0.0, slPct), 1.0, sizing, MaxReal(0.0, fallbackEquity))
    {
      this.tpPct := MaxReal(0.0, tpPct);
      this.slPct := MaxReal(0.0, slPct);
      scale := 1.0;
      this.sizing := sizing;
      this.fallbackEquity := MaxReal(0.0, fallbackEquity);
    }

    method SetDynamicExit(tp: real, sl: real, positionScale: real)
      modifies this
      ensures View() == old(View()).SetDynamicExit(tp, sl, positionScale)
    {
      tpPct := MaxReal(0.0, tp);
      slPct := MaxReal(0.0, sl);
      scale := MaxReal(0.1, MinReal(1.0, positionScale));
    }
  }

  // ---------------------------------------------------------------- what a sized order can cost

  /** Over the reals the re-flooring branch is dead: notional / entry * entry is notional. */
  lemma NeverFloored(notional: real, maxNotional: real, minNotional: real, entry: real)
    requires entry > 0.0 && notional <= maxNotional
    ensures ToQuantity(notional, maxNotional, minNotional, entry) ==
            if notional < minNotional then Sizing(0.0, notional, BelowMinNotional) else Sizing(notional / entry, notional, Ok)
  {
    DivideBack(notional, entry);
  }

  lemma SizedNotional(cfg: SizingConfig, equity: real, entry: real, sl: Option<real>)
    requires Calculate(cfg, equity, entry, sl).IsValid()
    ensures equity > 0.0 && entry > 0.0 && sl.Some? && StopDistance(entry, sl) > 0.0
    ensures var s := Calculate(cfg, equity, entry, sl);
            && s.notional == TargetNotional(cfg, equity, StopDistance(entry, sl)) >= cfg.minOrderNotional
            && s.quantity * entry == s.notional
            && s.notional <= equity * cfg.riskPct / StopDistance(entry, sl)
            && s.notional <= MaxNotional(cfg, equity) && s.notional <= LeverageCap(cfg, equity)
  {
    hide ToQuantity;
    var notional := TargetNotional(cfg, equity, StopDistance(entry, sl));
    NeverFloored(notional, MaxNotional(cfg, equity), cfg.minOrderNotional, entry);
    DivideBack(notional, entry);
  }

  /** Rounding a quantity down to the exchange's lot step (exchange/binance_futures.py). */
  function RoundDown(quantity: real, step: real): (r: real)
    ensures quantity >= 0.0 ==> 0.0 <= r <= quantity
  {
    if step <= 0.0 then quantity
    else
      var rounded := (quantity / step).Floor as real * step;
      assert rounded <= quantity by { FloorTimes(quantity, step); }
      if rounded <= 0.0 then 0.0 else rounded
  }

  /** A positive quantity comes out as the largest whole number of steps in it. */
  lemma RoundsToSteps(quantity: real, step: real) returns (n: nat)
    requires quantity >= 0.0 && step > 0.0
    ensures RoundDown(quantity, step) == n as real * step <= quantity && quantity - n as real * step < step
  {
    var q := quantity / step;
    QuotientTimes(quantity, step, q);
    NonNegativeFloor(quantity, step, q);
    n := q.Floor;
    WithinStep(q, n as real, step, quantity);
    MulMono(0.0, n as real, step);
    var whole := n as real * step;
    assert RoundDown(quantity, step) == if whole <= 0.0 then 0.0 else whole;
  }

  lemma WithinStep(q: real, n: real, step: real, quantity: real)
    requires n <= q < n + 1.0 && step > 0.0 && q * step == quantity
    ensures n * step <= quantity
    ensures quantity - n * step < step
  {
    MulMono(n, q, step);
    var part := q - n;
    StrictShare(part, step);
    var whole, below, rest := q * step, n * step, part * step;
    assert rest == whole - below;
  }

  lemma StrictShare(part: real, step: real)
    requires part < 1.0 && step > 0.0
    ensures part * step < step
  {
  }

  lemma NonNegativeFloor(quantity: real, step: real, q: real)
    requires quantity >= 0.0 && step > 0.0 && q == quantity / step
    ensures q.Floor >= 0
  {
  }

  lemma FloorTimes(quantity: real, step: real)
    requires step > 0.0
    ensures (quantity / step).Floor as real * step <= quantity
  {
    var q := quantity / step;
    DivideBack(quantity, step);
    MulMono(q.Floor as real, q, step);
  }

  lemma NotionalWithinBudget(budget: real, d: real, notional: real)
    requires d > 0.0 && notional <= budget / d
    ensures notional * d <= budget
  {
    MulMono(notional, budget / d, d);
    DivideBack(budget, d);
  }

  lemma DistanceInPrice(q: real, entry: real, gap: real, notional: real)
    requires entry > 0.0 && q * entry == notional
    ensures q * gap == notional * (gap / entry)
  {
    assert notional * (gap / entry) == q * (entry * (gap / entry));
    DivideBack(gap, entry);
  }

  /** Stopped out, q units lose at most the risk budget; and they commit at most the capped notional. */
  predicate WithinBudget(cfg: SizingConfig, equity: real, entry: real, sl: Option<real>, q: real) {
    && equity > 0.0 && entry > 0.0 && sl.Some? && q >= 0.0
    && q * AbsReal(entry - sl.value) <= equity * cfg.riskPct
    && q * entry <= equity * MinReal(cfg.maxNotionalPct, Max(1, cfg.maxLeverage) as real)
  }

  lemma SizedWithinBudget(cfg: SizingConfig, equity: real, entry: real, sl: Option<real>)
    requires Calculate(cfg, equity, entry, sl).IsValid()
    ensures WithinBudget(cfg, equity, entry, sl, Calculate(cfg, equity, entry, sl).quantity)
  {
    hide Calculate, MinReal, AbsReal;
    var s := Calculate(cfg, equity, entry, sl);
    SizedNotional(cfg, equity, entry, sl);
    var gap := AbsReal(entry - sl.value);
    LossAtStop(s.quantity, entry, gap, s.notional, equity * cfg.riskPct);
    CapsCombine(equity, cfg.maxNotionalPct, Max(1, cfg.maxLeverage) as real, s.notional);
  }

  lemma LossAtStop(q: real, entry: real, gap: real, notional: real, budget: real)
    requires entry > 0.0 && gap / entry > 0.0 && q * entry == notional && notional <= budget / (gap / entry)
    ensures q * gap <= budget
  {
    NotionalWithinBudget(budget, gap / entry, notional);
    DistanceInPrice(q, entry, gap, notional);
  }

  lemma CapsCombine(c: real, a: real, b: real, x: real)
    requires x <= c * a && x <= c * b
    ensures x <= c * MinReal(a, b)
  {
    if a <= b {
      assert MinReal(a, b) == a;
    } else {
      assert MinReal(a, b) == b;
    }
  }

  /** Any part of a quantity within budget is within budget. */
  lemma PartWithinBudget(cfg: SizingConfig, equity: real, entry: real, sl: Option<real>, q: real, part: real)
    requires WithinBudget(cfg, equity, entry, sl, q) && 0.0 <= part <= q
    ensures WithinBudget(cfg, equity, entry, sl, part)
  {
    MulMono(part, q, AbsReal(entry - sl.value));
    MulMono(part, q, entry);
  }

  lemma ScaledDown(q: real, scale: real)
    requires q >= 0.0 && 0.0 <= scale <= 1.0
    ensures 0.0 <= q * scale <= q
  {
    MulMonoLeft(scale, 1.0, q);
  }

  lemma ScaledWithinBudget(cfg: SizingConfig, equity: real, entry: real, sl: Option<real>, q: real, scale: real, scaled: real)
    requires WithinBudget(cfg, equity, entry, sl, q) && 0.0 <= scale <= 1.0 && scaled == q * scale
    ensures WithinBudget(cfg, equity, entry, sl, scaled)
  {
    ScaledDown(q, scale);
    PartWithinBudget(cfg, equity, entry, sl, q, scaled);
  }

  lemma QuantityWithinBudget(s: Strategy, balance: real, entry: real, sl: Option<real>)
    requires s.sizing.Some? && 0.0 <= s.scale <= 1.0
    requires s.Quantity(balance, entry, sl) > 0.0
    ensures WithinBudget(s.sizing.value, s.Equity(balance), entry, sl, s.Quantity(balance, entry, sl))
  {
    hide Calculate, WithinBudget;
    var sized := Calculate(s.sizing.value, s.Equity(balance), entry, sl);
    assert sized.IsValid() && s.Quantity(balance, entry, sl) == sized.quantity * s.scale;
    SizedWithinBudget(s.sizing.value, s.Equity(balance), entry, sl);
    ScaledWithinBudget(s.sizing.value, s.Equity(balance), entry, sl, sized.quantity, s.scale,
                       s.Quantity(balance, entry, sl));
  }

  lemma DecidedWithinBudget(s: Strategy, symbol: Symbol, p: Prediction, price: real, balance: real)
    requires s.sizing.Some? && 0.0 <= s.scale <= 1.0
    requires s.Decide(symbol, p, price, balance).Some?
    ensures var intent := s.Decide(symbol, p, price, balance).value;
            && intent.price == Some(OrElse(p.priceHint, price))
            && WithinBudget(s.sizing.value, s.Equity(balance), OrElse(p.priceHint, price), intent.sl, intent.quantity)
  {
    QuantityWithinBudget(s, balance, OrElse(p.priceHint, price), s.Decide(symbol, p, price, balance).value.sl);
  }

  /** For every equity, price, regime scale and side, the order sent, even after lot rounding,
      can lose at most the risk budget at its stop and commits at most the capped notional. */
  lemma RiskBudgetHolds(s: Strategy, symbol: Symbol, p: Prediction, price: real, balance: real, step: real)
    requires s.sizing.Some? && 0.0 <= s.scale <= 1.0
    requires s.Decide(symbol, p, price, balance).Some?
    ensures var intent := s.Decide(symbol, p, price, balance).value;
            var entry := OrElse(p.priceHint, price);
            && intent.price == Some(entry)
            && WithinBudget(s.sizing.value, s.Equity(balance), entry, intent.sl, intent.quantity)
            && WithinBudget(s.sizing.value, s.Equity(balance), entry, intent.sl, RoundDown(intent.quantity, step))
  {
    var intent := s.Decide(symbol, p, price, balance).value;
    var entry := OrElse(p.priceHint, price);
    DecidedWithinBudget(s, symbol, p, price, balance);
    PartWithinBudget(s.sizing.value, s.Equity(balance), entry, intent.sl, intent.quantity, RoundDown(intent.quantity, step));
  }

  // ---------------------------------------------------------------- exactly what is ordered

  /** The stop sits slPct away, so that is the distance sizing divides by. */
  lemma DistanceIsPct(entry: real, side: Side, slPct: real)
    requires entry > 0.0
    ensures StopDistance(entry, StopLossPrice(entry, side, slPct)) == if slPct > 0.0 then slPct else 0.0
  {
    if slPct > 0.0 {
      var gap := entry * slPct;
      assert gap > 0.0;
      assert entry * (1.0 - slPct) == entry - gap && entry * (1.0 + slPct) == entry + gap;
      ShareOf(gap, entry, slPct);
    }
  }

  lemma ShareOf(gap: real, entry: real, pct: real)
    requires entry > 0.0 && gap == entry * pct
    ensures gap / entry == pct
  {
  }

  /** The notional the caps leave for a stop slPct away. */
  function Affordable(cfg: SizingConfig, equity: real, slPct: real): real
    requires slPct > 0.0
  {
    var byRisk, byCap, byLeverage := equity * cfg.riskPct / slPct, equity * cfg.maxNotionalPct,
                                     equity * (if cfg.maxLeverage < 1 then 1 else cfg.maxLeverage) as real;
    if byRisk <= byCap && byRisk <= byLeverage then byRisk else if byCap <= byLeverage then byCap else byLeverage
  }

  predicate Sizable(s: Strategy, equity: real, entry: real) {
    s.sizing.None? ||
    (&& equity > 0.0 && entry > 0.0 && s.slPct > 0.0 && s.scale > 0.0
     && Affordable(s.sizing.value, equity, s.slPct) > 0.0
     && Affordable(s.sizing.value, equity, s.slPct) >= s.sizing.value.minOrderNotional)
  }

  lemma AffordableIsTarget(cfg: SizingConfig, equity: real, slPct: real)
    requires slPct > 0.0
    ensures Affordable(cfg, equity, slPct) == TargetNotional(cfg, equity, slPct) <= MaxNotional(cfg, equity)
  {
  }

  lemma ValidExactly(notional: real, entry: real, minNotional: real)
    requires entry > 0.0
    ensures notional / entry > 0.0 <==> notional > 0.0
  {
    DivideBack(notional, entry);
    if notional / entry > 0.0 {
      PositiveTimes(notional / entry, entry);
    } else {
      MulMono(notional / entry, 0.0, entry);
    }
  }

  lemma PositiveTimes(a: real, b: real)
    requires b > 0.0
    ensures a * b > 0.0 <==> a > 0.0
  {
    if a <= 0.0 {
      MulMono(a, 0.0, b);
    }
  }

  lemma ScaledNotional(q: real, scale: real, entry: real, notional: real)
    requires q * entry == notional
    ensures q * scale * entry == scale * notional
  {
    assert q * scale * entry == scale * (q * entry);
  }

  lemma QuantityExact(s: Strategy, balance: real, entry: real, side: Side)
    ensures var q := s.Quantity(balance, entry, StopLossPrice(entry, side, s.slPct));
            && (q > 0.0 <==> Sizable(s, s.Equity(balance), entry))
            && (s.sizing.None? ==> q == 1.0)
            && (s.sizing.Some? && q > 0.0 ==> q * entry == s.scale * Affordable(s.sizing.value, s.Equity(balance), s.slPct))
  {
    hide ToQuantity, StopDistance, TargetNotional, Affordable, StopLossPrice;
    var equity := s.Equity(balance);
    if s.sizing.Some? && equity > 0.0 && entry > 0.0 {
      DistanceIsPct(entry, side, s.slPct);
      if s.slPct > 0.0 {
        var cfg := s.sizing.value;
        var notional := Affordable(cfg, equity, s.slPct);
        AffordableIsTarget(cfg, equity, s.slPct);
        NeverFloored(notional, MaxNotional(cfg, equity), cfg.minOrderNotional, entry);
        ValidExactly(notional, entry, cfg.minOrderNotional);
        DivideBack(notional, entry);
        ScaledNotional(notional / entry, s.scale, entry, notional);
        if notional > 0.0 {
          PositiveTimes(s.scale, notional / entry);
        }
      }
    }
  }

  /** What the strategy orders, exactly: nothing on HOLD or when it cannot size; otherwise the scale's share of what the
      tightest of risk budget, position cap and leverage affords, at the hinted price or the market's, with both levels
      their percentages away from it. Equity is the wallet's, or the fallback when the wallet reports none. */
  lemma DecidesExactly(s: Strategy, symbol: Symbol, p: Prediction, price: real, balance: real)
    ensures var i := s.Decide(symbol, p, price, balance);
            var entry := if p.priceHint.Some? && p.priceHint.value != 0.0 then p.priceHint.value else price;
            var equity := if balance > 0.0 then balance else s.fallbackEquity;
            && (i.Some? <==> p.action != Hold && Sizable(s, equity, entry))
            && (i.Some? ==>
                  && i.value.symbol == symbol && i.value.side == (if p.action == Buy then BuySide else SellSide)
                  && i.value.price == Some(entry)
                  && i.value.tp == LevelAt(entry, if p.action == Buy then s.tpPct else -s.tpPct, s.tpPct > 0.0)
                  && i.value.sl == LevelAt(entry, if p.action == Buy then -s.slPct else s.slPct, s.slPct > 0.0)
                  && (s.sizing.None? ==> i.value.quantity == 1.0)
                  && (s.sizing.Some? ==>
                        && i.value.quantity > 0.0
                        && i.value.quantity * entry == s.scale * Affordable(s.sizing.value, equity, s.slPct)))
  {
    hide Affordable, Sizable, Strategy.Quantity, TakeProfitPrice, StopLossPrice, LevelAt;
    var entry, side := OrElse(p.priceHint, price), if p.action == Buy then Long else Short;
    QuantityExact(s, balance, entry, side);
    LevelsAt(entry, side, s.tpPct, s.slPct);
  }

  lemma UnderCapPasses(r: Risk, cfg: SizingConfig, sl: Option<real>, intent: Intent, equity: real,
                       positions: seq<(Symbol, real)>, recent: seq<Order>, dailyPnl: real, now: Time)
    requires intent.price.Some? && WithinBudget(cfg, equity, intent.price.value, sl, intent.quantity)
    requires r.cfg.maxNotionalPct >= cfg.maxNotionalPct
    ensures r.Judge(intent, equity, positions, recent, dailyPnl, now) != RejectNotional
  {
    MulMonoLeft(MinReal(cfg.maxNotionalPct, Max(1, cfg.maxLeverage) as real), r.cfg.maxNotionalPct, equity);
    MulMono(0.0, intent.quantity, intent.price.value);
    assert AbsReal(intent.quantity * intent.price.value) <= equity * r.cfg.maxNotionalPct;
  }

  /** With the same equity and a risk cap at least the sizing cap, the notional gate never fires. */
  lemma SizedOrderPassesNotionalGate(s: Strategy, symbol: Symbol, p: Prediction, price: real, balance: real,
                                     r: Risk, positions: seq<(Symbol, real)>, recent: seq<Order>, dailyPnl: real, now: Time)
    requires s.sizing.Some? && 0.0 <= s.scale <= 1.0
    requires r.cfg.maxNotionalPct >= s.sizing.value.maxNotionalPct
    requires s.Decide(symbol, p, price, balance).Some?
    ensures r.Judge(s.Decide(symbol, p, price, balance).value, s.Equity(balance), positions, recent, dailyPnl, now)
            != RejectNotional
  {
    var intent := s.Decide(symbol, p, price, balance).value;
    DecidedWithinBudget(s, symbol, p, price, balance);
    UnderCapPasses(r, s.sizing.value, intent.sl, intent, s.Equity(balance), positions, recent, dailyPnl, now);
  }
}
