/** What a take-profit or stop-loss close is worth: the recorded reason fixes the sign and
    a bound on the size of the result. */
module ExitReasons {
  import opened Domain
  import opened Arithmetic
  import opened PositionManagement
  import opened Exits
  import opened Strategies
  import opened Stores
  import opened EngineModel
  import opened TickShapes
  import opened SignalProvenance
  import Rollup

  /** Take-profit and stop-loss sit the given fractions away from a positive entry price. */
  predicate Bracketed(p: Position, tpPct: real, slPct: real) {
    && p.entryPrice > 0.0 && p.quantity > 0.0
    && p.tp == TakeProfitPrice(p.entryPrice, p.side, tpPct)
    && p.sl == StopLossPrice(p.entryPrice, p.side, slPct)
  }

  /** Opened by the strategy, whatever its percentages were at the time. */
  ghost predicate FromStrategy(p: Position) {
    exists tpPct, slPct :: Bracketed(p, tpPct, slPct)
  }

  lemma Scaled(entry: real, pct: real, move: real, q: real)
    requires q > 0.0 && move >= entry * pct
    ensures move * q >= pct * Notional(q, entry)
  {
    MulMono(entry * pct, move, q);
    assert entry * pct * q == pct * Notional(q, entry);
  }

  lemma ScaledLoss(entry: real, pct: real, move: real, q: real)
    requires q > 0.0 && move <= -(entry * pct)
    ensures move * q <= -(pct * Notional(q, entry))
  {
    Scaled(entry, pct, -move, q);
  }

  lemma PositiveShare(pct: real, q: real, entry: real)
    requires pct > 0.0 && q > 0.0 && entry > 0.0
    ensures pct * Notional(q, entry) > 0.0
  {
  }

  /** At a price where the exit manager says so, the close wins at least the take-profit fraction of
      the entry notional, or loses at least the stop-loss fraction, long or short. */
  lemma ReasonBoundsResult(p: Position, price: real, tpPct: real, slPct: real)
    requires Bracketed(p, tpPct, slPct)
    ensures var pnl := RealizedPnl(p.side, p.entryPrice, price, p.quantity);
            && (CheckExit(p, price) == Some(TakeProfit) ==>
                  tpPct > 0.0 && pnl >= tpPct * Notional(p.quantity, p.entryPrice) > 0.0)
            && (CheckExit(p, price) == Some(StopLoss) ==>
                  slPct > 0.0 && pnl <= -(slPct * Notional(p.quantity, p.entryPrice)) < 0.0)
  {
    var move := if p.side == Long then price - p.entryPrice else p.entryPrice - price;
    if CheckExit(p, price) == Some(TakeProfit) {
      Scaled(p.entryPrice, tpPct, move, p.quantity);
      PositiveShare(tpPct, p.quantity, p.entryPrice);
    } else if CheckExit(p, price) == Some(StopLoss) {
      ScaledLoss(p.entryPrice, slPct, move, p.quantity);
      PositiveShare(slPct, p.quantity, p.entryPrice);
    }
  }

  /** Live, the same holds of a position adopted from the exchange: its levels are the configured fractions away
      from the price the exchange reports, so ReasonBoundsResult applies to its close. */
  lemma AdoptedIsBracketed(e: Engine, symbol: Symbol, mark: Option<real>, x: ExchangePosition, at: Time)
    requires !e.cfg.paper && e.Held(symbol).None? && x.avgPrice > 0.0
    ensures var held := Sync(e, symbol, mark, Some(x), at).Held(symbol);
            held.Some? ==> Bracketed(held.value, e.cfg.tpRule, e.cfg.slRule) && held.value.entryPrice == x.avgPrice
                           && held.value.side == x.side && held.value.openedAt == at
  {
  }

  ghost predicate ReasonInv(e: Engine) {
    && Paper(e) && e.strategy.sizing.Some?
    && (forall s :: s in e.positions ==> FromStrategy(e.positions[s]))
    && (forall i :: 0 <= i < |e.log| && e.log[i].status.OpenRow? ==> FromStrategy(e.log[i].position))
  }

  lemma CandidateBracketed(e: Engine, input: TickInput, p: Position)
    requires e.strategy.sizing.Some? && SoftCandidate(e, input).Some?
    requires var i := SoftCandidate(e, input).value;
             && p.quantity == i.quantity && i.side == OpeningSide(p.side) && i.price == Some(p.entryPrice)
             && p.tp == i.tp && p.sl == i.sl
    ensures FromStrategy(p)
  {
    hide Calculate;
    var entry := OrElse(input.prediction.value.priceHint, input.price);
    PositiveEntry(e.strategy, input.balance, entry, p.sl);
    assert Bracketed(p, e.strategy.tpPct, e.strategy.slPct);
  }

  lemma PositiveEntry(s: Strategy, balance: real, entry: real, sl: Option<real>)
    requires s.sizing.Some? && s.Quantity(balance, entry, sl) > 0.0
    ensures entry > 0.0
  {
    hide ToQuantity, TargetNotional;
  }

  lemma TickKeepsReasons(e: Engine, input: TickInput)
    requires ReasonInv(e)
    ensures ReasonInv(ProcessTick(e, input))
  {
    hide ProcessTick, Informed, SoftCandidate, EntryVerdict, Due, FromStrategy, Close;
    var o := PaperTick(e, input);
    InformedOnlySignals(Ready(e, input), input);
    if o.Entered? {
      CandidateBracketed(Informed(Ready(e, input), input), input, o.p);
    }
  }

  lemma {:induction false} LatestInLog(log: seq<Row>, symbol: Symbol)
    ensures LatestRow(log, symbol).Some? ==> LatestRow(log, symbol).value in log
  {
    if log != [] {
      LatestInLog(log[..|log| - 1], symbol);
    }
  }

  lemma RestartKeepsReasons(e: Engine, s: Step)
    requires ReasonInv(e) && Allowed(e, s) && s.NewProcess? && s.strategy.sizing.Some?
    ensures ReasonInv(Apply(e, s))
  {
    hide FromStrategy;
    forall t | t in RecoverAll(e.log, s.symbols)
      ensures FromStrategy(RecoverAll(e.log, s.symbols)[t])
    {
      LatestInLog(e.log, t);
    }
  }

  /** Every process sizes its orders. */
  predicate Sizes(s: Step) {
    s.NewProcess? ==> s.strategy.sizing.Some?
  }

  lemma {:induction false} RunKeepsReasons(e: Engine, steps: seq<Step>)
    requires Fresh(e) && e.cfg.paper && e.strategy.sizing.Some? && AllowedRun(e, steps)
    requires forall i :: 0 <= i < |steps| ==> Sizes(steps[i])
    ensures ReasonInv(Run(e, steps))
  {
    hide ProcessTick;
    if steps != [] {
      var before := steps[..|steps| - 1];
      var s := steps[|steps| - 1];
      RunKeepsReasons(e, before);
      if s.Tick? {
        TickKeepsReasons(Run(e, before), s.input);
      } else if s.NewProcess? {
        RestartKeepsReasons(Run(e, before), s);
      }
    }
  }

  /** The row a tick closes with wins the take-profit fraction its position was entered with. */
  ghost predicate WinsTakeProfit(e: Engine, e': Engine) {
    |e'.log| > |e.log| && e'.log[|e.log|].status.ClosedRow? &&
    var row := e'.log[|e.log|];
    exists tpPct, slPct :: Bracketed(row.position, tpPct, slPct) && tpPct > 0.0
      && row.status.pnl >= tpPct * Notional(row.position.quantity, row.position.entryPrice) > 0.0
  }

  /** The row a tick closes with loses at least the stop-loss fraction. */
  ghost predicate LosesStopLoss(e: Engine, e': Engine) {
    |e'.log| > |e.log| && e'.log[|e.log|].status.ClosedRow? &&
    var row := e'.log[|e.log|];
    exists tpPct, slPct :: Bracketed(row.position, tpPct, slPct) && slPct > 0.0
      && row.status.pnl <= -(slPct * Notional(row.position.quantity, row.position.entryPrice)) < 0.0
  }

  lemma ReasonedTick(e: Engine, input: TickInput)
    requires Paper(e) && forall s :: s in e.positions ==> FromStrategy(e.positions[s])
    ensures ClosesBy(e, input, TakeProfit) ==> WinsTakeProfit(e, ProcessTick(e, input))
    ensures ClosesBy(e, input, StopLoss) ==> LosesStopLoss(e, ProcessTick(e, input))
  {
    hide ProcessTick, Approved, CheckExit, Bracketed, RealizedPnl, Notional, Written;
    var o := PaperTick(e, input);
    if o.Exited? {
      assert FromStrategy(o.p);
      var tpPct, slPct :| Bracketed(o.p, tpPct, slPct);
      ReasonBoundsResult(o.p, input.price, tpPct, slPct);
    }
  }

  /** In every paper run with sizing, a close recorded as take-profit wins at least the fraction set when the
      position was entered, and one recorded as stop-loss loses at least its fraction. */
  lemma ReasonDeterminesResult(e: Engine, steps: seq<Step>, input: TickInput)
    requires Fresh(e) && e.cfg.paper && e.strategy.sizing.Some? && AllowedRun(e, steps)
    requires forall i :: 0 <= i < |steps| ==> Sizes(steps[i])
    ensures var s := Run(e, steps);
            && (ClosesBy(s, input, TakeProfit) ==> WinsTakeProfit(s, ProcessTick(s, input)))
            && (ClosesBy(s, input, StopLoss) ==> LosesStopLoss(s, ProcessTick(s, input)))
  {
    hide ProcessTick, FromStrategy, ClosesBy, WinsTakeProfit, LosesStopLoss;
    RunKeepsReasons(e, steps);
    ReasonedTick(Run(e, steps), input);
  }

  /** So the daily rollup counts every take-profit close as won and every stop-loss close as lost, which are
      the results the loss breaker resets on and counts. */
  lemma ReasonAgreesWithRollup(e: Engine, steps: seq<Step>, input: TickInput, reason: ExitReason)
    requires Fresh(e) && e.cfg.paper && e.strategy.sizing.Some? && AllowedRun(e, steps)
    requires forall i :: 0 <= i < |steps| ==> Sizes(steps[i])
    requires reason in {TakeProfit, StopLoss} && ClosesBy(Run(e, steps), input, reason)
    ensures var s := Run(e, steps);
            var pnl := ProcessTick(s, input).log[|s.log|].status.pnl;
            Rollup.TripOf(pnl) == if reason == TakeProfit then Rollup.Win else Rollup.Loss
  {
    hide ProcessTick, Run, AllowedRun, Bracketed;
    ReasonDeterminesResult(e, steps, input);
  }
}
