/** One synchronisation with a live exchange is enough (engine/core.py, _sync_position_with_exchange). */
module PositionSync {
  import opened Domain
  import opened Arithmetic
  import opened PositionManagement
  import opened Exits
  import opened RiskChecking
  import opened Stores
  import opened EngineModel
  import opened TickDecisions

  /** The exchange's position is real: a positive quantity worth at least the minimum order (5 when none is configured) at
      its average price, or at the mark when the exchange reports none. */
  predicate ReallyHeld(cfg: EngineConfig, seen: Option<ExchangePosition>, mark: Option<real>) {
    && seen.Some? && seen.value.quantity > 0.0
    && var price := if seen.value.avgPrice != 0.0 then seen.value.avgPrice else if mark.Some? then mark.value else 0.0;
       seen.value.quantity * price >= if cfg.minOrderNotional > 0.0 then cfg.minOrderNotional else 5.0
  }

  lemma WorthSomething(quantity: real, price: real)
    requires quantity > 0.0 && quantity * price > 0.0
    ensures price > 0.0
  {
    if price <= 0.0 {
      MulMonoLeft(price, 0.0, quantity);
    }
  }

  lemma RealMeans(cfg: EngineConfig, seen: Option<ExchangePosition>, mark: Option<real>)
    ensures RealQuantity(cfg, seen, mark) > 0.0 <==> ReallyHeld(cfg, seen, mark)
    ensures ReallyHeld(cfg, seen, mark) ==> RealQuantity(cfg, seen, mark) == seen.value.quantity
  {
    if ReallyHeld(cfg, seen, mark) {
      var price := OrElse(Some(seen.value.avgPrice), OrElse(mark, 0.0));
      WorthSomething(seen.value.quantity, price);
    }
  }

  /** Same side, and quantities a millionth apart at most, in units or as a share of the exchange's. */
  predicate Matches(p: Position, x: ExchangePosition) {
    && p.side == x.side
    && var gap := if p.quantity >= x.quantity then p.quantity - x.quantity else x.quantity - p.quantity;
       gap <= 0.000001 || gap <= x.quantity * 0.000001
  }

  lemma MatchMeans(p: Position, x: ExchangePosition)
    ensures Matches(p, x) <==> p.side == x.side && WithinTolerance(p.quantity, x.quantity)
  {
  }

  /** Taken over from the exchange: with nothing held before, at the configured distances; otherwise with the levels and
      the opening time of what it replaces, and its entry price if the exchange reports none. */
  function TakenOver(e: Engine, symbol: Symbol, x: ExchangePosition, at: Time): Position {
    var before := e.Held(symbol);
    if before.Some? then
      var p := before.value;
      Position(symbol, x.side, x.quantity, if x.avgPrice != 0.0 then x.avgPrice else p.entryPrice, p.tp, p.sl, p.openedAt,
               e.runId)
    else
      Position(symbol, x.side, x.quantity, x.avgPrice,
               LevelAt(x.avgPrice, if x.side == Long then e.cfg.tpRule else -e.cfg.tpRule, e.cfg.tpRule > 0.0),
               LevelAt(x.avgPrice, if x.side == Long then -e.cfg.slRule else e.cfg.slRule, e.cfg.slRule > 0.0), at, e.runId)
  }

  function ReasonAt(p: Position, price: real): ExitReason {
    if TakesProfit(p, price) then TakeProfit else if StopsOut(p, price) then StopLoss else ExchangeSync
  }

  /** What one synchronisation makes of book and log, case by case, on what the exchange reports and the mark alone. */
  lemma SyncOutcome(e: Engine, symbol: Symbol, mark: Option<real>, seen: Option<ExchangePosition>, at: Time)
    requires !e.cfg.paper
    ensures var after, before := Sync(e, symbol, mark, seen, at), e.Held(symbol);
            if ReallyHeld(e.cfg, seen, mark) then
              if before.Some? && Matches(before.value, seen.value) then after == e
              else
                var p := TakenOver(e, symbol, seen.value, at);
                after.positions == e.positions[symbol := p] && after.log == e.log + [Row(p, OpenRow, at)]
            else if before.None? then after == e
            else
              var p := before.value;
              var price := if mark.Some? && mark.value != 0.0 then mark.value else p.entryPrice;
              after.positions == e.positions - {symbol}
              && after.log == e.log + [Row(p, ClosedRow(Won(p, price), ReasonAt(p, price), price), at)]
  {
    hide RealQuantity, WithinTolerance, ReallyHeld, Matches, RealizedPnl, Won, InferCloseReason, CheckExit, Risk.RecordResult,
         TakeProfitPrice, StopLossPrice, LevelAt, TakesProfit, StopsOut;
    RealMeans(e.cfg, seen, mark);
    var before := e.Held(symbol);
    if before.Some? {
      var p := before.value;
      var price := OrElse(mark, p.entryPrice);
      WonIsPnl(p, price);
      InferredReasonMatches(p, price);
      LevelsDecide(p, price);
    }
    if ReallyHeld(e.cfg, seen, mark) {
      RealSeen(e.cfg, seen, mark);
      LevelsAt(seen.value.avgPrice, seen.value.side, e.cfg.tpRule, e.cfg.slRule);
      if before.Some? {
        MatchMeans(before.value, seen.value);
      }
    }
  }

  lemma RealSeen(cfg: EngineConfig, seen: Option<ExchangePosition>, mark: Option<real>)
    requires ReallyHeld(cfg, seen, mark)
    ensures seen.Some? && seen.value.quantity > 0.0
  {
  }

  /** Afterwards a position is held exactly when the exchange's is real, on the same side and with the same quantity up to
      a millionth; other symbols are untouched. */
  lemma SyncConverges(e: Engine, symbol: Symbol, mark: Option<real>, seen: Option<ExchangePosition>, at: Time)
    requires !e.cfg.paper
    ensures var held := Sync(e, symbol, mark, seen, at).Held(symbol);
            && (held.Some? <==> ReallyHeld(e.cfg, seen, mark))
            && (held.Some? ==> Matches(held.value, seen.value))
    ensures forall s :: s != symbol ==> Sync(e, symbol, mark, seen, at).Held(s) == e.Held(s)
  {
    hide Sync, ReallyHeld, Won, ReasonAt, LevelAt;
    SyncOutcome(e, symbol, mark, seen, at);
    if ReallyHeld(e.cfg, seen, mark) {
      RealSeen(e.cfg, seen, mark);
    }
  }

  /** Synchronising again with the same exchange position does nothing at all, unless the second
      mark price makes the same quantity cross the dust line. */
  lemma SyncAgain(e: Engine, symbol: Symbol, mark: Option<real>, mark2: Option<real>,
                  seen: Option<ExchangePosition>, at: Time, at2: Time)
    requires !e.cfg.paper
    ensures var once := Sync(e, symbol, mark, seen, at);
            Sync(once, symbol, mark2, seen, at2) == once <==>
            (ReallyHeld(e.cfg, seen, mark2) <==> ReallyHeld(e.cfg, seen, mark))
  {
    hide Sync, ReallyHeld, Matches, Won, ReasonAt;
    var once := Sync(e, symbol, mark, seen, at);
    SyncConverges(e, symbol, mark, seen, at);
    SyncKeepsConfig(e, symbol, mark, seen, at);
    SyncConverges(once, symbol, mark2, seen, at2);
    SyncOutcome(once, symbol, mark2, seen, at2);
  }

  lemma SyncKeepsConfig(e: Engine, symbol: Symbol, mark: Option<real>, seen: Option<ExchangePosition>, at: Time)
    ensures Sync(e, symbol, mark, seen, at).cfg == e.cfg
  {
    hide RealQuantity, WithinTolerance, Close, InferCloseReason, Risk.RecordResult, TakeProfitPrice, StopLossPrice;
  }

  /** When the exchange reports an average price the mark plays no part in the dust decision. */
  lemma MarkIrrelevant(cfg: EngineConfig, seen: Option<ExchangePosition>, mark: Option<real>, mark2: Option<real>)
    requires seen.None? || seen.value.avgPrice != 0.0 || mark == mark2
    ensures ReallyHeld(cfg, seen, mark) <==> ReallyHeld(cfg, seen, mark2)
  {
  }

  /** Without one, two marks can disagree: 1 unit marked at 10 is a position, marked at 1 it is dust. */
  lemma MarkMatters(e: Engine)
    requires !e.cfg.paper && e.cfg.minOrderNotional == 5.0
    ensures var seen := Some(ExchangePosition(Long, 1.0, 0.0));
            ReallyHeld(e.cfg, seen, Some(10.0)) && !ReallyHeld(e.cfg, seen, Some(1.0))
  {
  }

  /** The reason inferred at synchronisation is the one the tick would have chosen at that price. */
  lemma InferredReasonMatches(p: Position, price: real)
    requires p.quantity > 0.0
    ensures InferCloseReason(p, price) ==
            if CheckExit(p, price).Some? then CheckExit(p, price).value else ExchangeSync
  {
  }
}
