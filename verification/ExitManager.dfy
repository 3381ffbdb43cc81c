/** Take-profit and stop-loss decisions, on a tick (strategy/exit_manager.py) and
    when the exchange is found flat (engine/core.py). */
module Exits {
  import opened Domain

  function CheckExit(p: Position, price: real): Option<ExitReason>
  {
    if p.quantity <= 0.0 then None
    else
      var tpHit := p.tp.Some? && (if p.side == Short then price <= p.tp.value else price >= p.tp.value);
      var slHit := p.sl.Some? && (if p.side == Short then price >= p.sl.value else price <= p.sl.value);
      if tpHit then Some(TakeProfit) else if slHit then Some(StopLoss) else None
  }

  /** The reason recorded when the exchange closed the position behind our back. */
  function InferCloseReason(p: Position, exitPrice: real): ExitReason
  {
    if p.tp.Some? && p.side == Long && exitPrice >= p.tp.value then TakeProfit
    else if p.tp.Some? && p.side != Long && exitPrice <= p.tp.value then TakeProfit
    else if p.sl.Some? && p.side == Long && exitPrice <= p.sl.value then StopLoss
    else if p.sl.Some? && p.side != Long && exitPrice >= p.sl.value then StopLoss
    else ExchangeSync
  }

  function TakeProfitPrice(entry: real, side: Side, pct: real): Option<real>
  {
    if pct > 0.0 then Some(if side == Long then entry * (1.0 + pct) else entry * (1.0 - pct)) else None
  }

  function StopLossPrice(entry: real, side: Side, pct: real): Option<real>
  {
    if pct > 0.0 then Some(if side == Long then entry * (1.0 - pct) else entry * (1.0 + pct)) else None
  }

  /** A price the given share above the entry, or below it when the share is negative. */
  function LevelAt(entry: real, share: real, set_: bool): Option<real> {
    if set_ then Some(entry + entry * share) else None
  }

  lemma LevelsAt(entry: real, side: Side, tpPct: real, slPct: real)
    ensures TakeProfitPrice(entry, side, tpPct) == LevelAt(entry, if side == Long then tpPct else -tpPct, tpPct > 0.0)
    ensures StopLossPrice(entry, side, slPct) == LevelAt(entry, if side == Long then -slPct else slPct, slPct > 0.0)
  {
    Share(entry, tpPct);
    Share(entry, slPct);
    if side == Long {
      assert LevelAt(entry, tpPct, tpPct > 0.0) == TakeProfitPrice(entry, Long, tpPct);
      assert LevelAt(entry, -slPct, slPct > 0.0) == StopLossPrice(entry, Long, slPct);
    } else {
      assert LevelAt(entry, -tpPct, tpPct > 0.0) == TakeProfitPrice(entry, Short, tpPct);
      assert LevelAt(entry, slPct, slPct > 0.0) == StopLossPrice(entry, Short, slPct);
    }
  }

  lemma Share(entry: real, pct: real)
    ensures entry * (1.0 + pct) == entry + entry * pct
    ensures entry * (1.0 - pct) == entry + entry * (-pct)
  {
  }
}
