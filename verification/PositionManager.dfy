/** The engine's own view of what it holds (position/manager.py). */
module PositionManagement {
  import opened Domain

  type Book = map<Symbol, Position>

  /** A stored position with no quantity left reads as closed. */
  function GetPosition(book: Book, symbol: Symbol): Option<Position>
  {
    if symbol in book && book[symbol].quantity > 0.0 then Some(book[symbol]) else None
  }

  function RealizedPnl(side: Side, entryPrice: real, exitPrice: real, quantity: real): real
  {
    if side == Long then (exitPrice - entryPrice) * quantity else (entryPrice - exitPrice) * quantity
  }

  function Close(p: Position, exitPrice: real, reason: ExitReason): ClosedPosition
  {
    ClosedPosition(p, exitPrice, reason, RealizedPnl(p.side, p.entryPrice, exitPrice, p.quantity))
  }

  class PositionManager {
    var positions: Book
    var runId: RunId

    constructor (runId: RunId)
      ensures positions == map[] && this.runId == runId
    {
      positions := map[];
      this.runId := runId;
    }

    /** Opens a position under the run in force, replacing whatever was held on the symbol. */
    method OpenPosition(symbol: Symbol, side: Side, quantity: real, entryPrice: real,
                        openedAt: Option<Time>, tp: Option<real>, sl: Option<real>, now: Time)
      returns (p: Position)
      modifies this`positions
      ensures p == Position(symbol, side, quantity, entryPrice, tp, sl, if openedAt.Some? then openedAt.value else now, runId)
      ensures positions == old(positions)[symbol := p]
    {
      p := Position(symbol, side, quantity, entryPrice, tp, sl, if openedAt.Some? then openedAt.value else now, runId);
      positions := positions[symbol := p];
    }

    method ClosePosition(symbol: Symbol, exitPrice: real, reason: ExitReason) returns (closed: Option<ClosedPosition>)
      modifies this`positions
      ensures GetPosition(old(positions), symbol).None? ==> closed == None && positions == old(positions)
      ensures GetPosition(old(positions), symbol).Some? ==>
                && closed == Some(Close(old(positions)[symbol], exitPrice, reason))
                && positions == old(positions) - {symbol}
    {
      if symbol !in positions || positions[symbol].quantity <= 0.0 {
        return None;
      }
      var p := positions[symbol];
      closed := Some(Close(p, exitPrice, reason));
      positions := positions - {symbol};
    }
  }
}
