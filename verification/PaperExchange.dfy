/** The simulated exchange (exchange/paper.py): market orders fill at once and move a net position. */
module PaperTrading {
  import opened Domain
  import opened Arithmetic
  import opened RiskChecking

  datatype PaperPosition = PaperPosition(quantity: real, avgPrice: real)

  type PaperBook = map<Symbol, PaperPosition>

  function PaperQuantity(book: PaperBook, symbol: Symbol): real {
    if symbol in book then book[symbol].quantity else 0.0
  }

  /** The average price once q more units at `price` join what is held. */
  function Blend(held: PaperPosition, q: real, price: real): real
    requires held.quantity + q != 0.0
  {
    (held.avgPrice * held.quantity + price * q) / (held.quantity + q)
  }

  /** The net position after a fill; a sell with nothing held is ignored. */
  function Fill(book: PaperBook, symbol: Symbol, side: OrderSide, quantity: real, price: real): PaperBook {
    var q := if side == BuySide then quantity else -quantity;
    if symbol !in book then
      if q > 0.0 then book[symbol := PaperPosition(q, price)] else book
    else
      var held := book[symbol];
      var q' := held.quantity + q;
      if q' == 0.0 then book - {symbol}
      else book[symbol := PaperPosition(q', Blend(held, q, price))]
  }

  class PaperExchange {
    var positions: PaperBook

    constructor ()
      ensures positions == map[]
    {
      positions := map[];
    }

    method PlaceMarketOrder(symbol: Symbol, side: OrderSide, quantity: real, price: real)
      modifies this
      ensures positions == Fill(old(positions), symbol, side, quantity, price)
    {
      var q := if side == BuySide then quantity else -quantity;
      if symbol !in positions {
        if q > 0.0 {
          positions := positions[symbol := PaperPosition(q, price)];
        }
      } else {
        var held := positions[symbol];
        var q' := held.quantity + q;
        if q' == 0.0 {
          positions := positions - {symbol};
        } else {
          positions := positions[symbol := PaperPosition(q', Blend(held, q, price))];
        }
      }
    }

    /** Every position once, in no particular order. */
    method GetAllPositions() returns (all: seq<(Symbol, real)>)
      ensures forall s :: HeldQuantity(all, s) == PaperQuantity(positions, s)
    {
      all := [];
      var todo := positions.Keys;
      while todo != {}
        invariant todo <= positions.Keys
        invariant forall s :: HeldQuantity(all, s) == if s in todo then 0.0 else PaperQuantity(positions, s)
        decreases |todo|
      {
        var s :| s in todo;
        all := [(s, positions[s].quantity)] + all;
        todo := todo - {s};
      }
    }
  }

  /** What a fill does, buys counted positive and sells negative: from nothing, a buy is held at its price and a sell is
      ignored; otherwise the net quantity moves by it, what is left costs what was held plus what was bought, and
      nothing left is forgotten. Other symbols stay. */
  lemma FillExactly(book: PaperBook, symbol: Symbol, side: OrderSide, quantity: real, price: real)
    ensures var signed, after := if side == BuySide then quantity else -quantity, Fill(book, symbol, side, quantity, price);
            && (forall s :: s != symbol ==> (s in after <==> s in book) && (s in book ==> after[s] == book[s]))
            && (if symbol !in book then
                  (symbol in after <==> signed > 0.0) && (symbol in after ==> after[symbol] == PaperPosition(signed, price))
                else
                  && (symbol in after <==> book[symbol].quantity + signed != 0.0)
                  && (symbol in after ==>
                        && after[symbol].quantity == book[symbol].quantity + signed
                        && after[symbol].quantity * after[symbol].avgPrice
                           == book[symbol].quantity * book[symbol].avgPrice + signed * price))
  {
    if symbol in book {
      var held, q := book[symbol], if side == BuySide then quantity else -quantity;
      if held.quantity + q != 0.0 {
        BlendTotal(held, q, price);
      }
    }
  }

  lemma BlendTotal(held: PaperPosition, q: real, price: real)
    requires held.quantity + q != 0.0
    ensures (held.quantity + q) * Blend(held, q, price) == held.quantity * held.avgPrice + q * price
  {
    var total, n := held.avgPrice * held.quantity + price * q, held.quantity + q;
    DivideBack(total, n);
  }
}
