/** The values every engine component exchanges (domain/models.py).
    Prices, quantities and PnL are reals; instants are integer microseconds. */
module Domain {
  type Symbol = string

  /** The session every order, trade and position is labelled with; a configuration patch may switch it. */
  type RunId = string

  type Time = int

  const SECOND: Time := 1_000_000
  const HOUR: Time := 3600 * SECOND
  const DAY: Time := 24 * HOUR
  const KST_OFFSET: Time := 9 * HOUR

  /** The calendar day in Korea of an instant. */
  function KstDay(at: Time): int {
    (at + KST_OFFSET) / DAY
  }

  /** Midnight in Korea of the day an instant falls on. */
  function KstTodayStart(now: Time): Time {
    now - (now + KST_OFFSET) % DAY
  }

  /** From that midnight on, and only from then, an instant falls on the same day or a later one; midnight itself does. */
  lemma TodayStartsAtMidnight(at: Time, now: Time)
    ensures at >= KstTodayStart(now) <==> KstDay(at) >= KstDay(now)
    ensures KstDay(KstTodayStart(now)) == KstDay(now) && KstTodayStart(now) <= now
  {
  }

  datatype Option<+T> = None | Some(value: T)

  datatype Action = Buy | Sell | Hold

  datatype OrderSide = BuySide | SellSide

  datatype OrderStatus = Pending | Submitted | Filled | PartiallyFilled | Cancelled | Rejected

  datatype Side = Long | Short

  datatype ExitReason = TakeProfit | StopLoss | ModelSell | ModelBuy | ExchangeSync

  datatype Position = Position(
    symbol: Symbol,
    side: Side,
    quantity: real,
    entryPrice: real,
    tp: Option<real>,
    sl: Option<real>,
    openedAt: Time,
    runId: RunId)

  /** What closing a position yields: the position as held, and how it ended. */
  datatype ClosedPosition = ClosedPosition(held: Position, exitPrice: real, reason: ExitReason, pnl: real)

  datatype Order = Order(
    symbol: Symbol,
    side: OrderSide,
    quantity: real,
    price: Option<real>,
    status: OrderStatus,
    reduceOnly: bool,
    createdAt: Time,
    runId: RunId)

  datatype Trade = Trade(symbol: Symbol, side: OrderSide, quantity: real, price: real, commission: real, runId: RunId,
                         executedAt: Time)

  datatype Intent = Intent(
    symbol: Symbol,
    side: OrderSide,
    quantity: real,
    price: Option<real>,
    tp: Option<real>,
    sl: Option<real>)

  datatype Prediction = Prediction(action: Action, priceHint: Option<real>, awaitingCandle: bool)

  /** A position as the exchange reports it; a missing average price reads 0. */
  datatype ExchangePosition = ExchangePosition(side: Side, quantity: real, avgPrice: real)

  /** Python's `a or b` on an optional number: both None and zero fall through. */
  function OrElse(a: Option<real>, b: real): (r: real)
  {
    if a.Some? && a.value != 0.0 then a.value else b
  }

  function Max(a: int, b: int): int {
    if a >= b then a else b
  }

  function Min(a: int, b: int): int {
    if a <= b then a else b
  }

  function MaxReal(a: real, b: real): real {
    if a >= b then a else b
  }

  function MinReal(a: real, b: real): real {
    if a <= b then a else b
  }

  function AbsReal(a: real): real {
    if a >= 0.0 then a else -a
  }

  /** The last n elements, or all of them when there are fewer. */
  function LastN<T>(s: seq<T>, n: nat): (r: seq<T>)
    ensures |r| <= n && |r| <= |s|
  {
    if |s| <= n then s else s[|s| - n..]
  }

  /** Dropping from the front before appending loses nothing the end would keep. */
  lemma LastNPush<T>(s: seq<T>, x: T, n: nat)
    ensures LastN(LastN(s, n) + [x], n) == LastN(s + [x], n)
  {
  }

  function ClosingSide(side: Side): OrderSide {
    if side == Long then SellSide else BuySide
  }

  function OpeningSide(side: Side): OrderSide {
    if side == Long then BuySide else SellSide
  }
}
