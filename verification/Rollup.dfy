/** Closed trades and the daily performance rollup: what performance/metrics.py makes of a closed
    position, and how the repositories fold it into one row a day. */
module Rollup {
  import opened Domain
  import opened PositionManagement
  import opened RiskChecking

  // ---------------------------------------------------------------- from a closed position to a trade

  datatype Trip = Win | Loss | Breakeven

  function TripOf(pnl: real): Trip {
    if pnl > 0.0 then Win else if pnl < 0.0 then Loss else Breakeven
  }

  function PriceMove(side: Side, entry: real, exit: real): real {
    if side == Long then exit - entry else entry - exit
  }

  const SAME_PRICE: real := 0.000000000001

  /** The quantity a result implies when the closed row does not carry one. */
  function DeriveQuantity(side: Side, entry: real, exit: real, pnl: real): real {
    if entry <= 0.0 || exit <= 0.0 then 0.0
    else
      var move := PriceMove(side, entry, exit);
      if AbsReal(move) < SAME_PRICE then 0.0 else AbsReal(pnl / move)
  }

  function PnlPct(side: Side, entry: real, exit: real): real {
    if entry <= 0.0 then 0.0 else PriceMove(side, entry, exit) / entry * 100.0
  }

  datatype DayKey = DayKey(user: string, run: string, day: int)

  datatype TradeResult = TradeResult(id: string, key: DayKey, symbol: Symbol, side: Side, quantity: real, entry: real,
                                     exit: real, notional: real, pnl: real, pct: real, win: bool, holdSeconds: int)

  /** What a closed position is recorded as; None when it has no usable price or quantity, or is dust. */
  function BuildTradeResult(c: ClosedPosition, filled: real, id: string, user: string, run: string, closedAt: Time,
                            minNotional: real): Option<TradeResult> {
    var p := c.held;
    if p.entryPrice <= 0.0 || c.exitPrice <= 0.0 then None
    else
      var quantity := if filled > 0.0 then filled else DeriveQuantity(p.side, p.entryPrice, c.exitPrice, c.pnl);
      if quantity <= 0.0 then None
      else if minNotional > 0.0 && p.entryPrice * quantity < minNotional then None
      else
        Some(TradeResult(id, DayKey(if user == "" then "default" else user, run, KstDay(closedAt)), p.symbol, p.side, quantity,
                         p.entryPrice, c.exitPrice, p.entryPrice * quantity, c.pnl,
                         PnlPct(p.side, p.entryPrice, c.exitPrice), TripOf(c.pnl).Win?,
                         Max(0, (closedAt - p.openedAt) / SECOND)))
  }

  lemma ProductQuotient(pnl: real, move: real, q: real)
    requires move != 0.0 && pnl == move * q
    ensures pnl / move == q
  {
  }

  lemma PnlIsMove(side: Side, entry: real, exit: real, q: real)
    ensures RealizedPnl(side, entry, exit, q) == PriceMove(side, entry, exit) * q
  {
  }

  /** Deriving undoes closing: from the result alone the held quantity comes back, unless the price did not move. */
  lemma QuantityRoundTrip(p: Position, exit: real, reason: ExitReason)
    requires p.quantity > 0.0 && p.entryPrice > 0.0 && exit > 0.0 && AbsReal(exit - p.entryPrice) >= SAME_PRICE
    ensures DeriveQuantity(p.side, p.entryPrice, exit, Close(p, exit, reason).pnl) == p.quantity
  {
    hide RealizedPnl;
    var move := PriceMove(p.side, p.entryPrice, exit);
    PnlIsMove(p.side, p.entryPrice, exit, p.quantity);
    ProductQuotient(Close(p, exit, reason).pnl, move, p.quantity);
  }

  lemma PctOfNotional(move: real, entry: real, q: real, pct: real)
    requires entry > 0.0 && pct == move / entry * 100.0
    ensures pct / 100.0 * (entry * q) == move * q
  {
    var ratio := move / entry;
    assert ratio * entry == move;
    assert pct / 100.0 == ratio;
    assert ratio * (entry * q) == ratio * entry * q;
  }

  /** A recorded trade is consistent: its percentage of its notional is its result, whether or not the closed row
      carried the quantity, and its win flag is what the loss breaker resets on. */
  lemma RecordedTradeConsistent(p: Position, exit: real, reason: ExitReason, carried: bool, id: string, user: string,
                                run: string, closedAt: Time, minNotional: real, r: Risk)
    requires p.quantity > 0.0 && (carried || AbsReal(exit - p.entryPrice) >= SAME_PRICE)
    requires BuildTradeResult(Close(p, exit, reason), if carried then p.quantity else 0.0, id, user, run, closedAt,
                              minNotional).Some?
    ensures var t := BuildTradeResult(Close(p, exit, reason), if carried then p.quantity else 0.0, id, user, run, closedAt,
                                      minNotional).value;
            && t.quantity == p.quantity && t.pct / 100.0 * t.notional == t.pnl
            && (minNotional > 0.0 ==> t.notional >= minNotional)
            && (t.win <==> TripOf(t.pnl) == Win)
            && r.RecordResult(t.pnl, closedAt).losses ==
               match TripOf(t.pnl) { case Win => 0 case Loss => r.losses + 1 case Breakeven => r.losses }
  {
    if !carried {
      QuantityRoundTrip(p, exit, reason);
    }
    PctOfNotional(PriceMove(p.side, p.entryPrice, exit), p.entryPrice, p.quantity, PnlPct(p.side, p.entryPrice, exit));
  }

  /** A close is recorded exactly when its prices are positive and its quantity, carried or derived, is positive and not
      dust; then under its Korean day, with the whole seconds it was held. */
  lemma RecordedExactly(c: ClosedPosition, filled: real, id: string, user: string, run: string, closedAt: Time,
                        minNotional: real)
    ensures var t, p := BuildTradeResult(c, filled, id, user, run, closedAt, minNotional), c.held;
            var quantity := if filled > 0.0 then filled else DeriveQuantity(p.side, p.entryPrice, c.exitPrice, c.pnl);
            && (t.Some? <==> p.entryPrice > 0.0 && c.exitPrice > 0.0 && quantity > 0.0
                             && (minNotional <= 0.0 || quantity * p.entryPrice >= minNotional))
            && (t.Some? ==>
                  && t.value.id == id && t.value.symbol == p.symbol && t.value.side == p.side && t.value.pnl == c.pnl
                  && t.value.entry == p.entryPrice && t.value.exit == c.exitPrice && t.value.quantity == quantity
                  && t.value.key.run == run && t.value.key.day == KstDay(closedAt) && (user != "" ==> t.value.key.user == user)
                  && (closedAt >= p.openedAt ==>
                        t.value.holdSeconds * 1_000_000 <= closedAt - p.openedAt < (t.value.holdSeconds + 1) * 1_000_000))
  {
    hide DeriveQuantity, PnlPct;
  }

  // ---------------------------------------------------------------- the daily row

  datatype Daily = Daily(
    count: nat,
    wins: nat,
    losses: nat,
    breakevens: nat,
    sum: real,
    profit: real,
    loss: real,
    avgPct: real,
    opening: Option<real>,
    closing: Option<real>)

  datatype Tables = Tables(trades: seq<TradeResult>, daily: map<DayKey, Daily>)

  function One(yes: bool): nat {
    if yes then 1 else 0
  }

  function Closing(opening: Option<real>, sum: real): Option<real> {
    if opening.Some? then Some(opening.value + sum) else None
  }

  function RunningMean(mean: real, n: nat, x: real): real {
    (mean * n as real + x) / (n + 1) as real
  }

  function Inserted(t: TradeResult): Daily {
    var trip := TripOf(t.pnl);
    Daily(1, One(trip.Win?), One(trip.Loss?), One(trip.Breakeven?), t.pnl, if trip.Win? then t.pnl else 0.0,
          if trip.Loss? then AbsReal(t.pnl) else 0.0, t.pct, None, None)
  }

  function Upserted(d: Daily, t: TradeResult): Daily {
    var trip := TripOf(t.pnl);
    var sum := d.sum + t.pnl;
    Daily(d.count + 1, d.wins + One(trip.Win?), d.losses + One(trip.Loss?), d.breakevens + One(trip.Breakeven?), sum,
          d.profit + (if trip.Win? then t.pnl else 0.0), d.loss + (if trip.Loss? then AbsReal(t.pnl) else 0.0),
          RunningMean(d.avgPct, d.count, t.pct), d.opening,
          if d.opening.Some? then Closing(d.opening, sum) else d.closing)
  }

  predicate Recorded(trades: seq<TradeResult>, id: string) {
    exists i :: 0 <= i < |trades| && trades[i].id == id
  }

  function RecordClosed(s: Tables, t: TradeResult): Tables {
    if Recorded(s.trades, t.id) then s
    else Tables(s.trades + [t], s.daily[t.key := if t.key in s.daily then Upserted(s.daily[t.key], t) else Inserted(t)])
  }

  function SetOpening(s: Tables, key: DayKey, equity: real): Tables {
    if key !in s.daily then
      s.(daily := s.daily[key := Daily(0, 0, 0, 0, 0.0, 0.0, 0.0, 0.0, Some(equity), Some(equity))])
    else if s.daily[key].opening.None? then
      s.(daily := s.daily[key := s.daily[key].(opening := Some(equity), closing := Some(equity + s.daily[key].sum))])
    else s
  }

  class PerformanceRepository {
    var trades: seq<TradeResult>
    var daily: map<DayKey, Daily>

    function View(): Tables reads this {
      Tables(trades, daily)
    }

    constructor ()
      ensures View() == Tables([], map[])
    {
      trades, daily := [], map[];
    }

    method Exists(id: string) returns (found: bool)
      ensures found == Recorded(trades, id)
    {
      var i := 0;
      while i < |trades|
        invariant 0 <= i <= |trades|
        invariant forall j :: 0 <= j < i ==> trades[j].id != id
      {
        if trades[i].id == id {
          return true;
        }
        i := i + 1;
      }
      found := false;
    }

    method RecordClosedTrade(t: TradeResult) returns (recorded: bool)
      modifies this
      ensures recorded == !Recorded(old(trades), t.id)
      ensures View() == RecordClosed(old(View()), t)
    {
      hide RunningMean;
      var seen := Exists(t.id);
      if seen {
        return false;
      }
      trades := trades + [t];
      if t.key !in daily {
        daily := daily[t.key := Inserted(t)];
      } else {
        var trip := TripOf(t.pnl);
        var d := daily[t.key];
        var row := d.(count := d.count + 1, wins := d.wins + One(trip.Win?), losses := d.losses + One(trip.Loss?),
                      breakevens := d.breakevens + One(trip.Breakeven?), sum := d.sum + t.pnl,
                      profit := d.profit + (if trip.Win? then t.pnl else 0.0),
                      loss := d.loss + (if trip.Loss? then AbsReal(t.pnl) else 0.0),
                      avgPct := RunningMean(d.avgPct, d.count, t.pct));
        daily := daily[t.key := row];
      }
      var opening := daily[t.key].opening;
      if opening.Some? {
        daily := daily[t.key := daily[t.key].(closing := Some(opening.value + daily[t.key].sum))];
      }
      recorded := true;
    }

    method SetOpeningEquityIfMissing(key: DayKey, equity: real)
      modifies this
      ensures View() == SetOpening(old(View()), key, equity)
    {
      if key in daily {
        if daily[key].opening.None? {
          daily := daily[key := daily[key].(opening := Some(equity), closing := Some(equity + daily[key].sum))];
        }
      } else {
        daily := daily[key := Daily(0, 0, 0, 0, 0.0, 0.0, 0.0, 0.0, Some(equity), Some(equity))];
      }
    }
  }

  // ---------------------------------------------------------------- the batch it must equal

  datatype Event = Closed(trade: TradeResult) | Opened(key: DayKey, equity: real)

  function After(events: seq<Event>): Tables {
    if events == [] then Tables([], map[])
    else
      var before := After(events[..|events| - 1]);
      match events[|events| - 1]
      case Closed(t) => RecordClosed(before, t)
      case Opened(key, equity) => SetOpening(before, key, equity)
  }

  /** The trades that count: each id the first time it is seen, on whatever day. */
  function Kept(events: seq<Event>): seq<TradeResult> {
    if events == [] then []
    else
      var before := Kept(events[..|events| - 1]);
      var e := events[|events| - 1];
      if e.Closed? && !Recorded(before, e.trade.id) then before + [e.trade] else before
  }

  function OnDay(trades: seq<TradeResult>, key: DayKey): seq<TradeResult> {
    if trades == [] then []
    else
      var t := trades[|trades| - 1];
      OnDay(trades[..|trades| - 1], key) + if t.key == key then [t] else []
  }

  function FirstOpening(events: seq<Event>, key: DayKey): Option<real> {
    if events == [] then None
    else
      var earlier := FirstOpening(events[..|events| - 1], key);
      var e := events[|events| - 1];
      if earlier.None? && e.Opened? && e.key == key then Some(e.equity) else earlier
  }

  function CountTrips(trades: seq<TradeResult>, trip: Trip): nat {
    if trades == [] then 0
    else CountTrips(trades[..|trades| - 1], trip) + One(TripOf(trades[|trades| - 1].pnl) == trip)
  }

  function SumPnl(trades: seq<TradeResult>): real {
    if trades == [] then 0.0 else SumPnl(trades[..|trades| - 1]) + trades[|trades| - 1].pnl
  }

  /** The size of the results that went one way. */
  function SumSize(trades: seq<TradeResult>, trip: Trip): real {
    if trades == [] then 0.0
    else
      SumSize(trades[..|trades| - 1], trip)
      + if TripOf(trades[|trades| - 1].pnl) == trip then AbsReal(trades[|trades| - 1].pnl) else 0.0
  }

  function SumPct(trades: seq<TradeResult>): real {
    if trades == [] then 0.0 else SumPct(trades[..|trades| - 1]) + trades[|trades| - 1].pct
  }

  function MeanPct(trades: seq<TradeResult>): real {
    if trades == [] then 0.0 else SumPct(trades) / |trades| as real
  }

  /** A day computed from scratch. */
  function Batch(trades: seq<TradeResult>, opening: Option<real>): Option<Daily> {
    if trades == [] && opening.None? then None
    else Some(Daily(|trades|, CountTrips(trades, Win), CountTrips(trades, Loss), CountTrips(trades, Breakeven), SumPnl(trades),
                    SumSize(trades, Win), SumSize(trades, Loss), MeanPct(trades), opening, Closing(opening, SumPnl(trades))))
  }

  function RowOf(s: Tables, key: DayKey): Option<Daily> {
    if key in s.daily then Some(s.daily[key]) else None
  }

  lemma MeanExtends(sum: real, n: nat, pct: real)
    requires n > 0
    ensures sum / n as real * n as real == sum
  {
  }

  lemma MeanStep(trades: seq<TradeResult>, t: TradeResult)
    ensures RunningMean(MeanPct(trades), |trades|, t.pct) == MeanPct(trades + [t])
  {
    assert (trades + [t])[..|trades|] == trades;
    if trades != [] {
      MeanExtends(SumPct(trades), |trades|, t.pct);
    }
  }

  /** One more trade on the day. */
  lemma BatchExtends(trades: seq<TradeResult>, opening: Option<real>, t: TradeResult)
    ensures Batch(trades + [t], opening) ==
            Some(if Batch(trades, opening).Some? then Upserted(Batch(trades, opening).value, t) else Inserted(t))
  {
    hide MeanPct, RunningMean;
    assert (trades + [t])[..|trades|] == trades;
    MeanStep(trades, t);
    if Batch(trades, opening).None? {
      assert trades + [t] == [t];
      SingleMean(t);
    }
  }

  lemma SingleMean(t: TradeResult)
    ensures MeanPct([t]) == t.pct
  {
    assert [t][..|[t]| - 1] == [];
    assert SumPct([t]) == SumPct([]) + t.pct;
  }

  lemma ClosedStep(s: Tables, key: DayKey, opening: Option<real>, t: TradeResult)
    requires RowOf(s, key) == Batch(OnDay(s.trades, key), opening)
    ensures var s' := RecordClosed(s, t);
            && s'.trades == (if Recorded(s.trades, t.id) then s.trades else s.trades + [t])
            && RowOf(s', key) == Batch(OnDay(s'.trades, key), opening)
  {
    hide Batch, Upserted, Inserted, Recorded;
    assert (s.trades + [t])[..|s.trades|] == s.trades;
    if t.key == key {
      BatchExtends(OnDay(s.trades, key), opening, t);
    } else {
      assert OnDay(s.trades, key) + [] == OnDay(s.trades, key);
    }
  }

  lemma OpenedStep(s: Tables, key: DayKey, opening: Option<real>, k: DayKey, equity: real)
    requires RowOf(s, key) == Batch(OnDay(s.trades, key), opening)
    ensures var s' := SetOpening(s, k, equity);
            && s'.trades == s.trades
            && RowOf(s', key) == Batch(OnDay(s'.trades, key), if opening.None? && k == key then Some(equity) else opening)
  {
    hide Batch, OnDay;
    BatchOpens(OnDay(s.trades, key), equity);
    BatchOpening(OnDay(s.trades, key), opening);
  }

  /** For every history of closes and opening settings, with repeated trade ids ignored wherever they reappear, each
      day's row is the batch over that day's trades and its first opening equity, and there is no other row. */
  lemma {:induction false} IncrementalEqualsBatch(events: seq<Event>, key: DayKey)
    ensures After(events).trades == Kept(events)
    ensures RowOf(After(events), key) == Batch(OnDay(Kept(events), key), FirstOpening(events, key))
  {
    hide Batch, RecordClosed, SetOpening, Recorded, OnDay, RowOf;
    if events == [] {
      NothingToAdd(key);
    } else {
      var before := events[..|events| - 1];
      IncrementalEqualsBatch(before, key);
      match events[|events| - 1]
      case Closed(t) => ClosedStep(After(before), key, FirstOpening(before, key), t);
      case Opened(k, equity) => OpenedStep(After(before), key, FirstOpening(before, key), k, equity);
    }
  }

  lemma NothingToAdd(key: DayKey)
    ensures Batch(OnDay([], key), None) == None && RowOf(After([]), key) == None
  {
  }

  lemma BatchOpening(trades: seq<TradeResult>, opening: Option<real>)
    ensures Batch(trades, opening).Some? ==> Batch(trades, opening).value.opening == opening
    ensures Batch(trades, opening).None? <==> trades == [] && opening.None?
  {
  }

  /** Setting the opening equity late or early makes the same row. */
  lemma BatchOpens(trades: seq<TradeResult>, equity: real)
    ensures var without, with_ := Batch(trades, None), Batch(trades, Some(equity));
            with_ == Some(if without.Some? then without.value.(opening := Some(equity), closing := Some(equity + without.value.sum))
                          else Daily(0, 0, 0, 0, 0.0, 0.0, 0.0, 0.0, Some(equity), Some(equity)))
  {
  }

  lemma {:induction false} TripsPartition(trades: seq<TradeResult>)
    ensures |trades| == CountTrips(trades, Win) + CountTrips(trades, Loss) + CountTrips(trades, Breakeven)
    ensures SumPnl(trades) == SumSize(trades, Win) - SumSize(trades, Loss)
  {
    if trades != [] {
      TripsPartition(trades[..|trades| - 1]);
    }
  }

  /** So in every row the counts partition, the sum is gross profit minus gross loss, and whenever the opening is
      known the closing is the opening plus the sum. */
  lemma RowsBalance(events: seq<Event>, key: DayKey)
    requires key in After(events).daily
    ensures var d := After(events).daily[key];
            && d.count == d.wins + d.losses + d.breakevens
            && d.sum == d.profit - d.loss
            && d.closing == (if d.opening.Some? then Some(d.opening.value + d.sum) else None)
            && (d.count > 0 || d.opening.Some?)
  {
    IncrementalEqualsBatch(events, key);
    TripsPartition(OnDay(Kept(events), key));
  }
}
