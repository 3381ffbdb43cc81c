/** What the engine persists: orders, trades and the append-only position_snapshot log
    (storage/postgres.py, storage/postgres_db.py, infra/persistence/repositories/postgres.py). */
module Stores {
  import opened Domain
  import opened PositionManagement

  datatype RowStatus = OpenRow | ClosedRow(pnl: real, reason: ExitReason, exitPrice: real)

  /** One position_snapshot row: for a closed row `position` is what had been held. */
  datatype Row = Row(position: Position, status: RowStatus, snapshotAt: Time)

  function OpenedRow(p: Position, at: Time): Row {
    Row(p, OpenRow, at)
  }

  function ClosedRowOf(c: ClosedPosition, at: Time): Row {
    Row(c.held, ClosedRow(c.pnl, c.reason, c.exitPrice), at)
  }

  // ---------------------------------------------------------------- orders

  /** Every order on the symbol, whatever run placed it. */
  function OrdersOn(orders: seq<Order>, symbol: Symbol): seq<Order> {
    if orders == [] then []
    else
      var last := orders[|orders| - 1];
      OrdersOn(orders[..|orders| - 1], symbol) + (if last.symbol == symbol then [last] else [])
  }

  /** The orders one run placed on the symbol. */
  function OrdersOf(orders: seq<Order>, run: RunId, symbol: Symbol): seq<Order> {
    if orders == [] then []
    else
      var last := orders[|orders| - 1];
      OrdersOf(orders[..|orders| - 1], run, symbol) + (if last.runId == run && last.symbol == symbol then [last] else [])
  }

  /** A stable sort by creation time, newest first. */
  function NewestFirst(orders: seq<Order>): seq<Order> {
    if orders == [] then [] else InsertByAge(orders[0], NewestFirst(orders[1..]))
  }

  function InsertByAge(o: Order, sorted: seq<Order>): seq<Order> {
    if sorted == [] || o.createdAt >= sorted[0].createdAt then [o] + sorted
    else [sorted[0]] + InsertByAge(o, sorted[1..])
  }

  function RecentOrders(orders: seq<Order>, run: RunId, symbol: Symbol, limit: nat): seq<Order> {
    var sorted := NewestFirst(OrdersOf(orders, run, symbol));
    if |sorted| <= limit then sorted else sorted[..limit]
  }

  ghost predicate Descending(orders: seq<Order>) {
    forall i, j :: 0 <= i < j < |orders| ==> orders[i].createdAt >= orders[j].createdAt
  }

  lemma {:induction false} InsertionKeeps(o: Order, sorted: seq<Order>)
    ensures multiset(InsertByAge(o, sorted)) == multiset(sorted) + multiset{o}
    ensures |InsertByAge(o, sorted)| == |sorted| + 1
  {
    if sorted != [] && o.createdAt < sorted[0].createdAt {
      InsertionKeeps(o, sorted[1..]);
      assert sorted == [sorted[0]] + sorted[1..];
    }
  }

  lemma {:induction false} InsertionSorts(o: Order, sorted: seq<Order>)
    requires Descending(sorted)
    ensures Descending(InsertByAge(o, sorted))
  {
    if sorted != [] && o.createdAt < sorted[0].createdAt {
      InsertionSorts(o, sorted[1..]);
      InsertionKeeps(o, sorted[1..]);
      NoneNewer(sorted[0].createdAt, o, sorted[1..], InsertByAge(o, sorted[1..]));
    }
  }

  lemma NoneNewer(at: Time, o: Order, sorted: seq<Order>, inserted: seq<Order>)
    requires multiset(inserted) == multiset(sorted) + multiset{o}
    requires o.createdAt <= at && forall i :: 0 <= i < |sorted| ==> sorted[i].createdAt <= at
    ensures forall i :: 0 <= i < |inserted| ==> inserted[i].createdAt <= at
  {
    forall i | 0 <= i < |inserted|
      ensures inserted[i].createdAt <= at
    {
      assert inserted[i] in multiset(inserted);
      assert inserted[i] == o || inserted[i] in sorted;
    }
  }

  lemma NoneOutOfOrder()
    ensures Descending([])
  {
  }

  lemma {:induction false} NewestFirstSorts(orders: seq<Order>)
    ensures Descending(NewestFirst(orders)) && multiset(NewestFirst(orders)) == multiset(orders)
    ensures |NewestFirst(orders)| == |orders|
  {
    hide InsertByAge, Descending;
    if orders == [] {
      NoneOutOfOrder();
    } else {
      NewestFirstSorts(orders[1..]);
      InsertionKeeps(orders[0], NewestFirst(orders[1..]));
      InsertionSorts(orders[0], NewestFirst(orders[1..]));
      assert orders == [orders[0]] + orders[1..];
    }
  }

  lemma {:induction false} OfRunAndSymbol(orders: seq<Order>, run: RunId, symbol: Symbol)
    ensures forall o :: o in OrdersOf(orders, run, symbol) <==> o in orders && o.runId == run && o.symbol == symbol
  {
    if orders != [] {
      OfRunAndSymbol(orders[..|orders| - 1], run, symbol);
      assert orders == orders[..|orders| - 1] + [orders[|orders| - 1]];
    }
  }

  /** A list holds the newest of its pool: all from the pool, newest first, as many as asked for or all there are, and
      nothing left out is newer than anything listed. */
  ghost predicate NewestOf(list: seq<Order>, pool: seq<Order>, limit: nat) {
    && multiset(list) <= multiset(pool)
    && Descending(list)
    && |list| == Min(limit, |pool|)
    && forall o, l :: o in pool && l in list && multiset(list)[o] < multiset(pool)[o] ==> o.createdAt <= l.createdAt
  }

  lemma PrefixIsNewest(sorted: seq<Order>, pool: seq<Order>, limit: nat)
    requires Descending(sorted) && multiset(sorted) == multiset(pool) && |sorted| == |pool| && limit < |sorted|
    ensures NewestOf(sorted[..limit], pool, limit)
  {
    var list, rest := sorted[..limit], sorted[limit..];
    assert sorted == list + rest;
    forall o, l | o in pool && l in list && multiset(list)[o] < multiset(pool)[o]
      ensures o.createdAt <= l.createdAt
    {
      assert multiset(rest)[o] > 0;
      RestNotNewer(sorted, limit, o, l);
    }
  }

  lemma RestNotNewer(sorted: seq<Order>, limit: nat, o: Order, l: Order)
    requires Descending(sorted) && limit < |sorted| && l in sorted[..limit] && o in sorted[limit..]
    ensures o.createdAt <= l.createdAt
  {
  }

  lemma RecentAreNewest(orders: seq<Order>, run: RunId, symbol: Symbol, limit: nat)
    ensures NewestOf(RecentOrders(orders, run, symbol, limit), OrdersOf(orders, run, symbol), limit)
  {
    hide NewestFirst, OrdersOf, Descending;
    var pool := OrdersOf(orders, run, symbol);
    NewestFirstSorts(pool);
    if |pool| > limit {
      PrefixIsNewest(NewestFirst(pool), pool, limit);
    }
  }

  ghost predicate Ascending(orders: seq<Order>) {
    forall i, j :: 0 <= i < j < |orders| ==> orders[i].createdAt < orders[j].createdAt
  }

  /** Orders saved in creation order come back exactly reversed. */
  lemma {:induction false} AscendingReversed(orders: seq<Order>)
    requires Ascending(orders)
    ensures |NewestFirst(orders)| == |orders|
    ensures forall i :: 0 <= i < |orders| ==> NewestFirst(orders)[i] == orders[|orders| - 1 - i]
  {
    if orders != [] {
      AscendingReversed(orders[1..]);
      OldestGoesLast(orders[0], NewestFirst(orders[1..]));
    }
  }

  lemma {:induction false} OldestGoesLast(o: Order, sorted: seq<Order>)
    requires forall i :: 0 <= i < |sorted| ==> o.createdAt < sorted[i].createdAt
    ensures InsertByAge(o, sorted) == sorted + [o]
  {
    if sorted != [] {
      OldestGoesLast(o, sorted[1..]);
    }
  }

  // ---------------------------------------------------------------- trades

  function Notional(quantity: real, price: real): real {
    quantity * price
  }

  function CashFlow(t: Trade): real {
    (if t.side == SellSide then Notional(t.quantity, t.price) else -Notional(t.quantity, t.price)) - t.commission
  }

  /** What a daily figure looks at: what one run did since an instant. */
  datatype Scope = Scope(run: RunId, since: Time) {
    predicate Covers(under: RunId, at: Time) {
      under == run && at >= since
    }
  }

  function Today(run: RunId, now: Time): Scope {
    Scope(run, KstTodayStart(now))
  }

  /** Sells in, buys out, over the trades in scope. */
  function DailyPnl(trades: seq<Trade>, scope: Scope): real {
    if trades == [] then 0.0
    else
      var last := trades[|trades| - 1];
      DailyPnl(trades[..|trades| - 1], scope) + (if scope.Covers(last.runId, last.executedAt) then CashFlow(last) else 0.0)
  }

  /** One more trade: a sale adds its proceeds and a purchase takes its cost, less the commission, when it is the run's and
      not before the instant. */
  lemma TradeCounts(trades: seq<Trade>, t: Trade, c: Scope)
    ensures DailyPnl(trades + [t], c) - DailyPnl(trades, c) ==
            if t.runId != c.run || t.executedAt < c.since then 0.0
            else if t.side == SellSide then t.quantity * t.price - t.commission
            else 0.0 - t.quantity * t.price - t.commission
  {
    assert (trades + [t])[..|trades|] == trades;
  }

  // ---------------------------------------------------------------- the snapshot log

  /** The newest row of a symbol; of rows written at the same instant, the later one. */
  function LatestRow(log: seq<Row>, symbol: Symbol): Option<Row> {
    if log == [] then None
    else
      var last := log[|log| - 1];
      var before := LatestRow(log[..|log| - 1], symbol);
      if last.position.symbol != symbol then before
      else if before.Some? && before.value.snapshotAt > last.snapshotAt then before
      else Some(last)
  }

  /** What recovery would restore for a symbol: its newest row, if that row is open with a quantity. */
  function RecoveredPosition(log: seq<Row>, symbol: Symbol): Option<Position> {
    var row := LatestRow(log, symbol);
    if row.Some? && row.value.status.OpenRow? && row.value.position.quantity > 0.0 then Some(row.value.position) else None
  }

  method InsertNewestFirst(o: Order, sorted: seq<Order>) returns (inserted: seq<Order>)
    ensures inserted == InsertByAge(o, sorted)
  {
    var k := 0;
    while k < |sorted| && o.createdAt < sorted[k].createdAt
      invariant 0 <= k <= |sorted|
      invariant InsertByAge(o, sorted) == sorted[..k] + InsertByAge(o, sorted[k..])
    {
      assert sorted[k..][1..] == sorted[k + 1..];
      k := k + 1;
    }
    inserted := sorted[..k] + [o] + sorted[k..];
  }

  /** Insertion, oldest saved last: equal times keep their saving order. */
  method SortNewestFirst(orders: seq<Order>) returns (sorted: seq<Order>)
    ensures Descending(sorted) && multiset(sorted) == multiset(orders)
    ensures sorted == NewestFirst(orders)
  {
    hide InsertByAge, Descending;
    sorted := [];
    var j := |orders|;
    while j > 0
      invariant 0 <= j <= |orders|
      invariant sorted == NewestFirst(orders[j..])
    {
      j := j - 1;
      assert orders[j..][1..] == orders[j + 1..];
      sorted := InsertNewestFirst(orders[j], sorted);
    }
    assert orders[j..] == orders;
    NewestFirstSorts(orders);
  }

  class Storage {
    var orders: seq<Order>
    var trades: seq<Trade>
    var log: seq<Row>

    constructor ()
      ensures orders == [] && trades == [] && log == []
    {
      orders, trades, log := [], [], [];
    }

    method SaveOrder(o: Order)
      modifies this`orders
      ensures orders == old(orders) + [o]
    {
      orders := orders + [o];
    }

    method SaveTrade(t: Trade)
      modifies this`trades
      ensures trades == old(trades) + [t]
    {
      trades := trades + [t];
    }

    method SavePosition(r: Row)
      modifies this`log
      ensures log == old(log) + [r]
    {
      log := log + [r];
    }

    method GetDailyPnl(run: RunId, now: Time) returns (pnl: real)
      ensures pnl == DailyPnl(trades, Today(run, now))
    {
      var today := KstTodayStart(now);
      pnl := 0.0;
      var i := 0;
      while i < |trades|
        invariant 0 <= i <= |trades|
        invariant pnl == DailyPnl(trades[..i], Scope(run, today))
      {
        assert trades[..i + 1][..i] == trades[..i];
        if trades[i].runId == run && trades[i].executedAt >= today {
          var sign := if trades[i].side == SellSide then 1.0 else -1.0;
          pnl := pnl + (sign * Notional(trades[i].quantity, trades[i].price) - trades[i].commission);
        }
        i := i + 1;
      }
      assert trades[..i] == trades;
    }

    /** The newest orders of the run on the symbol. */
    method GetRecentOrders(run: RunId, symbol: Symbol, limit: nat) returns (recent: seq<Order>)
      ensures forall o :: o in recent ==> o in orders && o.runId == run && o.symbol == symbol
      ensures NewestOf(recent, OrdersOf(orders, run, symbol), limit)
      ensures recent == RecentOrders(orders, run, symbol, limit)
    {
      var found: seq<Order> := [];
      var i := 0;
      while i < |orders|
        invariant 0 <= i <= |orders|
        invariant found == OrdersOf(orders[..i], run, symbol)
      {
        assert orders[..i + 1][..i] == orders[..i];
        if orders[i].runId == run && orders[i].symbol == symbol {
          found := found + [orders[i]];
        }
        i := i + 1;
      }
      assert orders[..i] == orders;
      var sorted := SortNewestFirst(found);
      recent := if |sorted| <= limit then sorted else sorted[..limit];
      RecentAreNewest(orders, run, symbol, limit);
      OfRunAndSymbol(orders, run, symbol);
      assert forall o :: o in recent ==> o in multiset(recent);
    }

    /** One pass over the log, keeping the newest row of each symbol asked for. */
    method GetLatestOpen(symbols: set<Symbol>) returns (found: Book)
      ensures found.Keys == set s | s in symbols && RecoveredPosition(log, s).Some?
      ensures forall s :: s in found ==> RecoveredPosition(log, s) == Some(found[s])
    {
      var newest: map<Symbol, Row> := map[];
      var i := 0;
      while i < |log|
        invariant 0 <= i <= |log|
        invariant forall s :: s in newest <==> s in symbols && LatestRow(log[..i], s).Some?
        invariant forall s :: s in newest ==> LatestRow(log[..i], s) == Some(newest[s])
      {
        assert log[..i + 1][..i] == log[..i];
        var s := log[i].position.symbol;
        if s in symbols && !(s in newest && newest[s].snapshotAt > log[i].snapshotAt) {
          newest := newest[s := log[i]];
        }
        i := i + 1;
      }
      assert log[..i] == log;
      found := map s | s in newest && newest[s].status.OpenRow? && newest[s].position.quantity > 0.0 :: newest[s].position;
    }
  }
}
