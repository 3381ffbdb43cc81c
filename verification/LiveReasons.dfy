/** What a recorded take-profit or stop-loss says about the result in live runs, where a synchronisation may replace a
    held position: the new side and entry price come from the exchange, the exit levels stay. */
module LiveReasons {
  import opened Domain
  import opened Arithmetic
  import opened PositionManagement
  import opened Exits
  import opened SignalPolicies
  import opened RiskChecking
  import opened Strategies
  import opened Stores
  import opened EngineModel
  import opened TickShapes
  import opened CrashRecovery
  import opened PositionSync
  import opened ExitReasons

  // ---------------------------------------------------------------- one position

  /** Each level is on its own side of the entry price. */
  predicate LevelsFit(p: Position) {
    if p.side == Long then (p.tp.Some? ==> p.tp.value > p.entryPrice) && (p.sl.Some? ==> p.sl.value < p.entryPrice)
    else (p.tp.Some? ==> p.tp.value < p.entryPrice) && (p.sl.Some? ==> p.sl.value > p.entryPrice)
  }

  /** Closed at a price that reaches a level, the position wins if that is called take-profit and loses if stop-loss. */
  predicate ReasonFits(p: Position, price: real) {
    var pnl := RealizedPnl(p.side, p.entryPrice, price, p.quantity);
    && (CheckExit(p, price) == Some(TakeProfit) ==> pnl > 0.0)
    && (CheckExit(p, price) == Some(StopLoss) ==> pnl < 0.0)
  }

  lemma SignOfResult(p: Position, price: real)
    requires p.quantity > 0.0
    ensures var pnl := RealizedPnl(p.side, p.entryPrice, price, p.quantity);
            && (pnl > 0.0 <==> if p.side == Long then price > p.entryPrice else price < p.entryPrice)
            && (pnl < 0.0 <==> if p.side == Long then price < p.entryPrice else price > p.entryPrice)
  {
    SignOfProduct(if p.side == Long then price - p.entryPrice else p.entryPrice - price, p.quantity);
  }

  lemma SignOfProduct(a: real, b: real)
    requires b > 0.0
    ensures (a * b > 0.0 <==> a > 0.0) && (a * b < 0.0 <==> a < 0.0)
  {
    if a <= 0.0 {
      MulMono(a, 0.0, b);
    } else {
      assert a * b > 0.0;
    }
    if a < 0.0 {
      assert -a * b > 0.0;
    }
  }

  /** At every price: exactly the positions whose levels fit keep the promise. */
  lemma ReasonFitsIff(p: Position)
    requires p.quantity > 0.0
    ensures (forall price :: ReasonFits(p, price)) <==> LevelsFit(p)
  {
    hide RealizedPnl;
    if LevelsFit(p) {
      forall price
        ensures ReasonFits(p, price)
      {
        SignOfResult(p, price);
      }
    } else {
      var price := if p.tp.Some? && (if p.side == Long then p.tp.value <= p.entryPrice else p.tp.value >= p.entryPrice) then
                     p.tp.value else p.entryPrice;
      SignOfResult(p, price);
      assert !ReasonFits(p, price);
    }
  }

  lemma BracketedFits(p: Position, tpPct: real, slPct: real)
    requires Bracketed(p, tpPct, slPct)
    ensures LevelsFit(p)
  {
    LevelBeyond(p.entryPrice, tpPct);
    LevelBeyond(p.entryPrice, slPct);
  }

  lemma LevelBeyond(entry: real, pct: real)
    requires entry > 0.0
    ensures pct > 0.0 ==> entry * (1.0 + pct) > entry && entry * (1.0 - pct) < entry
  {
    if pct > 0.0 {
      var move := entry * pct;
      assert move > 0.0 && entry * (1.0 + pct) == entry + move && entry * (1.0 - pct) == entry - move;
    }
  }

  // ---------------------------------------------------------------- what one tick writes

  predicate SameLevels(p: Position, q: Position) {
    p.tp == q.tp && p.sl == q.sl && p.openedAt == q.openedAt
  }

  /** A recorded take-profit or stop-loss was reached at the tick's price or at the price it was closed at. */
  predicate Decided(row: Row, price: real) {
    row.status.ClosedRow? && row.status.reason in {TakeProfit, StopLoss} ==>
      CheckExit(row.position, price) == Some(row.status.reason)
      || CheckExit(row.position, row.status.exitPrice) == Some(row.status.reason)
  }

  /** At most one row: over a held position it keeps the levels, and a close is of what was held. */
  ghost predicate LevelMove(e: Engine, e': Engine, on: Symbol, price: real) {
    e'.log == e.log ||
    (&& |e'.log| == |e.log| + 1 && e'.log[..|e.log|] == e.log
     && var row := e'.log[|e.log|];
     && row.position.symbol == on
     && (row.status.OpenRow? && e.Held(on).Some? ==> SameLevels(e.Held(on).value, row.position))
     && (row.status.ClosedRow? ==> e.Held(on) == Some(row.position))
     && Decided(row, price))
  }

  lemma SyncLevels(e: Engine, on: Symbol, mark: Option<real>, seen: Option<ExchangePosition>, at: Time, price: real)
    requires KeysMatch(e)
    ensures LevelMove(e, Sync(e, on, mark, seen, at), on, price)
  {
    hide IsDust, RealQuantity, WithinTolerance, TakeProfitPrice, StopLossPrice, RealizedPnl, CheckExit, InferCloseReason,
         Risk.RecordResult;
    if e.Held(on).Some? {
      var p := e.Held(on).value;
      InferredReasonMatches(p, OrElse(mark, p.entryPrice));
    }
  }

  lemma CloseLevels(e: Engine, on: Symbol, exitPrice: real, reason: ExitReason, at: Time, price: real)
    requires KeysMatch(e)
    requires e.Held(on).Some? && reason in {TakeProfit, StopLoss} ==> CheckExit(e.Held(on).value, price) == Some(reason)
    ensures LevelMove(e, CloseHeld(e, on, exitPrice, reason, at), on, price)
  {
    hide CheckExit, RealizedPnl, Risk.RecordResult;
  }

  lemma SubmitExitLevels(e: Engine, input: TickInput, p: Position, reason: ExitReason)
    requires KeysMatch(e) && e.Held(input.symbol) == Some(p)
    requires reason in {TakeProfit, StopLoss} ==> CheckExit(p, input.price) == Some(reason)
    ensures LevelMove(e, SubmitExit(e, input, p, reason), input.symbol, input.price)
  {
    hide Sync, CloseHeld, SubmittedOrder, CheckExit;
    var order := SubmittedOrder(e.cfg, e.runId, input, ClosingSide(p.side), p.quantity, input.price, true);
    SyncLevels(e, input.symbol, Some(input.price), input.resyncSeen, input.fillAt, input.price);
    if order.Some? {
      var placed := Placed(e, order.value);
      SyncLevels(placed, input.symbol, Some(input.price), input.resyncSeen, input.fillAt, input.price);
      CloseLevels(Traded(placed, input, order.value), input.symbol, OrElse(order.value.price, input.price), reason,
                  input.fillAt, input.price);
    }
  }

  lemma ExitTickLevels(e: Engine, input: TickInput, p: Position)
    requires KeysMatch(e) && e.Held(input.symbol) == Some(p)
    ensures LevelMove(e, ExitTick(e, input, p), input.symbol, input.price)
  {
    hide SubmitExit, CheckExit, ModelExitReason, Tune, RecordAction;
    InformedOnlySignals(e, input);
    var hit := CheckExit(p, input.price);
    if hit.Some? {
      SubmitExitLevels(e, input, p, hit.value);
    } else if input.prediction.Some? && !input.prediction.value.awaitingCandle {
      var e2 := Informed(e, input);
      var reason := ModelExitReason(e2.policy, p);
      if reason.Some? {
        ModelReason(e2.policy, p);
        SubmitExitLevels(e2, input, p, reason.value);
      }
    }
  }

  lemma ModelReason(policy: Policy, p: Position)
    ensures ModelExitReason(policy, p).Some? ==> ModelExitReason(policy, p).value in {ModelSell, ModelBuy}
  {
  }

  lemma SubmitEntryLevels(e: Engine, input: TickInput, intent: Intent, price: real)
    requires e.Held(input.symbol).None?
    ensures LevelMove(e, SubmitEntry(e, input, intent), input.symbol, price)
  {
    hide SubmittedOrder;
  }

  lemma EntryTickLevels(e: Engine, input: TickInput)
    requires e.Held(input.symbol).None?
    ensures LevelMove(e, EntryTick(e, input), input.symbol, input.price)
  {
    hide SoftCandidate, EntryVerdict, SubmitEntry, Informed;
    InformedOnlySignals(e, input);
    var e1 := Informed(e, input);
    var intent := SoftCandidate(e1, input);
    if intent.Some? {
      SubmitEntryLevels(e1.(risk := e1.risk.AfterCheck(input.gateAt)), input, intent.value, input.price);
    }
  }

  lemma TickLevels(e: Engine, input: TickInput)
    requires KeysMatch(e)
    ensures LevelMove(e, Synced(e, input), input.symbol, input.price)
    ensures LevelMove(Synced(e, input), ProcessTick(e, input), input.symbol, input.price)
  {
    hide Sync, ExitTick, EntryTick, Decided;
    SyncLevels(e, input.symbol, Some(input.price), input.syncSeen, input.syncAt, input.price);
    var w := SyncMoves(e, input.symbol, Some(input.price), input.syncSeen, input.syncAt);
    var e1 := Synced(e, input);
    if e1.Held(input.symbol).Some? {
      ExitTickLevels(e1, input, e1.Held(input.symbol).value);
    } else if e1.trading {
      EntryTickLevels(e1, input);
    }
  }

  // ---------------------------------------------------------------- holdings in the log

  /** The row goes on with the holding of the row before it. */
  predicate Continues(rows: seq<Row>, i: nat)
    requires i < |rows|
  {
    i > 0 && rows[i].status.OpenRow? && rows[i - 1].status.OpenRow? && rows[i - 1].position.quantity > 0.0
  }

  /** The row that opened the holding. */
  function Opening(rows: seq<Row>, i: nat): (k: nat)
    requires i < |rows|
    ensures k <= i
  {
    if Continues(rows, i) then Opening(rows, i - 1) else i
  }

  predicate RowFits(rows: seq<Row>, i: nat)
    requires i < |rows|
  {
    && (Continues(rows, i) ==> SameLevels(rows[i - 1].position, rows[i].position))
    && (rows[i].status.ClosedRow? ==> rows[i].position.quantity > 0.0)
  }

  ghost predicate Holdings(rows: seq<Row>) {
    forall i :: 0 <= i < |rows| ==> RowFits(rows, i)
  }

  lemma {:induction false} OpeningLevels(rows: seq<Row>, i: nat)
    requires Holdings(rows) && i < |rows|
    ensures SameLevels(rows[Opening(rows, i)].position, rows[i].position)
  {
    assert RowFits(rows, i);
    if Continues(rows, i) {
      OpeningLevels(rows, i - 1);
    }
  }

  lemma HoldingsGrow(rows: seq<Row>, row: Row)
    requires Holdings(rows)
    requires rows != [] && row.status.OpenRow? && rows[|rows| - 1].status.OpenRow? && rows[|rows| - 1].position.quantity > 0.0 ==>
               SameLevels(rows[|rows| - 1].position, row.position)
    requires row.status.ClosedRow? ==> row.position.quantity > 0.0
    ensures Holdings(rows + [row])
  {
    forall i | 0 <= i < |rows + [row]|
      ensures RowFits(rows + [row], i)
    {
      assert i < |rows| ==> RowFits(rows, i);
    }
  }

  lemma NewestIsHeld(e: Engine, symbol: Symbol, now: Time)
    requires LogInv(e.positions, e.log, symbol, now) && Recoverable(e.positions, e.log, symbol)
    ensures var rows := RowsOf(e.log, symbol);
            rows != [] && rows[|rows| - 1].status.OpenRow? && rows[|rows| - 1].position.quantity > 0.0 ==>
              e.Held(symbol) == Some(rows[|rows| - 1].position)
  {
    hide RowsOf, LatestRow;
  }

  lemma HeldHasQuantity(e: Engine, symbol: Symbol)
    ensures e.Held(symbol).Some? ==> e.Held(symbol).value.quantity > 0.0
  {
  }

  lemma MoveKeepsHoldings(e: Engine, e': Engine, on: Symbol, price: real, symbol: Symbol, now: Time)
    requires LevelMove(e, e', on, price) && LogInv(e.positions, e.log, symbol, now)
    requires Recoverable(e.positions, e.log, symbol) && Holdings(RowsOf(e.log, symbol))
    ensures Holdings(RowsOf(e'.log, symbol))
  {
    hide Holdings, Decided, LogInv, Recoverable, SameLevels, GetPosition;
    if e'.log != e.log {
      NewestIsHeld(e, symbol, now);
      HeldHasQuantity(e, on);
      var row := e'.log[|e.log|];
      assert e'.log == e.log + [row];
      assert RowsOf(e'.log, symbol) == if on == symbol then RowsOf(e.log, symbol) + [row] else RowsOf(e.log, symbol);
      if on == symbol {
        HoldingsGrow(RowsOf(e.log, symbol), row);
      }
    }
  }

  lemma StepKeepsHoldings(e: Engine, s: Step, symbol: Symbol)
    requires Allowed(e, s) && LogInv(e.positions, e.log, symbol, e.clock)
    requires Recoverable(e.positions, e.log, symbol) && Holdings(RowsOf(e.log, symbol))
    ensures Holdings(RowsOf(Apply(e, s).log, symbol))
  {
    hide ProcessTick, Sync, LogInv, Recoverable, LevelMove, Holdings;
    match s
    case Tick(input) =>
      assert KeysMatch(e) by { KeysFromLog(e, symbol); }
      var w1, w2, gate := TickMoves(e, input);
      TickLevels(e, input);
      MoveKeepsLog(Ready(e, input), Synced(e, input), w1, input.symbol, None, input.syncAt, symbol, e.clock);
      MoveKeepsHoldings(e, Synced(e, input), input.symbol, input.price, symbol, e.clock);
      MoveKeepsHoldings(Synced(e, input), ProcessTick(e, input), input.symbol, input.price, symbol, input.syncAt);
    case StartupSync(on, seen, at) =>
      assert KeysMatch(e) by { KeysFromLog(e, symbol); }
      SyncLevels(e, on, None, seen, at, 0.0);
      MoveKeepsHoldings(e, Sync(e, on, None, seen, at), on, 0.0, symbol, e.clock);
    case NewProcess(_, _, _, _, _, _) =>
    case SetTrading(_) =>
    case Reconfigure(_, _, _, _, _) =>
  }

  /** Over every run, live or paper, that recovers the symbol: the rows of one holding carry the levels it was opened
      with, whatever replaced the position meanwhile. */
  lemma {:induction false} RunKeepsHoldings(e: Engine, steps: seq<Step>, symbol: Symbol)
    requires Fresh(e) && AllowedRun(e, steps) && AllCover(steps, symbol)
    ensures Holdings(RowsOf(Run(e, steps).log, symbol))
  {
    hide Apply;
    if steps != [] {
      var before := steps[..|steps| - 1];
      RunKeepsHoldings(e, before, symbol);
      RunKeepsLog(e, before, symbol);
      StepKeepsHoldings(Run(e, before), steps[|steps| - 1], symbol);
    }
  }

  // ---------------------------------------------------------------- what the recorded reason is worth

  predicate Between(low: real, x: real, high: real) {
    low < x < high || high < x < low
  }

  /** Over every run, live or paper: of a closed position the recorded reason fixes the sign of the result, at whatever
      price the level was reached, if and only if the levels set when the holding was opened fit the side and entry
      price it was closed with. When both were set and fitted at the opening, that is exactly when the last replacement
      left the side as it was opened and the entry price between the levels. */
  lemma ReasonFixesSignIff(e: Engine, steps: seq<Step>, symbol: Symbol, i: nat)
    requires Fresh(e) && AllowedRun(e, steps) && AllCover(steps, symbol)
    requires var rows := RowsOf(Run(e, steps).log, symbol); i < |rows| && rows[i].status.ClosedRow?
    ensures var rows := RowsOf(Run(e, steps).log, symbol);
            && i > 0 && rows[i - 1].position == rows[i].position
            && var p, o := rows[i].position, rows[Opening(rows, i - 1)].position;
            && ((forall price :: ReasonFits(p, price)) <==> LevelsFit(o.(side := p.side, entryPrice := p.entryPrice)))
            && (o.tp.Some? && o.sl.Some? && LevelsFit(o) ==>
                  ((forall price :: ReasonFits(p, price)) <==>
                     p.side == o.side && Between(o.sl.value, p.entryPrice, o.tp.value)))
  {
    hide Run, ReasonFits;
    var rows := RowsOf(Run(e, steps).log, symbol);
    RunKeepsHoldings(e, steps, symbol);
    LogReadsOpenThenClosed(e, steps, symbol);
    assert RowFits(rows, i);
    OpeningLevels(rows, i - 1);
    ReasonFitsIff(rows[i].position);
  }

  lemma TickWrites(e: Engine, input: TickInput, k: nat)
    requires KeysMatch(e) && |e.log| <= k < |ProcessTick(e, input).log| && ProcessTick(e, input).log[k].status.ClosedRow?
    ensures var row := ProcessTick(e, input).log[k];
            var p := row.position;
            && p.quantity > 0.0 && Decided(row, input.price)
            && row.status.pnl == RealizedPnl(p.side, p.entryPrice, row.status.exitPrice, p.quantity)
  {
    hide ProcessTick, Synced, RealizedPnl, Decided, Checked, Risk.RecordResult;
    TickLevels(e, input);
    var w1, w2, gate := TickMoves(e, input);
  }

  /** A take-profit or stop-loss a tick records was reached at the tick's price or at the price of the close; so a close
      at a price that reaches it, as every synchronised one is, has the sign the reason says whenever the levels fit. */
  lemma RecordedReasonReached(e: Engine, steps: seq<Step>, input: TickInput, k: nat)
    requires Fresh(e) && AllowedRun(e, steps)
    requires var s := Run(e, steps);
             |s.log| <= k < |ProcessTick(s, input).log| && ProcessTick(s, input).log[k].status.ClosedRow?
    requires ProcessTick(Run(e, steps), input).log[k].status.reason in {TakeProfit, StopLoss}
    ensures var row := ProcessTick(Run(e, steps), input).log[k];
            var p, reason := row.position, row.status.reason;
            && (CheckExit(p, input.price) == Some(reason) || CheckExit(p, row.status.exitPrice) == Some(reason))
            && row.status.pnl == RealizedPnl(p.side, p.entryPrice, row.status.exitPrice, p.quantity)
            && (CheckExit(p, row.status.exitPrice) == Some(reason) && LevelsFit(p) ==>
                  if reason == TakeProfit then row.status.pnl > 0.0 else row.status.pnl < 0.0)
  {
    hide Run, ProcessTick, Sync, CheckExit, RealizedPnl, LevelsFit, ReasonFits;
    var s := Run(e, steps);
    RunKeepsLog(e, steps, input.symbol);
    KeysFromLog(s, input.symbol);
    TickWrites(s, input, k);
    var row := ProcessTick(s, input).log[k];
    ReasonFitsIff(row.position);
    FitsAt(row.position, row.status.exitPrice);
  }

  lemma FitsAt(p: Position, price: real)
    requires LevelsFit(p) ==> ReasonFits(p, price)
    ensures LevelsFit(p) ==>
              var pnl := RealizedPnl(p.side, p.entryPrice, price, p.quantity);
              && (CheckExit(p, price) == Some(TakeProfit) ==> pnl > 0.0)
              && (CheckExit(p, price) == Some(StopLoss) ==> pnl < 0.0)
  {
    hide CheckExit, LevelsFit;
  }

  // ---------------------------------------------------------------- an input that breaks it

  const S: Symbol := "XRPUSDT"

  const LIVE: Engine :=
    Engine(EngineConfig(false, false, false, 0, 0.1, 0.0, 5.0), "prod_timesfm_run", false, map[], Policy(1, LongShort, map[]),
           Risk(RiskConfig(0.0, -1000.0, 180, 0.0, 0.0, 0, 0), 0, None), Strategy(0.1, 0.0, 1.0, None, 0.0), map[], [], [], [],
           0, 0, [])

  const FOUND_LONG: Step := StartupSync(S, Some(ExchangePosition(Long, 1.0, 100.0)), 1)

  /** The exchange now reports a short; the exit order fills at the tick's price. */
  const FLIPPED: TickInput :=
    TickInput(S, 105.0, 2, 3, 4, None, None, 0.0, Some(ExchangePosition(Short, 1.0, 100.0)),
              Some(ExchangePosition(Short, 1.0, 100.0)), None, [], Some(FillReport(Filled, 1.0, Some(105.0))), [])

  /** A long of one at 100 is found on the exchange and gets a take-profit at 110. The next tick finds a short of one at
      100 instead, keeps that level, takes the price of 105 for a hit, and closes: TAKE_PROFIT, and five lost. */
  lemma FlippedTakeProfitLoses()
    ensures Fresh(LIVE) && AllowedRun(LIVE, [FOUND_LONG]) && Allowed(Run(LIVE, [FOUND_LONG]), Tick(FLIPPED))
    ensures var s := Run(LIVE, [FOUND_LONG]);
            var e' := ProcessTick(s, FLIPPED);
            && s.Held(S) == Some(Position(S, Long, 1.0, 100.0, Some(110.0), None, 1, LIVE.runId))
            && |e'.log| == 3 && e'.log[2].status == ClosedRow(-5.0, TakeProfit, 105.0)
            && e'.log[2].position == Position(S, Short, 1.0, 100.0, Some(110.0), None, 1, LIVE.runId)
  {
    hide ExitTick, Sync;
    assert [FOUND_LONG][..0] == [] && Run(LIVE, []) == LIVE;
    assert Run(LIVE, [FOUND_LONG]) == Apply(LIVE, FOUND_LONG);
    FoundLong();
    var s := Run(LIVE, [FOUND_LONG]);
    FlipAdopted(s);
    FlipCloses(Synced(s, FLIPPED));
  }

  lemma FoundLong()
    ensures var p := Position(S, Long, 1.0, 100.0, Some(110.0), None, 1, LIVE.runId);
            var s := Apply(LIVE, FOUND_LONG);
            && s.positions == map[S := p] && s.cfg == LIVE.cfg && s.runId == LIVE.runId && s.clock == 1
            && s.log == [OpenedRow(p, 1)] && !s.trading
  {
  }

  lemma FlipAdopted(s: Engine)
    requires s.cfg == LIVE.cfg && s.runId == LIVE.runId
    requires s.positions == map[S := Position(S, Long, 1.0, 100.0, Some(110.0), None, 1, LIVE.runId)]
    ensures var p := Position(S, Short, 1.0, 100.0, Some(110.0), None, 1, LIVE.runId);
            var e1 := Synced(s, FLIPPED);
            e1.positions == map[S := p] && e1.log == s.log + [OpenedRow(p, 2)] && e1.cfg == s.cfg
  {
  }

  lemma FlipCloses(e: Engine)
    requires e.cfg == LIVE.cfg
    requires e.positions == map[S := Position(S, Short, 1.0, 100.0, Some(110.0), None, 1, LIVE.runId)]
    ensures var p := e.positions[S];
            ExitTick(e, FLIPPED, p).log == e.log + [Row(p, ClosedRow(-5.0, TakeProfit, 105.0), 4)]
  {
    hide Risk.RecordResult;
  }
}
