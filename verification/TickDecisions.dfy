/** When a tick acts: an exit that is due happens and nothing else does, an entry that every gate lets through is
    submitted and no other is. Stated on prices, levels, recorded predictions and stored figures. */
module TickDecisions {
  import opened Domain
  import opened PositionManagement
  import opened Exits
  import opened SignalPolicies
  import opened RiskChecking
  import opened Strategies
  import opened Stores
  import opened PaperTrading
  import opened EngineModel
  import opened TickShapes
  import opened SignalProvenance

  // ---------------------------------------------------------------- what a prediction confirms

  predicate Usable(input: TickInput) {
    input.prediction.Some? && !input.prediction.value.awaitingCandle
  }

  /** Confirmations asked for, an adaptive push of this tick included. */
  function Needed(e: Engine, input: TickInput): int {
    if input.tuning.None? then e.policy.required
    else if input.tuning.value.required < 1 then 1
    else input.tuning.value.required
  }

  /** Everything recorded since the symbol's window was last emptied, with this tick's prediction; a changed number of
      confirmations empties it. */
  function Counted(e: Engine, input: TickInput): seq<Action>
    requires Usable(input)
  {
    (if Needed(e, input) == e.policy.required then RecordsSinceReset(e.trace, input.symbol) else [])
    + [input.prediction.value.action]
  }

  predicate Confirmed(e: Engine, input: TickInput, action: Action) {
    Usable(input) && Needed(e, input) >= 1 && EndsWith(Counted(e, input), Needed(e, input), action)
  }

  lemma LastNEndsWith(history: seq<Action>, n: nat, action: Action)
    requires n >= 1
    ensures (|LastN(history, n)| == n && forall i :: 0 <= i < n ==> LastN(history, n)[i] == action) <==>
            EndsWith(history, n, action)
  {
    if |history| >= n {
      forall i | 0 <= i < n
        ensures LastN(history, n)[i] == history[|history| - n + i]
      {
      }
      forall i | |history| - n <= i < |history|
        ensures LastN(history, n)[i - (|history| - n)] == history[i]
      {
      }
    }
  }

  /** The policy, once it has the prediction, confirms exactly what the record says. */
  lemma PolicyConfirms(e: Engine, input: TickInput, action: Action)
    requires Faith(e, None) && Usable(input)
    ensures Informed(e, input).policy.IsConsecutive(input.symbol, action) <==> Confirmed(e, input, action)
    ensures Informed(e, input).policy.mode == e.policy.mode
  {
    hide Aged, RowsIn, AdoptedLast, EndsWith;
    InformedKeepsFaith(e, input);
    var asked := Informed(e, input);
    AskedRecords(e, input);
    LastNEndsWith(Counted(e, input), asked.policy.required, action);
  }

  lemma AskedRecords(e: Engine, input: TickInput)
    requires Faith(e, None) && Usable(input)
    ensures var asked := Informed(e, input);
            && asked.policy.required == Needed(e, input) >= 1 && asked.policy.mode == e.policy.mode
            && RecordsSinceReset(asked.trace, input.symbol) == Counted(e, input)
  {
    hide Faith, Tune, RecordsSinceReset;
    FaithRequires(e);
    TunedRecords(e, input);
    var e1, action := Tune(e, input.tuning), input.prediction.value.action;
    UnlessRecorded(e, input);
    RecordGrows(e1.trace, input.symbol, action);
  }

  lemma FaithRequires(e: Engine)
    requires Faith(e, None)
    ensures e.policy.required >= 1
  {
  }

  lemma RecordGrows(trace: seq<Event>, symbol: Symbol, action: Action)
    ensures RecordsSinceReset(trace + [Recorded(symbol, action)], symbol) == RecordsSinceReset(trace, symbol) + [action]
    ensures RecordsSinceReset(trace + [WindowsCleared], symbol) == []
  {
    Appended(trace, WindowsCleared);
    Appended(trace, Recorded(symbol, action));
  }

  lemma TunedRecords(e: Engine, input: TickInput)
    requires e.policy.required >= 1
    ensures var e1 := Tune(e, input.tuning);
            && e1.policy.required == Needed(e, input) >= 1 && e1.policy.mode == e.policy.mode
            && RecordsSinceReset(e1.trace, input.symbol) ==
               if Needed(e, input) == e.policy.required then RecordsSinceReset(e.trace, input.symbol) else []
  {
    hide RecordsSinceReset, Tune;
    RecordGrows(e.trace, input.symbol, Hold);
    TuneSignals(e, input.tuning);
  }

  lemma TuneSignals(e: Engine, tuning: Option<Tuning>)
    ensures var e1, e2 := Tune(e, tuning), if tuning.None? then e else SetRequired(e, tuning.value.required);
            e1.policy == e2.policy && e1.trace == e2.trace
  {
    hide SetRequired, Strategy.SetDynamicExit;
  }

  // ---------------------------------------------------------------- exits

  predicate TakesProfit(p: Position, price: real) {
    p.tp.Some? && if p.side == Long then price >= p.tp.value else price <= p.tp.value
  }

  predicate StopsOut(p: Position, price: real) {
    p.sl.Some? && if p.side == Long then price <= p.sl.value else price >= p.sl.value
  }

  predicate LevelReached(p: Position, price: real) {
    TakesProfit(p, price) || StopsOut(p, price)
  }

  lemma LevelsDecide(p: Position, price: real)
    requires p.quantity > 0.0
    ensures CheckExit(p, price) == if TakesProfit(p, price) then Some(TakeProfit)
                                   else if StopsOut(p, price) then Some(StopLoss) else None
  {
  }

  /** The needed predictions against the position, the mode acting on them, and held long enough. */
  predicate TurnedAgainst(e: Engine, input: TickInput, p: Position) {
    && input.gateAt - p.openedAt >= e.cfg.minHoldSeconds * 1_000_000
    && if p.side == Long then e.policy.mode in {LongOnly, LongShort} && Confirmed(e, input, Sell)
       else e.policy.mode == LongShort && Confirmed(e, input, Buy)
  }

  /** Due by price, unless the exchange watches the levels; or, with no level reached, due by the model. */
  predicate ExitDue(e: Engine, input: TickInput, p: Position) {
    if LevelReached(p, input.price) then !(e.cfg.ocoEnabled && e.cfg.managesExits) else TurnedAgainst(e, input, p)
  }

  function DueReason(p: Position, price: real): ExitReason {
    if TakesProfit(p, price) then TakeProfit
    else if StopsOut(p, price) then StopLoss
    else if p.side == Long then ModelSell
    else ModelBuy
  }

  /** The paper adapter always fills; live, the exchange still holds the position and reports the order filled. */
  predicate Fills(e: Engine, input: TickInput) {
    e.cfg.paper || (input.exitSeen.Some? && input.exitSeen.value.quantity > 0.0
                    && input.fill.Some? && input.fill.value.status == Filled)
  }

  /** The price a filled exit is booked at. */
  function BookedAt(e: Engine, input: TickInput): real {
    if !e.cfg.paper && input.fill.Some? && input.fill.value.price.Some? && input.fill.value.price.value != 0.0 then
      input.fill.value.price.value
    else input.price
  }

  function Won(p: Position, price: real): real {
    if p.side == Long then (price - p.entryPrice) * p.quantity else (p.entryPrice - price) * p.quantity
  }

  lemma WonIsPnl(p: Position, price: real)
    ensures Won(p, price) == RealizedPnl(p.side, p.entryPrice, price, p.quantity)
  {
  }

  /** Closed for the reason at the price, the result by its side, on one more order the other way; other symbols stay. */
  ghost predicate ClosedOut(e: Engine, e': Engine, input: TickInput, p: Position, reason: ExitReason, price: real) {
    && e'.positions == e.positions - {input.symbol}
    && e'.log == e.log + [Row(p, ClosedRow(Won(p, price), reason, price), input.fillAt)]
    && |e'.orders| == |e.orders| + 1 && e'.orders[..|e.orders|] == e.orders
    && var o := e'.orders[|e.orders|];
    && o.symbol == input.symbol && o.side == (if p.side == Long then SellSide else BuySide) && o.reduceOnly
    && o.status == Filled && (e.cfg.paper ==> o.quantity == p.quantity)
  }

  lemma FilledExit(e: Engine, input: TickInput, p: Position, reason: ExitReason)
    requires KeysMatch(e) && e.Held(input.symbol) == Some(p) && Fills(e, input)
    ensures ClosedOut(e, SubmitExit(e, input, p, reason), input, p, reason, BookedAt(e, input))
  {
    hide Fill, Risk.RecordResult, RealizedPnl, Won;
    WonIsPnl(p, BookedAt(e, input));
    var side, price := if p.side == Long then SellSide else BuySide, BookedAt(e, input);
    var order := if e.cfg.paper then Order(input.symbol, side, p.quantity, Some(input.price), Filled, true, input.fillAt, e.runId)
                 else
                   var f := input.fill.value;
                   Order(input.symbol, side, f.quantity, f.price, Filled, true, input.fillAt, e.runId);
    var e' := SubmitExit(e, input, p, reason);
    assert SubmittedOrder(e.cfg, e.runId, input, ClosingSide(p.side), p.quantity, input.price, true) == Some(order);
    assert e' == CloseHeld(Traded(Placed(e, order), input, order), input.symbol, price, reason, input.fillAt);
    assert e'.orders == e.orders + [order];
    assert e'.positions == e.positions - {input.symbol};
  }

  lemma ExitTickActs(e: Engine, input: TickInput, p: Position)
    requires Faith(e, None) && KeysMatch(e) && e.Held(input.symbol) == Some(p) && Fills(e, input)
    ensures var e' := ExitTick(e, input, p);
            if ExitDue(e, input, p) then ClosedOut(e, e', input, p, DueReason(p, input.price), BookedAt(e, input))
            else e'.positions == e.positions && e'.log == e.log && e'.orders == e.orders
  {
    hide Faith, SubmitExit, Informed, Confirmed, ClosedOut, TakesProfit, StopsOut, CheckExit, ModelExitReason, Fills, BookedAt,
         Tune, RecordAction;
    InformedOnlySignals(e, input);
    LevelsDecide(p, input.price);
    if LevelReached(p, input.price) {
      FilledExit(e, input, p, DueReason(p, input.price));
    } else if Usable(input) {
      ModelTurns(e, input, p);
      UnlessRecorded(e, input);
      var e2 := Informed(e, input);
      SameFills(e, e2, input);
      FilledExit(e2, input, p, DueReason(p, input.price));
      ClosedFromEither(e, e2, SubmitExit(e2, input, p, DueReason(p, input.price)), input, p, DueReason(p, input.price));
    } else {
      NothingConfirmed(e, input);
    }
  }

  /** The reason the model gives, on the record. */
  lemma ModelTurns(e: Engine, input: TickInput, p: Position)
    requires Faith(e, None) && Usable(input) && p.symbol == input.symbol
    ensures ModelExitReason(Informed(e, input).policy, p) ==
            if p.side == Long && e.policy.mode in {LongOnly, LongShort} && Confirmed(e, input, Sell) then Some(ModelSell)
            else if p.side != Long && e.policy.mode == LongShort && Confirmed(e, input, Buy) then Some(ModelBuy)
            else None
  {
    hide Faith, Informed, Confirmed, Policy.IsConsecutive;
    PolicyConfirms(e, input, Sell);
    PolicyConfirms(e, input, Buy);
  }

  lemma UnlessRecorded(e: Engine, input: TickInput)
    requires Usable(input)
    ensures Informed(e, input) == RecordAction(Tune(e, input.tuning), input.symbol, input.prediction.value.action)
  {
  }

  lemma SameFills(e: Engine, e2: Engine, input: TickInput)
    requires e2.cfg == e.cfg
    ensures Fills(e2, input) == Fills(e, input) && BookedAt(e2, input) == BookedAt(e, input)
  {
  }

  lemma NothingConfirmed(e: Engine, input: TickInput)
    requires !Usable(input)
    ensures !Confirmed(e, input, Sell) && !Confirmed(e, input, Buy)
  {
  }

  lemma ClosedFromEither(e: Engine, e2: Engine, e': Engine, input: TickInput, p: Position, reason: ExitReason)
    requires OnlySignals(e, e2) && ClosedOut(e2, e', input, p, reason, BookedAt(e2, input))
    ensures ClosedOut(e, e', input, p, reason, BookedAt(e, input))
  {
    hide Written, Won;
    assert e2.orders == e.orders && e2.log == e.log && e2.positions == e.positions && e2.cfg == e.cfg;
    assert BookedAt(e2, input) == BookedAt(e, input);
  }

  /** Over every run, paper or live, whenever an order would fill: the tick closes the position it finds held if and only
      if its take-profit or stop-loss is reached at the tick's price (and not left to the exchange), or, with neither
      reached, the needed number of predictions against it is confirmed after the minimum hold. The closed row's reason
      follows the level; otherwise nothing is ordered, written or closed. On paper what is found is what was held. */
  lemma ExitHappensIff(e: Engine, steps: seq<Step>, input: TickInput, p: Position)
    requires Fresh(e) && AllowedRun(e, steps) && Allowed(Run(e, steps), Tick(input))
    requires Synced(Run(e, steps), input).Held(input.symbol) == Some(p) && Fills(Run(e, steps), input)
    ensures var s := Run(e, steps);
            var b, e' := Synced(s, input), ProcessTick(s, input);
            && (e.cfg.paper ==> s.Held(input.symbol) == Some(p) && b == s.(clock := input.fillAt) && !b.cfg.managesExits)
            && (e'.Held(input.symbol).None? <==> ExitDue(b, input, p))
            && (if ExitDue(b, input, p) then ClosedOut(b, e', input, p, DueReason(p, input.price), BookedAt(b, input))
                else e'.positions == b.positions && e'.log == b.log && e'.orders == b.orders)
  {
    hide Run, Sync, ExitTick, Faith, ExitDue;
    var s := Run(e, steps);
    RunKeepsFaith(e, steps);
    SamePaper(e, steps);
    SyncedKeepsFaith(s, input);
    PaperUnsynced(s, input);
    ExitTickActs(Synced(s, input), input, p);
  }

  lemma PaperUnsynced(e: Engine, input: TickInput)
    ensures e.cfg.paper ==> Synced(e, input) == e.(clock := input.fillAt)
  {
  }

  /** Live, when the exchange no longer holds the position or rejects the order, a due exit comes down to one more
      synchronisation; a lost order writes nothing, and one in any other state is only listed. */
  lemma UnfilledExit(e: Engine, input: TickInput, p: Position)
    requires Faith(e, None) && KeysMatch(e) && e.Held(input.symbol) == Some(p) && !e.cfg.paper && ExitDue(e, input, p)
    requires !Fills(e, input)
    ensures var e' := ExitTick(e, input, p);
            var again := Sync(e, input.symbol, Some(input.price), input.resyncSeen, input.fillAt);
            if input.exitSeen.None? || input.exitSeen.value.quantity <= 0.0
               || (input.fill.Some? && input.fill.value.status == Rejected) then
              e'.positions == again.positions && e'.log == again.log
            else e'.positions == e.positions && e'.log == e.log
                 && |e'.orders| == |e.orders| + (if input.fill.Some? then 1 else 0)
  {
    hide Faith, Informed, Confirmed, TakesProfit, StopsOut, CheckExit, Sync, SubmitExit, ModelExitReason, Fills, Tune,
         RecordAction;
    InformedOnlySignals(e, input);
    LevelsDecide(p, input.price);
    if LevelReached(p, input.price) {
      UnfilledSubmit(e, e, input, p, DueReason(p, input.price));
    } else {
      assert Usable(input) by { if !Usable(input) { NothingConfirmed(e, input); } }
      ModelTurns(e, input, p);
      UnlessRecorded(e, input);
      UnfilledSubmit(e, Informed(e, input), input, p, DueReason(p, input.price));
    }
  }

  lemma UnfilledSubmit(e: Engine, e2: Engine, input: TickInput, p: Position, reason: ExitReason)
    requires OnlySignals(e, e2) && !e.cfg.paper && !Fills(e, input)
    ensures var e' := SubmitExit(e2, input, p, reason);
            var again := Sync(e, input.symbol, Some(input.price), input.resyncSeen, input.fillAt);
            if input.exitSeen.None? || input.exitSeen.value.quantity <= 0.0
               || (input.fill.Some? && input.fill.value.status == Rejected) then
              e'.positions == again.positions && e'.log == again.log
            else e'.positions == e.positions && e'.log == e.log
                 && |e'.orders| == |e.orders| + (if input.fill.Some? then 1 else 0)
  {
    hide Sync, Written;
    SyncIgnoresRest(e, e2, input);
    if input.fill.Some? {
      var f := input.fill.value;
      var order := Order(input.symbol, ClosingSide(p.side), f.quantity, f.price, f.status, true, input.fillAt, e2.runId);
      SyncIgnoresRest(e, Placed(e2, order), input);
    }
  }

  lemma SyncIgnoresRest(e: Engine, e2: Engine, input: TickInput)
    requires e2.cfg == e.cfg && e2.positions == e.positions && e2.log == e.log && e2.runId == e.runId
    ensures var a, b := Sync(e, input.symbol, Some(input.price), input.resyncSeen, input.fillAt),
                        Sync(e2, input.symbol, Some(input.price), input.resyncSeen, input.fillAt);
            a.positions == b.positions && a.log == b.log
  {
    hide RealQuantity, WithinTolerance, TakeProfitPrice, StopLossPrice, InferCloseReason, CloseHeld;
    var local := GetPosition(e.positions, input.symbol);
    if local.Some? {
      var price := OrElse(Some(input.price), local.value.entryPrice);
      CloseIgnoresRest(e, e2, input, price, InferCloseReason(local.value, price));
    }
  }

  lemma CloseIgnoresRest(e: Engine, e2: Engine, input: TickInput, price: real, reason: ExitReason)
    requires e2.positions == e.positions && e2.log == e.log
    ensures var a, b := CloseHeld(e, input.symbol, price, reason, input.fillAt),
                        CloseHeld(e2, input.symbol, price, reason, input.fillAt);
            a.positions == b.positions && a.log == b.log
  {
    hide Close, Risk.RecordResult;
  }

  // ---------------------------------------------------------------- entries

  /** The strategy with this tick's adaptive percentages and scale in force. */
  function InForce(s: Strategy, tuning: Option<Tuning>): Strategy {
    if tuning.None? || tuning.value.dynamicExit.None? then s
    else
      var d := tuning.value.dynamicExit.value;
      s.(tpPct := if d.tp > 0.0 then d.tp else 0.0, slPct := if d.sl > 0.0 then d.sl else 0.0,
         scale := if d.scale > 1.0 then 1.0 else if d.scale < 0.1 then 0.1 else d.scale)
  }

  /** The needed predictions of the signal's own direction, in a mode that trades it. */
  predicate Signalled(e: Engine, input: TickInput) {
    && Usable(input)
    && var action := input.prediction.value.action;
    && Confirmed(e, input, action)
    && ((action == Buy && e.policy.mode in {LongOnly, LongShort}) || (action == Sell && e.policy.mode == LongShort))
  }

  function Wanted(e: Engine, input: TickInput): Option<Intent>
    requires input.prediction.Some?
  {
    InForce(e.strategy, input.tuning).Decide(input.symbol, input.prediction.value, input.price, input.balance)
  }

  lemma CandidateIff(e: Engine, input: TickInput)
    requires Faith(e, None)
    ensures SoftCandidate(Informed(e, input), input) ==
            if Signalled(e, input) then Wanted(e, input) else None
  {
    hide Faith, Confirmed, Strategy.Decide, Policy.IsConsecutive, Tune;
    if Usable(input) {
      PolicyConfirms(e, input, Buy);
      PolicyConfirms(e, input, Sell);
      UnlessRecorded(e, input);
      TunedStrategyIs(e, input);
      HoldDecidesNothing(InForce(e.strategy, input.tuning), input);
    } else {
      NothingConfirmed(e, input);
    }
  }

  lemma HoldDecidesNothing(s: Strategy, input: TickInput)
    requires Usable(input)
    ensures input.prediction.value.action == Hold ==>
              s.Decide(input.symbol, input.prediction.value, input.price, input.balance) == None
  {
  }

  lemma TunedStrategyIs(e: Engine, input: TickInput)
    ensures Tune(e, input.tuning).strategy == InForce(e.strategy, input.tuning)
    ensures Informed(e, input).strategy == InForce(e.strategy, input.tuning)
  {
  }

  /** No loss pause is running. */
  predicate Unpaused(e: Engine, input: TickInput) {
    e.risk.pausedUntil.None? || input.gateAt >= e.risk.pausedUntil.value
  }

  function EquityAt(e: Engine, input: TickInput): real {
    if input.balance > 0.0 then input.balance else e.strategy.fallbackEquity
  }

  /** Sells minus buys since midnight, under the run id in force. */
  function TodaysFigure(e: Engine, input: TickInput): real {
    DailyPnl(e.trades, Today(e.runId, input.gateAt))
  }

  /** The day lost no more than the percentage of equity, or than the fixed limit without one. */
  predicate DayWithinLimit(e: Engine, input: TickInput) {
    if EquityAt(e, input) > 0.0 && e.risk.cfg.dailyLossPct > 0.0 then
      TodaysFigure(e, input) + EquityAt(e, input) * e.risk.cfg.dailyLossPct >= 0.0
    else TodaysFigure(e, input) >= e.risk.cfg.dailyLossLimit
  }

  /** What the gate takes to be held: the adapter's net quantity, or what the exchange lists. */
  function HeldNow(e: Engine, input: TickInput): real {
    if e.cfg.paper then PaperQuantity(e.paper, input.symbol) else HeldQuantity(input.livePositions, input.symbol)
  }

  predicate PositionWithin(e: Engine, held: real, side: OrderSide, quantity: real) {
    var max := e.risk.cfg.maxPositionQty;
    max > 0.0 ==> if side == BuySide then -max <= held + quantity <= max else -max <= held - quantity <= max
  }

  /** Five cents of tolerance; no limit without equity, percentage or price. */
  predicate NotionalWithin(e: Engine, equity: real, quantity: real, price: Option<real>) {
    equity > 0.0 && e.risk.cfg.maxNotionalPct > 0.0 && price.Some? ==>
      var bound := equity * e.risk.cfg.maxNotionalPct + 0.05;
      price.value == 0.0 || -bound <= quantity * price.value <= bound
  }

  /** None of the run's newest fifty orders on the symbol is of that side within the window. */
  predicate NoneRecent(e: Engine, input: TickInput, side: OrderSide) {
    forall o :: o in RecentOrders(e.orders, e.runId, input.symbol, 50) && o.symbol == input.symbol && o.side == side ==>
      o.createdAt < input.gateAt - e.risk.cfg.duplicateWindowSeconds * 1_000_000
  }

  predicate GatesOpen(e: Engine, input: TickInput, side: OrderSide, quantity: real, price: Option<real>) {
    && Unpaused(e, input) && DayWithinLimit(e, input)
    && PositionWithin(e, HeldNow(e, input), side, quantity)
    && NotionalWithin(e, EquityAt(e, input), quantity, price)
    && NoneRecent(e, input, side)
  }

  lemma DuplicateMeans(orders: seq<Order>, intent: Intent, cutoff: Time)
    ensures IsDuplicate(orders, intent, cutoff) <==>
            !(forall o :: o in orders && o.symbol == intent.symbol && o.side == intent.side ==> o.createdAt < cutoff)
  {
  }

  lemma ShownHeld(e: Engine, input: TickInput)
    ensures HeldQuantity(ShownPositions(e, input), input.symbol) == HeldNow(e, input)
  {
  }

  /** The risk gate passes exactly the intents its five limits allow, and names the first one broken. */
  lemma VerdictIff(e: Engine, input: TickInput, intent: Intent)
    requires intent.symbol == input.symbol
    ensures EntryVerdict(e, input, intent) ==
            if !Unpaused(e, input) then RejectLossPause
            else if !DayWithinLimit(e, input) then RejectDailyLoss
            else if !PositionWithin(e, HeldNow(e, input), intent.side, intent.quantity) then RejectPosition
            else if !NotionalWithin(e, EquityAt(e, input), intent.quantity, intent.price) then RejectNotional
            else if !NoneRecent(e, input, intent.side) then RejectDuplicate
            else Pass
  {
    hide HeldQuantity, RecentOrders, DailyPnl, IsDuplicate, ShownPositions, PaperQuantity, KstTodayStart, HeldNow;
    ShownHeld(e, input);
    DuplicateMeans(RecentOrders(e.orders, e.runId, input.symbol, 50), intent,
                   input.gateAt - e.risk.cfg.duplicateWindowSeconds * 1_000_000);
  }

  lemma VerdictSees(e: Engine, input: TickInput, intent: Intent)
    ensures EntryVerdict(Informed(e, input), input, intent) == EntryVerdict(e, input, intent)
  {
    hide Tune, Risk.Judge, RecentOrders, DailyPnl, Informed;
    InformedOnlySignals(e, input);
    EquityKept(e, input);
  }

  lemma EquityKept(e: Engine, input: TickInput)
    ensures Informed(e, input).strategy.fallbackEquity == e.strategy.fallbackEquity
  {
  }

  /** Everything an entry needs, on the engine as the tick finds it once synchronised. */
  predicate EntryDue(e: Engine, input: TickInput) {
    && e.Held(input.symbol).None? && e.trading && Signalled(e, input)
    && var intent := Wanted(e, input);
    && intent.Some?
    && GatesOpen(e, input, intent.value.side, intent.value.quantity, intent.value.price)
  }

  /** An order was sent: on paper always, live when the exchange answers. */
  predicate Answered(e: Engine, input: TickInput) {
    e.cfg.paper || input.fill.Some?
  }

  lemma SubmittedOnce(e: Engine, input: TickInput, intent: Intent)
    requires e.Held(input.symbol).None?
    ensures var e' := SubmitEntry(e, input, intent);
            if Answered(e, input) then
              |e'.orders| > |e.orders| && !e'.orders[|e.orders|].reduceOnly
            else e'.orders == e.orders && e'.positions == e.positions && e'.log == e.log
  {
    hide Fill;
  }

  lemma EntryTickIff(e: Engine, input: TickInput)
    requires Faith(e, None) && e.Held(input.symbol).None? && e.trading
    ensures var e' := EntryTick(e, input);
            if EntryDue(e, input) && Answered(e, input) then |e'.orders| > |e.orders| && !e'.orders[|e.orders|].reduceOnly
            else e'.orders == e.orders && e'.positions == e.positions && e'.log == e.log
  {
    hide Faith, Informed, SoftCandidate, EntryVerdict, SubmitEntry, Signalled, Wanted, GatesOpen;
    CandidateIff(e, input);
    SignalledUsable(e, input);
    InformedOnlySignals(e, input);
    if Usable(input) && Signalled(e, input) && Wanted(e, input).Some? {
      var intent := Wanted(e, input).value;
      WantedSymbol(e, input);
      GatesAre(e, input, intent);
      VerdictSees(e, input, intent);
      SubmittedOnce(Informed(e, input).(risk := Informed(e, input).risk.AfterCheck(input.gateAt)), input, intent);
    }
  }

  lemma SignalledUsable(e: Engine, input: TickInput)
    ensures Signalled(e, input) ==> Usable(input)
  {
  }

  lemma WantedSymbol(e: Engine, input: TickInput)
    requires input.prediction.Some? && Wanted(e, input).Some?
    ensures Wanted(e, input).value.symbol == input.symbol
  {
  }

  /** Over every run, paper or live: a tick submits an entry order if and only if, once synchronised, nothing is held, trading
      is on, the needed predictions of one direction are confirmed in a mode that trades it, the strategy sizes an order,
      no loss pause runs, the day's figure is within its limit, position and notional stay within theirs, none of the newest
      orders is a duplicate, and the exchange answers. Otherwise a flat engine orders, opens and writes nothing. */
  lemma EntryHappensIff(e: Engine, steps: seq<Step>, input: TickInput)
    requires Fresh(e) && AllowedRun(e, steps) && Allowed(Run(e, steps), Tick(input))
    ensures var s := Run(e, steps);
            var b, e' := Synced(s, input), ProcessTick(s, input);
            && b.orders == s.orders
            && (SubmitsEntry(s, input) <==> EntryDue(b, input) && Answered(b, input))
            && (b.Held(input.symbol).None? && !SubmitsEntry(s, input) ==>
                  e'.orders == b.orders && e'.positions == b.positions && e'.log == b.log)
  {
    hide Run, Sync, ExitTick, EntryTick, Faith, EntryDue;
    var s := Run(e, steps);
    RunKeepsFaith(e, steps);
    SyncedKeepsFaith(s, input);
    SyncKeepsOrders(s, input.symbol, Some(input.price), input.syncSeen, input.syncAt);
    var b := Synced(s, input);
    EntryDueFlat(b, input);
    if b.Held(input.symbol).Some? {
      ExitTickReduces(b, input, b.Held(input.symbol).value);
    } else if b.trading {
      EntryTickIff(b, input);
    }
  }

  lemma EntryDueFlat(e: Engine, input: TickInput)
    ensures EntryDue(e, input) ==> e.Held(input.symbol).None? && e.trading
  {
  }

  /** The position a filled entry opens, and the order it was: on paper exactly what the strategy wanted, live what the
      exchange reports of it. It opens only when filled at a known price. */
  ghost predicate EntryWritten(e: Engine, e': Engine, input: TickInput, intent: Intent)
    requires |e'.orders| > |e.orders| && Answered(e, input)
  {
    var o := e'.orders[|e.orders|];
    && o.symbol == input.symbol && o.side == intent.side && o.runId == e.runId && o.createdAt == input.fillAt
    && (if e.cfg.paper then o.quantity == intent.quantity && o.price == intent.price && o.status == Filled
        else o.quantity == input.fill.value.quantity && o.price == input.fill.value.price
             && o.status == input.fill.value.status)
    && if o.status == Filled && o.price.Some? then
         var p := Position(input.symbol, if intent.side == BuySide then Long else Short, o.quantity, o.price.value, intent.tp,
                           intent.sl, input.fillAt, e.runId);
         e'.positions == e.positions[input.symbol := p] && e'.log == e.log + [Row(p, OpenRow, input.fillAt)]
       else e'.positions == e.positions && e'.log == e.log
  }

  lemma SubmittedAs(e: Engine, input: TickInput, intent: Intent)
    requires e.Held(input.symbol).None? && Answered(e, input) && intent.symbol == input.symbol
    requires e.cfg.paper ==> intent.price.Some? && intent.price.value == OrElse(intent.price, input.price)
    ensures |SubmitEntry(e, input, intent).orders| > |e.orders|
    ensures EntryWritten(e, SubmitEntry(e, input, intent), input, intent)
  {
    hide Fill;
  }

  lemma WrittenFromEither(e: Engine, e2: Engine, e': Engine, input: TickInput, intent: Intent)
    requires e2.cfg == e.cfg && e2.positions == e.positions && e2.log == e.log && e2.orders == e.orders && e2.runId == e.runId
    requires |e'.orders| > |e2.orders| && Answered(e, input) && EntryWritten(e2, e', input, intent)
    ensures EntryWritten(e, e', input, intent)
  {
  }

  lemma EntryTickWrites(e: Engine, input: TickInput)
    requires Faith(e, None) && EntryDue(e, input) && Answered(e, input)
    ensures |EntryTick(e, input).orders| > |e.orders| && EntryWritten(e, EntryTick(e, input), input, Wanted(e, input).value)
  {
    hide Faith, Informed, SoftCandidate, EntryVerdict, SubmitEntry, Signalled, Strategy.Decide, GatesOpen, EntryWritten;
    CandidateIff(e, input);
    SignalledUsable(e, input);
    InformedOnlySignals(e, input);
    var intent := Wanted(e, input).value;
    WantedSymbol(e, input);
    GatesAre(e, input, intent);
    VerdictSees(e, input, intent);
    IntentOf(InForce(e.strategy, input.tuning), input.symbol, input.prediction.value, input.price, input.balance);
    var e2 := Informed(e, input).(risk := Informed(e, input).risk.AfterCheck(input.gateAt));
    SubmittedAs(e2, input, intent);
    WrittenFromEither(e, e2, SubmitEntry(e2, input, intent), input, intent);
  }

  lemma GatesAre(e: Engine, input: TickInput, intent: Intent)
    requires intent.symbol == input.symbol
    ensures EntryVerdict(e, input, intent) == Pass <==> GatesOpen(e, input, intent.side, intent.quantity, intent.price)
  {
    hide EntryVerdict, Unpaused, DayWithinLimit, PositionWithin, NotionalWithin, NoneRecent, HeldNow, EquityAt;
    VerdictIff(e, input, intent);
  }

  /** What the submitted entry is, over every run: the strategy's order, and the position it opens once filled. */
  lemma EntryIsAsWanted(e: Engine, steps: seq<Step>, input: TickInput)
    requires Fresh(e) && AllowedRun(e, steps) && Allowed(Run(e, steps), Tick(input)) && SubmitsEntry(Run(e, steps), input)
    ensures var s := Run(e, steps);
            var b, e' := Synced(s, input), ProcessTick(s, input);
            && Answered(b, input) && input.prediction.Some? && Wanted(b, input).Some? && |e'.orders| > |b.orders|
            && EntryWritten(b, e', input, Wanted(b, input).value)
  {
    hide Run, Sync, ExitTick, EntryTick, Faith, SubmitsEntry, EntryWritten, Signalled, GatesOpen, Wanted;
    var s := Run(e, steps);
    EntryHappensIff(e, steps, input);
    RunKeepsFaith(e, steps);
    SyncedKeepsFaith(s, input);
    var b := Synced(s, input);
    SignalledUsable(b, input);
    EntryTickWrites(b, input);
  }

  // ---------------------------------------------------------------- what is recorded

  lemma RecordsAppend(trace: seq<Event>, ev: Event, symbol: Symbol)
    ensures RecordsOn(trace + [ev], symbol) ==
            RecordsOn(trace, symbol) + (if ev.Recorded? && ev.symbol == symbol then [ev.action] else [])
  {
    Appended(trace, ev);
  }

  lemma NothingRecorded(trace: seq<Event>, more: seq<Event>, symbol: Symbol)
    requires forall i :: 0 <= i < |more| ==> !more[i].Recorded?
    ensures RecordsOn(trace + more, symbol) == RecordsOn(trace, symbol)
    decreases |more|
  {
    if more == [] {
      assert trace + more == trace;
    } else {
      var last := more[|more| - 1];
      assert trace + more == trace + more[..|more| - 1] + [last];
      NothingRecorded(trace, more[..|more| - 1], symbol);
      RecordsAppend(trace + more[..|more| - 1], last, symbol);
    }
  }

  /** Events were only added, and none of them is a recorded prediction. */
  ghost predicate AddsNoRecord(e: Engine, e': Engine) {
    && |e'.trace| >= |e.trace| && e'.trace[..|e.trace|] == e.trace
    && forall i :: |e.trace| <= i < |e'.trace| ==> !e'.trace[i].Recorded?
  }

  lemma SameRecords(e: Engine, e': Engine, symbol: Symbol)
    requires AddsNoRecord(e, e')
    ensures RecordsOn(e'.trace, symbol) == RecordsOn(e.trace, symbol)
  {
    assert e'.trace == e.trace + e'.trace[|e.trace|..];
    NothingRecorded(e.trace, e'.trace[|e.trace|..], symbol);
  }

  lemma SyncAddsNoRecord(e: Engine, symbol: Symbol, mark: Option<real>, seen: Option<ExchangePosition>, at: Time)
    ensures AddsNoRecord(e, Sync(e, symbol, mark, seen, at))
  {
    hide RealQuantity, WithinTolerance, TakeProfitPrice, StopLossPrice, InferCloseReason, Close, Risk.RecordResult;
  }

  lemma ExitAddsNoRecord(e: Engine, input: TickInput, p: Position, reason: ExitReason)
    ensures AddsNoRecord(e, SubmitExit(e, input, p, reason))
  {
    hide Sync, SubmittedOrder, Close, Fill, Risk.RecordResult;
    SyncAddsNoRecord(e, input.symbol, Some(input.price), input.resyncSeen, input.fillAt);
    var order := SubmittedOrder(e.cfg, e.runId, input, ClosingSide(p.side), p.quantity, input.price, true);
    if order.Some? {
      SyncAddsNoRecord(Placed(e, order.value), input.symbol, Some(input.price), input.resyncSeen, input.fillAt);
    }
  }

  lemma EntryAddsNoRecord(e: Engine, input: TickInput, intent: Intent)
    ensures AddsNoRecord(e, SubmitEntry(e, input, intent))
  {
    hide SubmittedOrder, Fill;
  }

  lemma TuneAddsNoRecord(e: Engine, tuning: Option<Tuning>)
    ensures AddsNoRecord(e, Tune(e, tuning))
  {
    hide Strategy.SetDynamicExit;
  }

  /** The prediction is asked for: with a position held and no level reached, or flat with trading on. */
  predicate Asks(e: Engine, input: TickInput) {
    var held := e.Held(input.symbol);
    if held.Some? then !LevelReached(held.value, input.price) else e.trading
  }

  lemma AskedOnce(e: Engine, input: TickInput, symbol: Symbol)
    ensures RecordsOn(Informed(e, input).trace, symbol) ==
            RecordsOn(e.trace, symbol)
            + (if Usable(input) && symbol == input.symbol then [input.prediction.value.action] else [])
  {
    hide Tune, RecordsOn;
    TuneAddsNoRecord(e, input.tuning);
    SameRecords(e, Tune(e, input.tuning), symbol);
    if Usable(input) {
      RecordsAppend(Tune(e, input.tuning).trace, Recorded(input.symbol, input.prediction.value.action), symbol);
    }
  }

  lemma ExitTickRecords(e: Engine, input: TickInput, p: Position, symbol: Symbol)
    requires e.Held(input.symbol) == Some(p)
    ensures RecordsOn(ExitTick(e, input, p).trace, symbol) ==
            RecordsOn(if Asks(e, input) then Informed(e, input).trace else e.trace, symbol)
  {
    hide SubmitExit, Tune, CheckExit, TakesProfit, StopsOut, ModelExitReason, RecordsOn, AddsNoRecord, RecordAction;
    LevelsDecide(p, input.price);
    var hit := CheckExit(p, input.price);
    if hit.Some? {
      ExitAddsNoRecord(e, input, p, hit.value);
      SameRecords(e, SubmitExit(e, input, p, hit.value), symbol);
    } else if Usable(input) {
      var e2 := Informed(e, input);
      var reason := ModelExitReason(e2.policy, p);
      if reason.Some? {
        ExitAddsNoRecord(e2, input, p, reason.value);
        SameRecords(e2, SubmitExit(e2, input, p, reason.value), symbol);
      }
    }
  }

  lemma EntryTickRecords(e: Engine, input: TickInput, symbol: Symbol)
    ensures RecordsOn(EntryTick(e, input).trace, symbol) == RecordsOn(Informed(e, input).trace, symbol)
  {
    hide SubmitEntry, Informed, SoftCandidate, EntryVerdict, RecordsOn, AddsNoRecord;
    var e1 := Informed(e, input);
    var intent := SoftCandidate(e1, input);
    if intent.Some? {
      var e2 := e1.(risk := e1.risk.AfterCheck(input.gateAt));
      EntryAddsNoRecord(e2, input, intent.value);
      SameRecords(e2, SubmitEntry(e2, input, intent.value), symbol);
    }
  }

  /** A tick records the prediction it asked for, on its own symbol, exactly once, and nothing else; one that waits for a
      candle is not recorded. */
  lemma TickRecords(e: Engine, input: TickInput, symbol: Symbol)
    ensures RecordsOn(ProcessTick(e, input).trace, symbol) ==
            RecordsOn(e.trace, symbol)
            + (if Usable(input) && symbol == input.symbol && Asks(Synced(e, input), input) then [input.prediction.value.action]
               else [])
  {
    hide Sync, ExitTick, EntryTick, RecordsOn, AddsNoRecord, Usable, LevelReached, Informed;
    SyncAddsNoRecord(e, input.symbol, Some(input.price), input.syncSeen, input.syncAt);
    SameRecords(e, Sync(e, input.symbol, Some(input.price), input.syncSeen, input.syncAt), symbol);
    var b := Synced(e, input);
    AskedOnce(b, input, symbol);
    if b.Held(input.symbol).Some? {
      ExitTickRecords(b, input, b.Held(input.symbol).value, symbol);
    } else if b.trading {
      EntryTickRecords(b, input, symbol);
    }
  }

  // ---------------------------------------------------------------- the other steps

  /** A reconfiguration replaces settings, run id and every risk limit but the position cap and the fixed loss limit; it empties
      the windows exactly when it changes the number of confirmations or the mode, and leaves everything else alone. */
  lemma ReconfigureTakesEffect(e: Engine, cfg: EngineConfig, run: RunId, required: int, mode: Mode, risk: RiskConfig)
    ensures var e' := Apply(e, Reconfigure(cfg, run, required, mode, risk));
            var n := if required < 1 then 1 else required;
            && e' == e.(cfg := cfg, runId := run, policy := e'.policy, risk := e'.risk, trace := e'.trace)
            && e'.policy.required == n && e'.policy.mode == mode
            && e'.policy.history == (if e.policy.required == n && e.policy.mode == mode then e.policy.history else map[])
            && e'.risk.losses == e.risk.losses && e'.risk.pausedUntil == e.risk.pausedUntil
            && e'.risk.cfg == RiskConfig(e.risk.cfg.maxPositionQty, e.risk.cfg.dailyLossLimit, risk.duplicateWindowSeconds,
                                         risk.maxNotionalPct, risk.dailyLossPct, risk.maxConsecutiveLosses, risk.pauseMinutes)
  {
  }

  /** A new process starts with trading off, empty windows, a clear breaker and an empty adapter, on the same stores; a
      trading switch changes the flag alone. */
  lemma RestartStartsOver(e: Engine, s: Step, on: bool)
    requires s.NewProcess?
    ensures var e' := Apply(e, s);
            && !e'.trading && e'.policy.history == map[] && e'.risk.losses == 0 && e'.risk.pausedUntil == None
            && e'.paper == map[] && e'.orders == e.orders && e'.trades == e.trades && e'.log == e.log
            && e'.cfg == s.newCfg && e'.runId == s.newRun && e'.strategy == s.strategy && e'.risk.cfg == s.newRisk
    ensures Apply(e, SetTrading(on)) == e.(trading := on)
  {
  }
}
