/** Concrete paper runs that show the risk gate a wrong picture: a position held across midnight, or across a switch of
    the run id (as choosing another predictor does), yields a daily figure that nobody realised, and a switch lets an
    entry through too soon. */
module GateMisreads {
  import opened Domain
  import opened PositionManagement
  import opened SignalPolicies
  import opened RiskChecking
  import opened Strategies
  import opened Stores
  import opened PaperTrading
  import opened EngineModel
  import opened TickShapes
  import opened LedgerConservation
  import opened EntrySpacing

  const X: Symbol := "XRPUSDT"
  const FIRST: RunId := "prod_timesfm_run"
  const SECOND_RUN: RunId := "prod_fincast_run"
  const CFG: EngineConfig := EngineConfig(true, false, false, 0, 0.0, 0.0, 5.0)
  const LIMITS: RiskConfig := RiskConfig(0.0, -1000.0, 180, 0.0, 0.0, 0, 0)
  const SIZELESS: Strategy := Strategy(0.1, 0.0, 1.0, None, 0.0)
  const START: Engine := Engine(CFG, FIRST, true, map[], Policy(1, LongOnly, map[]), Risk(LIMITS, 0, None), SIZELESS, map[], [],
                                [], [], 0, 0, [])

  /** A tick at a price, with a BUY prediction or none. */
  function At(second: Time, price: real, buy: bool): TickInput {
    TickInput(X, price, second * SECOND + 1, second * SECOND + 2, second * SECOND + 3, None,
              if buy then Some(Prediction(Buy, None, false)) else None, 0.0, None, None, None, [], None, [])
  }

  function Long100(at: Time, run: RunId): Position {
    Position(X, Long, 1.0, 100.0, Some(110.0), None, at, run)
  }

  /** What the scenario keeps the same from tick to tick. */
  predicate Eager(e: Engine) {
    && e.cfg == CFG && e.trading && e.policy.required == 1 && e.policy.mode == LongOnly
    && e.strategy == SIZELESS && e.risk.cfg == LIMITS && e.risk.pausedUntil == None
  }

  lemma BuyTick(e: Engine, second: Time)
    requires Eager(e) && e.positions == map[]
    requires RecentOrders(e.orders, e.runId, X, RECENT_ORDER_LIMIT) == []
    requires DailyPnl(e.trades, Today(e.runId, second * SECOND + 2)) >= -1000.0
    ensures var input := At(second, 100.0, true);
            var e' := ProcessTick(e, input);
            && Eager(e') && e'.runId == e.runId
            && e'.positions == map[X := Long100(input.fillAt, e.runId)]
            && e'.log == e.log + [OpenedRow(Long100(input.fillAt, e.runId), input.fillAt)]
            && e'.trades == e.trades + [PaperTrade(e, input, BuySide, 1.0, 100.0)]
            && e'.orders == e.orders + [PaperOrder(e, input, BuySide, 1.0, 100.0, false)]
            && Written(e'.trace) == Written(e.trace) + [(OpenedRow(Long100(input.fillAt, e.runId), input.fillAt), e.runId)]
  {
    hide RecentOrders, DailyPnl, Written, Fill, KstTodayStart;
    var input := At(second, 100.0, true);
    var e0 := Ready(e, input);
    var e1 := Informed(e0, input);
    assert e1.policy.Window(X) == [Buy];
    assert SoftCandidate(e1, input) == Some(Intent(X, BuySide, 1.0, Some(100.0), Some(110.0), None));
    assert EntryVerdict(e1, input, SoftCandidate(e1, input).value) == Pass;
    InformedOnlySignals(e0, input);
    PaperEntry(e1.(risk := e1.risk.AfterCheck(input.gateAt)), input, SoftCandidate(e1, input).value,
               Long100(input.fillAt, e.runId));
  }

  lemma TakeProfitTick(e: Engine, second: Time, p: Position)
    requires Eager(e) && e.positions == map[X := p] && p == Long100(p.openedAt, p.runId)
    ensures var input := At(second, 110.0, false);
            var e' := ProcessTick(e, input);
            var row := ClosedRowOf(ClosedPosition(p, 110.0, TakeProfit, 10.0), input.fillAt);
            && Eager(e') && e'.runId == e.runId && e'.positions == map[] && e'.log == e.log + [row]
            && e'.trades == e.trades + [PaperTrade(e, input, SellSide, 1.0, 110.0)]
            && e'.orders == e.orders + [PaperOrder(e, input, SellSide, 1.0, 110.0, true)]
            && Written(e'.trace) == Written(e.trace) + [(row, e.runId)]
  {
    hide Written, Fill;
    var input := At(second, 110.0, false);
    assert Close(p, 110.0, TakeProfit) == ClosedPosition(p, 110.0, TakeProfit, 10.0);
    PaperExit(Ready(e, input), input, p, TakeProfit);
  }

  const SWITCH: Step := Reconfigure(CFG, SECOND_RUN, 1, LongOnly, LIMITS)

  lemma SwitchStep(e: Engine)
    requires Eager(e)
    ensures var e' := Apply(e, SWITCH);
            Eager(e') && e' == e.(runId := SECOND_RUN)
  {
  }

  lemma Extend(e: Engine, steps: seq<Step>, s: Step)
    requires AllowedRun(e, steps) && Allowed(Run(e, steps), s)
    ensures AllowedRun(e, steps + [s]) && Run(e, steps + [s]) == Apply(Run(e, steps), s)
    ensures CoveringRun(e, steps) && RecoversAllHeld(Run(e, steps), s) ==> CoveringRun(e, steps + [s])
  {
    hide Apply, Allowed;
    assert (steps + [s])[..|steps|] == steps;
  }

  lemma Begin(e: Engine)
    ensures Run(e, []) == e && AllowedRun(e, []) && CoveringRun(e, [])
    ensures Fresh(e) ==> Written(e.trace) == []
  {
  }

  function Bought(second: Time): seq<Step> {
    [] + [Tick(At(second, 100.0, true))]
  }

  function Sold(second: Time): seq<Step> {
    Bought(second) + [Tick(At(second + 1, 110.0, false))]
  }

  /** Bought at 100 in the given second, taken profit of at 110 in the next, under another run id if that is switched. */
  function RoundTrip(second: Time, switched: bool): seq<Step> {
    if switched then Bought(second) + [SWITCH] + [Tick(At(second + 1, 110.0, false))] else Sold(second)
  }

  lemma AfterBuying(second: Time)
    requires second >= 0
    ensures Fresh(START) && AllowedRun(START, Bought(second)) && CoveringRun(START, Bought(second))
    ensures var input, s := At(second, 100.0, true), Run(START, Bought(second));
            && Eager(s) && s.runId == FIRST && s.clock == input.fillAt
            && s.positions == map[X := Long100(input.fillAt, FIRST)]
            && s.log == [OpenedRow(Long100(input.fillAt, FIRST), input.fillAt)]
            && s.trades == [Trade(X, BuySide, 1.0, 100.0, 0.0, FIRST, input.fillAt)]
            && s.orders == [Order(X, BuySide, 1.0, Some(100.0), Filled, false, input.fillAt, FIRST)]
            && Written(s.trace) == [(s.log[0], FIRST)]
  {
    hide ProcessTick, KstTodayStart, Run, AllowedRun, CoveringRun, Written;
    Begin(START);
    Extend(START, [], Tick(At(second, 100.0, true)));
    BuyTick(START, second);
    ClockFollows(START, At(second, 100.0, true));
  }

  lemma ClockFollows(e: Engine, input: TickInput)
    requires Paper(e)
    ensures ProcessTick(e, input).clock == input.fillAt
  {
    hide ProcessTick, Approved, Due, Written, Fill;
    var o := PaperTick(e, input);
  }

  lemma AfterSelling(second: Time, switched: bool)
    requires second >= 0
    ensures AllowedRun(START, RoundTrip(second, switched)) && CoveringRun(START, RoundTrip(second, switched))
    ensures var s := Run(START, RoundTrip(second, switched));
            var bought, sold := At(second, 100.0, true).fillAt, At(second + 1, 110.0, false).fillAt;
            var run, p := if switched then SECOND_RUN else FIRST, Long100(bought, FIRST);
            && Eager(s) && s.runId == run && s.positions == map[] && s.clock == sold
            && s.orders == [Order(X, BuySide, 1.0, Some(100.0), Filled, false, bought, FIRST),
                            Order(X, SellSide, 1.0, Some(110.0), Filled, true, sold, run)]
            && s.trades == [Trade(X, BuySide, 1.0, 100.0, 0.0, FIRST, bought), Trade(X, SellSide, 1.0, 110.0, 0.0, run, sold)]
            && s.log == [OpenedRow(p, bought), ClosedRowOf(ClosedPosition(p, 110.0, TakeProfit, 10.0), sold)]
            && Written(s.trace) == [(s.log[0], FIRST), (s.log[1], run)]
  {
    hide ProcessTick, Written, Run, AllowedRun, CoveringRun, Fresh;
    AfterBuying(second);
    var held := Run(START, Bought(second));
    var before := Bought(second);
    if switched {
      SwitchStep(held);
      Extend(START, before, SWITCH);
      before := before + [SWITCH];
    }
    var input := At(second + 1, 110.0, false);
    Extend(START, before, Tick(input));
    TakeProfitTick(Run(START, before), second + 1, held.positions[X]);
    ClockFollows(Run(START, before), input);
  }

  /** A purchase out of scope and a sale in scope: the figure is the whole sale. */
  lemma SaleAlone(a: Trade, b: Trade, c: Scope, bought: Row, sold: Row)
    requires !c.Covers(a.runId, a.executedAt) && c.Covers(b.runId, b.executedAt)
    requires bought.status.OpenRow? && c.Covers(b.runId, sold.snapshotAt)
    ensures DailyPnl([a, b], c) == CashFlow(b)
    ensures RealizedUnder([(bought, a.runId), (sold, b.runId)], c) == ResultOf(sold)
  {
    AppendTrade([], a, c);
    AppendTrade([a], b, c);
    assert [] + [a] == [a] && [a] + [b] == [a, b];
    AppendWritten([], bought, a.runId, c);
    AppendWritten([(bought, a.runId)], sold, b.runId, c);
    var w := [(bought, a.runId), (sold, b.runId)];
    assert [] + [(bought, a.runId)] == [(bought, a.runId)] && [(bought, a.runId)] + [(sold, b.runId)] == w;
  }

  /** Buy one at 100, switch the run id, take profit at 110 a second later. Nothing is held, 10 was realised under the
      run in force, and the gate's figure for it is 110: it counts the sale and not the purchase. */
  lemma SwitchMisleadsGate()
    ensures Fresh(START) && START.cfg.paper && AllowedRun(START, RoundTrip(1, true)) && CoveringRun(START, RoundTrip(1, true))
    ensures var s := Run(START, RoundTrip(1, true));
            var today := Today(s.runId, s.clock);
            && s.positions == map[] && s.runId == SECOND_RUN
            && DailyPnl(s.trades, today) == 110.0 && RealizedUnder(Written(s.trace), today) == 10.0
  {
    hide ProcessTick, DailyPnl, RealizedUnder, Run, AllowedRun, CoveringRun;
    AfterSelling(1, true);
    var s := Run(START, RoundTrip(1, true));
    SaleAlone(s.trades[0], s.trades[1], Today(s.runId, s.clock), s.log[0], s.log[1]);
  }

  /** The second before midnight in Korea, 15:00 UTC. */
  const LATE: Time := 15 * 3600 - 1

  /** Buy one at 100 in the last second of the day, take profit at 110 in the first of the next. The run id never changes,
      nothing is held, 10 was realised today, and the gate's figure is 110. */
  lemma MidnightMisleadsGate()
    ensures Fresh(START) && START.cfg.paper && AllowedRun(START, RoundTrip(LATE, false))
    ensures CoveringRun(START, RoundTrip(LATE, false)) && KeepsRunId(RoundTrip(LATE, false), START.runId)
    ensures var s := Run(START, RoundTrip(LATE, false));
            var today := Today(s.runId, s.clock);
            && s.positions == map[] && s.runId == FIRST
            && DailyPnl(s.trades, today) == 110.0 && RealizedUnder(Written(s.trace), today) == 10.0
  {
    hide ProcessTick, DailyPnl, RealizedUnder, Run, AllowedRun, CoveringRun;
    AfterSelling(LATE, false);
    var s := Run(START, RoundTrip(LATE, false));
    SaleAlone(s.trades[0], s.trades[1], Today(s.runId, s.clock), s.log[0], s.log[1]);
  }

  lemma {:induction false} NothingListed(orders: seq<Order>, run: RunId, symbol: Symbol, limit: nat)
    requires forall i :: 0 <= i < |orders| ==> orders[i].runId != run
    ensures OrdersOf(orders, run, symbol) == [] && RecentOrders(orders, run, symbol, limit) == []
  {
    if orders != [] {
      NothingListed(orders[..|orders| - 1], run, symbol, limit);
    }
  }

  lemma NoFlow(trades: seq<Trade>, c: Scope)
    requires forall i :: 0 <= i < |trades| ==> trades[i].runId != c.run
    ensures DailyPnl(trades, c) == 0.0
  {
  }

  /** Buy, take profit, switch the run id, buy again two seconds after the first purchase: the duplicate window is 180
      seconds, but the gate's list for the new run is empty and the order goes out. */
  lemma SwitchSkipsSpacing()
    ensures Fresh(START) && START.cfg.paper && AllowedRun(START, Sold(1) + [SWITCH])
    ensures var s, input := Run(START, Sold(1) + [SWITCH]), At(3, 100.0, true);
            && Allowed(s, Tick(input)) && SubmitsEntry(s, input)
            && var entry := ProcessTick(s, input).orders[|s.orders|];
            && !AllFar(entry, s.orders, s.risk.cfg) && entry.createdAt - s.orders[0].createdAt == 2 * SECOND
  {
    hide ProcessTick, DailyPnl, RecentOrders, Run, AllowedRun, CoveringRun, Written, KstTodayStart;
    AfterSelling(1, false);
    Extend(START, Sold(1), SWITCH);
    SwitchStep(Run(START, Sold(1)));
    var s := Run(START, Sold(1) + [SWITCH]);
    NothingListed(s.orders, SECOND_RUN, X, RECENT_ORDER_LIMIT);
    NoFlow(s.trades, Today(SECOND_RUN, At(3, 100.0, true).gateAt));
    BuyTick(s, 3);
    assert s.orders[0] in s.orders && SameWay(s.orders[0], X, BuySide);
  }
}
