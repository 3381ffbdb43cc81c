/** One engine: the tick machine of engine/core.py as a function on the state of all its
    components. What the class TradingEngine does is proved equal to these functions. */
module EngineModel {
  import opened Domain
  import opened PositionManagement
  import opened Exits
  import opened SignalPolicies
  import opened RiskChecking
  import opened Strategies
  import opened Stores
  import opened PaperTrading

  datatype EngineConfig = EngineConfig(
    paper: bool,
    ocoEnabled: bool,
    managesExits: bool,
    minHoldSeconds: int,
    tpRule: real,
    slRule: real,
    minOrderNotional: real)

  /** What happened to the signal windows and the snapshot log, in order: each row with the run it was written
      under, and which rows the synchronisation opened. A record for stating properties: no decision reads it. */
  datatype Event =
    | Recorded(symbol: Symbol, action: Action)
    | WindowsCleared
    | WindowReset(symbol: Symbol)
    | Logged(row: Row, run: RunId)
    | Adopted(symbol: Symbol)
    | Restarted

  /** The state of every component. The last three fields decide nothing: how many rows the log
      held when this process started, the last clock reading, and the record of events. */
  datatype Engine = Engine(
    cfg: EngineConfig,
    runId: RunId,
    trading: bool,
    positions: Book,
    policy: Policy,
    risk: Risk,
    strategy: Strategy,
    paper: PaperBook,
    orders: seq<Order>,
    trades: seq<Trade>,
    log: seq<Row>,
    bootedAt: nat,
    clock: Time,
    trace: seq<Event>)
  {
    function Held(symbol: Symbol): Option<Position> {
      GetPosition(positions, symbol)
    }
  }

  datatype DynamicExit = DynamicExit(tp: real, sl: real, scale: real)

  /** What the autopilot pushes into the policy and the strategy before a prediction. */
  datatype Tuning = Tuning(required: int, dynamicExit: Option<DynamicExit>)

  /** The exchange's answer to a submitted order. */
  datatype FillReport = FillReport(status: OrderStatus, quantity: real, price: Option<real>)

  /** A market tick, with every answer the outside world gives while it is processed:
      clock readings, autopilot tuning, prediction, wallet balance and exchange replies. */
  datatype TickInput = TickInput(
    symbol: Symbol,
    price: real,
    syncAt: Time,
    gateAt: Time,
    fillAt: Time,
    tuning: Option<Tuning>,
    prediction: Option<Prediction>,
    balance: real,
    syncSeen: Option<ExchangePosition>,
    exitSeen: Option<ExchangePosition>,
    resyncSeen: Option<ExchangePosition>,
    livePositions: seq<(Symbol, real)>,
    fill: Option<FillReport>,
    exitOrders: seq<Order>)

  // ---------------------------------------------------------------- opening and closing

  function OpenHeld(e: Engine, p: Position, at: Time): Engine {
    var row := OpenedRow(p, at);
    e.(positions := e.positions[p.symbol := p], log := e.log + [row], trace := e.trace + [Logged(row, e.runId)])
  }

  function ResetWindow(e: Engine, symbol: Symbol): Engine {
    e.(policy := e.policy.Reset(symbol), trace := e.trace + [WindowReset(symbol)])
  }

  /** Close, log the closed row, forget the signals, feed the loss breaker. */
  function CloseHeld(e: Engine, symbol: Symbol, exitPrice: real, reason: ExitReason, at: Time): Engine {
    if GetPosition(e.positions, symbol).None? then e
    else
      var c := Close(e.positions[symbol], exitPrice, reason);
      var row := ClosedRowOf(c, at);
      var e1 := e.(positions := e.positions - {symbol}, log := e.log + [row], trace := e.trace + [Logged(row, e.runId)]);
      ResetWindow(e1, symbol).(risk := e.risk.RecordResult(c.pnl, at))
  }

  // ---------------------------------------------------------------- synchronisation with the exchange

  const DEFAULT_MIN_NOTIONAL: real := 5.0
  const QUANTITY_TOLERANCE: real := 0.000001

  function MinNotional(cfg: EngineConfig): real {
    if cfg.minOrderNotional > 0.0 then cfg.minOrderNotional else DEFAULT_MIN_NOTIONAL
  }

  predicate IsDust(cfg: EngineConfig, quantity: real, price: real) {
    quantity <= 0.0 || price <= 0.0 || quantity * price < MinNotional(cfg)
  }

  /** The exchange's quantity once dust is taken as flat. */
  function RealQuantity(cfg: EngineConfig, seen: Option<ExchangePosition>, mark: Option<real>): real {
    if seen.None? then 0.0
    else
      var q := seen.value.quantity;
      var price := OrElse(Some(seen.value.avgPrice), OrElse(mark, 0.0));
      if q > 0.0 && IsDust(cfg, q, price) then 0.0 else q
  }

  predicate WithinTolerance(localQty: real, exchangeQty: real) {
    AbsReal(localQty - exchangeQty) <= MaxReal(QUANTITY_TOLERANCE, exchangeQty * QUANTITY_TOLERANCE)
  }

  /** A position taken over from the exchange is opened and logged, but forgets no signals. */
  function Adopt(e: Engine, p: Position, at: Time): Engine {
    var e1 := OpenHeld(e, p, at);
    e1.(trace := e1.trace + [Adopted(p.symbol)])
  }

  function Sync(e: Engine, symbol: Symbol, mark: Option<real>, seen: Option<ExchangePosition>, at: Time): Engine {
    if e.cfg.paper then e
    else
      var local := GetPosition(e.positions, symbol);
      var q := RealQuantity(e.cfg, seen, mark);
      if local.Some? && q <= 0.0 then
        var exitPrice := OrElse(mark, local.value.entryPrice);
        CloseHeld(e, symbol, exitPrice, InferCloseReason(local.value, exitPrice), at)
      else if q <= 0.0 then e
      else
        var x := seen.value;
        if local.None? then
          Adopt(e, Position(symbol, x.side, q, x.avgPrice,
                            TakeProfitPrice(x.avgPrice, x.side, e.cfg.tpRule),
                            StopLossPrice(x.avgPrice, x.side, e.cfg.slRule), at, e.runId), at)
        else if local.value.side != x.side || !WithinTolerance(local.value.quantity, q) then
          Adopt(e, Position(symbol, x.side, q, OrElse(Some(x.avgPrice), local.value.entryPrice),
                            local.value.tp, local.value.sl, local.value.openedAt, e.runId), at)
        else e
  }

  // ---------------------------------------------------------------- signals

  function SetRequired(e: Engine, n: int): Engine {
    var p := e.policy.SetRequired(n);
    e.(policy := p, trace := if p == e.policy then e.trace else e.trace + [WindowsCleared])
  }

  function SetMode(e: Engine, m: Mode): Engine {
    var p := e.policy.SetMode(m);
    e.(policy := p, trace := if p == e.policy then e.trace else e.trace + [WindowsCleared])
  }

  function Tune(e: Engine, tuning: Option<Tuning>): Engine {
    if tuning.None? then e
    else
      var e1 := SetRequired(e, tuning.value.required);
      if tuning.value.dynamicExit.None? then e1
      else
        var d := tuning.value.dynamicExit.value;
        e1.(strategy := e1.strategy.SetDynamicExit(d.tp, d.sl, d.scale))
  }

  function RecordAction(e: Engine, symbol: Symbol, action: Action): Engine {
    e.(policy := e.policy.Record(symbol, action), trace := e.trace + [Recorded(symbol, action)])
  }

  // ---------------------------------------------------------------- orders

  /** The order an intent turns into: filled at once on paper, as the exchange reports it when live. */
  function SubmittedOrder(cfg: EngineConfig, run: RunId, input: TickInput, side: OrderSide, quantity: real, price: real,
                          reduceOnly: bool): Option<Order>
  {
    if cfg.paper then Some(Order(input.symbol, side, quantity, Some(price), Filled, reduceOnly, input.fillAt, run))
    else if input.fill.None? then None
    else
      var f := input.fill.value;
      Some(Order(input.symbol, side, f.quantity, f.price, f.status, reduceOnly, input.fillAt, run))
  }

  /** The order is stored; on paper it has also moved the adapter's position. */
  function Placed(e: Engine, order: Order): Engine {
    e.(orders := e.orders + [order],
       paper := if e.cfg.paper then Fill(e.paper, order.symbol, order.side, order.quantity, OrElse(order.price, 0.0))
                else e.paper)
  }

  function Traded(e: Engine, input: TickInput, order: Order): Engine {
    e.(trades := e.trades + [Trade(order.symbol, order.side, order.quantity, OrElse(order.price, input.price), 0.0,
                                        e.runId, input.fillAt)])
  }

  // ---------------------------------------------------------------- exit

  function SubmitExit(e: Engine, input: TickInput, p: Position, reason: ExitReason): Engine {
    if !e.cfg.paper && (input.exitSeen.None? || input.exitSeen.value.quantity <= 0.0) then
      Sync(e, input.symbol, Some(input.price), input.resyncSeen, input.fillAt)
    else
      var order := SubmittedOrder(e.cfg, e.runId, input, ClosingSide(p.side), p.quantity, input.price, true);
      if order.None? then e else ExitReported(Placed(e, order.value), input, order.value, reason)
  }

  function ExitReported(e: Engine, input: TickInput, order: Order, reason: ExitReason): Engine {
    if order.status == Rejected then Sync(e, input.symbol, Some(input.price), input.resyncSeen, input.fillAt)
    else if order.status == Filled then
      CloseHeld(Traded(e, input, order), input.symbol, OrElse(order.price, input.price), reason, input.fillAt)
    else e
  }

  function ModelExitReason(policy: Policy, p: Position): Option<ExitReason> {
    if p.side == Long && policy.AllowsLongExit(p.symbol) then Some(ModelSell)
    else if p.side != Long && policy.AllowsShortExit(p.symbol) then Some(ModelBuy)
    else None
  }

  function ExitTick(e: Engine, input: TickInput, p: Position): Engine {
    var hit := CheckExit(p, input.price);
    if hit.Some? then
      if e.cfg.ocoEnabled && e.cfg.managesExits then e else SubmitExit(e, input, p, hit.value)
    else
      var e1 := Tune(e, input.tuning);
      if input.prediction.None? || input.prediction.value.awaitingCandle then e1
      else
        var e2 := RecordAction(e1, input.symbol, input.prediction.value.action);
        var reason := ModelExitReason(e2.policy, p);
        if reason.None? || input.gateAt - p.openedAt < e2.cfg.minHoldSeconds * SECOND then e2
        else SubmitExit(e2, input, p, reason.value)
  }

  // ---------------------------------------------------------------- entry

  function EntryPosition(input: TickInput, intent: Intent, order: Order, run: RunId): Position
    requires order.price.Some?
  {
    Position(input.symbol, if order.side == BuySide then Long else Short, order.quantity, order.price.value,
             intent.tp, intent.sl, input.fillAt, run)
  }

  /** The exchange's protective orders, labelled with the run that placed them. */
  function Labelled(orders: seq<Order>, run: RunId): seq<Order> {
    seq(|orders|, i requires 0 <= i < |orders| => orders[i].(runId := run))
  }

  function EntryReported(e: Engine, input: TickInput, intent: Intent, order: Order): Engine {
    if order.status != Filled then e
    else
      var e1 := Traded(e, input, order);
      if order.price.None? || e1.Held(input.symbol).Some? then e1
      else
        var e2 := ResetWindow(OpenHeld(e1, EntryPosition(input, intent, order, e.runId), input.fillAt), input.symbol);
        if e2.cfg.ocoEnabled && !e2.cfg.paper then e2.(orders := e2.orders + Labelled(input.exitOrders, e.runId)) else e2
  }

  function SubmitEntry(e: Engine, input: TickInput, intent: Intent): Engine {
    var order := SubmittedOrder(e.cfg, e.runId, input, intent.side, intent.quantity, OrElse(intent.price, input.price), false);
    if order.None? then e else EntryReported(Placed(e, order.value), input, intent, order.value)
  }

  /** The positions the risk gate is shown. */
  function ShownPositions(e: Engine, input: TickInput): seq<(Symbol, real)> {
    if e.cfg.paper then [(input.symbol, PaperQuantity(e.paper, input.symbol))] else input.livePositions
  }

  const RECENT_ORDER_LIMIT: nat := 50

  function EntryVerdict(e: Engine, input: TickInput, intent: Intent): Verdict {
    e.risk.Judge(intent, e.strategy.Equity(input.balance), ShownPositions(e, input),
                 RecentOrders(e.orders, e.runId, input.symbol, RECENT_ORDER_LIMIT), DailyPnl(e.trades, Today(e.runId, input.gateAt)),
                 input.gateAt)
  }

  /** The state in which the soft gate is asked: autopilot applied, prediction recorded. */
  function Informed(e: Engine, input: TickInput): Engine {
    var e1 := Tune(e, input.tuning);
    if input.prediction.None? || input.prediction.value.awaitingCandle then e1
    else RecordAction(e1, input.symbol, input.prediction.value.action)
  }

  function SoftCandidate(e: Engine, input: TickInput): Option<Intent> {
    if input.prediction.None? || input.prediction.value.awaitingCandle then None
    else if !e.policy.AllowsEntry(input.symbol, input.prediction.value.action) then None
    else e.strategy.Decide(input.symbol, input.prediction.value, input.price, input.balance)
  }

  function EntryTick(e: Engine, input: TickInput): Engine {
    var e1 := Informed(e, input);
    var intent := SoftCandidate(e1, input);
    if intent.None? then e1
    else
      var e2 := e1.(risk := e1.risk.AfterCheck(input.gateAt));
      if EntryVerdict(e1, input, intent.value) != Pass then e2 else SubmitEntry(e2, input, intent.value)
  }

  function ProcessTick(e: Engine, input: TickInput): Engine {
    var e1 := Sync(e, input.symbol, Some(input.price), input.syncSeen, input.syncAt).(clock := input.fillAt);
    var held := e1.Held(input.symbol);
    if held.Some? then ExitTick(e1, input, held.value)
    else if !e1.trading then e1
    else EntryTick(e1, input)
  }

  // ---------------------------------------------------------------- everything else that moves an engine

  function Retune(old_: RiskConfig, new_: RiskConfig): RiskConfig {
    new_.(maxPositionQty := old_.maxPositionQty, dailyLossLimit := old_.dailyLossLimit)
  }

  function ApplyConfig(e: Engine, cfg: EngineConfig, run: RunId, required: int, mode: Mode, risk: RiskConfig): Engine {
    var e1 := SetMode(SetRequired(e, required), mode);
    e1.(cfg := cfg, runId := run, risk := e1.risk.(cfg := Retune(e.risk.cfg, risk)))
  }

  function RecoverAll(log: seq<Row>, symbols: set<Symbol>): Book {
    map s | s in symbols && RecoveredPosition(log, s).Some? :: RecoveredPosition(log, s).value
  }

  /** A new process over the same database: trading off, positions recovered from the log,
      everything else in memory gone. */
  function Restart(e: Engine, symbols: set<Symbol>, cfg: EngineConfig, run: RunId, policy: Policy, risk: RiskConfig,
                   strategy: Strategy): Engine {
    Engine(cfg, run, false, RecoverAll(e.log, symbols), policy.(history := map[]), Risk(risk, 0, None), strategy, map[],
           e.orders, e.trades, e.log, |e.log|, e.clock, e.trace + [Restarted])
  }

  datatype Step =
    | Tick(input: TickInput)
    | SetTrading(on: bool)
    | Reconfigure(cfg: EngineConfig, run: RunId, required: int, mode: Mode, risk: RiskConfig)
    | StartupSync(symbol: Symbol, seen: Option<ExchangePosition>, at: Time)
    | NewProcess(symbols: set<Symbol>, newCfg: EngineConfig, newRun: RunId, policy: Policy, newRisk: RiskConfig,
                 strategy: Strategy)

  function Apply(e: Engine, s: Step): Engine {
    match s
    case Tick(input) => ProcessTick(e, input)
    case SetTrading(on) => e.(trading := on)
    case Reconfigure(cfg, run, required, mode, risk) => ApplyConfig(e, cfg, run, required, mode, risk)
    case StartupSync(symbol, seen, at) => Sync(e, symbol, None, seen, at).(clock := at)
    case NewProcess(symbols, cfg, run, policy, risk, strategy) => Restart(e, symbols, cfg, run, policy, risk, strategy)
  }

  /** Clock readings strictly increase from one phase that may write a row to the next;
      the paper adapter and the live one are never swapped; only a live exchange manages exits. */
  predicate Allowed(e: Engine, s: Step) {
    match s
    case Tick(input) => e.clock < input.syncAt < input.gateAt <= input.fillAt
    case SetTrading(_) => true
    case Reconfigure(cfg, _, _, _, _) => cfg.paper == e.cfg.paper && (cfg.paper ==> !cfg.managesExits)
    case StartupSync(_, _, at) => e.clock < at
    case NewProcess(_, cfg, _, policy, _, _) =>
      cfg.paper == e.cfg.paper && (cfg.paper ==> !cfg.managesExits) && policy.required >= 1
  }

  function Run(e: Engine, steps: seq<Step>): Engine {
    if steps == [] then e else Apply(Run(e, steps[..|steps| - 1]), steps[|steps| - 1])
  }

  ghost predicate AllowedRun(e: Engine, steps: seq<Step>) {
    steps != [] ==>
      AllowedRun(e, steps[..|steps| - 1]) && Allowed(Run(e, steps[..|steps| - 1]), steps[|steps| - 1])
  }

  /** An engine before its first step: nothing held, nothing stored, breaker closed. */
  predicate Fresh(e: Engine) {
    && e.positions == map[] && e.paper == map[] && e.orders == [] && e.trades == [] && e.log == [] && e.trace == []
    && e.bootedAt == 0
    && e.policy.history == map[] && e.policy.required >= 1
    && e.risk.losses == 0 && e.risk.pausedUntil == None
    && (e.cfg.paper ==> !e.cfg.managesExits)
  }
}
