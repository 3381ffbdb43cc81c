/** The imperative engine (engine/core.py, engine/entry_pipeline.py): one object per component,
    updated in place in the order the source updates them. */
module TradingEngines {
  import opened Domain
  import opened PositionManagement
  import opened Exits
  import opened SignalPolicies
  import opened RiskChecking
  import opened Strategies
  import opened Stores
  import opened PaperTrading
  import opened EngineModel

  class TradingEngine {
    var cfg: EngineConfig
    var trading: bool
    const positionManager: PositionManager
    const policy: ConsecutiveSignalPolicy
    const risk: DefaultRiskChecker
    const strategy: PassthroughStrategy
    const exchange: PaperExchange
    const storage: Storage
    ghost const bootedAt: nat
    ghost var clock: Time
    ghost var trace: seq<Event>

    ghost function View(): Engine
      reads this, positionManager, policy, risk, strategy, exchange, storage
    {
      Engine(cfg, positionManager.runId, trading, positionManager.positions, policy.View(), risk.View(), strategy.View(),
             exchange.positions, storage.orders, storage.trades, storage.log, bootedAt, clock, trace)
    }

    /** A process starts with trading off, whatever the database says. */
    constructor (cfg: EngineConfig, positionManager: PositionManager, policy: ConsecutiveSignalPolicy,
                 risk: DefaultRiskChecker, strategy: PassthroughStrategy, exchange: PaperExchange, storage: Storage,
                 ghost bootedAt: nat, ghost clock: Time, ghost trace: seq<Event>)
      ensures this.positionManager == positionManager && this.policy == policy && this.risk == risk
      ensures this.strategy == strategy && this.exchange == exchange && this.storage == storage
      ensures View() == Engine(cfg, positionManager.runId, false, positionManager.positions, policy.View(), risk.View(),
                               strategy.View(), exchange.positions, storage.orders, storage.trades, storage.log, bootedAt, clock, trace)
    {
      this.cfg := cfg;
      trading := false;
      this.positionManager := positionManager;
      this.policy := policy;
      this.risk := risk;
      this.strategy := strategy;
      this.exchange := exchange;
      this.storage := storage;
      this.bootedAt := bootedAt;
      this.clock := clock;
      this.trace := trace;
    }

    method SetTradingEnabled(on: bool)
      modifies this
      ensures View() == Apply(old(View()), SetTrading(on))
    {
      trading := on;
    }

    /** The run id of the engine's context is the position manager's: the two are always set together. */
    method ApplyRuntimeConfig(newCfg: EngineConfig, newRun: RunId, required: int, mode: Mode, newRisk: RiskConfig)
      modifies this, positionManager, policy, risk
      ensures View() == Apply(old(View()), Reconfigure(newCfg, newRun, required, mode, newRisk))
    {
      cfg := newCfg;
      positionManager.runId := newRun;
      SetConsecutiveRequired(required);
      ghost var before := policy.View();
      policy.SetMode(mode);
      trace := if policy.View() == before then trace else trace + [WindowsCleared];
      risk.cfg := Retune(risk.cfg, newRisk);
    }

    /** Positions as the log's newest rows have them. */
    method RecoverPositionsFromDb(symbols: set<Symbol>)
      modifies positionManager`positions
      ensures forall s :: s in RecoverAll(storage.log, symbols) ==>
                s in positionManager.positions && positionManager.positions[s] == RecoverAll(storage.log, symbols)[s]
      ensures forall s :: s !in RecoverAll(storage.log, symbols) ==>
                (s in positionManager.positions <==> s in old(positionManager.positions))
      ensures forall s :: s !in RecoverAll(storage.log, symbols) && s in positionManager.positions ==>
                positionManager.positions[s] == old(positionManager.positions)[s]
    {
      var found := storage.GetLatestOpen(symbols);
      var todo := found.Keys;
      while todo != {}
        invariant todo <= found.Keys
        invariant forall s :: s in found && s !in todo ==>
                    s in positionManager.positions && positionManager.positions[s] == found[s]
        invariant forall s :: !(s in found && s !in todo) ==>
                    (s in positionManager.positions <==> s in old(positionManager.positions))
        invariant forall s :: !(s in found && s !in todo) && s in positionManager.positions ==>
                    positionManager.positions[s] == old(positionManager.positions)[s]
        decreases |todo|
      {
        var s :| s in todo;
        positionManager.positions := positionManager.positions[s := found[s]];
        todo := todo - {s};
      }
    }

    // -------------------------------------------------------------- shared steps

    method SetConsecutiveRequired(required: int)
      modifies this`trace, policy
      ensures View() == SetRequired(old(View()), required)
    {
      ghost var before := policy.View();
      policy.SetConsecutiveRequired(required);
      trace := if policy.View() == before then trace else trace + [WindowsCleared];
    }

    method ApplyAutopilot(tuning: Option<Tuning>)
      modifies this`trace, policy, strategy
      ensures View() == Tune(old(View()), tuning)
    {
      if tuning.Some? {
        SetConsecutiveRequired(tuning.value.required);
        if tuning.value.dynamicExit.Some? {
          var d := tuning.value.dynamicExit.value;
          strategy.SetDynamicExit(d.tp, d.sl, d.scale);
        }
      }
    }

    method RecordSignal(symbol: Symbol, action: Action)
      modifies this`trace, policy
      ensures View() == RecordAction(old(View()), symbol, action)
    {
      policy.Record(symbol, action);
      trace := trace + [Recorded(symbol, action)];
    }

    method OpenAndLog(p: Position, at: Time)
      requires p.runId == positionManager.runId
      modifies this`trace, positionManager`positions, storage`log
      ensures View() == OpenHeld(old(View()), p, at)
    {
      var stored := positionManager.OpenPosition(p.symbol, p.side, p.quantity, p.entryPrice, Some(p.openedAt), p.tp, p.sl, at);
      storage.SavePosition(OpenedRow(stored, at));
      trace := trace + [Logged(OpenedRow(stored, at), positionManager.runId)];
    }

    method AdoptAndLog(p: Position, at: Time)
      requires p.runId == positionManager.runId
      modifies this`trace, positionManager`positions, storage`log
      ensures View() == Adopt(old(View()), p, at)
    {
      OpenAndLog(p, at);
      trace := trace + [Adopted(p.symbol)];
    }

    method CloseAndLog(symbol: Symbol, exitPrice: real, reason: ExitReason, at: Time)
      modifies this`trace, positionManager`positions, storage`log, policy, risk
      ensures View() == CloseHeld(old(View()), symbol, exitPrice, reason, at)
    {
      var closed := positionManager.ClosePosition(symbol, exitPrice, reason);
      if closed.Some? {
        storage.SavePosition(ClosedRowOf(closed.value, at));
        policy.Reset(symbol);
        risk.RecordTradeResult(closed.value.pnl, at);
        trace := trace + [Logged(ClosedRowOf(closed.value, at), positionManager.runId)] + [WindowReset(symbol)];
      }
    }

    method SyncPositionWithExchange(symbol: Symbol, mark: Option<real>, seen: Option<ExchangePosition>, at: Time)
      modifies this`trace, positionManager`positions, storage`log, policy, risk
      ensures View() == Sync(old(View()), symbol, mark, seen, at)
    {
      if cfg.paper {
        return;
      }
      var local := GetPosition(positionManager.positions, symbol);
      var q := RealQuantity(cfg, seen, mark);
      if local.Some? && q <= 0.0 {
        var exitPrice := OrElse(mark, local.value.entryPrice);
        CloseAndLog(symbol, exitPrice, InferCloseReason(local.value, exitPrice), at);
        return;
      }
      if local.None? && seen.Some? && q > 0.0 {
        var x := seen.value;
        AdoptAndLog(Position(symbol, x.side, q, x.avgPrice, TakeProfitPrice(x.avgPrice, x.side, cfg.tpRule),
                             StopLossPrice(x.avgPrice, x.side, cfg.slRule), at, positionManager.runId), at);
        return;
      }
      if local.Some? && seen.Some? && q > 0.0 {
        var x := seen.value;
        if local.value.side != x.side || !WithinTolerance(local.value.quantity, q) {
          AdoptAndLog(Position(symbol, x.side, q, OrElse(Some(x.avgPrice), local.value.entryPrice),
                               local.value.tp, local.value.sl, local.value.openedAt, positionManager.runId), at);
        }
      }
    }

    method SubmitOrder(input: TickInput, side: OrderSide, quantity: real, price: real, reduceOnly: bool)
      returns (order: Option<Order>)
      modifies exchange
      ensures order == SubmittedOrder(cfg, positionManager.runId, input, side, quantity, price, reduceOnly)
      ensures exchange.positions == if cfg.paper then Fill(old(exchange.positions), input.symbol, side, quantity, price)
                                    else old(exchange.positions)
    {
      if cfg.paper {
        exchange.PlaceMarketOrder(input.symbol, side, quantity, price);
        return Some(Order(input.symbol, side, quantity, Some(price), Filled, reduceOnly, input.fillAt, positionManager.runId));
      }
      if input.fill.None? {
        return None;
      }
      var f := input.fill.value;
      return Some(Order(input.symbol, side, f.quantity, f.price, f.status, reduceOnly, input.fillAt, positionManager.runId));
    }

    // -------------------------------------------------------------- exit

    method SubmitExitOrder(input: TickInput, p: Position, reason: ExitReason)
      modifies this`trace, positionManager`positions, storage, policy, risk, exchange
      ensures View() == SubmitExit(old(View()), input, p, reason)
    {
      if !cfg.paper && (input.exitSeen.None? || input.exitSeen.value.quantity <= 0.0) {
        SyncPositionWithExchange(input.symbol, Some(input.price), input.resyncSeen, input.fillAt);
        return;
      }
      var order := SubmitOrder(input, ClosingSide(p.side), p.quantity, input.price, true);
      if order.None? {
        return;
      }
      storage.SaveOrder(order.value);
      if order.value.status == Rejected {
        SyncPositionWithExchange(input.symbol, Some(input.price), input.resyncSeen, input.fillAt);
        return;
      }
      if order.value.status == Filled {
        var price := OrElse(order.value.price, input.price);
        storage.SaveTrade(Trade(order.value.symbol, order.value.side, order.value.quantity, price, 0.0, positionManager.runId,
                                input.fillAt));
        CloseAndLog(input.symbol, price, reason, input.fillAt);
      }
    }

    method ProcessExitTick(input: TickInput, p: Position)
      modifies this`trace, positionManager`positions, storage, policy, risk, exchange, strategy
      ensures View() == ExitTick(old(View()), input, p)
    {
      var hit := CheckExit(p, input.price);
      if hit.Some? {
        if cfg.ocoEnabled && cfg.managesExits {
          return;
        }
        SubmitExitOrder(input, p, hit.value);
        return;
      }
      ApplyAutopilot(input.tuning);
      if input.prediction.None? || input.prediction.value.awaitingCandle {
        return;
      }
      RecordSignal(input.symbol, input.prediction.value.action);
      var reason := ModelExitReason(policy.View(), p);
      if reason.None? {
        return;
      }
      if input.gateAt - p.openedAt < cfg.minHoldSeconds * SECOND {
        return;
      }
      SubmitExitOrder(input, p, reason.value);
    }

    // -------------------------------------------------------------- entry

    method SubmitEntryOrder(input: TickInput, intent: Intent)
      modifies this`trace, positionManager`positions, storage, policy, exchange
      ensures View() == SubmitEntry(old(View()), input, intent)
    {
      hide Fill, Labelled;
      var submitted := SubmitOrder(input, intent.side, intent.quantity, OrElse(intent.price, input.price), false);
      if submitted.None? {
        return;
      }
      var order := submitted.value;
      storage.SaveOrder(order);
      if order.status != Filled {
        return;
      }
      storage.SaveTrade(Trade(order.symbol, order.side, order.quantity, OrElse(order.price, input.price), 0.0,
                              positionManager.runId, input.fillAt));
      if order.price.Some? && GetPosition(positionManager.positions, input.symbol).None? {
        OpenAndLog(EntryPosition(input, intent, order, positionManager.runId), input.fillAt);
        policy.Reset(input.symbol);
        trace := trace + [WindowReset(input.symbol)];
        if cfg.ocoEnabled && !cfg.paper {
          storage.orders := storage.orders + Labelled(input.exitOrders, positionManager.runId);
        }
      }
    }

    method ApproveEntryRisk(input: TickInput, intent: Intent) returns (v: Verdict)
      requires intent.symbol == input.symbol
      modifies risk
      ensures v == EntryVerdict(old(View()), input, intent)
      ensures View() == old(View()).(risk := old(View()).risk.AfterCheck(input.gateAt))
    {
      hide NewestOf, DailyPnl, RecentOrders, OrdersOf, Risk.Judge;
      var shown := input.livePositions;
      if cfg.paper {
        shown := exchange.GetAllPositions();
      }
      assert HeldQuantity(shown, intent.symbol) == HeldQuantity(ShownPositions(View(), input), intent.symbol);
      var recent := storage.GetRecentOrders(positionManager.runId, input.symbol, RECENT_ORDER_LIMIT);
      var pnl := storage.GetDailyPnl(positionManager.runId, input.gateAt);
      OnlyHeldMatters(risk.View(), intent, strategy.View().Equity(input.balance), shown, ShownPositions(View(), input),
                      recent, pnl, input.gateAt);
      v := risk.Check(intent, strategy.View().Equity(input.balance), shown, recent, pnl, input.gateAt);
    }

    method EvaluateSoftEntry(input: TickInput) returns (intent: Option<Intent>)
      modifies this`trace, policy, strategy
      ensures View() == Informed(old(View()), input)
      ensures intent == SoftCandidate(Informed(old(View()), input), input)
      ensures intent.Some? ==> intent.value.symbol == input.symbol
    {
      ApplyAutopilot(input.tuning);
      if input.prediction.None? || input.prediction.value.awaitingCandle {
        return None;
      }
      var p := input.prediction.value;
      RecordSignal(input.symbol, p.action);
      if !policy.View().AllowsEntry(input.symbol, p.action) {
        return None;
      }
      return strategy.View().Decide(input.symbol, p, input.price, input.balance);
    }

    method ProcessEntryTick(input: TickInput)
      modifies this`trace, positionManager`positions, storage, policy, risk, exchange, strategy
      ensures View() == EntryTick(old(View()), input)
    {
      var intent := EvaluateSoftEntry(input);
      if intent.None? {
        return;
      }
      var v := ApproveEntryRisk(input, intent.value);
      if v != Pass {
        return;
      }
      SubmitEntryOrder(input, intent.value);
    }

    /** One market tick. */
    method ProcessMarketTick(input: TickInput)
      modifies this`trace, this`clock, positionManager`positions, storage, policy, risk, exchange, strategy
      ensures View() == Apply(old(View()), Tick(input))
    {
      SyncPositionWithExchange(input.symbol, Some(input.price), input.syncSeen, input.syncAt);
      clock := input.fillAt;
      var held := GetPosition(positionManager.positions, input.symbol);
      if held.Some? {
        ProcessExitTick(input, held.value);
        return;
      }
      if !trading {
        return;
      }
      ProcessEntryTick(input);
    }
  }
}
