/** What one tick can amount to. Every property of whole runs rests on these few shapes
    instead of on the branches of the tick itself. */
module TickShapes {
  import opened Domain
  import opened PositionManagement
  import opened Exits
  import opened SignalPolicies
  import opened RiskChecking
  import opened Strategies
  import opened Stores
  import opened PaperTrading
  import opened EngineModel

  ghost predicate KeysMatch(e: Engine) {
    forall s :: s in e.positions ==> e.positions[s].symbol == s
  }

  /** The snapshot row a move writes, if any. */
  type Write = Option<Row>

  function Checked(r: Risk, gate: Option<Time>): Risk {
    if gate.Some? then r.AfterCheck(gate.value) else r
  }

  /** The rows an event record speaks of, each with the run it was written under. */
  function Written(trace: seq<Event>): seq<(Row, RunId)> {
    if trace == [] then []
    else
      var last := trace[|trace| - 1];
      Written(trace[..|trace| - 1]) + (if last.Logged? then [(last.row, last.run)] else [])
  }

  lemma WrittenAppend(trace: seq<Event>, ev: Event)
    ensures Written(trace + [ev]) == Written(trace) + (if ev.Logged? then [(ev.row, ev.run)] else [])
  {
    assert (trace + [ev])[..|trace|] == trace;
  }

  /** At most one snapshot row is written, on the given symbol and at the given time; the position
      book follows it, and the loss breaker hears of the result exactly when the row is a close. */
  ghost predicate Move(e: Engine, e': Engine, w: Write, on: Symbol, gate: Option<Time>, at: Time) {
    && e'.cfg == e.cfg && e'.runId == e.runId && e'.trading == e.trading && e'.bootedAt == e.bootedAt && e'.clock == e.clock
    && match w
       case None => e'.log == e.log && e'.positions == e.positions && e'.risk == Checked(e.risk, gate)
       case Some(Row(p, OpenRow, t)) =>
         && t == at && p.symbol == on && e'.log == e.log + [w.value]
         && e'.positions == e.positions[on := p] && e'.risk == Checked(e.risk, gate)
       case Some(Row(p, ClosedRow(pnl, reason, exitPrice), t)) =>
         && t == at && p.symbol == on && e'.log == e.log + [w.value]
         && e.Held(on) == Some(p) && pnl == RealizedPnl(p.side, p.entryPrice, exitPrice, p.quantity)
         && e'.positions == e.positions - {on} && e'.risk == e.risk.RecordResult(pnl, at)
  }

  lemma SyncMoves(e: Engine, on: Symbol, mark: Option<real>, seen: Option<ExchangePosition>, at: Time) returns (w: Write)
    requires KeysMatch(e)
    ensures Move(e, Sync(e, on, mark, seen, at), w, on, None, at)
  {
    hide RealizedPnl, Risk.RecordResult;
    var e' := Sync(e, on, mark, seen, at);
    w := if |e'.log| > |e.log| then Some(e'.log[|e.log|]) else None;
  }

  lemma CloseMoves(e: Engine, on: Symbol, exitPrice: real, reason: ExitReason, at: Time) returns (w: Write)
    requires KeysMatch(e)
    ensures Move(e, CloseHeld(e, on, exitPrice, reason, at), w, on, None, at)
  {
    w := if e.Held(on).Some? then Some(ClosedRowOf(Close(e.positions[on], exitPrice, reason), at)) else None;
  }

  lemma SubmitExitMoves(e: Engine, input: TickInput, p: Position, reason: ExitReason) returns (w: Write)
    requires KeysMatch(e)
    ensures Move(e, SubmitExit(e, input, p, reason), w, input.symbol, None, input.fillAt)
  {
    hide Sync, CloseHeld, SubmittedOrder, Fill;
    var order := SubmittedOrder(e.cfg, e.runId, input, ClosingSide(p.side), p.quantity, input.price, true);
    if !e.cfg.paper && (input.exitSeen.None? || input.exitSeen.value.quantity <= 0.0) {
      w := SyncMoves(e, input.symbol, Some(input.price), input.resyncSeen, input.fillAt);
    } else if order.None? {
      w := None;
    } else if order.value.status == Rejected {
      w := SyncMoves(Placed(e, order.value), input.symbol, Some(input.price), input.resyncSeen, input.fillAt);
    } else if order.value.status == Filled {
      w := CloseMoves(Traded(Placed(e, order.value), input, order.value), input.symbol,
                      OrElse(order.value.price, input.price), reason, input.fillAt);
    } else {
      w := None;
    }
  }

  /** Tuning and recording a prediction touch only the policy, the strategy and the event record. */
  ghost predicate OnlySignals(e: Engine, e': Engine) {
    && e' == e.(policy := e'.policy, strategy := e'.strategy, trace := e'.trace)
    && e'.policy.mode == e.policy.mode && e'.strategy.sizing == e.strategy.sizing
    && Written(e'.trace) == Written(e.trace)
  }

  lemma InformedOnlySignals(e: Engine, input: TickInput)
    ensures OnlySignals(e, Tune(e, input.tuning)) && OnlySignals(e, Informed(e, input))
  {
    hide Written;
    WrittenAppend(e.trace, WindowsCleared);
    if input.prediction.Some? {
      WrittenAppend(Tune(e, input.tuning).trace, Recorded(input.symbol, input.prediction.value.action));
    }
  }

  lemma ExitTickMoves(e: Engine, input: TickInput, p: Position) returns (w: Write)
    requires KeysMatch(e)
    ensures Move(e, ExitTick(e, input, p), w, input.symbol, None, input.fillAt)
  {
    hide SubmitExit, CheckExit, ModelExitReason, Tune, RecordAction;
    InformedOnlySignals(e, input);
    var hit := CheckExit(p, input.price);
    w := None;
    if hit.Some? {
      if !(e.cfg.ocoEnabled && e.cfg.managesExits) {
        w := SubmitExitMoves(e, input, p, hit.value);
      }
    } else if input.prediction.Some? && !input.prediction.value.awaitingCandle {
      var e2 := Informed(e, input);
      var reason := ModelExitReason(e2.policy, p);
      if reason.Some? && input.gateAt - p.openedAt >= e2.cfg.minHoldSeconds * SECOND {
        w := SubmitExitMoves(e2, input, p, reason.value);
      }
    }
  }

  lemma SubmitEntryMoves(e: Engine, input: TickInput, intent: Intent) returns (w: Write)
    ensures Move(e, SubmitEntry(e, input, intent), w, input.symbol, None, input.fillAt)
    ensures w.Some? ==> w.value.status.OpenRow?
  {
    var e' := SubmitEntry(e, input, intent);
    w := if |e'.log| > |e.log| then Some(e'.log[|e.log|]) else None;
  }

  lemma EntryTickMoves(e: Engine, input: TickInput) returns (w: Write, gate: Option<Time>)
    ensures Move(e, EntryTick(e, input), w, input.symbol, gate, input.fillAt)
    ensures gate.Some? ==> gate.value == input.gateAt
  {
    hide SoftCandidate, EntryVerdict, SubmitEntry, Informed;
    InformedOnlySignals(e, input);
    var e1 := Informed(e, input);
    var intent := SoftCandidate(e1, input);
    w, gate := None, None;
    if intent.Some? {
      gate := Some(input.gateAt);
      var e2 := e1.(risk := e1.risk.AfterCheck(input.gateAt));
      if EntryVerdict(e1, input, intent.value) == Pass {
        w := SubmitEntryMoves(e2, input, intent.value);
      }
    }
  }

  function Ready(e: Engine, input: TickInput): Engine {
    e.(clock := input.fillAt)
  }

  /** The state a tick works on once it has synchronised. */
  function Synced(e: Engine, input: TickInput): Engine {
    Sync(e, input.symbol, Some(input.price), input.syncSeen, input.syncAt).(clock := input.fillAt)
  }

  /** A tick is a synchronisation followed by one more such move. */
  lemma TickMoves(e: Engine, input: TickInput) returns (w1: Write, w2: Write, gate: Option<Time>)
    requires KeysMatch(e)
    ensures Move(Ready(e, input), Synced(e, input), w1, input.symbol, None, input.syncAt)
    ensures Move(Synced(e, input), ProcessTick(e, input), w2, input.symbol, gate, input.fillAt)
    ensures gate.Some? ==> gate.value == input.gateAt
  {
    hide Sync, ExitTick, EntryTick;
    w1 := SyncMoves(e, input.symbol, Some(input.price), input.syncSeen, input.syncAt);
    w2, gate := None, None;
    var e1 := Synced(e, input);
    if e1.Held(input.symbol).Some? {
      w2 := ExitTickMoves(e1, input, e1.Held(input.symbol).value);
    } else if e1.trading {
      w2, gate := EntryTickMoves(e1, input);
    }
  }

  /** No reconfiguration and no restart switches the run id. */
  predicate KeepsRunId(steps: seq<Step>, run: RunId) {
    forall i :: 0 <= i < |steps| ==>
      (steps[i].Reconfigure? ==> steps[i].run == run) && (steps[i].NewProcess? ==> steps[i].newRun == run)
  }

  // ---------------------------------------------------------------- which ticks submit an entry order

  /** The entry was confirmed by the policy, sized by the strategy and passed by the risk gate. */
  predicate Approved(e: Engine, input: TickInput, intent: Intent) {
    && e.trading
    && SoftCandidate(Informed(e, input), input) == Some(intent)
    && EntryVerdict(Informed(e, input), input, intent) == Pass
  }

  /** The tick's first new order, if any, is an entry. */
  predicate SubmitsEntry(e: Engine, input: TickInput) {
    var e' := ProcessTick(e, input);
    |e'.orders| > |e.orders| && !e'.orders[|e.orders|].reduceOnly
  }

  /** Orders only grow, and what an exit adds is reduce-only. */
  ghost predicate ReducesOnly(e: Engine, e': Engine) {
    e'.orders == e.orders || (|e'.orders| == |e.orders| + 1 && e'.orders[|e.orders|].reduceOnly)
  }

  lemma SubmitExitReduces(e: Engine, input: TickInput, p: Position, reason: ExitReason)
    ensures ReducesOnly(e, SubmitExit(e, input, p, reason))
  {
    hide Close, IsDust, InferCloseReason, RealQuantity, TakeProfitPrice, StopLossPrice, Fill;
  }

  lemma ExitTickReduces(e: Engine, input: TickInput, p: Position)
    ensures ReducesOnly(e, ExitTick(e, input, p))
  {
    hide SubmitExit, CheckExit, Tune, RecordAction, ModelExitReason;
    InformedOnlySignals(e, input);
    var hit := CheckExit(p, input.price);
    if hit.Some? {
      SubmitExitReduces(e, input, p, hit.value);
    } else {
      var e2 := Informed(e, input);
      var reason := ModelExitReason(e2.policy, p);
      if reason.Some? {
        SubmitExitReduces(e2, input, p, reason.value);
      }
    }
  }

  lemma EntryTickOrders(e: Engine, input: TickInput)
    requires e.trading
    ensures EntryTick(e, input).orders != e.orders ==>
              var intent := SoftCandidate(Informed(e, input), input);
              intent.Some? && Approved(e, input, intent.value)
  {
    hide SubmitEntry, Informed, EntryVerdict, SoftCandidate;
    InformedOnlySignals(e, input);
  }

  lemma SyncKeepsOrders(e: Engine, symbol: Symbol, mark: Option<real>, seen: Option<ExchangePosition>, at: Time)
    ensures Sync(e, symbol, mark, seen, at).orders == e.orders
    ensures Sync(e, symbol, mark, seen, at).trades == e.trades
  {
    hide Close, IsDust, InferCloseReason, RealQuantity, TakeProfitPrice, StopLossPrice;
  }

  /** An entry order, live or paper, has passed every gate, in a flat engine with trading on. */
  lemma EntryOrderApproved(e: Engine, input: TickInput)
    requires SubmitsEntry(e, input)
    ensures Synced(e, input).Held(input.symbol).None?
    ensures var intent := SoftCandidate(Informed(Synced(e, input), input), input);
            intent.Some? && Approved(Synced(e, input), input, intent.value)
  {
    hide Sync, ExitTick, EntryTick, Approved, SoftCandidate, Informed;
    SyncKeepsOrders(e, input.symbol, Some(input.price), input.syncSeen, input.syncAt);
    var e1 := Synced(e, input);
    if e1.Held(input.symbol).Some? {
      ExitTickReduces(e1, input, e1.Held(input.symbol).value);
    } else if e1.trading {
      EntryTickOrders(e1, input);
    }
  }

  // ---------------------------------------------------------------- paper ticks

  datatype PaperOutcome =
    | Idle
    | Entered(p: Position, intent: Intent)
    | Exited(p: Position, reason: ExitReason)

  predicate Paper(e: Engine) {
    e.cfg.paper && !e.cfg.managesExits
  }

  /** The exit was due: a price level was reached, or the model turned after the minimum hold. */
  predicate Due(e: Engine, input: TickInput, p: Position, reason: ExitReason) {
    || CheckExit(p, input.price) == Some(reason)
    || (&& CheckExit(p, input.price) == None
        && input.prediction.Some? && !input.prediction.value.awaitingCandle
        && ModelExitReason(Informed(e, input).policy, p) == Some(reason)
        && input.gateAt - p.openedAt >= e.cfg.minHoldSeconds * SECOND)
  }

  function PaperOrder(e: Engine, input: TickInput, side: OrderSide, quantity: real, price: real, reduceOnly: bool): Order {
    Order(input.symbol, side, quantity, Some(price), Filled, reduceOnly, input.fillAt, e.runId)
  }

  function PaperTrade(e: Engine, input: TickInput, side: OrderSide, quantity: real, price: real): Trade {
    Trade(input.symbol, side, quantity, price, 0.0, e.runId, input.fillAt)
  }

  /** Everything stored moves together: one order, one trade, one row, one fill, or nothing. */
  ghost predicate PaperShape(e: Engine, e': Engine, o: PaperOutcome, input: TickInput) {
    && e'.cfg == e.cfg && e'.runId == e.runId && e'.clock == input.fillAt
    && e'.policy.mode == e.policy.mode && e'.strategy.sizing == e.strategy.sizing
    && match o
       case Idle =>
         && e'.positions == e.positions && e'.log == e.log
         && e'.orders == e.orders && e'.trades == e.trades && e'.paper == e.paper && Written(e'.trace) == Written(e.trace)
       case Entered(p, intent) =>
         && e.Held(input.symbol) == None && Approved(e, input, intent)
         && p.symbol == input.symbol && p.quantity == intent.quantity > 0.0 && p.openedAt == input.fillAt
         && p.runId == e.runId
         && intent.side == OpeningSide(p.side) && intent.price == Some(p.entryPrice)
         && p.tp == intent.tp && p.sl == intent.sl
         && e'.positions == e.positions[input.symbol := p] && e'.log == e.log + [OpenedRow(p, input.fillAt)]
         && Written(e'.trace) == Written(e.trace) + [(OpenedRow(p, input.fillAt), e.runId)]
         && e'.orders == e.orders + [PaperOrder(e, input, OpeningSide(p.side), p.quantity, p.entryPrice, false)]
         && e'.trades == e.trades + [PaperTrade(e, input, OpeningSide(p.side), p.quantity, p.entryPrice)]
         && e'.paper == Fill(e.paper, input.symbol, OpeningSide(p.side), p.quantity, p.entryPrice)
       case Exited(p, reason) =>
         && e.Held(input.symbol) == Some(p) && Due(e, input, p, reason)
         && e'.positions == e.positions - {input.symbol}
         && e'.log == e.log + [ClosedRowOf(Close(p, input.price, reason), input.fillAt)]
         && Written(e'.trace) == Written(e.trace) + [(ClosedRowOf(Close(p, input.price, reason), input.fillAt), e.runId)]
         && e'.orders == e.orders + [PaperOrder(e, input, ClosingSide(p.side), p.quantity, input.price, true)]
         && e'.trades == e.trades + [PaperTrade(e, input, ClosingSide(p.side), p.quantity, input.price)]
         && e'.paper == Fill(e.paper, input.symbol, ClosingSide(p.side), p.quantity, input.price)
  }

  lemma PaperEntry(e: Engine, input: TickInput, intent: Intent, p: Position)
    requires e.cfg.paper && e.Held(input.symbol).None? && intent.price.Some?
    requires OrElse(intent.price, input.price) == intent.price.value
    requires p == Position(input.symbol, if intent.side == BuySide then Long else Short, intent.quantity,
                           intent.price.value, intent.tp, intent.sl, input.fillAt, e.runId)
    ensures var e' := SubmitEntry(e, input, intent);
            && e'.cfg == e.cfg && e'.runId == e.runId && e'.clock == e.clock
            && e'.policy.mode == e.policy.mode && e'.strategy == e.strategy
            && e'.positions == e.positions[input.symbol := p] && e'.log == e.log + [OpenedRow(p, input.fillAt)]
            && Written(e'.trace) == Written(e.trace) + [(OpenedRow(p, input.fillAt), e.runId)]
            && e'.orders == e.orders + [PaperOrder(e, input, intent.side, intent.quantity, p.entryPrice, false)]
            && e'.trades == e.trades + [PaperTrade(e, input, intent.side, intent.quantity, p.entryPrice)]
            && e'.paper == Fill(e.paper, input.symbol, intent.side, intent.quantity, p.entryPrice)
  {
    hide Written, Fill;
    WrittenAppend(e.trace, Logged(OpenedRow(p, input.fillAt), e.runId));
    WrittenAppend(e.trace + [Logged(OpenedRow(p, input.fillAt), e.runId)], WindowReset(input.symbol));
  }

  lemma PaperExit(e: Engine, input: TickInput, p: Position, reason: ExitReason)
    requires e.cfg.paper && e.Held(input.symbol) == Some(p)
    ensures var e' := SubmitExit(e, input, p, reason);
            && e'.cfg == e.cfg && e'.runId == e.runId && e'.clock == e.clock
            && e'.policy.mode == e.policy.mode && e'.strategy == e.strategy
            && e'.positions == e.positions - {input.symbol}
            && e'.log == e.log + [ClosedRowOf(Close(p, input.price, reason), input.fillAt)]
            && Written(e'.trace) == Written(e.trace) + [(ClosedRowOf(Close(p, input.price, reason), input.fillAt), e.runId)]
            && e'.orders == e.orders + [PaperOrder(e, input, ClosingSide(p.side), p.quantity, input.price, true)]
            && e'.trades == e.trades + [PaperTrade(e, input, ClosingSide(p.side), p.quantity, input.price)]
            && e'.paper == Fill(e.paper, input.symbol, ClosingSide(p.side), p.quantity, input.price)
  {
    hide Written, Fill, Close;
    var row := ClosedRowOf(Close(p, input.price, reason), input.fillAt);
    WrittenAppend(e.trace, Logged(row, e.runId));
    WrittenAppend(e.trace + [Logged(row, e.runId)], WindowReset(input.symbol));
  }

  /** The entry price an intent carries is the price a paper order fills at. */
  lemma IntentOf(s: Strategy, symbol: Symbol, p: Prediction, price: real, balance: real)
    requires s.Decide(symbol, p, price, balance).Some?
    ensures var i := s.Decide(symbol, p, price, balance).value;
            && i.symbol == symbol && i.quantity > 0.0
            && i.price == Some(OrElse(p.priceHint, price)) && OrElse(i.price, price) == i.price.value
            && i.side == (if p.action == Buy then BuySide else SellSide)
  {
  }

  lemma PaperEntryTick(e: Engine, input: TickInput) returns (o: PaperOutcome)
    requires Paper(e) && e.trading && e.Held(input.symbol).None? && e.clock == input.fillAt
    ensures PaperShape(e, EntryTick(e, input), o, input)
  {
    hide SubmitEntry, Informed, EntryVerdict, Strategy.Decide, Policy.AllowsEntry, Fill;
    InformedOnlySignals(e, input);
    var e1 := Informed(e, input);
    var intent := SoftCandidate(e1, input);
    o := Idle;
    if intent.Some? && EntryVerdict(e1, input, intent.value) == Pass {
      var i := intent.value;
      IntentOf(e1.strategy, input.symbol, input.prediction.value, input.price, input.balance);
      var p := Position(input.symbol, if i.side == BuySide then Long else Short, i.quantity, i.price.value, i.tp, i.sl,
                        input.fillAt, e1.runId);
      PaperEntry(e1.(risk := e1.risk.AfterCheck(input.gateAt)), input, i, p);
      o := Entered(p, i);
    }
  }

  lemma PaperExitTick(e: Engine, input: TickInput, p: Position) returns (o: PaperOutcome)
    requires Paper(e) && e.Held(input.symbol) == Some(p) && e.clock == input.fillAt
    ensures PaperShape(e, ExitTick(e, input, p), o, input)
  {
    hide SubmitExit, CheckExit, Tune, RecordAction, ModelExitReason, Fill, Close;
    InformedOnlySignals(e, input);
    var hit := CheckExit(p, input.price);
    o := Idle;
    if hit.Some? {
      PaperExit(e, input, p, hit.value);
      o := Exited(p, hit.value);
    } else if input.prediction.Some? && !input.prediction.value.awaitingCandle {
      var e2 := Informed(e, input);
      var reason := ModelExitReason(e2.policy, p);
      if reason.Some? && input.gateAt - p.openedAt >= e2.cfg.minHoldSeconds * SECOND {
        PaperExit(e2, input, p, reason.value);
        o := Exited(p, reason.value);
      }
    }
  }

  lemma PaperTick(e: Engine, input: TickInput) returns (o: PaperOutcome)
    requires Paper(e)
    ensures PaperShape(Ready(e, input), ProcessTick(e, input), o, input)
  {
    hide ExitTick, EntryTick, PaperShape;
    var e0 := Ready(e, input);
    if e0.Held(input.symbol).Some? {
      o := PaperExitTick(e0, input, e0.Held(input.symbol).value);
    } else if e0.trading {
      o := PaperEntryTick(e0, input);
    } else {
      o := Idle;
      IdleShape(e0, input);
    }
  }

  lemma IdleShape(e: Engine, input: TickInput)
    requires e.clock == input.fillAt
    ensures PaperShape(e, e, Idle, input)
  {
  }
}
