/** What a confirmed signal rests on: the bounded windows never forget what they were asked to count. */
module SignalProvenance {
  import opened Domain
  import opened PositionManagement
  import opened Exits
  import opened SignalPolicies
  import opened RiskChecking
  import opened Strategies
  import opened Stores
  import opened EngineModel
  import opened TickShapes
  import opened CrashRecovery

  /** Everything recorded on the symbol since its windows were last emptied, however long ago. */
  function RecordsSinceReset(trace: seq<Event>, symbol: Symbol): seq<Action> {
    if trace == [] then []
    else
      var before := trace[..|trace| - 1];
      match trace[|trace| - 1]
      case Recorded(s, action) => RecordsSinceReset(before, symbol) + (if s == symbol then [action] else [])
      case WindowReset(s) => if s == symbol then [] else RecordsSinceReset(before, symbol)
      case WindowsCleared => []
      case Restarted => []
      case _ => RecordsSinceReset(before, symbol)
  }

  /** Everything recorded on the symbol since its last snapshot row, that is, while it has been
      held as it is now, or flat as it is now. */
  function RecordsSinceRow(trace: seq<Event>, symbol: Symbol): seq<Action> {
    if trace == [] then []
    else
      var before := trace[..|trace| - 1];
      match trace[|trace| - 1]
      case Recorded(s, action) => RecordsSinceRow(before, symbol) + (if s == symbol then [action] else [])
      case Logged(row, _) => if row.position.symbol == symbol then [] else RecordsSinceRow(before, symbol)
      case _ => RecordsSinceRow(before, symbol)
  }

  /** The snapshot rows among the events, in order. */
  function RowsIn(trace: seq<Event>): seq<Row> {
    if trace == [] then []
    else
      var last := trace[|trace| - 1];
      RowsIn(trace[..|trace| - 1]) + (if last.Logged? then [last.row] else [])
  }

  /** Every window is the tail of the full history since its last reset. */
  ghost predicate WindowsFaithful(e: Engine) {
    && e.policy.required >= 1
    && forall s :: e.policy.Window(s) == LastN(RecordsSinceReset(e.trace, s), e.policy.required)
  }

  /** The symbol's history since its last reset reaches back no further than its last row. */
  predicate NoOlderThanRow(trace: seq<Event>, symbol: Symbol) {
    RecordsSinceReset(trace, symbol) == LastN(RecordsSinceRow(trace, symbol), |RecordsSinceReset(trace, symbol)|)
  }

  /** The symbol's newest row was written by a synchronisation that took the position over from the exchange. */
  predicate AdoptedLast(trace: seq<Event>, symbol: Symbol) {
    trace != []
    && var before := trace[..|trace| - 1];
       match trace[|trace| - 1]
       case Adopted(s) => s == symbol || AdoptedLast(before, symbol)
       case Logged(row, _) => row.position.symbol != symbol && AdoptedLast(before, symbol)
       case _ => AdoptedLast(before, symbol)
  }

  predicate Aged(trace: seq<Event>, symbol: Symbol) {
    AdoptedLast(trace, symbol) || NoOlderThanRow(trace, symbol)
  }

  /** Faithful windows, none older than its symbol's last row unless that row was an adoption, which never happens
      on paper: every other row comes with a reset (one symbol may be left out while its row is written and its
      reset still to come). */
  ghost predicate Faith(e: Engine, pending: Option<Symbol>) {
    && WindowsFaithful(e)
    && RowsIn(e.trace) == e.log
    && (forall s :: pending != Some(s) ==> Aged(e.trace, s))
    && (e.cfg.paper ==> forall s :: !AdoptedLast(e.trace, s))
  }

  lemma Appended(trace: seq<Event>, ev: Event)
    ensures (trace + [ev])[..|trace + [ev]| - 1] == trace
  {
  }

  lemma RequiredKeepsFaith(e: Engine, n: int)
    requires Faith(e, None)
    ensures Faith(SetRequired(e, n), None)
  {
    Appended(e.trace, WindowsCleared);
  }

  lemma ModeKeepsFaith(e: Engine, m: Mode)
    requires Faith(e, None)
    ensures Faith(SetMode(e, m), None)
  {
    Appended(e.trace, WindowsCleared);
  }

  lemma RecordKeepsFaith(e: Engine, symbol: Symbol, action: Action)
    requires Faith(e, None)
    ensures Faith(RecordAction(e, symbol, action), None)
  {
    hide Aged;
    var e' := RecordAction(e, symbol, action);
    Appended(e.trace, Recorded(symbol, action));
    forall s
      ensures e'.policy.Window(s) == LastN(RecordsSinceReset(e'.trace, s), e'.policy.required)
      ensures Aged(e'.trace, s) && AdoptedLast(e'.trace, s) == AdoptedLast(e.trace, s)
    {
      LastNPush(RecordsSinceReset(e.trace, s), action, e.policy.required);
      assert e.policy.Window(s) == LastN(RecordsSinceReset(e.trace, s), e.policy.required);
      assert Aged(e.trace, s);
      RecordKeepsAge(e.trace, symbol, action, s);
    }
  }

  lemma RecordKeepsAge(trace: seq<Event>, symbol: Symbol, action: Action, s: Symbol)
    requires Aged(trace, s)
    ensures Aged(trace + [Recorded(symbol, action)], s)
  {
    Appended(trace, Recorded(symbol, action));
  }

  lemma SameSignals(e: Engine, e': Engine)
    requires Faith(e, None) && e'.policy == e.policy && e'.trace == e.trace && e'.log == e.log && e'.cfg.paper == e.cfg.paper
    ensures Faith(e', None)
  {
  }

  lemma InformedKeepsFaith(e: Engine, input: TickInput)
    requires Faith(e, None)
    ensures Faith(Tune(e, input.tuning), None) && Faith(Informed(e, input), None)
  {
    hide Faith, SetRequired, RecordAction;
    var e1 := Tune(e, input.tuning);
    if input.tuning.Some? {
      RequiredKeepsFaith(e, input.tuning.value.required);
      RequiredSameConfig(e, input.tuning.value.required);
      SameSignals(SetRequired(e, input.tuning.value.required), e1);
    }
    if input.prediction.Some? {
      RecordKeepsFaith(e1, input.symbol, input.prediction.value.action);
    }
  }

  lemma RequiredSameConfig(e: Engine, n: int)
    ensures SetRequired(e, n).cfg == e.cfg
  {
  }

  lemma ResetKeepsFaith(e: Engine, symbol: Symbol)
    requires Faith(e, Some(symbol))
    ensures Faith(ResetWindow(e, symbol), None)
  {
    var e' := ResetWindow(e, symbol);
    Appended(e.trace, WindowReset(symbol));
    forall s
      ensures e'.policy.Window(s) == LastN(RecordsSinceReset(e'.trace, s), e'.policy.required)
      ensures Aged(e'.trace, s) && AdoptedLast(e'.trace, s) == AdoptedLast(e.trace, s)
    {
      assert e.policy.Window(s) == LastN(RecordsSinceReset(e.trace, s), e.policy.required);
      assert s != symbol ==> Aged(e.trace, s);
    }
  }

  lemma LoggingKeepsFaith(e: Engine, e': Engine, row: Row)
    requires Faith(e, None) && e'.policy == e.policy && e'.trace == e.trace + [Logged(row, e.runId)]
    requires e'.log == e.log + [row] && e'.cfg == e.cfg
    ensures Faith(e', Some(row.position.symbol))
  {
    Appended(e.trace, Logged(row, e.runId));
    forall s
      ensures e'.policy.Window(s) == LastN(RecordsSinceReset(e'.trace, s), e'.policy.required)
      ensures s != row.position.symbol ==> Aged(e'.trace, s)
      ensures AdoptedLast(e'.trace, s) ==> AdoptedLast(e.trace, s)
    {
      assert e.policy.Window(s) == LastN(RecordsSinceReset(e.trace, s), e.policy.required);
      assert Aged(e.trace, s);
    }
  }

  lemma CloseKeepsFaith(e: Engine, symbol: Symbol, exitPrice: real, reason: ExitReason, at: Time)
    requires Faith(e, None) && KeysMatch(e)
    ensures Faith(CloseHeld(e, symbol, exitPrice, reason, at), None)
  {
    hide Faith, RealizedPnl;
    if e.Held(symbol).Some? {
      var row := ClosedRowOf(Close(e.positions[symbol], exitPrice, reason), at);
      var e1 := e.(positions := e.positions - {symbol}, log := e.log + [row], trace := e.trace + [Logged(row, e.runId)]);
      LoggingKeepsFaith(e, e1, row);
      ResetKeepsFaith(e1, symbol);
      SameSignals(ResetWindow(e1, symbol), CloseHeld(e, symbol, exitPrice, reason, at));
    }
  }

  /** A live adoption of a position writes its row without touching the windows. */
  lemma AdoptKeepsFaith(e: Engine, p: Position, at: Time)
    requires Faith(e, None) && !e.cfg.paper
    ensures Faith(Adopt(e, p, at), None)
  {
    var e1 := OpenHeld(e, p, at);
    var e2 := Adopt(e, p, at);
    LoggingKeepsFaith(e, e1, OpenedRow(p, at));
    Appended(e1.trace, Adopted(p.symbol));
    forall s
      ensures e2.policy.Window(s) == LastN(RecordsSinceReset(e2.trace, s), e2.policy.required)
      ensures Aged(e2.trace, s)
    {
      assert e1.policy.Window(s) == LastN(RecordsSinceReset(e1.trace, s), e1.policy.required);
      assert s != p.symbol ==> Aged(e1.trace, s);
    }
  }

  lemma SyncKeepsFaith(e: Engine, on: Symbol, mark: Option<real>, seen: Option<ExchangePosition>, at: Time)
    requires Faith(e, None) && KeysMatch(e)
    ensures Faith(Sync(e, on, mark, seen, at), None)
  {
    hide Faith, Adopt, CloseHeld, IsDust, WithinTolerance;
    if !e.cfg.paper {
      var local := GetPosition(e.positions, on);
      var q := RealQuantity(e.cfg, seen, mark);
      if local.Some? && q <= 0.0 {
        var exitPrice := OrElse(mark, local.value.entryPrice);
        CloseKeepsFaith(e, on, exitPrice, InferCloseReason(local.value, exitPrice), at);
      } else if q > 0.0 {
        var x := seen.value;
        if local.None? {
          AdoptKeepsFaith(e, Position(on, x.side, q, x.avgPrice, TakeProfitPrice(x.avgPrice, x.side, e.cfg.tpRule),
                                      StopLossPrice(x.avgPrice, x.side, e.cfg.slRule), at, e.runId), at);
        } else {
          AdoptKeepsFaith(e, Position(on, x.side, q, OrElse(Some(x.avgPrice), local.value.entryPrice),
                                      local.value.tp, local.value.sl, local.value.openedAt, e.runId), at);
        }
      }
    }
  }

  lemma SubmitExitKeepsFaith(e: Engine, input: TickInput, p: Position, reason: ExitReason)
    requires Faith(e, None) && KeysMatch(e)
    ensures Faith(SubmitExit(e, input, p, reason), None)
  {
    hide Faith, Sync, CloseHeld;
    SyncKeepsFaith(e, input.symbol, Some(input.price), input.resyncSeen, input.fillAt);
    var order := SubmittedOrder(e.cfg, e.runId, input, ClosingSide(p.side), p.quantity, input.price, true);
    if order.Some? {
      var e1 := Placed(e, order.value);
      SameSignals(e, e1);
      SyncKeepsFaith(e1, input.symbol, Some(input.price), input.resyncSeen, input.fillAt);
      SameSignals(e, Traded(e1, input, order.value));
      CloseKeepsFaith(Traded(e1, input, order.value), input.symbol, OrElse(order.value.price, input.price), reason,
                      input.fillAt);
    }
  }

  lemma ExitTickKeepsFaith(e: Engine, input: TickInput, p: Position)
    requires Faith(e, None) && KeysMatch(e)
    ensures Faith(ExitTick(e, input, p), None)
  {
    hide Faith, SubmitExit, CheckExit, Tune, RecordAction, ModelExitReason;
    InformedOnlySignals(e, input);
    InformedKeepsFaith(e, input);
    var hit := CheckExit(p, input.price);
    if hit.Some? {
      SubmitExitKeepsFaith(e, input, p, hit.value);
    } else {
      var e2 := Informed(e, input);
      var reason := ModelExitReason(e2.policy, p);
      if reason.Some? {
        SubmitExitKeepsFaith(e2, input, p, reason.value);
      }
    }
  }

  lemma SubmitEntryKeepsFaith(e: Engine, input: TickInput, intent: Intent)
    requires Faith(e, None)
    ensures Faith(SubmitEntry(e, input, intent), None)
  {
    hide Faith;
    var order := SubmittedOrder(e.cfg, e.runId, input, intent.side, intent.quantity, OrElse(intent.price, input.price), false);
    if order.Some? {
      var e1 := Placed(e, order.value);
      SameSignals(e, e1);
      if order.value.status == Filled {
        var e2 := Traded(e1, input, order.value);
        SameSignals(e1, e2);
        if order.value.price.Some? {
          var p := EntryPosition(input, intent, order.value, e2.runId);
          LoggingKeepsFaith(e2, OpenHeld(e2, p, input.fillAt), OpenedRow(p, input.fillAt));
          ResetKeepsFaith(OpenHeld(e2, p, input.fillAt), input.symbol);
          var e3 := ResetWindow(OpenHeld(e2, p, input.fillAt), input.symbol);
          SameSignals(e3, e3.(orders := e3.orders + Labelled(input.exitOrders, e3.runId)));
        }
      }
    }
  }

  lemma EntryTickKeepsFaith(e: Engine, input: TickInput)
    requires Faith(e, None)
    ensures Faith(EntryTick(e, input), None)
  {
    hide Faith, SubmitEntry, Informed, EntryVerdict, SoftCandidate;
    InformedKeepsFaith(e, input);
    var e1 := Informed(e, input);
    var intent := SoftCandidate(e1, input);
    if intent.Some? {
      var e2 := e1.(risk := e1.risk.AfterCheck(input.gateAt));
      SameSignals(e1, e2);
      SubmitEntryKeepsFaith(e2, input, intent.value);
    }
  }

  lemma SyncedKeepsFaith(e: Engine, input: TickInput)
    requires Faith(e, None) && KeysMatch(e)
    ensures Faith(Synced(e, input), None) && KeysMatch(Synced(e, input)) && Synced(e, input).cfg == e.cfg
  {
    hide Faith, Sync;
    SyncKeepsFaith(e, input.symbol, Some(input.price), input.syncSeen, input.syncAt);
    SameSignals(Sync(e, input.symbol, Some(input.price), input.syncSeen, input.syncAt), Synced(e, input));
    var w := SyncMoves(e, input.symbol, Some(input.price), input.syncSeen, input.syncAt);
  }

  lemma StepKeepsFaith(e: Engine, s: Step)
    requires Faith(e, None) && KeysMatch(e) && Allowed(e, s)
    ensures Faith(Apply(e, s), None)
  {
    hide Faith, Sync, ExitTick, EntryTick, ApplyConfig;
    match s
    case Tick(input) =>
      SyncedKeepsFaith(e, input);
      var e1 := Synced(e, input);
      if e1.Held(input.symbol).Some? {
        ExitTickKeepsFaith(e1, input, e1.Held(input.symbol).value);
      } else if e1.trading {
        EntryTickKeepsFaith(e1, input);
      }
    case StartupSync(on, seen, at) =>
      SyncKeepsFaith(e, on, None, seen, at);
      SameSignals(Sync(e, on, None, seen, at), Apply(e, s));
    case NewProcess(_, _, _, _, _, _) =>
      RestartKeepsFaith(e, s);
    case SetTrading(_) =>
      SameSignals(e, Apply(e, s));
    case Reconfigure(_, _, _, _, _) =>
      ReconfigureKeepsFaith(e, s);
  }

  lemma RestartKeepsFaith(e: Engine, s: Step)
    requires s.NewProcess? && Faith(e, None) && Allowed(e, s)
    ensures Faith(Apply(e, s), None)
  {
    Appended(e.trace, Restarted);
  }

  lemma ReconfigureKeepsFaith(e: Engine, s: Step)
    requires s.Reconfigure? && Faith(e, None) && Allowed(e, s)
    ensures Faith(Apply(e, s), None)
  {
    RequiredKeepsFaith(e, s.required);
    ModeKeepsFaith(SetRequired(e, s.required), s.mode);
    SameSignals(SetMode(SetRequired(e, s.required), s.mode), Apply(e, s));
  }

  lemma {:induction false} RunKeepsFaith(e: Engine, steps: seq<Step>)
    requires Fresh(e) && AllowedRun(e, steps)
    ensures Faith(Run(e, steps), None) && KeysMatch(Run(e, steps))
  {
    if steps != [] {
      var before := steps[..|steps| - 1];
      RunKeepsFaith(e, before);
      StepKeepsFaith(Run(e, before), steps[|steps| - 1]);
      RunKeepsLog(e, steps, "");
    }
  }

  // ---------------------------------------------------------------- what confirmed signals rest on

  /** The last n records all ask for the same action. */
  predicate EndsWith(history: seq<Action>, n: nat, action: Action) {
    && 1 <= n <= |history|
    && forall i :: |history| - n <= i < |history| ==> history[i] == action
  }

  lemma WindowEndsWith(e: Engine, symbol: Symbol, action: Action)
    requires Faith(e, None) && e.policy.IsConsecutive(symbol, action)
    ensures EndsWith(RecordsSinceReset(e.trace, symbol), e.policy.required, action)
    ensures !AdoptedLast(e.trace, symbol) ==> EndsWith(RecordsSinceRow(e.trace, symbol), e.policy.required, action)
    ensures e.cfg.paper ==> !AdoptedLast(e.trace, symbol)
  {
    var all := RecordsSinceReset(e.trace, symbol);
    assert e.policy.Window(symbol) == LastN(all, e.policy.required);
    TailEndsWith(all, e.policy.required, action);
    if !AdoptedLast(e.trace, symbol) {
      assert Aged(e.trace, symbol);
      LongerEndsWith(RecordsSinceRow(e.trace, symbol), |all|, e.policy.required, action);
    }
  }

  lemma TailEndsWith(history: seq<Action>, n: nat, action: Action)
    requires n >= 1 && |LastN(history, n)| == n && forall i :: 0 <= i < n ==> LastN(history, n)[i] == action
    ensures EndsWith(history, n, action)
  {
    forall i | |history| - n <= i < |history|
      ensures history[i] == action
    {
      assert history[i] == LastN(history, n)[i - (|history| - n)];
    }
  }

  lemma LongerEndsWith(history: seq<Action>, m: nat, n: nat, action: Action)
    requires EndsWith(LastN(history, m), n, action)
    ensures EndsWith(history, n, action)
  {
    var tail := LastN(history, m);
    forall i | |history| - n <= i < |history|
      ensures history[i] == action
    {
      assert history[i] == tail[i - (|history| - |tail|)];
    }
  }

  /** The engine as it stands when the tick asks its policy: synchronised, tuned, prediction recorded. */
  function Asked(e: Engine, input: TickInput): Engine {
    Informed(Synced(e, input), input)
  }

  /** Every entry order rests on N predictions of its own direction, all recorded since the windows were
      last emptied and, unless the symbol's newest row is an adoption, which it never is on paper, since that
      row, that is, since the symbol was last closed. */
  lemma EntryRestsOnSignals(e: Engine, steps: seq<Step>, input: TickInput)
    requires Fresh(e) && AllowedRun(e, steps) && Allowed(Run(e, steps), Tick(input))
    requires SubmitsEntry(Run(e, steps), input)
    ensures var asked := Asked(Run(e, steps), input);
            && asked.Held(input.symbol).None? && input.prediction.Some? && input.prediction.value.action != Hold
            && EndsWith(RecordsSinceReset(asked.trace, input.symbol), asked.policy.required, input.prediction.value.action)
            && (!AdoptedLast(asked.trace, input.symbol) ==>
                  EndsWith(RecordsSinceRow(asked.trace, input.symbol), asked.policy.required, input.prediction.value.action))
            && (e.cfg.paper ==> !AdoptedLast(asked.trace, input.symbol))
            && RowsIn(asked.trace) == asked.log
  {
    hide Faith, Sync, Informed, ProcessTick, EndsWith, EntryVerdict, Strategy.Decide;
    var s := Run(e, steps);
    RunKeepsFaith(e, steps);
    SamePaper(e, steps);
    EntryOrderApproved(s, input);
    SyncedKeepsFaith(s, input);
    InformedKeepsFaith(Synced(s, input), input);
    InformedOnlySignals(Synced(s, input), input);
    var asked := Asked(s, input);
    WindowEndsWith(asked, input.symbol, input.prediction.value.action);
    FaithRows(asked);
  }

  lemma FaithRows(e: Engine)
    requires Faith(e, None)
    ensures RowsIn(e.trace) == e.log
  {
  }

  lemma {:induction false} SamePaper(e: Engine, steps: seq<Step>)
    requires Fresh(e) && AllowedRun(e, steps)
    ensures Run(e, steps).cfg.paper == e.cfg.paper
    ensures e.cfg.paper ==> Paper(Run(e, steps))
  {
    hide ProcessTick, Sync;
    if steps != [] {
      var before := steps[..|steps| - 1];
      SamePaper(e, before);
      RunKeepsLog(e, before, "");
      StepSameConfig(Run(e, before), steps[|steps| - 1]);
    }
  }

  lemma StepSameConfig(e: Engine, s: Step)
    requires KeysMatch(e) && Allowed(e, s)
    ensures Apply(e, s).cfg.paper == e.cfg.paper
    ensures Paper(e) ==> Paper(Apply(e, s))
  {
    hide ProcessTick, Sync;
    match s
    case Tick(input) =>
      var w1, w2, gate := TickMoves(e, input);
    case StartupSync(on, seen, at) =>
      var w := SyncMoves(e, on, None, seen, at);
    case _ =>
  }

  /** The row a tick closes a position with, if it closes one. */
  predicate ClosesBy(e: Engine, input: TickInput, reason: ExitReason) {
    var e' := ProcessTick(e, input);
    |e'.log| > |e.log| && e'.log[|e.log|].status.ClosedRow? && e'.log[|e.log|].status.reason == reason
  }

  lemma DueByModel(e: Engine, input: TickInput, p: Position, reason: ExitReason)
    requires Due(e, input, p, reason) && reason in {ModelSell, ModelBuy}
    ensures p.side == (if reason == ModelSell then Long else Short)
    ensures Informed(e, input).policy.IsConsecutive(p.symbol, if reason == ModelSell then Sell else Buy)
    ensures input.gateAt - p.openedAt >= e.cfg.minHoldSeconds * SECOND
  {
    hide Informed, Policy.IsConsecutive;
  }

  /** On paper every model exit rests on N predictions against the position, all recorded while that
      very position was held (its open row is the symbol's newest), and comes after the minimum hold. */
  lemma ModelExitRestsOnSignals(e: Engine, steps: seq<Step>, input: TickInput, reason: ExitReason)
    requires Fresh(e) && e.cfg.paper && AllowedRun(e, steps) && Allowed(Run(e, steps), Tick(input))
    requires reason in {ModelSell, ModelBuy} && ClosesBy(Run(e, steps), input, reason)
    ensures var s := Run(e, steps);
            var asked := Asked(s, input);
            && s.Held(input.symbol).Some?
            && var p := s.Held(input.symbol).value;
            && p.side == (if reason == ModelSell then Long else Short)
            && RecoveredPosition(asked.log, input.symbol) == Some(p)
            && RowsIn(asked.trace) == asked.log
            && EndsWith(RecordsSinceRow(asked.trace, input.symbol), asked.policy.required,
                        if reason == ModelSell then Sell else Buy)
            && input.gateAt - p.openedAt >= asked.cfg.minHoldSeconds * SECOND
  {
    hide Faith, Informed, ProcessTick, EndsWith, Written, AdoptedLast, RecordsSinceRow, Due, Policy.IsConsecutive;
    var s := Run(e, steps);
    RunKeepsFaith(e, steps);
    RunKeepsLog(e, steps, input.symbol);
    SamePaper(e, steps);
    var o := PaperTick(s, input);
    InformedOnlySignals(Ready(s, input), input);
    SyncedKeepsFaith(s, input);
    InformedKeepsFaith(Synced(s, input), input);
    FaithRows(Asked(s, input));
    var p := s.Held(input.symbol).value;
    HeldSymbol(s, input.symbol);
    DueByModel(Ready(s, input), input, p, reason);
    WindowEndsWith(Asked(s, input), input.symbol, if reason == ModelSell then Sell else Buy);
  }

  lemma HeldSymbol(e: Engine, symbol: Symbol)
    requires KeysMatch(e) && e.Held(symbol).Some?
    ensures e.Held(symbol).value.symbol == symbol
  {
  }

  // ---------------------------------------------------------------- live runs

  /** Every prediction ever recorded on the symbol. */
  function RecordsOn(trace: seq<Event>, symbol: Symbol): seq<Action> {
    if trace == [] then []
    else
      var last := trace[|trace| - 1];
      RecordsOn(trace[..|trace| - 1], symbol) + (if last.Recorded? && last.symbol == symbol then [last.action] else [])
  }

  predicate SuffixOf(tail: seq<Action>, all: seq<Action>) {
    tail == LastN(all, |tail|)
  }

  lemma SuffixGrows(tail: seq<Action>, all: seq<Action>, action: Action)
    ensures SuffixOf([], all)
    ensures SuffixOf(tail, all) ==> SuffixOf(tail + [action], all + [action])
  {
  }

  lemma {:induction false} BothAreSuffixes(trace: seq<Event>, symbol: Symbol)
    ensures SuffixOf(RecordsSinceReset(trace, symbol), RecordsOn(trace, symbol))
    ensures SuffixOf(RecordsSinceRow(trace, symbol), RecordsOn(trace, symbol))
  {
    hide SuffixOf;
    if trace == [] {
      SuffixGrows([], [], Hold);
    } else {
      var before, last := trace[..|trace| - 1], trace[|trace| - 1];
      var all := RecordsOn(before, symbol);
      BothAreSuffixes(before, symbol);
      var action := if last.Recorded? then last.action else Hold;
      SuffixGrows(RecordsSinceReset(before, symbol), all, action);
      SuffixGrows(RecordsSinceRow(before, symbol), all, action);
      assert all + [] == all && RecordsSinceReset(before, symbol) + [] == RecordsSinceReset(before, symbol);
      assert RecordsSinceRow(before, symbol) + [] == RecordsSinceRow(before, symbol);
    }
  }

  lemma ShorterEndsWith(history: seq<Action>, k: nat, n: nat, action: Action)
    requires EndsWith(history, n, action) && n <= k
    ensures EndsWith(LastN(history, k), n, action)
  {
    var tail := LastN(history, k);
    forall i | |tail| - n <= i < |tail|
      ensures tail[i] == action
    {
      assert tail[i] == history[i + (|history| - |tail|)];
    }
  }

  /** Paper or live, a confirmed signal rests on N predictions recorded since the symbol's newest row, unless a
      synchronisation wrote that row and fewer than N predictions came after it. */
  lemma ConfirmedSinceRowIff(e: Engine, steps: seq<Step>, input: TickInput, action: Action)
    requires Fresh(e) && AllowedRun(e, steps) && Allowed(Run(e, steps), Tick(input))
    requires Asked(Run(e, steps), input).policy.IsConsecutive(input.symbol, action)
    ensures var asked := Asked(Run(e, steps), input);
            EndsWith(RecordsSinceRow(asked.trace, input.symbol), asked.policy.required, action) <==>
            !(AdoptedLast(asked.trace, input.symbol)
              && |RecordsSinceRow(asked.trace, input.symbol)| < asked.policy.required)
  {
    hide Faith, Sync, Informed, ProcessTick, Policy.IsConsecutive;
    var s := Run(e, steps);
    RunKeepsFaith(e, steps);
    SyncedKeepsFaith(s, input);
    InformedKeepsFaith(Synced(s, input), input);
    var asked := Asked(s, input);
    var all, sinceReset, sinceRow := RecordsOn(asked.trace, input.symbol), RecordsSinceReset(asked.trace, input.symbol),
                                     RecordsSinceRow(asked.trace, input.symbol);
    WindowEndsWith(asked, input.symbol, action);
    BothAreSuffixes(asked.trace, input.symbol);
    LongerEndsWith(all, |sinceReset|, asked.policy.required, action);
    if |sinceRow| >= asked.policy.required {
      ShorterEndsWith(all, |sinceRow|, asked.policy.required, action);
    }
  }

  lemma AdoptedBySync(e: Engine, input: TickInput, x: ExchangePosition)
    requires !e.cfg.paper && e.cfg.minOrderNotional == 5.0 && e.cfg.tpRule == 0.0 && e.cfg.slRule == 0.0
    requires e.positions == map[] && x == ExchangePosition(Long, 1.0, 10.0) && input.syncSeen == Some(x)
    ensures var p := Position(input.symbol, Long, 1.0, 10.0, None, None, input.syncAt, e.runId);
            var row := OpenedRow(p, input.syncAt);
            Synced(e, input) == e.(positions := map[input.symbol := p], log := e.log + [row],
                                   trace := e.trace + [Logged(row, e.runId)] + [Adopted(input.symbol)],
                                   clock := input.fillAt)
  {
  }

  lemma ModelClosesLong(e: Engine, input: TickInput, p: Position)
    requires !e.cfg.paper && e.cfg.minHoldSeconds <= 0 && e.Held(input.symbol) == Some(p)
    requires p.side == Long && p.symbol == input.symbol && p.tp == None && p.sl == None && p.openedAt < input.gateAt
    requires e.policy.mode == LongOnly && e.policy.required == 2 && e.policy.Window(input.symbol) == [Sell, Sell]
    requires input.tuning == None && input.prediction == Some(Prediction(Sell, None, false))
    requires input.exitSeen.Some? && input.exitSeen.value.quantity > 0.0 && input.fill == Some(FillReport(Filled, 1.0, Some(9.0)))
    ensures ExitTick(e, input, p).log == e.log + [ClosedRowOf(Close(p, 9.0, ModelSell), input.fillAt)]
    ensures Informed(e, input).trace == e.trace + [Recorded(input.symbol, Sell)]
  {
    hide Close, Risk.RecordResult;
    assert Informed(e, input).policy.Window(input.symbol) == [Sell, Sell];
  }

  /** Live there may be fewer. A position adopted from the exchange does not empty the windows, so the model
      can close it in the very tick it was adopted, on signals recorded while the engine was flat. */
  lemma AdoptedPositionClosedAtOnce(e: Engine, input: TickInput, x: ExchangePosition)
    requires !e.cfg.paper && e.cfg.minHoldSeconds <= 0 && e.cfg.minOrderNotional == 5.0
    requires e.cfg.tpRule == 0.0 && e.cfg.slRule == 0.0
    requires e.policy.mode == LongOnly && e.policy.required == 2 && e.policy.Window(input.symbol) == [Sell, Sell]
    requires e.positions == map[] && x == ExchangePosition(Long, 1.0, 10.0)
    requires input.syncAt < input.gateAt && input.tuning == None
    requires input.prediction == Some(Prediction(Sell, None, false))
    requires input.syncSeen == Some(x) && input.exitSeen == Some(x)
    requires input.fill == Some(FillReport(Filled, 1.0, Some(9.0)))
    ensures var e' := ProcessTick(e, input);
            && |e'.log| == |e.log| + 2
            && e'.log[|e.log|] == OpenedRow(Position(input.symbol, Long, 1.0, 10.0, None, None, input.syncAt, e.runId), input.syncAt)
            && e'.log[|e.log| + 1].status == ClosedRow(-1.0, ModelSell, 9.0)
            && RecordsSinceRow(Asked(e, input).trace, input.symbol) == [Sell]
            && AdoptedLast(Asked(e, input).trace, input.symbol)
  {
    hide ExitTick, Informed, Sync;
    var p := Position(input.symbol, Long, 1.0, 10.0, None, None, input.syncAt, e.runId);
    var e1 := Synced(e, input);
    AdoptedBySync(e, input, x);
    ModelClosesLong(e1, input, p);
    Appended(e.trace, Logged(OpenedRow(p, input.syncAt), e.runId));
    Appended(e.trace + [Logged(OpenedRow(p, input.syncAt), e.runId)], Adopted(input.symbol));
    assert RecordsSinceRow(e.trace + [Logged(OpenedRow(p, input.syncAt), e.runId)], input.symbol) == [];
    assert RecordsSinceRow(e1.trace, input.symbol) == [];
    Appended(e1.trace, Recorded(input.symbol, Sell));
  }

  const FLAT: Engine :=
    Engine(EngineConfig(false, false, false, 0, 0.0, 0.0, 5.0), "prod_timesfm_run", true, map[], Policy(2, LongOnly, map[]),
           Risk(RiskConfig(0.0, -1000.0, 180, 0.0, 0.0, 0, 0), 0, None), Strategy(0.1, 0.0, 1.0, None, 0.0), map[], [], [], [],
           0, 0, [])

  /** A SELL prediction at 9, with the exchange flat or not. */
  function SellAt(at: Time, seen: Option<ExchangePosition>): TickInput {
    TickInput("XRPUSDT", 9.0, at, at + 1, at + 2, None, Some(Prediction(Sell, None, false)), 0.0, seen, seen, None, [],
              Some(FillReport(Filled, 1.0, Some(9.0))), [])
  }

  lemma FlatSell(e: Engine, at: Time)
    requires !e.cfg.paper && e.trading && e.positions == map[] && e.policy.required == 2 && e.policy.mode == LongOnly
    ensures var input := SellAt(at, None);
            ProcessTick(e, input) == e.(clock := at + 2, policy := e.policy.Record("XRPUSDT", Sell),
                                        trace := e.trace + [Recorded("XRPUSDT", Sell)])
  {
    var input := SellAt(at, None);
    assert Synced(e, input) == Ready(e, input);
    assert SoftCandidate(Informed(Ready(e, input), input), input) == None;
  }

  const SOLD_TWICE: seq<Step> := [Tick(SellAt(1, None)), Tick(SellAt(4, None))]

  lemma TwoSells()
    ensures Fresh(FLAT) && AllowedRun(FLAT, SOLD_TWICE)
    ensures var s := Run(FLAT, SOLD_TWICE);
            && s.cfg == FLAT.cfg && s.clock == 6 && s.positions == map[] && s.log == []
            && s.policy.required == 2 && s.policy.mode == LongOnly && s.policy.Window("XRPUSDT") == [Sell, Sell]
  {
    hide ProcessTick;
    assert SOLD_TWICE[..1] == [Tick(SellAt(1, None))] && SOLD_TWICE[..1][..0] == [] && Run(FLAT, []) == FLAT;
    FlatSell(FLAT, 1);
    FlatSell(Run(FLAT, SOLD_TWICE[..1]), 4);
  }

  /** And it is reached: two SELL predictions while flat, which long_only acts on with nothing, then a long of one at 10
      found on the exchange and sold at 9 in the same tick. */
  lemma AdoptedCloseIsReachable()
    ensures Fresh(FLAT) && AllowedRun(FLAT, SOLD_TWICE)
    ensures var s, input := Run(FLAT, SOLD_TWICE), SellAt(7, Some(ExchangePosition(Long, 1.0, 10.0)));
            && Allowed(s, Tick(input))
            && var e' := ProcessTick(s, input);
            && s.log == [] && |e'.log| == 2
            && e'.log[1].status == ClosedRow(-1.0, ModelSell, 9.0)
            && RecordsSinceRow(Asked(s, input).trace, "XRPUSDT") == [Sell]
  {
    hide ProcessTick, Run, AllowedRun, RecordsSinceRow, Asked, AdoptedLast;
    TwoSells();
    AdoptedPositionClosedAtOnce(Run(FLAT, SOLD_TWICE), SellAt(7, Some(ExchangePosition(Long, 1.0, 10.0))),
                                ExchangePosition(Long, 1.0, 10.0));
  }
}
