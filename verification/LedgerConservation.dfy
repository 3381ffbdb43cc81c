/** Cash in minus cash out is realised profit minus what is still tied up, over every paper run; and what positions
    held across a switch of the run id, or across midnight, do to the daily figure the risk gate reads. */
module LedgerConservation {
  import opened Domain
  import opened PositionManagement
  import opened Stores
  import opened PaperTrading
  import opened EngineModel
  import opened TickShapes
  import opened CrashRecovery
  import opened SignalProvenance

  /** Cash tied up in a position: spent on a long, received for a short. */
  function Cost(p: Position): real {
    if p.side == Long then Notional(p.quantity, p.entryPrice) else -Notional(p.quantity, p.entryPrice)
  }

  ghost function TotalCost(book: Book): real
    decreases |book|
  {
    if book == map[] then 0.0
    else
      var s :| s in book;
      assert |book - {s}| < |book| by { assert (book - {s}).Keys == book.Keys - {s}; }
      Cost(book[s]) + TotalCost(book - {s})
  }

  lemma {:induction false} TotalCostWithout(book: Book, s: Symbol)
    requires s in book
    ensures TotalCost(book) == Cost(book[s]) + TotalCost(book - {s})
    decreases |book|
  {
    var t: Symbol :| t in book && TotalCost(book) == Cost(book[t]) + TotalCost(book - {t});
    if s != t {
      assert (book - {t}).Keys == book.Keys - {t};
      assert (book - {s}).Keys == book.Keys - {s};
      TotalCostWithout(book - {t}, s);
      TotalCostWithout(book - {s}, t);
      assert book - {t} - {s} == book - {s} - {t};
    }
  }

  function ResultOf(row: Row): real {
    if row.status.ClosedRow? then row.status.pnl else 0.0
  }

  // ---------------------------------------------------------------- by run id and day

  /** What was realised in scope. */
  function RealizedUnder(written: seq<(Row, RunId)>, c: Scope): real {
    if written == [] then 0.0
    else
      var (row, under) := written[|written| - 1];
      RealizedUnder(written[..|written| - 1], c) + (if c.Covers(under, row.snapshotAt) then ResultOf(row) else 0.0)
  }

  predicate OpenedIn(p: Position, c: Scope) {
    c.Covers(p.runId, p.openedAt)
  }

  /** The cost of positions closed in scope that were opened out of it. */
  function CarriedIn(written: seq<(Row, RunId)>, c: Scope): real {
    if written == [] then 0.0
    else
      var (row, under) := written[|written| - 1];
      CarriedIn(written[..|written| - 1], c)
      + (if row.status.ClosedRow? && c.Covers(under, row.snapshotAt) && !OpenedIn(row.position, c) then Cost(row.position)
         else 0.0)
  }

  /** The cost of positions opened in scope that were closed out of it. */
  function CarriedOut(written: seq<(Row, RunId)>, c: Scope): real {
    if written == [] then 0.0
    else
      var (row, under) := written[|written| - 1];
      CarriedOut(written[..|written| - 1], c)
      + (if row.status.ClosedRow? && !c.Covers(under, row.snapshotAt) && OpenedIn(row.position, c) then Cost(row.position)
         else 0.0)
  }

  function OpenedUnder(book: Book, c: Scope): Book {
    map s | s in book && OpenedIn(book[s], c) :: book[s]
  }

  /** The cash flow in scope: what was realised, plus what was taken over and minus what was handed on, minus what is
      held. */
  ghost predicate Balanced(e: Engine, c: Scope) {
    var w := Written(e.trace);
    DailyPnl(e.trades, c) == RealizedUnder(w, c) + CarriedIn(w, c) - CarriedOut(w, c)
                               - TotalCost(OpenedUnder(e.positions, c))
  }

  /** Every symbol's position is what the log would restore, positions have quantity, and every scope balances. */
  ghost predicate LedgerInv(e: Engine) {
    && Paper(e)
    && (forall s :: LogInv(e.positions, e.log, s, e.clock) && Recoverable(e.positions, e.log, s))
    && (forall s :: s in e.positions ==> e.positions[s].quantity > 0.0)
    && (forall c: Scope :: Balanced(e, c))
  }

  lemma AppendTrade(trades: seq<Trade>, t: Trade, c: Scope)
    ensures DailyPnl(trades + [t], c) == DailyPnl(trades, c) + (if c.Covers(t.runId, t.executedAt) then CashFlow(t) else 0.0)
  {
    assert (trades + [t])[..|trades|] == trades;
  }

  lemma AppendWritten(written: seq<(Row, RunId)>, row: Row, under: RunId, c: Scope)
    ensures var w := written + [(row, under)];
            && RealizedUnder(w, c) == RealizedUnder(written, c) + (if c.Covers(under, row.snapshotAt) then ResultOf(row) else 0.0)
            && CarriedIn(w, c) == CarriedIn(written, c)
               + (if row.status.ClosedRow? && c.Covers(under, row.snapshotAt) && !OpenedIn(row.position, c) then
                    Cost(row.position) else 0.0)
            && CarriedOut(w, c) == CarriedOut(written, c)
               + (if row.status.ClosedRow? && !c.Covers(under, row.snapshotAt) && OpenedIn(row.position, c) then
                    Cost(row.position) else 0.0)
  {
    assert (written + [(row, under)])[..|written|] == written;
  }

  /** Selling a long, or buying back a short, turns its cost into its profit. */
  lemma ClosingTrade(e: Engine, input: TickInput, p: Position, price: real)
    ensures CashFlow(PaperTrade(e, input, ClosingSide(p.side), p.quantity, price)) ==
            RealizedPnl(p.side, p.entryPrice, price, p.quantity) + Cost(p)
  {
  }

  lemma OpeningTrade(e: Engine, input: TickInput, p: Position)
    ensures CashFlow(PaperTrade(e, input, OpeningSide(p.side), p.quantity, p.entryPrice)) == -Cost(p)
  {
  }

  lemma BookGains(book: Book, s: Symbol, p: Position, c: Scope)
    requires s !in book
    ensures TotalCost(OpenedUnder(book[s := p], c)) ==
            TotalCost(OpenedUnder(book, c)) + (if OpenedIn(p, c) then Cost(p) else 0.0)
  {
    var after := OpenedUnder(book[s := p], c);
    if OpenedIn(p, c) {
      TotalCostWithout(after, s);
      assert after - {s} == OpenedUnder(book, c);
    } else {
      assert after == OpenedUnder(book, c);
    }
  }

  lemma BookLoses(book: Book, s: Symbol, c: Scope)
    requires s in book
    ensures TotalCost(OpenedUnder(book - {s}, c)) ==
            TotalCost(OpenedUnder(book, c)) - (if OpenedIn(book[s], c) then Cost(book[s]) else 0.0)
  {
    if OpenedIn(book[s], c) {
      TotalCostWithout(OpenedUnder(book, c), s);
      assert OpenedUnder(book, c) - {s} == OpenedUnder(book - {s}, c);
    } else {
      assert OpenedUnder(book - {s}, c) == OpenedUnder(book, c);
    }
  }

  lemma EntryBalances(e: Engine, e': Engine, input: TickInput, p: Position, intent: Intent, c: Scope)
    requires PaperShape(Ready(e, input), e', Entered(p, intent), input) && Balanced(e, c)
    requires forall s :: s in e.positions ==> e.positions[s].quantity > 0.0
    ensures Balanced(e', c)
  {
    hide Written, DailyPnl, TotalCost, OpenedUnder, RealizedUnder, CarriedIn, CarriedOut, Cost, CashFlow, Approved;
    AppendTrade(e.trades, PaperTrade(e, input, OpeningSide(p.side), p.quantity, p.entryPrice), c);
    AppendWritten(Written(e.trace), OpenedRow(p, input.fillAt), e.runId, c);
    BookGains(e.positions, input.symbol, p, c);
    OpeningTrade(e, input, p);
  }

  lemma ExitBalances(e: Engine, e': Engine, input: TickInput, p: Position, reason: ExitReason, c: Scope)
    requires PaperShape(Ready(e, input), e', Exited(p, reason), input) && Balanced(e, c)
    ensures Balanced(e', c)
  {
    hide Written, DailyPnl, TotalCost, OpenedUnder, RealizedUnder, CarriedIn, CarriedOut, Cost, CashFlow, Due, RealizedPnl;
    AppendTrade(e.trades, PaperTrade(e, input, ClosingSide(p.side), p.quantity, input.price), c);
    AppendWritten(Written(e.trace), ClosedRowOf(Close(p, input.price, reason), input.fillAt), e.runId, c);
    BookLoses(e.positions, input.symbol, c);
    ClosingTrade(e, input, p, input.price);
  }

  lemma TickKeepsBalance(e: Engine, input: TickInput)
    requires LedgerInv(e)
    ensures var e' := ProcessTick(e, input);
            && Paper(e')
            && (forall s :: s in e'.positions ==> e'.positions[s].quantity > 0.0)
            && (forall c: Scope :: Balanced(e', c))
  {
    hide ProcessTick, Balanced, LogInv, Recoverable, Written, Approved, Due, Fill, Close;
    var o := PaperTick(e, input);
    var e' := ProcessTick(e, input);
    forall c: Scope
      ensures Balanced(e', c)
    {
      assert Balanced(e, c);
      match o
      case Idle => SameBooks(e, e', c);
      case Entered(p, intent) => EntryBalances(e, e', input, p, intent, c);
      case Exited(p, reason) => ExitBalances(e, e', input, p, reason, c);
    }
  }

  lemma SameBooks(e: Engine, e': Engine, c: Scope)
    requires Balanced(e, c)
    requires e'.trades == e.trades && e'.positions == e.positions && Written(e'.trace) == Written(e.trace)
    ensures Balanced(e', c)
  {
    hide Written, DailyPnl, TotalCost, OpenedUnder, RealizedUnder, CarriedIn, CarriedOut;
  }

  /** A restart that recovers at least everything held. */
  predicate RecoversAllHeld(e: Engine, s: Step) {
    s.NewProcess? ==> e.positions.Keys <= s.symbols
  }

  ghost predicate CoveringRun(e: Engine, steps: seq<Step>) {
    steps != [] ==>
      CoveringRun(e, steps[..|steps| - 1]) && RecoversAllHeld(Run(e, steps[..|steps| - 1]), steps[|steps| - 1])
  }

  lemma RestartKeepsBook(e: Engine, s: Step)
    requires LedgerInv(e) && s.NewProcess? && RecoversAllHeld(e, s) && Allowed(e, s)
    ensures Apply(e, s).positions == e.positions
    ensures forall t :: Recoverable(e.positions, e.log, t)
  {
    hide Balanced;
    forall t
      ensures t in RecoverAll(e.log, s.symbols) <==> t in e.positions
      ensures t in e.positions ==> RecoverAll(e.log, s.symbols)[t] == e.positions[t]
    {
      assert Recoverable(e.positions, e.log, t);
    }
  }

  lemma QuietStep(e: Engine, s: Step)
    requires Paper(e) && !s.Tick?
    ensures Written(Apply(e, s).trace) == Written(e.trace) && Apply(e, s).trades == e.trades
    ensures !s.NewProcess? ==> Apply(e, s).positions == e.positions
  {
    hide Written;
    WrittenAppend(e.trace, WindowsCleared);
    WrittenAppend(e.trace + [WindowsCleared], WindowsCleared);
    WrittenAppend(e.trace, Restarted);
  }

  lemma StepKeepsLedger(e: Engine, s: Step)
    requires LedgerInv(e) && Allowed(e, s) && RecoversAllHeld(e, s)
    ensures LedgerInv(Apply(e, s))
  {
    hide ProcessTick, LogInv, Recoverable, Balanced;
    var e' := Apply(e, s);
    if s.NewProcess? {
      RestartKeepsBook(e, s);
    }
    forall t
      ensures LogInv(e'.positions, e'.log, t, e'.clock) && Recoverable(e'.positions, e'.log, t)
    {
      StepKeepsLog(e, s, t);
      if s.NewProcess? {
        assert e'.log == e.log;
      }
    }
    if s.Tick? {
      TickKeepsBalance(e, s.input);
    } else {
      QuietStep(e, s);
      forall c: Scope
        ensures Balanced(e', c)
      {
        SameBooks(e, e', c);
      }
    }
  }

  lemma FreshLedger(e: Engine)
    requires Fresh(e) && e.cfg.paper
    ensures LedgerInv(e)
  {
    forall c: Scope
      ensures Balanced(e, c)
    {
      assert OpenedUnder(e.positions, c) == map[];
    }
  }

  lemma {:induction false} RunKeepsLedger(e: Engine, steps: seq<Step>)
    requires Fresh(e) && e.cfg.paper && AllowedRun(e, steps) && CoveringRun(e, steps)
    ensures LedgerInv(Run(e, steps))
  {
    hide LedgerInv;
    if steps == [] {
      FreshLedger(e);
    } else {
      var before := steps[..|steps| - 1];
      RunKeepsLedger(e, before);
      StepKeepsLedger(Run(e, before), steps[|steps| - 1]);
    }
  }

  /** Over every paper run from a fresh engine, ticks on any symbols, long and short, run ids switched at will,
      restarts that recover what was held: sells minus buys of any run id since any instant is what was realised in
      that scope, plus the cost of positions closed in it that were opened out of it, minus that of positions opened in
      it that were closed out of it, minus what its open longs cost plus what its open shorts brought in. */
  lemma CashFlowInScope(e: Engine, steps: seq<Step>, c: Scope)
    requires Fresh(e) && e.cfg.paper && AllowedRun(e, steps) && CoveringRun(e, steps)
    ensures var s := Run(e, steps);
            var w := Written(s.trace);
            DailyPnl(s.trades, c) == RealizedUnder(w, c) + CarriedIn(w, c) - CarriedOut(w, c)
                                     - TotalCost(OpenedUnder(s.positions, c))
  {
    RunKeepsLedger(e, steps);
    assert Balanced(Run(e, steps), c);
  }

  /** So with nothing held the figure the risk gate reads is what was realised today under the run in force if and only
      if the positions taken over and those handed on, across midnight or across a switch, cost the same. */
  lemma GateReadsRealizedIff(e: Engine, steps: seq<Step>, now: Time)
    requires Fresh(e) && e.cfg.paper && AllowedRun(e, steps) && CoveringRun(e, steps)
    requires forall s :: Run(e, steps).Held(s).None?
    ensures var s := Run(e, steps);
            var w, today := Written(s.trace), Today(s.runId, now);
            DailyPnl(s.trades, today) == RealizedUnder(w, today) <==> CarriedIn(w, today) == CarriedOut(w, today)
  {
    hide DailyPnl, RealizedUnder, CarriedIn, CarriedOut, Written, KstTodayStart;
    var s := Run(e, steps);
    RunKeepsLedger(e, steps);
    CashFlowInScope(e, steps, Today(s.runId, now));
    NothingHeld(s);
  }

  lemma NothingHeld(e: Engine)
    requires forall s :: s in e.positions ==> e.positions[s].quantity > 0.0
    requires forall s :: e.Held(s).None?
    ensures e.positions == map[] && forall c: Scope :: TotalCost(OpenedUnder(e.positions, c)) == 0.0
  {
    assert forall s :: s in e.positions ==> e.Held(s).Some?;
    assert e.positions == map[];
    forall c: Scope
      ensures TotalCost(OpenedUnder(e.positions, c)) == 0.0
    {
      assert OpenedUnder(e.positions, c) == map[];
    }
  }

  // ---------------------------------------------------------------- runs that keep their run id

  function RealizedSince(log: seq<Row>, since: Time): real {
    if log == [] then 0.0
    else
      var last := log[|log| - 1];
      RealizedSince(log[..|log| - 1], since) + (if last.snapshotAt >= since then ResultOf(last) else 0.0)
  }

  /** The cost of positions closed since an instant that were opened before it. */
  function Overnight(log: seq<Row>, since: Time): real {
    if log == [] then 0.0
    else
      var last := log[|log| - 1];
      Overnight(log[..|log| - 1], since)
      + (if last.status.ClosedRow? && last.snapshotAt >= since && last.position.openedAt < since then Cost(last.position)
         else 0.0)
  }

  function OpenedSince(book: Book, since: Time): Book {
    map s | s in book && book[s].openedAt >= since :: book[s]
  }

  /** Everything written and held belongs to the one run, and nothing was closed before it was opened. */
  ghost predicate AllUnder(e: Engine, run: RunId) {
    && e.runId == run
    && (forall i :: 0 <= i < |Written(e.trace)| ==> RowUnder(Written(e.trace)[i], run))
    && (forall s :: s in e.positions ==> e.positions[s].runId == run && e.positions[s].openedAt <= e.clock)
  }

  predicate RowUnder(w: (Row, RunId), run: RunId) {
    w.1 == run && w.0.position.runId == run && w.0.position.openedAt <= w.0.snapshotAt
  }

  lemma TickStaysUnder(e: Engine, input: TickInput, run: RunId)
    requires Paper(e) && Allowed(e, Tick(input)) && AllUnder(e, run)
    ensures AllUnder(ProcessTick(e, input), run)
  {
    hide ProcessTick, Approved, Due, Fill, RealizedPnl, Written;
    var o := PaperTick(e, input);
    var e' := ProcessTick(e, input);
    var before, after := Written(e.trace), Written(e'.trace);
    assert after == before || (|after| == |before| + 1 && after[..|before|] == before);
    forall i | 0 <= i < |after|
      ensures RowUnder(after[i], run)
    {
      assert i < |before| ==> after[i] == before[i];
    }
  }

  lemma {:induction false} RunStaysUnder(e: Engine, steps: seq<Step>)
    requires Fresh(e) && e.cfg.paper && AllowedRun(e, steps) && CoveringRun(e, steps) && KeepsRunId(steps, e.runId)
    ensures AllUnder(Run(e, steps), e.runId)
  {
    hide ProcessTick, LedgerInv, RowUnder;
    if steps == [] {
      assert Written(e.trace) == [];
    } else {
      var before, s := steps[..|steps| - 1], steps[|steps| - 1];
      var b := Run(e, before);
      RunStaysUnder(e, before);
      SamePaper(e, before);
      if s.Tick? {
        TickStaysUnder(b, s.input, e.runId);
      } else {
        QuietStep(b, s);
        if s.NewProcess? {
          RunKeepsLedger(e, before);
          RestartKeepsBook(b, s);
        }
      }
    }
  }

  function RowsOnly(written: seq<(Row, RunId)>): seq<Row> {
    seq(|written|, i requires 0 <= i < |written| => written[i].0)
  }

  lemma {:induction false} WrittenRows(trace: seq<Event>)
    ensures RowsOnly(Written(trace)) == RowsIn(trace)
  {
    if trace != [] {
      WrittenRows(trace[..|trace| - 1]);
    }
  }

  lemma {:induction false} OneRun(written: seq<(Row, RunId)>, run: RunId, since: Time)
    requires forall i :: 0 <= i < |written| ==> RowUnder(written[i], run)
    ensures var c, rows := Scope(run, since), RowsOnly(written);
            && RealizedUnder(written, c) == RealizedSince(rows, since)
            && CarriedIn(written, c) == Overnight(rows, since) && CarriedOut(written, c) == 0.0
  {
    if written != [] {
      OneRun(written[..|written| - 1], run, since);
      assert RowsOnly(written)[..|written| - 1] == RowsOnly(written[..|written| - 1]);
    }
  }

  /** Over every such run that keeps its run id, since any instant: sells minus buys is the profit of all closes, plus the
      cost of those opened before the instant, minus what longs opened since cost plus what shorts opened since brought
      in. */
  lemma LedgerConserved(e: Engine, steps: seq<Step>, since: Time)
    requires Fresh(e) && e.cfg.paper && AllowedRun(e, steps) && CoveringRun(e, steps) && KeepsRunId(steps, e.runId)
    ensures var s := Run(e, steps);
            DailyPnl(s.trades, Scope(s.runId, since))
            == RealizedSince(s.log, since) + Overnight(s.log, since) - TotalCost(OpenedSince(s.positions, since))
  {
    hide DailyPnl, RealizedUnder, CarriedIn, CarriedOut, RealizedSince, Overnight, Written, Faith, TotalCost;
    var s := Run(e, steps);
    RunStaysUnder(e, steps);
    RunKeepsFaith(e, steps);
    FaithRows(s);
    WrittenRows(s.trace);
    OneRun(Written(s.trace), e.runId, since);
    CashFlowInScope(e, steps, Scope(e.runId, since));
    assert OpenedUnder(s.positions, Scope(e.runId, since)) == OpenedSince(s.positions, since);
  }

  /** So whenever nothing is held the figure the risk gate reads is what was realised today if and only if the positions
      closed today that were opened earlier cost nothing on balance. */
  lemma GateReadsRealizedPnl(e: Engine, steps: seq<Step>, now: Time)
    requires Fresh(e) && e.cfg.paper && AllowedRun(e, steps) && CoveringRun(e, steps) && KeepsRunId(steps, e.runId)
    requires forall s :: Run(e, steps).Held(s).None?
    ensures var s, midnight := Run(e, steps), KstTodayStart(now);
            && DailyPnl(s.trades, Today(s.runId, now)) == RealizedSince(s.log, midnight) + Overnight(s.log, midnight)
            && (DailyPnl(s.trades, Today(s.runId, now)) == RealizedSince(s.log, midnight) <==> Overnight(s.log, midnight) == 0.0)
  {
    hide DailyPnl, RealizedSince, Overnight, KstTodayStart;
    LedgerConserved(e, steps, KstTodayStart(now));
    RunKeepsLedger(e, steps);
    NothingHeld(Run(e, steps));
  }

  // ---------------------------------------------------------------- one symbol

  predicate OnlySymbol(steps: seq<Step>, symbol: Symbol) {
    forall i :: 0 <= i < |steps| && steps[i].Tick? ==> steps[i].input.symbol == symbol
  }

  predicate AlternatesAt(log: seq<Row>, symbol: Symbol, i: nat)
    requires i < |log|
  {
    && log[i].position.symbol == symbol && log[i].position.quantity > 0.0
    && if i % 2 == 0 then log[i].status.OpenRow? && log[i].position.openedAt == log[i].snapshotAt
       else log[i].status.ClosedRow? && log[i].position == log[i - 1].position
  }

  /** Opens and their closes alternate in time, all on the one symbol. */
  ghost predicate Alternates(log: seq<Row>, symbol: Symbol) {
    && (forall i, j :: 0 <= i < j < |log| ==> log[i].snapshotAt < log[j].snapshotAt)
    && (forall i :: 0 <= i < |log| ==> AlternatesAt(log, symbol, i))
  }

  lemma PrefixAlternates(log: seq<Row>, symbol: Symbol, n: nat)
    requires Alternates(log, symbol) && n <= |log|
    ensures Alternates(log[..n], symbol)
  {
    forall i | 0 <= i < n
      ensures AlternatesAt(log[..n], symbol, i)
    {
      assert AlternatesAt(log, symbol, i);
    }
  }

  ghost predicate OneSymbol(e: Engine, symbol: Symbol) {
    && Alternates(e.log, symbol)
    && (forall i :: 0 <= i < |e.log| ==> e.log[i].snapshotAt <= e.clock)
    && e.positions == if |e.log| % 2 == 0 then map[] else map[symbol := e.log[|e.log| - 1].position]
  }

  lemma AlternatesOn(log: seq<Row>, symbol: Symbol, row: Row, now: Time)
    requires Alternates(log, symbol) && forall i :: 0 <= i < |log| ==> log[i].snapshotAt <= now
    requires row.snapshotAt > now && row.position.symbol == symbol && row.position.quantity > 0.0
    requires if |log| % 2 == 0 then row.status.OpenRow? && row.position.openedAt == row.snapshotAt
             else row.status.ClosedRow? && row.position == log[|log| - 1].position
    ensures Alternates(log + [row], symbol)
  {
    forall i | 0 <= i < |log + [row]|
      ensures AlternatesAt(log + [row], symbol, i)
    {
      assert i < |log| ==> AlternatesAt(log, symbol, i);
    }
  }

  lemma TickKeepsOneSymbol(e: Engine, input: TickInput)
    requires Paper(e) && Allowed(e, Tick(input)) && OneSymbol(e, input.symbol)
    ensures OneSymbol(ProcessTick(e, input), input.symbol)
  {
    hide ProcessTick, Approved, Due, Fill, RealizedPnl, Written, Alternates;
    var o := PaperTick(e, input);
    var e' := ProcessTick(e, input);
    assert e'.log != e.log ==> e'.log == e.log + [e'.log[|e.log|]];
    if e'.log != e.log {
      var row := e'.log[|e.log|];
      LastQuantity(e.log, input.symbol);
      assert |e.log| % 2 == 0 <==> e.positions == map[];
      AlternatesOn(e.log, input.symbol, row, e.clock);
    }
  }

  lemma LastQuantity(log: seq<Row>, symbol: Symbol)
    requires Alternates(log, symbol)
    ensures log != [] ==> log[|log| - 1].position.quantity > 0.0 && log[|log| - 1].position.symbol == symbol
  {
    assert log != [] ==> AlternatesAt(log, symbol, |log| - 1);
  }

  lemma {:induction false} RunKeepsOneSymbol(e: Engine, steps: seq<Step>, symbol: Symbol)
    requires Fresh(e) && e.cfg.paper && AllowedRun(e, steps) && CoveringRun(e, steps) && OnlySymbol(steps, symbol)
    ensures OneSymbol(Run(e, steps), symbol)
  {
    hide ProcessTick, LedgerInv, Alternates;
    if steps == [] {
      assert Alternates([], symbol) by { NothingAlternates(symbol); }
    } else {
      var before := steps[..|steps| - 1];
      var s := steps[|steps| - 1];
      RunKeepsOneSymbol(e, before, symbol);
      RunKeepsLedger(e, before);
      SamePaper(e, before);
      if s.Tick? {
        TickKeepsOneSymbol(Run(e, before), s.input);
      } else if s.NewProcess? {
        RestartKeepsBook(Run(e, before), s);
      }
    }
  }

  lemma NothingAlternates(symbol: Symbol)
    ensures Alternates([], symbol)
  {
  }

  function Before(log: seq<Row>, since: Time): seq<Row> {
    if log == [] then []
    else
      var last := log[|log| - 1];
      Before(log[..|log| - 1], since) + (if last.snapshotAt < since then [last] else [])
  }

  /** What was held at an instant: the position recovery would then have restored. */
  function HeldAt(log: seq<Row>, symbol: Symbol, since: Time): Option<Position> {
    RecoveredPosition(Before(log, since), symbol)
  }

  lemma {:induction false} AllBefore(log: seq<Row>, symbol: Symbol, since: Time)
    requires Alternates(log, symbol) && (log != [] ==> log[|log| - 1].snapshotAt < since)
    ensures Before(log, since) == log && Overnight(log, since) == 0.0
  {
    hide Cost;
    if log != [] {
      PrefixAlternates(log, symbol, |log| - 1);
      AllBefore(log[..|log| - 1], symbol, since);
    }
  }

  lemma {:induction false} RecoversLast(log: seq<Row>, symbol: Symbol)
    requires Alternates(log, symbol)
    ensures LatestRow(log, symbol) == if log == [] then None else Some(log[|log| - 1])
    ensures RecoveredPosition(log, symbol) == if |log| % 2 == 0 then None else Some(log[|log| - 1].position)
  {
    if log != [] {
      assert AlternatesAt(log, symbol, |log| - 1);
      PrefixAlternates(log, symbol, |log| - 1);
      RecoversLast(log[..|log| - 1], symbol);
    }
  }

  lemma TwoMore(log: seq<Row>, a: Row, b: Row, since: Time)
    requires a.status.OpenRow? && a.snapshotAt < b.snapshotAt && a.position.openedAt == a.snapshotAt
    requires b.status.ClosedRow? && b.position == a.position
    ensures since <= a.snapshotAt ==> Before(log + [a, b], since) == Before(log, since)
    ensures a.snapshotAt < since <= b.snapshotAt ==> Before(log + [a, b], since) == Before(log + [a], since)
    ensures Overnight(log + [a, b], since) ==
            Overnight(log, since) + (if a.snapshotAt < since <= b.snapshotAt then Cost(a.position) else 0.0)
  {
    hide Cost;
    assert (log + [a, b])[..|log| + 1] == log + [a] && (log + [a])[..|log|] == log;
  }

  lemma PairAt(log: seq<Row>, symbol: Symbol, n: nat)
    requires Alternates(log, symbol) && n + 2 == |log| && n % 2 == 0
    ensures log[n].status.OpenRow? && log[n].position.openedAt == log[n].snapshotAt && log[n].position.quantity > 0.0
    ensures log[n + 1].status.ClosedRow? && log[n + 1].position == log[n].position
    ensures log[n].snapshotAt < log[n + 1].snapshotAt && (n > 0 ==> log[n - 1].snapshotAt < log[n].snapshotAt)
  {
    assert AlternatesAt(log, symbol, n) && AlternatesAt(log, symbol, n + 1);
  }

  /** The only close that can reach back over an instant is that of the position held then. */
  lemma {:induction false} OvernightIsHeld(log: seq<Row>, symbol: Symbol, since: Time)
    requires Alternates(log, symbol) && |log| % 2 == 0
    ensures var p := HeldAt(log, symbol, since);
            && Overnight(log, since) == (if p.Some? then Cost(p.value) else 0.0)
            && (p.Some? ==> p.value.quantity > 0.0)
  {
    hide Cost, Overnight, Before, RecoveredPosition, Alternates;
    if log == [] {
      AllBefore(log, symbol, since);
      RecoversLast(log, symbol);
    } else {
      var n := |log| - 2;
      PairAt(log, symbol, n);
      assert log == log[..n] + [log[n], log[n + 1]] && log[..n + 1] == log[..n] + [log[n]];
      PrefixAlternates(log, symbol, n);
      PrefixAlternates(log, symbol, n + 1);
      TwoMore(log[..n], log[n], log[n + 1], since);
      if log[n + 1].snapshotAt < since {
        AllBefore(log, symbol, since);
        RecoversLast(log, symbol);
      } else if log[n].snapshotAt < since {
        AllBefore(log[..n], symbol, since);
        AllBefore(log[..n + 1], symbol, since);
        RecoversLast(log[..n + 1], symbol);
      } else {
        OvernightIsHeld(log[..n], symbol, since);
      }
    }
  }

  /** An engine that trades one symbol, as the main loop drives it, judges every entry flat, rejected ones included.
      While its run id is kept the daily figure is exactly what closes realised since midnight plus the cost of the
      position held at midnight, so it is right if and only if nothing of value was held then. In general it is what was
      realised today under the run in force if and only if what was taken over and handed on cost the same. */
  lemma SingleSymbolGate(e: Engine, steps: seq<Step>, symbol: Symbol, now: Time)
    requires Fresh(e) && e.cfg.paper && AllowedRun(e, steps) && CoveringRun(e, steps)
    requires OnlySymbol(steps, symbol) && Run(e, steps).Held(symbol).None?
    ensures var s := Run(e, steps);
            var today, w, held := Today(s.runId, now), Written(s.trace), HeldAt(s.log, symbol, KstTodayStart(now));
            && (KeepsRunId(steps, e.runId) ==>
                  && DailyPnl(s.trades, today)
                     == RealizedSince(s.log, today.since) + (if held.Some? then Cost(held.value) else 0.0)
                  && (DailyPnl(s.trades, today) == RealizedSince(s.log, today.since) <==>
                        held.None? || held.value.entryPrice == 0.0))
            && (DailyPnl(s.trades, today) == RealizedUnder(w, today) <==> CarriedIn(w, today) == CarriedOut(w, today))
  {
    hide DailyPnl, RealizedUnder, CarriedIn, CarriedOut, Written, RealizedSince, Overnight, KstTodayStart, Alternates, HeldAt,
         LedgerInv;
    var s := Run(e, steps);
    RunKeepsOneSymbol(e, steps, symbol);
    RunKeepsLedger(e, steps);
    assert forall t :: s.Held(t).None?;
    assert s.positions == map[] by { LedgerQuantities(s); NothingHeld(s); }
    GateReadsRealizedIff(e, steps, now);
    if KeepsRunId(steps, e.runId) {
      GateReadsRealizedPnl(e, steps, now);
      OvernightIsHeld(s.log, symbol, KstTodayStart(now));
      var held := HeldAt(s.log, symbol, KstTodayStart(now));
      if held.Some? {
        CostsSomething(held.value);
      }
    }
  }

  lemma LedgerQuantities(e: Engine)
    requires LedgerInv(e)
    ensures forall s :: s in e.positions ==> e.positions[s].quantity > 0.0
  {
  }

  lemma CostsSomething(p: Position)
    requires p.quantity > 0.0
    ensures Cost(p) == 0.0 <==> p.entryPrice == 0.0
  {
  }
}
