/** The snapshot log is enough to rebuild the position book after a crash, at every step boundary. */
module CrashRecovery {
  import opened Domain
  import opened PositionManagement
  import opened RiskChecking
  import opened Stores
  import opened EngineModel
  import opened TickShapes

  function RowsOf(log: seq<Row>, symbol: Symbol): seq<Row> {
    if log == [] then []
    else
      var last := log[|log| - 1];
      RowsOf(log[..|log| - 1], symbol) + (if last.position.symbol == symbol then [last] else [])
  }

  /** The rows of one symbol read (OPEN+ CLOSED)*, possibly cut short, and each closed row
      closes exactly the position of the row before it. */
  ghost predicate OpensThenCloses(rows: seq<Row>) {
    forall i :: 0 <= i < |rows| && rows[i].status.ClosedRow? ==>
      i > 0 && rows[i - 1].status.OpenRow? && rows[i - 1].position == rows[i].position
  }

  ghost predicate LoggedBy(log: seq<Row>, now: Time) {
    forall i :: 0 <= i < |log| ==> log[i].snapshotAt <= now
  }

  ghost predicate NewestIsLast(log: seq<Row>, symbol: Symbol) {
    var rows := RowsOf(log, symbol);
    LatestRow(log, symbol) == if rows == [] then None else Some(rows[|rows| - 1])
  }

  /** Whatever is held on the symbol, its newest row says so; the symbol's rows read as they should. */
  ghost predicate LogInv(book: Book, log: seq<Row>, symbol: Symbol, now: Time) {
    && (forall s :: s in book ==> book[s].symbol == s)
    && LoggedBy(log, now)
    && NewestIsLast(log, symbol)
    && OpensThenCloses(RowsOf(log, symbol))
    && (GetPosition(book, symbol).Some? ==> Recoverable(book, log, symbol))
  }

  /** Recovery would restore exactly what is held. */
  ghost predicate Recoverable(book: Book, log: seq<Row>, symbol: Symbol) {
    RecoveredPosition(log, symbol) == GetPosition(book, symbol)
  }

  lemma {:induction false} NewestNotAfter(log: seq<Row>, symbol: Symbol, now: Time)
    requires LoggedBy(log, now)
    ensures LatestRow(log, symbol).Some? ==> LatestRow(log, symbol).value.snapshotAt <= now
  {
    if log != [] {
      NewestNotAfter(log[..|log| - 1], symbol, now);
    }
  }

  lemma AppendRow(log: seq<Row>, row: Row, symbol: Symbol, now: Time)
    requires LoggedBy(log, now) && now < row.snapshotAt && NewestIsLast(log, symbol)
    ensures RowsOf(log + [row], symbol) == RowsOf(log, symbol) + (if row.position.symbol == symbol then [row] else [])
    ensures LatestRow(log + [row], symbol) == if row.position.symbol == symbol then Some(row) else LatestRow(log, symbol)
    ensures NewestIsLast(log + [row], symbol)
    ensures LoggedBy(log + [row], row.snapshotAt)
  {
    assert (log + [row])[..|log|] == log;
    NewestNotAfter(log, symbol, now);
  }

  // ---------------------------------------------------------------- what every step keeps

  lemma OpenKeepsLog(book: Book, log: seq<Row>, p: Position, at: Time, symbol: Symbol, now: Time)
    requires LogInv(book, log, symbol, now) && now < at
    ensures LogInv(book[p.symbol := p], log + [OpenedRow(p, at)], symbol, at)
    ensures Recoverable(book, log, symbol) ==> Recoverable(book[p.symbol := p], log + [OpenedRow(p, at)], symbol)
  {
    AppendRow(log, OpenedRow(p, at), symbol, now);
  }

  lemma CloseKeepsLog(book: Book, log: seq<Row>, row: Row, symbol: Symbol, now: Time)
    requires LogInv(book, log, symbol, now) && now < row.snapshotAt && row.status.ClosedRow?
    requires GetPosition(book, row.position.symbol) == Some(row.position)
    ensures LogInv(book - {row.position.symbol}, log + [row], symbol, row.snapshotAt)
    ensures Recoverable(book, log, symbol) ==> Recoverable(book - {row.position.symbol}, log + [row], symbol)
  {
    AppendRow(log, row, symbol, now);
  }

  lemma MoveKeepsLog(e: Engine, e': Engine, w: Write, on: Symbol, gate: Option<Time>, at: Time, symbol: Symbol, now: Time)
    requires Move(e, e', w, on, gate, at) && now < at
    requires LogInv(e.positions, e.log, symbol, now)
    ensures LogInv(e'.positions, e'.log, symbol, at)
    ensures Recoverable(e.positions, e.log, symbol) ==> Recoverable(e'.positions, e'.log, symbol)
  {
    hide RealizedPnl, Checked, Risk.RecordResult, Recoverable, OpensThenCloses, NewestIsLast;
    if w.Some? {
      if w.value.status.OpenRow? {
        OpenKeepsLog(e.positions, e.log, w.value.position, at, symbol, now);
      } else {
        CloseKeepsLog(e.positions, e.log, w.value, symbol, now);
      }
    }
  }

  /** A step that does not start a new process without recovering this symbol. */
  predicate Covers(s: Step, symbol: Symbol) {
    s.NewProcess? ==> symbol in s.symbols
  }

  predicate AllCover(steps: seq<Step>, symbol: Symbol) {
    forall i :: 0 <= i < |steps| ==> Covers(steps[i], symbol)
  }

  lemma RestartKeepsLog(e: Engine, s: Step, symbol: Symbol)
    requires s.NewProcess?
    requires LogInv(e.positions, e.log, symbol, e.clock)
    ensures var e' := Apply(e, s);
            && LogInv(e'.positions, e'.log, symbol, e'.clock)
            && (Recoverable(e'.positions, e'.log, symbol) <==> Covers(s, symbol) || RecoveredPosition(e.log, symbol).None?)
  {
    forall t | t in RecoverAll(e.log, s.symbols)
      ensures RecoverAll(e.log, s.symbols)[t].symbol == t
    {
      LatestOnSymbol(e.log, t);
    }
  }

  lemma {:induction false} LatestOnSymbol(log: seq<Row>, symbol: Symbol)
    ensures LatestRow(log, symbol).Some? ==> LatestRow(log, symbol).value.position.symbol == symbol
  {
    if log != [] {
      LatestOnSymbol(log[..|log| - 1], symbol);
    }
  }

  lemma KeysFromLog(e: Engine, symbol: Symbol)
    requires LogInv(e.positions, e.log, symbol, e.clock)
    ensures KeysMatch(e)
  {
  }

  lemma StepKeepsLog(e: Engine, s: Step, symbol: Symbol)
    requires Allowed(e, s)
    requires LogInv(e.positions, e.log, symbol, e.clock)
    ensures var e' := Apply(e, s);
            && LogInv(e'.positions, e'.log, symbol, e'.clock)
            && (Covers(s, symbol) && Recoverable(e.positions, e.log, symbol) ==> Recoverable(e'.positions, e'.log, symbol))
  {
    hide ProcessTick, Sync, LogInv, Recoverable, Restart;
    match s
    case Tick(input) =>
      assert KeysMatch(e) by { KeysFromLog(e, symbol); }
      var w1, w2, gate := TickMoves(e, input);
      MoveKeepsLog(Ready(e, input), Synced(e, input), w1, input.symbol, None, input.syncAt, symbol, e.clock);
      MoveKeepsLog(Synced(e, input), ProcessTick(e, input), w2, input.symbol, gate, input.fillAt, symbol, input.syncAt);
    case StartupSync(on, seen, at) =>
      assert KeysMatch(e) by { KeysFromLog(e, symbol); }
      var w := SyncMoves(e, on, None, seen, at);
      MoveKeepsLog(e, Sync(e, on, None, seen, at), w, on, None, at, symbol, e.clock);
    case NewProcess(_, _, _, _, _, _) =>
      RestartKeepsLog(e, s, symbol);
    case SetTrading(_) =>
    case Reconfigure(_, _, _, _, _) =>
  }

  lemma {:induction false} RunKeepsLog(e: Engine, steps: seq<Step>, symbol: Symbol)
    requires Fresh(e) && AllowedRun(e, steps)
    ensures var e' := Run(e, steps);
            && LogInv(e'.positions, e'.log, symbol, e'.clock)
            && (AllCover(steps, symbol) ==> Recoverable(e'.positions, e'.log, symbol))
  {
    if steps != [] {
      var before := steps[..|steps| - 1];
      RunKeepsLog(e, before, symbol);
      StepKeepsLog(Run(e, before), steps[|steps| - 1], symbol);
    }
  }

  /** After any run, ticks and restarts in any order, paper or live, recovering the symbols every
      restart covered rebuilds exactly the positions held on them. */
  lemma RecoveryRebuildsBook(e: Engine, steps: seq<Step>, symbols: set<Symbol>)
    requires Fresh(e) && AllowedRun(e, steps)
    requires forall s :: s in symbols ==> AllCover(steps, s)
    ensures var e' := Run(e, steps);
            forall s :: s in symbols ==>
              && GetPosition(RecoverAll(e'.log, symbols), s) == e'.Held(s)
              && (s in RecoverAll(e'.log, symbols) <==> e'.Held(s).Some?)
  {
    var e' := Run(e, steps);
    forall s | s in symbols
      ensures RecoveredPosition(e'.log, s) == e'.Held(s)
    {
      RunKeepsLog(e, steps, s);
    }
  }

  /** Whatever happens, restarts that skip the symbol included, its rows read (OPEN+ CLOSED)*. */
  lemma LogReadsOpenThenClosed(e: Engine, steps: seq<Step>, symbol: Symbol)
    requires Fresh(e) && AllowedRun(e, steps)
    ensures OpensThenCloses(RowsOf(Run(e, steps).log, symbol))
  {
    RunKeepsLog(e, steps, symbol);
  }
}
