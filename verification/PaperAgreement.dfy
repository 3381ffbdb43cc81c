/** The simulated exchange and the position manager tell the same story, exactly as long as the engine never goes
    short and no restart recovers a position, which the new process's exchange knows nothing about. */
module PaperAgreement {
  import opened Domain
  import opened PositionManagement
  import opened Exits
  import opened SignalPolicies
  import opened Strategies
  import opened Stores
  import opened PaperTrading
  import opened EngineModel
  import opened TickShapes
  import opened SignalProvenance

  function NetQuantity(held: Option<Position>): real {
    if held.None? then 0.0 else if held.value.side == Long then held.value.quantity else -held.value.quantity
  }

  /** Per symbol, the same net quantity and, when something is held, the same average entry price. */
  ghost predicate Agrees(e: Engine) {
    forall s ::
      && PaperQuantity(e.paper, s) == NetQuantity(e.Held(s))
      && (e.Held(s).Some? && s in e.paper ==> e.paper[s].avgPrice == e.Held(s).value.entryPrice)
  }

  ghost predicate NoShort(e: Engine) {
    forall s :: e.Held(s).Some? ==> e.Held(s).value.side == Long
  }

  /** The adapter keeps no empty entries. */
  predicate NoEmptyEntries(book: PaperBook) {
    forall s :: s in book ==> book[s].quantity != 0.0
  }

  /** A step that brings no position back from the log. */
  predicate RecoversNothing(e: Engine, s: Step) {
    s.NewProcess? ==> RecoverAll(e.log, s.symbols) == map[]
  }

  ghost predicate EmptyRestarts(e: Engine, steps: seq<Step>) {
    steps != [] ==>
      EmptyRestarts(e, steps[..|steps| - 1]) && RecoversNothing(Run(e, steps[..|steps| - 1]), steps[|steps| - 1])
  }

  lemma FillKeepsNoEmpty(book: PaperBook, symbol: Symbol, side: OrderSide, quantity: real, price: real)
    requires NoEmptyEntries(book)
    ensures NoEmptyEntries(Fill(book, symbol, side, quantity, price))
  {
  }

  /** From agreement, a tick that leaves no short leaves agreement, and one that opens a short breaks it. */
  lemma TickAgreement(e: Engine, input: TickInput)
    requires Paper(e) && Agrees(e) && NoShort(e) && NoEmptyEntries(e.paper)
    ensures var e' := ProcessTick(e, input);
            (Agrees(e') <==> NoShort(e')) && NoEmptyEntries(e'.paper)
  {
    hide ProcessTick, Approved, Due, Close, ClosedRowOf;
    var o := PaperTick(e, input);
    var e' := ProcessTick(e, input);
    var on := input.symbol;
    assert PaperQuantity(e.paper, on) == NetQuantity(e.Held(on));
    forall s | s != on
      ensures e'.Held(s) == e.Held(s) && PaperQuantity(e'.paper, s) == NetQuantity(e.Held(s))
      ensures e.Held(s).Some? && s in e'.paper ==> e'.paper[s].avgPrice == e.Held(s).value.entryPrice
      ensures e.Held(s).Some? ==> e.Held(s).value.side == Long
    {
      assert PaperQuantity(e.paper, s) == NetQuantity(e.Held(s));
    }
    match o
    case Idle =>
    case Entered(p, intent) =>
      FillKeepsNoEmpty(e.paper, on, OpeningSide(p.side), p.quantity, p.entryPrice);
      assert on !in e.paper;
      assert e'.Held(on) == Some(p);
    case Exited(p, reason) =>
      FillKeepsNoEmpty(e.paper, on, ClosingSide(p.side), p.quantity, input.price);
      assert p.side == Long;
      assert on !in e'.paper;
  }

  lemma StepAgreement(e: Engine, s: Step)
    requires Paper(e) && Allowed(e, s)
    requires Agrees(e) && NoShort(e) && NoEmptyEntries(e.paper)
    ensures var e' := Apply(e, s);
            (Agrees(e') <==> NoShort(e') && RecoversNothing(e, s)) && NoEmptyEntries(e'.paper)
  {
    hide ProcessTick;
    if s.Tick? {
      TickAgreement(e, s.input);
    } else if s.NewProcess? {
      RestartAgreement(e, s);
    } else {
      var e' := Apply(e, s);
      assert e'.paper == e.paper && e'.positions == e.positions;
      assert forall t :: e'.Held(t) == e.Held(t);
    }
  }

  lemma RestartAgreement(e: Engine, s: Step)
    requires s.NewProcess?
    ensures var e' := Apply(e, s);
            (Agrees(e') <==> RecoversNothing(e, s)) && (RecoversNothing(e, s) ==> NoShort(e')) && e'.paper == map[]
  {
    var e' := Apply(e, s);
    if t :| t in RecoverAll(e.log, s.symbols) {
      assert e'.Held(t).Some? && e'.Held(t).value.quantity > 0.0;
      assert PaperQuantity(e'.paper, t) != NetQuantity(e'.Held(t));
    } else {
      assert e'.positions == map[];
    }
  }

  ghost predicate AgreesThroughout(e: Engine, steps: seq<Step>) {
    Agrees(Run(e, steps)) && (steps != [] ==> AgreesThroughout(e, steps[..|steps| - 1]))
  }

  ghost predicate NoShortThroughout(e: Engine, steps: seq<Step>) {
    NoShort(Run(e, steps)) && (steps != [] ==> NoShortThroughout(e, steps[..|steps| - 1]))
  }

  lemma {:induction false} AgreementRun(e: Engine, steps: seq<Step>)
    requires Fresh(e) && e.cfg.paper && AllowedRun(e, steps)
    ensures AgreesThroughout(e, steps) <==> NoShortThroughout(e, steps) && EmptyRestarts(e, steps)
    ensures AgreesThroughout(e, steps) ==> NoEmptyEntries(Run(e, steps).paper)
  {
    if steps != [] {
      var before := steps[..|steps| - 1];
      AgreementRun(e, before);
      SamePaper(e, before);
      if AgreesThroughout(e, before) {
        ThroughoutNow(e, before);
        StepAgreement(Run(e, before), steps[|steps| - 1]);
      }
    }
  }

  lemma ThroughoutNow(e: Engine, steps: seq<Step>)
    ensures NoShortThroughout(e, steps) ==> NoShort(Run(e, steps))
    ensures AgreesThroughout(e, steps) ==> Agrees(Run(e, steps))
  {
  }

  /** In every paper run, restarts included, adapter and manager agree at every step boundary so far if and only if no
      short has been held at any of them and no restart recovered a position. (A sell with nothing held is ignored by
      the adapter, and a new process's adapter starts empty.) */
  lemma AgreeIffNeverShort(e: Engine, steps: seq<Step>)
    requires Fresh(e) && e.cfg.paper && AllowedRun(e, steps)
    ensures AgreesThroughout(e, steps) <==> NoShortThroughout(e, steps) && EmptyRestarts(e, steps)
  {
    AgreementRun(e, steps);
  }

  /** The mode is long-only from the start and no reconfiguration or restart leaves it. */
  predicate LongOnlyRun(e: Engine, steps: seq<Step>) {
    && e.policy.mode == LongOnly
    && (forall i :: 0 <= i < |steps| && steps[i].Reconfigure? ==> steps[i].mode == LongOnly)
    && (forall i :: 0 <= i < |steps| && steps[i].NewProcess? ==> steps[i].policy.mode == LongOnly)
  }

  lemma LongOnlyTick(e: Engine, input: TickInput)
    requires Paper(e) && e.policy.mode == LongOnly && NoShort(e)
    ensures NoShort(ProcessTick(e, input)) && ProcessTick(e, input).policy.mode == LongOnly
  {
    hide ProcessTick, Informed, EntryVerdict, CheckExit, ModelExitReason, Close, Calculate;
    var o := PaperTick(e, input);
    var e' := ProcessTick(e, input);
    InformedOnlySignals(Ready(e, input), input);
    if o.Entered? {
      LongOnlyCandidate(Informed(Ready(e, input), input), input);
      assert o.p.side == Long;
    }
    forall s | e'.Held(s).Some?
      ensures e'.Held(s).value.side == Long
    {
      assert e'.Held(s) == e.Held(s) || (o.Entered? && e'.Held(s) == Some(o.p));
    }
  }

  lemma LongOnlyCandidate(e: Engine, input: TickInput)
    requires e.policy.mode == LongOnly && SoftCandidate(e, input).Some?
    ensures SoftCandidate(e, input).value.side == BuySide
  {
    IntentOf(e.strategy, input.symbol, input.prediction.value, input.price, input.balance);
  }

  lemma {:induction false} LongOnlyNeverShort(e: Engine, steps: seq<Step>)
    requires Fresh(e) && e.cfg.paper && AllowedRun(e, steps) && LongOnlyRun(e, steps) && EmptyRestarts(e, steps)
    ensures NoShortThroughout(e, steps) && Run(e, steps).policy.mode == LongOnly
  {
    hide ProcessTick;
    if steps != [] {
      var before := steps[..|steps| - 1];
      var s := steps[|steps| - 1];
      LongOnlyNeverShort(e, before);
      SamePaper(e, before);
      ThroughoutNow(e, before);
      if s.Tick? {
        LongOnlyTick(Run(e, before), s.input);
      } else if s.NewProcess? {
        RestartAgreement(Run(e, before), s);
      } else {
        assert forall t :: Run(e, steps).Held(t) == Run(e, before).Held(t);
      }
    }
  }

  /** Long-only, the adapter follows the manager at every boundary exactly when no restart recovers a position: the
      same quantity and average entry, never negative, and exactly nothing once the position is closed. */
  lemma LongOnlyAgrees(e: Engine, steps: seq<Step>)
    requires Fresh(e) && e.cfg.paper && AllowedRun(e, steps) && LongOnlyRun(e, steps)
    ensures AgreesThroughout(e, steps) <==> EmptyRestarts(e, steps)
    ensures EmptyRestarts(e, steps) ==> forall s ::
              && PaperQuantity(Run(e, steps).paper, s) >= 0.0
              && (Run(e, steps).Held(s).None? ==> s !in Run(e, steps).paper)
  {
    AgreementRun(e, steps);
    if EmptyRestarts(e, steps) {
      LongOnlyNeverShort(e, steps);
      ThroughoutNow(e, steps);
      forall s
        ensures PaperQuantity(Run(e, steps).paper, s) >= 0.0
        ensures Run(e, steps).Held(s).None? ==> s !in Run(e, steps).paper
      {
        assert PaperQuantity(Run(e, steps).paper, s) == NetQuantity(Run(e, steps).Held(s));
      }
    }
  }
}
