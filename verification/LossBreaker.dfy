/** After N straight losing closes no entry order leaves the engine until the pause is over. */
module LossBreaker {
  import opened Domain
  import opened RiskChecking
  import opened Stores
  import opened EngineModel
  import opened TickShapes
  import opened CrashRecovery

  /** The results of the closed rows, in log order. */
  function Outcomes(rows: seq<Row>): seq<Outcome> {
    if rows == [] then []
    else
      var last := rows[|rows| - 1];
      Outcomes(rows[..|rows| - 1]) + (if last.status.ClosedRow? then [Outcome(last.status.pnl, last.snapshotAt)] else [])
  }

  /** What this process has closed so far. */
  function ProcessOutcomes(e: Engine): seq<Outcome>
    requires e.bootedAt <= |e.log|
  {
    Outcomes(e.log[e.bootedAt..])
  }

  ghost predicate BreakerInv(e: Engine, now: Time) {
    && e.bootedAt <= |e.log|
    && BreakerAgrees(e.risk, ProcessOutcomes(e), now)
    && InOrder(ProcessOutcomes(e), now)
  }

  lemma BreakerLater(r: Risk, history: seq<Outcome>, before: Time, now: Time)
    requires before <= now && BreakerAgrees(r, history, before) && InOrder(history, before)
    ensures BreakerAgrees(r, history, now) && InOrder(history, now)
  {
  }

  lemma MoveKeepsBreaker(e: Engine, e': Engine, w: Write, on: Symbol, gate: Option<Time>, at: Time, now: Time)
    requires Move(e, e', w, on, gate, at) && now < at && (gate.Some? ==> now <= gate.value <= at)
    requires BreakerInv(e, now)
    ensures BreakerInv(e', at)
  {
    var history := ProcessOutcomes(e);
    if w.Some? {
      assert e'.log[e.bootedAt..] == e.log[e.bootedAt..] + [w.value];
      assert (e.log[e.bootedAt..] + [w.value])[..|e.log| - e.bootedAt] == e.log[e.bootedAt..];
    }
    if w.Some? && w.value.status.ClosedRow? {
      assert ProcessOutcomes(e') == history + [Outcome(w.value.status.pnl, at)];
      BreakerAfterResult(e.risk, history, now, w.value.status.pnl, at);
    } else if gate.Some? {
      assert ProcessOutcomes(e') == history;
      BreakerLater(e.risk, history, now, gate.value);
      BreakerAfterCheck(e.risk, history, gate.value, gate.value);
      BreakerLater(e'.risk, history, gate.value, at);
    } else {
      assert ProcessOutcomes(e') == history;
      BreakerLater(e.risk, history, now, at);
    }
  }

  /** A reconfiguration that leaves the loss limit and the pause as they are. */
  predicate KeepsBreakerConfig(e: Engine, s: Step) {
    s.Reconfigure? ==>
      && s.risk.maxConsecutiveLosses == e.risk.cfg.maxConsecutiveLosses
      && s.risk.pauseMinutes == e.risk.cfg.pauseMinutes
  }

  ghost predicate SteadyRun(e: Engine, steps: seq<Step>) {
    steps != [] ==>
      SteadyRun(e, steps[..|steps| - 1]) && KeepsBreakerConfig(Run(e, steps[..|steps| - 1]), steps[|steps| - 1])
  }

  lemma TrippedUnderSameLimits(history: seq<Outcome>, a: RiskConfig, b: RiskConfig, t: Time)
    requires a.maxConsecutiveLosses == b.maxConsecutiveLosses && a.pauseMinutes == b.pauseMinutes
    ensures Tripped(history, a, t) <==> Tripped(history, b, t)
  {
    if Tripped(history, a, t) {
      var i: nat :| i < |history| && TripsAt(history, a, i, t);
      assert TripsAt(history, b, i, t);
    }
    if Tripped(history, b, t) {
      var i: nat :| i < |history| && TripsAt(history, b, i, t);
      assert TripsAt(history, a, i, t);
    }
  }

  lemma StepKeepsBreaker(e: Engine, s: Step)
    requires Allowed(e, s) && KeepsBreakerConfig(e, s) && KeysMatch(e)
    requires BreakerInv(e, e.clock)
    ensures BreakerInv(Apply(e, s), Apply(e, s).clock)
  {
    hide ProcessTick, Sync, BreakerAgrees, InOrder, Outcomes;
    match s
    case Tick(input) =>
      var w1, w2, gate := TickMoves(e, input);
      MoveKeepsBreaker(Ready(e, input), Synced(e, input), w1, input.symbol, None, input.syncAt, e.clock);
      MoveKeepsBreaker(Synced(e, input), ProcessTick(e, input), w2, input.symbol, gate, input.fillAt, input.syncAt);
    case StartupSync(on, seen, at) =>
      var w := SyncMoves(e, on, None, seen, at);
      MoveKeepsBreaker(e, Sync(e, on, None, seen, at), w, on, None, at, e.clock);
    case NewProcess(_, _, _, _, _, _) =>
      NewProcessBreaker(e, s);
    case SetTrading(_) =>
    case Reconfigure(_, _, _, _, _) =>
      ReconfigureBreaker(e, s);
  }

  lemma NewProcessBreaker(e: Engine, s: Step)
    requires s.NewProcess?
    ensures BreakerInv(Apply(e, s), e.clock)
  {
    var e' := Apply(e, s);
    assert ProcessOutcomes(e') == [];
    BreakerStart(e'.risk, e.clock);
  }

  lemma ReconfigureBreaker(e: Engine, s: Step)
    requires s.Reconfigure? && KeepsBreakerConfig(e, s) && BreakerInv(e, e.clock)
    ensures BreakerInv(Apply(e, s), e.clock)
  {
    var e' := Apply(e, s);
    forall t | t >= e.clock
      ensures e'.risk.PausedAt(t) <==> Tripped(ProcessOutcomes(e'), e'.risk.cfg, t)
    {
      TrippedUnderSameLimits(ProcessOutcomes(e), e.risk.cfg, e'.risk.cfg, t);
      assert e.risk.PausedAt(t) <==> Tripped(ProcessOutcomes(e), e.risk.cfg, t);
    }
  }

  lemma {:induction false} RunKeepsBreaker(e: Engine, steps: seq<Step>)
    requires Fresh(e) && AllowedRun(e, steps) && SteadyRun(e, steps)
    ensures var e' := Run(e, steps);
            KeysMatch(e') && BreakerInv(e', e'.clock)
  {
    if steps == [] {
      BreakerStart(e.risk, e.clock);
      assert ProcessOutcomes(e) == [];
    } else {
      var before := steps[..|steps| - 1];
      RunKeepsBreaker(e, before);
      RunKeepsLog(e, steps, "");
      StepKeepsBreaker(Run(e, before), steps[|steps| - 1]);
    }
  }

  /** The counter is the streak of losing closes this process logged since its last winning one. */
  lemma CounterIsStreak(e: Engine, steps: seq<Step>)
    requires Fresh(e) && AllowedRun(e, steps) && SteadyRun(e, steps)
    ensures var e' := Run(e, steps);
            e'.bootedAt <= |e'.log| && e'.risk.losses == LossStreak(ProcessOutcomes(e'))
  {
    RunKeepsBreaker(e, steps);
  }

  /** In every run with constant breaker settings, the breaker holds entries back at the gate exactly
      while some completed streak's pause is still running. */
  lemma GateFollowsHistory(e: Engine, steps: seq<Step>, input: TickInput)
    requires Fresh(e) && AllowedRun(e, steps) && SteadyRun(e, steps) && Allowed(Run(e, steps), Tick(input))
    ensures var s := Synced(Run(e, steps), input);
            && s.bootedAt <= |s.log|
            && (s.risk.PausedAt(input.gateAt) <==> Tripped(ProcessOutcomes(s), s.risk.cfg, input.gateAt))
  {
    hide Sync, ProcessTick;
    RunKeepsBreaker(e, steps);
    var e' := Run(e, steps);
    var w1, w2, gate := TickMoves(e', input);
    MoveKeepsBreaker(Ready(e', input), Synced(e', input), w1, input.symbol, None, input.syncAt, e'.clock);
  }

  /** So no entry order is submitted while the history trips, whatever the model and the exchange say. */
  lemma NoEntryWhileTripped(e: Engine, steps: seq<Step>, input: TickInput)
    requires Fresh(e) && AllowedRun(e, steps) && SteadyRun(e, steps) && Allowed(Run(e, steps), Tick(input))
    requires SubmitsEntry(Run(e, steps), input)
    ensures var s := Synced(Run(e, steps), input);
            s.bootedAt <= |s.log| && !Tripped(ProcessOutcomes(s), s.risk.cfg, input.gateAt)
  {
    hide Sync, ProcessTick, Informed, SoftCandidate;
    GateFollowsHistory(e, steps, input);
    EntryOrderApproved(Run(e, steps), input);
    InformedOnlySignals(Synced(Run(e, steps), input), input);
  }

  /** In particular N straight losing closes keep every entry back for a full pause after the last one. */
  lemma StraightLossesStopEntries(e: Engine, steps: seq<Step>, input: TickInput)
    requires Fresh(e) && AllowedRun(e, steps) && SteadyRun(e, steps) && Allowed(Run(e, steps), Tick(input))
    requires var s := Synced(Run(e, steps), input);
             var n := s.risk.cfg.maxConsecutiveLosses;
             && s.bootedAt <= |s.log|
             && 0 < n <= |ProcessOutcomes(s)|
             && (forall i :: |ProcessOutcomes(s)| - n <= i < |ProcessOutcomes(s)| ==> ProcessOutcomes(s)[i].pnl < 0.0)
             && input.gateAt < ProcessOutcomes(s)[|ProcessOutcomes(s)| - 1].at + s.risk.cfg.pauseMinutes * 60 * 1_000_000
    ensures !SubmitsEntry(Run(e, steps), input)
  {
    hide ProcessTick, Sync;
    var s := Synced(Run(e, steps), input);
    StraightLossesTrip(ProcessOutcomes(s), s.risk.cfg, input.gateAt);
    if SubmitsEntry(Run(e, steps), input) {
      NoEntryWhileTripped(e, steps, input);
    }
  }
}
