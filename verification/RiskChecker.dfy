/** The hard gate before every entry order (risk/default.py): loss breaker, daily loss,
    position size, order notional and duplicate orders. */
module RiskChecking {
  import opened Domain

  const NOTIONAL_TOLERANCE: real := 0.05

  datatype RiskConfig = RiskConfig(
    maxPositionQty: real,
    dailyLossLimit: real,
    duplicateWindowSeconds: int,
    maxNotionalPct: real,
    dailyLossPct: real,
    maxConsecutiveLosses: int,
    pauseMinutes: int)
  {
    function Pause(): Time {
      pauseMinutes * 60 * SECOND
    }
  }

  datatype Verdict = Pass | RejectLossPause | RejectDailyLoss | RejectPosition | RejectNotional | RejectDuplicate

  /** The quantity of the first listed position on the symbol, 0 when there is none. */
  function HeldQuantity(positions: seq<(Symbol, real)>, symbol: Symbol): real {
    if positions == [] then 0.0
    else if positions[0].0 == symbol then positions[0].1
    else HeldQuantity(positions[1..], symbol)
  }

  predicate IsDuplicate(orders: seq<Order>, intent: Intent, cutoff: Time) {
    exists i :: 0 <= i < |orders|
                && orders[i].symbol == intent.symbol && orders[i].side == intent.side && orders[i].createdAt >= cutoff
  }

  datatype Risk = Risk(cfg: RiskConfig, losses: nat, pausedUntil: Option<Time>) {
    predicate PausedAt(now: Time) {
      pausedUntil.Some? && now < pausedUntil.value
    }

    /** A check that finds the pause over forgets it. */
    function AfterCheck(now: Time): Risk {
      if pausedUntil.Some? && now >= pausedUntil.value then this.(pausedUntil := None) else this
    }

    function Judge(intent: Intent, equity: real, positions: seq<(Symbol, real)>, recent: seq<Order>,
                   dailyPnl: real, now: Time): Verdict
    {
      var limit := if equity > 0.0 && cfg.dailyLossPct > 0.0 then -(equity * cfg.dailyLossPct) else cfg.dailyLossLimit;
      var held := HeldQuantity(positions, intent.symbol);
      var newQty := if intent.side == BuySide then held + intent.quantity else held - intent.quantity;
      if PausedAt(now) then RejectLossPause
      else if dailyPnl < limit then RejectDailyLoss
      else if cfg.maxPositionQty > 0.0 && AbsReal(newQty) > cfg.maxPositionQty then RejectPosition
      else if && equity > 0.0 && intent.price.Some? && intent.price.value != 0.0 && cfg.maxNotionalPct > 0.0
              && AbsReal(intent.quantity * intent.price.value) > equity * cfg.maxNotionalPct + NOTIONAL_TOLERANCE
           then RejectNotional
      else if IsDuplicate(recent, intent, now - cfg.duplicateWindowSeconds * SECOND) then RejectDuplicate
      else Pass
    }

    function RecordResult(pnl: real, now: Time): Risk {
      if pnl < 0.0 then
        var n := losses + 1;
        Risk(cfg, n, if cfg.maxConsecutiveLosses > 0 && n >= cfg.maxConsecutiveLosses then Some(now + cfg.Pause())
                     else pausedUntil)
      else if pnl > 0.0 then Risk(cfg, 0, None)
      else this
    }
  }

  /** Of the positions it is shown, a check uses only the quantity held on the intent's symbol. */
  lemma OnlyHeldMatters(r: Risk, intent: Intent, equity: real, a: seq<(Symbol, real)>, b: seq<(Symbol, real)>,
                        recent: seq<Order>, dailyPnl: real, now: Time)
    requires HeldQuantity(a, intent.symbol) == HeldQuantity(b, intent.symbol)
    ensures r.Judge(intent, equity, a, recent, dailyPnl, now) == r.Judge(intent, equity, b, recent, dailyPnl, now)
  {
    hide HeldQuantity, IsDuplicate;
  }

  method FindHeld(positions: seq<(Symbol, real)>, symbol: Symbol) returns (held: real)
    ensures held == HeldQuantity(positions, symbol)
  {
    held := 0.0;
    var i := 0;
    while i < |positions|
      invariant 0 <= i <= |positions|
      invariant held == 0.0
      invariant HeldQuantity(positions, symbol) == HeldQuantity(positions[i..], symbol)
    {
      if positions[i].0 == symbol {
        return positions[i].1;
      }
      i := i + 1;
    }
  }

  method HasDuplicate(recent: seq<Order>, intent: Intent, cutoff: Time) returns (found: bool)
    ensures found == IsDuplicate(recent, intent, cutoff)
  {
    var j := 0;
    while j < |recent|
      invariant 0 <= j <= |recent|
      invariant !IsDuplicate(recent[..j], intent, cutoff)
    {
      if recent[j].symbol == intent.symbol && recent[j].side == intent.side && recent[j].createdAt >= cutoff {
        return true;
      }
      j := j + 1;
    }
    assert recent[..j] == recent;
    found := false;
  }

  class DefaultRiskChecker {
    var cfg: RiskConfig
    var losses: nat
    var pausedUntil: Option<Time>

    function View(): Risk
      reads this
    {
      Risk(cfg, losses, pausedUntil)
    }

    constructor (cfg: RiskConfig)
      ensures View() == Risk(cfg, 0, None)
    {
      this.cfg := cfg;
      losses := 0;
      pausedUntil := None;
    }

    method Check(intent: Intent, equity: real, positions: seq<(Symbol, real)>, recent: seq<Order>,
                 dailyPnl: real, now: Time) returns (v: Verdict)
      modifies this
      ensures v == old(View()).Judge(intent, equity, positions, recent, dailyPnl, now)
      ensures View() == old(View()).AfterCheck(now)
    {
      if pausedUntil.Some? {
        if now < pausedUntil.value {
          return RejectLossPause;
        }
        pausedUntil := None;
      }

      var limit := cfg.dailyLossLimit;
      if equity > 0.0 && cfg.dailyLossPct > 0.0 {
        limit := -(equity * cfg.dailyLossPct);
      }
      if dailyPnl < limit {
        return RejectDailyLoss;
      }

      var held := FindHeld(positions, intent.symbol);
      var newQty := if intent.side == BuySide then held + intent.quantity else held - intent.quantity;
      if cfg.maxPositionQty > 0.0 && AbsReal(newQty) > cfg.maxPositionQty {
        return RejectPosition;
      }

      if equity > 0.0 && intent.price.Some? && intent.price.value != 0.0 && cfg.maxNotionalPct > 0.0 {
        if AbsReal(intent.quantity * intent.price.value) > equity * cfg.maxNotionalPct + NOTIONAL_TOLERANCE {
          return RejectNotional;
        }
      }

      var duplicate := HasDuplicate(recent, intent, now - cfg.duplicateWindowSeconds * SECOND);
      v := if duplicate then RejectDuplicate else Pass;
    }

    method RecordTradeResult(pnl: real, now: Time)
      modifies this
      ensures View() == old(View()).RecordResult(pnl, now)
    {
      if pnl < 0.0 {
        losses := losses + 1;
        if cfg.maxConsecutiveLosses > 0 && losses >= cfg.maxConsecutiveLosses {
          pausedUntil := Some(now + cfg.Pause());
        }
      } else if pnl > 0.0 {
        losses := 0;
        pausedUntil := None;
      }
    }
  }

  // ---------------------------------------------------------------- the breaker over a history of results

  datatype Outcome = Outcome(pnl: real, at: Time)

  /** Losing results after the last winning one; break-even results count neither way. */
  function LossStreak(history: seq<Outcome>): nat {
    if history == [] then 0
    else
      var last := history[|history| - 1];
      var before := LossStreak(history[..|history| - 1]);
      if last.pnl < 0.0 then before + 1 else if last.pnl > 0.0 then 0 else before
  }

  /** Result i is a loss that completed a streak of at least the limit, no win followed it,
      and its pause still covers t. */
  ghost predicate TripsAt(history: seq<Outcome>, cfg: RiskConfig, i: nat, t: Time)
    requires i < |history|
  {
    && history[i].pnl < 0.0
    && 0 < cfg.maxConsecutiveLosses <= LossStreak(history[..i + 1])
    && (forall j :: i < j < |history| ==> history[j].pnl <= 0.0)
    && t < history[i].at + cfg.pauseMinutes * 60 * 1_000_000
  }

  ghost predicate Tripped(history: seq<Outcome>, cfg: RiskConfig, t: Time) {
    exists i: nat :: i < |history| && TripsAt(history, cfg, i, t)
  }

  ghost predicate InOrder(history: seq<Outcome>, now: Time) {
    && (forall i, j :: 0 <= i < j < |history| ==> history[i].at <= history[j].at)
    && (forall i :: 0 <= i < |history| ==> history[i].at <= now)
  }

  /** The checker's two fields say about every instant from now on exactly what the history says. */
  ghost predicate BreakerAgrees(r: Risk, history: seq<Outcome>, now: Time) {
    && r.losses == LossStreak(history)
    && forall t :: t >= now ==> (r.PausedAt(t) <==> Tripped(history, r.cfg, t))
  }

  lemma BreakerStart(r: Risk, now: Time)
    requires r.losses == 0 && r.pausedUntil == None
    ensures BreakerAgrees(r, [], now)
  {
  }

  /** Time passing, and the lazy clearing inside a check, change no later answer. */
  lemma BreakerAfterCheck(r: Risk, history: seq<Outcome>, before: Time, now: Time)
    requires before <= now && BreakerAgrees(r, history, before)
    ensures BreakerAgrees(r.AfterCheck(now), history, now)
  {
    forall t | t >= now
      ensures r.AfterCheck(now).PausedAt(t) <==> Tripped(history, r.cfg, t)
    {
      assert r.PausedAt(t) <==> Tripped(history, r.cfg, t);
    }
  }

  lemma BreakerAfterResult(r: Risk, history: seq<Outcome>, before: Time, pnl: real, now: Time)
    requires before <= now && BreakerAgrees(r, history, before) && InOrder(history, before)
    ensures BreakerAgrees(r.RecordResult(pnl, now), history + [Outcome(pnl, now)], now)
    ensures InOrder(history + [Outcome(pnl, now)], now)
  {
    var h' := history + [Outcome(pnl, now)];
    var r' := r.RecordResult(pnl, now);
    assert h'[..|h'| - 1] == history;
    assert r'.losses == LossStreak(h');
    forall t | t >= now
      ensures r'.PausedAt(t) <==> Tripped(h', r.cfg, t)
    {
      TrippedByLast(r, history, pnl, now, t);
      assert r.PausedAt(t) <==> Tripped(history, r.cfg, t);
    }
  }

  /** How one more result changes whether the history trips at t. */
  lemma TrippedByLast(r: Risk, history: seq<Outcome>, pnl: real, now: Time, t: Time)
    requires InOrder(history, now)
    ensures var h' := history + [Outcome(pnl, now)];
            Tripped(h', r.cfg, t) <==>
            if pnl < 0.0 && 0 < r.cfg.maxConsecutiveLosses <= LossStreak(h') then
              t < now + r.cfg.Pause()
            else pnl <= 0.0 && Tripped(history, r.cfg, t)
  {
    var n := |history|;
    var h' := history + [Outcome(pnl, now)];
    assert h'[..n + 1] == h';
    forall i: nat | i < n
      ensures pnl <= 0.0 ==> (TripsAt(h', r.cfg, i, t) <==> TripsAt(history, r.cfg, i, t))
      ensures pnl > 0.0 ==> !TripsAt(h', r.cfg, i, t)
    {
      assert h'[..i + 1] == history[..i + 1];
      assert h'[n].pnl == pnl;
      if TripsAt(history, r.cfg, i, t) && pnl <= 0.0 {
        assert forall j :: i < j < |h'| ==> h'[j].pnl <= 0.0;
      }
      if TripsAt(h', r.cfg, i, t) {
        assert forall j :: i < j < n ==> history[j] == h'[j];
      }
    }
    if pnl < 0.0 && 0 < r.cfg.maxConsecutiveLosses <= LossStreak(h') {
      if t < now + r.cfg.Pause() {
        assert TripsAt(h', r.cfg, n, t);
      }
    } else {
      assert !TripsAt(h', r.cfg, n, t);
      if Tripped(h', r.cfg, t) {
        var i: nat :| i < |h'| && TripsAt(h', r.cfg, i, t);
        assert i < n;
      }
      if pnl <= 0.0 && Tripped(history, r.cfg, t) {
        var i: nat :| i < n && TripsAt(history, r.cfg, i, t);
        assert TripsAt(h', r.cfg, i, t);
      }
    }
  }

  /** A streak of N straight losses, none of them wins in between, holds the breaker for a full pause. */
  lemma StraightLossesTrip(history: seq<Outcome>, cfg: RiskConfig, t: Time)
    requires 0 < cfg.maxConsecutiveLosses <= |history|
    requires forall i :: |history| - cfg.maxConsecutiveLosses <= i < |history| ==> history[i].pnl < 0.0
    requires t < history[|history| - 1].at + cfg.Pause()
    ensures Tripped(history, cfg, t)
  {
    StreakOfLosses(history, cfg.maxConsecutiveLosses);
    assert history[..|history| - 1 + 1] == history;
    assert TripsAt(history, cfg, |history| - 1, t);
  }

  lemma {:induction false} StreakOfLosses(history: seq<Outcome>, n: nat)
    requires n <= |history|
    requires forall i :: |history| - n <= i < |history| ==> history[i].pnl < 0.0
    ensures LossStreak(history) >= n
  {
    if n > 0 {
      var before := history[..|history| - 1];
      assert forall i :: |before| - (n - 1) <= i < |before| ==> before[i] == history[i];
      StreakOfLosses(before, n - 1);
    }
  }
}
