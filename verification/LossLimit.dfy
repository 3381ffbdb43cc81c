/** What the hard gate means over whole runs: how large a submitted order can be, and how a day's losses stop entries. */
module LossLimit {
  import opened Domain
  import opened Stores
  import opened PaperTrading
  import opened EngineModel
  import opened TickShapes
  import opened SignalProvenance
  import opened LedgerConservation
  import opened TickDecisions

  /** No tick, paper or live, submits an entry while the day's figure is below minus the percentage of equity, or below
      the fixed limit when there is no percentage or no equity. */
  lemma DailyLossStopsEntries(e: Engine, steps: seq<Step>, input: TickInput)
    requires Fresh(e) && AllowedRun(e, steps) && Allowed(Run(e, steps), Tick(input))
    requires var b := Synced(Run(e, steps), input);
             var equity := if input.balance > 0.0 then input.balance else b.strategy.fallbackEquity;
             var figure := DailyPnl(b.trades, Scope(b.runId, KstTodayStart(input.gateAt)));
             if equity > 0.0 && b.risk.cfg.dailyLossPct > 0.0 then figure + equity * b.risk.cfg.dailyLossPct < 0.0
             else figure < b.risk.cfg.dailyLossLimit
    ensures !SubmitsEntry(Run(e, steps), input)
  {
    hide Run, Synced, SubmitsEntry, Signalled, KstTodayStart, DailyPnl, Wanted;
    EntryHappensIff(e, steps, input);
  }

  lemma NothingSynced(e: Engine, input: TickInput)
    ensures e.cfg.paper ==>
              var b := Synced(e, input);
              b.risk == e.risk && b.strategy == e.strategy && b.trades == e.trades && b.runId == e.runId
              && b.Held(input.symbol) == e.Held(input.symbol)
  {
  }

  /** On paper, one symbol, one run id: once today's closes have lost more than the percentage of equity (the cost of a
      position held at midnight counting as a gain, which nothing held makes zero), no entry is submitted that day. */
  lemma RealizedLossStopsEntries(e: Engine, steps: seq<Step>, input: TickInput)
    requires Fresh(e) && e.cfg.paper && AllowedRun(e, steps) && CoveringRun(e, steps)
    requires OnlySymbol(steps, input.symbol) && KeepsRunId(steps, e.runId) && Allowed(Run(e, steps), Tick(input))
    requires var s := Run(e, steps);
             var equity := if input.balance > 0.0 then input.balance else s.strategy.fallbackEquity;
             var midnight := KstTodayStart(input.gateAt);
             var held := HeldAt(s.log, input.symbol, midnight);
             && equity > 0.0 && s.risk.cfg.dailyLossPct > 0.0
             && RealizedSince(s.log, midnight) + (if held.Some? then Cost(held.value) else 0.0)
                + equity * s.risk.cfg.dailyLossPct < 0.0
    ensures !SubmitsEntry(Run(e, steps), input)
  {
    hide Run, Synced, SubmitsEntry, Signalled, KstTodayStart, DailyPnl, Wanted, HeldAt, RealizedSince, Cost;
    var s := Run(e, steps);
    EntryHappensIff(e, steps, input);
    SamePaper(e, steps);
    NothingSynced(s, input);
    if s.Held(input.symbol).None? {
      SingleSymbolGate(e, steps, input.symbol, input.gateAt);
      DailyLossStopsEntries(e, steps, input);
    }
  }

  /** An entry submitted on paper leaves the net quantity within the position limit, and commits no more than the
      percentage of equity and five cents. */
  lemma SubmittedWithinLimits(e: Engine, steps: seq<Step>, input: TickInput)
    requires Fresh(e) && e.cfg.paper && AllowedRun(e, steps) && Allowed(Run(e, steps), Tick(input))
    requires SubmitsEntry(Run(e, steps), input)
    ensures var s := Run(e, steps);
            && |ProcessTick(s, input).orders| > |s.orders|
            && var o := ProcessTick(s, input).orders[|s.orders|];
            var equity := if input.balance > 0.0 then input.balance else s.strategy.fallbackEquity;
            var net := PaperQuantity(s.paper, input.symbol) + (if o.side == BuySide then o.quantity else -o.quantity);
            && o.price.Some?
            && (s.risk.cfg.maxPositionQty > 0.0 ==> -s.risk.cfg.maxPositionQty <= net <= s.risk.cfg.maxPositionQty)
            && (equity > 0.0 && s.risk.cfg.maxNotionalPct > 0.0 ==>
                  o.quantity * o.price.value <= equity * s.risk.cfg.maxNotionalPct + 0.05)
  {
    hide Run, Synced, SubmitsEntry, Signalled, Wanted, Confirmed, ProcessTick;
    var s := Run(e, steps);
    EntryHappensIff(e, steps, input);
    EntryIsAsWanted(e, steps, input);
    SamePaper(e, steps);
    PaperUnsynced(s, input);
    PricedIntent(Synced(s, input), input);
    if ProcessTick(s, input).orders[|s.orders|].price == Some(0.0) {
      NoNotional(s, input);
    }
  }

  lemma NoNotional(e: Engine, input: TickInput)
    ensures EquityAt(e, input) > 0.0 && e.risk.cfg.maxNotionalPct > 0.0 ==>
              EquityAt(e, input) * e.risk.cfg.maxNotionalPct > 0.0
  {
  }

  lemma PricedIntent(e: Engine, input: TickInput)
    requires input.prediction.Some? && Wanted(e, input).Some?
    ensures Wanted(e, input).value.price.Some?
  {
  }
}
