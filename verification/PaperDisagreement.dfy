/** Two concrete paper runs after which the simulated exchange and the position manager disagree: a restart that
    recovers a position, and a short. */
module PaperDisagreement {
  import opened Domain
  import opened SignalPolicies
  import opened RiskChecking
  import opened Stores
  import opened PaperTrading
  import opened EngineModel
  import opened TickShapes
  import opened PaperAgreement
  import opened GateMisreads

  const RESTART: Step := NewProcess({X}, CFG, FIRST, Policy(1, LongOnly, map[]), LIMITS, SIZELESS)

  /** Buy one, restart: the position comes back from the log, the adapter starts empty. */
  lemma RestartDisagrees()
    ensures Fresh(START) && START.cfg.paper && AllowedRun(START, Bought(1) + [RESTART])
    ensures var s := Run(START, Bought(1) + [RESTART]);
            && s.Held(X) == Some(Long100(At(1, 100.0, true).fillAt, FIRST)) && PaperQuantity(s.paper, X) == 0.0
            && !Agrees(s)
  {
    hide ProcessTick, Run, AllowedRun;
    AfterBuying(1);
    var s := Run(START, Bought(1));
    Extend(START, Bought(1), RESTART);
    assert s.log[..0] == [] && LatestRow(s.log, X) == Some(s.log[0]);
    assert X in RecoverAll(s.log, {X});
    RestartAgreement(s, RESTART);
  }

  const BOTH_WAYS: Engine := START.(policy := Policy(1, LongShort, map[]))

  const SELL: TickInput := At(1, 100.0, false).(prediction := Some(Prediction(Sell, None, false)))

  function Short100(at: Time): Position {
    Position(X, Short, 1.0, 100.0, Some(90.0), None, at, FIRST)
  }

  /** Go short by one: the manager holds it, the adapter ignores a sell when flat. */
  lemma ShortDisagrees()
    ensures Fresh(BOTH_WAYS) && BOTH_WAYS.cfg.paper && AllowedRun(BOTH_WAYS, [] + [Tick(SELL)])
    ensures var s := Run(BOTH_WAYS, [] + [Tick(SELL)]);
            && s.Held(X) == Some(Short100(SELL.fillAt)) && PaperQuantity(s.paper, X) == 0.0
            && !Agrees(s)
  {
    hide ProcessTick, RecentOrders, DailyPnl, KstTodayStart, Written, Run, AllowedRun;
    Begin(BOTH_WAYS);
    Extend(BOTH_WAYS, [], Tick(SELL));
    ShortTick();
  }

  lemma ShortTick()
    ensures var s := ProcessTick(BOTH_WAYS, SELL);
            s.Held(X) == Some(Short100(SELL.fillAt)) && PaperQuantity(s.paper, X) == 0.0 && !Agrees(s)
  {
    hide Written, KstTodayStart;
    var e0 := Ready(BOTH_WAYS, SELL);
    var e1 := Informed(e0, SELL);
    var intent := Intent(X, SellSide, 1.0, Some(100.0), Some(90.0), None);
    assert e1.policy.Window(X) == [Sell];
    assert SoftCandidate(e1, SELL) == Some(intent);
    assert EntryVerdict(e1, SELL, intent) == Pass;
    InformedOnlySignals(e0, SELL);
    PaperEntry(e1.(risk := e1.risk.AfterCheck(SELL.gateAt)), SELL, intent, Short100(SELL.fillAt));
    var s := ProcessTick(BOTH_WAYS, SELL);
    assert s.Held(X) == Some(Short100(SELL.fillAt));
    assert PaperQuantity(s.paper, X) != NetQuantity(s.Held(X));
  }
}
