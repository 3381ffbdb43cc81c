/** Two entries on the same side of a symbol are more than the duplicate window apart: the gate only sees the newest
    orders of the run in force, and that is enough as long as no other run's order is in the window. */
module EntrySpacing {
  import opened Domain
  import opened RiskChecking
  import opened Stores
  import opened EngineModel
  import opened TickShapes
  import opened CrashRecovery
  import opened SignalProvenance

  /** A symbol's orders, whatever runs placed them, come in pairs of opposite sides, an entry and its exit; a position
      held is the half of an unfinished pair. */
  ghost predicate Paired(orders: seq<Order>, held: Option<Position>) {
    var n := |orders|;
    && (forall i :: 0 <= i < n && i % 2 == 0 && i + 1 < n ==> orders[i].side != orders[i + 1].side)
    && (if held.Some? then n % 2 == 1 && orders[n - 1].side == OpeningSide(held.value.side) else n % 2 == 0)
  }

  ghost predicate OrdersFit(orders: seq<Order>, held: Option<Position>, now: Time) {
    && Ascending(orders)
    && (forall i :: 0 <= i < |orders| ==> orders[i].createdAt <= now)
    && Paired(orders, held)
  }

  ghost predicate OrdersInv(e: Engine, symbol: Symbol) {
    OrdersFit(OrdersOn(e.orders, symbol), e.Held(symbol), e.clock)
  }

  lemma AppendOrder(orders: seq<Order>, o: Order, symbol: Symbol)
    ensures OrdersOn(orders + [o], symbol) == OrdersOn(orders, symbol) + (if o.symbol == symbol then [o] else [])
  {
    assert (orders + [o])[..|orders|] == orders;
  }

  lemma EntryFits(orders: seq<Order>, o: Order, p: Position, now: Time)
    requires OrdersFit(orders, None, now) && now < o.createdAt && o.side == OpeningSide(p.side)
    ensures OrdersFit(orders + [o], Some(p), o.createdAt)
  {
  }

  lemma ExitFits(orders: seq<Order>, o: Order, p: Position, now: Time)
    requires OrdersFit(orders, Some(p), now) && now < o.createdAt && o.side == ClosingSide(p.side)
    ensures OrdersFit(orders + [o], None, o.createdAt)
  {
    var n := |orders|;
    assert OpeningSide(p.side) != ClosingSide(p.side);
    assert forall i :: 0 <= i < n && i % 2 == 0 && i + 1 < n ==> orders[i].side != orders[i + 1].side;
  }

  lemma LaterFits(orders: seq<Order>, held: Option<Position>, now: Time, later: Time)
    requires OrdersFit(orders, held, now) && now <= later
    ensures OrdersFit(orders, held, later)
  {
  }

  lemma TickKeepsOrders(e: Engine, input: TickInput, symbol: Symbol)
    requires Paper(e) && Allowed(e, Tick(input)) && OrdersInv(e, symbol)
    ensures OrdersInv(ProcessTick(e, input), symbol)
  {
    hide ProcessTick, Approved, Due, OrdersFit, OrdersOn, Written, ClosedRowOf;
    var o := PaperTick(e, input);
    var mine := OrdersOn(e.orders, symbol);
    LaterFits(mine, e.Held(symbol), e.clock, input.fillAt);
    match o
    case Idle =>
    case Entered(p, intent) =>
      var order := PaperOrder(e, input, OpeningSide(p.side), p.quantity, p.entryPrice, false);
      AppendOrder(e.orders, order, symbol);
      if input.symbol == symbol {
        EntryFits(mine, order, p, e.clock);
      } else {
        assert mine + [] == mine;
      }
    case Exited(p, reason) =>
      var order := PaperOrder(e, input, ClosingSide(p.side), p.quantity, input.price, true);
      AppendOrder(e.orders, order, symbol);
      if input.symbol == symbol {
        ExitFits(mine, order, p, e.clock);
      } else {
        assert mine + [] == mine;
      }
  }

  lemma StepKeepsOrders(e: Engine, s: Step, symbol: Symbol)
    requires Paper(e) && Allowed(e, s) && OrdersInv(e, symbol)
    requires Covers(s, symbol) && Recoverable(e.positions, e.log, symbol)
    ensures OrdersInv(Apply(e, s), symbol)
  {
    hide ProcessTick, OrdersFit;
    if s.Tick? {
      TickKeepsOrders(e, s.input, symbol);
    } else {
      LaterFits(OrdersOn(e.orders, symbol), e.Held(symbol), e.clock, Apply(e, s).clock);
    }
  }

  lemma {:induction false} RunKeepsOrders(e: Engine, steps: seq<Step>, symbol: Symbol)
    requires Fresh(e) && e.cfg.paper && AllowedRun(e, steps) && AllCover(steps, symbol)
    ensures OrdersInv(Run(e, steps), symbol)
  {
    if steps != [] {
      var before := steps[..|steps| - 1];
      RunKeepsOrders(e, before, symbol);
      RunKeepsLog(e, before, symbol);
      SamePaper(e, before);
      StepKeepsOrders(Run(e, before), steps[|steps| - 1], symbol);
    }
  }

  // ---------------------------------------------------------------- what the gate cannot see

  lemma {:induction false} OnSymbol(orders: seq<Order>, symbol: Symbol)
    ensures forall o :: o in OrdersOn(orders, symbol) <==> o in orders && o.symbol == symbol
  {
    if orders != [] {
      OnSymbol(orders[..|orders| - 1], symbol);
      assert orders == orders[..|orders| - 1] + [orders[|orders| - 1]];
    }
  }

  lemma {:induction false} OneRunAscends(orders: seq<Order>, run: RunId, symbol: Symbol)
    requires Ascending(OrdersOn(orders, symbol))
    ensures Ascending(OrdersOf(orders, run, symbol))
  {
    if orders != [] {
      var before, last := orders[..|orders| - 1], orders[|orders| - 1];
      var all, mine := OrdersOn(before, symbol), OrdersOf(before, run, symbol);
      assert forall i :: 0 <= i < |all| ==> OrdersOn(orders, symbol)[i] == all[i];
      assert last.symbol == symbol ==> OrdersOn(orders, symbol)[|all|] == last;
      OneRunAscends(before, run, symbol);
      OnSymbol(before, symbol);
      OfRunAndSymbol(before, run, symbol);
      forall i | 0 <= i < |mine| && last.symbol == symbol
        ensures mine[i].createdAt < last.createdAt
      {
        assert mine[i] in all;
      }
    }
  }

  predicate SameWay(o: Order, symbol: Symbol, side: OrderSide) {
    o.symbol == symbol && o.side == side
  }

  lemma PartnerOf(all: seq<Order>, i: nat) returns (p: nat)
    requires Paired(all, None) && i < |all|
    ensures p < |all| && (p == i + 1 || p == i - 1) && all[p].side != all[i].side
  {
    p := if i % 2 == 0 then i + 1 else i - 1;
    if i % 2 == 1 {
      assert (i - 1) % 2 == 0;
    }
  }

  lemma IndexIn(o: Order, orders: seq<Order>) returns (i: nat)
    requires o in orders
    ensures i < |orders| && orders[i] == o
  {
    i :| i < |orders| && orders[i] == o;
  }

  /** What a gate listing two newest orders of a run on one side does not see: the partner of the newest, placed by
      another run after the older of the two. */
  lemma PartnerElsewhere(all: seq<Order>, mine: seq<Order>, run: RunId) returns (partner: Order)
    requires Ascending(all) && Paired(all, None) && Ascending(mine)
    requires forall o :: o in mine <==> o in all && o.runId == run
    requires |mine| >= 2 && mine[|mine| - 1].side == mine[|mine| - 2].side
    ensures partner in all && partner.runId != run && partner.side != mine[|mine| - 1].side
    ensures partner.createdAt > mine[|mine| - 2].createdAt
  {
    hide Paired;
    var newest, older := mine[|mine| - 1], mine[|mine| - 2];
    var i := IndexIn(newest, all);
    var j := IndexIn(older, all);
    assert j < i;
    var p := PartnerOf(all, i);
    assert j < p;
    partner := all[p];
    if partner.runId == run {
      var q := IndexIn(partner, mine);
      assert false;
    }
  }

  /** A gate that lists at least two of the run's newest orders and finds no duplicate leaves none of that run's orders
      in the window, unless another run has one of the same side there. */
  lemma ListedJudgesRun(orders: seq<Order>, run: RunId, symbol: Symbol, limit: nat, intent: Intent, cutoff: Time,
                        bound: Time, h: Order)
    requires Ascending(OrdersOn(orders, symbol)) && Paired(OrdersOn(orders, symbol), None) && limit >= 2
    requires intent.symbol == symbol && !IsDuplicate(RecentOrders(orders, run, symbol, limit), intent, cutoff)
    requires cutoff <= bound
    requires forall o :: o in orders && SameWay(o, symbol, intent.side) && o.runId != run ==> o.createdAt < bound
    requires h in orders && SameWay(h, symbol, intent.side) && h.runId == run
    ensures h.createdAt < bound
  {
    hide OrdersOn, OrdersOf, NewestFirst;
    var all, mine := OrdersOn(orders, symbol), OrdersOf(orders, run, symbol);
    var recent := RecentOrders(orders, run, symbol, limit);
    var m := |mine|;
    OneRunAscends(orders, run, symbol);
    AscendingReversed(mine);
    OnSymbol(orders, symbol);
    OfRunAndSymbol(orders, run, symbol);
    assert h in mine;
    var k := IndexIn(h, mine);
    if m - 1 - k < limit {
      assert recent[m - 1 - k] == h;
    } else {
      assert recent[0] == mine[m - 1] && recent[1] == mine[m - 2];
      assert mine[m - 1].createdAt > h.createdAt && mine[m - 2].createdAt > h.createdAt;
      if recent[0].createdAt >= cutoff && recent[1].createdAt >= cutoff {
        assert recent[0].side != intent.side && recent[1].side != intent.side;
        var partner := PartnerElsewhere(all, mine, run);
        assert partner in orders && SameWay(partner, symbol, intent.side);
      }
    }
  }

  /** More than the duplicate window before the entry. */
  predicate Far(entry: Order, o: Order, risk: RiskConfig) {
    entry.createdAt - o.createdAt > risk.duplicateWindowSeconds * SECOND
  }

  ghost predicate AllFar(entry: Order, orders: seq<Order>, risk: RiskConfig) {
    forall o :: o in orders && SameWay(o, entry.symbol, entry.side) ==> Far(entry, o, risk)
  }

  ghost predicate OtherRunsFar(entry: Order, orders: seq<Order>, risk: RiskConfig) {
    forall o :: o in orders && SameWay(o, entry.symbol, entry.side) && o.runId != entry.runId ==> Far(entry, o, risk)
  }

  /** In every paper run, run ids switched at will: an entry order is more than the duplicate window away from every
      earlier order of its symbol and side, entry or exit, however many orders ago, if and only if it is from those
      placed under other run ids. */
  lemma EntriesKeepDistanceIff(e: Engine, steps: seq<Step>, input: TickInput)
    requires Fresh(e) && e.cfg.paper && AllowedRun(e, steps) && AllCover(steps, input.symbol)
    requires Allowed(Run(e, steps), Tick(input)) && SubmitsEntry(Run(e, steps), input)
    ensures var s := Run(e, steps);
            var entry := ProcessTick(s, input).orders[|s.orders|];
            && entry.symbol == input.symbol && entry.runId == s.runId
            && (AllFar(entry, s.orders, s.risk.cfg) <==> OtherRunsFar(entry, s.orders, s.risk.cfg))
  {
    hide ProcessTick, Informed, SoftCandidate, Written;
    var s := Run(e, steps);
    SamePaper(e, steps);
    RunKeepsOrders(e, steps, input.symbol);
    var o := PaperTick(s, input);
    InformedOnlySignals(Ready(s, input), input);
    CandidateSymbol(Informed(Ready(s, input), input), input);
    var entry := ProcessTick(s, input).orders[|s.orders|];
    var w := s.risk.cfg.duplicateWindowSeconds * SECOND;
    if OtherRunsFar(entry, s.orders, s.risk.cfg) {
      forall h | h in s.orders && SameWay(h, entry.symbol, entry.side)
        ensures Far(entry, h, s.risk.cfg)
      {
        if h.runId == entry.runId {
          ListedJudgesRun(s.orders, s.runId, input.symbol, RECENT_ORDER_LIMIT, o.intent, input.gateAt - w,
                          entry.createdAt - w, h);
        }
      }
    }
  }

  lemma CandidateSymbol(e: Engine, input: TickInput)
    ensures SoftCandidate(e, input).Some? ==> SoftCandidate(e, input).value.symbol == input.symbol
  {
  }

  lemma {:induction false} OrdersStayUnder(e: Engine, steps: seq<Step>)
    requires Fresh(e) && e.cfg.paper && AllowedRun(e, steps) && KeepsRunId(steps, e.runId)
    ensures Run(e, steps).runId == e.runId
    ensures forall o :: o in Run(e, steps).orders ==> o.runId == e.runId
  {
    hide ProcessTick, Written, Approved, Due;
    if steps != [] {
      var before, s := steps[..|steps| - 1], steps[|steps| - 1];
      OrdersStayUnder(e, before);
      SamePaper(e, before);
      if s.Tick? {
        var o := PaperTick(Run(e, before), s.input);
      }
    }
  }

  /** So in every paper run that keeps its run id, every entry keeps the distance. */
  lemma EntriesKeepDistance(e: Engine, steps: seq<Step>, input: TickInput)
    requires Fresh(e) && e.cfg.paper && AllowedRun(e, steps) && AllCover(steps, input.symbol)
    requires KeepsRunId(steps, e.runId)
    requires Allowed(Run(e, steps), Tick(input)) && SubmitsEntry(Run(e, steps), input)
    ensures var s := Run(e, steps);
            AllFar(ProcessTick(s, input).orders[|s.orders|], s.orders, s.risk.cfg)
  {
    hide ProcessTick, Far;
    EntriesKeepDistanceIff(e, steps, input);
    OrdersStayUnder(e, steps);
  }
}
