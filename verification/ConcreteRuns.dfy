/** Runs on which a natural expectation fails: a partial exit that parts the two profits, and two
    orders on one side that fill against the path. */
module ConcreteRuns {
  import opened Sequences
  import opened EngineModel
  import opened StopWalk
  import opened EngineRun
  import opened EngineLedgers
  import opened EngineTheorems
  import opened PendingOrders

  const EVERY_BAR := Window(0, 0)

  /** A bar on which the strategy returns these orders and writes no risk setting. */
  function Day(bar: Bar, orders: seq<Option<Order>>): Event {
    Event(bar, 0, Returned(orders, NO_UPDATE))
  }

  /** Nothing protects the position and no order waits for a close. */
  predicate Quiet(st: State) {
    st.risk == NO_RISK && st.onClose == []
  }

  /** Orders for the next bar only. */
  predicate NextOnly(os: seq<Option<Order>>) {
    forall i :: 0 <= i < |os| ==> os[i].Some? && os[i].value.timing == Next
  }

  lemma NoRiskNoStop(cfg: Config, b: Book, bar: Bar)
    requires cfg.pv != 0.0 && DollarsPerPoint(cfg, b) != 0.0
    ensures StopFill(cfg, NO_RISK, b, bar) == None
  {
    forall peak ensures Levels(cfg, NO_RISK, b, peak) == [] {
    }
    hide Levels, Waypoints, Ratchet;
    NoLegs(cfg, b, Usable(bar), 0, b.peakProfit);
  }

  lemma {:induction false} NoLegs(cfg: Config, b: Book, bar: Bar, i: nat, peak: real)
    requires cfg.pv != 0.0 && DollarsPerPoint(cfg, b) != 0.0 && i <= 3
    requires forall p :: Levels(cfg, NO_RISK, b, p) == []
    ensures WalkLegs(cfg, NO_RISK, b, bar, i, peak) == None
    decreases 3 - i
  {
    hide Levels, Waypoints, Ratchet;
    if i < 3 {
      NoLegs(cfg, b, bar, i + 1, Ratchet(cfg, b, bar, peak, Waypoints(bar)[i + 1]));
    }
  }

  /** What a fill decides: all but the marks of the open position. */
  predicate SameTrades(st: State, st': State) {
    && st'.ledger == st.ledger && st'.fills == st.fills
    && st'.book.(barsSinceEntry := 0, peakProfit := 0.0, mfe := 0.0, mae := 0.0)
       == st.book.(barsSinceEntry := 0, peakProfit := 0.0, mfe := 0.0, mae := 0.0)
  }

  lemma {:induction false} NextIsQueued(cfg: Config, os: seq<Option<Order>>, close: real, bn: int)
    requires NextOnly(os)
    ensures Stashed(cfg, ValidOrders(os), close, bn) == [] && |Queued(ValidOrders(os))| == |os|
    ensures forall i :: 0 <= i < |os| ==> Queued(ValidOrders(os))[i] == os[i].value
  {
    if os != [] {
      var rest := os[1..];
      assert forall i :: 0 <= i < |rest| ==> rest[i] == os[i + 1];
      NextIsQueued(cfg, rest, close, bn);
      var v := ValidOrders(rest);
      assert ValidOrders(os) == [os[0].value] + v && ([os[0].value] + v)[1..] == v;
      assert Queued(ValidOrders(os)) == [os[0].value] + Queued(v);
    }
  }

  lemma QuietStops(cfg: Config, st: State, bar: Bar, bn: int)
    requires cfg.pv != 0.0 && st.risk == NO_RISK
    ensures var st' := CheckStops(cfg, st, bar, bn);
            SameTrades(st, st') && st'.(book := st.book) == st
  {
    var b := st.book;
    if !(b.mp == 0 || b.entryBar == 0 || b.contracts == 0) {
      assert DollarsPerPoint(cfg, b) != 0.0;
      NoRiskNoStop(cfg, b, bar);
    }
    hide StopFill, ProfitAt, DollarsPerPoint;
  }

  /** A quiet bar trades exactly what was pending. */
  lemma QuietBar(cfg: Config, st: State, bar: Bar, bn: int)
    requires cfg.pv != 0.0 && Quiet(st)
    ensures var p, st' := ExecutePending(cfg, st, bar, bn), BeforeBar(cfg, st, bar, bn);
            SameTrades(p, st') && Quiet(st')
  {
    hide FillMarket, FillTriggered, PathOrder, TriggeredOrders, MarketOrders, CheckStops, FoldDrawdown, EquityPoints,
         MarkToMarket, SameTrades, Gain;
    assert ExecuteOnClose(cfg, st) == st;
    if NoWork(st) {
      NothingPending(cfg, st, bar, bn);
    } else {
      PendingKeepsQuiet(cfg, st, bar, bn);
      hide ExecuteOnClose, ExecutePending;
      QuietStops(cfg, ExecutePending(cfg, st, bar, bn), bar, bn);
      MarksChangeNoTrade(ExecutePending(cfg, st, bar, bn), CheckStops(cfg, ExecutePending(cfg, st, bar, bn), bar, bn),
                         BeforeBarBody(cfg, st, bar, bn));
    }
  }

  lemma MarksChangeNoTrade(p: State, c: State, st': State)
    requires SameTrades(p, c) && st'.ledger == c.ledger && st'.fills == c.fills
    requires st'.book.(barsSinceEntry := 0, mfe := 0.0, mae := 0.0)
             == c.book.(barsSinceEntry := 0, mfe := 0.0, mae := 0.0)
    ensures SameTrades(p, st')
  {
  }

  lemma NothingPending(cfg: Config, st: State, bar: Bar, bn: int)
    requires cfg.pv != 0.0 && NoWork(st)
    ensures SameTrades(ExecutePending(cfg, st, bar, bn), BeforeBar(cfg, st, bar, bn))
  {
    assert MarketOrders([]) == [] && TriggeredOrders(cfg, [], bar) == [];
    assert PathOrder([], HighFirst(bar)) == [];
  }

  lemma {:induction false} MarketKeepsRisk(cfg: Config, st: State, os: seq<Order>, price: real, bn: int)
    ensures FillMarket(cfg, st, os, price, bn).risk == st.risk
    decreases |os|
  {
    if os != [] {
      MarketKeepsRisk(cfg, FillAt(cfg, st, os[0], price, bn), os[1..], price, bn);
    }
  }

  lemma {:induction false} TriggeredKeepRisk(cfg: Config, st: State, ts: seq<Triggered>, bn: int)
    ensures FillTriggered(cfg, st, ts, bn).risk == st.risk
    decreases |ts|
  {
    if ts != [] {
      TriggeredKeepRisk(cfg, FillAt(cfg, st, ts[0].order, ts[0].price, bn), ts[1..], bn);
    }
  }

  lemma PendingKeepsQuiet(cfg: Config, st: State, bar: Bar, bn: int)
    requires Quiet(st)
    ensures Quiet(ExecutePending(cfg, st, bar, bn))
  {
    hide FillMarket, FillTriggered, PathOrder, TriggeredOrders, MarketOrders;
    var st1 := FillMarket(cfg, st, MarketOrders(st.pending), bar.open, bn);
    var ts := PathOrder(TriggeredOrders(cfg, st.pending, bar), HighFirst(bar));
    MarketKeepsRisk(cfg, st, MarketOrders(st.pending), bar.open, bn);
    TriggeredKeepRisk(cfg, st1, ts, bn);
    MarketKeepsClose(cfg, st, MarketOrders(st.pending), bar.open, bn);
    TriggeredKeepClose(cfg, st1, ts, bn);
  }

  /** One quiet day: what was pending is traded, and the day's orders are queued. */
  lemma QuietDay(cfg: Config, l: Loop, bar: Bar, os: seq<Option<Order>>)
    requires cfg.pv != 0.0 && Quiet(l.engine) && NextOnly(os)
    ensures var l' := Step(cfg, EVERY_BAR, l, Day(bar, os));
            && l'.bn == l.bn + 1 && Quiet(l'.engine)
            && SameTrades(ExecutePending(cfg, l.engine, bar, l.bn + 1), l'.engine)
            && |l'.engine.pending| == |os| && forall i :: 0 <= i < |os| ==> l'.engine.pending[i] == os[i].value
  {
    QuietBar(cfg, l.engine, bar, l.bn + 1);
    hide ExecutePending, BeforeBar, SameTrades;
    DayEnds(cfg, l, bar, os);
    SameThrough(ExecutePending(cfg, l.engine, bar, l.bn + 1), BeforeBar(cfg, l.engine, bar, l.bn + 1),
                Step(cfg, EVERY_BAR, l, Day(bar, os)).engine);
  }

  lemma DayEnds(cfg: Config, l: Loop, bar: Bar, os: seq<Option<Order>>)
    requires cfg.pv != 0.0 && Quiet(l.engine) && NextOnly(os) && Quiet(BeforeBar(cfg, l.engine, bar, l.bn + 1))
    ensures var b, l' := BeforeBar(cfg, l.engine, bar, l.bn + 1), Step(cfg, EVERY_BAR, l, Day(bar, os));
            && l'.bn == l.bn + 1 && Quiet(l'.engine)
            && l'.engine.book == b.book && l'.engine.ledger == b.ledger && l'.engine.fills == b.fills
            && |l'.engine.pending| == |os| && forall i :: 0 <= i < |os| ==> l'.engine.pending[i] == os[i].value
  {
    hide BeforeBar, Conclude, Quiet, NextOnly;
    StepConcludes(cfg, l, bar, os);
    DayConcludes(cfg, l, bar, os, BeforeBar(cfg, l.engine, bar, l.bn + 1));
    hide Step;
  }

  lemma StepConcludes(cfg: Config, l: Loop, bar: Bar, os: seq<Option<Order>>)
    requires cfg.pv != 0.0 && Quiet(l.engine)
    ensures Step(cfg, EVERY_BAR, l, Day(bar, os))
            == Conclude(cfg, EVERY_BAR, l, Day(bar, os), BeforeBar(cfg, l.engine, bar, l.bn + 1))
  {
    hide BeforeBar, Conclude;
    assert AtBar(cfg, EVERY_BAR, l, Day(bar, os)) == l.engine;
  }

  lemma DayConcludes(cfg: Config, l: Loop, bar: Bar, os: seq<Option<Order>>, b: State)
    requires NextOnly(os) && Quiet(b)
    ensures var l' := Conclude(cfg, EVERY_BAR, l, Day(bar, os), b);
            && l'.bn == l.bn + 1 && Quiet(l'.engine)
            && l'.engine.book == b.book && l'.engine.ledger == b.ledger && l'.engine.fills == b.fills
            && |l'.engine.pending| == |os| && forall i :: 0 <= i < |os| ==> l'.engine.pending[i] == os[i].value
  {
    NextIsQueued(cfg, os, bar.close, l.bn + 1);
    NoUpdate(cfg);
    hide Stashed, Queued, ValidOrders, MarkToMarket, NextOnly, ResolvePoints, UpdateRisk;
  }

  lemma NoUpdate(cfg: Config)
    ensures UpdateRisk(NO_RISK, ResolvePoints(cfg, NO_UPDATE)) == NO_RISK
  {
  }

  lemma SameThrough(p: State, b: State, e: State)
    requires SameTrades(p, b) && e.book == b.book && e.ledger == b.ledger && e.fills == b.fills
    ensures SameTrades(p, e)
  {
  }

  // ---- The two profits part ---------------------------------------------------------------------

  const BUY := Order(Buy, Market, 1, Next, "in", None)
  const SELL := Order(Sell, Market, 1, Next, "out", None)

  function Still(x: real): Bar {
    Bar(x, x, x, x)
  }

  /** Bought at 100 and at 110, one sold at 120. */
  function PartingTape(n: nat): seq<Event> {
    [Day(Still(90.0), [Some(BUY)]), Day(Still(100.0), [Some(BUY)]), Day(Still(110.0), [Some(SELL)]),
     Day(Still(120.0), [])]
      [..if n < 4 then n else 4]
  }

  lemma OneMarket(cfg: Config, st: State, o: Order, bar: Bar, bn: int)
    requires st.pending == [o] && o.timing == Next && o.otype == Market
    ensures ExecutePending(cfg, st, bar, bn) == FillAt(cfg, st, o, bar.open, bn).(pending := [])
  {
    assert [o][1..] == [];
    assert MarketOrders([]) == [] && TriggeredOrders(cfg, [], bar) == [];
    assert MarketOrders([o]) == [o] && TriggeredOrders(cfg, [o], bar) == [];
    assert PathOrder([], HighFirst(bar)) == [];
    hide FillAt;
    assert FillMarket(cfg, FillAt(cfg, st, o, bar.open, bn), [], bar.open, bn) == FillAt(cfg, st, o, bar.open, bn);
  }

  /** Long these contracts, bought one by one, none sold. */
  predicate Bought(st: State, prices: seq<real>) {
    && st.book.prices == prices && st.book.contracts == |prices| && st.book.mp == (if prices == [] then 0 else 1)
    && (prices == [] || |st.book.qtys| == |prices|) && st.ledger.gap == 0.0
  }

  lemma BuyOne(cfg: Config, st: State, prices: seq<real>, o: Order, price: real, bn: int)
    requires Exact(cfg) && Bought(st, prices) && o.action == Buy && o.qty == 1 && (cfg.cap <= 0 || |prices| < cfg.cap)
    ensures var st' := FillAt(cfg, st, o, price, bn);
            Bought(st', prices + [price]) && st'.fills == st.fills + [Fill(true, o.tag, price)]
  {
    hide NewAverage;
    assert Repeat(price, 1) == [price];
    var e := Enter(cfg, st, 1, 1, price, bn, o.tag);
    assert e.book.prices == prices + [price];
    assert Distance(Signed(e.book), Signed(st.book)) == 1;
    assert Repeat(Fill(true, o.tag, price), 1) == [Fill(true, o.tag, price)];
  }

  lemma TradesBought(p: State, e: State, prices: seq<real>)
    requires SameTrades(p, e) && Bought(p, prices)
    ensures Bought(e, prices)
  {
  }

  lemma BuyDay(cfg: Config, l: Loop, prices: seq<real>, x: real, o: Order)
    requires Exact(cfg) && cfg.pv != 0.0 && Quiet(l.engine) && Bought(l.engine, prices) && l.engine.pending == [BUY]
    requires o.timing == Next && (cfg.cap <= 0 || |prices| < cfg.cap)
    ensures var l' := Step(cfg, EVERY_BAR, l, Day(Still(x), [Some(o)]));
            l'.bn == l.bn + 1 && Quiet(l'.engine) && Bought(l'.engine, prices + [x]) && l'.engine.pending == [o]
  {
    hide ExecutePending, SameTrades, FillAt, Bought, Step;
    QuietDay(cfg, l, Still(x), [Some(o)]);
    OneMarket(cfg, l.engine, BUY, Still(x), l.bn + 1);
    BuyOne(cfg, l.engine, prices, BUY, x, l.bn + 1);
    assert Bought(ExecutePending(cfg, l.engine, Still(x), l.bn + 1), prices + [x]) by {
      BoughtAlone(FillAt(cfg, l.engine, BUY, x, l.bn + 1), prices + [x]);
    }
    TradesBought(ExecutePending(cfg, l.engine, Still(x), l.bn + 1),
                 Step(cfg, EVERY_BAR, l, Day(Still(x), [Some(o)])).engine,
                 prices + [x]);
  }

  lemma BoughtAlone(st: State, prices: seq<real>)
    requires Bought(st, prices)
    ensures Bought(st.(pending := []), prices)
  {
  }

  lemma TapeStep(cfg: Config, n: nat)
    requires cfg.pv != 0.0 && n < 4
    ensures Run(cfg, EVERY_BAR, PartingTape(n + 1))
            == Step(cfg, EVERY_BAR, Run(cfg, EVERY_BAR, PartingTape(n)), PartingTape(4)[n])
  {
    assert PartingTape(n + 1)[..n] == PartingTape(n);
    hide Step;
  }

  /** Three days in: two contracts bought at 100 and 110, and a sale pending. */
  lemma ThreeDays(cfg: Config)
    requires Exact(cfg) && cfg.pv != 0.0 && (cfg.cap <= 0 || cfg.cap >= 2)
    ensures var l := Run(cfg, EVERY_BAR, PartingTape(3));
            Quiet(l.engine) && Bought(l.engine, [100.0, 110.0]) && l.engine.pending == [SELL]
  {
    TapeDays(cfg);
    FirstDay(cfg);
    hide Run, Step, Quiet, Bought, PartingTape;
    TwoBuys(cfg, Run(cfg, EVERY_BAR, PartingTape(1)));
  }

  lemma TwoBuys(cfg: Config, l: Loop)
    requires Exact(cfg) && cfg.pv != 0.0 && (cfg.cap <= 0 || cfg.cap >= 2)
    requires Quiet(l.engine) && Bought(l.engine, []) && l.engine.pending == [BUY]
    ensures var l' := Step(cfg, EVERY_BAR, Step(cfg, EVERY_BAR, l, Day(Still(100.0), [Some(BUY)])),
                           Day(Still(110.0), [Some(SELL)]));
            Quiet(l'.engine) && Bought(l'.engine, [100.0, 110.0]) && l'.engine.pending == [SELL]
  {
    hide Step, Quiet, Bought, Exact;
    BuyDay(cfg, l, [], 100.0, BUY);
    assert [] + [100.0] == [100.0] && [100.0] + [110.0] == [100.0, 110.0];
    BuyDay(cfg, Step(cfg, EVERY_BAR, l, Day(Still(100.0), [Some(BUY)])), [100.0], 110.0, SELL);
  }

  lemma TapeDays(cfg: Config)
    requires cfg.pv != 0.0
    ensures Run(cfg, EVERY_BAR, PartingTape(1)) == Step(cfg, EVERY_BAR, START, Day(Still(90.0), [Some(BUY)]))
    ensures Run(cfg, EVERY_BAR, PartingTape(2))
            == Step(cfg, EVERY_BAR, Run(cfg, EVERY_BAR, PartingTape(1)), Day(Still(100.0), [Some(BUY)]))
    ensures Run(cfg, EVERY_BAR, PartingTape(3))
            == Step(cfg, EVERY_BAR, Run(cfg, EVERY_BAR, PartingTape(2)), Day(Still(110.0), [Some(SELL)]))
    ensures Run(cfg, EVERY_BAR, PartingTape(4))
            == Step(cfg, EVERY_BAR, Run(cfg, EVERY_BAR, PartingTape(3)), Day(Still(120.0), []))
  {
    TapeStep(cfg, 0);
    TapeStep(cfg, 1);
    TapeStep(cfg, 2);
    TapeStep(cfg, 3);
    assert PartingTape(0) == [] && Run(cfg, EVERY_BAR, PartingTape(0)) == START;
    hide Run, Step;
  }

  lemma FirstDay(cfg: Config)
    requires cfg.pv != 0.0
    ensures var l := Step(cfg, EVERY_BAR, START, Day(Still(90.0), [Some(BUY)]));
            Quiet(l.engine) && Bought(l.engine, []) && l.engine.pending == [BUY]
  {
    assert Quiet(START.engine) && Bought(START.engine, []);
    NothingWaits(cfg, FRESH, Still(90.0), 1);
    hide ExecutePending, SameTrades, Step;
    QuietDay(cfg, START, Still(90.0), [Some(BUY)]);
    TradesBought(FRESH, Step(cfg, EVERY_BAR, START, Day(Still(90.0), [Some(BUY)])).engine, []);
  }

  lemma NothingWaits(cfg: Config, st: State, bar: Bar, bn: int)
    requires st.pending == []
    ensures ExecutePending(cfg, st, bar, bn) == st
  {
    assert MarketOrders([]) == [] && TriggeredOrders(cfg, [], bar) == [];
    assert PathOrder([], HighFirst(bar)) == [];
  }

  lemma ParallelFifo(cfg: Config, p: State, e: State)
    requires SameTrades(p, e)
    ensures e.ledger.net == p.ledger.net && Fifo(cfg, e) == Fifo(cfg, p)
  {
  }

  /** A run of four bars at the end of which the engine's net profit is not the auditor's. */
  lemma ProfitsPartInARun(cfg: Config)
    requires Exact(cfg) && cfg.pv != 0.0 && (cfg.cap <= 0 || cfg.cap >= 2)
    ensures forall ev :: ev in PartingTape(4) ==> WellFormed(ev.bar)
    ensures var st := Run(cfg, EVERY_BAR, PartingTape(4)).engine;
            st.ledger.net != Fifo(cfg, st)
  {
    TapeIsWellFormed();
    ThreeDays(cfg);
    TapeDays(cfg);
    RunIsFaithful(cfg, EVERY_BAR, PartingTape(3));
    hide Run, Step, Faithful, Fifo, Quiet, Bought, PartingTape, Exact;
    LastDay(cfg, Run(cfg, EVERY_BAR, PartingTape(3)));
  }

  lemma TapeIsWellFormed()
    ensures forall ev :: ev in PartingTape(4) ==> WellFormed(ev.bar)
  {
  }

  lemma LastDay(cfg: Config, l: Loop)
    requires Exact(cfg) && cfg.pv != 0.0 && Faithful(cfg, l.engine) && Quiet(l.engine)
    requires Bought(l.engine, [100.0, 110.0])
    requires l.engine.pending == [SELL]
    ensures var st := Step(cfg, EVERY_BAR, l, Day(Still(120.0), [])).engine;
            st.ledger.net != Fifo(cfg, st)
  {
    assert NextOnly([]);
    hide Step, Faithful, Fifo, SameTrades, ExecutePending, Execute, Exact;
    AgreementMeansNoGap(cfg, l.engine);
    ProfitsCanPart(cfg, l.engine, SELL, 120.0, l.bn + 1);
    OneMarket(cfg, l.engine, SELL, Still(120.0), l.bn + 1);
    QuietDay(cfg, l, Still(120.0), []);
    FifoOfLog(cfg, FillAt(cfg, l.engine, SELL, 120.0, l.bn + 1));
    ParallelFifo(cfg, ExecutePending(cfg, l.engine, Still(120.0), l.bn + 1),
                 Step(cfg, EVERY_BAR, l, Day(Still(120.0), [])).engine);
  }

  lemma FifoOfLog(cfg: Config, st: State)
    ensures Fifo(cfg, st.(pending := [])) == Fifo(cfg, st)
  {
  }

  // ---- Same-side orders fill as queued ------------------------------------------------------------

  const FAR := Order(Buy, Stop, 1, Next, "far", Some(105.0))
  const NEAR := Order(Buy, Stop, 1, Next, "near", Some(103.0))
  const WIDE := Bar(100.0, 110.0, 80.0, 105.0)

  /** Two buy stops queued far one first, then a bar that rises through both. */
  function StopsTape(n: nat): seq<Event> {
    [Day(Still(90.0), [Some(FAR), Some(NEAR)]), Day(WIDE, [])][..if n < 2 then n else 2]
  }

  lemma BothTrigger(cfg: Config)
    requires Exact(cfg)
    ensures Trigger(cfg, FAR, WIDE) == Some(Triggered(true, false, FAR, 105.0))
    ensures Trigger(cfg, NEAR, WIDE) == Some(Triggered(true, false, NEAR, 103.0))
    ensures TriggeredOrders(cfg, [FAR, NEAR], WIDE)
            == [Triggered(true, false, FAR, 105.0), Triggered(true, false, NEAR, 103.0)]
    ensures MarketOrders([FAR, NEAR]) == []
  {
    assert [FAR, NEAR][1..] == [NEAR] && [NEAR][1..] == [];
    assert F32(cfg, 105.0) == 105.0 && F32(cfg, 103.0) == 103.0;
    assert TriggeredOrders(cfg, [], WIDE) == [] && MarketOrders([]) == [];
    assert TriggeredOrders(cfg, [NEAR], WIDE) == [Triggered(true, false, NEAR, 103.0)] && MarketOrders([NEAR]) == [];
  }

  lemma BothFill(cfg: Config, st: State, bn: int)
    requires Exact(cfg) && Bought(st, []) && st.pending == [FAR, NEAR] && (cfg.cap <= 0 || cfg.cap >= 2)
    ensures ExecutePending(cfg, st, WIDE, bn).fills == st.fills + [Fill(true, "far", 105.0), Fill(true, "near", 103.0)]
    ensures !MetNoLater(WIDE, Triggered(true, false, FAR, 105.0), Triggered(true, false, NEAR, 103.0))
  {
    var far, near := Triggered(true, false, FAR, 105.0), Triggered(true, false, NEAR, 103.0);
    BothTrigger(cfg);
    SameSideOrdersNotSorted(far, near, WIDE);
    hide MarketOrders, TriggeredOrders, PathOrder, FillAt, Bought, Exact;
    var st1 := FillAt(cfg, st, FAR, 105.0, bn);
    BuyOne(cfg, st, [], FAR, 105.0, bn);
    assert [] + [105.0] == [105.0];
    BuyOne(cfg, st1, [105.0], NEAR, 103.0, bn);
    assert [far, near][1..] == [near] && [near][1..] == [];
    assert FillTriggered(cfg, st, [far, near], bn) == FillAt(cfg, st1, NEAR, 103.0, bn) by {
      FillBoth(cfg, st, far, near, bn);
    }
    assert st.fills + [Fill(true, "far", 105.0)] + [Fill(true, "near", 103.0)]
        == st.fills + [Fill(true, "far", 105.0), Fill(true, "near", 103.0)];
  }

  lemma FillBoth(cfg: Config, st: State, a: Triggered, b: Triggered, bn: int)
    ensures FillTriggered(cfg, st, [a, b], bn)
            == FillAt(cfg, FillAt(cfg, st, a.order, a.price, bn), b.order, b.price, bn)
  {
    hide FillAt;
    assert [a, b][1..] == [b] && [b][1..] == [];
    var st1 := FillAt(cfg, st, a.order, a.price, bn);
    var st2 := FillAt(cfg, st1, b.order, b.price, bn);
    assert FillTriggered(cfg, st2, [], bn) == st2;
    assert FillTriggered(cfg, st1, [b], bn) == st2;
  }

  /** A run that logs the fill at 105 before the one at 103, on a bar whose assumed path rises from
      100 and reaches 103 first. */
  lemma FarStopFillsFirst(cfg: Config)
    requires Exact(cfg) && cfg.pv != 0.0 && (cfg.cap <= 0 || cfg.cap >= 2)
    ensures forall ev :: ev in StopsTape(2) ==> WellFormed(ev.bar)
    ensures Run(cfg, EVERY_BAR, StopsTape(2)).engine.fills == [Fill(true, "far", 105.0), Fill(true, "near", 103.0)]
    ensures BarPath(WIDE)[0] == 100.0 && BarPath(WIDE)[1] == 110.0
    ensures !MetNoLater(WIDE, Triggered(true, false, FAR, 105.0), Triggered(true, false, NEAR, 103.0))
  {
    hide *;
    var l := Step(cfg, EVERY_BAR, START, Day(Still(90.0), [Some(FAR), Some(NEAR)]));
    FarTape(cfg);
    FarStart();
    NothingWaits(cfg, FRESH, Still(90.0), 1);
    QuietDay(cfg, START, Still(90.0), [Some(FAR), Some(NEAR)]);
    TradesBought(FRESH, l.engine, []);
    assert l.engine.pending == [FAR, NEAR];
    QuietDay(cfg, l, WIDE, []);
    BothFill(cfg, l.engine, l.bn + 1);
    SameFills(FRESH, l.engine);
    SameFills(ExecutePending(cfg, l.engine, WIDE, l.bn + 1), Run(cfg, EVERY_BAR, StopsTape(2)).engine);
  }

  lemma FarTape(cfg: Config)
    requires cfg.pv != 0.0
    ensures var l := Step(cfg, EVERY_BAR, START, Day(Still(90.0), [Some(FAR), Some(NEAR)]));
            Run(cfg, EVERY_BAR, StopsTape(2)) == Step(cfg, EVERY_BAR, l, Day(WIDE, []))
  {
    hide Step;
    assert StopsTape(2)[..1] == StopsTape(1) && StopsTape(1)[..0] == StopsTape(0) == [];
    assert Run(cfg, EVERY_BAR, StopsTape(0)) == START;
  }

  lemma FarStart()
    ensures forall ev :: ev in StopsTape(2) ==> WellFormed(ev.bar)
    ensures NextOnly([Some(FAR), Some(NEAR)]) && NextOnly([])
    ensures START.engine == FRESH && START.bn == 0 && Quiet(FRESH) && Bought(FRESH, []) && FRESH.fills == []
    ensures FRESH.pending == []
    ensures |BarPath(WIDE)| > 1 && BarPath(WIDE)[0] == 100.0 && BarPath(WIDE)[1] == 110.0
  {
  }

  lemma SameFills(p: State, e: State)
    requires SameTrades(p, e)
    ensures e.fills == p.fills
  {
  }
}
