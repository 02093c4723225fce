/** What the bar loop does around the bars: which bars trade, when a session ends, and where each bar's
    orders and risk settings go. All of it is said of the tape alone. */
module Sessions {
  import opened Sequences
  import opened EngineModel
  import opened EngineRun
  import opened EngineInvariants
  import opened EngineLedgers
  import opened EngineTheorems
  import opened PendingOrders
  import opened Verbs

  // ---- What the loop remembers --------------------------------------------------------------------

  /** The bars the strategy has seen, when the first ones are history only. */
  function Seen(win: Window, evs: seq<Event>): nat {
    if |evs| <= win.maxBarsBack then 0 else |evs| - win.maxBarsBack
  }

  /** The close of the last bar that the strategy evaluated without throwing. */
  function LastClose(win: Window, evs: seq<Event>): Option<real> {
    if |evs| <= win.maxBarsBack then None
    else if evs[|evs| - 1].outcome.Returned? then Some(evs[|evs| - 1].bar.close)
    else LastClose(win, evs[..|evs| - 1])
  }

  lemma {:induction false} LoopRemembers(cfg: Config, win: Window, evs: seq<Event>)
    requires cfg.pv != 0.0
    ensures var l := Run(cfg, win, evs);
            && l.index == |evs| && l.bn == Seen(win, evs) && l.prevClose == LastClose(win, evs)
            && l.prevDate == if evs == [] then None else Some(evs[|evs| - 1].date)
  {
    hide AtBar, BeforeBar, AfterBar;
    if evs != [] {
      LoopRemembers(cfg, win, evs[..|evs| - 1]);
    }
  }

  /** The bar at index `i` may fill orders. */
  predicate MayTrade(win: Window, i: nat) {
    i >= win.tradeFrom && i >= win.maxBarsBack
  }

  lemma {:induction false} WarmUpNeverTrades(cfg: Config, win: Window, evs: seq<Event>)
    requires cfg.pv != 0.0 && (evs == [] || !MayTrade(win, |evs| - 1))
    ensures var st := Run(cfg, win, evs).engine;
            st.fills == [] && st.book == EMPTY_BOOK && st.ledger == EMPTY_LEDGER
  {
    hide BeforeBar, ExitOnClose, Stashed, Queued, ValidOrders, UpdateRisk, ResolvePoints, MarkToMarket;
    if evs != [] {
      LoopRemembers(cfg, win, evs[..|evs| - 1]);
      WarmUpNeverTrades(cfg, win, evs[..|evs| - 1]);
    }
  }

  /** The position, the money, the log and the drawdown are the same. */
  predicate SameMoney(a: State, b: State) {
    && a.book == b.book && a.ledger == b.ledger && a.fills == b.fills && a.hits == b.hits
    && a.peakEquity == b.peakEquity && a.maxDrawdown == b.maxDrawdown
  }

  lemma RunSnoc(cfg: Config, win: Window, evs: seq<Event>, ev: Event)
    requires cfg.pv != 0.0
    ensures Run(cfg, win, evs + [ev]) == Step(cfg, win, Run(cfg, win, evs), ev)
  {
    assert (evs + [ev])[..|evs|] == evs;
    hide Step;
  }

  lemma StepTrades(cfg: Config, win: Window, l: Loop, ev: Event)
    requires cfg.pv != 0.0
    ensures var at, st' := AtBar(cfg, win, l, ev), Step(cfg, win, l, ev).engine;
            var done := if Trading(win, l.index) then BeforeBar(cfg, at, ev.bar, l.bn + 1) else l.engine;
            && SameMoney(st', done)
            && (!(ev.outcome.Returned? && l.index + 1 >= win.tradeFrom && l.index >= win.maxBarsBack) ==> st' == done)
  {
    hide BeforeBar, ExitOnClose, Stashed, Queued, ValidOrders, UpdateRisk, ResolvePoints, MarkToMarket;
  }

  /** A bar that may trade does so once, with the number of bars seen, on the engine it finds; its
      outcome changes settings and queues only, and counts from the last warm-up bar on. */
  lemma BarsTrade(cfg: Config, win: Window, evs: seq<Event>, ev: Event)
    requires cfg.pv != 0.0
    ensures var st, st' := Run(cfg, win, evs).engine, Run(cfg, win, evs + [ev]).engine;
            var at := AtBar(cfg, win, Run(cfg, win, evs), ev);
            var counts := ev.outcome.Returned? && |evs| + 1 >= win.tradeFrom && |evs| >= win.maxBarsBack;
            && SameMoney(st', if MayTrade(win, |evs|) then BeforeBar(cfg, at, ev.bar, Seen(win, evs) + 1) else st)
            && (!counts ==> st' == if MayTrade(win, |evs|) then BeforeBar(cfg, at, ev.bar, Seen(win, evs) + 1) else st)
  {
    hide *;
    LoopRemembers(cfg, win, evs);
    RunSnoc(cfg, win, evs, ev);
    MayTradeIs(win, |evs|);
    StepTrades(cfg, win, Run(cfg, win, evs), ev);
      }

  // ---- The end of a session -------------------------------------------------------------------------

  /** The bar opens a new date, the strategy has asked for an exit at the close, and a close is known. */
  predicate DayOver(win: Window, evs: seq<Event>, ev: Event, exitOnClose: bool) {
    && MayTrade(win, |evs|) && evs != [] && evs[|evs| - 1].date != ev.date
    && exitOnClose && LastClose(win, evs).Some?
  }

  /** The close orders of the last bar were worked off, and what was left of the position was closed
      at `close`, as an exit of bar `bar`; nothing else changed. */
  ghost predicate EndsDay(cfg: Config, st: State, close: real, bar: int, st': State) {
    && st'.book.mp == 0 && Signed(st'.book) == 0
    && st'.pending == st.pending && st'.risk == st.risk && st'.onClose == []
    && exists mid :: Works(cfg, st, CloseJobs(st.onClose), mid)
                     && Moves(mid, Signed(mid.book) < 0, "End of Day Exit", close, 0, st')
                     && (if Signed(mid.book) == 0 then st'.ledger == mid.ledger
                         else ClosedOn(mid.ledger, bar, st'.ledger))
  }

  /** One more position is on record, closed on bar `bar`. */
  predicate ClosedOn(l: Ledger, bar: int, l': Ledger) {
    l'.closed != [] && l'.closed[..|l'.closed| - 1] == l.closed && l'.closed[|l'.closed| - 1].exitBar == bar
  }

  lemma {:induction false} CloseOrdersKeepRisk(cfg: Config, st: State, cs: seq<CloseOrder>)
    ensures FillCloseOrders(cfg, st, cs).risk == st.risk
    decreases |cs|
  {
    hide Enter, Exit, EntryRefused, Signed;
    if cs != [] {
      ExecuteKeepsRisk(cfg, st, cs[0].order, if cs[0].order.qty != 0 then cs[0].order.qty else 1, cs[0].price,
                       cs[0].bar);
      CloseOrdersKeepRisk(cfg, FillCloseOrder(cfg, st, cs[0]), cs[1..]);
    }
  }

  lemma ExecuteKeepsRisk(cfg: Config, st: State, o: Order, qty: nat, price: real, bar: int)
    requires qty >= 1
    ensures Execute(cfg, st, o, qty, price, bar).risk == st.risk
  {
    hide RecordTrade, Consume, Realised, PartialHistory, Reaveraged, NewAverage, EntryRefused, Signed;
  }

  lemma ExitEndsDay(cfg: Config, st: State, close: real, bn: int)
    requires Exact(cfg) && Faithful(cfg, st)
    ensures EndsDay(cfg, st, close, bn - 1, ExitOnClose(cfg, st, close, bn))
  {
    var mid := ExecuteOnClose(cfg, st);
    CloseOrdersWork(cfg, st, st.onClose);
    CloseOrdersKeepRisk(cfg, st, st.onClose);
    hide Faithful, Exact, Works, FillCloseOrders, CloseAtStop;
    WorksTo(cfg, st, CloseJobs(st.onClose), FillCloseOrders(cfg, st, st.onClose), mid);
    ExecuteOnCloseKeepsFaithful(cfg, st);
    ClosesAll(cfg, mid, close, "End of Day Exit", bn - 1);
  }

  lemma ClosesAll(cfg: Config, st: State, price: real, signal: string, bar: int)
    requires Exact(cfg) && Faithful(cfg, st)
    ensures var st' := CloseAtStop(cfg, st, price, signal, bar);
            && st'.book.mp == 0 && Moves(st, Signed(st.book) < 0, signal, price, 0, st')
            && (if Signed(st.book) == 0 then st'.ledger == st.ledger else ClosedOn(st.ledger, bar, st'.ledger))
            && st'.pending == st.pending && st'.risk == st.risk && st'.onClose == st.onClose
  {
    FaithfulBook(cfg, st);
    SidesOf(st.book);
    hide Faithful, Exact, BookInvariant, CapInvariant, RecordTrade, Consume, Realised, PartialHistory, Reaveraged;
    if st.book.mp == 0 {
      assert st.fills + [] == st.fills;
    }
  }

  /** In every run: the engine a bar finds is the one the last bar left, except on the first bar of a
      new date with the exit armed, when it finds the session's position closed at the last close. */
  lemma SessionsEnd(cfg: Config, win: Window, evs: seq<Event>, ev: Event)
    requires Exact(cfg) && cfg.pv != 0.0
    ensures var st, at := Run(cfg, win, evs).engine, AtBar(cfg, win, Run(cfg, win, evs), ev);
            if DayOver(win, evs, ev, st.risk.exitOnClose) then
              EndsDay(cfg, st, LastClose(win, evs).value, Seen(win, evs), at)
            else at == st
  {
    hide *;
    LoopRemembers(cfg, win, evs);
    RunIsFaithful(cfg, win, evs);
    var l := Run(cfg, win, evs);
    AtBarCases(cfg, win, l, evs, ev);
    if DayOver(win, evs, ev, l.engine.risk.exitOnClose) {
      ExitEndsDay(cfg, l.engine, l.prevClose.value, l.bn + 1);
    }
  }

  lemma AtBarCases(cfg: Config, win: Window, l: Loop, evs: seq<Event>, ev: Event)
    requires l.index == |evs| && l.prevClose == LastClose(win, evs)
    requires l.prevDate == if evs == [] then None else Some(evs[|evs| - 1].date)
    ensures DayOver(win, evs, ev, l.engine.risk.exitOnClose) ==> l.prevClose.Some?
    ensures AtBar(cfg, win, l, ev)
            == if DayOver(win, evs, ev, l.engine.risk.exitOnClose)
               then ExitOnClose(cfg, l.engine, LastClose(win, evs).value, l.bn + 1) else l.engine
  {
    hide LastClose, ExitOnClose;
  }

  // ---- Where orders go --------------------------------------------------------------------------------

  /** `a` is `b` with some elements left out. */
  predicate Part<T(==)>(a: seq<T>, b: seq<T>) {
    a == [] || (b != [] && ((a[0] == b[0] && Part(a[1..], b[1..])) || Part(a, b[1..])))
  }

  function OrdersOf(cs: seq<CloseOrder>): seq<Order> {
    if cs == [] then [] else [cs[0].order] + OrdersOf(cs[1..])
  }

  predicate AtThisClose(o: Order) {
    o.timing == ThisBar && o.otype == OnClose
  }

  function Given(os: seq<Order>): seq<Option<Order>> {
    if os == [] then [] else [Some(os[0])] + Given(os[1..])
  }

  function Nones(os: seq<Option<Order>>): seq<Option<Order>> {
    if os == [] then [] else (if os[0].None? then [None] else []) + Nones(os[1..])
  }

  lemma FirstGiven(os: seq<Option<Order>>)
    requires os != []
    ensures os[0].Some? ==>
              Given(ValidOrders(os)) == [os[0]] + Given(ValidOrders(os[1..])) && Nones(os) == Nones(os[1..])
    ensures os[0].None? ==> ValidOrders(os) == ValidOrders(os[1..]) && Nones(os) == [os[0]] + Nones(os[1..])
  {
    var rest, nones := ValidOrders(os[1..]), Nones(os[1..]);
    assert [] + rest == rest && [] + nones == nones;
    if os[0].Some? {
      assert ([os[0].value] + rest)[1..] == rest;
    }
  }

  /** The valid orders of a bar are those given, each as often and in the order given. */
  lemma {:induction false} ValidOrdersAreGiven(os: seq<Option<Order>>)
    ensures Shares(Given(ValidOrders(os)), Nones(os), os)
    ensures forall o :: o in Nones(os) ==> o.None?
  {
    if os != [] {
      ValidOrdersAreGiven(os[1..]);
      FirstGiven(os);
      hide *;
      assert os == [os[0]] + os[1..];
      SharesFirst(os[0], Given(ValidOrders(os[1..])), Nones(os[1..]), os[1..]);
    }
  }

  /** A bar's valid orders go to two queues, each in the order given: those for its own close, at that
      close, and all others. */
  ghost predicate SplitBy(cfg: Config, os: seq<Order>, close: real, bn: int, now: seq<CloseOrder>, later: seq<Order>) {
    && Shares(OrdersOf(now), later, os)
    && (forall c :: c in now ==> AtThisClose(c.order) && c.price == close && c.bar == bn)
    && (forall o :: o in later ==> !AtThisClose(o))
  }

  /** `a` and `b` hold each element of `all` once between them, both in its order. */
  ghost predicate Shares<T>(a: seq<T>, b: seq<T>, all: seq<T>) {
    multiset(a) + multiset(b) == multiset(all) && Part(a, all) && Part(b, all)
  }

  lemma SharesFirst<T>(x: T, a: seq<T>, b: seq<T>, all: seq<T>)
    requires Shares(a, b, all)
    ensures Shares([x] + a, b, [x] + all)
    ensures Shares(a, [x] + b, [x] + all)
  {
    PartFirst(x, a, all);
    PartFirst(x, b, all);
    assert ([x] + all)[1..] == all;
    PartLater(a, [x] + all);
    PartLater(b, [x] + all);
    hide Part;
  }

  lemma {:induction false} OrdersSplit(cfg: Config, os: seq<Order>, close: real, bn: int)
    requires Exact(cfg)
    ensures SplitBy(cfg, os, close, bn, Stashed(cfg, os, close, bn), Queued(os))
  {
    if os != [] {
      OrdersSplit(cfg, os[1..], close, bn);
      var now, later := Stashed(cfg, os[1..], close, bn), Queued(os[1..]);
      assert F32(cfg, close) == close;
      assert [] + now == now && [] + later == later;
      hide SplitBy, Exact;
      if AtThisClose(os[0]) {
        NowFirst(cfg, os, close, bn, now, later);
      } else {
        LaterFirst(cfg, os, close, bn, now, later);
      }
    }
  }

  lemma NowFirst(cfg: Config, os: seq<Order>, close: real, bn: int, now: seq<CloseOrder>, later: seq<Order>)
    requires os != [] && AtThisClose(os[0]) && SplitBy(cfg, os[1..], close, bn, now, later)
    ensures SplitBy(cfg, os, close, bn, [CloseOrder(os[0], close, bn)] + now, later)
  {
    hide Shares, OrdersOf;
    assert os == [os[0]] + os[1..];
    OrdersOfFirst(CloseOrder(os[0], close, bn), now);
    SharesFirst(os[0], OrdersOf(now), later, os[1..]);
  }

  lemma OrdersOfFirst(c: CloseOrder, cs: seq<CloseOrder>)
    ensures OrdersOf([c] + cs) == [c.order] + OrdersOf(cs)
  {
    assert ([c] + cs)[1..] == cs;
  }

  lemma LaterFirst(cfg: Config, os: seq<Order>, close: real, bn: int, now: seq<CloseOrder>, later: seq<Order>)
    requires os != [] && !AtThisClose(os[0]) && SplitBy(cfg, os[1..], close, bn, now, later)
    ensures SplitBy(cfg, os, close, bn, now, [os[0]] + later)
  {
    hide Shares, OrdersOf;
    assert os == [os[0]] + os[1..];
    SharesFirst(os[0], OrdersOf(now), later, os[1..]);
  }

  lemma PartFirst<T>(x: T, a: seq<T>, b: seq<T>)
    requires Part(a, b)
    ensures Part([x] + a, [x] + b)
  {
    assert ([x] + a)[1..] == a && ([x] + b)[1..] == b;
  }

  lemma PartLater<T>(a: seq<T>, b: seq<T>)
    requires b != [] && Part(a, b[1..])
    ensures Part(a, b)
  {
  }

  /** After any bar from the last warm-up bar on, what is queued is that bar's orders, split; nothing
      when the strategy threw and the bar traded. */
  lemma QueuesHoldTheBarsOrders(cfg: Config, win: Window, evs: seq<Event>)
    requires Exact(cfg) && cfg.pv != 0.0 && evs != []
    requires |evs| >= win.tradeFrom && |evs| > win.maxBarsBack && evs[|evs| - 1].outcome.Returned?
    ensures var st, ev := Run(cfg, win, evs).engine, evs[|evs| - 1];
            SplitBy(cfg, ValidOrders(ev.outcome.orders), ev.bar.close, Seen(win, evs), st.onClose, st.pending)
  {
    hide *;
    var init, ev := evs[..|evs| - 1], evs[|evs| - 1];
    var l := Run(cfg, win, init);
    LoopRemembers(cfg, win, init);
    LastStep(cfg, win, evs);
    MayTradeIs(win, |init|);
    OrdersSplit(cfg, ValidOrders(ev.outcome.orders), ev.bar.close, Seen(win, evs));
    if MayTrade(win, |init|) {
      LoopRemembers(cfg, win, evs);
      StepQueues(cfg, win, l, ev);
    } else {
      NothingStashed(cfg, win, init);
      WarmUpQueues(cfg, win, l, ev);
    }
  }

  lemma LastStep(cfg: Config, win: Window, evs: seq<Event>)
    requires cfg.pv != 0.0 && evs != []
    ensures var init := evs[..|evs| - 1];
            && Run(cfg, win, evs) == Step(cfg, win, Run(cfg, win, init), evs[|evs| - 1])
            && (|evs| > win.maxBarsBack ==> Seen(win, evs) == Seen(win, init) + 1)
  {
    hide Step;
  }

  lemma MayTradeIs(win: Window, i: nat)
    ensures MayTrade(win, i) <==> Trading(win, i)
    ensures MayTrade(win, i) <==> i >= win.tradeFrom && i >= win.maxBarsBack
  {
  }

  /** The last warm-up bar queues its orders. */
  lemma WarmUpQueues(cfg: Config, win: Window, l: Loop, ev: Event)
    requires cfg.pv != 0.0 && l.engine.onClose == [] && ev.outcome.Returned?
    requires l.index + 1 == win.tradeFrom && l.index >= win.maxBarsBack
    ensures var st, valid := Step(cfg, win, l, ev).engine, ValidOrders(ev.outcome.orders);
            st.onClose == Stashed(cfg, valid, ev.bar.close, l.bn + 1) && st.pending == Queued(valid)
  {
    hide Stashed, Queued, ValidOrders, UpdateRisk, ResolvePoints, MarkToMarket, BeforeBar, ExitOnClose;
    StashedFirst(l.engine, cfg, ev.outcome.orders, ev.outcome.risk, ev.bar.close, l.bn + 1);
  }

  lemma {:induction false} NothingStashed(cfg: Config, win: Window, evs: seq<Event>)
    requires cfg.pv != 0.0 && |evs| < win.tradeFrom
    ensures Run(cfg, win, evs).engine.onClose == []
  {
    hide BeforeBar, ExitOnClose, AfterBar;
    if evs != [] {
      LoopRemembers(cfg, win, evs[..|evs| - 1]);
      NothingStashed(cfg, win, evs[..|evs| - 1]);
    }
  }

  // ---- Risk settings -----------------------------------------------------------------------------------

  /** A bar that writes one point setting changes the matching dollar setting, to that many points'
      worth, and nothing else. */
  lemma OnePointSetting(cfg: Config, st: State, os: seq<Option<Order>>, u: RiskUpdate, close: real, bn: int, p: real,
                        percent: real)
    ensures var r, r' := st.risk, AfterBar(cfg, st, os, u, close, bn).risk;
            && (u == NO_UPDATE.(stopLossPt := Some(p)) ==> r' == r.(stopLoss := p * cfg.pv))
            && (u == NO_UPDATE.(profitTargetPt := Some(p)) ==> r' == r.(profitTarget := p * cfg.pv))
            && (u == NO_UPDATE.(breakevenPt := Some(p)) ==> r' == r.(breakeven := p * cfg.pv))
            && (u == NO_UPDATE.(trailingStopPt := Some(p)) ==> r' == r.(dollarTrailing := p * cfg.pv))
            && (u == NO_UPDATE.(percentTrailingPt := Some((p, percent))) ==>
                  && r' == r.(percentTrailing := r'.percentTrailing)
                  && r'.percentTrailing.Some? && r'.percentTrailing.value.0 == p * cfg.pv
                  && r'.percentTrailing.value.1 == percent)
  {
    hide Stashed, Queued, ValidOrders, MarkToMarket;
  }

  /** And one that writes a dollar setting changes that one. */
  lemma OneDollarSetting(cfg: Config, st: State, os: seq<Option<Order>>, u: RiskUpdate, close: real, bn: int, d: real,
                         percent: real, on: bool)
    ensures var r, r' := st.risk, AfterBar(cfg, st, os, u, close, bn).risk;
            && (u == NO_UPDATE ==> r' == r)
            && (u == NO_UPDATE.(stopLoss := Some(d)) ==> r' == r.(stopLoss := d))
            && (u == NO_UPDATE.(profitTarget := Some(d)) ==> r' == r.(profitTarget := d))
            && (u == NO_UPDATE.(breakeven := Some(d)) ==> r' == r.(breakeven := d))
            && (u == NO_UPDATE.(dollarTrailing := Some(d)) ==> r' == r.(dollarTrailing := d))
            && (u == NO_UPDATE.(percentTrailing := Some((d, percent))) ==>
                  r' == r.(percentTrailing := Some((d, percent))))
            && (u == NO_UPDATE.(exitOnClose := Some(on)) ==> r' == r.(exitOnClose := on))
  {
    hide Stashed, Queued, ValidOrders, MarkToMarket;
  }
}
