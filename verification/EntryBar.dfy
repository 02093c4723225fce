/** The bar a position is entered on: its fills are inside the bar, so is their average, and the
    equity walk of that bar starts there. */
module EntryBar {
  import opened Sequences
  import opened EngineModel
  import opened StopWalk
  import opened EngineRun
  import opened EngineInvariants
  import opened EngineLedgers
  import opened EngineTheorems
  import opened PendingOrders

  // ---- Old positions --------------------------------------------------------------------------

  /** The open position was entered, and every stashed order signalled, at bar `n` or before. */
  ghost predicate Aged(st: State, n: int) {
    (st.book.contracts > 0 ==> st.book.entryBar <= n) && forall c :: c in st.onClose ==> c.bar <= n
  }

  lemma ExecuteKeepsAged(cfg: Config, st: State, o: Order, qty: nat, price: real, bar: int, n: int)
    requires Aged(st, n) && qty >= 1 && bar <= n
    ensures Aged(Execute(cfg, st, o, qty, price, bar), n)
  {
    hide RecordTrade, Consume, Realised, PartialHistory;
  }

  lemma {:induction false} CloseOrdersKeepAged(cfg: Config, st: State, cs: seq<CloseOrder>, n: int)
    requires Aged(st, n) && forall c :: c in cs ==> c.bar <= n
    ensures Aged(FillCloseOrders(cfg, st, cs), n)
    decreases |cs|
  {
    hide Execute, Aged;
    if cs != [] {
      ExecuteKeepsAged(cfg, st, cs[0].order, if cs[0].order.qty != 0 then cs[0].order.qty else 1, cs[0].price,
                       cs[0].bar, n);
      CloseOrdersKeepAged(cfg, FillCloseOrder(cfg, st, cs[0]), cs[1..], n);
    }
  }

  lemma ExecuteOnCloseKeepsAged(cfg: Config, st: State, n: int)
    requires Aged(st, n)
    ensures Aged(ExecuteOnClose(cfg, st), n)
  {
    CloseOrdersKeepAged(cfg, st, st.onClose, n);
    hide FillCloseOrders;
  }

  lemma AtBarKeepsAged(cfg: Config, win: Window, l: Loop, ev: Event, n: int)
    requires Aged(l.engine, n)
    ensures Aged(AtBar(cfg, win, l, ev), n)
  {
    ExecuteOnCloseKeepsAged(cfg, l.engine, n);
    hide ExecuteOnClose, RecordTrade, Consume;
  }

  // ---- The entry bar ----------------------------------------------------------------------------

  /** What was entered on this bar was filled inside it. */
  ghost predicate Entered(b: Book, bar: Bar, bn: int) {
    b.contracts > 0 ==> b.entryBar <= bn && (b.entryBar == bn ==> forall p :: p in b.prices ==> InBar(bar, p))
  }

  lemma EnterIsInBar(cfg: Config, st: State, side: int, qty: nat, price: real, bar: Bar, bn: int, name: string)
    requires Exact(cfg) && qty >= 1 && InBar(bar, price) && Entered(st.book, bar, bn)
    requires st.book.contracts == 0 ==> st.book.prices == []
    ensures Entered(Enter(cfg, st, side, qty, price, bn, name).book, bar, bn)
  {
    var added := Repeat(F32(cfg, price), qty);
    assert forall p :: p in added ==> p == price;
    hide NewAverage;
    var st' := Enter(cfg, st, side, qty, price, bn, name);
    assert st'.book.prices == st.book.prices + added;
  }

  lemma ExitIsInBar(cfg: Config, st: State, q: nat, price: real, exitBar: int, consume: bool, bar: Bar, bn: int)
    requires q <= st.book.contracts && Entered(st.book, bar, bn)
    ensures var b := Exit(cfg, st, q, price, exitBar, consume).book;
            Entered(b, bar, bn) && (b.contracts == 0 ==> b.prices == [])
  {
    hide RecordTrade, Realised, Consume, PartialHistory, Sum;
  }

  lemma FillOrderIsInBar(cfg: Config, st: State, action: Action, qty: nat, price: real, bar: Bar, bn: int, tag: string)
    requires Exact(cfg) && qty >= 1 && InBar(bar, price) && Entered(st.book, bar, bn)
    requires st.book.contracts == 0 ==> st.book.prices == []
    ensures Entered(FillOrder(cfg, st, action, qty, price, bn, tag).book, bar, bn)
  {
    hide Exit, Enter, Entered, InBar, Exact;
    var n := st.book.contracts;
    match action {
      case Buy =>
        ExitIsInBar(cfg, st, n, F32(cfg, price), bn, false, bar, bn);
        EnterIsInBar(cfg, if st.book.mp < 0 then Exit(cfg, st, n, F32(cfg, price), bn, false) else st, 1, qty, price,
                     bar, bn, tag);
      case SellShort =>
        ExitIsInBar(cfg, st, n, price, bn, true, bar, bn);
        EnterIsInBar(cfg, if st.book.mp > 0 then Exit(cfg, st, n, price, bn, true) else st, -1, qty, price, bar, bn,
                     tag);
      case Sell =>
        ExitIsInBar(cfg, st, if qty < n then qty else n, price, bn, true, bar, bn);
      case BuyToCover =>
        ExitIsInBar(cfg, st, n, F32(cfg, price), bn, false, bar, bn);
      case UnknownAction =>
    }
  }

  lemma FlatHasNoPrices(cfg: Config, st: State)
    requires Faithful(cfg, st)
    ensures |st.book.prices| == st.book.contracts
    ensures st.book.entryPrice * st.book.contracts as real == Sum(st.book.prices)
  {
    hide StatsInvariant, LedgerInvariant, CapInvariant, QueueInvariant, Mirrors;
  }

  lemma FillAtIsInBar(cfg: Config, st: State, o: Order, price: real, bar: Bar, bn: int)
    requires Exact(cfg) && Faithful(cfg, st) && InBar(bar, price) && Entered(st.book, bar, bn)
    ensures Entered(FillAt(cfg, st, o, price, bn).book, bar, bn) && Faithful(cfg, FillAt(cfg, st, o, price, bn))
  {
    ExecuteKeepsFaithful(cfg, st, o, FillQty(st.book, o), price, bn);
    FlatHasNoPrices(cfg, st);
    hide FillOrder, Entered, InBar, Exact, Faithful;
    FillOrderIsInBar(cfg, st, o.action, FillQty(st.book, o), price, bar, bn, o.tag);
  }

  lemma {:induction false} MarketIsInBar(cfg: Config, st: State, os: seq<Order>, price: real, bar: Bar, bn: int)
    requires Exact(cfg) && Faithful(cfg, st) && InBar(bar, price) && Entered(st.book, bar, bn)
    ensures Entered(FillMarket(cfg, st, os, price, bn).book, bar, bn)
    ensures Faithful(cfg, FillMarket(cfg, st, os, price, bn))
    decreases |os|
  {
    hide FillAt, Entered, InBar, Exact, Faithful;
    if os != [] {
      FillAtIsInBar(cfg, st, os[0], price, bar, bn);
      MarketIsInBar(cfg, FillAt(cfg, st, os[0], price, bn), os[1..], price, bar, bn);
    }
  }

  lemma {:induction false} TriggeredIsInBar(cfg: Config, st: State, ts: seq<Triggered>, bar: Bar, bn: int)
    requires Exact(cfg) && Faithful(cfg, st) && Entered(st.book, bar, bn) && forall t :: t in ts ==> InBar(bar, t.price)
    ensures Entered(FillTriggered(cfg, st, ts, bn).book, bar, bn) && Faithful(cfg, FillTriggered(cfg, st, ts, bn))
    decreases |ts|
  {
    hide FillAt, Entered, InBar, Exact, Faithful;
    if ts != [] {
      FillAtIsInBar(cfg, st, ts[0].order, ts[0].price, bar, bn);
      TriggeredIsInBar(cfg, FillAt(cfg, st, ts[0].order, ts[0].price, bn), ts[1..], bar, bn);
    }
  }

  lemma PendingIsInBar(cfg: Config, st: State, bar: Bar, bn: int)
    requires Exact(cfg) && Faithful(cfg, st) && WellFormed(bar) && Entered(st.book, bar, bn)
    ensures Entered(ExecutePending(cfg, st, bar, bn).book, bar, bn)
  {
    var hf := HighFirst(bar);
    var ts := TriggeredOrders(cfg, st.pending, bar);
    TriggeredInBar(cfg, st.pending, bar);
    PathOrderIsStableSort(ts, hf);
    assert InBar(bar, bar.open);
    hide FillMarket, FillTriggered, MarketOrders, TriggeredOrders, PathOrder, Faithful, Exact, Entered, InBar;
    MarketIsInBar(cfg, st, MarketOrders(st.pending), bar.open, bar, bn);
    TriggeredIsInBar(cfg, FillMarket(cfg, st, MarketOrders(st.pending), bar.open, bn), PathOrder(ts, hf), bar, bn);
  }

  lemma CheckStopsIsInBar(cfg: Config, st: State, bar: Bar, bn: int)
    requires Entered(st.book, bar, bn) && cfg.pv != 0.0
    ensures Entered(CheckStops(cfg, st, bar, bn).book, bar, bn)
  {
    hide StopFill, ProfitAt, RecordTrade, Consume, Realised, PartialHistory;
  }

  lemma AfterFillsIsInBar(cfg: Config, st: State, bar: Bar, bn: int)
    requires Exact(cfg) && Faithful(cfg, st) && WellFormed(bar) && cfg.pv != 0.0 && Aged(st, bn - 1)
    ensures Entered(AfterFills(cfg, st, bar, bn).book, bar, bn)
  {
    hide ExecuteOnClose, ExecutePending, CheckStops, Faithful, Exact, MarkToMarket, Gain, InBar;
    ExecuteOnCloseKeepsAged(cfg, st, bn - 1);
    AgedIsEntered(ExecuteOnClose(cfg, st), bar, bn);
    hide Aged, Entered;
    ExecuteOnCloseKeepsFaithful(cfg, st);
    var st1 := ExecutePending(cfg, ExecuteOnClose(cfg, st), bar, bn);
    PendingIsInBar(cfg, ExecuteOnClose(cfg, st), bar, bn);
    CheckStopsIsInBar(cfg, st1, bar, bn);
    SameBook(CheckStops(cfg, st1, bar, bn).book, AfterFills(cfg, st, bar, bn).book, bar, bn);
  }

  lemma AgedIsEntered(st: State, bar: Bar, bn: int)
    requires Aged(st, bn - 1)
    ensures Entered(st.book, bar, bn)
  {
  }

  lemma SameBook(b: Book, c: Book, bar: Bar, bn: int)
    requires Entered(b, bar, bn) && c.contracts == b.contracts && c.entryBar == b.entryBar && c.prices == b.prices
    ensures Entered(c, bar, bn)
  {
  }

  // ---- Runs -----------------------------------------------------------------------------------------

  lemma {:induction false} MarketKeepsAged(cfg: Config, st: State, os: seq<Order>, price: real, bar: int, n: int)
    requires Aged(st, n) && bar <= n
    ensures Aged(FillMarket(cfg, st, os, price, bar), n)
    decreases |os|
  {
    hide Execute, Aged;
    if os != [] {
      ExecuteKeepsAged(cfg, st, os[0], FillQty(st.book, os[0]), price, bar, n);
      MarketKeepsAged(cfg, FillAt(cfg, st, os[0], price, bar), os[1..], price, bar, n);
    }
  }

  lemma {:induction false} TriggeredKeepAged(cfg: Config, st: State, ts: seq<Triggered>, bar: int, n: int)
    requires Aged(st, n) && bar <= n
    ensures Aged(FillTriggered(cfg, st, ts, bar), n)
    decreases |ts|
  {
    hide Execute, Aged;
    if ts != [] {
      ExecuteKeepsAged(cfg, st, ts[0].order, FillQty(st.book, ts[0].order), ts[0].price, bar, n);
      TriggeredKeepAged(cfg, FillAt(cfg, st, ts[0].order, ts[0].price, bar), ts[1..], bar, n);
    }
  }

  lemma CheckStopsKeepsAged(cfg: Config, st: State, bar: Bar, bn: int, n: int)
    requires Aged(st, n) && cfg.pv != 0.0
    ensures Aged(CheckStops(cfg, st, bar, bn), n)
  {
    hide StopFill, ProfitAt, RecordTrade, Consume, Realised, PartialHistory;
  }

  lemma BeforeBarKeepsAged(cfg: Config, st: State, bar: Bar, bn: int)
    requires Aged(st, bn) && cfg.pv != 0.0
    ensures Aged(BeforeBar(cfg, st, bar, bn), bn)
  {
    ExecuteOnCloseKeepsAged(cfg, st, bn);
    hide ExecuteOnClose, FillMarket, FillTriggered, MarketOrders, PathOrder, TriggeredOrders, CheckStops,
      FoldDrawdown, EquityPoints, MarkToMarket, Gain;
    var st1 := ExecuteOnClose(cfg, st);
    MarketKeepsAged(cfg, st1, MarketOrders(st1.pending), bar.open, bn, bn);
    TriggeredKeepAged(cfg, FillMarket(cfg, st1, MarketOrders(st1.pending), bar.open, bn),
                      PathOrder(TriggeredOrders(cfg, st1.pending, bar), HighFirst(bar)), bn, bn);
    CheckStopsKeepsAged(cfg, ExecutePending(cfg, st1, bar, bn), bar, bn, bn);
  }

  lemma {:induction false} StashedAged(cfg: Config, os: seq<Order>, close: real, bn: int)
    ensures forall c :: c in Stashed(cfg, os, close, bn) ==> c.bar <= bn
  {
    if os != [] {
      StashedAged(cfg, os[1..], close, bn);
    }
  }

  lemma StepKeepsAged(cfg: Config, win: Window, l: Loop, ev: Event)
    requires Aged(l.engine, l.bn) && cfg.pv != 0.0
    ensures Aged(Step(cfg, win, l, ev).engine, Step(cfg, win, l, ev).bn)
  {
    hide BeforeBar, AtBar, Stashed, Queued, ValidOrders, UpdateRisk, ResolvePoints, MarkToMarket;
    AtBarKeepsAged(cfg, win, l, ev, l.bn);
    BeforeBarKeepsAged(cfg, AtBar(cfg, win, l, ev), ev.bar, l.bn + 1);
    if ev.outcome.Returned? {
      StashedAged(cfg, ValidOrders(ev.outcome.orders), ev.bar.close, l.bn + 1);
    }
  }

  lemma {:induction false} RunIsAged(cfg: Config, win: Window, evs: seq<Event>)
    requires cfg.pv != 0.0
    ensures Aged(Run(cfg, win, evs).engine, Run(cfg, win, evs).bn)
  {
    hide Step;
    if evs != [] {
      RunIsAged(cfg, win, evs[..|evs| - 1]);
      StepKeepsAged(cfg, win, Run(cfg, win, evs[..|evs| - 1]), evs[|evs| - 1]);
    }
  }

  // ---- The walk ---------------------------------------------------------------------------------------

  lemma {:induction false} SumBetween(ps: seq<real>, lo: real, hi: real)
    requires forall p :: p in ps ==> lo <= p <= hi
    ensures lo * |ps| as real <= Sum(ps) <= hi * |ps| as real
  {
    if ps != [] {
      assert ps[0] in ps && forall p :: p in ps[1..] ==> p in ps;
      assert Sum(ps) == ps[0] + Sum(ps[1..]);
      SumBetween(ps[1..], lo, hi);
      Stretch(lo, |ps|);
      Stretch(hi, |ps|);
      hide Sum;
      assert |ps[1..]| as real == (|ps| - 1) as real;
    }
  }

  lemma Stretch(x: real, n: nat)
    requires n > 0
    ensures x * n as real == x + x * (n - 1) as real
  {
  }

  lemma MeanBetween(mean: real, n: nat, lo: real, hi: real)
    requires n > 0 && lo * n as real <= mean * n as real <= hi * n as real
    ensures lo <= mean <= hi
  {
    var m := n as real;
    assert (mean - lo) * m >= 0.0 && (hi - mean) * m >= 0.0;
  }

  /** The average of a position entered on this bar is inside the bar. */
  lemma EntryPriceInBar(cfg: Config, st: State, bar: Bar, bn: int)
    requires Faithful(cfg, st) && Entered(st.book, bar, bn) && st.book.contracts > 0 && st.book.entryBar == bn
    ensures InBar(bar, st.book.entryPrice)
  {
    hide Faithful, Sum;
    FlatHasNoPrices(cfg, st);
    MeanOfPrices(st.book.entryPrice, st.book.contracts, st.book.prices, bar.low, bar.high);
  }

  lemma MeanOfPrices(mean: real, n: nat, prices: seq<real>, lo: real, hi: real)
    requires n == |prices| > 0 && mean * n as real == Sum(prices)
    requires forall p :: p in prices ==> lo <= p <= hi
    ensures lo <= mean <= hi
  {
    hide Sum;
    SumBetween(prices, lo, hi);
    MeanBetween(mean, n, lo, hi);
  }

  /** `k` is the first segment at or after `i` that holds `entry`. */
  ghost predicate FirstStraddle(path: seq<real>, entry: real, i: nat, k: nat) {
    i <= k < |path| - 1 && Straddles(path[k], path[k + 1], entry)
    && forall m :: i <= m < k ==> !Straddles(path[m], path[m + 1], entry)
  }

  lemma {:induction false} PostEntryWalkIsSuffix(path: seq<real>, entry: real, i: nat, k: nat)
    requires FirstStraddle(path, entry, i, k)
    ensures PostEntryWalk(path, entry, i) == [entry] + path[k + 1..]
    decreases k - i
  {
    if i < k {
      PostEntryWalkIsSuffix(path, entry, i + 1, k);
    }
  }

  /** For an entry price inside the bar the walk starts there, at the first segment of the path
      that holds it, and follows the rest of the path to the close. */
  ghost predicate WalksFrom(bar: Bar, entry: real, walk: seq<real>) {
    && InBar(bar, entry)
    && (forall x :: x in walk ==> InBar(bar, x))
    && exists k: nat :: FirstStraddle(BarPath(bar), entry, 0, k) && walk == [entry] + BarPath(bar)[k + 1..]
  }

  lemma WalkFromEntry(bar: Bar, entry: real)
    requires WellFormed(bar) && InBar(bar, entry)
    ensures WalksFrom(bar, entry, PostEntryWalk(BarPath(bar), entry, 0))
  {
    var p := BarPath(bar);
    var k := if Straddles(p[0], p[1], entry) then 0 else 1;
    assert FirstStraddle(p, entry, 0, k);
    PostEntryWalkIsSuffix(p, entry, 0, k);
  }

  /** On the bar a run's position was entered on, the bar's equity is measured along the entry
      price and what is left of the path after it, inside the bar. */
  lemma EntryWalkStaysInBar(cfg: Config, win: Window, evs: seq<Event>, ev: Event)
    requires Exact(cfg) && cfg.pv != 0.0 && WellFormed(ev.bar)
    ensures var l := Run(cfg, win, evs);
            var st := AfterFills(cfg, AtBar(cfg, win, l, ev), ev.bar, l.bn + 1);
            st.book.contracts > 0 && st.book.entryBar == l.bn + 1 ==>
              exists walk :: WalksFrom(ev.bar, st.book.entryPrice, walk)
                             && EquityPoints(cfg, st, ev.bar, l.bn + 1) == EquitiesAlong(cfg, st, walk)
  {
    hide Run, AtBar, AfterFills, Faithful, Exact, WalksFrom, EquityPoints, EquitiesAlong, Entered;
    BarIsEntered(cfg, win, evs, ev);
    WalkOnEntryBar(cfg, AfterFills(cfg, AtBar(cfg, win, Run(cfg, win, evs), ev), ev.bar, Run(cfg, win, evs).bn + 1),
                   ev.bar,
                   Run(cfg, win, evs).bn + 1);
  }

  lemma BarIsEntered(cfg: Config, win: Window, evs: seq<Event>, ev: Event)
    requires Exact(cfg) && cfg.pv != 0.0 && WellFormed(ev.bar)
    ensures var l := Run(cfg, win, evs);
            var st := AfterFills(cfg, AtBar(cfg, win, l, ev), ev.bar, l.bn + 1);
            Faithful(cfg, st) && Entered(st.book, ev.bar, l.bn + 1)
  {
    hide Run, AtBar, AfterFills, Faithful, Aged, Exact, Entered;
    var l := Run(cfg, win, evs);
    RunIsFaithful(cfg, win, evs);
    RunIsAged(cfg, win, evs);
    AtBarKeepsFaithful(cfg, win, l, ev);
    AtBarKeepsAged(cfg, win, l, ev, l.bn);
    AfterFillsKeepsFaithful(cfg, AtBar(cfg, win, l, ev), ev.bar, l.bn + 1);
    AfterFillsIsInBar(cfg, AtBar(cfg, win, l, ev), ev.bar, l.bn + 1);
  }

  lemma WalkOnEntryBar(cfg: Config, st: State, bar: Bar, bn: int)
    requires Faithful(cfg, st) && Entered(st.book, bar, bn) && WellFormed(bar)
    ensures st.book.contracts > 0 && st.book.entryBar == bn ==>
              exists walk :: WalksFrom(bar, st.book.entryPrice, walk)
                             && EquityPoints(cfg, st, bar, bn) == EquitiesAlong(cfg, st, walk)
  {
    if st.book.contracts > 0 && st.book.entryBar == bn {
      EntryPriceInBar(cfg, st, bar, bn);
      OpenHasSide(cfg, st);
      WalkFromEntry(bar, st.book.entryPrice);
      hide Faithful, Entered, WalksFrom, PostEntryWalk, BarPath, EquitiesAlong;
      assert EquityPoints(cfg, st, bar, bn)
        == EquitiesAlong(cfg, st, PostEntryWalk(BarPath(bar), st.book.entryPrice, 0));
    }
  }

  lemma OpenHasSide(cfg: Config, st: State)
    requires Faithful(cfg, st) && st.book.contracts > 0
    ensures st.book.mp != 0
  {
    hide StatsInvariant, LedgerInvariant, CapInvariant, QueueInvariant, Mirrors;
  }
}
