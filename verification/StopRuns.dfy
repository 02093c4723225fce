/** The stop walk inside runs: whenever a position survives a bar, every protective level is
    respected, and every exit the stops make is the path's first touch. */
module StopRuns {
  import opened EngineModel
  import opened StopWalk
  import opened EngineRun
  import opened EngineInvariants
  import opened EngineLedgers
  import opened EngineTheorems
  import opened StopTheorems

  /** An open position knows its entry bar; queued on-close orders know theirs. */
  ghost predicate Timed(st: State) {
    (st.book.contracts > 0 ==> st.book.entryBar >= 1) && forall c :: c in st.onClose ==> c.bar >= 1
  }

  lemma ExecuteKeepsTimed(cfg: Config, st: State, o: Order, qty: nat, price: real, bar: int)
    requires Timed(st) && qty >= 1 && bar >= 1
    ensures Timed(Execute(cfg, st, o, qty, price, bar)) && Execute(cfg, st, o, qty, price, bar).onClose == st.onClose
  {
    hide RecordTrade, Consume, Realised, PartialHistory;
  }

  lemma {:induction false} CloseOrdersKeepTimed(cfg: Config, st: State, cs: seq<CloseOrder>)
    requires Timed(st) && forall c :: c in cs ==> c.bar >= 1
    ensures Timed(FillCloseOrders(cfg, st, cs))
    decreases |cs|
  {
    hide Execute, Timed;
    if cs != [] {
      ExecuteKeepsTimed(cfg, st, cs[0].order, if cs[0].order.qty != 0 then cs[0].order.qty else 1,
                        cs[0].price, cs[0].bar);
      CloseOrdersKeepTimed(cfg, FillCloseOrder(cfg, st, cs[0]), cs[1..]);
    }
  }

  lemma {:induction false} MarketKeepsTimed(cfg: Config, st: State, os: seq<Order>, price: real, bar: int)
    requires Timed(st) && bar >= 1
    ensures Timed(FillMarket(cfg, st, os, price, bar))
    decreases |os|
  {
    hide Execute, Timed;
    if os != [] {
      ExecuteKeepsTimed(cfg, st, os[0], FillQty(st.book, os[0]), price, bar);
      MarketKeepsTimed(cfg, FillAt(cfg, st, os[0], price, bar), os[1..], price, bar);
    }
  }

  lemma {:induction false} TriggeredKeepTimed(cfg: Config, st: State, ts: seq<Triggered>, bar: int)
    requires Timed(st) && bar >= 1
    ensures Timed(FillTriggered(cfg, st, ts, bar))
    decreases |ts|
  {
    hide Execute, Timed;
    if ts != [] {
      ExecuteKeepsTimed(cfg, st, ts[0].order, FillQty(st.book, ts[0].order), ts[0].price, bar);
      TriggeredKeepTimed(cfg, FillAt(cfg, st, ts[0].order, ts[0].price, bar), ts[1..], bar);
    }
  }

  lemma CloseAtStopKeepsTimed(cfg: Config, st: State, price: real, signal: string, bar: int)
    requires Timed(st)
    ensures Timed(CloseAtStop(cfg, st, price, signal, bar))
  {
  }

  /** The state the stop check of a bar starts from. */
  function BeforeStops(cfg: Config, st: State, bar: Bar, bn: int): State {
    ExecutePending(cfg, ExecuteOnClose(cfg, st), bar, bn)
  }

  lemma BeforeStopsKeepsTimed(cfg: Config, st: State, bar: Bar, bn: int)
    requires Timed(st) && bn >= 1
    ensures Timed(BeforeStops(cfg, st, bar, bn))
  {
    CloseOrdersKeepTimed(cfg, st, st.onClose);
    hide FillCloseOrders, FillMarket, FillTriggered, MarketOrders, PathOrder, TriggeredOrders;
    var st1 := ExecuteOnClose(cfg, st);
    MarketKeepsTimed(cfg, st1, MarketOrders(st1.pending), bar.open, bn);
    TriggeredKeepTimed(cfg, FillMarket(cfg, st1, MarketOrders(st1.pending), bar.open, bn),
                       PathOrder(TriggeredOrders(cfg, st1.pending, bar), HighFirst(bar)), bn);
  }

  lemma CheckStopsKeepsTimed(cfg: Config, st: State, bar: Bar, bn: int)
    requires Timed(st) && cfg.pv != 0.0
    ensures Timed(CheckStops(cfg, st, bar, bn))
  {
    hide StopFill, ProfitAt;
  }

  lemma BeforeBarKeepsTimed(cfg: Config, st: State, bar: Bar, bn: int)
    requires Timed(st) && bn >= 1 && cfg.pv != 0.0
    ensures Timed(BeforeBar(cfg, st, bar, bn))
  {
    BeforeStopsKeepsTimed(cfg, st, bar, bn);
    CheckStopsKeepsTimed(cfg, BeforeStops(cfg, st, bar, bn), bar, bn);
    hide ExecuteOnClose, ExecutePending, CheckStops, FoldDrawdown, EquityPoints, MarkToMarket, Gain;
  }

  lemma {:induction false} StashedTimed(cfg: Config, os: seq<Order>, close: real, bn: int)
    requires bn >= 1
    ensures forall c :: c in Stashed(cfg, os, close, bn) ==> c.bar >= 1
  {
    if os != [] {
      StashedTimed(cfg, os[1..], close, bn);
    }
  }

  lemma AtBarKeepsTimed(cfg: Config, win: Window, l: Loop, ev: Event)
    requires Timed(l.engine)
    ensures Timed(AtBar(cfg, win, l, ev))
  {
    CloseOrdersKeepTimed(cfg, l.engine, l.engine.onClose);
    hide CloseAtStop, FillCloseOrders;
    if SessionEnded(win, l, ev) {
      CloseAtStopKeepsTimed(cfg, ExecuteOnClose(cfg, l.engine), l.prevClose.value, "End of Day Exit", l.bn);
    }
  }

  lemma StepKeepsTimed(cfg: Config, win: Window, l: Loop, ev: Event)
    requires Timed(l.engine) && cfg.pv != 0.0
    ensures Timed(Step(cfg, win, l, ev).engine)
  {
    hide BeforeBar, AtBar, Stashed, Queued, ValidOrders, UpdateRisk, ResolvePoints, MarkToMarket;
    AtBarKeepsTimed(cfg, win, l, ev);
    BeforeBarKeepsTimed(cfg, AtBar(cfg, win, l, ev), ev.bar, l.bn + 1);
    if ev.outcome.Returned? {
      StashedTimed(cfg, ValidOrders(ev.outcome.orders), ev.bar.close, l.bn + 1);
    }
  }

  lemma {:induction false} RunIsTimed(cfg: Config, win: Window, evs: seq<Event>)
    requires cfg.pv != 0.0
    ensures Timed(Run(cfg, win, evs).engine)
  {
    hide Step;
    if evs != [] {
      RunIsTimed(cfg, win, evs[..|evs| - 1]);
      StepKeepsTimed(cfg, win, Run(cfg, win, evs[..|evs| - 1]), evs[|evs| - 1]);
    }
  }

  lemma BeforeStopsKeepsFaithful(cfg: Config, st: State, bar: Bar, bn: int)
    requires Exact(cfg) && Faithful(cfg, st)
    ensures Faithful(cfg, BeforeStops(cfg, st, bar, bn))
  {
    hide Faithful, ExecuteOnClose, ExecutePending, Exact;
    ExecuteOnCloseKeepsFaithful(cfg, st);
    ExecutePendingKeepsFaithful(cfg, ExecuteOnClose(cfg, st), bar, bn);
  }

  /** An open position of a run meets everything the stop theorems ask of it. */
  lemma FaithfulIsOpen(cfg: Config, st: State)
    requires Faithful(cfg, st) && Timed(st) && st.book.mp != 0
    ensures Open(st.book) && st.book.entryBar != 0
  {
    hide StatsInvariant, LedgerInvariant, Mirrors, CapInvariant, QueueInvariant;
  }

  /** The engine as the `n`-th bar's stop check finds it. */
  function AtStops(cfg: Config, win: Window, l: Loop, ev: Event): State {
    BeforeStops(cfg, AtBar(cfg, win, l, ev), ev.bar, l.bn + 1)
  }

  lemma AtStopsIsReady(cfg: Config, win: Window, evs: seq<Event>, ev: Event)
    requires Exact(cfg) && cfg.pv != 0.0
    ensures var st := AtStops(cfg, win, Run(cfg, win, evs), ev);
            st.book.mp != 0 ==> Open(st.book) && st.book.entryBar != 0
  {
    hide Run, AtBar, BeforeStops, Faithful, Timed, Exact;
    var l := Run(cfg, win, evs);
    RunIsFaithful(cfg, win, evs);
    RunIsTimed(cfg, win, evs);
    AtBarKeepsFaithful(cfg, win, l, ev);
    AtBarKeepsTimed(cfg, win, l, ev);
    BeforeStopsKeepsFaithful(cfg, AtBar(cfg, win, l, ev), ev.bar, l.bn + 1);
    BeforeStopsKeepsTimed(cfg, AtBar(cfg, win, l, ev), ev.bar, l.bn + 1);
    if AtStops(cfg, win, l, ev).book.mp != 0 {
      FaithfulIsOpen(cfg, AtStops(cfg, win, l, ev));
    }
  }

  /** An exit at the path's first touch of an active level. */
  ghost predicate ExitsAtFirstTouch(cfg: Config, st: State, bar: Bar, bn: int, st': State)
    requires cfg.pv != 0.0 && DollarsPerPoint(cfg, st.book) != 0.0
  {
    exists hit, i :: FirstTouch(cfg, st.risk, st.book, bar, hit, i)
                     && st' == CloseAtStop(cfg, st, hit.price, hit.reason, bn)
                     && bar.low <= hit.price <= bar.high
  }

  /** Nothing closed: stop-loss and target outside the bar, the close safe from every level. */
  ghost predicate HeldSafely(cfg: Config, st: State, bar: Bar)
    requires cfg.pv != 0.0
  {
    && DollarsPerPoint(cfg, st.book) > 0.0
    && Safe(cfg, st.risk, st.book, st.book.peakProfit, bar.close)
    && forall l :: l in TargetLevel(cfg, st.risk, st.book) + StopLevel(cfg, st.risk, st.book) ==>
                     l.price < bar.low || l.price > bar.high
  }

  lemma FiringExits(cfg: Config, st: State, bar: Bar, bn: int)
    requires Exactly(cfg) && WellFormed(bar) && Open(st.book) && st.book.entryBar != 0
    requires DollarsPerPoint(cfg, st.book) != 0.0
    requires CheckStops(cfg, st, bar, bn).book.mp == 0
    ensures ExitsAtFirstTouch(cfg, st, bar, bn, CheckStops(cfg, st, bar, bn))
  {
    hide FirstTouch, StopFill, DollarsPerPoint, ProfitAt, CloseAtStop, Exact;
    StopFillIsFirstTouch(cfg, st.risk, st.book, bar);
    var hit := StopFill(cfg, st.risk, st.book, bar);
    if hit.Some? {
      var i :| FirstTouch(cfg, st.risk, st.book, bar, hit.value, i);
    }
  }

  lemma CheckKeepsRisk(cfg: Config, st: State, bar: Bar, bn: int)
    requires cfg.pv != 0.0
    ensures CheckStops(cfg, st, bar, bn).risk == st.risk
  {
    hide StopFill;
  }

  lemma CheckOutcome(cfg: Config, st: State, bar: Bar, bn: int)
    requires Exactly(cfg) && WellFormed(bar) && Open(st.book) && st.book.entryBar != 0
    ensures DollarsPerPoint(cfg, st.book) > 0.0
    ensures var st' := CheckStops(cfg, st, bar, bn);
            if st'.book.mp == 0 then ExitsAtFirstTouch(cfg, st, bar, bn, st') else HeldSafely(cfg, st', bar)
  {
    PositivePoint(cfg, st.book);
    CheckKeepsRisk(cfg, st, bar, bn);
    hide CheckStops, Safe, ExitsAtFirstTouch, DollarsPerPoint, TargetLevel, StopLevel, Exact;
    if CheckStops(cfg, st, bar, bn).book.mp != 0 {
      HeldPositionIsSafe(cfg, st, bar, bn);
    } else {
      FiringExits(cfg, st, bar, bn);
    }
  }

  /** In every run, a position open when a bar's stops are checked either exits, exactly at
      the path's first touch of an active level, or is held with every level respected. */
  lemma StopsInEveryRun(cfg: Config, win: Window, evs: seq<Event>, ev: Event)
    requires Exactly(cfg) && WellFormed(ev.bar)
    requires AtStops(cfg, win, Run(cfg, win, evs), ev).book.mp != 0
    ensures var st := AtStops(cfg, win, Run(cfg, win, evs), ev);
            var bn := Run(cfg, win, evs).bn + 1;
            var st' := CheckStops(cfg, st, ev.bar, bn);
            && DollarsPerPoint(cfg, st.book) > 0.0
            && (if st'.book.mp == 0 then ExitsAtFirstTouch(cfg, st, ev.bar, bn, st') else HeldSafely(cfg, st', ev.bar))
  {
    hide AtStops, Run, CheckStops, HeldSafely, ExitsAtFirstTouch, DollarsPerPoint, Open, Exact;
    AtStopsIsReady(cfg, win, evs, ev);
    CheckOutcome(cfg, AtStops(cfg, win, Run(cfg, win, evs), ev), ev.bar, Run(cfg, win, evs).bn + 1);
  }
}
