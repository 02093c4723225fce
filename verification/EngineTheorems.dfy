/** Conservation over whole runs: for every strategy, tape of bars and window. */
module EngineTheorems {
  import opened Sequences
  import opened EngineModel
  import opened StopWalk
  import opened EngineRun
  import opened EngineInvariants
  import opened EngineLedgers
  import opened Oracle

  lemma {:induction false} CloseOrdersKeepFaithful(cfg: Config, st: State, cs: seq<CloseOrder>)
    requires Exact(cfg) && Faithful(cfg, st)
    ensures Faithful(cfg, FillCloseOrders(cfg, st, cs))
    decreases |cs|
  {
    hide Faithful, Execute;
    if cs != [] {
      ExecuteKeepsFaithful(cfg, st, cs[0].order, if cs[0].order.qty != 0 then cs[0].order.qty else 1,
                           cs[0].price, cs[0].bar);
      CloseOrdersKeepFaithful(cfg, FillCloseOrder(cfg, st, cs[0]), cs[1..]);
    }
  }

  lemma {:induction false} MarketKeepsFaithful(cfg: Config, st: State, os: seq<Order>, price: real, bar: int)
    requires Exact(cfg) && Faithful(cfg, st)
    ensures Faithful(cfg, FillMarket(cfg, st, os, price, bar))
    decreases |os|
  {
    hide Faithful, Execute;
    if os != [] {
      ExecuteKeepsFaithful(cfg, st, os[0], FillQty(st.book, os[0]), price, bar);
      MarketKeepsFaithful(cfg, FillAt(cfg, st, os[0], price, bar), os[1..], price, bar);
    }
  }

  lemma {:induction false} TriggeredKeepFaithful(cfg: Config, st: State, ts: seq<Triggered>, bar: int)
    requires Exact(cfg) && Faithful(cfg, st)
    ensures Faithful(cfg, FillTriggered(cfg, st, ts, bar))
    decreases |ts|
  {
    hide Faithful, Execute;
    if ts != [] {
      ExecuteKeepsFaithful(cfg, st, ts[0].order, FillQty(st.book, ts[0].order), ts[0].price, bar);
      TriggeredKeepFaithful(cfg, FillAt(cfg, st, ts[0].order, ts[0].price, bar), ts[1..], bar);
    }
  }

  /** The books differ only in what the accounts do not read. */
  predicate SameAccounts(b: Book, b': Book) {
    && b'.(barsSinceEntry := 0, peakProfit := 0.0, mfe := 0.0, mae := 0.0)
       == b.(barsSinceEntry := 0, peakProfit := 0.0, mfe := 0.0, mae := 0.0)
    && (b.peakProfit >= 0.0 ==> b'.peakProfit >= 0.0)
  }

  lemma BookIgnoresTheRest(cfg: Config, b: Book, b': Book)
    requires BookInvariant(b) && CapInvariant(cfg, b) && SameAccounts(b, b')
    ensures BookInvariant(b') && CapInvariant(cfg, b') && b'.mp == b.mp
  {
    hide QueueInvariant, Balanced;
  }

  lemma MirrorsIgnoreTheRest(t: Tally, b: Book, b': Book, l: Ledger, pv: real)
    requires Mirrors(t, b, l, pv) && SameAccounts(b, b')
    ensures Mirrors(t, b', l, pv)
  {
  }

  /** The accounts read only the book, the ledger and the log. */
  lemma FaithfulIgnoresTheRest(cfg: Config, st: State, st': State)
    requires Faithful(cfg, st)
    requires st'.ledger == st.ledger && st'.fills == st.fills && SameAccounts(st.book, st'.book)
    ensures Faithful(cfg, st')
  {
    hide StatsInvariant, LedgerInvariant, BookInvariant, CapInvariant, Mirrors, Replay, SameAccounts;
    BookIgnoresTheRest(cfg, st.book, st'.book);
    MirrorsIgnoreTheRest(Replay(st.fills, cfg.pv), st.book, st'.book, st.ledger, cfg.pv);
  }

  lemma ExecuteOnCloseKeepsFaithful(cfg: Config, st: State)
    requires Exact(cfg) && Faithful(cfg, st)
    ensures Faithful(cfg, ExecuteOnClose(cfg, st))
  {
    CloseOrdersKeepFaithful(cfg, st, st.onClose);
    var st1 := FillCloseOrders(cfg, st, st.onClose);
    hide Faithful, FillCloseOrders;
    FaithfulIgnoresTheRest(cfg, st1, st1.(onClose := []));
  }

  lemma ExecutePendingKeepsFaithful(cfg: Config, st: State, bar: Bar, bn: int)
    requires Exact(cfg) && Faithful(cfg, st)
    ensures Faithful(cfg, ExecutePending(cfg, st, bar, bn))
  {
    MarketKeepsFaithful(cfg, st, MarketOrders(st.pending), bar.open, bn);
    var st1 := FillMarket(cfg, st, MarketOrders(st.pending), bar.open, bn);
    var ts := PathOrder(TriggeredOrders(cfg, st.pending, bar), HighFirst(bar));
    TriggeredKeepFaithful(cfg, st1, ts, bn);
    var st2 := FillTriggered(cfg, st1, ts, bn);
    hide Faithful, FillMarket, FillTriggered, PathOrder, MarketOrders, TriggeredOrders;
    FaithfulIgnoresTheRest(cfg, st2, st2.(pending := []));
  }

  lemma CheckStopsKeepsFaithful(cfg: Config, st: State, bar: Bar, bn: int)
    requires Exact(cfg) && Faithful(cfg, st) && cfg.pv != 0.0
    ensures Faithful(cfg, CheckStops(cfg, st, bar, bn))
  {
    hide Faithful, StopFill, CloseAtStop, ProfitAt;
    var b := st.book;
    if b.mp != 0 && b.entryBar != 0 && b.contracts != 0 {
      var hit := StopFill(cfg, st.risk, b, bar);
      if hit.Some? {
        CloseAtStopKeepsFaithful(cfg, st, hit.value.price, hit.value.reason, bn);
      } else {
        FaithfulIgnoresTheRest(cfg, st, CheckStops(cfg, st, bar, bn));
      }
    }
  }

  lemma AfterFillsKeepsFaithful(cfg: Config, st: State, bar: Bar, bn: int)
    requires Exact(cfg) && Faithful(cfg, st) && cfg.pv != 0.0
    ensures Faithful(cfg, AfterFills(cfg, st, bar, bn))
  {
    hide Faithful, ExecuteOnClose, ExecutePending, CheckStops, MarkToMarket, Gain, Exact;
    var st1 := ExecuteOnClose(cfg, st);
    var st2 := ExecutePending(cfg, st1, bar, bn);
    ExecuteOnCloseKeepsFaithful(cfg, st);
    ExecutePendingKeepsFaithful(cfg, st1, bar, bn);
    CheckStopsKeepsFaithful(cfg, st2, bar, bn);
    FaithfulIgnoresTheRest(cfg, CheckStops(cfg, st2, bar, bn), AfterFills(cfg, st, bar, bn));
  }

  lemma BeforeBarKeepsFaithful(cfg: Config, st: State, bar: Bar, bn: int)
    requires Exact(cfg) && Faithful(cfg, st) && cfg.pv != 0.0
    ensures Faithful(cfg, BeforeBar(cfg, st, bar, bn))
  {
    hide Faithful, AfterFills, FoldDrawdown, EquityPoints, NoWork, Exact;
    AfterFillsKeepsFaithful(cfg, st, bar, bn);
    FaithfulIgnoresTheRest(cfg, st, st.(hits := st.hits + 1));
    FaithfulIgnoresTheRest(cfg, AfterFills(cfg, st, bar, bn), BeforeBarBody(cfg, st, bar, bn));
  }

  lemma AtBarKeepsFaithful(cfg: Config, win: Window, l: Loop, ev: Event)
    requires Exact(cfg) && Faithful(cfg, l.engine)
    ensures Faithful(cfg, AtBar(cfg, win, l, ev))
  {
    hide Faithful, ExecuteOnClose, CloseAtStop;
    if SessionEnded(win, l, ev) {
      ExecuteOnCloseKeepsFaithful(cfg, l.engine);
      CloseAtStopKeepsFaithful(cfg, ExecuteOnClose(cfg, l.engine), l.prevClose.value, "End of Day Exit", l.bn);
    }
  }

  lemma ConcludeKeepsFaithful(cfg: Config, win: Window, l: Loop, ev: Event, st: State)
    requires Faithful(cfg, st)
    ensures Faithful(cfg, Conclude(cfg, win, l, ev, st).engine)
  {
    hide Faithful, Stashed, Queued, ValidOrders, UpdateRisk, ResolvePoints, MarkToMarket;
    FaithfulIgnoresTheRest(cfg, st, Conclude(cfg, win, l, ev, st).engine);
  }

  lemma StepKeepsFaithful(cfg: Config, win: Window, l: Loop, ev: Event)
    requires Exact(cfg) && Faithful(cfg, l.engine) && cfg.pv != 0.0
    ensures Faithful(cfg, Step(cfg, win, l, ev).engine)
  {
    hide Faithful, BeforeBar, AtBar, Conclude;
    var st := AtBar(cfg, win, l, ev);
    AtBarKeepsFaithful(cfg, win, l, ev);
    BeforeBarKeepsFaithful(cfg, st, ev.bar, l.bn + 1);
    ConcludeKeepsFaithful(cfg, win, l, ev,
                          if Trading(win, l.index) then BeforeBar(cfg, st, ev.bar, l.bn + 1) else st);
  }

  lemma {:induction false} RunIsFaithful(cfg: Config, win: Window, evs: seq<Event>)
    requires Exact(cfg) && cfg.pv != 0.0
    ensures Faithful(cfg, Run(cfg, win, evs).engine)
  {
    hide Faithful, Step;
    if evs == [] {
      FreshIsFaithful(cfg, Run(cfg, win, evs).engine);
    } else {
      RunIsFaithful(cfg, win, evs[..|evs| - 1]);
      StepKeepsFaithful(cfg, win, Run(cfg, win, evs[..|evs| - 1]), evs[|evs| - 1]);
    }
  }

  // ---- What a run guarantees --------------------------------------------------

  /** The open position: one price per contract, positive entry quantities adding up to the
      contracts with a label each, never more entries than the cap allows. */
  lemma BookConservation(cfg: Config, win: Window, evs: seq<Event>)
    requires Exact(cfg) && cfg.pv != 0.0
    ensures var b := Run(cfg, win, evs).engine.book;
            && b.contracts == |b.prices|
            && b.entryPrice * b.contracts as real == Sum(b.prices)
            && (b.mp == 0 <==> b.contracts == 0)
            && (b.mp != 0 ==> SumNat(b.qtys) == b.contracts && |b.labels| == |b.qtys|
                              && forall i :: 0 <= i < |b.qtys| ==> b.qtys[i] >= 1)
            && (cfg.cap >= 1 ==> OpenEntries(b) <= cfg.cap)
  {
    hide Run, StatsInvariant, LedgerInvariant, Mirrors;
    RunIsFaithful(cfg, win, evs);
  }

  /** The most contracts ever held is the largest position the log shows, and some moment of the log
      shows it. */
  lemma MostHeldIsInTheLog(cfg: Config, win: Window, evs: seq<Event>)
    requires Exact(cfg) && cfg.pv != 0.0
    ensures var st := Run(cfg, win, evs).engine;
            && (forall i :: 0 <= i <= |st.fills| ==> AbsInt(Moved(st.fills[..i])) <= st.ledger.maxHeld)
            && exists i :: 0 <= i <= |st.fills| && AbsInt(Moved(st.fills[..i])) == st.ledger.maxHeld
  {
    hide Run, Sound, Mirrors, MostHeld, Moved;
    RunIsFaithful(cfg, win, evs);
    MostHeldBounds(Run(cfg, win, evs).engine.fills);
  }

  /** Realised money: won less lost, closed positions plus the open one's part, and a trade counted for
      each position closed and each partial exit. */
  lemma LedgerConservation(cfg: Config, win: Window, evs: seq<Event>)
    requires Exact(cfg) && cfg.pv != 0.0
    ensures var l := Run(cfg, win, evs).engine.ledger;
            && l.net == l.grossProfit + l.grossLoss
            && l.grossLoss <= 0.0 <= l.grossProfit
            && l.net == SumPnl(l.closed) + l.positionProfit
            && (Run(cfg, win, evs).engine.book.mp == 0 ==> l.positionProfit == 0.0)
            && l.totalTrades == |l.closed| + l.partials
  {
    hide Run, StatsInvariant, BookInvariant, Mirrors;
    RunIsFaithful(cfg, win, evs);
  }

  /** The O(1) performance words equal a rescan of all closed trades. */
  lemma StatisticsAreRescan(cfg: Config, win: Window, evs: seq<Event>)
    requires Exact(cfg) && cfg.pv != 0.0
    ensures var l := Run(cfg, win, evs).engine.ledger;
            StatsInvariant(l.stats, l.closed)
  {
    hide Run, StatsInvariant, BookInvariant, LedgerInvariant, Mirrors;
    RunIsFaithful(cfg, win, evs);
  }

  /** The log alone rebuilds the position and the FIFO book, every exit finding its entry. */
  lemma FillLogReplays(cfg: Config, win: Window, evs: seq<Event>)
    requires Exact(cfg) && cfg.pv != 0.0
    ensures var st := Run(cfg, win, evs).engine;
            var t := Replay(st.fills, cfg.pv);
            && !t.failed
            && t.position == Signed(st.book)
            && t.longs == (if st.book.mp > 0 then st.book.prices else [])
            && t.shorts == (if st.book.mp < 0 then st.book.prices else [])
            && |st.fills| == 2 * t.exits + AbsInt(Signed(st.book))
            && Sum(t.pnls) == cfg.pv * (CashFlow(st.fills) + Sum(t.longs) - Sum(t.shorts))
  {
    hide Run, StatsInvariant, LedgerInvariant, CapInvariant, QueueInvariant, Balanced, Replay, Sum, CashFlow;
    RunIsFaithful(cfg, win, evs);
    var st := Run(cfg, win, evs).engine;
    ReplayNeverFails(st.fills, cfg.pv);
    FifoProfitIsCashFlow(st.fills, cfg.pv);
  }

  /** The engine's average-price net profit differs from the auditor's FIFO net profit by the
      point value times the basis gap of the partial exits, and so not at all without them. */
  lemma ProfitAccountings(cfg: Config, win: Window, evs: seq<Event>)
    requires Exact(cfg) && cfg.pv != 0.0
    ensures var st := Run(cfg, win, evs).engine;
            var fifo := Sum(Replay(st.fills, cfg.pv).pnls);
            && st.ledger.net == fifo + cfg.pv * st.ledger.gap
            && (st.ledger.net == fifo <==> st.ledger.gap == 0.0)
            && (st.ledger.partials == 0 ==> st.ledger.net == fifo)
  {
    hide Run, StatsInvariant, LedgerInvariant, BookInvariant, CapInvariant, Replay;
    RunIsFaithful(cfg, win, evs);
    var g := Run(cfg, win, evs).engine.ledger.gap;
    assert g != 0.0 ==> cfg.pv * g != 0.0;
  }
}
