/** What the engine's valuations are worth: open profit and equity are what closing the position would
    bring, and the excursions are the best and the worst a contract has been. */
module Valuation {
  import opened Sequences
  import opened EngineModel
  import opened StopWalk
  import opened EngineRun
  import opened StopTheorems
  import opened StopRuns
  import opened StopMoney
  import opened EngineTheorems
  import opened EngineLedgers
  import opened Sessions

  /** Equity at a price is the net profit after closing everything there. */
  lemma EquityIsLiquidation(cfg: Config, st: State, x: real)
    requires Open(st.book)
    ensures EquityAt(cfg, st, x) == CloseAtStop(cfg, st, x, "", 0).ledger.net
  {
    ClosingPays(cfg, st, x);
    hide CloseAtStop;
  }

  /** Open profit at a close is what closing the position there would add. */
  lemma OpenProfitIsWorth(cfg: Config, st: State, close: real)
    requires Open(st.book) && st.book.entryBar != 0
    ensures MarkToMarket(cfg, st.book, close) == Worth(cfg, st, close)
  {
    ProfitIsWorth(cfg, st, close);
    hide Worth;
    var b := st.book;
    Regrouped((close - b.entryPrice) * b.mp as real, cfg.pv, b.contracts as real);
  }

  lemma Regrouped(a: real, b: real, c: real)
    ensures a * b * c == a * (b * c)
  {
  }

  /** In every run, after a bar the strategy answered, from the last warm-up bar on: net profit and open
      profit add up to what closing at that bar's close would leave. */
  lemma MarkedAtTheClose(cfg: Config, win: Window, evs: seq<Event>)
    requires Exact(cfg) && cfg.pv != 0.0 && evs != []
    requires |evs| >= win.tradeFrom && |evs| > win.maxBarsBack && evs[|evs| - 1].outcome.Returned?
    ensures var st, close := Run(cfg, win, evs).engine, evs[|evs| - 1].bar.close;
            if st.book.mp == 0 then st.openProfit == 0.0
            else st.ledger.net + st.openProfit == CloseAtStop(cfg, st, close, "", 0).ledger.net
  {
    var st := Run(cfg, win, evs).engine;
    hide CloseAtStop, Faithful, Timed, Exact, Run;
    RunIsFaithful(cfg, win, evs);
    RunIsTimed(cfg, win, evs);
    MarkedBy(cfg, win, evs);
    if st.book.mp != 0 {
      FaithfulIsOpen(cfg, st);
      OpenProfitIsWorth(cfg, st, evs[|evs| - 1].bar.close);
    }
  }

  lemma MarkedBy(cfg: Config, win: Window, evs: seq<Event>)
    requires cfg.pv != 0.0 && evs != []
    requires |evs| >= win.tradeFrom && |evs| > win.maxBarsBack && evs[|evs| - 1].outcome.Returned?
    ensures var st := Run(cfg, win, evs).engine;
            st.openProfit == MarkToMarket(cfg, st.book, evs[|evs| - 1].bar.close)
  {
    LoopRemembers(cfg, win, evs[..|evs| - 1]);
    hide BeforeBar, ExitOnClose, Stashed, Queued, ValidOrders, UpdateRisk, ResolvePoints, MarkToMarket;
  }

  // ---- Excursions ------------------------------------------------------------------------------------

  /** `d` is what closing one contract of the position at `x` would bring. */
  predicate PerContractWorth(cfg: Config, st: State, x: real, d: real) {
    d * st.book.contracts as real == Worth(cfg, st, x)
  }

  function UnitAt(cfg: Config, b: Book, x: real): real {
    Gain(b.mp, b.entryPrice, x) * cfg.pv
  }

  lemma UnitIsWorth(cfg: Config, st: State, x: real)
    requires Open(st.book)
    ensures PerContractWorth(cfg, st, x, UnitAt(cfg, st.book, x))
  {
    ClosingPays(cfg, st, x);
    hide CloseAtStop;
  }

  lemma UnitOrdered(cfg: Config, st: State, x: real, d: real, y: real, e: real)
    requires Open(st.book) && PerContractWorth(cfg, st, x, d) && PerContractWorth(cfg, st, y, e)
    requires Worth(cfg, st, x) <= Worth(cfg, st, y)
    ensures d <= e
  {
    hide Worth;
    NotLess(d, e, st.book.contracts as real);
  }

  lemma NotLess(d: real, e: real, n: real)
    requires n > 0.0 && d * n <= e * n
    ensures d <= e
  {
    if d > e {
      Ordered(e, d, n);
    }
  }

  /** A bar widens the excursions to hold everything a contract was worth on it, and no further. */
  lemma ExcursionsHoldTheBar(cfg: Config, st: State, bar: Bar, x: real, d: real)
    requires cfg.pv > 0.0 && Open(st.book) && bar.low <= x <= bar.high && PerContractWorth(cfg, st, x, d)
    ensures var b, b' := st.book, UpdateExcursion(cfg, st.book, bar);
            && b'.mae <= d <= b'.mfe && b'.mae <= b.mae && b.mfe <= b'.mfe
            && (b'.mfe == b.mfe || PerContractWorth(cfg, st, if b.mp > 0 then bar.high else bar.low, b'.mfe))
            && (b'.mae == b.mae || PerContractWorth(cfg, st, if b.mp > 0 then bar.low else bar.high, b'.mae))
            && b' == b.(mfe := b'.mfe, mae := b'.mae)
  {
    var b := st.book;
    var best, worst := if b.mp > 0 then bar.high else bar.low, if b.mp > 0 then bar.low else bar.high;
    WorthBetween(cfg, st, bar, x);
    ExcursionIs(cfg, b, bar);
    hide PerContractWorth, Worth, UnitAt, UpdateExcursion;
    UnitIsWorth(cfg, st, best);
    UnitIsWorth(cfg, st, worst);
    UnitOrdered(cfg, st, x, d, best, UnitAt(cfg, b, best));
    UnitOrdered(cfg, st, worst, UnitAt(cfg, b, worst), x, d);
  }

  lemma ExcursionIs(cfg: Config, b: Book, bar: Bar)
    requires Open(b)
    ensures UpdateExcursion(cfg, b, bar)
            == b.(mfe := Max(b.mfe, UnitAt(cfg, b, if b.mp > 0 then bar.high else bar.low)),
                  mae := Min(b.mae, UnitAt(cfg, b, if b.mp > 0 then bar.low else bar.high)))
  {
  }

  lemma WorthBetween(cfg: Config, st: State, bar: Bar, x: real)
    requires cfg.pv > 0.0 && Open(st.book) && bar.low <= x <= bar.high
    ensures var long := st.book.mp > 0;
            var best, worst := if long then bar.high else bar.low, if long then bar.low else bar.high;
            Worth(cfg, st, worst) <= Worth(cfg, st, x) <= Worth(cfg, st, best)
  {
    var b := st.book;
    var best, worst := if b.mp > 0 then bar.high else bar.low, if b.mp > 0 then bar.low else bar.high;
    ProfitIsWorth(cfg, st, x);
    ProfitIsWorth(cfg, st, best);
    ProfitIsWorth(cfg, st, worst);
    hide Worth, ProfitAt;
    ProfitGrows(cfg, b, x, best);
    ProfitGrows(cfg, b, worst, x);
  }

  /** The record of a closed position: what it earned, how many bars it lasted, and excursions that hold
      its exit as well. */
  lemma TradeTells(cfg: Config, st: State, x: real, d: real, exitBar: int)
    requires Exact(cfg) && Open(st.book) && st.book.entryBar > 0 && st.book.entryPrice != 0.0 && x != 0.0
    requires PerContractWorth(cfg, st, x, d)
    ensures var b, closed, closed' := st.book, st.ledger.closed, CloseAtStop(cfg, st, x, "", exitBar).ledger.closed;
            && |closed'| == |closed| + 1 && closed' == closed + [closed'[|closed|]]
            && var t := closed'[|closed|];
               && t.pnl == st.ledger.positionProfit + Worth(cfg, st, x)
               && t.bars == exitBar - b.entryBar + 1 && t.entryBar == b.entryBar && t.exitBar == exitBar
               && t.mae <= d <= t.mfe && t.mae <= b.mae && b.mfe <= t.mfe
               && t.isLong == (b.mp > 0) && t.size == b.contracts && t.contracts == b.maxContracts
               && t.entries == b.entries && t.entryPrice == b.entryPrice && t.exitPrice == x
  {
    UnitIsWorth(cfg, st, x);
    ClosingPays(cfg, st, x);
    UnitOrdered(cfg, st, x, d, x, UnitAt(cfg, st.book, x));
    UnitOrdered(cfg, st, x, UnitAt(cfg, st.book, x), x, d);
    assert F32(cfg, x) == x;
    hide PerContractWorth, RecordStats, Worth, Consume, Money, Repeat;
  }
}
