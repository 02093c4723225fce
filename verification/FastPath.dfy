/** Two claims about the bar loop that need the whole run: skipping idle bars changes
    nothing, and the drawdown kept from bar to bar is the deepest fall of the equity path. */
module FastPath {
  import opened Sequences
  import opened EngineModel
  import opened StopWalk
  import opened EngineRun

  // ---- Skipping idle bars -----------------------------------------------------

  /** A flat engine's equity is already folded into the peak and the drawdown. */
  ghost predicate Settled(cfg: Config, st: State) {
    var fall := st.peakEquity - st.ledger.net;
    && st.openProfit == 0.0
    && fall >= 0.0
    && (fall > Abs(st.maxDrawdown) ==> st.maxDrawdown == F32(cfg, -fall))
  }

  ghost predicate SettledWhenFlat(cfg: Config, st: State) {
    st.book.mp == 0 ==> Settled(cfg, st)
  }

  lemma FoldOfOne(cfg: Config, peak: real, dd: real, eq: real)
    ensures FoldDrawdown(cfg, peak, dd, [eq])
            == (Max(peak, eq), if Max(peak, eq) - eq > Abs(dd) then F32(cfg, -(Max(peak, eq) - eq)) else dd)
  {
    assert FoldDrawdown(cfg, Max(peak, eq),
                        if Max(peak, eq) - eq > Abs(dd) then F32(cfg, -(Max(peak, eq) - eq)) else dd, [eq][1..])
           == (Max(peak, eq), if Max(peak, eq) - eq > Abs(dd) then F32(cfg, -(Max(peak, eq) - eq)) else dd);
  }

  /** With nothing queued and no position, the bar's fills are the identity. */
  lemma IdleFills(cfg: Config, st: State, bar: Bar, bn: int)
    requires st.book.mp == 0 && st.pending == [] && st.onClose == [] && cfg.pv != 0.0
    ensures AfterFills(cfg, st, bar, bn) == st.(openProfit := 0.0)
  {
    assert FillCloseOrders(cfg, st, st.onClose) == st;
    assert ExecuteOnClose(cfg, st) == st;
    assert MarketOrders(st.pending) == [] && TriggeredOrders(cfg, st.pending, bar) == [];
    assert PathOrder([], HighFirst(bar)) == [];
    assert ExecutePending(cfg, st, bar, bn) == st;
  }

  /** On a settled idle state the skipped work is the identity on every field, whatever
      the rounding of the drawdown. */
  lemma SkippedWorkIsIdentity(cfg: Config, st: State, bar: Bar, bn: int)
    requires NoWork(st) && Settled(cfg, st) && cfg.pv != 0.0
    ensures BeforeBarBody(cfg, st, bar, bn) == st
  {
    IdleFills(cfg, st, bar, bn);
    FoldOfOne(cfg, st.peakEquity, st.maxDrawdown, st.ledger.net);
  }

  lemma BodySettles(cfg: Config, st: State, bar: Bar, bn: int)
    requires cfg.pv != 0.0
    ensures SettledWhenFlat(cfg, BeforeBarBody(cfg, st, bar, bn))
  {
    hide CheckStops, ExecutePending, ExecuteOnClose;
    var st1 := AfterFills(cfg, st, bar, bn);
    if st1.book.mp == 0 {
      FoldOfOne(cfg, st1.peakEquity, st1.maxDrawdown, st1.ledger.net);
    }
  }

  /** The bar loop without the fast path: it still counts the bars it could have skipped. */
  function FullStep(cfg: Config, win: Window, l: Loop, ev: Event): Loop
    requires cfg.pv != 0.0
  {
    if HistoryOnly(win, l.index) then l.(index := l.index + 1, prevDate := Some(ev.date))
    else
      var st := AtBar(cfg, win, l, ev);
      var worked := BeforeBarBody(cfg, st, ev.bar, l.bn + 1);
      Conclude(cfg, win, l, ev,
               if !Trading(win, l.index) then st
               else if NoWork(st) then worked.(hits := worked.hits + 1) else worked)
  }

  function FullRun(cfg: Config, win: Window, evs: seq<Event>): Loop
    requires cfg.pv != 0.0
  {
    if evs == [] then START
    else FullStep(cfg, win, FullRun(cfg, win, evs[..|evs| - 1]), evs[|evs| - 1])
  }

  /** No order and no position change the risk settings. */
  lemma {:induction false} FillsKeepRisk(cfg: Config, st: State, cs: seq<CloseOrder>)
    ensures FillCloseOrders(cfg, st, cs).risk == st.risk
    decreases |cs|
  {
    if cs != [] {
      FillsKeepRisk(cfg, FillCloseOrder(cfg, st, cs[0]), cs[1..]);
    }
  }

  lemma IdleIsSettled(cfg: Config, win: Window, l: Loop, ev: Event)
    requires SettledWhenFlat(cfg, l.engine)
    ensures NoWork(AtBar(cfg, win, l, ev)) ==> Settled(cfg, AtBar(cfg, win, l, ev))
  {
    if SessionEnded(win, l, ev) {
      FillsKeepRisk(cfg, l.engine, l.engine.onClose);
      assert AtBar(cfg, win, l, ev).risk == l.engine.risk;
    }
  }

  lemma ConcludeKeepsSettled(cfg: Config, win: Window, l: Loop, ev: Event, st: State)
    requires SettledWhenFlat(cfg, st)
    ensures SettledWhenFlat(cfg, Conclude(cfg, win, l, ev, st).engine)
  {
  }

  lemma StepKeepsSettled(cfg: Config, win: Window, l: Loop, ev: Event)
    requires cfg.pv != 0.0 && SettledWhenFlat(cfg, l.engine)
    ensures SettledWhenFlat(cfg, Step(cfg, win, l, ev).engine)
    ensures Step(cfg, win, l, ev) == FullStep(cfg, win, l, ev)
  {
    hide BeforeBarBody, AtBar, Conclude, NoWork;
    if !HistoryOnly(win, l.index) {
      var st := AtBar(cfg, win, l, ev);
      IdleIsSettled(cfg, win, l, ev);
      if Trading(win, l.index) {
        BodySettles(cfg, st, ev.bar, l.bn + 1);
        if NoWork(st) {
          SkippedWorkIsIdentity(cfg, st, ev.bar, l.bn + 1);
        }
        ConcludeKeepsSettled(cfg, win, l, ev, BeforeBar(cfg, st, ev.bar, l.bn + 1));
      } else {
        NotTradingKeepsEngine(cfg, win, l, ev);
        ConcludeKeepsSettled(cfg, win, l, ev, st);
      }
    }
  }

  lemma NotTradingKeepsEngine(cfg: Config, win: Window, l: Loop, ev: Event)
    requires !Trading(win, l.index)
    ensures AtBar(cfg, win, l, ev) == l.engine
  {
  }

  /** The fast path refines the plain loop: for every run, skipping idle bars leaves exactly
      the state that doing their work would have left. */
  lemma {:induction false} FastPathIsExact(cfg: Config, win: Window, evs: seq<Event>)
    requires cfg.pv != 0.0
    ensures Run(cfg, win, evs) == FullRun(cfg, win, evs)
    ensures SettledWhenFlat(cfg, Run(cfg, win, evs).engine)
  {
    hide Step, FullStep;
    if evs != [] {
      FastPathIsExact(cfg, win, evs[..|evs| - 1]);
      StepKeepsSettled(cfg, win, Run(cfg, win, evs[..|evs| - 1]), evs[|evs| - 1]);
    }
  }

  // ---- Drawdown ---------------------------------------------------------------

  ghost predicate IsPeak(path: seq<real>, p: real) {
    (forall i :: 0 <= i < |path| ==> path[i] <= p) && exists i :: 0 <= i < |path| && path[i] == p
  }

  ghost predicate FallsBy(path: seq<real>, i: int, j: int, d: real) {
    0 <= i <= j < |path| && path[i] - path[j] == d
  }

  /** `d` is the largest fall from a point of the path to the same or a later one. */
  ghost predicate IsMaxFall(path: seq<real>, d: real) {
    (forall i, j :: 0 <= i <= j < |path| ==> path[i] - path[j] <= d) && exists i, j :: FallsBy(path, i, j, d)
  }

  lemma PathGrows(path: seq<real>, eq: real, peak: real, dd: real)
    requires IsPeak(path, peak) && IsMaxFall(path, -dd)
    ensures var p := Max(peak, eq);
            IsPeak(path + [eq], p) && IsMaxFall(path + [eq], if p - eq > -dd then p - eq else -dd)
  {
    var longer := path + [eq];
    var p := Max(peak, eq);
    var d := if p - eq > -dd then p - eq else -dd;
    var k :| 0 <= k < |path| && path[k] == peak;
    assert longer[k] == peak && longer[|path|] == eq;
    var i, j :| FallsBy(path, i, j, -dd);
    assert FallsBy(longer, i, j, -dd);
    if p == peak {
      assert FallsBy(longer, k, |path|, peak - eq);
    } else {
      assert FallsBy(longer, |path|, |path|, 0.0);
      assert path[i] - path[i] <= -dd;
    }
    forall a, b | 0 <= a <= b < |longer| ensures longer[a] - longer[b] <= d {
      if b < |path| {
        assert path[a] - path[b] <= -dd;
      } else if a < |path| {
        assert path[a] <= peak;
      }
    }
  }

  lemma FoldUnfolds(cfg: Config, eqs: seq<real>, peak: real, dd: real)
    requires eqs != [] && dd <= 0.0 && Exact(cfg)
    ensures var p := Max(peak, eqs[0]);
            FoldDrawdown(cfg, peak, dd, eqs)
            == FoldDrawdown(cfg, p, -(if p - eqs[0] > -dd then p - eqs[0] else -dd), eqs[1..])
  {
  }

  lemma {:induction false} FoldIsMaxFall(cfg: Config, path: seq<real>, eqs: seq<real>, peak: real, dd: real)
    requires IsPeak(path, peak) && IsMaxFall(path, -dd) && dd <= 0.0
    requires Exact(cfg)
    ensures var r := FoldDrawdown(cfg, peak, dd, eqs);
            IsPeak(path + eqs, r.0) && IsMaxFall(path + eqs, -r.1) && r.1 <= 0.0
    decreases |eqs|
  {
    hide IsPeak, IsMaxFall;
    if eqs == [] {
      assert path + eqs == path;
    } else {
      var p := Max(peak, eqs[0]);
      var d := if p - eqs[0] > -dd then p - eqs[0] else -dd;
      PathGrows(path, eqs[0], peak, dd);
      FoldUnfolds(cfg, eqs, peak, dd);
      hide FoldDrawdown;
      var longer := path + [eqs[0]];
      assert path + eqs == longer + eqs[1..];
      assert -(-d) == d;
      FoldIsMaxFall(cfg, longer, eqs[1..], p, -d);
    }
  }

  /** The equity points of one bar of the tape: none before trading starts. */
  function BarEquities(cfg: Config, win: Window, l: Loop, ev: Event): seq<real>
    requires cfg.pv != 0.0
  {
    if Trading(win, l.index) then
      EquityPoints(cfg, AfterFills(cfg, AtBar(cfg, win, l, ev), ev.bar, l.bn + 1), ev.bar, l.bn + 1)
    else []
  }

  /** The whole run's intra-bar equity path, every trading bar walked, starting from 0. */
  function EquityPath(cfg: Config, win: Window, evs: seq<Event>): seq<real>
    requires cfg.pv != 0.0
  {
    if evs == [] then [0.0]
    else
      EquityPath(cfg, win, evs[..|evs| - 1])
      + BarEquities(cfg, win, Run(cfg, win, evs[..|evs| - 1]), evs[|evs| - 1])
  }

  ghost predicate Tracks(st: State, path: seq<real>) {
    IsPeak(path, st.peakEquity) && IsMaxFall(path, -st.maxDrawdown) && st.maxDrawdown <= 0.0
  }

  /** Neither fills nor stops touch the peak and the drawdown. */
  lemma {:induction false} CloseOrdersKeepPeak(cfg: Config, st: State, cs: seq<CloseOrder>)
    ensures var st' := FillCloseOrders(cfg, st, cs);
            st'.peakEquity == st.peakEquity && st'.maxDrawdown == st.maxDrawdown
    decreases |cs|
  {
    if cs != [] {
      CloseOrdersKeepPeak(cfg, FillCloseOrder(cfg, st, cs[0]), cs[1..]);
    }
  }

  lemma {:induction false} MarketKeepsPeak(cfg: Config, st: State, os: seq<Order>, price: real, bar: int)
    ensures var st' := FillMarket(cfg, st, os, price, bar);
            st'.peakEquity == st.peakEquity && st'.maxDrawdown == st.maxDrawdown
    decreases |os|
  {
    if os != [] {
      MarketKeepsPeak(cfg, FillAt(cfg, st, os[0], price, bar), os[1..], price, bar);
    }
  }

  lemma {:induction false} TriggeredKeepPeak(cfg: Config, st: State, ts: seq<Triggered>, bar: int)
    ensures var st' := FillTriggered(cfg, st, ts, bar);
            st'.peakEquity == st.peakEquity && st'.maxDrawdown == st.maxDrawdown
    decreases |ts|
  {
    if ts != [] {
      TriggeredKeepPeak(cfg, FillAt(cfg, st, ts[0].order, ts[0].price, bar), ts[1..], bar);
    }
  }

  lemma AfterFillsKeepsPeak(cfg: Config, st: State, bar: Bar, bn: int)
    requires cfg.pv != 0.0
    ensures var st' := AfterFills(cfg, st, bar, bn);
            st'.peakEquity == st.peakEquity && st'.maxDrawdown == st.maxDrawdown
  {
    hide FillCloseOrders, FillMarket, FillTriggered, PathOrder, MarketOrders, TriggeredOrders, CheckStops;
    CloseOrdersKeepPeak(cfg, st, st.onClose);
    var st1 := ExecuteOnClose(cfg, st);
    MarketKeepsPeak(cfg, st1, MarketOrders(st1.pending), bar.open, bn);
    TriggeredKeepPeak(cfg, FillMarket(cfg, st1, MarketOrders(st1.pending), bar.open, bn),
                      PathOrder(TriggeredOrders(cfg, st1.pending, bar), HighFirst(bar)), bn);
    StopsKeepPeak(cfg, ExecutePending(cfg, st1, bar, bn), bar, bn);
  }

  lemma StopsKeepPeak(cfg: Config, st: State, bar: Bar, bn: int)
    requires cfg.pv != 0.0
    ensures var st' := CheckStops(cfg, st, bar, bn);
            st'.peakEquity == st.peakEquity && st'.maxDrawdown == st.maxDrawdown
  {
    hide StopFill;
  }

  lemma AtBarKeepsPeak(cfg: Config, win: Window, l: Loop, ev: Event)
    ensures var st' := AtBar(cfg, win, l, ev);
            st'.peakEquity == l.engine.peakEquity && st'.maxDrawdown == l.engine.maxDrawdown
  {
    CloseOrdersKeepPeak(cfg, l.engine, l.engine.onClose);
  }

  /** Doing an idle bar's work or skipping it, the peak and drawdown fold the bar's points. */
  lemma BeforeBarFolds(cfg: Config, st: State, bar: Bar, bn: int)
    requires cfg.pv != 0.0 && (NoWork(st) ==> Settled(cfg, st))
    ensures var st' := BeforeBar(cfg, st, bar, bn);
            (st'.peakEquity, st'.maxDrawdown)
            == FoldDrawdown(cfg, st.peakEquity, st.maxDrawdown,
                            EquityPoints(cfg, AfterFills(cfg, st, bar, bn), bar, bn))
  {
    hide AfterFills, EquityPoints, FoldDrawdown, Settled;
    AfterFillsKeepsPeak(cfg, st, bar, bn);
    if NoWork(st) {
      SkippedWorkIsIdentity(cfg, st, bar, bn);
    }
  }

  lemma StepTracks(cfg: Config, win: Window, l: Loop, ev: Event, path: seq<real>)
    requires cfg.pv != 0.0 && Exact(cfg)
    requires Tracks(l.engine, path) && SettledWhenFlat(cfg, l.engine)
    ensures Tracks(Step(cfg, win, l, ev).engine, path + BarEquities(cfg, win, l, ev))
  {
    hide AfterFills, EquityPoints, AtBar, NoWork, IsPeak, IsMaxFall, FoldDrawdown, BeforeBar, Settled;
    AtBarKeepsPeak(cfg, win, l, ev);
    IdleIsSettled(cfg, win, l, ev);
    var st := AtBar(cfg, win, l, ev);
    if Trading(win, l.index) {
      BeforeBarFolds(cfg, st, ev.bar, l.bn + 1);
      FoldIsMaxFall(cfg, path, BarEquities(cfg, win, l, ev), st.peakEquity, st.maxDrawdown);
    } else {
      assert path + [] == path;
    }
  }

  lemma RestTracks(path: seq<real>)
    requires path == [0.0]
    ensures IsPeak(path, 0.0) && IsMaxFall(path, 0.0)
  {
    assert path[0] == 0.0;
    assert FallsBy(path, 0, 0, 0.0);
  }

  /** `MaxIDDrawDown` is minus the deepest fall of the whole run's equity path, although the
      engine remembers only a peak and skips idle bars. */
  lemma {:induction false} DrawdownIsMaxFall(cfg: Config, win: Window, evs: seq<Event>)
    requires cfg.pv != 0.0 && Exact(cfg)
    ensures var st := Run(cfg, win, evs).engine;
            IsPeak(EquityPath(cfg, win, evs), st.peakEquity)
            && IsMaxFall(EquityPath(cfg, win, evs), -st.maxDrawdown)
            && st.maxDrawdown <= 0.0
  {
    hide Step, BarEquities, IsPeak, IsMaxFall, SettledWhenFlat;
    if evs == [] {
      RestTracks(EquityPath(cfg, win, evs));
    } else {
      var init := evs[..|evs| - 1];
      DrawdownIsMaxFall(cfg, win, init);
      FastPathIsExact(cfg, win, init);
      StepTracks(cfg, win, Run(cfg, win, init), evs[|evs| - 1], EquityPath(cfg, win, init));
    }
  }
}
