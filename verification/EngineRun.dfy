/** One bar of the engine's life cycle and whole runs of the bar loop. */
module EngineRun {
  import opened Sequences
  import opened EngineModel
  import opened StopWalk

  predicate HasActiveRisk(r: Risk) {
    r.stopLoss > 0.0 || r.profitTarget > 0.0 || r.breakeven > 0.0 || r.dollarTrailing > 0.0
    || HasTrail(r) || r.exitOnClose
  }

  /** The bars the engine skips: flat, nothing queued, no risk armed. */
  predicate NoWork(st: State) {
    st.book.mp == 0 && st.pending == [] && st.onClose == [] && !HasActiveRisk(st.risk)
  }

  /** The state in which the bar's equity is measured: all fills done, position marked. */
  function AfterFills(cfg: Config, st: State, bar: Bar, bn: int): State
    requires cfg.pv != 0.0
  {
    var st1 := CheckStops(cfg, ExecutePending(cfg, ExecuteOnClose(cfg, st), bar, bn), bar, bn);
    var b := UpdateExcursion(cfg, st1.book, bar);
    var b' := if b.mp != 0 && b.entryBar > 0 then b.(barsSinceEntry := bn - b.entryBar) else b;
    st1.(openProfit := MarkToMarket(cfg, st1.book, bar.close), book := b')
  }

  /** The bar's full work, without the fast path. */
  function BeforeBarBody(cfg: Config, st: State, bar: Bar, bn: int): State
    requires cfg.pv != 0.0
  {
    var st1 := AfterFills(cfg, st, bar, bn);
    var (peak, dd) := FoldDrawdown(cfg, st1.peakEquity, st1.maxDrawdown, EquityPoints(cfg, st1, bar, bn));
    st1.(peakEquity := peak, maxDrawdown := dd)
  }

  function BeforeBar(cfg: Config, st: State, bar: Bar, bn: int): State
    requires cfg.pv != 0.0
  {
    if NoWork(st) then st.(hits := st.hits + 1) else BeforeBarBody(cfg, st, bar, bn)
  }

  function ValidOrders(os: seq<Option<Order>>): seq<Order> {
    if os == [] then []
    else (if os[0].Some? then [os[0].value] else []) + ValidOrders(os[1..])
  }

  predicate OnThisClose(o: Order) {
    o.timing == ThisBar && o.otype == OnClose
  }

  function Stashed(cfg: Config, os: seq<Order>, close: real, bn: int): seq<CloseOrder> {
    if os == [] then []
    else
      (if OnThisClose(os[0]) then [CloseOrder(os[0], F32(cfg, close), bn)] else [])
      + Stashed(cfg, os[1..], close, bn)
  }

  function Queued(os: seq<Order>): seq<Order> {
    if os == [] then []
    else (if OnThisClose(os[0]) then [] else [os[0]]) + Queued(os[1..])
  }

  function Scaled(points: Option<real>, pv: real, dollars: Option<real>): Option<real> {
    if points.Some? then Some(points.value * pv) else dollars
  }

  /** Point-based settings become the dollar settings they stand for. */
  function ResolvePoints(cfg: Config, u: RiskUpdate): RiskUpdate {
    RiskUpdate(
      Scaled(u.stopLossPt, cfg.pv, u.stopLoss), Scaled(u.profitTargetPt, cfg.pv, u.profitTarget),
      Scaled(u.breakevenPt, cfg.pv, u.breakeven), Scaled(u.trailingStopPt, cfg.pv, u.dollarTrailing),
      if u.percentTrailingPt.Some? then
        Some((u.percentTrailingPt.value.0 * cfg.pv, u.percentTrailingPt.value.1))
      else u.percentTrailing,
      u.exitOnClose, None, None, None, None, None)
  }

  function Or<T>(o: Option<T>, old_: T): T {
    if o.Some? then o.value else old_
  }

  /** Settings the strategy did not write keep their value. */
  function UpdateRisk(r: Risk, u: RiskUpdate): Risk {
    Risk(Or(u.stopLoss, r.stopLoss), Or(u.profitTarget, r.profitTarget), Or(u.breakeven, r.breakeven),
         Or(u.dollarTrailing, r.dollarTrailing),
         if u.percentTrailing.Some? then u.percentTrailing else r.percentTrailing,
         Or(u.exitOnClose, r.exitOnClose))
  }

  function AfterBar(cfg: Config, st: State, os: seq<Option<Order>>, u: RiskUpdate, close: real, bn: int): State {
    var valid := ValidOrders(os);
    st.(onClose := st.onClose + Stashed(cfg, valid, close, bn),
        pending := Queued(valid),
        risk := UpdateRisk(st.risk, ResolvePoints(cfg, u)),
        openProfit := MarkToMarket(cfg, st.book, close))
  }

  function ExitOnClose(cfg: Config, st: State, prevClose: real, bn: int): State {
    CloseAtStop(cfg, ExecuteOnClose(cfg, st), prevClose, "End of Day Exit", bn - 1)
  }

  // ---- Runs -----------------------------------------------------------------

  /** What the strategy did on a bar: its orders and risk settings are arbitrary. */
  datatype Outcome = Threw | Returned(orders: seq<Option<Order>>, risk: RiskUpdate)
  datatype Event = Event(bar: Bar, date: int, outcome: Outcome)

  /** First bar that may fill, and number of bars that are history only. */
  datatype Window = Window(tradeFrom: nat, maxBarsBack: nat)

  datatype Loop = Loop(engine: State, index: nat, bn: nat, prevDate: Option<int>, prevClose: Option<real>)

  const START := Loop(FRESH, 0, 0, None, None)

  predicate HistoryOnly(win: Window, i: nat) {
    i < win.maxBarsBack
  }

  predicate Trading(win: Window, i: nat) {
    i >= win.tradeFrom && !HistoryOnly(win, i)
  }

  predicate SessionEnded(win: Window, l: Loop, ev: Event) {
    Trading(win, l.index) && l.prevDate.Some? && ev.date != l.prevDate.value
    && l.engine.risk.exitOnClose && l.prevClose.Some?
  }

  /** The engine as the bar's `before_bar` call finds it. */
  function AtBar(cfg: Config, win: Window, l: Loop, ev: Event): State {
    if SessionEnded(win, l, ev) then ExitOnClose(cfg, l.engine, l.prevClose.value, l.bn + 1) else l.engine
  }

  /** What follows `before_bar` on an evaluated bar: the strategy's outcome is queued. */
  function Conclude(cfg: Config, win: Window, l: Loop, ev: Event, st: State): Loop {
    var l' := Loop(st, l.index + 1, l.bn + 1, Some(ev.date), l.prevClose);
    if ev.outcome.Threw? then l'
    else
      l'.(engine := if l.index + 1 >= win.tradeFrom then
                      AfterBar(cfg, st, ev.outcome.orders, ev.outcome.risk, ev.bar.close, l.bn + 1)
                    else st,
          prevClose := Some(ev.bar.close))
  }

  function Step(cfg: Config, win: Window, l: Loop, ev: Event): Loop
    requires cfg.pv != 0.0
  {
    if HistoryOnly(win, l.index) then l.(index := l.index + 1, prevDate := Some(ev.date))
    else
      var st := AtBar(cfg, win, l, ev);
      Conclude(cfg, win, l, ev,
               if Trading(win, l.index) then BeforeBar(cfg, st, ev.bar, l.bn + 1) else st)
  }

  /** The state after a whole tape of bars. */
  function Run(cfg: Config, win: Window, evs: seq<Event>): Loop
    requires cfg.pv != 0.0
  {
    if evs == [] then START
    else Step(cfg, win, Run(cfg, win, evs[..|evs| - 1]), evs[|evs| - 1])
  }
}
