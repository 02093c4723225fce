/** The state of the order/fill engine and one specification function per engine
    operation. `FillEngine` (FillEngine.dfy) is proved to compute exactly these
    functions; every theorem about runs is proved about them. */
module EngineModel {
  import opened Sequences

  /** Per-run constants. `round` stands for the runtime's `f32` and `eps` for the
      comparison slack of the stop walk: theorems say what they need of both. */
  datatype Config = Config(pv: real, tick: real, cap: int, eps: real, round: real -> real)

  ghost predicate Exact(cfg: Config) {
    forall x: real :: cfg.round(x) == x
  }

  /** The runtime's rounding, as the engine's methods call it. */
  function F32(cfg: Config, x: real): real {
    cfg.round(x)
  }

  datatype Bar = Bar(open: real, high: real, low: real, close: real)

  predicate WellFormed(b: Bar) {
    0.0 < b.low && b.low <= b.open <= b.high && b.low <= b.close <= b.high
  }

  datatype Action = Buy | SellShort | Sell | BuyToCover | UnknownAction
  datatype OrderType = Market | Limit | Stop | OnClose | UnknownType
  datatype Timing = Next | ThisBar | UnknownTiming

  datatype Order = Order(action: Action, otype: OrderType, qty: nat, timing: Timing,
                         tag: string, price: Option<real>)

  /** A `this bar on close` order stashed with its signal bar's close and number. */
  datatype CloseOrder = CloseOrder(order: Order, price: real, bar: int)

  /** One contract in the fill log. `buy` is the order side. */
  datatype Fill = Fill(buy: bool, signal: string, price: real)

  datatype Trade = Trade(pnl: real, bars: int, mfe: real, mae: real, contracts: nat, entries: nat,
                         size: nat, isLong: bool, entryPrice: real, exitPrice: real,
                         entryBar: int, exitBar: int)

  datatype Stats = Stats(nWin: nat, nLos: nat, nEven: nat, lrgWin: real, lrgLos: real,
                         barsWin: int, barsLos: int, barsEven: int,
                         runWin: nat, runLos: nat, maxRunWin: nat, maxRunLos: nat)

  datatype Risk = Risk(stopLoss: real, profitTarget: real, breakeven: real, dollarTrailing: real,
                       percentTrailing: Option<(real, real)>, exitOnClose: bool)

  /** One bar's risk settings: `None` is a key the strategy did not write. */
  datatype RiskUpdate = RiskUpdate(
    stopLoss: Option<real>, profitTarget: Option<real>, breakeven: Option<real>,
    dollarTrailing: Option<real>, percentTrailing: Option<(real, real)>, exitOnClose: Option<bool>,
    stopLossPt: Option<real>, profitTargetPt: Option<real>, breakevenPt: Option<real>,
    trailingStopPt: Option<real>, percentTrailingPt: Option<(real, real)>)

  /** The open position. `prices` holds one entry price per contract, oldest first;
      `qtys`/`labels` one element per entry still open. */
  datatype Book = Book(mp: int, contracts: nat, entryPrice: real, entryBar: int, barsSinceEntry: int,
                       peakProfit: real, prices: seq<real>, qtys: seq<nat>, labels: seq<string>,
                       mfe: real, mae: real, maxContracts: nat, entries: nat)

  /** Realised money. `gap` and `partials` are history variables, read by no operation:
      the FIFO-minus-average cost basis of the partial exits so far, and their number. */
  datatype Ledger = Ledger(net: real, grossProfit: real, grossLoss: real, positionProfit: real,
                           totalTrades: nat, maxHeld: nat, closed: seq<Trade>, stats: Stats,
                           gap: real, partials: nat)

  datatype State = State(book: Book, ledger: Ledger, fills: seq<Fill>, pending: seq<Order>,
                         onClose: seq<CloseOrder>, risk: Risk, openProfit: real,
                         peakEquity: real, maxDrawdown: real, hits: nat)

  const NO_STATS := Stats(0, 0, 0, 0.0, 0.0, 0, 0, 0, 0, 0, 0, 0)
  const NO_RISK := Risk(0.0, 0.0, 0.0, 0.0, None, false)
  const NO_UPDATE := RiskUpdate(None, None, None, None, None, None, None, None, None, None, None)
  const EMPTY_BOOK := Book(0, 0, 0.0, 0, 0, 0.0, [], [], [], 0.0, 0.0, 0, 0)
  const EMPTY_LEDGER := Ledger(0.0, 0.0, 0.0, 0.0, 0, 0, [], NO_STATS, 0.0, 0)
  const FRESH := State(EMPTY_BOOK, EMPTY_LEDGER, [], [], [], NO_RISK, 0.0, 0.0, 0.0, 0)

  // ---- Position and realised money -----------------------------------------

  function Signed(b: Book): int {
    if b.mp > 0 then b.contracts as int else if b.mp < 0 then -(b.contracts as int) else 0
  }

  /** Points gained per contract by a position of direction `mp` between two prices. */
  function Gain(mp: int, entry: real, exit: real): real {
    if mp > 0 then exit - entry else entry - exit
  }

  /** `n` contracts moving `points` at point value `pv`. */
  function Money(points: real, pv: real, n: int): real {
    points * pv * n as real
  }

  function UnitMoney(points: real, pv: real): real {
    points * pv
  }

  /** The position valued at its average entry price. */
  function PositionValue(b: Book): real {
    b.entryPrice * b.contracts as real
  }

  /** `qty` contracts at `p` averaged into a position worth `value`; `n` contracts in all. */
  function Averaged(value: real, p: real, qty: nat, n: nat): real
    requires n >= 1
  {
    (value + p * qty as real) / n as real
  }

  /** The average entry price after `qty` more contracts at `p`. */
  function NewAverage(cfg: Config, b: Book, p: real, qty: nat): real
    requires qty >= 1
  {
    F32(cfg, Averaged(F32(cfg, PositionValue(b)), p, qty, b.contracts + qty))
  }

  /** Opens a position or adds to one in the same direction (`side` is +1 or -1). */
  function Enter(cfg: Config, st: State, side: int, qty: nat, price: real, bar: int, name: string): State
    requires qty >= 1
  {
    var b := st.book;
    var p := F32(cfg, price);
    var n := b.contracts + qty;
    var avg := NewAverage(cfg, b, p, qty);
    var first := b.contracts == 0;
    var b' := b.(
      mp := side, contracts := n, entryPrice := avg, barsSinceEntry := 0, peakProfit := 0.0,
      prices := b.prices + Repeat(p, qty),
      entryBar := if first then bar else b.entryBar,
      qtys := if first then [qty] else b.qtys + [qty],
      labels := if first then [name] else b.labels + [name],
      mfe := if first then 0.0 else b.mfe,
      mae := if first then 0.0 else b.mae,
      entries := if first then 1 else b.entries + 1,
      maxContracts := if first || b.maxContracts < n then n else b.maxContracts);
    var l' := st.ledger.(
      positionProfit := if side < 0 || first then 0.0 else st.ledger.positionProfit,
      maxHeld := if st.ledger.maxHeld < n then n else st.ledger.maxHeld);
    st.(book := b', ledger := l')
  }

  /** The statistics after one more closed position of result `pnl` held for `bars` bars. */
  function RecordStats(s: Stats, pnl: real, bars: int): Stats {
    if pnl > 0.0 then
      s.(nWin := s.nWin + 1, lrgWin := Max(s.lrgWin, pnl), barsWin := s.barsWin + bars,
         runWin := s.runWin + 1, runLos := 0,
         maxRunWin := if s.maxRunWin < s.runWin + 1 then s.runWin + 1 else s.maxRunWin)
    else if pnl < 0.0 then
      s.(nLos := s.nLos + 1, lrgLos := Min(s.lrgLos, pnl), barsLos := s.barsLos + bars,
         runLos := s.runLos + 1, runWin := 0,
         maxRunLos := if s.maxRunLos < s.runLos + 1 then s.runLos + 1 else s.maxRunLos)
    else
      s.(nEven := s.nEven + 1, barsEven := s.barsEven + bars, runWin := 0, runLos := 0)
  }

  function TradeOf(cfg: Config, b: Book, pnl: real, exitBar: int, price: real, size: nat): Trade {
    var bars := if b.entryBar > 0 then exitBar - b.entryBar + 1 else 0;
    var exc := UnitMoney(Gain(b.mp, b.entryPrice, F32(cfg, price)), cfg.pv);
    var counted := price != 0.0 && b.entryPrice != 0.0;
    Trade(pnl, bars, if counted then Max(b.mfe, exc) else b.mfe, if counted then Min(b.mae, exc) else b.mae,
          b.maxContracts, b.entries, size, b.mp > 0, b.entryPrice, F32(cfg, price), b.entryBar, exitBar)
  }

  /** Appends the open position's trade record and folds it into the statistics. */
  function RecordTrade(cfg: Config, b: Book, l: Ledger, exitBar: int, price: real, size: nat): Ledger {
    var t := TradeOf(cfg, b, l.positionProfit, exitBar, price, size);
    l.(closed := l.closed + [t], stats := RecordStats(l.stats, t.pnl, t.bars))
  }

  function AddPnl(l: Ledger, pnl: real): Ledger {
    l.(net := l.net + pnl, totalTrades := l.totalTrades + 1, positionProfit := l.positionProfit + pnl,
       grossProfit := if pnl > 0.0 then l.grossProfit + pnl else l.grossProfit,
       grossLoss := if pnl < 0.0 then l.grossLoss + pnl else l.grossLoss)
  }

  /** Takes `q` contracts off the oldest entries first. */
  function Consume(qtys: seq<nat>, labels: seq<string>, q: nat): (r: (seq<nat>, seq<string>))
    decreases |qtys|, q
  {
    if q == 0 || qtys == [] then (qtys, labels)
    else if q < qtys[0] then ([qtys[0] - q] + qtys[1..], labels)
    else Consume(qtys[1..], if labels != [] then labels[1..] else labels, q - qtys[0])
  }

  function Flat(b: Book): Book {
    b.(mp := 0, contracts := 0, entryPrice := 0.0, entryBar := 0, barsSinceEntry := 0,
       peakProfit := 0.0, prices := [])
  }

  /** The book less its `q` oldest contracts, before re-averaging or going flat. */
  function Closing(b: Book, q: nat, consume: bool): Book
    requires q <= b.contracts
  {
    var queue := if consume then Consume(b.qtys, b.labels, q) else (b.qtys, b.labels);
    b.(contracts := b.contracts - q, prices := if q <= |b.prices| then b.prices[q..] else [],
       qtys := queue.0, labels := queue.1)
  }

  function Reaveraged(cfg: Config, b: Book): Book {
    if b.prices == [] then b else b.(entryPrice := F32(cfg, Sum(b.prices) / |b.prices| as real))
  }

  /** Money realised by closing `q` contracts at `price` against the average entry price. */
  function ExitPnl(cfg: Config, b: Book, q: nat, price: real): real {
    Money(Gain(b.mp, b.entryPrice, price), cfg.pv, q)
  }

  function Realised(cfg: Config, b: Book, l: Ledger, q: nat, price: real): Ledger {
    AddPnl(l, ExitPnl(cfg, b, q, price))
  }

  function PartialHistory(l: Ledger, b: Book, q: nat): Ledger {
    var popped := if q <= |b.prices| then q else |b.prices|;
    l.(gap := l.gap + Sum(b.prices[..popped]) - q as real * b.entryPrice, partials := l.partials + 1)
  }

  /** Closes `q` contracts, oldest first: realises against the average entry price, then
      re-averages what is left, or records the trade and goes flat. */
  function Exit(cfg: Config, st: State, q: nat, price: real, exitBar: int, consume: bool): State
    requires q <= st.book.contracts
  {
    var b := Closing(st.book, q, consume);
    var l := Realised(cfg, st.book, st.ledger, q, price);
    if b.contracts == 0 then
      st.(book := Flat(b), ledger := RecordTrade(cfg, b, l, exitBar, price, q).(positionProfit := 0.0))
    else
      st.(book := Reaveraged(cfg, b), ledger := PartialHistory(l, st.book, q))
  }

  /** The verb decides: `Buy`/`SellShort` enter or reverse, `Sell`/`BuyToCover` only close. */
  function FillOrder(cfg: Config, st: State, action: Action, qty: nat, price: real, bar: int, tag: string): State
    requires qty >= 1
  {
    var n := st.book.contracts;
    match action
    case Buy =>
      var st1 := if st.book.mp < 0 then Exit(cfg, st, n, F32(cfg, price), bar, false) else st;
      Enter(cfg, st1, 1, qty, price, bar, tag)
    case SellShort =>
      var st1 := if st.book.mp > 0 then Exit(cfg, st, n, price, bar, true) else st;
      Enter(cfg, st1, -1, qty, price, bar, tag)
    case Sell =>
      if st.book.mp > 0 then Exit(cfg, st, if qty < n then qty else n, price, bar, true) else st
    case BuyToCover =>
      if st.book.mp < 0 then Exit(cfg, st, n, F32(cfg, price), bar, false) else st
    case UnknownAction => st
  }

  function Distance(a: int, b: int): nat {
    if a < b then b - a else a - b
  }

  /** One log record per contract the signed position moved since `before`. */
  function RecordFills(st: State, buy: bool, signal: string, price: real, before: int): State {
    st.(fills := st.fills + Repeat(Fill(buy, signal, price), Distance(Signed(st.book), before)))
  }

  predicate BuySide(a: Action) {
    a == Buy || a == BuyToCover
  }

  function OpenEntries(b: Book): nat {
    if b.mp != 0 then |b.qtys| else 0
  }

  /** The same-direction entry cap; reversals are never refused. */
  predicate EntryRefused(cfg: Config, b: Book, action: Action) {
    cfg.cap > 0
    && ((action == Buy && b.mp > 0) || (action == SellShort && b.mp < 0))
    && OpenEntries(b) >= cfg.cap
  }

  /** Fills one order unless the cap refuses it, and logs what the position moved. */
  function Execute(cfg: Config, st: State, o: Order, qty: nat, price: real, bar: int): State
    requires qty >= 1
  {
    if EntryRefused(cfg, st.book, o.action) then st
    else
      RecordFills(FillOrder(cfg, st, o.action, qty, price, bar, o.tag),
                  BuySide(o.action), o.tag, price, Signed(st.book))
  }

  /** Quantity 0 on a next-bar closing verb means the whole position; elsewhere 1. */
  function FillQty(b: Book, o: Order): (q: nat)
    ensures q >= 1
  {
    if o.qty != 0 then o.qty
    else if (o.action == Sell || o.action == BuyToCover) && b.contracts > 0 then b.contracts
    else 1
  }

  function FillAt(cfg: Config, st: State, o: Order, price: real, bar: int): State {
    Execute(cfg, st, o, FillQty(st.book, o), price, bar)
  }

  function FillCloseOrder(cfg: Config, st: State, c: CloseOrder): State {
    Execute(cfg, st, c.order, if c.order.qty != 0 then c.order.qty else 1, c.price, c.bar)
  }

  function FillCloseOrders(cfg: Config, st: State, cs: seq<CloseOrder>): State
    decreases |cs|
  {
    if cs == [] then st else FillCloseOrders(cfg, FillCloseOrder(cfg, st, cs[0]), cs[1..])
  }

  function ExecuteOnClose(cfg: Config, st: State): State {
    FillCloseOrders(cfg, st, st.onClose).(onClose := [])
  }

  // ---- Next-bar orders ------------------------------------------------------

  /** A triggered limit/stop order: which extreme triggers it, whether the open already
      satisfies it, and its fill price. */
  datatype Triggered = Triggered(high: bool, atOpen: bool, order: Order, price: real)

  function Trigger(cfg: Config, o: Order, bar: Bar): Option<Triggered> {
    if o.timing != Next || (o.otype != Limit && o.otype != Stop) || o.price == None then None
    else
      var px := o.price.value;
      var high := BuySide(o.action) == (o.otype == Stop);
      if !high && bar.low <= px then
        Some(Triggered(false, bar.open <= px, o, F32(cfg, Min(bar.open, px))))
      else if high && bar.high >= px then
        Some(Triggered(true, bar.open >= px, o, F32(cfg, Max(bar.open, px))))
      else None
  }

  function MarketOrders(os: seq<Order>): seq<Order> {
    if os == [] then []
    else (if os[0].timing == Next && os[0].otype == Market then [os[0]] else []) + MarketOrders(os[1..])
  }

  function TriggeredOrders(cfg: Config, os: seq<Order>, bar: Bar): seq<Triggered> {
    if os == [] then []
    else
      var t := Trigger(cfg, os[0], bar);
      (if t.Some? then [t.value] else []) + TriggeredOrders(cfg, os[1..], bar)
  }

  /** True when the high is strictly nearer the open than the low. */
  predicate HighFirst(bar: Bar) {
    bar.high - bar.open < bar.open - bar.low
  }

  function Rank(t: Triggered, highFirst: bool): (r: nat)
    ensures r < 4
  {
    (if t.atOpen then 0 else 2) + (if t.high == highFirst then 0 else 1)
  }

  function WithRank(ts: seq<Triggered>, highFirst: bool, r: nat): seq<Triggered> {
    if ts == [] then []
    else (if Rank(ts[0], highFirst) == r then [ts[0]] else []) + WithRank(ts[1..], highFirst, r)
  }

  /** The stable sort of the triggered orders by (open first, near extreme first). */
  function PathOrder(ts: seq<Triggered>, highFirst: bool): seq<Triggered> {
    WithRank(ts, highFirst, 0) + WithRank(ts, highFirst, 1)
    + WithRank(ts, highFirst, 2) + WithRank(ts, highFirst, 3)
  }

  function FillMarket(cfg: Config, st: State, os: seq<Order>, price: real, bar: int): State
    decreases |os|
  {
    if os == [] then st else FillMarket(cfg, FillAt(cfg, st, os[0], price, bar), os[1..], price, bar)
  }

  function FillTriggered(cfg: Config, st: State, ts: seq<Triggered>, bar: int): State
    decreases |ts|
  {
    if ts == [] then st
    else FillTriggered(cfg, FillAt(cfg, st, ts[0].order, ts[0].price, bar), ts[1..], bar)
  }

  function ExecutePending(cfg: Config, st: State, bar: Bar, bn: int): State {
    var st1 := FillMarket(cfg, st, MarketOrders(st.pending), bar.open, bn);
    var ts := PathOrder(TriggeredOrders(cfg, st.pending, bar), HighFirst(bar));
    FillTriggered(cfg, st1, ts, bn).(pending := [])
  }

  // ---- Closing at a stop ----------------------------------------------------

  function CloseAtStop(cfg: Config, st: State, price: real, signal: string, exitBar: int): State {
    if st.book.mp == 0 then st
    else
      var st1 := Exit(cfg, st, st.book.contracts, price, exitBar, false).(openProfit := 0.0);
      RecordFills(st1, st.book.mp < 0, signal, price, Signed(st.book))
  }

  // ---- Marking to market, excursion, drawdown -------------------------------

  function MarkToMarket(cfg: Config, b: Book, close: real): real {
    if b.mp == 0 || b.entryBar == 0 then 0.0
    else (close - b.entryPrice) * b.mp as real * cfg.pv * b.contracts as real
  }

  function UpdateExcursion(cfg: Config, b: Book, bar: Bar): Book {
    if b.mp == 0 || b.contracts == 0 then b
    else
      var fav := Gain(b.mp, b.entryPrice, if b.mp > 0 then bar.high else bar.low) * cfg.pv;
      var adv := Gain(b.mp, b.entryPrice, if b.mp > 0 then bar.low else bar.high) * cfg.pv;
      b.(mfe := Max(b.mfe, fav), mae := Min(b.mae, adv))
  }

  /** The assumed intra-bar path: the extreme nearest the open is reached first. */
  function BarPath(bar: Bar): (p: seq<real>)
    ensures |p| == 4
  {
    if HighFirst(bar) then [bar.open, bar.high, bar.low, bar.close]
    else [bar.open, bar.low, bar.high, bar.close]
  }

  predicate Straddles(a: real, b: real, x: real) {
    Min(a, b) <= x <= Max(a, b)
  }

  /** What is left of `path` from the first segment, at or after `i`, holding `entry`. */
  function PostEntryWalk(path: seq<real>, entry: real, i: nat): seq<real>
    decreases |path| - i
  {
    if i + 1 >= |path| then path
    else if Straddles(path[i], path[i + 1], entry) then [entry] + path[i + 1..]
    else PostEntryWalk(path, entry, i + 1)
  }

  function EquityAt(cfg: Config, st: State, px: real): real {
    st.ledger.net + Money(Gain(st.book.mp, st.book.entryPrice, px), cfg.pv, st.book.contracts)
  }

  function EquitiesAlong(cfg: Config, st: State, walk: seq<real>): (eqs: seq<real>)
    ensures |eqs| == |walk|
    ensures forall i :: 0 <= i < |eqs| ==> eqs[i] == EquityAt(cfg, st, walk[i])
  {
    if walk == [] then [] else [EquityAt(cfg, st, walk[0])] + EquitiesAlong(cfg, st, walk[1..])
  }

  /** The equity points one bar contributes, after its fills. */
  function EquityPoints(cfg: Config, st: State, bar: Bar, bn: int): seq<real> {
    if st.book.mp != 0 && st.book.contracts > 0 then
      EquitiesAlong(cfg, st, if st.book.entryBar == bn then PostEntryWalk(BarPath(bar), st.book.entryPrice, 0)
                             else BarPath(bar))
    else [st.ledger.net]
  }

  /** Running peak and deepest fall, folded over a sequence of equity points. */
  function FoldDrawdown(cfg: Config, peak: real, dd: real, eqs: seq<real>): (real, real)
    decreases |eqs|
  {
    if eqs == [] then (peak, dd)
    else
      var p := Max(peak, eqs[0]);
      FoldDrawdown(cfg, p, if p - eqs[0] > Abs(dd) then F32(cfg, -(p - eqs[0])) else dd, eqs[1..])
  }
}
