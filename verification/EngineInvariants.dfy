/** What every engine operation keeps: the book's three accounts of the open position
    agree, and the ledger's accounts of realised money agree. */
module EngineInvariants {
  import opened Sequences
  import opened EngineModel

  // ---- The open position ----------------------------------------------------

  ghost predicate QueueInvariant(qtys: seq<nat>, labels: seq<string>, contracts: nat) {
    SumNat(qtys) == contracts && |labels| == |qtys| && forall i :: 0 <= i < |qtys| ==> qtys[i] >= 1
  }

  /** One price per contract, entries adding up to the contracts, and the average entry
      price being the mean of the queue. */
  ghost predicate BookInvariant(b: Book) {
    && (b.mp == 0 || b.mp == 1 || b.mp == -1)
    && (b.mp == 0 <==> b.contracts == 0)
    && |b.prices| == b.contracts
    && b.entryPrice * b.contracts as real == Sum(b.prices)
    && (b.mp == 0 ==> b.entryPrice == 0.0)
    && (b.mp != 0 ==> QueueInvariant(b.qtys, b.labels, b.contracts))
    && b.peakProfit >= 0.0
  }

  // ---- Realised money -------------------------------------------------------

  function SumPnl(ts: seq<Trade>): real {
    if ts == [] then 0.0 else SumPnl(ts[..|ts| - 1]) + ts[|ts| - 1].pnl
  }

  /** Net profit is what was won less what was lost, and what the closed positions
      brought plus what the open one has realised so far. */
  ghost predicate LedgerInvariant(mp: int, l: Ledger) {
    && l.net == l.grossProfit + l.grossLoss
    && l.grossProfit >= 0.0 >= l.grossLoss
    && l.net == SumPnl(l.closed) + l.positionProfit
    && (mp <= 0 ==> l.positionProfit == 0.0)
    && l.totalTrades == |l.closed| + l.partials
  }

  // ---- Closed-trade statistics ----------------------------------------------

  datatype Kind = Win | Loss | Even

  predicate Is(k: Kind, t: Trade) {
    match k
    case Win => t.pnl > 0.0
    case Loss => t.pnl < 0.0
    case Even => t.pnl == 0.0
  }

  function Count(ts: seq<Trade>, k: Kind): nat {
    if ts == [] then 0 else Count(ts[..|ts| - 1], k) + if Is(k, ts[|ts| - 1]) then 1 else 0
  }

  function BarsOf(ts: seq<Trade>, k: Kind): int {
    if ts == [] then 0 else BarsOf(ts[..|ts| - 1], k) + if Is(k, ts[|ts| - 1]) then ts[|ts| - 1].bars else 0
  }

  predicate AtLeast(k: Kind, x: real, y: real) {
    if k == Win then x >= y else x <= y
  }

  /** `x` is the most extreme pnl among trades of kind `k`, 0 when there is none. */
  ghost predicate IsLargest(ts: seq<Trade>, k: Kind, x: real) {
    && AtLeast(k, x, 0.0)
    && (forall i :: 0 <= i < |ts| ==> AtLeast(k, x, ts[i].pnl))
    && (x == 0.0 || exists i :: 0 <= i < |ts| && ts[i].pnl == x)
  }

  ghost predicate RunAt(ts: seq<Trade>, k: Kind, i: int, n: int) {
    0 <= i <= i + n <= |ts| && forall j :: i <= j < i + n ==> Is(k, ts[j])
  }

  /** The last `n` trades are of kind `k` and the one before them, if any, is not. */
  ghost predicate IsTrailingRun(ts: seq<Trade>, k: Kind, n: nat) {
    RunAt(ts, k, |ts| - n, n) && (|ts| > n ==> !Is(k, ts[|ts| - n - 1]))
  }

  /** `n` is the length of the longest stretch of consecutive trades of kind `k`. */
  ghost predicate IsLongestRun(ts: seq<Trade>, k: Kind, n: nat) {
    (exists i :: RunAt(ts, k, i, n)) && forall i, m :: RunAt(ts, k, i, m) ==> m <= n
  }

  /** The running aggregates are what a rescan of the whole ledger would find. */
  ghost predicate StatsInvariant(s: Stats, ts: seq<Trade>) {
    && s.nWin == Count(ts, Win) && s.nLos == Count(ts, Loss) && s.nEven == Count(ts, Even)
    && s.nWin + s.nLos + s.nEven == |ts|
    && s.barsWin == BarsOf(ts, Win) && s.barsLos == BarsOf(ts, Loss) && s.barsEven == BarsOf(ts, Even)
    && IsLargest(ts, Win, s.lrgWin) && IsLargest(ts, Loss, s.lrgLos)
    && IsTrailingRun(ts, Win, s.runWin) && IsTrailingRun(ts, Loss, s.runLos)
    && IsLongestRun(ts, Win, s.maxRunWin) && IsLongestRun(ts, Loss, s.maxRunLos)
  }

  lemma StatsOfNothing(s: Stats, ts: seq<Trade>)
    requires s == NO_STATS && ts == []
    ensures StatsInvariant(s, ts)
  {
    assert RunAt(ts, Win, 0, 0);
    assert RunAt(ts, Loss, 0, 0);
  }

  /** Extending the ledger by one trade extends the runs of kind `k` as the engine does. */
  lemma RunsExtend(ts: seq<Trade>, t: Trade, k: Kind, run: nat, longest: nat)
    requires IsTrailingRun(ts, k, run) && IsLongestRun(ts, k, longest)
    ensures run <= longest
    ensures IsTrailingRun(ts + [t], k, if Is(k, t) then run + 1 else 0)
    ensures IsLongestRun(ts + [t], k, if Is(k, t) && longest < run + 1 then run + 1 else longest)
  {
    var us := ts + [t];
    assert RunAt(ts, k, |ts| - run, run);
    var i :| RunAt(ts, k, i, longest);
    assert RunAt(us, k, i, longest);
    if Is(k, t) {
      assert RunAt(us, k, |us| - (run + 1), run + 1);
    } else {
      assert RunAt(us, k, |us|, 0);
    }
    forall j, m | RunAt(us, k, j, m)
      ensures m <= if Is(k, t) && longest < run + 1 then run + 1 else longest
    {
      if m == 0 || j + m <= |ts| {
        if m > 0 {
          assert forall a :: j <= a < j + m ==> us[a] == ts[a];
          assert RunAt(ts, k, j, m);
        }
      } else {
        assert us[|ts|] == t;
        assert forall a :: j <= a < j + m - 1 ==> us[a] == ts[a];
        assert RunAt(ts, k, j, m - 1);
        if m - 1 > run {
          assert !Is(k, us[|ts| - run - 1]);
        }
      }
    }
  }

  lemma LargestExtends(ts: seq<Trade>, t: Trade, k: Kind, x: real)
    requires IsLargest(ts, k, x)
    ensures IsLargest(ts + [t], k, if AtLeast(k, x, t.pnl) then x else t.pnl)
  {
    var us := ts + [t];
    assert us[|ts|] == t;
    if x != 0.0 {
      var i :| 0 <= i < |ts| && ts[i].pnl == x;
      assert us[i].pnl == x;
    }
  }

  /** One more trade: the incremental update is the rescan of the longer ledger. */
  lemma RecordStatsIsRescan(s: Stats, ts: seq<Trade>, t: Trade)
    requires StatsInvariant(s, ts)
    ensures StatsInvariant(RecordStats(s, t.pnl, t.bars), ts + [t])
  {
    assert (ts + [t])[..|ts|] == ts;
    RunsExtend(ts, t, Win, s.runWin, s.maxRunWin);
    RunsExtend(ts, t, Loss, s.runLos, s.maxRunLos);
    LargestExtends(ts, t, Win, s.lrgWin);
    LargestExtends(ts, t, Loss, s.lrgLos);
  }

  // ---- Entering and exiting -------------------------------------------------

  /** At most `cap` entries are open in the position's direction. */
  ghost predicate CapInvariant(cfg: Config, b: Book) {
    cfg.cap > 0 ==> OpenEntries(b) <= cfg.cap
  }

  ghost predicate Sound(cfg: Config, st: State) {
    && BookInvariant(st.book)
    && CapInvariant(cfg, st.book)
    && LedgerInvariant(st.book.mp, st.ledger)
    && StatsInvariant(st.ledger.stats, st.ledger.closed)
  }

  lemma FreshBook(cfg: Config, b: Book)
    requires b == EMPTY_BOOK
    ensures BookInvariant(b) && CapInvariant(cfg, b)
  {
  }

  lemma FreshLedger(l: Ledger)
    requires l == EMPTY_LEDGER
    ensures LedgerInvariant(0, l)
  {
  }

  lemma FreshIsSound(cfg: Config, st: State)
    requires st == FRESH
    ensures Sound(cfg, st)
  {
    FreshBook(cfg, st.book);
    FreshLedger(st.ledger);
    StatsOfNothing(st.ledger.stats, st.ledger.closed);
  }

  lemma QueueExtends(qtys: seq<nat>, labels: seq<string>, contracts: nat, q: nat, name: string)
    requires QueueInvariant(qtys, labels, contracts) && q >= 1
    ensures QueueInvariant(qtys + [q], labels + [name], contracts + q)
  {
    SumNatAppend(qtys, [q]);
  }

  /** The queue's mean is the new average: (old value + added value) / contracts. */
  lemma MeanExtends(prices: seq<real>, avg: real, p: real, qty: nat)
    requires avg * |prices| as real == Sum(prices) && qty >= 1
    ensures (avg * |prices| as real + p * qty as real) / (|prices| + qty) as real * (|prices| + qty) as real
            == Sum(prices + Repeat(p, qty))
  {
    SumAppend(prices, Repeat(p, qty));
    SumRepeat(p, qty);
    AverageTimesCount(Sum(prices) + p * qty as real, |prices| + qty);
  }

  /** Adding to a position in its own direction, or opening one. */
  predicate MayEnter(cfg: Config, b: Book, side: int) {
    && (side == 1 || side == -1)
    && (b.mp == 0 || b.mp == side)
    && (b.mp == side ==> cfg.cap <= 0 || OpenEntries(b) < cfg.cap)
  }

  lemma EnterKeepsAverage(cfg: Config, st: State, side: int, qty: nat, price: real, bar: int, name: string)
    requires Exact(cfg) && BookInvariant(st.book) && qty >= 1
    ensures var b' := Enter(cfg, st, side, qty, price, bar, name).book;
            b'.entryPrice * b'.contracts as real == Sum(b'.prices)
  {
    var b := st.book;
    MeanExtends(b.prices, b.entryPrice, price, qty);
    assert F32(cfg, b.entryPrice * b.contracts as real) == b.entryPrice * b.contracts as real;
  }

  lemma EnterKeepsBook(cfg: Config, st: State, side: int, qty: nat, price: real, bar: int, name: string)
    requires Exact(cfg) && BookInvariant(st.book) && CapInvariant(cfg, st.book) && qty >= 1
    requires MayEnter(cfg, st.book, side)
    ensures var b' := Enter(cfg, st, side, qty, price, bar, name).book;
            BookInvariant(b') && CapInvariant(cfg, b') && b'.mp == side && b'.contracts == st.book.contracts + qty
  {
    var b := st.book;
    EnterKeepsAverage(cfg, st, side, qty, price, bar, name);
    if b.contracts == 0 {
      assert SumNat([qty]) == qty;
    } else {
      QueueExtends(b.qtys, b.labels, b.contracts, qty, name);
    }
  }

  lemma EnterKeepsLedger(cfg: Config, st: State, side: int, qty: nat, price: real, bar: int, name: string)
    requires BookInvariant(st.book) && LedgerInvariant(st.book.mp, st.ledger) && qty >= 1
    requires MayEnter(cfg, st.book, side)
    ensures var st' := Enter(cfg, st, side, qty, price, bar, name);
            LedgerInvariant(st'.book.mp, st'.ledger)
            && st'.ledger.stats == st.ledger.stats && st'.ledger.closed == st.ledger.closed
  {
  }

  lemma EnterKeepsSound(cfg: Config, st: State, side: int, qty: nat, price: real, bar: int, name: string)
    requires Exact(cfg) && Sound(cfg, st) && qty >= 1
    requires MayEnter(cfg, st.book, side)
    ensures Sound(cfg, Enter(cfg, st, side, qty, price, bar, name))
  {
    EnterKeepsBook(cfg, st, side, qty, price, bar, name);
    EnterKeepsLedger(cfg, st, side, qty, price, bar, name);
  }

  /** FIFO consumption of `q` contracts leaves a queue for the rest. */
  lemma {:induction false} ConsumeKeepsQueue(qtys: seq<nat>, labels: seq<string>, contracts: nat, q: nat)
    requires QueueInvariant(qtys, labels, contracts) && q <= contracts
    ensures var r := Consume(qtys, labels, q);
            QueueInvariant(r.0, r.1, contracts - q) && |r.0| <= |qtys|
    decreases |qtys|
  {
    if q == 0 || qtys == [] {
    } else if q < qtys[0] {
      assert ([qtys[0] - q] + qtys[1..])[1..] == qtys[1..];
    } else {
      ConsumeKeepsQueue(qtys[1..], labels[1..], contracts - qtys[0], q - qtys[0]);
    }
  }

  /** Closing is whole, or a FIFO part of a long position. */
  predicate MayExit(b: Book, q: nat, consume: bool) {
    b.mp != 0 && q <= b.contracts && (q < b.contracts ==> consume && b.mp > 0)
  }

  lemma ExitKeepsBook(cfg: Config, st: State, q: nat, price: real, exitBar: int, consume: bool)
    requires Exact(cfg) && BookInvariant(st.book) && CapInvariant(cfg, st.book)
    requires MayExit(st.book, q, consume)
    ensures var b' := Exit(cfg, st, q, price, exitBar, consume).book;
            BookInvariant(b') && CapInvariant(cfg, b')
            && b'.contracts == st.book.contracts - q
            && b'.mp == (if q == st.book.contracts then 0 else st.book.mp)
            && b'.prices == st.book.prices[q..]
  {
    var b := st.book;
    ConsumeKeepsQueue(b.qtys, b.labels, b.contracts, q);
    if q < b.contracts {
      var rest := b.prices[q..];
      AverageTimesCount(Sum(rest), |rest|);
      assert F32(cfg, Sum(rest) / |rest| as real) == Sum(rest) / |rest| as real;
    }
  }

  lemma RecordTradePnl(cfg: Config, b: Book, l: Ledger, exitBar: int, price: real, size: nat)
    ensures var l' := RecordTrade(cfg, b, l, exitBar, price, size);
            SumPnl(l'.closed) == SumPnl(l.closed) + l.positionProfit
  {
    var t := TradeOf(cfg, b, l.positionProfit, exitBar, price, size);
    assert (l.closed + [t])[..|l.closed|] == l.closed;
  }

  lemma RecordTradeStats(cfg: Config, b: Book, l: Ledger, exitBar: int, price: real, size: nat)
    requires StatsInvariant(l.stats, l.closed)
    ensures var l' := RecordTrade(cfg, b, l, exitBar, price, size);
            StatsInvariant(l'.stats, l'.closed)
  {
    RecordStatsIsRescan(l.stats, l.closed, TradeOf(cfg, b, l.positionProfit, exitBar, price, size));
  }

  lemma ExitKeepsLedger(cfg: Config, st: State, q: nat, price: real, exitBar: int, consume: bool)
    requires BookInvariant(st.book) && LedgerInvariant(st.book.mp, st.ledger)
    requires MayExit(st.book, q, consume)
    ensures var st' := Exit(cfg, st, q, price, exitBar, consume);
            LedgerInvariant(st'.book.mp, st'.ledger)
  {
    var l := Realised(cfg, st.book, st.ledger, q, price);
    assert l.net == l.grossProfit + l.grossLoss && l.grossProfit >= 0.0 >= l.grossLoss;
    assert l.net == SumPnl(l.closed) + l.positionProfit;
    RecordTradePnl(cfg, Closing(st.book, q, consume), l, exitBar, price, q);
  }

  lemma ExitKeepsStats(cfg: Config, st: State, q: nat, price: real, exitBar: int, consume: bool)
    requires StatsInvariant(st.ledger.stats, st.ledger.closed)
    requires q <= st.book.contracts
    ensures var l' := Exit(cfg, st, q, price, exitBar, consume).ledger;
            StatsInvariant(l'.stats, l'.closed)
  {
    var l := Realised(cfg, st.book, st.ledger, q, price);
    RecordTradeStats(cfg, Closing(st.book, q, consume), l, exitBar, price, q);
  }

  /** Closing contracts keeps every account, whether or not the entry queue is consumed:
      a queue left stale belongs to a position that is gone. */
  lemma ExitKeepsSound(cfg: Config, st: State, q: nat, price: real, exitBar: int, consume: bool)
    requires Exact(cfg) && Sound(cfg, st) && MayExit(st.book, q, consume)
    ensures Sound(cfg, Exit(cfg, st, q, price, exitBar, consume))
  {
    ExitKeepsBook(cfg, st, q, price, exitBar, consume);
    ExitKeepsLedger(cfg, st, q, price, exitBar, consume);
    ExitKeepsStats(cfg, st, q, price, exitBar, consume);
  }
}
