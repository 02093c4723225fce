/** The fill log against the engine's own books, operation by operation. */
module EngineLedgers {
  import opened Sequences
  import opened EngineModel
  import opened EngineInvariants
  import opened Oracle

  /** The auditor's open book is the engine's price queue on the position's side, and the
      engine's net profit is the auditor's FIFO profit plus the basis gap of partial exits. */
  ghost predicate Mirrors(t: Tally, b: Book, l: Ledger, pv: real) {
    && t.longs == (if b.mp > 0 then b.prices else [])
    && t.shorts == (if b.mp < 0 then b.prices else [])
    && Balanced(t, l, pv)
    && (l.partials == 0 ==> l.gap == 0.0)
  }

  ghost predicate Balanced(t: Tally, l: Ledger, pv: real) {
    l.net == Sum(t.pnls) + pv * l.gap
  }

  /** Everything the engine keeps while trading. */
  ghost predicate Faithful(cfg: Config, st: State) {
    && Sound(cfg, st) && Mirrors(Replay(st.fills, cfg.pv), st.book, st.ledger, cfg.pv)
    && st.ledger.maxHeld == MostHeld(st.fills)
  }

  /** The log holds the position. */
  lemma LogHoldsPosition(fills: seq<Fill>, b: Book, l: Ledger, pv: real)
    requires Mirrors(Replay(fills, pv), b, l, pv) && BookInvariant(b)
    ensures Moved(fills) == Signed(b)
  {
    hide Replay, Moved, Balanced, QueueInvariant;
    ReplayNeverFails(fills, pv);
    MovedIsPosition(fills, pv);
  }

  lemma FreshMirrors(fills: seq<Fill>, b: Book, l: Ledger, pv: real)
    requires fills == [] && b == EMPTY_BOOK && l == EMPTY_LEDGER
    ensures Mirrors(Replay(fills, pv), b, l, pv) && l.maxHeld == MostHeld(fills)
  {
  }

  lemma FreshIsFaithful(cfg: Config, st: State)
    requires st == FRESH
    ensures Faithful(cfg, st)
  {
    assert st.fills == [] && st.book == EMPTY_BOOK && st.ledger == EMPTY_LEDGER;
    hide EMPTY_BOOK, EMPTY_LEDGER, FRESH, Sound, Mirrors, Replay, MostHeld;
    FreshIsSound(cfg, st);
    FreshMirrors(st.fills, st.book, st.ledger, cfg.pv);
  }

  lemma ProfitIdentity(pv: real, entry: real, price: real, n: real, total: real)
    ensures (price - entry) * pv * n == pv * (price * n - total) + pv * (total - n * entry)
    ensures (entry - price) * pv * n == pv * (total - price * n) - pv * (total - n * entry)
  {
  }

  /** What the FIFO basis of the `q` oldest contracts exceeds their average basis by. */
  function BasisGap(b: Book, q: nat): real
    requires q <= |b.prices|
  {
    Sum(b.prices[..q]) - q as real * b.entryPrice
  }

  /** Closing `q` contracts moves the engine's average-price profit and the auditor's FIFO
      profit alike, except for the basis gap. */
  lemma ExitProfit(cfg: Config, b: Book, q: nat, price: real)
    requires q <= |b.prices|
    requires b.mp > 0 || BasisGap(b, q) == 0.0
    ensures ExitPnl(cfg, b, q, price)
            == FifoGain(b.prices[..q], !(b.mp > 0), price, cfg.pv) + cfg.pv * BasisGap(b, q)
  {
    hide FifoGain, Sum;
    FifoGainTotal(b.prices[..q], !(b.mp > 0), price, cfg.pv);
    ProfitIdentity(cfg.pv, b.entryPrice, price, q as real, Sum(b.prices[..q]));
  }

  lemma FullExitHasNoGap(b: Book)
    requires BookInvariant(b)
    ensures BasisGap(b, b.contracts) == 0.0
  {
    assert b.prices[..b.contracts] == b.prices;
  }

  // ---- One leg of an order with its log records -------------------------------

  lemma EnterMirrors(t: Tally, t': Tally, cfg: Config, st: State, side: int, qty: nat, price: real, bar: int,
                     name: string)
    requires Exact(cfg) && Mirrors(t, st.book, st.ledger, cfg.pv) && qty >= 1
    requires BookInvariant(st.book) && MayEnter(cfg, st.book, side)
    requires Opposite(t', side == 1) == [] && Same(t', side == 1) == Same(t, side == 1) + Repeat(price, qty)
    requires t'.pnls == t.pnls
    ensures var st' := Enter(cfg, st, side, qty, price, bar, name);
            Mirrors(t', st'.book, st'.ledger, cfg.pv)
  {
    assert [] + Repeat(price, qty) == Repeat(price, qty);
  }

  lemma EnterHolds(cfg: Config, st: State, side: int, qty: nat, price: real, bar: int, name: string, f: Fill)
    requires Faithful(cfg, st) && qty >= 1 && MayEnter(cfg, st.book, side) && f.buy == (side == 1)
    ensures Enter(cfg, st, side, qty, price, bar, name).ledger.maxHeld == MostHeld(st.fills + Repeat(f, qty))
  {
    LogHoldsPosition(st.fills, st.book, st.ledger, cfg.pv);
    hide StatsInvariant, LedgerInvariant, Mirrors, CapInvariant, QueueInvariant, Replay, MostHeld, NewAverage, Moved;
    OpeningHoldsMore(st.fills, f, qty);
  }

  /** An entry leg logged as `qty` records on its side. */
  lemma EnterKeepsFaithful(cfg: Config, st: State, side: int, qty: nat, price: real, bar: int, name: string, f: Fill)
    requires Exact(cfg) && Faithful(cfg, st) && qty >= 1 && MayEnter(cfg, st.book, side)
    requires f.price == price && f.buy == (side == 1)
    ensures Faithful(cfg, Enter(cfg, st, side, qty, price, bar, name).(fills := st.fills + Repeat(f, qty)))
  {
    EnterKeepsSound(cfg, st, side, qty, price, bar, name);
    EnterHolds(cfg, st, side, qty, price, bar, name, f);
    ReplayOpens(st.fills, f, qty, cfg.pv);
    EnterMirrors(Replay(st.fills, cfg.pv), Replay(st.fills + Repeat(f, qty), cfg.pv), cfg, st, side, qty, price, bar,
                 name);
  }

  /** How an exit moves the engine's money: by the realised gain, all of it accounted. */
  lemma ExitMoney(cfg: Config, st: State, q: nat, price: real, exitBar: int, consume: bool)
    requires BookInvariant(st.book) && MayExit(st.book, q, consume)
    ensures var b, l' := st.book, Exit(cfg, st, q, price, exitBar, consume).ledger;
            && l'.net == st.ledger.net + ExitPnl(cfg, b, q, price)
            && l'.gap == st.ledger.gap + (if q < b.contracts then BasisGap(b, q) else 0.0)
            && l'.partials == st.ledger.partials + (if q < b.contracts then 1 else 0)
  {
  }

  lemma NetStep(net: real, fifo: real, pv: real, gap: real, gain: real, basis: real, net': real, fifo': real,
                gap': real)
    requires net == fifo + pv * gap && net' == net + (gain + pv * basis)
    requires fifo' == fifo + gain && gap' == gap + basis
    ensures net' == fifo' + pv * gap'
  {
    Distribute(pv, gap, basis);
  }

  lemma BalancedStep(t: Tally, t': Tally, l: Ledger, l': Ledger, pv: real, gain: real, basis: real)
    requires Balanced(t, l, pv) && Sum(t'.pnls) == Sum(t.pnls) + gain
    requires l'.net == l.net + (gain + UnitMoney(basis, pv)) && l'.gap == l.gap + basis
    ensures Balanced(t', l', pv)
  {
    NetStep(l.net, Sum(t.pnls), pv, l.gap, gain, basis, l'.net, Sum(t'.pnls), l'.gap);
  }

  /** The engine realises the FIFO gain plus the basis gap, which a full exit has none of. */
  lemma ExitMoves(cfg: Config, st: State, q: nat, price: real, exitBar: int, consume: bool)
    requires BookInvariant(st.book) && MayExit(st.book, q, consume)
    ensures var b, l, l' := st.book, st.ledger, Exit(cfg, st, q, price, exitBar, consume).ledger;
            var gain, basis := FifoGain(b.prices[..q], b.mp < 0, price, cfg.pv), BasisGap(b, q);
            l'.net == l.net + (gain + UnitMoney(basis, cfg.pv)) && l'.gap == l.gap + basis
  {
    if q == st.book.contracts {
      FullExitHasNoGap(st.book);
    }
    ExitMoney(cfg, st, q, price, exitBar, consume);
    hide Exit, ExitPnl, FifoGain, BasisGap, Sum, QueueInvariant;
    ExitProfit(cfg, st.book, q, price);
  }

  lemma ExitBalanced(t: Tally, t': Tally, cfg: Config, st: State, q: nat, price: real, exitBar: int, consume: bool)
    requires Balanced(t, st.ledger, cfg.pv)
    requires BookInvariant(st.book) && MayExit(st.book, q, consume)
    requires Sum(t'.pnls) == Sum(t.pnls) + FifoGain(st.book.prices[..q], st.book.mp < 0, price, cfg.pv)
    ensures Balanced(t', Exit(cfg, st, q, price, exitBar, consume).ledger, cfg.pv)
  {
    assert |st.book.prices| == st.book.contracts;
    hide Exit, FifoGain, BasisGap, Sum, BookInvariant, MayExit, Balanced, UnitMoney;
    ExitMoves(cfg, st, q, price, exitBar, consume);
    var gain, basis := FifoGain(st.book.prices[..q], st.book.mp < 0, price, cfg.pv), BasisGap(st.book, q);
    BalancedStep(t, t', st.ledger, Exit(cfg, st, q, price, exitBar, consume).ledger, cfg.pv, gain, basis);
  }

  lemma ExitMirrors(t: Tally, t': Tally, cfg: Config, st: State, q: nat, price: real, exitBar: int, consume: bool)
    requires Exact(cfg) && Mirrors(t, st.book, st.ledger, cfg.pv) && CapInvariant(cfg, st.book)
    requires BookInvariant(st.book) && MayExit(st.book, q, consume)
    requires Opposite(t', st.book.mp < 0) == st.book.prices[q..] && Same(t', st.book.mp < 0) == []
    requires Sum(t'.pnls) == Sum(t.pnls) + FifoGain(st.book.prices[..q], st.book.mp < 0, price, cfg.pv)
    ensures var st' := Exit(cfg, st, q, price, exitBar, consume);
            Mirrors(t', st'.book, st'.ledger, cfg.pv)
  {
    ExitBalanced(t, t', cfg, st, q, price, exitBar, consume);
    hide Exit, ExitPnl, FifoGain, BasisGap, QueueInvariant, CapInvariant, Balanced;
    ExitMoney(cfg, st, q, price, exitBar, consume);
    ExitKeepsBook(cfg, st, q, price, exitBar, consume);
  }

  lemma ExitHolds(cfg: Config, st: State, q: nat, price: real, exitBar: int, consume: bool, f: Fill)
    requires Faithful(cfg, st) && MayExit(st.book, q, consume) && f.buy == (st.book.mp < 0)
    ensures Exit(cfg, st, q, price, exitBar, consume).ledger.maxHeld == MostHeld(st.fills + Repeat(f, q))
  {
    LogHoldsPosition(st.fills, st.book, st.ledger, cfg.pv);
    hide StatsInvariant, LedgerInvariant, Mirrors, CapInvariant, QueueInvariant, Replay, MostHeld, Moved, Reaveraged,
         TradeOf, RecordStats, Consume, ExitPnl;
    ClosingHoldsLess(st.fills, f, q);
  }

  /** An exit leg logged as `q` records on the other side. */
  lemma ExitKeepsFaithful(cfg: Config, st: State, q: nat, price: real, exitBar: int, consume: bool, f: Fill)
    requires Exact(cfg) && Faithful(cfg, st) && MayExit(st.book, q, consume)
    requires f.price == price && f.buy == (st.book.mp < 0)
    ensures Faithful(cfg, Exit(cfg, st, q, price, exitBar, consume).(fills := st.fills + Repeat(f, q)))
  {
    ExitKeepsSound(cfg, st, q, price, exitBar, consume);
    ExitHolds(cfg, st, q, price, exitBar, consume, f);
    ReplayCloses(st.fills, f, q, cfg.pv);
    ExitMirrors(Replay(st.fills, cfg.pv), Replay(st.fills + Repeat(f, q), cfg.pv), cfg, st, q, price, exitBar, consume);
  }

  // ---- Whole orders -----------------------------------------------------------

  /** A reversal closes the whole position and opens `qty` the other way, logged as one run
      of records on the order's side. */
  lemma ReverseKeepsFaithful(cfg: Config, st: State, qty: nat, price: real, bar: int, name: string, f: Fill,
                             consume: bool)
    requires Exact(cfg) && Faithful(cfg, st) && st.book.mp != 0 && qty >= 1
    requires f.price == price && f.buy == (st.book.mp < 0)
    ensures var n := st.book.contracts;
            var st1 := Exit(cfg, st, n, price, bar, consume);
            var st2 := Enter(cfg, st1, -st.book.mp, qty, price, bar, name);
            Faithful(cfg, st2.(fills := st.fills + Repeat(f, n + qty)))
              && Distance(Signed(st2.book), Signed(st.book)) == n + qty
  {
    hide StatsInvariant, LedgerInvariant, Mirrors, CapInvariant, QueueInvariant, Replay;
    var n := st.book.contracts;
    ExitKeepsFaithful(cfg, st, n, price, bar, consume, f);
    ExitKeepsBook(cfg, st, n, price, bar, consume);
    var st1 := Exit(cfg, st, n, price, bar, consume).(fills := st.fills + Repeat(f, n));
    EnterKeepsFaithful(cfg, st1, -st.book.mp, qty, price, bar, name, f);
    EnterKeepsBook(cfg, st1, -st.book.mp, qty, price, bar, name);
    assert Enter(cfg, Exit(cfg, st, n, price, bar, consume), -st.book.mp, qty, price, bar, name)
           == Enter(cfg, st1, -st.book.mp, qty, price, bar, name).(fills := st.fills);
    assert st.fills + Repeat(f, n) + Repeat(f, qty) == st.fills + Repeat(f, n + qty);
  }

  lemma BuyKeepsFaithful(cfg: Config, st: State, o: Order, qty: nat, price: real, bar: int)
    requires Exact(cfg) && Faithful(cfg, st) && qty >= 1 && o.action == Buy
    ensures Faithful(cfg, Execute(cfg, st, o, qty, price, bar))
  {
    hide StatsInvariant, LedgerInvariant, Mirrors, CapInvariant, QueueInvariant, Replay;
    var f := Fill(true, o.tag, price);
    if st.book.mp < 0 {
      assert F32(cfg, price) == price;
      ReverseKeepsFaithful(cfg, st, qty, price, bar, o.tag, f, false);
    } else if !EntryRefused(cfg, st.book, Buy) {
      EnterKeepsFaithful(cfg, st, 1, qty, price, bar, o.tag, f);
    }
  }

  lemma SellShortKeepsFaithful(cfg: Config, st: State, o: Order, qty: nat, price: real, bar: int)
    requires Exact(cfg) && Faithful(cfg, st) && qty >= 1 && o.action == SellShort
    ensures Faithful(cfg, Execute(cfg, st, o, qty, price, bar))
  {
    hide StatsInvariant, LedgerInvariant, Mirrors, CapInvariant, QueueInvariant, Replay;
    var f := Fill(false, o.tag, price);
    if st.book.mp > 0 {
      ReverseKeepsFaithful(cfg, st, qty, price, bar, o.tag, f, true);
    } else if !EntryRefused(cfg, st.book, SellShort) {
      EnterKeepsFaithful(cfg, st, -1, qty, price, bar, o.tag, f);
    }
  }

  lemma ClosingKeepsFaithful(cfg: Config, st: State, o: Order, qty: nat, price: real, bar: int)
    requires Exact(cfg) && Faithful(cfg, st) && qty >= 1 && (o.action == Sell || o.action == BuyToCover)
    ensures Faithful(cfg, Execute(cfg, st, o, qty, price, bar))
  {
    hide StatsInvariant, LedgerInvariant, Mirrors, CapInvariant, QueueInvariant, Replay;
    var n := st.book.contracts;
    if o.action == Sell && st.book.mp > 0 {
      var q := if qty < n then qty else n;
      ExitKeepsFaithful(cfg, st, q, price, bar, true, Fill(false, o.tag, price));
      ExitKeepsBook(cfg, st, q, price, bar, true);
    } else if o.action == BuyToCover && st.book.mp < 0 {
      assert F32(cfg, price) == price;
      ExitKeepsFaithful(cfg, st, n, price, bar, false, Fill(true, o.tag, price));
      ExitKeepsBook(cfg, st, n, price, bar, false);
    } else {
      assert st.fills + Repeat(Fill(o.action == BuyToCover, o.tag, price), 0) == st.fills;
    }
  }

  lemma ExecuteKeepsFaithful(cfg: Config, st: State, o: Order, qty: nat, price: real, bar: int)
    requires Exact(cfg) && Faithful(cfg, st) && qty >= 1
    ensures Faithful(cfg, Execute(cfg, st, o, qty, price, bar))
  {
    match o.action
    case Buy => BuyKeepsFaithful(cfg, st, o, qty, price, bar);
    case SellShort => SellShortKeepsFaithful(cfg, st, o, qty, price, bar);
    case Sell => ClosingKeepsFaithful(cfg, st, o, qty, price, bar);
    case BuyToCover => ClosingKeepsFaithful(cfg, st, o, qty, price, bar);
    case UnknownAction =>
      assert st.fills + Repeat(Fill(false, o.tag, price), 0) == st.fills;
  }

  lemma CloseAtStopKeepsFaithful(cfg: Config, st: State, price: real, signal: string, exitBar: int)
    requires Exact(cfg) && Faithful(cfg, st)
    ensures Faithful(cfg, CloseAtStop(cfg, st, price, signal, exitBar))
  {
    if st.book.mp != 0 {
      var n := st.book.contracts;
      ExitKeepsFaithful(cfg, st, n, price, exitBar, false, Fill(st.book.mp < 0, signal, price));
      ExitKeepsBook(cfg, st, n, price, exitBar, false);
    }
  }

  // ---- When the two profits part ----------------------------------------------

  function Fifo(cfg: Config, st: State): real {
    Sum(Replay(st.fills, cfg.pv).pnls)
  }

  /** The gap a `Sell` of `qty` opens: none when it empties the position. */
  function SellGap(b: Book, qty: nat): real
    requires b.contracts == |b.prices|
  {
    if qty < b.contracts then BasisGap(b, qty) else 0.0
  }

  lemma ProductIsZero(a: real, b: real)
    requires a != 0.0
    ensures a * b == 0.0 <==> b == 0.0
  {
  }

  /** The engine's and the auditor's net profit are the same exactly when the gap is closed. */
  lemma AgreementMeansNoGap(cfg: Config, st: State)
    requires Faithful(cfg, st) && cfg.pv != 0.0
    ensures st.ledger.net == Fifo(cfg, st) <==> st.ledger.gap == 0.0
  {
    hide StatsInvariant, LedgerInvariant, CapInvariant, BookInvariant, Replay, Sum;
    ProductIsZero(cfg.pv, st.ledger.gap);
  }

  /** Two profits that agree before a sale agree after it exactly when the sale empties the
      position or the contracts it takes cost, first in first out, what they cost on average. */
  lemma SaleKeepsAgreement(cfg: Config, st: State, o: Order, qty: nat, price: real, bar: int)
    requires Exact(cfg) && Faithful(cfg, st) && cfg.pv != 0.0 && qty >= 1
    requires o.action == Sell && st.book.mp > 0 && st.ledger.net == Fifo(cfg, st)
    ensures st.book.contracts == |st.book.prices|
    ensures var st' := Execute(cfg, st, o, qty, price, bar);
            st'.ledger.net == Fifo(cfg, st') <==> SellGap(st.book, qty) == 0.0
  {
    assert BookInvariant(st.book) by { hide StatsInvariant, LedgerInvariant, CapInvariant, QueueInvariant, Mirrors; }
    assert st.book.contracts == |st.book.prices|;
    hide Faithful, Execute, BasisGap, Fifo, BookInvariant, Exact;
    ExecuteKeepsFaithful(cfg, st, o, qty, price, bar);
    AgreementMeansNoGap(cfg, st);
    AgreementMeansNoGap(cfg, Execute(cfg, st, o, qty, price, bar));
    SaleGap(cfg, st, o, qty, price, bar);
  }

  lemma SaleGap(cfg: Config, st: State, o: Order, qty: nat, price: real, bar: int)
    requires BookInvariant(st.book) && qty >= 1 && o.action == Sell && st.book.mp > 0
    ensures Execute(cfg, st, o, qty, price, bar).ledger.gap == st.ledger.gap + SellGap(st.book, qty)
  {
    hide QueueInvariant;
    var q := if qty < st.book.contracts then qty else st.book.contracts;
    ExitMoney(cfg, st, q, price, bar, true);
    hide Exit, BasisGap;
  }

  /** Long one contract at 100 and one at 110, selling one: the engine books it against 105,
      the auditor against 100, and the two profits part. */
  lemma ProfitsCanPart(cfg: Config, st: State, o: Order, price: real, bar: int)
    requires Exact(cfg) && Faithful(cfg, st) && cfg.pv != 0.0
    requires o.action == Sell && st.book.mp > 0 && st.ledger.net == Fifo(cfg, st)
    requires st.book.prices == [100.0, 110.0]
    ensures var st' := Execute(cfg, st, o, 1, price, bar);
            st'.ledger.net != Fifo(cfg, st')
  {
    var b := st.book;
    assert BookInvariant(b) by { hide StatsInvariant, LedgerInvariant, CapInvariant, QueueInvariant, Mirrors; }
    hide Faithful, QueueInvariant;
    SumSnoc([100.0], 110.0);
    SumSnoc([], 100.0);
    assert [] + [100.0] == [100.0] && [100.0] + [110.0] == b.prices && b.prices[..1] == [100.0];
    assert b.entryPrice * 2.0 == 210.0;
    SaleKeepsAgreement(cfg, st, o, 1, price, bar);
  }
}
