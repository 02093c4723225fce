/** What entries and exits do to the accounts: money booked contract by contract, the oldest contracts
    sold first, and a position's own records started afresh with it. */
module Accounts {
  import opened Sequences
  import opened EngineModel
  import opened StopWalk
  import opened EngineRun
  import opened EngineInvariants
  import opened EngineLedgers
  import opened EngineTheorems
  import opened StopRuns
  import opened StopTheorems
  import opened Valuation
  import opened Verbs
  import opened Sessions

  // ---- Whose contracts ------------------------------------------------------------------------------

  /** The label of the entry behind each contract, oldest first. */
  function Owners(qtys: seq<nat>, labels: seq<string>): seq<string>
    requires |labels| == |qtys|
  {
    if qtys == [] then [] else Repeat(labels[0], qtys[0]) + Owners(qtys[1..], labels[1..])
  }

  lemma {:induction false} OwnersCount(qtys: seq<nat>, labels: seq<string>)
    requires |labels| == |qtys|
    ensures |Owners(qtys, labels)| == SumNat(qtys)
  {
    if qtys != [] {
      OwnersCount(qtys[1..], labels[1..]);
    }
  }

  lemma RepeatDrops<T>(x: T, n: nat, q: nat)
    requires q <= n
    ensures Repeat(x, n)[q..] == Repeat(x, n - q)
  {
  }

  /** Consuming `q` contracts takes the `q` oldest, whoever's they are. */
  lemma {:induction false} ConsumesOldest(qtys: seq<nat>, labels: seq<string>, q: nat)
    requires |labels| == |qtys| && q <= SumNat(qtys)
    ensures var r := Consume(qtys, labels, q);
            |r.0| == |r.1| && q <= |Owners(qtys, labels)| && Owners(r.0, r.1) == Owners(qtys, labels)[q..]
    decreases |qtys|
  {
    OwnersCount(qtys, labels);
    if q != 0 && qtys != [] {
      var first, rest := Repeat(labels[0], qtys[0]), Owners(qtys[1..], labels[1..]);
      assert Owners(qtys, labels) == first + rest;
      if q < qtys[0] {
        RepeatDrops(labels[0], qtys[0], q);
        assert (first + rest)[q..] == first[q..] + rest;
        assert ([qtys[0] - q] + qtys[1..])[1..] == qtys[1..];
      } else {
        ConsumesOldest(qtys[1..], labels[1..], q - qtys[0]);
        assert (first + rest)[q..] == rest[q - qtys[0]..];
      }
    }
  }

  lemma {:induction false} OwnersAppend(qtys: seq<nat>, labels: seq<string>, n: nat, name: string)
    requires |labels| == |qtys|
    ensures Owners(qtys + [n], labels + [name]) == Owners(qtys, labels) + Repeat(name, n)
  {
    if qtys == [] {
      assert Owners([n], [name]) == Repeat(name, n) + Owners([], []);
    } else {
      assert (qtys + [n])[1..] == qtys[1..] + [n] && (labels + [name])[1..] == labels[1..] + [name];
      OwnersAppend(qtys[1..], labels[1..], n, name);
    }
  }

  // ---- Money -------------------------------------------------------------------------------------------

  /** One closing of `money`: it counts as one trade, and as profit or loss. */
  predicate Books(l: Ledger, l': Ledger, money: real) {
    && l'.net == l.net + money && l'.totalTrades == l.totalTrades + 1
    && l'.grossProfit == (if money > 0.0 then l.grossProfit + money else l.grossProfit)
    && l'.grossLoss == (if money < 0.0 then l.grossLoss + money else l.grossLoss)
  }

  /** No money moved. */
  predicate SameBooks(l: Ledger, l': Ledger) {
    && l'.net == l.net && l'.totalTrades == l.totalTrades && l'.grossProfit == l.grossProfit
    && l'.grossLoss == l.grossLoss && l'.closed == l.closed && l'.stats == l.stats
  }

  lemma ExitBooks(cfg: Config, st: State, q: nat, price: real, bar: int, consume: bool, d: real)
    requires Open(st.book) && 1 <= q <= st.book.contracts && PerContractWorth(cfg, st, price, d)
    ensures var l, l' := st.ledger, Exit(cfg, st, q, price, bar, consume).ledger;
            && Books(l, l', d * q as real)
            && |l'.closed| == |l.closed| + (if q == st.book.contracts then 1 else 0)
            && l'.positionProfit == (if q == st.book.contracts then 0.0 else l.positionProfit + d * q as real)
            && l'.maxHeld == l.maxHeld
  {
    UnitIsWorth(cfg, st, price);
    UnitOrdered(cfg, st, price, d, price, UnitAt(cfg, st.book, price));
    UnitOrdered(cfg, st, price, UnitAt(cfg, st.book, price), price, d);
    assert ExitPnl(cfg, st.book, q, price) == d * q as real;
    hide PerContractWorth, ExitPnl, TradeOf, RecordStats, Consume, UnitAt;
  }

  /** How many contracts of the position `held` are gone when it is `left`. */
  function Gone(held: int, left: int): nat {
    if held > 0 then if left <= 0 then held else if left < held then held - left else 0
    else if held < 0 then if left >= 0 then -held else if left > held then left - held else 0
    else 0
  }

  lemma EnterBooks(cfg: Config, st: State, side: int, qty: nat, price: real, bar: int, name: string)
    requires qty >= 1
    ensures SameBooks(st.ledger, Enter(cfg, st, side, qty, price, bar, name).ledger)
  {
    hide NewAverage;
  }

  /** What a fill that leaves `st'` does to the money: the contracts gone, each at what closing one was
      worth, as one trade; the position's record when none is left; and nothing when none is gone. */
  predicate Settled(st: State, st': State, d: real) {
    var held := Signed(st.book);
    var gone := Gone(held, Signed(st'.book));
    if gone == 0 then SameBooks(st.ledger, st'.ledger)
    else
      && Books(st.ledger, st'.ledger, d * gone as real)
      && |st'.ledger.closed| == |st.ledger.closed| + (if gone == Size(held) then 1 else 0)
  }

  lemma MovesSettle(st: State, l: Ledger, st': State, q: nat, d: real)
    requires q >= 1 && q == Gone(Signed(st.book), Signed(st'.book))
    requires Books(st.ledger, l, d * q as real) && SameBooks(l, st'.ledger)
    requires |l.closed| == |st.ledger.closed| + (if q == Size(Signed(st.book)) then 1 else 0)
    ensures Settled(st, st', d)
  {
    hide Signed, Gone, Size;
  }

  lemma NothingSettles(st: State, st': State, d: real)
    requires Gone(Signed(st.book), Signed(st'.book)) == 0 && SameBooks(st.ledger, st'.ledger)
    ensures Settled(st, st', d)
  {
    hide Signed, Gone, Size;
  }

  /** The same entry after all of the other side is closed. */
  lemma TurnSettles(cfg: Config, st: State, side: int, qty: nat, price: real, bar: int, tag: string, consume: bool,
                    d: real)
    requires qty >= 1 && Open(st.book) && side == -st.book.mp && PerContractWorth(cfg, st, price, d)
    ensures var st1 := Exit(cfg, st, st.book.contracts, price, bar, consume);
            Settled(st, Enter(cfg, st1, side, qty, price, bar, tag), d)
  {
    var n := st.book.contracts;
    var st1 := Exit(cfg, st, n, price, bar, consume);
    assert st1.book.contracts == 0;
    var st' := Enter(cfg, st1, side, qty, price, bar, tag);
    assert Signed(st'.book) == side * qty && Signed(st.book) == st.book.mp * n;
    hide Exit, Enter, PerContractWorth, Settled, Signed, Books, SameBooks;
    ExitBooks(cfg, st, n, price, bar, consume, d);
    EnterBooks(cfg, st1, side, qty, price, bar, tag);
    MovesSettle(st, st1.ledger, st', n, d);
  }

  lemma ExitSigned(cfg: Config, st: State, q: nat, price: real, bar: int, consume: bool)
    requires Open(st.book) && 1 <= q <= st.book.contracts
    ensures Gone(Signed(st.book), Signed(Exit(cfg, st, q, price, bar, consume).book)) == q
    ensures Size(Signed(st.book)) == st.book.contracts
  {
    hide Realised, RecordTrade, PartialHistory, Consume;
  }

  lemma ExitSettles(cfg: Config, st: State, q: nat, price: real, bar: int, consume: bool, d: real)
    requires Open(st.book) && 1 <= q <= st.book.contracts && PerContractWorth(cfg, st, price, d)
    ensures Settled(st, Exit(cfg, st, q, price, bar, consume), d)
  {
    var st' := Exit(cfg, st, q, price, bar, consume);
    ExitSigned(cfg, st, q, price, bar, consume);
    hide Exit, PerContractWorth, Settled, Signed, Books;
    ExitBooks(cfg, st, q, price, bar, consume, d);
    MovesSettle(st, st'.ledger, st', q, d);
  }

  lemma EnterSettles(cfg: Config, st: State, side: int, qty: nat, price: real, bar: int, tag: string, d: real)
    requires qty >= 1 && (side == 1 || side == -1) && (st.book.mp == 0 || (Open(st.book) && st.book.mp == side))
    ensures Settled(st, Enter(cfg, st, side, qty, price, bar, tag), d)
  {
    var st' := Enter(cfg, st, side, qty, price, bar, tag);
    assert Signed(st'.book) == side * (st.book.contracts + qty);
    assert st.book.mp != 0 ==> Signed(st.book) == side * st.book.contracts;
    hide Enter, Settled, Signed, SameBooks;
    EnterBooks(cfg, st, side, qty, price, bar, tag);
    NothingSettles(st, st', d);
  }

  lemma FillBooks(cfg: Config, st: State, action: Action, qty: nat, price: real, bar: int, tag: string, d: real)
    requires Exact(cfg) && BookInvariant(st.book) && qty >= 1
    requires st.book.mp != 0 ==> PerContractWorth(cfg, st, price, d)
    ensures Settled(st, FillOrder(cfg, st, action, qty, price, bar, tag), d)
  {
    InvariantIsOpen(st.book);
    StaysSettled(st, d);
    var n, mp := st.book.contracts, st.book.mp;
    assert F32(cfg, price) == price;
    assert mp == 1 || mp == -1 || mp == 0;
    assert mp != 0 ==> n >= 1;
    hide BookInvariant, Enter, Exit, Exact, PerContractWorth, Settled, Open;
    match action
    case Buy =>
      if mp < 0 {
        TurnSettles(cfg, st, 1, qty, price, bar, tag, false, d);
      } else {
        EnterSettles(cfg, st, 1, qty, price, bar, tag, d);
      }
    case SellShort =>
      if mp > 0 {
        TurnSettles(cfg, st, -1, qty, price, bar, tag, true, d);
      } else {
        EnterSettles(cfg, st, -1, qty, price, bar, tag, d);
      }
    case Sell =>
      if mp > 0 {
        ExitSettles(cfg, st, if qty < n then qty else n, price, bar, true, d);
      }
    case BuyToCover =>
      if mp < 0 {
        ExitSettles(cfg, st, n, price, bar, false, d);
      }
    case UnknownAction =>
  }

  lemma StaysSettled(st: State, d: real)
    ensures Settled(st, st, d)
  {
  }

  lemma LogAside(st: State, st': State, fills: seq<Fill>, d: real)
    requires Settled(st, st', d)
    ensures Settled(st, st'.(fills := fills), d)
  {
    hide Signed;
  }

  lemma InvariantIsOpen(b: Book)
    requires BookInvariant(b)
    ensures b.mp != 0 ==> Open(b)
  {
  }

  /** Every order, in any state the engine can be in. */
  lemma OrderBooks(cfg: Config, st: State, o: Order, qty: nat, price: real, bar: int, d: real)
    requires Exact(cfg) && Faithful(cfg, st) && qty >= 1
    requires Signed(st.book) != 0 ==> PerContractWorth(cfg, st, price, d)
    ensures Settled(st, Execute(cfg, st, o, qty, price, bar), d)
  {
    FaithfulBook(cfg, st);
    SidesOf(st.book);
    StaysSettled(st, d);
    hide Faithful, Exact, PerContractWorth, BookInvariant, CapInvariant, FillOrder, EntryRefused, Signed, Settled;
    if !EntryRefused(cfg, st.book, o.action) {
      FillBooks(cfg, st, o.action, qty, price, bar, o.tag, d);
      LogAside(st, FillOrder(cfg, st, o.action, qty, price, bar, o.tag), Execute(cfg, st, o, qty, price, bar).fills, d);
    }
  }

  // ---- Entries and partial exits --------------------------------------------------------------------------

  predicate Adds(held: int, action: Action) {
    (action == Buy && held > 0) || (action == SellShort && held < 0)
  }

  function Larger(a: nat, b: nat): nat {
    if a < b then b else a
  }

  /** `qty` contracts more at `price`, under `name`: added to what the position `b` holds, or beginning
      a position and its records. A short entry restarts the position's realised profit, as a new
      position does. */
  ghost predicate EnteredInto(b: Book, l: Ledger, st': State, adds: bool, long: bool, qty: nat, price: real,
                              name: string) {
    var b', l', now := st'.book, st'.ledger, Size(Signed(st'.book));
    && (adds ==> |b.labels| == |b.qtys|) && |b'.labels| == |b'.qtys|
    && b'.prices == (if adds then b.prices else []) + Repeat(price, qty)
    && Owners(b'.qtys, b'.labels) == (if adds then Owners(b.qtys, b.labels) else []) + Repeat(name, qty)
    && b'.entries == (if adds then b.entries + 1 else 1)
    && b'.maxContracts == (if adds then Larger(b.maxContracts, now) else now)
    && b'.mfe == (if adds then b.mfe else 0.0) && b'.mae == (if adds then b.mae else 0.0)
    && l'.positionProfit == (if adds && long then l.positionProfit else 0.0)
    && l'.maxHeld == Larger(l.maxHeld, now)
  }

  lemma EnterTells(cfg: Config, st: State, side: int, qty: nat, price: real, bar: int, name: string)
    requires Exact(cfg) && qty >= 1 && (side == 1 || side == -1)
    requires st.book.contracts == 0 ==> st.book.prices == []
    requires st.book.contracts != 0 ==> |st.book.labels| == |st.book.qtys|
    ensures EnteredInto(st.book, st.ledger, Enter(cfg, st, side, qty, price, bar, name), st.book.contracts != 0,
                        side == 1, qty, price, name)
  {
    var b := st.book;
    assert F32(cfg, price) == price;
    if b.contracts != 0 {
      OwnersAppend(b.qtys, b.labels, qty, name);
    } else {
      OwnersAppend([], [], qty, name);
      assert [] + [qty] == [qty] && [] + [name] == [name];
    }
    hide NewAverage, Exact, Owners;
  }

  lemma TurnTells(cfg: Config, st: State, side: int, qty: nat, price: real, bar: int, name: string, consume: bool,
                  d: real)
    requires Exact(cfg) && qty >= 1 && Open(st.book) && side == -st.book.mp && PerContractWorth(cfg, st, price, d)
    requires |st.book.prices| == st.book.contracts
    ensures var st1 := Exit(cfg, st, st.book.contracts, price, bar, consume);
            EnteredInto(st.book, st.ledger, Enter(cfg, st1, side, qty, price, bar, name), false, side == 1, qty, price,
                        name)
  {
    var n := st.book.contracts;
    var st1 := Exit(cfg, st, n, price, bar, consume);
    assert st1.book.contracts == 0 && st1.book.prices == [];
    hide Exit, Enter, PerContractWorth, Exact, Owners, Signed, Size;
    ExitBooks(cfg, st, n, price, bar, consume, d);
    EnterTells(cfg, st1, side, qty, price, bar, name);
  }

  /** Every entry the cap lets through. */
  lemma EntryTells(cfg: Config, st: State, o: Order, qty: nat, price: real, bar: int)
    requires Exact(cfg) && Faithful(cfg, st) && qty >= 1 && !Capped(cfg, st.book, o.action)
    requires o.action == Buy || o.action == SellShort
    ensures var st' := Execute(cfg, st, o, qty, price, bar);
            EnteredInto(st.book, st.ledger, st', Adds(Signed(st.book), o.action), o.action == Buy, qty, price, o.tag)
  {
    FaithfulBook(cfg, st);
    SidesOf(st.book);
    InvariantIsOpen(st.book);
    CappedIsRefused(cfg, st.book, o.action);
    var side := if o.action == Buy then 1 else -1;
    assert st.book.contracts == 0 ==> st.book.prices == [];
    assert F32(cfg, price) == price;
    if st.book.mp != 0 {
      UnitIsWorth(cfg, st, price);
    }
    hide Faithful, Exact, PerContractWorth, CapInvariant, Exit, Enter, EntryRefused, EnteredInto, Open;
    if st.book.mp == -side {
      TurnTells(cfg, st, side, qty, price, bar, o.tag, o.action == SellShort, UnitAt(cfg, st.book, price));
    } else {
      EnterTells(cfg, st, side, qty, price, bar, o.tag);
    }
    hide BookInvariant, Signed, UnitAt;
    var st1 := FillOrder(cfg, st, o.action, qty, price, bar, o.tag);
    EnteredLogAside(st.book, st.ledger, st1, Execute(cfg, st, o, qty, price, bar).fills,
                    Adds(Signed(st.book), o.action), o.action == Buy, qty, price, o.tag);
  }

  lemma EnteredLogAside(b: Book, l: Ledger, st': State, fills: seq<Fill>, adds: bool, long: bool, qty: nat, price: real,
                        name: string)
    requires EnteredInto(b, l, st', adds, long, qty, price, name)
    ensures EnteredInto(b, l, st'.(fills := fills), adds, long, qty, price, name)
  {
    hide Owners, Signed;
  }

  lemma SaleIsExit(cfg: Config, st: State, o: Order, qty: nat, price: real, bar: int)
    requires o.action == Sell && st.book.mp > 0 && 1 <= qty <= st.book.contracts
    ensures var st', st1 := Execute(cfg, st, o, qty, price, bar), Exit(cfg, st, qty, price, bar, true);
            st'.book == st1.book && st'.ledger == st1.ledger
  {
    hide Exit, Signed;
  }

  lemma ExitSheds(cfg: Config, st: State, q: nat, price: real, bar: int)
    requires Exact(cfg) && BookInvariant(st.book) && CapInvariant(cfg, st.book) && st.book.mp > 0
    requires 1 <= q < st.book.contracts
    ensures ShedFrom(st.book, Exit(cfg, st, q, price, bar, true).book, q)
  {
    var b := st.book;
    ConsumesOldest(b.qtys, b.labels, q);
    ExitKeepsBook(cfg, st, q, price, bar, true);
    hide Exact, CapInvariant, Owners, Consume, Realised, PartialHistory, QueueInvariant, Sum;
  }

  /** `b'` is `b` without its `q` oldest contracts, its average entry that of the contracts left. */
  ghost predicate ShedFrom(b: Book, b': Book, q: nat) {
    && b' == b.(contracts := b'.contracts, prices := b'.prices, qtys := b'.qtys, labels := b'.labels,
                entryPrice := b'.entryPrice)
    && b'.contracts == b.contracts - q && q <= |b.prices| && b'.prices == b.prices[q..]
    && b'.entryPrice * b'.contracts as real == Sum(b'.prices)
    && |b.labels| == |b.qtys| && |b'.labels| == |b'.qtys| && q <= |Owners(b.qtys, b.labels)|
    && Owners(b'.qtys, b'.labels) == Owners(b.qtys, b.labels)[q..]
  }

  /** A sale of part of a long position takes its oldest contracts and leaves everything else of the
      position as it was. */
  lemma SaleTells(cfg: Config, st: State, o: Order, qty: nat, price: real, bar: int, d: real)
    requires Exact(cfg) && Faithful(cfg, st) && o.action == Sell && 1 <= qty < Signed(st.book)
    requires PerContractWorth(cfg, st, price, d)
    ensures var st' := Execute(cfg, st, o, qty, price, bar);
            && ShedFrom(st.book, st'.book, qty)
            && st'.ledger.positionProfit == st.ledger.positionProfit + d * qty as real
  {
    FaithfulBook(cfg, st);
    SidesOf(st.book);
    InvariantIsOpen(st.book);
    hide Faithful, Exact, BookInvariant, CapInvariant, PerContractWorth, Exit, Execute, ShedFrom, Books, Open;
    SaleIsExit(cfg, st, o, qty, price, bar);
    ExitSheds(cfg, st, qty, price, bar);
    ExitBooks(cfg, st, qty, price, bar, true, d);
  }

  // ---- Time --------------------------------------------------------------------------------------------

  /** In every run, after a bar that may trade, the clock of an open position counts the bars since the one
      it was entered on. */
  lemma BarsSinceEntry(cfg: Config, win: Window, evs: seq<Event>)
    requires Exact(cfg) && cfg.pv != 0.0 && evs != [] && MayTrade(win, |evs| - 1)
    ensures var b := Run(cfg, win, evs).engine.book;
            b.mp != 0 ==> b.barsSinceEntry == Seen(win, evs) - b.entryBar
  {
    hide *;
    var l := Run(cfg, win, evs[..|evs| - 1]);
    LastStep(cfg, win, evs);
    MayTradeIs(win, |evs| - 1);
    LoopRemembers(cfg, win, evs[..|evs| - 1]);
    LoopRemembers(cfg, win, evs);
    RunIsTimed(cfg, win, evs);
    RunIsFaithful(cfg, win, evs);
    EntryBarIsSet(cfg, Run(cfg, win, evs).engine);
    StepCounts(cfg, win, l, evs[|evs| - 1]);
  }

  lemma EntryBarIsSet(cfg: Config, st: State)
    requires Faithful(cfg, st) && Timed(st)
    ensures st.book.mp != 0 ==> st.book.entryBar >= 1
  {
    hide StatsInvariant, LedgerInvariant, Mirrors, CapInvariant, QueueInvariant;
  }

  lemma StepCounts(cfg: Config, win: Window, l: Loop, ev: Event)
    requires cfg.pv != 0.0 && Trading(win, l.index)
    ensures var b := Step(cfg, win, l, ev).engine.book;
            b.mp != 0 && b.entryBar >= 1 ==> b.barsSinceEntry == l.bn + 1 - b.entryBar
  {
    hide ExecuteOnClose, ExecutePending, CheckStops, FoldDrawdown, EquityPoints, AtBar, ValidOrders, Stashed, Queued,
         UpdateRisk, ResolvePoints, MarkToMarket;
  }
}
