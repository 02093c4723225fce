/** What orders do to the position: each verb leaves the position its word promises, logged contract
    by contract, and a bar works its orders off one after another at the prices they were due. */
module Verbs {
  import opened Sequences
  import opened EngineModel
  import opened EngineRun
  import opened EngineInvariants
  import opened EngineLedgers
  import opened EngineTheorems
  import opened StopRuns

  // ---- One order ----------------------------------------------------------------------------------

  /** The signed position that `qty` contracts of the verb ask for, from `held`. */
  function Wanted(action: Action, held: int, qty: nat): int {
    match action
    case Buy => if held < 0 then qty else held + qty
    case SellShort => if held > 0 then -(qty as int) else held - qty
    case Sell => if held <= 0 then held else if qty < held then held - qty else 0
    case BuyToCover => if held < 0 then 0 else held
    case UnknownAction => held
  }

  /** The order would add to the position, and the cap's number of entries is open. */
  predicate Capped(cfg: Config, b: Book, action: Action) {
    && cfg.cap > 0 && |b.qtys| >= cfg.cap
    && ((action == Buy && Signed(b) > 0) || (action == SellShort && Signed(b) < 0))
  }

  /** From `st` to `st'` the position moved to `position`, one record for each contract. */
  predicate Moves(st: State, buy: bool, tag: string, price: real, position: int, st': State) {
    && Signed(st'.book) == position
    && st'.fills == st.fills + Repeat(Fill(buy, tag, price), Distance(position, Signed(st.book)))
  }

  predicate Buys(action: Action) {
    action == Buy || action == BuyToCover
  }

  /** An order for `qty` contracts at `price` turned `st` into `st'`. */
  predicate Leaves(cfg: Config, st: State, o: Order, qty: nat, price: real, st': State) {
    if Capped(cfg, st.book, o.action) then st' == st
    else Moves(st, Buys(o.action), o.tag, price, Wanted(o.action, Signed(st.book), qty), st')
  }

  lemma SidesOf(b: Book)
    requires BookInvariant(b)
    ensures Signed(b) > 0 <==> b.mp > 0
    ensures Signed(b) < 0 <==> b.mp < 0
    ensures b.contracts == (if Signed(b) < 0 then -Signed(b) else Signed(b))
  {
  }

  lemma FillReaches(cfg: Config, st: State, action: Action, qty: nat, price: real, bar: int, tag: string)
    requires Exact(cfg) && BookInvariant(st.book) && CapInvariant(cfg, st.book) && qty >= 1
    requires !EntryRefused(cfg, st.book, action)
    ensures var st' := FillOrder(cfg, st, action, qty, price, bar, tag);
            BookInvariant(st'.book) && Signed(st'.book) == Wanted(action, Signed(st.book), qty) && st'.fills == st.fills
  {
    SidesOf(st.book);
    var n := st.book.contracts;
    assert F32(cfg, price) == price;
    hide BookInvariant, CapInvariant, Enter, Exit, Exact;
    match action
    case Buy =>
      if st.book.mp < 0 {
        ExitReaches(cfg, st, n, price, bar, false);
      }
      var st1 := if st.book.mp < 0 then Exit(cfg, st, n, price, bar, false) else st;
      EnterReaches(cfg, st1, 1, qty, price, bar, tag);
    case SellShort =>
      if st.book.mp > 0 {
        ExitReaches(cfg, st, n, price, bar, true);
      }
      var st1 := if st.book.mp > 0 then Exit(cfg, st, n, price, bar, true) else st;
      EnterReaches(cfg, st1, -1, qty, price, bar, tag);
    case Sell =>
      if st.book.mp > 0 {
        ExitReaches(cfg, st, if qty < n then qty else n, price, bar, true);
      }
    case BuyToCover =>
      if st.book.mp < 0 {
        ExitReaches(cfg, st, n, price, bar, false);
      }
    case UnknownAction =>
  }

  lemma EnterReaches(cfg: Config, st: State, side: int, qty: nat, price: real, bar: int, tag: string)
    requires Exact(cfg) && BookInvariant(st.book) && CapInvariant(cfg, st.book) && qty >= 1
    requires MayEnter(cfg, st.book, side)
    ensures var st' := Enter(cfg, st, side, qty, price, bar, tag);
            && BookInvariant(st'.book) && st'.fills == st.fills
            && Signed(st'.book) == Signed(st.book) + side * qty
  {
    EnterKeepsBook(cfg, st, side, qty, price, bar, tag);
    SidesOf(st.book);
    hide QueueInvariant, NewAverage;
  }

  lemma ExitReaches(cfg: Config, st: State, q: nat, price: real, bar: int, consume: bool)
    requires Exact(cfg) && BookInvariant(st.book) && CapInvariant(cfg, st.book) && MayExit(st.book, q, consume)
    ensures var st' := Exit(cfg, st, q, price, bar, consume);
            && BookInvariant(st'.book) && CapInvariant(cfg, st'.book) && st'.fills == st.fills
            && Signed(st'.book) == (if st.book.mp > 0 then Signed(st.book) - q else Signed(st.book) + q)
            && (q == st.book.contracts ==> st'.book.mp == 0)
  {
    ExitKeepsBook(cfg, st, q, price, bar, consume);
    hide QueueInvariant, RecordTrade, Consume, Realised, PartialHistory, Reaveraged;
  }

  lemma CappedIsRefused(cfg: Config, b: Book, action: Action)
    requires BookInvariant(b)
    ensures Capped(cfg, b, action) <==> EntryRefused(cfg, b, action)
  {
    SidesOf(b);
  }

  /** Any order at all, in any state the engine can be in. */
  lemma OrderLeaves(cfg: Config, st: State, o: Order, qty: nat, price: real, bar: int)
    requires Exact(cfg) && Faithful(cfg, st) && qty >= 1
    ensures Leaves(cfg, st, o, qty, price, Execute(cfg, st, o, qty, price, bar))
  {
    FaithfulBook(cfg, st);
    CappedIsRefused(cfg, st.book, o.action);
    hide BookInvariant, CapInvariant, FillOrder, Faithful, Exact, Wanted, Capped, EntryRefused, Signed;
    if !EntryRefused(cfg, st.book, o.action) {
      FillReaches(cfg, st, o.action, qty, price, bar, o.tag);
    }
  }

  lemma FaithfulBook(cfg: Config, st: State)
    requires Faithful(cfg, st)
    ensures BookInvariant(st.book) && CapInvariant(cfg, st.book)
  {
    hide StatsInvariant, LedgerInvariant, Mirrors, QueueInvariant;
  }

  /** An entry does nothing exactly when it is capped, a closing verb exactly when there is nothing
      on its side to close. */
  lemma NothingHappensWhen(cfg: Config, st: State, o: Order, qty: nat, price: real, bar: int)
    requires Exact(cfg) && Faithful(cfg, st) && qty >= 1
    ensures var st' := Execute(cfg, st, o, qty, price, bar);
            st' == st <==> match o.action
                           case Buy => Capped(cfg, st.book, Buy)
                           case SellShort => Capped(cfg, st.book, SellShort)
                           case Sell => Signed(st.book) <= 0
                           case BuyToCover => Signed(st.book) >= 0
                           case UnknownAction => true
  {
    OrderLeaves(cfg, st, o, qty, price, bar);
    FaithfulBook(cfg, st);
    SidesOf(st.book);
    CappedIsRefused(cfg, st.book, o.action);
    hide BookInvariant, CapInvariant, Enter, Exit, Faithful, Exact;
    if !EntryRefused(cfg, st.book, o.action) && Wanted(o.action, Signed(st.book), qty) == Signed(st.book) {
      assert st.fills + [] == st.fills;
    }
  }

  function Size(position: int): nat {
    if position < 0 then -position else position
  }

  /** An entry restarts the peak and the clock of the position, and opens a new position unless it adds
      to one. */
  lemma EntryStarts(cfg: Config, st: State, o: Order, qty: nat, price: real, bar: int)
    requires Exact(cfg) && Faithful(cfg, st) && qty >= 1 && !Capped(cfg, st.book, o.action)
    requires o.action == Buy || o.action == SellShort
    ensures var b, b' := st.book, Execute(cfg, st, o, qty, price, bar).book;
            && b'.peakProfit == 0.0 && b'.barsSinceEntry == 0
            && b'.entryBar == (if Signed(b) != 0 && (Signed(b) > 0) == (o.action == Buy) then b.entryBar else bar)
  {
    FaithfulBook(cfg, st);
    SidesOf(st.book);
    CappedIsRefused(cfg, st.book, o.action);
    hide Faithful, Exact, BookInvariant, CapInvariant, RecordTrade, Consume, Realised, PartialHistory, Reaveraged,
         NewAverage;
  }

  /** The contracts an order asks for: quantity 0 is the whole position for a closing verb of the next
      bar, one contract otherwise. */
  function Asked(o: Order, held: int, closes: bool): nat {
    if o.qty != 0 then o.qty
    else if closes && (o.action == Sell || o.action == BuyToCover) && held != 0 then Size(held)
    else 1
  }

  lemma NextBarOrderLeaves(cfg: Config, st: State, o: Order, price: real, bar: int)
    requires Exact(cfg) && Faithful(cfg, st)
    ensures Leaves(cfg, st, o, Asked(o, Signed(st.book), true), price, FillAt(cfg, st, o, price, bar))
  {
    FaithfulBook(cfg, st);
    SidesOf(st.book);
    hide Faithful, Exact, Leaves, BookInvariant, CapInvariant;
    OrderLeaves(cfg, st, o, FillQty(st.book, o), price, bar);
  }

  lemma CloseOrderLeaves(cfg: Config, st: State, c: CloseOrder)
    requires Exact(cfg) && Faithful(cfg, st)
    ensures Leaves(cfg, st, c.order, Asked(c.order, Signed(st.book), false), c.price, FillCloseOrder(cfg, st, c))
  {
    hide Faithful, Exact, Leaves;
    OrderLeaves(cfg, st, c.order, if c.order.qty != 0 then c.order.qty else 1, c.price, c.bar);
  }

  // ---- A bar's orders --------------------------------------------------------------------------------

  /** An order and the price it is due at. */
  datatype Job = Job(order: Order, price: real, closes: bool)

  /** The jobs were worked off in order, from `st` to the position and log of `st'`. */
  ghost predicate Works(cfg: Config, st: State, jobs: seq<Job>, st': State)
    decreases |jobs|
  {
    if jobs == [] then st'.book == st.book && st'.fills == st.fills
    else
      var j := jobs[0];
      exists mid :: Leaves(cfg, st, j.order, Asked(j.order, Signed(st.book), j.closes), j.price, mid)
                    && Works(cfg, mid, jobs[1..], st')
  }

  lemma {:induction false} WorksAppend(cfg: Config, st: State, a: seq<Job>, mid: State, b: seq<Job>, st': State)
    requires Works(cfg, st, a, mid) && Works(cfg, mid, b, st')
    ensures Works(cfg, st, a + b, st')
    decreases |a|
  {
    hide Leaves, Asked;
    if a == [] {
      assert a + b == b;
      SamePlace(cfg, mid, st, b, st');
    } else {
      var j := a[0];
      var next :| Leaves(cfg, st, j.order, Asked(j.order, Signed(st.book), j.closes), j.price, next)
                  && Works(cfg, next, a[1..], mid);
      WorksAppend(cfg, next, a[1..], mid, b, st');
      assert (a + b)[1..] == a[1..] + b;
    }
  }

  /** Only the position and the log of the start matter. */
  lemma SamePlace(cfg: Config, st: State, st0: State, jobs: seq<Job>, st': State)
    requires Works(cfg, st, jobs, st') && st.book == st0.book && st.fills == st0.fills
    ensures Works(cfg, st0, jobs, st')
  {
    if jobs != [] {
      var j := jobs[0];
      var mid :| Leaves(cfg, st, j.order, Asked(j.order, Signed(st.book), j.closes), j.price, mid)
                 && Works(cfg, mid, jobs[1..], st');
      hide Works, Wanted;
      if Capped(cfg, st.book, j.order.action) {
        SamePlace(cfg, mid, st0, jobs[1..], st');
      }
    }
  }

  /** `this bar on close` orders, at the closes they were given. */
  function CloseJobs(cs: seq<CloseOrder>): seq<Job> {
    if cs == [] then [] else [Job(cs[0].order, cs[0].price, false)] + CloseJobs(cs[1..])
  }

  /** Market orders for the next bar, in the order they were queued, at its open. */
  function MarketJobs(os: seq<Order>, open: real): seq<Job> {
    if os == [] then []
    else
      (if os[0].timing == Next && os[0].otype == Market then [Job(os[0], open, true)] else [])
      + MarketJobs(os[1..], open)
  }

  function TriggeredJobs(ts: seq<Triggered>): seq<Job> {
    if ts == [] then [] else [Job(ts[0].order, ts[0].price, true)] + TriggeredJobs(ts[1..])
  }

  /** What a bar works off before its stops: the last bar's close orders, then the market orders at the
      open, then what the bar triggers, in path order. */
  function BarJobs(cfg: Config, st: State, bar: Bar): seq<Job> {
    CloseJobs(st.onClose) + MarketJobs(st.pending, bar.open)
    + TriggeredJobs(PathOrder(TriggeredOrders(cfg, st.pending, bar), HighFirst(bar)))
  }

  lemma WorksCons(cfg: Config, st: State, j: Job, jobs: seq<Job>, mid: State, st': State)
    requires Leaves(cfg, st, j.order, Asked(j.order, Signed(st.book), j.closes), j.price, mid)
    requires Works(cfg, mid, jobs, st')
    ensures Works(cfg, st, [j] + jobs, st')
  {
    assert ([j] + jobs)[1..] == jobs;
    hide Leaves, Asked;
  }

  lemma {:induction false} CloseOrdersWork(cfg: Config, st: State, cs: seq<CloseOrder>)
    requires Exact(cfg) && Faithful(cfg, st)
    ensures var st' := FillCloseOrders(cfg, st, cs);
            Works(cfg, st, CloseJobs(cs), st') && Faithful(cfg, st') && st'.pending == st.pending
    decreases |cs|
  {
    hide Faithful, Exact, Works, Leaves, FillCloseOrder;
    if cs == [] {
      NothingWorks(cfg, st);
    } else {
      var mid := FillCloseOrder(cfg, st, cs[0]);
      CloseOrderLeaves(cfg, st, cs[0]);
      CloseOrderKeeps(cfg, st, cs[0]);
      CloseOrdersWork(cfg, mid, cs[1..]);
      WorksCons(cfg, st, Job(cs[0].order, cs[0].price, false), CloseJobs(cs[1..]), mid,
                FillCloseOrders(cfg, mid, cs[1..]));
    }
  }

  lemma NothingWorks(cfg: Config, st: State)
    ensures Works(cfg, st, [], st)
  {
  }

  lemma CloseOrderKeeps(cfg: Config, st: State, c: CloseOrder)
    requires Exact(cfg) && Faithful(cfg, st)
    ensures Faithful(cfg, FillCloseOrder(cfg, st, c)) && FillCloseOrder(cfg, st, c).pending == st.pending
  {
    hide Faithful, Execute, Exact;
    var q := if c.order.qty != 0 then c.order.qty else 1;
    ExecuteKeepsFaithful(cfg, st, c.order, q, c.price, c.bar);
    ExecuteKeepsPending(cfg, st, c.order, q, c.price, c.bar);
  }

  lemma ExecuteKeepsPending(cfg: Config, st: State, o: Order, qty: nat, price: real, bar: int)
    requires qty >= 1
    ensures Execute(cfg, st, o, qty, price, bar).pending == st.pending
  {
    hide RecordTrade, Consume, Realised, PartialHistory, Reaveraged, NewAverage, EntryRefused, Signed;
  }

  lemma {:induction false} MarketWorks(cfg: Config, st: State, os: seq<Order>, price: real, bn: int)
    requires Exact(cfg) && Faithful(cfg, st)
    ensures var st' := FillMarket(cfg, st, MarketOrders(os), price, bn);
            Works(cfg, st, MarketJobs(os, price), st') && Faithful(cfg, st')
    decreases |os|
  {
    hide Faithful, Exact, Works, Leaves, FillAt;
    if os == [] {
      NothingWorks(cfg, st);
    } else if os[0].timing == Next && os[0].otype == Market {
      var mid := FillAt(cfg, st, os[0], price, bn);
      NextBarOrderLeaves(cfg, st, os[0], price, bn);
      FillAtKeeps(cfg, st, os[0], price, bn);
      MarketWorks(cfg, mid, os[1..], price, bn);
      WorksCons(cfg, st, Job(os[0], price, true), MarketJobs(os[1..], price), mid,
                FillMarket(cfg, mid, MarketOrders(os[1..]), price, bn));
      assert ([os[0]] + MarketOrders(os[1..]))[1..] == MarketOrders(os[1..]);
    } else {
      MarketWorks(cfg, st, os[1..], price, bn);
      assert [] + MarketOrders(os[1..]) == MarketOrders(os[1..]);
      assert [] + MarketJobs(os[1..], price) == MarketJobs(os[1..], price);
    }
  }

  lemma FillAtKeeps(cfg: Config, st: State, o: Order, price: real, bn: int)
    requires Exact(cfg) && Faithful(cfg, st)
    ensures Faithful(cfg, FillAt(cfg, st, o, price, bn))
  {
    hide Faithful, Execute, Exact;
    ExecuteKeepsFaithful(cfg, st, o, FillQty(st.book, o), price, bn);
  }

  lemma {:induction false} TriggeredWork(cfg: Config, st: State, ts: seq<Triggered>, bn: int)
    requires Exact(cfg) && Faithful(cfg, st)
    ensures Works(cfg, st, TriggeredJobs(ts), FillTriggered(cfg, st, ts, bn))
    decreases |ts|
  {
    hide Faithful, Exact, Works, Leaves, FillAt;
    if ts == [] {
      NothingWorks(cfg, st);
    } else {
      var mid := FillAt(cfg, st, ts[0].order, ts[0].price, bn);
      NextBarOrderLeaves(cfg, st, ts[0].order, ts[0].price, bn);
      FillAtKeeps(cfg, st, ts[0].order, ts[0].price, bn);
      TriggeredWork(cfg, mid, ts[1..], bn);
      WorksCons(cfg, st, Job(ts[0].order, ts[0].price, true), TriggeredJobs(ts[1..]), mid,
                FillTriggered(cfg, mid, ts[1..], bn));
    }
  }

  /** Up to its stop check a bar works off exactly its jobs. */
  lemma BarWorks(cfg: Config, st: State, bar: Bar, bn: int)
    requires Exact(cfg) && Faithful(cfg, st)
    ensures Works(cfg, st, BarJobs(cfg, st, bar), BeforeStops(cfg, st, bar, bn))
  {
    var st1 := FillCloseOrders(cfg, st, st.onClose);
    var st2 := ExecuteOnClose(cfg, st);
    var st3 := FillMarket(cfg, st2, MarketOrders(st.pending), bar.open, bn);
    var ts := PathOrder(TriggeredOrders(cfg, st.pending, bar), HighFirst(bar));
    var st4 := FillTriggered(cfg, st3, ts, bn);
    hide Faithful, Exact, Works, FillCloseOrders, FillMarket, FillTriggered, PathOrder, TriggeredOrders, MarketOrders,
         CloseJobs, MarketJobs, TriggeredJobs;
    CloseOrdersWork(cfg, st, st.onClose);
    ExecuteOnCloseKeepsFaithful(cfg, st);
    MarketWorks(cfg, st2, st.pending, bar.open, bn);
    TriggeredWork(cfg, st3, ts, bn);
    WorksTo(cfg, st, CloseJobs(st.onClose), st1, st2);
    WorksTo(cfg, st3, TriggeredJobs(ts), st4, BeforeStops(cfg, st, bar, bn));
    WorksAppend(cfg, st, CloseJobs(st.onClose), st2, MarketJobs(st.pending, bar.open), st3);
    WorksAppend(cfg, st, CloseJobs(st.onClose) + MarketJobs(st.pending, bar.open), st3, TriggeredJobs(ts),
                BeforeStops(cfg, st, bar, bn));
  }

  /** Only the position and the log of the end matter. */
  lemma {:induction false} WorksTo(cfg: Config, st: State, jobs: seq<Job>, st': State, st0: State)
    requires Works(cfg, st, jobs, st') && st'.book == st0.book && st'.fills == st0.fills
    ensures Works(cfg, st, jobs, st0)
    decreases |jobs|
  {
    hide Leaves, Asked;
    if jobs != [] {
      var j := jobs[0];
      var mid :| Leaves(cfg, st, j.order, Asked(j.order, Signed(st.book), j.closes), j.price, mid)
                 && Works(cfg, mid, jobs[1..], st');
      WorksTo(cfg, mid, jobs[1..], st', st0);
    }
  }

  /** In every run. */
  lemma OrdersInEveryRun(cfg: Config, win: Window, evs: seq<Event>, ev: Event)
    requires Exact(cfg) && cfg.pv != 0.0
    ensures var st := AtBar(cfg, win, Run(cfg, win, evs), ev);
            Works(cfg, st, BarJobs(cfg, st, ev.bar), AtStops(cfg, win, Run(cfg, win, evs), ev))
  {
    hide Run, AtBar, BeforeStops, Faithful, Works, BarJobs, Exact;
    RunIsFaithful(cfg, win, evs);
    AtBarKeepsFaithful(cfg, win, Run(cfg, win, evs), ev);
    BarWorks(cfg, AtBar(cfg, win, Run(cfg, win, evs), ev), ev.bar, Run(cfg, win, evs).bn + 1);
  }
}
