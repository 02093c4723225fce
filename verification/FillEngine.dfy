/** The order/fill engine as the program keeps it: one object whose methods update its fields
    in place. Every method is proved to take the engine to exactly the state its specification
    function (EngineModel, StopWalk, EngineRun) gives. */
module FillEngines {
  import opened Sequences
  import opened EngineModel
  import opened StopWalk
  import opened EngineRun

  class FillEngine {
    const cfg: Config

    // The open position and the realised money; a statement on a field of the program's
    // engine is an update of that component here.
    var book: Book
    var ledger: Ledger

    var fills: seq<Fill>
    var pendingOrders: seq<Order>
    var onclosePending: seq<CloseOrder>
    var risk: Risk
    var openPositionProfit: real
    var peakEquity: real
    var maxDrawdown: real
    var fastPathHits: nat

    ghost function View(): State
      reads this
    {
      State(book, ledger, fills, pendingOrders, onclosePending, risk, openPositionProfit,
            peakEquity, maxDrawdown, fastPathHits)
    }

    constructor (cfg: Config)
      ensures this.cfg == cfg && View() == FRESH
    {
      this.cfg := cfg;
      book, ledger := EMPTY_BOOK, EMPTY_LEDGER;
      fills, pendingOrders, onclosePending := [], [], [];
      risk, openPositionProfit, peakEquity, maxDrawdown, fastPathHits := NO_RISK, 0.0, 0.0, 0.0, 0;
    }

    // ---- Entries ----------------------------------------------------------------

    method ResetPositionStats()
      modifies this`book
      ensures book == old(book).(mfe := 0.0, mae := 0.0, maxContracts := 0, entries := 1)
    {
      book := book.(mfe := 0.0, mae := 0.0);
      book := book.(maxContracts := 0);
      book := book.(entries := 1);
    }

    /** Opens a long or adds to one, averaging the entry price. */
    method OpenOrAddLong(qty: nat, price: real, barnumber: int, name: string)
      requires qty >= 1
      modifies this`book, this`ledger
      ensures View() == Enter(cfg, old(View()), 1, qty, price, barnumber, name)
    {
      hide Averaged, PositionValue;
      ghost var was := book;
      var fillPrice := F32(cfg, price);
      var oldValue := F32(cfg, PositionValue(book));
      var n := book.contracts + qty;
      book := book.(mp := 1, contracts := n);
      book := book.(prices := book.prices + Repeat(fillPrice, qty));
      book := book.(entryPrice := F32(cfg, Averaged(oldValue, fillPrice, qty, n)));
      assert book.entryPrice == NewAverage(cfg, was, fillPrice, qty);
      hide NewAverage;
      if book.contracts == qty {
        book := book.(entryBar := barnumber);
        ledger := ledger.(positionProfit := 0.0);
        ResetPositionStats();
        book := book.(qtys := [qty], labels := [name]);
      } else {
        book := book.(entries := book.entries + 1);
        book := book.(qtys := book.qtys + [qty], labels := book.labels + [name]);
      }
      if book.maxContracts < book.contracts {
        book := book.(maxContracts := book.contracts);
      }
      book := book.(barsSinceEntry := 0, peakProfit := 0.0);
      if ledger.maxHeld < book.contracts {
        ledger := ledger.(maxHeld := book.contracts);
      }
    }

    /** Opens a short or adds to one, averaging the entry price. */
    method OpenOrAddShort(qty: nat, price: real, barnumber: int, name: string)
      requires qty >= 1
      modifies this`book, this`ledger
      ensures View() == Enter(cfg, old(View()), -1, qty, price, barnumber, name)
    {
      hide Averaged, PositionValue;
      ghost var was := book;
      var fillPrice := F32(cfg, price);
      var oldValue := F32(cfg, PositionValue(book));
      var n := book.contracts + qty;
      book := book.(mp := -1, contracts := n);
      book := book.(prices := book.prices + Repeat(fillPrice, qty));
      book := book.(entryPrice := F32(cfg, Averaged(oldValue, fillPrice, qty, n)));
      assert book.entryPrice == NewAverage(cfg, was, fillPrice, qty);
      hide NewAverage;
      if book.contracts == qty {
        book := book.(entryBar := barnumber);
        ResetPositionStats();
        book := book.(qtys := [qty], labels := [name]);
      } else {
        book := book.(entries := book.entries + 1);
        book := book.(qtys := book.qtys + [qty], labels := book.labels + [name]);
      }
      if book.maxContracts < book.contracts {
        book := book.(maxContracts := book.contracts);
      }
      book := book.(barsSinceEntry := 0, peakProfit := 0.0);
      ledger := ledger.(positionProfit := 0.0);
      if ledger.maxHeld < book.contracts {
        ledger := ledger.(maxHeld := book.contracts);
      }
    }

    // ---- Exits --------------------------------------------------------------------

    /** Adds one realised amount to the running totals. */
    method Realise(pnl: real)
      modifies this`ledger
      ensures ledger == AddPnl(old(ledger), pnl)
    {
      ledger := ledger.(net := ledger.net + pnl, totalTrades := ledger.totalTrades + 1);
      ledger := ledger.(positionProfit := ledger.positionProfit + pnl);
      if pnl > 0.0 {
        ledger := ledger.(grossProfit := ledger.grossProfit + pnl);
      } else if pnl < 0.0 {
        ledger := ledger.(grossLoss := ledger.grossLoss + pnl);
      }
    }

    /** Folds one closed trade into the running statistics. */
    method UpdateStats(pnl: real, bars: int)
      modifies this`ledger
      ensures ledger == old(ledger).(stats := RecordStats(old(ledger).stats, pnl, bars))
    {
      var s := ledger.stats;
      if pnl > 0.0 {
        s := s.(nWin := s.nWin + 1);
        if pnl > s.lrgWin {
          s := s.(lrgWin := pnl);
        }
        s := s.(barsWin := s.barsWin + bars, runWin := s.runWin + 1, runLos := 0);
        if s.runWin > s.maxRunWin {
          s := s.(maxRunWin := s.runWin);
        }
      } else if pnl < 0.0 {
        s := s.(nLos := s.nLos + 1);
        if pnl < s.lrgLos {
          s := s.(lrgLos := pnl);
        }
        s := s.(barsLos := s.barsLos + bars, runLos := s.runLos + 1, runWin := 0);
        if s.runLos > s.maxRunLos {
          s := s.(maxRunLos := s.runLos);
        }
      } else {
        s := s.(nEven := s.nEven + 1, barsEven := s.barsEven + bars, runWin := 0, runLos := 0);
      }
      ledger := ledger.(stats := s);
    }

    /** Snapshots the position just closed into the trade ledger and the statistics. */
    method RecordClosedTrade(exitBar: int, exitPrice: real, size: nat, isLong: bool)
      requires isLong == (book.mp > 0)
      modifies this`ledger
      ensures ledger == RecordTrade(cfg, book, old(ledger), exitBar, exitPrice, size)
    {
      hide UnitMoney, RecordStats;
      var bars := if book.entryBar > 0 then exitBar - book.entryBar + 1 else 0;
      var mfe, mae := book.mfe, book.mae;
      if exitPrice != 0.0 && book.entryPrice != 0.0 {
        var exc := UnitMoney(if isLong then F32(cfg, exitPrice) - book.entryPrice
                             else book.entryPrice - F32(cfg, exitPrice),
                             cfg.pv);
        if exc > mfe {
          mfe := exc;
        }
        if exc < mae {
          mae := exc;
        }
      }
      var pnl := ledger.positionProfit;
      ledger := ledger.(closed := ledger.closed
                          + [Trade(pnl, bars, mfe, mae, book.maxContracts, book.entries, size, isLong,
                                   book.entryPrice, F32(cfg, exitPrice), book.entryBar, exitBar)]);
      UpdateStats(pnl, bars);
    }

    method ResetFlat()
      modifies this`book, this`ledger
      ensures book == Flat(old(book)) && ledger == old(ledger).(positionProfit := 0.0)
    {
      book := book.(mp := 0, contracts := 0, entryPrice := 0.0);
      book := book.(entryBar := 0, barsSinceEntry := 0);
      ledger := ledger.(positionProfit := 0.0);
      book := book.(peakProfit := 0.0, prices := []);
    }

    /** Takes `qty` contracts off the oldest entries first. */
    method ConsumeEntryQtys(qty: nat)
      modifies this`book
      ensures book == old(book).(qtys := Consume(old(book).qtys, old(book).labels, qty).0,
                                 labels := Consume(old(book).qtys, old(book).labels, qty).1)
    {
      var qtys, labels, left := book.qtys, book.labels, qty;
      while left > 0 && qtys != []
        invariant Consume(qtys, labels, left) == Consume(old(book).qtys, old(book).labels, qty)
        decreases |qtys|, left
      {
        var take := if left < qtys[0] then left else qtys[0];
        var rest := qtys[0] - take;
        left := left - take;
        if rest == 0 {
          qtys := qtys[1..];
          if labels != [] {
            labels := labels[1..];
          }
        } else {
          qtys := [rest] + qtys[1..];
        }
      }
      book := book.(qtys := qtys, labels := labels);
    }

    /** Closes up to `qty` long contracts, oldest first, and re-averages the rest. */
    method CloseLongFifo(qty: nat, fillPrice: real, exitBar: int)
      requires book.mp > 0
      modifies this`book, this`ledger
      ensures View() == Exit(cfg, old(View()), if qty < old(book).contracts then qty else old(book).contracts,
                             fillPrice, exitBar, true)
    {
      hide Money, UnitMoney, RecordStats;
      var was := book;
      ghost var had := ledger;
      var closedQty := if qty < book.contracts then qty else book.contracts;
      Realise(Money(fillPrice - book.entryPrice, cfg.pv, closedQty));
      book := book.(contracts := book.contracts - closedQty);
      var prices, i := book.prices, 0;
      while i < closedQty
        invariant 0 <= i <= closedQty
        invariant prices == if i <= |was.prices| then was.prices[i..] else []
      {
        if prices != [] {
          prices := prices[1..];
        }
        i := i + 1;
      }
      book := book.(prices := prices);
      ConsumeEntryQtys(closedQty);
      assert book == Closing(was, closedQty, true) && ledger == Realised(cfg, was, had, closedQty, fillPrice);
      if book.contracts > 0 {
        if book.prices != [] {
          book := book.(entryPrice := F32(cfg, Sum(book.prices) / |book.prices| as real));
        }
        ledger := PartialHistory(ledger, was, closedQty);  // history variables only
      } else {
        RecordClosedTrade(exitBar, fillPrice, closedQty, true);
        ResetFlat();
      }
    }

    method CloseShort(price: real, exitBar: int)
      requires book.mp < 0
      modifies this`book, this`ledger
      ensures View() == Exit(cfg, old(View()), old(book).contracts, F32(cfg, price), exitBar, false)
    {
      hide Money, UnitMoney, RecordStats;
      var fillPrice := F32(cfg, price);
      var prev := book.contracts;
      Realise(Money(book.entryPrice - fillPrice, cfg.pv, prev));
      RecordClosedTrade(exitBar, fillPrice, prev, false);
      ResetFlat();
    }

    /** Closes the whole position at a stop price and logs it. */
    method CloseAtStop(price: real, signal: string, exitBar: int)
      modifies this`book, this`ledger, this`openPositionProfit, this`fills
      ensures View() == EngineModel.CloseAtStop(cfg, old(View()), price, signal, exitBar)
    {
      hide Money, UnitMoney, RecordStats;
      var isLong, size, before := book.mp > 0, book.contracts, Signed(book);
      if book.mp == 0 {
        return;
      }
      var pnl := Money(if isLong then price - book.entryPrice else book.entryPrice - price, cfg.pv, book.contracts);
      ghost var closing := Closing(book, size, false);
      assert pnl == ExitPnl(cfg, book, size, price);
      Realise(pnl);
      RecordClosedTrade(exitBar, price, size, isLong);
      assert ledger
        == RecordTrade(cfg, closing, Realised(cfg, old(book), old(ledger), size, price), exitBar, price, size);
      hide ExitPnl, RecordTrade, Realised;
      book := book.(mp := 0, contracts := 0, entryPrice := 0.0);
      book := book.(entryBar := 0, barsSinceEntry := 0);
      openPositionProfit := 0.0;
      ledger := ledger.(positionProfit := 0.0);
      book := book.(peakProfit := 0.0, prices := []);
      RecordFills(!isLong, signal, price, before);
    }

    // ---- Orders --------------------------------------------------------------------

    /** One log record per contract the signed position moved since `before`. */
    method RecordFills(buySide: bool, signal: string, price: real, before: int)
      modifies this`fills
      ensures View() == EngineModel.RecordFills(old(View()), buySide, signal, price, before)
    {
      var moved := Distance(Signed(book), before);
      var record := Fill(buySide, signal, price);
      var i := 0;
      while i < moved
        invariant 0 <= i <= moved
        invariant fills == old(fills) + Repeat(record, i)
      {
        fills := fills + [record];
        i := i + 1;
      }
    }

    /** The order verb, not the position alone, decides whether a fill reverses or only closes. */
    method FillOrder(action: Action, qty: nat, price: real, barnumber: int, tag: string)
      requires qty >= 1
      modifies this`book, this`ledger
      ensures View() == EngineModel.FillOrder(cfg, old(View()), action, qty, price, barnumber, tag)
    {
      if action == Buy {
        if book.mp < 0 {
          CloseShort(price, barnumber);
          OpenOrAddLong(qty, price, barnumber, tag);
        } else {
          OpenOrAddLong(qty, price, barnumber, tag);
        }
      } else if action == SellShort {
        if book.mp > 0 {
          CloseLongFifo(book.contracts, price, barnumber);
          OpenOrAddShort(qty, price, barnumber, tag);
        } else {
          OpenOrAddShort(qty, price, barnumber, tag);
        }
      } else if action == Sell {
        if book.mp > 0 {
          CloseLongFifo(qty, price, barnumber);
        }
      } else if action == BuyToCover {
        if book.mp < 0 {
          CloseShort(price, barnumber);
        }
      }
    }

    /** Fills a `this bar on close` order at its signal bar's close. */
    method FillCloseOrder(c: CloseOrder)
      modifies this`book, this`ledger, this`fills
      ensures View() == EngineModel.FillCloseOrder(cfg, old(View()), c)
    {
      if EntryRefused(cfg, book, c.order.action) {
        return;
      }
      var qty := if c.order.qty != 0 then c.order.qty else 1;
      var before := Signed(book);
      FillOrder(c.order.action, qty, c.price, c.bar, c.order.tag);
      RecordFills(BuySide(c.order.action), c.order.tag, c.price, before);
    }

    /** Fills a next-bar order at its resolved price. */
    method FillAt(o: Order, price: real, barnumber: int)
      modifies this`book, this`ledger, this`fills
      ensures View() == EngineModel.FillAt(cfg, old(View()), o, price, barnumber)
    {
      if EntryRefused(cfg, book, o.action) {
        return;
      }
      var qty;
      if o.qty == 0 {
        if o.action == Sell || o.action == BuyToCover {
          qty := if book.contracts > 0 then book.contracts else 1;
        } else {
          qty := 1;
        }
      } else {
        qty := o.qty;
      }
      var before := Signed(book);
      FillOrder(o.action, qty, price, barnumber, o.tag);
      RecordFills(BuySide(o.action), o.tag, price, before);
    }

    method ExecuteOnclosePending()
      modifies this`book, this`ledger, this`fills, this`onclosePending
      ensures View() == ExecuteOnClose(cfg, old(View()))
    {
      var i := 0;
      while i < |onclosePending|
        invariant 0 <= i <= |onclosePending| && onclosePending == old(onclosePending)
        invariant FillCloseOrders(cfg, View(), onclosePending[i..]) == FillCloseOrders(cfg, old(View()), onclosePending)
      {
        assert onclosePending[i..][1..] == onclosePending[i + 1..];
        FillCloseOrder(onclosePending[i]);
        i := i + 1;
      }
      onclosePending := [];
    }

    /** Fills the market orders at the open, then the triggered ones in the order of the
        assumed path, and empties the queue. */
    method ExecutePendingFills(bar: Bar, barnumber: int)
      modifies this`book, this`ledger, this`fills, this`pendingOrders
      ensures View() == ExecutePending(cfg, old(View()), bar, barnumber)
    {
      hide FillMarket, FillTriggered, MarketOrders, TriggeredOrders, PathOrder, HighFirst;
      var marketOrders, condOrders := SplitOrders(bar);
      FillAllAtOpen(marketOrders, bar.open, barnumber);
      FillAllTriggered(PathOrder(condOrders, HighFirst(bar)), barnumber);
      pendingOrders := [];
    }

    /** The queued market orders, and the conditional ones this bar triggers. */
    method SplitOrders(bar: Bar) returns (marketOrders: seq<Order>, condOrders: seq<Triggered>)
      ensures marketOrders == MarketOrders(pendingOrders) && condOrders == TriggeredOrders(cfg, pendingOrders, bar)
    {
      hide Trigger;
      marketOrders, condOrders := [], [];
      var i := 0;
      while i < |pendingOrders|
        invariant 0 <= i <= |pendingOrders|
        invariant marketOrders + MarketOrders(pendingOrders[i..]) == MarketOrders(pendingOrders)
        invariant condOrders + TriggeredOrders(cfg, pendingOrders[i..], bar) == TriggeredOrders(cfg, pendingOrders, bar)
      {
        var o := pendingOrders[i];
        assert pendingOrders[i..][0] == o && pendingOrders[i..][1..] == pendingOrders[i + 1..];
        if o.timing == Next && o.otype == Market {
          MarketIsNotTriggered(cfg, o, bar);
          marketOrders := marketOrders + [o];
        } else {
          var t := Trigger(cfg, o, bar);
          if t.Some? {
            condOrders := condOrders + [t.value];
          }
        }
        i := i + 1;
      }
    }

    method FillAllAtOpen(orders: seq<Order>, open: real, barnumber: int)
      modifies this`book, this`ledger, this`fills
      ensures View() == FillMarket(cfg, old(View()), orders, open, barnumber)
    {
      var i := 0;
      while i < |orders|
        invariant 0 <= i <= |orders|
        invariant FillMarket(cfg, View(), orders[i..], open, barnumber)
                  == FillMarket(cfg, old(View()), orders, open, barnumber)
      {
        assert orders[i..][1..] == orders[i + 1..];
        FillAt(orders[i], open, barnumber);
        i := i + 1;
      }
    }

    method FillAllTriggered(orders: seq<Triggered>, barnumber: int)
      modifies this`book, this`ledger, this`fills
      ensures View() == FillTriggered(cfg, old(View()), orders, barnumber)
    {
      var i := 0;
      while i < |orders|
        invariant 0 <= i <= |orders|
        invariant FillTriggered(cfg, View(), orders[i..], barnumber)
                  == FillTriggered(cfg, old(View()), orders, barnumber)
      {
        assert orders[i..][1..] == orders[i + 1..];
        FillAt(orders[i].order, orders[i].price, barnumber);
        i := i + 1;
      }
    }

    // ---- Protective stops ------------------------------------------------------------

    /** Walks the bar's assumed path and closes at the first active level it meets. */
    method CheckMoneyManagementStops(bar: Bar, barnumber: int)
      requires cfg.pv != 0.0
      modifies this`book, this`ledger, this`fills, this`openPositionProfit
      ensures View() == CheckStops(cfg, old(View()), bar, barnumber)
    {
      if book.mp == 0 || book.entryBar == 0 || book.contracts == 0 {
        return;
      }
      var u := Usable(bar);
      var peak := book.peakProfit;
      var levels := Levels(cfg, risk, book, peak);
      var k := 0;
      while k < |levels|
        invariant 0 <= k <= |levels|
        invariant FirstCrossed(levels[k..], u.open, cfg.eps) == FirstCrossed(levels, u.open, cfg.eps)
      {
        assert levels[k..][0] == levels[k] && levels[k..][1..] == levels[k + 1..];
        if Crossed(levels[k], u.open, cfg.eps) {
          CloseAtStop(u.open, levels[k].reason, barnumber);
          return;
        }
        k := k + 1;
      }
      assert StopFill(cfg, risk, book, bar) == WalkLegs(cfg, risk, book, u, 0, peak);
      var waypoints := Waypoints(u);
      var i := 0;
      while i < 3
        invariant 0 <= i <= 3
        invariant book == old(book) && ledger == old(ledger) && fills == old(fills)
        invariant openPositionProfit == old(openPositionProfit)
        invariant WalkLegs(cfg, risk, book, u, i, peak) == StopFill(cfg, risk, book, bar)
      {
        var s, e := waypoints[i], waypoints[i + 1];
        var reach := Reached(Levels(cfg, risk, book, peak), s, e, cfg.eps);
        if reach != [] {
          var hit := Nearest(reach, e >= s);
          CloseAtStop(hit.price, hit.reason, barnumber);
          return;
        }
        if ReachesExtreme(cfg, book, u, e) {
          peak := Max(peak, ProfitAt(cfg, book, e));
        }
        i := i + 1;
      }
      book := book.(peakProfit := Max(book.peakProfit, ProfitAt(cfg, book, FavorableExtreme(book, u))));
    }

    // ---- The bar's life cycle -----------------------------------------------------------

    predicate NoWorkState()
      reads this
    {
      book.mp == 0 && pendingOrders == [] && onclosePending == [] && !HasActiveRisk(risk)
    }

    method ComputePnl(close: real)
      modifies this`openPositionProfit
      ensures openPositionProfit == MarkToMarket(cfg, book, close)
    {
      if book.mp == 0 || book.entryBar == 0 {
        openPositionProfit := 0.0;
      } else {
        var diff := close - book.entryPrice;
        openPositionProfit := diff * book.mp as real * cfg.pv * book.contracts as real;
      }
    }

    method UpdateExcursion(bar: Bar)
      modifies this`book
      ensures book == EngineModel.UpdateExcursion(cfg, old(book), bar)
    {
      if book.mp == 0 || book.contracts <= 0 {
        return;
      }
      var fav, adv;
      if book.mp > 0 {
        fav, adv := (bar.high - book.entryPrice) * cfg.pv, (bar.low - book.entryPrice) * cfg.pv;
      } else {
        fav, adv := (book.entryPrice - bar.low) * cfg.pv, (book.entryPrice - bar.high) * cfg.pv;
      }
      if fav > book.mfe {
        book := book.(mfe := fav);
      }
      if adv < book.mae {
        book := book.(mae := adv);
      }
    }

    /** The rest of `path` from the first segment that holds the entry price. */
    static method WalkAfterEntry(path: seq<real>, entry: real) returns (walk: seq<real>)
      ensures walk == PostEntryWalk(path, entry, 0)
    {
      var i := 0;
      while i + 1 < |path|
        invariant PostEntryWalk(path, entry, i) == PostEntryWalk(path, entry, 0)
      {
        if Min(path[i], path[i + 1]) <= entry <= Max(path[i], path[i + 1]) {
          return [entry] + path[i + 1..];
        }
        i := i + 1;
      }
      return path;
    }

    /** Folds the bar's equity points into the running peak and the deepest fall. */
    method UpdateDrawdown(bar: Bar, barnumber: int)
      modifies this`peakEquity, this`maxDrawdown
      ensures (peakEquity, maxDrawdown)
              == FoldDrawdown(cfg, old(peakEquity), old(maxDrawdown), EquityPoints(cfg, old(View()), bar, barnumber))
    {
      hide FoldDrawdown, EquitiesAlong, PostEntryWalk, BarPath;
      if book.mp != 0 && book.contracts > 0 {
        var walk := BarPath(bar);
        if book.entryBar == barnumber {
          walk := WalkAfterEntry(walk, book.entryPrice);
        }
        var eqs := PointsAlong(walk);
        FoldPoints(eqs);
      } else {
        FoldPoints([ledger.net]);
      }
    }

    method FoldPoints(eqs: seq<real>)
      modifies this`peakEquity, this`maxDrawdown
      ensures (peakEquity, maxDrawdown) == FoldDrawdown(cfg, old(peakEquity), old(maxDrawdown), eqs)
    {
      var i := 0;
      while i < |eqs|
        invariant 0 <= i <= |eqs|
        invariant FoldDrawdown(cfg, peakEquity, maxDrawdown, eqs[i..])
                  == FoldDrawdown(cfg, old(peakEquity), old(maxDrawdown), eqs)
      {
        assert eqs[i..][0] == eqs[i] && eqs[i..][1..] == eqs[i + 1..];
        if eqs[i] > peakEquity {
          peakEquity := eqs[i];
        }
        var dd := peakEquity - eqs[i];
        if dd > Abs(maxDrawdown) {
          maxDrawdown := F32(cfg, -dd);
        }
        i := i + 1;
      }
    }

    method PointsAlong(walk: seq<real>) returns (eqs: seq<real>)
      ensures eqs == EquitiesAlong(cfg, View(), walk)
    {
      eqs := [];
      var i := 0;
      while i < |walk|
        invariant 0 <= i <= |walk| && |eqs| == i
        invariant forall k :: 0 <= k < i ==> eqs[k] == EquityAt(cfg, View(), walk[k])
      {
        eqs := eqs + [ledger.net + Money(Gain(book.mp, book.entryPrice, walk[i]), cfg.pv, book.contracts)];
        i := i + 1;
      }
    }

    /** Processes pending fills, stops, marking and drawdown before the strategy runs. */
    method BeforeBar(bar: Bar, barnumber: int)
      requires cfg.pv != 0.0
      modifies this
      ensures View() == EngineRun.BeforeBar(cfg, old(View()), bar, barnumber)
    {
      hide ExecuteOnClose, ExecutePending, CheckStops, MarkToMarket, FoldDrawdown, EquityPoints, HasActiveRisk;
      if NoWorkState() {
        fastPathHits := fastPathHits + 1;
        return;
      }
      ExecuteOnclosePending();
      ExecutePendingFills(bar, barnumber);
      CheckMoneyManagementStops(bar, barnumber);
      ComputePnl(bar.close);
      UpdateExcursion(bar);
      if book.mp != 0 && book.entryBar > 0 {
        book := book.(barsSinceEntry := barnumber - book.entryBar);
      }
      assert View() == AfterFills(cfg, old(View()), bar, barnumber);
      UpdateDrawdown(bar, barnumber);
    }

    /** Splits valid orders into this close's and the next bar's. */
    method QueueOrders(valid: seq<Order>, close: real, barnumber: int)
      modifies this`onclosePending, this`pendingOrders
      ensures onclosePending == old(onclosePending) + Stashed(cfg, valid, close, barnumber)
      ensures pendingOrders == Queued(valid)
    {
      hide Stashed, Queued;
      var pending := [];
      NoneLeft(cfg, valid[|valid|..], close, barnumber);
      var i := 0;
      while i < |valid|
        invariant 0 <= i <= |valid|
        invariant pending + Queued(valid[i..]) == Queued(valid)
        invariant onclosePending + Stashed(cfg, valid[i..], close, barnumber)
                  == old(onclosePending) + Stashed(cfg, valid, close, barnumber)
      {
        var o := valid[i];
        QueueStep(cfg, valid, i, close, barnumber);
        if o.timing == ThisBar && o.otype == OnClose {
          onclosePending := onclosePending + [CloseOrder(o, F32(cfg, close), barnumber)];
        } else {
          pending := pending + [o];
        }
        i := i + 1;
      }
      pendingOrders := pending;
    }

    /** Queues the strategy's orders and merges its risk settings after it ran. */
    method AfterBar(orders: seq<Option<Order>>, update: RiskUpdate, close: real, barnumber: int)
      modifies this
      ensures View() == EngineRun.AfterBar(cfg, old(View()), orders, update, close, barnumber)
    {
      hide Stashed, Queued, ValidOrders, UpdateRisk, ResolvePoints, MarkToMarket;
      QueueOrders(ValidOrders(orders), close, barnumber);
      risk := UpdateRisk(risk, ResolvePoints(cfg, update));
      ComputePnl(close);
    }

    /** SetExitOnClose at a date change: on-close orders fill first, then all is flattened. */
    method ExitOnClose(prevClose: real, barnumber: int)
      modifies this
      ensures View() == EngineRun.ExitOnClose(cfg, old(View()), prevClose, barnumber)
    {
      ExecuteOnclosePending();
      if book.mp != 0 {
        CloseAtStop(prevClose, "End of Day Exit", barnumber - 1);
      }
    }
  }

  lemma NoneLeft(cfg: Config, os: seq<Order>, close: real, bn: int)
    requires os == []
    ensures Stashed(cfg, os, close, bn) == [] && Queued(os) == []
  {
  }

  lemma QueueStep(cfg: Config, os: seq<Order>, i: nat, close: real, bn: int)
    requires i < |os|
    ensures Stashed(cfg, os[i..], close, bn)
            == (if OnThisClose(os[i]) then [CloseOrder(os[i], F32(cfg, close), bn)] else [])
              + Stashed(cfg, os[i + 1..], close, bn)
    ensures Queued(os[i..]) == (if OnThisClose(os[i]) then [] else [os[i]]) + Queued(os[i + 1..])
  {
    assert os[i..][0] == os[i] && os[i..][1..] == os[i + 1..];
  }

  lemma MarketIsNotTriggered(cfg: Config, o: Order, bar: Bar)
    requires o.timing == Next && o.otype == Market
    ensures Trigger(cfg, o, bar) == None
  {
  }
}
