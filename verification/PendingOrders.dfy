/** Next-bar orders: what triggers them, at which price they fill, and in which order. */
module PendingOrders {
  import opened Sequences
  import opened EngineModel
  import opened StopWalk
  import opened EngineRun

  // ---- Triggering and price -----------------------------------------------------

  /** A limit order accepts its price or better, a stop order its price or worse. */
  predicate Acceptable(o: Order, x: real)
    requires o.price.Some?
  {
    if BuySide(o.action) == (o.otype == Limit) then x <= o.price.value else x >= o.price.value
  }

  predicate Conditional(o: Order) {
    o.timing == Next && (o.otype == Limit || o.otype == Stop) && o.price.Some?
  }

  predicate InBar(bar: Bar, x: real) {
    bar.low <= x <= bar.high
  }

  /** A conditional order triggers exactly when the bar holds an acceptable price. It fills at
      the open when that is acceptable, otherwise at its own price: in the bar, limits never
      worse and stops never better than asked. */
  lemma TriggerMeaning(cfg: Config, o: Order, bar: Bar)
    requires Exact(cfg) && WellFormed(bar)
    ensures Trigger(cfg, o, bar).Some? <==> Conditional(o) && exists x :: InBar(bar, x) && Acceptable(o, x)
    ensures var t := Trigger(cfg, o, bar);
            t.Some? ==>
              && t.value.order == o
              && InBar(bar, t.value.price) && Acceptable(o, t.value.price)
              && t.value.atOpen == Acceptable(o, bar.open)
              && t.value.price == (if Acceptable(o, bar.open) then bar.open else o.price.value)
  {
    if Conditional(o) {
      var px := o.price.value;
      assert InBar(bar, bar.low) && InBar(bar, bar.high);
      assert F32(cfg, Min(bar.open, px)) == Min(bar.open, px) && F32(cfg, Max(bar.open, px)) == Max(bar.open, px);
      if Acceptable(o, bar.low) || Acceptable(o, bar.high) {
      }
    }
  }

  // ---- Order of execution -------------------------------------------------------

  lemma {:induction false} WithRankOf(ts: seq<Triggered>, highFirst: bool, r: nat)
    ensures forall t :: t in WithRank(ts, highFirst, r) <==> t in ts && Rank(t, highFirst) == r
  {
    if ts != [] {
      WithRankOf(ts[1..], highFirst, r);
      assert forall t :: t in ts <==> t == ts[0] || t in ts[1..];
    }
  }

  lemma {:induction false} WithRankAppend(a: seq<Triggered>, b: seq<Triggered>, highFirst: bool, r: nat)
    ensures WithRank(a + b, highFirst, r) == WithRank(a, highFirst, r) + WithRank(b, highFirst, r)
  {
    hide Rank;
    if a == [] {
      assert a + b == b;
    } else {
      WithRankAppend(a[1..], b, highFirst, r);
      FirstAndRest(a, b);
      Associate(if Rank(a[0], highFirst) == r then [a[0]] else [], WithRank(a[1..], highFirst, r),
                WithRank(b, highFirst, r));
    }
  }

  lemma {:induction false} WithRankTwice(ts: seq<Triggered>, highFirst: bool, r: nat, q: nat)
    ensures WithRank(WithRank(ts, highFirst, q), highFirst, r) == if q == r then WithRank(ts, highFirst, r) else []
  {
    if ts != [] {
      WithRankTwice(ts[1..], highFirst, r, q);
      var rest := WithRank(ts[1..], highFirst, q);
      assert ([ts[0]] + rest)[1..] == rest;
      assert [] + rest == rest;
    }
  }

  /** The execution order is the stable sort by rank: for each rank it keeps exactly the
      triggered orders of that rank in queue order, lower ranks first. */
  lemma PathOrderIsStableSort(ts: seq<Triggered>, highFirst: bool)
    ensures forall r: nat :: r < 4 ==> WithRank(PathOrder(ts, highFirst), highFirst, r) == WithRank(ts, highFirst, r)
    ensures forall i, j :: 0 <= i < j < |PathOrder(ts, highFirst)| ==>
              Rank(PathOrder(ts, highFirst)[i], highFirst) <= Rank(PathOrder(ts, highFirst)[j], highFirst)
    ensures forall t :: t in PathOrder(ts, highFirst) <==> t in ts
  {
    var a, b := WithRank(ts, highFirst, 0), WithRank(ts, highFirst, 1);
    var c, d := WithRank(ts, highFirst, 2), WithRank(ts, highFirst, 3);
    forall r: nat | r < 4
      ensures WithRank(PathOrder(ts, highFirst), highFirst, r) == WithRank(ts, highFirst, r)
    {
      WithRankAppend(a + b + c, d, highFirst, r);
      WithRankAppend(a + b, c, highFirst, r);
      WithRankAppend(a, b, highFirst, r);
      WithRankTwice(ts, highFirst, r, 0);
      WithRankTwice(ts, highFirst, r, 1);
      WithRankTwice(ts, highFirst, r, 2);
      WithRankTwice(ts, highFirst, r, 3);
    }
    WithRankOf(ts, highFirst, 0);
    WithRankOf(ts, highFirst, 1);
    WithRankOf(ts, highFirst, 2);
    WithRankOf(ts, highFirst, 3);
    RanksAscend(a, b, c, d, highFirst);
  }

  lemma RanksAscend(a: seq<Triggered>, b: seq<Triggered>, c: seq<Triggered>, d: seq<Triggered>, highFirst: bool)
    requires forall t :: t in a ==> Rank(t, highFirst) == 0
    requires forall t :: t in b ==> Rank(t, highFirst) == 1
    requires forall t :: t in c ==> Rank(t, highFirst) == 2
    requires forall t :: t in d ==> Rank(t, highFirst) == 3
    ensures var s := a + b + c + d;
            forall i, j :: 0 <= i < j < |s| ==> Rank(s[i], highFirst) <= Rank(s[j], highFirst)
  {
    var s := a + b + c + d;
    forall i | 0 <= i < |s|
      ensures Rank(s[i], highFirst)
              == if i < |a| then 0 else if i < |a| + |b| then 1 else if i < |a| + |b| + |c| then 2 else 3
    {
      if i < |a| {
        assert s[i] == a[i];
      } else if i < |a| + |b| {
        assert s[i] == b[i - |a|];
      } else if i < |a| + |b| + |c| {
        assert s[i] == c[i - |a| - |b|];
      } else {
        assert s[i] == d[i - |a| - |b| - |c|];
      }
    }
  }

  /** The leg of the assumed path on which a triggered order is first acceptable: 0 is the
      open instant, 1 the leg to the near extreme, 2 the leg to the far one. */
  function TouchLeg(bar: Bar, t: Triggered): nat {
    if t.atOpen then 0 else if t.high == HighFirst(bar) then 1 else 2
  }

  /** `t` is met no later than `u` on the path. */
  predicate MetNoLater(bar: Bar, t: Triggered, u: Triggered) {
    TouchLeg(bar, t) < TouchLeg(bar, u)
    || (TouchLeg(bar, t) == TouchLeg(bar, u)
        && (t.atOpen || Abs(t.price - bar.open) <= Abs(u.price - bar.open)))
  }

  /** What `TouchLeg` means: no earlier price of the path is acceptable to the order, and on its
      leg exactly the prices at least as far from the open as its fill price are. */
  lemma TouchLegMeaning(cfg: Config, o: Order, bar: Bar, x: real)
    requires Exact(cfg) && WellFormed(bar) && Trigger(cfg, o, bar).Some?
    ensures Conditional(o)
    ensures var t := Trigger(cfg, o, bar).value;
            var leg := TouchLeg(bar, t);
            && (leg == 0 <==> Acceptable(o, bar.open))
            && (leg >= 1 ==> Straddles(BarPath(bar)[leg - 1], BarPath(bar)[leg], t.price))
            && (leg >= 1 && Straddles(bar.open, BarPath(bar)[leg], x) ==>
                  (Acceptable(o, x) <==> Abs(x - bar.open) >= Abs(t.price - bar.open)))
            && (leg == 2 && Straddles(BarPath(bar)[0], BarPath(bar)[1], x) ==> !Acceptable(o, x))
  {
    TriggerMeaning(cfg, o, bar);
  }

  ghost predicate InTouchOrder(bar: Bar, ts: seq<Triggered>) {
    forall i, j :: 0 <= i < j < |ts| ==> MetNoLater(bar, ts[i], ts[j])
  }

  /** Two orders on one side of the bar, neither satisfied at the open, the first no farther from
      it than the second. Other pairs are as they may. */
  predicate NoFarther(bar: Bar, t: Triggered, u: Triggered) {
    t.atOpen || u.atOpen || t.high != u.high || Abs(t.price - bar.open) <= Abs(u.price - bar.open)
  }

  ghost predicate NearestFirst(bar: Bar, ts: seq<Triggered>) {
    forall i, j :: 0 <= i < j < |ts| ==> NoFarther(bar, ts[i], ts[j])
  }

  /** The queue holds, on each side, the orders the open does not satisfy nearest first. */
  ghost predicate QueuedNearestFirst(cfg: Config, os: seq<Order>, bar: Bar) {
    forall i, j :: 0 <= i < j < |os| && Trigger(cfg, os[i], bar).Some? && Trigger(cfg, os[j], bar).Some? ==>
                     NoFarther(bar, Trigger(cfg, os[i], bar).value, Trigger(cfg, os[j], bar).value)
  }

  /** Executing by rank follows the path exactly when, on each side, the orders the open does
      not satisfy were queued by increasing distance from it: equal ranks are not sorted by price. */
  lemma PathOrderFollowsPath(cfg: Config, os: seq<Order>, bar: Bar)
    ensures InTouchOrder(bar, PathOrder(TriggeredOrders(cfg, os, bar), HighFirst(bar)))
            <==> QueuedNearestFirst(cfg, os, bar)
  {
    var hf, ts := HighFirst(bar), TriggeredOrders(cfg, os, bar);
    hide TriggeredOrders, Trigger;
    TriggeredNearestFirst(cfg, os, bar);
    WithRankOf(ts, hf, 0);
    WithRankOf(ts, hf, 1);
    WithRankOf(ts, hf, 2);
    WithRankOf(ts, hf, 3);
    TouchOrderOfRanks(WithRank(ts, hf, 0), WithRank(ts, hf, 1), WithRank(ts, hf, 2), WithRank(ts, hf, 3), bar);
    RanksNearestFirst(ts, bar);
  }

  /** A list is nearest first when its first order is no farther than any other and the rest is. */
  lemma NearestFirstStep(bar: Bar, ts: seq<Triggered>)
    requires ts != []
    ensures NearestFirst(bar, ts)
            <==> (forall t :: t in ts[1..] ==> NoFarther(bar, ts[0], t)) && NearestFirst(bar, ts[1..])
  {
    hide NoFarther;
    var rest := ts[1..];
    if NearestFirst(bar, ts) {
      forall t | t in rest ensures NoFarther(bar, ts[0], t) {
        var k :| 0 <= k < |rest| && rest[k] == t;
        assert ts[k + 1] == t;
      }
      assert forall k :: 0 <= k < |rest| ==> rest[k] == ts[k + 1];
    }
    if (forall t :: t in rest ==> NoFarther(bar, ts[0], t)) && NearestFirst(bar, rest) {
      forall i, j | 0 <= i < j < |ts| ensures NoFarther(bar, ts[i], ts[j]) {
        assert ts[j] == rest[j - 1];
        assert i > 0 ==> ts[i] == rest[i - 1];
      }
    }
  }

  lemma {:induction false} TriggeredOf(cfg: Config, os: seq<Order>, bar: Bar)
    ensures forall t ::
              t in TriggeredOrders(cfg, os, bar) <==> exists k :: 0 <= k < |os| && Trigger(cfg, os[k], bar) == Some(t)
  {
    hide Trigger;
    if os != [] {
      TriggeredOf(cfg, os[1..], bar);
      forall t ensures t in TriggeredOrders(cfg, os, bar)
        <==> exists k :: 0 <= k < |os| && Trigger(cfg, os[k], bar) == Some(t) {
        if t in TriggeredOrders(cfg, os[1..], bar) {
          var k :| 0 <= k < |os[1..]| && Trigger(cfg, os[1..][k], bar) == Some(t);
          assert os[k + 1] == os[1..][k];
        }
        if exists k :: 0 <= k < |os| && Trigger(cfg, os[k], bar) == Some(t) {
          var k :| 0 <= k < |os| && Trigger(cfg, os[k], bar) == Some(t);
          assert k > 0 ==> os[1..][k - 1] == os[k];
        }
      }
    }
  }

  lemma {:induction false} TriggeredNearestFirst(cfg: Config, os: seq<Order>, bar: Bar)
    ensures NearestFirst(bar, TriggeredOrders(cfg, os, bar)) <==> QueuedNearestFirst(cfg, os, bar)
  {
    hide Trigger, NoFarther;
    if os != [] {
      var rest, t := os[1..], Trigger(cfg, os[0], bar);
      var ts := TriggeredOrders(cfg, rest, bar);
      TriggeredNearestFirst(cfg, rest, bar);
      TriggeredOf(cfg, rest, bar);
      assert forall k :: 0 <= k < |rest| ==> rest[k] == os[k + 1];
      if t.Some? {
        assert ([t.value] + ts)[1..] == ts;
        NearestFirstStep(bar, [t.value] + ts);
      } else {
        assert [] + ts == ts;
      }
      QueuedStep(cfg, os, bar);
    }
  }

  lemma QueuedStep(cfg: Config, os: seq<Order>, bar: Bar)
    requires os != []
    ensures var t := Trigger(cfg, os[0], bar);
            QueuedNearestFirst(cfg, os, bar)
            <==> QueuedNearestFirst(cfg, os[1..], bar)
                 && (t.Some? ==> forall u :: u in TriggeredOrders(cfg, os[1..], bar) ==> NoFarther(bar, t.value, u))
  {
    hide Trigger, NoFarther;
    var rest, t := os[1..], Trigger(cfg, os[0], bar);
    TriggeredOf(cfg, rest, bar);
    assert forall k :: 0 <= k < |rest| ==> rest[k] == os[k + 1];
    if QueuedNearestFirst(cfg, os, bar) && t.Some? {
      forall u | u in TriggeredOrders(cfg, rest, bar) ensures NoFarther(bar, t.value, u) {
        var k :| 0 <= k < |rest| && Trigger(cfg, rest[k], bar) == Some(u);
        assert os[k + 1] == rest[k];
      }
    }
    if QueuedNearestFirst(cfg, rest, bar)
       && (t.Some? ==> forall u :: u in TriggeredOrders(cfg, rest, bar) ==> NoFarther(bar, t.value, u)) {
      forall i, j | 0 <= i < j < |os| && Trigger(cfg, os[i], bar).Some? && Trigger(cfg, os[j], bar).Some?
        ensures NoFarther(bar, Trigger(cfg, os[i], bar).value, Trigger(cfg, os[j], bar).value)
      {
        assert os[j] == rest[j - 1];
        assert i > 0 ==> os[i] == rest[i - 1];
        assert Trigger(cfg, rest[j - 1], bar) == Some(Trigger(cfg, os[j], bar).value);
      }
    }
  }

  /** Nearest first on both sides, rank by rank. */
  lemma {:induction false} RanksNearestFirst(ts: seq<Triggered>, bar: Bar)
    ensures var hf := HighFirst(bar);
            NearestFirst(bar, ts) <==> InTouchOrder(bar, WithRank(ts, hf, 2)) && InTouchOrder(bar, WithRank(ts, hf, 3))
  {
    var hf := HighFirst(bar);
    if ts != [] {
      var t, rest := ts[0], ts[1..];
      RanksNearestFirst(rest, bar);
      NearestFirstStep(bar, ts);
      TouchOrderStep(t, rest, bar, 2);
      TouchOrderStep(t, rest, bar, 3);
      assert ts == [t] + rest;
      hide WithRank, InTouchOrder, NearestFirst, NoFarther, Rank;
      RanksCover(t, rest, bar);
    }
  }

  /** Two orders can be out of order only within one of the two later ranks. */
  lemma RanksCover(t: Triggered, rest: seq<Triggered>, bar: Bar)
    ensures var hf := HighFirst(bar);
            (forall u :: u in rest ==> NoFarther(bar, t, u))
            <==> (Rank(t, hf) == 2 ==> forall u :: u in rest && Rank(u, hf) == 2 ==> NoFarther(bar, t, u))
                 && (Rank(t, hf) == 3 ==> forall u :: u in rest && Rank(u, hf) == 3 ==> NoFarther(bar, t, u))
  {
    var hf := HighFirst(bar);
    forall u | u in rest && Rank(t, hf) != Rank(u, hf) ensures NoFarther(bar, t, u) {
    }
    forall u | u in rest && Rank(t, hf) < 2 ensures NoFarther(bar, t, u) {
    }
    assert Rank(t, hf) < 2 || Rank(t, hf) == 2 || Rank(t, hf) == 3;
    hide NoFarther, Rank;
  }

  lemma TouchOrderStep(t: Triggered, rest: seq<Triggered>, bar: Bar, r: nat)
    requires r == 2 || r == 3
    ensures var hf := HighFirst(bar);
            InTouchOrder(bar, WithRank([t] + rest, hf, r))
            <==> InTouchOrder(bar, WithRank(rest, hf, r))
                 && (Rank(t, hf) == r ==> forall u :: u in rest && Rank(u, hf) == r ==> NoFarther(bar, t, u))
  {
    var hf := HighFirst(bar);
    var ws := WithRank(rest, hf, r);
    assert ([t] + rest)[1..] == rest;
    WithRankOf(rest, hf, r);
    if Rank(t, hf) == r {
      assert forall u :: u in ws ==> MetNoLater(bar, t, u) == NoFarther(bar, t, u);
      hide MetNoLater, NoFarther, InTouchOrder, Rank;
      TouchOrderCons(t, ws, bar);
    } else {
      assert [] + ws == ws;
    }
  }

  lemma TouchOrderCons(t: Triggered, ws: seq<Triggered>, bar: Bar)
    ensures InTouchOrder(bar, [t] + ws) <==> InTouchOrder(bar, ws) && forall u :: u in ws ==> MetNoLater(bar, t, u)
  {
    hide MetNoLater;
    var vs := [t] + ws;
    if InTouchOrder(bar, vs) {
      assert forall k :: 0 <= k < |ws| ==> ws[k] == vs[k + 1];
      forall u | u in ws ensures MetNoLater(bar, t, u) {
        var k :| 0 <= k < |ws| && ws[k] == u;
        assert vs[k + 1] == u && vs[0] == t;
      }
    }
    if InTouchOrder(bar, ws) && forall u :: u in ws ==> MetNoLater(bar, t, u) {
      forall i, j | 0 <= i < j < |vs| ensures MetNoLater(bar, vs[i], vs[j]) {
        assert vs[j] == ws[j - 1];
        assert i > 0 ==> vs[i] == ws[i - 1];
      }
    }
  }

  lemma TouchOrderOfRanks(a: seq<Triggered>, b: seq<Triggered>, c: seq<Triggered>, d: seq<Triggered>, bar: Bar)
    requires forall t :: t in a ==> Rank(t, HighFirst(bar)) == 0
    requires forall t :: t in b ==> Rank(t, HighFirst(bar)) == 1
    requires forall t :: t in c ==> Rank(t, HighFirst(bar)) == 2
    requires forall t :: t in d ==> Rank(t, HighFirst(bar)) == 3
    ensures InTouchOrder(bar, a + b + c + d) <==> InTouchOrder(bar, c) && InTouchOrder(bar, d)
  {
    var early, s := a + b, a + b + c + d;
    assert forall i :: 0 <= i < |early| ==> s[i] == early[i] && early[i] in early;
    assert forall i :: 0 <= i < |c| ==> c[i] == s[|early| + i];
    assert forall i :: 0 <= i < |d| ==> d[i] == s[|early| + |c| + i];
    assert forall t :: t in early ==> TouchLeg(bar, t) == 0;
    assert forall t :: t in c ==> TouchLeg(bar, t) == 1;
    assert forall t :: t in d ==> TouchLeg(bar, t) == 2;
    hide Rank, TouchLeg;
    if InTouchOrder(bar, c) && InTouchOrder(bar, d) {
      forall i, j | 0 <= i < j < |s| ensures MetNoLater(bar, s[i], s[j]) {
        TouchOrderPair(early, c, d, bar, i, j);
      }
    }
  }

  lemma TouchOrderPair(a: seq<Triggered>, c: seq<Triggered>, d: seq<Triggered>, bar: Bar, i: int, j: int)
    requires forall t :: t in a ==> TouchLeg(bar, t) == 0
    requires forall t :: t in c ==> TouchLeg(bar, t) == 1
    requires forall t :: t in d ==> TouchLeg(bar, t) == 2
    requires InTouchOrder(bar, c) && InTouchOrder(bar, d)
    requires 0 <= i < j < |a + c + d|
    ensures MetNoLater(bar, (a + c + d)[i], (a + c + d)[j])
  {
    var s := a + c + d;
    var n, m := |a|, |a| + |c|;
    if i < n {
      assert s[i] == a[i];
      assert j < n ==> s[j] == a[j];
      assert n <= j < m ==> s[j] == c[j - n];
      assert m <= j ==> s[j] == d[j - m];
    } else if j < m {
      assert s[i] == c[i - n] && s[j] == c[j - n];
    } else if i < m {
      assert s[i] == c[i - n] && s[j] == d[j - m];
    } else {
      assert s[i] == d[i - m] && s[j] == d[j - m];
    }
  }

  /** Two buy stops queued far one first: the engine fills 105 before 103 on an open-to-high leg. */
  lemma SameSideOrdersNotSorted(far: Triggered, near: Triggered, bar: Bar)
    requires bar == Bar(100.0, 110.0, 80.0, 105.0)
    requires far.high && near.high && !far.atOpen && !near.atOpen && far.price == 105.0 && near.price == 103.0
    ensures PathOrder([far, near], HighFirst(bar)) == [far, near]
    ensures !MetNoLater(bar, far, near)
  {
    var hf, ts := HighFirst(bar), [far, near];
    assert ts[1..] == [near] && [near][1..] == [];
    assert WithRank([near], hf, 2) == [near];
    assert WithRank(ts, hf, 2) == [far, near];
    NoneWithRank(ts, hf, 0);
    NoneWithRank(ts, hf, 1);
    NoneWithRank(ts, hf, 3);
  }

  lemma {:induction false} NoneWithRank(ts: seq<Triggered>, highFirst: bool, r: nat)
    requires forall t :: t in ts ==> Rank(t, highFirst) != r
    ensures WithRank(ts, highFirst, r) == []
  {
    if ts != [] {
      NoneWithRank(ts[1..], highFirst, r);
    }
  }

  // ---- Fill prices -------------------------------------------------------------------

  /** Every record logged after the first `n` is priced inside the bar. */
  ghost predicate LoggedInBar(fills: seq<Fill>, n: nat, bar: Bar) {
    forall k :: n <= k < |fills| ==> InBar(bar, fills[k].price)
  }

  lemma {:induction false} TriggeredInBar(cfg: Config, os: seq<Order>, bar: Bar)
    requires Exact(cfg) && WellFormed(bar)
    ensures forall t :: t in TriggeredOrders(cfg, os, bar) ==> InBar(bar, t.price)
  {
    if os != [] {
      TriggerMeaning(cfg, os[0], bar);
      TriggeredInBar(cfg, os[1..], bar);
    }
  }

  lemma FillAtLogs(cfg: Config, st: State, o: Order, price: real, bn: int, n: nat, bar: Bar)
    requires LoggedInBar(st.fills, n, bar) && InBar(bar, price)
    ensures LoggedInBar(FillAt(cfg, st, o, price, bn).fills, n, bar)
  {
    hide Exit, Enter;
    var st' := FillOrder(cfg, st, o.action, FillQty(st.book, o), price, bn, o.tag);
    FillOrderKeepsLog(cfg, st, o.action, FillQty(st.book, o), price, bn, o.tag);
  }

  lemma FillOrderKeepsLog(cfg: Config, st: State, action: Action, qty: nat, price: real, bn: int, tag: string)
    requires qty >= 1
    ensures FillOrder(cfg, st, action, qty, price, bn, tag).fills == st.fills
  {
  }

  lemma {:induction false} MarketLogs(cfg: Config, st: State, os: seq<Order>, price: real, bn: int, n: nat, bar: Bar)
    requires LoggedInBar(st.fills, n, bar) && InBar(bar, price)
    ensures LoggedInBar(FillMarket(cfg, st, os, price, bn).fills, n, bar)
    decreases |os|
  {
    hide FillAt, LoggedInBar;
    if os != [] {
      FillAtLogs(cfg, st, os[0], price, bn, n, bar);
      MarketLogs(cfg, FillAt(cfg, st, os[0], price, bn), os[1..], price, bn, n, bar);
    }
  }

  lemma {:induction false} TriggeredLog(cfg: Config, st: State, ts: seq<Triggered>, bn: int, n: nat, bar: Bar)
    requires LoggedInBar(st.fills, n, bar) && forall t :: t in ts ==> InBar(bar, t.price)
    ensures LoggedInBar(FillTriggered(cfg, st, ts, bn).fills, n, bar)
    decreases |ts|
  {
    hide FillAt, LoggedInBar;
    if ts != [] {
      FillAtLogs(cfg, st, ts[0].order, ts[0].price, bn, n, bar);
      TriggeredLog(cfg, FillAt(cfg, st, ts[0].order, ts[0].price, bn), ts[1..], bn, n, bar);
    }
  }

  /** Every contract a bar's pending orders fill is priced inside the bar, and the queue is
      empty afterwards. */
  lemma PendingFillsInBar(cfg: Config, st: State, bar: Bar, bn: int)
    requires Exact(cfg) && WellFormed(bar)
    ensures var st' := ExecutePending(cfg, st, bar, bn);
            LoggedInBar(st'.fills, |st.fills|, bar) && st'.pending == []
  {
    var hf := HighFirst(bar);
    var ts := TriggeredOrders(cfg, st.pending, bar);
    TriggeredInBar(cfg, st.pending, bar);
    PathOrderIsStableSort(ts, hf);
    hide FillMarket, FillTriggered, MarketOrders, TriggeredOrders, PathOrder;
    MarketLogs(cfg, st, MarketOrders(st.pending), bar.open, bn, |st.fills|, bar);
    TriggeredLog(cfg, FillMarket(cfg, st, MarketOrders(st.pending), bar.open, bn), PathOrder(ts, hf), bn, |st.fills|,
                 bar);
  }

  // ---- Queues live one bar ---------------------------------------------------------------

  lemma QueuesEmptied(cfg: Config, st: State, bar: Bar, bn: int)
    requires cfg.pv != 0.0
    ensures BeforeBar(cfg, st, bar, bn).pending == [] && BeforeBar(cfg, st, bar, bn).onClose == []
  {
    hide FillCloseOrders, FillMarket, FillTriggered, CheckStops, PathOrder, TriggeredOrders, MarketOrders;
    var st1 := ExecuteOnClose(cfg, st);
    MarketKeepsClose(cfg, st1, MarketOrders(st1.pending), bar.open, bn);
    TriggeredKeepClose(cfg, FillMarket(cfg, st1, MarketOrders(st1.pending), bar.open, bn),
                       PathOrder(TriggeredOrders(cfg, st1.pending, bar), HighFirst(bar)), bn);
    StopsKeepQueues(cfg, ExecutePending(cfg, st1, bar, bn), bar, bn);
  }

  lemma StopsKeepQueues(cfg: Config, st: State, bar: Bar, bn: int)
    requires cfg.pv != 0.0
    ensures CheckStops(cfg, st, bar, bn).pending == st.pending && CheckStops(cfg, st, bar, bn).onClose == st.onClose
  {
    hide StopFill;
  }

  lemma {:induction false} MarketKeepsClose(cfg: Config, st: State, os: seq<Order>, price: real, bn: int)
    ensures FillMarket(cfg, st, os, price, bn).onClose == st.onClose
    decreases |os|
  {
    if os != [] {
      MarketKeepsClose(cfg, FillAt(cfg, st, os[0], price, bn), os[1..], price, bn);
    }
  }

  lemma {:induction false} TriggeredKeepClose(cfg: Config, st: State, ts: seq<Triggered>, bn: int)
    ensures FillTriggered(cfg, st, ts, bn).onClose == st.onClose
    decreases |ts|
  {
    if ts != [] {
      TriggeredKeepClose(cfg, FillAt(cfg, st, ts[0].order, ts[0].price, bn), ts[1..], bn);
    }
  }

  /** In every run, after a bar that trades, whatever is queued was queued by that bar. */
  lemma NoOrderOutlivesItsBar(cfg: Config, win: Window, evs: seq<Event>)
    requires cfg.pv != 0.0 && evs != []
    requires Trading(win, Run(cfg, win, evs[..|evs| - 1]).index)
    ensures var st := Run(cfg, win, evs).engine;
            var ev := evs[|evs| - 1];
            if ev.outcome.Threw? then st.pending == [] && st.onClose == []
            else
              st.pending == Queued(ValidOrders(ev.outcome.orders))
              && st.onClose == Stashed(cfg, ValidOrders(ev.outcome.orders), ev.bar.close, Run(cfg, win, evs).bn)
  {
    hide Step, Stashed, Queued, ValidOrders;
    StepQueues(cfg, win, Run(cfg, win, evs[..|evs| - 1]), evs[|evs| - 1]);
  }

  lemma StepQueues(cfg: Config, win: Window, l: Loop, ev: Event)
    requires cfg.pv != 0.0 && Trading(win, l.index)
    ensures var l' := Step(cfg, win, l, ev);
            if ev.outcome.Threw? then l'.engine.pending == [] && l'.engine.onClose == []
            else
              l'.engine.pending == Queued(ValidOrders(ev.outcome.orders))
              && l'.engine.onClose == Stashed(cfg, ValidOrders(ev.outcome.orders), ev.bar.close, l'.bn)
  {
    hide BeforeBar, AtBar, Stashed, Queued, ValidOrders, UpdateRisk, ResolvePoints, MarkToMarket;
    var st := AtBar(cfg, win, l, ev);
    QueuesEmptied(cfg, st, ev.bar, l.bn + 1);
    if ev.outcome.Returned? {
      var b := BeforeBar(cfg, st, ev.bar, l.bn + 1);
      StashedFirst(b, cfg, ev.outcome.orders, ev.outcome.risk, ev.bar.close, l.bn + 1);
    }
  }

  lemma StashedFirst(st: State, cfg: Config, os: seq<Option<Order>>, u: RiskUpdate, close: real, bn: int)
    requires st.onClose == []
    ensures var st' := AfterBar(cfg, st, os, u, close, bn);
            st'.pending == Queued(ValidOrders(os)) && st'.onClose == Stashed(cfg, ValidOrders(os), close, bn)
  {
    assert [] + Stashed(cfg, ValidOrders(os), close, bn) == Stashed(cfg, ValidOrders(os), close, bn);
  }
}
