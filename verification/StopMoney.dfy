/** What the protective levels are in money: an exit at a stop loses the amount set, within a tick,
    and a position that is held owes nothing. */
module StopMoney {
  import opened Sequences
  import opened EngineModel
  import opened StopWalk
  import opened EngineRun
  import opened StopTheorems
  import opened StopRuns

  // ---- Money ------------------------------------------------------------------------------

  /** What closing the whole position at `x` adds to the net profit. */
  function Worth(cfg: Config, st: State, x: real): real {
    CloseAtStop(cfg, st, x, "", 0).ledger.net - st.ledger.net
  }

  lemma ProfitIsWorth(cfg: Config, st: State, x: real)
    requires Open(st.book)
    ensures Worth(cfg, st, x) == ProfitAt(cfg, st.book, x)
  {
    var b := st.book;
    ClosingPays(cfg, st, x);
    hide CloseAtStop;
    SideProfit(b.mp, b.entryPrice, x, cfg.pv, b.contracts as real);
  }

  lemma ClosingPays(cfg: Config, st: State, x: real)
    requires st.book.mp != 0
    ensures Worth(cfg, st, x) == ExitPnl(cfg, st.book, st.book.contracts, x)
  {
    hide TradeOf, RecordStats, Repeat, ExitPnl, Consume;
  }

  lemma SideProfit(mp: int, entry: real, x: real, pv: real, n: real)
    requires mp == 1 || mp == -1
    ensures Gain(mp, entry, x) * pv * n == (x - entry) * mp as real * (pv * n)
  {
    if mp == 1 {
      assert (x - entry) * 1.0 == x - entry;
    } else {
      assert (x - entry) * -1.0 == entry - x;
    }
  }

  /** No price of the bar is worth more than the favorable extreme. */
  lemma ExtremeIsBest(cfg: Config, st: State, bar: Bar, x: real)
    requires cfg.pv > 0.0 && Open(st.book) && bar.low <= x <= bar.high
    ensures Worth(cfg, st, x) <= Worth(cfg, st, FavorableExtreme(st.book, bar))
  {
    ProfitIsWorth(cfg, st, x);
    ProfitIsWorth(cfg, st, FavorableExtreme(st.book, bar));
    hide Worth, FavorableExtreme;
    assert if st.book.mp > 0 then x <= FavorableExtreme(st.book, bar) else x >= FavorableExtreme(st.book, bar) by {
      ExtremeIs(st.book, bar);
    }
    ProfitGrows(cfg, st.book, x, FavorableExtreme(st.book, bar));
  }

  lemma ExtremeIs(b: Book, bar: Bar)
    ensures FavorableExtreme(b, bar) == if b.mp > 0 then bar.high else bar.low
  {
  }

  /** Profit grows with the price of a long and falls with that of a short. */
  lemma ProfitGrows(cfg: Config, b: Book, x: real, y: real)
    requires cfg.pv > 0.0 && Open(b) && if b.mp > 0 then x <= y else x >= y
    ensures ProfitAt(cfg, b, x) <= ProfitAt(cfg, b, y)
    ensures x != y ==> ProfitAt(cfg, b, x) < ProfitAt(cfg, b, y)
  {
    PositivePoint(cfg, b);
    var d := DollarsPerPoint(cfg, b);
    hide DollarsPerPoint;
    Ordered((x - b.entryPrice) * b.mp as real, (y - b.entryPrice) * b.mp as real, d);
  }

  lemma Ordered(a: real, b: real, d: real)
    requires d > 0.0 && a <= b
    ensures a * d <= b * d && (a < b ==> a * d < b * d)
  {
    assert (b - a) * d >= 0.0;
  }

  // ---- What a level stands for ----------------------------------------------------------------

  const TARGET := "profit_target"
  const LOSS := "stop_loss"
  const EVEN := "breakeven"
  const TRAIL := "trailing_stop"
  const DOLLAR := "dollar_trailing"

  /** The setting is on at peak profit `peak`. */
  predicate Armed(r: Risk, peak: real, reason: string) {
    if reason == TARGET then r.profitTarget > 0.0
    else if reason == LOSS then r.stopLoss > 0.0
    else if reason == EVEN then r.breakeven > 0.0 && peak >= r.breakeven
    else if reason == TRAIL then HasTrail(r) && peak >= r.percentTrailing.value.0
    else reason == DOLLAR && r.dollarTrailing > 0.0
  }

  /** The profit of `n` contracts at which it closes the position: target and stop-loss are set per
      contract, the trailing amounts for the position. */
  function Due(r: Risk, n: nat, peak: real, reason: string): real
    requires Armed(r, peak, reason)
  {
    if reason == TARGET then r.profitTarget * n as real
    else if reason == LOSS then -r.stopLoss * n as real
    else if reason == EVEN then 0.0
    else if reason == TRAIL then peak - peak * r.percentTrailing.value.1 / 100.0
    else peak - r.dollarTrailing
  }

  /** `a` is at most `b`, by less than `grid`. */
  predicate Near(a: real, b: real, grid: real) {
    a <= b && (b - a < grid || a == b)
  }

  /** One tick of the whole position. */
  function TickMoney(cfg: Config, b: Book): real {
    cfg.tick * cfg.pv * b.contracts as real
  }

  /** A profit of `won` settles what is due: the target gives no less, the others no more. */
  predicate Settles(reason: string, won: real, due: real) {
    if reason == TARGET then won >= due else won <= due
  }

  predicate Closely(cfg: Config, b: Book, reason: string, won: real, due: real) {
    if reason == TARGET then Near(due, won, TickMoney(cfg, b)) else Near(won, due, TickMoney(cfg, b))
  }

  // ---- Snapping -------------------------------------------------------------------------------

  lemma FloorNear(q: real, t: real, p: real, x: real)
    requires t > 0.0 && q * t == p && q.Floor as real * t == x
    ensures Near(x, p, t)
  {
    var f := q.Floor as real;
    assert q - f < 1.0;
    Ordered(f, q, t);
    Ordered(q - f, 1.0, t);
    assert (q - f) * t == q * t - f * t;
  }

  lemma DivideTimes(a: real, b: real, q: real)
    requires b > 0.0 && q == a / b
    ensures q * b == a && (-q) * b == -a
  {
  }

  lemma SnapIs(cfg: Config, price: real, q: real, p: real)
    requires Exactly(cfg) && cfg.tick > 0.0 && q == price / cfg.tick && p == -q
    ensures q.Floor as real * cfg.tick == Snap(cfg, price, true)
    ensures p.Floor as real * cfg.tick == -Snap(cfg, price, false)
  {
    assert q + cfg.eps == q && -(q - cfg.eps) == p;
    assert F32(cfg, q.Floor as real * cfg.tick) == q.Floor as real * cfg.tick;
    assert F32(cfg, (-p.Floor) as real * cfg.tick) == (-p.Floor) as real * cfg.tick;
    NegatedTimes(p.Floor, cfg.tick);
  }

  lemma NegatedTimes(m: int, b: real)
    ensures (-m) as real * b == -(m as real * b)
  {
    assert (-m) as real == -(m as real);
  }

  /** A snapped price is within a tick of the price, on the side it is snapped to. */
  lemma SnapIsNear(cfg: Config, price: real)
    requires Exactly(cfg)
    ensures Near(Snap(cfg, price, true), price, cfg.tick) && Near(price, Snap(cfg, price, false), cfg.tick)
  {
    if cfg.tick > 0.0 {
      var q := price / cfg.tick;
      var p := -q;
      SnapIs(cfg, price, q, p);
      DivideTimes(price, cfg.tick, q);
      hide *;
      FloorNear(q, cfg.tick, price, Snap(cfg, price, true));
      FloorNear(p, cfg.tick, -price, -Snap(cfg, price, false));
      NearNegated(Snap(cfg, price, false), price, cfg.tick);
    }
  }

  lemma NearNegated(x: real, y: real, grid: real)
    requires Near(-x, -y, grid)
    ensures Near(y, x, grid)
  {
  }

  lemma NearTimes(a: real, b: real, grid: real, d: real, x: real, y: real, z: real)
    requires Near(a, b, grid) && d > 0.0 && x == a * d && y == b * d && z == grid * d
    ensures Near(x, y, z)
  {
    Ordered(a, b, d);
    if a != b {
      Ordered(b - a, grid, d);
      assert (b - a) * d == b * d - a * d;
    }
  }

  /** A level `points` from the entry, snapped against the position or for it. */
  lemma OffsetIsNear(cfg: Config, b: Book, points: real, due: real)
    requires Exactly(cfg) && Open(b) && points * DollarsPerPoint(cfg, b) == due
    ensures Near(ProfitAt(cfg, b, Offset(cfg, b, points, b.mp > 0)), due, TickMoney(cfg, b))
    ensures Near(due, ProfitAt(cfg, b, Offset(cfg, b, points, !(b.mp > 0))), TickMoney(cfg, b))
  {
    PositivePoint(cfg, b);
    hide *;
    var behind, ahead := Offset(cfg, b, points, b.mp > 0), Offset(cfg, b, points, !(b.mp > 0));
    PointsAreNear(cfg, b, points);
    NearProfit(cfg, b, behind, points, due);
    NearProfit(cfg, b, ahead, points, due);
  }

  lemma NearProfit(cfg: Config, b: Book, x: real, points: real, due: real)
    requires Open(b) && DollarsPerPoint(cfg, b) > 0.0 && points * DollarsPerPoint(cfg, b) == due
    ensures Near(Points(b, x), points, cfg.tick) ==> Near(ProfitAt(cfg, b, x), due, TickMoney(cfg, b))
    ensures Near(points, Points(b, x), cfg.tick) ==> Near(due, ProfitAt(cfg, b, x), TickMoney(cfg, b))
  {
    ProfitOfPoints(cfg, b, x);
    TickOfPosition(cfg, b);
    hide *;
    var p, d := Points(b, x), DollarsPerPoint(cfg, b);
    if Near(p, points, cfg.tick) {
      NearTimes(p, points, cfg.tick, d, ProfitAt(cfg, b, x), due, TickMoney(cfg, b));
    }
    if Near(points, p, cfg.tick) {
      NearTimes(points, p, cfg.tick, d, due, ProfitAt(cfg, b, x), TickMoney(cfg, b));
    }
  }

  /** How far `x` is on the winning side of the entry. */
  function Points(b: Book, x: real): real {
    if b.mp > 0 then x - b.entryPrice else b.entryPrice - x
  }

  lemma ProfitOfPoints(cfg: Config, b: Book, x: real)
    requires Open(b)
    ensures ProfitAt(cfg, b, x) == Points(b, x) * DollarsPerPoint(cfg, b)
  {
    assert (x - b.entryPrice) * b.mp as real == Points(b, x);
    hide DollarsPerPoint;
  }

  lemma PointsAreNear(cfg: Config, b: Book, points: real)
    requires Exactly(cfg)
    ensures Near(Points(b, Offset(cfg, b, points, b.mp > 0)), points, cfg.tick)
    ensures Near(points, Points(b, Offset(cfg, b, points, !(b.mp > 0))), cfg.tick)
  {
    hide Snap;
    var price := if b.mp > 0 then b.entryPrice + points else b.entryPrice - points;
    SnapIsNear(cfg, price);
  }

  lemma PointMoney(amount: real, pv: real, n: real)
    requires pv > 0.0
    ensures (amount / pv) * (pv * n) == amount * n
  {
    assert (amount / pv) * pv == amount;
    assert (amount / pv) * (pv * n) == (amount / pv) * pv * n;
  }

  lemma ShareMoney(amount: real, d: real)
    requires d > 0.0
    ensures amount / d * d == amount
  {
  }

  lemma TickOfPosition(cfg: Config, b: Book)
    ensures cfg.tick * DollarsPerPoint(cfg, b) == TickMoney(cfg, b)
  {
  }

  lemma ReasonsDiffer()
    ensures |TARGET| == 13 && |LOSS| == 9 && |EVEN| == 9 && |TRAIL| == 13 && |DOLLAR| == 15
    ensures TARGET != TRAIL && LOSS != EVEN
  {
    assert TARGET[0] == 'p' && TRAIL[0] == 't' && LOSS[0] == 's' && EVEN[0] == 'b';
  }

  // ---- Each level -------------------------------------------------------------------------------

  /** The level stands for `reason`, on the side that can lose or win it, at what is due. */
  ghost predicate Stands(cfg: Config, r: Risk, b: Book, peak: real, l: Level) {
    && Armed(r, peak, l.reason)
    && l.up == ((l.reason == TARGET) == (b.mp > 0))
    && Closely(cfg, b, l.reason, ProfitAt(cfg, b, l.price), Due(r, b.contracts, peak, l.reason))
  }

  lemma TargetStands(cfg: Config, r: Risk, b: Book, peak: real)
    requires Exactly(cfg) && Open(b)
    ensures forall l :: l in TargetLevel(cfg, r, b) ==> l.reason == TARGET && Stands(cfg, r, b, peak, l)
    ensures Armed(r, peak, TARGET) <==> TargetLevel(cfg, r, b) != []
  {
    ReasonsDiffer();
    hide ProfitAt, Offset, Exact, TickMoney, DollarsPerPoint, Near;
    PerContract(cfg, b, r.profitTarget);
    if Armed(r, peak, TARGET) {
      OffsetIsNear(cfg, b, r.profitTarget / cfg.pv, Due(r, b.contracts, peak, TARGET));
    }
  }

  lemma PerContract(cfg: Config, b: Book, amount: real)
    requires cfg.pv > 0.0
    ensures (amount / cfg.pv) * DollarsPerPoint(cfg, b) == amount * b.contracts as real
    ensures -(amount / cfg.pv) * DollarsPerPoint(cfg, b) == -amount * b.contracts as real
  {
    PointMoney(amount, cfg.pv, b.contracts as real);
    var d := DollarsPerPoint(cfg, b);
    assert -(amount / cfg.pv) * d == -((amount / cfg.pv) * d);
    assert -amount * b.contracts as real == -(amount * b.contracts as real);
  }

  lemma LossStands(cfg: Config, r: Risk, b: Book, peak: real)
    requires Exactly(cfg) && Open(b)
    ensures forall l :: l in StopLevel(cfg, r, b) ==> l.reason == LOSS && Stands(cfg, r, b, peak, l)
    ensures Armed(r, peak, LOSS) <==> StopLevel(cfg, r, b) != []
  {
    ReasonsDiffer();
    hide ProfitAt, Offset, Exact, TickMoney, DollarsPerPoint, Near;
    PerContract(cfg, b, r.stopLoss);
    if Armed(r, peak, LOSS) {
      OffsetIsNear(cfg, b, -(r.stopLoss / cfg.pv), Due(r, b.contracts, peak, LOSS));
    }
  }

  lemma EvenStands(cfg: Config, r: Risk, b: Book, peak: real)
    requires Exactly(cfg) && Open(b)
    ensures forall l :: l in BreakevenLevel(r, b, peak) ==> l.reason == EVEN && Stands(cfg, r, b, peak, l)
    ensures Armed(r, peak, EVEN) <==> BreakevenLevel(r, b, peak) != []
  {
    ReasonsDiffer();
    hide Exact, DollarsPerPoint;
    assert ProfitAt(cfg, b, b.entryPrice) == 0.0;
  }

  lemma TrailStands(cfg: Config, r: Risk, b: Book, peak: real)
    requires Exactly(cfg) && Open(b) && DollarsPerPoint(cfg, b) > 0.0
    ensures forall l :: l in TrailLevel(cfg, r, b, peak) ==> l.reason == TRAIL && Stands(cfg, r, b, peak, l)
    ensures Armed(r, peak, TRAIL) <==> TrailLevel(cfg, r, b, peak) != []
  {
    ReasonsDiffer();
    hide ProfitAt, Offset, Exact, TickMoney, DollarsPerPoint, Near;
    if HasTrail(r) {
      var d, kept := DollarsPerPoint(cfg, b), peak - GiveBack(r, peak);
      ShareMoney(kept, d);
      OffsetIsNear(cfg, b, kept / d, kept);
      assert TrailPrice(cfg, r, b, peak) == Offset(cfg, b, kept / d, b.mp > 0);
      assert Armed(r, peak, TRAIL) ==> Due(r, b.contracts, peak, TRAIL) == kept;
    }
  }

  lemma DollarStands(cfg: Config, r: Risk, b: Book, peak: real)
    requires Exactly(cfg) && Open(b) && DollarsPerPoint(cfg, b) > 0.0
    ensures forall l :: l in DollarLevel(cfg, r, b, peak) ==> l.reason == DOLLAR && Stands(cfg, r, b, peak, l)
    ensures Armed(r, peak, DOLLAR) <==> DollarLevel(cfg, r, b, peak) != []
  {
    ReasonsDiffer();
    hide ProfitAt, Offset, Exact, TickMoney, DollarsPerPoint, Near;
    var d := DollarsPerPoint(cfg, b);
    ShareMoney(peak - r.dollarTrailing, d);
    OffsetIsNear(cfg, b, (peak - r.dollarTrailing) / d, peak - r.dollarTrailing);
  }

  /** Every active level stands for the money of a setting that is on, and every setting that is on
      has a level. */
  lemma LevelsStand(cfg: Config, r: Risk, b: Book, peak: real)
    requires Exactly(cfg) && Open(b) && DollarsPerPoint(cfg, b) > 0.0
    ensures forall l :: l in Levels(cfg, r, b, peak) ==> Stands(cfg, r, b, peak, l)
    ensures forall reason :: Armed(r, peak, reason) ==> exists l :: l in Levels(cfg, r, b, peak) && l.reason == reason
  {
    TargetStands(cfg, r, b, peak);
    LossStands(cfg, r, b, peak);
    EvenStands(cfg, r, b, peak);
    TrailStands(cfg, r, b, peak);
    DollarStands(cfg, r, b, peak);
    var ts, ls, es := TargetLevel(cfg, r, b), StopLevel(cfg, r, b), BreakevenLevel(r, b, peak);
    var ps, ds := TrailLevel(cfg, r, b, peak), DollarLevel(cfg, r, b, peak);
    OneOfFive(ts, ls, es, ps, ds);
    hide Stands, Armed, TargetLevel, StopLevel, BreakevenLevel, TrailLevel, DollarLevel, DollarsPerPoint;
    forall reason | Armed(r, peak, reason) ensures exists l :: l in Levels(cfg, r, b, peak) && l.reason == reason {
      ArmedIsKnown(r, peak, reason);
      var own := if reason == TARGET then ts else if reason == LOSS then ls else if reason == EVEN then es
                 else if reason == TRAIL then ps else ds;
      assert own[0] in Levels(cfg, r, b, peak) && own[0].reason == reason;
    }
  }

  lemma ArmedIsKnown(r: Risk, peak: real, reason: string)
    requires Armed(r, peak, reason)
    ensures reason == TARGET || reason == LOSS || reason == EVEN || reason == TRAIL || reason == DOLLAR
  {
  }

  lemma OneOfFive(a: seq<Level>, b: seq<Level>, c: seq<Level>, d: seq<Level>, e: seq<Level>)
    ensures forall l :: l in a + b + c + d + e <==> l in a || l in b || l in c || l in d || l in e
  {
  }

  // ---- Exits ------------------------------------------------------------------------------------

  /** Where a level is crossed, its money is settled. */
  lemma CrossedSettles(cfg: Config, r: Risk, b: Book, peak: real, l: Level, x: real)
    requires Exactly(cfg) && Open(b) && Stands(cfg, r, b, peak, l) && Crossed(l, x, 0.0)
    ensures Settles(l.reason, ProfitAt(cfg, b, x), Due(r, b.contracts, peak, l.reason))
  {
    hide ProfitAt, Due, TickMoney, Armed;
    if (l.reason == TARGET) == (b.mp > 0) {
      if b.mp > 0 { ProfitGrows(cfg, b, l.price, x); } else { ProfitGrows(cfg, b, x, l.price); }
    } else {
      if b.mp > 0 { ProfitGrows(cfg, b, x, l.price); } else { ProfitGrows(cfg, b, l.price, x); }
    }
  }

  /** A tick or more is missing from what is due. */
  predicate Unsettled(cfg: Config, b: Book, reason: string, profit: real, due: real) {
    if reason == TARGET then profit < due + TickMoney(cfg, b) else profit > due - TickMoney(cfg, b)
  }

  lemma UncrossedIsUnsettled(cfg: Config, r: Risk, b: Book, peak: real, l: Level, x: real)
    requires Exactly(cfg) && Open(b) && Stands(cfg, r, b, peak, l) && !Crossed(l, x, 0.0)
    ensures Unsettled(cfg, b, l.reason, ProfitAt(cfg, b, x), Due(r, b.contracts, peak, l.reason))
  {
    TickIsPaid(cfg, b);
    hide ProfitAt, Due, TickMoney, Armed;
    if (l.reason == TARGET) == (b.mp > 0) {
      if b.mp > 0 { ProfitGrows(cfg, b, x, l.price); } else { ProfitGrows(cfg, b, l.price, x); }
    } else {
      if b.mp > 0 { ProfitGrows(cfg, b, l.price, x); } else { ProfitGrows(cfg, b, x, l.price); }
    }
  }

  lemma TickIsPaid(cfg: Config, b: Book)
    requires cfg.tick >= 0.0 && cfg.pv > 0.0
    ensures TickMoney(cfg, b) >= 0.0
  {
    assert cfg.tick * cfg.pv >= 0.0;
  }

  /** The position was closed on leg `i` of the path at `price`, logged under `reason`, a setting that
      was on at the peak profit of the time; the net profit moved by what that setting makes due, to
      the tick unless the bar opened beyond it. */
  ghost predicate Paid(cfg: Config, st: State, bar: Bar, st': State, reason: string, price: real, i: nat) {
    var b, peak, won := st.book, PeakDuring(cfg, st.book, bar, i), st'.ledger.net - st.ledger.net;
    && OnLeg(bar, i, price)
    && st'.fills == st.fills + Repeat(Fill(b.mp < 0, reason, price), b.contracts)
    && Armed(st.risk, peak, reason)
    && Settles(reason, won, Due(st.risk, b.contracts, peak, reason))
    && ((i == 0 && price == bar.open) || Closely(cfg, b, reason, won, Due(st.risk, b.contracts, peak, reason)))
  }

  /** What is due at any setting that is on is not yet there at price `x` of leg `i`. */
  ghost predicate NothingDue(cfg: Config, st: State, bar: Bar, i: nat, x: real) {
    var peak := PeakDuring(cfg, st.book, bar, i);
    forall reason :: Armed(st.risk, peak, reason) ==>
      Unsettled(cfg, st.book, reason, Worth(cfg, st, x), Due(st.risk, st.book.contracts, peak, reason))
  }

  lemma ClosingLogs(cfg: Config, st: State, x: real, reason: string, bn: int)
    requires Open(st.book)
    ensures var st' := CloseAtStop(cfg, st, x, reason, bn);
            && st'.ledger.net - st.ledger.net == Worth(cfg, st, x)
            && st'.fills == st.fills + Repeat(Fill(st.book.mp < 0, reason, x), st.book.contracts)
  {
    hide TradeOf, RecordStats, Repeat, ExitPnl, Consume;
  }

  lemma TouchPays(cfg: Config, st: State, bar: Bar, hit: Level, i: nat, bn: int)
    requires Exactly(cfg) && Open(st.book) && DollarsPerPoint(cfg, st.book) > 0.0
    requires FirstTouch(cfg, st.risk, st.book, bar, hit, i)
    ensures Paid(cfg, st, bar, CloseAtStop(cfg, st, hit.price, hit.reason, bn), hit.reason, hit.price, i)
  {
    var r, b, peak := st.risk, st.book, PeakDuring(cfg, st.book, bar, i);
    hide Levels, DollarsPerPoint, ProfitAt, Exact, SafeUntil, OnLeg, PeakDuring, Armed, Due, TickMoney, CloseAtStop,
         Worth, Closely, Settles, Crossed;
    var l :| FirstHere(Levels(cfg, r, b, peak), hit.price, 0.0, l) && l.reason == hit.reason
             && l.up == hit.up && (l.price == hit.price || (i == 0 && hit.price == bar.open));
    LevelsStand(cfg, r, b, peak);
    CrossedSettles(cfg, r, b, peak, l, hit.price);
    ClosingLogs(cfg, st, hit.price, hit.reason, bn);
    ProfitIsWorth(cfg, st, hit.price);
  }

  lemma SafeOwesNothing(cfg: Config, st: State, bar: Bar, i: nat, x: real)
    requires Exactly(cfg) && Open(st.book) && DollarsPerPoint(cfg, st.book) > 0.0
    requires Safe(cfg, st.risk, st.book, PeakDuring(cfg, st.book, bar, i), x)
    ensures NothingDue(cfg, st, bar, i, x)
  {
    var r, b, peak := st.risk, st.book, PeakDuring(cfg, st.book, bar, i);
    hide Levels, DollarsPerPoint, ProfitAt, Exact, PeakDuring, Armed, Due, TickMoney, Worth, Stands, Crossed, Unsettled;
    LevelsStand(cfg, r, b, peak);
    ProfitIsWorth(cfg, st, x);
    forall reason | Armed(r, peak, reason)
      ensures Unsettled(cfg, b, reason, Worth(cfg, st, x), Due(r, b.contracts, peak, reason))
    {
      var l :| l in Levels(cfg, r, b, peak) && l.reason == reason;
      UncrossedIsUnsettled(cfg, r, b, peak, l, x);
    }
  }

  /** A position that leaves the stop check pays what the setting it leaves by makes due; one that
      stays owes nothing anywhere on the path. */
  lemma StopsPay(cfg: Config, st: State, bar: Bar, bn: int)
    requires Exactly(cfg) && WellFormed(bar) && Open(st.book) && st.book.entryBar != 0
    ensures var st' := CheckStops(cfg, st, bar, bn);
            if st'.book.mp == 0 then exists reason, price, i :: Paid(cfg, st, bar, st', reason, price, i)
            else forall i: nat, x: real :: OnLeg(bar, i, x) ==> NothingDue(cfg, st, bar, i, x)
  {
    StopFillIsFirstTouch(cfg, st.risk, st.book, bar);
    CheckCases(cfg, st, bar, bn);
    var hit := StopFill(cfg, st.risk, st.book, bar);
    hide StopFill, FirstTouch, DollarsPerPoint, Exact, CheckStops, Safe, NothingDue, Paid, PeakDuring, OnLeg,
         CloseAtStop;
    if hit.Some? {
      var i :| FirstTouch(cfg, st.risk, st.book, bar, hit.value, i);
      TouchPays(cfg, st, bar, hit.value, i, bn);
      assert Paid(cfg, st, bar, CheckStops(cfg, st, bar, bn), hit.value.reason, hit.value.price, i);
    } else {
      forall i: nat, x: real | OnLeg(bar, i, x) ensures NothingDue(cfg, st, bar, i, x) {
        SafeOwesNothing(cfg, st, bar, i, x);
      }
    }
  }

  lemma CheckCases(cfg: Config, st: State, bar: Bar, bn: int)
    requires cfg.pv != 0.0 && DollarsPerPoint(cfg, st.book) != 0.0 && Open(st.book) && st.book.entryBar != 0
    ensures var st', hit := CheckStops(cfg, st, bar, bn), StopFill(cfg, st.risk, st.book, bar);
            if hit.Some? then st' == CloseAtStop(cfg, st, hit.value.price, hit.value.reason, bn) && st'.book.mp == 0
            else st'.book.mp != 0
  {
    hide StopFill, ProfitAt, DollarsPerPoint, RecordTrade, Consume, Realised;
  }

  /** In every run, at every bar's stop check. */
  lemma StopsPayInEveryRun(cfg: Config, win: Window, evs: seq<Event>, ev: Event)
    requires Exactly(cfg) && WellFormed(ev.bar)
    requires AtStops(cfg, win, Run(cfg, win, evs), ev).book.mp != 0
    ensures var st := AtStops(cfg, win, Run(cfg, win, evs), ev);
            var st' := CheckStops(cfg, st, ev.bar, Run(cfg, win, evs).bn + 1);
            if st'.book.mp == 0 then exists reason, price, i :: Paid(cfg, st, ev.bar, st', reason, price, i)
            else forall i: nat, x: real :: OnLeg(ev.bar, i, x) ==> NothingDue(cfg, st, ev.bar, i, x)
  {
    hide AtStops, Run, CheckStops, NothingDue, Paid, Open, Exact, OnLeg;
    AtStopsIsReady(cfg, win, evs, ev);
    StopsPay(cfg, AtStops(cfg, win, Run(cfg, win, evs), ev), ev.bar, Run(cfg, win, evs).bn + 1);
  }

  // ---- The path -----------------------------------------------------------------------------------

  /** From the open to the nearer extreme, the low when both are as near, to the other, to the close. */
  lemma PathIsNearestFirst(bar: Bar)
    requires WellFormed(bar)
    ensures var w := Waypoints(bar);
            && w[0] == bar.open && w[3] == bar.close
            && multiset{w[1], w[2]} == multiset{bar.low, bar.high}
            && Abs(w[1] - bar.open) <= Abs(w[2] - bar.open)
            && (Abs(w[1] - bar.open) == Abs(w[2] - bar.open) ==> w[1] == bar.low)
    ensures BarPath(bar) == Waypoints(bar)
  {
  }
}
