/** The stop check is the first hitting time of the assumed intra-bar path: it fires at the
    first price the path meets an active level, and only then. */
module StopTheorems {
  import opened Sequences
  import opened EngineModel
  import opened StopWalk

  // ---- The independent definition -------------------------------------------------

  predicate Between(s: real, e: real, x: real) {
    Min(s, e) <= x <= Max(s, e)
  }

  /** Price `x` is passed on leg `i` (0, 1 or 2) of the path open, near extreme, far extreme, close. */
  predicate OnLeg(bar: Bar, i: nat, x: real) {
    i < 3 && Between(Waypoints(bar)[i], Waypoints(bar)[i + 1], x)
  }

  /** `x` is passed before `y` when walking from `s`. */
  predicate Sooner(s: real, x: real, y: real) {
    Abs(x - s) < Abs(y - s)
  }

  /** (i, x) comes before (j, y) on the path. */
  predicate Before(bar: Bar, i: nat, x: real, j: nat, y: real)
    requires i < 3
  {
    i < j || (i == j && Sooner(Waypoints(bar)[i], x, y))
  }

  predicate ExtremePassed(b: Book, bar: Bar, i: nat) {
    (i >= 1 && Waypoints(bar)[1] == FavorableExtreme(b, bar))
    || (i >= 2 && Waypoints(bar)[2] == FavorableExtreme(b, bar))
  }

  /** The peak known while walking leg `i`: this bar's favorable extreme counts once passed. */
  function PeakDuring(cfg: Config, b: Book, bar: Bar, i: nat): real {
    if ExtremePassed(b, bar, i) then Max(b.peakProfit, ProfitAt(cfg, b, FavorableExtreme(b, bar)))
    else b.peakProfit
  }

  /** No level active at running peak `peak` is crossed at price `x`. */
  ghost predicate Safe(cfg: Config, r: Risk, b: Book, peak: real, x: real)
    requires cfg.pv != 0.0 && DollarsPerPoint(cfg, b) != 0.0
  {
    forall l :: l in Levels(cfg, r, b, peak) ==> !Crossed(l, x, 0.0)
  }

  ghost predicate SafeUntil(cfg: Config, r: Risk, b: Book, bar: Bar, j: nat, y: real)
    requires cfg.pv != 0.0 && DollarsPerPoint(cfg, b) != 0.0
  {
    forall i: nat, x: real :: OnLeg(bar, i, x) && Before(bar, i, x, j, y)
      ==> Safe(cfg, r, b, PeakDuring(cfg, b, bar, i), x)
  }

  /** `l` is the first of `ls` that `x` is at or beyond. */
  ghost predicate FirstHere(ls: seq<Level>, x: real, slack: real, l: Level) {
    exists k :: 0 <= k < |ls| && ls[k] == l && Crossed(l, x, slack)
                && forall j :: 0 <= j < k ==> !Crossed(ls[j], x, slack)
  }

  /** The path first meets an active level on leg `i` at price `hit.price`, the first such level
      giving the reason; a level already crossed at the open fills at the open. */
  ghost predicate FirstTouch(cfg: Config, r: Risk, b: Book, bar: Bar, hit: Level, i: nat)
    requires cfg.pv != 0.0 && DollarsPerPoint(cfg, b) != 0.0
  {
    && OnLeg(bar, i, hit.price)
    && SafeUntil(cfg, r, b, bar, i, hit.price)
    && exists l :: FirstHere(Levels(cfg, r, b, PeakDuring(cfg, b, bar, i)), hit.price, 0.0, l)
                   && l.reason == hit.reason && l.up == hit.up
                   && (l.price == hit.price || (i == 0 && hit.price == bar.open))
  }

  // ---- One leg ------------------------------------------------------------------------

  lemma {:induction false} FirstCrossedFinds(ls: seq<Level>, x: real, slack: real)
    ensures var f := FirstCrossed(ls, x, slack);
            if f.Some? then FirstHere(ls, x, slack, f.value) && f.value in ls
            else forall l :: l in ls ==> !Crossed(l, x, slack)
  {
    if ls != [] {
      FirstCrossedFinds(ls[1..], x, slack);
      assert forall l :: l in ls <==> l == ls[0] || l in ls[1..];
      var f := FirstCrossed(ls, x, slack);
      if f.Some? && !Crossed(ls[0], x, slack) {
        FirstLater(ls, x, slack, f.value);
      }
    }
  }

  lemma FirstLater(ls: seq<Level>, x: real, slack: real, l: Level)
    requires ls != [] && !Crossed(ls[0], x, slack) && FirstHere(ls[1..], x, slack, l)
    ensures FirstHere(ls, x, slack, l)
  {
    var k :| 0 <= k < |ls[1..]| && ls[1..][k] == l && forall j :: 0 <= j < k ==> !Crossed(ls[1..][j], x, slack);
    assert ls[k + 1] == l;
    forall j | 0 <= j < k + 1 ensures !Crossed(ls[j], x, slack) {
      if j > 0 {
        assert ls[j] == ls[1..][j - 1];
      }
    }
  }

  /** The first of `ls` at price `p` in direction `up`. */
  function FirstAt(ls: seq<Level>, p: real, up: bool): Option<Level> {
    if ls == [] then None
    else if ls[0].price == p && ls[0].up == up then Some(ls[0])
    else FirstAt(ls[1..], p, up)
  }

  lemma {:induction false} FirstAtFinds(ls: seq<Level>, p: real, up: bool)
    requires FirstAt(ls, p, up).Some?
    ensures exists k :: 0 <= k < |ls| && ls[k] == FirstAt(ls, p, up).value
                        && forall j :: 0 <= j < k ==> ls[j].price != p || ls[j].up != up
  {
    if ls[0].price == p && ls[0].up == up {
      assert ls[0] == FirstAt(ls, p, up).value;
    } else {
      FirstAtFinds(ls[1..], p, up);
      var k :| 0 <= k < |ls[1..]| && ls[1..][k] == FirstAt(ls, p, up).value
               && forall j :: 0 <= j < k ==> ls[1..][j].price != p || ls[1..][j].up != up;
      assert ls[k + 1] == FirstAt(ls, p, up).value;
      forall j | 0 <= j < k + 1 ensures ls[j].price != p || ls[j].up != up {
        if j > 0 {
          assert ls[j] == ls[1..][j - 1];
        }
      }
    }
  }

  /** Of levels equally near the first is taken. */
  lemma {:induction false} NearestIsFirst(ls: seq<Level>, up: bool)
    requires ls != [] && forall l :: l in ls ==> l.up == up
    ensures FirstAt(ls, Nearest(ls, up).price, up) == Some(Nearest(ls, up))
    decreases |ls|
  {
    if |ls| > 1 {
      NearestFinds(ls[1..], up);
      NearestIsFirst(ls[1..], up);
    }
  }

  lemma {:induction false} ReachedKeepsFirst(ls: seq<Level>, s: real, e: real, p: real)
    requires Min(s, e) <= p <= Max(s, e)
    ensures FirstAt(Reached(ls, s, e, 0.0), p, e >= s) == FirstAt(ls, p, e >= s)
  {
    if ls != [] {
      ReachedKeepsFirst(ls[1..], s, e, p);
      var rest := Reached(ls[1..], s, e, 0.0);
      assert ([ls[0]] + rest)[1..] == rest && [] + rest == rest;
    }
  }

  lemma {:induction false} ReachedFinds(ls: seq<Level>, s: real, e: real, slack: real)
    ensures forall l :: l in Reached(ls, s, e, slack)
              <==> l in ls && l.up == (e >= s) && Min(s, e) - slack <= l.price <= Max(s, e) + slack
  {
    if ls != [] {
      ReachedFinds(ls[1..], s, e, slack);
      assert forall l :: l in ls <==> l == ls[0] || l in ls[1..];
    }
  }

  lemma {:induction false} NearestFinds(ls: seq<Level>, up: bool)
    requires ls != []
    ensures Nearest(ls, up) in ls
    ensures forall l :: l in ls ==> if up then Nearest(ls, up).price <= l.price else Nearest(ls, up).price >= l.price
    decreases |ls|
  {
    assert forall l :: l in ls <==> l == ls[0] || l in ls[1..];
    if |ls| > 1 {
      NearestFinds(ls[1..], up);
    }
  }

  /** A leg begun safely stays safe as long as it reaches no level in its direction. */
  lemma LegStaysSafe(cfg: Config, r: Risk, b: Book, peak: real, s: real, e: real, x: real)
    requires cfg.pv != 0.0 && DollarsPerPoint(cfg, b) != 0.0
    requires Safe(cfg, r, b, peak, s) && Between(s, e, x)
    requires var reach := Reached(Levels(cfg, r, b, peak), s, e, 0.0);
             reach == [] || Sooner(s, x, Nearest(reach, e >= s).price)
    ensures Safe(cfg, r, b, peak, x)
  {
    hide Levels;
    var ls := Levels(cfg, r, b, peak);
    ReachedFinds(ls, s, e, 0.0);
    var reach := Reached(ls, s, e, 0.0);
    if reach != [] {
      NearestFinds(reach, e >= s);
    }
    forall l | l in ls ensures !Crossed(l, x, 0.0) {
      assert !Crossed(l, s, 0.0);
      assert Crossed(l, x, 0.0) ==> l in reach;
    }
  }

  /** What the leg comes to cross at the nearest level reached lies at its price. */
  lemma TouchedAtNearest(ls: seq<Level>, l: Level, s: real, e: real, p: real)
    requires l in ls && !Crossed(l, s, 0.0) && Between(s, e, p)
    requires forall m :: m in Reached(ls, s, e, 0.0) ==> if e >= s then p <= m.price else p >= m.price
    ensures Crossed(l, p, 0.0) ==> l.price == p && l.up == (e >= s)
  {
    ReachedFinds(ls, s, e, 0.0);
    hide Reached;
    if Crossed(l, p, 0.0) {
      assert l.up == (e >= s) && Min(s, e) - 0.0 <= l.price <= Max(s, e) + 0.0;
    }
  }

  lemma LegFires(cfg: Config, r: Risk, b: Book, peak: real, s: real, e: real)
    requires cfg.pv != 0.0 && DollarsPerPoint(cfg, b) != 0.0
    requires Safe(cfg, r, b, peak, s) && Reached(Levels(cfg, r, b, peak), s, e, 0.0) != []
    ensures var l := Nearest(Reached(Levels(cfg, r, b, peak), s, e, 0.0), e >= s);
            FirstHere(Levels(cfg, r, b, peak), l.price, 0.0, l) && Between(s, e, l.price)
  {
    hide Levels;
    var ls := Levels(cfg, r, b, peak);
    ReachedFinds(ls, s, e, 0.0);
    var reach := Reached(ls, s, e, 0.0);
    NearestFinds(reach, e >= s);
    NearestIsFirst(reach, e >= s);
    var l := Nearest(reach, e >= s);
    ReachedKeepsFirst(ls, s, e, l.price);
    FirstAtFinds(ls, l.price, e >= s);
    var k :| 0 <= k < |ls| && ls[k] == l && forall j :: 0 <= j < k ==> ls[j].price != l.price || ls[j].up != (e >= s);
    forall j | 0 <= j < k ensures !Crossed(ls[j], l.price, 0.0) {
      assert ls[j] in ls;
      TouchedAtNearest(ls, ls[j], s, e, l.price);
    }
  }

  // ---- Slack -------------------------------------------------------------------------------

  /** Allowing slack is allowing any price that near. */
  lemma SlackForgives(l: Level, x: real, slack: real)
    requires slack >= 0.0
    ensures Crossed(l, x, slack) <==> exists y :: Abs(y - x) <= slack && Crossed(l, y, 0.0)
  {
    var nearest := if l.up then x + slack else x - slack;
    assert Abs(nearest - x) <= slack;
    assert Crossed(l, x, slack) ==> Crossed(l, nearest, 0.0);
  }

  /** A leg reaches the levels in its direction that lie on it or that near to it. */
  lemma ReachedWithSlack(ls: seq<Level>, l: Level, s: real, e: real, slack: real)
    requires slack >= 0.0
    ensures l in Reached(ls, s, e, slack)
            <==> l in ls && l.up == (e >= s) && exists y :: Between(s, e, y) && Abs(l.price - y) <= slack
  {
    ReachedFinds(ls, s, e, slack);
    hide Reached;
    var y := if l.price < Min(s, e) then Min(s, e) else if l.price > Max(s, e) then Max(s, e) else l.price;
    assert Between(s, e, y);
    assert Min(s, e) - slack <= l.price <= Max(s, e) + slack ==> Abs(l.price - y) <= slack;
  }

  /** A price within the slack of a whole number of ticks snaps to it, both ways. */
  lemma SnapForgives(cfg: Config, price: real, n: int)
    requires Exact(cfg) && cfg.tick > 0.0 && 0.0 <= cfg.eps && 2.0 * cfg.eps < 1.0
    requires Abs(price / cfg.tick - n as real) <= cfg.eps
    ensures Snap(cfg, price, true) == n as real * cfg.tick == Snap(cfg, price, false)
  {
    var q := price / cfg.tick;
    assert (q + cfg.eps).Floor == n;
    assert (-(q - cfg.eps)).Floor == -n;
    assert F32(cfg, n as real * cfg.tick) == n as real * cfg.tick;
  }

  /** A waypoint that near to the favorable extreme is taken for it. */
  lemma PeakForgives(cfg: Config, b: Book, bar: Bar, peak: real, e: real)
    requires Abs(e - FavorableExtreme(b, bar)) < cfg.eps
    ensures peak <= Ratchet(cfg, b, bar, peak, e) && ProfitAt(cfg, b, e) <= Ratchet(cfg, b, bar, peak, e)
  {
  }

  /** A price a bar does not have is its close. */
  lemma MissingPricesAreTheClose(cfg: Config, st: State, bar: Bar, whole: Bar, bn: int)
    requires cfg.pv != 0.0 && bar.close > 0.0 && whole.close == bar.close
    requires if bar.open > 0.0 then whole.open == bar.open else whole.open == bar.close
    requires if bar.high > 0.0 then whole.high == bar.high else whole.high == bar.close
    requires if bar.low > 0.0 then whole.low == bar.low else whole.low == bar.close
    ensures CheckStops(cfg, st, bar, bn) == CheckStops(cfg, st, whole, bn)
  {
    assert Usable(bar) == whole == Usable(whole);
    hide WalkLegs, Levels, FirstCrossed, CloseAtStop, ProfitAt, FavorableExtreme;
  }

  // ---- The ratchet ----------------------------------------------------------------------

  /** Snapping moves a price away from the position, never past it. */
  lemma SnapIsConservative(cfg: Config, price: real)
    requires Exact(cfg) && cfg.eps == 0.0 && cfg.tick >= 0.0
    ensures Snap(cfg, price, true) <= price <= Snap(cfg, price, false)
  {
    if cfg.tick > 0.0 {
      var q := price / cfg.tick;
      assert q * cfg.tick == price;
      FloorBound(q, cfg.tick);
      FloorBound(-q, cfg.tick);
      assert F32(cfg, q.Floor as real * cfg.tick) == q.Floor as real * cfg.tick;
      assert F32(cfg, -((-q).Floor) as real * cfg.tick) == -((-q).Floor) as real * cfg.tick;
    }
  }

  lemma FloorBound(q: real, t: real)
    requires t > 0.0
    ensures q.Floor as real * t <= q * t
  {
  }

  lemma DivideBack(x: real, d: real, g: real)
    requires d != 0.0
    ensures (x * d - g) / d == x - g / d
  {
  }

  lemma PositiveQuotient(g: real, d: real)
    requires g > 0.0 && d > 0.0
    ensures g / d > 0.0
  {
  }

  /** A trailing level `give` dollars behind the profit just reached lies behind its price. */
  lemma TrailBehind(cfg: Config, b: Book, fav: real, give: real)
    requires Exact(cfg) && cfg.eps == 0.0 && cfg.tick >= 0.0 && cfg.pv > 0.0
    requires b.contracts >= 1 && (b.mp == 1 || b.mp == -1) && give > 0.0
    ensures DollarsPerPoint(cfg, b) > 0.0
    ensures var lv := Offset(cfg, b, (ProfitAt(cfg, b, fav) - give) / DollarsPerPoint(cfg, b), b.mp > 0);
            if b.mp > 0 then lv < fav else lv > fav
  {
    var d := DollarsPerPoint(cfg, b);
    assert d > 0.0;
    var x := (fav - b.entryPrice) * b.mp as real;
    assert ProfitAt(cfg, b, fav) == x * d;
    DivideBack(x, d, give);
    PositiveQuotient(give, d);
    var points := (x * d - give) / d;
    SnapIsConservative(cfg, if b.mp > 0 then b.entryPrice + points else b.entryPrice - points);
  }

  ghost predicate Exactly(cfg: Config) {
    Exact(cfg) && cfg.eps == 0.0 && cfg.tick >= 0.0 && cfg.pv > 0.0
  }

  ghost predicate Open(b: Book) {
    b.contracts >= 1 && (b.mp == 1 || b.mp == -1) && b.peakProfit >= 0.0
  }

  lemma PositivePoint(cfg: Config, b: Book)
    requires cfg.pv > 0.0 && b.contracts >= 1
    ensures DollarsPerPoint(cfg, b) > 0.0
  {
  }

  lemma BreakevenBehind(cfg: Config, r: Risk, b: Book, fav: real)
    requires Exactly(cfg) && Open(b) && ProfitAt(cfg, b, fav) > 0.0
    ensures forall l :: l in BreakevenLevel(r, b, ProfitAt(cfg, b, fav)) ==> !Crossed(l, fav, 0.0)
  {
    ProfitSign(cfg, b, fav);
  }

  lemma PositiveShare(r: Risk, profit: real)
    requires HasTrail(r) && profit > 0.0
    ensures GiveBack(r, profit) > 0.0
  {
  }

  lemma TrailLevelBehind(cfg: Config, r: Risk, b: Book, fav: real)
    requires Exactly(cfg) && Open(b) && ProfitAt(cfg, b, fav) > 0.0
    requires DollarsPerPoint(cfg, b) != 0.0
    ensures forall l :: l in TrailLevel(cfg, r, b, ProfitAt(cfg, b, fav)) ==> !Crossed(l, fav, 0.0)
  {
    if HasTrail(r) {
      PositiveShare(r, ProfitAt(cfg, b, fav));
      hide ProfitAt, Offset, DollarsPerPoint, GiveBack;
      TrailBehind(cfg, b, fav, GiveBack(r, ProfitAt(cfg, b, fav)));
    }
  }

  lemma DollarLevelBehind(cfg: Config, r: Risk, b: Book, fav: real)
    requires Exactly(cfg) && Open(b)
    requires DollarsPerPoint(cfg, b) != 0.0
    ensures forall l :: l in DollarLevel(cfg, r, b, ProfitAt(cfg, b, fav)) ==> !Crossed(l, fav, 0.0)
  {
    hide ProfitAt, Offset, DollarsPerPoint;
    if r.dollarTrailing > 0.0 {
      TrailBehind(cfg, b, fav, r.dollarTrailing);
    }
  }

  /** Passing the favorable extreme moves levels up to it but never past it. */
  lemma RatchetStaysSafe(cfg: Config, r: Risk, b: Book, peak: real, fav: real)
    requires Exactly(cfg) && Open(b) && peak >= 0.0
    requires DollarsPerPoint(cfg, b) != 0.0
    requires Safe(cfg, r, b, peak, fav)
    ensures Safe(cfg, r, b, Max(peak, ProfitAt(cfg, b, fav)), fav)
  {
    var p := ProfitAt(cfg, b, fav);
    if p > peak {
      BreakevenBehind(cfg, r, b, fav);
      TrailLevelBehind(cfg, r, b, fav);
      DollarLevelBehind(cfg, r, b, fav);
      hide ProfitAt, DollarsPerPoint, TargetLevel, StopLevel, BreakevenLevel, TrailLevel, DollarLevel, Crossed;
      forall l | l in Levels(cfg, r, b, p) ensures !Crossed(l, fav, 0.0) {
        assert l in TargetLevel(cfg, r, b) || l in StopLevel(cfg, r, b) ==> l in Levels(cfg, r, b, peak);
      }
    }
  }

  lemma ProfitSign(cfg: Config, b: Book, fav: real)
    requires cfg.pv > 0.0 && Open(b) && ProfitAt(cfg, b, fav) > 0.0
    ensures Gain(b.mp, b.entryPrice, fav) > 0.0
  {
    var d := DollarsPerPoint(cfg, b);
    assert d > 0.0;
    var x := (fav - b.entryPrice) * b.mp as real;
    assert x * d > 0.0;
    assert x > 0.0;
  }

  // ---- The whole walk ---------------------------------------------------------------------

  /** Walking on from leg `i` safely: no touch at all, or the first touch. */
  lemma {:induction false} WalkIsFirstTouch(cfg: Config, r: Risk, b: Book, bar: Bar, i: nat)
    requires Exactly(cfg) && Open(b) && DollarsPerPoint(cfg, b) != 0.0 && i <= 3
    requires Safe(cfg, r, b, PeakDuring(cfg, b, bar, i), Waypoints(bar)[i])
    requires forall k: nat, x: real :: k < i && OnLeg(bar, k, x) ==> Safe(cfg, r, b, PeakDuring(cfg, b, bar, k), x)
    ensures var hit := WalkLegs(cfg, r, b, bar, i, PeakDuring(cfg, b, bar, i));
            if hit.Some? then exists j :: FirstTouch(cfg, r, b, bar, hit.value, j)
            else forall k: nat, x: real :: OnLeg(bar, k, x) ==> Safe(cfg, r, b, PeakDuring(cfg, b, bar, k), x)
    decreases 3 - i
  {
    hide Levels, ProfitAt, Safe;
    if i < 3 {
      var peak := PeakDuring(cfg, b, bar, i);
      var s, e := Waypoints(bar)[i], Waypoints(bar)[i + 1];
      var reach := Reached(Levels(cfg, r, b, peak), s, e, 0.0);
      forall x | Between(s, e, x) && (reach == [] || Sooner(s, x, Nearest(reach, e >= s).price))
        ensures Safe(cfg, r, b, peak, x)
      {
        LegStaysSafe(cfg, r, b, peak, s, e, x);
      }
      if reach != [] {
        LegFires(cfg, r, b, peak, s, e);
        assert FirstTouch(cfg, r, b, bar, Nearest(reach, e >= s), i);
      } else {
        assert Between(s, e, e);
        StepPeak(cfg, r, b, bar, i);
        WalkIsFirstTouch(cfg, r, b, bar, i + 1);
      }
    }
  }

  lemma StepPeak(cfg: Config, r: Risk, b: Book, bar: Bar, i: nat)
    requires Exactly(cfg) && Open(b) && DollarsPerPoint(cfg, b) != 0.0 && i < 3
    requires Safe(cfg, r, b, PeakDuring(cfg, b, bar, i), Waypoints(bar)[i + 1])
    ensures Ratchet(cfg, b, bar, PeakDuring(cfg, b, bar, i), Waypoints(bar)[i + 1]) == PeakDuring(cfg, b, bar, i + 1)
            || i == 2
    ensures Safe(cfg, r, b, PeakDuring(cfg, b, bar, i + 1), Waypoints(bar)[i + 1])
  {
    hide Levels, ProfitAt, Safe;
    if i < 2 && Waypoints(bar)[i + 1] == FavorableExtreme(b, bar) {
      RatchetStaysSafe(cfg, r, b, PeakDuring(cfg, b, bar, i), FavorableExtreme(b, bar));
    }
  }

  /** For every well-formed bar, open position and risk setting: the check fires exactly at
      the path's first touch, inside the bar's range, and holds exactly when there is none. */
  lemma StopFillIsFirstTouch(cfg: Config, r: Risk, b: Book, bar: Bar)
    requires Exactly(cfg) && Open(b) && WellFormed(bar)
    ensures DollarsPerPoint(cfg, b) > 0.0
    ensures var hit := StopFill(cfg, r, b, bar);
            if hit.Some? then
              bar.low <= hit.value.price <= bar.high && exists i :: FirstTouch(cfg, r, b, bar, hit.value, i)
            else forall i: nat, x: real :: OnLeg(bar, i, x) ==> Safe(cfg, r, b, PeakDuring(cfg, b, bar, i), x)
  {
    PositivePoint(cfg, b);
    assert Usable(bar) == bar;
    var gap := FirstCrossed(Levels(cfg, r, b, b.peakProfit), bar.open, 0.0);
    hide Levels, ProfitAt, DollarsPerPoint, Safe, FirstTouch, WalkLegs, WellFormed, Exact, OnLeg;
    if gap.Some? {
      GapIsFirstTouch(cfg, r, b, bar, gap.value);
      TouchInRange(cfg, r, b, bar, gap.value.(price := bar.open), 0);
    } else {
      NoGapIsSafe(cfg, r, b, bar);
      WalkIsFirstTouch(cfg, r, b, bar, 0);
      var hit := WalkLegs(cfg, r, b, bar, 0, b.peakProfit);
      assert PeakDuring(cfg, b, bar, 0) == b.peakProfit;
      if hit.Some? {
        var i :| FirstTouch(cfg, r, b, bar, hit.value, i);
        TouchInRange(cfg, r, b, bar, hit.value, i);
      }
    }
  }

  lemma TouchInRange(cfg: Config, r: Risk, b: Book, bar: Bar, hit: Level, i: nat)
    requires cfg.pv != 0.0 && DollarsPerPoint(cfg, b) != 0.0 && WellFormed(bar)
    requires FirstTouch(cfg, r, b, bar, hit, i)
    ensures bar.low <= hit.price <= bar.high
  {
    hide Levels, SafeUntil;
    assert OnLeg(bar, i, hit.price);
  }

  lemma NoGapIsSafe(cfg: Config, r: Risk, b: Book, bar: Bar)
    requires Exactly(cfg) && DollarsPerPoint(cfg, b) != 0.0
    requires FirstCrossed(Levels(cfg, r, b, b.peakProfit), bar.open, 0.0) == None
    ensures Safe(cfg, r, b, PeakDuring(cfg, b, bar, 0), Waypoints(bar)[0])
  {
    hide Levels, DollarsPerPoint;
    FirstCrossedFinds(Levels(cfg, r, b, b.peakProfit), bar.open, 0.0);
  }

  lemma GapIsFirstTouch(cfg: Config, r: Risk, b: Book, bar: Bar, l: Level)
    requires cfg.pv != 0.0 && DollarsPerPoint(cfg, b) != 0.0 && WellFormed(bar)
    requires FirstCrossed(Levels(cfg, r, b, b.peakProfit), bar.open, 0.0) == Some(l)
    ensures FirstTouch(cfg, r, b, bar, l.(price := bar.open), 0)
  {
    hide Levels;
    FirstCrossedFinds(Levels(cfg, r, b, b.peakProfit), bar.open, 0.0);
    assert OnLeg(bar, 0, bar.open);
    assert PeakDuring(cfg, b, bar, 0) == b.peakProfit;
  }

  /** When the check leaves the position open, stop-loss and target lie strictly outside the
      bar, and the close is strictly on the safe side of every level at the peak carried over. */
  lemma HeldPositionIsSafe(cfg: Config, st: State, bar: Bar, bn: int)
    requires Exactly(cfg) && Open(st.book) && st.book.entryBar != 0 && WellFormed(bar)
    requires CheckStops(cfg, st, bar, bn).book.mp != 0
    ensures var b := CheckStops(cfg, st, bar, bn).book;
            && DollarsPerPoint(cfg, b) > 0.0
            && b == st.book.(peakProfit := b.peakProfit)
            && b.peakProfit == Max(st.book.peakProfit, ProfitAt(cfg, st.book, FavorableExtreme(st.book, bar)))
            && Safe(cfg, st.risk, b, b.peakProfit, bar.close)
            && forall l :: l in TargetLevel(cfg, st.risk, b) + StopLevel(cfg, st.risk, b) ==>
                             l.price < bar.low || l.price > bar.high
  {
    var r, b := st.risk, st.book;
    var b' := CheckStops(cfg, st, bar, bn).book;
    assert Usable(bar) == bar;
    StopFillIsFirstTouch(cfg, r, b, bar);
    assert StopFill(cfg, r, b, bar) == None && b' == b.(peakProfit := b'.peakProfit) by {
      hide StopFill, ProfitAt, DollarsPerPoint;
    }
    SameLevels(cfg, r, b, b', b'.peakProfit);
    hide StopFill, Levels, TargetLevel, StopLevel, DollarsPerPoint, ProfitAt, CheckStops;
    assert OnLeg(bar, 2, bar.close) && ExtremePassed(b, bar, 2);
    forall l | l in TargetLevel(cfg, r, b) + StopLevel(cfg, r, b)
      ensures l.price < bar.low || l.price > bar.high
    {
      FixedLevels(cfg, r, b, PeakDuring(cfg, b, bar, 1), l);
      assert OnLeg(bar, 1, bar.low) && OnLeg(bar, 1, bar.high);
      assert !Crossed(l, bar.low, 0.0) && !Crossed(l, bar.high, 0.0);
    }
  }

  /** The levels depend on the carried peak only through the peak they are asked for. */
  lemma SameLevels(cfg: Config, r: Risk, b: Book, b': Book, p: real)
    requires cfg.pv != 0.0 && DollarsPerPoint(cfg, b) != 0.0 && b' == b.(peakProfit := b'.peakProfit)
    ensures DollarsPerPoint(cfg, b') == DollarsPerPoint(cfg, b)
    ensures TargetLevel(cfg, r, b') == TargetLevel(cfg, r, b) && StopLevel(cfg, r, b') == StopLevel(cfg, r, b)
    ensures Levels(cfg, r, b', p) == Levels(cfg, r, b, p)
  {
    hide Snap;
  }

  lemma FixedLevels(cfg: Config, r: Risk, b: Book, p: real, l: Level)
    requires cfg.pv != 0.0 && DollarsPerPoint(cfg, b) != 0.0
    requires l in TargetLevel(cfg, r, b) + StopLevel(cfg, r, b)
    ensures l in Levels(cfg, r, b, p)
  {
    hide DollarsPerPoint, TargetLevel, StopLevel, BreakevenLevel, TrailLevel, DollarLevel;
  }
}
