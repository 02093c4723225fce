/** The money-management stops: which levels are active, and where the assumed intra-bar
    price path first meets one of them. */
module StopWalk {
  import opened Sequences
  import opened EngineModel

  /** An active level. `up` levels trigger when the price rises to them. */
  datatype Level = Level(price: real, reason: string, up: bool)

  function Snap(cfg: Config, price: real, down: bool): real {
    if cfg.tick == 0.0 then price
    else if down then F32(cfg, (price / cfg.tick + cfg.eps).Floor as real * cfg.tick)
    else F32(cfg, -((-(price / cfg.tick - cfg.eps)).Floor) as real * cfg.tick)
  }

  /** `points` away from the entry in the direction of profit, snapped away from the position. */
  function Offset(cfg: Config, b: Book, points: real, down: bool): real {
    Snap(cfg, if b.mp > 0 then b.entryPrice + points else b.entryPrice - points, down)
  }

  predicate HasTrail(r: Risk) {
    r.percentTrailing.Some? && r.percentTrailing.value.1 > 0.0
  }

  function DollarsPerPoint(cfg: Config, b: Book): real {
    cfg.pv * b.contracts as real
  }

  /** The part of peak profit `peak` that a percent trailing stop gives back. */
  function GiveBack(r: Risk, peak: real): real
    requires HasTrail(r)
  {
    peak * r.percentTrailing.value.1 / 100.0
  }

  function TrailPrice(cfg: Config, r: Risk, b: Book, peak: real): real
    requires HasTrail(r) && DollarsPerPoint(cfg, b) != 0.0
  {
    Offset(cfg, b, (peak - GiveBack(r, peak)) / DollarsPerPoint(cfg, b), b.mp > 0)
  }

  function TargetLevel(cfg: Config, r: Risk, b: Book): seq<Level>
    requires cfg.pv != 0.0
  {
    if r.profitTarget > 0.0 then
      [Level(Offset(cfg, b, r.profitTarget / cfg.pv, !(b.mp > 0)), "profit_target", b.mp > 0)]
    else []
  }

  function StopLevel(cfg: Config, r: Risk, b: Book): seq<Level>
    requires cfg.pv != 0.0
  {
    if r.stopLoss > 0.0 then
      [Level(Offset(cfg, b, -(r.stopLoss / cfg.pv), b.mp > 0), "stop_loss", !(b.mp > 0))]
    else []
  }

  function BreakevenLevel(r: Risk, b: Book, peak: real): seq<Level> {
    if r.breakeven > 0.0 && peak >= r.breakeven then [Level(b.entryPrice, "breakeven", !(b.mp > 0))] else []
  }

  function TrailLevel(cfg: Config, r: Risk, b: Book, peak: real): seq<Level>
    requires DollarsPerPoint(cfg, b) != 0.0
  {
    if HasTrail(r) && peak >= r.percentTrailing.value.0 then
      [Level(TrailPrice(cfg, r, b, peak), "trailing_stop", !(b.mp > 0))]
    else []
  }

  function DollarLevel(cfg: Config, r: Risk, b: Book, peak: real): seq<Level>
    requires DollarsPerPoint(cfg, b) != 0.0
  {
    if r.dollarTrailing > 0.0 then
      [Level(Offset(cfg, b, (peak - r.dollarTrailing) / DollarsPerPoint(cfg, b), b.mp > 0),
             "dollar_trailing", !(b.mp > 0))]
    else []
  }

  /** The active levels at running peak profit `peak`. */
  function Levels(cfg: Config, r: Risk, b: Book, peak: real): seq<Level>
    requires cfg.pv != 0.0 && DollarsPerPoint(cfg, b) != 0.0
  {
    TargetLevel(cfg, r, b) + StopLevel(cfg, r, b) + BreakevenLevel(r, b, peak)
    + TrailLevel(cfg, r, b, peak) + DollarLevel(cfg, r, b, peak)
  }

  /** True when price `x` is at or beyond level `l`, allowing `slack`. */
  predicate Crossed(l: Level, x: real, slack: real) {
    if l.up then x >= l.price - slack else x <= l.price + slack
  }

  function FirstCrossed(ls: seq<Level>, x: real, slack: real): Option<Level> {
    if ls == [] then None
    else if Crossed(ls[0], x, slack) then Some(ls[0])
    else FirstCrossed(ls[1..], x, slack)
  }

  /** The levels a leg from `s` to `e` reaches in the direction it moves. */
  function Reached(ls: seq<Level>, s: real, e: real, slack: real): seq<Level> {
    if ls == [] then []
    else
      (if ls[0].up == (e >= s) && Min(s, e) - slack <= ls[0].price <= Max(s, e) + slack then [ls[0]] else [])
      + Reached(ls[1..], s, e, slack)
  }

  /** The first of `ls` that no other is nearer than, moving up or down. */
  function Nearest(ls: seq<Level>, up: bool): Level
    requires ls != []
    decreases |ls|
  {
    if |ls| == 1 then ls[0]
    else
      var l := Nearest(ls[1..], up);
      if (if up then l.price < ls[0].price else l.price > ls[0].price) then l else ls[0]
  }

  function FavorableExtreme(b: Book, bar: Bar): real {
    if b.mp > 0 then bar.high else bar.low
  }

  function ProfitAt(cfg: Config, b: Book, x: real): real {
    (x - b.entryPrice) * b.mp as real * DollarsPerPoint(cfg, b)
  }

  predicate ReachesExtreme(cfg: Config, b: Book, bar: Bar, e: real) {
    Abs(e - FavorableExtreme(b, bar)) < cfg.eps || e == FavorableExtreme(b, bar)
  }

  function Ratchet(cfg: Config, b: Book, bar: Bar, peak: real, e: real): real {
    if ReachesExtreme(cfg, b, bar, e) then Max(peak, ProfitAt(cfg, b, e)) else peak
  }

  predicate LowFirst(bar: Bar) {
    Abs(bar.open - bar.low) <= Abs(bar.open - bar.high)
  }

  function Waypoints(bar: Bar): (w: seq<real>)
    ensures |w| == 4
  {
    if LowFirst(bar) then [bar.open, bar.low, bar.high, bar.close]
    else [bar.open, bar.high, bar.low, bar.close]
  }

  /** Extremes reported as not positive are replaced by the close. */
  function Usable(bar: Bar): Bar {
    Bar(if bar.open > 0.0 then bar.open else bar.close, if bar.high > 0.0 then bar.high else bar.close,
        if bar.low > 0.0 then bar.low else bar.close, bar.close)
  }

  /** Walks the legs from waypoint `i`, ratcheting the peak at the favorable extreme. */
  function WalkLegs(cfg: Config, r: Risk, b: Book, bar: Bar, i: nat, peak: real): Option<Level>
    requires cfg.pv != 0.0 && DollarsPerPoint(cfg, b) != 0.0
    requires i <= 3
    decreases 3 - i
  {
    if i == 3 then None
    else
      var s, e := Waypoints(bar)[i], Waypoints(bar)[i + 1];
      var reach := Reached(Levels(cfg, r, b, peak), s, e, cfg.eps);
      if reach != [] then Some(Nearest(reach, e >= s))
      else WalkLegs(cfg, r, b, bar, i + 1, Ratchet(cfg, b, bar, peak, e))
  }

  /** The fill the stops make on a bar: a level already crossed at the open fills at the
      open, otherwise the first level the path meets fills at its own price. */
  function StopFill(cfg: Config, r: Risk, b: Book, rawBar: Bar): Option<Level>
    requires cfg.pv != 0.0 && DollarsPerPoint(cfg, b) != 0.0
  {
    var bar := Usable(rawBar);
    var gap := FirstCrossed(Levels(cfg, r, b, b.peakProfit), bar.open, cfg.eps);
    if gap.Some? then Some(gap.value.(price := bar.open))
    else WalkLegs(cfg, r, b, bar, 0, b.peakProfit)
  }

  /** The engine's stop check: close at the fill, or carry the bar's best profit forward.
      A position without contracts never occurs in a run (BookInvariant). */
  function CheckStops(cfg: Config, st: State, bar: Bar, bn: int): State
    requires cfg.pv != 0.0
  {
    var b := st.book;
    if b.mp == 0 || b.entryBar == 0 || b.contracts == 0 then st
    else
      var hit := StopFill(cfg, st.risk, b, bar);
      if hit.Some? then CloseAtStop(cfg, st, hit.value.price, hit.value.reason, bn)
      else
        st.(book := b.(peakProfit := Max(b.peakProfit, ProfitAt(cfg, b, FavorableExtreme(b, Usable(bar))))))
  }
}
