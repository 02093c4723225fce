/** The auditor's loops over a fill log: trade types, FIFO summary and round turns. */
module OracleReport {
  import opened Sequences
  import opened EngineModel
  import opened Oracle
  import opened FastPath

  /** Labels of every record, replaying the position from flat. */
  function TypesFrom(position: int, fills: seq<Fill>): seq<TradeType>
    decreases |fills|
  {
    if fills == [] then []
    else [TypeOf(position, fills[0].buy)] + TypesFrom(if fills[0].buy then position + 1 else position - 1, fills[1..])
  }

  lemma TypesUnfold(position: int, fills: seq<Fill>, i: nat)
    requires i < |fills|
    ensures TypesFrom(position, fills[i..])
            == [TypeOf(position, fills[i].buy)]
              + TypesFrom(if fills[i].buy then position + 1 else position - 1, fills[i + 1..])
  {
    assert fills[i..][0] == fills[i] && fills[i..][1..] == fills[i + 1..];
  }

  method FillTradeTypes(fills: seq<Fill>) returns (labels: seq<TradeType>)
    ensures labels == TypesFrom(0, fills)
  {
    labels := [];
    var position := 0;
    var i := 0;
    assert fills[0..] == fills;
    assert TypesFrom(0, fills[|fills|..]) == [];
    hide TypesFrom;
    while i < |fills|
      invariant 0 <= i <= |fills|
      invariant labels + TypesFrom(position, fills[i..]) == TypesFrom(0, fills)
    {
      TypesUnfold(position, fills, i);
      ghost var later := TypesFrom(if fills[i].buy then position + 1 else position - 1, fills[i + 1..]);
      assert forall t :: labels + ([t] + later) == labels + [t] + later;
      if fills[i].buy {
        labels := labels + [if position < 0 then ExitShort else EntryLong];
        position := position + 1;
      } else {
        labels := labels + [if position > 0 then ExitLong else EntryShort];
        position := position - 1;
      }
      i := i + 1;
    }
  }

  predicate IsExit(t: TradeType) {
    t == ExitLong || t == ExitShort
  }

  function CountExits(labels: seq<TradeType>): nat {
    if labels == [] then 0 else (if IsExit(labels[0]) then 1 else 0) + CountExits(labels[1..])
  }

  lemma {:induction false} CountExitsAppend(a: seq<TradeType>, b: seq<TradeType>)
    ensures CountExits(a + b) == CountExits(a) + CountExits(b)
  {
    if a == [] {
      assert a + b == b;
    } else {
      assert (a + b)[1..] == a[1..] + b;
      CountExitsAppend(a[1..], b);
    }
  }

  lemma {:induction false} TypesAppend(position: int, fills: seq<Fill>, f: Fill)
    ensures var end := position + Moved(fills);
            TypesFrom(position, fills + [f]) == TypesFrom(position, fills) + [TypeOf(end, f.buy)]
    decreases |fills|
  {
    if fills == [] {
      assert (fills + [f])[1..] == [];
    } else {
      assert (fills + [f])[1..] == fills[1..] + [f];
      TypesAppend(if fills[0].buy then position + 1 else position - 1, fills[1..], f);
    }
  }

  /** The position is the net of the sides, and the labels agree with the replay's exits. */
  lemma {:induction false} LabelsMatchReplay(fills: seq<Fill>, pv: real)
    ensures Replay(fills, pv).position == Moved(fills)
    ensures CountExits(TypesFrom(0, fills)) == Replay(fills, pv).exits && |TypesFrom(0, fills)| == |fills|
  {
    if fills != [] {
      var init, f := fills[..|fills| - 1], fills[|fills| - 1];
      assert init + [f] == fills;
      LabelsMatchReplay(init, pv);
      MovedAppend(init, f);
      TypesAppend(0, init, f);
      var last := [TypeOf(Moved(init), f.buy)];
      CountExitsAppend(TypesFrom(0, init), last);
      assert last[1..] == [];
    }
  }

  /** Round turns are exits, and every log is its round turns twice over plus what is open. */
  method CountRoundTurns(fills: seq<Fill>) returns (turns: nat)
    ensures |fills| == 2 * turns + AbsInt(Moved(fills))
    ensures forall pv :: turns == Replay(fills, pv).exits
  {
    var labels := FillTradeTypes(fills);
    turns := 0;
    var i := 0;
    while i < |labels|
      invariant 0 <= i <= |labels|
      invariant turns + CountExits(labels[i..]) == CountExits(labels)
    {
      assert labels[i..][0] == labels[i] && labels[i..][1..] == labels[i + 1..];
      if IsExit(labels[i]) {
        turns := turns + 1;
      }
      i := i + 1;
    }
    forall pv ensures turns == Replay(fills, pv).exits {
      LabelsMatchReplay(fills, pv);
    }
    ReplayNeverFails(fills, 0.0);
    LabelsMatchReplay(fills, 0.0);
  }

  datatype Summary = Summary(trades: nat, winners: nat, losers: nat, netProfit: real, grossProfit: real,
                             grossLoss: real, maxDrawdown: real, openContracts: nat)

  /** Profit after each trade, from 0: the closed-trade equity curve. */
  function Curve(start: real, pnls: seq<real>): (c: seq<real>)
    ensures |c| == |pnls| + 1
    decreases |pnls|
  {
    [start] + if pnls == [] then [] else Curve(start + pnls[0], pnls[1..])
  }

  predicate Wins(p: real) { p > 0.0 }
  predicate Loses(p: real) { p < 0.0 }

  function Winners(pnls: seq<real>): seq<real> {
    if pnls == [] then [] else (if Wins(pnls[0]) then [pnls[0]] else []) + Winners(pnls[1..])
  }

  function Losers(pnls: seq<real>): seq<real> {
    if pnls == [] then [] else (if Loses(pnls[0]) then [pnls[0]] else []) + Losers(pnls[1..])
  }

  /** What one record does to a consistent tally, by its label. */
  lemma TalliedBy(t: Tally, f: Fill, pv: real)
    requires Consistent(t)
    ensures var t', kind := Tallied(t, f, pv), TypeOf(t.position, f.buy);
            && t'.position == (if f.buy then t.position + 1 else t.position - 1) && !t'.failed
            && match kind
               case EntryLong => t' == Tally(t'.position, t.longs + [f.price], t.shorts, t.pnls, t.exits, false)
               case EntryShort => t' == Tally(t'.position, t.longs, t.shorts + [f.price], t.pnls, t.exits, false)
               case ExitLong =>
                 t.longs != []
                 && t' == Tally(t'.position, t.longs[1..], t.shorts,
                                t.pnls + [UnitGain(t.longs[0], false, f.price, pv)],
                                t.exits + 1, false)
               case ExitShort =>
                 t.shorts != []
                 && t' == Tally(t'.position, t.longs, t.shorts[1..],
                                t.pnls + [UnitGain(t.shorts[0], true, f.price, pv)],
                                t.exits + 1, false)
  {
  }

  /** One turn of the matching loop. */
  /** The first `i` records are matched. */
  ghost predicate Matched(fills: seq<Fill>, labels: seq<TradeType>, i: nat, pv: real, position: int, longs: seq<real>,
                          shorts: seq<real>, pnls: seq<real>)
  {
    && i <= |fills| == |labels| && labels[i..] == TypesFrom(position, fills[i..])
    && Replay(fills[..i], pv) == Tally(position, longs, shorts, pnls, |pnls|, false)
  }

  lemma MatchStep(fills: seq<Fill>, labels: seq<TradeType>, i: nat, pv: real, position: int, longs: seq<real>,
                  shorts: seq<real>, pnls: seq<real>)
    requires i < |fills| == |labels| && Matched(fills, labels, i, pv, position, longs, shorts, pnls)
    ensures var f, p := fills[i], if fills[i].buy then position + 1 else position - 1;
            match labels[i]
            case EntryLong => Matched(fills, labels, i + 1, pv, p, longs + [f.price], shorts, pnls)
            case EntryShort => Matched(fills, labels, i + 1, pv, p, longs, shorts + [f.price], pnls)
            case ExitLong =>
              longs != []
              && Matched(fills, labels, i + 1, pv, p, longs[1..], shorts,
                         pnls + [UnitGain(longs[0], false, f.price, pv)])
            case ExitShort =>
              shorts != []
              && Matched(fills, labels, i + 1, pv, p, longs, shorts[1..],
                         pnls + [UnitGain(shorts[0], true, f.price, pv)])
  {
    hide TypesFrom, Replay, UnitGain, Moved, CountExits, Tallied, TypeOf;
    TypesUnfold(position, fills, i);
    assert labels[i] == labels[i..][0] && labels[i + 1..] == labels[i..][1..];
    ReplayExtends(fills, i, pv);
    ReplayNeverFails(fills[..i], pv);
    TalliedBy(Replay(fills[..i], pv), fills[i], pv);
  }

  lemma NothingMatched(fills: seq<Fill>, labels: seq<TradeType>, pv: real)
    requires labels == TypesFrom(0, fills)
    ensures |labels| == |fills| && Matched(fills, labels, 0, pv, 0, [], [], [])
  {
    assert fills[..0] == [] && fills[0..] == fills && labels[0..] == labels;
    LabelsMatchReplay(fills, pv);
  }

  lemma AllMatched(fills: seq<Fill>, labels: seq<TradeType>, pv: real, position: int, longs: seq<real>,
                   shorts: seq<real>, pnls: seq<real>)
    requires Matched(fills, labels, |fills|, pv, position, longs, shorts, pnls)
    ensures Replay(fills, pv) == Tally(position, longs, shorts, pnls, |pnls|, false)
  {
    assert fills[..|fills|] == fills;
  }

  /** The open books and the FIFO profit of every exit, oldest entry first. `ok` is false when an
      exit would pop an empty book, which no log causes. */
  method MatchFills(fills: seq<Fill>, pv: real) returns (ok: bool, longs: seq<real>, shorts: seq<real>, pnls: seq<real>)
    ensures ok
    ensures var t := Replay(fills, pv);
            longs == t.longs && shorts == t.shorts && pnls == t.pnls
  {
    var labels := FillTradeTypes(fills);
    longs, shorts, pnls := [], [], [];
    ghost var position := 0;
    var i := 0;
    NothingMatched(fills, labels, pv);
    hide *;
    while i < |fills|
      invariant 0 <= i <= |fills| && |labels| == |fills|
      invariant Matched(fills, labels, i, pv, position, longs, shorts, pnls)
    {
      MatchStep(fills, labels, i, pv, position, longs, shorts, pnls);
      var price := fills[i].price;
      if labels[i] == EntryLong {
        longs := longs + [price];
      } else if labels[i] == EntryShort {
        shorts := shorts + [price];
      } else if labels[i] == ExitLong {
        if longs == [] {
          ok := false;
          return;
        }
        pnls := pnls + [UnitGain(longs[0], false, price, pv)];
        longs := longs[1..];
      } else {
        if shorts == [] {
          ok := false;
          return;
        }
        pnls := pnls + [UnitGain(shorts[0], true, price, pv)];
        shorts := shorts[1..];
      }
      position := if fills[i].buy then position + 1 else position - 1;
      i := i + 1;
    }
    AllMatched(fills, labels, pv, position, longs, shorts, pnls);
    ok := true;
  }

  /** The FIFO summary: `None` is the program's failure to pop an empty book. The drawdown is
      the deepest fall of the closed-trade equity curve. */
  method TradeSummary(fills: seq<Fill>, pv: real) returns (r: Option<Summary>)
    ensures r.Some?
    ensures var t := Replay(fills, pv);
            && r.value.trades == t.exits
            && r.value.netProfit == Sum(t.pnls)
            && r.value.winners == |Winners(t.pnls)| && r.value.losers == |Losers(t.pnls)|
            && r.value.grossProfit == Sum(Winners(t.pnls)) && r.value.grossLoss == Sum(Losers(t.pnls))
            && r.value.openContracts == AbsInt(t.position)
            && IsMaxFall(Curve(0.0, t.pnls), r.value.maxDrawdown)
  {
    hide Replay, Winners, Losers, Sum, IsMaxFall, Curve;
    var ok, longs, shorts, pnls := MatchFills(fills, pv);
    if !ok {
      return None;
    }
    ReplayNeverFails(fills, pv);
    var drawdown := ClosedTradeDrawdown(pnls);
    r := Some(Summary(|pnls|, |Winners(pnls)|, |Losers(pnls)|, Sum(pnls), Sum(Winners(pnls)), Sum(Losers(pnls)),
                      drawdown, |longs| + |shorts|));
  }

  lemma ReplayExtends(fills: seq<Fill>, i: nat, pv: real)
    requires i < |fills|
    ensures Replay(fills[..i + 1], pv) == Tallied(Replay(fills[..i], pv), fills[i], pv)
  {
    assert fills[..i + 1][..i] == fills[..i];
  }

  lemma {:induction false} CurveSplit(start: real, pnls: seq<real>, k: nat)
    requires k <= |pnls|
    ensures Curve(start, pnls)[k] == start + Sum(pnls[..k])
    decreases k
  {
    if k > 0 {
      CurveSplit(start + pnls[0], pnls[1..], k - 1);
      assert pnls[1..][..k - 1] == pnls[..k][1..];
    }
  }

  lemma PathStarts(path: seq<real>)
    requires path == [0.0]
    ensures IsPeak(path, 0.0) && IsMaxFall(path, 0.0)
  {
    assert path[0] == 0.0 && FallsBy(path, 0, 0, 0.0);
  }

  /** The points of a path of partial sums are the curve. */
  lemma CurveIsPartialSums(pnls: seq<real>, path: seq<real>)
    requires |path| == |pnls| + 1 && forall k :: 0 <= k <= |pnls| ==> path[k] == Sum(pnls[..k])
    ensures Curve(0.0, pnls) == path
  {
    hide Curve, Sum;
    forall k | 0 <= k <= |pnls| ensures Curve(0.0, pnls)[k] == path[k] {
      CurveSplit(0.0, pnls, k);
    }
  }

  method ClosedTradeDrawdown(pnls: seq<real>) returns (drawdown: real)
    ensures IsMaxFall(Curve(0.0, pnls), drawdown)
  {
    hide IsPeak, IsMaxFall, Curve;
    var equity, peak := 0.0, 0.0;
    drawdown := 0.0;
    ghost var path := [0.0];
    PathStarts(path);
    var i := 0;
    while i < |pnls|
      invariant 0 <= i <= |pnls| && |path| == i + 1
      invariant equity == Sum(pnls[..i])
      invariant forall k :: 0 <= k <= i ==> path[k] == Sum(pnls[..k])
      invariant IsPeak(path, peak) && IsMaxFall(path, drawdown)
    {
      hide Sum;
      SumSnoc(pnls[..i], pnls[i]);
      assert pnls[..i + 1] == pnls[..i] + [pnls[i]];
      equity := equity + pnls[i];
      PathGrows(path, equity, peak, -drawdown);
      peak := Max(peak, equity);
      drawdown := if drawdown < peak - equity then peak - equity else drawdown;
      path := path + [equity];
      i := i + 1;
    }
    assert pnls[..i] == pnls;
    CurveIsPartialSums(pnls, path);
  }
}
