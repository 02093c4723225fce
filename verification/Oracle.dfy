/** The auditor: it sees nothing but the fill log, one record per contract, and rebuilds
    the position, the FIFO book and the FIFO profit from it. */
module Oracle {
  import opened Sequences
  import opened EngineModel

  datatype TradeType = EntryLong | ExitLong | EntryShort | ExitShort

  /** The position-aware label of a record: the log itself only knows the side. */
  function TypeOf(position: int, buy: bool): TradeType {
    if buy then (if position < 0 then ExitShort else EntryLong)
    else (if position > 0 then ExitLong else EntryShort)
  }

  /** The auditor's books. `failed` marks an exit that found no entry to close. */
  datatype Tally = Tally(position: int, longs: seq<real>, shorts: seq<real>, pnls: seq<real>,
                         exits: nat, failed: bool)

  const NOTHING := Tally(0, [], [], [], 0, false)

  /** FIFO profit of closing one entry made at `entry` with an order on side `buy`. */
  function UnitGain(entry: real, buy: bool, price: real, pv: real): real {
    if buy then (entry - price) * pv else (price - entry) * pv
  }

  function Tallied(t: Tally, f: Fill, pv: real): Tally {
    var next := t.(position := if f.buy then t.position + 1 else t.position - 1);
    match TypeOf(t.position, f.buy)
    case EntryLong => next.(longs := t.longs + [f.price])
    case EntryShort => next.(shorts := t.shorts + [f.price])
    case ExitLong =>
      if t.longs == [] then next.(failed := true, exits := t.exits + 1)
      else next.(longs := t.longs[1..], pnls := t.pnls + [UnitGain(t.longs[0], f.buy, f.price, pv)],
                 exits := t.exits + 1)
    case ExitShort =>
      if t.shorts == [] then next.(failed := true, exits := t.exits + 1)
      else next.(shorts := t.shorts[1..], pnls := t.pnls + [UnitGain(t.shorts[0], f.buy, f.price, pv)],
                 exits := t.exits + 1)
  }

  function Replay(fills: seq<Fill>, pv: real): Tally {
    if fills == [] then NOTHING
    else Tallied(Replay(fills[..|fills| - 1], pv), fills[|fills| - 1], pv)
  }

  lemma ReplayAppend(fills: seq<Fill>, f: Fill, pv: real)
    ensures Replay(fills + [f], pv) == Tallied(Replay(fills, pv), f, pv)
  {
    assert (fills + [f])[..|fills|] == fills;
  }

  /** Sum of the prices of the records on one side. */
  function SideTotal(fills: seq<Fill>, buy: bool): real {
    if fills == [] then 0.0
    else SideTotal(fills[..|fills| - 1], buy)
         + if fills[|fills| - 1].buy == buy then fills[|fills| - 1].price else 0.0
  }

  function AbsInt(x: int): nat {
    if x < 0 then -x else x
  }

  /** Contracts bought less contracts sold. */
  function Moved(fills: seq<Fill>): int {
    if fills == [] then 0 else (if fills[0].buy then 1 else -1) + Moved(fills[1..])
  }

  lemma {:induction false} MovedAppend(fills: seq<Fill>, f: Fill)
    ensures Moved(fills + [f]) == Moved(fills) + if f.buy then 1 else -1
  {
    if fills == [] {
      assert (fills + [f])[1..] == [];
    } else {
      assert (fills + [f])[1..] == fills[1..] + [f];
      MovedAppend(fills[1..], f);
    }
  }

  /** The largest position, on either side, that the log ever showed. */
  function MostHeld(fills: seq<Fill>): nat {
    if fills == [] then 0
    else
      var before, now := MostHeld(fills[..|fills| - 1]), AbsInt(Moved(fills));
      if before < now then now else before
  }

  lemma {:induction false} MostHeldBounds(fills: seq<Fill>)
    ensures forall i :: 0 <= i <= |fills| ==> AbsInt(Moved(fills[..i])) <= MostHeld(fills)
    ensures exists i :: 0 <= i <= |fills| && AbsInt(Moved(fills[..i])) == MostHeld(fills)
  {
    assert fills[..|fills|] == fills && fills[..0] == [];
    if fills == [] {
      assert AbsInt(Moved(fills[..0])) == 0;
    } else {
      var init := fills[..|fills| - 1];
      MostHeldBounds(init);
      forall i | 0 <= i <= |fills| ensures AbsInt(Moved(fills[..i])) <= MostHeld(fills) {
        if i < |fills| {
          assert init[..i] == fills[..i];
        }
      }
      var i :| 0 <= i <= |init| && AbsInt(Moved(init[..i])) == MostHeld(init);
      assert init[..i] == fills[..i];
      if MostHeld(fills) != MostHeld(init) {
        assert AbsInt(Moved(fills[..|fills|])) == MostHeld(fills);
      }
    }
  }

  lemma MostHeldSnoc(fills: seq<Fill>, f: Fill)
    ensures var before, now := MostHeld(fills), AbsInt(Moved(fills) + if f.buy then 1 else -1);
            MostHeld(fills + [f]) == if before < now then now else before
  {
    MovedAppend(fills, f);
    assert (fills + [f])[..|fills|] == fills;
  }

  lemma NowIsHeld(fills: seq<Fill>)
    ensures AbsInt(Moved(fills)) <= MostHeld(fills)
  {
  }

  /** Records against the position, no more than it holds, set no record. */
  lemma {:induction false} ClosingHoldsLess(fills: seq<Fill>, f: Fill, k: nat)
    requires if f.buy then Moved(fills) <= -(k as int) else Moved(fills) >= k
    ensures MostHeld(fills + Repeat(f, k)) == MostHeld(fills)
    ensures Moved(fills + Repeat(f, k)) == Moved(fills) + if f.buy then k else -(k as int)
    decreases k
  {
    if k == 0 {
      assert fills + Repeat(f, k) == fills;
    } else {
      NowIsHeld(fills);
      MostHeldSnoc(fills, f);
      MovedAppend(fills, f);
      AppendRepeat(fills, f, k);
      hide MostHeld, Moved, Repeat;
      ClosingHoldsLess(fills + [f], f, k - 1);
    }
  }

  /** Records that open or add hold as much as they make of it. */
  lemma {:induction false} OpeningHoldsMore(fills: seq<Fill>, f: Fill, k: nat)
    requires if f.buy then Moved(fills) >= 0 else Moved(fills) <= 0
    ensures var before, now := MostHeld(fills), AbsInt(Moved(fills)) + k;
            MostHeld(fills + Repeat(f, k)) == if before < now then now else before
    ensures Moved(fills + Repeat(f, k)) == Moved(fills) + if f.buy then k else -(k as int)
    decreases k
  {
    NowIsHeld(fills);
    if k == 0 {
      assert fills + Repeat(f, k) == fills;
    } else {
      MostHeldSnoc(fills, f);
      MovedAppend(fills, f);
      AppendRepeat(fills, f, k);
      hide MostHeld, Moved, Repeat;
      OpeningHoldsMore(fills + [f], f, k - 1);
    }
  }

  lemma {:induction false} MovedIsPosition(fills: seq<Fill>, pv: real)
    ensures Replay(fills, pv).position == Moved(fills)
  {
    if fills != [] {
      var init, f := fills[..|fills| - 1], fills[|fills| - 1];
      assert init + [f] == fills;
      MovedIsPosition(init, pv);
      MovedAppend(init, f);
    }
  }

  /** The open book is one-sided and as long as the position, and no exit ever failed. */
  ghost predicate Consistent(t: Tally) {
    && !t.failed
    && t.position == |t.longs| - |t.shorts|
    && (t.longs == [] || t.shorts == [])
    && |t.pnls| == t.exits
  }

  /** For every log whatever: no exit ever finds its book empty, the open book is one-sided and
      as long as the position, and every record is an exit, its entry, or still open. */
  lemma {:induction false} ReplayNeverFails(fills: seq<Fill>, pv: real)
    ensures Consistent(Replay(fills, pv))
    ensures |fills| == 2 * Replay(fills, pv).exits + AbsInt(Replay(fills, pv).position)
  {
    if fills != [] {
      ReplayNeverFails(fills[..|fills| - 1], pv);
    }
  }

  function Opposite(t: Tally, buy: bool): seq<real> {
    if buy then t.shorts else t.longs
  }

  function Same(t: Tally, buy: bool): seq<real> {
    if buy then t.longs else t.shorts
  }

  lemma TalliedCloses(t: Tally, f: Fill, pv: real)
    requires Consistent(t) && Opposite(t, f.buy) != []
    ensures var t' := Tallied(t, f, pv);
            && Opposite(t', f.buy) == Opposite(t, f.buy)[1..]
            && Same(t', f.buy) == Same(t, f.buy)
            && t'.pnls == t.pnls + [UnitGain(Opposite(t, f.buy)[0], f.buy, f.price, pv)]
  {
  }

  lemma TalliedOpens(t: Tally, f: Fill, pv: real)
    requires Consistent(t) && Opposite(t, f.buy) == []
    ensures var t' := Tallied(t, f, pv);
            && Opposite(t', f.buy) == []
            && Same(t', f.buy) == Same(t, f.buy) + [f.price]
            && t'.pnls == t.pnls
  {
  }

  /** Prices sold less prices bought. */
  function CashFlow(fills: seq<Fill>): real {
    SideTotal(fills, false) - SideTotal(fills, true)
  }

  /** The open book's value at its entry prices. */
  function BookValue(t: Tally): real {
    Sum(t.longs) - Sum(t.shorts)
  }

  /** One record moves the FIFO profit by its cash and the change in the open book. */
  lemma TalliedCashFlow(t: Tally, f: Fill, pv: real)
    requires Consistent(t)
    ensures var t' := Tallied(t, f, pv);
            var cash := if f.buy then -f.price else f.price;
            Sum(t'.pnls) == Sum(t.pnls) + pv * (cash + (BookValue(t') - BookValue(t)))
  {
    hide *;
    var t' := Tallied(t, f, pv);
    if Opposite(t, f.buy) != [] {
      var first := Opposite(t, f.buy)[0];
      TalliedCloses(t, f, pv);
      SumSnoc(t.pnls, UnitGain(first, f.buy, f.price, pv));
      BookCloses(t, t', f.buy);
      GainIsCash(first, f.buy, f.price, pv, BookValue(t') - BookValue(t));
    } else {
      TalliedOpens(t, f, pv);
      BookOpens(t, t', f.buy, f.price);
    }
  }

  /** The book without the oldest entry of one side. */
  lemma BookCloses(t: Tally, t': Tally, buy: bool)
    requires Opposite(t, buy) != [] && Opposite(t', buy) == Opposite(t, buy)[1..] && Same(t', buy) == Same(t, buy)
    ensures BookValue(t') - BookValue(t) == if buy then Opposite(t, buy)[0] else -Opposite(t, buy)[0]
  {
  }

  lemma BookOpens(t: Tally, t': Tally, buy: bool, price: real)
    requires Opposite(t, buy) == [] == Opposite(t', buy) && Same(t', buy) == Same(t, buy) + [price]
    ensures BookValue(t') - BookValue(t) == if buy then price else -price
  {
    SumSnoc(Same(t, buy), price);
    hide Sum;
  }

  lemma GainIsCash(entry: real, buy: bool, price: real, pv: real, moved: real)
    requires moved == if buy then entry else -entry
    ensures UnitGain(entry, buy, price, pv) == pv * ((if buy then -price else price) + moved)
  {
  }

  /** FIFO profit is what was sold less what was bought, with the open book valued at its
      entry prices. */
  ghost predicate CashLaw(t: Tally, cash: real, pv: real) {
    Sum(t.pnls) == pv * (cash + BookValue(t))
  }

  lemma Distribute(pv: real, a: real, b: real)
    ensures pv * (a + b) == pv * a + pv * b
  {
  }

  lemma CashLawStep(t: Tally, f: Fill, cash: real, pv: real)
    requires Consistent(t) && CashLaw(t, cash, pv)
    ensures CashLaw(Tallied(t, f, pv), cash + (if f.buy then -f.price else f.price), pv)
  {
    TalliedCashFlow(t, f, pv);
    var paid := if f.buy then -f.price else f.price;
    Distribute(pv, cash + BookValue(t), paid + (BookValue(Tallied(t, f, pv)) - BookValue(t)));
  }

  /** The cash law holds of every log. */
  lemma {:induction false} FifoProfitIsCashFlow(fills: seq<Fill>, pv: real)
    ensures CashLaw(Replay(fills, pv), CashFlow(fills), pv)
  {
    if fills != [] {
      var init := fills[..|fills| - 1];
      FifoProfitIsCashFlow(init, pv);
      ReplayNeverFails(init, pv);
      CashLawStep(Replay(init, pv), fills[|fills| - 1], CashFlow(init), pv);
    }
  }

  /** FIFO profit of closing the entries `es` at `price` with an order on side `buy`. */
  function FifoGain(es: seq<real>, buy: bool, price: real, pv: real): real {
    if es == [] then 0.0 else UnitGain(es[0], buy, price, pv) + FifoGain(es[1..], buy, price, pv)
  }

  /** ... which is the points between `price` and the entries' total. */
  lemma {:induction false} FifoGainTotal(es: seq<real>, buy: bool, price: real, pv: real)
    ensures FifoGain(es, buy, price, pv)
            == pv * (if buy then Sum(es) - price * |es| as real else price * |es| as real - Sum(es))
  {
    if es != [] {
      FifoGainTotal(es[1..], buy, price, pv);
      var n := |es[1..]| as real;
      assert |es| as real == n + 1.0;
      assert price * (n + 1.0) == price * n + price;
      if buy {
        Distribute(pv, Sum(es[1..]) - price * n, es[0] - price);
      } else {
        Distribute(pv, price * n - Sum(es[1..]), price - es[0]);
      }
    }
  }

  lemma NoGain(f: Fill, pv: real)
    ensures FifoGain([], f.buy, f.price, pv) == 0.0
  {
  }

  lemma OneGain(es: seq<real>, f: Fill, pv: real)
    requires es != []
    ensures FifoGain(es, f.buy, f.price, pv)
            == UnitGain(es[0], f.buy, f.price, pv) + FifoGain(es[1..], f.buy, f.price, pv)
  {
  }

  /** `k` records on one side against at least `k` opposite entries close the oldest `k`. */
  lemma {:induction false} ReplayCloses(fills: seq<Fill>, f: Fill, k: nat, pv: real)
    requires k <= |Opposite(Replay(fills, pv), f.buy)|
    ensures var t, t' := Replay(fills, pv), Replay(fills + Repeat(f, k), pv);
            && Opposite(t', f.buy) == Opposite(t, f.buy)[k..]
            && Same(t', f.buy) == Same(t, f.buy)
            && Sum(t'.pnls) == Sum(t.pnls) + FifoGain(Opposite(t, f.buy)[..k], f.buy, f.price, pv)
    decreases k
  {
    hide *;
    if k == 0 {
      assert fills + Repeat(f, k) == fills;
      NoGain(f, pv);
    } else {
      var t := Replay(fills, pv);
      var es := Opposite(t, f.buy);
      OneGain(es[..k], f, pv);
      ReplayNeverFails(fills, pv);
      ReplayAppend(fills, f, pv);
      TalliedCloses(t, f, pv);
      SumSnoc(t.pnls, UnitGain(es[0], f.buy, f.price, pv));
      AppendRepeat(fills, f, k);
      ReplayCloses(fills + [f], f, k - 1, pv);
      assert es[1..][k - 1..] == es[k..] && es[1..][..k - 1] == es[..k][1..];
    }
  }

  /** `k` records on one side against no opposite entries open `k` more. */
  lemma {:induction false} ReplayOpens(fills: seq<Fill>, f: Fill, k: nat, pv: real)
    requires Opposite(Replay(fills, pv), f.buy) == []
    ensures var t, t' := Replay(fills, pv), Replay(fills + Repeat(f, k), pv);
            && Opposite(t', f.buy) == []
            && Same(t', f.buy) == Same(t, f.buy) + Repeat(f.price, k)
            && t'.pnls == t.pnls
    decreases k
  {
    var t := Replay(fills, pv);
    if k == 0 {
      assert fills + Repeat(f, k) == fills;
    } else {
      ReplayNeverFails(fills, pv);
      ReplayAppend(fills, f, pv);
      TalliedOpens(t, f, pv);
      AppendRepeat(fills, f, k);
      AppendRepeat(Same(t, f.buy), f.price, k);
      ReplayOpens(fills + [f], f, k - 1, pv);
    }
  }
}
