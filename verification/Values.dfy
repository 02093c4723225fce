/** What expressions are worth, and the forms the emitter never prints: signs in a row, `N points`,
    `CrossesAbove(a, b)` and `Mod(a, b)`, other spellings of keywords and data streams. Each is
    read as the printed form with the same meaning. */
module Values {
  import opened Syntax
  import opened Grammar
  import opened Emitter
  import opened ExprRoundTrip

  // ---- Worth ------------------------------------------------------------------------------------

  /** The operations and calls that arithmetic does not give a meaning. */
  datatype Head = Joined(op: BinOp) | Compared(cmp: CmpOp) | Crossed(above: bool) | Denied
                | Called(name: string) | Indexed(series: Expr) | Asked(kwarg: string)

  /** What keywords, leaves and every other operation are worth: anything. */
  datatype Meaning = Meaning(word: string -> real, leaf: Expr -> real, apply: (Head, seq<real>) -> real)

  /** Sums, products, quotients and signs are the arithmetic ones. */
  function Worth(m: Meaning, e: Expr): real
    decreases e
  {
    match e
    case Binary(op, l, r) => Combined(m, op, Worth(m, l), Worth(m, r))
    case Compare(op, l, r) => m.apply(Compared(op), [Worth(m, l), Worth(m, r)])
    case Crosses(above, l, r) => m.apply(Crossed(above), [Worth(m, l), Worth(m, r)])
    case Not(x) => m.apply(Denied, [Worth(m, x)])
    case Neg(x) => -Worth(m, x)
    case Call(n, es) => m.apply(Called(n), ArgsWorth(m, es))
    case BarRef(s, i) => m.apply(Indexed(s), [Worth(m, i)])
    case PosKw(kw) => m.word(kw)
    case PosKwCall(kw, a, b) => m.apply(Asked(kw), [Worth(m, a), Worth(m, b)])
    case _ => m.leaf(e)
  }

  function ArgsWorth(m: Meaning, es: Args): seq<real>
    decreases es
  {
    if es.NoArgs? then [] else [Worth(m, es.arg)] + ArgsWorth(m, es.rest)
  }

  function Combined(m: Meaning, op: BinOp, x: real, y: real): real {
    match op
    case Plus => x + y
    case Minus => x - y
    case Times => x * y
    case Div => if y == 0.0 then m.apply(Joined(op), [x, y]) else x / y
    case _ => m.apply(Joined(op), [x, y])
  }

  /** The instrument's prices have a scale. */
  predicate Scaled(m: Meaning) {
    m.word("pricescale") != 0.0
  }

  /** `x` minimum price moves. */
  function Points(m: Meaning, x: real): real
    requires Scaled(m)
  {
    x * (m.word("minmove") / m.word("pricescale"))
  }

  // ---- Signs and points ---------------------------------------------------------------------------

  /** The minus signs before an expression, plus signs aside. */
  function Minuses(s: Tokens): nat {
    if Starts(s, Op(SMinus)) then 1 + Minuses(s.tail)
    else if Starts(s, Op(SPlus)) then Minuses(s.tail)
    else 0
  }

  /** What follows the signs. */
  function Unsigned(s: Tokens): Tokens {
    if Starts(s, Op(SMinus)) || Starts(s, Op(SPlus)) then Unsigned(s.tail) else s
  }

  /** `x` after `n` minus signs. */
  function Signed(n: nat, x: real): real {
    if n == 0 then x else -Signed(n - 1, x)
  }

  lemma TimesTick(m: Meaning, e: Expr)
    requires Scaled(m)
    ensures Worth(m, Binary(Times, e, TICK)) == Points(m, Worth(m, e))
  {
    assert Worth(m, TICK) == m.word("minmove") / m.word("pricescale");
  }

  lemma OppositePoints(m: Meaning, x: real)
    requires Scaled(m)
    ensures Points(m, -x) == -Points(m, x)
  {
    var t := m.word("minmove") / m.word("pricescale");
    assert (-x) * t == -(x * t);
  }

  lemma UnsignedAt7(voc: Vocabulary, s: Tokens)
    requires !Starts(s, Op(SMinus)) && !Starts(s, Op(SPlus))
    ensures var p := ParsePrimary(voc, s);
            ParseAt(voc, 7, s)
            == (if p.Fail? then Fail
                else if StartsWithPoint(p.rest) then Ok(Binary(Times, p.value, TICK), p.rest.tail) else p)
  {
    hide ParsePrimary;
  }

  /** `r` is what the primary `p` is after `n` minus signs and before a point word, if one follows. */
  predicate Unary(m: Meaning, n: nat, p: Parsed<Expr>, r: Parsed<Expr>)
    requires Scaled(m)
  {
    if p.Fail? then r.Fail?
    else if StartsWithPoint(p.rest) then
      r.Ok? && r.rest == p.rest.tail && Worth(m, r.value) == Signed(n, Points(m, Worth(m, p.value)))
    else r.Ok? && r.rest == p.rest && Worth(m, r.value) == Signed(n, Worth(m, p.value))
  }

  lemma MinusFlips(m: Meaning, n: nat, p: Parsed<Expr>, r: Parsed<Expr>)
    requires Scaled(m) && Unary(m, n, p, r)
    ensures Unary(m, n + 1, p, if r.Fail? then Fail else Ok(Neg(r.value), r.rest))
  {
    hide Points, StartsWithPoint;
  }

  lemma NoSign(m: Meaning, p: Parsed<Expr>)
    requires Scaled(m)
    ensures Unary(m, 0, p, if p.Fail? then Fail
                           else if StartsWithPoint(p.rest) then Ok(Binary(Times, p.value, TICK), p.rest.tail) else p)
  {
    hide Points, StartsWithPoint, TICK, Combined;
    if p.Ok? {
      TimesTick(m, p.value);
    }
  }

  /** Every token stream: any signs, a primary, perhaps a point word. The signs flip its worth once
      for each minus, the point word makes it that many price moves, and nothing else is read. */
  lemma {:induction false} UnaryMeans(voc: Vocabulary, m: Meaning, s: Tokens)
    requires Scaled(m)
    ensures Unary(m, Minuses(s), ParsePrimary(voc, Unsigned(s)), ParseAt(voc, 7, s))
    decreases s
  {
    hide ParsePrimary, Unary;
    if Starts(s, Op(SMinus)) {
      UnaryMeans(voc, m, s.tail);
      MinusFlips(m, Minuses(s.tail), ParsePrimary(voc, Unsigned(s)), ParseAt(voc, 7, s.tail));
    } else if Starts(s, Op(SPlus)) {
      UnaryMeans(voc, m, s.tail);
    } else {
      UnsignedAt7(voc, s);
      hide ParseAt;
      NoSign(m, ParsePrimary(voc, s));
    }
  }

  /** A primary, or an expression in parentheses, before a point word. */
  lemma TightPoints(voc: Vocabulary, e: Expr, isRight: bool, w: string, k: Tokens)
    requires Coherent(voc) && Shape(voc, e) && IsPointWord(w) && (NeedsParens(e, 7, isRight) || Prec(e) == 8)
    ensures ParseAt(voc, 7, Operand(voc, e, 7, isRight, Cons(Id(w), k))) == Ok(Binary(Times, e, TICK), k)
  {
    var k1 := Cons(Id(w), k);
    assert Apart(k1) && StartsWithPoint(k1);
    hide Coherent, Shape, Emit, ParseAt, ParsePrimary, ParseClosed, Apart, EndsOpen, Prec;
    if NeedsParens(e, 7, isRight) {
      ClosedParses(voc, e, RPar, k1);
      ParenReads(voc, Emit(voc, e, Cons(RPar, k1)), e, k1);
    } else {
      FirstToken(voc, e, k1);
      PrimaryParses(voc, e, k1);
    }
    UnsignedAt7(voc, Operand(voc, e, 7, isRight, k1));
  }

  /** `e points` is worth the worth of `e` times MinMove / PriceScale, whatever `e` is. */
  lemma PointsAreTicks(voc: Vocabulary, m: Meaning, e: Expr, w: string, k: Tokens)
    requires Coherent(voc) && Shape(voc, e) && IsPointWord(w) && Scaled(m)
    ensures var r := ParseAt(voc, 7, Operand(voc, e, 7, false, Cons(Id(w), k)));
            r.Ok? && r.rest == k && Worth(m, r.value) == Points(m, Worth(m, e))
  {
    hide Coherent, ParseAt, TICK, Points;
    if Prec(e) == 7 {
      assert e.Neg?;
      var s := Operand(voc, e.operand, 7, true, Cons(Id(w), k));
      TightPoints(voc, e.operand, true, w, k);
      NegReads(voc, s, Binary(Times, e.operand, TICK), k);
      TimesTick(m, e.operand);
      OppositePoints(m, Worth(m, e.operand));
    } else {
      TightPoints(voc, e, false, w, k);
      TimesTick(m, e);
    }
  }

  /** `+e` is worth what `e` is worth, `-e` its opposite. */
  lemma SignsMean(voc: Vocabulary, m: Meaning, e: Expr, k: Tokens)
    requires Coherent(voc) && Shape(voc, e) && Loose(k)
    requires Starts(k, LPar) && Prec(e) >= 7 ==> !EndsOpen(e)
    ensures var s := Operand(voc, e, 7, false, k);
            var p, n := ParseAt(voc, 7, Cons(Op(SPlus), s)), ParseAt(voc, 7, Cons(Op(SMinus), s));
            && p.Ok? && p.rest == k && Worth(m, p.value) == Worth(m, e)
            && n.Ok? && n.rest == k && Worth(m, n.value) == -Worth(m, e)
  {
    hide *;
    var s := Operand(voc, e, 7, false, k);
    SignedOperandReads(voc, e, k);
    NegReads(voc, s, e, k);
    PlusReads(voc, s);
    Opposite(m, e);
  }

  lemma Opposite(m: Meaning, e: Expr)
    ensures Worth(m, Neg(e)) == -Worth(m, e)
  {
  }

  lemma SignedOperandReads(voc: Vocabulary, e: Expr, k: Tokens)
    requires Coherent(voc) && Shape(voc, e) && Loose(k)
    requires Starts(k, LPar) && Prec(e) >= 7 ==> !EndsOpen(e)
    ensures ParseAt(voc, 7, Operand(voc, e, 7, false, k)) == Ok(e, k)
  {
    hide Coherent, Shape, Emit, Loose, EndsOpen, Operand, ParseAt, ParseMore, NextLevel, Prec;
    AtMostSix(k);
    OperandReads(voc, e, 7, false, 7, k);
  }

  lemma AtMostSix(k: Tokens)
    ensures NextLevel(k) <= 6
  {
  }

  lemma PlusReads(voc: Vocabulary, s: Tokens)
    ensures ParseAt(voc, 7, Cons(Op(SPlus), s)) == ParseAt(voc, 7, s)
  {
  }

  // ---- Keywords called ------------------------------------------------------------------------------

  /** The infix keywords that can also be called. */
  predicate Callable(w: Word) {
    w == KMod || w == KCrossesAbove || w == KCrossesBelow
  }

  /** The node of `a w b`. */
  function Node(w: Word, a: Expr, b: Expr): Expr
    requires Callable(w)
  {
    Join(Kw(w), a, b)
  }

  /** `w(a, b)` before `k`. */
  function CallForm(voc: Vocabulary, w: Word, a: Expr, b: Expr, k: Tokens): Tokens {
    Cons(Kw(w), Cons(LPar, Emit(voc, a, Cons(Comma, Emit(voc, b, Cons(RPar, k))))))
  }

  /** `a w b` before `k`. */
  function InfixForm(voc: Vocabulary, w: Word, a: Expr, b: Expr, k: Tokens): Tokens
    requires Callable(w)
  {
    var p := InfixLevel(Kw(w));
    Operand(voc, a, p, false, Cons(Kw(w), Operand(voc, b, p, true, k)))
  }

  lemma PairArgsParse(voc: Vocabulary, a: Expr, b: Expr, k: Tokens)
    requires Coherent(voc) && Shape(voc, a) && Shape(voc, b)
    ensures ParseCallArgs(voc, Emit(voc, a, Cons(Comma, Emit(voc, b, Cons(RPar, k)))))
            == Ok(MoreArgs(a, MoreArgs(b, NoArgs)), k)
  {
    hide Coherent, Shape, Emit, ParseCallArgs;
    assert ArgsShape(voc, MoreArgs(b, NoArgs));
    CallArgsParse(voc, MoreArgs(a, MoreArgs(b, NoArgs)), k);
  }

  /** A keyword called is one primary, whatever follows it. */
  lemma CallFormReads(voc: Vocabulary, w: Word, a: Expr, b: Expr, k: Tokens)
    requires Coherent(voc) && Shape(voc, a) && Shape(voc, b) && Callable(w)
    ensures ParsePrimary(voc, CallForm(voc, w, a, b, k)) == Ok(Node(w, a, b), k)
  {
    hide Coherent, Shape, Emit, ParseAt, ParseClosed, ParseCallArgs;
    var k1 := Cons(Comma, Emit(voc, b, Cons(RPar, k)));
    if w == KMod {
      WholeParses(voc, a, k1);
      ClosedParses(voc, b, RPar, k);
    } else {
      PairArgsParse(voc, a, b, k);
    }
  }

  lemma PrimaryAlone(voc: Vocabulary, s: Tokens, e: Expr, k: Tokens)
    requires ParsePrimary(voc, s) == Ok(e, k) && Loose(k) && NextLevel(k) == 0
    requires !Starts(s, Op(SMinus)) && !Starts(s, Op(SPlus)) && !Starts(s, Kw(KNot))
    ensures ParseAt(voc, 1, s) == Ok(e, k)
  {
    hide ParsePrimary, Apart;
    assert ParseAt(voc, 7, s) == Ok(e, k);
    hide ParseAt;
    assert ReadsAs(voc, 7, s, e, k);
    ReadsLower(voc, 7, 1, s, e, k);
    ReadsWhole(voc, 1, s, e, k);
  }

  /** `Mod(a, b)` and `CrossesAbove(a, b)` are the trees of `a mod b` and `a crosses above b`. */
  lemma CallFormIsInfix(voc: Vocabulary, w: Word, a: Expr, b: Expr, k: Tokens)
    requires Coherent(voc) && Shape(voc, a) && Shape(voc, b) && Callable(w)
    requires Fits(Node(w, a, b), k) && NextLevel(k) == 0
    ensures ParseAt(voc, 1, CallForm(voc, w, a, b, k)).Ok?
    ensures ParseAt(voc, 1, CallForm(voc, w, a, b, k)) == ParseAt(voc, 1, InfixForm(voc, w, a, b, k))
  {
    var e := Node(w, a, b);
    JoinPrints(voc, w, a, b, k);
    hide Coherent, Shape, ParseAt, ParsePrimary, Emit, Join, InfixForm, Apart, EndsOpen, NextLevel;
    CallFormReads(voc, w, a, b, k);
    PrimaryAlone(voc, CallForm(voc, w, a, b, k), e, k);
    ExpressionRoundTrip(voc, e, k);
  }

  lemma JoinPrints(voc: Vocabulary, w: Word, a: Expr, b: Expr, k: Tokens)
    requires Callable(w) && Shape(voc, a) && Shape(voc, b)
    ensures var e := Node(w, a, b);
            Shape(voc, e) && Emit(voc, e, k) == InfixForm(voc, w, a, b, k)
  {
    hide Operand;
  }

  function Count(es: Args): nat {
    if es.NoArgs? then 0 else 1 + Count(es.rest)
  }

  /** A crosses keyword is called with two arguments or not at all. */
  lemma CrossesTakesTwo(voc: Vocabulary, w: Word, es: Args, k: Tokens)
    requires Coherent(voc) && ArgsShape(voc, es) && (w == KCrossesAbove || w == KCrossesBelow)
    ensures ParsePrimary(voc, Cons(Kw(w), Cons(LPar, EmitArgs(voc, es, Cons(RPar, k))))).Ok? <==> Count(es) == 2
  {
    hide Coherent, ArgsShape, EmitArgs, ParseAt, ParseClosed, ParseCallArgs, Count;
    CallArgsParse(voc, es, k);
    TwoOrNot(w == KCrossesAbove, es);
  }

  lemma TwoOrNot(above: bool, es: Args)
    ensures CrossesOf(above, es).Some? <==> Count(es) == 2
  {
    if es.MoreArgs? && es.rest.MoreArgs? {
      assert Count(es) == 2 + Count(es.rest.rest);
    }
  }

  // ---- Other spellings of a primary -------------------------------------------------------------------

  /** Parentheses nobody needs. */
  lemma ParensMeanNothing(voc: Vocabulary, e: Expr, k: Tokens)
    requires Coherent(voc) && Shape(voc, e)
    ensures ParsePrimary(voc, Cons(LPar, Emit(voc, e, Cons(RPar, k)))) == Ok(e, k)
  {
    hide *;
    ClosedParses(voc, e, RPar, k);
    ParenReads(voc, Emit(voc, e, Cons(RPar, k)), e, k);
  }

  /** `src of Data(N)` is the tree of `src of DataN`. */
  lemma DataCalledReads(voc: Vocabulary, src: string, n: nat, k: Tokens)
    requires Coherent(voc) && Shape(voc, DataOf(src, n))
    ensures var s := Cons(Id(src), Cons(Id(OF), Cons(Id(DATA), Cons(LPar, Cons(Num(Digits(n)), Cons(RPar, k))))));
            ParsePrimary(voc, s) == Ok(DataOf(src, n), k) == ParsePrimary(voc, Emit(voc, DataOf(src, n), k))
  {
    hide ParseNamed, ParsePosition, ParseSymbolInfo, ParseIndex, ParsePrimary, Coherent;
    DataOfParses(voc, src, n, k);
    DigitsReadBack(n);
    var s := Cons(Id(OF), Cons(Id(DATA), Cons(LPar, Cons(Num(Digits(n)), Cons(RPar, k)))));
    IdReads(voc, src, s);
    assert ReadDataSuffix(s) == DataStream(n, k);
  }

  /** Which needs a whole number. */
  lemma DataNumberIsWhole(voc: Vocabulary, src: string, t: string, k: Tokens)
    requires Coherent(voc) && Shape(voc, DataOf(src, 0))
    ensures var s := Cons(Id(src), Cons(Id(OF), Cons(Id(DATA), Cons(LPar, Cons(Num(t), Cons(RPar, k))))));
            ParsePrimary(voc, s)
            == if DigitsValue(t).Some? then Ok(DataOf(src, DigitsValue(t).value), k) else Fail
  {
    hide ParseNamed, ParsePosition, ParseSymbolInfo, ParseIndex, ParsePrimary, Coherent, DigitsValue;
    var s := Cons(Id(OF), Cons(Id(DATA), Cons(LPar, Cons(Num(t), Cons(RPar, k)))));
    IdReads(voc, src, s);
    assert ReadDataSuffix(s) == if DigitsValue(t).Some? then DataStream(DigitsValue(t).value, k) else BadNumber;
  }

  /** A position keyword called with one argument is the keyword indexed. */
  lemma CalledPositionReads(voc: Vocabulary, kw: string, i: Expr, k: Tokens)
    requires Coherent(voc) && IsPositionKwarg(voc, kw) && Shape(voc, i)
    ensures var s := Cons(Id(voc.spelling[kw]), Cons(LPar, Emit(voc, i, Cons(RPar, k))));
            ParsePrimary(voc, s) == Ok(BarRef(PosKw(kw), i), k) == ParsePrimary(voc, Emit(voc, BarRef(PosKw(kw), i), k))
  {
    hide *;
    var s := Cons(LPar, Emit(voc, i, Cons(RPar, k)));
    IndexedKeyword(voc, kw, i, k);
    PositionCalled(voc, kw, i, k);
    PositionReads(voc, kw, s);
    IdReads(voc, voc.spelling[kw], s);
  }

  lemma IndexedKeyword(voc: Vocabulary, kw: string, i: Expr, k: Tokens)
    requires Coherent(voc) && IsPositionKwarg(voc, kw) && Shape(voc, i)
    ensures ParsePrimary(voc, Emit(voc, BarRef(PosKw(kw), i), k)) == Ok(BarRef(PosKw(kw), i), k)
    ensures Starts(Cons(LPar, Emit(voc, i, Cons(RPar, k))), LPar) && kw in voc.spelling
  {
    hide Coherent, Emit, ParsePrimary, ParseClosed, ParseCallArgs, EmitArgs;
    ClosedParses(voc, i, RBr, k);
    BarRefParses(voc, PosKw(kw), i, k);
  }

  lemma PositionCalled(voc: Vocabulary, kw: string, i: Expr, k: Tokens)
    requires Coherent(voc) && Shape(voc, i)
    ensures ParsePosition(voc, kw, Cons(LPar, Emit(voc, i, Cons(RPar, k)))) == Ok(BarRef(PosKw(kw), i), k)
  {
    hide Coherent, Shape, Emit, ParseAt, ParseClosed, ParseIndex;
    WholeParses(voc, i, Cons(RPar, k));
  }

  /** A price abbreviation that is neither declared nor called is the word it shortens. */
  lemma AbbreviationReads(voc: Vocabulary, a: string, k: Tokens)
    requires Coherent(voc) && a in voc.abbreviations && a !in voc.declared && !Starts(k, LPar)
    ensures ParsePrimary(voc, Cons(Id(a), k)) == ParsePrimary(voc, Cons(Id(voc.abbreviations[a]), k))
  {
    hide ParsePrimary, ParseIdentPrimary, Classify, ReadDataSuffix;
    IdReads(voc, a, k);
    IdReads(voc, voc.abbreviations[a], k);
  }

  /** A declared one is itself. */
  lemma DeclaredReads(voc: Vocabulary, a: string, k: Tokens)
    requires Coherent(voc) && a in voc.abbreviations && a in voc.declared && Classify(voc, a, false) == Plain
    requires Apart(k) && !Starts(k, LPar)
    ensures ParsePrimary(voc, Cons(Id(a), k)) == Ok(Ident(a), k)
  {
    hide ParsePrimary, ParsePosition, ParseSymbolInfo, ReadDataSuffix;
    IdReads(voc, a, k);
    assert ParseNamed(voc, a, k) == ParseIndex(voc, Ident(a), k);
  }

  /** The argument of a symbol property, the stream it is asked of, is read and dropped. */
  lemma SymbolArgumentDropped(voc: Vocabulary, w: string, e: Expr, k: Tokens)
    requires Coherent(voc) && w !in voc.abbreviations && Classify(voc, w, true) == SymbolInfo && Shape(voc, e)
    ensures ParsePrimary(voc, Cons(Id(w), Cons(LPar, Emit(voc, e, Cons(RPar, k)))))
              == ParsePrimary(voc, Cons(Id(w), Cons(LPar, Cons(RPar, k))))
              == Ok(PosKw(voc.seriesWords[w]), k)
    ensures !Starts(k, LPar) ==> ParsePrimary(voc, Cons(Id(w), k)) == Ok(PosKw(voc.seriesWords[w]), k)
  {
    hide ParsePrimary, ParseNamed, ParsePosition, ParseIndex, ReadDataSuffix, Emit, ParseClosed, Shape;
    IdReads(voc, w, Cons(LPar, Emit(voc, e, Cons(RPar, k))));
    IdReads(voc, w, Cons(LPar, Cons(RPar, k)));
    IdReads(voc, w, k);
    FirstToken(voc, e, Cons(RPar, k));
    ClosedParses(voc, e, RPar, k);
  }

  // ---- Which words are reserved -----------------------------------------------------------------------

  /** A name the user has declared, used without parentheses, is that name and not the position or
      extension keyword it is spelled like. */
  lemma UserNameShadows(voc: Vocabulary, val: string, k: Tokens)
    requires val in voc.userNames && (val in voc.positionWords || val in voc.mcWords) && val != MARKET_POSITION
    requires val !in voc.symbolWords && val !in voc.seriesWords && val !in voc.constants && val !in voc.dataSources
    requires Apart(k) && !Starts(k, LPar)
    ensures ParseIdentPrimary(voc, val, k) == Ok(Ident(val), k)
  {
    hide ParsePosition, ParseSymbolInfo, ReadDataSuffix;
    assert ParseNamed(voc, val, k) == ParseIndex(voc, Ident(val), k);
  }

  /** Called, a position keyword is the keyword whoever else has its name. */
  lemma CalledPositionStays(voc: Vocabulary, val: string, i: Expr, k: Tokens)
    requires Coherent(voc) && Shape(voc, i) && val in voc.positionWords && val != MARKET_POSITION
    ensures ParseIdentPrimary(voc, val, Cons(LPar, Emit(voc, i, Cons(RPar, k))))
            == Ok(BarRef(PosKw(voc.positionWords[val]), i), k)
  {
    hide Coherent, Shape, Emit, ParsePosition, ParseNamed, ParseSymbolInfo, ParseIndex, ReadDataSuffix;
    PositionCalled(voc, voc.positionWords[val], i, k);
  }

  lemma SeriesReads(voc: Vocabulary, w: string, s: Tokens)
    requires w in voc.seriesWords && w !in voc.abbreviations && w !in voc.positionWords
    requires w !in voc.symbolWords && w != MARKET_POSITION && ReadDataSuffix(s) == NotData
    ensures ParsePrimary(voc, Cons(Id(w), s))
            == if Starts(s, LPar) then ParseNamed(voc, w, s) else Ok(PosKw(voc.seriesWords[w]), s)
  {
    hide ParsePrimary, ParsePosition, ParseSymbolInfo, ParseNamed, ReadDataSuffix;
    IdReads(voc, w, s);
  }

  /** A series keyword is that series, and called it is a function of that name. */
  lemma SeriesOrCall(voc: Vocabulary, w: string, es: Args, k: Tokens)
    requires Coherent(voc) && w in voc.seriesWords && w !in voc.abbreviations && w !in voc.positionWords
    requires w !in voc.symbolWords && w != MARKET_POSITION && ArgsShape(voc, es) && Apart(k)
    ensures ParsePrimary(voc, Cons(Id(w), Cons(LPar, EmitArgs(voc, es, Cons(RPar, k))))) == Ok(Call(w, es), k)
    ensures !Starts(k, LPar) ==> ParsePrimary(voc, Cons(Id(w), k)) == Ok(PosKw(voc.seriesWords[w]), k)
  {
    var s := Cons(LPar, EmitArgs(voc, es, Cons(RPar, k)));
    assert ReadDataSuffix(s) == NotData;
    hide ParsePrimary, ReadDataSuffix, EmitArgs, ParseCallArgs, ArgsShape, Coherent;
    SeriesReads(voc, w, s);
    SeriesReads(voc, w, k);
    CallArgsParse(voc, es, k);
    assert ParseNamed(voc, w, s) == ParseIndex(voc, Call(w, es), k);
  }
}
