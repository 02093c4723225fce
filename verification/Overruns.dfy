/** The other half of the expression round trip: before a token that does extend it, an emitted
    expression never reads back as itself. */
module Overruns {
  import opened Syntax
  import opened Grammar
  import opened Emitter
  import opened Weights
  import opened ExprRoundTrip

  lemma NoThirdLevel(s: Tokens)
    ensures NextLevel(s) != 3 && NextLevel(s) <= 6
  {
  }

  /** `k` does not begin with an empty pair of parentheses. */
  predicate Solid(k: Tokens) {
    Starts(k, LPar) ==> !Starts(k.tail, RPar)
  }

  /** The parse fails or takes some of `k`, a name, number or literal included. */
  predicate Short(r: Parsed<Expr>, k: Tokens) {
    r.Ok? ==> Length(r.rest) < Length(k) && (Solid(k) ==> Load(r.rest) < Load(k))
  }

  /** `k` starts with something an expression just printed takes: a point word, or a
      parenthesis after a bare name. */
  predicate Grabs(x: Expr, parens: bool, k: Tokens) {
    StartsWithPoint(k) || (Starts(k, LPar) && !parens && EndsOpen(x))
  }

  /** Or an operator that joins at level `lvl`. */
  predicate Takes(x: Expr, parens: bool, lvl: nat, k: Tokens) {
    Grabs(x, parens, k) || (Apart(k) && 1 <= NextLevel(k) && lvl <= NextLevel(k))
  }

  /** One level down. */
  lemma StepShort(voc: Vocabulary, to: nat, s: Tokens, k: Tokens)
    requires Coherent(voc) && 1 <= to <= 6 && Short(ParseAt(voc, to + 1, s), k)
    requires to == 3 ==> !Starts(s, Kw(KNot))
    ensures Short(ParseAt(voc, to, s), k)
  {
    hide Coherent, ParseMore, Solid, Load, ParsePrimary;
    var r := ParseAt(voc, to + 1, s);
    if r.Ok? {
      MoreKeeps(voc, to, r.value, r.rest);
    }
  }

  lemma {:induction false} LowerShort(voc: Vocabulary, from: nat, to: nat, s: Tokens, k: Tokens)
    requires Coherent(voc) && 1 <= to <= from <= 7 && Short(ParseAt(voc, from, s), k)
    requires to <= 3 < from ==> !Starts(s, Kw(KNot))
    ensures Short(ParseAt(voc, to, s), k)
    decreases from - to
  {
    hide *;
    if to < from {
      LowerShort(voc, from, to + 1, s, k);
      StepShort(voc, to, s, k);
    }
  }

  lemma SignlessAt7(voc: Vocabulary, s: Tokens)
    requires s.Cons? && MayStart(s.head, 8)
    ensures var p := ParsePrimary(voc, s);
            ParseAt(voc, 7, s)
            == (if p.Fail? then Fail
                else if StartsWithPoint(p.rest) then Ok(Binary(Times, p.value, TICK), p.rest.tail) else p)
  {
    hide ParsePrimary;
  }

  lemma NamedIsShort(voc: Vocabulary, n: string, k: Tokens)
    requires Coherent(voc) && Starts(k, LPar)
    ensures Short(ParseNamed(voc, n, k), k)
  {
    hide Coherent, ParseArgs, ParseIndex, Weight;
    var es := ParseCallArgs(voc, k.tail);
    if es.Ok? {
      ArgsKeep(voc, k.tail);
      IndexKeeps(voc, Call(n, es.value), es.rest);
      if Solid(k) {
        SomeArgs(voc, k.tail);
      }
    }
  }

  lemma SomeArgs(voc: Vocabulary, s: Tokens)
    ensures ParseArgs(voc, s).Ok? ==> ArgsWeight(ParseArgs(voc, s).value) >= 1
  {
    hide ParseAt;
    if ParseArgs(voc, s).Ok? {
      Weighty(ParseArgs(voc, s).value.arg);
    }
  }

  lemma ClosedIsLight(voc: Vocabulary, s: Tokens, close: Token)
    requires Coherent(voc)
    ensures ParseClosed(voc, s, close).Ok? ==> Load(ParseClosed(voc, s, close).rest) < Load(s)
  {
    hide Coherent, ParseClosed;
    ClosedKeeps(voc, s, close);
    if ParseClosed(voc, s, close).Ok? {
      Weighty(ParseClosed(voc, s, close).value);
    }
  }

  lemma PositionIsShort(voc: Vocabulary, kw: string, k: Tokens)
    requires Coherent(voc) && Starts(k, LPar)
    ensures Short(ParsePosition(voc, kw, k), k) && Short(ParseSymbolInfo(voc, kw, k), k)
  {
    hide Coherent, ParseAt, ParseClosed, ParseIndex, Weight;
    assert Length(k) == 1 + Length(k.tail) && Load(k) == Load(k.tail);
    ClosedIsLight(voc, k.tail, RPar);
    AtKeeps(voc, 1, k.tail);
    var i := ParseAt(voc, 1, k.tail);
    if i.Ok? {
      Weighty(i.value);
      if Starts(i.rest, Comma) {
        ClosedIsLight(voc, i.rest.tail, RPar);
      }
    }
  }

  /** An identifier that a parenthesis calls takes the parenthesis. */
  lemma IdentIsShort(voc: Vocabulary, val: string, k: Tokens)
    requires Coherent(voc) && Starts(k, LPar)
    requires var c := Classify(voc, val, true);
             c == Position || c == SymbolInfo || c == Plain
    ensures Short(ParseIdentPrimary(voc, val, k), k)
  {
    assert Classify(voc, val, true) == Position ==> val in voc.positionWords;
    assert ReadDataSuffix(k) == NotData;
    hide Coherent, Short, ParseNamed, ParsePosition, ParseSymbolInfo, ParseIndex, ReadDataSuffix, Classify;
    NamedIsShort(voc, val, k);
    if val in voc.positionWords {
      PositionIsShort(voc, voc.positionWords[val], k);
    }
    if val in voc.seriesWords {
      PositionIsShort(voc, voc.seriesWords[val], k);
    }
    assert Short(Fail, k) by { FailIsShort(k); }
  }

  lemma FailIsShort(k: Tokens)
    ensures Short(Fail, k)
  {
  }

  /** What an expression that ends in a bare name is printed as. */
  lemma OpenIsName(voc: Vocabulary, e: Expr, k: Tokens)
    requires Coherent(voc) && Shape(voc, e) && Prec(e) == 8 && EndsOpen(e)
    ensures e.Ident? || e.PosKw?
    ensures var name := if e.Ident? then e.name else Spelled(voc.spelling, e.kwarg);
            && Emit(voc, e, k) == Cons(Id(name), k)
            && var c := Classify(voc, Resolve(voc, name, true), true);
               c == Position || c == SymbolInfo || c == Plain
  {
    if e.PosKw? {
      SpellingReads(voc, e.kwarg, true);
      OpenWord(voc, e.kwarg);
    } else {
      OpenName(voc, e.name);
    }
    hide Coherent, Classify, Resolve;
  }

  lemma CalledIsShort(voc: Vocabulary, e: Expr, k: Tokens)
    requires Coherent(voc) && Shape(voc, e) && Prec(e) == 8 && Starts(k, LPar) && EndsOpen(e)
    ensures Short(ParsePrimary(voc, Emit(voc, e, k)), k)
  {
    hide *;
    OpenIsName(voc, e, k);
    var name := if e.Ident? then e.name else Spelled(voc.spelling, e.kwarg);
    IdReads(voc, name, k);
    IdentIsShort(voc, Resolve(voc, name, true), k);
  }

  /** A keyword called is a position keyword, a symbol property or a plain call. */
  lemma OpenWord(voc: Vocabulary, kw: string)
    requires Coherent(voc) && kw in voc.spelling
    ensures var c := Classify(voc, voc.spelling[kw], true);
            c == Position || c == SymbolInfo || c == Plain
  {
    assert SpellsKeyword(voc, voc.spelling[kw], kw);
  }

  lemma OpenName(voc: Vocabulary, n: string)
    requires Coherent(voc) && Shape(voc, Ident(n)) && n != INTERNAL_MARKET_POSITION
    ensures var c := Classify(voc, Resolve(voc, n, true), true);
            c == Position || c == SymbolInfo || c == Plain
  {
  }

  /** What is read as `x` up to an operator goes on through it. */
  lemma OperatorIsShort(voc: Vocabulary, s: Tokens, x: Expr, lvl: nat, k: Tokens)
    requires Coherent(voc) && 1 <= lvl <= NextLevel(k) && ReadsAs(voc, NextLevel(k), s, x, k)
    requires lvl <= 3 < NextLevel(k) ==> !Starts(s, Kw(KNot))
    ensures Short(ParseAt(voc, lvl, s), k)
  {
    var p := NextLevel(k);
    NoThirdLevel(k);
    hide Coherent, ParseAt, Join, InfixLevel, Weight, TokenWeight;
    AtKeeps(voc, p + 1, k.tail);
    var r := ParseAt(voc, p + 1, k.tail);
    if r.Ok? {
      Weighty(r.value);
      MoreKeeps(voc, p, Join(k.head, x, r.value), r.rest);
    }
    LowerShort(voc, p, lvl, s, k);
  }

  lemma {:induction false} EmitOverruns(voc: Vocabulary, e: Expr, lvl: nat, k: Tokens)
    requires Coherent(voc) && Shape(voc, e) && 1 <= lvl <= 7 && lvl <= Prec(e)
    requires Takes(e, false, lvl, k)
    ensures Short(ParseAt(voc, lvl, Emit(voc, e, k)), k)
    decreases e, 2
  {
    FirstToken(voc, e, k);
    NoThirdLevel(k);
    hide Coherent, Shape, ParseAt, ParseMore, ParsePrimary, EndsOpen, Emit;
    if !Grabs(e, false, k) && NextLevel(k) <= Prec(e) {
      EmitReads(voc, e, NextLevel(k), k);
      OperatorIsShort(voc, Emit(voc, e, k), e, lvl, k);
    } else if Prec(e) == 8 {
      PrimaryOverruns(voc, e, k);
      LowerShort(voc, 7, lvl, Emit(voc, e, k), k);
    } else {
      TopOverruns(voc, e, k);
      LowerShort(voc, Prec(e), lvl, Emit(voc, e, k), k);
    }
  }

  lemma SignShort(voc: Vocabulary, s: Tokens, k: Tokens)
    requires s.Cons? && MayStart(s.head, 8) && Short(ParsePrimary(voc, s), k)
    ensures Short(ParseAt(voc, 7, s), k)
  {
    hide ParsePrimary, ParseAt, MayStart;
    SignlessAt7(voc, s);
  }

  lemma PointShort(voc: Vocabulary, s: Tokens, e: Expr, k: Tokens)
    requires s.Cons? && MayStart(s.head, 8) && ParsePrimary(voc, s) == Ok(e, k) && StartsWithPoint(k)
    ensures Short(ParseAt(voc, 7, s), k)
  {
    hide ParsePrimary, ParseAt, MayStart;
    SignlessAt7(voc, s);
  }

  lemma PrimaryOverruns(voc: Vocabulary, e: Expr, k: Tokens)
    requires Coherent(voc) && Shape(voc, e) && Prec(e) == 8 && Grabs(e, false, k)
    ensures Short(ParseAt(voc, 7, Emit(voc, e, k)), k)
  {
    assert StartsWithPoint(k) || (Starts(k, LPar) && EndsOpen(e));
    assert StartsWithPoint(k) ==> !Starts(k, LPar);
    hide *;
    FirstToken(voc, e, k);
    if StartsWithPoint(k) {
      PointIsApart(k);
      PrimaryParses(voc, e, k);
      PointShort(voc, Emit(voc, e, k), e, k);
    } else {
      CalledIsShort(voc, e, k);
      SignShort(voc, Emit(voc, e, k), k);
    }
  }

  lemma PointIsApart(k: Tokens)
    requires StartsWithPoint(k)
    ensures Apart(k)
  {
  }

  lemma {:induction false} OperandOverruns(voc: Vocabulary, x: Expr, parent: nat, isRight: bool, lvl: nat, k: Tokens)
    requires Coherent(voc) && Shape(voc, x) && 1 <= lvl <= 7
    requires !NeedsParens(x, parent, isRight) ==> lvl <= Prec(x)
    requires Takes(x, NeedsParens(x, parent, isRight), lvl, k)
    ensures Short(ParseAt(voc, lvl, Operand(voc, x, parent, isRight, k)), k)
    decreases x, 5
  {
    hide Coherent, Shape, ParseAt, ParsePrimary, EndsOpen, Emit;
    if NeedsParens(x, parent, isRight) {
      ParensOverrun(voc, x, parent, isRight, lvl, k);
    } else {
      EmitOverruns(voc, x, lvl, k);
    }
  }

  lemma ParensOverrun(voc: Vocabulary, x: Expr, parent: nat, isRight: bool, lvl: nat, k: Tokens)
    requires Coherent(voc) && Shape(voc, x) && 1 <= lvl <= 7 && NeedsParens(x, parent, isRight)
    requires Takes(x, true, lvl, k)
    ensures Short(ParseAt(voc, lvl, Operand(voc, x, parent, isRight, k)), k)
  {
    hide Coherent, Shape, ParseAt, ParseMore, ParsePrimary, EndsOpen, Emit;
    var s := Operand(voc, x, parent, isRight, k);
    if StartsWithPoint(k) {
      ClosedParses(voc, x, RPar, k);
      ParenReads(voc, Emit(voc, x, Cons(RPar, k)), x, k);
      SignlessAt7(voc, s);
      LowerShort(voc, 7, lvl, s, k);
    } else {
      NoThirdLevel(k);
      OperandReads(voc, x, parent, isRight, NextLevel(k), k);
      OperatorIsShort(voc, s, x, lvl, k);
    }
  }

  lemma {:induction false} TopOverruns(voc: Vocabulary, e: Expr, k: Tokens)
    requires Coherent(voc) && Shape(voc, e) && Prec(e) < 8 && Takes(e, false, Prec(e) + 1, k)
    ensures Short(ParseAt(voc, Prec(e), Emit(voc, e, k)), k)
    decreases e, 1
  {
    hide Coherent, ParseAt, ParseMore, ParsePrimary, Load, Solid, Operand, InfixToken, Join, InfixLevel, NextLevel,
         Apart;
    if Infix(e) {
      InfixJoins(e);
      InfixEmits(voc, e, k);
      InfixShapes(voc, e);
      hide Shape, Emit, Prec, EndsOpen;
      InfixOverruns(voc, e, InfixToken(e), e.left, e.right, k);
    } else if e.Not? {
      OperandOverruns(voc, e.operand, 3, true, 3, k);
      NotShort(voc, Operand(voc, e.operand, 3, true, k), k);
    } else {
      OperandOverruns(voc, e.operand, 7, true, 7, k);
      NegShort(voc, Operand(voc, e.operand, 7, true, k), k);
    }
  }

  lemma NotShort(voc: Vocabulary, s: Tokens, k: Tokens)
    requires Short(ParseAt(voc, 3, s), k)
    ensures Short(ParseAt(voc, 3, Cons(Kw(KNot), s)), k)
  {
  }

  lemma NegShort(voc: Vocabulary, s: Tokens, k: Tokens)
    requires Short(ParseAt(voc, 7, s), k)
    ensures Short(ParseAt(voc, 7, Cons(Op(SMinus), s)), k)
  {
  }

  lemma JoinShort(voc: Vocabulary, p: nat, s: Tokens, l: Expr, t: Token, s1: Tokens, k: Tokens)
    requires Coherent(voc) && 1 <= p <= 6 && p != 3 && InfixLevel(t) == p
    requires ReadsAs(voc, p, s, l, Cons(t, s1)) && Short(ParseAt(voc, p + 1, s1), k)
    ensures Short(ParseAt(voc, p, s), k)
  {
    hide Coherent, ParseAt, Join, Solid, Load;
    var r := ParseAt(voc, p + 1, s1);
    if r.Ok? {
      MoreKeeps(voc, p, Join(t, l, r.value), r.rest);
    }
  }

  /** Operands without parentheses are tight enough. */
  lemma OperandLevels(l: Expr, r: Expr, p: nat)
    ensures (!NeedsParens(l, p, false) ==> p <= Prec(l)) && (!NeedsParens(r, p, true) ==> p + 1 <= Prec(r))
  {
  }

  lemma {:induction false} InfixOverruns(voc: Vocabulary, e: Expr, t: Token, l: Expr, r: Expr, k: Tokens)
    requires Coherent(voc) && Shape(voc, l) && Shape(voc, r) && l < e && r < e
    requires InfixLevel(t) == Prec(e) && 1 <= Prec(e) <= 6 && Prec(e) != 3
    requires Takes(r, NeedsParens(r, Prec(e), true), Prec(e) + 1, k)
    ensures var p := Prec(e);
            Short(ParseAt(voc, p, Operand(voc, l, p, false, Cons(t, Operand(voc, r, p, true, k)))), k)
    decreases e, 0
  {
    hide *;
    var p := Prec(e);
    var s1 := Operand(voc, r, p, true, k);
    OperandLevels(l, r, p);
    OperatorIsTight(t, s1);
    OperandReads(voc, l, p, false, p, Cons(t, s1));
    OperandOverruns(voc, r, p, true, p + 1, k);
    JoinShort(voc, p, Operand(voc, l, p, false, Cons(t, s1)), l, t, s1, k);
  }

  /** What joins an expression just printed is read into it. */
  lemma Overrun(voc: Vocabulary, e: Expr, k: Tokens)
    requires Coherent(voc) && Shape(voc, e) && Apart(k) && !(Fits(e, k) && NextLevel(k) == 0)
    ensures Short(ParseAt(voc, 1, Emit(voc, e, k)), k)
  {
    assert !Fits(e, k) ==> Grabs(e, false, k);
    hide Coherent, Shape, ParseAt, Emit, EndsOpen, Apart, Fits, Short;
    EmitOverruns(voc, e, 1, k);
  }

  /** Exactly when an emitted expression reads back: what follows neither indexes it, names its
      data stream, joins it with an operator, scales it by a point word, nor calls its last name. */
  lemma ReadsBackExactly(voc: Vocabulary, e: Expr, k: Tokens)
    requires Coherent(voc) && Shape(voc, e) && Apart(k)
    ensures ParseAt(voc, 1, Emit(voc, e, k)) == Ok(e, k) <==> Fits(e, k) && NextLevel(k) == 0
  {
    hide Coherent, Shape, ParseAt, Emit, Apart, Fits, NextLevel;
    if Fits(e, k) && NextLevel(k) == 0 {
      ExpressionRoundTrip(voc, e, k);
    } else {
      Overrun(voc, e, k);
    }
  }
}
