/** Parsing what the emitter prints gives back the tree: through every precedence level,
    left-associative chain, call and bar reference. */
module ExprRoundTrip {
  import opened Sequences
  import opened Syntax
  import opened Grammar
  import opened Emitter

  /** `k` does not begin with a token that would extend the expression before it, operators
      aside: no call, no index, no `points`, no `of DataN`. */
  predicate Tight(k: Tokens) {
    && !Starts(k, LPar) && !Starts(k, LBr)
    && !(StartsWithId(k) && IsPointWord(k.head.name))
    && ReadDataSuffix(k).NotData?
  }

  /** `k` does not begin with an index or a data-stream suffix. */
  predicate Apart(k: Tokens) {
    !Starts(k, LBr) && ReadDataSuffix(k).NotData?
  }

  predicate StartsWithPoint(k: Tokens) {
    StartsWithId(k) && IsPointWord(k.head.name)
  }

  /** Nor with a point word. */
  predicate Loose(k: Tokens) {
    Apart(k) && !StartsWithPoint(k)
  }

  /** The last token printed is a name that a parenthesis would turn into a call. */
  predicate EndsOpen(e: Expr)
    decreases e
  {
    match e
    case Ident(n) => n != INTERNAL_MARKET_POSITION
    case PosKw(_) => true
    case Binary(_, _, r) => !NeedsParens(r, Prec(e), true) && EndsOpen(r)
    case Compare(_, _, r) => !NeedsParens(r, 4, true) && EndsOpen(r)
    case Crosses(_, _, r) => !NeedsParens(r, 4, true) && EndsOpen(r)
    case Not(x) => !NeedsParens(x, 3, true) && EndsOpen(x)
    case Neg(x) => !NeedsParens(x, 7, true) && EndsOpen(x)
    case _ => false
  }

  /** `k` does not extend `e`, operators aside. */
  predicate Fits(e: Expr, k: Tokens) {
    Loose(k) && (Starts(k, LPar) ==> !EndsOpen(e))
  }

  lemma TightFits(e: Expr, k: Tokens)
    requires Tight(k)
    ensures Fits(e, k)
  {
  }

  // ---- First tokens -----------------------------------------------------------------

  predicate MayStart(t: Token, prec: nat) {
    && t != RPar && t != RBr && t != Comma && t != Semi && t != LBr
    && (t.Kw? ==> t == Kw(KNot) || t == Kw(KTrue) || t == Kw(KFalse))
    && (prec >= 4 ==> t != Kw(KNot))
    && (prec >= 8 ==> t != Op(SMinus) && t != Op(SPlus))
  }

  lemma {:induction false} FirstToken(voc: Vocabulary, e: Expr, k: Tokens)
    requires Shape(voc, e)
    ensures Emit(voc, e, k).Cons? && MayStart(Emit(voc, e, k).head, Prec(e))
    decreases e
  {
    match e
    case Binary(op, l, r) => FirstToken(voc, l, Cons(BinToken(op), Operand(voc, r, Prec(e), true, k)));
    case Compare(op, l, r) => FirstToken(voc, l, Cons(CmpToken(op), Operand(voc, r, 4, true, k)));
    case Crosses(above, l, r) => FirstToken(voc, l, Cons(CrossToken(above), Operand(voc, r, 4, true, k)));
    case BarRef(s, i) => FirstToken(voc, s, Cons(LBr, Emit(voc, i, Cons(RBr, k))));
    case _ =>
  }

  // ---- Moving between levels ----------------------------------------------------------

  /** At level `lvl`, `s` reads as `e` with `k` still to come. */
  predicate ReadsAs(voc: Vocabulary, lvl: nat, s: Tokens, e: Expr, k: Tokens)
    requires 1 <= lvl <= 7
  {
    ParseAt(voc, lvl, s) == if lvl == 3 || lvl == 7 then Ok(e, k) else ParseMore(voc, lvl, e, k)
  }

  lemma ReadsWhole(voc: Vocabulary, lvl: nat, s: Tokens, e: Expr, k: Tokens)
    requires 1 <= lvl <= 7 && ReadsAs(voc, lvl, s, e, k) && NextLevel(k) < lvl
    ensures ParseAt(voc, lvl, s) == Ok(e, k)
  {
  }

  lemma {:induction false} ReadsLower(voc: Vocabulary, from: nat, to: nat, s: Tokens, e: Expr, k: Tokens)
    requires 1 <= to <= from <= 7 && ReadsAs(voc, from, s, e, k) && NextLevel(k) <= to
    requires to <= 3 < from ==> !Starts(s, Kw(KNot))
    ensures ReadsAs(voc, to, s, e, k)
    decreases from - to
  {
    if to < from {
      ReadsLower(voc, from, to + 1, s, e, k);
      ReadsWhole(voc, to + 1, s, e, k);
    }
  }

  lemma PrimaryReads(voc: Vocabulary, lvl: nat, s: Tokens, e: Expr, k: Tokens)
    requires 1 <= lvl <= 7 && ParsePrimary(voc, s) == Ok(e, k) && s.Cons? && MayStart(s.head, 8)
    requires Loose(k) && NextLevel(k) <= lvl
    ensures ReadsAs(voc, lvl, s, e, k)
  {
    assert ParseAt(voc, 7, s) == Ok(e, k);
    ReadsLower(voc, 7, lvl, s, e, k);
  }

  lemma NotReads(voc: Vocabulary, s: Tokens, x: Expr, k: Tokens)
    requires ParseAt(voc, 3, s) == Ok(x, k)
    ensures ParseAt(voc, 3, Cons(Kw(KNot), s)) == Ok(Not(x), k)
  {
  }

  lemma NegReads(voc: Vocabulary, s: Tokens, x: Expr, k: Tokens)
    requires ParseAt(voc, 7, s) == Ok(x, k)
    ensures ParseAt(voc, 7, Cons(Op(SMinus), s)) == Ok(Neg(x), k)
  {
  }

  lemma JoinReads(voc: Vocabulary, p: nat, s: Tokens, l: Expr, t: Token, s1: Tokens, r: Expr, k: Tokens)
    requires 1 <= p <= 6 && p != 3 && InfixLevel(t) == p
    requires ReadsAs(voc, p, s, l, Cons(t, s1)) && ParseAt(voc, p + 1, s1) == Ok(r, k)
    ensures ReadsAs(voc, p, s, Join(t, l, r), k)
  {
  }

  lemma ClosedReads(voc: Vocabulary, s: Tokens, e: Expr, close: Token, k: Tokens)
    requires ParseAt(voc, 1, s) == Ok(e, Cons(close, k))
    ensures ParseClosed(voc, s, close) == Ok(e, k)
  {
  }

  lemma ParenReads(voc: Vocabulary, s: Tokens, e: Expr, k: Tokens)
    requires ParseClosed(voc, s, RPar) == Ok(e, k)
    ensures ParsePrimary(voc, Cons(LPar, s)) == Ok(e, k)
  {
  }

  lemma LastArgReads(voc: Vocabulary, s: Tokens, e: Expr, k: Tokens)
    requires ParseAt(voc, 1, s) == Ok(e, Cons(RPar, k))
    ensures ParseArgs(voc, s) == Ok(MoreArgs(e, NoArgs), k)
  {
  }

  lemma MoreArgsRead(voc: Vocabulary, s: Tokens, e: Expr, s1: Tokens, es: Args, k: Tokens)
    requires ParseAt(voc, 1, s) == Ok(e, Cons(Comma, s1)) && ParseArgs(voc, s1) == Ok(es, k)
    ensures ParseArgs(voc, s) == Ok(MoreArgs(e, es), k)
  {
  }

  lemma IdReads(voc: Vocabulary, name: string, s: Tokens)
    ensures ParsePrimary(voc, Cons(Id(name), s)) == ParseIdentPrimary(voc, Resolve(voc, name, Starts(s, LPar)), s)
  {
  }

  // ---- The round trip -------------------------------------------------------------------

  /** An expression printed at a level it fits, before anything that cannot extend it. */
  lemma {:induction false} EmitReads(voc: Vocabulary, e: Expr, lvl: nat, k: Tokens)
    requires Coherent(voc) && Shape(voc, e) && 1 <= lvl <= 7 && lvl <= Prec(e)
    requires Fits(e, k) && NextLevel(k) <= lvl
    ensures ReadsAs(voc, lvl, Emit(voc, e, k), e, k)
    decreases e, 2
  {
    hide Coherent, ParseAt, ParseMore, ParsePrimary, Apart, EndsOpen;
    FirstToken(voc, e, k);
    if Prec(e) == 8 {
      PrimaryParses(voc, e, k);
      PrimaryReads(voc, lvl, Emit(voc, e, k), e, k);
    } else {
      TopReads(voc, e, k);
      ReadsLower(voc, Prec(e), lvl, Emit(voc, e, k), e, k);
    }
  }

  /** The token of an infix expression builds it. */
  lemma InfixJoins(e: Expr)
    requires Infix(e)
    ensures InfixLevel(InfixToken(e)) == Prec(e) && Join(InfixToken(e), e.left, e.right) == e
    ensures EndsOpen(e) <==> !NeedsParens(e.right, Prec(e), true) && EndsOpen(e.right)
  {
  }

  /** An operator at its own level. */
  lemma {:induction false} TopReads(voc: Vocabulary, e: Expr, k: Tokens)
    requires Coherent(voc) && Shape(voc, e) && Prec(e) < 8
    requires Fits(e, k) && NextLevel(k) <= Prec(e)
    ensures ReadsAs(voc, Prec(e), Emit(voc, e, k), e, k)
    decreases e, 1
  {
    hide Coherent, ParseAt, ParseMore, ParsePrimary, Loose, Operand, InfixToken, Join, InfixLevel, NextLevel;
    if Infix(e) {
      InfixJoins(e);
      InfixEmits(voc, e, k);
      InfixShapes(voc, e);
      hide Shape, Emit, Prec, EndsOpen;
      InfixReads(voc, e, InfixToken(e), e.left, e.right, k);
    } else if e.Not? {
      OperandReads(voc, e.operand, 3, true, 3, k);
      NotReads(voc, Operand(voc, e.operand, 3, true, k), e.operand, k);
    } else {
      OperandReads(voc, e.operand, 7, true, 7, k);
      NegReads(voc, Operand(voc, e.operand, 7, true, k), e.operand, k);
    }
  }

  lemma OperatorIsTight(t: Token, s: Tokens)
    requires InfixLevel(t) > 0
    ensures Tight(Cons(t, s)) && Loose(Cons(t, s)) && !Starts(Cons(t, s), LPar)
    ensures NextLevel(Cons(t, s)) == InfixLevel(t)
  {
  }

  /** A left-associative operator: left operand, operator, tighter right operand. */
  lemma {:induction false} InfixReads(voc: Vocabulary, e: Expr, t: Token, l: Expr, r: Expr, k: Tokens)
    requires Coherent(voc) && Shape(voc, l) && Shape(voc, r) && l < e && r < e
    requires InfixLevel(t) == Prec(e) && 1 <= Prec(e) <= 6 && Prec(e) != 3 && Join(t, l, r) == e
    requires Loose(k) && (Starts(k, LPar) && !NeedsParens(r, Prec(e), true) ==> !EndsOpen(r)) && NextLevel(k) <= Prec(e)
    ensures var p := Prec(e);
            ReadsAs(voc, p, Operand(voc, l, p, false, Cons(t, Operand(voc, r, p, true, k))), e, k)
    decreases e, 0
  {
    var p := Prec(e);
    var s1 := Operand(voc, r, p, true, k);
    hide Coherent, ParseAt, ParseMore, Loose, EndsOpen, Emit, Shape, Join, Operand, Prec;
    assert Tight(Cons(t, s1)) && NextLevel(Cons(t, s1)) == p by { OperatorIsTight(t, s1); }
    TightFits(l, Cons(t, s1));
    hide Tight, InfixLevel, NextLevel;
    OperandReads(voc, l, p, false, p, Cons(t, s1));
    OperandReads(voc, r, p, true, p + 1, k);
    ReadsWhole(voc, p + 1, s1, r, k);
    JoinReads(voc, p, Operand(voc, l, p, false, Cons(t, s1)), l, t, s1, r, k);
  }

  /** An operand, parenthesised or tight enough without, reads back at level `lvl`. */
  lemma {:induction false} OperandReads(voc: Vocabulary, x: Expr, parent: nat, isRight: bool, lvl: nat, k: Tokens)
    requires Coherent(voc) && Shape(voc, x) && 1 <= lvl <= 7
    requires !NeedsParens(x, parent, isRight) ==> lvl <= Prec(x) && (Starts(k, LPar) ==> !EndsOpen(x))
    requires Loose(k) && NextLevel(k) <= lvl
    ensures ReadsAs(voc, lvl, Operand(voc, x, parent, isRight, k), x, k)
    decreases x, 5
  {
    hide Coherent, ParseAt, ParseMore, ParsePrimary, Loose, EndsOpen, Emit, Shape;
    if NeedsParens(x, parent, isRight) {
      ClosedParses(voc, x, RPar, k);
      ParenReads(voc, Emit(voc, x, Cons(RPar, k)), x, k);
      PrimaryReads(voc, lvl, Operand(voc, x, parent, isRight, k), x, k);
    } else {
      EmitReads(voc, x, lvl, k);
    }
  }

  lemma {:induction false} WholeParses(voc: Vocabulary, e: Expr, k: Tokens)
    requires Coherent(voc) && Shape(voc, e) && Fits(e, k) && NextLevel(k) == 0
    ensures ParseAt(voc, 1, Emit(voc, e, k)) == Ok(e, k)
    decreases e, 3
  {
    hide Coherent, ParseAt, Shape, Emit, Fits;
    EmitReads(voc, e, 1, k);
    ReadsWhole(voc, 1, Emit(voc, e, k), e, k);
  }

  lemma {:induction false} ClosedParses(voc: Vocabulary, e: Expr, close: Token, k: Tokens)
    requires Coherent(voc) && Shape(voc, e) && (close == RPar || close == RBr)
    ensures ParseClosed(voc, Emit(voc, e, Cons(close, k)), close) == Ok(e, k)
    decreases e, 4
  {
    hide Coherent, ParseAt, Shape, Emit;
    WholeParses(voc, e, Cons(close, k));
    ClosedReads(voc, Emit(voc, e, Cons(close, k)), e, close, k);
  }

  lemma {:induction false} ArgsParse(voc: Vocabulary, es: Args, k: Tokens)
    requires Coherent(voc) && ArgsShape(voc, es) && es.MoreArgs?
    ensures ParseArgs(voc, EmitArgs(voc, es, Cons(RPar, k))) == Ok(es, k)
    decreases es, 5
  {
    hide Coherent, ParseAt, ParseArgs, Emit, Shape;
    var s := EmitArgs(voc, es, Cons(RPar, k));
    if es.rest.NoArgs? {
      WholeParses(voc, es.arg, Cons(RPar, k));
      LastArgReads(voc, s, es.arg, k);
    } else {
      var s1 := EmitArgs(voc, es.rest, Cons(RPar, k));
      ArgsParse(voc, es.rest, k);
      WholeParses(voc, es.arg, Cons(Comma, s1));
      MoreArgsRead(voc, s, es.arg, s1, es.rest, k);
    }
  }

  lemma {:induction false} CallArgsParse(voc: Vocabulary, es: Args, k: Tokens)
    requires Coherent(voc) && ArgsShape(voc, es)
    ensures ParseCallArgs(voc, EmitArgs(voc, es, Cons(RPar, k))) == Ok(es, k)
    decreases es, 6
  {
    hide Coherent, ParseArgs, Emit, Shape;
    if es.MoreArgs? {
      ArgsParse(voc, es, k);
      FirstToken(voc, es.arg,
                 if es.rest.NoArgs? then Cons(RPar, k) else Cons(Comma, EmitArgs(voc, es.rest, Cons(RPar, k))));
    }
  }

  /** Keyword spellings resolve to themselves and classify as the keyword they spell. */
  lemma SpellingReads(voc: Vocabulary, kw: string, called: bool)
    requires Coherent(voc) && kw in voc.spelling
    ensures var w := voc.spelling[kw];
            && Resolve(voc, w, called) == w
            && (w in voc.positionWords ==> Classify(voc, w, called) == Position && voc.positionWords[w] == kw)
            && (w !in voc.positionWords && !called ==>
                  (Classify(voc, w, called) == Series || Classify(voc, w, called) == SymbolInfo)
                  && w in voc.seriesWords && voc.seriesWords[w] == kw)
  {
    assert SpellsKeyword(voc, voc.spelling[kw], kw);
  }

  lemma {:induction false} PrimaryParses(voc: Vocabulary, e: Expr, k: Tokens)
    requires Coherent(voc) && Shape(voc, e) && Prec(e) == 8 && Apart(k) && (Starts(k, LPar) ==> !EndsOpen(e))
    ensures ParsePrimary(voc, Emit(voc, e, k)) == Ok(e, k)
    decreases e, 1
  {
    hide Coherent, ParseAt, ParseMore, ParsePrimary, ParseCallArgs, ParseClosed, Classify, Resolve;
    match e
    case Number(_, _) => LeafParses(voc, e, k);
    case Text(_) => LeafParses(voc, e, k);
    case Boolean(_) => LeafParses(voc, e, k);
    case McKw(_) => LeafParses(voc, e, k);
    case Ident(n) => NamedParses(voc, n, k);
    case DataOf(src, n) => DataOfParses(voc, src, n, k);
    case PosKw(kw) => KeywordParses(voc, kw, k);
    case Call(n, es) =>
      CallArgsParse(voc, es, k);
      CallParses(voc, n, es, k);
    case BarRef(s, i) =>
      ClosedParses(voc, i, RBr, k);
      if s.Call? {
        CallArgsParse(voc, s.args, Cons(LBr, Emit(voc, i, Cons(RBr, k))));
      }
      BarRefParses(voc, s, i, k);
    case PosKwCall(kw, a, b) =>
      ClosedParses(voc, b, RPar, k);
      WholeParses(voc, a, Cons(Comma, Emit(voc, b, Cons(RPar, k))));
      PositionCallParses(voc, kw, a, b, k);
  }

  lemma LeafParses(voc: Vocabulary, e: Expr, k: Tokens)
    requires Coherent(voc) && Shape(voc, e)
    requires e.Number? || e.Text? || e.Boolean? || e.McKw?
    ensures ParsePrimary(voc, Emit(voc, e, k)) == Ok(e, k)
  {
    hide Coherent, ParseIdentPrimary, Classify, Resolve, ParseKeywordCall, ParseClosed;
    if e.McKw? {
      McWordReads(voc, e.kwarg, k);
    } else if e.Number? && e.symbol.Some? {
      ConstantReads(voc, e.text, e.symbol.value, k);
    }
  }

  lemma McWordReads(voc: Vocabulary, kw: string, k: Tokens)
    requires Coherent(voc) && kw in voc.mcSpelling
    ensures ParseIdentPrimary(voc, Resolve(voc, voc.mcSpelling[kw], Starts(k, LPar)), k) == Ok(McKw(kw), k)
  {
    var w := voc.mcSpelling[kw];
    assert Classify(voc, w, false) == McWord && voc.mcWords[w] == kw && w !in voc.abbreviations;
    assert Classify(voc, w, Starts(k, LPar)) == McWord;
    hide ParseNamed, ParsePosition, ParseSymbolInfo, ParseIndex, ReadDataSuffix, Coherent, Classify;
  }

  lemma ConstantReads(voc: Vocabulary, t: string, sym: string, k: Tokens)
    requires Coherent(voc) && Shape(voc, Number(t, Some(sym)))
    ensures ParseIdentPrimary(voc, Resolve(voc, sym, Starts(k, LPar)), k) == Ok(Number(t, Some(sym)), k)
  {
    assert Resolve(voc, sym, Starts(k, LPar)) == sym;
    assert Classify(voc, sym, Starts(k, LPar)) == Constant;
    hide ParseNamed, ParsePosition, ParseSymbolInfo, ParseIndex, ReadDataSuffix, Coherent, Classify, Resolve;
  }

  /** A plain or internal identifier, an index or nothing following. */
  lemma IdentReads(voc: Vocabulary, n: string, k: Tokens)
    requires Coherent(voc) && Shape(voc, Ident(n)) && ReadDataSuffix(k).NotData?
    requires Starts(k, LPar) ==> n == INTERNAL_MARKET_POSITION
    ensures ParsePrimary(voc, Emit(voc, Ident(n), k)) == ParseIndex(voc, Ident(n), k)
  {
    hide ParseAt, ParseMore, ParseIndex, ReadDataSuffix;
    IdReads(voc, if n == INTERNAL_MARKET_POSITION then MARKET_POSITION else n, k);
  }

  lemma NamedParses(voc: Vocabulary, n: string, k: Tokens)
    requires Coherent(voc) && Shape(voc, Ident(n)) && Apart(k) && (Starts(k, LPar) ==> !EndsOpen(Ident(n)))
    ensures ParsePrimary(voc, Emit(voc, Ident(n), k)) == Ok(Ident(n), k)
  {
    hide Coherent, Shape, ParsePrimary, ReadDataSuffix;
    IdentReads(voc, n, k);
  }

  lemma DataOfParses(voc: Vocabulary, src: string, n: nat, k: Tokens)
    requires Coherent(voc) && Shape(voc, DataOf(src, n))
    ensures ParsePrimary(voc, Emit(voc, DataOf(src, n), k)) == Ok(DataOf(src, n), k)
  {
    hide ParseAt, ParseMore, ParseNamed, DataNumber, DataName, ParsePosition, ParseSymbolInfo, ParseIndex, ParsePrimary,
         Coherent;
    DataNameReadsBack(n);
    var s := Cons(Id(OF), Cons(Id(DataName(n)), k));
    IdReads(voc, src, s);
    assert ReadDataSuffix(s) == DataStream(n, k);
  }

  /** What the identifier of a keyword is read as. */
  lemma KeywordIdent(voc: Vocabulary, kw: string, k: Tokens)
    requires kw in voc.spelling && !Starts(k, LPar)
    requires var w := voc.spelling[kw];
             && (w in voc.positionWords ==> Classify(voc, w, false) == Position && voc.positionWords[w] == kw)
             && (w !in voc.positionWords ==>
                   (Classify(voc, w, false) == Series || Classify(voc, w, false) == SymbolInfo)
                   && w in voc.seriesWords && voc.seriesWords[w] == kw)
    ensures ParseIdentPrimary(voc, voc.spelling[kw], k)
            == if voc.spelling[kw] in voc.positionWords then ParseIndex(voc, PosKw(kw), k) else Ok(PosKw(kw), k)
  {
    hide ParseIndex, Classify, ParseNamed, ReadDataSuffix;
  }

  lemma KeywordReads(voc: Vocabulary, kw: string, k: Tokens)
    requires Coherent(voc) && kw in voc.spelling && !Starts(k, LPar)
    ensures ParsePrimary(voc, Emit(voc, PosKw(kw), k))
            == if voc.spelling[kw] in voc.positionWords then ParseIndex(voc, PosKw(kw), k) else Ok(PosKw(kw), k)
  {
    hide Coherent, ParseIndex, Resolve, Classify, ParsePrimary, ParseIdentPrimary;
    SpellingReads(voc, kw, false);
    KeywordIdent(voc, kw, k);
    IdReads(voc, voc.spelling[kw], k);
  }

  lemma KeywordParses(voc: Vocabulary, kw: string, k: Tokens)
    requires Coherent(voc) && kw in voc.spelling && Apart(k) && !Starts(k, LPar)
    ensures ParsePrimary(voc, Emit(voc, PosKw(kw), k)) == Ok(PosKw(kw), k)
  {
    hide Coherent, ParsePrimary, ReadDataSuffix;
    KeywordReads(voc, kw, k);
  }

  lemma CallReads(voc: Vocabulary, n: string, es: Args, k: Tokens)
    requires Coherent(voc) && Shape(voc, Call(n, es))
    requires ParseCallArgs(voc, EmitArgs(voc, es, Cons(RPar, k))) == Ok(es, k)
    ensures ParsePrimary(voc, Emit(voc, Call(n, es), k)) == ParseIndex(voc, Call(n, es), k)
  {
    hide Coherent, ParseIndex, ParseCallArgs, EmitArgs, ArgsShape;
    var s := Cons(LPar, EmitArgs(voc, es, Cons(RPar, k)));
    IdReads(voc, n, s);
    assert ReadDataSuffix(s) == NotData;
  }

  lemma CallParses(voc: Vocabulary, n: string, es: Args, k: Tokens)
    requires Coherent(voc) && Shape(voc, Call(n, es)) && Apart(k)
    requires ParseCallArgs(voc, EmitArgs(voc, es, Cons(RPar, k))) == Ok(es, k)
    ensures ParsePrimary(voc, Emit(voc, Call(n, es), k)) == Ok(Call(n, es), k)
  {
    hide Coherent, Shape, ParsePrimary, ParseCallArgs, EmitArgs, ReadDataSuffix;
    CallReads(voc, n, es, k);
  }

  /** A position keyword called. */
  lemma PositionReads(voc: Vocabulary, kw: string, s: Tokens)
    requires Coherent(voc) && IsPositionKwarg(voc, kw) && Starts(s, LPar)
    ensures Resolve(voc, voc.spelling[kw], true) == voc.spelling[kw]
    ensures ParseIdentPrimary(voc, voc.spelling[kw], s) == ParsePosition(voc, kw, s)
  {
    SpellingReads(voc, kw, true);
    hide Coherent, ParseIndex, Resolve, Classify, ParseNamed, ParseSymbolInfo, ReadDataSuffix, ParsePosition;
  }

  lemma PositionCallParses(voc: Vocabulary, kw: string, a: Expr, b: Expr, k: Tokens)
    requires Coherent(voc) && Shape(voc, PosKwCall(kw, a, b))
    requires ParseClosed(voc, Emit(voc, b, Cons(RPar, k)), RPar) == Ok(b, k)
    requires var k1 := Cons(Comma, Emit(voc, b, Cons(RPar, k)));
             ParseAt(voc, 1, Emit(voc, a, k1)) == Ok(a, k1)
    ensures ParsePrimary(voc, Emit(voc, PosKwCall(kw, a, b), k)) == Ok(PosKwCall(kw, a, b), k)
  {
    hide *;
    var s := Cons(LPar, Emit(voc, a, Cons(Comma, Emit(voc, b, Cons(RPar, k)))));
    PositionCallEmits(voc, kw, a, b, k);
    PositionReads(voc, kw, s);
    IdReads(voc, voc.spelling[kw], s);
    CalledTwiceReads(voc, kw, a, b, k);
  }

  lemma PositionCallEmits(voc: Vocabulary, kw: string, a: Expr, b: Expr, k: Tokens)
    requires Shape(voc, PosKwCall(kw, a, b))
    ensures var s := Cons(LPar, Emit(voc, a, Cons(Comma, Emit(voc, b, Cons(RPar, k)))));
            && Starts(s, LPar) && IsPositionKwarg(voc, kw) && kw in voc.spelling
            && Emit(voc, PosKwCall(kw, a, b), k) == Cons(Id(voc.spelling[kw]), s)
  {
  }

  lemma CalledTwiceReads(voc: Vocabulary, kw: string, a: Expr, b: Expr, k: Tokens)
    requires ParseClosed(voc, Emit(voc, b, Cons(RPar, k)), RPar) == Ok(b, k)
    requires var k1 := Cons(Comma, Emit(voc, b, Cons(RPar, k)));
             ParseAt(voc, 1, Emit(voc, a, k1)) == Ok(a, k1)
    ensures ParsePosition(voc, kw, Cons(LPar, Emit(voc, a, Cons(Comma, Emit(voc, b, Cons(RPar, k))))))
            == Ok(PosKwCall(kw, a, b), k)
  {
    hide ParseAt, ParseClosed, ParseIndex, Emit;
  }

  lemma IndexReads(voc: Vocabulary, s: Expr, i: Expr, t: Tokens, k: Tokens)
    requires ParseClosed(voc, t, RBr) == Ok(i, k)
    ensures ParseIndex(voc, s, Cons(LBr, t)) == Ok(BarRef(s, i), k)
  {
  }

  lemma BarRefParses(voc: Vocabulary, s: Expr, i: Expr, k: Tokens)
    requires Coherent(voc) && Shape(voc, BarRef(s, i))
    requires ParseClosed(voc, Emit(voc, i, Cons(RBr, k)), RBr) == Ok(i, k)
    requires var k1 := Cons(LBr, Emit(voc, i, Cons(RBr, k)));
             s.Call? ==> ParseCallArgs(voc, EmitArgs(voc, s.args, Cons(RPar, k1))) == Ok(s.args, k1)
    ensures ParsePrimary(voc, Emit(voc, BarRef(s, i), k)) == Ok(BarRef(s, i), k)
  {
    hide Coherent, ParsePrimary, ParseClosed, ParseIndex, ParseCallArgs, EmitArgs;
    var k1 := Cons(LBr, Emit(voc, i, Cons(RBr, k)));
    IndexReads(voc, s, i, k1.tail, k);
    assert Emit(voc, BarRef(s, i), k) == Emit(voc, s, k1);
    if s.Ident? {
      IdentReads(voc, s.name, k1);
    } else if s.Call? {
      CallReads(voc, s.name, s.args, k1);
    } else {
      KeywordReads(voc, s.kwarg, k1);
    }
  }

  /** The round trip: for every tree of the parser's shape and every continuation that cannot
      extend an expression, parsing the emission gives back the tree and the continuation. */
  lemma ExpressionRoundTrip(voc: Vocabulary, e: Expr, k: Tokens)
    requires Coherent(voc) && Shape(voc, e) && Fits(e, k) && NextLevel(k) == 0
    ensures ParseAt(voc, 1, Emit(voc, e, k)) == Ok(e, k)
  {
    hide Coherent, Shape, Fits, Emit, ParseAt;
    WholeParses(voc, e, k);
  }
}
