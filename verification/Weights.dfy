/** What a stream of tokens weighs: its names, numbers and literals. Parsing never makes weight and
    emission keeps it, so a tree is never read back from less text than its own. */
module Weights {
  import opened Syntax
  import opened Grammar
  import opened Emitter
  import opened Statements

  /** A point word weighs as much as the two keywords it stands for. */
  function NameWeight(name: string): nat {
    if IsPointWord(name) then 2 else 1
  }

  function TokenWeight(t: Token): nat {
    match t
    case Num(_) => 1
    case Str(_) => 1
    case Id(name) => NameWeight(name)
    case Kw(KTrue) => 1
    case Kw(KFalse) => 1
    case _ => 0
  }

  function Load(s: Tokens): nat {
    match s
    case Nil => 0
    case Cons(t, rest) => TokenWeight(t) + Load(rest)
  }

  function Weight(e: Expr): nat
    decreases e
  {
    match e
    case Number(_, sym) => if sym.Some? then NameWeight(sym.value) else 1
    case Ident(n) => NameWeight(n)
    case Binary(_, l, r) => Weight(l) + Weight(r)
    case Compare(_, l, r) => Weight(l) + Weight(r)
    case Crosses(_, l, r) => Weight(l) + Weight(r)
    case Not(x) => Weight(x)
    case Neg(x) => Weight(x)
    case Call(n, es) => NameWeight(n) + ArgsWeight(es)
    case BarRef(s, i) => Weight(s) + Weight(i)
    case PosKwCall(_, a, b) => 1 + Weight(a) + Weight(b)
    case DataOf(src, _) => NameWeight(src) + 2
    case _ => 1
  }

  function ArgsWeight(es: Args): nat
    decreases es
  {
    match es
    case NoArgs => 0
    case MoreArgs(e, rest) => Weight(e) + ArgsWeight(rest)
  }

  function StmtWeight(st: Stmt): nat
    decreases st
  {
    match st
    case Assign(t, e) => Weight(t) + Weight(e)
    case ExprStmt(e) => Weight(e)
    case If(c, b, leg, _) => Weight(c) + StmtsWeight(b) + if leg.Else? then StmtsWeight(leg.body) else 0
    case For(v, a, z, _, b, _) => NameWeight(v) + Weight(a) + Weight(z) + StmtsWeight(b)
    case While(c, b, _) => Weight(c) + StmtsWeight(b)
    case Repeat(b, c) => StmtsWeight(b) + Weight(c)
    case Once(b, _) => StmtsWeight(b)
    case _ => 0
  }

  function StmtsWeight(sts: Stmts): nat
    decreases sts
  {
    match sts
    case NoStmts => 0
    case MoreStmts(st, rest) => StmtWeight(st) + StmtsWeight(rest)
  }

  lemma {:induction false} Weighty(e: Expr)
    ensures Weight(e) >= 1
    decreases e
  {
    match e
    case Binary(_, l, _) => Weighty(l);
    case Compare(_, l, _) => Weighty(l);
    case Crosses(_, l, _) => Weighty(l);
    case Not(x) => Weighty(x);
    case Neg(x) => Weighty(x);
    case BarRef(s, _) => Weighty(s);
    case _ =>
  }

  // ---- Parsing makes no weight --------------------------------------------------------------

  /** What was read and what is left weigh no more than `w`. */
  predicate Kept(r: Parsed<Expr>, w: nat) {
    r.Ok? ==> Weight(r.value) + Load(r.rest) <= w
  }

  predicate ArgsKept(r: Parsed<Args>, w: nat) {
    r.Ok? ==> ArgsWeight(r.value) + Load(r.rest) <= w
  }

  lemma JoinWeighs(t: Token, l: Expr, r: Expr)
    requires InfixLevel(t) > 0
    ensures Weight(Join(t, l, r)) == Weight(l) + Weight(r)
    ensures TokenWeight(t) == 0
  {
  }

  lemma TickWeighs(e: Expr)
    ensures Weight(Binary(Times, e, TICK)) == Weight(e) + 2
  {
    assert Weight(TICK) == 2;
  }

  /** A sign, a point word or nothing around a primary. */
  lemma SignKeeps(voc: Vocabulary, s: Tokens)
    requires Kept(ParsePrimary(voc, s), Load(s))
    requires Starts(s, Op(SMinus)) || Starts(s, Op(SPlus)) ==> Kept(ParseAt(voc, 7, s.tail), Load(s.tail))
    ensures Kept(ParseAt(voc, 7, s), Load(s))
  {
    hide ParsePrimary;
    if ParsePrimary(voc, s).Ok? {
      TickWeighs(ParsePrimary(voc, s).value);
    }
  }

  lemma NotKeeps(voc: Vocabulary, s: Tokens)
    requires Starts(s, Kw(KNot)) ==> Kept(ParseAt(voc, 3, s.tail), Load(s.tail))
    requires Kept(ParseAt(voc, 4, s), Load(s))
    ensures Kept(ParseAt(voc, 3, s), Load(s))
  {
    hide ParseMore, ParsePrimary;
  }

  lemma InfixKeeps(voc: Vocabulary, lvl: nat, s: Tokens)
    requires 1 <= lvl <= 6 && lvl != 3 && Kept(ParseAt(voc, lvl + 1, s), Load(s))
    requires var r := ParseAt(voc, lvl + 1, s);
             r.Ok? ==> Kept(ParseMore(voc, lvl, r.value, r.rest), Weight(r.value) + Load(r.rest))
    ensures Kept(ParseAt(voc, lvl, s), Load(s))
  {
    hide ParseMore, ParsePrimary;
  }

  lemma {:induction false} AtKeeps(voc: Vocabulary, lvl: nat, s: Tokens)
    requires Coherent(voc) && 1 <= lvl <= 7
    ensures Kept(ParseAt(voc, lvl, s), Load(s))
    decreases Length(s), 9 - lvl
  {
    hide Coherent, ParseAt, ParseMore, ParsePrimary, Kept, Load;
    if lvl == 7 {
      PrimaryKeeps(voc, s);
      if Starts(s, Op(SMinus)) || Starts(s, Op(SPlus)) {
        AtKeeps(voc, 7, s.tail);
      }
      SignKeeps(voc, s);
    } else {
      AtKeeps(voc, lvl + 1, s);
      if lvl == 3 {
        if Starts(s, Kw(KNot)) {
          AtKeeps(voc, 3, s.tail);
        }
        NotKeeps(voc, s);
      } else {
        var r := ParseAt(voc, lvl + 1, s);
        if r.Ok? {
          MoreKeeps(voc, lvl, r.value, r.rest);
        }
        InfixKeeps(voc, lvl, s);
      }
    }
  }

  lemma {:induction false} MoreKeeps(voc: Vocabulary, lvl: nat, left: Expr, s: Tokens)
    requires Coherent(voc) && 1 <= lvl <= 6
    ensures Kept(ParseMore(voc, lvl, left, s), Weight(left) + Load(s))
    ensures ParseMore(voc, lvl, left, s).Ok? ==> Load(ParseMore(voc, lvl, left, s).rest) <= Load(s)
    decreases Length(s), 0
  {
    hide Coherent, ParseAt, Join, Weight, TokenWeight;
    if NextLevel(s) == lvl {
      AtKeeps(voc, lvl + 1, s.tail);
      var r := ParseAt(voc, lvl + 1, s.tail);
      if r.Ok? {
        JoinWeighs(s.head, left, r.value);
        MoreKeeps(voc, lvl, Join(s.head, left, r.value), r.rest);
      }
    }
  }

  lemma {:induction false} ClosedKeeps(voc: Vocabulary, s: Tokens, close: Token)
    requires Coherent(voc)
    ensures Kept(ParseClosed(voc, s, close), Load(s))
    decreases Length(s), 10
  {
    hide Coherent, ParseAt, Weight;
    AtKeeps(voc, 1, s);
  }

  lemma {:induction false} ArgsKeep(voc: Vocabulary, s: Tokens)
    requires Coherent(voc)
    ensures ArgsKept(ParseArgs(voc, s), Load(s))
    decreases Length(s), 10
  {
    hide Coherent, ParseAt, Weight;
    AtKeeps(voc, 1, s);
    var r := ParseAt(voc, 1, s);
    if r.Ok? {
      assert ArgsWeight(MoreArgs(r.value, NoArgs)) == Weight(r.value);
      if Starts(r.rest, Comma) {
        ArgsKeep(voc, r.rest.tail);
      }
    }
  }

  lemma {:induction false} CallArgsKeep(voc: Vocabulary, s: Tokens)
    requires Coherent(voc)
    ensures ArgsKept(ParseCallArgs(voc, s), Load(s))
    decreases Length(s), 11
  {
    hide Coherent, ParseArgs;
    ArgsKeep(voc, s);
  }

  lemma {:induction false} IndexKeeps(voc: Vocabulary, node: Expr, s: Tokens)
    requires Coherent(voc)
    ensures Kept(ParseIndex(voc, node, s), Weight(node) + Load(s))
    ensures ParseIndex(voc, node, s).Ok? ==> Load(ParseIndex(voc, node, s).rest) <= Load(s)
    decreases Length(s), 1
  {
    hide Coherent, ParseClosed;
    if Starts(s, LBr) {
      ClosedKeeps(voc, s.tail, RBr);
    }
  }

  lemma {:induction false} NamedKeeps(voc: Vocabulary, name: string, s: Tokens)
    requires Coherent(voc)
    ensures Kept(ParseNamed(voc, name, s), NameWeight(name) + Load(s))
    decreases Length(s), 2
  {
    hide Coherent, ParseIndex, ParseCallArgs, NameWeight;
    if Starts(s, LPar) {
      CallArgsKeep(voc, s.tail);
      var r := ParseCallArgs(voc, s.tail);
      if r.Ok? {
        IndexKeeps(voc, Call(name, r.value), r.rest);
      }
    } else {
      IndexKeeps(voc, Ident(name), s);
    }
  }

  lemma {:induction false} PositionKeeps(voc: Vocabulary, kw: string, s: Tokens)
    requires Coherent(voc)
    ensures Kept(ParsePosition(voc, kw, s), 1 + Load(s))
    decreases Length(s), 2
  {
    hide Coherent, ParseIndex, ParseAt, ParseClosed;
    if Starts(s, LPar) {
      AtKeeps(voc, 1, s.tail);
      var r := ParseAt(voc, 1, s.tail);
      if r.Ok? && Starts(r.rest, Comma) {
        ClosedKeeps(voc, r.rest.tail, RPar);
      }
    } else {
      IndexKeeps(voc, PosKw(kw), s);
    }
  }

  lemma {:induction false} SymbolInfoKeeps(voc: Vocabulary, kw: string, s: Tokens)
    requires Coherent(voc)
    ensures Kept(ParseSymbolInfo(voc, kw, s), 1 + Load(s))
    decreases Length(s), 2
  {
    hide Coherent, ParseClosed;
    if Starts(s, LPar) && !Starts(s.tail, RPar) {
      ClosedKeeps(voc, s.tail, RPar);
    }
  }

  lemma WordWeights()
    ensures NameWeight(INTERNAL_MARKET_POSITION) == 1 && NameWeight(MARKET_POSITION) == 1 && NameWeight(OF) == 1
    ensures forall name :: 1 <= NameWeight(name)
  {
    assert |INTERNAL_MARKET_POSITION| == 16 && |MARKET_POSITION| == 14 && |OF| == 2 && |"point"| == 5
      && |"points"| == 6;
  }

  lemma DataSuffixKeeps(s: Tokens)
    ensures var r := ReadDataSuffix(s);
            r.DataStream? ==> 2 + Load(r.rest) <= Load(s)
  {
    WordWeights();
    hide DataNumber, DigitsValue, NameWeight;
    var r := ReadDataSuffix(s);
    if r.DataStream? {
      var after := s.tail.tail;
      assert Load(s) == NameWeight(OF) + (NameWeight(s.tail.head.name) + Load(after));
      if r.rest != after {
        assert Load(after) == Load(after.tail) && Load(after.tail) >= Load(after.tail.tail) == Load(r.rest);
      }
    }
  }

  /** What each reading of an identifier keeps decides what the identifier keeps. */
  lemma IdentParts(voc: Vocabulary, val: string, s: Tokens)
    requires Kept(ParseIndex(voc, Ident(INTERNAL_MARKET_POSITION), s), 1 + Load(s))
    requires val in voc.positionWords ==> Kept(ParsePosition(voc, voc.positionWords[val], s), 1 + Load(s))
    requires val in voc.seriesWords ==> Kept(ParseSymbolInfo(voc, voc.seriesWords[val], s), 1 + Load(s))
    requires Kept(ParseNamed(voc, val, s), NameWeight(val) + Load(s))
    requires ReadDataSuffix(s).DataStream? ==> 2 + Load(ReadDataSuffix(s).rest) <= Load(s)
    ensures Kept(ParseIdentPrimary(voc, val, s), NameWeight(val) + Load(s))
  {
    WordWeights();
    hide ParseNamed, ParsePosition, ParseSymbolInfo, ParseIndex, ReadDataSuffix, NameWeight, Load;
  }

  lemma {:induction false} IdentKeeps(voc: Vocabulary, val: string, s: Tokens)
    requires Coherent(voc)
    ensures Kept(ParseIdentPrimary(voc, val, s), NameWeight(val) + Load(s))
    decreases Length(s), 3
  {
    WordWeights();
    hide Coherent, ParseNamed, ParsePosition, ParseSymbolInfo, ParseIndex, ParseIdentPrimary, ReadDataSuffix, Kept,
         NameWeight, Load;
    IndexKeeps(voc, Ident(INTERNAL_MARKET_POSITION), s);
    if val in voc.positionWords {
      PositionKeeps(voc, voc.positionWords[val], s);
    }
    if val in voc.seriesWords {
      SymbolInfoKeeps(voc, voc.seriesWords[val], s);
    }
    NamedKeeps(voc, val, s);
    DataSuffixKeeps(s);
    IdentParts(voc, val, s);
  }

  lemma CrossesWeighs(above: bool, es: Args)
    ensures CrossesOf(above, es).Some? ==> Weight(CrossesOf(above, es).value) <= ArgsWeight(es)
  {
  }

  lemma {:induction false} KeywordCallKeeps(voc: Vocabulary, w: Word, s: Tokens)
    requires Coherent(voc)
    ensures Kept(ParseKeywordCall(voc, w, s), Load(s))
    decreases Length(s), 3
  {
    hide Coherent, ParseAt, ParseClosed, ParseCallArgs, CrossesOf;
    if Starts(s, LPar) {
      if w == KMod {
        AtKeeps(voc, 1, s.tail);
        var r := ParseAt(voc, 1, s.tail);
        if r.Ok? && Starts(r.rest, Comma) {
          ClosedKeeps(voc, r.rest.tail, RPar);
        }
      } else {
        CallArgsKeep(voc, s.tail);
        var r := ParseCallArgs(voc, s.tail);
        if r.Ok? {
          CrossesWeighs(w == KCrossesAbove, r.value);
        }
      }
    }
  }

  lemma ResolveWeighs(voc: Vocabulary, name: string, called: bool)
    requires Coherent(voc)
    ensures NameWeight(Resolve(voc, name, called)) <= NameWeight(name)
  {
  }

  lemma {:induction false} PrimaryKeeps(voc: Vocabulary, s: Tokens)
    requires Coherent(voc)
    ensures Kept(ParsePrimary(voc, s), Load(s))
    decreases Length(s), 1
  {
    hide Coherent, ParseIdentPrimary, ParseKeywordCall, ParseClosed, Resolve, NameWeight;
    if s.Cons? {
      match s.head
      case Id(name) =>
        ResolveWeighs(voc, name, Starts(s.tail, LPar));
        IdentKeeps(voc, Resolve(voc, name, Starts(s.tail, LPar)), s.tail);
      case Kw(w) => KeywordCallKeeps(voc, w, s.tail);
      case LPar => ClosedKeeps(voc, s.tail, RPar);
      case _ =>
    }
  }

  // ---- Emission keeps it ------------------------------------------------------------------------

  lemma InfixWeighs(e: Expr)
    requires Infix(e)
    ensures Weight(e) == Weight(e.left) + Weight(e.right) && TokenWeight(InfixToken(e)) == 0
  {
  }

  lemma {:induction false} EmitWeighs(voc: Vocabulary, e: Expr, k: Tokens)
    requires Coherent(voc) && Shape(voc, e)
    ensures Load(Emit(voc, e, k)) == Weight(e) + Load(k)
    decreases e, 2
  {
    hide Coherent, Operand, NeedsParens, Prec, DataName, Classify, IsPositionKwarg, IsSelf, NameWeight, InfixToken,
         TokenWeight;
    if Infix(e) {
      InfixWeighs(e);
      InfixEmits(voc, e, k);
      InfixShapes(voc, e);
      hide Shape, Emit, Weight;
      PairWeighs(voc, e, e.left, e.right, Prec(e), InfixToken(e), k);
    } else {
      PrefixWeighs(voc, e, k);
    }
  }

  lemma {:induction false} PrefixWeighs(voc: Vocabulary, e: Expr, k: Tokens)
    requires Coherent(voc) && Shape(voc, e) && !Infix(e)
    ensures Load(Emit(voc, e, k)) == Weight(e) + Load(k)
    decreases e, 1
  {
    hide Coherent, Operand, NeedsParens, Prec, DataName, Classify, IsPositionKwarg, IsSelf, NameWeight;
    match e
    case Not(x) => OperandWeighs(voc, x, 3, true, k);
    case Neg(x) => OperandWeighs(voc, x, 7, true, k);
    case Call(n, es) => EmitArgsWeighs(voc, es, Cons(RPar, k));
    case BarRef(_, _) => ReferenceWeighs(voc, e, k);
    case PosKwCall(_, _, _) => ReferenceWeighs(voc, e, k);
    case _ => LeafWeighs(voc, e, k);
  }

  lemma DataWeighs(voc: Vocabulary, src: string, n: nat, k: Tokens)
    ensures Load(Emit(voc, DataOf(src, n), k)) == Weight(DataOf(src, n)) + Load(k)
  {
    DataNameWeighs(n);
    hide DataName, NameWeight;
    var last := Cons(Id(DataName(n)), k);
    assert Load(last) == 1 + Load(k) && Load(Cons(Id(OF), last)) == 1 + Load(last);
  }

  lemma {:induction false} ReferenceWeighs(voc: Vocabulary, e: Expr, k: Tokens)
    requires Coherent(voc) && Shape(voc, e) && (e.BarRef? || e.PosKwCall?)
    ensures Load(Emit(voc, e, k)) == Weight(e) + Load(k)
    decreases e, 0
  {
    hide Coherent, Operand, NeedsParens, Prec, DataName, Classify, IsSelf, NameWeight, EmitArgs, ArgsShape;
    if e.BarRef? {
      EmitWeighs(voc, e.index, Cons(RBr, k));
      EmitWeighs(voc, e.series, Cons(LBr, Emit(voc, e.index, Cons(RBr, k))));
    } else {
      WordsWeigh(voc, e.kwarg);
      EmitWeighs(voc, e.second, Cons(RPar, k));
      EmitWeighs(voc, e.first, Cons(Comma, Emit(voc, e.second, Cons(RPar, k))));
    }
  }

  lemma LeafWeighs(voc: Vocabulary, e: Expr, k: Tokens)
    requires Coherent(voc) && Shape(voc, e)
    requires e.Number? || e.Text? || e.Boolean? || e.Ident? || e.PosKw? || e.McKw? || e.DataOf?
    ensures Load(Emit(voc, e, k)) == Weight(e) + Load(k)
  {
    hide Coherent, DataName, Classify, IsSelf, NameWeight, Operand, EmitArgs, Prec, NeedsParens, ArgsShape,
         IsPositionKwarg;
    WordWeights();
    match e
    case PosKw(kw) => WordsWeigh(voc, kw);
    case McKw(kw) => WordsWeigh(voc, kw);
    case DataOf(src, n) => DataWeighs(voc, src, n, k);
    case _ =>
  }

  lemma DataNameWeighs(n: nat)
    ensures NameWeight(DataName(n)) == 1 && NameWeight(OF) == 1
  {
    assert DataName(n)[0] == 'd' && "point"[0] == 'p' && "points"[0] == 'p';
    assert |OF| == 2 && |"point"| == 5 && |"points"| == 6;
  }

  lemma WordsWeigh(voc: Vocabulary, kw: string)
    requires Coherent(voc)
    ensures kw in voc.spelling ==> NameWeight(Spelled(voc.spelling, kw)) == 1
    ensures kw in voc.mcSpelling ==> NameWeight(Spelled(voc.mcSpelling, kw)) == 1
  {
  }

  lemma {:induction false} OperandWeighs(voc: Vocabulary, x: Expr, parent: nat, isRight: bool, k: Tokens)
    requires Coherent(voc) && Shape(voc, x)
    ensures Load(Operand(voc, x, parent, isRight, k)) == Weight(x) + Load(k)
    decreases x, 3
  {
    hide Coherent, Shape, Weight, Emit;
    EmitWeighs(voc, x, if NeedsParens(x, parent, isRight) then Cons(RPar, k) else k);
  }

  lemma {:induction false} PairWeighs(voc: Vocabulary, e: Expr, l: Expr, r: Expr, parent: nat, t: Token, k: Tokens)
    requires Coherent(voc) && Shape(voc, l) && Shape(voc, r) && l < e && r < e && TokenWeight(t) == 0
    ensures Load(Operand(voc, l, parent, false, Cons(t, Operand(voc, r, parent, true, k))))
            == Weight(l) + Weight(r) + Load(k)
    decreases e, 1
  {
    hide Coherent, Shape, Weight, Operand;
    OperandWeighs(voc, r, parent, true, k);
    OperandWeighs(voc, l, parent, false, Cons(t, Operand(voc, r, parent, true, k)));
  }

  lemma {:induction false} EmitArgsWeighs(voc: Vocabulary, es: Args, k: Tokens)
    requires Coherent(voc) && ArgsShape(voc, es)
    ensures Load(EmitArgs(voc, es, k)) == ArgsWeight(es) + Load(k)
    decreases es
  {
    hide Coherent, Shape, Weight, Emit;
    if es.MoreArgs? {
      EmitWeighs(voc, es.arg, if es.rest.NoArgs? then k else Cons(Comma, EmitArgs(voc, es.rest, k)));
      EmitArgsWeighs(voc, es.rest, k);
    }
  }

  // ---- Statements --------------------------------------------------------------------------------

  predicate StmtKept(r: Parsed<Stmt>, w: nat) {
    r.Ok? ==> StmtWeight(r.value) + Load(r.rest) <= w
  }

  predicate StmtsKept(r: Parsed<Stmts>, w: nat) {
    r.Ok? ==> StmtsWeight(r.value) + Load(r.rest) <= w
  }

  predicate LegKept(r: Parsed<(Stmts, bool)>, w: nat) {
    r.Ok? ==> StmtsWeight(r.value.0) + Load(r.rest) <= w
  }

  lemma ExprStmtKeeps(voc: Vocabulary, s: Tokens)
    requires Coherent(voc)
    ensures StmtKept(ParseExprStmt(voc, s), Load(s))
  {
    hide Coherent, ParseAt, Weight;
    AtKeeps(voc, 1, s);
  }

  lemma SimpleKeeps(voc: Vocabulary, s: Tokens)
    requires Coherent(voc)
    ensures StmtKept(ParseSimple(voc, s), Load(s))
  {
    hide Coherent, ParseAt, ParseNamed, ParseExprStmt, Weight, NameWeight;
    ExprStmtKeeps(voc, s);
    if StartsWithId(s) {
      NamedKeeps(voc, s.head.name, s.tail);
      var r := ParseNamed(voc, s.head.name, s.tail);
      if r.Ok? && AssignsWith(r.value, r.rest) {
        AtKeeps(voc, 1, r.rest.tail);
      }
    }
  }

  lemma {:induction false} StmtKeeps(voc: Vocabulary, s: Tokens)
    requires Coherent(voc)
    ensures StmtKept(ParseStmt(voc, s), Load(s))
    decreases Length(s), 0
  {
    hide Coherent, ParseAt, ParseSimple, ParseLeg, ParseUntil, ParseIf, ParseFor, Weight, NameWeight, StmtsWeight;
    if s.Cons? {
      match s.head
      case Kw(KIf) => IfKeeps(voc, s.tail);
      case Kw(KFor) => ForKeeps(voc, s.tail);
      case Kw(KWhile) => WhileKeeps(voc, s);
      case Kw(KRepeat) => RepeatKeeps(voc, s);
      case Kw(KOnce) => LegKeeps(voc, s.tail);
      case Kw(KBreak) =>
      case Kw(KContinue) =>
      case Kw(KAbort) =>
      case LBr =>
      case _ => SimpleKeeps(voc, s);
    }
  }

  lemma {:induction false} WhileKeeps(voc: Vocabulary, s: Tokens)
    requires Coherent(voc) && Starts(s, Kw(KWhile))
    ensures StmtKept(ParseStmt(voc, s), Load(s))
    decreases Length(s.tail), 4
  {
    hide Coherent, ParseAt, ParseLeg, Weight, StmtsWeight;
    AtKeeps(voc, 1, s.tail);
    var c := ParseAt(voc, 1, s.tail);
    if c.Ok? {
      LegKeeps(voc, c.rest);
    }
  }

  lemma {:induction false} RepeatKeeps(voc: Vocabulary, s: Tokens)
    requires Coherent(voc) && Starts(s, Kw(KRepeat))
    ensures StmtKept(ParseStmt(voc, s), Load(s))
    decreases Length(s.tail), 4
  {
    hide Coherent, ParseAt, ParseUntil, Weight, StmtsWeight;
    UntilKeeps(voc, s.tail);
    var b := ParseUntil(voc, s.tail);
    if b.Ok? {
      AtKeeps(voc, 1, b.rest);
    }
  }

  lemma {:induction false} LegKeeps(voc: Vocabulary, s: Tokens)
    requires Coherent(voc)
    ensures LegKept(ParseLeg(voc, s), Load(s))
    decreases Length(s), 1
  {
    hide Coherent, ParseStmt, ParseBlock, StmtWeight;
    if Starts(s, Kw(KBegin)) {
      BlockKeeps(voc, s.tail);
      var b := ParseBlock(voc, s.tail);
      if b.Ok? && Starts(b.rest, Kw(KEnd)) {
        assert Starts(b.rest.tail, Semi) ==> Load(b.rest.tail) == Load(b.rest.tail.tail);
      }
    } else {
      StmtKeeps(voc, s);
      var r := ParseStmt(voc, s);
      assert r.Ok? ==> StmtsWeight(MoreStmts(r.value, NoStmts)) == StmtWeight(r.value);
    }
  }

  lemma {:induction false} BlockKeeps(voc: Vocabulary, s: Tokens)
    requires Coherent(voc)
    ensures StmtsKept(ParseBlock(voc, s), Load(s))
    decreases Length(s), 2
  {
    hide Coherent, ParseStmt, StmtWeight;
    if Starts(s, Semi) {
      BlockKeeps(voc, s.tail);
    } else if s.Cons? && !Starts(s, Kw(KEnd)) {
      StmtKeeps(voc, s);
      var r := ParseStmt(voc, s);
      if r.Ok? {
        BlockKeeps(voc, r.rest);
      }
    }
  }

  lemma {:induction false} UntilKeeps(voc: Vocabulary, s: Tokens)
    requires Coherent(voc)
    ensures StmtsKept(ParseUntil(voc, s), Load(s))
    decreases Length(s), 2
  {
    hide Coherent, ParseStmt, StmtWeight;
    if s.Cons? && !Starts(s, Kw(KUntil)) {
      StmtKeeps(voc, s);
      var r := ParseStmt(voc, s);
      if r.Ok? {
        UntilKeeps(voc, r.rest);
      }
    }
  }

  lemma {:induction false} IfKeeps(voc: Vocabulary, s: Tokens)
    requires Coherent(voc)
    ensures StmtKept(ParseIf(voc, s), Load(s))
    decreases Length(s), 3
  {
    hide Coherent, ParseAt, ParseLeg, Weight, StmtsWeight;
    AtKeeps(voc, 1, s);
    var c := ParseAt(voc, 1, s);
    if c.Ok? && Starts(c.rest, Kw(KThen)) {
      LegKeeps(voc, c.rest.tail);
      var b := ParseLeg(voc, c.rest.tail);
      if b.Ok? && Starts(b.rest, Kw(KElse)) {
        LegKeeps(voc, b.rest.tail);
      }
    }
  }

  lemma {:induction false} ForKeeps(voc: Vocabulary, s: Tokens)
    requires Coherent(voc)
    ensures StmtKept(ParseFor(voc, s), Load(s))
    decreases Length(s), 3
  {
    hide Coherent, ParseAt, ParseLeg, Weight, NameWeight, StmtsWeight;
    if StartsWithId(s) && Starts(s.tail, Op(SEq)) {
      AtKeeps(voc, 1, s.tail.tail);
      var a := ParseAt(voc, 1, s.tail.tail);
      if a.Ok? && a.rest.Cons? {
        AtKeeps(voc, 1, a.rest.tail);
        var z := ParseAt(voc, 1, a.rest.tail);
        if z.Ok? {
          assert Length(s) == 2 + Length(s.tail.tail);
          LegKeeps(voc, z.rest);
        }
      }
    }
  }

  lemma {:induction false} ProgramKeeps(voc: Vocabulary, s: Tokens)
    requires Coherent(voc)
    ensures StmtsKept(ParseProgram(voc, s), Load(s))
    decreases Length(s)
  {
    hide Coherent, ParseStmt, StmtWeight;
    if Starts(s, Semi) {
      ProgramKeeps(voc, s.tail);
    } else if s.Cons? {
      StmtKeeps(voc, s);
      var r := ParseStmt(voc, s);
      if r.Ok? {
        ProgramKeeps(voc, r.rest);
      }
    }
  }
}
