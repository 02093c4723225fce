/** The reverse emitter for expressions: parentheses only where the parser's precedence would
    regroup. `Emit(e, k)` is the tokens of `e` followed by `k`. */
module Emitter {
  import opened Sequences
  import opened Syntax

  predicate IsSelf(voc: Vocabulary, name: string) {
    Resolve(voc, name, false) == name
  }

  predicate IsPositionKwarg(voc: Vocabulary, kw: string) {
    kw in voc.spelling && voc.spelling[kw] in voc.positionWords
  }

  /** The trees the expression parser can return (ParsedHasShape). */
  predicate Shape(voc: Vocabulary, e: Expr)
    decreases e
  {
    match e
    case Number(t, sym) =>
      sym == None || (IsSelf(voc, sym.value) && Classify(voc, sym.value, false) == Constant
                      && voc.constants[sym.value] == t)
    case Text(_) => true
    case Boolean(_) => true
    case Ident(n) => n == INTERNAL_MARKET_POSITION || (IsSelf(voc, n) && Classify(voc, n, false) == Plain)
    case Binary(_, l, r) => Shape(voc, l) && Shape(voc, r)
    case Compare(_, l, r) => Shape(voc, l) && Shape(voc, r)
    case Crosses(_, l, r) => Shape(voc, l) && Shape(voc, r)
    case Not(x) => Shape(voc, x)
    case Neg(x) => Shape(voc, x)
    case Call(n, es) => Classify(voc, n, true) == Plain && ArgsShape(voc, es)
    case BarRef(s, i) =>
      (s.Ident? || s.Call? || (s.PosKw? && IsPositionKwarg(voc, s.kwarg))) && Shape(voc, s) && Shape(voc, i)
    case PosKw(kw) => kw in voc.spelling
    case PosKwCall(kw, a, b) => IsPositionKwarg(voc, kw) && Shape(voc, a) && Shape(voc, b)
    case McKw(kw) => kw in voc.mcSpelling
    case DataOf(src, _) => src in voc.dataSources && IsSelf(voc, src) && Classify(voc, src, false) == Plain
  }

  predicate ArgsShape(voc: Vocabulary, es: Args)
    decreases es
  {
    es.NoArgs? || (Shape(voc, es.arg) && ArgsShape(voc, es.rest))
  }

  /** Higher binds tighter; 8 is a primary. */
  function Prec(e: Expr): (p: nat)
    ensures 1 <= p <= 8
  {
    match e
    case Binary(Or, _, _) => 1
    case Binary(And, _, _) => 2
    case Not(_) => 3
    case Compare(_, _, _) => 4
    case Crosses(_, _, _) => 4
    case Binary(Plus, _, _) => 5
    case Binary(Minus, _, _) => 5
    case Binary(_, _, _) => 6
    case Neg(_) => 7
    case _ => 8
  }

  function BinToken(op: BinOp): Token {
    match op
    case Or => Kw(KOr)
    case And => Kw(KAnd)
    case Plus => Op(SPlus)
    case Minus => Op(SMinus)
    case Times => Op(SStar)
    case Div => Op(SSlash)
    case Mod => Kw(KMod)
  }

  function CmpToken(op: CmpOp): Token {
    match op
    case Eq => Op(SEq)
    case Lt => Op(SLt)
    case Gt => Op(SGt)
    case Ge => Op(SGe)
    case Le => Op(SLe)
    case Ne => Op(SNe)
  }

  function CrossToken(above: bool): Token {
    if above then Kw(KCrossesAbove) else Kw(KCrossesBelow)
  }

  predicate NeedsParens(e: Expr, parent: nat, isRight: bool) {
    Prec(e) < parent || (Prec(e) == parent && isRight)
  }

  function Spelled(table: map<string, string>, kw: string): string {
    if kw in table then table[kw] else kw
  }

  /** `e` as an operand under a parent of precedence `parent`. */
  function Operand(voc: Vocabulary, e: Expr, parent: nat, isRight: bool, k: Tokens): Tokens
    decreases e, 1
  {
    if NeedsParens(e, parent, isRight) then Cons(LPar, Emit(voc, e, Cons(RPar, k))) else Emit(voc, e, k)
  }

  /** The tokens of `e` before `k`. On a keyword without a spelling the program raises; no tree
      the parser returns holds one. */
  function Emit(voc: Vocabulary, e: Expr, k: Tokens): Tokens
    decreases e, 0
  {
    match e
    case Number(t, sym) => Cons(if sym.Some? then Id(sym.value) else Num(t), k)
    case Text(v) => Cons(Str(v), k)
    case Boolean(b) => Cons(Kw(if b then KTrue else KFalse), k)
    case Ident(n) => Cons(Id(if n == INTERNAL_MARKET_POSITION then MARKET_POSITION else n), k)
    case Binary(op, l, r) =>
      Operand(voc, l, Prec(e), false, Cons(BinToken(op), Operand(voc, r, Prec(e), true, k)))
    case Compare(op, l, r) =>
      Operand(voc, l, 4, false, Cons(CmpToken(op), Operand(voc, r, 4, true, k)))
    case Crosses(above, l, r) =>
      Operand(voc, l, 4, false, Cons(CrossToken(above), Operand(voc, r, 4, true, k)))
    case Not(x) => Cons(Kw(KNot), Operand(voc, x, 3, true, k))
    case Neg(x) => Cons(Op(SMinus), Operand(voc, x, 7, true, k))
    case Call(n, es) => Cons(Id(n), Cons(LPar, EmitArgs(voc, es, Cons(RPar, k))))
    case BarRef(s, i) => Emit(voc, s, Cons(LBr, Emit(voc, i, Cons(RBr, k))))
    case PosKw(kw) => Cons(Id(Spelled(voc.spelling, kw)), k)
    case PosKwCall(kw, a, b) =>
      Cons(Id(Spelled(voc.spelling, kw)), Cons(LPar, Emit(voc, a, Cons(Comma, Emit(voc, b, Cons(RPar, k))))))
    case McKw(kw) => Cons(Id(Spelled(voc.mcSpelling, kw)), k)
    case DataOf(src, n) => Cons(Id(src), Cons(Id(OF), Cons(Id(DataName(n)), k)))
  }

  function EmitArgs(voc: Vocabulary, es: Args, k: Tokens): Tokens
    decreases es, 0
  {
    match es
    case NoArgs => k
    case MoreArgs(e, rest) =>
      Emit(voc, e, if rest.NoArgs? then k else Cons(Comma, EmitArgs(voc, rest, k)))
  }

  /** The operator between the operands of `e`. */
  function InfixToken(e: Expr): Token
    requires Infix(e)
  {
    match e
    case Binary(op, _, _) => BinToken(op)
    case Compare(op, _, _) => CmpToken(op)
    case Crosses(above, _, _) => CrossToken(above)
  }

  lemma InfixEmits(voc: Vocabulary, e: Expr, k: Tokens)
    requires Infix(e)
    ensures Emit(voc, e, k)
            == Operand(voc, e.left, Prec(e), false, Cons(InfixToken(e), Operand(voc, e.right, Prec(e), true, k)))
    ensures Prec(e) <= 6 && Prec(e) != 3
  {
    hide Operand;
  }

  lemma InfixShapes(voc: Vocabulary, e: Expr)
    requires Infix(e)
    ensures Shape(voc, e) <==> Shape(voc, e.left) && Shape(voc, e.right)
  {
  }
}
