/** Reparsing an emitted program gives back the program, with the Begin/End flags the emission
    shows: no Else ever joins another If. */
module StmtRoundTrip {
  import opened Sequences
  import opened Syntax
  import opened Grammar
  import opened Emitter
  import opened ExprRoundTrip
  import opened Statements

  // ---- Assignment targets -----------------------------------------------------------

  /** What the statement parser reads as a target: the raw identifier, whatever it means. */
  predicate TargetShape(voc: Vocabulary, t: Expr) {
    match t
    case Ident(n) => n !in voc.statementWords
    case Call(n, es) => n !in voc.statementWords && ArgsShape(voc, es)
    case BarRef(Ident(n), i) => n !in voc.statementWords && Shape(voc, i)
    case BarRef(Call(n, es), i) => n !in voc.statementWords && ArgsShape(voc, es) && Shape(voc, i)
    case _ => false
  }

  /** The target is the name the parser gives to the market position, which is printed as that. */
  predicate NamesInternal(t: Expr) {
    t == Ident(INTERNAL_MARKET_POSITION) || (t.BarRef? && t.series == Ident(INTERNAL_MARKET_POSITION))
  }

  /** The target such a text reads as. */
  function Renamed(t: Expr): Expr {
    if !NamesInternal(t) then t
    else if t.Ident? then Ident(MARKET_POSITION)
    else BarRef(Ident(MARKET_POSITION), t.index)
  }

  /** The leading identifier of a target or identifier-led primary. */
  function LeadName(t: Expr): string
    requires t.Ident? || t.Call? || (t.BarRef? && (t.series.Ident? || t.series.Call?))
  {
    match t
    case Ident(n) => n
    case Call(n, _) => n
    case BarRef(s, _) => if s.Ident? then s.name else s.name
  }

  lemma PlainNameReads(voc: Vocabulary, n: string, k: Tokens)
    requires !Starts(k, LPar) && !Starts(k, LBr)
    ensures ParseNamed(voc, n, k) == Ok(Ident(n), k)
  {
  }

  lemma CalledNameReads(voc: Vocabulary, n: string, es: Args, k: Tokens)
    requires Coherent(voc) && ArgsShape(voc, es)
    ensures ParseNamed(voc, n, Cons(LPar, EmitArgs(voc, es, Cons(RPar, k)))) == ParseIndex(voc, Call(n, es), k)
  {
    hide Coherent, ArgsShape, ParseCallArgs, ParseIndex, EmitArgs;
    CallArgsParse(voc, es, k);
  }

  lemma IndexedReads(voc: Vocabulary, node: Expr, i: Expr, k: Tokens)
    requires Coherent(voc) && Shape(voc, i)
    ensures ParseIndex(voc, node, Cons(LBr, Emit(voc, i, Cons(RBr, k)))) == Ok(BarRef(node, i), k)
  {
    hide Coherent, Shape, ParseClosed, Emit, ParseIndex;
    ClosedParses(voc, i, RBr, k);
    IndexReads(voc, node, i, Emit(voc, i, Cons(RBr, k)), k);
  }

  /** A target's emission starts with its name and reads back raw. */
  lemma TargetReads(voc: Vocabulary, t: Expr, k: Tokens)
    requires Coherent(voc) && TargetShape(voc, t) && !NamesInternal(t) && !Starts(k, LPar) && !Starts(k, LBr)
    ensures StartsWithId(Emit(voc, t, k)) && Emit(voc, t, k).head.name == LeadName(t)
    ensures ParseNamed(voc, LeadName(t), Emit(voc, t, k).tail) == Ok(t, k)
  {
    hide Coherent, Shape, ArgsShape, ParseCallArgs, EmitArgs, ParseClosed;
    match t
    case Ident(n) => PlainNameReads(voc, n, k);
    case Call(n, es) => CalledNameReads(voc, n, es, k);
    case BarRef(s, i) =>
      var k1 := Cons(LBr, Emit(voc, i, Cons(RBr, k)));
      IndexedReads(voc, s, i, k);
      if s.Call? {
        CalledNameReads(voc, s.name, s.args, k1);
      } else {
        assert ParseNamed(voc, s.name, k1) == ParseIndex(voc, s, k1);
      }
  }

  lemma SimpleAssigns(voc: Vocabulary, s: Tokens, t: Expr, s1: Tokens, e: Expr, k: Tokens)
    requires StartsWithId(s) && ParseNamed(voc, s.head.name, s.tail) == Ok(t, s1) && AssignsWith(t, s1)
    requires ParseAt(voc, 1, s1.tail) == Ok(e, Cons(Semi, k)) && s.head.name !in voc.statementWords
    ensures ParseStmt(voc, s) == Ok(Assign(t, e), k)
  {
    hide ParseAt, ParseNamed, AssignsWith;
    assert ParseSimple(voc, s) == Ok(Assign(t, e), k);
  }

  lemma PlainAssignReads(voc: Vocabulary, t: Expr, e: Expr, k: Tokens)
    requires Coherent(voc) && TargetShape(voc, t) && !NamesInternal(t) && Shape(voc, e)
    ensures ParseStmt(voc, EmitStmt(voc, Assign(t, e), k)) == Ok(Assign(t, e), k)
  {
    var s1 := Emit(voc, e, Cons(Semi, k));
    var k1 := Cons(Op(if t.Call? then SAssign else SEq), s1);
    hide Coherent, Shape, Emit, ParseAt, ParseNamed, ParseStmt, ArgsShape;
    TargetReads(voc, t, k1);
    ExpressionRoundTrip(voc, e, Cons(Semi, k));
    assert LeadName(t) !in voc.statementWords;
    SimpleAssigns(voc, Emit(voc, t, k1), t, k1, e, k);
  }

  lemma RenamedEmits(voc: Vocabulary, t: Expr, k: Tokens)
    ensures Emit(voc, Renamed(t), k) == Emit(voc, t, k) && Renamed(t).Call? == t.Call?
  {
  }

  lemma RenamedShape(voc: Vocabulary, t: Expr)
    requires TargetShape(voc, t)
    ensures !NamesInternal(Renamed(t)) && (Renamed(t) == t <==> !NamesInternal(t))
    ensures MARKET_POSITION !in voc.statementWords ==> TargetShape(voc, Renamed(t))
  {
    assert |MARKET_POSITION| != |INTERNAL_MARKET_POSITION|;
  }

  lemma ReservedFails(voc: Vocabulary, t: Expr, k: Tokens)
    requires NamesInternal(t) && MARKET_POSITION in voc.statementWords
    ensures ParseStmt(voc, Emit(voc, t, k)) == Fail
  {
    hide ParseAt, ParseSimple;
  }

  /** An assignment reads back as itself exactly when its target is not spelled like the internal
      market position; then it assigns to the market position, or fails where that is reserved. */
  lemma AssignReads(voc: Vocabulary, t: Expr, e: Expr, k: Tokens)
    requires Coherent(voc) && TargetShape(voc, t) && Shape(voc, e)
    ensures var r := ParseStmt(voc, EmitStmt(voc, Assign(t, e), k));
            && (r == Ok(Assign(t, e), k) <==> !NamesInternal(t))
            && (NamesInternal(t) ==>
                  r == if MARKET_POSITION in voc.statementWords then Fail else Ok(Assign(Renamed(t), e), k))
  {
    hide Coherent, Shape, Emit, ParseStmt, TargetShape, NamesInternal, Renamed;
    RenamedShape(voc, t);
    var k1 := Cons(Op(if t.Call? then SAssign else SEq), Emit(voc, e, Cons(Semi, k)));
    RenamedEmits(voc, t, k1);
    if NamesInternal(t) && MARKET_POSITION in voc.statementWords {
      ReservedFails(voc, t, k1);
    } else {
      PlainAssignReads(voc, Renamed(t), e, k);
    }
  }

  // ---- Expression statements -----------------------------------------------------------

  /** `e.left` is printed before the operator of `e` without parentheses. */
  predicate LeadsOn(e: Expr) {
    Infix(e) && !NeedsParens(e.left, Prec(e), false)
  }

  /** The part of `e` printed first, up to the first operator outside parentheses. */
  function LeadPart(e: Expr): Expr
    decreases e
  {
    if LeadsOn(e) then LeadPart(e.left) else e
  }

  /** That operator. */
  function LeadOp(e: Expr): Option<Token>
    decreases e
  {
    if !LeadsOn(e) then None
    else if LeadOp(e.left).Some? then LeadOp(e.left)
    else Some(InfixToken(e))
  }

  /** Everything printed after the lead. */
  function LeadRest(voc: Vocabulary, e: Expr, k: Tokens): Tokens
    decreases e
  {
    if LeadsOn(e) then LeadRest(voc, e.left, Cons(InfixToken(e), Operand(voc, e.right, Prec(e), true, k))) else k
  }

  lemma LeftFirst(voc: Vocabulary, e: Expr, k: Tokens)
    requires LeadsOn(e)
    ensures Emit(voc, e, k) == Emit(voc, e.left, Cons(InfixToken(e), Operand(voc, e.right, Prec(e), true, k)))
    ensures InfixLevel(InfixToken(e)) > 0 && (Shape(voc, e) ==> Shape(voc, e.left))
  {
    InfixEmits(voc, e, k);
    InfixShapes(voc, e);
    InfixJoins(e);
    hide Emit, Shape, InfixLevel, InfixToken;
  }

  lemma {:induction false} LeadIsPrinted(voc: Vocabulary, e: Expr, k: Tokens)
    requires Shape(voc, e)
    ensures Emit(voc, e, k) == Emit(voc, LeadPart(e), LeadRest(voc, e, k))
    ensures Shape(voc, LeadPart(e)) && !LeadsOn(LeadPart(e))
    ensures LeadOp(e) == None ==> LeadRest(voc, e, k) == k
    ensures LeadOp(e).Some? ==> Starts(LeadRest(voc, e, k), LeadOp(e).value) && InfixLevel(LeadOp(e).value) > 0
    decreases e
  {
    hide Emit, Shape, Operand, InfixToken, InfixLevel, NeedsParens;
    if LeadsOn(e) {
      LeftFirst(voc, e, k);
      LeadIsPrinted(voc, e.left, Cons(InfixToken(e), Operand(voc, e.right, Prec(e), true, k)));
    }
  }

  /** The identifier token an identifier-led primary is printed with. */
  function LeadId(voc: Vocabulary, p: Expr): Option<string> {
    match p
    case Ident(n) => Some(if n == INTERNAL_MARKET_POSITION then MARKET_POSITION else n)
    case Number(_, sym) => sym
    case PosKw(kw) => Some(Spelled(voc.spelling, kw))
    case PosKwCall(kw, _, _) => Some(Spelled(voc.spelling, kw))
    case McKw(kw) => Some(Spelled(voc.mcSpelling, kw))
    case Call(n, _) => Some(n)
    case DataOf(src, _) => Some(src)
    case BarRef(s, _) =>
      (match s
       case Ident(n) => Some(if n == INTERNAL_MARKET_POSITION then MARKET_POSITION else n)
       case Call(n, _) => Some(n)
       case PosKw(kw) => Some(Spelled(voc.spelling, kw))
       case _ => None)
    case _ => None
  }

  /** Printed, it reads as a bare name or an indexed one. */
  predicate NameLike(p: Expr) {
    p.Ident? || p.PosKw? || p.McKw? || p.BarRef? || (p.Number? && p.symbol.Some?)
  }

  lemma LeadToken(voc: Vocabulary, p: Expr, k: Tokens)
    requires Shape(voc, p) && !LeadsOn(p)
    ensures var s := Emit(voc, p, k);
            && s.Cons? && s.head != LBr
               && (s.head.Kw? ==> s.head == Kw(KNot) || s.head == Kw(KTrue) || s.head == Kw(KFalse))
            && (if LeadId(voc, p).Some? then s.head == Id(LeadId(voc, p).value) else !s.head.Id?)
            && (LeadId(voc, p).Some? ==> Prec(p) == 8)
  {
    FirstToken(voc, p, k);
  }

  lemma NameTrial(voc: Vocabulary, p: Expr, k: Tokens)
    requires Shape(voc, p) && NameLike(p) && !p.BarRef? && LeadId(voc, p).Some?
    requires !Starts(k, LPar) && !Starts(k, LBr)
    ensures ParseNamed(voc, LeadId(voc, p).value, Emit(voc, p, k).tail) == Ok(Ident(LeadId(voc, p).value), k)
  {
    hide Shape;
    PlainNameReads(voc, LeadId(voc, p).value, k);
  }

  /** What an indexed expression is printed as. */
  lemma BarRefEmits(voc: Vocabulary, p: Expr, k: Tokens)
    requires Shape(voc, p) && p.BarRef?
    ensures LeadId(voc, p).Some? && Shape(voc, p.index) && (p.series.Call? ==> ArgsShape(voc, p.series.args))
    ensures var k1 := Cons(LBr, Emit(voc, p.index, Cons(RBr, k)));
            Emit(voc, p, k)
            == Cons(Id(LeadId(voc, p).value),
                    if p.series.Call? then Cons(LPar, EmitArgs(voc, p.series.args, Cons(RPar, k1))) else k1)
  {
    hide ArgsShape, EmitArgs;
  }

  lemma BarRefTrial(voc: Vocabulary, p: Expr, k: Tokens) returns (t: Expr)
    requires Coherent(voc) && Shape(voc, p) && p.BarRef? && Emit(voc, p, k).Cons?
    ensures LeadId(voc, p).Some? && t.BarRef?
    ensures ParseNamed(voc, LeadId(voc, p).value, Emit(voc, p, k).tail) == Ok(t, k)
  {
    hide Coherent, Shape, ArgsShape, Emit, EmitArgs, LeadId, ParseIndex;
    BarRefEmits(voc, p, k);
    var name := LeadId(voc, p).value;
    var k1 := Cons(LBr, Emit(voc, p.index, Cons(RBr, k)));
    if p.series.Call? {
      t := BarRef(Call(name, p.series.args), p.index);
      CalledNameReads(voc, name, p.series.args, k1);
      IndexedReads(voc, Call(name, p.series.args), p.index, k);
    } else {
      t := BarRef(Ident(name), p.index);
      IndexedReads(voc, Ident(name), p.index, k);
    }
  }

  /** Any call form reads as a call. */
  lemma CallTrial(voc: Vocabulary, p: Expr, k: Tokens) returns (t: Expr)
    requires Coherent(voc) && Shape(voc, p) && (p.Call? || p.PosKwCall?) && !Starts(k, LBr)
    ensures t.Call? && LeadId(voc, p).Some?
    ensures ParseNamed(voc, LeadId(voc, p).value, Emit(voc, p, k).tail) == Ok(t, k)
  {
    hide Coherent, ParseNamed, Classify, IsPositionKwarg;
    var es := if p.Call? then p.args else MoreArgs(p.first, MoreArgs(p.second, NoArgs));
    t := Call(LeadId(voc, p).value, es);
    assert Emit(voc, p, k).tail == Cons(LPar, EmitArgs(voc, es, Cons(RPar, k)));
    assert p.PosKwCall? ==> ArgsShape(voc, es.rest);
    CalledNameReads(voc, LeadId(voc, p).value, es, k);
  }

  /** The trial read of an identifier-led lead: an assignment exactly when it is name-like
      and `=` follows. */
  lemma TrialOutcome(voc: Vocabulary, p: Expr, k: Tokens)
    requires Coherent(voc) && Shape(voc, p) && LeadId(voc, p).Some? && Emit(voc, p, k).Cons?
    requires !Starts(k, LPar) && !Starts(k, LBr) && !Starts(k, Op(SAssign))
    ensures var r := ParseNamed(voc, LeadId(voc, p).value, Emit(voc, p, k).tail);
            r.Ok? && (AssignsWith(r.value, r.rest) <==> NameLike(p) && Starts(k, Op(SEq)))
  {
    hide Coherent, Shape, ParseNamed, Emit;
    if p.BarRef? {
      var t := BarRefTrial(voc, p, k);
    } else if NameLike(p) {
      NameTrial(voc, p, k);
    } else if p.Call? || p.PosKwCall? {
      var t := CallTrial(voc, p, k);
    } else {
      assert p.DataOf?;
      DataOfTrial(voc, p.source, p.num, k);
    }
  }

  lemma DataOfTrial(voc: Vocabulary, src: string, n: nat, k: Tokens)
    ensures ParseNamed(voc, src, Emit(voc, DataOf(src, n), k).tail)
            == Ok(Ident(src), Cons(Id(OF), Cons(Id(DataName(n)), k)))
  {
    PlainNameReads(voc, src, Cons(Id(OF), Cons(Id(DataName(n)), k)));
  }

  /** An expression statement that would reparse as the assignment `name = ...`. */
  predicate LooksAssigned(e: Expr) {
    NameLike(LeadPart(e)) && LeadOp(e) == Some(Op(SEq))
  }

  /** An expression statement that would reparse as an order, plot or other reserved verb. */
  predicate LooksReserved(voc: Vocabulary, e: Expr) {
    var id := LeadId(voc, LeadPart(e));
    id.Some? && id.value in voc.statementWords
  }

  lemma ExprStmtParses(voc: Vocabulary, e: Expr, k: Tokens)
    requires Coherent(voc) && Shape(voc, e)
    ensures ParseExprStmt(voc, Emit(voc, e, Cons(Semi, k))) == Ok(ExprStmt(e), k)
  {
    hide Coherent, Shape, Emit, ParseAt;
    ExpressionRoundTrip(voc, e, Cons(Semi, k));
  }

  lemma NameLikeHasId(voc: Vocabulary, p: Expr)
    requires Shape(voc, p) && NameLike(p)
    ensures LeadId(voc, p).Some?
  {
  }

  /** The statement read from `s`, whose lead is identifier `name` when it has one. */
  lemma SimpleOutcome(voc: Vocabulary, s: Tokens, e: Expr, k: Tokens)
    requires ParseExprStmt(voc, s) == Ok(ExprStmt(e), k)
    requires StartsWithId(s) ==> ParseNamed(voc, s.head.name, s.tail).Ok?
    ensures var assigns := StartsWithId(s) && AssignsWith(ParseNamed(voc, s.head.name, s.tail).value,
                                                          ParseNamed(voc, s.head.name, s.tail).rest);
            if assigns then ParseSimple(voc, s).Ok? ==> ParseSimple(voc, s).value.Assign?
            else ParseSimple(voc, s) == Ok(ExprStmt(e), k)
  {
    hide ParseAt, ParseNamed, ParseExprStmt, AssignsWith;
  }

  /** The trial read of a statement that is an expression. */
  lemma ExprTrial(voc: Vocabulary, e: Expr, k: Tokens)
    requires Coherent(voc) && Shape(voc, e)
    ensures var s, id := Emit(voc, e, Cons(Semi, k)), LeadId(voc, LeadPart(e));
            && s.Cons? && s.head != LBr
               && (s.head.Kw? ==> s.head == Kw(KNot) || s.head == Kw(KTrue) || s.head == Kw(KFalse))
            && (s.head.Id? <==> id.Some?) && (id.Some? ==> s.head.name == id.value)
            && (id.Some? ==> ParseNamed(voc, s.head.name, s.tail).Ok?)
            && (LooksAssigned(e)
                <==> id.Some?
                     && var r := ParseNamed(voc, s.head.name, s.tail); AssignsWith(r.value, r.rest))
  {
    var k0 := Cons(Semi, k);
    var p, k1 := LeadPart(e), LeadRest(voc, e, k0);
    hide Coherent, Shape, Emit, ParseNamed, LeadPart, LeadOp, LeadRest, LeadId, NameLike, AssignsWith;
    LeadIsPrinted(voc, e, k0);
    LeadToken(voc, p, k1);
    if LeadId(voc, p).Some? {
      TrialOutcome(voc, p, k1);
    } else if NameLike(p) {
      NameLikeHasId(voc, p);
    }
  }

  /** An expression statement reparses to itself exactly when its lead is not a name followed
      by `=`, nor a reserved statement word; otherwise to no expression statement at all. */
  lemma ExprStmtReads(voc: Vocabulary, e: Expr, k: Tokens)
    requires Coherent(voc) && Shape(voc, e)
    ensures var r := ParseStmt(voc, EmitStmt(voc, ExprStmt(e), k));
            if LooksAssigned(e) || LooksReserved(voc, e) then r.Ok? ==> r.value.Assign? else r == Ok(ExprStmt(e), k)
  {
    var s := Emit(voc, e, Cons(Semi, k));
    assert EmitStmt(voc, ExprStmt(e), k) == s;
    hide Coherent, Shape, Emit, EmitStmt, ParseNamed, LeadPart, LeadId, ParseExprStmt, ParseStmt, ParseSimple,
         AssignsWith, LooksAssigned;
    ExprTrial(voc, e, k);
    ExprStmtParses(voc, e, k);
    SimpleOutcome(voc, s, e, k);
    DispatchSimple(voc, s);
  }

  /** Which statements are left to the assignment-or-expression parser. */
  lemma DispatchSimple(voc: Vocabulary, s: Tokens)
    requires s.Cons? && s.head != LBr
    requires s.head.Kw? ==> s.head == Kw(KNot) || s.head == Kw(KTrue) || s.head == Kw(KFalse)
    ensures ParseStmt(voc, s) == if s.head.Id? && s.head.name in voc.statementWords then Fail else ParseSimple(voc, s)
  {
  }
}
