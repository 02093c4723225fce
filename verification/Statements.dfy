/** Statements: the parser's rules for `;` and `Else`, and the reverse emitter's choice
    between compact legs and Begin/End. */
module Statements {
  import opened Syntax
  import opened Grammar
  import opened Emitter

  /** `thenBlock`, `block` record that the source wrote an explicit Begin/End. */
  datatype Stmt =
    | Assign(target: Expr, value: Expr)
    | ExprStmt(expr: Expr)
    | Break
    | Continue
    | Abort
    | If(cond: Expr, body: Stmts, orElse: ElseLeg, thenBlock: bool)
    | For(loopVar: string, start: Expr, end: Expr, down: bool, body: Stmts, block: bool)
    | While(cond: Expr, body: Stmts, block: bool)
    | Repeat(body: Stmts, cond: Expr)
    | Once(body: Stmts, block: bool)

  datatype Stmts = NoStmts | MoreStmts(stmt: Stmt, rest: Stmts)

  datatype ElseLeg = NoElse | Else(body: Stmts, block: bool)

  // ---- Parsing -------------------------------------------------------------------

  function Expect(s: Tokens, t: Token): (r: Parsed<()>)
    ensures r.Ok? ==> Length(r.rest) < Length(s)
  {
    if Starts(s, t) then Ok((), s.tail) else Fail
  }

  /** A statement ends with `;`, which may be left out only before `Else`. */
  function EndStmt<T>(value: T, s: Tokens): (r: Parsed<T>)
    ensures r.Ok? ==> Length(r.rest) <= Length(s)
  {
    if Starts(s, Semi) then Ok(value, s.tail)
    else if Starts(s, Kw(KElse)) then Ok(value, s)
    else Fail
  }

  predicate AssignsWith(target: Expr, s: Tokens) {
    Starts(s, Op(SAssign)) || (Starts(s, Op(SEq)) && (target.Ident? || target.BarRef?))
  }

  function ParseExprStmt(voc: Vocabulary, s: Tokens): (r: Parsed<Stmt>)
    ensures r.Ok? ==> Length(r.rest) < Length(s)
  {
    match ParseAt(voc, 1, s)
    case Fail => Fail
    case Ok(e, s1) => EndStmt(ExprStmt(e), s1)
  }

  /** An identifier is first read as an assignment target, without its keyword meaning; when
      no assignment follows, the statement is read again as an expression. */
  function ParseSimple(voc: Vocabulary, s: Tokens): (r: Parsed<Stmt>)
    ensures r.Ok? ==> Length(r.rest) < Length(s)
  {
    if StartsWithId(s) then
      match ParseNamed(voc, s.head.name, s.tail)
      case Fail => Fail
      case Ok(target, s1) =>
        if AssignsWith(target, s1) then
          match ParseAt(voc, 1, s1.tail)
          case Fail => Fail
          case Ok(e, s2) => EndStmt(Assign(target, e), s2)
        else ParseExprStmt(voc, s)
    else ParseExprStmt(voc, s)
  }

  function ParseStmt(voc: Vocabulary, s: Tokens): (r: Parsed<Stmt>)
    ensures r.Ok? ==> Length(r.rest) < Length(s)
    decreases Length(s), 0
  {
    if s.Nil? then Fail
    else
      match s.head
      case Kw(KIf) => ParseIf(voc, s.tail)
      case Kw(KFor) => ParseFor(voc, s.tail)
      case Kw(KWhile) =>
        (match ParseAt(voc, 1, s.tail)
         case Fail => Fail
         case Ok(c, s1) =>
           match ParseLeg(voc, s1)
           case Fail => Fail
           case Ok(b, s2) => Ok(While(c, b.0, b.1), s2))
      case Kw(KRepeat) =>
        (match ParseUntil(voc, s.tail)
         case Fail => Fail
         case Ok(b, s1) =>
           match ParseAt(voc, 1, s1)
           case Fail => Fail
           case Ok(c, s2) => EndStmt(Repeat(b, c), s2))
      case Kw(KOnce) =>
        (match ParseLeg(voc, s.tail)
         case Fail => Fail
         case Ok(b, s1) => Ok(Once(b.0, b.1), s1))
      case Kw(KBreak) => EndStmt(Break, s.tail)
      case Kw(KContinue) => EndStmt(Continue, s.tail)
      case Kw(KAbort) => EndStmt(Abort, s.tail)
      case Id(n) => if n in voc.statementWords then Fail else ParseSimple(voc, s)
      case LBr => Fail
      case _ => ParseSimple(voc, s)
  }

  /** One body leg: Begin/End, or a single statement. The flag says which. */
  function ParseLeg(voc: Vocabulary, s: Tokens): (r: Parsed<(Stmts, bool)>)
    ensures r.Ok? ==> Length(r.rest) < Length(s)
    decreases Length(s), 1
  {
    if Starts(s, Kw(KBegin)) then
      match ParseBlock(voc, s.tail)
      case Fail => Fail
      case Ok(b, s1) =>
        if Starts(s1, Kw(KEnd)) then EndStmt((b, true), s1.tail) else Fail
    else
      match ParseStmt(voc, s)
      case Fail => Fail
      case Ok(st, s1) => Ok((MoreStmts(st, NoStmts), false), s1)
  }

  /** Statements up to `End`, stray semicolons skipped. */
  function ParseBlock(voc: Vocabulary, s: Tokens): (r: Parsed<Stmts>)
    ensures r.Ok? ==> Length(r.rest) <= Length(s)
    decreases Length(s), 2
  {
    if s.Nil? then Fail
    else if Starts(s, Kw(KEnd)) then Ok(NoStmts, s)
    else if Starts(s, Semi) then ParseBlock(voc, s.tail)
    else
      match ParseStmt(voc, s)
      case Fail => Fail
      case Ok(st, s1) =>
        match ParseBlock(voc, s1)
        case Fail => Fail
        case Ok(sts, s2) => Ok(MoreStmts(st, sts), s2)
  }

  /** Statements up to and including `Until`. */
  function ParseUntil(voc: Vocabulary, s: Tokens): (r: Parsed<Stmts>)
    ensures r.Ok? ==> Length(r.rest) < Length(s)
    decreases Length(s), 2
  {
    if s.Nil? then Fail
    else if Starts(s, Kw(KUntil)) then Ok(NoStmts, s.tail)
    else
      match ParseStmt(voc, s)
      case Fail => Fail
      case Ok(st, s1) =>
        match ParseUntil(voc, s1)
        case Fail => Fail
        case Ok(sts, s2) => Ok(MoreStmts(st, sts), s2)
  }

  /** What follows `If`. An `Else` belongs to the If whose then leg has just been read. */
  function ParseIf(voc: Vocabulary, s: Tokens): (r: Parsed<Stmt>)
    ensures r.Ok? ==> Length(r.rest) < Length(s)
    decreases Length(s), 3
  {
    match ParseAt(voc, 1, s)
    case Fail => Fail
    case Ok(c, s1) =>
      if !Starts(s1, Kw(KThen)) then Fail
      else
        match ParseLeg(voc, s1.tail)
        case Fail => Fail
        case Ok(b, s2) =>
          if Starts(s2, Kw(KElse)) then
            match ParseLeg(voc, s2.tail)
            case Fail => Fail
            case Ok(eb, s3) => Ok(If(c, b.0, Else(eb.0, eb.1), b.1), s3)
          else Ok(If(c, b.0, NoElse, b.1), s2)
  }

  /** What follows `For`. */
  function ParseFor(voc: Vocabulary, s: Tokens): (r: Parsed<Stmt>)
    ensures r.Ok? ==> Length(r.rest) < Length(s)
    decreases Length(s), 3
  {
    if !StartsWithId(s) || !Starts(s.tail, Op(SEq)) then Fail
    else
      assert Length(s) == 2 + Length(s.tail.tail);
      match ParseAt(voc, 1, s.tail.tail)
      case Fail => Fail
      case Ok(a, s1) =>
        if !Starts(s1, Kw(KTo)) && !Starts(s1, Kw(KDownTo)) then Fail
        else
          match ParseAt(voc, 1, s1.tail)
          case Fail => Fail
          case Ok(b, s2) =>
            match ParseLeg(voc, s2)
            case Fail => Fail
            case Ok(leg, s3) => Ok(For(s.head.name, a, b, Starts(s1, Kw(KDownTo)), leg.0, leg.1), s3)
  }

  /** Statements up to the end of input, stray semicolons skipped. */
  function ParseProgram(voc: Vocabulary, s: Tokens): (r: Parsed<Stmts>)
    decreases Length(s)
  {
    if s.Nil? then Ok(NoStmts, s)
    else if Starts(s, Semi) then ParseProgram(voc, s.tail)
    else
      match ParseStmt(voc, s)
      case Fail => Fail
      case Ok(st, s1) =>
        match ParseProgram(voc, s1)
        case Fail => Fail
        case Ok(sts, s2) => Ok(MoreStmts(st, sts), s2)
  }

  // ---- Emission --------------------------------------------------------------------

  predicate Single(b: Stmts) {
    b.MoreStmts? && b.rest.NoStmts?
  }

  predicate LoopCompact(b: Stmts, block: bool) {
    Single(b) && !block
  }

  predicate ElseCompact(leg: ElseLeg) {
    leg.Else? && Single(leg.body) && !leg.block
  }

  /** A following Else must not be captured inside the then leg. */
  predicate ThenCompact(b: Stmts, leg: ElseLeg, block: bool)
    decreases b, leg
  {
    Single(b) && !block && (leg.Else? ==> !Dangles(b.stmt))
  }

  /** `st`, emitted compactly, ends in an open Then that a following Else would join. */
  predicate Dangles(st: Stmt)
    decreases st
  {
    match st
    case If(_, _, leg, _) =>
      leg.NoElse? || (ElseCompact(leg) && Dangles(leg.body.stmt))
    case For(_, _, _, _, b, block) => LoopCompact(b, block) && Dangles(b.stmt)
    case While(_, b, block) => LoopCompact(b, block) && Dangles(b.stmt)
    case Once(b, block) => LoopCompact(b, block) && Dangles(b.stmt)
    case _ => false
  }

  function EmitStmts(voc: Vocabulary, sts: Stmts, k: Tokens): Tokens
    decreases sts, 0
  {
    match sts
    case NoStmts => k
    case MoreStmts(st, rest) => EmitStmt(voc, st, EmitStmts(voc, rest, k))
  }

  /** A leg: one statement, or Begin/End closed by `;` unless its Else follows (`closed`). */
  function EmitLeg(voc: Vocabulary, b: Stmts, compact: bool, closed: bool, k: Tokens): Tokens
    requires compact ==> Single(b)
    decreases b, 1
  {
    if compact then EmitStmt(voc, b.stmt, k)
    else Cons(Kw(KBegin), EmitStmts(voc, b, Cons(Kw(KEnd), if closed then Cons(Semi, k) else k)))
  }

  function EmitElse(voc: Vocabulary, leg: ElseLeg, k: Tokens): Tokens
    decreases leg, 0
  {
    if leg.NoElse? then k else Cons(Kw(KElse), EmitLeg(voc, leg.body, ElseCompact(leg), true, k))
  }

  function EmitStmt(voc: Vocabulary, st: Stmt, k: Tokens): Tokens
    decreases st, 0
  {
    match st
    case Assign(t, e) => Emit(voc, t, Cons(Op(if t.Call? then SAssign else SEq), Emit(voc, e, Cons(Semi, k))))
    case ExprStmt(e) => Emit(voc, e, Cons(Semi, k))
    case Break => Cons(Kw(KBreak), Cons(Semi, k))
    case Continue => Cons(Kw(KContinue), Cons(Semi, k))
    case Abort => Cons(Kw(KAbort), Cons(Semi, k))
    case If(c, b, leg, block) =>
      Cons(Kw(KIf), Emit(voc, c, Cons(Kw(KThen),
        EmitLeg(voc, b, ThenCompact(b, leg, block), leg.NoElse?, EmitElse(voc, leg, k)))))
    case For(v, a, z, down, b, block) =>
      Cons(Kw(KFor), Cons(Id(v), Cons(Op(SEq), Emit(voc, a, Cons(Kw(if down then KDownTo else KTo),
        Emit(voc, z, EmitLeg(voc, b, LoopCompact(b, block), true, k)))))))
    case While(c, b, block) => Cons(Kw(KWhile), Emit(voc, c, EmitLeg(voc, b, LoopCompact(b, block), true, k)))
    case Repeat(b, c) => Cons(Kw(KRepeat), EmitStmts(voc, b, Cons(Kw(KUntil), Emit(voc, c, Cons(Semi, k)))))
    case Once(b, block) => Cons(Kw(KOnce), EmitLeg(voc, b, LoopCompact(b, block), true, k))
  }

  // ---- Begin/End flags ------------------------------------------------------------------

  /** The same tree with each flag saying what the emission shows. */
  function Shown(st: Stmt): Stmt
    decreases st
  {
    match st
    case If(c, b, leg, block) => If(c, AllShown(b), ElseShown(leg), !ThenCompact(b, leg, block))
    case For(v, a, z, down, b, block) => For(v, a, z, down, AllShown(b), !LoopCompact(b, block))
    case While(c, b, block) => While(c, AllShown(b), !LoopCompact(b, block))
    case Repeat(b, c) => Repeat(AllShown(b), c)
    case Once(b, block) => Once(AllShown(b), !LoopCompact(b, block))
    case _ => st
  }

  function AllShown(sts: Stmts): Stmts
    decreases sts
  {
    match sts
    case NoStmts => NoStmts
    case MoreStmts(st, rest) => MoreStmts(Shown(st), AllShown(rest))
  }

  function ElseShown(leg: ElseLeg): ElseLeg
    decreases leg
  {
    match leg
    case NoElse => NoElse
    case Else(b, _) => Else(AllShown(b), !ElseCompact(leg))
  }
}
