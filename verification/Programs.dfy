/** Whole statements: an emitted program reparses to itself, each Else under its own If, and
    emission is a fixpoint of the round trip. */
module Programs {
  import opened Sequences
  import opened Syntax
  import opened Grammar
  import opened Emitter
  import opened ExprRoundTrip
  import opened Overruns
  import opened Statements
  import opened StmtRoundTrip

  // ---- Well-formed statements ---------------------------------------------------------

  const NO_HEADER := Boolean(true)

  /** The statement's first word, when it is an assignment or an expression statement that
      begins with one. */
  function FirstWord(voc: Vocabulary, st: Stmt): Option<string> {
    match st
    case Assign(t, _) => LeadId(voc, t)
    case ExprStmt(e) => LeadId(voc, LeadPart(e))
    case _ => None
  }

  /** Printed straight after the expression `c`, `st` would be read into it: it starts with a
      sign or a point word, or with a parenthesis after a bare name. */
  predicate Joins(voc: Vocabulary, c: Expr, st: Stmt) {
    || (FirstWord(voc, st).Some? && IsPointWord(FirstWord(voc, st).value))
    || (st.ExprStmt? && (LeadPart(st.expr).Neg? || (Infix(LeadPart(st.expr)) && EndsOpen(c))))
  }

  /** The body of a For or While header that ends in the expression `c`. */
  predicate HeaderBody(voc: Vocabulary, c: Expr, b: Stmts, block: bool) {
    LoopCompact(b, block) ==> !Joins(voc, c, b.stmt)
  }

  /** The trees the statement parser builds (StmtSettles). */
  predicate Formed(voc: Vocabulary, st: Stmt)
    decreases st
  {
    match st
    case Assign(t, e) => TargetShape(voc, t) && Shape(voc, e)
    case ExprStmt(e) => Shape(voc, e)
    case If(c, b, leg, _) => Shape(voc, c) && AllFormed(voc, b) && (leg.Else? ==> AllFormed(voc, leg.body))
    case For(_, a, z, _, b, _) => Shape(voc, a) && Shape(voc, z) && AllFormed(voc, b)
    case While(c, b, _) => Shape(voc, c) && AllFormed(voc, b)
    case Repeat(b, c) => Shape(voc, c) && AllFormed(voc, b)
    case Once(b, _) => AllFormed(voc, b)
    case _ => true
  }

  predicate AllFormed(voc: Vocabulary, sts: Stmts)
    decreases sts
  {
    sts.MoreStmts? ==> Formed(voc, sts.stmt) && AllFormed(voc, sts.rest)
  }

  /** None of the three texts the emission does not read back (StmtReadsExactly): an expression
      statement that looks like an assignment or a reserved statement, a compact loop body that
      joins its header, a target spelled like the internal market position. */
  predicate Clear(voc: Vocabulary, st: Stmt)
    decreases st
  {
    match st
    case Assign(t, _) => !NamesInternal(t)
    case ExprStmt(e) => !LooksAssigned(e) && !LooksReserved(voc, e)
    case If(_, b, leg, _) => AllClear(voc, b) && (leg.Else? ==> AllClear(voc, leg.body))
    case For(_, _, z, _, b, block) => AllClear(voc, b) && HeaderBody(voc, z, b, block)
    case While(c, b, block) => AllClear(voc, b) && HeaderBody(voc, c, b, block)
    case Repeat(b, _) => AllClear(voc, b)
    case Once(b, _) => AllClear(voc, b)
    case _ => true
  }

  predicate AllClear(voc: Vocabulary, sts: Stmts)
    decreases sts
  {
    sts.MoreStmts? ==> Clear(voc, sts.stmt) && AllClear(voc, sts.rest)
  }

  predicate WellFormed(voc: Vocabulary, st: Stmt) {
    Formed(voc, st) && Clear(voc, st)
  }

  predicate AllWellFormed(voc: Vocabulary, sts: Stmts) {
    AllFormed(voc, sts) && AllClear(voc, sts)
  }

  // ---- First tokens --------------------------------------------------------------------

  /** `t` opens a statement: not `;`, Begin, or a word that closes a leg or a block. */
  predicate Opens(t: Token) {
    t != Semi && t != Kw(KElse) && t != Kw(KEnd) && t != Kw(KUntil) && t != Kw(KBegin)
  }

  lemma TargetOpens(voc: Vocabulary, t: Expr, k: Tokens)
    requires TargetShape(voc, t) && k.Cons? && k.head.Op?
    ensures var s := Emit(voc, t, k);
            && StartsWithId(s) && ReadDataSuffix(s).NotData?
            && LeadId(voc, t) == Some(s.head.name)
  {
    hide ArgsShape, Shape, EmitArgs;
  }

  /** A lead with an operator has its left operand in parentheses. */
  lemma ParenLead(voc: Vocabulary, p: Expr, k: Tokens)
    requires Infix(p) && !LeadsOn(p)
    ensures Starts(Emit(voc, p, k), LPar) && !p.Neg?
  {
    InfixEmits(voc, p, k);
    hide Emit, Shape, InfixToken, Prec;
  }

  lemma BareLead(voc: Vocabulary, p: Expr, k: Tokens)
    requires Shape(voc, p) && !Infix(p) && k.Cons? && !k.head.Id?
    ensures var s := Emit(voc, p, k);
            && s.Cons? && Opens(s.head) && Apart(s) && s.head != LPar
            && (NextLevel(s) == 0 <==> !p.Neg?)
  {
    hide ArgsShape, EmitArgs, Classify, IsSelf, Operand, Prec, NeedsParens;
  }

  lemma LeadOpens(voc: Vocabulary, p: Expr, k: Tokens)
    requires Shape(voc, p) && !LeadsOn(p) && k.Cons? && !k.head.Id?
    ensures var s := Emit(voc, p, k);
            && s.Cons? && Opens(s.head) && Apart(s)
            && (Starts(s, LPar) <==> Infix(p))
            && (NextLevel(s) == 0 <==> !p.Neg?)
  {
    hide Emit, Shape, LeadsOn;
    if Infix(p) {
      ParenLead(voc, p, k);
    } else {
      BareLead(voc, p, k);
    }
  }

  lemma ExprOpens(voc: Vocabulary, c: Expr, e: Expr, k: Tokens)
    requires Shape(voc, e) && k.Cons? && !k.head.Id?
    ensures var s := Emit(voc, e, k);
            && s.Cons? && Opens(s.head) && Apart(s)
            && (Fits(c, s) && NextLevel(s) == 0 <==> !Joins(voc, c, ExprStmt(e)))
  {
    var p, k1 := LeadPart(e), LeadRest(voc, e, k);
    hide Emit, Shape, LeadPart, LeadRest, LeadOp, LeadId, ReadDataSuffix, EndsOpen, Apart, NextLevel;
    LeadIsPrinted(voc, e, k);
    LeadToken(voc, p, k1);
    LeadOpens(voc, p, k1);
  }

  /** A first token that is a word or a name other than a point word leaves `c` alone. */
  lemma WordFits(c: Expr, s: Tokens)
    requires s.Cons? && (s.head.Kw? || s.head.Id?) && Apart(s) && NextLevel(s) == 0
    ensures Fits(c, s) && NextLevel(s) == 0 <==> !StartsWithPoint(s)
  {
    hide EndsOpen;
  }

  lemma AssignOpens(voc: Vocabulary, c: Expr, t: Expr, e: Expr, k: Tokens)
    requires TargetShape(voc, t)
    ensures var s := EmitStmt(voc, Assign(t, e), k);
            && s.Cons? && Opens(s.head) && Apart(s)
            && (Fits(c, s) && NextLevel(s) == 0 <==> !Joins(voc, c, Assign(t, e)))
  {
    hide Emit, LeadId, TargetShape, EndsOpen, Fits, ReadDataSuffix;
    TargetOpens(voc, t, Cons(Op(if t.Call? then SAssign else SEq), Emit(voc, e, Cons(Semi, k))));
    WordFits(c, EmitStmt(voc, Assign(t, e), k));
  }

  /** The other statements open with a keyword. */
  lemma KeywordOpens(voc: Vocabulary, c: Expr, st: Stmt, k: Tokens)
    requires !st.Assign? && !st.ExprStmt?
    ensures var s := EmitStmt(voc, st, k);
            && s.Cons? && s.head.Kw? && Opens(s.head) && Apart(s) && NextLevel(s) == 0 && !StartsWithPoint(s)
            && !Joins(voc, c, st)
  {
    hide Emit, EmitStmts, EmitLeg, EmitElse, EndsOpen;
  }

  /** Every statement opens with a token of its own, and it leaves the expression `c` before it
      alone exactly when it does not join it. */
  lemma StmtOpens(voc: Vocabulary, c: Expr, st: Stmt, k: Tokens)
    requires Formed(voc, st)
    ensures var s := EmitStmt(voc, st, k);
            && s.Cons? && Opens(s.head) && Apart(s)
            && (Fits(c, s) && NextLevel(s) == 0 <==> !Joins(voc, c, st))
  {
    hide Emit, Shape, LeadPart, LeadId, TargetShape, EndsOpen, Fits, AllFormed, Joins, NextLevel, Apart,
         StartsWithPoint;
    match st
    case Assign(t, e) => AssignOpens(voc, c, t, e, k);
    case ExprStmt(e) => ExprOpens(voc, c, e, Cons(Semi, k));
    case _ =>
      KeywordOpens(voc, c, st, k);
      WordFits(c, EmitStmt(voc, st, k));
  }

  /** The header of a one-statement loop reads back, its body untouched, exactly when the body
      does not join it. */
  lemma HeaderReadsExactly(voc: Vocabulary, c: Expr, st: Stmt, k: Tokens)
    requires Coherent(voc) && Shape(voc, c) && Formed(voc, st)
    ensures var s := EmitStmt(voc, st, k);
            ParseAt(voc, 1, Emit(voc, c, s)) == Ok(c, s) <==> !Joins(voc, c, st)
  {
    hide Coherent, Shape, Formed, ParseAt, Emit, EmitStmt, Joins, Fits, Apart, NextLevel;
    StmtOpens(voc, c, st, k);
    ReadsBackExactly(voc, c, EmitStmt(voc, st, k));
  }

  // ---- Reading each statement form --------------------------------------------------------

  lemma IfReads(voc: Vocabulary, s: Tokens, c: Expr, s1: Tokens, b: (Stmts, bool), k: Tokens)
    requires ParseAt(voc, 1, s) == Ok(c, Cons(Kw(KThen), s1)) && ParseLeg(voc, s1) == Ok(b, k)
    requires !Starts(k, Kw(KElse))
    ensures ParseStmt(voc, Cons(Kw(KIf), s)) == Ok(If(c, b.0, NoElse, b.1), k)
  {
    hide ParseAt, ParseLeg;
    assert ParseIf(voc, s) == Ok(If(c, b.0, NoElse, b.1), k);
  }

  lemma IfElseReads(voc: Vocabulary, s: Tokens, c: Expr, s1: Tokens, b: (Stmts, bool), s2: Tokens,
                    eb: (Stmts, bool), k: Tokens)
    requires ParseAt(voc, 1, s) == Ok(c, Cons(Kw(KThen), s1)) && ParseLeg(voc, s1) == Ok(b, Cons(Kw(KElse), s2))
    requires ParseLeg(voc, s2) == Ok(eb, k)
    ensures ParseStmt(voc, Cons(Kw(KIf), s)) == Ok(If(c, b.0, Else(eb.0, eb.1), b.1), k)
  {
    hide ParseAt, ParseLeg;
    assert ParseIf(voc, s) == Ok(If(c, b.0, Else(eb.0, eb.1), b.1), k);
  }

  lemma ForReads(voc: Vocabulary, v: string, s: Tokens, a: Expr, down: bool, s1: Tokens, z: Expr, s2: Tokens,
                 b: (Stmts, bool), k: Tokens)
    requires ParseAt(voc, 1, s) == Ok(a, Cons(Kw(if down then KDownTo else KTo), s1))
    requires ParseAt(voc, 1, s1) == Ok(z, s2) && ParseLeg(voc, s2) == Ok(b, k)
    ensures ParseStmt(voc, Cons(Kw(KFor), Cons(Id(v), Cons(Op(SEq), s)))) == Ok(For(v, a, z, down, b.0, b.1), k)
  {
    hide ParseAt, ParseLeg;
    assert ParseFor(voc, Cons(Id(v), Cons(Op(SEq), s))) == Ok(For(v, a, z, down, b.0, b.1), k);
  }

  lemma WhileReads(voc: Vocabulary, s: Tokens, c: Expr, s1: Tokens, b: (Stmts, bool), k: Tokens)
    requires ParseAt(voc, 1, s) == Ok(c, s1) && ParseLeg(voc, s1) == Ok(b, k)
    ensures ParseStmt(voc, Cons(Kw(KWhile), s)) == Ok(While(c, b.0, b.1), k)
  {
    hide ParseAt, ParseLeg;
  }

  lemma RepeatReads(voc: Vocabulary, s: Tokens, b: Stmts, s1: Tokens, c: Expr, k: Tokens)
    requires ParseUntil(voc, s) == Ok(b, s1) && ParseAt(voc, 1, s1) == Ok(c, Cons(Semi, k))
    ensures ParseStmt(voc, Cons(Kw(KRepeat), s)) == Ok(Repeat(b, c), k)
  {
    hide ParseAt, ParseUntil;
  }

  lemma OnceReads(voc: Vocabulary, s: Tokens, b: (Stmts, bool), k: Tokens)
    requires ParseLeg(voc, s) == Ok(b, k)
    ensures ParseStmt(voc, Cons(Kw(KOnce), s)) == Ok(Once(b.0, b.1), k)
  {
    hide ParseLeg;
  }

  lemma SingleReads(voc: Vocabulary, s: Tokens, st: Stmt, k: Tokens)
    requires s.Cons? && Opens(s.head) && ParseStmt(voc, s) == Ok(st, k)
    ensures ParseLeg(voc, s) == Ok((MoreStmts(st, NoStmts), false), k)
  {
    hide ParseStmt;
  }

  /** A Begin/End leg, closed by `;` or by the Else that follows. */
  lemma BlockReads(voc: Vocabulary, s: Tokens, b: Stmts, s1: Tokens, k: Tokens)
    requires ParseBlock(voc, s) == Ok(b, Cons(Kw(KEnd), s1))
    requires s1 == Cons(Semi, k) || (s1 == k && Starts(k, Kw(KElse)))
    ensures ParseLeg(voc, Cons(Kw(KBegin), s)) == Ok((b, true), k)
  {
    hide ParseBlock;
  }

  lemma BlockStep(voc: Vocabulary, s: Tokens, st: Stmt, s1: Tokens, sts: Stmts, k: Tokens)
    requires s.Cons? && Opens(s.head) && ParseStmt(voc, s) == Ok(st, s1) && ParseBlock(voc, s1) == Ok(sts, k)
    ensures ParseBlock(voc, s) == Ok(MoreStmts(st, sts), k)
  {
    hide ParseStmt;
  }

  lemma UntilStep(voc: Vocabulary, s: Tokens, st: Stmt, s1: Tokens, sts: Stmts, k: Tokens)
    requires s.Cons? && Opens(s.head) && ParseStmt(voc, s) == Ok(st, s1) && ParseUntil(voc, s1) == Ok(sts, k)
    ensures ParseUntil(voc, s) == Ok(MoreStmts(st, sts), k)
  {
    hide ParseStmt;
  }

  // ---- The round trip ---------------------------------------------------------------------

  /** An emitted statement reads back as itself with the flags shown, provided no Else that
      belongs elsewhere follows an open Then. */
  lemma {:induction false} StmtReads(voc: Vocabulary, st: Stmt, k: Tokens)
    requires Coherent(voc) && WellFormed(voc, st)
    requires Dangles(st) ==> !Starts(k, Kw(KElse))
    ensures ParseStmt(voc, EmitStmt(voc, st, k)) == Ok(Shown(st), k)
    decreases st, 2
  {
    hide Coherent, Shape, Emit, ParseAt, TargetShape, ParseLeg, ParseUntil, LooksAssigned, LooksReserved, Dangles,
         EmitLeg;
    match st
    case Assign(t, e) => AssignReads(voc, t, e, k);
    case ExprStmt(e) => ExprStmtReads(voc, e, k);
    case If(_, _, _, _) => IfParses(voc, st, k);
    case Repeat(b, c) =>
      var s1 := Emit(voc, c, Cons(Semi, k));
      UntilParses(voc, b, s1);
      ExpressionRoundTrip(voc, c, Cons(Semi, k));
      RepeatReads(voc, EmitStmts(voc, b, Cons(Kw(KUntil), s1)), AllShown(b), s1, c, k);
    case For(_, _, _, _, _, _) => LoopParses(voc, st, k);
    case While(_, _, _) => LoopParses(voc, st, k);
    case Once(_, _) => LoopParses(voc, st, k);
    case _ =>
  }

  lemma {:induction false} LoopParses(voc: Vocabulary, st: Stmt, k: Tokens)
    requires Coherent(voc) && WellFormed(voc, st) && (st.For? || st.While? || st.Once?)
    requires Dangles(st) ==> !Starts(k, Kw(KElse))
    ensures ParseStmt(voc, EmitStmt(voc, st, k)) == Ok(Shown(st), k)
    decreases st, 1
  {
    hide Coherent, Shape, Emit, ParseAt, ParseLeg, Dangles, EmitLeg, ParseStmt, HeaderBody;
    var b, block := st.body, st.block;
    var leg := EmitLeg(voc, b, LoopCompact(b, block), true, k);
    LoopDangles(st);
    LoopLegParses(voc, st, b, block, k);
    match st
    case For(v, a, z, down, _, _) =>
      HeaderParses(voc, z, b, block, k);
      ForStartParses(voc, a, down, Emit(voc, z, leg));
      ForReads(voc, v, Emit(voc, a, Cons(Kw(if down then KDownTo else KTo), Emit(voc, z, leg))), a, down,
               Emit(voc, z, leg), z, leg, (AllShown(b), !LoopCompact(b, block)), k);
    case While(c, _, _) =>
      HeaderParses(voc, c, b, block, k);
      WhileReads(voc, Emit(voc, c, leg), c, leg, (AllShown(b), !LoopCompact(b, block)), k);
    case Once(_, _) => OnceReads(voc, leg, (AllShown(b), !LoopCompact(b, block)), k);
  }

  lemma {:induction false} IfParses(voc: Vocabulary, st: Stmt, k: Tokens)
    requires Coherent(voc) && WellFormed(voc, st) && st.If?
    requires Dangles(st) ==> !Starts(k, Kw(KElse))
    ensures ParseStmt(voc, EmitStmt(voc, st, k)) == Ok(Shown(st), k)
    decreases st, 1
  {
    hide Coherent, Shape, Emit, ParseAt, ParseLeg, Dangles, ParseStmt, EmitLeg, EmitStmt, Shown, ThenCompact, AllShown;
    OpenIfDangles(st);
    ThenLegParses(voc, st, k);
    if st.orElse.NoElse? {
      IfAlone(voc, st, k);
    } else {
      ElseLegParses(voc, st, k);
      IfWithElse(voc, st, k);
    }
  }

  lemma IfAlone(voc: Vocabulary, st: Stmt, k: Tokens)
    requires Coherent(voc) && st.If? && st.orElse.NoElse? && Shape(voc, st.cond) && !Starts(k, Kw(KElse))
    requires var compact := ThenCompact(st.body, st.orElse, st.thenBlock);
             ParseLeg(voc, EmitLeg(voc, st.body, compact, true, k)) == Ok((AllShown(st.body), !compact), k)
    ensures ParseStmt(voc, EmitStmt(voc, st, k)) == Ok(Shown(st), k)
  {
    hide Coherent, Shape, Emit, ParseAt, ParseLeg, ParseStmt, EmitLeg, AllShown, Dangles;
    var compact := ThenCompact(st.body, st.orElse, st.thenBlock);
    var s1, b := EmitLeg(voc, st.body, compact, true, k), (AllShown(st.body), !compact);
    ExpressionRoundTrip(voc, st.cond, Cons(Kw(KThen), s1));
    IfReads(voc, Emit(voc, st.cond, Cons(Kw(KThen), s1)), st.cond, s1, b, k);
  }

  lemma IfWithElse(voc: Vocabulary, st: Stmt, k: Tokens)
    requires Coherent(voc) && st.If? && st.orElse.Else? && Shape(voc, st.cond)
    requires var compact, tail := ThenCompact(st.body, st.orElse, st.thenBlock), EmitElse(voc, st.orElse, k);
             ParseLeg(voc, EmitLeg(voc, st.body, compact, false, tail)) == Ok((AllShown(st.body), !compact), tail)
    requires var leg := st.orElse;
             ParseLeg(voc, EmitLeg(voc, leg.body, ElseCompact(leg), true, k))
               == Ok((AllShown(leg.body), !ElseCompact(leg)), k)
    ensures ParseStmt(voc, EmitStmt(voc, st, k)) == Ok(Shown(st), k)
  {
    hide Coherent, Shape, Emit, ParseAt, ParseLeg, ParseStmt, EmitLeg, AllShown, Dangles;
    var leg := st.orElse;
    var compact, tail := ThenCompact(st.body, leg, st.thenBlock), EmitElse(voc, leg, k);
    var s1, s2 := EmitLeg(voc, st.body, compact, false, tail), EmitLeg(voc, leg.body, ElseCompact(leg), true, k);
    ExpressionRoundTrip(voc, st.cond, Cons(Kw(KThen), s1));
    IfElseReads(voc, Emit(voc, st.cond, Cons(Kw(KThen), s1)), st.cond, s1, (AllShown(st.body), !compact), s2,
                (AllShown(leg.body), !ElseCompact(leg)), k);
  }

  lemma OpenIfDangles(st: Stmt)
    requires st.If?
    ensures st.orElse.NoElse? ==> Dangles(st)
    ensures ElseCompact(st.orElse) && Dangles(st.orElse.body.stmt) ==> Dangles(st)
  {
  }

  /** The then leg before its Else: compact only when it cannot capture it. */
  lemma {:induction false} ThenLegParses(voc: Vocabulary, st: Stmt, k: Tokens)
    requires Coherent(voc) && WellFormed(voc, st) && st.If?
    requires Dangles(st) ==> !Starts(k, Kw(KElse))
    ensures var compact, tail := ThenCompact(st.body, st.orElse, st.thenBlock), EmitElse(voc, st.orElse, k);
            ParseLeg(voc, EmitLeg(voc, st.body, compact, st.orElse.NoElse?, tail))
              == Ok((AllShown(st.body), !compact), tail)
    decreases st, 0
  {
    hide Coherent, Shape, Emit, ParseAt, ParseLeg, ParseStmt, ParseBlock, EmitLeg, Dangles;
    OpenIfDangles(st);
    LegParses(voc, st.body, ThenCompact(st.body, st.orElse, st.thenBlock), st.orElse.NoElse?,
              EmitElse(voc, st.orElse, k));
  }

  lemma {:induction false} ElseLegParses(voc: Vocabulary, st: Stmt, k: Tokens)
    requires Coherent(voc) && WellFormed(voc, st) && st.If? && st.orElse.Else?
    requires Dangles(st) ==> !Starts(k, Kw(KElse))
    ensures var leg := st.orElse;
            ParseLeg(voc, EmitLeg(voc, leg.body, ElseCompact(leg), true, k))
              == Ok((AllShown(leg.body), !ElseCompact(leg)), k)
    decreases st, 0
  {
    hide Coherent, Shape, Emit, ParseAt, ParseLeg, ParseStmt, ParseBlock, EmitLeg, Dangles;
    OpenIfDangles(st);
    LegParses(voc, st.orElse.body, ElseCompact(st.orElse), true, k);
  }

  lemma {:induction false} LoopLegParses(voc: Vocabulary, st: Stmt, b: Stmts, block: bool, k: Tokens)
    requires Coherent(voc) && AllWellFormed(voc, b) && b < st
    requires LoopCompact(b, block) && Dangles(b.stmt) ==> Dangles(st)
    requires Dangles(st) ==> !Starts(k, Kw(KElse))
    ensures ParseLeg(voc, EmitLeg(voc, b, LoopCompact(b, block), true, k))
            == Ok((AllShown(b), !LoopCompact(b, block)), k)
    decreases st, 0
  {
    hide Coherent, Shape, Emit, ParseAt, ParseLeg, ParseStmt, ParseBlock, Dangles, EmitLeg;
    LegParses(voc, b, LoopCompact(b, block), true, k);
  }

  /** An open Then inside a compact loop body stays open at the end of the loop. */
  lemma LoopDangles(st: Stmt)
    requires st.For? || st.While? || st.Once?
    ensures LoopCompact(st.body, st.block) && Dangles(st.body.stmt) ==> Dangles(st)
  {
  }

  /** A leg, compact or not, closed by `;` or by the Else that follows. */
  lemma {:induction false} LegParses(voc: Vocabulary, b: Stmts, compact: bool, closed: bool, k: Tokens)
    requires Coherent(voc) && AllWellFormed(voc, b) && (compact ==> Single(b))
    requires compact && Dangles(b.stmt) ==> !Starts(k, Kw(KElse))
    requires closed || Starts(k, Kw(KElse))
    ensures ParseLeg(voc, EmitLeg(voc, b, compact, closed, k)) == Ok((AllShown(b), !compact), k)
    decreases b, 4
  {
    hide Coherent, Shape, Emit, ParseAt, ParseLeg, ParseStmt, ParseBlock, Dangles;
    if compact {
      StmtReads(voc, b.stmt, k);
      StmtOpens(voc, NO_HEADER, b.stmt, k);
      SingleReads(voc, EmitStmt(voc, b.stmt, k), Shown(b.stmt), k);
    } else {
      var end := if closed then Cons(Semi, k) else k;
      BlockParses(voc, b, end);
      BlockReads(voc, EmitStmts(voc, b, Cons(Kw(KEnd), end)), AllShown(b), end, k);
    }
  }

  /** Inside a block nothing an If could capture follows. */
  lemma {:induction false} BlockParses(voc: Vocabulary, b: Stmts, k: Tokens)
    requires Coherent(voc) && AllWellFormed(voc, b)
    ensures ParseBlock(voc, EmitStmts(voc, b, Cons(Kw(KEnd), k))) == Ok(AllShown(b), Cons(Kw(KEnd), k))
    decreases b, 3
  {
    hide Coherent, Formed, Clear, ParseStmt, Dangles, EmitStmt, Shown;
    if b.MoreStmts? {
      var s1 := EmitStmts(voc, b.rest, Cons(Kw(KEnd), k));
      BlockParses(voc, b.rest, k);
      NextOpens(voc, b.rest, Cons(Kw(KEnd), k));
      StmtReads(voc, b.stmt, s1);
      StmtOpens(voc, NO_HEADER, b.stmt, s1);
      hide ParseBlock;
      BlockStep(voc, EmitStmt(voc, b.stmt, s1), Shown(b.stmt), s1, AllShown(b.rest), Cons(Kw(KEnd), k));
    }
  }

  lemma {:induction false} UntilParses(voc: Vocabulary, b: Stmts, k: Tokens)
    requires Coherent(voc) && AllWellFormed(voc, b)
    ensures ParseUntil(voc, EmitStmts(voc, b, Cons(Kw(KUntil), k))) == Ok(AllShown(b), k)
    decreases b, 3
  {
    hide Coherent, Formed, Clear, ParseStmt, Dangles, EmitStmt, Shown;
    if b.MoreStmts? {
      var s1 := EmitStmts(voc, b.rest, Cons(Kw(KUntil), k));
      UntilParses(voc, b.rest, k);
      NextOpens(voc, b.rest, Cons(Kw(KUntil), k));
      StmtReads(voc, b.stmt, s1);
      StmtOpens(voc, NO_HEADER, b.stmt, s1);
      hide ParseUntil;
      UntilStep(voc, EmitStmt(voc, b.stmt, s1), Shown(b.stmt), s1, AllShown(b.rest), k);
    }
  }

  /** What follows a statement in a list is never an Else. */
  lemma NextOpens(voc: Vocabulary, b: Stmts, k: Tokens)
    requires AllFormed(voc, b) && !Starts(k, Kw(KElse))
    ensures !Starts(EmitStmts(voc, b, k), Kw(KElse))
  {
    hide Formed, EmitStmt;
    if b.MoreStmts? {
      StmtOpens(voc, NO_HEADER, b.stmt, EmitStmts(voc, b.rest, k));
    }
  }

  lemma HeaderParses(voc: Vocabulary, c: Expr, b: Stmts, block: bool, k: Tokens)
    requires Coherent(voc) && Shape(voc, c) && AllFormed(voc, b) && HeaderBody(voc, c, b, block)
    ensures var s := EmitLeg(voc, b, LoopCompact(b, block), true, k);
            ParseAt(voc, 1, Emit(voc, c, s)) == Ok(c, s)
  {
    hide Coherent, Shape, Formed, ParseAt, Emit, EmitStmt, EmitStmts, Joins;
    if LoopCompact(b, block) {
      HeaderReadsExactly(voc, c, b.stmt, k);
    } else {
      ExpressionRoundTrip(voc, c, EmitLeg(voc, b, false, true, k));
    }
  }

  lemma ForStartParses(voc: Vocabulary, a: Expr, down: bool, s: Tokens)
    requires Coherent(voc) && Shape(voc, a)
    ensures var s1 := Cons(Kw(if down then KDownTo else KTo), s);
            ParseAt(voc, 1, Emit(voc, a, s1)) == Ok(a, s1)
  {
    hide Coherent, Shape, ParseAt, Emit;
    ExpressionRoundTrip(voc, a, Cons(Kw(if down then KDownTo else KTo), s));
  }

  // ---- Programs -----------------------------------------------------------------------------

  /** Reparsing an emitted program: the same statements, with the Begin/End flags the emission
      shows. No Else has joined another If, no statement was lost or split. */
  lemma {:induction false} ProgramRoundTrip(voc: Vocabulary, p: Stmts)
    requires Coherent(voc) && AllWellFormed(voc, p)
    ensures ParseProgram(voc, EmitStmts(voc, p, Nil)) == Ok(AllShown(p), Nil)
    decreases p
  {
    hide Coherent, Formed, Clear, ParseStmt, Dangles, EmitStmt, Shown;
    if p.MoreStmts? {
      var s1 := EmitStmts(voc, p.rest, Nil);
      ProgramRoundTrip(voc, p.rest);
      NextOpens(voc, p.rest, Nil);
      StmtReads(voc, p.stmt, s1);
      StmtOpens(voc, NO_HEADER, p.stmt, s1);
      ProgramStep(voc, EmitStmt(voc, p.stmt, s1), Shown(p.stmt), s1, AllShown(p.rest));
    }
  }

  lemma ProgramStep(voc: Vocabulary, s: Tokens, st: Stmt, s1: Tokens, sts: Stmts)
    requires s.Cons? && Opens(s.head) && ParseStmt(voc, s) == Ok(st, s1) && ParseProgram(voc, s1) == Ok(sts, Nil)
    ensures ParseProgram(voc, s) == Ok(MoreStmts(st, sts), Nil)
  {
    hide ParseStmt;
  }

  /** Showing the flags changes neither what is emitted nor where an open Then ends. */
  lemma {:induction false} ShownEmits(voc: Vocabulary, st: Stmt, k: Tokens)
    ensures EmitStmt(voc, Shown(st), k) == EmitStmt(voc, st, k)
    decreases st, 1
  {
    hide Emit;
    ShownDangles(st);
    match st
    case If(c, b, leg, block) =>
      if leg.Else? {
        ShownLegEmits(voc, leg.body, ElseCompact(leg), true, k);
      }
      if Single(b) {
        ShownDangles(b.stmt);
      }
      ShownLegEmits(voc, b, ThenCompact(b, leg, block), leg.NoElse?, EmitElse(voc, leg, k));
    case For(v, a, z, down, b, block) => ShownLegEmits(voc, b, LoopCompact(b, block), true, k);
    case While(c, b, block) => ShownLegEmits(voc, b, LoopCompact(b, block), true, k);
    case Repeat(b, c) => AllShownEmits(voc, b, Cons(Kw(KUntil), Emit(voc, c, Cons(Semi, k))));
    case Once(b, block) => ShownLegEmits(voc, b, LoopCompact(b, block), true, k);
    case _ =>
  }

  /** A leg is compact after its flag is shown exactly when it was before. */
  lemma LegKept(b: Stmts, block: bool)
    ensures LoopCompact(AllShown(b), !LoopCompact(b, block)) == LoopCompact(b, block)
    ensures LoopCompact(b, block) ==> AllShown(b).stmt == Shown(b.stmt)
  {
    hide Shown;
    if Single(b) {
      assert AllShown(b) == MoreStmts(Shown(b.stmt), AllShown(b.rest));
    }
  }

  lemma {:induction false} ShownDangles(st: Stmt)
    ensures Dangles(Shown(st)) == Dangles(st)
    decreases st
  {
    hide AllShown;
    if st.If? {
      var leg := st.orElse;
      if leg.Else? {
        LegKept(leg.body, leg.block);
        assert ElseShown(leg) == Else(AllShown(leg.body), !ElseCompact(leg));
        if ElseCompact(leg) {
          ShownDangles(leg.body.stmt);
        }
      }
    } else if st.For? || st.While? || st.Once? {
      LegKept(st.body, st.block);
      if LoopCompact(st.body, st.block) {
        ShownDangles(st.body.stmt);
      }
    }
  }

  lemma {:induction false} ShownLegEmits(voc: Vocabulary, b: Stmts, compact: bool, closed: bool, k: Tokens)
    requires compact ==> Single(b)
    ensures (compact ==> Single(AllShown(b)))
            && EmitLeg(voc, AllShown(b), compact, closed, k) == EmitLeg(voc, b, compact, closed, k)
    decreases b, 3
  {
    hide EmitStmt;
    AllShownEmits(voc, b, Cons(Kw(KEnd), if closed then Cons(Semi, k) else k));
    if compact {
      ShownEmits(voc, b.stmt, k);
    }
  }

  lemma {:induction false} AllShownEmits(voc: Vocabulary, sts: Stmts, k: Tokens)
    ensures EmitStmts(voc, AllShown(sts), k) == EmitStmts(voc, sts, k)
    decreases sts, 2
  {
    hide EmitStmt;
    if sts.MoreStmts? {
      AllShownEmits(voc, sts.rest, k);
      ShownEmits(voc, sts.stmt, EmitStmts(voc, sts.rest, k));
    }
  }

  /** emit . parse . emit == emit. */
  lemma EmissionIsFixpoint(voc: Vocabulary, p: Stmts)
    requires Coherent(voc) && AllWellFormed(voc, p)
    ensures var r := ParseProgram(voc, EmitStmts(voc, p, Nil));
            r.Ok? && EmitStmts(voc, r.value, Nil) == EmitStmts(voc, p, Nil)
  {
    hide Coherent, Formed, Clear, ParseProgram, EmitStmt, Shown;
    ProgramRoundTrip(voc, p);
    AllShownEmits(voc, p, Nil);
  }

  // ---- Where the emission is not read back -----------------------------------------------------

  lemma {:induction false} SemiFails(voc: Vocabulary, lvl: nat, k: Tokens)
    requires 1 <= lvl <= 7
    ensures ParseAt(voc, lvl, Cons(Semi, k)) == Fail
    decreases 7 - lvl
  {
    if lvl < 7 {
      SemiFails(voc, lvl + 1, k);
    }
  }

  function OneLineWhile(c: Expr, e: Expr): Stmt {
    While(c, MoreStmts(ExprStmt(e), NoStmts), false)
  }

  lemma OneLineEmits(voc: Vocabulary, c: Expr, e: Expr, k: Tokens)
    ensures EmitStmt(voc, OneLineWhile(c, e), k) == Cons(Kw(KWhile), Emit(voc, c, Emit(voc, e, Cons(Semi, k))))
  {
    hide Emit;
    var b := MoreStmts(ExprStmt(e), NoStmts);
    assert EmitLeg(voc, b, true, true, k) == Emit(voc, e, Cons(Semi, k));
  }

  lemma SemiIsNoLeg(voc: Vocabulary, k: Tokens)
    ensures ParseLeg(voc, Cons(Semi, k)) == Fail
  {
    hide ParseAt, ParseBlock;
    SemiFails(voc, 1, k);
    assert ParseStmt(voc, Cons(Semi, k)) == Fail;
  }

  /** A header that swallows its body leaves `;` where the body should be. */
  lemma BodyGone(voc: Vocabulary, c: Expr, e: Expr, joined: Expr, k: Tokens)
    requires Coherent(voc) && Shape(voc, joined)
    requires Emit(voc, joined, Cons(Semi, k)) == Emit(voc, c, Emit(voc, e, Cons(Semi, k)))
    ensures ParseStmt(voc, EmitStmt(voc, OneLineWhile(c, e), k)) == Fail
  {
    hide Coherent, Shape, Emit, ParseAt, ParseLeg, EmitStmt, OneLineWhile;
    OneLineEmits(voc, c, e, k);
    ExpressionRoundTrip(voc, joined, Cons(Semi, k));
    SemiIsNoLeg(voc, k);
  }

  lemma MinusEmits(voc: Vocabulary, x: Expr, y: Expr, k: Tokens)
    requires Prec(x) >= 5 && Prec(y) == 8
    ensures Emit(voc, Binary(Minus, x, y), k) == Emit(voc, x, Emit(voc, Neg(y), k))
  {
  }

  /** A compact body opening with a sign is read into the condition before it. */
  lemma MinusBodyJoins(voc: Vocabulary, x: Expr, y: Expr, k: Tokens)
    requires Coherent(voc) && Shape(voc, x) && Shape(voc, y) && Prec(x) >= 5 && Prec(y) == 8
    ensures ParseStmt(voc, EmitStmt(voc, OneLineWhile(x, Neg(y)), k)) == Fail
  {
    InfixShapes(voc, Binary(Minus, x, y));
    hide *;
    MinusEmits(voc, x, y, Cons(Semi, k));
    BodyGone(voc, x, Neg(y), Binary(Minus, x, y), k);
  }

  lemma CallEmits(voc: Vocabulary, n: string, a: Expr, b: Expr, k: Tokens)
    requires n != INTERNAL_MARKET_POSITION && Prec(a) < 6 && Prec(b) == 8
    ensures Emit(voc, Binary(Times, Call(n, MoreArgs(a, NoArgs)), b), k)
            == Emit(voc, Ident(n), Emit(voc, Binary(Times, a, b), k))
  {
    var c, k1 := Call(n, MoreArgs(a, NoArgs)), Cons(Op(SStar), Emit(voc, b, k));
    assert EmitArgs(voc, c.args, Cons(RPar, k1)) == Emit(voc, a, Cons(RPar, k1));
    assert Emit(voc, Binary(Times, a, b), k) == Cons(LPar, Emit(voc, a, Cons(RPar, k1)));
    assert Emit(voc, Binary(Times, c, b), k) == Emit(voc, c, k1);
  }

  lemma CalledShape(voc: Vocabulary, n: string, a: Expr, b: Expr)
    requires Classify(voc, n, true) == Plain && Shape(voc, a) && Shape(voc, b)
    ensures Shape(voc, Binary(Times, Call(n, MoreArgs(a, NoArgs)), b))
  {
    var es := MoreArgs(a, NoArgs);
    assert ArgsShape(voc, es);
    hide Classify;
    assert Shape(voc, Call(n, es));
  }

  /** A compact body opening with a parenthesis becomes the arguments of the name before it. */
  lemma ParenBodyJoins(voc: Vocabulary, n: string, a: Expr, b: Expr, k: Tokens)
    requires Coherent(voc) && Classify(voc, n, true) == Plain && n != INTERNAL_MARKET_POSITION
    requires Shape(voc, a) && Shape(voc, b) && Prec(a) < 6 && Prec(b) == 8
    ensures ParseStmt(voc, EmitStmt(voc, OneLineWhile(Ident(n), Binary(Times, a, b)), k)) == Fail
  {
    hide *;
    CallEmits(voc, n, a, b, Cons(Semi, k));
    CalledShape(voc, n, a, b);
    BodyGone(voc, Ident(n), Binary(Times, a, b), Binary(Times, Call(n, MoreArgs(a, NoArgs)), b), k);
  }
}
