/** Where the emission is not read back, nothing later makes up for it: what is read there is another
    statement, or less text is left than the rest of the program needs. */
module ReadBack {
  import opened Syntax
  import opened Grammar
  import opened Emitter
  import opened Weights
  import opened ExprRoundTrip
  import opened Overruns
  import opened Statements
  import opened StmtRoundTrip
  import opened Programs

  // ---- Weights of statements ------------------------------------------------------------------

  lemma TargetWeighs(voc: Vocabulary, t: Expr, k: Tokens)
    requires Coherent(voc) && TargetShape(voc, t)
    ensures Load(Emit(voc, t, k)) == Weight(t) + Load(k)
  {
    if t.BarRef? {
      TargetParts(voc, t, k);
      var k1 := Cons(LBr, Emit(voc, t.index, Cons(RBr, k)));
      hide Coherent, Shape, ArgsShape, NameWeight, TargetShape, Emit;
      EmitWeighs(voc, t.index, Cons(RBr, k));
      assert Load(k1) == Weight(t.index) + Load(k);
      SeriesWeighs(voc, t.series, k1);
    } else {
      SeriesWeighs(voc, t, k);
    }
  }

  lemma TargetParts(voc: Vocabulary, t: Expr, k: Tokens)
    requires TargetShape(voc, t) && t.BarRef?
    ensures Shape(voc, t.index) && (t.series.Ident? || (t.series.Call? && ArgsShape(voc, t.series.args)))
    ensures Emit(voc, t, k) == Emit(voc, t.series, Cons(LBr, Emit(voc, t.index, Cons(RBr, k))))
  {
    hide Shape, ArgsShape;
  }

  lemma SeriesWeighs(voc: Vocabulary, s: Expr, k: Tokens)
    requires Coherent(voc) && (s.Ident? || (s.Call? && ArgsShape(voc, s.args)))
    ensures Load(Emit(voc, s, k)) == Weight(s) + Load(k)
  {
    hide Coherent, Shape, ArgsShape, NameWeight;
    WordWeights();
    if s.Call? {
      EmitArgsWeighs(voc, s.args, Cons(RPar, k));
    }
  }

  lemma {:induction false} StmtWeighs(voc: Vocabulary, st: Stmt, k: Tokens)
    requires Coherent(voc) && Formed(voc, st)
    ensures Load(EmitStmt(voc, st, k)) == StmtWeight(st) + Load(k)
    decreases st, 2
  {
    hide Coherent, Shape, Emit, Weight, NameWeight, TargetShape, Dangles, EmitLeg;
    match st
    case Assign(t, e) =>
      EmitWeighs(voc, e, Cons(Semi, k));
      TargetWeighs(voc, t, Cons(Op(if t.Call? then SAssign else SEq), Emit(voc, e, Cons(Semi, k))));
    case ExprStmt(e) => EmitWeighs(voc, e, Cons(Semi, k));
    case If(_, _, _, _) => IfWeighs(voc, st, k);
    case For(_, _, _, _, _, _) => ForWeighs(voc, st, k);
    case While(_, _, _) => LoopWeighs(voc, st, k);
    case Repeat(_, _) => LoopWeighs(voc, st, k);
    case Once(b, block) => LegWeighs(voc, b, LoopCompact(b, block), true, k);
    case _ =>
  }

  lemma {:induction false} LoopWeighs(voc: Vocabulary, st: Stmt, k: Tokens)
    requires Coherent(voc) && Formed(voc, st) && (st.While? || st.Repeat?)
    ensures Load(EmitStmt(voc, st, k)) == StmtWeight(st) + Load(k)
    decreases st, 1
  {
    hide Coherent, Shape, Emit, Weight, NameWeight, EmitLeg, Dangles, EmitStmts, StmtsWeight;
    match st
    case While(c, b, block) =>
      LegWeighs(voc, b, LoopCompact(b, block), true, k);
      EmitWeighs(voc, c, EmitLeg(voc, b, LoopCompact(b, block), true, k));
    case Repeat(b, c) =>
      EmitWeighs(voc, c, Cons(Semi, k));
      StmtsWeigh(voc, b, Cons(Kw(KUntil), Emit(voc, c, Cons(Semi, k))));
  }

  lemma {:induction false} IfWeighs(voc: Vocabulary, st: Stmt, k: Tokens)
    requires Coherent(voc) && Formed(voc, st) && st.If?
    ensures Load(EmitStmt(voc, st, k)) == StmtWeight(st) + Load(k)
    ensures Load(EmitElse(voc, st.orElse, k)) == (if st.orElse.Else? then StmtsWeight(st.orElse.body) else 0) + Load(k)
    decreases st, 1
  {
    hide Coherent, Shape, Emit, Weight, NameWeight, EmitLeg, Dangles;
    var b, leg, tail := st.body, st.orElse, EmitElse(voc, st.orElse, k);
    if leg.Else? {
      LegWeighs(voc, leg.body, ElseCompact(leg), true, k);
    }
    LegWeighs(voc, b, ThenCompact(b, leg, st.thenBlock), leg.NoElse?, tail);
    EmitWeighs(voc, st.cond, Cons(Kw(KThen), EmitLeg(voc, b, ThenCompact(b, leg, st.thenBlock), leg.NoElse?, tail)));
  }

  lemma {:induction false} ForWeighs(voc: Vocabulary, st: Stmt, k: Tokens)
    requires Coherent(voc) && Formed(voc, st) && st.For?
    ensures Load(EmitStmt(voc, st, k)) == StmtWeight(st) + Load(k)
    decreases st, 1
  {
    hide Coherent, Shape, Emit, Weight, NameWeight, EmitLeg, Dangles;
    var s := EmitLeg(voc, st.body, LoopCompact(st.body, st.block), true, k);
    LegWeighs(voc, st.body, LoopCompact(st.body, st.block), true, k);
    EmitWeighs(voc, st.end, s);
    var s1 := Cons(Kw(if st.down then KDownTo else KTo), Emit(voc, st.end, s));
    EmitWeighs(voc, st.start, s1);
    assert Load(s1) == Load(s1.tail);
    assert Load(Cons(Op(SEq), Emit(voc, st.start, s1))) == Load(Emit(voc, st.start, s1));
  }

  lemma {:induction false} LegWeighs(voc: Vocabulary, b: Stmts, compact: bool, closed: bool, k: Tokens)
    requires Coherent(voc) && AllFormed(voc, b) && (compact ==> Single(b))
    ensures Load(EmitLeg(voc, b, compact, closed, k)) == StmtsWeight(b) + Load(k)
    decreases b, 4
  {
    hide Coherent, Formed, StmtWeight, EmitStmt;
    if compact {
      StmtWeighs(voc, b.stmt, k);
    } else {
      StmtsWeigh(voc, b, Cons(Kw(KEnd), if closed then Cons(Semi, k) else k));
    }
  }

  lemma {:induction false} StmtsWeigh(voc: Vocabulary, sts: Stmts, k: Tokens)
    requires Coherent(voc) && AllFormed(voc, sts)
    ensures Load(EmitStmts(voc, sts, k)) == StmtsWeight(sts) + Load(k)
    decreases sts, 3
  {
    hide Coherent, Formed, StmtWeight, EmitStmt;
    if sts.MoreStmts? {
      StmtsWeigh(voc, sts.rest, k);
      StmtWeighs(voc, sts.stmt, EmitStmts(voc, sts.rest, k));
    }
  }

  /** Flags weigh nothing. */
  lemma {:induction false} ShownWeighs(st: Stmt)
    ensures StmtWeight(Shown(st)) == StmtWeight(st)
    decreases st
  {
    hide Weight, NameWeight, Dangles;
    match st
    case If(_, b, leg, _) =>
      AllShownWeigh(b);
      if leg.Else? {
        AllShownWeigh(leg.body);
      }
    case For(_, _, _, _, b, _) => AllShownWeigh(b);
    case While(_, b, _) => AllShownWeigh(b);
    case Repeat(b, _) => AllShownWeigh(b);
    case Once(b, _) => AllShownWeigh(b);
    case _ =>
  }

  lemma {:induction false} AllShownWeigh(sts: Stmts)
    ensures StmtsWeight(AllShown(sts)) == StmtsWeight(sts)
    decreases sts
  {
    hide Shown, StmtWeight;
    if sts.MoreStmts? {
      ShownWeighs(sts.stmt);
      AllShownWeigh(sts.rest);
    }
  }

  // ---- Astray -----------------------------------------------------------------------------------

  /** Other statements were read than were printed, or less than `k` is left. */
  predicate Astray(r: Parsed<Stmts>, sts: Stmts, k: Tokens) {
    r.Ok? ==> r.value != AllShown(sts) || Load(r.rest) < Load(k)
  }

  predicate StmtAstray(r: Parsed<Stmt>, st: Stmt, k: Tokens) {
    r.Ok? ==> r.value != Shown(st) || Load(r.rest) < Load(k)
  }

  predicate LegAstray(r: Parsed<(Stmts, bool)>, b: Stmts, k: Tokens) {
    r.Ok? ==> r.value.0 != AllShown(b) || Load(r.rest) < Load(k)
  }

  /** There is no reading statements from less text than they weigh. */
  lemma LegLate(voc: Vocabulary, s: Tokens, b: Stmts, k: Tokens)
    requires Coherent(voc) && Load(s) < StmtsWeight(b) + Load(k)
    ensures LegAstray(ParseLeg(voc, s), b, k)
  {
    hide Coherent, ParseLeg, AllShown, StmtsWeight, Load;
    LegKeeps(voc, s);
    AllShownWeigh(b);
  }

  lemma Late(voc: Vocabulary, s: Tokens, b: Stmts, k: Tokens)
    requires Coherent(voc) && Load(s) < StmtsWeight(b) + Load(k)
    ensures Astray(ParseBlock(voc, s), b, k) && Astray(ParseUntil(voc, s), b, k) && Astray(ParseProgram(voc, s), b, k)
  {
    hide Coherent, ParseBlock, ParseUntil, ParseProgram, AllShown, StmtsWeight, Load;
    BlockKeeps(voc, s);
    UntilKeeps(voc, s);
    ProgramKeeps(voc, s);
    AllShownWeigh(b);
  }

  /** A statement's text never begins with an empty pair of parentheses. */
  lemma StmtIsSolid(voc: Vocabulary, st: Stmt, k: Tokens)
    requires Formed(voc, st)
    ensures Solid(EmitStmt(voc, st, k))
  {
    hide Emit, Shape, TargetShape, EmitStmts, EmitLeg, EmitElse;
    match st
    case Assign(t, e) =>
      TargetOpens(voc, t, Cons(Op(if t.Call? then SAssign else SEq), Emit(voc, e, Cons(Semi, k))));
    case ExprStmt(e) => ExprIsSolid(voc, e, Cons(Semi, k));
    case _ =>
  }

  lemma {:induction false} ExprIsSolid(voc: Vocabulary, e: Expr, k: Tokens)
    requires Shape(voc, e)
    ensures Solid(Emit(voc, e, k))
    decreases e
  {
    var p, k1 := LeadPart(e), LeadRest(voc, e, k);
    LeadIsPrinted(voc, e, k);
    hide LeadPart, LeadRest, LeadOp, ArgsShape, EmitArgs, Classify;
    if Infix(p) {
      FirstToken(voc, p.left, Cons(RPar, Cons(InfixToken(p), Operand(voc, p.right, Prec(p), true, k1))));
    }
  }

  // ---- The first text not read back -----------------------------------------------------------------

  /** A compact body that joins its header leaves less than itself. */
  lemma JoinedIsLate(voc: Vocabulary, c: Expr, b: Stmts, block: bool, k: Tokens)
    requires Coherent(voc) && Shape(voc, c) && AllFormed(voc, b) && !HeaderBody(voc, c, b, block)
    ensures var s := EmitLeg(voc, b, LoopCompact(b, block), true, k);
            var r := ParseAt(voc, 1, Emit(voc, c, s));
            r.Ok? ==> LegAstray(ParseLeg(voc, r.rest), b, k)
  {
    var s := EmitLeg(voc, b, LoopCompact(b, block), true, k);
    LegWeighs(voc, b, LoopCompact(b, block), true, k);
    StmtOpens(voc, c, b.stmt, k);
    StmtIsSolid(voc, b.stmt, k);
    hide Coherent, Shape, AllFormed, Formed, ParseAt, ParseLeg, Emit, EmitStmt, StmtsWeight, Load, Apart, Fits,
         NextLevel, LegAstray, Solid, Joins;
    Overrun(voc, c, s);
    var r := ParseAt(voc, 1, Emit(voc, c, s));
    if r.Ok? {
      LegLate(voc, r.rest, b, k);
    }
  }

  lemma {:induction false} StmtGoesAstray(voc: Vocabulary, st: Stmt, k: Tokens)
    requires Coherent(voc) && Formed(voc, st) && !Clear(voc, st)
    requires Dangles(st) ==> !Starts(k, Kw(KElse))
    ensures StmtAstray(ParseStmt(voc, EmitStmt(voc, st, k)), st, k)
    decreases st, 2
  {
    hide Coherent, Shape, Emit, ParseAt, TargetShape, NamesInternal, Renamed, LooksAssigned, LooksReserved, Dangles,
         EmitLeg, Load;
    match st
    case Assign(t, e) =>
      RenamedShape(voc, t);
      AssignReads(voc, t, e, k);
    case ExprStmt(e) => ExprStmtReads(voc, e, k);
    case If(_, _, _, _) => IfGoesAstray(voc, st, k);
    case Repeat(_, _) => RepeatGoesAstray(voc, st, k);
    case For(_, _, _, _, _, _) => LoopGoesAstray(voc, st, k);
    case While(_, _, _) => LoopGoesAstray(voc, st, k);
    case Once(_, _) => LoopGoesAstray(voc, st, k);
    case _ =>
  }

  lemma WhileIsAstray(voc: Vocabulary, st: Stmt, k: Tokens)
    requires st.While?
    requires var r := ParseAt(voc, 1,
                              Emit(voc, st.cond, EmitLeg(voc, st.body, LoopCompact(st.body, st.block), true, k)));
             r.Ok? ==> LegAstray(ParseLeg(voc, r.rest), st.body, k)
    ensures StmtAstray(ParseStmt(voc, EmitStmt(voc, st, k)), st, k)
  {
    hide Emit, ParseAt, ParseLeg, EmitLeg, AllShown, Load, Dangles;
  }

  lemma OnceIsAstray(voc: Vocabulary, st: Stmt, k: Tokens)
    requires st.Once?
    requires LegAstray(ParseLeg(voc, EmitLeg(voc, st.body, LoopCompact(st.body, st.block), true, k)), st.body, k)
    ensures StmtAstray(ParseStmt(voc, EmitStmt(voc, st, k)), st, k)
  {
    hide Emit, ParseAt, ParseLeg, EmitLeg, AllShown, Load, Dangles;
  }

  lemma LoopClear(voc: Vocabulary, st: Stmt)
    requires Formed(voc, st) && !Clear(voc, st) && (st.For? || st.While? || st.Once?)
    ensures AllFormed(voc, st.body) && (LoopCompact(st.body, st.block) ==> Single(st.body))
    ensures st.Once? ==> !AllClear(voc, st.body)
    ensures st.While?
            ==> Shape(voc, st.cond) && !(AllClear(voc, st.body) && HeaderBody(voc, st.cond, st.body, st.block))
    ensures st.For? ==> Shape(voc, st.start) && Shape(voc, st.end)
                        && !(AllClear(voc, st.body) && HeaderBody(voc, st.end, st.body, st.block))
  {
    hide Shape, HeaderBody, AllClear, AllFormed;
  }

  lemma {:induction false} LoopGoesAstray(voc: Vocabulary, st: Stmt, k: Tokens)
    requires Coherent(voc) && Formed(voc, st) && !Clear(voc, st) && (st.For? || st.While? || st.Once?)
    requires Dangles(st) ==> !Starts(k, Kw(KElse))
    ensures StmtAstray(ParseStmt(voc, EmitStmt(voc, st, k)), st, k)
    decreases st, 1
  {
    hide *;
    var b, block := st.body, st.block;
    LoopDangles(st);
    LoopClear(voc, st);
    if !AllClear(voc, b) {
      LegGoesAstray(voc, b, LoopCompact(b, block), true, k);
    }
    match st
    case For(_, _, z, _, _, _) =>
      ForStartParses(voc, st.start, st.down, Emit(voc, z, EmitLeg(voc, b, LoopCompact(b, block), true, k)));
      HeaderLeg(voc, z, b, block, k);
      ForIsAstray(voc, st, k);
    case While(c, _, _) =>
      HeaderLeg(voc, c, b, block, k);
      WhileIsAstray(voc, st, k);
    case Once(_, _) => OnceIsAstray(voc, st, k);
  }

  /** Behind a header that reads back or not, the leg goes astray. */
  lemma HeaderLeg(voc: Vocabulary, c: Expr, b: Stmts, block: bool, k: Tokens)
    requires Coherent(voc) && Shape(voc, c) && AllFormed(voc, b)
    requires HeaderBody(voc, c, b, block)
             ==> LegAstray(ParseLeg(voc, EmitLeg(voc, b, LoopCompact(b, block), true, k)), b, k)
    ensures var r := ParseAt(voc, 1, Emit(voc, c, EmitLeg(voc, b, LoopCompact(b, block), true, k)));
            r.Ok? ==> LegAstray(ParseLeg(voc, r.rest), b, k)
  {
    hide Coherent, Shape, AllFormed, Emit, ParseAt, ParseLeg, EmitLeg, LegAstray, HeaderBody;
    if HeaderBody(voc, c, b, block) {
      HeaderParses(voc, c, b, block, k);
    } else {
      JoinedIsLate(voc, c, b, block, k);
    }
  }

  lemma ForIsAstray(voc: Vocabulary, st: Stmt, k: Tokens)
    requires st.For?
    requires var s := Emit(voc, st.end, EmitLeg(voc, st.body, LoopCompact(st.body, st.block), true, k));
             var s1 := Cons(Kw(if st.down then KDownTo else KTo), s);
             && ParseAt(voc, 1, Emit(voc, st.start, s1)) == Ok(st.start, s1)
             && (ParseAt(voc, 1, s).Ok? ==> LegAstray(ParseLeg(voc, ParseAt(voc, 1, s).rest), st.body, k))
    ensures StmtAstray(ParseStmt(voc, EmitStmt(voc, st, k)), st, k)
  {
    hide Emit, ParseAt, ParseLeg, EmitLeg, AllShown, Load, Dangles;
  }

  lemma {:induction false} RepeatGoesAstray(voc: Vocabulary, st: Stmt, k: Tokens)
    requires Coherent(voc) && Formed(voc, st) && !Clear(voc, st) && st.Repeat?
    ensures StmtAstray(ParseStmt(voc, EmitStmt(voc, st, k)), st, k)
    decreases st, 1
  {
    hide Coherent, Shape, Emit, ParseAt, ParseUntil, AllShown, EmitStmts, Weight;
    var s1 := Emit(voc, st.cond, Cons(Semi, k));
    UntilGoesAstray(voc, st.body, s1);
    EmitWeighs(voc, st.cond, Cons(Semi, k));
    var b := ParseUntil(voc, EmitStmts(voc, st.body, Cons(Kw(KUntil), s1)));
    if b.Ok? {
      AtKeeps(voc, 1, b.rest);
    }
  }

  lemma {:induction false} IfGoesAstray(voc: Vocabulary, st: Stmt, k: Tokens)
    requires Coherent(voc) && Formed(voc, st) && !Clear(voc, st) && st.If?
    requires Dangles(st) ==> !Starts(k, Kw(KElse))
    ensures StmtAstray(ParseStmt(voc, EmitStmt(voc, st, k)), st, k)
    decreases st, 1
  {
    hide Coherent, Shape, Emit, ParseAt, ParseLeg, ParseStmt, Dangles, EmitLeg, EmitElse, Load, AllShown, StmtAstray,
         LegAstray, ReadLegs;
    var b, leg, tail := st.body, st.orElse, EmitElse(voc, st.orElse, k);
    var compact := ThenCompact(b, leg, st.thenBlock);
    var s1 := EmitLeg(voc, b, compact, leg.NoElse?, tail);
    OpenIfDangles(st);
    ElseStarts(voc, leg, k);
    ExpressionRoundTrip(voc, st.cond, Cons(Kw(KThen), s1));
    LegsRead(voc, Emit(voc, st.cond, Cons(Kw(KThen), s1)), st.cond, s1);
    if !AllClear(voc, b) {
      LegGoesAstray(voc, b, compact, leg.NoElse?, tail);
      ThenAstray(voc, st, s1, k);
    } else {
      var s2 := EmitLeg(voc, leg.body, ElseCompact(leg), true, k);
      LegParses(voc, b, compact, leg.NoElse?, tail);
      LegGoesAstray(voc, leg.body, ElseCompact(leg), true, k);
      ElseAstray(voc, st, s1, s2, k);
    }
  }

  lemma ElseStarts(voc: Vocabulary, leg: ElseLeg, k: Tokens)
    ensures if leg.Else? then
              EmitElse(voc, leg, k) == Cons(Kw(KElse), EmitLeg(voc, leg.body, ElseCompact(leg), true, k))
            else EmitElse(voc, leg, k) == k
  {
  }

  /** The legs of an If whose condition was read. */
  function ReadLegs(voc: Vocabulary, c: Expr, s1: Tokens): Parsed<Stmt> {
    match ParseLeg(voc, s1)
    case Fail => Fail
    case Ok(b, s2) =>
      if Starts(s2, Kw(KElse)) then
        match ParseLeg(voc, s2.tail)
        case Fail => Fail
        case Ok(eb, s3) => Ok(If(c, b.0, Else(eb.0, eb.1), b.1), s3)
      else Ok(If(c, b.0, NoElse, b.1), s2)
  }

  lemma LegsRead(voc: Vocabulary, s: Tokens, c: Expr, s1: Tokens)
    requires ParseAt(voc, 1, s) == Ok(c, Cons(Kw(KThen), s1))
    ensures ParseStmt(voc, Cons(Kw(KIf), s)) == ReadLegs(voc, c, s1)
  {
    hide ParseAt, ParseLeg;
    assert ParseIf(voc, s) == ReadLegs(voc, c, s1);
  }

  lemma LegsShown(st: Stmt)
    requires st.If?
    ensures var r := Shown(st);
            && r.If? && r.body == AllShown(st.body) && (r.orElse.Else? <==> st.orElse.Else?)
            && (st.orElse.Else? ==> r.orElse.body == AllShown(st.orElse.body))
  {
    hide AllShown, Dangles;
  }

  /** An Else leg read from too little. */
  lemma LateElse(voc: Vocabulary, st: Stmt, s: Tokens, k: Tokens)
    requires Coherent(voc) && Formed(voc, st) && st.If? && st.orElse.Else?
    requires Starts(s, Kw(KElse)) && Load(s) < Load(EmitElse(voc, st.orElse, k))
    ensures LegAstray(ParseLeg(voc, s.tail), st.orElse.body, k)
  {
    hide *;
    IfWeighs(voc, st, k);
    ElseIsWeightless(s);
    LegLate(voc, s.tail, st.orElse.body, k);
  }

  lemma ElseIsWeightless(s: Tokens)
    requires Starts(s, Kw(KElse))
    ensures s.Cons? && Load(s.tail) == Load(s)
  {
  }

  lemma ThenAstray(voc: Vocabulary, st: Stmt, s1: Tokens, k: Tokens)
    requires Coherent(voc) && Formed(voc, st) && st.If?
    requires LegAstray(ParseLeg(voc, s1), st.body, EmitElse(voc, st.orElse, k))
    ensures StmtAstray(ReadLegs(voc, st.cond, s1), st, k)
  {
    hide Coherent, Formed, ParseLeg, EmitElse, EmitLeg, AllShown, Shown, Load, ElseCompact, Shape, Dangles;
    LegsShown(st);
    ElseStarts(voc, st.orElse, k);
    var b := ParseLeg(voc, s1);
    if b.Ok? && Starts(b.rest, Kw(KElse)) && st.orElse.Else? {
      if Load(b.rest) < Load(EmitElse(voc, st.orElse, k)) {
        LateElse(voc, st, b.rest, k);
      }
    }
  }

  lemma ElseAstray(voc: Vocabulary, st: Stmt, s1: Tokens, s2: Tokens, k: Tokens)
    requires st.If? && st.orElse.Else?
    requires ParseLeg(voc, s1).Ok? && ParseLeg(voc, s1).rest == Cons(Kw(KElse), s2)
    requires LegAstray(ParseLeg(voc, s2), st.orElse.body, k)
    ensures StmtAstray(ReadLegs(voc, st.cond, s1), st, k)
  {
    LegsShown(st);
    hide ParseLeg, AllShown, Shown, Load;
  }

  lemma LegIsAstray(voc: Vocabulary, b: Stmts, closed: bool, k: Tokens)
    requires closed || Starts(k, Kw(KElse))
    requires var end := if closed then Cons(Semi, k) else k;
             Astray(ParseBlock(voc, EmitStmts(voc, b, Cons(Kw(KEnd), end))), b, Cons(Kw(KEnd), end))
    ensures LegAstray(ParseLeg(voc, EmitLeg(voc, b, false, closed, k)), b, k)
  {
    hide ParseStmt, ParseBlock, EmitStmts, AllShown;
    var end := if closed then Cons(Semi, k) else k;
    var r := ParseBlock(voc, EmitStmts(voc, b, Cons(Kw(KEnd), end)));
    assert Load(Cons(Kw(KEnd), end)) == Load(end) == Load(k);
    if r.Ok? && Starts(r.rest, Kw(KEnd)) {
      assert Load(r.rest) == Load(r.rest.tail);
      assert Starts(r.rest.tail, Semi) ==> Load(r.rest.tail) == Load(r.rest.tail.tail);
    }
  }

  lemma SingleIsAstray(voc: Vocabulary, b: Stmts, closed: bool, k: Tokens)
    requires Single(b) && StmtAstray(ParseStmt(voc, EmitStmt(voc, b.stmt, k)), b.stmt, k)
    requires EmitStmt(voc, b.stmt, k).Cons? && Opens(EmitStmt(voc, b.stmt, k).head)
    ensures LegAstray(ParseLeg(voc, EmitLeg(voc, b, true, closed, k)), b, k)
  {
    hide ParseStmt, EmitStmt, Shown, Load;
    assert AllShown(b) == MoreStmts(Shown(b.stmt), NoStmts);
  }

  lemma SingleClear(voc: Vocabulary, b: Stmts)
    requires AllFormed(voc, b) && !AllClear(voc, b)
    ensures b.MoreStmts? && Formed(voc, b.stmt) && AllFormed(voc, b.rest)
    ensures Clear(voc, b.stmt) ==> !AllClear(voc, b.rest)
    ensures Single(b) ==> !Clear(voc, b.stmt)
  {
    hide Formed, Clear;
  }

  lemma {:induction false} LegGoesAstray(voc: Vocabulary, b: Stmts, compact: bool, closed: bool, k: Tokens)
    requires Coherent(voc) && AllFormed(voc, b) && !AllClear(voc, b) && (compact ==> Single(b))
    requires compact && Dangles(b.stmt) ==> !Starts(k, Kw(KElse))
    requires closed || Starts(k, Kw(KElse))
    ensures LegAstray(ParseLeg(voc, EmitLeg(voc, b, compact, closed, k)), b, k)
    decreases b, 4
  {
    hide *;
    SingleClear(voc, b);
    if compact {
      StmtGoesAstray(voc, b.stmt, k);
      StmtOpens(voc, NO_HEADER, b.stmt, k);
      SingleIsAstray(voc, b, closed, k);
    } else {
      BlockGoesAstray(voc, b, if closed then Cons(Semi, k) else k);
      LegIsAstray(voc, b, closed, k);
    }
  }

  /** The first statement goes astray, or it reads back and the rest goes astray. */
  lemma {:induction false} BlockGoesAstray(voc: Vocabulary, b: Stmts, k: Tokens)
    requires Coherent(voc) && AllFormed(voc, b) && !AllClear(voc, b)
    ensures Astray(ParseBlock(voc, EmitStmts(voc, b, Cons(Kw(KEnd), k))), b, Cons(Kw(KEnd), k))
    decreases b, 3
  {
    hide Coherent, Formed, Clear, ParseStmt, Dangles, EmitStmt, Shown, Load, StmtsWeight;
    var s1 := EmitStmts(voc, b.rest, Cons(Kw(KEnd), k));
    NextOpens(voc, b.rest, Cons(Kw(KEnd), k));
    StmtOpens(voc, NO_HEADER, b.stmt, s1);
    if Clear(voc, b.stmt) {
      StmtReads(voc, b.stmt, s1);
      BlockGoesAstray(voc, b.rest, k);
    } else {
      StmtGoesAstray(voc, b.stmt, s1);
      StmtsWeigh(voc, b.rest, Cons(Kw(KEnd), k));
      var r := ParseStmt(voc, EmitStmt(voc, b.stmt, s1));
      if r.Ok? && Load(r.rest) < Load(s1) {
        Late(voc, r.rest, b.rest, Cons(Kw(KEnd), k));
      }
    }
  }

  lemma {:induction false} UntilGoesAstray(voc: Vocabulary, b: Stmts, k: Tokens)
    requires Coherent(voc) && AllFormed(voc, b) && !AllClear(voc, b)
    ensures Astray(ParseUntil(voc, EmitStmts(voc, b, Cons(Kw(KUntil), k))), b, k)
    decreases b, 3
  {
    hide Coherent, Formed, Clear, ParseStmt, Dangles, EmitStmt, Shown, StmtsWeight;
    var s1 := EmitStmts(voc, b.rest, Cons(Kw(KUntil), k));
    NextOpens(voc, b.rest, Cons(Kw(KUntil), k));
    StmtOpens(voc, NO_HEADER, b.stmt, s1);
    if Clear(voc, b.stmt) {
      StmtReads(voc, b.stmt, s1);
      UntilGoesAstray(voc, b.rest, k);
    } else {
      StmtGoesAstray(voc, b.stmt, s1);
      StmtsWeigh(voc, b.rest, Cons(Kw(KUntil), k));
      var r := ParseStmt(voc, EmitStmt(voc, b.stmt, s1));
      if r.Ok? && Load(r.rest) < Load(s1) {
        Late(voc, r.rest, b.rest, k);
      }
    }
  }

  lemma {:induction false} ProgramGoesAstray(voc: Vocabulary, p: Stmts)
    requires Coherent(voc) && AllFormed(voc, p) && !AllClear(voc, p)
    ensures Astray(ParseProgram(voc, EmitStmts(voc, p, Nil)), p, Nil)
    decreases p
  {
    hide Coherent, Formed, Clear, ParseStmt, Dangles, EmitStmt, Shown, Load, StmtsWeight;
    var s1 := EmitStmts(voc, p.rest, Nil);
    NextOpens(voc, p.rest, Nil);
    StmtOpens(voc, NO_HEADER, p.stmt, s1);
    if Clear(voc, p.stmt) {
      StmtReads(voc, p.stmt, s1);
      ProgramGoesAstray(voc, p.rest);
    } else {
      StmtGoesAstray(voc, p.stmt, s1);
      StmtsWeigh(voc, p.rest, Nil);
      var r := ParseStmt(voc, EmitStmt(voc, p.stmt, s1));
      if r.Ok? && Load(r.rest) < Load(s1) {
        Late(voc, r.rest, p.rest, Nil);
      }
    }
  }

  /** Where no foreign Else follows an open Then, a statement of the parser's shape reads back as
      itself exactly when it is clear. */
  lemma StmtReadsExactly(voc: Vocabulary, st: Stmt, k: Tokens)
    requires Coherent(voc) && Formed(voc, st) && (Dangles(st) ==> !Starts(k, Kw(KElse)))
    ensures ParseStmt(voc, EmitStmt(voc, st, k)) == Ok(Shown(st), k) <==> Clear(voc, st)
  {
    hide Coherent, Formed, Clear, ParseStmt, EmitStmt, Shown, Dangles;
    if Clear(voc, st) {
      StmtReads(voc, st, k);
    } else {
      StmtGoesAstray(voc, st, k);
    }
  }

  /** A whole program reads back exactly when every statement in it is clear. */
  lemma ProgramReadsExactly(voc: Vocabulary, p: Stmts)
    requires Coherent(voc) && AllFormed(voc, p)
    ensures ParseProgram(voc, EmitStmts(voc, p, Nil)) == Ok(AllShown(p), Nil) <==> AllClear(voc, p)
  {
    hide Coherent, AllFormed, AllClear, ParseProgram, EmitStmts, AllShown;
    if AllClear(voc, p) {
      ProgramRoundTrip(voc, p);
    } else {
      ProgramGoesAstray(voc, p);
    }
  }
}
