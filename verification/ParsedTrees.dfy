/** Every tree the parser returns has the shape the emitter's round trip needs, so the round
    trip holds on parsed programs and not just on a chosen class of trees. */
module ParsedTrees {
  import opened Sequences
  import opened Syntax
  import opened Grammar
  import opened Emitter
  import opened Statements
  import opened StmtRoundTrip
  import opened Programs
  import opened ReadBack

  // ---- Expressions ----------------------------------------------------------------------

  predicate Shaped(voc: Vocabulary, r: Parsed<Expr>) {
    r.Ok? ==> Shape(voc, r.value)
  }

  predicate ArgsShaped(voc: Vocabulary, r: Parsed<Args>) {
    r.Ok? ==> ArgsShape(voc, r.value)
  }

  lemma InfixShape(voc: Vocabulary, e: Expr)
    requires Infix(e) && Shape(voc, e.left) && Shape(voc, e.right)
    ensures Shape(voc, e)
  {
  }

  lemma JoinShape(voc: Vocabulary, t: Token, l: Expr, r: Expr)
    requires InfixLevel(t) > 0 && Shape(voc, l) && Shape(voc, r)
    ensures Shape(voc, Join(t, l, r))
  {
    hide Join, Shape;
    InfixShape(voc, Join(t, l, r));
  }

  lemma TickShape(voc: Vocabulary, e: Expr)
    requires Coherent(voc) && Shape(voc, e)
    ensures Shape(voc, Binary(Times, e, TICK))
  {
    assert Shape(voc, PosKw("minmove")) && Shape(voc, PosKw("pricescale"));
    assert Shape(voc, TICK);
  }

  /** Every tree the expression parser returns, at any level. */
  lemma {:induction false} ParsedHasShape(voc: Vocabulary, lvl: nat, s: Tokens)
    requires Coherent(voc) && 1 <= lvl <= 7
    ensures Shaped(voc, ParseAt(voc, lvl, s))
    decreases Length(s), 9 - lvl
  {
    hide Coherent, ParseMore, ParsePrimary;
    if lvl == 3 && Starts(s, Kw(KNot)) {
      ParsedHasShape(voc, 3, s.tail);
    } else if lvl == 7 && (Starts(s, Op(SMinus)) || Starts(s, Op(SPlus))) {
      ParsedHasShape(voc, 7, s.tail);
    } else if lvl == 7 {
      PrimaryHasShape(voc, s);
      if ParsePrimary(voc, s).Ok? {
        TickShape(voc, ParsePrimary(voc, s).value);
      }
    } else {
      ParsedHasShape(voc, lvl + 1, s);
      var r := ParseAt(voc, lvl + 1, s);
      if lvl != 3 && r.Ok? {
        MoreHasShape(voc, lvl, r.value, r.rest);
      }
    }
  }

  lemma {:induction false} MoreHasShape(voc: Vocabulary, lvl: nat, left: Expr, s: Tokens)
    requires Coherent(voc) && 1 <= lvl <= 6 && Shape(voc, left)
    ensures Shaped(voc, ParseMore(voc, lvl, left, s))
    decreases Length(s), 0
  {
    hide Coherent, ParseAt, Shape, Join;
    if NextLevel(s) == lvl {
      ParsedHasShape(voc, lvl + 1, s.tail);
      var r := ParseAt(voc, lvl + 1, s.tail);
      if r.Ok? {
        JoinShape(voc, s.head, left, r.value);
        MoreHasShape(voc, lvl, Join(s.head, left, r.value), r.rest);
      }
    }
  }

  lemma {:induction false} ClosedHasShape(voc: Vocabulary, s: Tokens, close: Token)
    requires Coherent(voc)
    ensures Shaped(voc, ParseClosed(voc, s, close))
    decreases Length(s), 10
  {
    hide Coherent, ParseAt, Shape;
    ParsedHasShape(voc, 1, s);
  }

  lemma {:induction false} ArgsHaveShape(voc: Vocabulary, s: Tokens)
    requires Coherent(voc)
    ensures ArgsShaped(voc, ParseArgs(voc, s))
    decreases Length(s), 10
  {
    hide Coherent, ParseAt, Shape;
    ParsedHasShape(voc, 1, s);
    var r := ParseAt(voc, 1, s);
    if r.Ok? {
      assert ArgsShape(voc, MoreArgs(r.value, NoArgs));
      if Starts(r.rest, Comma) {
        ArgsHaveShape(voc, r.rest.tail);
      }
    }
  }

  lemma {:induction false} CallArgsHaveShape(voc: Vocabulary, s: Tokens)
    requires Coherent(voc)
    ensures ArgsShaped(voc, ParseCallArgs(voc, s))
    decreases Length(s), 11
  {
    hide Coherent, ParseArgs;
    ArgsHaveShape(voc, s);
  }

  /** What may carry an index. */
  predicate Indexable(voc: Vocabulary, node: Expr) {
    node.Ident? || node.Call? || (node.PosKw? && IsPositionKwarg(voc, node.kwarg))
  }

  lemma {:induction false} IndexHasShape(voc: Vocabulary, node: Expr, s: Tokens)
    requires Coherent(voc) && Indexable(voc, node) && Shape(voc, node)
    ensures Shaped(voc, ParseIndex(voc, node, s))
    decreases Length(s), 1
  {
    hide Coherent, ParseClosed;
    if Starts(s, LBr) {
      ClosedHasShape(voc, s.tail, RBr);
    }
  }

  /** A name of its own: kept by Resolve and classified Plain. */
  lemma {:induction false} NamedHasShape(voc: Vocabulary, name: string, s: Tokens)
    requires Coherent(voc) && Classify(voc, name, Starts(s, LPar)) == Plain
    requires !Starts(s, LPar) ==> IsSelf(voc, name)
    ensures Shaped(voc, ParseNamed(voc, name, s))
    decreases Length(s), 2
  {
    hide Coherent, ParseIndex, ParseCallArgs, Classify, IsSelf;
    if Starts(s, LPar) {
      CallArgsHaveShape(voc, s.tail);
      var r := ParseCallArgs(voc, s.tail);
      if r.Ok? {
        IndexHasShape(voc, Call(name, r.value), r.rest);
      }
    } else {
      IndexHasShape(voc, Ident(name), s);
    }
  }

  lemma {:induction false} PositionHasShape(voc: Vocabulary, kw: string, s: Tokens)
    requires Coherent(voc) && IsPositionKwarg(voc, kw)
    ensures Shaped(voc, ParsePosition(voc, kw, s))
    decreases Length(s), 2
  {
    hide Coherent, ParseIndex, ParseAt, ParseClosed;
    if Starts(s, LPar) {
      ParsedHasShape(voc, 1, s.tail);
      var r := ParseAt(voc, 1, s.tail);
      if r.Ok? {
        assert Shape(voc, PosKw(kw));
        if Starts(r.rest, Comma) {
          ClosedHasShape(voc, r.rest.tail, RPar);
        }
      }
    } else {
      IndexHasShape(voc, PosKw(kw), s);
    }
  }

  /** What the keyword tables promise about a resolved spelling. */
  lemma ResolvedFacts(voc: Vocabulary, name: string, called: bool)
    requires Coherent(voc)
    ensures var val := Resolve(voc, name, called);
            && (IsSelf(voc, val) || (called && Classify(voc, val, true) == Plain && val !in voc.dataSources))
            && (val in voc.positionWords ==> IsPositionKwarg(voc, voc.positionWords[val]))
            && (val in voc.seriesWords ==> voc.seriesWords[val] in voc.spelling)
            && (val in voc.mcWords ==> voc.mcWords[val] in voc.mcSpelling)
  {
  }

  /** The keyword and constant leaves an identifier can stand for. */
  lemma LeafHasShape(voc: Vocabulary, val: string, called: bool)
    requires val in voc.positionWords ==> IsPositionKwarg(voc, voc.positionWords[val])
    requires val in voc.seriesWords ==> voc.seriesWords[val] in voc.spelling
    requires val in voc.mcWords ==> voc.mcWords[val] in voc.mcSpelling
    requires IsSelf(voc, val) || Classify(voc, val, called) == Plain
    ensures var c := Classify(voc, val, called);
            && (c == SymbolInfo && val in voc.seriesWords ==> Shape(voc, PosKw(voc.seriesWords[val])))
            && (c == Series ==> Shape(voc, PosKw(voc.seriesWords[val])))
            && (c == Constant ==> Shape(voc, Number(voc.constants[val], Some(val))))
            && (c == McWord ==> Shape(voc, McKw(voc.mcWords[val])))
            && (c == Plain && !called && val in voc.dataSources && IsSelf(voc, val)
                ==> forall n :: Shape(voc, DataOf(val, n)))
  {
    hide Resolve;
  }

  /** What each reading of an identifier returns decides what the identifier returns. */
  lemma IdentParts(voc: Vocabulary, val: string, s: Tokens)
    requires Shaped(voc, ParseIndex(voc, Ident(INTERNAL_MARKET_POSITION), s))
    requires val in voc.positionWords ==> Shaped(voc, ParsePosition(voc, voc.positionWords[val], s))
    requires val in voc.seriesWords ==> Shaped(voc, ParseSymbolInfo(voc, voc.seriesWords[val], s))
    requires Classify(voc, val, Starts(s, LPar)) == Series ==> Shape(voc, PosKw(voc.seriesWords[val]))
    requires Classify(voc, val, Starts(s, LPar)) == Constant ==> Shape(voc, Number(voc.constants[val], Some(val)))
    requires Classify(voc, val, Starts(s, LPar)) == McWord ==> Shape(voc, McKw(voc.mcWords[val]))
    requires Classify(voc, val, Starts(s, LPar)) == Plain ==> Shaped(voc, ParseNamed(voc, val, s))
    requires Classify(voc, val, Starts(s, LPar)) == Plain && val in voc.dataSources && ReadDataSuffix(s).DataStream?
             ==> Shape(voc, DataOf(val, ReadDataSuffix(s).num))
    ensures Shaped(voc, ParseIdentPrimary(voc, val, s))
  {
    hide ParseNamed, ParsePosition, ParseSymbolInfo, ParseIndex, ReadDataSuffix, Shape;
  }

  lemma SymbolInfoHasShape(voc: Vocabulary, val: string, s: Tokens)
    requires Coherent(voc) && val in voc.seriesWords
    ensures Shaped(voc, ParseSymbolInfo(voc, voc.seriesWords[val], s))
  {
    hide ParseClosed;
    assert voc.seriesWords[val] in voc.spelling;
  }

  lemma CalledIsNoData(s: Tokens)
    ensures Starts(s, LPar) ==> ReadDataSuffix(s).NotData?
  {
  }

  /** The leaves of the resolved name. */
  lemma ResolvedLeaves(voc: Vocabulary, name: string, s: Tokens)
    requires Coherent(voc)
    ensures var val := Resolve(voc, name, Starts(s, LPar));
            && (val in voc.positionWords ==> IsPositionKwarg(voc, voc.positionWords[val]))
            && (Classify(voc, val, Starts(s, LPar)) == Series ==> Shape(voc, PosKw(voc.seriesWords[val])))
            && (Classify(voc, val, Starts(s, LPar)) == Constant ==> Shape(voc, Number(voc.constants[val], Some(val))))
            && (Classify(voc, val, Starts(s, LPar)) == McWord ==> Shape(voc, McKw(voc.mcWords[val])))
            && (Classify(voc, val, Starts(s, LPar)) == Plain && !Starts(s, LPar) ==> IsSelf(voc, val))
            && (Classify(voc, val, Starts(s, LPar)) == Plain && val in voc.dataSources && ReadDataSuffix(s).DataStream?
                ==> Shape(voc, DataOf(val, ReadDataSuffix(s).num)))
  {
    var called := Starts(s, LPar);
    var val := Resolve(voc, name, called);
    CalledIsNoData(s);
    ResolvedFacts(voc, name, called);
    hide Coherent, Resolve, Classify, IsSelf, IsPositionKwarg, Shape, ReadDataSuffix;
    LeafHasShape(voc, val, called);
  }

  lemma {:induction false} IdentHasShape(voc: Vocabulary, name: string, s: Tokens)
    requires Coherent(voc)
    ensures Shaped(voc, ParseIdentPrimary(voc, Resolve(voc, name, Starts(s, LPar)), s))
    decreases Length(s), 3
  {
    hide *;
    var val := Resolve(voc, name, Starts(s, LPar));
    ResolvedLeaves(voc, name, s);
    InternalHasShape(voc);
    IndexHasShape(voc, Ident(INTERNAL_MARKET_POSITION), s);
    if val in voc.positionWords {
      PositionHasShape(voc, voc.positionWords[val], s);
    }
    if val in voc.seriesWords {
      SymbolInfoHasShape(voc, val, s);
    }
    if Classify(voc, val, Starts(s, LPar)) == Plain {
      NamedHasShape(voc, val, s);
    }
    IdentParts(voc, val, s);
  }

  lemma InternalHasShape(voc: Vocabulary)
    ensures Shape(voc, Ident(INTERNAL_MARKET_POSITION)) && Indexable(voc, Ident(INTERNAL_MARKET_POSITION))
  {
  }

  lemma CrossesHasShape(voc: Vocabulary, above: bool, es: Args)
    requires ArgsShape(voc, es)
    ensures CrossesOf(above, es).Some? ==> Shape(voc, CrossesOf(above, es).value)
  {
  }

  lemma {:induction false} KeywordCallHasShape(voc: Vocabulary, w: Word, s: Tokens)
    requires Coherent(voc)
    ensures Shaped(voc, ParseKeywordCall(voc, w, s))
    decreases Length(s), 3
  {
    hide Coherent, ParseAt, ParseClosed, ParseCallArgs, CrossesOf;
    if Starts(s, LPar) {
      if w == KMod {
        ParsedHasShape(voc, 1, s.tail);
        var r := ParseAt(voc, 1, s.tail);
        if r.Ok? && Starts(r.rest, Comma) {
          ClosedHasShape(voc, r.rest.tail, RPar);
        }
      } else {
        CallArgsHaveShape(voc, s.tail);
        var r := ParseCallArgs(voc, s.tail);
        if r.Ok? {
          CrossesHasShape(voc, w == KCrossesAbove, r.value);
        }
      }
    }
  }

  lemma {:induction false} PrimaryHasShape(voc: Vocabulary, s: Tokens)
    requires Coherent(voc)
    ensures Shaped(voc, ParsePrimary(voc, s))
    decreases Length(s), 1
  {
    hide Coherent, ParseIdentPrimary, ParseKeywordCall, ParseClosed, Resolve;
    if s.Cons? {
      match s.head
      case Id(name) => IdentHasShape(voc, name, s.tail);
      case Kw(w) => KeywordCallHasShape(voc, w, s.tail);
      case LPar => ClosedHasShape(voc, s.tail, RPar);
      case _ =>
    }
  }

  // ---- Statements ------------------------------------------------------------------------

  /** What the parser leaves behind: a well-formed statement whose flags say what its emission
      will show, and no Else after one that ends in an open Then. */
  predicate Settled(voc: Vocabulary, st: Stmt, k: Tokens) {
    && Formed(voc, st)
    && Shown(st) == st
    && (Dangles(st) ==> !Starts(k, Kw(KElse)))
  }

  predicate AllSettled(voc: Vocabulary, sts: Stmts) {
    AllFormed(voc, sts) && AllShown(sts) == sts
  }

  predicate LegSettled(voc: Vocabulary, leg: (Stmts, bool), k: Tokens) {
    && AllSettled(voc, leg.0)
    && (leg.1 || Single(leg.0))
    && (!leg.1 && Dangles(leg.0.stmt) ==> !Starts(k, Kw(KElse)))
  }

  lemma TargetHasShape(voc: Vocabulary, name: string, s: Tokens)
    requires Coherent(voc) && name !in voc.statementWords
    ensures var r := ParseNamed(voc, name, s);
            r.Ok? ==> TargetShape(voc, r.value)
  {
    hide Coherent, ParseCallArgs, ParseClosed, Shape, ArgsShape;
    if Starts(s, LPar) {
      CallArgsHaveShape(voc, s.tail);
      var r := ParseCallArgs(voc, s.tail);
      if r.Ok? && Starts(r.rest, LBr) {
        ClosedHasShape(voc, r.rest.tail, RBr);
      }
    } else if Starts(s, LBr) {
      ClosedHasShape(voc, s.tail, RBr);
    }
  }

  lemma ExprStmtSettles(voc: Vocabulary, s: Tokens)
    requires Coherent(voc)
    ensures var r := ParseExprStmt(voc, s);
            r.Ok? ==> Settled(voc, r.value, r.rest)
  {
    hide Coherent, ParseAt, Shape;
    ParsedHasShape(voc, 1, s);
  }

  lemma SimpleSettles(voc: Vocabulary, s: Tokens)
    requires Coherent(voc) && (StartsWithId(s) ==> s.head.name !in voc.statementWords)
    ensures var r := ParseSimple(voc, s);
            r.Ok? ==> Settled(voc, r.value, r.rest)
  {
    hide Coherent, ParseAt, ParseNamed, ParseExprStmt, Shape, TargetShape;
    ExprStmtSettles(voc, s);
    if StartsWithId(s) {
      TargetHasShape(voc, s.head.name, s.tail);
      var r := ParseNamed(voc, s.head.name, s.tail);
      if r.Ok? && AssignsWith(r.value, r.rest) {
        ParsedHasShape(voc, 1, r.rest.tail);
      }
    }
  }

  lemma {:induction false} StmtSettles(voc: Vocabulary, s: Tokens)
    requires Coherent(voc)
    ensures var r := ParseStmt(voc, s);
            r.Ok? ==> Settled(voc, r.value, r.rest)
    decreases Length(s), 0
  {
    hide Coherent, ParseAt, ParseSimple, ParseLeg, ParseUntil, Shape, AllFormed, AllShown, Dangles, HeaderBody,
         ParseIf, ParseFor;
    if s.Cons? {
      match s.head
      case Kw(KIf) => IfSettles(voc, s.tail);
      case Kw(KFor) => ForSettles(voc, s.tail);
      case Kw(KWhile) => WhileSettles(voc, s);
      case Kw(KRepeat) => RepeatSettles(voc, s);
      case Kw(KOnce) => OnceSettles(voc, s);
      case Kw(KBreak) => WordSettles(voc, Break);
      case Kw(KContinue) => WordSettles(voc, Continue);
      case Kw(KAbort) => WordSettles(voc, Abort);
      case Id(n) => if n !in voc.statementWords { SimpleSettles(voc, s); }
      case LBr =>
      case _ => SimpleSettles(voc, s);
    }
  }

  lemma WordSettles(voc: Vocabulary, st: Stmt)
    requires st.Break? || st.Continue? || st.Abort?
    ensures forall k :: Settled(voc, st, k)
  {
  }

  lemma {:induction false} WhileSettles(voc: Vocabulary, s: Tokens)
    requires Coherent(voc) && Starts(s, Kw(KWhile))
    ensures var r := ParseStmt(voc, s);
            r.Ok? ==> Settled(voc, r.value, r.rest)
    decreases Length(s.tail), 4
  {
    hide Coherent, ParseAt, ParseLeg, Shape, AllFormed, AllShown, Joins;
    ParsedHasShape(voc, 1, s.tail);
    var c := ParseAt(voc, 1, s.tail);
    if c.Ok? {
      LegSettles(voc, c.rest);
    }
  }

  lemma {:induction false} RepeatSettles(voc: Vocabulary, s: Tokens)
    requires Coherent(voc) && Starts(s, Kw(KRepeat))
    ensures var r := ParseStmt(voc, s);
            r.Ok? ==> Settled(voc, r.value, r.rest)
    decreases Length(s.tail), 4
  {
    hide Coherent, ParseAt, ParseUntil, Shape, AllFormed, AllShown;
    UntilSettles(voc, s.tail);
    var b := ParseUntil(voc, s.tail);
    if b.Ok? {
      ParsedHasShape(voc, 1, b.rest);
    }
  }

  lemma {:induction false} OnceSettles(voc: Vocabulary, s: Tokens)
    requires Coherent(voc) && Starts(s, Kw(KOnce))
    ensures var r := ParseStmt(voc, s);
            r.Ok? ==> Settled(voc, r.value, r.rest)
    decreases Length(s.tail), 4
  {
    hide Coherent, ParseAt, ParseLeg, AllFormed, AllShown;
    LegSettles(voc, s.tail);
  }

  lemma {:induction false} LegSettles(voc: Vocabulary, s: Tokens)
    requires Coherent(voc)
    ensures var r := ParseLeg(voc, s);
            r.Ok? ==> LegSettled(voc, r.value, r.rest)
    decreases Length(s), 1
  {
    hide Coherent, ParseStmt, ParseBlock, Formed, Shown, Dangles;
    if Starts(s, Kw(KBegin)) {
      BlockSettles(voc, s.tail);
    } else {
      StmtSettles(voc, s);
      var r := ParseStmt(voc, s);
      if r.Ok? {
        AddSettled(voc, r.value, r.rest, NoStmts);
      }
    }
  }

  lemma AddSettled(voc: Vocabulary, st: Stmt, k: Tokens, sts: Stmts)
    requires Settled(voc, st, k) && AllSettled(voc, sts)
    ensures AllSettled(voc, MoreStmts(st, sts))
  {
    hide Formed, Shown;
  }

  lemma {:induction false} BlockSettles(voc: Vocabulary, s: Tokens)
    requires Coherent(voc)
    ensures var r := ParseBlock(voc, s);
            r.Ok? ==> AllSettled(voc, r.value)
    decreases Length(s), 2
  {
    hide Coherent, ParseStmt, Formed, Shown, Dangles;
    if Starts(s, Semi) {
      BlockSettles(voc, s.tail);
    } else if s.Cons? && !Starts(s, Kw(KEnd)) {
      StmtSettles(voc, s);
      var r := ParseStmt(voc, s);
      if r.Ok? {
        BlockSettles(voc, r.rest);
        if ParseBlock(voc, r.rest).Ok? {
          AddSettled(voc, r.value, r.rest, ParseBlock(voc, r.rest).value);
        }
      }
    }
  }

  lemma {:induction false} UntilSettles(voc: Vocabulary, s: Tokens)
    requires Coherent(voc)
    ensures var r := ParseUntil(voc, s);
            r.Ok? ==> AllSettled(voc, r.value)
    decreases Length(s), 2
  {
    hide Coherent, ParseStmt, Formed, Shown, Dangles;
    if s.Cons? && !Starts(s, Kw(KUntil)) {
      StmtSettles(voc, s);
      var r := ParseStmt(voc, s);
      if r.Ok? {
        UntilSettles(voc, r.rest);
        if ParseUntil(voc, r.rest).Ok? {
          AddSettled(voc, r.value, r.rest, ParseUntil(voc, r.rest).value);
        }
      }
    }
  }

  /** An Else is taken by the nearest If that can take it, so a then leg before one never ends
      in an open Then. */
  lemma IfSettled(voc: Vocabulary, c: Expr, b: (Stmts, bool), leg: ElseLeg, k: Tokens)
    requires Shape(voc, c) && AllSettled(voc, b.0) && (b.1 || Single(b.0))
    requires leg.NoElse? ==> !Starts(k, Kw(KElse))
    requires leg.Else? && !b.1 ==> !Dangles(b.0.stmt)
    requires leg.Else? ==> LegSettled(voc, (leg.body, leg.block), k)
    ensures Settled(voc, If(c, b.0, leg, b.1), k)
  {
    hide Shape, AllFormed, AllShown;
    assert ElseShown(leg) == leg;
  }

  lemma {:induction false} IfSettles(voc: Vocabulary, s: Tokens)
    requires Coherent(voc)
    ensures var r := ParseIf(voc, s);
            r.Ok? ==> Settled(voc, r.value, r.rest)
    decreases Length(s), 3
  {
    hide Coherent, ParseAt, ParseLeg, Shape, AllSettled, Settled, Dangles;
    ParsedHasShape(voc, 1, s);
    var c := ParseAt(voc, 1, s);
    if c.Ok? && Starts(c.rest, Kw(KThen)) {
      LegSettles(voc, c.rest.tail);
      var b := ParseLeg(voc, c.rest.tail);
      if b.Ok? {
        if Starts(b.rest, Kw(KElse)) {
          LegSettles(voc, b.rest.tail);
          var eb := ParseLeg(voc, b.rest.tail);
          if eb.Ok? {
            IfSettled(voc, c.value, b.value, Else(eb.value.0, eb.value.1), eb.rest);
          }
        } else {
          IfSettled(voc, c.value, b.value, NoElse, b.rest);
        }
      }
    }
  }

  lemma {:induction false} ForSettles(voc: Vocabulary, s: Tokens)
    requires Coherent(voc)
    ensures var r := ParseFor(voc, s);
            r.Ok? ==> Settled(voc, r.value, r.rest)
    decreases Length(s), 3
  {
    hide Coherent, ParseAt, ParseLeg, Shape, AllFormed, AllShown, Joins;
    if StartsWithId(s) && Starts(s.tail, Op(SEq)) {
      ParsedHasShape(voc, 1, s.tail.tail);
      var a := ParseAt(voc, 1, s.tail.tail);
      if a.Ok? && a.rest.Cons? {
        ParsedHasShape(voc, 1, a.rest.tail);
        var z := ParseAt(voc, 1, a.rest.tail);
        if z.Ok? {
          assert Length(s) == 2 + Length(s.tail.tail);
          LegSettles(voc, z.rest);
        }
      }
    }
  }

  /** The dangling-else test is exact: before an Else that is not its own, a statement reads back
      as itself exactly when it is clear and does not dangle. */
  lemma DanglesExactly(voc: Vocabulary, st: Stmt, k: Tokens)
    requires Coherent(voc) && Formed(voc, st) && Starts(k, Kw(KElse))
    ensures ParseStmt(voc, EmitStmt(voc, st, k)) == Ok(Shown(st), k) <==> Clear(voc, st) && !Dangles(st)
  {
    hide Coherent, Formed, ParseStmt, EmitStmt, Shown, Dangles, Clear;
    if Dangles(st) {
      StmtSettles(voc, EmitStmt(voc, st, k));
      ShownDangles(st);
    } else {
      StmtReadsExactly(voc, st, k);
    }
  }

  // ---- Programs ----------------------------------------------------------------------------

  lemma {:induction false} ProgramSettles(voc: Vocabulary, s: Tokens)
    requires Coherent(voc)
    ensures var r := ParseProgram(voc, s);
            r.Ok? ==> AllSettled(voc, r.value)
    decreases Length(s)
  {
    hide Coherent, ParseStmt, Formed, Shown, Dangles;
    if Starts(s, Semi) {
      ProgramSettles(voc, s.tail);
    } else if s.Cons? {
      StmtSettles(voc, s);
      var r := ParseStmt(voc, s);
      if r.Ok? {
        ProgramSettles(voc, r.rest);
        if ParseProgram(voc, r.rest).Ok? {
          AddSettled(voc, r.value, r.rest, ParseProgram(voc, r.rest).value);
        }
      }
    }
  }

  /** parse . emit . parse == parse, exactly on the clear programs: what any token stream parses to
      reparses after emission to the very same program, Begin/End flags included, if and only if
      none of its statements is one of the three that `Clear` names. */
  lemma ParsedProgramsRoundTrip(voc: Vocabulary, s: Tokens)
    requires Coherent(voc) && ParseProgram(voc, s).Ok?
    ensures var p := ParseProgram(voc, s).value;
            ParseProgram(voc, EmitStmts(voc, p, Nil)) == Ok(p, Nil) <==> AllClear(voc, p)
  {
    hide Coherent, ParseProgram, AllClear, AllFormed, AllShown, EmitStmts;
    ProgramSettles(voc, s);
    ProgramReadsExactly(voc, ParseProgram(voc, s).value);
  }
}
