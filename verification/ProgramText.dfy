/** The whole way: statements are written as text with the comments of their source, the text is
    read back, and what comes back is the statements and the comments. */
module ProgramText {
  import opened Sequences
  import opened Lexer
  import opened LexerGaps
  import opened Layout
  import opened Comments
  import opened CommentLayout
  import opened CommentPrinting
  import opened CommentReading
  import opened CommentTheorem
  import opened EmissionTheorem
  import opened TokenText
  import opened SourceText
  import opened EmittedInStep
  import opened WrittenPrograms

  // ---- The pieces of a statement ----------------------------------------------------------------

  /** A statement without legs, up to its semicolon. */
  function PieceText(voc: Y.Vocabulary, casing: map<string, string>, st: S.Stmt): string {
    match st
    case Assign(t, e) => ExprText(voc, casing, t) + (if t.Call? then " := " else " = ") + ExprText(voc, casing, e)
    case ExprStmt(e) => ExprText(voc, casing, e)
    case Break => "Break"
    case Continue => "Continue"
    case _ => "Abort"
  }

  /** What stands before the leg of a statement. */
  function HeadText(voc: Y.Vocabulary, casing: map<string, string>, st: S.Stmt): string {
    match st
    case If(c, _, _, _) => "If " + (ExprText(voc, casing, c) + " Then ")
    case For(v, a, z, down, _, _) =>
      "For " + (Cased(casing, v) + " = " + (ExprText(voc, casing, a) + (if down then " downto " else " to ")
                                            + (ExprText(voc, casing, z) + " ")))
    case While(c, _, _) => "While " + (ExprText(voc, casing, c) + " ")
    case _ => "Once "
  }

  /** Every name, number and literal of the statement can be printed. */
  predicate StmtPrintable(voc: Y.Vocabulary, words: map<string, Y.Word>, casing: map<string, string>, st: S.Stmt)
    decreases st
  {
    match st
    case Assign(t, e) => Printable(voc, words, casing, t) && Printable(voc, words, casing, e)
    case ExprStmt(e) => Printable(voc, words, casing, e)
    case If(c, b, leg, _) =>
      && Printable(voc, words, casing, c) && AllPrintable(voc, words, casing, b)
      && (leg.Else? ==> AllPrintable(voc, words, casing, leg.body))
    case For(v, a, z, _, b, _) =>
      && NameText(words, casing, v) && Printable(voc, words, casing, a) && Printable(voc, words, casing, z)
      && AllPrintable(voc, words, casing, b)
    case While(c, b, _) => Printable(voc, words, casing, c) && AllPrintable(voc, words, casing, b)
    case Repeat(b, c) => AllPrintable(voc, words, casing, b) && Printable(voc, words, casing, c)
    case Once(b, _) => AllPrintable(voc, words, casing, b)
    case _ => true
  }

  predicate AllPrintable(voc: Y.Vocabulary, words: map<string, Y.Word>, casing: map<string, string>, sts: S.Stmts)
    decreases sts
  {
    sts.MoreStmts? ==> StmtPrintable(voc, words, casing, sts.stmt) && AllPrintable(voc, words, casing, sts.rest)
  }

  predicate Legless(st: S.Stmt) {
    st.Assign? || st.ExprStmt? || st.Break? || st.Continue? || st.Abort?
  }

  lemma PieceReads(voc: Y.Vocabulary, words: map<string, Y.Word>, casing: map<string, string>, st: S.Stmt, k: Y.Tokens)
    requires KeywordTable(words) && StmtPrintable(voc, words, casing, st) && Legless(st)
    ensures var t := PieceText(voc, casing, st);
            Reads(words, t, Y.Cons(Y.Semi, k), S.EmitStmt(voc, st, k)) && StartsCode(t)
  {
    hide KeywordTable, Reads, Infix, Prefix, Printable, ExprText, StartsCode, E.Emit;
    var k1 := Y.Cons(Y.Semi, k);
    match st
    case Assign(t, e) =>
      var o := if t.Call? then ":=" else "=";
      Operator(words, o, if t.Call? then " := " else " = ");
      var x, y, s1 := ExprText(voc, casing, t), ExprText(voc, casing, e), E.Emit(voc, e, k1);
      ExprReads(voc, words, casing, e, k1);
      ExprReads(voc, words, casing, t, Y.Cons(SymbolToken(o), s1));
      InfixReads(words, x, if t.Call? then " := " else " = ", SymbolToken(o), y, k1, s1,
                 E.Emit(voc, t, Y.Cons(SymbolToken(o), s1)));
      StillStarts(x, if t.Call? then " := " else " = ");
      StillStarts(x + (if t.Call? then " := " else " = "), y);
    case ExprStmt(e) => ExprReads(voc, words, casing, e, k1);
    case Break => KeywordText(words, Y.KBreak);
    case Continue => KeywordText(words, Y.KContinue);
    case Abort => KeywordText(words, Y.KAbort);
  }

  lemma BlankSuffix(words: map<string, Y.Word>, x: string, k: Y.Tokens, s: Y.Tokens)
    requires Reads(words, x, k, s) && StartsCode(x)
    ensures Reads(words, x + " ", k, s)
  {
    PlainCode(" ");
    CodeCloses(x);
    PartsBounds(x, " ");
    assert SecondWord(" ").None?;
    assert AllBlank(" ") && " " + [] == " ";
    LexSkips(" ", []);
    EmptyLexes();
    hide Lex, CodeText, Closed, SecondWord, Onto;
    CodeJoins(x, " ");
    LexSplits(x, " ");
    assert Lex(x).tokens + [] == Lex(x).tokens;
  }

  /** A keyword, and a text that ends blank. */
  lemma KeywordHead(words: map<string, Y.Word>, w: Y.Word, y: string, k: Y.Tokens, s: Y.Tokens)
    requires KeywordTable(words) && Spelling(w) != [] && Reads(words, y, k, s) && y[|y| - 1] == ' '
    ensures var t := Spelling(w) + " " + y;
            Reads(words, t, k, Y.Cons(Y.Kw(w), s)) && Head(t)
  {
    KeywordText(words, w);
    hide KeywordTable, Infix, Prefix, Spelling, Lex, CodeText, StartsCode, Onto;
    PrefixReads(words, Spelling(w) + " ", Y.Kw(w), y, k, s);
    StillStarts(Spelling(w), " ");
    StillStarts(Spelling(w) + " ", y);
  }

  lemma HeadReads(voc: Y.Vocabulary, words: map<string, Y.Word>, casing: map<string, string>, st: S.Stmt, k: Y.Tokens)
    requires KeywordTable(words) && StmtPrintable(voc, words, casing, st)
    requires st.If? || st.For? || st.While? || st.Once?
    ensures var t := HeadText(voc, casing, st);
            Reads(words, t, k, HeadTokens(voc, st, k)) && Head(t)
  {
    hide KeywordTable, Reads, Printable, ExprText, E.Emit, Head, AllPrintable, Spelling, Cased, NameText;
    match st
    case If(c, _, _, _) => IfReads(voc, words, casing, c, k);
    case While(c, _, _) => WhileReads(voc, words, casing, c, k);
    case For(_, _, _, _, _, _) => ForReads(voc, words, casing, st, k);
    case Once(_, _) => OnceReads(words, k);
  }

  lemma HeadWords()
    ensures Spelling(Y.KIf) != [] && Spelling(Y.KIf) + " " == "If "
    ensures Spelling(Y.KThen) != [] && " " + (Spelling(Y.KThen) + " ") == " Then "
    ensures Spelling(Y.KWhile) != [] && Spelling(Y.KWhile) + " " == "While "
    ensures Spelling(Y.KFor) != [] && Spelling(Y.KFor) + " " == "For "
  {
  }

  lemma IfReads(voc: Y.Vocabulary, words: map<string, Y.Word>, casing: map<string, string>, c: Y.Expr, k: Y.Tokens)
    requires KeywordTable(words) && Printable(voc, words, casing, c)
    ensures var t := "If " + (ExprText(voc, casing, c) + " Then ");
            Reads(words, t, k, Y.Cons(Y.Kw(Y.KIf), E.Emit(voc, c, Y.Cons(Y.Kw(Y.KThen), k)))) && Head(t)
  {
    hide *;
    var x, s := ExprText(voc, casing, c), E.Emit(voc, c, Y.Cons(Y.Kw(Y.KThen), k));
    HeadWords();
    ExprReads(voc, words, casing, c, Y.Cons(Y.Kw(Y.KThen), k));
    Keyword(words, Y.KThen, " Then ");
    SuffixReads(words, x, " Then ", Y.Kw(Y.KThen), k, s);
    LastOfSum(x, " Then ");
    KeywordHead(words, Y.KIf, x + " Then ", k, s);
  }

  lemma WhileReads(voc: Y.Vocabulary, words: map<string, Y.Word>, casing: map<string, string>, c: Y.Expr, k: Y.Tokens)
    requires KeywordTable(words) && Printable(voc, words, casing, c)
    ensures var t := "While " + (ExprText(voc, casing, c) + " ");
            Reads(words, t, k, Y.Cons(Y.Kw(Y.KWhile), E.Emit(voc, c, k))) && Head(t)
  {
    hide *;
    var x, s := ExprText(voc, casing, c), E.Emit(voc, c, k);
    HeadWords();
    ExprReads(voc, words, casing, c, k);
    BlankSuffix(words, x, k, s);
    LastIsBlank(x);
    KeywordHead(words, Y.KWhile, x + " ", k, s);
  }

  lemma OnceReads(words: map<string, Y.Word>, k: Y.Tokens)
    requires KeywordTable(words)
    ensures Reads(words, "Once ", k, Y.Cons(Y.Kw(Y.KOnce), k)) && Head("Once ")
  {
    KeywordText(words, Y.KOnce);
    assert Spelling(Y.KOnce) + " " == "Once ";
    hide KeywordTable, Infix, Spelling, Lex, CodeText, StartsCode, Meant;
    assert Lex("Once ").tokens == [Lex("Once ").tokens[0]];
    OntoOne(words, Lex("Once ").tokens[0], k);
    StillStarts("Once", " ");
  }

  lemma LastIsBlank(x: string)
    ensures (x + " ")[|x + " "| - 1] == ' '
  {
  }

  lemma LastOfSum(x: string, y: string)
    requires y != []
    ensures x + y != [] && (x + y)[|x + y| - 1] == y[|y| - 1]
  {
  }

  lemma ForReads(voc: Y.Vocabulary, words: map<string, Y.Word>, casing: map<string, string>, st: S.Stmt, k: Y.Tokens)
    requires KeywordTable(words) && StmtPrintable(voc, words, casing, st) && st.For?
    ensures var t := HeadText(voc, casing, st);
            Reads(words, t, k, HeadTokens(voc, st, k)) && Head(t)
  {
    var v, a, z := Cased(casing, st.loopVar), ExprText(voc, casing, st.start), ExprText(voc, casing, st.end);
    var way, to := if st.down then Y.KDownTo else Y.KTo, if st.down then " downto " else " to ";
    var y := a + to + (z + " ");
    var s2 := E.Emit(voc, st.start, Y.Cons(Y.Kw(way), E.Emit(voc, st.end, k)));
    hide *;
    ForParts(voc, words, casing, st, k);
    WayText(way, to, st.down);
    LastIsBlank(z);
    LastOfSum(a + to, z + " ");
    RangeReads(voc, words, casing, st, way, to, k);
    RangeHead(words, casing, st.loopVar, y, k, s2);
  }

  lemma WayText(way: Y.Word, to: string, down: bool)
    requires way == (if down then Y.KDownTo else Y.KTo) && to == if down then " downto " else " to "
    ensures Spelling(way) != [] && to == " " + (Spelling(way) + " ")
  {
  }

  lemma ForParts(voc: Y.Vocabulary, words: map<string, Y.Word>, casing: map<string, string>, st: S.Stmt, k: Y.Tokens)
    requires st.For? && StmtPrintable(voc, words, casing, st)
    ensures var v, a, z := Cased(casing, st.loopVar), ExprText(voc, casing, st.start), ExprText(voc, casing, st.end);
            HeadText(voc, casing, st)
              == "For " + (v + " = " + (a + (if st.down then " downto " else " to ") + (z + " ")))
    ensures HeadTokens(voc, st, k)
            == Y.Cons(Y.Kw(Y.KFor), Y.Cons(Y.Id(st.loopVar), Y.Cons(Y.Op(Y.SEq),
                 E.Emit(voc, st.start, Y.Cons(Y.Kw(if st.down then Y.KDownTo else Y.KTo), E.Emit(voc, st.end, k))))))
    ensures NameText(words, casing, st.loopVar)
  {
    hide ExprText, Cased, E.Emit, Printable, AllPrintable, NameText;
  }

  lemma RangeHead(words: map<string, Y.Word>, casing: map<string, string>, v: string, y: string, k: Y.Tokens,
                  s: Y.Tokens)
    requires KeywordTable(words) && NameText(words, casing, v) && Reads(words, y, k, s) && y != [] && y[|y| - 1] == ' '
    ensures var t := "For " + (Cased(casing, v) + " = " + y);
            Reads(words, t, k, Y.Cons(Y.Kw(Y.KFor), Y.Cons(Y.Id(v), Y.Cons(Y.Op(Y.SEq), s)))) && Head(t)
  {
    hide *;
    var s3 := Y.Cons(Y.Id(v), Y.Cons(Y.Op(Y.SEq), s));
    HeadWords();
    EqualSign(words);
    NameReads(words, casing, v, Y.Cons(Y.Op(Y.SEq), s));
    InfixReads(words, Cased(casing, v), " = ", Y.Op(Y.SEq), y, k, s, s3);
    LastOfSum(Cased(casing, v) + " = ", y);
    KeywordHead(words, Y.KFor, Cased(casing, v) + " = " + y, k, s3);
  }

  lemma EqualSign(words: map<string, Y.Word>)
    ensures Infix(words, " = ", Y.Op(Y.SEq))
  {
    hide Infix;
    Operator(words, "=", " = ");
  }

  lemma RangeReads(voc: Y.Vocabulary, words: map<string, Y.Word>, casing: map<string, string>, st: S.Stmt, way: Y.Word,
                   to: string, k: Y.Tokens)
    requires KeywordTable(words) && StmtPrintable(voc, words, casing, st) && st.For?
    requires Spelling(way) != [] && to == " " + (Spelling(way) + " ")
    ensures Reads(words, ExprText(voc, casing, st.start) + to + (ExprText(voc, casing, st.end) + " "), k,
                  E.Emit(voc, st.start, Y.Cons(Y.Kw(way), E.Emit(voc, st.end, k))))
  {
    hide KeywordTable, Reads, Infix, Prefix, Printable, ExprText, StartsCode, E.Emit, AllPrintable, NameText, Spelling;
    var a, z, s1 := ExprText(voc, casing, st.start), ExprText(voc, casing, st.end), E.Emit(voc, st.end, k);
    ExprReads(voc, words, casing, st.end, k);
    BlankSuffix(words, z, k, s1);
    ExprReads(voc, words, casing, st.start, Y.Cons(Y.Kw(way), s1));
    Keyword(words, way, to);
    InfixReads(words, a, to, Y.Kw(way), z + " ", k, s1, E.Emit(voc, st.start, Y.Cons(Y.Kw(way), s1)));
  }

  // ---- The forest of a program -------------------------------------------------------------------

  /** How many statements there are. */
  function Count(sts: S.Stmts): nat
    decreases sts, 1
  {
    if sts.NoStmts? then 0 else 1 + CountLegs(sts.stmt) + Count(sts.rest)
  }

  function CountLegs(st: S.Stmt): nat
    decreases st, 0
  {
    match st
    case If(_, b, leg, _) => Count(b) + if leg.Else? then Count(leg.body) else 0
    case For(_, _, _, _, b, _) => Count(b)
    case While(_, b, _) => Count(b)
    case Repeat(b, _) => Count(b)
    case Once(b, _) => Count(b)
    case _ => 0
  }

  function FormOf(voc: Y.Vocabulary, casing: map<string, string>, st: S.Stmt): Form {
    match st
    case If(_, b, leg, block) =>
      if leg.Else? then Choice(HeadText(voc, casing, st), S.ThenCompact(b, leg, block), S.ElseCompact(leg))
      else Branch(HeadText(voc, casing, st), S.ThenCompact(b, leg, block))
    case For(_, _, _, _, b, block) => Branch(HeadText(voc, casing, st), S.LoopCompact(b, block))
    case While(_, b, block) => Branch(HeadText(voc, casing, st), S.LoopCompact(b, block))
    case Once(b, block) => Branch(HeadText(voc, casing, st), S.LoopCompact(b, block))
    case Repeat(_, c) => Repeat(ExprText(voc, casing, c))
    case _ => Simple(PieceText(voc, casing, st))
  }

  function LegOf(st: S.Stmt): S.Stmts {
    match st
    case If(_, b, _, _) => b
    case For(_, _, _, _, b, _) => b
    case While(_, b, _) => b
    case Repeat(b, _) => b
    case Once(b, _) => b
    case _ => S.NoStmts
  }

  function ElseOf(st: S.Stmt): S.Stmts {
    if st.If? && st.orElse.Else? then st.orElse.body else S.NoStmts
  }

  /** The statements numbered in emission order from `id`; `lines` gives the source lines of those
      that have one. */
  function Build(voc: Y.Vocabulary, casing: map<string, string>, lines: map<nat, int>, sts: S.Stmts, id: nat): Forest
    decreases Count(sts)
  {
    if sts.NoStmts? then Empty
    else
      var st := sts.stmt;
      assert CountLegs(st) == Count(LegOf(st)) + Count(ElseOf(st));
      var next := id + 1 + Count(LegOf(st));
      Tree(id, if id in lines then Some(lines[id]) else None, FormOf(voc, casing, st),
           Build(voc, casing, lines, LegOf(st), id + 1), Build(voc, casing, lines, ElseOf(st), next),
           Build(voc, casing, lines, sts.rest, next + Count(ElseOf(st))))
  }

  lemma PieceIsRead(voc: Y.Vocabulary, words: map<string, Y.Word>, casing: map<string, string>, st: S.Stmt)
    requires KeywordTable(words) && StmtPrintable(voc, words, casing, st) && Legless(st)
    ensures var t := PieceText(voc, casing, st);
            ReadsSimple(voc, words, t, st) && CodeText(t) && StartsCode(t)
  {
    var t := PieceText(voc, casing, st);
    hide KeywordTable, StmtPrintable, Lex, CodeText, StartsCode, Onto, S.EmitStmt, PieceText;
    PieceReads(voc, words, casing, st, Y.Nil);
    forall k ensures Onto(words, Lex(t).tokens, Y.Cons(Y.Semi, k)) == S.EmitStmt(voc, st, k) {
      PieceReads(voc, words, casing, st, k);
    }
  }

  lemma HeadIsRead(voc: Y.Vocabulary, words: map<string, Y.Word>, casing: map<string, string>, st: S.Stmt)
    requires KeywordTable(words) && StmtPrintable(voc, words, casing, st)
    requires st.If? || st.For? || st.While? || st.Once?
    ensures var t := HeadText(voc, casing, st);
            ReadsHead(voc, words, t, st) && Head(t)
  {
    var t := HeadText(voc, casing, st);
    hide KeywordTable, StmtPrintable, Lex, Head, Onto, HeadTokens, HeadText;
    HeadReads(voc, words, casing, st, Y.Nil);
    forall k ensures Onto(words, Lex(t).tokens, k) == HeadTokens(voc, st, k) {
      HeadReads(voc, words, casing, st, k);
    }
  }

  lemma CondIsRead(voc: Y.Vocabulary, words: map<string, Y.Word>, casing: map<string, string>, c: Y.Expr)
    requires KeywordTable(words) && Printable(voc, words, casing, c)
    ensures var t := ExprText(voc, casing, c);
            ReadsExpr(voc, words, t, c) && CodeText(t)
  {
    var t := ExprText(voc, casing, c);
    hide KeywordTable, Printable, Lex, CodeText, StartsCode, Onto, E.Emit, ExprText;
    ExprReads(voc, words, casing, c, Y.Nil);
    forall k ensures Onto(words, Lex(t).tokens, k) == E.Emit(voc, c, k) {
      ExprReads(voc, words, casing, c, k);
    }
  }

  lemma BuildSingle(voc: Y.Vocabulary, casing: map<string, string>, lines: map<nat, int>, sts: S.Stmts, id: nat)
    ensures S.Single(sts) ==> Single(Build(voc, casing, lines, sts, id))
    ensures sts.NoStmts? <==> Build(voc, casing, lines, sts, id).Empty?
  {
    hide FormOf;
  }

  /** A statement whose legs are depicted. */
  lemma TreeDepicts(voc: Y.Vocabulary, words: map<string, Y.Word>, casing: map<string, string>, f: Forest, st: S.Stmt)
    requires KeywordTable(words) && StmtPrintable(voc, words, casing, st)
    requires f.Tree? && f.form == FormOf(voc, casing, st) && WellFormed(f.legs) && WellFormed(f.orelse)
    requires WellFormed(f.rest)
    requires Depicts(voc, words, f.legs, LegOf(st)) && Depicts(voc, words, f.orelse, ElseOf(st))
    requires (S.Single(LegOf(st)) ==> Single(f.legs)) && (LegOf(st).NoStmts? ==> f.legs.Empty?)
    requires (S.Single(ElseOf(st)) ==> Single(f.orelse)) && (ElseOf(st).NoStmts? ==> f.orelse.Empty?)
    ensures WellFormed(f) && DepictsOne(voc, words, f, st)
  {
    hide KeywordTable, AllPrintable, Printable, Depicts, Lex, HeadText, PieceText, ReadsHead, ReadsSimple, ReadsExpr,
         Head, CodeText, StartsCode, S.Dangles, NameText, ExprText;
    if Legless(st) {
      PieceIsRead(voc, words, casing, st);
    } else if st.Repeat? {
      CondIsRead(voc, words, casing, st.cond);
    } else {
      HeadIsRead(voc, words, casing, st);
    }
  }

  lemma LegIsSmaller(st: S.Stmt)
    ensures LegOf(st).NoStmts? || LegOf(st) < st
    ensures ElseOf(st).NoStmts? || ElseOf(st) < st
  {
  }

  lemma {:induction false} LegsDepict(voc: Y.Vocabulary, words: map<string, Y.Word>, casing: map<string, string>,
                                      lines: map<nat, int>, st: S.Stmt, id: nat, next: nat)
    requires KeywordTable(words) && StmtPrintable(voc, words, casing, st)
    ensures var legs, orelse := Build(voc, casing, lines, LegOf(st), id), Build(voc, casing, lines, ElseOf(st), next);
            && WellFormed(legs) && Depicts(voc, words, legs, LegOf(st))
            && WellFormed(orelse) && Depicts(voc, words, orelse, ElseOf(st))
    decreases st, 0
  {
    LegIsSmaller(st);
    LegsPrintable(voc, words, casing, st);
    hide KeywordTable, StmtPrintable, AllPrintable, LegOf, ElseOf, Lex, Count;
    if LegOf(st).MoreStmts? {
      BuildDepicts(voc, words, casing, lines, LegOf(st), id);
    }
    if ElseOf(st).MoreStmts? {
      BuildDepicts(voc, words, casing, lines, ElseOf(st), next);
    }
  }

  lemma LegsPrintable(voc: Y.Vocabulary, words: map<string, Y.Word>, casing: map<string, string>, st: S.Stmt)
    requires StmtPrintable(voc, words, casing, st)
    ensures AllPrintable(voc, words, casing, LegOf(st)) && AllPrintable(voc, words, casing, ElseOf(st))
  {
    hide Printable, NameText;
  }

  lemma BuildStep(voc: Y.Vocabulary, casing: map<string, string>, lines: map<nat, int>, sts: S.Stmts, id: nat)
    requires sts.MoreStmts?
    ensures var f, next := Build(voc, casing, lines, sts, id), id + 1 + Count(LegOf(sts.stmt));
            && f.Tree? && f.id == id && f.form == FormOf(voc, casing, sts.stmt)
            && f.legs == Build(voc, casing, lines, LegOf(sts.stmt), id + 1)
            && f.orelse == Build(voc, casing, lines, ElseOf(sts.stmt), next)
            && f.rest == Build(voc, casing, lines, sts.rest, next + Count(ElseOf(sts.stmt)))
  {
    hide FormOf, LegOf, ElseOf;
  }

  /** Every program has its text: the forest is well formed and its pieces are those of the program. */
  lemma {:induction false} BuildDepicts(voc: Y.Vocabulary, words: map<string, Y.Word>, casing: map<string, string>,
                                        lines: map<nat, int>, sts: S.Stmts, id: nat)
    requires KeywordTable(words) && AllPrintable(voc, words, casing, sts)
    ensures var f := Build(voc, casing, lines, sts, id);
            WellFormed(f) && Depicts(voc, words, f, sts)
    decreases sts, 1
  {
    hide *;
    var f := Build(voc, casing, lines, sts, id);
    if sts.NoStmts? {
      NoneDepicted(voc, words, casing, lines, sts, id);
    } else {
      var st := sts.stmt;
      var next := id + 1 + Count(LegOf(st));
      BuildStep(voc, casing, lines, sts, id);
      FirstPrintable(voc, words, casing, sts);
      LegsDepict(voc, words, casing, lines, st, id + 1, next);
      BuildSingle(voc, casing, lines, LegOf(st), id + 1);
      BuildSingle(voc, casing, lines, ElseOf(st), next);
      BuildDepicts(voc, words, casing, lines, sts.rest, next + Count(ElseOf(st)));
      TreeDepicts(voc, words, casing, f, st);
      DepictsBoth(voc, words, f, sts);
    }
  }

  lemma NoneDepicted(voc: Y.Vocabulary, words: map<string, Y.Word>, casing: map<string, string>, lines: map<nat, int>,
                     sts: S.Stmts, id: nat)
    requires sts.NoStmts?
    ensures var f := Build(voc, casing, lines, sts, id);
            f == Empty && WellFormed(f) && Depicts(voc, words, f, sts) && NumberedFrom(Ids(f), id, id + Count(sts))
  {
  }

  lemma FirstPrintable(voc: Y.Vocabulary, words: map<string, Y.Word>, casing: map<string, string>, sts: S.Stmts)
    requires sts.MoreStmts? && AllPrintable(voc, words, casing, sts)
    ensures StmtPrintable(voc, words, casing, sts.stmt) && AllPrintable(voc, words, casing, sts.rest)
  {
    hide StmtPrintable;
  }

  lemma DepictsBoth(voc: Y.Vocabulary, words: map<string, Y.Word>, f: Forest, sts: S.Stmts)
    requires f.Tree? && sts.MoreStmts? && DepictsOne(voc, words, f, sts.stmt) && Depicts(voc, words, f.rest, sts.rest)
    ensures Depicts(voc, words, f, sts)
  {
    hide DepictsOne;
  }

  // ---- Numbering ----------------------------------------------------------------------------------

  ghost predicate NumberedFrom(ids: multiset<nat>, from: nat, to: nat) {
    forall i :: ids[i] <= 1 && (ids[i] > 0 ==> from <= i < to)
  }

  lemma NumberedJoin(a: multiset<nat>, b: multiset<nat>, from: nat, mid: nat, to: nat)
    requires NumberedFrom(a, from, mid) && NumberedFrom(b, mid, to) && from <= mid <= to
    ensures NumberedFrom(a + b, from, to)
  {
  }

  lemma CountStep(sts: S.Stmts)
    requires sts.MoreStmts?
    ensures Count(sts) == 1 + Count(LegOf(sts.stmt)) + Count(ElseOf(sts.stmt)) + Count(sts.rest)
  {
  }

  lemma {:induction false} BuildNumbers(voc: Y.Vocabulary, casing: map<string, string>, lines: map<nat, int>,
                                        sts: S.Stmts, id: nat)
    ensures NumberedFrom(Ids(Build(voc, casing, lines, sts, id)), id, id + Count(sts))
    decreases Count(sts)
  {
    hide *;
    if sts.NoStmts? {
      NoneDepicted(voc, map[], casing, lines, sts, id);
    } else {
      var st := sts.stmt;
      var next := id + 1 + Count(LegOf(st));
      var last := next + Count(ElseOf(st));
      var f := Build(voc, casing, lines, sts, id);
      BuildStep(voc, casing, lines, sts, id);
      CountStep(sts);
      TreeIds(f);
      BuildNumbers(voc, casing, lines, LegOf(st), id + 1);
      BuildNumbers(voc, casing, lines, ElseOf(st), next);
      BuildNumbers(voc, casing, lines, sts.rest, last);
      NumberedJoin(multiset{id}, Ids(f.legs), id, id + 1, next);
      NumberedJoin(multiset{id} + Ids(f.legs), Ids(f.orelse), id, next, last);
      NumberedJoin(multiset{id} + Ids(f.legs) + Ids(f.orelse), Ids(f.rest), id, last, id + Count(sts));
    }
  }

  lemma TreeIds(f: Forest)
    requires f.Tree?
    ensures Ids(f) == multiset{f.id} + Ids(f.legs) + Ids(f.orelse) + Ids(f.rest)
    ensures NumberedFrom(multiset{f.id}, f.id, f.id + 1)
  {
  }

  /** The statements of a built forest are told apart by their numbers. */
  lemma BuildDistinct(voc: Y.Vocabulary, casing: map<string, string>, lines: map<nat, int>, sts: S.Stmts, id: nat)
    ensures Distinct(Build(voc, casing, lines, sts, id))
  {
    hide Build, Ids, Count;
    BuildNumbers(voc, casing, lines, sts, id);
  }

  // ---- The round trip -------------------------------------------------------------------------------

  /** From a program and the comments of its source to a text, and back: the text lexes to the
      tokens of the program and to every comment once, with at most its later lines reindented; its
      tokens parse to the program exactly when no statement is one of those `Clear` names. */
  lemma ProgramComesBack(voc: Y.Vocabulary, words: map<string, Y.Word>, casing: map<string, string>,
                         lines: map<nat, int>, sts: S.Stmts, comments: seq<Comment>, a: Anchors)
    requires Y.Coherent(voc) && KeywordTable(words) && P.AllFormed(voc, sts) && AllPrintable(voc, words, casing, sts)
    requires Unmerged(S.EmitStmts(voc, sts, Y.Nil)) && WholeAll(comments)
    requires var f := Build(voc, casing, lines, sts, 0);
             Anchored(a, LineStmts(f), Ordered(comments)) && Safe(a, f)
    ensures var f := Build(voc, casing, lines, sts, 0);
            WellFormed(f)
            && var r := Lex(Emitted(a, f));
               && r.Good? && multiset(PrintedAll(a, f)) == multiset(comments) && Prints(r.notes, PrintedAll(a, f))
               && ParsesWhenClear(voc, Onto(words, r.tokens, Y.Nil), sts)
  {
    var f := Build(voc, casing, lines, sts, 0);
    hide *;
    BuildDepicts(voc, words, casing, lines, sts, 0);
    BuildDistinct(voc, casing, lines, sts, 0);
    BareSays(voc, words, f, sts);
    EmissionConserves(f, comments, a);
    OrderedWhole(comments);
    AnchoredWhole(a, LineStmts(f), Ordered(comments));
    EmittedProgramParses(voc, words, a, f, sts);
  }

  lemma OrderedWhole(comments: seq<Comment>)
    requires WholeAll(comments)
    ensures WholeAll(Ordered(comments))
  {
    hide IsNote, Ordered;
    OrderedKeeps(comments);
    assert forall c :: c in Ordered(comments) ==> c in multiset(Ordered(comments));
  }

  /** The same for the wrapped text, which is what is written, when every comment closes on its last line and only the
      first comment at the end of a line has several lines. */
  lemma WrittenProgramComesBack(voc: Y.Vocabulary, words: map<string, Y.Word>, casing: map<string, string>,
                                lines: map<nat, int>, sts: S.Stmts, comments: seq<Comment>, a: Anchors)
    requires Y.Coherent(voc) && KeywordTable(words) && P.AllFormed(voc, sts) && AllPrintable(voc, words, casing, sts)
    requires Unmerged(S.EmitStmts(voc, sts, Y.Nil)) && WholeAll(comments) && AllLate(comments)
    requires var f := Build(voc, casing, lines, sts, 0);
             Anchored(a, LineStmts(f), Ordered(comments)) && Safe(a, f) && EndsFlat(a, f)
    ensures var f := Build(voc, casing, lines, sts, 0);
            WellFormed(f)
            && var r := Lex(WrapAll(Emitted(a, f)) + "\n");
               && r.Good? && multiset(PrintedAll(a, f)) == multiset(comments) && Prints(r.notes, PrintedAll(a, f))
               && ParsesWhenClear(voc, Onto(words, r.tokens, Y.Nil), sts)
  {
    var f := Build(voc, casing, lines, sts, 0);
    hide *;
    ProgramComesBack(voc, words, casing, lines, sts, comments, a);
    BuildDepicts(voc, words, casing, lines, sts, 0);
    BareSays(voc, words, f, sts);
    AnchoredPlain(a, LineStmts(f), comments);
    PlainIsWhole(a);
    EmissionReads(a, f);
    WrittenTextReads(a, f);
  }
}
