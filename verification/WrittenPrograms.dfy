/** From statements to characters and back: the text that is written for a program, comments and
    all, lexes and parses to the program. */
module WrittenPrograms {
  import opened Sequences
  import opened Lexer
  import opened LexerGaps
  import opened Layout
  import opened Comments
  import opened CommentLayout
  import opened CommentReading
  import opened CommentTheorem
  import opened EmissionTheorem
  import opened TokenText
  import opened CommentPrinting
  import Y = Syntax
  import Grammar
  import S = Statements
  import P = Programs
  import ReadBack

  type Words = map<string, Y.Word>

  // ---- A program and its pieces of text ---------------------------------------------------------

  /** The forest holds the program's pieces of code: each lexes to the tokens it stands for, and the
      legs are compact where the emission makes them so. */
  ghost predicate Depicts(voc: Y.Vocabulary, words: Words, f: Forest, sts: S.Stmts)
    decreases f, 1
  {
    match f
    case Empty => sts.NoStmts?
    case Tree(_, _, _, _, _, rest) =>
      sts.MoreStmts? && DepictsOne(voc, words, f, sts.stmt) && Depicts(voc, words, rest, sts.rest)
  }

  ghost predicate DepictsOne(voc: Y.Vocabulary, words: Words, f: Forest, st: S.Stmt)
    requires f.Tree?
    decreases f, 0
  {
    match st
    case If(_, b, leg, block) =>
      && (if leg.Else? then f.form.Choice? && f.form.elseCompact == S.ElseCompact(leg) else f.form.Branch?)
      && f.form.compact == S.ThenCompact(b, leg, block)
      && ReadsHead(voc, words, f.form.head, st) && Depicts(voc, words, f.legs, b)
      && (leg.Else? ==> Depicts(voc, words, f.orelse, leg.body))
    case For(_, _, _, _, b, block) =>
      && f.form.Branch? && f.form.compact == S.LoopCompact(b, block)
      && ReadsHead(voc, words, f.form.head, st) && Depicts(voc, words, f.legs, b)
    case While(_, b, block) =>
      && f.form.Branch? && f.form.compact == S.LoopCompact(b, block)
      && ReadsHead(voc, words, f.form.head, st) && Depicts(voc, words, f.legs, b)
    case Once(b, block) =>
      && f.form.Branch? && f.form.compact == S.LoopCompact(b, block)
      && ReadsHead(voc, words, f.form.head, st) && Depicts(voc, words, f.legs, b)
    case Repeat(b, c) => f.form.Repeat? && ReadsExpr(voc, words, f.form.cond, c) && Depicts(voc, words, f.legs, b)
    case _ => f.form.Simple? && ReadsSimple(voc, words, f.form.code, st)
  }

  // ---- Lines of code ------------------------------------------------------------------------------

  /** The lines lex, and their tokens before `k` are `s`. */
  ghost predicate Says(words: Words, codes: seq<string>, k: Y.Tokens, s: Y.Tokens) {
    var r := ReadCodes(codes);
    r.Good? && Onto(words, r.tokens, k) == s
  }

  lemma SaysAppend(words: Words, a: seq<string>, b: seq<string>, k: Y.Tokens, s1: Y.Tokens, s: Y.Tokens)
    requires Says(words, b, k, s1) && Says(words, a, s1, s)
    ensures Says(words, a + b, k, s)
  {
    hide ReadCodes, Onto;
    CodesAppend(a, b);
    OntoAppends(words, ReadCodes(a).tokens, ReadCodes(b).tokens, k);
  }

  lemma SaysLine(words: Words, code: string, k: Y.Tokens)
    requires CommentStart(code).None? && Lex(code).Good?
    ensures Says(words, [code], k, Onto(words, Lex(code).tokens, k))
  {
    hide Lex, CommentStart, ReadCodes;
    OneCode(code);
  }

  /** The token that closes a line. */
  function EndMeant(w: string): Y.Token {
    if w == " ;" then Y.Semi else if w == "Begin" then Y.Kw(Y.KBegin) else if w == "End" then Y.Kw(Y.KEnd)
    else Y.Kw(Y.KRepeat)
  }

  lemma KeywordMeans(words: Words, k: Y.Word)
    requires KeywordTable(words) && Spelling(k) != [] && WordStart(Spelling(k)[0])
    ensures Meant(words, Lexeme(Lower(Spelling(k)))) == Y.Kw(k)
  {
    LowerAt(Spelling(k), 0);
    hide Lower, Spelling;
  }

  lemma EndTokenMeans(words: Words, w: string)
    requires KeywordTable(words) && w in ENDS
    ensures Meant(words, EndToken(w)) == EndMeant(w)
  {
    hide Lower, Meant, KeywordTable;
    if w == " ;" {
      SemicolonMeans(words);
    } else if w == "Begin" {
      KeywordMeans(words, Y.KBegin);
    } else if w == "End" {
      KeywordMeans(words, Y.KEnd);
    } else {
      KeywordMeans(words, Y.KRepeat);
    }
  }

  lemma SemicolonMeans(words: Words)
    ensures Meant(words, Lexeme(";")) == Y.Semi
  {
  }

  /** A piece of code and the end of its line. */
  lemma EndedLexes(x: string, w: string)
    requires CodeText(x) && w in ENDS && (w == " ;" || x == [] || EndsBlank(x))
    ensures CommentStart(x + w).None?
    ensures Lex(x).Good? ==> Lex(x + w).Good? && Lex(x + w).tokens == Lex(x).tokens + [EndToken(w)]
  {
    EndsLine(x, w);
    assert EndsWith(x + w, x, w);
    hide Lex, Firm, EndToken;
    FirmSplits(x + w, x, w, []);
    EmptyLexes();
    assert x + w + [] == x + w;
    assert [EndToken(w)] + [] == [EndToken(w)];
  }

  lemma SaysEnded(words: Words, x: string, w: string, k: Y.Tokens)
    requires KeywordTable(words) && CodeText(x) && w in ENDS && (w == " ;" || x == [] || EndsBlank(x)) && Lex(x).Good?
    ensures Says(words, [x + w], k, Onto(words, Lex(x).tokens, Y.Cons(EndMeant(w), k)))
  {
    EndedLexes(x, w);
    EndTokenMeans(words, w);
    hide *;
    SaysLine(words, x + w, k);
    OntoAppends(words, Lex(x).tokens, [EndToken(w)], k);
    OntoOne(words, EndToken(w), k);
  }

  /** Code that begins with a second word of a two-word keyword reads as that word. */
  lemma SecondIsFirst(c: string)
    requires StartsCode(c) && SecondWord(c).Some? && Lex(c).Good?
    ensures var ts := Lex(c).tokens;
            ts != [] && ts[0].Lexeme? && ts[0].text != [] && WordStart(ts[0].text[0]) && CrossWord(ts[0].text).Some?
  {
    var n := 1 + Run(c[1..], Words);
    var w := Lower(c[..n]);
    FrontWord(c);
    LowerAt(c[..n], 0);
    assert w != CROSSES;
    hide Run, Lower, Munch, SecondWord, CrossWord, WordPart, LineComment;
    assert NextStep(c) == Yield(n, Lexeme(w));
    hide NextStep, Lex;
    LexTurn(c);
  }

  lemma FrontWord(c: string)
    requires StartsCode(c) && SecondWord(c).Some?
    ensures var n := 1 + Run(c[1..], Words);
            n <= |c| && Munch(c) == n && WordStart(c[0]) && CrossWord(Lower(c[..n])).Some?
    ensures !Blank(c[0]) && c[0] != '{' && c[0] != '"' && !LineComment(c)
  {
    assert !Blank(c[0]);
    assert Run(c, Blanks) == 0;
    var n := 1 + Run(c[1..], Words);
    assert c[0..n] == c[..n];
    hide Lower, CrossWord, Run;
  }

  /** The head of a compact leg on the first line of its statement. */
  lemma SaysHead(words: Words, head: string, codes: seq<string>, k: Y.Tokens, s: Y.Tokens)
    requires KeywordTable(words) && Head(head) && Lex(head).Good? && codes != [] && StartsCode(codes[0])
    requires Says(words, codes, k, s) && Unmerged(Onto(words, Lex(head).tokens, s))
    ensures Says(words, OnFirst(codes, head), k, Onto(words, Lex(head).tokens, s))
  {
    var c, rest := codes[0], codes[1..];
    var first, after := Lex(c), ReadCodes(rest);
    assert ReadCodes(codes) == Followed(first, after);
    HeadSplits(words, head, c, after, k);
    assert OnFirst(codes, head)[1..] == rest;
    hide Lex, Head, StartsCode, KeywordTable, Unmerged, Onto, Followed;
    assert ReadCodes(OnFirst(codes, head)) == Followed(Lex(head + c), after);
    FollowedFollowed(Lex(head), first, after);
    assert ReadCodes(OnFirst(codes, head)) == Followed(Lex(head), ReadCodes(codes));
    hide ReadCodes;
    OntoFollowed(words, Lex(head), ReadCodes(codes), k);
  }

  lemma OntoFollowed(words: Words, a: Lexed, b: Lexed, k: Y.Tokens)
    requires a.Good? && b.Good?
    ensures Followed(a, b).Good?
    ensures Onto(words, Followed(a, b).tokens, k) == Onto(words, a.tokens, Onto(words, b.tokens, k))
  {
    OntoAppends(words, a.tokens, b.tokens, k);
  }

  lemma FirstStays(a: Lexed, b: Lexed)
    requires a.Good? && a.tokens != [] && Followed(a, b).Good?
    ensures Followed(a, b).tokens != [] && Followed(a, b).tokens[0] == a.tokens[0]
  {
  }

  lemma WordMeans(words: Words, w: string)
    requires KeywordTable(words) && w != [] && WordStart(w[0]) && CrossWord(w).Some?
    ensures Meant(words, Lexeme(w)) == Y.Id(w)
  {
    hide CrossWord;
  }

  lemma OntoFirst(words: Words, ts: seq<Token>, k: Y.Tokens)
    requires ts != []
    ensures Onto(words, ts, k).Cons? && Onto(words, ts, k).head == Meant(words, ts[0])
  {
  }

  /** A second word after a head is no part of a two-word keyword. */
  lemma NothingMerges(words: Words, ts: seq<Token>, c: string, after: Lexed, k: Y.Tokens)
    requires KeywordTable(words) && StartsCode(c) && Followed(Lex(c), after).Good?
    requires ts != [] && ts[|ts| - 1] == Lexeme(CROSSES)
    requires Unmerged(Onto(words, ts, Onto(words, Followed(Lex(c), after).tokens, k)))
    ensures NoSecond(c)
  {
    hide SecondWord, Lex, StartsCode, CrossWord, Followed, Onto, Meant, KeywordTable, Unmerged;
    if SecondWord(c).Some? {
      FollowedIsGood(Lex(c), after);
      SecondIsFirst(c);
      FirstStays(Lex(c), after);
      WordMeans(words, Lex(c).tokens[0].text);
      OntoFirst(words, Followed(Lex(c), after).tokens, k);
      UnmergedSeam(words, ts, Onto(words, Followed(Lex(c), after).tokens, k));
      assert false;
    }
  }

  lemma FollowedIsGood(a: Lexed, b: Lexed)
    requires Followed(a, b).Good?
    ensures a.Good?
  {
  }

  lemma HeadSplits(words: Words, head: string, c: string, after: Lexed, k: Y.Tokens)
    requires KeywordTable(words) && Head(head) && Lex(head).Good? && StartsCode(c) && Followed(Lex(c), after).Good?
    requires Unmerged(Onto(words, Lex(head).tokens, Onto(words, Followed(Lex(c), after).tokens, k)))
    ensures Lex(head + c) == Followed(Lex(head), Lex(c))
  {
    CodeCloses(head);
    assert EndsBlank(head) && Seam(head, c);
    hide Lex, Closed, Head, StartsCode, CodeText, NoSecond, Followed, KeywordTable, Unmerged, Onto;
    if EndsCrossing(Lex(head)) {
      NothingMerges(words, Lex(head).tokens, c, after, k);
    }
    LexSplits(head, c);
  }

  // ---- Legs ---------------------------------------------------------------------------------------

  /** The lines that open and close a leg. */
  lemma SaysBegin(words: Words, head: string, k: Y.Tokens)
    requires KeywordTable(words) && Head(head) && Lex(head).Good?
    ensures Says(words, [head + "Begin"], k, Onto(words, Lex(head).tokens, Y.Cons(Y.Kw(Y.KBegin), k)))
  {
    hide Lex, CodeText, Says;
    SaysEnded(words, head, "Begin", k);
  }

  /** A keyword of the layout, with or without a blank after it. */
  lemma KeywordAlone(words: Words, t: Y.Word, gap: string, k: Y.Tokens)
    requires KeywordTable(words) && LayoutWord(Spelling(t)) && WordStart(Spelling(t)[0]) && (gap == [] || gap == " ")
    ensures var r := Lex(Spelling(t) + gap);
            r.Good? && !EndsCrossing(r) && Onto(words, r.tokens, k) == Y.Cons(Y.Kw(t), k)
  {
    var w := Spelling(t);
    KeywordIsPlain(w);
    BlankAlone(gap);
    assert gap == [] || Blank(gap[0]);
    hide Lex, LayoutWord, Lower, Onto, Meant, KeywordTable, CROSSES, Spelling;
    WordReads(w, gap);
    KeywordMeans(words, t);
    assert [Lexeme(Lower(w))] + [] == [Lexeme(Lower(w))];
    OntoOne(words, Lexeme(Lower(w)), k);
  }

  lemma BlankAlone(gap: string)
    requires gap == [] || gap == " "
    ensures Lex(gap) == Good([], [])
  {
    assert AllBlank(gap) && gap + [] == gap;
    LexSkips(gap, []);
  }

  lemma SaysEnd(words: Words, closed: bool, k: Y.Tokens)
    requires KeywordTable(words)
    ensures Says(words, [if closed then "End ;" else "End"], k,
                 Y.Cons(Y.Kw(Y.KEnd), if closed then Y.Cons(Y.Semi, k) else k))
  {
    hide Lex, Says, Onto, Meant, KeywordTable, CodeText;
    if closed {
      KeywordAlone(words, Y.KEnd, [], Y.Cons(Y.Semi, k));
      PlainCode("End");
      assert "End" + [] == "End" && "End" + " ;" == "End ;";
      SaysEnded(words, "End", " ;", k);
    } else {
      SaysWord(words, "End", Y.KEnd, k);
    }
  }

  /** A keyword on a line of its own. */
  lemma SaysWord(words: Words, w: string, t: Y.Word, k: Y.Tokens)
    requires KeywordTable(words) && w in ENDS && w != " ;" && EndMeant(w) == Y.Kw(t)
    ensures Says(words, [w], k, Y.Cons(Y.Kw(t), k))
  {
    PlainCode([]);
    EmptyLexes();
    assert [] + w == w;
    hide Lex, Says, Meant, ENDS, CodeText, EndMeant, KeywordTable;
    SaysEnded(words, [], w, k);
  }

  /** `Until` and its condition. */
  lemma SaysUntil(voc: Y.Vocabulary, words: Words, cond: string, c: Y.Expr, k: Y.Tokens)
    requires KeywordTable(words) && CodeText(cond) && ReadsExpr(voc, words, cond, c)
    ensures Says(words, ["Until " + cond + " ;"], k, Y.Cons(Y.Kw(Y.KUntil), Emitter.Emit(voc, c, Y.Cons(Y.Semi, k))))
  {
    var k1 := Y.Cons(Y.Semi, k);
    UntilLexes(words, cond, Onto(words, Lex(cond).tokens, k1));
    UntilIsCode(cond);
    assert Onto(words, Lex(cond).tokens, k1) == Emitter.Emit(voc, c, k1);
    hide Lex, Says, CodeText, KeywordTable, ReadsExpr;
    OntoFollowed(words, Lex("Until "), Lex(cond), k1);
    SaysEnded(words, "Until " + cond, " ;", k);
  }

  lemma UntilIsCode(cond: string)
    requires CodeText(cond)
    ensures CodeText("Until " + cond)
  {
    PlainCode("Until ");
    hide CodeText;
    CodeJoins("Until ", cond);
  }

  lemma UntilEnds(cond: string)
    ensures CodeText("Until ") && "Until" + " " == "Until " && Bounded("Until ", cond) && EndsBlank("Until ")
  {
    PlainCode("Until ");
    hide CodeText;
  }

  lemma UntilAlone(words: Words, k: Y.Tokens)
    requires KeywordTable(words)
    ensures Lex("Until ").Good? && !EndsCrossing(Lex("Until "))
    ensures Onto(words, Lex("Until ").tokens, k) == Y.Cons(Y.Kw(Y.KUntil), k)
  {
    assert Spelling(Y.KUntil) == "Until" && "Until" + " " == "Until ";
    hide Lex, KeywordTable, EndsCrossing, Onto, Run;
    KeywordAlone(words, Y.KUntil, " ", k);
  }

  lemma UntilLexes(words: Words, cond: string, k: Y.Tokens)
    requires KeywordTable(words) && CodeText(cond)
    ensures Lex("Until " + cond) == Followed(Lex("Until "), Lex(cond))
    ensures Lex("Until ").Good? && Onto(words, Lex("Until ").tokens, k) == Y.Cons(Y.Kw(Y.KUntil), k)
  {
    hide *;
    UntilEnds(cond);
    UntilAlone(words, k);
    CodeCloses("Until ");
    LexSplits("Until ", cond);
  }

  /** `Else` before its leg. */
  lemma ElseReads(words: Words, k: Y.Tokens)
    requires KeywordTable(words)
    ensures Lex("Else ").Good? && Onto(words, Lex("Else ").tokens, k) == Y.Cons(Y.Kw(Y.KElse), k)
  {
    KeywordAlone(words, Y.KElse, " ", k);
    assert "Else" + " " == "Else ";
  }

  // ---- Statements -----------------------------------------------------------------------------------

  /** The lines begin with code and say `s`. */
  ghost predicate SaysCode(words: Words, codes: seq<string>, k: Y.Tokens, s: Y.Tokens) {
    codes != [] && StartsCode(codes[0]) && Says(words, codes, k, s)
  }

  lemma CodesLine(level: nat, code: string)
    ensures CodesOf(Line(level, code)) == [code]
  {
    assert Line(level, code)[1..] == [];
  }

  /** A leg, its head and what closes it. */
  function LegCodes(f: Forest, level: nat, head: string, compact: bool, closed: bool): seq<string>
    requires WellFormed(f) && (compact ==> Single(f))
  {
    CodesOf(Ended(Leg(BARE, f, level, head, compact), level, compact, if closed then "End ;" else "End"))
  }

  lemma BlockLegCodes(f: Forest, level: nat, head: string, closed: bool)
    requires WellFormed(f)
    ensures LegCodes(f, level, head, false, closed)
            == [head + "Begin"] + (CodesOf(Block(BARE, f, level + 1)) + [if closed then "End ;" else "End"])
  {
    var end := if closed then "End ;" else "End";
    CodesLine(level, head + "Begin");
    CodesLine(level, end);
    hide CodesOf, Line, Block;
    CodesJoin(Line(level, head + "Begin"), Block(BARE, f, level + 1));
    CodesJoin(Line(level, head + "Begin") + Block(BARE, f, level + 1), Line(level, end));
    Associate([head + "Begin"], CodesOf(Block(BARE, f, level + 1)), [end]);
  }

  /** Lines between two others. */
  lemma SaysBetween(words: Words, first: string, body: seq<string>, last: string, k: Y.Tokens, k1: Y.Tokens,
                    s1: Y.Tokens, s: Y.Tokens)
    requires StartsCode(first) && Says(words, [last], k, k1) && Says(words, body, k1, s1) && Says(words, [first], s1, s)
    ensures SaysCode(words, [first] + (body + [last]), k, s)
  {
    hide StartsCode, Says;
    SaysAppend(words, body, [last], k, k1, s1);
    SaysAppend(words, [first], body + [last], k, s1, s);
  }

  /** A block between its head and its end. */
  lemma SaysBlock(words: Words, head: string, body: seq<string>, closed: bool, k: Y.Tokens, s: Y.Tokens)
    requires KeywordTable(words) && Head(head) && Lex(head).Good?
    requires Says(words, body, Y.Cons(Y.Kw(Y.KEnd), if closed then Y.Cons(Y.Semi, k) else k), s)
    ensures SaysCode(words, [head + "Begin"] + (body + [if closed then "End ;" else "End"]), k,
                     Onto(words, Lex(head).tokens, Y.Cons(Y.Kw(Y.KBegin), s)))
  {
    var last := if closed then "End ;" else "End";
    assert StartsCode(head + "Begin") by { assert (head + "Begin")[0] == head[0]; }
    hide *;
    SaysEnd(words, closed, k);
    SaysBegin(words, head, s);
    SaysBetween(words, head + "Begin", body, last, k, Y.Cons(Y.Kw(Y.KEnd), if closed then Y.Cons(Y.Semi, k) else k), s,
                Onto(words, Lex(head).tokens, Y.Cons(Y.Kw(Y.KBegin), s)));
  }

  /** A head on the first of the lines of its statement. */
  lemma SaysInline(words: Words, head: string, codes: seq<string>, k: Y.Tokens, s: Y.Tokens)
    requires KeywordTable(words) && Head(head) && Lex(head).Good? && SaysCode(words, codes, k, s)
    requires Unmerged(Onto(words, Lex(head).tokens, s))
    ensures SaysCode(words, OnFirst(codes, head), k, Onto(words, Lex(head).tokens, s))
  {
    SaysHead(words, head, codes, k, s);
    hide Lex, KeywordTable, Onto, Says, Unmerged;
    assert (head + codes[0])[0] == head[0];
  }

  lemma InlineLegCodes(f: Forest, level: nat, head: string, closed: bool)
    requires WellFormed(f) && Single(f) && Head(head)
    ensures LegCodes(f, level, head, true, closed) == OnFirst(CodesOf(Core(BARE, f, level)), head)
  {
    BareIsSafe(f);
    hide Core, CodesOf, OnFirst, CodeText;
    InlineCodes(BARE, f, level, head);
  }

  lemma {:induction false} LegSays(voc: Y.Vocabulary, words: Words, f: Forest, b: S.Stmts, level: nat, head: string,
                                   compact: bool, closed: bool, k: Y.Tokens)
    requires KeywordTable(words) && WellFormed(f) && Depicts(voc, words, f, b)
    requires compact ==> Single(f) && S.Single(b)
    requires Head(head) && Lex(head).Good?
    requires Unmerged(Onto(words, Lex(head).tokens, S.EmitLeg(voc, b, compact, closed, k)))
    ensures SaysCode(words, LegCodes(f, level, head, compact, closed), k,
                     Onto(words, Lex(head).tokens, S.EmitLeg(voc, b, compact, closed, k)))
    decreases f, 5
  {
    UnmergedAfter(words, Lex(head).tokens, S.EmitLeg(voc, b, compact, closed, k));
    hide Lex, KeywordTable, Head, Unmerged, Onto, SaysCode, Core, LegCodes, CodesOf, OnFirst, S.EmitStmt, S.EmitStmts,
         DepictsOne, WellFormed;
    if compact {
      CoreSays(voc, words, f, b.stmt, level, k);
      InlineLegCodes(f, level, head, closed);
      SaysInline(words, head, CodesOf(Core(BARE, f, level)), k, S.EmitStmt(voc, b.stmt, k));
    } else {
      BlockLegSays(voc, words, f, b, level, head, closed, k);
    }
  }

  lemma {:induction false} BlockLegSays(voc: Y.Vocabulary, words: Words, f: Forest, b: S.Stmts, level: nat,
                                        head: string, closed: bool, k: Y.Tokens)
    requires KeywordTable(words) && WellFormed(f) && Depicts(voc, words, f, b) && Head(head) && Lex(head).Good?
    requires Unmerged(S.EmitLeg(voc, b, false, closed, k))
    ensures SaysCode(words, LegCodes(f, level, head, false, closed), k,
                     Onto(words, Lex(head).tokens, S.EmitLeg(voc, b, false, closed, k)))
    decreases f, 4
  {
    var k1 := Y.Cons(Y.Kw(Y.KEnd), if closed then Y.Cons(Y.Semi, k) else k);
    BlockLegCodes(f, level, head, closed);
    hide Lex, KeywordTable, Head, Onto, Says, SaysCode, CodesOf, LegCodes, Depicts, WellFormed, Block, S.EmitStmts;
    BlockSays(voc, words, f, b, level + 1, k1);
    SaysBlock(words, head, CodesOf(Block(BARE, f, level + 1)), closed, k, S.EmitStmts(voc, b, k1));
  }

  lemma {:induction false} BlockSays(voc: Y.Vocabulary, words: Words, f: Forest, sts: S.Stmts, level: nat, k: Y.Tokens)
    requires KeywordTable(words) && WellFormed(f) && Depicts(voc, words, f, sts) && Unmerged(S.EmitStmts(voc, sts, k))
    ensures Says(words, CodesOf(Block(BARE, f, level)), k, S.EmitStmts(voc, sts, k))
    decreases f, 3
  {
    if f.Tree? {
      var k1 := S.EmitStmts(voc, sts.rest, k);
      var codes := CodesOf(Core(BARE, f, level));
      CoreSays(voc, words, f, sts.stmt, level, k1);
      CoreLast(BARE, f, level);
      UnmergedAfter(words, ReadCodes(codes).tokens, k1);
      BlockSays(voc, words, f.rest, sts.rest, level, k);
      hide KeywordTable, Says, Core, Depicts, WellFormed, ReadCodes, CodesOf, Unmerged, Onto;
      CodesAround(BARE, f, level, Core(BARE, f, level));
      CodesJoin(Statement(BARE, f, level), Block(BARE, f.rest, level));
      SaysAppend(words, codes, CodesOf(Block(BARE, f.rest, level)), k, k1, S.EmitStmts(voc, sts, k));
    }
  }

  lemma {:induction false} CoreSays(voc: Y.Vocabulary, words: Words, f: Forest, st: S.Stmt, level: nat, k: Y.Tokens)
    requires KeywordTable(words) && f.Tree? && WellFormed(f) && DepictsOne(voc, words, f, st)
    requires Unmerged(S.EmitStmt(voc, st, k))
    ensures SaysCode(words, CodesOf(Core(BARE, f, level)), k, S.EmitStmt(voc, st, k))
    decreases f, 2
  {
    hide KeywordTable, SaysCode, CodesOf, Ended, Leg, Depicts, ReadsHead, ReadsSimple, ReadsExpr, Unmerged;
    match f.form
    case Simple(code) => SimpleSays(voc, words, f, st, level, k);
    case Repeat(cond) => RepeatSays(voc, words, f, st, level, k);
    case Branch(head, compact) => BranchSays(voc, words, f, st, level, k);
    case Choice(head, compact, elseCompact) => ChoiceSays(voc, words, f, st, level, k);
  }

  lemma SimpleSays(voc: Y.Vocabulary, words: Words, f: Forest, st: S.Stmt, level: nat, k: Y.Tokens)
    requires KeywordTable(words) && f.Tree? && f.form.Simple? && WellFormed(f) && DepictsOne(voc, words, f, st)
    ensures SaysCode(words, CodesOf(Core(BARE, f, level)), k, S.EmitStmt(voc, st, k))
  {
    var code := f.form.code;
    CodesLine(level, code + " ;");
    assert ReadsSimple(voc, words, code, st);
    assert Onto(words, Lex(code).tokens, Y.Cons(Y.Semi, k)) == S.EmitStmt(voc, st, k);
    hide Lex, KeywordTable, CodeText, Onto, Says, CodesOf, Line;
    SaysEnded(words, code, " ;", k);
    assert (code + " ;")[0] == code[0];
  }

  lemma SaysRepeat(voc: Y.Vocabulary, words: Words, body: seq<string>, cond: string, c: Y.Expr, k: Y.Tokens,
                   s: Y.Tokens)
    requires KeywordTable(words) && CodeText(cond) && ReadsExpr(voc, words, cond, c)
    requires Says(words, body, Y.Cons(Y.Kw(Y.KUntil), Emitter.Emit(voc, c, Y.Cons(Y.Semi, k))), s)
    ensures SaysCode(words, ["Repeat"] + (body + ["Until " + cond + " ;"]), k, Y.Cons(Y.Kw(Y.KRepeat), s))
  {
    var last := "Until " + cond + " ;";
    assert StartsCode("Repeat");
    assert "Repeat" in ENDS && EndMeant("Repeat") == Y.Kw(Y.KRepeat);
    hide *;
    SaysUntil(voc, words, cond, c, k);
    SaysWord(words, "Repeat", Y.KRepeat, s);
    SaysBetween(words, "Repeat", body, last, k, Y.Cons(Y.Kw(Y.KUntil), Emitter.Emit(voc, c, Y.Cons(Y.Semi, k))), s,
                Y.Cons(Y.Kw(Y.KRepeat), s));
  }

  lemma {:induction false} RepeatSays(voc: Y.Vocabulary, words: Words, f: Forest, st: S.Stmt, level: nat, k: Y.Tokens)
    requires KeywordTable(words) && f.Tree? && f.form.Repeat? && WellFormed(f) && DepictsOne(voc, words, f, st)
    requires Unmerged(S.EmitStmt(voc, st, k))
    ensures SaysCode(words, CodesOf(Core(BARE, f, level)), k, S.EmitStmt(voc, st, k))
    decreases f, 1
  {
    var k1 := Y.Cons(Y.Kw(Y.KUntil), Emitter.Emit(voc, st.cond, Y.Cons(Y.Semi, k)));
    RepeatCodes(f, level);
    hide CodeText, KeywordTable, Says, SaysCode, CodesOf, ReadsExpr, Depicts, Core, Block, S.EmitStmts, Emitter.Emit;
    BlockSays(voc, words, f.legs, st.body, level + 1, k1);
    SaysRepeat(voc, words, CodesOf(Block(BARE, f.legs, level + 1)), f.form.cond, st.cond, k,
               S.EmitStmts(voc, st.body, k1));
  }

  lemma RepeatCodes(f: Forest, level: nat)
    requires f.Tree? && f.form.Repeat? && WellFormed(f)
    ensures CodesOf(Core(BARE, f, level))
            == ["Repeat"] + (CodesOf(Block(BARE, f.legs, level + 1)) + ["Until " + f.form.cond + " ;"])
  {
    var first, body, last := Line(level, "Repeat"), Block(BARE, f.legs, level + 1),
      Line(level, "Until " + f.form.cond + " ;");
    CodesLine(level, "Repeat");
    CodesLine(level, "Until " + f.form.cond + " ;");
    hide CodesOf, Line, Block;
    CodesJoin(first, body);
    CodesJoin(first + body, last);
    Associate(["Repeat"], CodesOf(body), CodesOf(last));
  }

  /** The leg of an If, For, While or Once. */
  lemma {:induction false} BranchSays(voc: Y.Vocabulary, words: Words, f: Forest, st: S.Stmt, level: nat, k: Y.Tokens)
    requires KeywordTable(words) && f.Tree? && f.form.Branch? && WellFormed(f) && DepictsOne(voc, words, f, st)
    requires Unmerged(S.EmitStmt(voc, st, k))
    ensures SaysCode(words, CodesOf(Core(BARE, f, level)), k, S.EmitStmt(voc, st, k))
    decreases f, 1
  {
    var b := st.body;
    var leg := S.EmitLeg(voc, b, f.form.compact, true, k);
    BranchHead(voc, words, f, st, k);
    hide Lex, CodeText, KeywordTable, Onto, SaysCode, CodesOf, ReadsHead, Depicts, Leg, Ended;
    LegSays(voc, words, f.legs, b, level, f.form.head, f.form.compact, true, k);
  }

  lemma BranchHead(voc: Y.Vocabulary, words: Words, f: Forest, st: S.Stmt, k: Y.Tokens)
    requires f.Tree? && f.form.Branch? && WellFormed(f) && DepictsOne(voc, words, f, st)
    ensures (st.If? || st.For? || st.While? || st.Once?) && Depicts(voc, words, f.legs, st.body)
    ensures f.form.compact ==> S.Single(st.body)
    ensures Lex(f.form.head).Good?
    ensures Onto(words, Lex(f.form.head).tokens, S.EmitLeg(voc, st.body, f.form.compact, true, k))
            == S.EmitStmt(voc, st, k)
  {
    hide Lex, Onto, Depicts, S.EmitLeg, Emitter.Emit, S.Dangles, Head, ReadsSimple, ReadsExpr;
  }

  lemma ChoiceHead(voc: Y.Vocabulary, words: Words, f: Forest, st: S.Stmt, k: Y.Tokens)
    requires f.Tree? && f.form.Choice? && WellFormed(f) && DepictsOne(voc, words, f, st)
    ensures st.If? && st.orElse.Else? && Depicts(voc, words, f.legs, st.body)
    ensures Depicts(voc, words, f.orelse, st.orElse.body)
    ensures (f.form.compact ==> S.Single(st.body)) && (f.form.elseCompact ==> S.Single(st.orElse.body))
    ensures Lex(f.form.head).Good?
    ensures var k1 := Y.Cons(Y.Kw(Y.KElse), S.EmitLeg(voc, st.orElse.body, f.form.elseCompact, true, k));
            Onto(words, Lex(f.form.head).tokens, S.EmitLeg(voc, st.body, f.form.compact, false, k1))
              == S.EmitStmt(voc, st, k)
  {
    hide Lex, Onto, Depicts, S.EmitLeg, Emitter.Emit, S.Dangles, Head, ReadsSimple, ReadsExpr;
  }

  lemma ChoiceCodes(f: Forest, level: nat)
    requires f.Tree? && f.form.Choice? && WellFormed(f)
    ensures CodesOf(Core(BARE, f, level))
            == LegCodes(f.legs, level, f.form.head, f.form.compact, false)
               + LegCodes(f.orelse, level, "Else ", f.form.elseCompact, true)
  {
    hide CodesOf, Ended, Leg;
    CodesJoin(Ended(Leg(BARE, f.legs, level, f.form.head, f.form.compact), level, f.form.compact, "End"),
              Ended(Leg(BARE, f.orelse, level, "Else ", f.form.elseCompact), level, f.form.elseCompact, "End ;"));
  }

  lemma SaysUnmerged(words: Words, codes: seq<string>, k: Y.Tokens, s: Y.Tokens)
    requires Says(words, codes, k, s) && Unmerged(s)
    ensures Unmerged(k)
  {
    hide ReadCodes, Onto;
    UnmergedAfter(words, ReadCodes(codes).tokens, k);
  }

  /** An If with an Else leg. */
  lemma {:induction false} ChoiceSays(voc: Y.Vocabulary, words: Words, f: Forest, st: S.Stmt, level: nat, k: Y.Tokens)
    requires KeywordTable(words) && f.Tree? && f.form.Choice? && WellFormed(f) && DepictsOne(voc, words, f, st)
    requires Unmerged(S.EmitStmt(voc, st, k))
    ensures SaysCode(words, CodesOf(Core(BARE, f, level)), k, S.EmitStmt(voc, st, k))
    decreases f, 1
  {
    ChoiceHead(voc, words, f, st, k);
    ChoiceCodes(f, level);
    ElseIsHead();
    var s2 := S.EmitLeg(voc, st.orElse.body, f.form.elseCompact, true, k);
    var k1 := Y.Cons(Y.Kw(Y.KElse), s2);
    ElseReads(words, s2);
    hide Lex, CodeText, KeywordTable, Onto, Says, CodesOf, Core, LegCodes, Depicts, DepictsOne, S.EmitLeg, S.EmitStmt,
         Unmerged, StartsCode;
    var yes := LegCodes(f.legs, level, f.form.head, f.form.compact, false);
    LegSays(voc, words, f.legs, st.body, level, f.form.head, f.form.compact, false, k1);
    SaysUnmerged(words, yes, k1, S.EmitStmt(voc, st, k));
    LegSays(voc, words, f.orelse, st.orElse.body, level, "Else ", f.form.elseCompact, true, k);
    SaysAppend(words, yes, LegCodes(f.orelse, level, "Else ", f.form.elseCompact, true), k, k1, S.EmitStmt(voc, st, k));
  }

  // ---- The program ------------------------------------------------------------------------------------

  /** Without comments the emitted text lexes to the tokens of the statements. */
  lemma BareSays(voc: Y.Vocabulary, words: Words, f: Forest, sts: S.Stmts)
    requires KeywordTable(words) && WellFormed(f) && Depicts(voc, words, f, sts)
    requires Unmerged(S.EmitStmts(voc, sts, Y.Nil))
    ensures var r := Lex(Emitted(BARE, f));
            r.Good? && Onto(words, r.tokens, Y.Nil) == S.EmitStmts(voc, sts, Y.Nil)
  {
    BlockSays(voc, words, f, sts, 0, Y.Nil);
    hide Lex, Emitted, Program, Block, CodesOf, ReadCodes, Onto, Depicts, WellFormed, Unmerged, KeywordTable;
    BareReads(f);
    CodesOfProgram(BARE, f);
  }

  // ---- The merging of `crosses` with the name after it ------------------------------------------

  /** What the lexer takes for one name at the front is no second word when `SecondWord` finds none. */
  lemma FrontIsNoSecond(v: string, n: nat)
    requires v != [] && !Blank(v[0]) && SecondWord(v).None? && n == Munch(v) && n > 0
    ensures CrossWord(Lower(v[..n])).None?
  {
    assert Run(v, Blanks) == 0;
    LowerAt(v[..n], 0);
    assert v[..n][0] == v[0];
    if WordStart(v[0]) {
      assert n == 1 + Run(v[1..], Words) && v[0..n] == v[..n];
    } else {
      hide Lower, Munch, SecondWord;
    }
  }

  /** Nor is the first name read from it, when no comment comes before. */
  lemma {:induction false} FirstIsNoSecond(v: string)
    requires SecondWord(v).None? && Lex(v).Good? && Lex(v).notes == [] && Lex(v).tokens != []
    ensures var t := Lex(v).tokens[0]; t.Lexeme? ==> CrossWord(t.text).None?
    decreases |v|
  {
    EmptyLexes();
    LexTurn(v);
    hide Lex, SecondWord, CrossWord, NextStep;
    match NextStep(v)
    case Skip(n) =>
      SkipsBlank(v, n);
      SecondWordPasses(v[..n], v[n..]);
      FirstIsNoSecond(v[n..]);
    case Note(n) =>
    case Yield(n, t) => YieldIsNoSecond(v, n, t);
    case Error =>
  }

  lemma SkipsBlank(v: string, n: nat)
    requires v != [] && NextStep(v) == Skip(n)
    ensures n == 1 && AllBlank(v[..n]) && v[..n] + v[n..] == v
  {
    hide CodeStep;
  }

  lemma SecondIsCross(v: string)
    ensures SecondWord(v).Some? ==> !SecondWord(v).value.0.Lexeme?
  {
    hide Run, Lower;
  }

  lemma YieldIsNoSecond(v: string, n: nat, t: Token)
    requires v != [] && SecondWord(v).None? && NextStep(v) == Yield(n, t)
    ensures t.Lexeme? ==> CrossWord(t.text).None?
  {
    hide SecondWord, CrossWord, Munch, Lower;
    SecondIsCross(v[Munch(v)..]);
    if t.Lexeme? {
      FrontIsNoSecond(v, Munch(v));
    }
  }

  lemma LexemeIsCode(s: string)
    requires s != [] && NextStep(s).Yield? && NextStep(s).token.Lexeme?
    ensures NextStep(s) == CodeStep(s)
  {
    hide CodeStep;
  }

  /** `crosses` is read as a name only where no second word follows. */
  lemma CrossesStands(s: string, n: nat)
    requires s != [] && NextStep(s) == Yield(n, Lexeme(CROSSES))
    ensures SecondWord(s[n..]).None?
  {
    LexemeIsCode(s);
    hide NextStep;
    SecondIsCross(s[Munch(s)..]);
    hide SecondWord, Munch, Lower;
  }

  /** In the tokens of a text without comments `crosses` stands before no second word: the lexer
      makes one keyword of the two. */
  lemma {:induction false} TextIsUnmerged(words: Words, s: string)
    requires KeywordTable(words) && Lex(s).Good? && Lex(s).notes == []
    ensures Unmerged(Onto(words, Lex(s).tokens, Y.Nil))
    decreases |s|
  {
    EmptyLexes();
    if s != [] {
      LexTurn(s);
      hide Lex, NextStep, KeywordTable, CrossWord, SecondWord, Unmerged, Onto, Meant;
      match NextStep(s)
      case Skip(n) => TextIsUnmerged(words, s[n..]);
      case Note(n) =>
      case Yield(n, t) =>
        var rest := Lex(s[n..]).tokens;
        TextIsUnmerged(words, s[n..]);
        if t == Lexeme(CROSSES) {
          CrossesStands(s, n);
          if rest != [] {
            FirstIsNoSecond(s[n..]);
          }
        }
        UnmergedCons(words, t, rest);
      case Error =>
    } else {
      assert Onto(words, [], Y.Nil) == Y.Nil;
    }
  }

  lemma UnmergedCons(words: Words, t: Token, ts: seq<Token>)
    requires Unmerged(Onto(words, ts, Y.Nil))
    requires t == Lexeme(CROSSES) && ts != [] && ts[0].Lexeme? ==> CrossWord(ts[0].text).None?
    ensures Unmerged(Onto(words, [t] + ts, Y.Nil))
  {
    assert ([t] + ts)[1..] == ts;
    MeansName(words, t);
    if ts != [] {
      OntoFirst(words, ts, Y.Nil);
      MeansName(words, ts[0]);
    } else {
      assert Onto(words, ts, Y.Nil) == Y.Nil;
    }
    hide Meant, CrossWord;
  }

  /** A name is the text of a word. */
  lemma MeansName(words: Words, t: Token)
    ensures Meant(words, t).Id? ==> t == Lexeme(Meant(words, t).name)
  {
  }

  /** Without comments the emitted text lexes to the tokens of the statements exactly when no name
      `crosses` comes to stand before a second word. */
  lemma BareSaysExactly(voc: Y.Vocabulary, words: Words, f: Forest, sts: S.Stmts)
    requires KeywordTable(words) && WellFormed(f) && Depicts(voc, words, f, sts)
    ensures var r := Lex(Emitted(BARE, f));
            (r.Good? && Onto(words, r.tokens, Y.Nil) == S.EmitStmts(voc, sts, Y.Nil))
            <==> Unmerged(S.EmitStmts(voc, sts, Y.Nil))
  {
    hide *;
    if Unmerged(S.EmitStmts(voc, sts, Y.Nil)) {
      BareSays(voc, words, f, sts);
    } else if Lex(Emitted(BARE, f)).Good? {
      BareReads(f);
      NoNotes(ReadCodes(CodesOf(Program(BARE, f))));
      TextIsUnmerged(words, Emitted(BARE, f));
    }
  }

  /** Such a program: a loop while `crosses` whose body assigns to `above`. */
  lemma CrossesAboveMerges(voc: Y.Vocabulary, e: Y.Expr, k: Y.Tokens)
    ensures var body := S.MoreStmts(S.Assign(Y.Ident("above"), e), S.NoStmts);
            !Unmerged(S.EmitStmt(voc, S.While(Y.Ident(CROSSES), body, false), k))
  {
    var st := S.Assign(Y.Ident("above"), e);
    var body := S.MoreStmts(st, S.NoStmts);
    var s := S.EmitStmt(voc, st, k);
    assert s.head == Y.Id("above") && CrossWord("above").Some?;
    assert S.EmitStmt(voc, S.While(Y.Ident(CROSSES), body, false), k)
      == Y.Cons(Y.Kw(Y.KWhile), Y.Cons(Y.Id(CROSSES), s));
    hide S.EmitStmt, CrossWord;
    assert !Unmerged(Y.Cons(Y.Id(CROSSES), s));
  }

  lemma NoNotes(r: Lexed)
    ensures Noted(r, []).Good? ==> Noted(r, []).notes == []
  {
  }

  // ---- With comments ------------------------------------------------------------------------------

  /** The tokens parse to the program exactly when every statement is clear. */
  ghost predicate ParsesWhenClear(voc: Y.Vocabulary, tokens: Y.Tokens, sts: S.Stmts) {
    S.ParseProgram(voc, tokens) == Grammar.Ok(S.AllShown(sts), Y.Nil) <==> P.AllClear(voc, sts)
  }

  lemma EmittedParses(voc: Y.Vocabulary, sts: S.Stmts)
    requires Y.Coherent(voc) && P.AllFormed(voc, sts)
    ensures ParsesWhenClear(voc, S.EmitStmts(voc, sts, Y.Nil), sts)
  {
    hide S.ParseProgram, S.EmitStmts, S.AllShown, P.AllClear, P.AllFormed;
    ReadBack.ProgramReadsExactly(voc, sts);
  }

  /** The emitted text with its comments: it lexes to the tokens of the statements and to every
      comment, and parses to the program exactly when every statement is clear. */
  lemma EmittedProgramParses(voc: Y.Vocabulary, words: Words, a: Anchors, f: Forest, sts: S.Stmts)
    requires Y.Coherent(voc) && P.AllFormed(voc, sts) && KeywordTable(words)
    requires WellFormed(f) && AnchorsWhole(a) && Safe(a, f) && Depicts(voc, words, f, sts)
    requires Unmerged(S.EmitStmts(voc, sts, Y.Nil))
    ensures var r := Lex(Emitted(a, f));
            && r.Good? && r.notes == ShownAll(a, f) && Onto(words, r.tokens, Y.Nil) == S.EmitStmts(voc, sts, Y.Nil)
            && ParsesWhenClear(voc, Onto(words, r.tokens, Y.Nil), sts)
  {
    hide *;
    BareSays(voc, words, f, sts);
    EmissionReads(a, f);
    NotedTokens(Lex(Emitted(BARE, f)), ShownAll(a, f));
    EmittedParses(voc, sts);
  }

  lemma NotedTokens(r: Lexed, notes: seq<string>)
    requires r.Good?
    ensures Noted(r, notes) == Good(r.tokens, notes)
  {
  }
}
