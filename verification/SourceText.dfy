/** The text of expressions and of the heads of statements, character by character: it lexes to the
    tokens that the emitter is specified to print. */
module SourceText {
  import opened Sequences
  import opened Lexer
  import opened LexerGaps
  import opened Layout
  import opened WrapTheorem
  import opened CommentLayout
  import opened CommentReading
  import opened EmissionTheorem
  import opened TokenText
  import Y = Syntax
  import E = Emitter

  type Words = map<string, Y.Word>

  // ---- Pieces of text ---------------------------------------------------------------------------

  /** A piece of code whose tokens before `k` are `s`. */
  ghost predicate Reads(words: Words, text: string, k: Y.Tokens, s: Y.Tokens) {
    && text != [] && CodeText(text)
    && Lex(text).Good? && Onto(words, Lex(text).tokens, k) == s
  }

  /** Blanks and the signs that are tokens of their own end what is before them. */
  predicate Parts(c: char) {
    Blank(c) || Alone(c)
  }

  /** A piece of one token that what follows cannot change. */
  ghost predicate Prefix(words: Words, text: string, t: Y.Token) {
    && text != [] && CodeText(text) && Parts(text[|text| - 1]) && Run(text, Blanks) < |text|
    && Lex(text).Good? && |Lex(text).tokens| == 1 && Lex(text).tokens[0] != Lexeme(CROSSES)
    && Meant(words, Lex(text).tokens[0]) == t
  }

  /** And which changes nothing before it. */
  ghost predicate Infix(words: Words, text: string, t: Y.Token) {
    Prefix(words, text, t) && Parts(text[0]) && NoSecond(text)
  }

  lemma PartsBounds(x: string, t: string)
    requires x != [] && t != [] && (Parts(x[|x| - 1]) || Parts(t[0]))
    ensures Bounded(x, t)
  {
  }

  lemma Join(words: Words, x: string, t: string, k: Y.Tokens, s1: Y.Tokens, s: Y.Tokens)
    requires Reads(words, t, k, s1) && Reads(words, x, s1, s) && Bounded(x, t)
    requires NoSecond(t) || !EndsCrossing(Lex(x))
    ensures Reads(words, x + t, k, s)
  {
    CodeCloses(x);
    hide Lex, CodeText, Closed, NoSecond, EndsCrossing, Onto;
    CodeJoins(x, t);
    LexSplits(x, t);
    OntoAppends(words, Lex(x).tokens, Lex(t).tokens, k);
  }

  lemma PrefixReads(words: Words, o: string, t: Y.Token, y: string, k: Y.Tokens, s: Y.Tokens)
    requires Prefix(words, o, t) && Reads(words, y, k, s)
    ensures Reads(words, o + y, k, Y.Cons(t, s))
  {
    hide Lex, CodeText, Run;
    PartsBounds(o, y);
    assert Lex(o).tokens == [Lex(o).tokens[0]];
    OntoOne(words, Lex(o).tokens[0], s);
    Join(words, o, y, k, s, Y.Cons(t, s));
  }

  /** Two pieces with one between them. */
  lemma InfixReads(words: Words, x: string, o: string, t: Y.Token, y: string, k: Y.Tokens, s1: Y.Tokens, s: Y.Tokens)
    requires Infix(words, o, t) && Reads(words, y, k, s1) && Reads(words, x, Y.Cons(t, s1), s)
    ensures Reads(words, x + o + y, k, s)
  {
    PrefixReads(words, o, t, y, k, s1);
    PartsBounds(o, y);
    PartsBounds(x, o + y);
    hide Lex, CodeText, Run, Onto, Meant, Bounded, SecondWord;
    SecondWordBounded(o, y);
    Associate(x, o, y);
    Join(words, x, o + y, k, Y.Cons(t, s1), s);
  }

  /** A piece and one after it. */
  lemma SuffixReads(words: Words, x: string, o: string, t: Y.Token, k: Y.Tokens, s: Y.Tokens)
    requires Infix(words, o, t) && Reads(words, x, Y.Cons(t, k), s)
    ensures Reads(words, x + o, k, s)
  {
    hide Lex, CodeText, Run, SecondWord;
    PartsBounds(x, o);
    assert Lex(o).tokens == [Lex(o).tokens[0]];
    OntoOne(words, Lex(o).tokens[0], k);
    Join(words, x, o, k, Y.Cons(t, k), s);
  }

  // ---- Words and signs ----------------------------------------------------------------------------

  predicate AllParts(s: string) {
    forall i :: 0 <= i < |s| ==> WordPart(s[i])
  }

  /** The text of one word. */
  predicate WordText(w: string) {
    w != [] && WordStart(w[0]) && AllParts(w[1..])
  }

  lemma WordIsCode(w: string)
    requires WordText(w)
    ensures CodeText(w) && StartsCode(w) && Run(w, Blanks) == 0 && 1 + Run(w[1..], Words) == |w| && Munch(w) == |w|
  {
    forall i | 0 <= i < |w| ensures w[i] != '\n' && w[i] != '"' && w[i] != '{' && w[i] != '/' {
      assert i > 0 ==> w[i] == w[1..][i - 1];
    }
    PlainCode(w);
    AllWords(w[1..]);
    hide CodeText;
  }

  lemma WordLexes(w: string)
    requires WordText(w)
    ensures Lex(w) == Good([Lexeme(Lower(w))], [])
  {
    WordIsCode(w);
    assert w[..|w|] == w && w[|w|..] == [];
    assert SecondWord([]) == None;
    hide Munch, Lower, Run, CodeText, SecondWord, WordPart;
    assert NextStep(w) == Yield(|w|, Lexeme(Lower(w)));
    hide NextStep;
    LexTurn(w);
    EmptyLexes();
    hide Lex;
    assert [Lexeme(Lower(w))] + [] == [Lexeme(Lower(w))];
  }

  /** A sign that is an operator or punctuation. */
  predicate Sign(w: string) {
    w in PAIRS || (|w| == 1 && w[0] in SINGLES)
  }

  /** A sign begins with one of the single signs or a dot; none is a letter, quote or brace. */
  lemma SignChars(w: string)
    requires Sign(w)
    ensures 1 <= |w| <= 2 && (w[0] in SINGLES || w[0] == '.')
    ensures |w| == 2 ==> w in PAIRS && w[0] != '/' && (w[1] == '=' || w[1] == '>' || w[1] == '.')
  {
  }

  lemma SingleChar(c: char)
    requires c in SINGLES || c == '.'
    ensures !Blank(c) && c != '{' && c != '"' && c != '\n' && !WordStart(c) && !IsDigit(c) && LowerChar(c) == c
  {
  }

  lemma LowerShort(w: string)
    requires 1 <= |w| <= 2
    ensures Lower(w) == if |w| == 1 then [LowerChar(w[0])] else [LowerChar(w[0]), LowerChar(w[1])]
  {
    if |w| == 2 {
      assert w[1..] == [w[1]] && [w[1]][1..] == [];
    }
  }

  lemma SignIsMunched(w: string)
    requires Sign(w)
    ensures w != [] && !Blank(w[0]) && w[0] != '{' && w[0] != '"' && !LineComment(w) && !WordStart(w[0])
    ensures !IsDigit(w[0])
    ensures Munch(w) == |w| && Lower(w) == w
    ensures forall i :: 0 <= i < |w| ==> w[i] != '\n' && w[i] != '"' && w[i] != '{' && (w[i] == '/' ==> |w| == 1)
  {
    SignChars(w);
    SingleChar(w[0]);
    LowerShort(w);
    SignLength(w);
    hide Sign, WordStart, IsDigit, PAIRS, SINGLES, Lower, Munch;
  }

  lemma SignLength(w: string)
    requires Sign(w) && !WordStart(w[0]) && !IsDigit(w[0])
    ensures Munch(w) == |w|
  {
    SignChars(w);
    assert |w| == 2 ==> w[..2] == w;
    hide Sign, WordStart, IsDigit, PAIRS, Run, NumberLength;
  }

  lemma SignLexes(w: string)
    requires Sign(w)
    ensures Lex(w) == Good([Lexeme(w)], []) && w != CROSSES
  {
    SignIsMunched(w);
    assert w[..|w|] == w && w[|w|..] == [];
    assert w != CROSSES;
    hide Munch, Lower, SecondWord, LineComment;
    assert NextStep(w) == Yield(|w|, Lexeme(w));
    hide NextStep;
    LexTurn(w);
    EmptyLexes();
    hide Lex;
    assert [Lexeme(w)] + [] == [Lexeme(w)];
  }

  lemma SignIsCode(w: string)
    requires Sign(w)
    ensures CodeText(w)
  {
    SignIsMunched(w);
    if |w| == 1 && w[0] == '/' {
      assert w[1..] == [];
    } else {
      assert |w| == 1 ==> w[0] != '/';
      PlainCode(w);
    }
  }

  /** One token's text, with a blank after it or on both sides. */
  lemma PaddedIs(words: Words, w: string, t: Y.Token)
    requires w != [] && CodeText(w) && !Blank(w[0]) && Lex(w).Good? && |Lex(w).tokens| == 1
    requires Lex(w).tokens[0] != Lexeme(CROSSES) && Meant(words, Lex(w).tokens[0]) == t
    ensures Prefix(words, w + " ", t)
    ensures NoSecond(w + " ") ==> Infix(words, " " + (w + " "), t)
  {
    BlankAfter(w);
    BlankBefore(w + " ");
    hide Lex, CodeText, SecondWord, Meant;
  }

  lemma BlankAfter(w: string)
    requires w != [] && CodeText(w) && !Blank(w[0]) && Lex(w).Good?
    ensures CodeText(w + " ") && Run(w + " ", Blanks) == 0
    ensures !EndsCrossing(Lex(w)) ==> Lex(w + " ").Good? && Lex(w + " ").tokens == Lex(w).tokens
  {
    PlainCode(" ");
    CodeCloses(w);
    PartsBounds(w, " ");
    assert SecondWord(" ").None?;
    assert AllBlank(" ") && " " + [] == " ";
    LexSkips(" ", []);
    EmptyLexes();
    hide Lex, CodeText, Closed, SecondWord;
    CodeJoins(w, " ");
    LexSplits(w, " ");
    assert Lex(w).Good? ==> Lex(w).tokens + [] == Lex(w).tokens;
  }

  lemma BlankBefore(w: string)
    requires CodeText(w) && Run(w, Blanks) == 0 && w != []
    ensures CodeText(" " + w) && Lex(" " + w) == Lex(w) && Run(" " + w, Blanks) == 1
    ensures NoSecond(" " + w) <==> NoSecond(w)
  {
    PlainCode(" ");
    assert AllBlank(" ");
    assert (" " + w)[1..] == w;
    SecondWordPasses(" ", w);
    hide Lex, CodeText, SecondWord;
    CodeJoins(" ", w);
    LexSkips(" ", w);
  }

  lemma SpellingIsWord(k: Y.Word)
    requires Spelling(k) != []
    ensures WordText(Spelling(k))
  {
    if Leading(k) {
      LeadingIsWord(k);
    } else {
      assert forall i :: 0 <= i < |Spelling(k)[1..]| ==> Spelling(k)[1..][i] == Spelling(k)[i + 1];
    }
  }

  predicate Leading(k: Y.Word) {
    k in {Y.KIf, Y.KThen, Y.KElse, Y.KBegin, Y.KEnd, Y.KFor, Y.KTo, Y.KDownTo, Y.KWhile, Y.KRepeat, Y.KUntil}
  }

  lemma LeadingIsWord(k: Y.Word)
    requires Leading(k)
    ensures WordText(Spelling(k))
  {
    assert forall i :: 0 <= i < |Spelling(k)[1..]| ==> Spelling(k)[1..][i] == Spelling(k)[i + 1];
  }

  /** A text that lexes to one token. */
  lemma OneTokenReads(words: Words, text: string, t: Token, k: Y.Tokens)
    requires text != [] && CodeText(text) && Lex(text) == Good([t], [])
    ensures Reads(words, text, k, Y.Cons(Meant(words, t), k))
  {
    hide Lex, CodeText, Meant, Onto;
    OntoOne(words, t, k);
  }

  lemma KeywordMeans(words: Words, k: Y.Word)
    requires KeywordTable(words) && Spelling(k) != [] && WordText(Spelling(k))
    ensures var w := Spelling(k);
            Meant(words, Lexeme(Lower(w))) == Y.Kw(k) && Lower(w) != CROSSES && PlainWord(w) && !Blank(w[0])
  {
    hide *;
    var w := Spelling(k);
    TableEntry(words, k);
    LowerStarts(w);
    KeywordIs(words, Lower(w));
    NoCrossing(w);
  }

  lemma TableEntry(words: Words, k: Y.Word)
    requires KeywordTable(words) && Spelling(k) != []
    ensures var t := Lower(Spelling(k));
            t in words && words[t] == k && t != CROSSES && CrossWord(t).None?
  {
    hide Spelling, Lower, CrossWord;
  }

  lemma LowerStarts(w: string)
    requires WordText(w)
    ensures Lower(w) != [] && WordStart(Lower(w)[0]) && !IsDigit(Lower(w)[0])
  {
    hide Lower;
    LowerAt(w, 0);
  }

  lemma KeywordIs(words: Words, t: string)
    requires t != [] && WordStart(t[0]) && !IsDigit(t[0]) && t in words
    ensures Meant(words, Lexeme(t)) == Y.Kw(words[t])
  {
  }

  lemma NoCrossing(w: string)
    requires WordText(w) && Lower(w) != CROSSES && CrossWord(Lower(w)).None?
    ensures PlainWord(w) && !Blank(w[0])
  {
    hide Lower, CrossWord, CROSSES;
    WordIsCode(w);
  }

  /** The text of a keyword. */
  lemma KeywordText(words: Words, k: Y.Word)
    requires KeywordTable(words) && Spelling(k) != []
    ensures var w := Spelling(k);
            && Prefix(words, w + " ", Y.Kw(k)) && Infix(words, " " + (w + " "), Y.Kw(k)) && StartsCode(w)
            && forall s :: Reads(words, w, s, Y.Cons(Y.Kw(k), s))
  {
    hide *;
    var w := Spelling(k);
    SpellingIsWord(k);
    KeywordMeans(words, k);
    WordIsCode(w);
    WordLexes(w);
    BlankSigns();
    WordReads(w, " ");
    PaddedIs(words, w, Y.Kw(k));
    forall s ensures Reads(words, w, s, Y.Cons(Y.Kw(k), s)) {
      OneTokenReads(words, w, Lexeme(Lower(w)), s);
    }
  }

  /** The text of an operator or of punctuation. */
  lemma SignText(words: Words, w: string)
    requires Sign(w)
    ensures Prefix(words, w + " ", SymbolToken(w)) && Infix(words, " " + (w + " "), SymbolToken(w))
    ensures |w| == 1 && Alone(w[0]) ==> Infix(words, w, SymbolToken(w)) && Infix(words, w + " ", SymbolToken(w))
  {
    SignIsCode(w);
    SignLexes(w);
    SignIsMunched(w);
    assert Run(w, Blanks) == 0 && Run(w + " ", Blanks) == 0;
    assert NoSecond(w) && NoSecond(w + " ");
    SignMeans(words, w);
    hide Lex, CodeText, SecondWord, Run, SymbolToken, Meant, Sign;
    PaddedIs(words, w, SymbolToken(w));
  }

  lemma SignMeans(words: Words, w: string)
    requires Sign(w)
    ensures Meant(words, Lexeme(w)) == SymbolToken(w)
  {
    SignIsMunched(w);
    hide SymbolToken;
  }

  // ---- Expressions ------------------------------------------------------------------------------------

  /** A name in the casing it is printed with. */
  function Cased(casing: map<string, string>, name: string): string {
    if name in casing then casing[name] else name
  }

  function BinText(op: Y.BinOp): string {
    match op
    case Or => " or "
    case And => " and "
    case Plus => " + "
    case Minus => " - "
    case Times => " * "
    case Div => " / "
    case Mod => " mod "
  }

  function CmpText(op: Y.CmpOp): string {
    match op
    case Eq => " = "
    case Lt => " < "
    case Gt => " > "
    case Ge => " >= "
    case Le => " <= "
    case Ne => " <> "
  }

  function CrossText(above: bool): string {
    if above then " crosses above " else " crosses below "
  }

  function OperandText(voc: Y.Vocabulary, casing: map<string, string>, e: Y.Expr, parent: nat, isRight: bool): string
    decreases e, 1
  {
    if E.NeedsParens(e, parent, isRight) then "(" + ExprText(voc, casing, e) + ")" else ExprText(voc, casing, e)
  }

  function ExprText(voc: Y.Vocabulary, casing: map<string, string>, e: Y.Expr): string
    decreases e, 0
  {
    match e
    case Number(t, sym) => if sym.Some? then Cased(casing, sym.value) else t
    case Text(v) => "\"" + v + "\""
    case Boolean(b) => if b then "true" else "false"
    case Ident(n) => Cased(casing, if n == Y.INTERNAL_MARKET_POSITION then Y.MARKET_POSITION else n)
    case Binary(op, l, r) =>
      OperandText(voc, casing, l, E.Prec(e), false) + BinText(op) + OperandText(voc, casing, r, E.Prec(e), true)
    case Compare(op, l, r) => OperandText(voc, casing, l, 4, false) + CmpText(op) + OperandText(voc, casing, r, 4, true)
    case Crosses(above, l, r) =>
      OperandText(voc, casing, l, 4, false) + CrossText(above) + OperandText(voc, casing, r, 4, true)
    case Not(x) => "not " + OperandText(voc, casing, x, 3, true)
    case Neg(x) => "-" + OperandText(voc, casing, x, 7, true)
    case Call(n, es) => Cased(casing, n) + "(" + ArgsText(voc, casing, es) + ")"
    case BarRef(x, i) => ExprText(voc, casing, x) + "[" + ExprText(voc, casing, i) + "]"
    case PosKw(kw) => Cased(casing, E.Spelled(voc.spelling, kw))
    case PosKwCall(kw, a, b) =>
      Cased(casing, E.Spelled(voc.spelling, kw)) + "(" + (ExprText(voc, casing, a) + ", " + ExprText(voc, casing, b))
        + ")"
    case McKw(kw) => Cased(casing, E.Spelled(voc.mcSpelling, kw))
    case DataOf(src, n) => Cased(casing, src) + " of " + Cased(casing, Y.DataName(n))
  }

  function ArgsText(voc: Y.Vocabulary, casing: map<string, string>, es: Y.Args): string
    decreases es
  {
    match es
    case NoArgs => []
    case MoreArgs(e, rest) =>
      if rest.NoArgs? then ExprText(voc, casing, e)
      else ExprText(voc, casing, e) + ", " + ArgsText(voc, casing, rest)
  }

  /** A name whose printed form lexes to it. */
  predicate NameText(words: Words, casing: map<string, string>, name: string) {
    WordText(Cased(casing, name)) && Lower(Cased(casing, name)) == name && name !in words
  }

  predicate NumberText(t: string) {
    t != [] && IsDigit(t[0]) && NumberLength(t) == |t|
  }

  /** The emission refuses a literal with a quote or a line break. */
  predicate LiteralText(v: string) {
    '"' !in v && '\n' !in v && '\r' !in v
  }

  /** What the tree names, counts and quotes can be printed. */
  predicate Printable(voc: Y.Vocabulary, words: Words, casing: map<string, string>, e: Y.Expr)
    decreases e
  {
    match e
    case Number(t, sym) => if sym.Some? then NameText(words, casing, sym.value) else NumberText(t)
    case Text(v) => LiteralText(v)
    case Boolean(_) => true
    case Ident(n) => NameText(words, casing, if n == Y.INTERNAL_MARKET_POSITION then Y.MARKET_POSITION else n)
    case Binary(_, l, r) => Printable(voc, words, casing, l) && Printable(voc, words, casing, r)
    case Compare(_, l, r) => Printable(voc, words, casing, l) && Printable(voc, words, casing, r)
    case Crosses(_, l, r) => Printable(voc, words, casing, l) && Printable(voc, words, casing, r)
    case Not(x) => Printable(voc, words, casing, x)
    case Neg(x) => Printable(voc, words, casing, x)
    case Call(n, es) => NameText(words, casing, n) && ArgsPrintable(voc, words, casing, es)
    case BarRef(x, i) => Printable(voc, words, casing, x) && Printable(voc, words, casing, i)
    case PosKw(kw) => NameText(words, casing, E.Spelled(voc.spelling, kw))
    case PosKwCall(kw, a, b) =>
      NameText(words, casing, E.Spelled(voc.spelling, kw)) && Printable(voc, words, casing, a)
        && Printable(voc, words, casing, b)
    case McKw(kw) => NameText(words, casing, E.Spelled(voc.mcSpelling, kw))
    case DataOf(src, n) =>
      NameText(words, casing, src) && Y.OF !in words && NameText(words, casing, Y.DataName(n))
  }

  predicate ArgsPrintable(voc: Y.Vocabulary, words: Words, casing: map<string, string>, es: Y.Args)
    decreases es
  {
    es.MoreArgs? ==> Printable(voc, words, casing, es.arg) && ArgsPrintable(voc, words, casing, es.rest)
  }

  lemma NameReads(words: Words, casing: map<string, string>, name: string, k: Y.Tokens)
    requires NameText(words, casing, name)
    ensures Reads(words, Cased(casing, name), k, Y.Cons(Y.Id(name), k)) && StartsCode(Cased(casing, name))
  {
    var w := Cased(casing, name);
    WordIsCode(w);
    WordLexes(w);
    LowerAt(w, 0);
    assert Meant(words, Lexeme(name)) == Y.Id(name);
    hide Lex, CodeText, Lower, Meant, WordText, Run, Munch;
    OntoOne(words, Lexeme(name), k);
  }

  lemma {:induction false} LowerSame(t: string)
    requires forall i :: 0 <= i < |t| ==> LowerChar(t[i]) == t[i]
    ensures Lower(t) == t
  {
    if t != [] {
      LowerSame(t[1..]);
    }
  }

  lemma NumberReads(words: Words, t: string, k: Y.Tokens)
    requires NumberText(t)
    ensures Reads(words, t, k, Y.Cons(Y.Num(t), k)) && StartsCode(t)
  {
    forall i | 0 <= i < |t| ensures (IsDigit(t[i]) || t[i] == '.') && LowerChar(t[i]) == t[i] {
      NumberIsPlain(t, i);
    }
    LowerSame(t);
    PlainCode(t);
    assert t[..|t|] == t && t[|t|..] == [] && t != CROSSES;
    hide CodeText, Lower, NumberLength, SecondWord, LowerChar, WordPart, WordStart;
    assert NextStep(t) == Yield(|t|, Lexeme(t));
    hide NextStep;
    LexTurn(t);
    EmptyLexes();
    hide Lex;
    assert [Lexeme(t)] + [] == [Lexeme(t)];
    OntoOne(words, Lexeme(t), k);
  }

  lemma LiteralReads(words: Words, v: string, k: Y.Tokens)
    requires LiteralText(v)
    ensures Reads(words, "\"" + v + "\"", k, Y.Cons(Y.Token.Str(v), k)) && StartsCode("\"" + v + "\"")
  {
    hide *;
    LiteralIsCode(v);
    LiteralLexes(v);
    OneTokenReads(words, "\"" + v + "\"", Token.Str(v), k);
    StringMeans(words, v);
  }

  lemma StringMeans(words: Words, v: string)
    ensures Meant(words, Token.Str(v)) == Y.Token.Str(v) && StartsCode("\"" + v + "\"")
  {
  }

  lemma LiteralSlices(v: string)
    ensures var t := "\"" + v + "\"";
            t[0] == '"' && t[1..] == v + "\"" && t[1..1 + |v|] == v && t[|v| + 2..] == []
  {
  }

  lemma LiteralIsCode(v: string)
    requires LiteralText(v)
    ensures CodeText("\"" + v + "\"")
  {
    var t := "\"" + v + "\"";
    assert '\n' !in t;
    LiteralSlices(v);
    QuoteEnds(v);
    StartAtQuote(t);
    OpenPastLiteral(t, |v|);
    assert CommentStart([]) == None && !OpenText([]);
    hide CommentStart, OpenText, Find;
  }

  lemma LiteralStep(t: string, v: string)
    requires t != [] && t[0] == '"' && StringEnd(t[1..]) == Some(|v|) && t[1..1 + |v|] == v
    ensures NextStep(t) == Yield(2 + |v|, Token.Str(v))
  {
  }

  lemma LiteralLexes(v: string)
    requires LiteralText(v)
    ensures Lex("\"" + v + "\"") == Good([Token.Str(v)], [])
  {
    var t := "\"" + v + "\"";
    LiteralSlices(v);
    QuoteEnds(v);
    LiteralStep(t, v);
    hide NextStep, Find, StringEnd;
    LexTurn(t);
    EmptyLexes();
    hide Lex;
    assert [Token.Str(v)] + [] == [Token.Str(v)];
  }

  lemma {:induction false} QuoteEnds(v: string)
    requires LiteralText(v)
    ensures StringEnd(v + "\"") == Some(|v|) && Find(v + "\"", '"') == Some(|v|)
  {
    if v != [] {
      assert (v + "\"")[1..] == v[1..] + "\"";
      QuoteEnds(v[1..]);
    }
  }

  lemma BinReads(words: Words, op: Y.BinOp)
    requires KeywordTable(words)
    ensures Infix(words, BinText(op), E.BinToken(op))
  {
    hide KeywordTable, Infix;
    match op
    case Or => Keyword(words, Y.KOr, " or ");
    case And => Keyword(words, Y.KAnd, " and ");
    case Mod => Keyword(words, Y.KMod, " mod ");
    case Plus => Operator(words, "+", " + ");
    case Minus => Operator(words, "-", " - ");
    case Times => Operator(words, "*", " * ");
    case Div => Operator(words, "/", " / ");
  }

  lemma Keyword(words: Words, k: Y.Word, text: string)
    requires KeywordTable(words) && Spelling(k) != [] && text == " " + (Spelling(k) + " ")
    ensures Infix(words, text, Y.Kw(k))
  {
    hide Infix, Prefix, Spelling, KeywordTable, Reads;
    KeywordText(words, k);
  }

  lemma Operator(words: Words, w: string, text: string)
    requires Sign(w) && text == " " + (w + " ")
    ensures Infix(words, text, SymbolToken(w))
  {
    hide Infix, Prefix, SymbolToken, Sign;
    SignText(words, w);
  }

  lemma CmpReads(words: Words, op: Y.CmpOp)
    ensures Infix(words, CmpText(op), E.CmpToken(op))
  {
    hide Infix;
    match op
    case Eq => Operator(words, "=", " = ");
    case Lt => Operator(words, "<", " < ");
    case Gt => Operator(words, ">", " > ");
    case Ge => Operator(words, ">=", " >= ");
    case Le => Operator(words, "<=", " <= ");
    case Ne => Operator(words, "<>", " <> ");
  }

  lemma CrossReads(words: Words, above: bool)
    ensures Infix(words, CrossText(above), E.CrossToken(above))
  {
    var second := if above then "above" else "below";
    var w := CROSSES + (" " + second);
    assert " " + (w + " ") == CrossText(above);
    CrossLexes(second);
    hide Lex, CodeText, Infix, Prefix, SecondWord, CrossText, CROSSES;
    PaddedIs(words, w, E.CrossToken(above));
  }

  predicate CrossSecond(second: string) {
    second == "above" || second == "below"
  }

  /** The two words of a cross are one token. */
  lemma CrossLexes(second: string)
    requires CrossSecond(second)
    ensures var w := CROSSES + (" " + second);
            && w != [] && w[0] == 'c' && CodeText(w) && NoSecond(w + " ")
            && Lex(w) == Good([if second == "above" then CrossesAbove else CrossesBelow], [])
            && Lex(w).tokens[0] != Lexeme(CROSSES)
  {
    var w := CROSSES + (" " + second);
    var t := if second == "above" then CrossesAbove else CrossesBelow;
    CrossIsCode(second);
    CrossesFirst(" " + second);
    SecondFound(second);
    CrossesStep(w, 7);
    hide CodeText, SecondWord, Munch, Lower, NextStep, CROSSES, Run;
    LexTurn(w);
    EmptyLexes();
    hide Lex;
    assert w[|w|..] == [] && [t] + [] == [t];
  }

  lemma CrossIsCode(second: string)
    requires CrossSecond(second)
    ensures var w := CROSSES + (" " + second);
            CodeText(w) && w[0] == 'c' && |w| == 13 && !LineComment(w) && NoSecond(w + " ")
  {
    hide *;
    CrossesIsWord();
    SecondIsWord(second);
    WordIsCode(CROSSES);
    WordIsCode(second);
    BlankBefore(second);
    CodeJoins(CROSSES, " " + second);
    BlankSigns();
    CrossesFirst(" " + second + " ");
    Associate(CROSSES, " " + second, " ");
    NotASlash(CROSSES + (" " + second));
  }

  lemma NotASlash(s: string)
    requires s != [] && s[0] != '/'
    ensures !LineComment(s)
  {
  }

  lemma CrossesIsWord()
    ensures WordText(CROSSES) && Lower(CROSSES) == CROSSES && |CROSSES| == 7 && CROSSES[0] == 'c'
    ensures WordStart(CROSSES[0]) && CrossWord(CROSSES).None?
  {
    hide Lower;
    CrossesIsLower();
  }

  lemma CrossesIsLower()
    ensures Lower(CROSSES) == CROSSES
  {
    hide Lower;
    LowerSame(CROSSES);
  }

  lemma SecondIsWord(second: string)
    requires CrossSecond(second)
    ensures WordText(second) && Lower(second) == second && |second| == 5 && WordStart(second[0])
    ensures CrossWord(second) == Some(if second == "above" then CrossesAbove else CrossesBelow)
  {
    hide Lower;
    SecondIsLower(second);
  }

  lemma SecondIsLower(second: string)
    requires CrossSecond(second)
    ensures Lower(second) == second
  {
    hide Lower;
    LowerSame(second);
  }

  lemma BlankStops(c: char)
    requires Blank(c)
    ensures Stops(c) && !In(Words, c)
  {
  }

  lemma CrossesFirst(t: string)
    requires t != [] && Blank(t[0])
    ensures var w := CROSSES + t;
            Munch(w) == 7 && w[..7] == CROSSES && Lower(w[..7]) == CROSSES && w[7..] == t && NoSecond(w)
  {
    hide *;
    CrossesIsWord();
    WordIsCode(CROSSES);
    BlankStops(t[0]);
    MunchStops(CROSSES, t);
    RunStops(CROSSES, Blanks, t);
    RunStops(CROSSES[1..], Words, t);
    DropAppend(CROSSES, t, 1);
    DropAppend(CROSSES, t, 7);
    assert (CROSSES + t)[0..7] == CROSSES;
    SecondWordIs(CROSSES + t, 0, 7);
    SecondIsNone(CROSSES + t);
  }

  lemma SecondIsNone(t: string)
    requires SecondWord(t) == None
    ensures NoSecond(t)
  {
  }

  lemma SecondFound(second: string)
    requires CrossSecond(second)
    ensures SecondWord(" " + second) == Some((if second == "above" then CrossesAbove else CrossesBelow, 6))
  {
    hide *;
    SecondIsWord(second);
    WordIsCode(second);
    assert second[0..5] == second;
    SecondWordIs(second, 0, 5);
    BlankSigns();
    SecondWordPasses(" ", second);
  }

  /** Brackets, the separator of arguments, and the sign. */
  lemma BracketReads(words: Words)
    ensures Infix(words, "(", Y.LPar) && Infix(words, ")", Y.RPar) && Infix(words, "[", Y.LBr)
    ensures Infix(words, "]", Y.RBr)
    ensures Infix(words, ", ", Y.Comma) && Infix(words, "-", Y.Op(Y.SMinus))
  {
    hide Infix, Prefix;
    SignText(words, "(");
    SignText(words, ")");
    SignText(words, "[");
    SignText(words, "]");
    SignText(words, ",");
    assert "," + " " == ", ";
    SignText(words, "-");
  }

  lemma {:induction false} OperandReads(voc: Y.Vocabulary, words: Words, casing: map<string, string>, e: Y.Expr,
                                        parent: nat, isRight: bool, k: Y.Tokens)
    requires KeywordTable(words) && Printable(voc, words, casing, e)
    ensures var t := OperandText(voc, casing, e, parent, isRight);
            Reads(words, t, k, E.Operand(voc, e, parent, isRight, k)) && StartsCode(t)
    decreases e, 3
  {
    hide KeywordTable, Printable, Reads, Infix, E.Emit, ExprText;
    if E.NeedsParens(e, parent, isRight) {
      var t := ExprText(voc, casing, e);
      ExprReads(voc, words, casing, e, Y.Cons(Y.RPar, k));
      BracketReads(words);
      SuffixReads(words, t, ")", Y.RPar, k, E.Emit(voc, e, Y.Cons(Y.RPar, k)));
      InfixIsPrefix(words, "(", Y.LPar);
      PrefixReads(words, "(", Y.LPar, t + ")", k, E.Emit(voc, e, Y.Cons(Y.RPar, k)));
      Associate("(", t, ")");
    } else {
      ExprReads(voc, words, casing, e, k);
    }
  }

  lemma InfixIsPrefix(words: Words, text: string, t: Y.Token)
    requires Infix(words, text, t)
    ensures Prefix(words, text, t)
  {
  }

  lemma StillStarts(x: string, y: string)
    requires StartsCode(x)
    ensures StartsCode(x + y)
  {
    assert (x + y)[0] == x[0];
  }

  /** Two operands and the operator between them. */
  lemma {:induction false} PairReads(voc: Y.Vocabulary, words: Words, casing: map<string, string>, e: Y.Expr, l: Y.Expr,
                                     r: Y.Expr, parent: nat, o: string, t: Y.Token, k: Y.Tokens)
    requires KeywordTable(words) && Printable(voc, words, casing, l) && Printable(voc, words, casing, r)
    requires Infix(words, o, t) && l < e && r < e
    ensures var text := OperandText(voc, casing, l, parent, false) + o + OperandText(voc, casing, r, parent, true);
            Reads(words, text, k, E.Operand(voc, l, parent, false, Y.Cons(t, E.Operand(voc, r, parent, true, k))))
            && StartsCode(text)
    decreases e, 0
  {
    hide KeywordTable, Printable, Reads, Infix, E.Operand, OperandText, StartsCode;
    var s1 := E.Operand(voc, r, parent, true, k);
    OperandReads(voc, words, casing, r, parent, true, k);
    OperandReads(voc, words, casing, l, parent, false, Y.Cons(t, s1));
    var x, y := OperandText(voc, casing, l, parent, false), OperandText(voc, casing, r, parent, true);
    InfixReads(words, x, o, t, y, k, s1, E.Operand(voc, l, parent, false, Y.Cons(t, s1)));
    StillStarts(x, o);
    StillStarts(x + o, y);
  }

  /** The text of an expression lexes to what the emitter prints. */
  lemma {:induction false} ExprReads(voc: Y.Vocabulary, words: Words, casing: map<string, string>, e: Y.Expr,
                                     k: Y.Tokens)
    requires KeywordTable(words) && Printable(voc, words, casing, e)
    ensures Reads(words, ExprText(voc, casing, e), k, E.Emit(voc, e, k)) && StartsCode(ExprText(voc, casing, e))
    decreases e, 2
  {
    hide KeywordTable, Reads, Infix, E.Operand, OperandText, StartsCode, NameText, NumberText, LiteralText, BinText,
         CmpText, CrossText;
    match e
    case Binary(op, l, r) =>
      BinReads(words, op);
      PairReads(voc, words, casing, e, l, r, E.Prec(e), BinText(op), E.BinToken(op), k);
    case Compare(op, l, r) =>
      CmpReads(words, op);
      PairReads(voc, words, casing, e, l, r, 4, CmpText(op), E.CmpToken(op), k);
    case Crosses(above, l, r) =>
      CrossReads(words, above);
      PairReads(voc, words, casing, e, l, r, 4, CrossText(above), E.CrossToken(above), k);
    case Not(_) => SignedReads(voc, words, casing, e, k);
    case Neg(_) => SignedReads(voc, words, casing, e, k);
    case Call(_, _) => CalledReads(voc, words, casing, e, k);
    case BarRef(_, _) => CalledReads(voc, words, casing, e, k);
    case PosKwCall(_, _, _) => CalledReads(voc, words, casing, e, k);
    case _ => LeafReads(voc, words, casing, e, k);
  }

  lemma {:induction false} SignedReads(voc: Y.Vocabulary, words: Words, casing: map<string, string>, e: Y.Expr,
                                       k: Y.Tokens)
    requires KeywordTable(words) && Printable(voc, words, casing, e) && (e.Not? || e.Neg?)
    ensures Reads(words, ExprText(voc, casing, e), k, E.Emit(voc, e, k)) && StartsCode(ExprText(voc, casing, e))
    decreases e, 1
  {
    if e.Not? {
      NotReads(voc, words, casing, e, k);
    } else {
      NegReads(voc, words, casing, e, k);
    }
  }

  lemma {:induction false} NotReads(voc: Y.Vocabulary, words: Words, casing: map<string, string>, e: Y.Expr,
                                    k: Y.Tokens)
    requires KeywordTable(words) && Printable(voc, words, casing, e) && e.Not?
    ensures Reads(words, ExprText(voc, casing, e), k, E.Emit(voc, e, k)) && StartsCode(ExprText(voc, casing, e))
    decreases e, 0
  {
    hide KeywordTable, Reads, Prefix, E.Operand, OperandText, StartsCode;
    var y := OperandText(voc, casing, e.operand, 3, true);
    OperandReads(voc, words, casing, e.operand, 3, true, k);
    NotWord(words);
    PrefixReads(words, "not ", Y.Kw(Y.KNot), y, k, E.Operand(voc, e.operand, 3, true, k));
    StillStarts("not ", y);
  }

  lemma {:induction false} NegReads(voc: Y.Vocabulary, words: Words, casing: map<string, string>, e: Y.Expr,
                                    k: Y.Tokens)
    requires KeywordTable(words) && Printable(voc, words, casing, e) && e.Neg?
    ensures Reads(words, ExprText(voc, casing, e), k, E.Emit(voc, e, k)) && StartsCode(ExprText(voc, casing, e))
    decreases e, 0
  {
    hide KeywordTable, Reads, Prefix, Infix, E.Operand, OperandText, StartsCode;
    var y := OperandText(voc, casing, e.operand, 7, true);
    OperandReads(voc, words, casing, e.operand, 7, true, k);
    MinusSign(words);
    PrefixReads(words, "-", Y.Op(Y.SMinus), y, k, E.Operand(voc, e.operand, 7, true, k));
    StillStarts("-", y);
  }

  lemma NotWord(words: Words)
    requires KeywordTable(words)
    ensures Prefix(words, "not ", Y.Kw(Y.KNot)) && StartsCode("not ")
  {
    hide KeywordTable, Prefix, Infix, Reads;
    KeywordText(words, Y.KNot);
    assert Spelling(Y.KNot) + " " == "not ";
  }

  lemma MinusSign(words: Words)
    ensures Prefix(words, "-", Y.Op(Y.SMinus)) && StartsCode("-")
  {
    hide Infix, Prefix;
    BracketReads(words);
    InfixIsPrefix(words, "-", Y.Op(Y.SMinus));
  }

  lemma LeafReads(voc: Y.Vocabulary, words: Words, casing: map<string, string>, e: Y.Expr, k: Y.Tokens)
    requires KeywordTable(words) && Printable(voc, words, casing, e)
    requires e.Number? || e.Text? || e.Boolean? || e.Ident? || e.PosKw? || e.McKw? || e.DataOf?
    ensures Reads(words, ExprText(voc, casing, e), k, E.Emit(voc, e, k)) && StartsCode(ExprText(voc, casing, e))
  {
    hide Reads, Infix, StartsCode, NameText, NumberText, LiteralText, Cased, KeywordTable, E.Spelled;
    match e
    case Number(t, sym) =>
      if sym.Some? {
        NameReads(words, casing, sym.value, k);
      } else {
        NumberReads(words, t, k);
      }
    case Text(v) => LiteralReads(words, v, k);
    case Boolean(b) => BooleanReads(words, b, k);
    case Ident(n) => NameReads(words, casing, if n == Y.INTERNAL_MARKET_POSITION then Y.MARKET_POSITION else n, k);
    case PosKw(kw) => NameReads(words, casing, E.Spelled(voc.spelling, kw), k);
    case McKw(kw) => NameReads(words, casing, E.Spelled(voc.mcSpelling, kw), k);
    case DataOf(src, n) => DataReads(words, casing, src, n, k);
  }

  lemma BooleanReads(words: Words, b: bool, k: Y.Tokens)
    requires KeywordTable(words)
    ensures var t := if b then "true" else "false";
            Reads(words, t, k, Y.Cons(Y.Kw(if b then Y.KTrue else Y.KFalse), k)) && StartsCode(t)
  {
    hide KeywordTable, Reads, StartsCode, Infix, Prefix;
    KeywordText(words, if b then Y.KTrue else Y.KFalse);
  }

  lemma OfReads(words: Words)
    requires Y.OF !in words
    ensures Infix(words, " of ", Y.Id(Y.OF))
  {
    assert WordText("of");
    WordIsCode("of");
    WordLexes("of");
    LowerShort("of");
    assert Lower("of") == Y.OF && PlainWord("of");
    hide Lex, CodeText, Lower, PlainWord, WordText, Run, Munch, Infix, Prefix, SecondWord;
    WordReads("of", " ");
    PaddedIs(words, "of", Y.Id(Y.OF));
    assert " " + ("of" + " ") == " of ";
  }

  lemma DataReads(words: Words, casing: map<string, string>, src: string, n: nat, k: Y.Tokens)
    requires NameText(words, casing, src) && Y.OF !in words && NameText(words, casing, Y.DataName(n))
    ensures var t := Cased(casing, src) + " of " + Cased(casing, Y.DataName(n));
            Reads(words, t, k, Y.Cons(Y.Id(src), Y.Cons(Y.Id(Y.OF), Y.Cons(Y.Id(Y.DataName(n)), k)))) && StartsCode(t)
  {
    hide NameText, Cased, Reads, Infix, StartsCode, Y.DataName;
    var x, y := Cased(casing, src), Cased(casing, Y.DataName(n));
    var s1 := Y.Cons(Y.Id(Y.DataName(n)), k);
    OfReads(words);
    NameReads(words, casing, Y.DataName(n), k);
    NameReads(words, casing, src, Y.Cons(Y.Id(Y.OF), s1));
    InfixReads(words, x, " of ", Y.Id(Y.OF), y, k, s1, Y.Cons(Y.Id(src), Y.Cons(Y.Id(Y.OF), s1)));
    StillStarts(x, " of ");
    StillStarts(x + " of ", y);
  }

  /** A name and what it encloses. */
  lemma EnclosedReads(words: Words, x: string, open: string, y: string, close: string, a: Y.Token, b: Y.Token,
                      k: Y.Tokens, s1: Y.Tokens, s: Y.Tokens)
    requires Infix(words, open, a) && Infix(words, close, b) && StartsCode(x)
    requires Reads(words, y, Y.Cons(b, k), s1) && Reads(words, x, Y.Cons(a, s1), s)
    ensures Reads(words, x + open + y + close, k, s) && StartsCode(x + open + y + close)
  {
    hide Reads, Infix, StartsCode;
    SuffixReads(words, y, close, b, k, s1);
    InfixReads(words, x, open, a, y + close, k, s1, s);
    Associate(x + open, y, close);
    StillStarts(x, open);
    StillStarts(x + open, y + close);
  }

  lemma EmptyArgsRead(words: Words, x: string, k: Y.Tokens, s: Y.Tokens)
    requires Infix(words, "(", Y.LPar) && Infix(words, ")", Y.RPar) && StartsCode(x)
    requires Reads(words, x, Y.Cons(Y.LPar, Y.Cons(Y.RPar, k)), s)
    ensures Reads(words, x + "(" + [] + ")", k, s) && StartsCode(x + "(" + [] + ")")
  {
    hide Reads, Infix, StartsCode;
    SuffixReads(words, x, "(", Y.LPar, Y.Cons(Y.RPar, k), s);
    SuffixReads(words, x + "(", ")", Y.RPar, k, s);
    assert x + "(" + [] == x + "(";
    StillStarts(x, "(");
    StillStarts(x + "(", ")");
  }

  lemma {:induction false} CalledReads(voc: Y.Vocabulary, words: Words, casing: map<string, string>, e: Y.Expr,
                                       k: Y.Tokens)
    requires KeywordTable(words) && Printable(voc, words, casing, e) && (e.Call? || e.BarRef? || e.PosKwCall?)
    ensures Reads(words, ExprText(voc, casing, e), k, E.Emit(voc, e, k)) && StartsCode(ExprText(voc, casing, e))
    decreases e, 1
  {
    BracketReads(words);
    hide KeywordTable, Reads, Infix, StartsCode, NameText, Cased;
    match e
    case Call(n, es) =>
      var k1 := E.EmitArgs(voc, es, Y.Cons(Y.RPar, k));
      NameReads(words, casing, n, Y.Cons(Y.LPar, k1));
      if es.NoArgs? {
        EmptyArgsRead(words, Cased(casing, n), k, Y.Cons(Y.Id(n), Y.Cons(Y.LPar, k1)));
      } else {
        ArgsRead(voc, words, casing, es, Y.Cons(Y.RPar, k));
        EnclosedReads(words, Cased(casing, n), "(", ArgsText(voc, casing, es), ")", Y.LPar, Y.RPar, k, k1,
                      Y.Cons(Y.Id(n), Y.Cons(Y.LPar, k1)));
      }
    case BarRef(x, i) =>
      var k1 := E.Emit(voc, i, Y.Cons(Y.RBr, k));
      ExprReads(voc, words, casing, i, Y.Cons(Y.RBr, k));
      ExprReads(voc, words, casing, x, Y.Cons(Y.LBr, k1));
      EnclosedReads(words, ExprText(voc, casing, x), "[", ExprText(voc, casing, i), "]", Y.LBr, Y.RBr, k, k1,
                    E.Emit(voc, x, Y.Cons(Y.LBr, k1)));
    case PosKwCall(_, _, _) => TwiceCalledReads(voc, words, casing, e, k);
  }

  lemma {:induction false} TwiceCalledReads(voc: Y.Vocabulary, words: Words, casing: map<string, string>, e: Y.Expr,
                                            k: Y.Tokens)
    requires KeywordTable(words) && Printable(voc, words, casing, e) && e.PosKwCall?
    ensures Reads(words, ExprText(voc, casing, e), k, E.Emit(voc, e, k)) && StartsCode(ExprText(voc, casing, e))
    decreases e, 0
  {
    BracketReads(words);
    hide KeywordTable, Reads, Infix, StartsCode, NameText, Cased;
    var name := E.Spelled(voc.spelling, e.kwarg);
    var a, b := ExprText(voc, casing, e.first), ExprText(voc, casing, e.second);
    var k2 := E.Emit(voc, e.second, Y.Cons(Y.RPar, k));
    var k1 := E.Emit(voc, e.first, Y.Cons(Y.Comma, k2));
    ExprReads(voc, words, casing, e.second, Y.Cons(Y.RPar, k));
    ExprReads(voc, words, casing, e.first, Y.Cons(Y.Comma, k2));
    InfixReads(words, a, ", ", Y.Comma, b, Y.Cons(Y.RPar, k), k2, k1);
    NameReads(words, casing, name, Y.Cons(Y.LPar, k1));
    EnclosedReads(words, Cased(casing, name), "(", a + ", " + b, ")", Y.LPar, Y.RPar, k, k1,
                  Y.Cons(Y.Id(name), Y.Cons(Y.LPar, k1)));
  }

  lemma {:induction false} ArgsRead(voc: Y.Vocabulary, words: Words, casing: map<string, string>, es: Y.Args,
                                    k: Y.Tokens)
    requires KeywordTable(words) && ArgsPrintable(voc, words, casing, es) && es.MoreArgs?
    ensures Reads(words, ArgsText(voc, casing, es), k, E.EmitArgs(voc, es, k))
    decreases es, 2
  {
    BracketReads(words);
    hide KeywordTable, Reads, Infix, StartsCode, Printable, ExprText, E.Emit;
    if es.rest.NoArgs? {
      ExprReads(voc, words, casing, es.arg, k);
    } else {
      var k1 := E.EmitArgs(voc, es.rest, k);
      ArgsRead(voc, words, casing, es.rest, k);
      ExprReads(voc, words, casing, es.arg, Y.Cons(Y.Comma, k1));
      InfixReads(words, ExprText(voc, casing, es.arg), ", ", Y.Comma, ArgsText(voc, casing, es.rest), k, k1,
                 E.Emit(voc, es.arg, Y.Cons(Y.Comma, k1)));
    }
  }
}
