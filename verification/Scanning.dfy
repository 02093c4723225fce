/** What the lexer makes of the words it joins and of the comments it nests. */
module Scanning {
  import opened Sequences
  import opened Lexer
  import opened LexerGaps
  import opened CommentReading
  import opened SourceText

  // ---- Crosses above, over, below, under ------------------------------------------------------------

  /** Whatever the case of its letters. */
  predicate Spells(w: string, word: string) {
    Lower(w) == word
  }

  predicate SmallLetters(w: string) {
    w != [] && forall i :: 0 <= i < |w| ==> 'a' <= w[i] <= 'z'
  }

  lemma SpelledIsWord(w: string)
    requires SmallLetters(Lower(w))
    ensures WordText(w) && |w| == |Lower(w)|
  {
    hide Lower;
    assert w != [] by {
      assert Lower([]) == [] by { EmptyLower(); }
    }
    forall i | 0 <= i < |w| ensures 'a' <= LowerChar(w[i]) <= 'z' {
      LowerAt(w, i);
    }
    LowerAt(w, 0);
    assert forall i :: 0 <= i < |w[1..]| ==> w[1..][i] == w[i + 1];
  }

  lemma EmptyLower()
    ensures Lower([]) == []
  {
  }

  /** `t` does not go on with the word before it. */
  predicate EndsWord(t: string) {
    t == [] || !In(Words, t[0])
  }

  lemma WordAhead(w: string, t: string)
    requires WordText(w) && EndsWord(t)
    ensures var s := w + t;
            && s[..|w|] == w && s[|w|..] == t && s[0] == w[0]
            && 1 + Run(s[1..], Words) == |w| && Munch(s) == |w| && Run(s, Blanks) == 0
  {
    AllWords(w[1..]);
    RunStops(w[1..], Words, t);
    assert (w + t)[1..] == w[1..] + t;
    hide WordPart;
  }

  lemma WordSecond(w: string, t: string)
    requires WordText(w) && EndsWord(t)
    ensures SecondWord(w + t) == match CrossWord(Lower(w)) case None => None case Some(x) => Some((x, |w|))
  {
    hide *;
    WordAhead(w, t);
    StartsWord(w);
    assert (w + t)[0..0 + |w|] == w;
    SecondWordIs(w + t, 0, |w|);
  }

  lemma StartsWord(w: string)
    requires WordText(w)
    ensures w != [] && WordStart(w[0]) && !Blank(w[0]) && w[0] != '{' && w[0] != '"' && w[0] != '/'
  {
  }

  lemma BlankEndsWord(g: string, t: string)
    requires g != [] && AllBlank(g)
    ensures EndsWord(g + t)
  {
  }

  lemma CrossesHasLetters()
    ensures SmallLetters(CROSSES)
  {
  }

  /** The step at `crosses`. */
  lemma CrossesStarts(c: string, t: string)
    requires Spells(c, CROSSES) && EndsWord(t)
    ensures c + t != []
            && NextStep(c + t) == match SecondWord(t)
                                  case Some(x) => Yield(|c| + x.1, x.0)
                                  case None => Yield(|c|, Lexeme(CROSSES))
  {
    assert Lower(c) == CROSSES;
    hide *;
    CrossesHasLetters();
    SpelledIsWord(c);
    WordAhead(c, t);
    StartsWord(c);
    NotASlash(c + t);
    CrossesStep(c + t, |c|);
  }

  /** And when blanks and a word follow. */
  lemma CrossesTurn(c: string, g: string, w: string, t: string)
    requires Spells(c, CROSSES) && g != [] && AllBlank(g) && WordText(w) && EndsWord(t)
    ensures var s := c + (g + (w + t));
            s != []
            && NextStep(s) == match CrossWord(Lower(w))
                              case Some(x) => Yield(|c| + |g| + |w|, x)
                              case None => Yield(|c|, Lexeme(CROSSES))
  {
    hide *;
    BlankEndsWord(g, w + t);
    CrossesStarts(c, g + (w + t));
    WordSecond(w, t);
    SecondWordPasses(g, w + t);
  }

  lemma DropThrough(c: string, g: string, w: string, t: string)
    ensures var s := c + (g + (w + t));
            && s[|c| + |g| + |w|..] == t && s[|c|..] == g + (w + t)
  {
  }

  lemma FourWords(w: string)
    ensures w == "above" || w == "over" ==> CrossWord(w) == Some(CrossesAbove)
    ensures w == "below" || w == "under" ==> CrossWord(w) == Some(CrossesBelow)
    ensures w != "above" && w != "over" && w != "below" && w != "under" ==> CrossWord(w) == None
  {
  }

  lemma YieldLexes(s: string, n: nat, x: Token)
    requires s != [] && NextStep(s) == Yield(n, x)
    ensures n <= |s| && Lex(s) == Before([x], [], Lex(s[n..]))
  {
    hide NextStep, Lex;
    LexTurn(s);
  }

  lemma CrossesLexes(c: string, g: string, w: string, t: string)
    requires Spells(c, CROSSES) && g != [] && AllBlank(g) && WordText(w) && EndsWord(t)
    ensures Lex(c + (g + (w + t))) == match CrossWord(Lower(w))
                                      case Some(x) => Before([x], [], Lex(t))
                                      case None => Before([Lexeme(CROSSES)], [], Lex(w + t))
  {
    hide *;
    var s := c + (g + (w + t));
    CrossesTurn(c, g, w, t);
    DropThrough(c, g, w, t);
    if CrossWord(Lower(w)).Some? {
      YieldLexes(s, |c| + |g| + |w|, CrossWord(Lower(w)).value);
    } else {
      YieldLexes(s, |c|, Lexeme(CROSSES));
      LexSkips(g, w + t);
    }
  }

  /** `crosses`, blanks, and a word, in any case: one keyword when the word is above, over, below or
      under, and two words otherwise. */
  lemma CrossesReads(c: string, g: string, w: string, t: string)
    requires Spells(c, "crosses") && g != [] && AllBlank(g) && WordText(w) && EndsWord(t)
    ensures Spells(w, "above") || Spells(w, "over") ==> Lex(c + (g + (w + t))) == Before([CrossesAbove], [], Lex(t))
    ensures Spells(w, "below") || Spells(w, "under") ==> Lex(c + (g + (w + t))) == Before([CrossesBelow], [], Lex(t))
    ensures !Spells(w, "above") && !Spells(w, "over") && !Spells(w, "below") && !Spells(w, "under") ==>
              Lex(c + (g + (w + t))) == Before([Lexeme("crosses")], [], Lex(w + t))
  {
    hide Lex, Lower, WordText, EndsWord, AllBlank, CrossWord, Before;
    CrossesLexes(c, g, w, t);
    FourWords(Lower(w));
  }

  // ---- Words, numbers and signs --------------------------------------------------------------------------

  predicate Letter(c: char) {
    'A' <= c <= 'Z' || 'a' <= c <= 'z'
  }

  predicate InWord(c: char) {
    Letter(c) || '0' <= c <= '9' || c == '_' || c == '.'
  }

  predicate OneWord(w: string) {
    w != [] && (Letter(w[0]) || w[0] == '_' || w[0] == '#') && forall i :: 1 <= i < |w| ==> InWord(w[i])
  }

  predicate AllDigits(d: string) {
    d != [] && forall i :: 0 <= i < |d| ==> '0' <= d[i] <= '9'
  }

  predicate StartsDigit(t: string) {
    t != [] && '0' <= t[0] <= '9'
  }

  lemma OneWordIsText(w: string)
    requires OneWord(w)
    ensures WordText(w)
  {
    assert forall i :: 0 <= i < |w[1..]| ==> w[1..][i] == w[i + 1];
  }

  lemma WordSteps(w: string, t: string)
    requires WordText(w) && EndsWord(t) && !Spells(w, CROSSES)
    ensures w + t != [] && NextStep(w + t) == Yield(|w|, Lexeme(Lower(w)))
  {
    assert Lower(w) != CROSSES;
    hide *;
    WordAhead(w, t);
    StartsWord(w);
    NotASlash(w + t);
    PlainStep(w + t, |w|);
  }

  /** A step that is a word, a number or a sign. */
  lemma PlainStep(s: string, n: nat)
    requires s != [] && s[0] != '{' && s[0] != '"' && !LineComment(s) && !Blank(s[0])
    requires n == Munch(s) && n > 0 && Lower(s[..n]) != CROSSES
    ensures NextStep(s) == Yield(n, Lexeme(Lower(s[..n])))
  {
    hide Munch, SecondWord, Lower, LineComment;
  }

  /** A word is one token, in small letters, up to the first character that is no letter, digit,
      underscore or dot. */
  lemma WordsRead(w: string, t: string)
    requires OneWord(w) && (t == [] || !InWord(t[0])) && !Spells(w, "crosses")
    ensures Lex(w + t) == Before([Lexeme(Lower(w))], [], Lex(t))
  {
    assert EndsWord(t);
    hide Lex, NextStep, Lower, WordText;
    OneWordIsText(w);
    WordSteps(w, t);
    YieldLexes(w + t, |w|, Lexeme(Lower(w)));
    assert (w + t)[|w|..] == t;
  }

  lemma {:induction false} DigitsRun(d: string, t: string)
    requires (forall i :: 0 <= i < |d| ==> '0' <= d[i] <= '9') && !StartsDigit(t)
    ensures Run(d + t, Digits) == |d|
  {
    if d == [] {
      assert d + t == t;
    } else {
      assert (d + t)[1..] == d[1..] + t;
      DigitsRun(d[1..], t);
    }
  }

  lemma DigitsAreSmall(d: string)
    requires forall i :: 0 <= i < |d| ==> '0' <= d[i] <= '9' || d[i] == '.'
    ensures Lower(d) == d
  {
    LowerSame(d);
  }

  /** `d`, all digits and perhaps a dot, is one token when it is what is munched. */
  lemma NumberLexes(d: string, t: string)
    requires d != [] && '0' <= d[0] <= '9' && (forall i :: 0 <= i < |d| ==> '0' <= d[i] <= '9' || d[i] == '.')
    requires NumberLength(d + t) == |d|
    ensures Lex(d + t) == Before([Lexeme(d)], [], Lex(t))
  {
    var s := d + t;
    assert s[0] == d[0] && s[..|d|] == d && s[|d|..] == t;
    assert Munch(s) == |d|;
    assert d != CROSSES;
    DigitsAreSmall(d);
    NotASlash(s);
    hide Lex, NextStep, Lower, Munch, NumberLength, LineComment;
    PlainStep(s, |d|);
    YieldLexes(s, |d|, Lexeme(d));
  }

  /** Digits are one number, unless a dot and more digits follow. */
  lemma WholeNumbersRead(d: string, t: string)
    requires AllDigits(d) && !StartsDigit(t) && !(t != [] && t[0] == '.' && StartsDigit(t[1..]))
    ensures Lex(d + t) == Before([Lexeme(d)], [], Lex(t))
  {
    DigitsRun(d, t);
    assert (d + t)[0] == d[0] && (|t| > 0 ==> (d + t)[|d|] == t[0]) && (|t| > 1 ==> (d + t)[|d| + 1] == t[1]);
    assert NumberLength(d + t) == |d|;
    hide NumberLength;
    NumberLexes(d, t);
  }

  /** In that case all of it is. */
  lemma DecimalsRead(d: string, f: string, t: string)
    requires AllDigits(d) && AllDigits(f) && !StartsDigit(t)
    ensures Lex(d + "." + f + t) == Before([Lexeme(d + "." + f)], [], Lex(t))
  {
    var s := d + ("." + (f + t));
    assert d + "." + f + t == s;
    DigitsRun(d, "." + (f + t));
    DigitsRun(f, t);
    assert s[0] == d[0] && s[|d|] == '.' && s[|d| + 1] == f[0] && s[|d| + 1..] == f + t;
    assert NumberLength(s) == |d + "." + f|;
    hide NumberLength;
    NumberLexes(d + "." + f, t);
  }

  predicate PairSign(o: string) {
    o == ">=" || o == "<=" || o == "<>" || o == ":=" || o == ".."
  }

  predicate SingleSign(c: char) {
    || c == '+' || c == '-' || c == '*' || c == '/' || c == '=' || c == '<' || c == '>' || c == ':' || c == ';'
    || c == ',' || c == '(' || c == ')' || c == '[' || c == ']'
  }

  lemma SignLexesAhead(o: string, t: string)
    requires Sign(o) && Munch(o + t) == |o| && !LineComment(o + t)
    ensures Lex(o + t) == Before([Lexeme(o)], [], Lex(t))
  {
    var s := o + t;
    SignIsMunched(o);
    assert s[0] == o[0] && s[..|o|] == o && s[|o|..] == t;
    assert o != CROSSES;
    hide Lex, NextStep, Lower, Munch, LineComment, Sign;
    PlainStep(s, |o|);
    YieldLexes(s, |o|, Lexeme(o));
  }

  /** The two-character signs. */
  lemma PairsRead(o: string, t: string)
    requires PairSign(o)
    ensures Lex(o + t) == Before([Lexeme(o)], [], Lex(t))
  {
    assert Sign(o) && |o| == 2;
    SignIsMunched(o);
    assert (o + t)[..2] == o && (o + t)[0] == o[0] && o[0] != '/';
    assert Munch(o + t) == 2;
    hide Lex, Lower, Munch, PairSign, Sign;
    SignLexesAhead(o, t);
  }

  lemma SignsAre(o: string, c: char)
    ensures o in PAIRS <==> PairSign(o)
    ensures c in SINGLES <==> SingleSign(c)
  {
  }

  lemma SingleMunched(c: char, t: string)
    requires SingleSign(c) && (t != [] ==> !PairSign([c, t[0]]))
    ensures Sign([c]) && Munch([c] + t) == 1 == |[c]|
  {
    SignsAre(if t != [] then [c, t[0]] else [], c);
    assert t != [] ==> ([c] + t)[..2] == [c, t[0]];
    hide PairSign, SingleSign, PAIRS, SINGLES;
    assert c in SINGLES;
    SignIsMunched([c]);
  }

  lemma NoLineComment(c: char, t: string)
    requires t != [] ==> !(c == '/' && t[0] == '/')
    ensures !LineComment([c] + t)
  {
  }

  /** A single sign that does not begin one of these, nor a line comment. */
  lemma SignsRead(c: char, t: string)
    requires SingleSign(c) && (t != [] ==> !PairSign([c, t[0]]) && !(c == '/' && t[0] == '/'))
    ensures Lex([c] + t) == Before([Lexeme([c])], [], Lex(t))
  {
    SingleMunched(c, t);
    NoLineComment(c, t);
    hide *;
    SignLexesAhead([c], t);
  }

  /** Spaces, tabs, returns and newlines between them are skipped. */
  lemma BlanksSkipped(c: char, t: string)
    requires c == ' ' || c == '\t' || c == '\r' || c == '\n'
    ensures Lex([c] + t) == Lex(t)
  {
    assert NextStep([c] + t) == Skip(1);
    hide NextStep;
    LexTurn([c] + t);
    assert ([c] + t)[1..] == t;
  }

  /** Anything else is an error. */
  lemma NothingElseReads(c: char, t: string)
    requires !InWord(c) && c != '#' && !SingleSign(c) && c != '{' && c != '"'
    requires c != ' ' && c != '\t' && c != '\r' && c != '\n'
    ensures Lex([c] + t) == Bad
  {
    var s := [c] + t;
    assert Munch(s) == 0 by {
      assert |s| >= 2 ==> s[..2][0] == c;
    }
    assert NextStep(s) == Error;
    hide NextStep;
    LexTurn(s);
  }

  // ---- Nested comments ----------------------------------------------------------------------------------

  /** Opening braces less closing ones. */
  function Opened(s: string): int {
    if s == [] then 0
    else (if s[0] == '{' then 1 else if s[0] == '}' then -1 else 0) + Opened(s[1..])
  }

  /** A comment ends at the first place where every brace is closed, and nowhere when there is none. */
  lemma {:induction false} CommentEndsAtBalance(s: string, depth: nat)
    ensures match CommentEnd(s, depth)
            case Some(n) => depth + Opened(s[..n]) == 0 && forall i :: 0 <= i < n ==> depth + Opened(s[..i]) > 0
            case None => forall i :: 0 <= i <= |s| ==> depth + Opened(s[..i]) > 0
    decreases |s|
  {
    if depth > 0 && s != [] {
      var d := if s[0] == '{' then depth + 1 else if s[0] == '}' then depth - 1 else depth;
      CommentEndsAtBalance(s[1..], d);
      forall i | 1 <= i <= |s| ensures depth + Opened(s[..i]) == d + Opened(s[1..][..i - 1]) {
        assert s[..i][1..] == s[1..][..i - 1];
      }
      var r := CommentEnd(s[1..], d);
      hide CommentEnd;
      forall i | 0 <= i <= |s| && (r.Some? ==> i < 1 + r.value) ensures depth + Opened(s[..i]) > 0 {
        if i > 0 {
          assert d + Opened(s[1..][..i - 1]) > 0;
        }
      }
    }
  }
}
