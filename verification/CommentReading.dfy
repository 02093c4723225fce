/** The lexer on the lines of `CommentLayout`: lines of code and whole comments read one by one,
    and a torn comment, or a comment after a `//` run on the same line, does not read back. */
module CommentReading {
  import opened Sequences
  import opened Lexer
  import opened LexerGaps
  import opened Layout
  import opened WrapTheorem
  import opened CommentLayout
  import opened CommentPrinting
  import opened CommentText

  // ---- Lines of code ------------------------------------------------------------------------------

  /** How a line of emitted code ends. */
  const ENDS: set<string> := {" ;", "Begin", "End", "Repeat"}

  /** Code that ends in `w`, which is lexed on its own. */
  ghost predicate EndsWith(code: string, x: string, w: string) {
    code == x + w && w in ENDS && CodeText(x) && (w == " ;" || x == [] || EndsBlank(x))
  }

  /** A whole line of emitted code. */
  ghost predicate Firm(code: string) {
    exists x, w :: EndsWith(code, x, w)
  }

  lemma CodeCloses(s: string)
    requires CodeText(s)
    ensures Closed(s)
  {
    LineCloses(s);
  }

  /** A word that neither begins nor ends a two-word keyword. */
  predicate PlainWord(w: string) {
    w != [] && WordStart(w[0]) && 1 + Run(w[1..], Words) == |w| && Lower(w) != CROSSES && CrossWord(Lower(w)).None?
  }

  lemma WordEnds(w: string, t: string)
    requires PlainWord(w) && (t == [] || Blank(t[0]))
    ensures 1 + Run((w + t)[1..], Words) == |w|
  {
    RunStops(w[1..], Words, t);
    DropAppend(w, t, 1);
  }

  /** A word before a blank. */
  lemma WordReads(w: string, t: string)
    requires PlainWord(w) && (t == [] || Blank(t[0]))
    ensures NoSecond(w + t)
    ensures Lex(w + t) == Before([Lexeme(Lower(w))], [], Lex(t))
  {
    var s := w + t;
    WordIsNext(w, t);
    DropAppend(w, t, |w|);
    hide NextStep, NoSecond, Lex, Lower;
    LexTurn(s);
  }

  lemma WordIsNext(w: string, t: string)
    requires PlainWord(w) && (t == [] || Blank(t[0]))
    ensures NoSecond(w + t) && NextStep(w + t) == Yield(|w|, Lexeme(Lower(w)))
  {
    hide *;
    WordFront(w, t);
    WordEnds(w, t);
    WordIsMunched(w + t, w);
    WordStep(w + t, |w|);
  }

  lemma WordFront(w: string, t: string)
    requires PlainWord(w)
    ensures var s := w + t;
            && s != [] && w != [] && |w| <= |s| && s[0] == w[0] && s[..|w|] == w && !IsDigit(s[0]) && !Blank(s[0])
            && s[0] != '{' && s[0] != '"' && !LineComment(s) && Lower(w) != CROSSES
  {
    hide Lower, CrossWord, Run;
  }

  /** The step at a word that begins no two-word keyword. */
  lemma WordStep(s: string, n: nat)
    requires s != [] && !Blank(s[0]) && s[0] != '{' && s[0] != '"' && !LineComment(s)
    requires Munch(s) == n > 0 && Lower(s[..n]) != CROSSES
    ensures NextStep(s) == Yield(n, Lexeme(Lower(s[..n])))
  {
    hide Lower, LineComment, Munch, SecondWord;
  }

  lemma WordIsMunched(s: string, w: string)
    requires PlainWord(w) && |w| <= |s| && s[..|w|] == w && 1 + Run(s[1..], Words) == |w| && s[0] == w[0]
    requires !IsDigit(s[0]) && !Blank(s[0])
    ensures Munch(s) == |w| && NoSecond(s)
  {
    assert Run(s, Blanks) == 0 && s[0..|w|] == w;
    hide Lower, CrossWord, LineComment, WordPart, Run;
    SecondWordIs(s, 0, |w|);
  }

  /** The keywords that the layout adds to the pieces of a statement. */
  predicate LayoutWord(w: string) {
    w == "Begin" || w == "End" || w == "Repeat" || w == "Else" || w == "Until"
  }

  lemma KeywordIsPlain(w: string)
    requires LayoutWord(w)
    ensures PlainWord(w)
  {
    AllWords(w[1..]);
    WordIsPlain(w);
    hide Lower, CrossWord;
  }

  lemma {:induction false} AllWords(s: string)
    requires forall i :: 0 <= i < |s| ==> WordPart(s[i])
    ensures Run(s, Words) == |s|
  {
    if s != [] {
      AllWords(s[1..]);
    }
  }

  lemma WordIsPlain(w: string)
    requires LayoutWord(w)
    ensures Lower(w) != CROSSES && CrossWord(Lower(w)).None?
  {
    LowerAt(w, 2);
  }

  lemma {:induction false} LowerAt(w: string, i: nat)
    requires i < |w|
    ensures |Lower(w)| == |w| && Lower(w)[i] == LowerChar(w[i])
  {
    if |w| > 1 {
      LowerAt(w[1..], if i == 0 then 0 else i - 1);
    }
  }

  lemma SemicolonReads(t: string)
    ensures NoSecond(" ;" + t)
    ensures Lex(" ;" + t) == Before([Lexeme(";")], [], Lex(t))
  {
    var s := ";" + t;
    assert " ;" + t == " " + s && s[1..] == t && s[..1] == ";";
    assert AllBlank(" ");
    LexSkips(" ", s);
    assert Run(s, Blanks) == 0;
    assert (" " + s)[1..] == s;
    assert Run(" " + s, Blanks) == 1 && (" " + s)[1] == ';';
    assert |s| >= 2 ==> s[..2][0] == ';' && s[..2] !in PAIRS;
    assert Munch(s) == 1;
    assert Lower(";") == ";" by { assert ";"[1..] == []; }
    assert NextStep(s) == Yield(1, Lexeme(";"));
    LexTurn(s);
  }

  function EndToken(w: string): Token {
    if w == " ;" then Lexeme(";") else Lexeme(Lower(w))
  }

  lemma EndReads(w: string, t: string)
    requires w in ENDS && (t == [] || Blank(t[0]))
    ensures NoSecond(w + t)
    ensures Lex(w + t) == Before([EndToken(w)], [], Lex(t))
  {
    if w == " ;" {
      SemicolonReads(t);
    } else {
      KeywordIsPlain(w);
      hide PlainWord;
      WordReads(w, t);
    }
  }

  lemma FollowedBy(a: Lexed, t: Token, r: Lexed)
    ensures Followed(a, Before([t], [], r)) == Followed(Followed(a, Before([t], [], Good([], []))), r)
  {
    if a.Good? && r.Good? {
      assert a.tokens + ([t] + r.tokens) == a.tokens + ([t] + []) + r.tokens;
      assert a.notes + ([] + r.notes) == a.notes + ([] + []) + r.notes;
    }
  }

  lemma FirmSplits(code: string, x: string, w: string, t: string)
    requires EndsWith(code, x, w) && (t == [] || Blank(t[0]))
    ensures Lex(code + t) == Followed(Lex(x), Before([EndToken(w)], [], Lex(t)))
  {
    CodeCloses(x);
    assert code + t == x + (w + t);
    assert Seam(x, w + t);
    assert x == [] || Bounded(x, w + t);
    EndReads(w, t);
    hide Lex, Closed, NoSecond, Bounded, Seam, CodeText;
    LexSplits(x, w + t);
  }

  /** A line of code is lexed on its own. */
  lemma FirmReads(code: string, t: string)
    requires Firm(code) && (t == [] || Blank(t[0]))
    ensures Lex(code + t) == Followed(Lex(code), Lex(t))
  {
    var x, w :| EndsWith(code, x, w);
    FirmSplits(code, x, w, t);
    FirmSplits(code, x, w, []);
    assert code + [] == code;
    EmptyLexes();
    hide Lex;
    FollowedBy(Lex(x), EndToken(w), Lex(t));
  }

  lemma EmptyLexes()
    ensures Lex([]) == Good([], [])
  {
  }

  // ---- Code holds no comment --------------------------------------------------------------------

  lemma {:induction false} StartDrops(s: string, n: nat)
    requires CommentStart(s).None? && PlainFor(s, n)
    ensures CommentStart(s[n..]).None?
  {
    if n == 0 {
      assert s[0..] == s;
    } else {
      assert s[0..] == s;
      forall i | 0 <= i < n - 1 ensures s[1..][i] != '{' && s[1..][i] != '"' && !LineComment(s[1..][i..]) {
        assert s[1..][i..] == s[i + 1..];
      }
      StartDrops(s[1..], n - 1);
      assert s[1..][n - 1..] == s[n..];
    }
  }

  lemma CodeStepDrops(s: string)
    requires s != [] && s[0] != '{' && s[0] != '"' && !LineComment(s) && CommentStart(s).None? && CodeStep(s).Yield?
    ensures CommentStart(s[CodeStep(s).n..]).None?
  {
    hide CommentStart, Munch, SecondWord, PlainFor, Lower, LineComment;
    var n := Munch(s);
    MunchIsPlain(s);
    StartDrops(s, n);
    if SecondWord(s[n..]).Some? {
      var m := SecondWord(s[n..]).value.1;
      SecondWordIsPlain(s[n..]);
      StartDrops(s[n..], m);
      DropTwice(s, n, m);
    }
  }

  lemma {:induction false} QuoteFound(s: string)
    requires StringEnd(s).Some?
    ensures Find(s, '"') == StringEnd(s)
  {
    if s[0] != '"' {
      QuoteFound(s[1..]);
    }
  }

  lemma StepDrops(s: string)
    requires s != [] && CommentStart(s).None? && !NextStep(s).Error?
    ensures !NextStep(s).Note? && CommentStart(s[NextStep(s).n..]).None?
  {
    if Blank(s[0]) {
    } else if s[0] == '"' {
      QuoteFound(s[1..]);
    } else {
      CodeStepDrops(s);
    }
  }

  lemma {:induction false} NoNotes(s: string)
    requires CommentStart(s).None? && Lex(s).Good?
    ensures Lex(s).notes == []
    decreases |s|
  {
    if s != [] {
      StepDrops(s);
      hide NextStep, CommentStart;
      NoNotes(s[NextStep(s).n..]);
    }
  }

  // ---- Comments after code ----------------------------------------------------------------------

  /** Only the last comment of a line may be a `//` run. */
  predicate RunsLast(notes: seq<string>) {
    forall i :: 0 <= i < |notes| - 1 ==> !LineComment(notes[i])
  }

  ghost predicate Whole(notes: seq<string>) {
    forall n :: n in notes ==> IsNote(n)
  }

  lemma OneMoreNote(n: string, notes: seq<string>, r: Lexed)
    ensures Before([], [n], Before([], notes, r)) == Before([], [n] + notes, r)
  {
    BeforeAppends([], [n], [], notes, r);
  }

  lemma TailFirst(notes: seq<string>, rest: string)
    requires notes != []
    ensures Tail(notes) + "\n" + rest == " " + (notes[0] + (Tail(notes[1..]) + "\n" + rest))
  {
    Associate(" ", notes[0], Tail(notes[1..]));
    Associate(" ", notes[0] + Tail(notes[1..]), "\n" + rest);
    Associate(notes[0], Tail(notes[1..]), "\n" + rest);
    Associate(Tail(notes), "\n", rest);
    Associate(Tail(notes[1..]), "\n", rest);
  }

  /** Comments after code read back, in order, when only the last is a run. */
  lemma {:induction false} TailReads(notes: seq<string>, rest: string)
    requires Whole(notes) && RunsLast(notes)
    ensures Lex(Tail(notes) + "\n" + rest) == Before([], notes, Lex(rest))
  {
    assert AllBlank(" ") && AllBlank("\n");
    hide Lex;
    if notes == [] {
      assert [] + "\n" + rest == "\n" + rest;
      LexSkips("\n", rest);
      NothingBefore(Lex(rest));
    } else {
      var n, more := notes[0], notes[1..];
      var y := Tail(more) + "\n" + rest;
      assert n in notes && Whole(more);
      TailFirst(notes, rest);
      hide Tail;
      LexSkips(" ", n + y);
      TailReads(more, rest);
      assert !BraceNote(n) ==> more == [] by {
        if !BraceNote(n) {
          RunIsRun(n);
        }
      }
      hide IsNote, BraceNote, RunsLast, Whole, AllBlank;
      OneNoteReads(n, more, y, rest);
      OneMoreNote(n, more, Lex(rest));
      assert [n] + more == notes;
    }
  }

  lemma OneNoteReads(n: string, more: seq<string>, y: string, rest: string)
    requires IsNote(n) && (!BraceNote(n) ==> more == []) && y == Tail(more) + "\n" + rest
    ensures Lex(n + y) == Before([], [n], Lex(y))
  {
    hide Lex, IsNote;
    if BraceNote(n) {
      BraceReads(n, y);
    } else {
      RunIsRun(n);
      assert Tail(more) == [] && y == "\n" + rest;
      RunReads(n, [], y);
      assert n + [] == n && n + [] + y == n + y;
    }
  }

  lemma RunIsRun(n: string)
    requires IsNote(n) && !BraceNote(n)
    ensures RunNote(n) && LineComment(n)
  {
  }

  /** `r` is not a reading whose comments begin with `notes`. */
  ghost predicate Differs(r: Lexed, notes: seq<string>) {
    r.Good? ==> !(notes <= r.notes)
  }

  lemma DiffersAfter(r: Lexed, ts: seq<Token>, ns: seq<string>, notes: seq<string>)
    requires Differs(r, notes)
    ensures Differs(Before(ts, ns, r), ns + notes)
  {
    if r.Good? {
      PrefixCancels(ns, notes, r.notes);
    }
  }

  lemma PrefixCancels(a: seq<string>, b: seq<string>, c: seq<string>)
    ensures a + b <= a + c ==> b <= c
  {
    if a + b <= a + c {
      assert b == (a + b)[|a|..] == (a + c)[..|a + b|][|a|..] == c[..|b|];
    }
  }

  lemma PrefixIsLonger(a: seq<string>, b: seq<string>, c: seq<string>)
    ensures a + b <= c ==> a <= c
  {
    if a + b <= c {
      assert a == (a + b)[..|a|] == c[..|a + b|][..|a|] == c[..|a|];
    }
  }

  lemma DiffersSooner(r: Lexed, notes: seq<string>, more: seq<string>)
    requires Differs(r, notes)
    ensures Differs(r, notes + more)
  {
    if r.Good? {
      PrefixIsLonger(notes, more, r.notes);
    }
  }

  lemma DiffersFirst(r: Lexed, ts: seq<Token>, a: string, notes: seq<string>)
    requires notes != [] && a != notes[0]
    ensures Differs(Before(ts, [a], r), notes)
  {
    assert r.Good? ==> ([a] + r.notes)[0] == a;
  }

  /** A run before another comment takes it in. */
  lemma {:induction false} TailDiffers(notes: seq<string>, rest: string)
    requires Whole(notes) && !RunsLast(notes)
    ensures Differs(Lex(Tail(notes) + "\n" + rest), notes)
  {
    assert AllBlank(" ");
    hide Lex;
    var n, more := notes[0], notes[1..];
    var y := Tail(more) + "\n" + rest;
    assert n in notes && Whole(more);
    TailFirst(notes, rest);
    hide Tail;
    LexSkips(" ", n + y);
    if BraceNote(n) {
      BraceIsNoRun(n);
      assert !RunsLast(more) by {
        var i :| 0 <= i < |notes| - 1 && LineComment(notes[i]);
        assert more[i - 1] == notes[i];
      }
      BraceReads(n, y);
      TailDiffers(more, rest);
      DiffersAfter(Lex(y), [], [n], more);
      assert [n] + more == notes;
    } else {
      RunIsRun(n);
      hide IsNote, BraceNote;
      RunDiffers(notes, rest);
    }
  }

  lemma RunDiffers(notes: seq<string>, rest: string)
    requires |notes| > 1 && RunNote(notes[0])
    ensures Differs(Lex(notes[0] + (Tail(notes[1..]) + "\n" + rest)), notes)
  {
    var n, y := notes[0], Tail(notes[1..]) + "\n" + rest;
    assert y != [] && y[0] == ' ';
    hide Tail, Lex, RunNote, Differs;
    var line, after := FirstPart(y);
    RunReads(n, line, after);
    assert n + line + after == n + y && n + line != n;
    DiffersFirst(Lex(after), [], n + line, notes);
  }

  lemma BraceIsNoRun(n: string)
    requires BraceNote(n)
    ensures !LineComment(n)
  {
  }

  /** A text up to its first newline. */
  lemma FirstPart(y: string) returns (line: string, after: string)
    requires y != [] && y[0] != '\n'
    ensures y == line + after && line != [] && '\n' !in line && (after == [] || after[0] == '\n')
  {
    var k := Find(y, '\n');
    if k.None? {
      line, after := y, [];
    } else {
      line, after := y[..k.value], y[k.value..];
    }
  }

  // ---- Torn comments ------------------------------------------------------------------------------

  /** Where a torn line begins, in the text. */
  lemma {:induction false} TornMore(lines: seq<string>, at: nat, q: string, pad: string) returns (a: string, b: string)
    requires at < |lines|
    ensures More(lines, pad) == a + b && More(Torn(lines, at, q), pad) == a + (q + b)
  {
    var torn := Torn(lines, at, q);
    if at == 0 {
      a, b := "\n" + pad, lines[0] + More(lines[1..], pad);
      assert torn[1..] == lines[1..];
      assert "\n" + (pad + (lines[0] + More(lines[1..], pad))) == a + b;
      assert "\n" + (pad + ((q + lines[0]) + More(lines[1..], pad))) == a + (q + b);
    } else {
      assert torn[1..] == Torn(lines[1..], at - 1, q);
      var c;
      c, b := TornMore(lines[1..], at - 1, q, pad);
      a := "\n" + (pad + (lines[0] + c));
      assert "\n" + (pad + (lines[0] + (c + b))) == a + b;
      assert "\n" + (pad + (lines[0] + (c + (q + b)))) == a + (q + b);
    }
  }

  /** A torn comment is a comment still, and a longer one. */
  lemma TornNote(lines: seq<string>, at: nat, q: string, pad: string)
    requires 0 < at < |lines| && BraceNote(NoteText(lines, pad)) && Braceless(q) && q != [] && AllTabs(pad)
    requires lines[0] != []
    ensures BraceNote(NoteText(Torn(lines, at, q), pad)) && NoteText(Torn(lines, at, q), pad) != NoteText(lines, pad)
  {
    var t, u := NoteText(lines, pad), NoteText(Torn(lines, at, q), pad);
    TornBraces(lines, at, q, pad);
    EndIsBrace(t[1..], 1);
    assert EndsBrace(t);
    TornEnds(lines, at, q, pad);
    assert u[0] == lines[0][0] == t[0];
    hide BraceNote, Braces, NoteText, Torn;
    SameBraces(t, u);
  }

  lemma TornBraces(lines: seq<string>, at: nat, q: string, pad: string)
    requires 0 < at < |lines| && Braceless(q)
    ensures var t, u := NoteText(lines, pad), NoteText(Torn(lines, at, q), pad);
            |u| == |t| + |q| && Braces(u) == Braces(t)
  {
    TornTail(lines, at, q);
    var a, b := TornMore(lines[1..], at - 1, q, pad);
    hide Torn, More, Braces;
    assert lines[0] + (a + b) == (lines[0] + a) + b && lines[0] + (a + (q + b)) == (lines[0] + a) + (q + b);
    BracesInsert(lines[0] + a, q, b);
  }

  lemma TornTail(lines: seq<string>, at: nat, q: string)
    requires 0 < at < |lines|
    ensures Torn(lines, at, q) == [lines[0]] + Torn(lines[1..], at - 1, q)
  {
  }

  lemma BracesInsert(h: string, q: string, b: string)
    requires Braceless(q)
    ensures Braces(h + (q + b)) == Braces(h + b)
  {
    BracesAppend(h, b);
    BracesAppend(h, q + b);
    BracesAppend(q, b);
    NoBraces(q);
    assert [] + Braces(b) == Braces(b);
  }

  lemma TornEnds(lines: seq<string>, at: nat, q: string, pad: string)
    requires 0 < at < |lines| && AllTabs(pad) && EndsBrace(NoteText(lines, pad))
    ensures EndsBrace(NoteText(Torn(lines, at, q), pad))
  {
    hide NoteText;
    NoteEnds(lines, pad);
    NoteEnds(Torn(lines, at, q), pad);
  }

  // ---- Units --------------------------------------------------------------------------------------

  /** What emission makes of code and of whole comments. */
  ghost predicate Sane(u: Unit) {
    && AllTabs(u.pad)
    && match u
       case CodeLine(_, code, notes) => Firm(code) && CommentStart(code).None? && Whole(notes)
       case NoteLine(pad, lines) => lines != [] && IsNote(NoteText(lines, pad))
       case Broken(pad, lines, at, q) =>
         0 < at < |lines| && lines[0] != [] && BraceNote(NoteText(lines, pad)) && q != []
  }

  /** No brace was pasted into a comment. */
  predicate Mild(u: Unit) {
    u.Broken? ==> Braceless(u.pasted)
  }

  predicate Sound(u: Unit) {
    match u
    case CodeLine(_, _, notes) => RunsLast(notes)
    case NoteLine(_, _) => true
    case Broken(_, _, _, _) => false
  }

  function UnitNotes(u: Unit): seq<string> {
    if u.CodeLine? then u.notes else [NoteText(u.lines, u.pad)]
  }

  /** The comments of some units, in order, as they should read back. */
  function NotesOf(us: seq<Unit>): seq<string> {
    if us == [] then [] else UnitNotes(us[0]) + NotesOf(us[1..])
  }

  function UnitCodes(u: Unit): seq<string> {
    if u.CodeLine? then [u.code] else []
  }

  /** The lines of code of some units. */
  function CodesOf(us: seq<Unit>): seq<string> {
    if us == [] then [] else UnitCodes(us[0]) + CodesOf(us[1..])
  }

  /** Lines of code lexed one after another. */
  function ReadCodes(codes: seq<string>): Lexed {
    if codes == [] then Good([], []) else Followed(Lex(codes[0]), ReadCodes(codes[1..]))
  }

  /** The same tokens, with these comments. */
  function Noted(r: Lexed, notes: seq<string>): Lexed {
    if r.Bad? then Bad else Good(r.tokens, notes)
  }

  lemma NotedFollowed(a: Lexed, na: seq<string>, b: Lexed, nb: seq<string>)
    ensures Followed(Noted(a, na), Noted(b, nb)) == Noted(Followed(a, b), na + nb)
  {
  }

  lemma OneCode(code: string)
    requires CommentStart(code).None?
    ensures ReadCodes([code]) == Lex(code) && (Lex(code).Good? ==> Lex(code).notes == [])
  {
    assert [code][1..] == [];
    if Lex(code).Good? {
      NoNotes(code);
      assert Lex(code).tokens + [] == Lex(code).tokens;
    }
  }

  /** A line of code, up to the comments after it. */
  lemma CodeReads(u: Unit, rest: string)
    requires u.CodeLine? && Sane(u)
    ensures Lex(Lines(Physical(u)) + rest) == Followed(Lex(u.code), Lex(Tail(u.notes) + "\n" + rest))
    ensures Lex(u.code).Good? ==> Lex(u.code).notes == []
  {
    var t := Tail(u.notes) + "\n" + rest;
    CodeLineOut(u);
    assert u.pad + u.code + Tail(u.notes) + "\n" + rest == u.pad + (u.code + t);
    assert t[0] == ' ' || t[0] == '\n';
    TabsBlank(u.pad);
    OneCode(u.code);
    hide Lex, Physical, Tail, Firm, CommentStart;
    LexSkips(u.pad, u.code + t);
    FirmReads(u.code, t);
  }

  /** A whole comment on lines of its own. */
  lemma NoteReads(pad: string, lines: seq<string>, rest: string)
    requires AllTabs(pad) && lines != [] && IsNote(NoteText(lines, pad))
    ensures Lex(Lines(Indented(lines, pad)) + rest) == Before([], [NoteText(lines, pad)], Lex(rest))
  {
    var n, y := NoteText(lines, pad), "\n" + rest;
    NoteOut(lines, pad);
    assert pad + n + "\n" + rest == pad + (n + y);
    assert AllBlank("\n");
    TabsBlank(pad);
    hide Lex, NoteText, IsNote;
    LexSkips(pad, n + y);
    LexSkips("\n", rest);
    if BraceNote(n) {
      BraceReads(n, y);
    } else {
      RunIsRun(n);
      RunReads(n, [], y);
      assert n + [] == n && n + [] + y == n + y;
    }
  }

  lemma UnitReads(u: Unit, rest: string)
    requires Sane(u) && Sound(u)
    ensures Lex(Lines(Physical(u)) + rest) == Followed(Noted(ReadCodes(UnitCodes(u)), UnitNotes(u)), Lex(rest))
  {
    if u.CodeLine? {
      CodeReads(u, rest);
      TailReads(u.notes, rest);
      OneCode(u.code);
      hide Lex, Physical, Tail, Firm, CommentStart, RunsLast;
      if Lex(u.code).Good? {
        BeforeAppends(Lex(u.code).tokens, [], [], u.notes, Lex(rest));
        assert Lex(u.code).tokens + [] == Lex(u.code).tokens && [] + u.notes == u.notes;
      }
    } else {
      NoteReads(u.pad, u.lines, rest);
    }
  }

  lemma OutFirst(us: seq<Unit>)
    requires us != []
    ensures Out(us) == Lines(Physical(us[0])) + Out(us[1..])
  {
    LinesAppend(Physical(us[0]), Sheet(us[1..]));
  }

  /** Sound units read back: their code as it reads alone, and all their comments. */
  lemma {:induction false} UnitsRead(us: seq<Unit>)
    requires forall u :: u in us ==> Sane(u) && Sound(u)
    ensures Lex(Out(us)) == Noted(ReadCodes(CodesOf(us)), NotesOf(us))
  {
    hide Sane, Sound, Physical, Lex;
    if us == [] {
      EmptyLexes();
    } else {
      var u, rest := us[0], us[1..];
      assert u in us && Sane(u) && Sound(u);
      UnitsRead(rest);
      OutFirst(us);
      UnitReads(u, Out(rest));
      CodesAppend(UnitCodes(u), CodesOf(rest));
      hide Out;
      NotedFollowed(ReadCodes(UnitCodes(u)), UnitNotes(u), ReadCodes(CodesOf(rest)), NotesOf(rest));
    }
  }

  lemma {:induction false} CodesAppend(a: seq<string>, b: seq<string>)
    ensures ReadCodes(a + b) == Followed(ReadCodes(a), ReadCodes(b))
  {
    hide Lex;
    if a == [] {
      assert a + b == b;
      NothingBefore(ReadCodes(b));
    } else {
      assert (a + b)[1..] == a[1..] + b;
      CodesAppend(a[1..], b);
      FollowedFollowed(Lex(a[0]), ReadCodes(a[1..]), ReadCodes(b));
    }
  }

  lemma FollowedFollowed(a: Lexed, b: Lexed, c: Lexed)
    ensures Followed(a, Followed(b, c)) == Followed(Followed(a, b), c)
  {
    if a.Good? && b.Good? {
      BeforeAppends(a.tokens, a.notes, b.tokens, b.notes, c);
    }
  }

  lemma DiffersFollowed(a: Lexed, notes: seq<string>, r: Lexed, more: seq<string>)
    requires Differs(r, more) && (a.Good? ==> a.notes == notes)
    ensures Differs(Followed(a, r), notes + more)
  {
    if a.Good? {
      DiffersAfter(r, a.tokens, notes, more);
    }
  }

  lemma UnitDiffers(u: Unit, rest: string)
    requires Sane(u) && Mild(u) && !Sound(u)
    ensures Differs(Lex(Lines(Physical(u)) + rest), UnitNotes(u))
  {
    if u.CodeLine? {
      CodeReads(u, rest);
      TailDiffers(u.notes, rest);
      DiffersFollowed(Lex(u.code), [], Lex(Tail(u.notes) + "\n" + rest), u.notes);
      assert [] + u.notes == u.notes;
    } else {
      TornNote(u.lines, u.at, u.pasted, u.pad);
      NoteReads(u.pad, Torn(u.lines, u.at, u.pasted), rest);
      hide Lex, NoteText, BraceNote;
      DiffersFirst(Lex(rest), [], NoteText(Torn(u.lines, u.at, u.pasted), u.pad), UnitNotes(u));
    }
  }

  /** Units that are not all sound do not read back as their comments. */
  lemma {:induction false} UnitsDiffer(us: seq<Unit>)
    requires forall u :: u in us ==> Sane(u) && Mild(u)
    requires exists u :: u in us && !Sound(u)
    ensures Differs(Lex(Out(us)), NotesOf(us))
  {
    var u, rest := us[0], us[1..];
    assert u in us && us == [u] + rest;
    OutFirst(us);
    hide Sane, Mild, Sound, Physical, Lex, Differs, Out, UnitNotes, UnitCodes;
    if Sound(u) {
      var v :| v in us && !Sound(v);
      assert v in rest;
      UnitsDiffer(rest);
      UnitReads(u, Out(rest));
      DiffersFollowed(Noted(ReadCodes(UnitCodes(u)), UnitNotes(u)), UnitNotes(u), Lex(Out(rest)), NotesOf(rest));
    } else {
      UnitDiffers(u, Out(rest));
      DiffersSooner(Lex(Out(us)), UnitNotes(u), NotesOf(rest));
    }
  }
}
