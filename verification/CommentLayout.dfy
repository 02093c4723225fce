/** Emission of statements with their comments. A comment that leads a statement is printed above
    it, one that trails it at the end of its last line; the statement of a compact leg joins the
    line of its head, and comments in front of it move up past that line. */
module CommentLayout {
  import opened Sequences
  import opened Lexer
  import opened Layout
  import opened Comments
  import opened WrapTheorem

  // ---- Lines of comment text ------------------------------------------------------------------

  function Indent(level: nat): (pad: string)
    ensures AllTabs(pad) && |pad| == level
  {
    seq(level, _ => '\t')
  }

  /** What Python's `lstrip` leaves. */
  function LStrip(s: string): string {
    if s != [] && PySpace(s[0]) then LStrip(s[1..]) else s
  }

  predicate CommentLine(line: string) {
    var s := LStrip(line);
    s != [] && (s[0] == '{' || LineComment(s))
  }

  /** Lines of a comment without an indentation they already have. */
  function Unpadded(lines: seq<string>, pad: string): (r: seq<string>)
    ensures |r| == |lines|
  {
    if lines == [] then []
    else [Content(lines[0], pad)] + Unpadded(lines[1..], pad)
  }

  function Content(line: string, pad: string): string {
    if pad <= line then line[|pad|..] else line
  }

  function Indented(lines: seq<string>, pad: string): (r: seq<string>)
    ensures |r| == |lines|
    ensures forall i :: 0 <= i < |lines| ==> r[i] == pad + lines[i]
  {
    if lines == [] then [] else [pad + lines[0]] + Indented(lines[1..], pad)
  }

  /** Every line looks like the first line of a comment. */
  predicate Flat(lines: seq<string>) {
    forall i :: 0 <= i < |lines| ==> CommentLine(lines[i])
  }

  /** The first line that does not. */
  function FirstPlain(lines: seq<string>): (n: nat)
    requires !Flat(lines)
    ensures n < |lines| && !CommentLine(lines[n]) && Flat(lines[..n])
  {
    if CommentLine(lines[0]) then
      var n := FirstPlain(lines[1..]);
      assert forall i :: 1 <= i < n + 1 ==> lines[i] == lines[1..][..n][i - 1];
      1 + n
    else 0
  }

  // ---- Printed units --------------------------------------------------------------------------

  /** A line of code with the comments after it, a comment above a statement, or such a comment
      with the head of a leg pasted into its line `at`. */
  datatype Unit =
    | CodeLine(pad: string, code: string, notes: seq<string>)
    | NoteLine(pad: string, lines: seq<string>)
    | Broken(pad: string, lines: seq<string>, at: nat, pasted: string)

  function Tail(notes: seq<string>): string {
    if notes == [] then [] else " " + notes[0] + Tail(notes[1..])
  }

  function Torn(lines: seq<string>, at: nat, pasted: string): seq<string> {
    if at < |lines| then lines[at := pasted + lines[at]] else lines
  }

  function Physical(u: Unit): seq<string> {
    match u
    case CodeLine(pad, code, notes) => Split(pad + code + Tail(notes))
    case NoteLine(pad, lines) => Indented(lines, pad)
    case Broken(pad, lines, at, pasted) => Indented(Torn(lines, at, pasted), pad)
  }

  /** The lines of some units. */
  function Sheet(us: seq<Unit>): seq<string> {
    if us == [] then [] else Physical(us[0]) + Sheet(us[1..])
  }

  /** The head of a compact leg put in front of what its statement prints: after the comments that
      open it, unless one of these has a line that does not look like a comment. */
  function Pasted(us: seq<Unit>, prefix: string): seq<Unit> {
    if us == [] then []
    else
      match us[0]
      case CodeLine(pad, code, notes) => [CodeLine(pad, prefix + code, notes)] + us[1..]
      case NoteLine(pad, lines) =>
        if Flat(lines) then [us[0]] + Pasted(us[1..], prefix)
        else [Broken(pad, lines, FirstPlain(lines), prefix)] + us[1..]
      case Broken(pad, lines, at, pasted) => [Broken(pad, lines, at, prefix + pasted)] + us[1..]
  }

  function Texts(cs: seq<Comment>): (ts: seq<string>)
    ensures |ts| == |cs|
  {
    if cs == [] then [] else [cs[0].text] + Texts(cs[1..])
  }

  function NoteLines(texts: seq<string>, pad: string): (us: seq<Unit>)
    ensures |us| == |texts|
  {
    if texts == [] then [] else [NoteLine(pad, Unpadded(Split(texts[0]), pad))] + NoteLines(texts[1..], pad)
  }

  /** `notes` after the last line. */
  function WithTrail(us: seq<Unit>, notes: seq<string>): seq<Unit> {
    if us == [] || !us[|us| - 1].CodeLine? then us
    else
      var u := us[|us| - 1];
      us[..|us| - 1] + [u.(notes := u.notes + notes)]
  }

  // ---- Emission ---------------------------------------------------------------------------------

  predicate StartsCode(s: string) {
    s != [] && !PySpace(s[0]) && s[0] != '{' && s[0] != '/'
  }

  /** Code on one line, with no comment and no open literal. */
  predicate CodeText(s: string) {
    '\n' !in s && CommentStart(s).None? && !OpenText(s)
  }

  predicate Head(s: string) {
    CodeText(s) && StartsCode(s) && s[|s| - 1] == ' '
  }

  predicate Single(f: Forest) {
    f.Tree? && f.rest.Empty?
  }

  /** A compact leg is one statement, and every piece of code is code. */
  predicate WellFormed(f: Forest) {
    match f
    case Empty => true
    case Tree(_, _, form, legs, orelse, rest) =>
      && WellFormed(legs) && WellFormed(orelse) && WellFormed(rest)
      && match form
         case Simple(code) => legs.Empty? && orelse.Empty? && CodeText(code) && StartsCode(code)
         case Branch(head, compact) => Head(head) && orelse.Empty? && (compact ==> Single(legs))
         case Choice(head, compact, elseCompact) =>
           Head(head) && (compact ==> Single(legs)) && (elseCompact ==> Single(orelse))
         case Repeat(cond) => orelse.Empty? && CodeText(cond)
  }

  function Line(level: nat, code: string): seq<Unit> {
    [CodeLine(Indent(level), code, [])]
  }

  /** A leg and the line that ends it, unless it is compact. */
  function Ended(us: seq<Unit>, level: nat, compact: bool, end: string): seq<Unit> {
    if compact then us else us + Line(level, end)
  }

  /** A statement without its own comments. */
  function Core(a: Anchors, f: Forest, level: nat): seq<Unit>
    requires f.Tree? && WellFormed(f)
    decreases f, 0
  {
    match f.form
    case Simple(code) => Line(level, code + " ;")
    case Branch(head, compact) => Ended(Leg(a, f.legs, level, head, compact), level, compact, "End ;")
    case Choice(head, compact, elseCompact) =>
      Ended(Leg(a, f.legs, level, head, compact), level, compact, "End")
      + Ended(Leg(a, f.orelse, level, "Else ", elseCompact), level, elseCompact, "End ;")
    case Repeat(cond) => Line(level, "Repeat") + Block(a, f.legs, level + 1) + Line(level, "Until " + cond + " ;")
  }

  /** A leg and the head in front of it. */
  function Leg(a: Anchors, f: Forest, level: nat, head: string, compact: bool): seq<Unit>
    requires WellFormed(f) && (compact ==> Single(f))
    decreases f, 3
  {
    if compact then Inline(a, f, level, head) else Line(level, head + "Begin") + Block(a, f, level + 1)
  }

  function Inline(a: Anchors, f: Forest, level: nat, prefix: string): seq<Unit>
    requires f.Tree? && WellFormed(f)
    decreases f, 1
  {
    NoteLines(Texts(Held(a.leading, f.id)), Indent(level))
    + WithTrail(Pasted(Core(a, f, level), prefix), Texts(Held(a.trailing, f.id)))
  }

  function Statement(a: Anchors, f: Forest, level: nat): seq<Unit>
    requires f.Tree? && WellFormed(f)
    decreases f, 1
  {
    NoteLines(Texts(Held(a.leading, f.id)), Indent(level)) + WithTrail(Core(a, f, level), Texts(Held(a.trailing, f.id)))
  }

  function Block(a: Anchors, f: Forest, level: nat): seq<Unit>
    requires WellFormed(f)
    decreases f, 2
  {
    if f.Empty? then [] else Statement(a, f, level) + Block(a, f.rest, level)
  }

  function Program(a: Anchors, f: Forest): seq<Unit>
    requires WellFormed(f)
  {
    NoteLines(Texts(a.header), []) + Block(a, f, 0) + NoteLines(Texts(a.footer), [])
  }

  // ---- Pasting ----------------------------------------------------------------------------------

  /** A line without its indentation. */
  function Unpad(line: string, pad: string): string {
    if pad <= line then line[|pad|..] else line[Tabs(line)..]
  }

  /** The lines of a statement with `prefix` on the first that is not a comment line. */
  function PasteLines(lines: seq<string>, pad: string, prefix: string): seq<string>
    requires lines != []
  {
    if |lines| > 1 && CommentLine(lines[0]) then [lines[0]] + PasteLines(lines[1..], pad, prefix)
    else [pad + prefix + Unpad(lines[0], pad)] + lines[1..]
  }

  lemma {:induction false} StripTabs(pad: string, s: string)
    requires AllTabs(pad)
    ensures LStrip(pad + s) == LStrip(s)
  {
    if pad == [] {
      assert pad + s == s;
    } else {
      assert pad[0] == '\t' && (pad + s)[1..] == pad[1..] + s;
      StripTabs(pad[1..], s);
    }
  }

  /** What a statement prints opens with comments at its indentation, then code. */
  predicate Opens(us: seq<Unit>, pad: string) {
    us != [] && us[0].pad == pad
    && match us[0]
       case CodeLine(_, code, _) => StartsCode(code)
       case NoteLine(_, _) => Opens(us[1..], pad)
       case Broken(_, lines, at, pasted) => StartsCode(pasted) && !Flat(lines) && at == FirstPlain(lines)
  }

  lemma PastesHere(line: string, rest: seq<string>, pad: string, prefix: string)
    requires AllTabs(pad) && !CommentLine(line)
    ensures PasteLines([pad + line] + rest, pad, prefix) == [pad + prefix + line] + rest
  {
    StripTabs(pad, line);
    hide LStrip;
    assert pad <= pad + line && (pad + line)[|pad|..] == line;
    assert ([pad + line] + rest)[1..] == rest;
  }

  lemma IndentedFirst(lines: seq<string>, rest: seq<string>, pad: string)
    requires lines != []
    ensures var s, t := Indented(lines, pad) + rest, Indented(lines[1..], pad);
            s[0] == pad + lines[0] && s[1..] == t + rest && Indented(lines, pad) == [pad + lines[0]] + t
  {
    var t := Indented(lines[1..], pad);
    assert Indented(lines, pad) == [pad + lines[0]] + t;
    hide Indented;
    Associate([pad + lines[0]], t, rest);
    FirstAndRest([pad + lines[0]], t + rest);
  }

  lemma {:induction false} FlatPasses(lines: seq<string>, rest: seq<string>, pad: string, prefix: string)
    requires Flat(lines) && rest != [] && AllTabs(pad)
    ensures PasteLines(Indented(lines, pad) + rest, pad, prefix) == Indented(lines, pad) + PasteLines(rest, pad, prefix)
  {
    if lines == [] {
      assert Indented(lines, pad) + rest == rest;
    } else {
      StripTabs(pad, lines[0]);
      assert CommentLine(pad + lines[0]) && Flat(lines[1..]);
      hide LStrip, CommentLine, Flat, Indented, AllTabs;
      FlatPasses(lines[1..], rest, pad, prefix);
      IndentedFirst(lines, rest, pad);
    }
  }

  /** Pasting into a comment tears it at its first line that does not look like one. */
  lemma CutPastes(lines: seq<string>, at: nat, rest: seq<string>, pad: string, prefix: string)
    requires at < |lines| && Flat(lines[..at]) && !CommentLine(lines[at]) && AllTabs(pad)
    ensures PasteLines(Indented(lines, pad) + rest, pad, prefix) == Indented(Torn(lines, at, prefix), pad) + rest
  {
    var before, after := lines[..at], Indented(lines[at + 1..], pad) + rest;
    CutParts(lines, at, rest, pad);
    FlatPasses(before, [pad + lines[at]] + after, pad, prefix);
    PastesHere(lines[at], after, pad, prefix);
    assert pad + prefix + lines[at] == pad + (prefix + lines[at]);
    CutParts(Torn(lines, at, prefix), at, rest, pad);
    assert Torn(lines, at, prefix)[..at] == before && Torn(lines, at, prefix)[at + 1..] == lines[at + 1..];
    hide CommentLine, PasteLines, Flat, Torn;
  }

  lemma CutParts(lines: seq<string>, at: nat, rest: seq<string>, pad: string)
    requires at < |lines|
    ensures Indented(lines, pad) + rest
            == Indented(lines[..at], pad) + ([pad + lines[at]] + (Indented(lines[at + 1..], pad) + rest))
  {
    var before, line, after := Indented(lines[..at], pad), [pad + lines[at]], Indented(lines[at + 1..], pad);
    CutLines(lines, at);
    IndentedJoins(lines[..at], [lines[at]] + lines[at + 1..], pad);
    IndentedFirst([lines[at]] + lines[at + 1..], rest, pad);
    hide Indented;
    Associate(before, line + after, rest);
    Associate(line, after, rest);
  }

  lemma CutLines(lines: seq<string>, at: nat)
    requires at < |lines|
    ensures lines == lines[..at] + ([lines[at]] + lines[at + 1..])
    ensures ([lines[at]] + lines[at + 1..])[1..] == lines[at + 1..]
  {
  }

  lemma {:induction false} IndentedJoins(a: seq<string>, b: seq<string>, pad: string)
    ensures Indented(a + b, pad) == Indented(a, pad) + Indented(b, pad)
  {
    if a == [] {
      assert a + b == b;
    } else {
      FirstAndRest(a, b);
      IndentedJoins(a[1..], b, pad);
      Associate([pad + a[0]], Indented(a[1..], pad), Indented(b, pad));
    }
  }

  /** Text put in front of the first line. */
  lemma SplitGlue(a: string, t: string)
    requires '\n' !in a
    ensures Split(a + t) == [a + Split(t)[0]] + Split(t)[1..]
  {
    var k := Find(t, '\n');
    if k.None? {
      assert '\n' !in a + t;
      assert Split(t) == [t];
    } else {
      var first, rest := t[..k.value], t[k.value + 1..];
      assert t == first + "\n" + rest;
      assert a + t == (a + first) + "\n" + rest;
      SplitFirst(first, rest);
      SplitFirst(a + first, rest);
    }
  }

  lemma CodePastes(pad: string, s: string, rest: seq<string>, prefix: string)
    requires AllTabs(pad) && StartsCode(s) && '\n' !in prefix
    ensures PasteLines(Split(pad + s) + rest, pad, prefix) == Split(pad + prefix + s) + rest
  {
    var line, more := Split(s)[0], Split(s)[1..] + rest;
    FirstIsCode(s);
    SplitGlue(pad, s);
    SplitGlue(pad + prefix, s);
    hide Split, CommentLine, StartsCode, PasteLines, AllTabs;
    Associate([pad + line], Split(s)[1..], rest);
    Associate([pad + prefix + line], Split(s)[1..], rest);
    PastesHere(line, more, pad, prefix);
  }

  lemma FirstIsCode(s: string)
    requires StartsCode(s)
    ensures !CommentLine(Split(s)[0])
  {
    assert s[0] != '\n' && [s[0]] + s[1..] == s;
    SplitGlue([s[0]], s[1..]);
    hide Split;
  }

  /** Pasting into the lines of some units is pasting into the units. */
  lemma {:induction false} UnitsPaste(us: seq<Unit>, pad: string, prefix: string)
    requires Opens(us, pad) && AllTabs(pad) && '\n' !in prefix
    ensures Sheet(us) != [] && PasteLines(Sheet(us), pad, prefix) == Sheet(Pasted(us, prefix))
  {
    var u, rest := us[0], us[1..];
    hide CommentLine, PasteLines, Flat, FirstPlain;
    match u
    case CodeLine(_, code, notes) =>
      var s := code + Tail(notes);
      assert pad + code + Tail(notes) == pad + s && pad + (prefix + code) + Tail(notes) == pad + prefix + s;
      CodePastes(pad, s, Sheet(rest), prefix);
      assert Pasted(us, prefix)[1..] == rest;
    case NoteLine(_, lines) =>
      if Flat(lines) {
        UnitsPaste(rest, pad, prefix);
        FlatPasses(lines, Sheet(rest), pad, prefix);
        assert Pasted(us, prefix)[1..] == Pasted(rest, prefix);
      } else {
        CutPastes(lines, FirstPlain(lines), Sheet(rest), pad, prefix);
        assert Pasted(us, prefix)[1..] == rest;
      }
    case Broken(_, lines, at, q) =>
      TornAgain(lines, at, q, prefix);
      CutPastes(Torn(lines, at, q), at, Sheet(rest), pad, prefix);
      assert Pasted(us, prefix)[1..] == rest;
  }

  lemma TornAgain(lines: seq<string>, at: nat, q: string, prefix: string)
    requires !Flat(lines) && at == FirstPlain(lines) && StartsCode(q)
    ensures Flat(Torn(lines, at, q)[..at]) && !CommentLine(Torn(lines, at, q)[at])
    ensures Torn(Torn(lines, at, q), at, prefix) == Torn(lines, at, prefix + q)
  {
    assert Torn(lines, at, q)[..at] == lines[..at];
    assert prefix + (q + lines[at]) == prefix + q + lines[at];
  }

  // ---- Indentation ----------------------------------------------------------------------------------

  /** Every line of the units stands at least `level` tabs in. */
  ghost predicate Deep(us: seq<Unit>, level: nat) {
    forall i :: 0 <= i < |us| ==> |us[i].pad| >= level
  }

  lemma DeepJoins(us: seq<Unit>, vs: seq<Unit>, level: nat)
    requires Deep(us, level) && Deep(vs, level)
    ensures Deep(us + vs, level)
  {
  }

  lemma {:induction false} PastedIsDeep(us: seq<Unit>, prefix: string, level: nat)
    requires Deep(us, level)
    ensures Deep(Pasted(us, prefix), level)
  {
    if us != [] {
      assert |us[0].pad| >= level;
      PastedIsDeep(us[1..], prefix, level);
      hide FirstPlain, Flat;
    }
  }

  lemma {:induction false} NotesAreDeep(texts: seq<string>, pad: string)
    ensures Deep(NoteLines(texts, pad), |pad|)
  {
    if texts != [] {
      NotesAreDeep(texts[1..], pad);
    }
  }

  lemma TrailIsDeep(us: seq<Unit>, notes: seq<string>, level: nat)
    requires Deep(us, level)
    ensures Deep(WithTrail(us, notes), level)
  {
  }

  lemma {:induction false} CoreIsDeep(a: Anchors, f: Forest, level: nat)
    requires f.Tree? && WellFormed(f)
    ensures Deep(Core(a, f, level), level)
    decreases f, 0
  {
    hide Leg, Block;
    match f.form
    case Simple(_) =>
    case Branch(head, compact) => LegIsDeeper(a, f.legs, level, head, compact);
    case Choice(head, compact, elseCompact) =>
      LegIsDeeper(a, f.legs, level, head, compact);
      LegIsDeeper(a, f.orelse, level, "Else ", elseCompact);
    case Repeat(_) => BlockIsDeep(a, f.legs, level + 1);
  }

  /** A leg between Begin and End is one tab deeper than its head. */
  lemma {:induction false} LegIsDeeper(a: Anchors, f: Forest, level: nat, head: string, compact: bool)
    requires WellFormed(f) && (compact ==> Single(f))
    ensures var us := Leg(a, f, level, head, compact);
            Deep(us, level) && (!compact ==> us != [] && |us[0].pad| == level && Deep(us[1..], level + 1))
    decreases f, 3
  {
    hide Inline, Block;
    if compact {
      InlineIsDeep(a, f, level, head);
    } else {
      BlockIsDeep(a, f, level + 1);
    }
  }

  lemma {:induction false} InlineIsDeep(a: Anchors, f: Forest, level: nat, prefix: string)
    requires f.Tree? && WellFormed(f)
    ensures Deep(Inline(a, f, level, prefix), level)
    decreases f, 1
  {
    hide Deep, Core, Pasted, WithTrail, NoteLines, Texts;
    CoreIsDeep(a, f, level);
    PastedIsDeep(Core(a, f, level), prefix, level);
    TrailIsDeep(Pasted(Core(a, f, level), prefix), Texts(Held(a.trailing, f.id)), level);
    NotesAreDeep(Texts(Held(a.leading, f.id)), Indent(level));
    DeepJoins(NoteLines(Texts(Held(a.leading, f.id)), Indent(level)),
              WithTrail(Pasted(Core(a, f, level), prefix), Texts(Held(a.trailing, f.id))), level);
  }

  lemma {:induction false} BlockIsDeep(a: Anchors, f: Forest, level: nat)
    requires WellFormed(f)
    ensures Deep(Block(a, f, level), level)
    decreases f, 2
  {
    hide Deep, Core, WithTrail, NoteLines, Texts;
    if f.Empty? {
      assert Deep([], level) by { NothingIsDeep(level); }
    } else {
      CoreIsDeep(a, f, level);
      TrailIsDeep(Core(a, f, level), Texts(Held(a.trailing, f.id)), level);
      NotesAreDeep(Texts(Held(a.leading, f.id)), Indent(level));
      DeepJoins(NoteLines(Texts(Held(a.leading, f.id)), Indent(level)),
                WithTrail(Core(a, f, level), Texts(Held(a.trailing, f.id))), level);
      BlockIsDeep(a, f.rest, level);
      DeepJoins(Statement(a, f, level), Block(a, f.rest, level), level);
    }
  }

  lemma NothingIsDeep(level: nat)
    ensures Deep([], level)
  {
  }
}
