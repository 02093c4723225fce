/** At every line of the emitted text the wrapper and the lexer agree on whether a comment is open,
    as far as its comments allow: in a comment of several lines only the last may hold a closing
    brace, and at the end of a line only the first comment may have several. */
module EmittedInStep {
  import opened Sequences
  import opened Lexer
  import opened LexerGaps
  import opened Layout
  import opened Comments
  import opened WrapTheorem
  import opened CommentLayout
  import opened CommentPrinting
  import opened CommentText
  import opened CommentReading
  import opened CommentTheorem
  import opened EmissionTheorem

  // ---- Comments that close on their last line -----------------------------------------------------

  predicate NoBrace(line: string) {
    '}' !in line
  }

  predicate LateLines(lines: seq<string>) {
    forall i :: 0 <= i < |lines| - 1 ==> NoBrace(lines[i])
  }

  /** Only its last line holds a closing brace. */
  predicate ClosesLate(text: string) {
    text != [] && text[0] == '{' ==> LateLines(Split(text))
  }

  /** What is left of such a comment, `depth` deep. */
  predicate Rest(c: string, depth: nat) {
    depth > 0 && CommentEnd(c, depth) == Some(|c|) && LateLines(Split(c))
  }

  lemma RestOf(text: string)
    requires BraceNote(text) && ClosesLate(text)
    ensures Rest(text[1..], 1) && text == "{" + text[1..]
  {
    assert text == "{" + text[1..];
    SplitGlue("{", text[1..]);
    hide Split;
    GluedLate("{", Split(text[1..]));
  }

  lemma GluedLate(first: string, lines: seq<string>)
    requires lines != [] && LateLines([first + lines[0]] + lines[1..])
    ensures LateLines(lines)
  {
    var glued := [first + lines[0]] + lines[1..];
    forall i | 0 <= i < |lines| - 1 ensures NoBrace(lines[i]) {
      assert NoBrace(glued[i]);
    }
  }

  // ---- Lines ------------------------------------------------------------------------------------

  /** A comment after code begins where the code ends. */
  lemma {:induction false} CommentAt(pre: string, t: string)
    requires CommentStart(pre).None? && !OpenText(pre) && Seam(pre, t) && t != [] && (t[0] == '{' || LineComment(t))
    ensures CommentStart(pre + t) == Some(|pre|)
    decreases |pre|
  {
    hide *;
    if pre == [] {
      assert pre + t == t;
      StartHere(t);
    } else {
      NoStartStep(pre);
      DropAppend(pre, t, 1);
      if pre[0] == '"' {
        var n := Find(pre[1..], '"').value + 2;
        FindKept(pre[1..], '"', t);
        DropAppend(pre, t, n);
        SeamLater(pre, t, n);
        StartAtQuote(pre + t);
        CommentAt(pre[n..], t);
      } else {
        SeamLater(pre, t, 1);
        NoRunAcross(pre, t);
        StartAtChar(pre + t);
        CommentAt(pre[1..], t);
      }
    }
  }

  lemma NoStartStep(s: string)
    requires s != [] && CommentStart(s).None? && !OpenText(s)
    ensures if s[0] == '"' then
              Find(s[1..], '"').Some?
              && var n := Find(s[1..], '"').value + 2; CommentStart(s[n..]).None? && !OpenText(s[n..])
            else
              s[0] != '{' && !LineComment(s) && CommentStart(s[1..]).None? && !OpenText(s[1..])
  {
  }

  lemma SeamLater(x: string, t: string, n: nat)
    requires n <= |x| && Seam(x, t)
    ensures Seam(x[n..], t)
  {
  }

  lemma NoRunAcross(x: string, t: string)
    requires x != [] && !LineComment(x) && Seam(x, t)
    ensures !LineComment(x + t)
  {
  }

  lemma OneLineSplit(t: string)
    requires '\n' !in t
    ensures Split(t) == [t]
  {
  }

  lemma {:induction false} StepInside(l: string, depth: nat, rest: seq<string>)
    requires depth > 0 && InStep(rest, After(l, depth), '}' !in l)
    ensures InStep([l] + rest, depth, true)
  {
    assert ([l] + rest)[1..] == rest;
    hide After, OpensBlock;
  }

  lemma {:induction false} StepOutside(l: string, rest: seq<string>)
    requires InStep(rest, After(l, 0), OpensBlock(l))
    ensures InStep([l] + rest, 0, false)
  {
    assert ([l] + rest)[1..] == rest;
    hide After, OpensBlock;
  }

  /** A comment that ends on the line leaves what comes after it. */
  lemma RestEnds(c: string, depth: nat, tail: string)
    requires depth > 0 && CommentEnd(c, depth) == Some(|c|)
    ensures After(c + tail, depth) == After(tail, 0) && '}' in c + tail
  {
    CommentEndKept(c, depth, tail);
    EndIsBrace(c, depth);
    assert (c + tail)[|c|..] == tail && (c + tail)[|c| - 1] == c[|c| - 1];
    hide CommentEnd, Depth;
  }

  lemma RestParts(c: string, depth: nat, l: string, more: string)
    requires Rest(c, depth) && c == l + "\n" + more && '\n' !in l
    ensures '}' !in l && After(l, depth) == Depth(l, depth) > 0 && Rest(more, Depth(l, depth))
  {
    SplitFirst(l, more);
    var lines := Split(more);
    var all := Split(c);
    assert all == [l] + lines && all[0] == l && NoBrace(all[0]);
    forall i | 0 <= i < |lines| - 1 ensures NoBrace(lines[i]) {
      assert NoBrace(all[i + 1]);
    }
    NeverCloses(l, depth);
    DepthEnds(l, depth);
    NewlineKeeps(l, depth);
    hide Split, CommentEnd, Depth;
    DepthGoesOn(l + "\n", more, depth);
  }

  /** A brace comment under way that ends before `tail`. */
  lemma {:induction false} RestInStep(c: string, depth: nat, tail: string, rest: seq<string>)
    requires Rest(c, depth) && '\n' !in tail && After(tail, 0) == 0 && InStep(rest, 0, false)
    ensures InStep(Split(c + tail) + rest, depth, true)
    decreases |c|
  {
    var k := Find(c, '\n');
    hide Split, After, InStep, CommentEnd, Depth, LateLines;
    if k.None? {
      OneLineSplit(c + tail);
      RestEnds(c, depth, tail);
      StepInside(c + tail, depth, rest);
    } else {
      var l, more := c[..k.value], c[k.value + 1..];
      assert c == l + "\n" + more;
      RestParts(c, depth, l, more);
      assert c + tail == l + "\n" + (more + tail);
      SplitFirst(l, more + tail);
      RestInStep(more, Depth(l, depth), tail, rest);
      StepInside(l, depth, Split(more + tail) + rest);
      Associate([l], Split(more + tail), rest);
    }
  }

  lemma ShortBrace(pre: string, c: string, tail: string)
    requires CodeText(pre) && CommentEnd(c, 1) == Some(|c|)
    ensures var l := pre + ("{" + (c + tail));
            !OpensBlock(l) && After(l, 0) == After(tail, 0)
  {
    var l := pre + ("{" + (c + tail));
    CommentAt(pre, "{" + (c + tail));
    RestEnds(c, 1, tail);
    assert l[|pre| + 1..] == c + tail && l[|pre|] == '{' && l[|pre|..] == "{" + (c + tail);
    assert After(l, 0) == After(l[|pre| + 1..], 1);
    hide CommentStart, OpenText, After, CommentEnd;
    assert '}' in l[|pre|..];
  }

  lemma LongBrace(pre: string, l: string)
    requires CodeText(pre) && '}' !in l
    ensures var first := pre + ("{" + l);
            OpensBlock(first) && After(first, 0) == After(l, 1)
  {
    var first := pre + ("{" + l);
    CommentAt(pre, "{" + l);
    hide CommentStart, OpenText, CommentEnd, Depth;
    assert first[|pre| + 1..] == l && first[|pre|..] == "{" + l;
  }

  /** Code, and a brace comment with what comes after it on its last line. */
  lemma BraceInStep(pre: string, c: string, tail: string, rest: seq<string>)
    requires CodeText(pre) && Rest(c, 1) && '\n' !in tail && After(tail, 0) == 0 && InStep(rest, 0, false)
    ensures InStep(Split(pre + ("{" + (c + tail))) + rest, 0, false)
  {
    var k := Find(c, '\n');
    hide Split, InStep, After, OpensBlock, CommentStart, OpenText, CommentEnd, Depth, LateLines;
    if k.None? {
      ShortBrace(pre, c, tail);
      OneLineSplit(pre + ("{" + (c + tail)));
      StepOutside(pre + ("{" + (c + tail)), rest);
    } else {
      var l, more := c[..k.value], c[k.value + 1..];
      var first := pre + ("{" + l);
      assert c == l + "\n" + more;
      RestParts(c, 1, l, more);
      hide Rest;
      assert pre + ("{" + (c + tail)) == first + "\n" + (more + tail);
      LongBrace(pre, l);
      SplitFirst(first, more + tail);
      RestInStep(more, Depth(l, 1), tail, rest);
      StepOutside(first, Split(more + tail) + rest);
      Associate([first], Split(more + tail), rest);
    }
  }

  /** A run of code and a comment to the end of the line. */
  lemma RunInStep(pre: string, run: string, rest: seq<string>)
    requires CodeText(pre) && LineComment(run) && '\n' !in run && Seam(pre, run) && InStep(rest, 0, false)
    ensures InStep(Split(pre + run) + rest, 0, false)
  {
    CommentAt(pre, run);
    assert (pre + run)[|pre|] == '/';
    assert After(pre + run, 0) == 0 && !OpensBlock(pre + run);
    hide Split, CommentStart, InStep, OpenText, After, OpensBlock;
    OneLineSplit(pre + run);
    StepOutside(pre + run, rest);
  }

  lemma CodeInStep(pre: string, rest: seq<string>)
    requires CodeText(pre) && InStep(rest, 0, false)
    ensures InStep(Split(pre) + rest, 0, false)
  {
    assert After(pre, 0) == 0 && !OpensBlock(pre);
    hide Split, InStep, After, OpensBlock;
    OneLineSplit(pre);
    StepOutside(pre, rest);
  }

  // ---- Comments after code ----------------------------------------------------------------------

  /** Of the comments at the end of a line only the first may have several lines. */
  predicate TailsFlat(notes: seq<string>) {
    forall i :: 1 <= i < |notes| ==> '\n' !in notes[i]
  }

  ghost predicate AllCloseLate(notes: seq<string>) {
    forall n :: n in notes ==> ClosesLate(n)
  }

  predicate OneLiners(notes: seq<string>) {
    forall i :: 0 <= i < |notes| ==> '\n' !in notes[i]
  }

  /** Comments on one line leave none open. */
  lemma {:induction false} TailEnds(notes: seq<string>)
    requires Whole(notes) && RunsLast(notes) && OneLiners(notes)
    ensures After(Tail(notes), 0) == 0 && '\n' !in Tail(notes)
  {
    if notes != [] {
      var n, more := notes[0], notes[1..];
      assert n in notes && IsNote(n);
      TailEnds(more);
      PlainCode(" ");
      Associate(" ", n, Tail(more));
      hide After, CodeText, Whole, CommentEnd;
      if n[0] == '{' {
        BraceOf(n);
        ShortBrace(" ", n[1..], Tail(more));
        assert n + Tail(more) == "{" + (n[1..] + Tail(more));
      } else {
        RunEnds(notes);
        assert n + Tail(more) == n;
        RunAfter(n);
      }
    }
  }

  lemma BraceOf(n: string)
    requires IsNote(n) && n[0] == '{'
    ensures CommentEnd(n[1..], 1) == Some(|n[1..]|) && n == "{" + n[1..]
  {
  }

  lemma RunAfter(n: string)
    requires LineComment(n)
    ensures After(" " + n, 0) == 0
  {
    PlainCode(" ");
    CommentAt(" ", n);
    assert (" " + n)[1] == '/';
  }

  lemma RunEnds(notes: seq<string>)
    requires notes != [] && IsNote(notes[0]) && notes[0][0] != '{' && RunsLast(notes)
    ensures |notes| == 1 && LineComment(notes[0]) && '\n' !in notes[0] && Tail(notes[1..]) == []
  {
  }

  lemma LineInStep(pre: string, notes: seq<string>, rest: seq<string>)
    requires CodeText(pre) && Whole(notes) && RunsLast(notes) && AllCloseLate(notes) && TailsFlat(notes)
    requires InStep(rest, 0, false)
    ensures InStep(Split(pre + Tail(notes)) + rest, 0, false)
  {
    hide *;
    TailStep(notes);
    if notes == [] {
      assert pre + [] == pre;
      CodeInStep(pre, rest);
    } else {
      var n, more := notes[0], notes[1..];
      FirstNote(notes);
      BlankCode(pre);
      Associate(" ", n, Tail(more));
      Associate(pre, " ", n + Tail(more));
      if n[0] == '{' {
        TailEnds(more);
        RestOf(n);
        Associate("{", n[1..], Tail(more));
        BraceInStep(pre + " ", n[1..], Tail(more), rest);
      } else {
        RunEnds(notes);
        assert n + [] == n;
        BlankSeam(pre, n);
        RunInStep(pre + " ", n, rest);
      }
    }
  }

  lemma TailStep(notes: seq<string>)
    ensures Tail(notes) == if notes == [] then [] else " " + notes[0] + Tail(notes[1..])
  {
  }

  lemma FirstNote(notes: seq<string>)
    requires notes != [] && Whole(notes) && RunsLast(notes) && AllCloseLate(notes) && TailsFlat(notes)
    ensures var n, more := notes[0], notes[1..];
            && n != [] && IsNote(n) && ClosesLate(n) && (n[0] == '{' ==> BraceNote(n))
            && Whole(more) && RunsLast(more) && OneLiners(more)
  {
    assert notes[0] in notes;
  }

  lemma BlankSeam(x: string, t: string)
    ensures Seam(x + " ", t)
  {
  }

  lemma BlankCode(pre: string)
    requires CodeText(pre)
    ensures CodeText(pre + " ")
  {
    PlainCode(" ");
    hide CodeText;
    CodeJoins(pre, " ");
  }

  // ---- Units ------------------------------------------------------------------------------------

  ghost predicate Neat(u: Unit) {
    match u
    case CodeLine(_, _, notes) => AllCloseLate(notes) && TailsFlat(notes)
    case NoteLine(_, lines) =>
      TextLines(lines) && (lines != [] && lines[0] != [] && lines[0][0] == '{' ==> LateLines(lines))
    case Broken(_, _, _, _) => true
  }

  lemma {:induction false} IndentedIsSplit(lines: seq<string>, pad: string)
    requires lines != [] && TextLines(lines) && AllTabs(pad)
    ensures Split(pad + NoteText(lines, pad)) == Indented(lines, pad)
  {
    assert lines[0] in lines && '\n' !in pad + lines[0];
    var more := lines[1..];
    assert Indented(lines, pad) == [pad + lines[0]] + Indented(more, pad);
    if more == [] {
      assert NoteText(lines, pad) == lines[0] + [] == lines[0];
      OneLineSplit(pad + lines[0]);
    } else {
      IndentedIsSplit(more, pad);
      assert pad + NoteText(lines, pad) == pad + lines[0] + "\n" + (pad + NoteText(more, pad));
      SplitFirst(pad + lines[0], pad + NoteText(more, pad));
    }
  }

  lemma NoteInStep(pad: string, lines: seq<string>, rest: seq<string>)
    requires AllTabs(pad) && IsNote(NoteText(lines, pad)) && lines != [] && Neat(NoteLine(pad, lines))
    requires InStep(rest, 0, false)
    ensures InStep(Indented(lines, pad) + rest, 0, false)
  {
    var t := NoteText(lines, pad);
    IndentedIsSplit(lines, pad);
    TabsAreCode(pad);
    if t[0] == '{' {
      BraceOf(t);
      NoteRest(pad, lines);
      assert t == "{" + (t[1..] + []);
      assert After([], 0) == 0;
      hide Split, InStep, After, CodeText, Rest, NoteText, CommentEnd;
      BraceInStep(pad, t[1..], [], rest);
    } else {
      assert RunNote(t);
      hide Split, InStep, CodeText, NoteText;
      RunInStep(pad, t, rest);
    }
  }

  lemma NoteRest(pad: string, lines: seq<string>)
    requires AllTabs(pad) && lines != [] && Neat(NoteLine(pad, lines))
    requires var t := NoteText(lines, pad);
             t != [] && t[0] == '{' && CommentEnd(t[1..], 1) == Some(|t[1..]|)
    ensures Rest(NoteText(lines, pad)[1..], 1)
  {
    var t := NoteText(lines, pad);
    NoteFirst(lines, pad);
    IndentedIsSplit(lines, pad);
    assert LateLines(Indented(lines, pad)) by {
      var indented := Indented(lines, pad);
      forall i | 0 <= i < |lines| - 1 ensures NoBrace(indented[i]) {
        assert NoBrace(lines[i]);
      }
    }
    hide NoteText, Split, CommentEnd, LateLines;
    assert pad + t == (pad + "{") + t[1..];
    SplitGlue(pad + "{", t[1..]);
    GluedLate(pad + "{", Split(t[1..]));
  }

  /** A brace at the front of a comment is on its first line. */
  lemma NoteFirst(lines: seq<string>, pad: string)
    requires lines != [] && NoteText(lines, pad) != [] && NoteText(lines, pad)[0] == '{'
    ensures lines[0] != [] && lines[0][0] == '{'
  {
    SecondLine(lines, pad);
  }

  lemma TabsAreCode(pad: string)
    requires AllTabs(pad)
    ensures CodeText(pad) && (pad == [] || pad[|pad| - 1] == '\t')
  {
    PlainCode(pad);
  }

  lemma UnitInStep(u: Unit, rest: seq<string>)
    requires Sane(u) && Sound(u) && Neat(u) && (u.CodeLine? ==> CodeUnit(u.code)) && InStep(rest, 0, false)
    ensures InStep(Physical(u) + rest, 0, false)
  {
    hide InStep, CommentStart, OpenText, Firm, IsNote, NoteText, RunsLast, ClosesLate, Split;
    if u.CodeLine? {
      TabsAreCode(u.pad);
      CodeJoins(u.pad, u.code);
      LineInStep(u.pad + u.code, u.notes, rest);
    } else {
      NoteInStep(u.pad, u.lines, rest);
    }
  }

  lemma {:induction false} SheetInStep(us: seq<Unit>)
    requires forall u :: u in us ==> Sane(u) && Sound(u) && Neat(u) && (u.CodeLine? ==> CodeUnit(u.code))
    ensures InStep(Sheet(us), 0, false)
  {
    hide Sane, Sound, Neat, CodeUnit, Physical;
    if us != [] {
      assert us[0] in us;
      SheetInStep(us[1..]);
      UnitInStep(us[0], Sheet(us[1..]));
    }
  }

  // ---- Programs ---------------------------------------------------------------------------------

  ghost predicate AllLate(cs: seq<Comment>) {
    forall c :: c in cs ==> ClosesLate(c.text)
  }

  ghost predicate AnchorsLate(a: Anchors) {
    && AllLate(a.header) && AllLate(a.footer)
    && forall id :: AllLate(Held(a.leading, id)) && AllLate(Held(a.trailing, id))
  }

  /** On the last line of every statement. */
  predicate EndsFlat(a: Anchors, f: Forest) {
    f.Tree? ==> EndsFlat(a, f.legs) && EndsFlat(a, f.orelse) && EndsFlat(a, f.rest) && TailsFlat(Texts(Closing(a, f)))
  }

  ghost predicate AllNeat(us: seq<Unit>) {
    forall u :: u in us ==> Neat(u)
  }

  lemma NeatAppend(us: seq<Unit>, vs: seq<Unit>)
    requires AllNeat(us) && AllNeat(vs)
    ensures AllNeat(us + vs)
  {
    hide Neat;
  }

  lemma {:induction false} NeatPasted(us: seq<Unit>, prefix: string)
    requires AllNeat(us)
    ensures AllNeat(Pasted(us, prefix))
  {
    if us != [] {
      var u, rest, ps := us[0], us[1..], Pasted(us, prefix);
      assert u in us && AllNeat(rest);
      hide Flat, FirstPlain, AllCloseLate, TailsFlat, ClosesLate, NoteText;
      if u.NoteLine? && Flat(u.lines) {
        NeatPasted(rest, prefix);
        assert ps == [u] + Pasted(rest, prefix);
      } else {
        assert ps == [ps[0]] + rest && Neat(ps[0]);
      }
    }
  }

  lemma {:induction false} TextsLate(cs: seq<Comment>)
    requires AllLate(cs)
    ensures AllCloseLate(Texts(cs))
  {
    if cs != [] {
      assert cs[0] in cs;
      TextsLate(cs[1..]);
      hide ClosesLate;
    }
  }

  lemma NeatTrail(us: seq<Unit>, cs: seq<Comment>)
    requires EndsInCode(us) && AllNeat(us) && AllLate(cs) && TailsFlat(LastNotes(us) + Texts(cs))
    ensures AllNeat(WithTrail(us, Texts(cs)))
  {
    var init, u := us[..|us| - 1], us[|us| - 1];
    var w := u.(notes := u.notes + Texts(cs));
    TextsLate(cs);
    assert us == init + [u] && u in us && Neat(u);
    hide ClosesLate, TailsFlat;
    assert AllCloseLate(w.notes) && Neat(w);
    assert AllNeat(init) by { assert forall v :: v in init ==> v in us; }
    assert WithTrail(us, Texts(cs)) == init + [w];
  }

  lemma UnpaddedLines(lines: seq<string>, pad: string)
    requires TextLines(lines)
    ensures TextLines(Unpadded(lines, pad))
  {
    if lines != [] {
      assert lines[0] in lines;
      UnpaddedLines(lines[1..], pad);
    }
  }

  lemma {:induction false} NeatNotes(cs: seq<Comment>, pad: string)
    requires WholeAll(cs) && AllLate(cs) && AllTabs(pad)
    ensures AllNeat(NoteLines(Texts(cs), pad))
  {
    if cs != [] {
      assert cs[0] in cs;
      NeatNotes(cs[1..], pad);
      assert Texts(cs)[1..] == Texts(cs[1..]);
      NeatNote(cs[0].text, pad);
      hide Neat, Split, Unpadded, IsNote, ClosesLate;
    }
  }

  lemma {:induction false} UnpaddedAt(lines: seq<string>, pad: string, i: nat)
    requires i < |lines|
    ensures Unpadded(lines, pad)[i] == Content(lines[i], pad)
  {
    if i > 0 {
      UnpaddedAt(lines[1..], pad, i - 1);
    }
  }

  lemma UnpaddedLate(lines: seq<string>, pad: string)
    requires LateLines(lines)
    ensures LateLines(Unpadded(lines, pad))
  {
    var out := Unpadded(lines, pad);
    forall i | 0 <= i < |lines| - 1 ensures NoBrace(out[i]) {
      UnpaddedAt(lines, pad, i);
      assert NoBrace(lines[i]);
    }
  }

  lemma NeatNote(text: string, pad: string)
    requires IsNote(text) && ClosesLate(text) && AllTabs(pad)
    ensures Neat(NoteLine(pad, Unpadded(Split(text), pad)))
  {
    var lines := Split(text);
    NoteChars(text);
    FirstStays(text, pad);
    UnpaddedLines(lines, pad);
    SplitText(text);
    assert NoteText(lines, []) != [];
    FirstChar(lines);
    UnpaddedAt(lines, pad, 0);
    hide IsNote, BraceNote, RunNote, Split, Unpadded, NoteText, AllTabs, Content, LateLines;
    if text[0] == '{' {
      UnpaddedLate(lines, pad);
    }
  }

  lemma FirstChar(lines: seq<string>)
    requires lines != [] && NoteText(lines, []) != [] && lines[0] != []
    ensures NoteText(lines, [])[0] == lines[0][0]
  {
    SecondLine(lines, []);
  }

  /** A comment begins with a brace or is a run. */
  lemma NoteChars(text: string)
    requires IsNote(text)
    ensures text != [] && text[0] != '\t' && (text[0] == '{' || LineComment(text))
  {
  }

  lemma NeatLine(level: nat, code: string)
    ensures AllNeat(Line(level, code))
  {
  }

  lemma NeatEnded(us: seq<Unit>, level: nat, compact: bool, end: string)
    requires AllNeat(us)
    ensures AllNeat(Ended(us, level, compact, end))
  {
    if !compact {
      NeatLine(level, end);
      NeatAppend(us, Line(level, end));
    }
  }

  /** The anchored comments are whole and close on their last line. */
  ghost predicate Plain(a: Anchors) {
    AnchorsWhole(a) && AnchorsLate(a)
  }

  /** A statement's lines with its own comments. */
  lemma NeatAround(a: Anchors, f: Forest, level: nat, us: seq<Unit>)
    requires f.Tree? && Plain(a) && AllNeat(us) && EndsInCode(us) && LastNotes(us) == Texts(LastLeg(a, f))
    requires TailsFlat(Texts(Closing(a, f)))
    ensures AllNeat(NoteLines(Texts(Held(a.leading, f.id)), Indent(level))
                    + WithTrail(us, Texts(Held(a.trailing, f.id))))
  {
    TextsAppend(LastLeg(a, f), Held(a.trailing, f.id));
    hide AllNeat, WithTrail, NoteLines, TailsFlat, WholeAll, AllLate, Texts, LastLeg;
    NeatNotes(Held(a.leading, f.id), Indent(level));
    NeatTrail(us, Held(a.trailing, f.id));
    NeatAppend(NoteLines(Texts(Held(a.leading, f.id)), Indent(level)), WithTrail(us, Texts(Held(a.trailing, f.id))));
  }

  lemma {:induction false} LegNeat(a: Anchors, f: Forest, level: nat, head: string, compact: bool)
    requires WellFormed(f) && (compact ==> Single(f)) && StartsCode(head) && Plain(a) && EndsFlat(a, f)
    ensures AllNeat(Leg(a, f, level, head, compact))
    decreases f, 3
  {
    if compact {
      CoreNeat(a, f, level);
      CoreLast(a, f, level);
      LastPasted(Core(a, f, level), head);
      hide Core, Pasted, AllNeat, Plain;
      NeatPasted(Core(a, f, level), head);
      NeatAround(a, f, level, Pasted(Core(a, f, level), head));
    } else {
      BlockNeat(a, f, level + 1);
      NeatLine(level, head + "Begin");
      hide Block, AllNeat, Plain;
      NeatAppend(Line(level, head + "Begin"), Block(a, f, level + 1));
    }
  }

  lemma {:induction false} BlockNeat(a: Anchors, f: Forest, level: nat)
    requires WellFormed(f) && Plain(a) && EndsFlat(a, f)
    ensures AllNeat(Block(a, f, level))
    decreases f, 2
  {
    if f.Tree? {
      CoreNeat(a, f, level);
      CoreLast(a, f, level);
      BlockNeat(a, f.rest, level);
      hide Core, AllNeat, Plain;
      NeatAround(a, f, level, Core(a, f, level));
      NeatAppend(Statement(a, f, level), Block(a, f.rest, level));
    }
  }

  lemma {:induction false} CoreNeat(a: Anchors, f: Forest, level: nat)
    requires f.Tree? && WellFormed(f) && Plain(a) && EndsFlat(a, f)
    ensures AllNeat(Core(a, f, level))
    decreases f, 0
  {
    hide Leg, Block, Line, Ended, AllNeat, Plain;
    match f.form {
      case Simple(code) =>
        NeatLine(level, code + " ;");
      case Branch(head, compact) =>
        LegNeat(a, f.legs, level, head, compact);
        NeatEnded(Leg(a, f.legs, level, head, compact), level, compact, "End ;");
      case Choice(head, compact, elseCompact) =>
        LegNeat(a, f.legs, level, head, compact);
        LegNeat(a, f.orelse, level, "Else ", elseCompact);
        var yes, no := Leg(a, f.legs, level, head, compact), Leg(a, f.orelse, level, "Else ", elseCompact);
        NeatEnded(yes, level, compact, "End");
        NeatEnded(no, level, elseCompact, "End ;");
        NeatAppend(Ended(yes, level, compact, "End"), Ended(no, level, elseCompact, "End ;"));
      case Repeat(cond) =>
        BlockNeat(a, f.legs, level + 1);
        NeatLine(level, "Repeat");
        NeatLine(level, "Until " + cond + " ;");
        NeatAppend(Line(level, "Repeat"), Block(a, f.legs, level + 1));
        NeatAppend(Line(level, "Repeat") + Block(a, f.legs, level + 1), Line(level, "Until " + cond + " ;"));
    }
  }

  lemma ProgramNeat(a: Anchors, f: Forest)
    requires WellFormed(f) && Plain(a) && EndsFlat(a, f)
    ensures AllNeat(Program(a, f))
  {
    BlockNeat(a, f, 0);
    NeatNotes(a.header, []);
    NeatNotes(a.footer, []);
    hide Block, NoteLines, AllNeat;
    NeatAppend(NoteLines(Texts(a.header), []), Block(a, f, 0));
    NeatAppend(NoteLines(Texts(a.header), []) + Block(a, f, 0), NoteLines(Texts(a.footer), []));
  }

  // ---- The emitted text -------------------------------------------------------------------------

  lemma {:induction false} SplitJoined(lines: seq<string>)
    requires lines != [] && TextLines(lines)
    ensures Split(JoinWith(lines, "\n")) == lines
  {
    assert lines[0] in lines;
    if |lines| == 1 {
      OneLineSplit(lines[0]);
    } else {
      SplitJoined(lines[1..]);
      SplitFirst(lines[0], JoinWith(lines[1..], "\n"));
      hide Split;
      assert lines == [lines[0]] + lines[1..];
    }
  }

  lemma UnitLines(u: Unit)
    requires AllTabs(u.pad) && Neat(u) && !u.Broken?
    ensures TextLines(Physical(u))
  {
    hide ClosesLate, AllCloseLate, TailsFlat, Split, NoteText, Tail;
    if u.NoteLine? {
      forall i | 0 <= i < |u.lines| ensures '\n' !in Indented(u.lines, u.pad)[i] {
        assert u.lines[i] in u.lines;
      }
    }
  }

  lemma {:induction false} SheetLines(us: seq<Unit>)
    requires forall u :: u in us ==> AllTabs(u.pad) && Neat(u) && !u.Broken?
    ensures TextLines(Sheet(us))
  {
    hide Neat, Physical, AllTabs;
    if us != [] {
      assert us[0] in us;
      UnitLines(us[0]);
      SheetLines(us[1..]);
    }
  }

  lemma UnitReady(u: Unit)
    requires Sane(u) && Sound(u)
    ensures AllTabs(u.pad) && !u.Broken?
  {
  }

  /** Wrapping and lexing the emitted text stay in step when no comment is torn or swallowed, every
      comment closes on its last line, and of those on the last line of a statement only the first
      has several lines. */
  lemma EmittedStaysInStep(a: Anchors, f: Forest)
    requires WellFormed(f) && Plain(a) && Safe(a, f) && EndsFlat(a, f)
    ensures InStep(Split(Emitted(a, f)), 0, false)
  {
    var us := Program(a, f);
    hide Program, WellFormed, Safe, EndsFlat, Sane, Sound, Neat, CodeUnit, Split, InStep, Sheet;
    ProgramReadable(a, f);
    ProgramSound(a, f);
    ProgramNeat(a, f);
    SheetInStep(us);
    forall u | u in us ensures AllTabs(u.pad) && Neat(u) && !u.Broken? {
      UnitReady(u);
    }
    SheetLines(us);
    if Sheet(us) == [] {
      NothingIsInStep();
    } else {
      SplitJoined(Sheet(us));
    }
  }

  lemma NothingIsInStep()
    ensures JoinWith([], "\n") == [] && InStep(Split([]), 0, false)
  {
    var line: string, none: seq<string> := [], [];
    OneLineSplit(line);
    assert InStep(none, After(line, 0), OpensBlock(line));
    StepOutside(line, none);
    assert [line] + none == [line];
  }

  /** What is written, the wrapped text, reads back as the program's own tokens and all its comments. */
  lemma WrittenTextReads(a: Anchors, f: Forest)
    requires WellFormed(f) && Plain(a) && Safe(a, f) && EndsFlat(a, f) && Lex(Emitted(BARE, f)).Good?
    ensures Lex(WrapAll(Emitted(a, f)) + "\n") == Noted(Lex(Emitted(BARE, f)), ShownAll(a, f))
  {
    hide *;
    PlainIsWhole(a);
    EmittedStaysInStep(a, f);
    WrittenReads(a, f);
  }

  lemma PlainIsWhole(a: Anchors)
    requires Plain(a)
    ensures AnchorsWhole(a)
  {
  }

  /** Anchors hold no comments but those they were made of. */
  lemma AnchoredPlain(a: Anchors, ms: seq<Mark>, cs: seq<Comment>)
    requires Anchored(a, ms, Ordered(cs)) && WholeAll(cs) && AllLate(cs)
    ensures Plain(a)
  {
    hide IsNote, At, Ordered, ClosesLate;
    OrderedKeeps(cs);
    assert forall c :: c in Ordered(cs) ==> c in multiset(Ordered(cs));
    AnchoredWhole(a, ms, Ordered(cs));
    AtIsGiven(ms, Ordered(cs), Header);
    AtIsGiven(ms, Ordered(cs), Footer);
    forall id ensures AllLate(Held(a.leading, id)) && AllLate(Held(a.trailing, id)) {
      AtIsGiven(ms, Ordered(cs), Leading(id));
      AtIsGiven(ms, Ordered(cs), Trailing(id));
    }
  }
}
