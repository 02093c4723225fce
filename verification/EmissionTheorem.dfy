/** The program with its comments, as one text: it lexes to the program's own tokens and to every
    comment of the source, once each, exactly when the condition of `CommentTheorem` holds. */
module EmissionTheorem {
  import opened Sequences
  import opened Lexer
  import opened LexerGaps
  import opened Layout
  import opened Comments
  import opened WrapTheorem
  import opened CommentLayout
  import opened CommentPrinting
  import opened CommentText
  import opened CommentReading
  import opened CommentTheorem

  // ---- Code joins code ----------------------------------------------------------------------------

  lemma {:induction false} CodeJoins(s: string, t: string)
    requires CodeText(s) && CodeText(t) && Seam(s, t)
    ensures CodeText(s + t)
    decreases |s|
  {
    if s == [] {
      assert s + t == t;
    } else {
      assert (s + t)[1..] == s[1..] + t;
      if s[0] == '"' {
        var n := Find(s[1..], '"').value + 2;
        FindKept(s[1..], '"', t);
        assert (s + t)[n..] == s[n..] + t;
        RestIsCode(s, n);
        CodeJoins(s[n..], t);
      } else {
        RestIsCode(s, 1);
        CodeJoins(s[1..], t);
      }
    }
  }

  lemma RestIsCode(s: string, n: nat)
    requires 1 <= n <= |s| && '\n' !in s && (n < |s| ==> s[n..][|s| - n - 1] == s[|s| - 1])
    ensures '\n' !in s[n..]
    ensures forall t :: Seam(s, t) ==> Seam(s[n..], t)
  {
  }

  lemma {:induction false} PlainCode(s: string)
    requires forall i :: 0 <= i < |s| ==> s[i] != '\n' && s[i] != '"' && s[i] != '{' && s[i] != '/'
    ensures CodeText(s)
  {
    if s != [] {
      PlainCode(s[1..]);
    }
  }

  ghost predicate CodeUnit(code: string) {
    Firm(code) && CodeText(code)
  }

  /** A piece of code, or nothing, and the end of its line. */
  lemma EndsLine(x: string, w: string)
    requires CodeText(x) && w in ENDS && (w == " ;" || x == [] || EndsBlank(x))
    ensures CodeUnit(x + w)
  {
    assert EndsWith(x + w, x, w);
    PlainCode(w);
    CodeJoins(x, w);
  }

  lemma HeadJoins(prefix: string, code: string)
    requires Head(prefix) && CodeUnit(code)
    ensures CodeUnit(prefix + code)
  {
    var x, w :| EndsWith(code, x, w);
    assert prefix + code == (prefix + x) + w;
    hide CodeText;
    CodeJoins(prefix, x);
    CodeJoins(prefix, code);
    assert x != [] ==> (prefix + x)[|prefix + x| - 1] == x[|x| - 1];
    assert x == [] ==> prefix + x == prefix;
    assert EndsWith(prefix + code, prefix + x, w);
  }

  // ---- What emission makes is sane ------------------------------------------------------------------

  ghost predicate AllSane(us: seq<Unit>) {
    forall u :: u in us ==> Sane(u)
  }

  ghost predicate WholeAll(cs: seq<Comment>) {
    forall c :: c in cs ==> IsNote(c.text)
  }

  /** Every anchored comment is a comment. */
  ghost predicate AnchorsWhole(a: Anchors) {
    && WholeAll(a.header) && WholeAll(a.footer)
    && forall id :: WholeAll(Held(a.leading, id)) && WholeAll(Held(a.trailing, id))
  }

  lemma {:induction false} TextsWhole(cs: seq<Comment>)
    requires WholeAll(cs)
    ensures Whole(Texts(cs))
  {
    if cs != [] {
      assert cs[0] in cs;
      TextsWhole(cs[1..]);
      hide IsNote;
    }
  }

  lemma {:induction false} NotesSane(texts: seq<string>, pad: string)
    requires Whole(texts) && AllTabs(pad)
    ensures AllSane(NoteLines(texts, pad))
  {
    if texts != [] {
      assert texts[0] in texts;
      ShiftedIsNote(texts[0], pad);
      NotesSane(texts[1..], pad);
      hide IsNote, NoteText, Split, Unpadded;
    }
  }

  lemma CodeSane(level: nat, code: string)
    requires CodeUnit(code)
    ensures AllSane(Line(level, code))
  {
  }

  /** A comment with a line that does not look like one has several lines, and braces. */
  lemma TornIsBrace(lines: seq<string>, pad: string)
    requires lines != [] && IsNote(NoteText(lines, pad)) && !Flat(lines)
    ensures BraceNote(NoteText(lines, pad)) && lines[0] != [] && FirstPlain(lines) > 0
  {
    NoteStarts(lines, pad);
  }

  /** What follows the first line of a comment, if anything, is a newline. */
  lemma SecondLine(lines: seq<string>, pad: string)
    requires lines != []
    ensures var t, n := NoteText(lines, pad), |lines[0]|;
            t[..n] == lines[0] && (if |lines| == 1 then |t| == n else |t| > n && t[n] == '\n')
  {
    if |lines| == 1 {
      assert More(lines[1..], pad) == [];
    }
  }

  lemma NoteStarts(lines: seq<string>, pad: string)
    requires lines != [] && IsNote(NoteText(lines, pad))
    ensures lines[0] != [] && CommentLine(lines[0])
    ensures |lines| > 1 ==> !RunNote(NoteText(lines, pad))
  {
    var t, n := NoteText(lines, pad), |lines[0]|;
    SecondLine(lines, pad);
    assert n > 0 ==> t[0] == t[..n][0];
    assert n > 1 ==> t[1] == t[..n][1];
    assert n > 0 ==> LStrip(lines[0]) == lines[0] || PySpace(t[0]);
  }

  lemma {:induction false} PastedSane(us: seq<Unit>, prefix: string)
    requires AllSane(us) && Head(prefix) && AllCode(us)
    ensures AllSane(Pasted(us, prefix)) && AllCode(Pasted(us, prefix))
  {
    if us != [] {
      var u, rest, ps := us[0], us[1..], Pasted(us, prefix);
      assert u in us && AllSane(rest) && AllCode(rest);
      if u.NoteLine? && Flat(u.lines) {
        PastedSane(rest, prefix);
        hide Sane, Flat, CodeUnit;
        assert ps == [u] + Pasted(rest, prefix);
      } else {
        if u.CodeLine? {
          HeadJoins(prefix, u.code);
        } else if u.NoteLine? {
          TornIsBrace(u.lines, u.pad);
        }
        hide Firm, CommentStart, Flat, BraceNote, FirstPlain;
        assert ps == [ps[0]] + rest && Sane(ps[0]);
      }
    }
  }

  /** Every line of code is one. */
  ghost predicate AllCode(us: seq<Unit>) {
    forall u :: u in us && u.CodeLine? ==> CodeUnit(u.code)
  }

  lemma TrailSane(us: seq<Unit>, notes: seq<string>)
    requires AllSane(us) && AllCode(us) && Whole(notes)
    ensures AllSane(WithTrail(us, notes)) && AllCode(WithTrail(us, notes))
  {
    hide IsNote, Firm, CodeUnit, CommentStart;
    if us != [] {
      assert us[|us| - 1] in us;
      assert forall u :: u in us[..|us| - 1] ==> u in us;
    }
  }

  ghost predicate Readable(us: seq<Unit>) {
    AllSane(us) && AllCode(us)
  }

  lemma ReadableAppend(us: seq<Unit>, vs: seq<Unit>)
    requires Readable(us) && Readable(vs)
    ensures Readable(us + vs)
  {
    hide Sane, CodeUnit;
  }

  lemma ReadableLine(level: nat, x: string, w: string)
    requires CodeText(x) && w in ENDS && (w == " ;" || x == [] || EndsBlank(x))
    ensures Readable(Line(level, x + w))
  {
    EndsLine(x, w);
    CodeSane(level, x + w);
  }

  lemma ReadableNotes(cs: seq<Comment>, pad: string)
    requires WholeAll(cs) && AllTabs(pad)
    ensures Readable(NoteLines(Texts(cs), pad))
  {
    TextsWhole(cs);
    NotesSane(Texts(cs), pad);
    NotesAreNotes(Texts(cs), pad);
    hide Sane, CodeUnit;
  }

  lemma {:induction false} NotesAreNotes(texts: seq<string>, pad: string)
    ensures forall u :: u in NoteLines(texts, pad) ==> u.NoteLine?
  {
    if texts != [] {
      NotesAreNotes(texts[1..], pad);
    }
  }

  lemma {:induction false} LegReadable(a: Anchors, f: Forest, level: nat, head: string, compact: bool)
    requires WellFormed(f) && (compact ==> Single(f)) && Head(head) && AnchorsWhole(a)
    ensures Readable(Leg(a, f, level, head, compact))
    decreases f, 3
  {
    if compact {
      CoreReadable(a, f, level);
      ReadableAround(a, f, level, Pasted(Core(a, f, level), head)) by {
        PastedSane(Core(a, f, level), head);
      }
    } else {
      BlockReadable(a, f, level + 1);
      ReadableLine(level, head, "Begin");
      hide Readable, Head;
      ReadableAppend(Line(level, head + "Begin"), Block(a, f, level + 1));
    }
  }

  lemma ReadableAround(a: Anchors, f: Forest, level: nat, us: seq<Unit>)
    requires f.Tree? && Readable(us) && AnchorsWhole(a)
    ensures Readable(NoteLines(Texts(Held(a.leading, f.id)), Indent(level))
                     + WithTrail(us, Texts(Held(a.trailing, f.id))))
  {
    hide WholeAll, Sane, CodeUnit, NoteLines, WithTrail;
    assert WholeAll(Held(a.leading, f.id)) && WholeAll(Held(a.trailing, f.id));
    TextsWhole(Held(a.trailing, f.id));
    TrailSane(us, Texts(Held(a.trailing, f.id)));
    ReadableNotes(Held(a.leading, f.id), Indent(level));
    ReadableAppend(NoteLines(Texts(Held(a.leading, f.id)), Indent(level)),
                   WithTrail(us, Texts(Held(a.trailing, f.id))));
  }

  lemma {:induction false} BlockReadable(a: Anchors, f: Forest, level: nat)
    requires WellFormed(f) && AnchorsWhole(a)
    ensures Readable(Block(a, f, level))
    decreases f, 2
  {
    if f.Tree? {
      CoreReadable(a, f, level);
      BlockReadable(a, f.rest, level);
      hide Readable, Core, WellFormed, AnchorsWhole;
      ReadableAround(a, f, level, Core(a, f, level));
      ReadableAppend(Statement(a, f, level), Block(a, f.rest, level));
    }
  }

  lemma ReadableEnded(us: seq<Unit>, level: nat, compact: bool, end: string)
    requires Readable(us) && (end == "End" || end == "End ;")
    ensures Readable(Ended(us, level, compact, end))
  {
    if !compact {
      EndLine(level, end);
      hide Readable;
      ReadableAppend(us, Line(level, end));
    }
  }

  lemma EndLine(level: nat, end: string)
    requires end == "End" || end == "End ;"
    ensures Readable(Line(level, end))
  {
    PlainCode("End");
    assert [] + "End" == "End" && "End" + " ;" == "End ;";
    PlainCode([]);
    hide Readable;
    ReadableLine(level, [], "End");
    ReadableLine(level, "End", " ;");
  }

  lemma {:induction false} CoreReadable(a: Anchors, f: Forest, level: nat)
    requires f.Tree? && WellFormed(f) && AnchorsWhole(a)
    ensures Readable(Core(a, f, level))
    decreases f, 0
  {
    hide Leg, Block, Line, Ended, Readable, AnchorsWhole;
    match f.form {
      case Simple(code) =>
        ReadableLine(level, code, " ;");
      case Branch(head, compact) =>
        LegReadable(a, f.legs, level, head, compact);
        ReadableEnded(Leg(a, f.legs, level, head, compact), level, compact, "End ;");
      case Choice(head, compact, elseCompact) =>
        LegReadable(a, f.legs, level, head, compact);
        ElseIsHead();
        LegReadable(a, f.orelse, level, "Else ", elseCompact);
        var yes, no := Leg(a, f.legs, level, head, compact), Leg(a, f.orelse, level, "Else ", elseCompact);
        ReadableEnded(yes, level, compact, "End");
        ReadableEnded(no, level, elseCompact, "End ;");
        ReadableAppend(Ended(yes, level, compact, "End"), Ended(no, level, elseCompact, "End ;"));
      case Repeat(cond) =>
        BlockReadable(a, f.legs, level + 1);
        RepeatLines(level, cond);
        ReadableAppend(Line(level, "Repeat"), Block(a, f.legs, level + 1));
        ReadableAppend(Line(level, "Repeat") + Block(a, f.legs, level + 1), Line(level, "Until " + cond + " ;"));
    }
  }

  lemma ElseIsHead()
    ensures Head("Else ")
  {
    PlainCode("Else ");
  }

  lemma RepeatLines(level: nat, cond: string)
    requires CodeText(cond)
    ensures Readable(Line(level, "Repeat")) && Readable(Line(level, "Until " + cond + " ;"))
  {
    PlainCode([]);
    PlainCode("Until ");
    assert [] + "Repeat" == "Repeat";
    hide Readable, CodeText;
    ReadableLine(level, [], "Repeat");
    CodeJoins("Until ", cond);
    ReadableLine(level, "Until " + cond, " ;");
  }

  // ---- No brace in a head -------------------------------------------------------------------------

  /** The heads hold no brace, not even in a string literal. */
  predicate BracelessHeads(f: Forest) {
    match f
    case Empty => true
    case Tree(_, _, form, legs, orelse, rest) =>
      && BracelessHeads(legs) && BracelessHeads(orelse) && BracelessHeads(rest)
      && (form.Branch? || form.Choice? ==> Braceless(form.head))
  }

  ghost predicate AllMild(us: seq<Unit>) {
    forall u :: u in us ==> Mild(u)
  }

  lemma MildAppend(us: seq<Unit>, vs: seq<Unit>)
    requires AllMild(us) && AllMild(vs)
    ensures AllMild(us + vs)
  {
  }

  lemma {:induction false} MildPasted(us: seq<Unit>, prefix: string)
    requires AllMild(us) && Braceless(prefix)
    ensures AllMild(Pasted(us, prefix))
  {
    if us != [] {
      var u, rest, ps := us[0], us[1..], Pasted(us, prefix);
      assert u in us && AllMild(rest);
      hide FirstPlain;
      if u.NoteLine? && Flat(u.lines) {
        MildPasted(rest, prefix);
        assert ps == [u] + Pasted(rest, prefix);
      } else {
        assert ps == [ps[0]] + rest && Mild(ps[0]);
      }
    }
  }

  lemma MildAround(a: Anchors, f: Forest, level: nat, us: seq<Unit>)
    requires f.Tree? && AllMild(us)
    ensures AllMild(NoteLines(Texts(Held(a.leading, f.id)), Indent(level))
                    + WithTrail(us, Texts(Held(a.trailing, f.id))))
  {
    NotesAreNotes(Texts(Held(a.leading, f.id)), Indent(level));
    hide Braceless;
    assert forall u :: u in us[..|us|] ==> u in us;
  }

  lemma {:induction false} LegMild(a: Anchors, f: Forest, level: nat, head: string, compact: bool)
    requires WellFormed(f) && (compact ==> Single(f)) && BracelessHeads(f) && Braceless(head)
    ensures AllMild(Leg(a, f, level, head, compact))
    decreases f, 3
  {
    if compact {
      CoreMild(a, f, level);
      MildPasted(Core(a, f, level), head);
      hide Core, Pasted, AllMild;
      MildAround(a, f, level, Pasted(Core(a, f, level), head));
    } else {
      BlockMild(a, f, level + 1);
    }
  }

  lemma {:induction false} BlockMild(a: Anchors, f: Forest, level: nat)
    requires WellFormed(f) && BracelessHeads(f)
    ensures AllMild(Block(a, f, level))
    decreases f, 2
  {
    if f.Tree? {
      CoreMild(a, f, level);
      BlockMild(a, f.rest, level);
      hide AllMild, Core;
      MildAround(a, f, level, Core(a, f, level));
      MildAppend(Statement(a, f, level), Block(a, f.rest, level));
    }
  }

  lemma {:induction false} CoreMild(a: Anchors, f: Forest, level: nat)
    requires f.Tree? && WellFormed(f) && BracelessHeads(f)
    ensures AllMild(Core(a, f, level))
    decreases f, 0
  {
    hide Leg, Block;
    if f.form.Branch? || f.form.Choice? {
      LegMild(a, f.legs, level, f.form.head, f.form.compact);
      if f.form.Choice? {
        LegMild(a, f.orelse, level, "Else ", f.form.elseCompact);
      }
    } else {
      BlockMild(a, f.legs, level + 1);
    }
  }

  // ---- The code alone -------------------------------------------------------------------------------

  /** No comments at all. */
  const BARE := Anchors([], map[], map[], [])

  lemma {:induction false} CodesJoin(us: seq<Unit>, vs: seq<Unit>)
    ensures CodesOf(us + vs) == CodesOf(us) + CodesOf(vs)
  {
    if us == [] {
      assert us + vs == vs;
    } else {
      assert (us + vs)[1..] == us[1..] + vs;
      CodesJoin(us[1..], vs);
      hide UnitCodes;
    }
  }

  lemma {:induction false} CodesNotes(texts: seq<string>, pad: string)
    ensures CodesOf(NoteLines(texts, pad)) == []
  {
    if texts != [] {
      CodesNotes(texts[1..], pad);
      assert NoteLines(texts, pad)[1..] == NoteLines(texts[1..], pad);
    }
  }

  lemma CodesTrail(us: seq<Unit>, notes: seq<string>)
    requires EndsInCode(us)
    ensures CodesOf(WithTrail(us, notes)) == CodesOf(us)
  {
    var init, u := us[..|us| - 1], us[|us| - 1];
    var w := u.(notes := u.notes + notes);
    assert us == init + [u];
    CodesJoin(init, [u]);
    CodesJoin(init, [w]);
    assert [u][1..] == [] && [w][1..] == [];
    assert CodesOf([u]) == [u.code] == CodesOf([w]);
  }

  /** A head on the first of some lines of code. */
  function OnFirst(codes: seq<string>, prefix: string): seq<string> {
    if codes == [] then [] else [prefix + codes[0]] + codes[1..]
  }

  lemma {:induction false} CodesPasted(us: seq<Unit>, prefix: string)
    requires OpenFlat(us)
    ensures CodesOf(Pasted(us, prefix)) == OnFirst(CodesOf(us), prefix)
  {
    if us != [] {
      var u, rest, ps := us[0], us[1..], Pasted(us, prefix);
      hide Flat;
      if u.NoteLine? {
        CodesPasted(rest, prefix);
        assert ps[1..] == Pasted(rest, prefix);
        assert CodesOf(us) == [] + CodesOf(rest) && CodesOf(ps) == [] + CodesOf(ps[1..]);
      } else {
        assert ps[1..] == rest;
      }
    }
  }

  lemma CodesAround(a: Anchors, f: Forest, level: nat, us: seq<Unit>)
    requires f.Tree? && EndsInCode(us)
    ensures CodesOf(NoteLines(Texts(Held(a.leading, f.id)), Indent(level))
                    + WithTrail(us, Texts(Held(a.trailing, f.id))))
            == CodesOf(us)
  {
    CodesNotes(Texts(Held(a.leading, f.id)), Indent(level));
    CodesTrail(us, Texts(Held(a.trailing, f.id)));
    CodesJoin(NoteLines(Texts(Held(a.leading, f.id)), Indent(level)), WithTrail(us, Texts(Held(a.trailing, f.id))));
  }

  lemma {:induction false} BareIsSafe(f: Forest)
    ensures Safe(BARE, f)
    ensures f.Tree? ==> Opening(BARE, f) == [] && Closing(BARE, f) == []
  {
    if f.Tree? {
      BareIsSafe(f.legs);
      BareIsSafe(f.orelse);
      BareIsSafe(f.rest);
    }
  }

  lemma InlineCodes(a: Anchors, f: Forest, level: nat, head: string)
    requires f.Tree? && WellFormed(f) && StartsCode(head) && FlatAll(Opening(a, f))
    ensures CodesOf(Inline(a, f, level, head)) == OnFirst(CodesOf(Core(a, f, level)), head)
  {
    CoreLast(a, f, level);
    LastPasted(Core(a, f, level), head);
    CoreOpening(a, f, level);
    hide Core, Pasted, NoteLines, WithTrail, OpenFlat, Opening, FlatAll;
    CodesPasted(Core(a, f, level), head);
    CodesAround(a, f, level, Pasted(Core(a, f, level), head));
  }

  /** In a safe program the comments leave the code as it is without them. */
  lemma {:induction false} LegCodes(a: Anchors, f: Forest, level: nat, head: string, compact: bool)
    requires WellFormed(f) && (compact ==> Single(f)) && StartsCode(head) && LegSafe(a, f, compact)
    ensures CodesOf(Leg(a, f, level, head, compact)) == CodesOf(Leg(BARE, f, level, head, compact))
    decreases f, 3
  {
    if compact {
      CoreCodes(a, f, level);
      BareIsSafe(f);
      hide Core, Inline, Safe;
      InlineCodes(a, f, level, head);
      InlineCodes(BARE, f, level, head);
    } else {
      BlockCodes(a, f, level + 1);
      hide Block;
      CodesJoin(Line(level, head + "Begin"), Block(a, f, level + 1));
      CodesJoin(Line(level, head + "Begin"), Block(BARE, f, level + 1));
    }
  }

  lemma {:induction false} BlockCodes(a: Anchors, f: Forest, level: nat)
    requires WellFormed(f) && Safe(a, f)
    ensures CodesOf(Block(a, f, level)) == CodesOf(Block(BARE, f, level))
    decreases f, 2
  {
    if f.Tree? {
      CoreCodes(a, f, level);
      CoreLast(a, f, level);
      CoreLast(BARE, f, level);
      BlockCodes(a, f.rest, level);
      hide Core, NoteLines, WithTrail;
      CodesAround(a, f, level, Core(a, f, level));
      CodesAround(BARE, f, level, Core(BARE, f, level));
      CodesJoin(Statement(a, f, level), Block(a, f.rest, level));
      CodesJoin(Statement(BARE, f, level), Block(BARE, f.rest, level));
    }
  }

  lemma CodesEnded(us: seq<Unit>, vs: seq<Unit>, level: nat, compact: bool, end: string)
    requires CodesOf(us) == CodesOf(vs)
    ensures CodesOf(Ended(us, level, compact, end)) == CodesOf(Ended(vs, level, compact, end))
  {
    CodesJoin(us, Line(level, end));
    CodesJoin(vs, Line(level, end));
  }

  lemma {:induction false} CoreCodes(a: Anchors, f: Forest, level: nat)
    requires f.Tree? && WellFormed(f) && LegsSafe(a, f)
    ensures CodesOf(Core(a, f, level)) == CodesOf(Core(BARE, f, level))
    decreases f, 0
  {
    hide Leg, Block, Ended, CodesOf, Safe;
    match f.form {
      case Simple(code) =>
      case Branch(head, compact) =>
        LegCodes(a, f.legs, level, head, compact);
        CodesEnded(Leg(a, f.legs, level, head, compact), Leg(BARE, f.legs, level, head, compact), level, compact,
                   "End ;");
      case Choice(head, compact, elseCompact) =>
        LegCodes(a, f.legs, level, head, compact);
        LegCodes(a, f.orelse, level, "Else ", elseCompact);
        var yes, no := Leg(a, f.legs, level, head, compact), Leg(a, f.orelse, level, "Else ", elseCompact);
        var bareYes, bareNo := Leg(BARE, f.legs, level, head, compact),
          Leg(BARE, f.orelse, level, "Else ", elseCompact);
        CodesEnded(yes, bareYes, level, compact, "End");
        CodesEnded(no, bareNo, level, elseCompact, "End ;");
        CodesJoin(Ended(yes, level, compact, "End"), Ended(no, level, elseCompact, "End ;"));
        CodesJoin(Ended(bareYes, level, compact, "End"), Ended(bareNo, level, elseCompact, "End ;"));
      case Repeat(cond) =>
        BlockCodes(a, f.legs, level + 1);
        var first, last := Line(level, "Repeat"), Line(level, "Until " + cond + " ;");
        CodesJoin(first, Block(a, f.legs, level + 1));
        CodesJoin(first, Block(BARE, f.legs, level + 1));
        CodesJoin(first + Block(a, f.legs, level + 1), last);
        CodesJoin(first + Block(BARE, f.legs, level + 1), last);
    }
  }

  // ---- The theorem ----------------------------------------------------------------------------------

  lemma ProgramReadable(a: Anchors, f: Forest)
    requires WellFormed(f) && AnchorsWhole(a)
    ensures Readable(Program(a, f))
  {
    BlockReadable(a, f, 0);
    ReadableNotes(a.header, []);
    ReadableNotes(a.footer, []);
    hide NoteLines, Block, Sane, CodeUnit;
    ReadableAppend(NoteLines(Texts(a.header), []), Block(a, f, 0));
    ReadableAppend(NoteLines(Texts(a.header), []) + Block(a, f, 0), NoteLines(Texts(a.footer), []));
  }

  lemma ProgramCodes(a: Anchors, f: Forest)
    requires WellFormed(f) && Safe(a, f)
    ensures CodesOf(Program(a, f)) == CodesOf(Program(BARE, f)) == CodesOf(Block(BARE, f, 0))
  {
    BlockCodes(a, f, 0);
    hide NoteLines, Block;
    CodesOfProgram(a, f);
    CodesOfProgram(BARE, f);
  }

  lemma CodesOfProgram(a: Anchors, f: Forest)
    requires WellFormed(f)
    ensures CodesOf(Program(a, f)) == CodesOf(Block(a, f, 0))
  {
    hide NoteLines, Block;
    CodesNotes(Texts(a.header), []);
    CodesNotes(Texts(a.footer), []);
    CodesJoin(NoteLines(Texts(a.header), []), Block(a, f, 0));
    CodesJoin(NoteLines(Texts(a.header), []) + Block(a, f, 0), NoteLines(Texts(a.footer), []));
  }

  lemma ProgramMild(a: Anchors, f: Forest)
    requires WellFormed(f) && BracelessHeads(f)
    ensures AllMild(Program(a, f))
  {
    BlockMild(a, f, 0);
    NotesAreNotes(Texts(a.header), []);
    NotesAreNotes(Texts(a.footer), []);
    hide NoteLines, Block, Braceless;
  }

  lemma LexOut(a: Anchors, f: Forest)
    requires WellFormed(f)
    ensures Lex(Emitted(a, f)) == Lex(Out(Program(a, f)))
  {
    hide Lex;
    if Sheet(Program(a, f)) != [] {
      JoinLines(Sheet(Program(a, f)));
      LexNewline(Emitted(a, f));
    }
  }

  /** A program without comments lexes line by line. */
  lemma BareReads(f: Forest)
    requires WellFormed(f)
    ensures Lex(Emitted(BARE, f)) == Noted(ReadCodes(CodesOf(Program(BARE, f))), [])
  {
    assert AnchorsWhole(BARE);
    BareIsSafe(f);
    hide Lex, Program, AnchorsWhole, Safe, Sane, Sound, Shown;
    ProgramReadable(BARE, f);
    ProgramSound(BARE, f);
    ProgramNotes(BARE, f);
    BareShown(f, 0);
    LexOut(BARE, f);
    UnitsRead(Program(BARE, f));
  }

  lemma {:induction false} BareShown(f: Forest, level: nat)
    ensures Shown(BARE, f, level) == []
    decreases f
  {
    if f.Tree? {
      BareShown(f.legs, LegLevel(level, (f.form.Branch? || f.form.Choice?) && f.form.compact));
      BareShown(f.orelse, LegLevel(level, f.form.Choice? && f.form.elseCompact));
      BareShown(f.rest, level);
    }
  }

  /** The emitted text reads back as the program's own tokens and its comments, in order, when the
      condition holds, and not as those comments when it does not. */
  lemma EmissionReads(a: Anchors, f: Forest)
    requires WellFormed(f) && AnchorsWhole(a)
    ensures Safe(a, f) ==> Lex(Emitted(a, f)) == Noted(Lex(Emitted(BARE, f)), ShownAll(a, f))
    ensures BracelessHeads(f) && !Safe(a, f) ==> Differs(Lex(Emitted(a, f)), ShownAll(a, f))
    ensures BracelessHeads(f) && Lex(Emitted(BARE, f)).Good? ==>
              (Safe(a, f) <==> Lex(Emitted(a, f)) == Noted(Lex(Emitted(BARE, f)), ShownAll(a, f)))
  {
    hide Lex, Program, AnchorsWhole, Safe, Sane, Sound, Shown, BracelessHeads, Mild, WellFormed;
    ProgramReadable(a, f);
    ProgramSound(a, f);
    ProgramNotes(a, f);
    LexOut(a, f);
    if Safe(a, f) {
      UnitsRead(Program(a, f));
      ProgramCodes(a, f);
      BareReads(f);
    } else if BracelessHeads(f) {
      ProgramMild(a, f);
      UnitsDiffer(Program(a, f));
    }
  }

  /** So does the wrapped text, which is what is written. */
  lemma WrittenReads(a: Anchors, f: Forest)
    requires WellFormed(f) && AnchorsWhole(a) && Safe(a, f) && Lex(Emitted(BARE, f)).Good?
    requires InStep(Split(Emitted(a, f)), 0, false)
    ensures Lex(WrapAll(Emitted(a, f)) + "\n") == Noted(Lex(Emitted(BARE, f)), ShownAll(a, f))
  {
    hide Lex, WrapAll, Split, Emitted, Safe, WellFormed, AnchorsWhole, PlainGaps, InStep;
    EmissionReads(a, f);
    WrapIsUnseen(Emitted(a, f));
    LexNewline(WrapAll(Emitted(a, f)));
  }

  // ---- Conservation -----------------------------------------------------------------------------------

  /** The text of a comment as it is printed at some indentation. */
  ghost predicate PrintOf(text: string, c: Comment) {
    exists n: nat :: text == Shifted(c.text, Indent(n))
  }

  ghost predicate Prints(texts: seq<string>, cs: seq<Comment>) {
    |texts| == |cs| && forall i :: 0 <= i < |cs| ==> PrintOf(texts[i], cs[i])
  }

  lemma PrintsAppend(s: seq<string>, a: seq<Comment>, t: seq<string>, b: seq<Comment>)
    requires Prints(s, a) && Prints(t, b)
    ensures Prints(s + t, a + b)
  {
    hide PrintOf;
  }

  lemma PrintsFirst(text: string, texts: seq<string>, c: Comment, cs: seq<Comment>)
    requires PrintOf(text, c) && Prints(texts, cs)
    ensures Prints([text] + texts, [c] + cs)
  {
    hide PrintOf;
  }

  lemma {:induction false} ShiftsPrint(cs: seq<Comment>, level: nat)
    ensures Prints(Shifts(Texts(cs), Indent(level)), cs)
  {
    if cs != [] {
      ShiftsPrint(cs[1..], level);
      hide Shifted, Indent, Prints;
      assert PrintOf(Shifted(cs[0].text, Indent(level)), cs[0]);
      hide PrintOf;
      assert Texts(cs)[1..] == Texts(cs[1..]);
      PrintsFirst(Shifted(cs[0].text, Indent(level)), Shifts(Texts(cs[1..]), Indent(level)), cs[0], cs[1..]);
      assert cs == [cs[0]] + cs[1..];
    }
  }

  lemma TextIsPrint(c: Comment)
    ensures PrintOf(c.text, c)
  {
    Unshifted(c.text);
    assert Indent(0) == [];
    hide Shifted;
    assert c.text == Shifted(c.text, Indent(0));
  }

  lemma {:induction false} TextPrints(cs: seq<Comment>)
    ensures Prints(Texts(cs), cs)
  {
    if cs != [] {
      TextPrints(cs[1..]);
      TextIsPrint(cs[0]);
      hide PrintOf, Prints;
      PrintsFirst(cs[0].text, Texts(cs[1..]), cs[0], cs[1..]);
      assert cs == [cs[0]] + cs[1..];
    }
  }

  lemma {:induction false} UnpaddedNot(lines: seq<string>)
    ensures Unpadded(lines, []) == lines
  {
    if lines != [] {
      UnpaddedNot(lines[1..]);
      assert Content(lines[0], []) == lines[0];
    }
  }

  lemma Unshifted(text: string)
    ensures Shifted(text, []) == text
  {
    SplitText(text);
    UnpaddedNot(Split(text));
  }

  lemma {:induction false} ShownPrints(a: Anchors, f: Forest, level: nat)
    ensures Prints(Shown(a, f, level), Printed(a, f))
    decreases f
  {
    if f.Tree? {
      var inner, other := LegLevel(level, (f.form.Branch? || f.form.Choice?) && f.form.compact),
                          LegLevel(level, f.form.Choice? && f.form.elseCompact);
      ShownPrints(a, f.legs, inner);
      ShownPrints(a, f.orelse, other);
      ShownPrints(a, f.rest, level);
      ShiftsPrint(Held(a.leading, f.id), level);
      TextPrints(Held(a.trailing, f.id));
      hide Prints, Texts, Shifts;
      PrintsFour(Shifts(Texts(Held(a.leading, f.id)), Indent(level)), Held(a.leading, f.id),
                 Shown(a, f.legs, inner), Printed(a, f.legs), Shown(a, f.orelse, other), Printed(a, f.orelse),
                 Texts(Held(a.trailing, f.id)), Held(a.trailing, f.id));
      PrintsAppend(Shifts(Texts(Held(a.leading, f.id)), Indent(level)) + ShownLegs(a, f, level)
                   + Texts(Held(a.trailing, f.id)),
                   Held(a.leading, f.id) + Printed(a, f.legs) + Printed(a, f.orelse) + Held(a.trailing, f.id),
                   Shown(a, f.rest, level), Printed(a, f.rest));
      hide Shown, Printed, Held, Indent, LegLevel;
    }
  }

  lemma PrintsFour(s1: seq<string>, c1: seq<Comment>, s2: seq<string>, c2: seq<Comment>, s3: seq<string>,
                   c3: seq<Comment>, s4: seq<string>, c4: seq<Comment>)
    requires Prints(s1, c1) && Prints(s2, c2) && Prints(s3, c3) && Prints(s4, c4)
    ensures Prints(s1 + (s2 + s3) + s4, c1 + c2 + c3 + c4)
  {
    hide Prints;
    PrintsAppend(s2, c2, s3, c3);
    PrintsAppend(s1, c1, s2 + s3, c2 + c3);
    PrintsAppend(s1 + (s2 + s3), c1 + (c2 + c3), s4, c4);
    assert c1 + (c2 + c3) + c4 == c1 + c2 + c3 + c4;
  }

  lemma ShownAllPrints(a: Anchors, f: Forest)
    ensures Prints(ShownAll(a, f), PrintedAll(a, f))
  {
    assert Indent(0) == [];
    ShownPrints(a, f, 0);
    ShiftsPrint(a.header, 0);
    ShiftsPrint(a.footer, 0);
    hide Prints, Texts, Shifts, Indent, Shown, Printed;
    PrintsAppend(Shifts(Texts(a.header), []), a.header, Shown(a, f, 0), Printed(a, f));
    PrintsAppend(Shifts(Texts(a.header), []) + Shown(a, f, 0), a.header + Printed(a, f), Shifts(Texts(a.footer), []),
                 a.footer);
  }

  lemma {:induction false} AtIsGiven(ms: seq<Mark>, cs: seq<Comment>, p: Place)
    ensures forall c :: c in At(ms, cs, p) ==> c in cs
  {
    if cs != [] {
      AtIsGiven(ms, cs[..|cs| - 1], p);
      hide PlaceOf;
    }
  }

  lemma AnchoredWhole(a: Anchors, ms: seq<Mark>, cs: seq<Comment>)
    requires Anchored(a, ms, cs) && WholeAll(cs)
    ensures AnchorsWhole(a)
  {
    hide IsNote, At;
    AtIsGiven(ms, cs, Header);
    AtIsGiven(ms, cs, Footer);
    forall id ensures WholeAll(Held(a.leading, id)) && WholeAll(Held(a.trailing, id)) {
      AtIsGiven(ms, cs, Leading(id));
      AtIsGiven(ms, cs, Trailing(id));
    }
  }

  /** No comment is lost and none appears twice: once the comments of a program are anchored, the
      text that is written lexes to the program's own tokens and to all of them, whatever the
      layout, exactly when the condition holds. */
  lemma EmissionConserves(f: Forest, comments: seq<Comment>, a: Anchors)
    requires WellFormed(f) && Distinct(f) && WholeAll(comments)
    requires Anchored(a, LineStmts(f), Ordered(comments)) && Lex(Emitted(BARE, f)).Good?
    ensures multiset(PrintedAll(a, f)) == multiset(comments) && Prints(ShownAll(a, f), PrintedAll(a, f))
    ensures Safe(a, f) ==> Lex(Emitted(a, f)) == Noted(Lex(Emitted(BARE, f)), ShownAll(a, f))
    ensures BracelessHeads(f) && !Safe(a, f) ==> Differs(Lex(Emitted(a, f)), ShownAll(a, f))
  {
    OrderedKeeps(comments);
    assert WholeAll(Ordered(comments)) by {
      assert forall c :: c in Ordered(comments) ==> c in multiset(Ordered(comments));
    }
    hide WellFormed, Distinct, WholeAll, Anchored, LineStmts, Ordered, Safe, BracelessHeads, Lex, Emitted, Prints,
         ShownAll;
    AnchoredWhole(a, LineStmts(f), Ordered(comments));
    CommentsConserved(f, comments, a);
    ShownAllPrints(a, f);
    EmissionReads(a, f);
  }

  // ---- Inputs on which a comment is lost ------------------------------------------------------------

  function One(id: nat, line: int, code: string): Forest {
    Tree(id, Some(line), Simple(code), Empty, Empty, Empty)
  }

  function Compact(id: nat, line: int, head: string, leg: Forest): Forest {
    Tree(id, Some(line), Branch(head, true), leg, Empty, Empty)
  }

  /** Two heads on line 1, and the statement of the second on line 4. */
  function Nested(h1: string, h2: string, code: string): Forest {
    Compact(1, 1, h1, Compact(2, 1, h2, One(3, 4, code)))
  }

  /** A head on line 1, its statement on line 2. */
  function Trailed(head: string, code: string): Forest {
    Compact(1, 1, head, One(2, 2, code))
  }

  lemma OneAnchored(a: Anchors, ms: seq<Mark>, c: Comment, p: Place)
    requires Anchored(a, ms, [c]) && Belongs(ms, c, p)
    ensures At(ms, [c], p) == [c]
  {
    PlaceMeaning(ms, c, p);
    hide PlaceOf;
    assert [c][..0] == [] && At(ms, [], p) == [];
  }

  lemma NestedAnchor(a: Anchors, c: Comment)
    requires Anchored(a, [Mark(1, 1), Mark(2, 1), Mark(3, 4)], [c]) && c.line == 2 && !c.trailing
    ensures Held(a.leading, 3) == [c]
  {
    var ms := [Mark(1, 1), Mark(2, 1), Mark(3, 4)];
    assert IsNearest(ms, 2, 2) && ms[0].line <= 2;
    hide At, PlaceOf;
    OneAnchored(a, ms, c, Leading(3));
  }

  lemma NestedMarks(h1: string, h2: string, code: string)
    ensures LineStmts(Nested(h1, h2, code)) == [Mark(1, 1), Mark(2, 1), Mark(3, 4)]
  {
    assert LineStmts(One(3, 4, code)) == [Mark(3, 4)];
    assert LineStmts(Compact(2, 1, h2, One(3, 4, code))) == [Mark(2, 1), Mark(3, 4)];
  }

  lemma NestedIsUnsafe(h1: string, h2: string, code: string, a: Anchors, c: Comment)
    requires Held(a.leading, 3) == [c] && !FlatText(c.text)
    ensures !Safe(a, Nested(h1, h2, code))
  {
    var inner := Compact(2, 1, h2, One(3, 4, code));
    hide FlatText;
    assert c in [c] && c in Opening(a, inner);
    assert !FlatAll(Opening(a, inner));
    assert !LegSafe(a, inner, true);
    hide Opening, FlatAll, LegSafe;
  }

  /** Between two compact heads and their statement, a comment with a line that does not look like
      one is torn: the first head is put into it. */
  lemma NestedLeadIsTorn(h1: string, h2: string, code: string, c: Comment, a: Anchors)
    requires var f := Nested(h1, h2, code);
             WellFormed(f) && BracelessHeads(f) && Anchored(a, LineStmts(f), [c])
    requires c.line == 2 && !c.trailing && IsNote(c.text) && !FlatText(c.text)
    ensures Differs(Lex(Emitted(a, Nested(h1, h2, code))), ShownAll(a, Nested(h1, h2, code)))
  {
    var f := Nested(h1, h2, code);
    NestedMarks(h1, h2, code);
    hide Nested, IsNote, FlatText, Emitted, Lex, WellFormed, BracelessHeads, ShownAll, LineStmts, Safe;
    AnchoredWhole(a, LineStmts(f), [c]);
    hide AnchorsWhole, Held, At;
    NestedAnchor(a, c);
    NestedIsUnsafe(h1, h2, code, a, c);
    EmissionReads(a, f);
  }

  /** Such a comment. */
  lemma TwoLineComment()
    ensures var text := "{ one" + "\n" + "  two }";
            IsNote(text) && !FlatText(text)
  {
    hide *;
    TwoIsNote();
    TwoIsPlain();
    NotFlat("{ one", "  two }");
  }

  lemma TwoIsNote()
    ensures IsNote("{ one" + "\n" + "  two }") && '\n' !in "{ one" && '\n' !in "  two }"
  {
    BraceIsNote("{ one" + "\n" + "  two }");
  }

  lemma NotFlat(first: string, second: string)
    requires '\n' !in first && '\n' !in second && !CommentLine(second)
    ensures !FlatText(first + "\n" + second)
  {
    SplitFirst(first, second);
    assert Split(second) == [second];
    hide Split, CommentLine;
    assert ([first] + [second])[1] == second;
  }

  lemma TwoIsPlain()
    ensures !CommentLine("  two }")
  {
    var s := "two }";
    assert LStrip(s) == s && LStrip(" " + s) == s by { assert (" " + s)[1..] == s; }
    assert LStrip(" " + (" " + s)) == s by { assert (" " + (" " + s))[1..] == " " + s; }
    assert "  two }" == " " + (" " + s);
  }

  /** Any heads and code make such programs. */
  lemma SampleIsWellFormed(h1: string, h2: string, code: string)
    requires Head(h1) && Head(h2) && Braceless(h1) && Braceless(h2) && CodeText(code) && StartsCode(code)
    ensures WellFormed(Nested(h1, h2, code)) && BracelessHeads(Nested(h1, h2, code))
    ensures WellFormed(Trailed(h1, code)) && BracelessHeads(Trailed(h1, code))
  {
    hide Head, StartsCode, Braceless, CodeText;
    var one, two := One(3, 4, code), One(2, 2, code);
    assert WellFormed(one) && BracelessHeads(one) && WellFormed(two) && BracelessHeads(two);
    var inner := Compact(2, 1, h2, one);
    assert WellFormed(inner) && BracelessHeads(inner);
  }

  lemma SampleHead(h: string)
    requires h == "If a Then " || h == "If b Then "
    ensures Head(h) && Braceless(h)
  {
    PlainCode(h);
    hide CodeText;
  }

  lemma SampleCode()
    ensures CodeText("c = 1") && StartsCode("c = 1")
  {
    PlainCode("c = 1");
    hide CodeText;
  }

  /** `If a Then If b Then` and its statement three lines below. */
  function TornProgram(): (f: Forest)
    ensures WellFormed(f) && BracelessHeads(f)
  {
    hide *;
    SampleHead("If a Then ");
    SampleHead("If b Then ");
    SampleCode();
    SampleIsWellFormed("If a Then ", "If b Then ", "c = 1");
    Nested("If a Then ", "If b Then ", "c = 1")
  }

  /** A comment of two lines in front of that statement is torn. */
  lemma TornInput(c: Comment, a: Anchors)
    requires c.line == 2 && !c.trailing && c.text == "{ one" + "\n" + "  two }"
    requires Anchored(a, LineStmts(TornProgram()), [c])
    ensures Differs(Lex(Emitted(a, TornProgram())), ShownAll(a, TornProgram()))
  {
    assert TornProgram() == Nested("If a Then ", "If b Then ", "c = 1");
    hide *;
    TwoLineComment();
    NestedLeadIsTorn("If a Then ", "If b Then ", "c = 1", c, a);
  }

  lemma TrailedAnchors(a: Anchors, x: Comment, y: Comment)
    requires Anchored(a, [Mark(1, 1), Mark(2, 2)], [x, y]) && x.trailing && y.trailing && x.line == 1 && y.line == 2
    ensures Held(a.trailing, 1) == [x] && Held(a.trailing, 2) == [y]
  {
    var ms := [Mark(1, 1), Mark(2, 2)];
    assert ms[0] == Mark(1, 1) && ms[1] == Mark(2, 2);
    PlaceMeaning(ms, x, Trailing(1));
    PlaceMeaning(ms, y, Trailing(2));
    hide PlaceOf, Belongs;
    assert [] + [x] == [x] && [x] + [y] == [x, y];
    forall p ensures At(ms, [x, y], p)
      == (if PlaceOf(ms, x) == p then [x] else []) + if PlaceOf(ms, y) == p then [y] else [] {
      AtAppends(ms, [x], y, p);
      AtAppends(ms, [], x, p);
    }
    hide At;
    assert Held(a.trailing, 1) == At(ms, [x, y], Trailing(1));
    assert Held(a.trailing, 2) == At(ms, [x, y], Trailing(2));
  }

  lemma TrailedMarks(head: string, code: string)
    ensures LineStmts(Trailed(head, code)) == [Mark(1, 1), Mark(2, 2)]
  {
    assert LineStmts(One(2, 2, code)) == [Mark(2, 2)];
  }

  lemma TrailedIsUnsafe(head: string, code: string, a: Anchors, x: Comment, y: Comment)
    requires Held(a.trailing, 1) == [x] && Held(a.trailing, 2) == [y] && LineComment(y.text)
    ensures !Safe(a, Trailed(head, code))
  {
    var f := Trailed(head, code);
    assert Closing(a, One(2, 2, code)) == [y];
    assert Closing(a, f) == [y, x] && [y, x][1..] == [x];
    hide LineComment;
    assert Texts(Closing(a, f))[0] == y.text && |Texts(Closing(a, f))| == 2;
    assert !RunsLast(Texts(Closing(a, f)));
  }

  /** A run after the head of a compact leg and one after its statement are printed on one line,
      and read back as one comment. */
  lemma RunsMerge(head: string, code: string, x: Comment, y: Comment, a: Anchors)
    requires var f := Trailed(head, code);
             WellFormed(f) && BracelessHeads(f) && Anchored(a, LineStmts(f), [x, y])
    requires x.trailing && y.trailing && x.line == 1 && y.line == 2 && RunNote(x.text) && RunNote(y.text)
    ensures Differs(Lex(Emitted(a, Trailed(head, code))), ShownAll(a, Trailed(head, code)))
  {
    var f := Trailed(head, code);
    TrailedMarks(head, code);
    assert LineComment(y.text) && IsNote(x.text) && IsNote(y.text);
    hide Trailed, LineComment, IsNote, Emitted, Lex, WellFormed, BracelessHeads, ShownAll, LineStmts, Safe;
    AnchoredWhole(a, LineStmts(f), [x, y]);
    hide AnchorsWhole, Held, At;
    TrailedAnchors(a, x, y);
    TrailedIsUnsafe(head, code, a, x, y);
    EmissionReads(a, f);
  }

  /** `If a Then` over its statement. */
  function MergedProgram(): (f: Forest)
    ensures WellFormed(f) && BracelessHeads(f)
  {
    hide *;
    SampleHead("If a Then ");
    SampleCode();
    SampleIsWellFormed("If a Then ", "If a Then ", "c = 1");
    Trailed("If a Then ", "c = 1")
  }

  /** With `// x` after the head and `// y` after the statement, one comment is printed. */
  lemma MergedInput(x: Comment, y: Comment, a: Anchors)
    requires x.trailing && y.trailing && x.line == 1 && y.line == 2 && x.text == "// x" && y.text == "// y"
    requires Anchored(a, LineStmts(MergedProgram()), [x, y])
    ensures Differs(Lex(Emitted(a, MergedProgram())), ShownAll(a, MergedProgram()))
  {
    assert MergedProgram() == Trailed("If a Then ", "c = 1");
    assert RunNote("// x") && RunNote("// y");
    hide *;
    RunsMerge("If a Then ", "c = 1", x, y, a);
  }
}
