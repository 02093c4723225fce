/** The emitter's methods, on lists of lines, against the units of `CommentLayout`. */
module CommentPrinting {
  import opened Sequences
  import opened Layout
  import opened Comments
  import opened WrapTheorem
  import opened CommentLayout

  // ---- How units print ----------------------------------------------------------------------------

  /** The text of some units, each line ended by a newline. */
  function Out(us: seq<Unit>): string {
    Lines(Sheet(us))
  }

  lemma {:induction false} SheetAppends(us: seq<Unit>, vs: seq<Unit>)
    ensures Sheet(us + vs) == Sheet(us) + Sheet(vs)
  {
    if us == [] {
      assert us + vs == vs;
    } else {
      assert (us + vs)[1..] == us[1..] + vs;
      SheetAppends(us[1..], vs);
      hide Physical;
    }
  }

  lemma OutAppends(us: seq<Unit>, vs: seq<Unit>)
    ensures Out(us + vs) == Out(us) + Out(vs)
  {
    SheetAppends(us, vs);
    LinesAppend(Sheet(us), Sheet(vs));
  }

  lemma LineOut(level: nat, code: string)
    requires '\n' !in code
    ensures Out(Line(level, code)) == Lines([Indent(level) + code])
  {
    var s := Indent(level) + code;
    assert s + Tail([]) == s;
    assert Split(s) == [s];
    assert Line(level, code)[1..] == [];
    assert Sheet(Line(level, code)) == [s];
  }

  lemma {:induction false} TailAppends(a: seq<string>, b: seq<string>)
    ensures Tail(a + b) == Tail(a) + Tail(b)
  {
    if a == [] {
      assert a + b == b;
    } else {
      assert (a + b)[1..] == a[1..] + b;
      TailAppends(a[1..], b);
    }
  }

  lemma {:induction false} TailIsJoin(notes: seq<string>)
    requires notes != []
    ensures Tail(notes) == " " + JoinWith(notes, " ")
  {
    if |notes| > 1 {
      TailIsJoin(notes[1..]);
    } else {
      assert Tail(notes[1..]) == [];
    }
  }

  /** `t` put at the end of the last line. */
  lemma LastLine(lines: seq<string>, t: string)
    requires lines != []
    ensures var n := |lines| - 1;
            Lines(lines[n := lines[n] + t]) == Lines(lines[..n]) + lines[n] + t + "\n"
    ensures Lines(lines) == Lines(lines[..|lines| - 1]) + lines[|lines| - 1] + "\n"
  {
    var n := |lines| - 1;
    assert lines[n := lines[n] + t] == lines[..n] + [lines[n] + t];
    assert lines == lines[..n] + [lines[n]];
    LinesAppend(lines[..n], [lines[n] + t]);
    LinesAppend(lines[..n], [lines[n]]);
    OneLine(lines[n] + t);
    OneLine(lines[n]);
  }

  lemma CodeLineOut(u: Unit)
    requires u.CodeLine?
    ensures Lines(Physical(u)) == u.pad + u.code + Tail(u.notes) + "\n"
  {
    JoinLines(Physical(u));
  }

  lemma OneUnit(u: Unit)
    ensures Sheet([u]) == Physical(u)
  {
    assert [u][1..] == [];
    hide Physical;
  }

  predicate EndsInCode(us: seq<Unit>) {
    us != [] && us[|us| - 1].CodeLine?
  }

  /** Comments after the last line, on the text. */
  lemma TrailOut(us: seq<Unit>, notes: seq<string>)
    requires EndsInCode(us)
    ensures Out(us) != [] && Out(us)[|Out(us)| - 1] == '\n'
    ensures Out(WithTrail(us, notes)) == Out(us)[..|Out(us)| - 1] + Tail(notes) + "\n"
  {
    var init, u := us[..|us| - 1], us[|us| - 1];
    var w := u.(notes := u.notes + notes);
    assert us == init + [u];
    OutAppends(init, [u]);
    OutAppends(init, [w]);
    OneUnit(u);
    OneUnit(w);
    CodeLineOut(u);
    CodeLineOut(w);
    TailAppends(u.notes, notes);
    hide Out, Physical, Tail;
    var a, b, t := Out(init), u.pad + u.code + Tail(u.notes), Tail(notes);
    Associate(a, b, "\n");
    Associate(u.pad + u.code, Tail(u.notes), t);
    Associate(a, b, t);
    Associate(a, b + t, "\n");
    assert (a + b + "\n")[..|a + b|] == a + b;
  }

  // ---- The shape of what a statement prints ---------------------------------------------------------

  /** Comments at the indentation, then code, and code at the end. */
  predicate Framed(us: seq<Unit>, pad: string) {
    Opens(us, pad) && EndsInCode(us)
  }

  lemma {:induction false} OpensLonger(us: seq<Unit>, vs: seq<Unit>, pad: string)
    requires Opens(us, pad)
    ensures Opens(us + vs, pad)
  {
    if us[0].NoteLine? {
      assert (us + vs)[1..] == us[1..] + vs;
      OpensLonger(us[1..], vs, pad);
    }
  }

  lemma FramedLonger(us: seq<Unit>, vs: seq<Unit>, pad: string)
    requires Opens(us, pad) && (if vs == [] then EndsInCode(us) else EndsInCode(vs))
    ensures Framed(us + vs, pad)
  {
    OpensLonger(us, vs, pad);
    hide Opens;
    assert vs == [] ==> us + vs == us;
  }

  lemma {:induction false} NotesFrame(texts: seq<string>, us: seq<Unit>, pad: string)
    requires Framed(us, pad)
    ensures Framed(NoteLines(texts, pad) + us, pad)
  {
    if texts == [] {
      assert NoteLines(texts, pad) + us == us;
    } else {
      var vs := NoteLines(texts, pad) + us;
      assert vs[1..] == NoteLines(texts[1..], pad) + us;
      NotesFrame(texts[1..], us, pad);
    }
  }

  lemma StartsAfter(prefix: string, code: string)
    requires StartsCode(prefix)
    ensures StartsCode(prefix + code)
  {
  }

  lemma {:induction false} PastedFrames(us: seq<Unit>, pad: string, prefix: string)
    requires Framed(us, pad) && StartsCode(prefix)
    ensures Framed(Pasted(us, prefix), pad)
  {
    var rest := us[1..];
    hide FirstPlain, StartsCode;
    match us[0]
    case CodeLine(p, code, notes) =>
      StartsAfter(prefix, code);
    case NoteLine(_, lines) =>
      if Flat(lines) {
        PastedFrames(rest, pad, prefix);
        assert Pasted(us, prefix)[1..] == Pasted(rest, prefix);
      }
    case Broken(_, lines, at, q) =>
      StartsAfter(prefix, q);
  }

  lemma TrailFrames(us: seq<Unit>, pad: string, notes: seq<string>)
    requires Framed(us, pad)
    ensures Framed(WithTrail(us, notes), pad)
  {
    var n := |us| - 1;
    if n == 0 {
    } else {
      TrailOpens(us, pad, notes);
    }
  }

  lemma {:induction false} TrailOpens(us: seq<Unit>, pad: string, notes: seq<string>)
    requires Framed(us, pad) && |us| > 1
    ensures Opens(WithTrail(us, notes), pad)
  {
    var vs := WithTrail(us, notes);
    assert vs[0] == us[0];
    if us[0].NoteLine? {
      var n := |us| - 1;
      assert us[1..][..n - 1] == us[..n][1..] && us[1..][n - 1] == us[n];
      assert vs[1..] == WithTrail(us[1..], notes);
      if |us| > 2 {
        TrailOpens(us[1..], pad, notes);
      } else {
        assert Opens(us[1..], pad) && us[1..][0] == us[n];
        assert vs[1..][0].CodeLine? && vs[1..][0].code == us[n].code;
      }
    }
  }

  lemma InlineFrames(a: Anchors, f: Forest, level: nat, prefix: string)
    requires f.Tree? && WellFormed(f) && StartsCode(prefix) && Framed(Core(a, f, level), Indent(level))
    ensures Framed(Inline(a, f, level, prefix), Indent(level))
  {
    hide Core, Opens, EndsInCode, WellFormed;
    PastedFrames(Core(a, f, level), Indent(level), prefix);
    TrailFrames(Pasted(Core(a, f, level), prefix), Indent(level), Texts(Held(a.trailing, f.id)));
    NotesFrame(Texts(Held(a.leading, f.id)),
               WithTrail(Pasted(Core(a, f, level), prefix), Texts(Held(a.trailing, f.id))), Indent(level));
  }

  lemma LegFrames(a: Anchors, f: Forest, level: nat, head: string, compact: bool)
    requires WellFormed(f) && (compact ==> Single(f)) && StartsCode(head)
    requires compact ==> Framed(Core(a, f, level), Indent(level))
    ensures Opens(Leg(a, f, level, head, compact), Indent(level))
    ensures compact ==> EndsInCode(Leg(a, f, level, head, compact))
  {
    if compact {
      InlineFrames(a, f, level, head);
    } else {
      StartsAfter(head, "Begin");
    }
  }

  lemma EndedFrames(us: seq<Unit>, level: nat, compact: bool, end: string)
    requires Opens(us, Indent(level)) && (compact ==> EndsInCode(us))
    ensures Framed(Ended(us, level, compact, end), Indent(level))
  {
    if !compact {
      hide Opens;
      FramedLonger(us, Line(level, end), Indent(level));
    }
  }

  lemma {:induction false} CoreFrames(a: Anchors, f: Forest, level: nat)
    requires f.Tree? && WellFormed(f)
    ensures Framed(Core(a, f, level), Indent(level))
    decreases f
  {
    var pad := Indent(level);
    match f.form
    case Simple(code) =>
      StartsAfter(code, " ;");
    case Branch(head, compact) =>
      if compact {
        CoreFrames(a, f.legs, level);
      }
      LegFrames(a, f.legs, level, head, compact);
      hide Opens, Leg, WellFormed;
      EndedFrames(Leg(a, f.legs, level, head, compact), level, compact, "End ;");
    case Choice(head, compact, elseCompact) =>
      if compact {
        CoreFrames(a, f.legs, level);
      }
      LegFrames(a, f.legs, level, head, compact);
      if elseCompact {
        CoreFrames(a, f.orelse, level);
      }
      LegFrames(a, f.orelse, level, "Else ", elseCompact);
      hide Opens, Leg, WellFormed;
      var yes, no := Leg(a, f.legs, level, head, compact), Leg(a, f.orelse, level, "Else ", elseCompact);
      EndedFrames(yes, level, compact, "End");
      EndedFrames(no, level, elseCompact, "End ;");
      hide Ended;
      FramedLonger(Ended(yes, level, compact, "End"), Ended(no, level, elseCompact, "End ;"), pad);
    case Repeat(cond) =>
      var mid := Block(a, f.legs, level + 1);
      hide Block, WellFormed;
      OpensLonger(Line(level, "Repeat"), mid, pad);
      FramedLonger(Line(level, "Repeat") + mid, Line(level, "Until " + cond + " ;"), pad);
  }

  // ---- The methods ----------------------------------------------------------------------------------

  /** The physical lines of one comment. */
  method IndentLines(lines: seq<string>, pad: string) returns (out: seq<string>)
    ensures out == Indented(Unpadded(lines, pad), pad)
  {
    out := [];
    var j := 0;
    hide Content;
    while j < |lines|
      invariant 0 <= j <= |lines|
      invariant out == Indented(Unpadded(lines[..j], pad), pad)
    {
      OneMoreContent(lines, j, pad);
      out := out + [pad + Content(lines[j], pad)];
      j := j + 1;
    }
    assert lines[..j] == lines;
  }

  lemma {:induction false} OneMoreContent(lines: seq<string>, j: nat, pad: string)
    requires j < |lines|
    ensures Indented(Unpadded(lines[..j + 1], pad), pad)
            == Indented(Unpadded(lines[..j], pad), pad) + [pad + Content(lines[j], pad)]
  {
    hide Content;
    if j == 0 {
      assert lines[..1][1..] == [];
    } else {
      assert lines[..j + 1][1..] == lines[1..][..j] && lines[..j][1..] == lines[1..][..j - 1];
      OneMoreContent(lines[1..], j - 1, pad);
    }
  }

  /** Comments on lines of their own. */
  method CommentLines(texts: seq<string>, pad: string) returns (out: seq<string>)
    ensures out == Sheet(NoteLines(texts, pad))
  {
    out := [];
    var i := 0;
    assert texts[0..] == texts;
    assert Sheet(NoteLines(texts[|texts|..], pad)) == [];
    hide Sheet, NoteLines, Indented, Unpadded, Split;
    while i < |texts|
      invariant 0 <= i <= |texts|
      invariant Sheet(NoteLines(texts, pad)) == out + Sheet(NoteLines(texts[i..], pad))
    {
      FirstNote(texts, i, pad, out);
      var lines := IndentLines(Split(texts[i]), pad);
      out := out + lines;
      i := i + 1;
    }
  }

  lemma FirstNote(texts: seq<string>, i: nat, pad: string, out: seq<string>)
    requires i < |texts|
    ensures out + Sheet(NoteLines(texts[i..], pad))
            == out + Indented(Unpadded(Split(texts[i]), pad), pad) + Sheet(NoteLines(texts[i + 1..], pad))
  {
    var u := NoteLine(pad, Unpadded(Split(texts[i]), pad));
    assert texts[i..][1..] == texts[i + 1..];
    assert NoteLines(texts[i..], pad) == [u] + NoteLines(texts[i + 1..], pad);
    assert ([u] + NoteLines(texts[i + 1..], pad))[1..] == NoteLines(texts[i + 1..], pad);
    assert Physical(u) == Indented(Unpadded(Split(texts[i]), pad), pad);
  }

  lemma PasteLoopEnds(lines: seq<string>, pad: string, prefix: string, hoist: seq<string>)
    requires lines != [] && !(|lines| > 1 && CommentLine(lines[0]))
    ensures hoist + PasteLines(lines, pad, prefix) == hoist + ([pad + prefix + Unpad(lines[0], pad)] + lines[1..])
  {
  }

  lemma PasteLoopTurns(lines: seq<string>, pad: string, prefix: string, hoist: seq<string>)
    requires |lines| > 1 && CommentLine(lines[0])
    ensures hoist + PasteLines(lines, pad, prefix) == hoist + [lines[0]] + PasteLines(lines[1..], pad, prefix)
  {
  }

  /** The lines of a statement's text, joined and split again. */
  lemma {:induction false} SplitJoin(lines: seq<string>)
    requires lines != [] && forall l :: l in lines ==> '\n' !in l
    ensures Split(JoinWith(lines, "\n")) == lines
  {
    if |lines| > 1 {
      assert lines[0] in lines;
      SplitJoin(lines[1..]);
      SplitFirst(lines[0], JoinWith(lines[1..], "\n"));
      assert lines == [lines[0]] + lines[1..];
    } else {
      assert lines[0] in lines && lines == [lines[0]];
    }
  }

  lemma SameJoin(lines: seq<string>, more: seq<string>)
    requires lines != [] && more != [] && Lines(lines) == Lines(more)
    ensures JoinWith(lines, "\n") == JoinWith(more, "\n")
  {
    JoinLines(lines);
    JoinLines(more);
    var x, y := JoinWith(lines, "\n"), JoinWith(more, "\n");
    assert (x + "\n")[..|x|] == x && (y + "\n")[..|y|] == y;
  }

  lemma InlineOut(a: Anchors, f: Forest, level: nat, prefix: string)
    requires f.Tree? && WellFormed(f) && StartsCode(prefix) && '\n' !in prefix
    ensures var core := Core(a, f, level);
            && Sheet(core) != [] && PasteLines(Sheet(core), Indent(level), prefix) == Sheet(Pasted(core, prefix))
            && EndsInCode(Pasted(core, prefix))
  {
    CoreFrames(a, f, level);
    UnitsPaste(Core(a, f, level), Indent(level), prefix);
    PastedFrames(Core(a, f, level), Indent(level), prefix);
  }

  /** What a unit holds are single lines. */
  ghost predicate LineUnit(u: Unit) {
    !u.CodeLine? ==> (forall l :: l in u.lines ==> '\n' !in l) && '\n' !in u.pad && (u.Broken? ==> '\n' !in u.pasted)
  }

  ghost predicate LineUnits(us: seq<Unit>) {
    forall u :: u in us ==> LineUnit(u)
  }

  lemma UnitIsLines(u: Unit)
    requires LineUnit(u)
    ensures forall l :: l in Physical(u) ==> '\n' !in l
  {
    if !u.CodeLine? {
      var lines := if u.NoteLine? then u.lines else Torn(u.lines, u.at, u.pasted);
      assert forall l :: l in lines ==> '\n' !in l;
      assert forall i :: 0 <= i < |lines| ==> lines[i] in lines;
    }
  }

  lemma {:induction false} SheetIsLines(us: seq<Unit>)
    requires LineUnits(us)
    ensures forall l :: l in Sheet(us) ==> '\n' !in l
  {
    if us != [] {
      assert us[0] in us;
      UnitIsLines(us[0]);
      SheetIsLines(us[1..]);
      hide Physical, LineUnit;
    }
  }

  lemma {:induction false} PastedIsLines(us: seq<Unit>, prefix: string)
    requires LineUnits(us) && '\n' !in prefix
    ensures LineUnits(Pasted(us, prefix))
  {
    if us != [] {
      assert us[0] in us && LineUnits(us[1..]);
      PastedIsLines(us[1..], prefix);
      hide FirstPlain, Flat;
    }
  }

  lemma TrailIsLines(us: seq<Unit>, notes: seq<string>)
    requires LineUnits(us)
    ensures LineUnits(WithTrail(us, notes))
  {
    assert forall u :: u in us[..|us|] ==> u in us;
  }

  lemma {:induction false} UnpaddedIsLines(lines: seq<string>, pad: string)
    requires forall l :: l in lines ==> '\n' !in l
    ensures forall l :: l in Unpadded(lines, pad) ==> '\n' !in l
  {
    if lines != [] {
      assert lines[0] in lines;
      UnpaddedIsLines(lines[1..], pad);
    }
  }

  lemma {:induction false} NotesAreLines(texts: seq<string>, pad: string)
    requires AllTabs(pad)
    ensures LineUnits(NoteLines(texts, pad))
  {
    if texts != [] {
      NotesAreLines(texts[1..], pad);
      UnpaddedIsLines(Split(texts[0]), pad);
      assert LineUnit(NoteLine(pad, Unpadded(Split(texts[0]), pad)));
      hide LineUnit, Split, Unpadded;
    }
  }

  lemma {:induction false} LegIsLines(a: Anchors, f: Forest, level: nat, head: string, compact: bool)
    requires WellFormed(f) && (compact ==> Single(f)) && '\n' !in head
    ensures LineUnits(Leg(a, f, level, head, compact))
    decreases f, 3
  {
    hide LineUnit;
    if compact {
      var leads, trails := Texts(Held(a.leading, f.id)), Texts(Held(a.trailing, f.id));
      CoreIsLines(a, f, level);
      PastedIsLines(Core(a, f, level), head);
      TrailIsLines(Pasted(Core(a, f, level), head), trails);
      NotesAreLines(leads, Indent(level));
    } else {
      BlockIsLines(a, f, level + 1);
      LineIsLines(level, head + "Begin");
    }
  }

  lemma LineIsLines(level: nat, code: string)
    ensures LineUnits(Line(level, code))
  {
  }

  lemma {:induction false} BlockIsLines(a: Anchors, f: Forest, level: nat)
    requires WellFormed(f)
    ensures LineUnits(Block(a, f, level))
    decreases f, 2
  {
    hide LineUnit;
    if f.Tree? {
      var leads, trails := Texts(Held(a.leading, f.id)), Texts(Held(a.trailing, f.id));
      CoreIsLines(a, f, level);
      TrailIsLines(Core(a, f, level), trails);
      NotesAreLines(leads, Indent(level));
      BlockIsLines(a, f.rest, level);
    }
  }

  lemma {:induction false} CoreIsLines(a: Anchors, f: Forest, level: nat)
    requires f.Tree? && WellFormed(f)
    ensures LineUnits(Core(a, f, level))
    ensures forall l :: l in Sheet(Core(a, f, level)) ==> '\n' !in l
    decreases f, 0
  {
    hide LineUnit, Block, Leg;
    match f.form {
      case Simple(code) => LineIsLines(level, code + " ;");
      case Branch(head, compact) =>
        LegIsLines(a, f.legs, level, head, compact);
        LineIsLines(level, "End ;");
      case Choice(head, compact, elseCompact) =>
        LegIsLines(a, f.legs, level, head, compact);
        LegIsLines(a, f.orelse, level, "Else ", elseCompact);
        LineIsLines(level, "End");
        LineIsLines(level, "End ;");
      case Repeat(cond) =>
        BlockIsLines(a, f.legs, level + 1);
        LineIsLines(level, "Repeat");
        LineIsLines(level, "Until " + cond + " ;");
    }
    SheetIsLines(Core(a, f, level));
  }

  /** Trailing comments joined to the last of some lines print what the units print with them. */
  lemma TrailLines(lines: seq<string>, us: seq<Unit>, notes: seq<string>)
    requires lines != [] && EndsInCode(us) && Lines(lines) == Out(us) && notes != []
    ensures var n := |lines| - 1;
            Lines(lines[n := lines[n] + " " + JoinWith(notes, " ")]) == Out(WithTrail(us, notes))
  {
    var n := |lines| - 1;
    TailIsJoin(notes);
    TrailOut(us, notes);
    assert lines[n] + Tail(notes) == lines[n] + " " + JoinWith(notes, " ");
    LastLine(lines, Tail(notes));
    hide Out, Tail, WithTrail, Lines;
    var x := Lines(lines[..n]) + lines[n];
    assert Out(us) == x + "\n" && Out(us)[..|Out(us)| - 1] == x;
  }

  lemma NoTrail(us: seq<Unit>)
    ensures WithTrail(us, []) == us
  {
    if us != [] && us[|us| - 1].CodeLine? {
      assert us[|us| - 1].notes + [] == us[|us| - 1].notes;
    }
  }

  /** Comment lines moved up, and the head put on the first line that is not one. */
  method Hoist(core: seq<string>, pad: string, prefix: string) returns (out: seq<string>)
    requires core != []
    ensures out != [] && out == PasteLines(core, pad, prefix)
  {
    var lines := core;
    var hoist: seq<string> := [];
    hide CommentLine, Unpad;
    while |lines| > 1 && CommentLine(lines[0])
      invariant lines != []
      invariant PasteLines(core, pad, prefix) == hoist + PasteLines(lines, pad, prefix)
      decreases |lines|
    {
      PasteLoopTurns(lines, pad, prefix, hoist);
      hoist, lines := hoist + [lines[0]], lines[1..];
    }
    PasteLoopEnds(lines, pad, prefix, hoist);
    out := hoist + ([pad + prefix + Unpad(lines[0], pad)] + lines[1..]);
  }

  /** The statement's own comments around its lines. */
  method AddComments(lines: seq<string>, leads: seq<string>, trails: seq<string>, pad: string, ghost us: seq<Unit>)
    returns (out: seq<string>)
    requires lines != [] && EndsInCode(us) && Lines(lines) == Out(us)
    ensures out != [] && Lines(out) == Out(NoteLines(leads, pad) + WithTrail(us, trails))
  {
    out := lines;
    if trails != [] {
      TrailLines(lines, us, trails);
      var n := |lines| - 1;
      out := lines[n := lines[n] + " " + JoinWith(trails, " ")];
    } else {
      NoTrail(us);
    }
    var above := CommentLines(leads, pad);
    MoreLines(above, NoteLines(leads, pad), out, WithTrail(us, trails));
    out := above + out;
  }

  /** The statement of a compact leg, joined to the head of the leg. */
  method InlineLeg(a: Anchors, f: Forest, level: nat, prefix: string) returns (out: seq<string>)
    requires f.Tree? && WellFormed(f) && StartsCode(prefix) && '\n' !in prefix
    ensures out != [] && Lines(out) == Out(Inline(a, f, level, prefix))
    decreases f, 1
  {
    var pad := Indent(level);
    var core := StatementCore(a, f, level);
    InlineOut(a, f, level, prefix);
    CoreIsLines(a, f, level);
    SplitJoin(Sheet(Core(a, f, level)));
    hide Core, WellFormed, Pasted, CommentLine, StartsCode, AllTabs, Split, JoinWith, PasteLines, Sheet, EndsInCode;
    var lines := Hoist(Split(core), pad, prefix);
    out := AddComments(lines, Texts(Held(a.leading, f.id)), Texts(Held(a.trailing, f.id)), pad,
                       Pasted(Core(a, f, level), prefix));
  }

  /** A statement with its comments. */
  method EmitStatement(a: Anchors, f: Forest, level: nat) returns (text: string)
    requires f.Tree? && WellFormed(f)
    ensures text + "\n" == Out(Statement(a, f, level))
    decreases f, 1
  {
    text := StatementCore(a, f, level);
    ghost var us := Core(a, f, level);
    CoreFrames(a, f, level);
    CoreIsLines(a, f, level);
    SplitJoin(Sheet(us));
    JoinLines(Sheet(us));
    hide Core, WellFormed, Split, JoinWith, Opens;
    var leads, trails := Texts(Held(a.leading, f.id)), Texts(Held(a.trailing, f.id));
    if leads == [] && trails == [] {
      NoTrail(us);
      assert NoteLines(leads, Indent(level)) + us == us;
      return;
    }
    var lines := AddComments(Split(text), leads, trails, Indent(level), us);
    JoinLines(lines);
    text := JoinWith(lines, "\n");
  }

  /** A statement sequence, statement by statement. */
  method EmitSequence(a: Anchors, f: Forest, level: nat) returns (out: seq<string>)
    requires WellFormed(f)
    ensures Lines(out) == Out(Block(a, f, level))
    decreases f, 2
  {
    out := [];
    if f.Tree? {
      var text := EmitStatement(a, f, level);
      var rest := EmitSequence(a, f.rest, level);
      OutAppends(Statement(a, f, level), Block(a, f.rest, level));
      hide Statement, Block;
      out := [text] + rest;
    }
  }

  method EmitLeg(a: Anchors, f: Forest, level: nat, head: string, compact: bool) returns (lines: seq<string>)
    requires WellFormed(f) && (compact ==> Single(f)) && StartsCode(head) && '\n' !in head
    ensures lines != [] && Lines(lines) == Out(Leg(a, f, level, head, compact))
    decreases f, 3
  {
    if compact {
      lines := InlineLeg(a, f, level, head);
    } else {
      lines := [Indent(level) + (head + "Begin")];
      var body := EmitSequence(a, f, level + 1);
      LineOut(level, head + "Begin");
      LinesAppend(lines, body);
      OutAppends(Line(level, head + "Begin"), Block(a, f, level + 1));
      lines := lines + body;
    }
  }

  /** One more line of code. */
  lemma OneMoreLine(lines: seq<string>, us: seq<Unit>, level: nat, code: string)
    requires Lines(lines) == Out(us) && '\n' !in code
    ensures Lines(lines + [Indent(level) + code]) == Out(us + Line(level, code))
  {
    LineOut(level, code);
    LinesAppend(lines, [Indent(level) + code]);
    OutAppends(us, Line(level, code));
  }

  lemma MoreLines(lines: seq<string>, us: seq<Unit>, more: seq<string>, vs: seq<Unit>)
    requires Lines(lines) == Out(us) && Lines(more) == Out(vs)
    ensures Lines(lines + more) == Out(us + vs)
  {
    LinesAppend(lines, more);
    OutAppends(us, vs);
  }

  /** A leg with both ends: the line that ends it, unless it is compact. */
  method EndLeg(lines: seq<string>, level: nat, compact: bool, end: string, ghost us: seq<Unit>)
    returns (out: seq<string>)
    requires Lines(lines) == Out(us) && '\n' !in end && lines != []
    ensures out != [] && Lines(out) == Out(Ended(us, level, compact, end))
  {
    out := lines;
    if !compact {
      OneMoreLine(lines, us, level, end);
      out := lines + [Indent(level) + end];
    }
  }

  /** The lines of a statement without its own comments. */
  method StatementLines(a: Anchors, f: Forest, level: nat) returns (lines: seq<string>)
    requires f.Tree? && WellFormed(f)
    ensures lines != [] && Lines(lines) == Out(Core(a, f, level))
    decreases f, 0, 0
  {
    hide Leg, Block, Line, Out, Lines, Ended;
    match f.form {
      case Simple(code) =>
        LineOut(level, code + " ;");
        lines := [Indent(level) + (code + " ;")];
      case Branch(head, compact) =>
        lines := EmitLeg(a, f.legs, level, head, compact);
        lines := EndLeg(lines, level, compact, "End ;", Leg(a, f.legs, level, head, compact));
      case Choice(head, compact, elseCompact) =>
        lines := EmitLeg(a, f.legs, level, head, compact);
        lines := EndLeg(lines, level, compact, "End", Leg(a, f.legs, level, head, compact));
        var more := EmitLeg(a, f.orelse, level, "Else ", elseCompact);
        more := EndLeg(more, level, elseCompact, "End ;", Leg(a, f.orelse, level, "Else ", elseCompact));
        MoreLines(lines, Ended(Leg(a, f.legs, level, head, compact), level, compact, "End"),
                  more, Ended(Leg(a, f.orelse, level, "Else ", elseCompact), level, elseCompact, "End ;"));
        lines := lines + more;
      case Repeat(cond) =>
        LineOut(level, "Repeat");
        var body := EmitSequence(a, f.legs, level + 1);
        MoreLines([Indent(level) + "Repeat"], Line(level, "Repeat"), body, Block(a, f.legs, level + 1));
        lines := [Indent(level) + "Repeat"] + body;
        OneMoreLine(lines, Line(level, "Repeat") + Block(a, f.legs, level + 1), level, "Until " + cond + " ;");
        lines := lines + [Indent(level) + ("Until " + cond + " ;")];
    }
  }

  /** The same as one text. */
  method StatementCore(a: Anchors, f: Forest, level: nat) returns (text: string)
    requires f.Tree? && WellFormed(f)
    ensures Sheet(Core(a, f, level)) != [] && text == JoinWith(Sheet(Core(a, f, level)), "\n")
    decreases f, 0, 1
  {
    var lines := StatementLines(a, f, level);
    CoreFrames(a, f, level);
    UnitsPaste(Core(a, f, level), Indent(level), []);
    hide Core, WellFormed, PasteLines, Pasted, Sheet, Lines, Opens;
    SameJoin(lines, Sheet(Core(a, f, level)));
    text := JoinWith(lines, "\n");
  }

  /** The text of a program with its comments, before it is wrapped. */
  function Emitted(a: Anchors, f: Forest): string
    requires WellFormed(f)
  {
    JoinWith(Sheet(Program(a, f)), "\n")
  }

  /** The whole program: header, statements, footer. */
  method EmitProgram(a: Anchors, f: Forest) returns (text: string)
    requires WellFormed(f)
    ensures text == Emitted(a, f)
  {
    var parts := CommentLines(Texts(a.header), []);
    ghost var us := NoteLines(Texts(a.header), []);
    var body := EmitSequence(a, f, 0);
    MoreLines(parts, us, body, Block(a, f, 0));
    parts, us := parts + body, us + Block(a, f, 0);
    var more := CommentLines(Texts(a.footer), []);
    MoreLines(parts, us, more, NoteLines(Texts(a.footer), []));
    parts := parts + more;
    text := JoinWith(parts, "\n");
    if parts != [] {
      SameJoin(parts, Sheet(Program(a, f)));
    }
  }
}
