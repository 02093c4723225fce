/** Emission with comments reads back as the program and its comments, if and only if no leading
    comment is torn by the head of a compact leg and no `//` run swallows another comment. */
module CommentTheorem {
  import opened Sequences
  import opened Lexer
  import opened Layout
  import opened Comments
  import opened CommentLayout
  import opened CommentPrinting
  import opened CommentText
  import opened CommentReading

  // ---- The condition ------------------------------------------------------------------------------

  /** The comments in front of the line a statement's head is on: those that lead the statements of
      its compact legs. */
  function Opening(a: Anchors, f: Forest): seq<Comment>
    requires f.Tree?
  {
    if ((f.form.Branch? || f.form.Choice?) && f.form.compact && f.legs.Tree?) then
      Held(a.leading, f.legs.id) + Opening(a, f.legs)
    else []
  }

  /** The comments at the end of the last line of a statement. */
  function Closing(a: Anchors, f: Forest): seq<Comment>
    requires f.Tree?
    decreases f, 1
  {
    LastLeg(a, f) + Held(a.trailing, f.id)
  }

  function LastLeg(a: Anchors, f: Forest): seq<Comment>
    requires f.Tree?
    decreases f, 0
  {
    if f.form.Branch? && f.form.compact && f.legs.Tree? then Closing(a, f.legs)
    else if f.form.Choice? && f.form.elseCompact && f.orelse.Tree? then Closing(a, f.orelse)
    else []
  }

  /** Every line of the comment looks like the first line of one: a single line does. */
  predicate FlatText(text: string) {
    Flat(Split(text))
  }

  predicate FlatAll(cs: seq<Comment>) {
    forall c :: c in cs ==> FlatText(c.text)
  }

  /** What a compact leg must not open with is a comment with a line that does not look like one,
      and of the comments that share a last line only the last may be a `//` run. */
  predicate Safe(a: Anchors, f: Forest)
    decreases f, 1
  {
    f.Tree? ==> LegsSafe(a, f) && RunsLast(Texts(Closing(a, f))) && Safe(a, f.rest)
  }

  predicate LegsSafe(a: Anchors, f: Forest)
    requires f.Tree?
    decreases f, 0
  {
    && LegSafe(a, f.legs, (f.form.Branch? || f.form.Choice?) && f.form.compact)
    && LegSafe(a, f.orelse, f.form.Choice? && f.form.elseCompact)
  }

  predicate LegSafe(a: Anchors, f: Forest, compact: bool)
    decreases f, 2
  {
    Safe(a, f) && (compact && f.Tree? ==> FlatAll(Opening(a, f)))
  }

  // ---- What is printed, in order -------------------------------------------------------------------

  function Shifts(texts: seq<string>, pad: string): (r: seq<string>)
    ensures |r| == |texts|
  {
    if texts == [] then [] else [Shifted(texts[0], pad)] + Shifts(texts[1..], pad)
  }

  /** The level of a statement's leg. */
  function LegLevel(level: nat, compact: bool): nat {
    if compact then level else level + 1
  }

  /** The comments of some statements as they should read back, in order. */
  function Shown(a: Anchors, f: Forest, level: nat): seq<string>
    decreases f, 1
  {
    if f.Empty? then []
    else
      Shifts(Texts(Held(a.leading, f.id)), Indent(level)) + ShownLegs(a, f, level) + Texts(Held(a.trailing, f.id))
      + Shown(a, f.rest, level)
  }

  function ShownLegs(a: Anchors, f: Forest, level: nat): seq<string>
    requires f.Tree?
    decreases f, 0
  {
    Shown(a, f.legs, LegLevel(level, (f.form.Branch? || f.form.Choice?) && f.form.compact))
    + Shown(a, f.orelse, LegLevel(level, f.form.Choice? && f.form.elseCompact))
  }

  function ShownAll(a: Anchors, f: Forest): seq<string> {
    Shifts(Texts(a.header), []) + Shown(a, f, 0) + Shifts(Texts(a.footer), [])
  }

  lemma {:induction false} NotesAppend(us: seq<Unit>, vs: seq<Unit>)
    ensures NotesOf(us + vs) == NotesOf(us) + NotesOf(vs)
  {
    hide UnitNotes;
    if us == [] {
      assert us + vs == vs;
    } else {
      assert (us + vs)[1..] == us[1..] + vs;
      NotesAppend(us[1..], vs);
    }
  }

  lemma {:induction false} NotesPasted(us: seq<Unit>, prefix: string)
    ensures NotesOf(Pasted(us, prefix)) == NotesOf(us)
  {
    if us != [] {
      var ps := Pasted(us, prefix);
      if us[0].NoteLine? && Flat(us[0].lines) {
        NotesPasted(us[1..], prefix);
        assert ps[1..] == Pasted(us[1..], prefix);
      } else {
        assert ps[1..] == us[1..];
      }
    }
  }

  lemma NotesTrail(us: seq<Unit>, notes: seq<string>)
    requires EndsInCode(us)
    ensures NotesOf(WithTrail(us, notes)) == NotesOf(us) + notes
  {
    var init, u := us[..|us| - 1], us[|us| - 1];
    var w := u.(notes := u.notes + notes);
    assert us == init + [u];
    NotesAppend(init, [u]);
    NotesAppend(init, [w]);
    OneNotes(u);
    OneNotes(w);
    hide NotesOf;
    Associate(NotesOf(init), u.notes, notes);
  }

  lemma OneNotes(u: Unit)
    requires u.CodeLine?
    ensures NotesOf([u]) == u.notes
  {
    assert [u][1..] == [] && NotesOf([]) == [];
    assert u.notes + [] == u.notes;
  }

  lemma {:induction false} NotesNotes(texts: seq<string>, pad: string)
    ensures NotesOf(NoteLines(texts, pad)) == Shifts(texts, pad)
  {
    if texts != [] {
      NotesNotes(texts[1..], pad);
      hide Unpadded, Split, NoteText;
      assert NoteLines(texts, pad)[1..] == NoteLines(texts[1..], pad);
    }
  }

  lemma NotesLine(level: nat, code: string)
    ensures NotesOf(Line(level, code)) == []
  {
    assert Line(level, code)[1..] == [];
  }

  lemma NotesEnded(us: seq<Unit>, level: nat, compact: bool, end: string)
    ensures NotesOf(Ended(us, level, compact, end)) == NotesOf(us)
  {
    if !compact {
      NotesLine(level, end);
      NotesAppend(us, Line(level, end));
    }
  }

  lemma {:induction false} LegNotes(a: Anchors, f: Forest, level: nat, head: string, compact: bool)
    requires WellFormed(f) && (compact ==> Single(f)) && StartsCode(head)
    ensures NotesOf(Leg(a, f, level, head, compact)) == Shown(a, f, LegLevel(level, compact))
    decreases f, 3
  {
    if compact {
      CoreNotes(a, f, level);
      CoreFrames(a, f, level);
      PastedFrames(Core(a, f, level), Indent(level), head);
      hide Core, Pasted, WithTrail, NoteLines, WellFormed, Opens;
      OwnNotes(a, f, level, Pasted(Core(a, f, level), head));
      NotesPasted(Core(a, f, level), head);
      assert Shown(a, f.rest, level) == [];
    } else {
      BlockNotes(a, f, level + 1);
      NotesLine(level, head + "Begin");
      NotesAppend(Line(level, head + "Begin"), Block(a, f, level + 1));
      assert [] + Shown(a, f, level + 1) == Shown(a, f, level + 1);
    }
  }

  /** A statement's own comments around those of its legs. */
  lemma OwnNotes(a: Anchors, f: Forest, level: nat, us: seq<Unit>)
    requires f.Tree? && EndsInCode(us)
    ensures var leads, trails := Texts(Held(a.leading, f.id)), Texts(Held(a.trailing, f.id));
            NotesOf(NoteLines(leads, Indent(level)) + WithTrail(us, trails))
            == Shifts(leads, Indent(level)) + NotesOf(us) + trails
  {
    var leads, trails := Texts(Held(a.leading, f.id)), Texts(Held(a.trailing, f.id));
    NotesAppend(NoteLines(leads, Indent(level)), WithTrail(us, trails));
    NotesNotes(leads, Indent(level));
    NotesTrail(us, trails);
    hide NotesOf, NoteLines, WithTrail, Shifts, Texts, Held;
    Associate(Shifts(leads, Indent(level)), NotesOf(us), trails);
  }

  lemma {:induction false} BlockNotes(a: Anchors, f: Forest, level: nat)
    requires WellFormed(f)
    ensures NotesOf(Block(a, f, level)) == Shown(a, f, level)
    decreases f, 2
  {
    if f.Tree? {
      CoreNotes(a, f, level);
      CoreFrames(a, f, level);
      BlockNotes(a, f.rest, level);
      hide Core, WithTrail, NoteLines, WellFormed, Opens;
      OwnNotes(a, f, level, Core(a, f, level));
      NotesAppend(Statement(a, f, level), Block(a, f.rest, level));
    }
  }

  lemma {:induction false} CoreNotes(a: Anchors, f: Forest, level: nat)
    requires f.Tree? && WellFormed(f)
    ensures NotesOf(Core(a, f, level)) == ShownLegs(a, f, level)
    decreases f, 0
  {
    hide Leg, Block, Line, Ended, NotesOf;
    match f.form {
      case Simple(code) =>
        NotesLine(level, code + " ;");
      case Branch(head, compact) =>
        LegNotes(a, f.legs, level, head, compact);
        NotesEnded(Leg(a, f.legs, level, head, compact), level, compact, "End ;");
      case Choice(head, compact, elseCompact) =>
        LegNotes(a, f.legs, level, head, compact);
        LegNotes(a, f.orelse, level, "Else ", elseCompact);
        var yes, no := Leg(a, f.legs, level, head, compact), Leg(a, f.orelse, level, "Else ", elseCompact);
        NotesEnded(yes, level, compact, "End");
        NotesEnded(no, level, elseCompact, "End ;");
        NotesAppend(Ended(yes, level, compact, "End"), Ended(no, level, elseCompact, "End ;"));
      case Repeat(cond) =>
        BlockNotes(a, f.legs, level + 1);
        NotesLine(level, "Repeat");
        NotesLine(level, "Until " + cond + " ;");
        NotesAppend(Line(level, "Repeat"), Block(a, f.legs, level + 1));
        NotesAppend(Line(level, "Repeat") + Block(a, f.legs, level + 1), Line(level, "Until " + cond + " ;"));
    }
  }

  lemma ProgramNotes(a: Anchors, f: Forest)
    requires WellFormed(f)
    ensures NotesOf(Program(a, f)) == ShownAll(a, f)
  {
    hide NoteLines, Block;
    BlockNotes(a, f, 0);
    NotesNotes(Texts(a.header), []);
    NotesNotes(Texts(a.footer), []);
    NotesAppend(NoteLines(Texts(a.header), []), Block(a, f, 0));
    NotesAppend(NoteLines(Texts(a.header), []) + Block(a, f, 0), NoteLines(Texts(a.footer), []));
  }

  // ---- Soundness ----------------------------------------------------------------------------------

  ghost predicate AllSound(us: seq<Unit>) {
    forall u :: u in us ==> Sound(u)
  }

  /** The comments some units open with are flat. */
  predicate OpenFlat(us: seq<Unit>) {
    us == [] || us[0].CodeLine? || (us[0].NoteLine? && Flat(us[0].lines) && OpenFlat(us[1..]))
  }

  function LastNotes(us: seq<Unit>): seq<string>
    requires EndsInCode(us)
  {
    us[|us| - 1].notes
  }

  lemma SoundAppend(us: seq<Unit>, vs: seq<Unit>)
    ensures AllSound(us + vs) <==> AllSound(us) && AllSound(vs)
  {
    hide Sound;
    if AllSound(us + vs) {
      assert forall u :: u in us ==> u in us + vs;
      assert forall u :: u in vs ==> u in us + vs;
    }
  }

  lemma SoundOne(u: Unit)
    ensures AllSound([u]) <==> Sound(u)
  {
    assert u in [u];
  }

  lemma {:induction false} SoundPasted(us: seq<Unit>, prefix: string)
    ensures AllSound(Pasted(us, prefix)) <==> AllSound(us) && OpenFlat(us)
  {
    if us != [] {
      var u, rest, ps := us[0], us[1..], Pasted(us, prefix);
      assert us == [u] + rest;
      SoundAppend([u], rest);
      SoundOne(u);
      assert ps == [ps[0]] + ps[1..];
      SoundAppend([ps[0]], ps[1..]);
      SoundOne(ps[0]);
      hide AllSound, Flat;
      if u.NoteLine? && Flat(u.lines) {
        SoundPasted(rest, prefix);
        assert ps[1..] == Pasted(rest, prefix);
      } else {
        assert ps[1..] == rest;
      }
    }
  }

  lemma RunsShorter(a: seq<string>, b: seq<string>)
    requires RunsLast(a + b)
    ensures RunsLast(a)
  {
    forall i | 0 <= i < |a| - 1 ensures !LineComment(a[i]) {
      assert (a + b)[i] == a[i];
    }
  }

  lemma SoundTrail(us: seq<Unit>, notes: seq<string>)
    requires EndsInCode(us)
    ensures AllSound(WithTrail(us, notes)) <==> AllSound(us) && RunsLast(LastNotes(us) + notes)
  {
    var init, u := us[..|us| - 1], us[|us| - 1];
    var w := u.(notes := u.notes + notes);
    assert us == init + [u];
    SoundAppend(init, [u]);
    SoundAppend(init, [w]);
    SoundOne(u);
    SoundOne(w);
    hide AllSound, RunsLast;
    if RunsLast(u.notes + notes) {
      RunsShorter(u.notes, notes);
    }
  }

  lemma {:induction false} SoundNotes(texts: seq<string>, pad: string)
    ensures AllSound(NoteLines(texts, pad))
  {
    if texts != [] {
      SoundNotes(texts[1..], pad);
      hide Unpadded, Split;
    }
  }

  lemma {:induction false} FlatLonger(us: seq<Unit>, vs: seq<Unit>)
    requires EndsInCode(us)
    ensures OpenFlat(us + vs) == OpenFlat(us)
  {
    assert (us + vs)[1..] == us[1..] + vs;
    hide Flat;
    if |us| > 1 && us[0].NoteLine? {
      FlatLonger(us[1..], vs);
    }
  }

  lemma {:induction false} FlatPasted(us: seq<Unit>, prefix: string)
    ensures OpenFlat(Pasted(us, prefix)) == OpenFlat(us)
  {
    hide Flat;
    if us != [] && us[0].NoteLine? && Flat(us[0].lines) {
      FlatPasted(us[1..], prefix);
      assert Pasted(us, prefix)[1..] == Pasted(us[1..], prefix);
    }
  }

  lemma {:induction false} FlatTrail(us: seq<Unit>, notes: seq<string>)
    requires EndsInCode(us)
    ensures OpenFlat(WithTrail(us, notes)) == OpenFlat(us)
  {
    hide Flat;
    if us[0].NoteLine? {
      var n := |us| - 1;
      assert us[1..][..n - 1] == us[..n][1..] && us[1..][n - 1] == us[n];
      assert WithTrail(us, notes)[1..] == WithTrail(us[1..], notes);
      FlatTrail(us[1..], notes);
    }
  }

  lemma {:induction false} FlatUnpadded(lines: seq<string>, pad: string)
    requires AllTabs(pad)
    ensures Flat(Unpadded(lines, pad)) == Flat(lines)
  {
    if lines != [] {
      FlatUnpadded(lines[1..], pad);
      var c := Content(lines[0], pad);
      StripTabs(pad, c);
      assert pad <= lines[0] ==> pad + c == lines[0];
      assert CommentLine(c) == CommentLine(lines[0]);
      hide CommentLine, Content;
      FlatFirst(lines);
      FlatFirst(Unpadded(lines, pad));
      assert Unpadded(lines, pad)[1..] == Unpadded(lines[1..], pad);
    }
  }

  lemma FlatFirst(lines: seq<string>)
    requires lines != []
    ensures Flat(lines) == (CommentLine(lines[0]) && Flat(lines[1..]))
  {
    assert forall i :: 1 <= i < |lines| ==> lines[i] == lines[1..][i - 1];
  }

  lemma {:induction false} FlatNotes(cs: seq<Comment>, us: seq<Unit>, pad: string)
    requires AllTabs(pad)
    ensures OpenFlat(NoteLines(Texts(cs), pad) + us) <==> FlatAll(cs) && OpenFlat(us)
  {
    hide *;
    NotesStep(cs, us, pad);
    if cs != [] {
      FlatNotes(cs[1..], us, pad);
      FlatUnpadded(Split(cs[0].text), pad);
      FlatCons(cs);
    }
  }

  lemma NotesStep(cs: seq<Comment>, us: seq<Unit>, pad: string)
    ensures cs == [] ==> NoteLines(Texts(cs), pad) + us == us && FlatAll(cs)
    ensures cs != [] ==>
              OpenFlat(NoteLines(Texts(cs), pad) + us)
              == (Flat(Unpadded(Split(cs[0].text), pad)) && OpenFlat(NoteLines(Texts(cs[1..]), pad) + us))
  {
    if cs != [] {
      var first := NoteLine(pad, Unpadded(Split(cs[0].text), pad));
      assert Texts(cs)[1..] == Texts(cs[1..]);
      assert NoteLines(Texts(cs), pad) == [first] + NoteLines(Texts(cs[1..]), pad);
      hide NoteLines, Flat, Split, Unpadded, Texts;
      Associate([first], NoteLines(Texts(cs[1..]), pad), us);
      FirstAndRest([first], NoteLines(Texts(cs[1..]), pad) + us);
      assert [first][1..] == [];
    }
  }

  lemma FlatCons(cs: seq<Comment>)
    requires cs != []
    ensures FlatAll(cs) <==> Flat(Split(cs[0].text)) && FlatAll(cs[1..])
  {
    hide Flat, Split;
    assert cs[0] in cs && forall c :: c in cs ==> c == cs[0] || c in cs[1..];
  }

  lemma FlatAppend(a: seq<Comment>, b: seq<Comment>)
    ensures FlatAll(a + b) <==> FlatAll(a) && FlatAll(b)
  {
    hide FlatText;
    if FlatAll(a + b) {
      assert forall c :: c in a ==> c in a + b;
      assert forall c :: c in b ==> c in a + b;
    }
  }

  lemma {:induction false} TextsAppend(a: seq<Comment>, b: seq<Comment>)
    ensures Texts(a + b) == Texts(a) + Texts(b)
  {
    if a == [] {
      assert a + b == b;
    } else {
      assert (a + b)[1..] == a[1..] + b;
      TextsAppend(a[1..], b);
    }
  }

  /** What a compact leg opens with is what the condition says. */
  lemma {:induction false} InlineOpening(a: Anchors, f: Forest, level: nat, prefix: string)
    requires f.Tree? && WellFormed(f) && StartsCode(prefix)
    ensures OpenFlat(Inline(a, f, level, prefix)) <==> FlatAll(Held(a.leading, f.id) + Opening(a, f))
    decreases f, 1
  {
    var us, trails := Pasted(Core(a, f, level), prefix), Texts(Held(a.trailing, f.id));
    CoreFrames(a, f, level);
    PastedFrames(Core(a, f, level), Indent(level), prefix);
    CoreOpening(a, f, level);
    FlatPasted(Core(a, f, level), prefix);
    hide Core, Pasted, WithTrail, NoteLines, WellFormed, Opens, FlatAll, Texts;
    FlatTrail(us, trails);
    FlatNotes(Held(a.leading, f.id), WithTrail(us, trails), Indent(level));
    FlatAppend(Held(a.leading, f.id), Opening(a, f));
  }

  lemma {:induction false} CoreOpening(a: Anchors, f: Forest, level: nat)
    requires f.Tree? && WellFormed(f)
    ensures OpenFlat(Core(a, f, level)) <==> FlatAll(Opening(a, f))
    decreases f, 0
  {
    if (f.form.Branch? || f.form.Choice?) && f.form.compact {
      var head := f.form.head;
      InlineOpening(a, f.legs, level, head);
      CoreFrames(a, f.legs, level);
      InlineFrames(a, f.legs, level, head);
      hide Inline, Ended, FlatAll;
      if f.form.Choice? {
        var rest := Ended(Leg(a, f.orelse, level, "Else ", f.form.elseCompact), level, f.form.elseCompact, "End ;");
        assert Ended(Inline(a, f.legs, level, head), level, true, "End") == Inline(a, f.legs, level, head) by {
          EndedCompact(Inline(a, f.legs, level, head), level, "End");
        }
        FlatLonger(Inline(a, f.legs, level, head), rest);
      } else {
        EndedCompact(Inline(a, f.legs, level, head), level, "End ;");
      }
    } else {
      hide Block;
      assert Core(a, f, level)[0].CodeLine?;
    }
  }

  lemma EndedCompact(us: seq<Unit>, level: nat, end: string)
    ensures Ended(us, level, true, end) == us
  {
  }

  lemma {:induction false} LastPasted(us: seq<Unit>, prefix: string)
    requires EndsInCode(us)
    ensures EndsInCode(Pasted(us, prefix)) && LastNotes(Pasted(us, prefix)) == LastNotes(us)
  {
    hide Flat;
    if us[0].NoteLine? && Flat(us[0].lines) {
      LastPasted(us[1..], prefix);
    }
  }

  lemma {:induction false} CoreLast(a: Anchors, f: Forest, level: nat)
    requires f.Tree? && WellFormed(f)
    ensures EndsInCode(Core(a, f, level)) && LastNotes(Core(a, f, level)) == Texts(LastLeg(a, f))
    decreases f, 0
  {
    CoreFrames(a, f, level);
    match f.form {
      case Simple(_) =>
      case Branch(head, compact) =>
        if compact {
          InlineLast(a, f.legs, level, head);
        }
        hide Inline, Block;
      case Choice(head, compact, elseCompact) =>
        if elseCompact {
          InlineLast(a, f.orelse, level, "Else ");
        }
        hide Inline, Block;
        assert EndsInCode(Ended(Leg(a, f.orelse, level, "Else ", elseCompact), level, elseCompact, "End ;"));
      case Repeat(_) =>
        hide Block;
    }
  }

  lemma {:induction false} InlineLast(a: Anchors, f: Forest, level: nat, prefix: string)
    requires f.Tree? && WellFormed(f)
    ensures EndsInCode(Inline(a, f, level, prefix)) && LastNotes(Inline(a, f, level, prefix)) == Texts(Closing(a, f))
    decreases f, 1
  {
    CoreLast(a, f, level);
    LastPasted(Core(a, f, level), prefix);
    TextsAppend(LastLeg(a, f), Held(a.trailing, f.id));
    hide Core, Pasted, Texts, LastLeg, NoteLines;
  }

  lemma {:induction false} LegSound(a: Anchors, f: Forest, level: nat, head: string, compact: bool)
    requires WellFormed(f) && (compact ==> Single(f)) && StartsCode(head)
    ensures AllSound(Leg(a, f, level, head, compact)) <==> LegSafe(a, f, compact)
    decreases f, 3
  {
    if compact {
      var core, leads, trails := Core(a, f, level), Texts(Held(a.leading, f.id)), Texts(Held(a.trailing, f.id));
      CoreSound(a, f, level);
      CoreLast(a, f, level);
      CoreOpening(a, f, level);
      LastPasted(core, head);
      TextsAppend(LastLeg(a, f), Held(a.trailing, f.id));
      assert Safe(a, f.rest);
      hide Core, Pasted, Texts, LastLeg, NoteLines, AllSound, WithTrail, FlatAll, Opening, OpenFlat, LegsSafe, RunsLast,
           WellFormed;
      SoundPasted(core, head);
      SoundTrail(Pasted(core, head), trails);
      SoundNotes(leads, Indent(level));
      SoundAppend(NoteLines(leads, Indent(level)), WithTrail(Pasted(core, head), trails));
    } else {
      BlockSound(a, f, level + 1);
      hide Block, AllSound, Safe;
      SoundLine(level, head + "Begin");
      SoundAppend(Line(level, head + "Begin"), Block(a, f, level + 1));
    }
  }

  lemma SoundLine(level: nat, code: string)
    ensures AllSound(Line(level, code))
  {
  }

  lemma {:induction false} BlockSound(a: Anchors, f: Forest, level: nat)
    requires WellFormed(f)
    ensures AllSound(Block(a, f, level)) <==> Safe(a, f)
    decreases f, 2
  {
    if f.Tree? {
      var core, leads, trails := Core(a, f, level), Texts(Held(a.leading, f.id)), Texts(Held(a.trailing, f.id));
      CoreSound(a, f, level);
      CoreLast(a, f, level);
      BlockSound(a, f.rest, level);
      TextsAppend(LastLeg(a, f), Held(a.trailing, f.id));
      hide Core, Texts, LastLeg, NoteLines, AllSound, WithTrail, LegsSafe, RunsLast, WellFormed;
      SoundTrail(core, trails);
      SoundNotes(leads, Indent(level));
      SoundAppend(NoteLines(leads, Indent(level)), WithTrail(core, trails));
      SoundAppend(Statement(a, f, level), Block(a, f.rest, level));
    }
  }

  lemma SoundEnded(us: seq<Unit>, level: nat, compact: bool, end: string)
    ensures AllSound(Ended(us, level, compact, end)) <==> AllSound(us)
  {
    if !compact {
      SoundLine(level, end);
      SoundAppend(us, Line(level, end));
    }
  }

  lemma {:induction false} CoreSound(a: Anchors, f: Forest, level: nat)
    requires f.Tree? && WellFormed(f)
    ensures AllSound(Core(a, f, level)) <==> LegsSafe(a, f)
    decreases f, 0
  {
    hide Leg, Block, Line, Ended, AllSound, Safe, Opening, FlatAll;
    SafeNowhere(a);
    match f.form {
      case Simple(code) =>
        SoundLine(level, code + " ;");
      case Branch(head, compact) =>
        LegSound(a, f.legs, level, head, compact);
        SoundEnded(Leg(a, f.legs, level, head, compact), level, compact, "End ;");
      case Choice(head, compact, elseCompact) =>
        LegSound(a, f.legs, level, head, compact);
        LegSound(a, f.orelse, level, "Else ", elseCompact);
        var yes, no := Leg(a, f.legs, level, head, compact), Leg(a, f.orelse, level, "Else ", elseCompact);
        SoundEnded(yes, level, compact, "End");
        SoundEnded(no, level, elseCompact, "End ;");
        SoundAppend(Ended(yes, level, compact, "End"), Ended(no, level, elseCompact, "End ;"));
      case Repeat(cond) =>
        BlockSound(a, f.legs, level + 1);
        SoundLine(level, "Repeat");
        SoundLine(level, "Until " + cond + " ;");
        SoundAppend(Line(level, "Repeat"), Block(a, f.legs, level + 1));
        SoundAppend(Line(level, "Repeat") + Block(a, f.legs, level + 1), Line(level, "Until " + cond + " ;"));
    }
  }

  lemma SafeNowhere(a: Anchors)
    ensures Safe(a, Empty)
  {
  }

  /** No comment is torn or swallowed if and only if the condition holds. */
  lemma ProgramSound(a: Anchors, f: Forest)
    requires WellFormed(f)
    ensures AllSound(Program(a, f)) <==> Safe(a, f)
  {
    BlockSound(a, f, 0);
    hide Block, NoteLines, AllSound;
    SoundNotes(Texts(a.header), []);
    SoundNotes(Texts(a.footer), []);
    SoundAppend(NoteLines(Texts(a.header), []), Block(a, f, 0));
    SoundAppend(NoteLines(Texts(a.header), []) + Block(a, f, 0), NoteLines(Texts(a.footer), []));
  }
}
