/** Wrapping is invisible to the lexer: same tokens, same comment texts, same errors. */
module WrapTheorem {
  import opened Sequences
  import opened Lexer
  import opened LexerGaps
  import opened Layout

  // ---- Atoms and the gaps between them -------------------------------------------------

  /** Atoms with a gap after each. */
  function Glue(atoms: seq<string>, gaps: seq<string>): string
    requires |atoms| == |gaps|
    decreases |atoms|
  {
    if atoms == [] then [] else atoms[0] + (gaps[0] + Glue(atoms[1..], gaps[1..]))
  }

  ghost predicate Gaps(gaps: seq<string>) {
    forall i :: 0 <= i < |gaps| ==> gaps[i] != [] && AllBlank(gaps[i])
  }

  lemma GlueCons(a: string, gap: string, atoms: seq<string>, gaps: seq<string>)
    requires |atoms| == |gaps|
    ensures Glue([a] + atoms, [gap] + gaps) == a + (gap + Glue(atoms, gaps))
  {
    assert ([a] + atoms)[1..] == atoms && ([gap] + gaps)[1..] == gaps;
  }

  lemma GlueOne(a: string, gap: string)
    ensures Glue([a], [gap]) == a + gap
  {
    assert [a] + [] == [a] && [gap] + [] == [gap];
    GlueCons(a, gap, [], []);
    assert gap + [] == gap;
  }

  /** A line of code whose last string literal is not closed. */
  predicate OpenText(s: string)
    decreases |s|
  {
    if s == [] then false
    else if s[0] == '"' then
      var j := Find(s[1..], '"');
      j.None? || OpenText(s[j.value + 2..])
    else OpenText(s[1..])
  }

  /** The line is read as these atoms, before `w`. */
  ghost predicate Rendered(cur: string, s: string, w: string, lead: string, gaps: seq<string>) {
    && |gaps| == |AtomsFrom(cur, s)| && Gaps(gaps) && AllBlank(lead)
    && (cur != [] ==> lead == [])
    && cur + (s + w) == lead + Glue(AtomsFrom(cur, s), gaps)
    && (OpenText(s) ==> gaps != [] && gaps[|gaps| - 1] == w)
  }

  lemma RenderedEnd(cur: string, s: string, w: string)
    requires w != [] && AllBlank(w) && s == [] && cur != []
    ensures Rendered(cur, s, w, [], [w])
  {
    GlueOne(cur, w);
    assert s + w == w && [] + (cur + w) == cur + w;
  }

  lemma RenderedNone(s: string, w: string)
    requires w != [] && AllBlank(w) && s == []
    ensures Rendered([], s, w, w, [])
  {
    assert [] + (s + w) == w && w + [] == w;
  }

  lemma RenderedOpen(cur: string, s: string, w: string)
    requires w != [] && AllBlank(w) && s != [] && s[0] == '"' && Find(s[1..], '"').None?
    ensures Rendered(cur, s, w, [], [w])
  {
    GlueOne(cur + s, w);
    assert AtomsFrom(cur + s, []) == [cur + s];
    assert cur + (s + w) == cur + s + w && [] + (cur + s + w) == cur + s + w;
  }

  lemma RenderedSpace(cur: string, s: string, w: string, lead1: string, gaps1: seq<string>)
    requires s != [] && s[0] == ' ' && Rendered([], s[1..], w, lead1, gaps1)
    ensures if cur == [] then Rendered(cur, s, w, " " + lead1, gaps1)
            else Rendered(cur, s, w, [], [" " + lead1] + gaps1)
  {
    var rest := AtomsFrom([], s[1..]);
    var g := Glue(rest, gaps1);
    assert [] + (s[1..] + w) == s[1..] + w;
    assert s + w == " " + (s[1..] + w) == (" " + lead1) + g;
    if cur == [] {
      assert AtomsFrom(cur, s) == [] + rest == rest;
      assert cur + (s + w) == s + w;
    } else {
      assert AtomsFrom(cur, s) == [cur] + rest;
      GlueCons(cur, " " + lead1, rest, gaps1);
      assert cur + (s + w) == [] + (cur + ((" " + lead1) + g));
    }
  }

  lemma RenderedStep(cur: string, s: string, w: string, n: nat, lead: string, gaps: seq<string>)
    requires 1 <= n <= |s| && Rendered(cur + s[..n], s[n..], w, lead, gaps)
    requires AtomsFrom(cur, s) == AtomsFrom(cur + s[..n], s[n..]) && OpenText(s) == OpenText(s[n..])
    ensures Rendered(cur, s, w, lead, gaps)
  {
    assert cur + s[..n] + (s[n..] + w) == cur + (s + w);
  }

  /** A line before the blank text `w` is its atoms with blank gaps between them. */
  lemma {:induction false} AtomsGlue(cur: string, s: string, w: string) returns (lead: string, gaps: seq<string>)
    requires w != [] && AllBlank(w)
    ensures Rendered(cur, s, w, lead, gaps)
    decreases |s|
  {
    hide Rendered, Glue, Gaps, AllBlank;
    if s == [] {
      if cur == [] {
        lead, gaps := w, [];
        RenderedNone(s, w);
      } else {
        lead, gaps := [], [w];
        RenderedEnd(cur, s, w);
      }
    } else if s[0] == '"' && Find(s[1..], '"').Some? {
      var n := Find(s[1..], '"').value + 2;
      lead, gaps := AtomsGlue(cur + s[..n], s[n..], w);
      RenderedStep(cur, s, w, n, lead, gaps);
    } else if s[0] == '"' {
      lead, gaps := [], [w];
      RenderedOpen(cur, s, w);
    } else if s[0] == ' ' {
      var lead1, gaps1 := AtomsGlue([], s[1..], w);
      RenderedSpace(cur, s, w, lead1, gaps1);
      lead, gaps := if cur == [] then " " + lead1 else [], if cur == [] then gaps1 else [" " + lead1] + gaps1;
    } else {
      assert s[..1] == [s[0]];
      lead, gaps := AtomsGlue(cur + s[..1], s[1..], w);
      RenderedStep(cur, s, w, 1, lead, gaps);
    }
  }

  /** The segments of a filled line before `w` are the same atoms, with spaces and line breaks
      between them. */
  lemma {:induction false} FillGlue(cur: seq<string>, indent: string, len: nat, cont: string, atoms: seq<string>,
                                    width: nat, w: string) returns (gaps: seq<string>)
    requires w != [] && AllBlank(w) && AllTabs(cont) && cur + atoms != []
    ensures |gaps| == |cur + atoms| && Gaps(gaps) && gaps[|gaps| - 1] == w
    ensures JoinWith(Fill(cur, indent, len, cont, atoms, width), "\n") + w == indent + Glue(cur + atoms, gaps)
    decreases |atoms|
  {
    hide Glue, JoinWith;
    if atoms == [] {
      gaps := SpacedGlue(cur, w);
      assert cur + atoms == cur;
      JoinOne(indent + JoinWith(cur, " "));
      assert indent + JoinWith(cur, " ") + w == indent + (JoinWith(cur, " ") + w);
    } else {
      var a := atoms[0];
      var extra := |a| + if cur != [] then 1 else 0;
      assert cur + atoms == (cur + [a]) + atoms[1..];
      if cur != [] && len + extra > width {
        var sep := "\n" + cont;
        var gaps1 := FillGlue([a], cont, |cont| + |a|, cont, atoms[1..], width, w);
        var gaps0 := SpacedGlue(cur, sep);
        var more := Fill([a], cont, |cont| + |a|, cont, atoms[1..], width);
        gaps := gaps0 + gaps1;
        JoinMore(indent + JoinWith(cur, " "), more);
        GlueAppend(cur, [a] + atoms[1..], gaps0, gaps1);
        assert cur + ([a] + atoms[1..]) == cur + atoms;
        var t, g1 := JoinWith(cur, " "), Glue([a] + atoms[1..], gaps1);
        assert (indent + t) + "\n" + JoinWith(more, "\n") + w == indent + t + "\n" + (JoinWith(more, "\n") + w);
        assert indent + t + "\n" + (cont + g1) == indent + ((t + sep) + g1);
      } else {
        gaps := FillGlue(cur + [a], indent, len + extra, cont, atoms[1..], width, w);
      }
    }
  }

  lemma JoinOne(a: string)
    ensures JoinWith([a], "\n") == a
  {
  }

  lemma JoinMore(a: string, more: seq<string>)
    requires more != []
    ensures JoinWith([a] + more, "\n") == a + "\n" + JoinWith(more, "\n")
  {
    assert ([a] + more)[1..] == more;
  }

  lemma {:induction false} SpacedGlue(atoms: seq<string>, w: string) returns (gaps: seq<string>)
    requires w != [] && AllBlank(w) && atoms != []
    ensures |gaps| == |atoms| && Gaps(gaps) && gaps[|gaps| - 1] == w
    ensures JoinWith(atoms, " ") + w == Glue(atoms, gaps)
  {
    if |atoms| == 1 {
      gaps := [w];
      GlueOne(atoms[0], w);
      assert atoms == [atoms[0]];
    } else {
      var gaps1 := SpacedGlue(atoms[1..], w);
      gaps := [" "] + gaps1;
      assert atoms == [atoms[0]] + atoms[1..];
      GlueCons(atoms[0], " ", atoms[1..], gaps1);
      assert atoms[0] + " " + JoinWith(atoms[1..], " ") + w == atoms[0] + (" " + (JoinWith(atoms[1..], " ") + w));
    }
  }

  lemma {:induction false} GlueAppend(a: seq<string>, b: seq<string>, ga: seq<string>, gb: seq<string>)
    requires |a| == |ga| && |b| == |gb|
    ensures Glue(a + b, ga + gb) == Glue(a, ga) + Glue(b, gb)
    decreases |a|
  {
    if a == [] {
      assert a + b == b && ga + gb == gb;
    } else {
      assert (a + b)[1..] == a[1..] + b && (ga + gb)[1..] == ga[1..] + gb;
      GlueAppend(a[1..], b, ga[1..], gb);
    }
  }

  // ---- Atoms are closed -------------------------------------------------------------------

  lemma {:induction false} FindIsStringEnd(s: string)
    requires Find(s, '"').Some? && '\n' !in s
    ensures StringEnd(s) == Find(s, '"')
  {
    if s[0] != '"' {
      FindIsStringEnd(s[1..]);
    }
  }

  lemma {:induction false} StringEndTaken(s: string, j: nat)
    requires StringEnd(s) == Some(j)
    ensures StringEnd(s[..j + 1]) == Some(j)
  {
    if s[0] != '"' {
      StringEndTaken(s[1..], j - 1);
      assert s[..j + 1][1..] == s[1..][..j];
    }
  }

  lemma LiteralIsClosed(s: string, j: nat)
    requires s != [] && s[0] == '"' && Find(s[1..], '"') == Some(j) && '\n' !in s
    ensures Closed(s[..j + 2]) && s[j + 1] == '"'
  {
    FindIsStringEnd(s[1..]);
    StringEndTaken(s[1..], j);
    assert s[..j + 2][1..] == s[1..][..j + 1];
    assert s[..j + 2][j + 2..] == [];
  }

  /** Every atom is closed, but for the last when `open`. */
  ghost predicate ClosedAtoms(atoms: seq<string>, open: bool) {
    && (open ==> atoms != [])
    && forall i :: 0 <= i < |atoms| ==> Closed(atoms[i]) || (open && i == |atoms| - 1)
  }

  lemma ClosedAtomsCons(a: string, atoms: seq<string>, open: bool)
    requires Closed(a) && ClosedAtoms(atoms, open)
    ensures ClosedAtoms([a] + atoms, open)
  {
  }

  /** Every atom of a comment-free line is closed, except a last one whose literal is not. */
  lemma {:induction false} AtomsClosed(cur: string, s: string)
    requires Closed(cur) && Seam(cur, s) && CommentStart(s).None? && '\n' !in s
    ensures ClosedAtoms(AtomsFrom(cur, s), OpenText(s))
    decreases |s|
  {
    if s == [] {
      assert AtomsFrom(cur, s) == if cur == [] then [] else [cur];
    } else if s[0] == '"' {
      var j := Find(s[1..], '"');
      if j.Some? {
        var n := j.value + 2;
        LiteralIsClosed(s, j.value);
        ClosedAppend(cur, s[..n]);
        hide ClosedAtoms;
        AtomsClosed(cur + s[..n], s[n..]);
      } else {
        assert AtomsFrom(cur + s, []) == [cur + s];
      }
    } else if s[0] == ' ' {
      EmptyIsClosed([]);
      hide ClosedAtoms;
      AtomsClosed([], s[1..]);
      if cur == [] {
        assert AtomsFrom(cur, s) == [] + AtomsFrom([], s[1..]) == AtomsFrom([], s[1..]);
      } else {
        ClosedAtomsCons(cur, AtomsFrom([], s[1..]), OpenText(s[1..]));
      }
    } else {
      CharIsClosed(s[0]);
      ClosedAppend(cur, [s[0]]);
      hide ClosedAtoms;
      AtomsClosed(cur + [s[0]], s[1..]);
    }
  }

  lemma EmptyIsClosed(s: string)
    requires s == []
    ensures Closed(s)
  {
  }

  lemma CharIsClosed(c: char)
    requires c != '{' && c != '"'
    ensures Closed([c])
  {
    assert [c][1..] == [];
  }

  // ---- Re-gapping -----------------------------------------------------------------------------

  /** Output so far: closed, and at a place where blank text may come and go. */
  predicate Clean(x: string) {
    Closed(x) && (x == [] || EndsBlank(x))
  }

  lemma CleanAppends(x: string, a: string, g: string)
    requires Clean(x) && Closed(a) && AllBlank(g) && g != []
    ensures Closed(x + a) && Clean(x + a + g)
  {
    BlankIsClosed(g);
    CleanSeam(x, a);
    hide Closed;
    ClosedAppend(x, a);
    assert Blank(g[|g| - 1]);
    assert Seam(x + a, g);
    ClosedAppend(x + a, g);
    assert (x + a + g)[|x + a + g| - 1] == g[|g| - 1];
  }

  lemma GlueFirst(x: string, atoms: seq<string>, g: seq<string>, v: string)
    requires |atoms| == |g| > 0
    ensures x + (Glue(atoms, g) + v) == x + atoms[0] + (g[0] + (Glue(atoms[1..], g[1..]) + v))
  {
    var r := Glue(atoms[1..], g[1..]);
    assert (atoms[0] + (g[0] + r)) + v == atoms[0] + (g[0] + (r + v));
  }

  /** Two ways to space the same atoms: blank gaps, the last one the same after an open atom. */
  predicate Respaced(atoms: seq<string>, g: seq<string>, h: seq<string>)
    requires |atoms| == |g| == |h|
    decreases |atoms|
  {
    atoms == [] || (
      && g[0] != [] && h[0] != [] && Run(g[0], Blanks) == |g[0]| && Run(h[0], Blanks) == |h[0]|
      && (Closed(atoms[0]) || (|atoms| == 1 && g[0] == h[0]))
      && Respaced(atoms[1..], g[1..], h[1..]))
  }

  lemma {:induction false} IsRespaced(atoms: seq<string>, g: seq<string>, h: seq<string>)
    requires |atoms| == |g| == |h| && Gaps(g) && Gaps(h)
    requires forall i :: 0 <= i < |atoms| ==> Closed(atoms[i]) || (i == |atoms| - 1 && g[i] == h[i])
    ensures Respaced(atoms, g, h)
    decreases |atoms|
  {
    hide Closed;
    if atoms != [] {
      BlankRun(g[0]);
      BlankRun(h[0]);
      IsRespaced(atoms[1..], g[1..], h[1..]);
    }
  }

  lemma OneGap(x: string, a: string, g: string, h: string, r: string, t: string)
    requires Clean(x) && Closed(a) && g != [] && h != [] && Run(g, Blanks) == |g| && Run(h, Blanks) == |h|
    requires Clean(x + a + h) ==> Lex(x + a + h + r) == Lex(x + a + h + t)
    ensures Clean(x + a + h) && Lex(x + a + (g + r)) == Lex(x + a + (h + t))
  {
    hide Lex, Clean, Closed, Run;
    BlankTail(g);
    BlankTail(h);
    CleanAppends(x, a, h);
    GapUnseen(x + a, g, h, r);
    assert x + a + (h + r) == x + a + h + r && x + a + (h + t) == x + a + h + t;
  }

  /** The gaps between atoms may be any blank text; a last, open atom keeps its own. */
  lemma {:induction false} GlueUnseen(x: string, atoms: seq<string>, g: seq<string>, h: seq<string>, v: string)
    requires |atoms| == |g| == |h| && Respaced(atoms, g, h) && Clean(x)
    ensures Lex(x + (Glue(atoms, g) + v)) == Lex(x + (Glue(atoms, h) + v))
    decreases |atoms|
  {
    hide Lex, Glue, Clean, Closed, Run;
    if atoms != [] {
      GlueFirst(x, atoms, g, v);
      GlueFirst(x, atoms, h, v);
      if Closed(atoms[0]) {
        if Clean(x + atoms[0] + h[0]) {
          GlueUnseen(x + atoms[0] + h[0], atoms[1..], g[1..], h[1..], v);
        }
        OneGap(x, atoms[0], g[0], h[0], Glue(atoms[1..], g[1..]) + v, Glue(atoms[1..], h[1..]) + v);
      } else {
        assert g[1..] == h[1..];
      }
    }
  }

  lemma {:induction false} GlueCloses(x: string, atoms: seq<string>, g: seq<string>)
    requires |atoms| == |g| && Gaps(g) && Clean(x) && ClosedAtoms(atoms, false)
    ensures Clean(x + Glue(atoms, g))
    decreases |atoms|
  {
    if atoms == [] {
      assert x + [] == x;
    } else {
      assert x + Glue(atoms, g) == x + atoms[0] + g[0] + Glue(atoms[1..], g[1..]);
      hide Glue, Clean, Closed;
      CleanAppends(x, atoms[0], g[0]);
      GlueCloses(x + atoms[0] + g[0], atoms[1..], g[1..]);
    }
  }

  lemma TabsBlank(t: string)
    requires AllTabs(t)
    ensures AllBlank(t)
  {
  }

  lemma CleanGap(x: string, g: string)
    requires Clean(x) && AllBlank(g)
    ensures Clean(x + g)
  {
    BlankIsClosed(g);
    assert g == [] ==> x + g == x;
    if x == [] {
      assert x + g == g;
    } else {
      ClosedAppend(x, g);
    }
  }

  lemma {:induction false} CommentStartAfterTabs(line: string)
    requires CommentStart(line).None?
    ensures CommentStart(line[Tabs(line)..]).None? && OpenText(line[Tabs(line)..]) == OpenText(line)
  {
    if line != [] && line[0] == '\t' {
      CommentStartAfterTabs(line[1..]);
      assert line[Tabs(line)..] == line[1..][Tabs(line[1..])..];
    } else {
      assert line[0..] == line;
    }
  }

  /** A comment-free line before `w`: its tabs, blank text, its atoms and the gaps after them. */
  lemma LineGlue(line: string, w: string) returns (lead: string, gaps: seq<string>)
    requires CommentStart(line).None? && '\n' !in line && AllBlank(w) && w != []
    ensures var indent, atoms := line[..Tabs(line)], Atoms(line[Tabs(line)..]);
            && AllTabs(indent) && AllBlank(lead) && |gaps| == |atoms| && Gaps(gaps)
            && ClosedAtoms(atoms, OpenText(line))
            && (OpenText(line) ==> gaps != [] && gaps[|gaps| - 1] == w)
            && line + w == indent + lead + Glue(atoms, gaps)
  {
    hide Closed, Glue, CommentStart, OpenText, AtomsFrom, ClosedAtoms;
    var indent, code := line[..Tabs(line)], line[Tabs(line)..];
    CommentStartAfterTabs(line);
    TabsAreTabs(line);
    EmptyIsClosed([]);
    AtomsClosed([], code);
    lead, gaps := AtomsGlue([], code, w);
    AfterIndent(line, indent, code, w, lead, Glue(Atoms(code), gaps));
  }

  lemma AfterIndent(line: string, indent: string, code: string, w: string, lead: string, g: string)
    requires line == indent + code && [] + (code + w) == lead + g
    ensures line + w == indent + lead + g
  {
    assert [] + (code + w) == code + w;
    assert indent + code + w == indent + (lead + g);
  }

  lemma Regroup(x: string, l: string, w: string, lead: string, g: string, v: string)
    requires l + w == lead + g
    ensures x + (l + w) == x + lead + g && x + (l + w + v) == x + lead + (g + v)
  {
  }

  /** A comment-free line and its wrapped form, before blank text. */
  lemma WrapLineUnseen(x: string, line: string, width: nat, w: string, v: string)
    requires Clean(x) && CommentStart(line).None? && '\n' !in line && AllBlank(w) && w != []
    ensures Lex(x + (JoinWith(WrapLine(line, width), "\n") + w + v)) == Lex(x + (line + w + v))
    ensures !OpenText(line) ==> Clean(x + (JoinWith(WrapLine(line, width), "\n") + w)) && Clean(x + (line + w))
  {
    hide Lex, Clean, Closed, Glue, JoinWith, Fill, CommentStart, OpenText, Atoms, Tabs;
    var lead, gaps := LineGlue(line, w);
    var indent, atoms := line[..Tabs(line)], Atoms(line[Tabs(line)..]);
    TabsBlank(indent);
    CleanGap(x, indent + lead);
    Regroup(x, line, w, indent + lead, Glue(atoms, gaps), v);
    if !OpenText(line) {
      GlueCloses(x + (indent + lead), atoms, gaps);
    }
    if |line| <= width || |atoms| <= 1 {
      JoinOne(line);
    } else {
      FilledUnseen(x, indent, lead, atoms, gaps, width, w, v);
      if !OpenText(line) {
        FilledCloses(x, indent, atoms, width, w);
      }
    }
  }

  lemma FilledUnseen(x: string, indent: string, lead: string, atoms: seq<string>, gaps: seq<string>, width: nat,
                     w: string, v: string)
    requires Clean(x) && AllTabs(indent) && AllBlank(lead) && AllBlank(w) && w != []
    requires |atoms| == |gaps| > 0 && Gaps(gaps)
    requires forall i :: 0 <= i < |atoms| ==> Closed(atoms[i]) || (i == |atoms| - 1 && gaps[i] == w)
    ensures Lex(x + (JoinWith(Fill([], indent, |indent|, indent + "\t", atoms, width), "\n") + w + v))
            == Lex(x + (indent + lead) + (Glue(atoms, gaps) + v))
  {
    hide Lex, Clean, Closed, Glue, JoinWith, Fill;
    var gaps2 := FillGlue([], indent, |indent|, indent + "\t", atoms, width, w);
    assert [] + atoms == atoms;
    var filled := JoinWith(Fill([], indent, |indent|, indent + "\t", atoms, width), "\n");
    CleanGap(x, indent);
    IsRespaced(atoms, gaps2, gaps);
    GlueUnseen(x + indent, atoms, gaps2, gaps, v);
    BlankMoves(x, indent, indent + lead, Glue(atoms, gaps) + v);
    hide AllTabs, AllBlank, Gaps, Respaced;
    Associate(indent, Glue(atoms, gaps2), v);
    Associate(x, indent, Glue(atoms, gaps2) + v);
  }

  lemma BlankMoves(x: string, g: string, h: string, v: string)
    requires Clean(x) && AllBlank(g) && AllBlank(h)
    ensures Lex(x + g + v) == Lex(x + h + v)
  {
    GapUnseen(x, g, h, v);
    assert x + (g + v) == x + g + v && x + (h + v) == x + h + v;
  }

  lemma FilledCloses(x: string, indent: string, atoms: seq<string>, width: nat, w: string)
    requires Clean(x) && AllTabs(indent) && AllBlank(w) && w != [] && atoms != []
    requires ClosedAtoms(atoms, false)
    ensures Clean(x + (JoinWith(Fill([], indent, |indent|, indent + "\t", atoms, width), "\n") + w))
  {
    hide Clean, Closed, Glue, JoinWith, Fill;
    var gaps2 := FillGlue([], indent, |indent|, indent + "\t", atoms, width, w);
    assert [] + atoms == atoms;
    CleanGap(x, indent);
    GlueCloses(x + indent, atoms, gaps2);
    assert x + (indent + Glue(atoms, gaps2)) == x + indent + Glue(atoms, gaps2);
  }

  // ---- Where a line ends -----------------------------------------------------------------------

  /** A literal opened at `k` is not closed on its line. */
  ghost predicate OpenAt(y: string, k: nat) {
    k < |y| && Closed(y[..k]) && y[k] == '"' && StringEnd(y[k + 1..]).None? && '\n' in y[k + 1..]
  }

  ghost predicate Dies(y: string) {
    exists k: nat :: OpenAt(y, k)
  }

  /** A text with an unclosed literal after closed code is an error, whatever follows. */
  lemma DeadText(x: string, y: string, v: string)
    requires Clean(x) && Dies(y)
    ensures Lex(x + (y + v)) == Bad
  {
    var k: nat :| OpenAt(y, k);
    var p, t := y[..k], y[k..] + v;
    assert y[k..] == ['"'] + y[k + 1..];
    assert x + (y + v) == x + p + t;
    assert t == ['"'] + (y[k + 1..] + v);
    hide Lex, Closed, NoSecond, StringEnd;
    CleanSeam(x, p);
    ClosedAppend(x, p);
    OpenQuoteIsBad(y[k + 1..], v);
    QuoteIsNoSecond(t);
    LexSplits(x + p, t);
    FollowedByBad(Lex(x + p));
  }

  lemma OpenQuoteIsBad(s: string, v: string)
    requires StringEnd(s).None? && '\n' in s
    ensures Lex(['"'] + (s + v)) == Bad
  {
    var t := ['"'] + (s + v);
    StringEndNone(s, v);
    assert t[1..] == s + v && NextStep(t) == Error;
    hide NextStep, Lex;
    ErrorIsBad(t);
  }

  lemma QuoteIsNoSecond(t: string)
    requires t != [] && t[0] == '"'
    ensures NoSecond(t)
  {
    assert Run(t, Blanks) == 0;
  }

  lemma FollowedByBad(a: Lexed)
    ensures Followed(a, Bad) == Bad
  {
  }

  lemma CleanSeam(x: string, y: string)
    requires Clean(x)
    ensures Seam(x, y)
  {
  }

  lemma OpenLater(y: string, n: nat)
    requires n <= |y| && Dies(y[n..])
    requires forall k :: n <= k <= |y| && Closed(y[n..k]) ==> Closed(y[..k])
    ensures Dies(y)
  {
    var k: nat :| OpenAt(y[n..], k);
    assert y[n..][..k] == y[n..n + k];
    assert y[n..][k + 1..] == y[n + k + 1..];
    assert OpenAt(y, n + k);
  }

  lemma OpenHere(y: string)
    requires y != [] && y[0] == '"' && StringEnd(y[1..]).None? && '\n' in y[1..]
    ensures Dies(y)
  {
    assert OpenAt(y, 0) by { EmptyIsClosed(y[..0]); }
  }

  lemma ClosedPrefixChar(y: string)
    requires y != [] && y[0] != '{' && y[0] != '"' && !LineComment(y)
    ensures forall k :: 1 <= k <= |y| && Closed(y[1..k]) ==> Closed(y[..k])
  {
    forall k | 1 <= k <= |y| && Closed(y[1..k]) ensures Closed(y[..k]) {
      assert y[..k][1..] == y[1..k];
    }
  }

  lemma ClosedPrefixString(y: string, j: nat)
    requires y != [] && y[0] == '"' && StringEnd(y[1..]) == Some(j)
    ensures forall k :: j + 2 <= k <= |y| && Closed(y[j + 2..k]) ==> Closed(y[..k])
  {
    forall k | j + 2 <= k <= |y| && Closed(y[j + 2..k]) ensures Closed(y[..k]) {
      StringEndTaken(y[1..], j);
      assert y[1..][..j + 1] + y[j + 2..k] == y[..k][1..];
      StringEndKept(y[1..][..j + 1], y[j + 2..k]);
      assert y[..k][j + 2..] == y[j + 2..k];
    }
  }

  lemma ClosedPrefixComment(y: string, n: nat)
    requires y != [] && y[0] == '{' && n <= |y| - 1 && CommentEnd(y[1..n + 1], 1) == Some(n)
    ensures forall k :: n + 1 <= k <= |y| && Closed(y[n + 1..k]) ==> Closed(y[..k])
  {
    forall k | n + 1 <= k <= |y| && Closed(y[n + 1..k]) ensures Closed(y[..k]) {
      assert y[1..n + 1] + y[n + 1..k] == y[..k][1..];
      CommentEndKept(y[1..n + 1], 1, y[n + 1..k]);
      assert y[..k][1 + n..] == y[n + 1..k];
    }
  }

  /** A comment-free line, with its newline, is closed or dies of its open literal. */
  lemma {:induction false} LineCloses(l: string)
    requires CommentStart(l).None? && '\n' !in l
    ensures if OpenText(l) then Dies(l + "\n") else Closed(l)
    decreases |l|
  {
    if l == [] {
      EmptyIsClosed(l);
    } else if l[0] == '"' {
      if Find(l[1..], '"').None? {
        UnclosedDies(l);
      } else {
        var j := Find(l[1..], '"').value;
        LineCloses(l[j + 2..]);
        LiteralFate(l, j);
      }
    } else {
      LineCloses(l[1..]);
      CharFate(l);
    }
  }

  lemma UnclosedDies(l: string)
    requires l != [] && l[0] == '"' && Find(l[1..], '"').None?
    ensures OpenText(l) && Dies(l + "\n")
  {
    var y := l + "\n";
    NoStringEnd(l[1..], "\n");
    assert y[1..] == l[1..] + "\n" && y[|y| - 1] == '\n';
    hide Dies;
    OpenHere(y);
  }

  /** A literal in front of a line decides nothing. */
  lemma LiteralFate(l: string, j: nat)
    requires l != [] && '\n' !in l && l[0] == '"' && Find(l[1..], '"') == Some(j)
    requires if OpenText(l[j + 2..]) then Dies(l[j + 2..] + "\n") else Closed(l[j + 2..])
    ensures if OpenText(l) then Dies(l + "\n") else Closed(l)
  {
    OpenPastLiteral(l, j);
    hide *;
    if OpenText(l) {
      LiteralDies(l, j);
    } else {
      LiteralCloses(l, j);
    }
  }

  lemma OpenPastLiteral(l: string, j: nat)
    requires l != [] && l[0] == '"' && Find(l[1..], '"') == Some(j)
    ensures OpenText(l) == OpenText(l[j + 2..])
  {
  }

  lemma LiteralDies(l: string, j: nat)
    requires l != [] && '\n' !in l && l[0] == '"' && Find(l[1..], '"') == Some(j)
    requires Dies(l[j + 2..] + "\n")
    ensures Dies(l + "\n")
  {
    hide *;
    var y := l + "\n";
    FindIsStringEnd(l[1..]);
    StringEndKept(l[1..], "\n");
    DropAppend(l, "\n", 1);
    DropAppend(l, "\n", j + 2);
    ClosedPrefixString(y, j);
    OpenLater(y, j + 2);
  }

  lemma LiteralCloses(l: string, j: nat)
    requires l != [] && '\n' !in l && l[0] == '"' && Find(l[1..], '"') == Some(j) && Closed(l[j + 2..])
    ensures Closed(l)
  {
    LiteralIsClosed(l, j);
    QuoteSeam(l[..j + 2], l[j + 2..]);
    hide *;
    ClosedAppend(l[..j + 2], l[j + 2..]);
    assert l[..j + 2] + l[j + 2..] == l;
  }

  lemma QuoteSeam(x: string, y: string)
    requires x != [] && x[|x| - 1] == '"'
    ensures Seam(x, y)
  {
  }

  lemma CharFate(l: string)
    requires l != [] && l[0] != '"' && CommentStart(l).None?
    requires if OpenText(l[1..]) then Dies(l[1..] + "\n") else Closed(l[1..])
    ensures if OpenText(l) then Dies(l + "\n") else Closed(l)
  {
    assert OpenText(l) == OpenText(l[1..]);
    if OpenText(l) {
      var y := l + "\n";
      assert !LineComment(y);
      hide Dies, Closed, OpenText, CommentStart;
      ClosedPrefixChar(y);
      assert y[1..] == l[1..] + "\n";
      OpenLater(y, 1);
    }
  }

  lemma {:induction false} NoStringEnd(s: string, t: string)
    requires Find(s, '"').None? && t != [] && t[0] == '\n'
    ensures StringEnd(s + t).None?
  {
    if s == [] {
      assert s + t == t;
    } else {
      assert (s + t)[1..] == s[1..] + t;
      NoStringEnd(s[1..], t);
    }
  }

  // ---- Lines -----------------------------------------------------------------------------------

  lemma {:induction false} CommentStartKept(p: string, t: string)
    requires CommentStart(p).Some?
    ensures CommentStart(p + t) == CommentStart(p)
    decreases |p|
  {
    hide *;
    StartsAt(p);
    if p[0] == '"' {
      StartAtQuote(p);
      CommentStartKept(p[Find(p[1..], '"').value + 2..], t);
      StartPastQuote(p, t);
    } else if p[0] == '{' || LineComment(p) {
      LineCommentKept(p, t);
      StartHere(p);
      StartHere(p + t);
    } else {
      SecondCharMatters(p);
      CommentStartKept(p[1..], t);
      StartPastChar(p, t);
    }
  }

  lemma StartPastQuote(p: string, t: string)
    requires p != [] && p[0] == '"' && Find(p[1..], '"').Some?
    requires var r := p[Find(p[1..], '"').value + 2..]; CommentStart(r + t) == CommentStart(r)
    ensures CommentStart(p + t) == CommentStart(p)
  {
    hide *;
    StartAtQuote(p);
    StartAtQuote(p + t);
    FindKept(p[1..], '"', t);
    DropAppend(p, t, 1);
    DropAppend(p, t, Find(p[1..], '"').value + 2);
  }

  lemma StartPastChar(p: string, t: string)
    requires |p| >= 2 && p[0] != '"' && p[0] != '{' && !LineComment(p)
    requires CommentStart(p[1..] + t) == CommentStart(p[1..])
    ensures CommentStart(p + t) == CommentStart(p)
  {
    hide *;
    LineCommentKept(p, t);
    StartAtChar(p);
    StartAtChar(p + t);
    DropAppend(p, t, 1);
  }

  lemma StartsAt(s: string)
    requires CommentStart(s).Some?
    ensures s != []
  {
  }

  lemma LineCommentKept(p: string, t: string)
    ensures LineComment(p) ==> LineComment(p + t)
    ensures |p| >= 2 ==> LineComment(p + t) == LineComment(p)
  {
  }

  lemma StartHere(s: string)
    requires s != [] && (s[0] == '{' || LineComment(s))
    ensures CommentStart(s) == Some(0)
  {
  }

  /** One step of the comment scan. */
  lemma StartAtQuote(s: string)
    requires s != [] && s[0] == '"'
    ensures var j := Find(s[1..], '"');
            CommentStart(s)
            == if j.None? then None
               else
                 var r := CommentStart(s[j.value + 2..]);
                 if r.Some? then Some(j.value + 2 + r.value) else None
  {
  }

  lemma StartAtChar(s: string)
    requires s != [] && s[0] != '"' && s[0] != '{' && !LineComment(s)
    ensures var r := CommentStart(s[1..]);
            CommentStart(s) == if r.Some? then Some(1 + r.value) else None
  {
  }

  /** A comment found later lies in `p`, so `p` is longer than one character. */
  lemma SecondCharMatters(p: string)
    requires p != [] && p[0] != '"' && p[0] != '{' && !LineComment(p) && CommentStart(p).Some?
    ensures |p| >= 2 && CommentStart(p[1..]).Some?
  {
    assert p[1..] == [] || |p| >= 2;
  }

  /** The code before a line's comment has no comment and no open literal. */
  lemma {:induction false} CodeBeforeComment(l: string, cs: nat)
    requires CommentStart(l) == Some(cs)
    ensures CommentStart(l[..cs]).None? && !OpenText(l[..cs])
    decreases |l|
  {
    assert l[..cs] + l[cs..] == l;
    if CommentStart(l[..cs]).Some? {
      CommentStartKept(l[..cs], l[cs..]);
      assert false;
    }
    NoOpenBefore(l, cs);
  }

  lemma {:induction false} NoOpenBefore(l: string, cs: nat)
    requires CommentStart(l) == Some(cs)
    ensures !OpenText(l[..cs])
    decreases |l|
  {
    if l[0] == '"' {
      var j := Find(l[1..], '"').value;
      NoOpenBefore(l[j + 2..], cs - j - 2);
      LiteralBefore(l, j, cs);
    } else if l[0] != '{' && !LineComment(l) {
      NoOpenBefore(l[1..], cs - 1);
      assert l[..cs][1..] == l[1..][..cs - 1];
    }
  }

  lemma LiteralBefore(l: string, j: nat, cs: nat)
    requires l != [] && l[0] == '"' && Find(l[1..], '"') == Some(j) && j + 2 <= cs <= |l|
    ensures OpenText(l[..cs]) == OpenText(l[j + 2..][..cs - j - 2])
  {
    FindTaken(l[1..], '"', cs - 1);
    assert l[..cs][1..] == l[1..][..cs - 1];
    assert l[..cs][j + 2..] == l[j + 2..][..cs - j - 2];
  }

  lemma {:induction false} FindTaken(s: string, c: char, n: nat)
    requires Find(s, c).Some? && Find(s, c).value < n <= |s|
    ensures Find(s[..n], c) == Find(s, c)
  {
    if s[0] != c {
      assert s[..n][1..] == s[1..][..n - 1];
      FindTaken(s[1..], c, n - 1);
    }
  }

  /** Text without quotes at the end opens no literal. */
  lemma {:induction false} OpenKept(p: string, g: string)
    requires '"' !in g
    ensures OpenText(p + g) == OpenText(p)
    decreases |p|
  {
    if p == [] {
      assert p + g == g;
      NoQuoteOpensNone(g);
    } else {
      assert (p + g)[1..] == p[1..] + g;
      if p[0] == '"' {
        if Find(p[1..], '"').Some? {
          FindKept(p[1..], '"', g);
          var n := Find(p[1..], '"').value + 2;
          assert (p + g)[n..] == p[n..] + g;
          OpenKept(p[n..], g);
        } else {
          assert '"' !in p[1..] + g;
        }
      } else {
        OpenKept(p[1..], g);
      }
    }
  }

  lemma {:induction false} NoQuoteOpensNone(g: string)
    requires '"' !in g
    ensures !OpenText(g)
  {
    if g != [] {
      NoQuoteOpensNone(g[1..]);
    }
  }

  /** Code that stays closed and uncommented when what follows it before a comment is cut short. */
  lemma CutCloses(code: string, g: string)
    requires CommentStart(code + g).None? && !OpenText(code + g) && '"' !in g && '\n' !in code
    ensures CommentStart(code).None? && !OpenText(code) && Closed(code)
  {
    OpenKept(code, g);
    if CommentStart(code).Some? {
      CommentStartKept(code, g);
      assert false;
    }
    LineCloses(code);
  }

  /** The code of a line with a comment, as the wrapper takes it. */
  function CodeOf(l: string): string
    requires CommentStart(l).Some?
  {
    RStrip(l[..CommentStart(l).value])
  }

  /** A line of code and its comment, and the whitespace `rstrip` drops between them. */
  lemma CodeAndComment(l: string) returns (code: string, g: string, comment: string)
    requires CommentStart(l).Some? && '\n' !in l
    ensures code == CodeOf(l) && comment == l[CommentStart(l).value..]
    ensures l == code + g + comment && forall i :: 0 <= i < |g| ==> PySpace(g[i])
    ensures CommentStart(code).None? && !OpenText(code) && '\n' !in code && Closed(code)
    ensures CommentStart(code + g).None? && !OpenText(code + g) && Closed(code + g)
    ensures comment != [] && (comment[0] == '{' || LineComment(comment))
    ensures Seam(code + g, comment)
  {
    var cs := CommentStart(l).value;
    var before := l[..cs];
    code, comment := RStrip(before), l[cs..];
    g := before[|code|..];
    CodeBeforeComment(l, cs);
    CommentStartIs(l);
    assert before == code + g && l == before + comment;
    forall i | 0 <= i < |g| ensures PySpace(g[i]) {
      assert g[i] == before[|code| + i];
    }
    CutCloses(code, g);
    LineCloses(before);
    if !Seam(before, comment) {
      SlashBefore(before, comment);
      assert false;
    }
  }

  /** A `//` across the seam would have been found sooner. */
  lemma {:induction false} SlashBefore(p: string, c: string)
    requires CommentStart(p).None? && !OpenText(p) && p != [] && c != [] && p[|p| - 1] == '/' && c[0] == '/'
    ensures CommentStart(p + c).Some? && CommentStart(p + c).value < |p|
    decreases |p|
  {
    if p[0] == '"' {
      assert (p + c)[1..] == p[1..] + c;
      FindKept(p[1..], '"', c);
      var n := Find(p[1..], '"').value + 2;
      assert (p + c)[n..] == p[n..] + c;
      SlashBefore(p[n..], c);
    } else if |p| > 1 {
      assert (p + c)[1..] == p[1..] + c;
      SlashBefore(p[1..], c);
    } else {
      assert LineComment(p + c);
    }
  }

  /** Each line followed by a newline. */
  function Lines(lines: seq<string>): string {
    if lines == [] then [] else lines[0] + "\n" + Lines(lines[1..])
  }

  lemma {:induction false} JoinLines(lines: seq<string>)
    requires lines != []
    ensures JoinWith(lines, "\n") + "\n" == Lines(lines)
  {
    if |lines| > 1 {
      JoinLines(lines[1..]);
    }
  }

  lemma {:induction false} LinesAppend(a: seq<string>, b: seq<string>)
    ensures Lines(a + b) == Lines(a) + Lines(b)
  {
    if a == [] {
      assert a + b == b;
    } else {
      assert (a + b)[1..] == a[1..] + b;
      LinesAppend(a[1..], b);
    }
  }

  /** The comment is put back after its code, one space apart. */
  lemma CommentBack(code: string, comment: string)
    ensures Lines(WrapBefore(code, comment)) == JoinWith(WrapLine(code, WRAP_WIDTH), "\n") + " " + comment + "\n"
  {
    var w := WrapLine(code, WRAP_WIDTH);
    var init, last := w[..|w| - 1], w[|w| - 1];
    assert w == init + [last];
    LinesAppend(init, [last + " " + comment]);
    LinesAppend(init, [last]);
    assert Lines([last + " " + comment]) == last + " " + comment + "\n" + Lines([]);
    assert Lines([last]) == last + "\n" + Lines([]);
    JoinLines(w);
    assert JoinWith(w, "\n") + "\n" == Lines(init) + last + "\n";
    assert (JoinWith(w, "\n") + "\n")[..|JoinWith(w, "\n")|] == (Lines(init) + last + "\n")[..|JoinWith(w, "\n")|];
    assert JoinWith(w, "\n") == Lines(init) + last;
  }

  // ---- The theorem ------------------------------------------------------------------------------

  /** How deep in brace comments `s` ends that begins `depth` deep, if it does not leave them. */
  function Depth(s: string, depth: nat): nat {
    if depth == 0 || s == [] then depth
    else Depth(s[1..], if s[0] == '{' then depth + 1 else if s[0] == '}' then depth - 1 else depth)
  }

  lemma {:induction false} DepthEnds(s: string, depth: nat)
    ensures CommentEnd(s, depth).None? <==> Depth(s, depth) > 0
    ensures depth > 0 && CommentEnd(s, depth).Some? ==> CommentEnd(s, depth).value > 0
    decreases |s|
  {
    if depth > 0 && s != [] {
      DepthEnds(s[1..], if s[0] == '{' then depth + 1 else if s[0] == '}' then depth - 1 else depth);
    }
  }

  /** How deep in brace comments a line leaves the lexer that begins it `depth` deep. */
  function After(l: string, depth: nat): nat
    decreases |l|
  {
    if depth == 0 then
      var cs := CommentStart(l);
      if cs.Some? && l[cs.value] == '{' then After(l[cs.value + 1..], 1) else 0
    else
      DepthEnds(l, depth);
      match CommentEnd(l, depth)
      case None => Depth(l, depth)
      case Some(n) => After(l[n..], 0)
  }

  /** At the start of every line the wrapper, which looks for one closing brace, and the lexer, which
      counts, agree on whether a comment is open. */
  predicate InStep(lines: seq<string>, depth: nat, brace: bool)
    decreases |lines|
  {
    lines == []
    || ((brace <==> depth > 0)
        && InStep(lines[1..], After(lines[0], depth), if brace then '}' !in lines[0] else OpensBlock(lines[0])))
  }

  /** Between the code of a line and its comment the wrapper drops only what the lexer skips. */
  ghost predicate PlainGap(l: string) {
    CommentStart(l).Some? && !OpensBlock(l) && CodeOf(l) != [] ==> AllBlank(l[|CodeOf(l)|..CommentStart(l).value])
  }

  /** The same for every line outside brace comments. */
  ghost predicate PlainGaps(lines: seq<string>, brace: bool)
    decreases |lines|
  {
    if lines == [] then true
    else if brace then PlainGaps(lines[1..], '}' !in lines[0])
    else PlainGap(lines[0]) && PlainGaps(lines[1..], OpensBlock(lines[0]))
  }

  ghost predicate TextLines(lines: seq<string>) {
    forall l :: l in lines ==> '\n' !in l
  }

  lemma CommentSpacing(x: string, code: string, g: string, comment: string, v: string)
    requires Clean(x) && Closed(code) && code != [] && AllBlank(g) && comment != []
    requires comment[0] == '{' || LineComment(comment)
    requires g == [] ==> Seam(code, comment)
    ensures Lex(x + (code + g + comment + v)) == Lex(x + (code + " " + comment + v))
  {
    var y := comment + v;
    CleanSeam(x, code);
    ClosedAppend(x, code);
    assert x + (code + g + comment + v) == x + code + (g + y);
    assert x + (code + " " + comment + v) == x + code + (" " + y);
    assert LineComment(comment) ==> LineComment(y);
    assert AllBlank(" ");
    hide Lex, Closed, Clean, LineComment;
    if g == [] {
      assert g + y == y;
      assert (x + code)[|x + code| - 1] == code[|code| - 1] && y[0] == comment[0];
      GapBeforeComment(x + code, " ", y);
    } else {
      GapUnseen(x + code, g, " ", y);
    }
  }

  lemma BlankSigns()
    ensures AllBlank(" ") && AllBlank("\n") && Blank(' ') && Blank('\n')
  {
  }

  /** A line outside brace comments and its wrapped form. */
  lemma CodeLineUnseen(x: string, l: string, v: string)
    requires Clean(x) && '\n' !in l && PlainGap(l) && !OpensBlock(l)
    ensures Lex(x + (l + "\n" + v)) == Lex(x + (Lines(WrapCode(l)) + v))
  {
    hide Lex, Clean, Closed, WrapLine, OpenText, OpensBlock, WrapBefore, Lines, JoinWith, AllBlank;
    if CommentStart(l).None? {
      BlankSigns();
      JoinLines(WrapLine(l, WRAP_WIDTH));
      WrapLineUnseen(x, l, WRAP_WIDTH, "\n", v);
    } else {
      var code, g, comment := CodeAndComment(l);
      if code == [] {
        OneLine(l);
      } else {
        assert g == l[|code|..CommentStart(l).value];
        CommentedUnseen(x, code, g, comment, v);
      }
    }
  }

  /** Code with a comment behind it. */
  lemma CommentedUnseen(x: string, code: string, g: string, comment: string, v: string)
    requires Clean(x) && Closed(code) && code != [] && '\n' !in code && CommentStart(code).None? && !OpenText(code)
    requires AllBlank(g) && comment != [] && (comment[0] == '{' || LineComment(comment)) && Seam(code + g, comment)
    ensures Lex(x + (code + g + comment + "\n" + v)) == Lex(x + (Lines(WrapBefore(code, comment)) + v))
  {
    hide *;
    var y := comment + ("\n" + v);
    NoGap(code, g);
    CommentSpacing(x, code, g, comment, "\n" + v);
    BlankSigns();
    WrapLineUnseen(x, code, WRAP_WIDTH, " ", y);
    CommentBack(code, comment);
    Associate(code + g + comment, "\n", v);
    Associate(code + " ", comment, "\n" + v);
    var joined := JoinWith(WrapLine(code, WRAP_WIDTH), "\n") + " ";
    Associate(joined, comment, "\n");
    Associate(joined, comment + "\n", v);
    Associate(comment, "\n", v);
  }

  lemma NoGap(code: string, g: string)
    ensures g == [] ==> code + g == code
  {
  }

  lemma UnknownIsBad(t: string)
    requires t != [] && Unknown(t[0])
    ensures NoSecond(t) && Lex(t) == Bad
  {
    assert Run(t, Blanks) == 0;
    assert Munch(t) == 0;
    assert NextStep(t) == Error;
    hide NextStep, Lex;
    ErrorIsBad(t);
  }

  lemma OddIsUnknown(c: char)
    requires PySpace(c) && !Blank(c)
    ensures Unknown(c)
  {
  }

  /** Whitespace that is not the lexer's, between code and a comment, is a syntax error. */
  lemma OddGapIsBad(x: string, l: string, v: string)
    requires Clean(x) && '\n' !in l && !PlainGap(l)
    ensures Lex(x + (l + "\n" + v)) == Bad
  {
    var code, g, comment := CodeAndComment(l);
    assert g == l[|code|..CommentStart(l).value];
    assert exists i :: 0 <= i < |g| && !Blank(g[i]);
    hide Clean, Closed, CommentStart, OpenText, PlainGap, PySpace, Lex, LineComment, Seam;
    var i :| 0 <= i < |g| && !Blank(g[i]);
    OddIsUnknown(g[i]);
    assert '"' !in g by { SpacesAreNotQuotes(g); }
    hide Unknown;
    var p, t := code + g[..i], g[i..] + comment + "\n" + v;
    CutAt(code, g, comment, v, i);
    CutCloses(p, g[i..]);
    UnknownEndsText(x, p, t);
    assert x + (l + "\n" + v) == x + (p + t);
  }

  lemma CutAt(code: string, g: string, comment: string, v: string, i: nat)
    requires i < |g|
    ensures var p, t := code + g[..i], g[i..] + comment + "\n" + v;
            p + g[i..] == code + g && p + t == (code + g + comment) + "\n" + v && t[0] == g[i]
  {
    assert g[..i] + g[i..] == g;
  }

  lemma SpacesAreNotQuotes(g: string)
    requires forall i :: 0 <= i < |g| ==> PySpace(g[i])
    ensures '"' !in g
  {
  }

  lemma UnknownEndsText(x: string, p: string, t: string)
    requires Clean(x) && Closed(p) && t != [] && Unknown(t[0])
    ensures Lex(x + (p + t)) == Bad
  {
    hide Lex, Closed, NoSecond, Bounded, Unknown, Seam;
    CleanSeam(x, p);
    ClosedAppend(x, p);
    assert x + p + t == x + (p + t);
    UnknownEnds(x + p, t);
  }

  lemma UnknownEnds(x: string, t: string)
    requires Closed(x) && t != [] && Unknown(t[0])
    ensures Lex(x + t) == Bad
  {
    hide Lex, Closed, NoSecond, Bounded, Unknown;
    UnknownBounds(x, t);
    UnknownIsBad(t);
    LexSplits(x, t);
    FollowedByBad(Lex(x));
  }

  lemma UnknownBounds(x: string, t: string)
    requires t != [] && Unknown(t[0])
    ensures Bounded(x, t)
  {
    UnknownIsNoSlash(t[0]);
  }

  lemma UnknownIsNoSlash(c: char)
    requires Unknown(c)
    ensures c != '/'
  {
    assert '/' in SINGLES;
  }

  /** An open comment goes on at its depth. */
  lemma {:induction false} DepthGoesOn(s: string, t: string, depth: nat)
    requires Depth(s, depth) > 0
    ensures Depth(s + t, depth) == Depth(t, Depth(s, depth))
    ensures var r := CommentEnd(t, Depth(s, depth));
            CommentEnd(s + t, depth) == if r.Some? then Some(|s| + r.value) else None
    decreases |s|
  {
    if s == [] {
      assert s + t == t;
    } else {
      assert (s + t)[1..] == s[1..] + t;
      DepthGoesOn(s[1..], t, if s[0] == '{' then depth + 1 else if s[0] == '}' then depth - 1 else depth);
    }
  }

  /** A line after which no comment is open: with its newline it is closed, or it dies of an open
      literal. */
  lemma {:induction false} LineFate(l: string)
    requires '\n' !in l && After(l, 0) == 0
    ensures Closed(l + "\n") || Dies(l + "\n")
    decreases |l|, 1
  {
    hide Closed, Dies, OpenText, Seam;
    if CommentStart(l).None? {
      LineCloses(l);
      if Closed(l) {
        NewlineCloses(l);
      }
    } else {
      var code, g, comment := CodeAndComment(l);
      NoteFate(l, comment);
      CodeThenComment(l, code, g, comment);
    }
  }

  lemma NewlineCloses(l: string)
    requires Closed(l)
    ensures Closed(l + "\n")
  {
    CharIsClosed('\n');
    hide Closed;
    ClosedAppend(l, "\n");
  }

  lemma CodeThenComment(l: string, code: string, g: string, comment: string)
    requires l == code + g + comment && Closed(code + g) && Seam(code + g, comment) && comment != []
    requires Closed(comment + "\n") || Dies(comment + "\n")
    ensures Closed(l + "\n") || Dies(l + "\n")
  {
    assert Seam(code + g, comment + "\n");
    assert code + g + (comment + "\n") == l + "\n";
    hide Closed, Dies, Seam;
    if Closed(comment + "\n") {
      ClosedAppend(code + g, comment + "\n");
    } else {
      DiesAfter(code + g, comment + "\n");
    }
  }

  lemma {:induction false} NoteFate(l: string, comment: string)
    requires CommentStart(l).Some? && comment == l[CommentStart(l).value..] && '\n' !in l && After(l, 0) == 0
    ensures Closed(comment + "\n") || Dies(comment + "\n")
    decreases |l|, 0
  {
    var t := comment + "\n";
    CommentStartIs(l);
    hide Closed, Dies, CommentStart;
    if comment[0] == '{' {
      assert comment == "{" + comment[1..] && comment[1..] == l[CommentStart(l).value + 1..];
      assert After(comment[1..], 1) == 0;
      DepthEnds(comment[1..], 1);
      BraceFate("{", comment[1..], 1);
    } else {
      assert t[..|t| - 1] == comment;
      RunFate(t);
    }
  }

  /** A brace comment `depth` deep under way in `c` that ends on the line `r`. */
  lemma {:induction false} BraceFate(c: string, r: string, depth: nat)
    requires c != [] && c[0] == '{' && Depth(c[1..], 1) == depth > 0 && '\n' !in r
    requires CommentEnd(r, depth).Some? && After(r[CommentEnd(r, depth).value..], 0) == 0
    ensures Closed(c + r + "\n") || Dies(c + r + "\n")
    decreases |r|, 2
  {
    hide *;
    var t, k := c + r + "\n", CommentEnd(r, depth).value;
    var n, rest := |c| - 1 + k, r[k..];
    BraceEnds(c, r, depth);
    LineFate(rest);
    if Closed(rest + "\n") {
      ClosedAfter(t, n);
    } else {
      ClosedPrefixComment(t, n);
      OpenLater(t, n + 1);
    }
  }

  lemma BraceSlices(c: string, r: string, k: nat)
    requires c != [] && k <= |r|
    ensures var t, n := c + r + "\n", |c| - 1 + k;
            n < |t| - 1 && t[0] == c[0] && t[1..n + 1] == (c[1..] + r)[..n] && t[n + 1..] == r[k..] + "\n"
  {
  }

  /** Where the comment ends. */
  lemma BraceEnds(c: string, r: string, depth: nat)
    requires c != [] && c[0] == '{' && Depth(c[1..], 1) == depth > 0 && CommentEnd(r, depth).Some?
    ensures var t, n := c + r + "\n", |c| - 1 + CommentEnd(r, depth).value;
            && n < |t| - 1 && t[0] == '{' && CommentEnd(t[1..n + 1], 1) == Some(n)
            && t[n + 1..] == r[CommentEnd(r, depth).value..] + "\n"
  {
    hide *;
    DepthGoesOn(c[1..], r, 1);
    CommentEndIsEnd(c[1..] + r, 1);
    BraceSlices(c, r, CommentEnd(r, depth).value);
  }

  lemma ClosedAfter(t: string, n: nat)
    requires t != [] && t[0] == '{' && n < |t| && CommentEnd(t[1..n + 1], 1) == Some(n) && Closed(t[n + 1..])
    ensures Closed(t)
  {
    assert t[1..] == t[1..n + 1] + t[n + 1..];
    CommentEndKept(t[1..n + 1], 1, t[n + 1..]);
  }

  lemma RunFate(t: string)
    requires LineComment(t) && t[|t| - 1] == '\n' && '\n' !in t[..|t| - 1]
    ensures Closed(t)
  {
    var p := t[..|t| - 1];
    assert p + "\n" == t;
    assert Find(p, '\n').None?;
    FindNone(p, '\n', "\n");
    assert t[|p|..] == "\n";
    assert "\n"[1..] == [];
  }

  lemma DiesAfter(p: string, t: string)
    requires Closed(p) && Seam(p, t) && Dies(t)
    ensures Dies(p + t)
  {
    var k: nat :| OpenAt(t, k);
    ClosedAppend(p, t[..k]);
    assert (p + t)[..|p| + k] == p + t[..k];
    assert (p + t)[|p| + k + 1..] == t[k + 1..];
    assert OpenAt(p + t, |p| + k);
  }

  lemma CleanEnd(x: string, t: string)
    requires Clean(x) && Closed(t) && t != [] && t[|t| - 1] == '\n'
    ensures Clean(x + t)
  {
    CleanSeam(x, t);
    ClosedAppend(x, t);
  }

  /** After a line outside brace comments the output is clean again, or the text is an error. */
  lemma CodeLineEnds(x: string, l: string)
    requires Clean(x) && '\n' !in l && After(l, 0) == 0
    ensures Dies(l + "\n") || Clean(x + Lines(WrapCode(l)))
  {
    hide Clean, Closed, WrapLine, Dies, OpenText, After, RStrip;
    assert AllBlank("\n") && AllBlank(" ");
    LineFate(l);
    if !Dies(l + "\n") {
      if CommentStart(l).None? {
        JoinLines(WrapLine(l, WRAP_WIDTH));
        LineCloses(l);
        WrapLineUnseen(x, l, WRAP_WIDTH, "\n", []);
      } else {
        CommentEnds(x, l);
      }
    }
  }

  lemma CommentEnds(x: string, l: string)
    requires Clean(x) && '\n' !in l && After(l, 0) == 0 && CommentStart(l).Some? && Closed(l + "\n") && !Dies(l + "\n")
    ensures Clean(x + Lines(WrapCode(l)))
  {
    var code, g, comment := CodeAndComment(l);
    NoteFate(l, comment);
    var t := comment + "\n";
    assert code + g + t == l + "\n" && Seam(code + g, t);
    hide Clean, Closed, Dies, OpenText, After, RStrip, LineComment, PySpace, Seam, Lines, JoinWith;
    if code == [] {
      assert WrapCode(l) == [l];
      OneLine(l);
      CleanEnd(x, l + "\n");
    } else {
      if Dies(t) {
        DiesAfter(code + g, t);
        assert false;
      }
      assert WrapCode(l) == WrapBefore(code, comment);
      hide CommentStart, WrapLine, WrapBefore;
      WrapLineEnds(x, code, comment);
    }
  }

  lemma OneLine(l: string)
    ensures Lines([l]) == l + "\n"
  {
    assert Lines([l][1..]) == [];
  }

  lemma WrapLineEnds(x: string, code: string, comment: string)
    requires Clean(x) && '\n' !in code && CommentStart(code).None? && !OpenText(code) && code != []
    requires Closed(comment + "\n")
    ensures Clean(x + Lines(WrapBefore(code, comment)))
  {
    assert AllBlank(" ");
    hide Clean, Closed, CommentStart, WrapLine, WrapBefore, JoinWith, OpenText;
    WrapLineUnseen(x, code, WRAP_WIDTH, " ", []);
    CommentBack(code, comment);
    var joined := JoinWith(WrapLine(code, WRAP_WIDTH), "\n");
    CleanEnd(x + (joined + " "), comment + "\n");
    PutTogether(x, joined + " ", comment);
  }

  lemma PutTogether(x: string, a: string, comment: string)
    ensures x + a + (comment + "\n") == x + (a + comment + "\n")
  {
  }

  /** The wrapped text reads as the text does when every gap is plain, and the text is an error
      when one is not. */
  ghost predicate ReadsAlike(text: string, wrapped: string, plain: bool) {
    if plain then Lex(text) == Lex(wrapped) else Lex(text) == Bad
  }

  lemma AlikeMeans(text: string, wrapped: string, plain: bool)
    ensures ReadsAlike(text, wrapped, plain) == if plain then Lex(text) == Lex(wrapped) else Lex(text) == Bad
  {
  }

  lemma TextLinesRest(lines: seq<string>)
    requires TextLines(lines) && lines != []
    ensures TextLines(lines[1..]) && '\n' !in lines[0]
  {
    assert lines[0] in lines;
  }

  /** Outside brace comments. */
  lemma {:induction false} LinesUnseen(x: string, lines: seq<string>)
    requires Clean(x) && TextLines(lines) && InStep(lines, 0, false)
    ensures ReadsAlike(x + Lines(lines), x + Lines(WrapLines(lines, false)), PlainGaps(lines, false))
    decreases |lines|, 2
  {
    if lines != [] {
      var l, rest := lines[0], lines[1..];
      assert l in lines && TextLines(rest);
      assert InStep(rest, After(l, 0), OpensBlock(l));
      hide Lex, Clean, WrapCode, InStep, PlainGap, After;
      if OpensBlock(l) {
        OpeningLine(x, lines);
      } else {
        CodeLineGoes(x, lines);
      }
    }
  }

  lemma CodeLineStep(x: string, lines: seq<string>)
    requires lines != [] && !OpensBlock(lines[0])
    ensures var l, rest, out := lines[0], lines[1..], Lines(WrapCode(lines[0]));
            && x + Lines(lines) == x + (l + "\n" + Lines(rest))
            && x + Lines(WrapLines(lines, false)) == x + (out + Lines(WrapLines(rest, false)))
            && PlainGaps(lines, false) == (PlainGap(l) && PlainGaps(rest, false))
  {
    hide WrapCode, PlainGap, OpensBlock;
    LinesAppend(WrapCode(lines[0]), WrapLines(lines[1..], false));
  }

  /** A line outside brace comments that opens none for the wrapper. */
  lemma {:induction false} CodeLineGoes(x: string, lines: seq<string>)
    requires Clean(x) && TextLines(lines) && InStep(lines, 0, false) && lines != [] && !OpensBlock(lines[0])
    ensures ReadsAlike(x + Lines(lines), x + Lines(WrapLines(lines, false)), PlainGaps(lines, false))
    decreases |lines|, 1
  {
    var l, rest := lines[0], lines[1..];
    TextLinesRest(lines);
    hide *;
    AlikeMeans(x + Lines(lines), x + Lines(WrapLines(lines, false)), PlainGaps(lines, false));
    var out, more := Lines(WrapCode(l)), Lines(WrapLines(rest, false));
    InStepRest(lines, 0, false);
    CodeLineStep(x, lines);
    if !PlainGap(l) {
      OddGapIsBad(x, l, Lines(rest));
    } else {
      CodeLineUnseen(x, l, Lines(rest));
      CodeLineUnseen(x, l, more);
      if After(l, 0) > 0 {
        NoLinesLeft(rest);
      } else {
        CodeLineEnds(x, l);
        if Clean(x + out) {
          LinesUnseen(x + out, rest);
          AlikeMeans(x + out + Lines(rest), x + out + more, PlainGaps(rest, false));
          Associate(x, out, Lines(rest));
          Associate(x, out, more);
        } else {
          DeadText(x, l + "\n", Lines(rest));
          DeadText(x, l + "\n", more);
          Associate(x, l + "\n", Lines(rest));
          Associate(x, l + "\n", more);
        }
      }
    }
  }

  lemma NoLinesLeft(rest: seq<string>)
    requires rest == []
    ensures Lines(WrapLines(rest, false)) == Lines(rest) && PlainGaps(rest, false) && PlainGaps(rest, true)
    ensures Lines(WrapLines(rest, true)) == Lines(rest)
  {
  }

  /** What agreeing on the first line says of the others. */
  lemma InStepRest(lines: seq<string>, depth: nat, brace: bool)
    requires lines != [] && InStep(lines, depth, brace)
    ensures (brace <==> depth > 0)
    ensures InStep(lines[1..], After(lines[0], depth), if brace then '}' !in lines[0] else OpensBlock(lines[0]))
    ensures !brace && !OpensBlock(lines[0]) && After(lines[0], 0) > 0 ==> lines[1..] == []
    ensures brace && '}' in lines[0] && After(lines[0], depth) > 0 ==> lines[1..] == []
  {
    hide After, OpensBlock;
  }

  /** A line that opens a brace comment and leaves it open. */
  lemma {:induction false} OpeningLine(x: string, lines: seq<string>)
    requires Clean(x) && TextLines(lines) && InStep(lines, 0, false) && lines != [] && OpensBlock(lines[0])
    ensures ReadsAlike(x + Lines(lines), x + Lines(WrapLines(lines, false)), PlainGaps(lines, false))
    decreases |lines|, 1
  {
    var l, rest := lines[0], lines[1..];
    assert l in lines && TextLines(rest);
    InStepRest(lines, 0, false);
    var more := WrapLines(rest, true);
    assert WrapLines(lines, false) == [l] + more && lines == [l] + rest;
    assert PlainGaps(lines, false) == PlainGaps(rest, true);
    hide Lex, Clean, WrapLines, InStep, TextLines, Closed, Seam, OpensBlock, Lines, PlainGaps, After;
    var p, c := OpenParts(l);
    BraceUnseen(x, p, c, After(l, 0), rest);
    FirstLine(x, l, rest, p + c);
    FirstLine(x, l, more, p + c);
  }

  /** Without a closing brace the depth only grows. */
  lemma {:induction false} NeverCloses(s: string, depth: nat)
    requires '}' !in s && depth > 0
    ensures Depth(s, depth) > 0
    decreases |s|
  {
    if s != [] {
      NeverCloses(s[1..], if s[0] == '{' then depth + 1 else depth);
    }
  }

  lemma OpenComment(l: string, comment: string)
    requires OpensBlock(l) && comment == l[CommentStart(l).value..]
    ensures comment != [] && comment[0] == '{' && '}' !in comment[1..] && After(l, 0) == After(comment[1..], 1)
  {
    hide CommentStart, Depth, CommentEnd;
    assert comment[1..] == l[CommentStart(l).value + 1..];
    assert forall i :: 0 <= i < |comment[1..]| ==> comment[1..][i] == comment[i + 1];
  }

  lemma OpenParts(l: string) returns (p: string, c: string)
    requires OpensBlock(l) && '\n' !in l
    ensures l + "\n" == p + c && Closed(p) && Seam(p, c)
    ensures c != [] && c[0] == '{' && Depth(c[1..], 1) == After(l, 0) > 0
  {
    assert CommentStart(l).Some?;
    hide *;
    var code, g, comment := CodeAndComment(l);
    OpenComment(l, comment);
    OpenDepth(comment[1..]);
    p, c := code + g, comment + "\n";
    Associate(code + g, comment, "\n");
    FirstAndRest(comment, "\n");
    SeamKept(p, comment, c);
  }

  lemma OpenDepth(r: string)
    requires '}' !in r
    ensures After(r, 1) == Depth(r, 1) > 0 && Depth(r + "\n", 1) == Depth(r, 1)
  {
    NeverCloses(r, 1);
    DepthEnds(r, 1);
    NewlineKeeps(r, 1);
  }

  lemma NewlineKeeps(s: string, depth: nat)
    requires Depth(s, depth) > 0
    ensures Depth(s + "\n", depth) == Depth(s, depth)
  {
    DepthGoesOn(s, "\n", depth);
    assert "\n"[1..] == [];
    assert Depth("\n", Depth(s, depth)) == Depth([], Depth(s, depth));
  }

  lemma FirstLine(x: string, l: string, rest: seq<string>, t: string)
    requires l + "\n" == t
    ensures x + Lines([l] + rest) == x + t + Lines(rest)
  {
    assert ([l] + rest)[1..] == rest;
  }

  /** Inside a brace comment opened in `c`, every line is passed on as it is. */
  lemma {:induction false} BraceUnseen(x: string, p: string, c: string, depth: nat, lines: seq<string>)
    requires Clean(x) && Closed(p) && Seam(p, c) && TextLines(lines) && InStep(lines, depth, true)
    requires c != [] && c[0] == '{' && Depth(c[1..], 1) == depth > 0
    ensures ReadsAlike(x + (p + c) + Lines(lines), x + (p + c) + Lines(WrapLines(lines, true)), PlainGaps(lines, true))
    decreases |lines|, 0
  {
    if lines != [] {
      var l, rest := lines[0], lines[1..];
      assert l in lines && TextLines(rest);
      InStepRest(lines, depth, true);
      var t, more := c + l + "\n", WrapLines(rest, '}' !in l);
      assert WrapLines(lines, true) == [l] + more && lines == [l] + rest;
      assert PlainGaps(lines, true) == PlainGaps(rest, '}' !in l);
      hide Lex, Clean, Closed, InStep, Dies, TextLines, WrapLines, After, PlainGaps, Seam, Depth, Lines;
      FirstLine(x + (p + c), l, rest, l + "\n");
      FirstLine(x + (p + c), l, more, l + "\n");
      assert x + (p + c) + (l + "\n") == x + (p + t);
      assert t[0] == '{' && Seam(p, t) by { SeamKept(p, c, t); }
      if '}' !in l {
        LineInside(c, l, depth);
        BraceUnseen(x, p, t, After(l, depth), rest);
      } else if After(l, depth) > 0 {
        NoLinesLeft(rest);
        NothingUnseen(x + (p + t), rest, more);
      } else {
        LineEnds(c, l, depth);
        AfterComment(x, p, t, rest, more);
      }
    }
  }

  lemma SeamKept(p: string, c: string, t: string)
    requires c != [] && t != [] && c[0] == t[0] && Seam(p, c)
    ensures Seam(p, t)
  {
  }

  lemma NothingUnseen(x: string, rest: seq<string>, more: seq<string>)
    requires rest == [] && Lines(more) == Lines(rest)
    ensures ReadsAlike(x + Lines(rest), x + Lines(more), true)
  {
  }

  /** A line without a closing brace stays in the comment. */
  lemma LineInside(c: string, l: string, depth: nat)
    requires c != [] && Depth(c[1..], 1) == depth > 0 && '}' !in l
    ensures var t := c + l + "\n";
            Depth(t[1..], 1) == After(l, depth) > 0
  {
    NeverCloses(l, depth);
    DepthEnds(l, depth);
    DepthGoesOn(c[1..], l, 1);
    NewlineKeeps(c[1..] + l, 1);
    assert (c + l + "\n")[1..] == c[1..] + l + "\n";
  }

  /** A line after which no comment is open ends the comment. */
  lemma LineEnds(c: string, l: string, depth: nat)
    requires c != [] && c[0] == '{' && Depth(c[1..], 1) == depth > 0 && '\n' !in l && After(l, depth) == 0
    ensures Closed(c + l + "\n") || Dies(c + l + "\n")
  {
    DepthEnds(l, depth);
    hide Closed, Dies, Depth, CommentEnd;
    BraceFate(c, l, depth);
  }

  lemma {:induction false} AfterComment(x: string, p: string, t: string, rest: seq<string>, more: seq<string>)
    requires Clean(x) && Closed(p) && Seam(p, t) && (Closed(t) || Dies(t)) && t != [] && t[|t| - 1] == '\n'
    requires TextLines(rest) && InStep(rest, 0, false) && more == WrapLines(rest, false)
    ensures ReadsAlike(x + (p + t) + Lines(rest), x + (p + t) + Lines(more), PlainGaps(rest, false))
    decreases |rest|, 3
  {
    hide Lex, Clean, Closed, InStep, Dies, TextLines, WrapLines, PlainGaps;
    if Closed(t) {
      ClosedAppend(p, t);
      CleanEnd(x, p + t);
      LinesUnseen(x + (p + t), rest);
    } else {
      DiesAfter(p, t);
      DeadText(x, p + t, Lines(rest));
      DeadText(x, p + t, Lines(more));
      assert x + ((p + t) + Lines(rest)) == x + (p + t) + Lines(rest);
      assert x + ((p + t) + Lines(more)) == x + (p + t) + Lines(more);
    }
  }

  /** Wrapping a whole text leaves its tokens, its comments and its errors as they were, unless a
      gap before a comment holds whitespace that is not the lexer's: the text is then an error,
      and stays one only when its wrapped form is. */
  lemma WrapIsUnseen(text: string)
    requires InStep(Split(text), 0, false)
    ensures PlainGaps(Split(text), false) ==> Lex(WrapAll(text)) == Lex(text)
    ensures !PlainGaps(Split(text), false) ==> Lex(text) == Bad
    ensures Lex(WrapAll(text)) == Lex(text) <==> PlainGaps(Split(text), false) || Lex(WrapAll(text)) == Bad
  {
    var lines := Split(text);
    var out := WrapLines(lines, false);
    EmptyIsClosed([]);
    hide Lex, InStep, PlainGaps;
    LinesUnseen([], lines);
    assert [] + Lines(lines) == Lines(lines) && [] + Lines(out) == Lines(out);
    JoinLines(lines);
    JoinLines(out);
    LexNewline(text);
    LexNewline(WrapAll(text));
  }

  const NO_BREAK := 0xA0 as char

  /** A no-break space before a comment is an error that wrapping removes. */
  lemma OddGapIsRemoved()
    ensures var text := ['a', NO_BREAK] + "// b";
            Lex(text) == Bad && Lex(WrapAll(text)) == Good([Lexeme("a")], ["// b"])
  {
    var text := ['a', NO_BREAK] + "// b";
    OddStart(text);
    OddGapIsOdd(text);
    hide *;
    WrapIsUnseen(text);
    AlikeMeans(text, WrapAll(text), PlainGaps(Split(text), false));
    ShortText();
  }

  lemma OddStart(text: string)
    requires text == ['a', NO_BREAK] + "// b"
    ensures CommentStart(text) == Some(2)
  {
    assert text[1..] == [NO_BREAK] + "// b" && text[1..][1..] == "// b";
    assert CommentStart("// b") == Some(0);
    assert CommentStart(text[1..]) == Some(1);
  }

  lemma OddGapIsOdd(text: string)
    requires text == ['a', NO_BREAK] + "// b" && CommentStart(text) == Some(2)
    ensures Split(text) == [text] && InStep(Split(text), 0, false) && !PlainGaps(Split(text), false)
    ensures WrapAll(text) == "a // b"
  {
    assert text[..2] == ['a', NO_BREAK] && ['a', NO_BREAK][..1] == "a" && text[2..] == "// b";
    assert RStrip("a") == "a" && text[1..2][0] == NO_BREAK;
    hide CommentStart, RStrip, After;
    assert Split(text) == [text];
    assert InStep([text][1..], After(text, 0), OpensBlock(text));
    ShortLine("a", "// b");
    assert WrapLines([text][1..], false) == [] && "a" + " " + "// b" == "a // b";
  }

  /** A short code line is not broken. */
  lemma ShortLine(code: string, comment: string)
    requires |code| <= WRAP_WIDTH
    ensures WrapBefore(code, comment) == [code + " " + comment]
  {
    hide Atoms, Fill, Tabs;
    assert WrapLine(code, WRAP_WIDTH) == [code];
  }

  lemma ShortText()
    ensures Lex("a // b") == Good([Lexeme("a")], ["// b"])
  {
    hide *;
    var s, c := "a // b", "// b";
    ShortStep(s, c);
    LexTurn(s);
    BlankSigns();
    LexSkips(" ", c);
    RunAlone(c);
  }

  lemma ShortStep(s: string, c: string)
    requires s == "a // b" && c == "// b"
    ensures NextStep(s) == Yield(1, Lexeme("a")) && s[1..] == " " + c && RunNote(c)
  {
    assert s[1..] == " // b";
    assert Run(s[1..], Words) == 0 && Munch(s) == 1 && s[..1] == "a";
    assert Lower("a") == "a" by { assert "a"[1..] == []; }
  }

  lemma RunAlone(c: string)
    requires RunNote(c)
    ensures Before([Lexeme("a")], [], Lex(c)) == Good([Lexeme("a")], [c])
  {
    hide RunNote;
    RunReads(c, [], []);
    assert c + [] == c && c + [] + [] == c && [c] + [] == [c];
  }

  /** A comment left open on a line after another has closed there: the wrapper takes the next
      line for code, and the comment's text changes. */
  lemma LeftOpenAgain()
    ensures var text := "{" + "\n" + ("} {" + "\n" + "a  // }");
            && Lex(text) == Good([], ["{\n}", "{\n" + "a  // }"])
            && Lex(WrapAll(text)) == Good([], ["{\n}", "{\n" + "a // }"])
  {
    CommentStartLate("a  // }");
    BraceOpens();
    hide *;
    WrapThree("{", "} {", "a  // }", "a // }");
    TwoComments("a  // }");
    TwoComments("a // }");
  }

  lemma BraceOpens()
    ensures OpensBlock("{")
  {
    assert CommentStart("{") == Some(0) && "{"[0..] == "{";
  }

  lemma WrapThree(a: string, b: string, c: string, d: string)
    requires '\n' !in a && '\n' !in b && '\n' !in c
    requires OpensBlock(a) && '}' in b && !OpensBlock(c) && WrapCode(c) == [d]
    ensures WrapAll(a + "\n" + (b + "\n" + c)) == a + "\n" + (b + "\n" + d)
  {
    hide OpensBlock, WrapCode, Split, JoinWith, WrapLines;
    ThreeLines(a, b, c);
    ThreeWrapped(a, b, c);
    assert [a, b] + [d] == [a, b, d];
    JoinThree(a, b, d);
  }

  lemma CommentStartLate(c: string)
    requires c == "a  // }"
    ensures CommentStart(c) == Some(3) && WrapCode(c) == ["a // }"] && !OpensBlock(c)
  {
    assert c[1..][1..][1..] == "// }" && c[3..] == "// }";
    assert CommentStart("// }") == Some(0);
    assert CommentStart(c[1..][1..]) == Some(1);
    assert CommentStart(c[1..]) == Some(2);
    assert CommentStart(c) == Some(3);
    assert c[..3] == "a  " && "a  "[..2] == "a " && "a "[..1] == "a";
    assert RStrip("a") == "a";
    assert RStrip("a ") == "a";
    ShortLine("a", "// }");
    assert "a" + " " + "// }" == "a // }";
  }

  lemma JoinThree(a: string, b: string, c: string)
    ensures JoinWith([a, b, c], "\n") == a + "\n" + (b + "\n" + c)
  {
    assert [a, b, c][1..] == [b, c] && [b, c][1..] == [c];
    assert JoinWith([b, c], "\n") == b + "\n" + c;
  }

  lemma ThreeLines(a: string, b: string, c: string)
    requires '\n' !in a && '\n' !in b && '\n' !in c
    ensures Split(a + "\n" + (b + "\n" + c)) == [a, b, c]
  {
    SplitFirst(b, c);
    assert Split(c) == [c];
    SplitFirst(a, b + "\n" + c);
  }

  lemma SplitFirst(a: string, t: string)
    requires '\n' !in a
    ensures Split(a + "\n" + t) == [a] + Split(t)
  {
    var s := a + "\n" + t;
    assert s[..|a|] == a && s[|a| + 1..] == t;
    FindIs(s, '\n', |a|);
  }

  lemma ThreeWrapped(a: string, b: string, c: string)
    requires OpensBlock(a) && '}' in b && !OpensBlock(c)
    ensures WrapLines([a, b, c], false) == [a, b] + WrapCode(c)
  {
    hide OpensBlock, WrapCode;
    assert [a, b, c][1..] == [b, c] && [b, c][1..] == [c] && [c][1..] == [];
    assert WrapLines([c], false) == WrapCode(c) + WrapLines([], false) == WrapCode(c);
    assert WrapLines([b, c], true) == [b] + WrapCode(c);
  }

  lemma TwoComments(c: string)
    requires c == "a  // }" || c == "a // }"
    ensures Lex("{" + "\n" + ("} {" + "\n" + c)) == Good([], ["{\n}", "{\n" + c])
  {
    var d := "{\n" + c;
    TwoCommentsApart(c);
    BraceIsNote("{\n}");
    BraceIsNote(d);
    hide *;
    BraceReads("{\n}", " " + d);
    BlankSigns();
    LexSkips(" ", d);
    BraceReads(d, []);
    BeforeAppends([], ["{\n}"], [], [d], Lex([]));
    NothingLexes(["{\n}"] + [d]);
  }

  lemma TwoCommentsApart(c: string)
    ensures "{" + "\n" + ("} {" + "\n" + c) == "{\n}" + (" " + ("{\n" + c)) && "{\n" + c + [] == "{\n" + c
  {
  }

  lemma NothingLexes(notes: seq<string>)
    ensures Before([], notes, Lex([])) == Good([], notes) && Before([] + [], notes, Lex([])) == Good([], notes)
  {
  }

  lemma {:induction false} FlatComment(s: string, k: nat)
    requires Find(s, '}') == Some(k) && '{' !in s[..k]
    ensures CommentEnd(s[..k + 1], 1) == Some(k + 1)
    decreases |s|
  {
    if k == 0 {
      assert CommentEnd(s[..1][1..], 0) == Some(0);
    } else {
      assert s[..k][1..] == s[1..][..k - 1] && s[0] == s[..k][0];
      FlatComment(s[1..], k - 1);
      assert s[..k + 1][1..] == s[1..][..k];
    }
  }

  lemma BraceIsNote(c: string)
    requires |c| >= 2 && c[0] == '{' && c[|c| - 1] == '}'
    requires forall i :: 1 <= i < |c| - 1 ==> c[i] != '{' && c[i] != '}'
    ensures BraceNote(c)
  {
    FindIs(c[1..], '}', |c| - 2);
    FlatComment(c[1..], |c| - 2);
    assert c[1..][..|c| - 1] == c[1..];
  }
}
