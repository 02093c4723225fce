/** The long-line wrapper: a line is broken at spaces between atoms, an atom being a run of
    other characters or a whole string literal; comment text is never touched. */
module Layout {
  import opened Sequences
  import opened Lexer

  const WRAP_WIDTH: nat := 100

  /** The atoms of `s`, `cur` being the one under way. */
  function AtomsFrom(cur: string, s: string): seq<string>
    decreases |s|
  {
    if s == [] then if cur == [] then [] else [cur]
    else if s[0] == '"' then
      var j := Find(s[1..], '"');
      if j.Some? then AtomsFrom(cur + s[..j.value + 2], s[j.value + 2..]) else AtomsFrom(cur + s, [])
    else if s[0] == ' ' then (if cur == [] then [] else [cur]) + AtomsFrom([], s[1..])
    else AtomsFrom(cur + [s[0]], s[1..])
  }

  function Atoms(s: string): seq<string> {
    AtomsFrom([], s)
  }

  /** Where a comment begins on a line, string literals skipped. */
  function CommentStart(s: string): (r: Option<nat>)
    ensures r.Some? ==> r.value < |s|
    decreases |s|
  {
    if s == [] then None
    else if s[0] == '"' then
      var j := Find(s[1..], '"');
      if j.None? then None
      else
        var r := CommentStart(s[j.value + 2..]);
        if r.Some? then Some(j.value + 2 + r.value) else None
    else if s[0] == '{' || LineComment(s) then Some(0)
    else
      var r := CommentStart(s[1..]);
      if r.Some? then Some(1 + r.value) else None
  }

  /** A comment begins there. */
  lemma {:induction false} CommentStartIs(s: string)
    requires CommentStart(s).Some?
    ensures var r := CommentStart(s).value;
            s[r] == '{' || LineComment(s[r..])
    decreases |s|
  {
    var r := CommentStart(s).value;
    if s[0] == '"' {
      var n := Find(s[1..], '"').value + 2;
      CommentStartIs(s[n..]);
      assert s[n..][r - n..] == s[r..];
    } else if s[0] == '{' || LineComment(s) {
      assert s[0..] == s;
    } else {
      CommentStartIs(s[1..]);
      assert s[1..][r - 1..] == s[r..];
    }
  }

  /** `sep` between the parts. */
  function JoinWith(parts: seq<string>, sep: string): string {
    if parts == [] then [] else if |parts| == 1 then parts[0] else parts[0] + sep + JoinWith(parts[1..], sep)
  }

  function Tabs(line: string): (n: nat)
    ensures n <= |line|
  {
    if line != [] && line[0] == '\t' then 1 + Tabs(line[1..]) else 0
  }

  /** Segments filled greedily: `cur` is the segment under way, `len` its length with `indent`. */
  function Fill(cur: seq<string>, indent: string, len: nat, cont: string, atoms: seq<string>, width: nat)
    : (r: seq<string>)
    ensures cur != [] || atoms != [] ==> r != []
    decreases |atoms|
  {
    if atoms == [] then if cur == [] then [] else [indent + JoinWith(cur, " ")]
    else
      var a := atoms[0];
      var extra := |a| + if cur != [] then 1 else 0;
      if cur != [] && len + extra > width then
        [indent + JoinWith(cur, " ")] + Fill([a], cont, |cont| + |a|, cont, atoms[1..], width)
      else Fill(cur + [a], indent, len + extra, cont, atoms[1..], width)
  }

  function WrapLine(line: string, width: nat): (r: seq<string>)
    ensures r != []
  {
    var indent, atoms := line[..Tabs(line)], Atoms(line[Tabs(line)..]);
    if |line| <= width || |atoms| <= 1 then [line] else Fill([], indent, |indent|, indent + "\t", atoms, width)
  }

  /** What Python's `rstrip` removes. */
  predicate PySpace(c: char) {
    var n := c as int;
    9 <= n <= 13 || 28 <= n <= 32 || n == 0x85 || n == 0xA0 || n == 0x1680 || 0x2000 <= n <= 0x200A
    || n == 0x2028 || n == 0x2029 || n == 0x202F || n == 0x205F || n == 0x3000
  }

  function RStrip(s: string): (r: string)
    ensures |r| <= |s| && s[..|r|] == r
    ensures forall i :: |r| <= i < |s| ==> PySpace(s[i])
  {
    if s != [] && PySpace(s[|s| - 1]) then RStrip(s[..|s| - 1]) else s
  }

  /** A code line with a comment after it: only the code is wrapped, and the comment follows
      its last segment. */
  function WrapBefore(code: string, comment: string): seq<string> {
    var w := WrapLine(code, WRAP_WIDTH);
    w[..|w| - 1] + [w[|w| - 1] + " " + comment]
  }

  /** A line outside brace comments: a comment on it stays whole. */
  function WrapCode(line: string): (r: seq<string>)
    ensures r != []
  {
    var cs := CommentStart(line);
    if cs.None? then WrapLine(line, WRAP_WIDTH)
    else if RStrip(line[..cs.value]) == [] then [line]
    else WrapBefore(RStrip(line[..cs.value]), line[cs.value..])
  }

  /** The line opens a brace comment that it does not close. */
  predicate OpensBlock(line: string) {
    var cs := CommentStart(line);
    cs.Some? && line[cs.value] == '{' && '}' !in line[cs.value..]
  }

  /** Every line wrapped; `brace` says a brace comment is open. */
  function WrapLines(lines: seq<string>, brace: bool): (r: seq<string>)
    ensures lines != [] ==> r != []
    decreases |lines|
  {
    if lines == [] then []
    else if brace then [lines[0]] + WrapLines(lines[1..], '}' !in lines[0])
    else if OpensBlock(lines[0]) then [lines[0]] + WrapLines(lines[1..], true)
    else WrapCode(lines[0]) + WrapLines(lines[1..], false)
  }

  /** The lines of a text, and back. */
  function Split(text: string): (lines: seq<string>)
    ensures lines != [] && JoinWith(lines, "\n") == text
    ensures forall l :: l in lines ==> '\n' !in l
    decreases |text|
  {
    var k := Find(text, '\n');
    if k.None? then [text]
    else
      var rest := Split(text[k.value + 1..]);
      assert text == text[..k.value] + "\n" + text[k.value + 1..];
      assert ([text[..k.value]] + rest)[1..] == rest;
      [text[..k.value]] + rest
  }

  function WrapAll(text: string): string {
    JoinWith(WrapLines(Split(text), false), "\n")
  }

  // ---- Width ------------------------------------------------------------------------------

  lemma {:induction false} JoinLength(parts: seq<string>, a: string, sep: string)
    ensures |JoinWith(parts + [a], sep)| == |JoinWith(parts, sep)| + (if parts == [] then 0 else |sep|) + |a|
  {
    if parts != [] {
      assert (parts + [a])[1..] == parts[1..] + [a];
      JoinLength(parts[1..], a, sep);
    }
  }

  predicate AllTabs(s: string) {
    forall i :: 0 <= i < |s| ==> s[i] == '\t'
  }

  /** A segment fits the width or holds, after its tabs, one atom alone. */
  ghost predicate FitsOrAlone(seg: string, atoms: seq<string>, width: nat) {
    |seg| <= width || exists indent, a :: AllTabs(indent) && a in atoms && seg == indent + a
  }

  lemma {:induction false} TabsAreTabs(line: string)
    ensures AllTabs(line[..Tabs(line)])
  {
    if line != [] && line[0] == '\t' {
      TabsAreTabs(line[1..]);
      assert forall i :: 1 <= i < Tabs(line) ==> line[i] == line[1..][..Tabs(line) - 1][i - 1];
    }
  }

  lemma {:induction false} FillFits(cur: seq<string>, indent: string, len: nat, cont: string, atoms: seq<string>,
                                    width: nat, all: seq<string>)
    requires cur != [] ==> len == |indent| + |JoinWith(cur, " ")|
    requires cur == [] ==> len == |indent|
    requires (|cur| <= 1 || len <= width) && AllTabs(indent) && AllTabs(cont)
    requires (forall a :: a in cur ==> a in all) && (forall a :: a in atoms ==> a in all)
    ensures forall seg :: seg in Fill(cur, indent, len, cont, atoms, width) ==> FitsOrAlone(seg, all, width)
    decreases |atoms|
  {
    var seg := indent + JoinWith(cur, " ");
    assert cur != [] ==> FitsOrAlone(seg, all, width) by {
      if |cur| == 1 {
        assert AllTabs(indent) && cur[0] in all && seg == indent + cur[0];
      }
    }
    if atoms != [] {
      var a := atoms[0];
      var extra := |a| + if cur != [] then 1 else 0;
      assert atoms[0] in all;
      if cur != [] && len + extra > width {
        FillFits([a], cont, |cont| + |a|, cont, atoms[1..], width, all);
      } else {
        JoinLength(cur, a, " ");
        FillFits(cur + [a], indent, len + extra, cont, atoms[1..], width, all);
      }
    }
  }

  /** Every segment of a wrapped line fits the width or is a single atom; a line is left whole
      only when it fits or has no break. */
  lemma WrapLineFits(line: string, width: nat)
    ensures forall seg :: seg in WrapLine(line, width) ==>
              || FitsOrAlone(seg, Atoms(line[Tabs(line)..]), width)
              || (seg == line && |Atoms(line[Tabs(line)..])| <= 1)
  {
    var indent, atoms := line[..Tabs(line)], Atoms(line[Tabs(line)..]);
    if |line| > width && |atoms| > 1 {
      TabsAreTabs(line);
      FillFits([], indent, |indent|, indent + "\t", atoms, width, atoms);
    }
  }

  /** A line of code without comments is left alone up to a hundred characters, and brought down to that
      where it can be broken. */
  lemma CodeFitsAHundred(line: string)
    requires CommentStart(line).None?
    ensures |line| <= 100 ==> WrapCode(line) == [line]
    ensures |Atoms(line[Tabs(line)..])| > 1 ==>
              forall seg :: seg in WrapCode(line) ==> FitsOrAlone(seg, Atoms(line[Tabs(line)..]), 100)
  {
    hide FitsOrAlone, Fill, Atoms, Tabs;
    WrapLineFits(line, WRAP_WIDTH);
  }

  function Flatten(groups: seq<seq<string>>): seq<string> {
    if groups == [] then [] else groups[0] + Flatten(groups[1..])
  }

  /** The segments `r` hold the groups of atoms in order, each filled until the next atom would not fit. */
  ghost predicate Filled(r: seq<string>, groups: seq<seq<string>>, indent: string, cont: string, width: nat) {
    && |r| == |groups|
    && (forall i :: 0 <= i < |r| ==>
          groups[i] != [] && r[i] == (if i == 0 then indent else cont) + JoinWith(groups[i], " "))
    && (forall i :: 0 < i < |r| ==> |r[i - 1]| + 1 + |groups[i][0]| > width)
  }

  lemma FilledFirst(r: seq<string>, groups: seq<seq<string>>, indent: string, cont: string, width: nat,
                    first: seq<string>)
    requires Filled(r, groups, cont, cont, width) && r != [] && first != []
    requires |indent + JoinWith(first, " ")| + 1 + |groups[0][0]| > width
    ensures Filled([indent + JoinWith(first, " ")] + r, [first] + groups, indent, cont, width)
    ensures Flatten([first] + groups) == first + Flatten(groups)
  {
    hide JoinWith;
    assert ([first] + groups)[1..] == groups;
  }

  lemma {:induction false} FillIsGreedy(cur: seq<string>, indent: string, len: nat, cont: string, atoms: seq<string>,
                                        width: nat) returns (groups: seq<seq<string>>)
    requires cur != [] ==> len == |indent| + |JoinWith(cur, " ")|
    requires cur == [] ==> len == |indent|
    ensures Flatten(groups) == cur + atoms
    ensures Filled(Fill(cur, indent, len, cont, atoms, width), groups, indent, cont, width)
    ensures cur != [] ==> groups != [] && cur <= groups[0]
    ensures cur == [] && atoms != [] ==> groups != [] && [atoms[0]] <= groups[0]
    decreases |atoms|
  {
    if atoms == [] {
      groups := if cur == [] then [] else [cur];
      assert Flatten([cur]) == cur + Flatten([]) by { assert [cur][1..] == []; }
    } else {
      var a := atoms[0];
      var extra := |a| + if cur != [] then 1 else 0;
      if cur != [] && len + extra > width {
        var rest := FillIsGreedy([a], cont, |cont| + |a|, cont, atoms[1..], width);
        FilledFirst(Fill([a], cont, |cont| + |a|, cont, atoms[1..], width), rest, indent, cont, width, cur);
        groups := [cur] + rest;
        assert [a] + atoms[1..] == atoms;
      } else {
        JoinLength(cur, a, " ");
        groups := FillIsGreedy(cur + [a], indent, len + extra, cont, atoms[1..], width);
        assert cur + [a] + atoms[1..] == cur + atoms;
      }
    }
  }

  /** A line that is broken keeps its atoms and their order; every segment but the last is as long as it
      can be, and the later ones are one tab deeper. */
  lemma WrapLineIsGreedy(line: string, width: nat)
    ensures var indent, atoms := line[..Tabs(line)], Atoms(line[Tabs(line)..]);
            if |line| <= width || |atoms| <= 1 then WrapLine(line, width) == [line]
            else exists groups :: Flatten(groups) == atoms
                                  && Filled(WrapLine(line, width), groups, indent, indent + "\t", width)
  {
    var indent, atoms := line[..Tabs(line)], Atoms(line[Tabs(line)..]);
    if |line| > width && |atoms| > 1 {
      hide Fill, Filled, Flatten, Atoms, Tabs;
      var groups := FillIsGreedy([], indent, |indent|, indent + "\t", atoms, width);
      assert [] + atoms == atoms;
    }
  }

  // ---- The loops ----------------------------------------------------------------------------

  lemma {:induction false} FindIs(s: string, c: char, k: nat)
    requires k < |s| && s[k] == c && c !in s[..k]
    ensures Find(s, c) == Some(k)
  {
    if k > 0 {
      assert s[0] == s[..k][0];
      assert s[..k][1..] == s[1..][..k - 1];
      FindIs(s[1..], c, k - 1);
    }
  }

  /** Just past the literal that opens at `i`, or the end of `s` when it is not closed. */
  method SkipLiteral(s: string, i: nat) returns (j: nat)
    requires i < |s|
    ensures match Find(s[i + 1..], '"')
            case Some(k) => j == i + k + 2 <= |s|
            case None => j == |s|
  {
    j := i + 1;
    while j < |s| && s[j] != '"'
      invariant i < j <= |s| && '"' !in s[i + 1..j]
    {
      j := j + 1;
    }
    if j < |s| {
      assert s[i + 1..][..j - i - 1] == s[i + 1..j];
      FindIs(s[i + 1..], '"', j - i - 1);
      j := j + 1;
    } else {
      assert s[i + 1..] == s[i + 1..j];
    }
  }

  method SplitAtoms(s: string) returns (atoms: seq<string>)
    ensures atoms == Atoms(s)
  {
    atoms := [];
    var cur: string := [];
    var i := 0;
    assert s[0..] == s;
    assert AtomsFrom(cur, s[|s|..]) == [];
    hide AtomsFrom;
    while i < |s|
      invariant 0 <= i <= |s|
      invariant AtomsFrom([], s) == atoms + AtomsFrom(cur, s[i..])
      decreases |s| - i
    {
      AtomsTurn(cur, s, i);
      if s[i] == '"' {
        var j := SkipLiteral(s, i);
        cur := cur + s[i..j];
        i := j;
      } else if s[i] == ' ' {
        Appended(atoms, cur, AtomsFrom([], s[i + 1..]));
        if cur != [] {
          atoms := atoms + [cur];
          cur := [];
        }
        i := i + 1;
      } else {
        cur := cur + [s[i]];
        i := i + 1;
      }
    }
    AtomsEnd(cur, s[i..]);
    if cur != [] {
      atoms := atoms + [cur];
    }
  }

  lemma Appended(atoms: seq<string>, cur: string, more: seq<string>)
    ensures atoms + ((if cur == [] then [] else [cur]) + more) == (if cur == [] then atoms else atoms + [cur]) + more
  {
  }

  lemma AtomsEnd(cur: string, s: string)
    requires s == []
    ensures AtomsFrom(cur, s) == if cur == [] then [] else [cur]
  {
  }

  /** What one turn of the loop does at `i`. */
  lemma AtomsTurn(cur: string, s: string, i: nat)
    requires i < |s|
    ensures AtomsFrom(cur, s[i..])
            == (if s[i] == '"' then
                  var j := Find(s[i + 1..], '"');
                  var end := if j.Some? then i + j.value + 2 else |s|;
                  AtomsFrom(cur + s[i..end], s[end..])
                else if s[i] == ' ' then (if cur == [] then [] else [cur]) + AtomsFrom([], s[i + 1..])
                else AtomsFrom(cur + [s[i]], s[i + 1..]))
  {
    var t := s[i..];
    assert t[1..] == s[i + 1..];
    if s[i] == '"' {
      var j := Find(s[i + 1..], '"');
      var end := if j.Some? then i + j.value + 2 else |s|;
      assert t[..end - i] == s[i..end] && t[end - i..] == s[end..];
      assert j.None? ==> t == s[i..end];
    }
  }

  method FindCommentStart(line: string) returns (r: Option<nat>)
    ensures r == CommentStart(line)
  {
    var i := 0;
    FromStart(line);
    hide CommentStart, StartAfter, LineComment, Find;
    while i < |line|
      invariant 0 <= i <= |line|
      invariant CommentStart(line) == StartAfter(line, i)
      decreases |line| - i
    {
      CommentTurn(line, i);
      if line[i] == '"' {
        i := SkipLiteral(line, i);
      } else if line[i] == '{' || (i + 1 < |line| && line[i] == '/' && line[i + 1] == '/') {
        return Some(i);
      } else {
        i := i + 1;
      }
    }
    return None;
  }

  /** The first comment of `s` at or after `i`, which is not inside a literal. */
  function StartAfter(s: string, i: nat): Option<nat>
    requires i <= |s|
  {
    var r := CommentStart(s[i..]);
    if r.Some? then Some(i + r.value) else None
  }

  lemma FromStart(s: string)
    ensures StartAfter(s, 0) == CommentStart(s) && StartAfter(s, |s|) == None
  {
    assert s[0..] == s;
  }

  lemma CommentTurn(s: string, i: nat)
    requires i < |s|
    ensures StartAfter(s, i)
            == (if s[i] == '"' then
                  var j := Find(s[i + 1..], '"');
                  StartAfter(s, if j.Some? then i + j.value + 2 else |s|)
                else if s[i] == '{' || (i + 1 < |s| && s[i] == '/' && s[i + 1] == '/') then Some(i)
                else StartAfter(s, i + 1))
  {
    var t := s[i..];
    assert t[1..] == s[i + 1..];
    assert LineComment(t) == (i + 1 < |s| && s[i] == '/' && s[i + 1] == '/');
    FromStart(s);
    hide LineComment;
    if s[i] == '"' && Find(s[i + 1..], '"').Some? {
      var n := Find(s[i + 1..], '"').value + 2;
      assert t[n..] == s[i + n..];
    }
  }

  /** Breaks one line into segments no wider than `width` where a break is possible. */
  method WrapOneLine(line: string, width: nat) returns (out: seq<string>)
    ensures out == WrapLine(line, width)
  {
    if |line| <= width {
      return [line];
    }
    var indent := line[..Tabs(line)];
    var atoms := SplitAtoms(line[Tabs(line)..]);
    if |atoms| <= 1 {
      return [line];
    }
    var cont := indent + "\t";
    out := [];
    var cur: seq<string> := [];
    var curIndent, curLen: nat := indent, |indent|;
    var i := 0;
    while i < |atoms|
      invariant 0 <= i <= |atoms| && (i > 0 ==> cur != [])
      invariant out + Fill(cur, curIndent, curLen, cont, atoms[i..], width)
                == Fill([], indent, |indent|, cont, atoms, width)
    {
      var a := atoms[i];
      assert atoms[i..][0] == a && atoms[i..][1..] == atoms[i + 1..];
      var extra := |a| + if cur != [] then 1 else 0;
      if cur != [] && curLen + extra > width {
        out := out + [curIndent + JoinWith(cur, " ")];
        cur, curIndent, curLen := [a], cont, |cont| + |a|;
      } else {
        cur := cur + [a];
        curLen := curLen + extra;
      }
      i := i + 1;
    }
    if cur != [] {
      out := out + [curIndent + JoinWith(cur, " ")];
    }
  }

  /** One line outside brace comments, its comment put back after the wrapped code. */
  method WrapCodeLine(line: string, cs: Option<nat>) returns (out: seq<string>)
    requires cs == CommentStart(line)
    ensures out == WrapCode(line)
  {
    hide CommentStart, RStrip, WrapLine;
    if cs.None? {
      out := WrapOneLine(line, WRAP_WIDTH);
      return;
    }
    var code, comment := RStrip(line[..cs.value]), line[cs.value..];
    if code == [] {
      return [line];
    }
    out := WrapOneLine(code, WRAP_WIDTH);
    var last := |out| - 1;
    out := out[last := out[last] + " " + comment];
    assert out == WrapBefore(code, comment);
  }

  /** Every physical line of the emitted program. */
  method WrapEveryLine(text: string) returns (wrapped: string)
    ensures wrapped == WrapAll(text)
  {
    var lines := Split(text);
    var out: seq<string>, inBrace := [], false;
    var i := 0;
    NoLines(lines[|lines|..]);
    while i < |lines|
      invariant 0 <= i <= |lines|
      invariant out + WrapLines(lines[i..], inBrace) == WrapLines(lines, false)
    {
      hide WrapCode, CommentStart, Split, WrapLines, JoinWith;
      var line := lines[i];
      WrapTurn(lines, i, inBrace);
      ghost var done := out;
      assert forall a: seq<string>, b: seq<string> :: done + (a + b) == done + a + b;
      if inBrace {
        out := out + [line];
        inBrace := '}' !in line;
      } else {
        var cs := FindCommentStart(line);
        if cs.Some? && line[cs.value] == '{' && '}' !in line[cs.value..] {
          out := out + [line];
          inBrace := true;
        } else {
          var segments := WrapCodeLine(line, cs);
          out := out + segments;
        }
      }
      i := i + 1;
      assert out + WrapLines(lines[i..], inBrace) == WrapLines(lines, false);
    }
    assert lines[i..] == [] && out + [] == out;
    assert out == WrapLines(lines, false);
    wrapped := JoinWith(out, "\n");
  }

  lemma NoLines(lines: seq<string>)
    requires lines == []
    ensures WrapLines(lines, false) == [] && WrapLines(lines, true) == []
  {
  }

  lemma WrapTurn(lines: seq<string>, i: nat, brace: bool)
    requires i < |lines|
    ensures WrapLines(lines[i..], brace)
            == (if brace then [lines[i]] + WrapLines(lines[i + 1..], '}' !in lines[i])
                else if OpensBlock(lines[i]) then [lines[i]] + WrapLines(lines[i + 1..], true)
                else WrapCode(lines[i]) + WrapLines(lines[i + 1..], false))
  {
    assert lines[i..][0] == lines[i] && lines[i..][1..] == lines[i + 1..];
  }
}
