/** The text of a comment as it is printed at an indentation and read back. */
module CommentText {
  import opened Sequences
  import opened Lexer
  import opened LexerGaps
  import opened Layout
  import opened WrapTheorem
  import opened CommentLayout

  // ---- Comment text at an indentation -----------------------------------------------------------

  function More(lines: seq<string>, pad: string): string {
    if lines == [] then [] else "\n" + (pad + (lines[0] + More(lines[1..], pad)))
  }

  /** A comment as the lexer reads it off its lines. */
  function NoteText(lines: seq<string>, pad: string): string {
    if lines == [] then [] else lines[0] + More(lines[1..], pad)
  }

  /** The text of a comment once it is printed at an indentation: its later lines are indented. */
  function Shifted(text: string, pad: string): string {
    NoteText(Unpadded(Split(text), pad), pad)
  }

  lemma {:induction false} MoreLinesOut(lines: seq<string>, pad: string)
    ensures "\n" + Lines(Indented(lines, pad)) == More(lines, pad) + "\n"
  {
    if lines == [] {
    } else {
      MoreLinesOut(lines[1..], pad);
      assert Indented(lines, pad)[1..] == Indented(lines[1..], pad);
      assert "\n" + (pad + lines[0] + "\n" + Lines(Indented(lines[1..], pad)))
          == "\n" + (pad + (lines[0] + ("\n" + Lines(Indented(lines[1..], pad)))));
      assert "\n" + (pad + (lines[0] + (More(lines[1..], pad) + "\n")))
        == "\n" + (pad + (lines[0] + More(lines[1..], pad))) + "\n";
    }
  }

  lemma NoteOut(lines: seq<string>, pad: string)
    requires lines != []
    ensures Lines(Indented(lines, pad)) == pad + NoteText(lines, pad) + "\n"
  {
    MoreLinesOut(lines[1..], pad);
    assert Indented(lines, pad)[1..] == Indented(lines[1..], pad);
    assert pad + lines[0] + ("\n" + Lines(Indented(lines[1..], pad)))
      == pad + (lines[0] + More(lines[1..], pad)) + "\n";
  }

  // ---- Braces -----------------------------------------------------------------------------------

  predicate IsBrace(c: char) {
    c == '{' || c == '}'
  }

  function Braces(s: string): string {
    if s == [] then [] else (if IsBrace(s[0]) then [s[0]] else []) + Braces(s[1..])
  }

  predicate Braceless(s: string) {
    forall i :: 0 <= i < |s| ==> !IsBrace(s[i])
  }

  lemma {:induction false} BracesAppend(s: string, t: string)
    ensures Braces(s + t) == Braces(s) + Braces(t)
  {
    if s == [] {
      assert s + t == t;
    } else {
      assert (s + t)[1..] == s[1..] + t;
      BracesAppend(s[1..], t);
    }
  }

  lemma {:induction false} NoBraces(s: string)
    requires Braceless(s)
    ensures Braces(s) == []
  {
    if s != [] {
      NoBraces(s[1..]);
    }
  }

  function Deeper(c: char, depth: nat): nat
    requires depth > 0
  {
    if c == '{' then depth + 1 else if c == '}' then depth - 1 else depth
  }

  /** Where a comment ends depends on its braces alone. */
  lemma {:induction false} EndByBraces(s: string, depth: nat)
    requires depth > 0 && s != [] && s[|s| - 1] == '}'
    ensures CommentEnd(s, depth) == Some(|s|) <==> CommentEnd(Braces(s), depth) == Some(|Braces(s)|)
    decreases |s|
  {
    var d := Deeper(s[0], depth);
    var b := Braces(s[1..]);
    EndStep(s, depth);
    assert Braces(s) == if IsBrace(s[0]) then [s[0]] + b else [] + b;
    if IsBrace(s[0]) {
      assert Braces(s)[0] == s[0] && Braces(s)[1..] == b;
      EndStep(Braces(s), depth);
    } else {
      assert Braces(s) == b && d == depth;
    }
    EndOfNone(d);
    if |s| == 1 {
      assert s[1..] == [] && Braces([]) == [];
    } else {
      assert s[1..][|s| - 2] == '}';
      if d > 0 {
        hide CommentEnd, Braces, Deeper;
        EndByBraces(s[1..], d);
      } else {
        EndBrace(s[1..]);
      }
    }
  }

  lemma EndStep(s: string, depth: nat)
    requires depth > 0 && s != []
    ensures CommentEnd(s, depth) == Some(|s|) <==> CommentEnd(s[1..], Deeper(s[0], depth)) == Some(|s| - 1)
  {
  }

  lemma EndOfNone(depth: nat)
    ensures CommentEnd([], depth) == if depth == 0 then Some(0) else None
    ensures forall s: string :: CommentEnd(s, 0) == Some(0)
  {
  }

  lemma {:induction false} EndBrace(s: string)
    requires s != [] && s[|s| - 1] == '}'
    ensures Braces(s) != []
  {
    if |s| > 1 {
      EndBrace(s[1..]);
    }
  }

  lemma {:induction false} EndIsBrace(s: string, depth: nat)
    requires depth > 0 && CommentEnd(s, depth) == Some(|s|)
    ensures s != [] && s[|s| - 1] == '}'
    decreases |s|
  {
    if Deeper(s[0], depth) > 0 {
      EndIsBrace(s[1..], Deeper(s[0], depth));
    }
  }

  /** Text with the braces of a brace comment, between braces, is a brace comment. */
  lemma SameBraces(t: string, u: string)
    requires BraceNote(t) && u != [] && u[0] == '{' && u[|u| - 1] == '}' && Braces(u) == Braces(t)
    ensures BraceNote(u)
  {
    EndIsBrace(t[1..], 1);
    assert Braces(t)[1..] == Braces(t[1..]) && Braces(u)[1..] == Braces(u[1..]);
    assert u[1..] != [] && u[1..][|u[1..]| - 1] == '}';
    EndByBraces(t[1..], 1);
    EndByBraces(u[1..], 1);
  }

  lemma {:induction false} MoreBraces(lines: seq<string>, pad: string)
    requires AllTabs(pad)
    ensures Braces(More(Unpadded(lines, pad), pad)) == Braces(More(lines, []))
  {
    if lines != [] {
      var l, rest := Content(lines[0], pad), Unpadded(lines[1..], pad);
      MoreBraces(lines[1..], pad);
      ContentBraces(lines[0], pad);
      assert [] + (lines[0] + More(lines[1..], [])) == lines[0] + More(lines[1..], []);
      BracesAppend("\n", pad + (l + More(rest, pad)));
      BracesAppend(pad, l + More(rest, pad));
      BracesAppend(l, More(rest, pad));
      BracesAppend("\n", lines[0] + More(lines[1..], []));
      BracesAppend(lines[0], More(lines[1..], []));
      NoBraces(pad);
      NoBraces("\n");
      hide Braces, Content;
    }
  }

  lemma ContentBraces(line: string, pad: string)
    requires AllTabs(pad)
    ensures Braces(Content(line, pad)) == Braces(line)
  {
    if pad <= line {
      assert pad + line[|pad|..] == line;
      BracesAppend(pad, line[|pad|..]);
      NoBraces(pad);
    }
  }

  lemma {:induction false} JoinIsMore(lines: seq<string>)
    requires lines != []
    ensures JoinWith(lines, "\n") == NoteText(lines, [])
  {
    if |lines| > 1 {
      JoinIsMore(lines[1..]);
    } else {
      assert More(lines[1..], []) == [];
    }
  }

  lemma SplitText(text: string)
    ensures text == NoteText(Split(text), [])
  {
    JoinIsMore(Split(text));
  }

  predicate EndsBrace(s: string) {
    s != [] && s[|s| - 1] == '}'
  }

  /** The last line of a text decides how the text ends. */
  lemma {:induction false} MoreEnds(lines: seq<string>, pad: string)
    requires lines != [] && AllTabs(pad)
    ensures EndsBrace(More(lines, pad)) == EndsBrace(lines[|lines| - 1])
  {
    if |lines| > 1 {
      MoreEnds(lines[1..], pad);
      assert More(lines[1..], pad) != [];
    } else {
      assert More(lines[1..], pad) == [];
    }
  }

  lemma NoteEnds(lines: seq<string>, pad: string)
    requires lines != [] && AllTabs(pad)
    ensures EndsBrace(NoteText(lines, pad)) == EndsBrace(lines[|lines| - 1])
  {
    if |lines| > 1 {
      MoreEnds(lines[1..], pad);
      assert More(lines[1..], pad) != [];
    }
  }

  lemma {:induction false} LastContent(lines: seq<string>, pad: string)
    requires lines != [] && AllTabs(pad)
    ensures EndsBrace(Unpadded(lines, pad)[|lines| - 1]) == EndsBrace(lines[|lines| - 1])
  {
    if |lines| > 1 {
      LastContent(lines[1..], pad);
    } else {
      var line := lines[0];
      if pad <= line && EndsBrace(line) {
        assert line == pad + line[|pad|..];
        assert forall i :: 0 <= i < |pad| ==> line[i] == '\t';
      }
    }
  }

  /** An indented comment is a comment. */
  lemma ShiftedIsNote(text: string, pad: string)
    requires IsNote(text) && AllTabs(pad)
    ensures IsNote(Shifted(text, pad))
    ensures RunNote(text) ==> Shifted(text, pad) == text
    ensures BraceNote(text) ==> BraceNote(Shifted(text, pad))
  {
    if RunNote(text) {
      RunStays(text, pad);
    } else {
      BraceStays(text, pad);
    }
  }

  lemma FirstStays(text: string, pad: string)
    requires text != [] && text[0] != '\t' && AllTabs(pad)
    ensures Content(Split(text)[0], pad) == Split(text)[0]
  {
  }

  lemma RunStays(text: string, pad: string)
    requires RunNote(text) && AllTabs(pad)
    ensures Shifted(text, pad) == text
  {
    FirstStays(text, pad);
    assert Split(text) == [text];
    assert Unpadded([text], pad)[1..] == [] && text + [] == text;
    hide Content;
  }

  lemma BraceStays(text: string, pad: string)
    requires BraceNote(text) && AllTabs(pad)
    ensures BraceNote(Shifted(text, pad))
  {
    var lines := Split(text);
    FirstStays(text, pad);
    SplitText(text);
    EndIsBrace(text[1..], 1);
    FirstLineBrace(text);
    assert EndsBrace(text);
    var out := Unpadded(lines, pad);
    assert out[0] == lines[0] && out[1..] == Unpadded(lines[1..], pad);
    hide Content, Split, BraceNote, Unpadded;
    MoreBraces(lines[1..], pad);
    BracesAppend(lines[0], More(lines[1..], []));
    BracesAppend(lines[0], More(out[1..], pad));
    NoteEnds(lines, []);
    NoteEnds(out, pad);
    LastContent(lines, pad);
    SameBraces(text, NoteText(out, pad));
  }

  lemma FirstLineBrace(text: string)
    requires text != [] && text[0] == '{'
    ensures Split(text)[0] != [] && Split(text)[0][0] == '{'
  {
  }
}
