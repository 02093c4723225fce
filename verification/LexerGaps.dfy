/** Which whitespace the lexer cannot see: any blank text after code that is not inside a
    string or a comment may be any other blank text. */
module LexerGaps {
  import opened Sequences
  import opened Lexer

  ghost predicate AllBlank(g: string) {
    forall i :: 0 <= i < |g| ==> Blank(g[i])
  }

  /** Every string and comment opened in `s` is closed in `s` (a `//` run by a newline). */
  predicate Closed(s: string)
    decreases |s|
  {
    if s == [] then true
    else if s[0] == '{' then
      var j := CommentEnd(s[1..], 1);
      j.Some? && Closed(s[1 + j.value..])
    else if LineComment(s) then
      var k := Find(s, '\n');
      k.Some? && Closed(s[k.value..])
    else if s[0] == '"' then
      var j := StringEnd(s[1..]);
      j.Some? && Closed(s[2 + j.value..])
    else Closed(s[1..])
  }

  lemma DropAppend(x: string, y: string, n: nat)
    requires n <= |x|
    ensures (x + y)[n..] == x[n..] + y && (x + y)[..n] == x[..n]
  {
  }

  // ---- Reading ahead stops at a gap ------------------------------------------------------

  lemma {:induction false} RunStops(s: string, k: Class, t: string)
    requires Run(s, k) < |s| || t == [] || !In(k, t[0])
    ensures Run(s + t, k) == Run(s, k)
  {
    if s == [] {
      assert s + t == t;
    } else {
      assert (s + t)[1..] == s[1..] + t;
      if In(k, s[0]) {
        RunStops(s[1..], k, t);
      }
    }
  }

  lemma {:induction false} RunPasses(s: string, k: Class, t: string)
    requires Run(s, k) == |s|
    ensures Run(s + t, k) == |s| + Run(t, k)
  {
    if s == [] {
      assert s + t == t;
    } else {
      assert (s + t)[1..] == s[1..] + t;
      RunPasses(s[1..], k, t);
    }
  }

  lemma {:induction false} BlankRun(g: string)
    requires AllBlank(g)
    ensures Run(g, Blanks) == |g|
  {
    if g != [] {
      BlankRun(g[1..]);
    }
  }

  lemma {:induction false} CommentEndKept(s: string, depth: nat, t: string)
    requires CommentEnd(s, depth).Some?
    ensures CommentEnd(s + t, depth) == CommentEnd(s, depth)
    decreases |s|
  {
    if depth > 0 {
      assert (s + t)[1..] == s[1..] + t;
      CommentEndKept(s[1..], if s[0] == '{' then depth + 1 else if s[0] == '}' then depth - 1 else depth, t);
    }
  }

  lemma {:induction false} FindKept(s: string, c: char, t: string)
    requires Find(s, c).Some?
    ensures Find(s + t, c) == Find(s, c)
  {
    if s[0] != c {
      assert (s + t)[1..] == s[1..] + t;
      FindKept(s[1..], c, t);
    }
  }

  lemma {:induction false} StringEndKept(s: string, t: string)
    requires StringEnd(s).Some?
    ensures StringEnd(s + t) == StringEnd(s)
  {
    if s[0] != '"' {
      assert (s + t)[1..] == s[1..] + t;
      StringEndKept(s[1..], t);
    }
  }

  /** A character the lexer has no use for outside strings and comments. */
  predicate Unknown(c: char) {
    !Blank(c) && !WordStart(c) && !WordPart(c) && c !in SINGLES && c != '{' && c != '"'
  }

  /** A sign that is always a token of its own. */
  predicate Alone(c: char) {
    c == '(' || c == ')' || c == '[' || c == ']' || c == ',' || c == ';' || c == '-'
  }

  /** A character no word, number or operator continues with. */
  predicate Stops(c: char) {
    Blank(c) || c == '"' || c == '{' || c == '/' || Unknown(c) || Alone(c)
  }

  /** No `//` forms where `x` meets `t`. */
  predicate Seam(x: string, t: string) {
    x == [] || t == [] || x[|x| - 1] != '/' || t[0] != '/'
  }

  predicate EndsBlank(x: string) {
    x != [] && Blank(x[|x| - 1])
  }

  predicate EndsAlone(x: string) {
    x != [] && Alone(x[|x| - 1])
  }

  /** What `x` opens ends in `x` when `t` follows: `x` ends blank or with a sign of its own, or `t`
      starts with a stop. */
  predicate Bounded(x: string, t: string) {
    (EndsBlank(x) || EndsAlone(x) || (t != [] && Stops(t[0]))) && Seam(x, t)
  }

  lemma AloneIsSingle(x: string)
    requires x != [] && Alone(x[0])
    ensures Munch(x) == 1 && SecondWord(x).None?
  {
    assert x[0] in SINGLES;
    assert |x| >= 2 ==> x[..2][0] == x[0] && x[..2] !in PAIRS;
    assert Run(x, Blanks) == 0;
  }

  lemma NumberStops(s: string, t: string)
    requires s != [] && IsDigit(s[0]) && t != [] && Stops(t[0])
    ensures NumberLength(s + t) == NumberLength(s)
  {
    RunStops(s, Digits, t);
    var d := Run(s, Digits);
    if d + 1 < |s| {
      assert (s + t)[d + 1..] == s[d + 1..] + t;
      RunStops(s[d + 1..], Digits, t);
    }
  }

  lemma MunchStops(s: string, t: string)
    requires s != [] && t != [] && Stops(t[0])
    ensures Munch(s + t) == Munch(s)
  {
    if IsDigit(s[0]) {
      NumberStops(s, t);
    } else if WordStart(s[0]) {
      assert (s + t)[1..] == s[1..] + t;
      RunStops(s[1..], Words, t);
    } else if |s| >= 2 {
      assert (s + t)[..2] == s[..2];
    } else {
      assert (s + t)[..2][1] == t[0];
    }
  }

  lemma MunchBounded(x: string, t: string)
    requires x != [] && !Blank(x[0]) && Bounded(x, t)
    ensures Munch(x + t) == Munch(x)
  {
    var p, b := x[..|x| - 1], x[|x| - 1..];
    assert p + b == x && x + t == p + (b + t);
    hide Munch;
    if !EndsBlank(x) && !EndsAlone(x) {
      MunchStops(x, t);
    } else if p == [] {
      AloneIsSingle(x);
      AloneIsSingle(x + t);
    } else {
      MunchStops(p, b + t);
      MunchStops(p, b);
    }
  }

  lemma SliceKept(s: string, t: string, i: nat, j: nat)
    requires i <= j <= |s|
    ensures (s + t)[i..j] == s[i..j]
  {
  }

  lemma ShorterRun(p: string, b: string)
    requires |b| == 1 && Blank(b[0]) && Run(p + b, Blanks) < |p + b|
    ensures Run(p, Blanks) < |p|
  {
    assert Run(b, Blanks) == 1;
    if Run(p, Blanks) == |p| {
      RunPasses(p, Blanks, b);
      assert false;
    }
  }

  lemma SecondWordBounded(y: string, t: string)
    requires Run(y, Blanks) < |y| && Bounded(y, t)
    ensures SecondWord(y + t) == SecondWord(y)
  {
    hide SecondWord, Run, Seam, Alone;
    if EndsBlank(y) || EndsAlone(y) {
      var p, b := y[..|y| - 1], y[|y| - 1..];
      assert p + b == y && y + t == p + (b + t);
      if Run(p, Blanks) < |p| {
        SecondWordStops(p, b + t);
        SecondWordStops(p, b);
      } else {
        SecondWordAlone(p, b, t);
      }
    } else {
      SecondWordStops(y, t);
    }
  }

  /** Behind blanks only, a sign of its own is no second word. */
  lemma SecondWordAlone(p: string, b: string, t: string)
    requires Run(p, Blanks) == |p| && |b| == 1 && (Alone(b[0]) || Blank(b[0])) && Run(p + b, Blanks) < |p + b|
    ensures SecondWord(p + (b + t)) == SecondWord(p + b)
  {
    if Blank(b[0]) {
      ShorterRun(p, b);
      assert false;
    }
    BlankTail(p);
    AloneIsSingle(b);
    AloneIsSingle(b + t);
    hide SecondWord, Run;
    SecondWordPasses(p, b + t);
    SecondWordPasses(p, b);
  }

  /** The second word of `s`, given where it starts and ends. */
  lemma SecondWordIs(s: string, k: nat, n: nat)
    requires k < |s| && k == Run(s, Blanks) && (WordStart(s[k]) ==> n == 1 + Run(s[k + 1..], Words))
    ensures if WordStart(s[k]) then
              k + n <= |s|
              && SecondWord(s) == match CrossWord(Lower(s[k..k + n])) case None => None case Some(t) => Some((t, k + n))
            else SecondWord(s) == None
  {
    hide Run, Lower, CrossWord;
  }

  /** Past the blanks of `s`, the second word is read from `s` alone when it starts there. */
  lemma SecondWordStops(s: string, t: string)
    requires t != [] && Stops(t[0]) && Run(s, Blanks) < |s|
    ensures SecondWord(s + t) == SecondWord(s)
  {
    hide Run, Lower, CrossWord, SecondWord, WordStart;
    var k := Run(s, Blanks);
    RunStops(s, Blanks, t);
    DropAppend(s, t, k + 1);
    RunStops(s[k + 1..], Words, t);
    var n := 1 + Run(s[k + 1..], Words);
    SliceKept(s, t, k, k + n);
    assert (s + t)[k] == s[k];
    hide Stops, In;
    SecondWordIs(s, k, n);
    SecondWordIs(s + t, k, n);
  }

  lemma SecondWordPasses(g: string, v: string)
    requires AllBlank(g)
    ensures SecondWord(g + v) == match SecondWord(v) case None => None case Some(w) => Some((w.0, |g| + w.1))
  {
    hide *;
    BlankRun(g);
    RunPasses(g, Blanks, v);
    var k := Run(v, Blanks);
    if k < |v| {
      var n := 1 + Run(v[k + 1..], Words);
      WordSlices(g, v, k, n);
      SecondWordIs(v, k, n);
      SecondWordIs(g + v, |g| + k, n);
    } else {
      OnlyBlanks(v);
      OnlyBlanks(g + v);
    }
  }

  lemma OnlyBlanks(s: string)
    requires Run(s, Blanks) == |s|
    ensures SecondWord(s) == None
  {
  }

  lemma WordSlices(g: string, v: string, k: nat, n: nat)
    requires k < |v| && k + n <= |v|
    ensures (g + v)[|g| + k] == v[k] && (g + v)[|g| + k + 1..] == v[k + 1..]
    ensures (g + v)[|g| + k..|g| + k + n] == v[k..k + n]
  {
  }

  // ---- Closed text ----------------------------------------------------------------------------

  /** The next `n` characters are code. */
  ghost predicate PlainFor(s: string, n: nat) {
    n <= |s| && forall i :: 0 <= i < n ==> s[i] != '{' && s[i] != '"' && !LineComment(s[i..])
  }

  lemma {:induction false} ClosedDrops(s: string, n: nat)
    requires Closed(s) && PlainFor(s, n)
    ensures Closed(s[n..])
  {
    if n == 0 {
      assert s[0..] == s;
    } else {
      assert s[0..] == s;
      forall i | 0 <= i < n - 1 ensures s[1..][i] != '{' && s[1..][i] != '"' && !LineComment(s[1..][i..]) {
        assert s[1..][i..] == s[i + 1..];
      }
      ClosedDrops(s[1..], n - 1);
      assert s[1..][n - 1..] == s[n..];
    }
  }

  lemma {:induction false} RunIn(s: string, k: Class, i: nat)
    requires i < Run(s, k)
    ensures In(k, s[i])
  {
    if i > 0 {
      RunIn(s[1..], k, i - 1);
    }
  }

  lemma NumberIsPlain(s: string, i: nat)
    requires s != [] && IsDigit(s[0]) && i < NumberLength(s)
    ensures IsDigit(s[i]) || s[i] == '.'
  {
    var d := Run(s, Digits);
    if i < d {
      RunIn(s, Digits, i);
    } else if i > d {
      RunIn(s[d + 1..], Digits, i - d - 1);
    }
  }

  lemma MunchIsPlain(s: string)
    requires s != [] && s[0] != '{' && s[0] != '"' && !LineComment(s)
    ensures PlainFor(s, Munch(s))
  {
    var n := Munch(s);
    forall i | 0 <= i < n ensures s[i] != '{' && s[i] != '"' && !LineComment(s[i..]) {
      if IsDigit(s[0]) {
        NumberIsPlain(s, i);
      } else if WordStart(s[0]) {
        if i > 0 {
          RunIn(s[1..], Words, i - 1);
        }
      } else if n == 2 {
        assert s[..2][i] == s[i];
      } else {
        assert s[i..] == s;
      }
    }
  }

  /** How much of closed text its first string, comment or character takes. */
  function ClosedHead(s: string): (n: nat)
    requires s != [] && Closed(s)
    ensures n <= |s| && Closed(s[n..])
  {
    if s[0] == '{' then 1 + CommentEnd(s[1..], 1).value
    else if LineComment(s) then Find(s, '\n').value
    else if s[0] == '"' then 2 + StringEnd(s[1..]).value
    else 1
  }

  lemma LineCommentIsLong(s: string)
    requires LineComment(s) && Find(s, '\n').Some?
    ensures Find(s, '\n').value >= 2
  {
    assert s[0] == '/' && s[1] == '/';
  }

  lemma HeadKept(x: string, y: string)
    requires x != [] && Closed(x) && Seam(x, y)
    ensures var n := ClosedHead(x);
            1 <= n && (Closed(x[n..] + y) ==> Closed(x + y))
  {
    var n := ClosedHead(x);
    DropAppend(x, y, n);
    DropAppend(x, y, 1);
    if x[0] == '{' {
      CommentEndKept(x[1..], 1, y);
    } else if LineComment(x) {
      LineCommentIsLong(x);
      FindKept(x, '\n', y);
    } else if x[0] == '"' {
      StringEndKept(x[1..], y);
    } else {
      assert !LineComment(x + y);
    }
  }

  /** Closed code stays closed with closed code after it, unless a `//` forms at the seam. */
  lemma {:induction false} ClosedAppend(x: string, y: string)
    requires Closed(x) && Closed(y) && Seam(x, y)
    ensures Closed(x + y)
    decreases |x|
  {
    if x == [] {
      assert x + y == y;
    } else {
      HeadKept(x, y);
      var n := ClosedHead(x);
      if n < |x| {
        assert x[n..][|x[n..]| - 1] == x[|x| - 1];
      }
      hide Closed, ClosedHead;
      ClosedAppend(x[n..], y);
    }
  }

  lemma {:induction false} BlankIsClosed(g: string)
    requires AllBlank(g)
    ensures Closed(g)
  {
    if g != [] {
      BlankIsClosed(g[1..]);
    }
  }

  // ---- Gaps ---------------------------------------------------------------------------------

  lemma {:induction false} LexSkips(g: string, v: string)
    requires AllBlank(g)
    ensures Lex(g + v) == Lex(v)
  {
    if g == [] {
      assert g + v == v;
    } else {
      assert (g + v)[1..] == g[1..] + v;
      LexSkips(g[1..], v);
    }
  }

  /** `x` ends in `crosses` and blanks, so its token depends on what follows. */
  predicate EndsInCrosses(x: string)
    requires x != []
  {
    var n := Munch(x);
    n > 0 && Lower(x[..n]) == CROSSES && Run(x[n..], Blanks) == |x| - n
  }

  lemma CodeStepKept(x: string, t: string)
    requires x != [] && !Blank(x[0]) && Bounded(x, t) && !EndsInCrosses(x)
    ensures CodeStep(x + t) == CodeStep(x)
  {
    var n := Munch(x);
    MunchBounded(x, t);
    DropAppend(x, t, n);
    if n > 0 && Run(x[n..], Blanks) < |x| - n {
      SecondWordBounded(x[n..], t);
    }
    hide Munch, SecondWord, Run, Lower;
  }

  lemma CodeStepCloses(x: string)
    requires x != [] && Closed(x) && x[0] != '{' && x[0] != '"' && !LineComment(x) && CodeStep(x).Yield?
    ensures Closed(x[CodeStep(x).n..])
  {
    hide Closed, Munch, SecondWord, PlainFor, Lower, LineComment;
    var n := Munch(x);
    MunchIsPlain(x);
    ClosedDrops(x, n);
    if SecondWord(x[n..]).Some? {
      var m := SecondWord(x[n..]).value.1;
      SecondWordIsPlain(x[n..]);
      ClosedDrops(x[n..], m);
      DropTwice(x, n, m);
    }
  }

  /** `x` opens with something that ends inside it. */
  predicate StepsInside(x: string)
    requires x != []
  {
    Blank(x[0]) || x[0] == '{' || x[0] == '"' || LineComment(x) || !EndsInCrosses(x)
  }

  /** A step inside closed text sees nothing after it. */
  lemma StepKept(x: string, t: string)
    requires x != [] && Closed(x) && Bounded(x, t) && StepsInside(x)
    ensures NextStep(x + t) == NextStep(x)
    ensures !NextStep(x).Error? ==> Closed(x[NextStep(x).n..])
  {
    hide CodeStep, EndsInCrosses;
    DropAppend(x, t, 1);
    assert LineComment(x + t) == LineComment(x);
    if Blank(x[0]) {
    } else if x[0] == '{' {
      CommentEndKept(x[1..], 1, t);
    } else if LineComment(x) {
      FindKept(x, '\n', t);
    } else if x[0] == '"' {
      StringEndKept(x[1..], t);
      SliceKept(x, t, 1, 1 + StringEnd(x[1..]).value);
    } else {
      CodeStepKept(x, t);
      if CodeStep(x).Yield? {
        CodeStepCloses(x);
      }
    }
  }

  /** The step at the word `crosses`. */
  lemma CrossesStep(s: string, n: nat)
    requires s != [] && s[0] != '{' && s[0] != '"' && !LineComment(s) && !Blank(s[0])
    requires n == Munch(s) && n > 0 && Lower(s[..n]) == CROSSES
    ensures var w := SecondWord(s[n..]);
            NextStep(s) == if w.Some? then Yield(n + w.value.1, w.value.0) else Yield(n, Lexeme(CROSSES))
  {
    hide Munch, SecondWord, Lower, LineComment;
  }

  /** `crosses` at the end of `x` looks through the gap at the same word. */
  lemma CrossesLooksPast(x: string, g: string, v: string)
    requires x != [] && x[0] != '{' && x[0] != '"' && !LineComment(x) && !Blank(x[0]) && EndsInCrosses(x)
    requires AllBlank(g) && (g != [] || EndsBlank(x))
    ensures var n, w := Munch(x), SecondWord(v);
            NextStep(x + (g + v))
              == if w.Some? then Yield(|x| + |g| + w.value.1, w.value.0) else Yield(n, Lexeme(CROSSES))
  {
    var n := Munch(x);
    assert !LineComment(x + (g + v));
    assert Bounded(x, g + v);
    hide Munch, SecondWord, Run, Lower, LineComment, Bounded, AllBlank, Closed, NextStep;
    MunchBounded(x, g + v);
    DropAppend(x, g + v, n);
    BlankTail(x[n..]);
    TwoGaps(x[n..], g, v);
    CrossesStep(x + (g + v), n);
  }

  lemma TwoGaps(a: string, g: string, v: string)
    requires AllBlank(a) && AllBlank(g)
    ensures SecondWord(a + (g + v))
            == match SecondWord(v) case None => None case Some(w) => Some((w.0, |a| + |g| + w.1))
  {
    hide SecondWord;
    assert AllBlank(a + g);
    assert a + (g + v) == (a + g) + v;
    SecondWordPasses(a + g, v);
  }

  lemma {:induction false} BlankTail(y: string)
    requires Run(y, Blanks) == |y|
    ensures AllBlank(y)
  {
    forall i | 0 <= i < |y| ensures Blank(y[i]) {
      RunIn(y, Blanks, i);
    }
  }

  lemma SecondWordIsPlain(y: string)
    requires SecondWord(y).Some?
    ensures PlainFor(y, SecondWord(y).value.1)
  {
    var k := Run(y, Blanks);
    forall i | 0 <= i < SecondWord(y).value.1 ensures y[i] != '{' && y[i] != '"' && !LineComment(y[i..]) {
      if i < k {
        RunIn(y, Blanks, i);
      } else if i > k {
        RunIn(y[k + 1..], Words, i - k - 1);
      }
    }
  }

  /** Texts that step alike and go on alike lex alike. */
  lemma SameTurn(s: string, t: string, n: nat, m: nat)
    requires s != [] && t != [] && n <= |s| && m <= |t| && Lex(s[n..]) == Lex(t[m..])
    requires NextStep(s).Yield? ==> NextStep(t) == NextStep(s).(n := m) && NextStep(s).n == n
    requires !NextStep(s).Yield?
             ==> NextStep(t) == NextStep(s) && (!NextStep(s).Error? ==> NextStep(s).n == n == m && s[..n] == t[..n])
    ensures Lex(s) == Lex(t)
  {
    LexTurn(s);
    LexTurn(t);
    hide Lex, NextStep;
  }

  /** The gap after closed text may be any blank text, and nothing at all after blank text. */
  lemma {:induction false} GapUnseen(x: string, g: string, h: string, v: string)
    requires Closed(x) && AllBlank(g) && AllBlank(h) && (x == [] || EndsBlank(x) || (g != [] && h != []))
    ensures Lex(x + (g + v)) == Lex(x + (h + v))
    decreases |x|
  {
    hide Lex, Closed, StepsInside, AllBlank;
    if x == [] {
      LexSkips(g, v);
      LexSkips(h, v);
      assert x + (g + v) == g + v && x + (h + v) == h + v;
    } else if StepsInside(x) {
      GapAfterStep(x, g, h, v);
    } else {
      GapAfterCrosses(x, g, h, v);
    }
  }

  lemma {:induction false} GapAfterStep(x: string, g: string, h: string, v: string)
    requires x != [] && Closed(x) && AllBlank(g) && AllBlank(h) && (EndsBlank(x) || (g != [] && h != []))
    requires StepsInside(x)
    ensures Lex(x + (g + v)) == Lex(x + (h + v))
    decreases |x|, 0
  {
    assert Bounded(x, g + v) && Bounded(x, h + v);
    hide Bounded, Lex, NextStep, Closed, EndsInCrosses, AllBlank;
    StepKept(x, g + v);
    StepKept(x, h + v);
    if NextStep(x).Error? {
      LexTurn(x + (g + v));
      LexTurn(x + (h + v));
    } else {
      var n := NextStep(x).n;
      DropAppend(x, g + v, n);
      DropAppend(x, h + v, n);
      GapUnseen(x[n..], g, h, v);
      SameTurn(x + (g + v), x + (h + v), n, n);
    }
  }

  lemma {:induction false} GapAfterCrosses(x: string, g: string, h: string, v: string)
    requires x != [] && Closed(x) && AllBlank(g) && AllBlank(h) && (EndsBlank(x) || (g != [] && h != []))
    requires !StepsInside(x)
    ensures Lex(x + (g + v)) == Lex(x + (h + v))
    decreases |x|, 1
  {
    var w := SecondWord(v);
    hide Lex, NextStep, Closed, EndsInCrosses, AllBlank, SecondWord, Munch, LineComment;
    CrossesLooksPast(x, g, v);
    CrossesLooksPast(x, h, v);
    AfterCrosses(x, g, h, v);
    if w.Some? {
      var m := w.value.1;
      assert (x + (g + v))[|x| + |g| + m..] == v[m..] == (x + (h + v))[|x| + |h| + m..];
      SameTurn(x + (g + v), x + (h + v), |x| + |g| + m, |x| + |h| + m);
    } else {
      SameTurn(x + (g + v), x + (h + v), Munch(x), Munch(x));
    }
  }

  lemma {:induction false} AfterCrosses(x: string, g: string, h: string, v: string)
    requires x != [] && Closed(x) && x[0] != '{' && x[0] != '"' && !LineComment(x) && EndsInCrosses(x)
    requires AllBlank(g) && AllBlank(h) && (EndsBlank(x) || (g != [] && h != []))
    ensures var n := Munch(x);
            Lex((x + (g + v))[n..]) == Lex((x + (h + v))[n..])
    ensures forall m: nat :: m <= |v| ==> (x + (g + v))[|x| + |g| + m..] == v[m..] == (x + (h + v))[|x| + |h| + m..]
    decreases |x|, 0
  {
    hide *;
    CrossesLeaves(x);
    var n := Munch(x);
    MunchIsPlain(x);
    ClosedDrops(x, n);
    DropAppend(x, g + v, n);
    DropAppend(x, h + v, n);
    GapUnseen(x[n..], g, h, v);
    forall m: nat | m <= |v|
      ensures (x + (g + v))[|x| + |g| + m..] == v[m..] == (x + (h + v))[|x| + |h| + m..]
    {
      DropThree(x, g, v, m);
      DropThree(x, h, v, m);
    }
  }

  lemma DropThree(x: string, g: string, v: string, m: nat)
    requires m <= |v|
    ensures (x + (g + v))[|x| + |g| + m..] == v[m..]
  {
  }

  /** What is left after the word `crosses` is shorter, and blank where `x` is. */
  lemma CrossesLeaves(x: string)
    requires x != [] && EndsInCrosses(x)
    ensures var n := Munch(x);
            0 < n <= |x| && (EndsBlank(x) ==> x[n..] == [] || EndsBlank(x[n..])) && (x[n..] == [] ==> !EndsBlank(x))
  {
    var n := Munch(x);
    hide Munch, Lower, Run;
    WordIsNotBlank(x);
  }

  lemma WordIsNotBlank(x: string)
    requires x != [] && EndsInCrosses(x)
    ensures EndsBlank(x) ==> Munch(x) < |x|
  {
    var n := Munch(x);
    if EndsBlank(x) && n == |x| {
      assert x[..n] == x;
      LowerLast(x);
      assert false;
    }
  }

  lemma {:induction false} LowerLast(x: string)
    requires x != []
    ensures Lower(x) != [] && Lower(x)[|Lower(x)| - 1] == LowerChar(x[|x| - 1])
  {
    if |x| > 1 {
      LowerLast(x[1..]);
    }
  }

  // ---- Closed text before a comment or a string --------------------------------------------

  /** One result after another. */
  function Followed(a: Lexed, b: Lexed): Lexed {
    if a.Bad? then Bad else Before(a.tokens, a.notes, b)
  }

  /** `t` does not go on with the second word of a two-word keyword. */
  predicate NoSecond(t: string) {
    SecondWord(t).None?
  }

  lemma CrossesFindsNone(x: string, t: string)
    requires x != [] && Closed(x) && !StepsInside(x) && Bounded(x, t) && NoSecond(t)
    ensures var n := Munch(x);
            && NextStep(x + t) == NextStep(x) == Yield(n, Lexeme(CROSSES))
            && n <= |x| && Closed(x[n..])
  {
    var n := Munch(x);
    MunchBounded(x, t);
    MunchIsPlain(x);
    ClosedDrops(x, n);
    DropAppend(x, t, n);
    BlankTail(x[n..]);
    SecondWordPasses(x[n..], t);
    hide Munch, Run, Lower, Closed;
  }

  lemma BeforeStep(step: Step, text: string, a: Lexed, b: Lexed)
    ensures Followed(Before(Tokens(step), Notes(step, text), a), b)
            == Before(Tokens(step), Notes(step, text), Followed(a, b))
  {
    if a.Good? {
      BeforeAppends(Tokens(step), Notes(step, text), a.tokens, a.notes, b);
    }
  }

  lemma LexByStep(s: string)
    requires s != [] && !NextStep(s).Error?
    ensures var step := NextStep(s);
            Lex(s) == Before(Tokens(step), Notes(step, s[..step.n]), Lex(s[step.n..]))
  {
    LexTurn(s);
    NothingBefore(Lex(s[NextStep(s).n..]));
    hide NextStep, Lex;
  }

  /** The last word read is `crosses`, whose token depends on what follows. */
  predicate EndsCrossing(r: Lexed) {
    r.Good? && r.tokens != [] && r.tokens[|r.tokens| - 1] == Lexeme(CROSSES)
  }

  lemma CrossesIsLast(x: string)
    requires x != [] && !StepsInside(x)
    ensures EndsCrossing(Lex(x))
  {
    var n := Munch(x);
    BlankTail(x[n..]);
    assert SecondWord(x[n..]).None?;
    assert NextStep(x) == Yield(n, Lexeme(CROSSES));
    hide NextStep, Munch, SecondWord, Run, Lower, EndsInCrosses, StepsInside;
    assert x[n..] + [] == x[n..];
    LexSkips(x[n..], []);
    assert Lex([]) == Good([], []);
    hide Lex;
    LexTurn(x);
  }

  lemma LastStays(ts: seq<Token>, ns: seq<string>, r: Lexed)
    requires EndsCrossing(r)
    ensures EndsCrossing(Before(ts, ns, r))
  {
  }

  /** Text after closed code is lexed on its own, unless it could finish a two-word keyword that
      the code begins. */
  lemma {:induction false} LexSplits(x: string, t: string)
    requires Closed(x) && (x == [] || Bounded(x, t)) && (NoSecond(t) || !EndsCrossing(Lex(x)))
    ensures Lex(x + t) == Followed(Lex(x), Lex(t))
    decreases |x|
  {
    if x == [] {
      assert x + t == t;
      assert Lex(x) == Good([], []);
      NothingBefore(Lex(t));
    } else {
      if StepsInside(x) {
        StepKept(x, t);
      } else {
        CrossesIsLast(x);
        CrossesFindsNone(x, t);
      }
      hide Lex, NextStep, Closed, StepsInside, Followed, Stops, NoSecond, Before, EndsCrossing;
      if NextStep(x).Error? {
        ErrorIsBad(x);
        ErrorIsBad(x + t);
        BadFirst(Lex(t));
      } else {
        var step := NextStep(x);
        var n := step.n;
        DropAppend(x, t, n);
        assert x[n..] == [] || Bounded(x[n..], t);
        LexByStep(x);
        if EndsCrossing(Lex(x[n..])) {
          LastStays(Tokens(step), Notes(step, x[..n]), Lex(x[n..]));
        }
        LexSplits(x[n..], t);
        LexByStep(x + t);
        BeforeStep(step, x[..n], Lex(x[n..]), Lex(t));
      }
    }
  }

  lemma ErrorIsBad(s: string)
    requires s != [] && NextStep(s).Error?
    ensures Lex(s) == Bad
  {
  }

  lemma BadFirst(b: Lexed)
    ensures Followed(Bad, b) == Bad
  {
  }

  /** Blank text may be put between closed code and a comment. */
  lemma GapBeforeComment(x: string, g: string, y: string)
    requires Closed(x) && AllBlank(g) && y != [] && (y[0] == '{' || LineComment(y)) && Seam(x, y)
    ensures Lex(x + (g + y)) == Lex(x + y)
  {
    BlankRun(g);
    RunPasses(g, Blanks, y);
    assert Run(y, Blanks) == 0;
    assert (g + y)[|g|] == y[0];
    LexSkips(g, y);
    assert g == [] ==> g + y == y;
    hide Lex, Closed, Run;
    LexSplits(x, g + y);
    LexSplits(x, y);
  }

  // ---- Whole comments ---------------------------------------------------------------------------

  /** A brace comment, from its brace to the one that closes it. */
  predicate BraceNote(c: string) {
    c != [] && c[0] == '{' && CommentEnd(c[1..], 1) == Some(|c| - 1)
  }

  /** A `//` run. */
  predicate RunNote(c: string) {
    LineComment(c) && '\n' !in c
  }

  predicate IsNote(c: string) {
    BraceNote(c) || RunNote(c)
  }

  lemma BraceReads(c: string, rest: string)
    requires BraceNote(c)
    ensures Lex(c + rest) == Before([], [c], Lex(rest))
  {
    assert (c + rest)[1..] == c[1..] + rest;
    CommentEndKept(c[1..], 1, rest);
    LexTurn(c + rest);
    hide Lex;
    assert (c + rest)[|c|..] == rest && (c + rest)[..|c|] == c;
  }

  /** A `//` run takes the rest of its line, `more` included. */
  lemma RunReads(c: string, more: string, rest: string)
    requires RunNote(c) && '\n' !in more && (rest == [] || rest[0] == '\n')
    ensures Lex(c + more + rest) == Before([], [c + more], Lex(rest))
  {
    var s, t := c + more, c + more + rest;
    assert LineComment(t) && t[0] != '"';
    assert Find(t, '\n') == if rest == [] then None else Some(|s|) by {
      if rest == [] {
        assert t == s;
      } else {
        FindNone(s, '\n', rest);
      }
    }
    LexTurn(t);
    hide Lex;
    assert t[|s|..] == rest && t[..|s|] == s;
  }

  lemma CommentEndIsEnd(s: string, depth: nat)
    requires CommentEnd(s, depth).Some?
    ensures CommentEnd(s[..CommentEnd(s, depth).value], depth) == CommentEnd(s, depth)
    decreases |s|
  {
    if depth > 0 {
      var n := CommentEnd(s, depth).value;
      assert s[..n][1..] == s[1..][..n - 1];
      CommentEndIsEnd(s[1..], if s[0] == '{' then depth + 1 else if s[0] == '}' then depth - 1 else depth);
    }
  }

  lemma StepIsNote(s: string)
    requires s != [] && NextStep(s).Note?
    ensures IsNote(s[..NextStep(s).n])
  {
    var c := s[..NextStep(s).n];
    if s[0] == '{' {
      CommentEndIsEnd(s[1..], 1);
      assert c[1..] == s[1..][..|c| - 1];
    } else {
      assert Find(s, '\n').Some? ==> Find(s, '\n').value >= 2 by {
        assert s[0] == '/' && s[1] == '/';
      }
    }
  }

  /** What the lexer sets aside are whole comments. */
  lemma {:induction false} NotesAreWhole(s: string)
    requires Lex(s).Good?
    ensures forall c :: c in Lex(s).notes ==> IsNote(c)
    decreases |s|
  {
    if s != [] {
      if NextStep(s).Note? {
        StepIsNote(s);
      }
      hide IsNote, NextStep;
      NotesAreWhole(s[NextStep(s).n..]);
    }
  }

  // ---- A final newline --------------------------------------------------------------------------

  lemma {:induction false} CommentEndNone(s: string, depth: nat)
    requires CommentEnd(s, depth).None?
    ensures CommentEnd(s + "\n", depth).None?
    decreases |s|
  {
    if s == [] {
      assert s + "\n" == "\n" && "\n"[1..] == [];
    } else {
      assert (s + "\n")[1..] == s[1..] + "\n";
      CommentEndNone(s[1..], if s[0] == '{' then depth + 1 else if s[0] == '}' then depth - 1 else depth);
    }
  }

  lemma {:induction false} StringEndNone(s: string, t: string)
    requires StringEnd(s).None? && ('\n' in s || (t != [] && t[0] == '\n'))
    ensures StringEnd(s + t).None?
    decreases |s|
  {
    if s == [] {
      assert s + t == t;
    } else if s[0] != '\n' {
      assert (s + t)[1..] == s[1..] + t;
      StringEndNone(s[1..], t);
    }
  }

  lemma {:induction false} FindNone(s: string, c: char, t: string)
    requires Find(s, c).None? && t != [] && t[0] == c
    ensures Find(s + t, c) == Some(|s|)
  {
    if s == [] {
      assert s + t == t;
    } else {
      assert (s + t)[1..] == s[1..] + t;
      FindNone(s[1..], c, t);
    }
  }

  /** What one step makes of a text with a newline added. */
  lemma StepBeforeNewline(s: string)
    requires s != []
    ensures NextStep(s + "\n") == NextStep(s)
  {
    DropAppend(s, "\n", 1);
    assert LineComment(s + "\n") == LineComment(s);
    if Blank(s[0]) {
    } else if s[0] == '{' {
      if CommentEnd(s[1..], 1).None? {
        CommentEndNone(s[1..], 1);
      } else {
        CommentEndKept(s[1..], 1, "\n");
      }
    } else if LineComment(s) {
      if Find(s, '\n').None? {
        FindNone(s, '\n', "\n");
      } else {
        FindKept(s, '\n', "\n");
      }
    } else if s[0] == '"' {
      if StringEnd(s[1..]).None? {
        StringEndNone(s[1..], "\n");
      } else {
        StringEndKept(s[1..], "\n");
        SliceKept(s, "\n", 1, 1 + StringEnd(s[1..]).value);
      }
    } else {
      CodeBeforeNewline(s);
    }
  }

  lemma CodeBeforeNewline(s: string)
    requires s != [] && !Blank(s[0])
    ensures CodeStep(s + "\n") == CodeStep(s)
  {
    if EndsInCrosses(s) {
      var n := Munch(s);
      MunchStops(s, "\n");
      DropAppend(s, "\n", n);
      BlankTail(s[n..]);
      SecondWordPasses(s[n..], "\n");
      assert Run("\n", Blanks) == 1;
      hide Munch, Run, Lower;
    } else {
      CodeStepKept(s, "\n");
    }
  }

  /** A final newline changes nothing. */
  lemma {:induction false} LexNewline(s: string)
    ensures Lex(s + "\n") == Lex(s)
    decreases |s|
  {
    if s == [] {
      LexSkips("\n", []);
      assert s + "\n" == "\n" + [];
    } else {
      StepBeforeNewline(s);
      hide Lex, NextStep;
      if NextStep(s).Error? {
        ErrorIsBad(s);
        ErrorIsBad(s + "\n");
      } else {
        var n := NextStep(s).n;
        DropAppend(s, "\n", n);
        LexNewline(s[n..]);
        LexByStep(s);
        LexByStep(s + "\n");
      }
    }
  }
}
