/** Comments ride beside the tree and are anchored back to statements by their source line:
    every comment is put in one place, and the places together hold each comment once. */
module Comments {
  import opened Sequences

  datatype Comment = Comment(text: string, line: int, col: int, trailing: bool)

  /** What a statement prints besides its legs: a simple one its code, a branch or loop the head
      before its leg (a choice has an Else leg too), a Repeat the condition after it. A compact leg
      is one statement without Begin/End. */
  datatype Form =
    | Simple(code: string)
    | Branch(head: string, compact: bool)
    | Choice(head: string, compact: bool, elseCompact: bool)
    | Repeat(cond: string)

  /** Statements in emission order: a node, the statements of its legs, and what follows it.
      Not every statement carries its source line. */
  datatype Forest = Empty | Tree(id: nat, line: Option<int>, form: Form, legs: Forest, orelse: Forest, rest: Forest)

  datatype Mark = Mark(id: nat, line: int)

  /** The statements with a line, in emission order. */
  function LineStmts(f: Forest): seq<Mark> {
    match f
    case Empty => []
    case Tree(id, line, _, legs, orelse, rest) =>
      (if line.Some? then [Mark(id, line.value)] else []) + LineStmts(legs) + LineStmts(orelse) + LineStmts(rest)
  }

  datatype Place = Header | Leading(id: nat) | Trailing(id: nat) | Footer

  function LastOn(ms: seq<Mark>, line: int): Option<nat> {
    if ms == [] then None
    else if ms[|ms| - 1].line == line then Some(ms[|ms| - 1].id)
    else LastOn(ms[..|ms| - 1], line)
  }

  function MinLine(ms: seq<Mark>): int
    requires ms != []
  {
    if |ms| == 1 || ms[0].line <= MinLine(ms[1..]) then ms[0].line else MinLine(ms[1..])
  }

  /** The first of the statements nearest after `line`. */
  function NearestAfter(ms: seq<Mark>, line: int): Option<Mark> {
    if ms == [] then None
    else
      var later := NearestAfter(ms[1..], line);
      if ms[0].line > line && (later.None? || ms[0].line <= later.value.line) then Some(ms[0]) else later
  }

  /** Where a comment goes. */
  function PlaceOf(ms: seq<Mark>, c: Comment): Place {
    if ms == [] then Header
    else if c.trailing && LastOn(ms, c.line).Some? then Trailing(LastOn(ms, c.line).value)
    else if c.line < MinLine(ms) then Header
    else if NearestAfter(ms, c.line).Some? then Leading(NearestAfter(ms, c.line).value.id)
    else Footer
  }

  predicate Before(a: Comment, b: Comment) {
    a.line < b.line || (a.line == b.line && a.col <= b.col)
  }

  function Insert(c: Comment, cs: seq<Comment>): seq<Comment> {
    if cs == [] || Before(c, cs[0]) then [c] + cs else [cs[0]] + Insert(c, cs[1..])
  }

  /** By line and column, stably. */
  function Ordered(cs: seq<Comment>): seq<Comment> {
    if cs == [] then [] else Insert(cs[0], Ordered(cs[1..]))
  }

  /** The comments of `cs` that go to `p`, in order. */
  function At(ms: seq<Mark>, cs: seq<Comment>, p: Place): seq<Comment> {
    if cs == [] then []
    else At(ms, cs[..|cs| - 1], p) + if PlaceOf(ms, cs[|cs| - 1]) == p then [cs[|cs| - 1]] else []
  }

  // ---- Anchoring ----------------------------------------------------------------------------

  datatype Anchors = Anchors(header: seq<Comment>, leading: map<nat, seq<Comment>>, trailing: map<nat, seq<Comment>>,
                             footer: seq<Comment>)

  function Held(m: map<nat, seq<Comment>>, id: nat): seq<Comment> {
    if id in m then m[id] else []
  }

  /** Each place holds exactly the comments that belong there, in source order. */
  ghost predicate Anchored(a: Anchors, ms: seq<Mark>, cs: seq<Comment>) {
    && a.header == At(ms, cs, Header)
    && a.footer == At(ms, cs, Footer)
    && (forall id :: Held(a.leading, id) == At(ms, cs, Leading(id)))
    && (forall id :: Held(a.trailing, id) == At(ms, cs, Trailing(id)))
  }

  lemma AtAppends(ms: seq<Mark>, cs: seq<Comment>, c: Comment, p: Place)
    ensures At(ms, cs + [c], p) == At(ms, cs, p) + if PlaceOf(ms, c) == p then [c] else []
  {
    assert (cs + [c])[..|cs|] == cs;
    hide PlaceOf;
  }

  /** `c` put after what its place already holds. */
  function Put(a: Anchors, p: Place, c: Comment): Anchors {
    match p
    case Header => a.(header := a.header + [c])
    case Footer => a.(footer := a.footer + [c])
    case Leading(id) => a.(leading := a.leading[id := Held(a.leading, id) + [c]])
    case Trailing(id) => a.(trailing := a.trailing[id := Held(a.trailing, id) + [c]])
  }

  lemma PutAnchors(a: Anchors, ms: seq<Mark>, cs: seq<Comment>, c: Comment)
    requires Anchored(a, ms, cs)
    ensures Anchored(Put(a, PlaceOf(ms, c), c), ms, cs + [c])
  {
    var p := PlaceOf(ms, c);
    var b := Put(a, p, c);
    AtAppends(ms, cs, c, Header);
    AtAppends(ms, cs, c, Footer);
    hide PlaceOf, At;
    forall id: nat ensures Held(b.leading, id) == At(ms, cs + [c], Leading(id)) {
      AtAppends(ms, cs, c, Leading(id));
    }
    forall id: nat ensures Held(b.trailing, id) == At(ms, cs + [c], Trailing(id)) {
      AtAppends(ms, cs, c, Trailing(id));
    }
  }

  method Collect(f: Forest, out: seq<Mark>) returns (r: seq<Mark>)
    ensures r == out + LineStmts(f)
    decreases f
  {
    r := out;
    if f.Tree? {
      ghost var own := if f.line.Some? then [Mark(f.id, f.line.value)] else [];
      assert LineStmts(f) == own + LineStmts(f.legs) + LineStmts(f.orelse) + LineStmts(f.rest);
      hide LineStmts;
      if f.line.Some? {
        r := r + [Mark(f.id, f.line.value)];
      }
      assert r == out + own;
      r := Collect(f.legs, r);
      r := Collect(f.orelse, r);
      r := Collect(f.rest, r);
      Associate(out, own, LineStmts(f.legs));
      Associate(out, own + LineStmts(f.legs), LineStmts(f.orelse));
      Associate(out, own + LineStmts(f.legs) + LineStmts(f.orelse), LineStmts(f.rest));
    }
  }

  method AnchorComments(f: Forest, comments: seq<Comment>) returns (a: Anchors)
    ensures Anchored(a, LineStmts(f), Ordered(comments)) && Sorted(Ordered(comments))
  {
    OrderedIsSorted(comments);
    hide Sorted, PlaceOf, At, Anchored, Held, LineStmts, Ordered, Put;
    var ordered := Ordered(comments);
    var ms := Collect(f, []);
    assert [] + LineStmts(f) == LineStmts(f);
    if ms == [] {
      HeaderOnly(ms, ordered);
      return Anchors(ordered, map[], map[], []);
    }
    a := Anchors([], map[], map[], []);
    var i := 0;
    NothingAnchored(ms, ordered[..0]);
    while i < |ordered|
      invariant 0 <= i <= |ordered|
      invariant Anchored(a, ms, ordered[..i])
    {
      var c := ordered[i];
      PutAnchors(a, ms, ordered[..i], c);
      assert ordered[..i + 1] == ordered[..i] + [c];
      a := Put(a, PlaceOf(ms, c), c);
      i := i + 1;
    }
    assert ordered[..i] == ordered;
  }

  lemma NothingAnchored(ms: seq<Mark>, cs: seq<Comment>)
    requires cs == []
    ensures Anchored(Anchors([], map[], map[], []), ms, cs)
  {
  }

  /** Without a line to go by, every comment is a header comment. */
  lemma HeaderOnly(ms: seq<Mark>, cs: seq<Comment>)
    requires ms == []
    ensures Anchored(Anchors(cs, map[], map[], []), ms, cs)
  {
    AllHeader(ms, cs);
  }

  lemma {:induction false} AllHeader(ms: seq<Mark>, cs: seq<Comment>)
    requires ms == []
    ensures forall p :: At(ms, cs, p) == if p == Header then cs else []
  {
    if cs != [] {
      AllHeader(ms, cs[..|cs| - 1]);
    }
  }

  // ---- Emission -----------------------------------------------------------------------------

  /** The comments printed with the statements of `f`, in order. */
  function Printed(a: Anchors, f: Forest): seq<Comment> {
    match f
    case Empty => []
    case Tree(id, _, _, legs, orelse, rest) =>
      Held(a.leading, id) + Printed(a, legs) + Printed(a, orelse) + Held(a.trailing, id) + Printed(a, rest)
  }

  function PrintedAll(a: Anchors, f: Forest): seq<Comment> {
    a.header + Printed(a, f) + a.footer
  }

  function Ids(f: Forest): multiset<nat> {
    match f
    case Empty => multiset{}
    case Tree(id, _, _, legs, orelse, rest) => multiset{id} + Ids(legs) + Ids(orelse) + Ids(rest)
  }

  /** No statement object occurs twice in the tree. */
  ghost predicate Distinct(f: Forest) {
    forall id :: Ids(f)[id] <= 1
  }

  /** The comments at the places of `f`, counted as `At` gives them. */
  function Counted(ms: seq<Mark>, cs: seq<Comment>, f: Forest): multiset<Comment> {
    match f
    case Empty => multiset{}
    case Tree(id, _, _, legs, orelse, rest) =>
      multiset(At(ms, cs, Leading(id))) + Counted(ms, cs, legs) + Counted(ms, cs, orelse)
        + multiset(At(ms, cs, Trailing(id)))
      + Counted(ms, cs, rest)
  }

  lemma {:induction false} PrintedIsCounted(a: Anchors, ms: seq<Mark>, cs: seq<Comment>, f: Forest)
    requires Anchored(a, ms, cs)
    ensures multiset(Printed(a, f)) == Counted(ms, cs, f)
  {
    if f.Tree? {
      PrintedIsCounted(a, ms, cs, f.legs);
      PrintedIsCounted(a, ms, cs, f.orelse);
      PrintedIsCounted(a, ms, cs, f.rest);
    }
  }

  /** The statement a comment is anchored to, if any. */
  function AnchorId(p: Place): Option<nat> {
    match p
    case Leading(id) => Some(id)
    case Trailing(id) => Some(id)
    case _ => None
  }

  /** One more comment is counted once at each occurrence of its statement. */
  lemma {:induction false} OneMore(ms: seq<Mark>, cs: seq<Comment>, c: Comment, f: Forest)
    requires var id := AnchorId(PlaceOf(ms, c));
             id.Some? ==> Ids(f)[id.value] <= 1
    ensures Counted(ms, cs + [c], f) == Counted(ms, cs, f) + If(Hits(PlaceOf(ms, c), f), c)
    decreases f
  {
    var p := PlaceOf(ms, c);
    hide PlaceOf, At, Ids, AnchorId, If;
    if f.Tree? {
      TreeHits(f, p, c);
      AtAppends(ms, cs, c, Leading(f.id));
      AtAppends(ms, cs, c, Trailing(f.id));
      OneMore(ms, cs, c, f.legs);
      OneMore(ms, cs, c, f.orelse);
      OneMore(ms, cs, c, f.rest);
      Sum5(At(ms, cs, Leading(f.id)), p == Leading(f.id), At(ms, cs, Trailing(f.id)), p == Trailing(f.id),
           Counted(ms, cs, f.legs), Hits(p, f.legs), Counted(ms, cs, f.orelse), Hits(p, f.orelse),
           Counted(ms, cs, f.rest), Hits(p, f.rest), c);
    } else {
      assert !Hits(p, f) by { EmptyHits(p); }
      assert If(false, c) == multiset{} by { NoIf(c); }
    }
  }

  lemma NoIf(c: Comment)
    ensures If(false, c) == multiset{}
  {
  }

  /** The statement of `p` is in `f`. */
  predicate Hits(p: Place, f: Forest) {
    AnchorId(p).Some? && AnchorId(p).value in Ids(f)
  }

  lemma EmptyHits(p: Place)
    ensures !Hits(p, Empty)
  {
  }

  lemma TreeHits(f: Forest, p: Place, c: Comment)
    requires f.Tree? && (AnchorId(p).Some? ==> Ids(f)[AnchorId(p).value] <= 1)
    ensures AnchorId(p).Some?
            ==> var id := AnchorId(p).value; Ids(f.legs)[id] <= 1 && Ids(f.orelse)[id] <= 1 && Ids(f.rest)[id] <= 1
    ensures If(p == Leading(f.id), c) + If(p == Trailing(f.id), c) + If(Hits(p, f.legs), c) + If(Hits(p, f.orelse), c)
            + If(Hits(p, f.rest), c)
            == If(Hits(p, f), c)
  {
    assert Ids(f) == multiset{f.id} + Ids(f.legs) + Ids(f.orelse) + Ids(f.rest);
    hide If, Ids;
    OneOfFive(p == Leading(f.id), p == Trailing(f.id), Hits(p, f.legs), Hits(p, f.orelse), Hits(p, f.rest), Hits(p, f),
              c);
  }

  function One(b: bool): nat {
    if b then 1 else 0
  }

  lemma OneOfFive(b1: bool, b2: bool, b3: bool, b4: bool, b5: bool, b: bool, c: Comment)
    requires One(b1) + One(b2) + One(b3) + One(b4) + One(b5) == One(b)
    ensures If(b1, c) + If(b2, c) + If(b3, c) + If(b4, c) + If(b5, c) == If(b, c)
  {
  }

  function If(b: bool, c: Comment): multiset<Comment> {
    if b then multiset{c} else multiset{}
  }

  lemma Sum5(s: seq<Comment>, b1: bool, t: seq<Comment>, b2: bool, m: multiset<Comment>, b3: bool, n: multiset<Comment>,
             b4: bool, o: multiset<Comment>, b5: bool, c: Comment)
    ensures multiset(s + if b1 then [c] else []) + (m + If(b3, c)) + (n + If(b4, c))
            + multiset(t + if b2 then [c] else [])
            + (o + If(b5, c))
            == (multiset(s) + m + n + multiset(t) + o) + (If(b1, c) + If(b2, c) + If(b3, c) + If(b4, c) + If(b5, c))
  {
  }

  lemma {:induction false} LastOnIsThere(ms: seq<Mark>, line: int)
    ensures match LastOn(ms, line)
            case None => forall i :: 0 <= i < |ms| ==> ms[i].line != line
            case Some(id) =>
              exists i :: 0 <= i < |ms| && ms[i] == Mark(id, line) && forall j :: i < j < |ms| ==> ms[j].line != line
  {
    if ms != [] {
      var n := |ms| - 1;
      if ms[n].line == line {
        assert ms[n] == Mark(ms[n].id, line);
      } else {
        LastOnIsThere(ms[..n], line);
        var r := LastOn(ms[..n], line);
        if r.Some? {
          var i :| 0 <= i < n && ms[..n][i] == Mark(r.value, line) && forall j :: i < j < n ==> ms[..n][j].line != line;
          assert ms[i] == Mark(r.value, line);
          assert forall j :: i < j < |ms| ==> j == n || ms[j] == ms[..n][j];
        } else {
          assert forall j :: 0 <= j < |ms| ==> j == n || ms[j] == ms[..n][j];
        }
      }
    }
  }

  /** `ms[i]` is the first of the statements nearest after `line`. */
  predicate IsNearest(ms: seq<Mark>, line: int, i: nat) {
    && i < |ms| && line < ms[i].line
    && forall j ::
         0 <= j < |ms| && line < ms[j].line ==> ms[i].line <= ms[j].line && (j < i ==> ms[i].line < ms[j].line)
  }

  lemma {:induction false} NearestIsNearest(ms: seq<Mark>, line: int)
    ensures match NearestAfter(ms, line)
            case None => forall i :: 0 <= i < |ms| ==> ms[i].line <= line
            case Some(m) => exists i: nat :: IsNearest(ms, line, i) && ms[i] == m
  {
    if ms != [] {
      NearestIsNearest(ms[1..], line);
      assert forall i :: 1 <= i < |ms| ==> ms[i] == ms[1..][i - 1];
      var m := NearestAfter(ms, line);
      if m == Some(ms[0]) && ms[0].line > line
        && (NearestAfter(ms[1..], line).None? || ms[0].line <= NearestAfter(ms[1..], line).value.line) {
        assert IsNearest(ms, line, 0);
      } else if m.Some? {
        var i: nat :| IsNearest(ms[1..], line, i) && ms[1..][i] == m.value;
        assert IsNearest(ms, line, i + 1);
      }
    }
  }

  lemma {:induction false} MinLineIsLeast(ms: seq<Mark>)
    requires ms != []
    ensures forall i :: 0 <= i < |ms| ==> MinLine(ms) <= ms[i].line
    ensures exists i :: 0 <= i < |ms| && ms[i].line == MinLine(ms)
  {
    if |ms| > 1 {
      MinLineIsLeast(ms[1..]);
      assert forall i :: 1 <= i < |ms| ==> ms[i] == ms[1..][i - 1];
      if ms[0].line > MinLine(ms[1..]) {
        var i :| 0 <= i < |ms[1..]| && ms[1..][i].line == MinLine(ms[1..]);
        assert ms[i + 1].line == MinLine(ms);
      } else {
        assert ms[0].line == MinLine(ms);
      }
    } else {
      assert ms[0].line == MinLine(ms);
    }
  }

  /** The comment follows code on a line where a statement begins. */
  predicate Follows(ms: seq<Mark>, c: Comment) {
    c.trailing && exists i :: 0 <= i < |ms| && ms[i].line == c.line
  }

  /** Where a comment belongs, in terms of the lines around it. */
  predicate Belongs(ms: seq<Mark>, c: Comment, p: Place) {
    match p
    case Header => forall i :: 0 <= i < |ms| ==> c.line < ms[i].line
    case Trailing(id) =>
      && c.trailing
      && exists i :: 0 <= i < |ms| && ms[i] == Mark(id, c.line) && forall j :: i < j < |ms| ==> ms[j].line != c.line
    case Leading(id) =>
      && !Follows(ms, c) && (exists i :: 0 <= i < |ms| && ms[i].line <= c.line)
      && exists i :: 0 <= i < |ms| && IsNearest(ms, c.line, i) && ms[i].id == id
    case Footer => ms != [] && !Follows(ms, c) && forall i :: 0 <= i < |ms| ==> ms[i].line <= c.line
  }

  /** A comment goes exactly where it belongs. */
  lemma PlaceMeaning(ms: seq<Mark>, c: Comment, p: Place)
    ensures PlaceOf(ms, c) == p <==> Belongs(ms, c, p)
  {
    PlaceBelongs(ms, c);
    if Belongs(ms, c, p) {
      OnePlaceBelongs(ms, c, PlaceOf(ms, c), p);
    }
  }

  lemma PlaceBelongs(ms: seq<Mark>, c: Comment)
    ensures Belongs(ms, c, PlaceOf(ms, c))
  {
    LastOnIsThere(ms, c.line);
    NearestIsNearest(ms, c.line);
    if ms != [] {
      MinLineIsLeast(ms);
    }
    hide LastOn, NearestAfter, MinLine, IsNearest;
  }

  lemma OnePlaceBelongs(ms: seq<Mark>, c: Comment, p: Place, q: Place)
    requires Belongs(ms, c, p) && Belongs(ms, c, q)
    ensures p == q
  {
    assert ms != [] ==> ms[0] in ms;
    if p.Trailing? && q.Trailing? {
      var i :| 0 <= i < |ms| && ms[i] == Mark(p.id, c.line) && forall j :: i < j < |ms| ==> ms[j].line != c.line;
      var k :| 0 <= k < |ms| && ms[k] == Mark(q.id, c.line) && forall j :: k < j < |ms| ==> ms[j].line != c.line;
      assert i == k;
    } else if p.Leading? && q.Leading? {
      var i :| 0 <= i < |ms| && IsNearest(ms, c.line, i) && ms[i].id == p.id;
      var k :| 0 <= k < |ms| && IsNearest(ms, c.line, k) && ms[k].id == q.id;
      assert i == k;
    }
  }

  lemma {:induction false} MarksAreIds(f: Forest, m: Mark)
    requires m in LineStmts(f)
    ensures m.id in Ids(f)
    decreases f
  {
    if !(f.line.Some? && m == Mark(f.id, f.line.value)) {
      if m in LineStmts(f.legs) {
        MarksAreIds(f.legs, m);
      } else if m in LineStmts(f.orelse) {
        MarksAreIds(f.orelse, m);
      } else {
        MarksAreIds(f.rest, m);
      }
    }
  }

  /** The places hold the comments of `cs`, each as often as it occurs. */
  ghost predicate Conserved(ms: seq<Mark>, cs: seq<Comment>, f: Forest) {
    multiset(At(ms, cs, Header)) + Counted(ms, cs, f) + multiset(At(ms, cs, Footer)) == multiset(cs)
  }

  lemma OneMoreConserved(ms: seq<Mark>, cs: seq<Comment>, c: Comment, f: Forest)
    requires Conserved(ms, cs, f)
    requires var p := PlaceOf(ms, c);
             && (AnchorId(p).Some? ==> Ids(f)[AnchorId(p).value] <= 1)
             && If(p == Header, c) + If(Hits(p, f), c) + If(p == Footer, c) == multiset{c}
    ensures Conserved(ms, cs + [c], f)
  {
    hide PlaceOf, Ids, Hits, If, At, Counted;
    var p := PlaceOf(ms, c);
    OneMore(ms, cs, c, f);
    AtAppends(ms, cs, c, Header);
    AtAppends(ms, cs, c, Footer);
    Sum3(At(ms, cs, Header), p == Header, Counted(ms, cs, f), Hits(p, f), At(ms, cs, Footer), p == Footer, c, cs);
  }

  lemma {:induction false} EveryPlaceCounts(f: Forest, cs: seq<Comment>)
    requires Distinct(f)
    ensures Conserved(LineStmts(f), cs, f)
    decreases |cs|
  {
    hide PlaceOf, LineStmts, Ids, Hits, If, At, Distinct, Counted;
    if cs == [] {
      NoneConserved(LineStmts(f), cs, f);
    } else {
      var init, c := cs[..|cs| - 1], cs[|cs| - 1];
      hide Conserved;
      OnePlace(f, c);
      EveryPlaceCounts(f, init);
      OneMoreConserved(LineStmts(f), init, c, f);
      assert cs == init + [c];
    }
  }

  lemma NoneConserved(ms: seq<Mark>, cs: seq<Comment>, f: Forest)
    requires cs == []
    ensures Conserved(ms, cs, f)
  {
    NothingCounted(ms, cs, f);
  }

  lemma Sum3(s: seq<Comment>, b1: bool, m: multiset<Comment>, b2: bool, t: seq<Comment>, b3: bool, c: Comment,
             init: seq<Comment>)
    requires multiset(s) + m + multiset(t) == multiset(init)
    requires If(b1, c) + If(b2, c) + If(b3, c) == multiset{c}
    ensures multiset(s + if b1 then [c] else []) + (m + If(b2, c)) + multiset(t + if b3 then [c] else [])
            == multiset(init + [c])
  {
    var a, b, d := If(b1, c), If(b2, c), If(b3, c);
    assert multiset(s + if b1 then [c] else []) == multiset(s) + a;
    assert multiset(t + if b3 then [c] else []) == multiset(t) + d;
    Regroup3(multiset(s), a, m, b, multiset(t), d);
    assert multiset(init + [c]) == multiset(init) + multiset{c};
  }

  lemma Regroup3(s: multiset<Comment>, a: multiset<Comment>, m: multiset<Comment>, b: multiset<Comment>,
                 t: multiset<Comment>, d: multiset<Comment>)
    ensures (s + a) + (m + b) + (t + d) == (s + m + t) + (a + b + d)
  {
  }

  /** A comment goes to the header, the footer or one statement of the tree. */
  lemma OnePlace(f: Forest, c: Comment)
    requires Distinct(f)
    ensures var p := PlaceOf(LineStmts(f), c);
            && (AnchorId(p).Some? ==> Ids(f)[AnchorId(p).value] <= 1)
            && If(p == Header, c) + If(Hits(p, f), c) + If(p == Footer, c) == multiset{c}
  {
    var ms := LineStmts(f);
    PlaceBelongs(ms, c);
    var p := PlaceOf(ms, c);
    hide PlaceOf, LineStmts, Ids;
    if p.Leading? {
      var i :| 0 <= i < |ms| && IsNearest(ms, c.line, i) && ms[i].id == p.id;
      MarksAreIds(f, ms[i]);
    } else if p.Trailing? {
      MarksAreIds(f, Mark(p.id, c.line));
    }
  }

  lemma {:induction false} NothingCounted(ms: seq<Mark>, cs: seq<Comment>, f: Forest)
    requires cs == []
    ensures Counted(ms, cs, f) == multiset{}
    decreases f
  {
    if f.Tree? {
      NothingCounted(ms, cs, f.legs);
      NothingCounted(ms, cs, f.orelse);
      NothingCounted(ms, cs, f.rest);
    }
  }

  ghost predicate Sorted(cs: seq<Comment>) {
    forall i, j :: 0 <= i < j < |cs| ==> Before(cs[i], cs[j])
  }

  lemma {:induction false} InsertSorts(c: Comment, cs: seq<Comment>)
    requires Sorted(cs)
    ensures Sorted(Insert(c, cs))
  {
    if cs != [] && !Before(c, cs[0]) {
      InsertSorts(c, cs[1..]);
      InsertKeeps(c, cs[1..]);
      var r := Insert(c, cs[1..]);
      forall j | 0 <= j < |r| ensures Before(cs[0], r[j]) {
        assert r[j] in multiset(r);
      }
    } else {
      assert forall j :: 0 <= j < |cs| ==> Before(c, cs[j]);
    }
  }

  /** Source order, whatever order the comments were given in. */
  lemma {:induction false} OrderedIsSorted(cs: seq<Comment>)
    ensures Sorted(Ordered(cs))
  {
    if cs != [] {
      OrderedIsSorted(cs[1..]);
      InsertSorts(cs[0], Ordered(cs[1..]));
    }
  }

  lemma {:induction false} InsertKeeps(c: Comment, cs: seq<Comment>)
    ensures multiset(Insert(c, cs)) == multiset{c} + multiset(cs)
  {
    if cs != [] {
      assert cs == [cs[0]] + cs[1..];
      InsertKeeps(c, cs[1..]);
    }
  }

  lemma {:induction false} OrderedKeeps(cs: seq<Comment>)
    ensures multiset(Ordered(cs)) == multiset(cs)
  {
    if cs != [] {
      assert cs == [cs[0]] + cs[1..];
      OrderedKeeps(cs[1..]);
      InsertKeeps(cs[0], Ordered(cs[1..]));
    }
  }

  /** No comment is dropped and none is held twice: what the places hold, in the order in which
      their statements are emitted, is the comments of the source. */
  lemma CommentsConserved(f: Forest, comments: seq<Comment>, a: Anchors)
    requires Distinct(f) && Anchored(a, LineStmts(f), Ordered(comments))
    ensures multiset(PrintedAll(a, f)) == multiset(comments)
  {
    hide Distinct, LineStmts;
    OrderedKeeps(comments);
    EveryPlaceCounts(f, Ordered(comments));
    PrintedIsCounted(a, LineStmts(f), Ordered(comments), f);
  }
}
