/** What the lookback count counts: the farthest price bar back that an expression reaches, through the
    variables it reads. */
module Reach {
  import opened Lookback

  /** `t` reads the price bar `d` bars back, following at most `n` variables. Everything reads the
      current bar; an offset reads its series that much earlier, a window all its bars; a name reads
      what any of its assignments reads. A variable read back that reads no past bar itself is its own
      history, not a price bar. */
  predicate Reaches(assigns: seq<Assign>, n: nat, t: Term, d: nat)
    decreases n, 1, t
  {
    || d == 0
    || match t
       case Word(x) => AssignedReaches(assigns, n, x, d)
       case PriorBar => d == 1
       case Offset(s, k) => d >= k && Reaches(assigns, n, s, d - k)
       case VarBack(x, k) => d > k && AssignedReaches(assigns, n, x, d - k)
       case Element(a, i) => Reaches(assigns, n, i, d) || AssignedReaches(assigns, n, a, d)
       case Window(b, args, _) => d <= b || AnyReaches(assigns, n, args, d - b)
       case Node(parts) => AnyReaches(assigns, n, parts, d)
  }

  /** One of the terms does. */
  predicate AnyReaches(assigns: seq<Assign>, n: nat, ts: Terms, d: nat)
    decreases n, 1, ts
  {
    d == 0 || (ts.More? && (Reaches(assigns, n, ts.head, d) || AnyReaches(assigns, n, ts.tail, d)))
  }

  /** One of the assignments to `x` does. */
  predicate AssignedReaches(assigns: seq<Assign>, n: nat, x: string, d: nat)
    decreases n, 0
  {
    n > 0 && exists i :: 0 <= i < |assigns| && assigns[i].target == x && Reaches(assigns, n - 1, assigns[i].value, d)
  }

  // ---- Nothing farther --------------------------------------------------------------------------------

  /** Counts that cover the assignments are at least what is reached. */
  lemma {:induction false} ReachIsCounted(assigns: seq<Assign>, needs: Needs, n: nat, t: Term, d: nat)
    requires Covers(assigns, needs) && Reaches(assigns, n, t, d)
    ensures d <= Need(needs, t)
    decreases n, 1, t
  {
    hide Covers;
    if d > 0 {
      match t
      case Word(x) => AssignedIsCounted(assigns, needs, n, x, d);
      case PriorBar =>
      case Offset(s, k) => ReachIsCounted(assigns, needs, n, s, d - k);
      case VarBack(x, k) => AssignedIsCounted(assigns, needs, n, x, d - k);
      case Element(a, i) =>
        if Reaches(assigns, n, i, d) {
          ReachIsCounted(assigns, needs, n, i, d);
        } else {
          AssignedIsCounted(assigns, needs, n, a, d);
        }
      case Window(b, args, _) =>
        if d > b {
          AnyIsCounted(assigns, needs, n, args, d - b);
        }
      case Node(parts) => AnyIsCounted(assigns, needs, n, parts, d);
    }
  }

  lemma {:induction false} AnyIsCounted(assigns: seq<Assign>, needs: Needs, n: nat, ts: Terms, d: nat)
    requires Covers(assigns, needs) && AnyReaches(assigns, n, ts, d)
    ensures d <= NeedAll(needs, ts)
    decreases n, 1, ts
  {
    hide Covers, Need;
    if d > 0 {
      if Reaches(assigns, n, ts.head, d) {
        ReachIsCounted(assigns, needs, n, ts.head, d);
      } else {
        AnyIsCounted(assigns, needs, n, ts.tail, d);
      }
    }
  }

  lemma {:induction false} AssignedIsCounted(assigns: seq<Assign>, needs: Needs, n: nat, x: string, d: nat)
    requires Covers(assigns, needs) && AssignedReaches(assigns, n, x, d)
    ensures d <= Get(needs, x)
    decreases n, 0
  {
    hide Need;
    var i :| 0 <= i < |assigns| && assigns[i].target == x && Reaches(assigns, n - 1, assigns[i].value, d);
    ReachIsCounted(assigns, needs, n - 1, assigns[i].value, d);
  }

  // ---- Nothing less -----------------------------------------------------------------------------------

  lemma {:induction false} ReachGrows(assigns: seq<Assign>, n: nat, m: nat, t: Term, d: nat)
    requires n <= m && Reaches(assigns, n, t, d)
    ensures Reaches(assigns, m, t, d)
    decreases n, 1, t
  {
    if d > 0 {
      match t
      case Word(x) => AssignedGrows(assigns, n, m, x, d);
      case PriorBar =>
      case Offset(s, k) => ReachGrows(assigns, n, m, s, d - k);
      case VarBack(x, k) => AssignedGrows(assigns, n, m, x, d - k);
      case Element(a, i) =>
        if Reaches(assigns, n, i, d) {
          ReachGrows(assigns, n, m, i, d);
        } else {
          AssignedGrows(assigns, n, m, a, d);
        }
      case Window(b, args, _) =>
        if d > b {
          AnyGrows(assigns, n, m, args, d - b);
        }
      case Node(parts) => AnyGrows(assigns, n, m, parts, d);
    }
  }

  lemma {:induction false} AnyGrows(assigns: seq<Assign>, n: nat, m: nat, ts: Terms, d: nat)
    requires n <= m && AnyReaches(assigns, n, ts, d)
    ensures AnyReaches(assigns, m, ts, d)
    decreases n, 1, ts
  {
    if d > 0 {
      if Reaches(assigns, n, ts.head, d) {
        ReachGrows(assigns, n, m, ts.head, d);
      } else {
        AnyGrows(assigns, n, m, ts.tail, d);
      }
    }
  }

  lemma {:induction false} AssignedGrows(assigns: seq<Assign>, n: nat, m: nat, x: string, d: nat)
    requires n <= m && AssignedReaches(assigns, n, x, d)
    ensures AssignedReaches(assigns, m, x, d)
    decreases n, 0
  {
    var i :| 0 <= i < |assigns| && assigns[i].target == x && Reaches(assigns, n - 1, assigns[i].value, d);
    ReachGrows(assigns, n - 1, m - 1, assigns[i].value, d);
  }

  /** Every count is reached by an assignment. */
  ghost predicate Grounded(assigns: seq<Assign>, needs: Needs, n: nat) {
    forall x :: Get(needs, x) > 0 ==> AssignedReaches(assigns, n, x, Get(needs, x))
  }

  lemma {:induction false} NeedIsReached(assigns: seq<Assign>, needs: Needs, n: nat, t: Term)
    requires Grounded(assigns, needs, n)
    ensures Reaches(assigns, n, t, Need(needs, t))
    decreases t
  {
    hide AssignedReaches;
    match t
    case Word(x) => assert Get(needs, x) > 0 ==> AssignedReaches(assigns, n, x, Get(needs, x));
    case PriorBar =>
    case Offset(s, k) => NeedIsReached(assigns, needs, n, s);
    case VarBack(x, k) => assert Get(needs, x) > 0 ==> AssignedReaches(assigns, n, x, Get(needs, x));
    case Element(a, i) =>
      NeedIsReached(assigns, needs, n, i);
      assert Get(needs, a) > 0 ==> AssignedReaches(assigns, n, a, Get(needs, a));
    case Window(b, args, _) => NeedAllIsReached(assigns, needs, n, args);
    case Node(parts) => NeedAllIsReached(assigns, needs, n, parts);
  }

  lemma {:induction false} NeedAllIsReached(assigns: seq<Assign>, needs: Needs, n: nat, ts: Terms)
    requires Grounded(assigns, needs, n)
    ensures AnyReaches(assigns, n, ts, NeedAll(needs, ts))
    decreases ts
  {
    if ts.More? {
      NeedIsReached(assigns, needs, n, ts.head);
      NeedAllIsReached(assigns, needs, n, ts.tail);
      hide Need, Reaches, Grounded;
    }
  }

  lemma RaiseIsGrounded(assigns: seq<Assign>, needs: Needs, n: nat, i: nat)
    requires Grounded(assigns, needs, n) && i < |assigns|
    ensures Grounded(assigns, Raised(needs, assigns[i]), n + 1)
  {
    var a, next := assigns[i], Raised(needs, assigns[i]);
    NeedIsReached(assigns, needs, n, a.value);
    hide Need, Reaches;
    forall x | Get(next, x) > 0 ensures AssignedReaches(assigns, n + 1, x, Get(next, x)) {
      if next != needs && x == a.target {
        assert Reaches(assigns, n, assigns[i].value, Get(next, x));
      } else {
        assert Get(next, x) == Get(needs, x);
        AssignedGrows(assigns, n, n + 1, x, Get(next, x));
      }
    }
  }

  lemma {:induction false} PassIsGrounded(assigns: seq<Assign>, needs: Needs, n: nat, k: nat)
    requires Grounded(assigns, needs, n) && k <= |assigns|
    ensures Grounded(assigns, Pass(needs, assigns[..k]), n + k)
  {
    hide Grounded, Raised;
    if k == 0 {
      assert assigns[..0] == [];
    } else {
      PassIsGrounded(assigns, needs, n, k - 1);
      PassSteps(needs, assigns, k - 1);
      RaiseIsGrounded(assigns, Pass(needs, assigns[..k - 1]), n + k - 1, k - 1);
    }
  }

  lemma {:induction false} PassesAreGrounded(assigns: seq<Assign>, rounds: nat) returns (n: nat)
    ensures Grounded(assigns, Passes(assigns, rounds), n)
  {
    if rounds == 0 {
      n := 0;
    } else {
      var m := PassesAreGrounded(assigns, rounds - 1);
      hide Grounded, Pass;
      PassIsGrounded(assigns, Passes(assigns, rounds - 1), m, |assigns|);
      assert assigns[..|assigns|] == assigns;
      n := m + |assigns|;
    }
  }

  // ---- Exactly ----------------------------------------------------------------------------------------

  /** `d` is the farthest price bar back that `t` reaches. */
  ghost predicate Farthest(assigns: seq<Assign>, t: Term, d: nat) {
    && (exists n :: Reaches(assigns, n, t, d))
    && forall n, e: nat :: Reaches(assigns, n, t, e) ==> e <= d
  }

  /** With the least counts, which are the ones the loop settles at, an expression's count is the
      farthest bar it reaches. */
  lemma NeedIsFarthest(assigns: seq<Assign>, needs: Needs, t: Term)
    requires LeastCover(assigns, needs)
    ensures Farthest(assigns, t, Need(needs, t))
  {
    var rounds := |Targets(assigns)| + 1;
    var settled := Passes(assigns, rounds);
    CoverSettles(assigns, needs, rounds);
    PassesAreBelow(assigns, rounds, needs);
    var n := PassesAreGrounded(assigns, rounds);
    assert forall x :: Get(needs, x) == Get(settled, x);
    hide Covers, Need, Reaches, Reads, Grounded, Passes, Targets;
    NeedIsLocal(needs, settled, t);
    NeedIsReached(assigns, settled, n, t);
    forall m, e: nat | Reaches(assigns, m, t, e) ensures e <= Need(needs, t) {
      ReachIsCounted(assigns, needs, m, t, e);
    }
  }

  /** `Highest(High, 10)[1]` reaches 11 bars back, and no farther. */
  lemma OffsetOfWindow(high: string)
    ensures Farthest([], Offset(Window(10, More(Word(high), None_), true), 1), 11)
  {
    var t := Offset(Window(10, More(Word(high), None_), true), 1);
    NeedIsFarthest([], map[], t);
    assert NeedAll(map[], More(Word(high), None_)) == 0;
  }
}
