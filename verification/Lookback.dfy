/** How many past price bars each variable's assignments read: a bounded loop raises the counts
    until a round changes nothing. */
module Lookback {

  /** An expression as the count sees it. Offsets and window lengths are the constants the scan
      has already checked; anything it refuses is not here. */
  datatype Term =
    | Word(name: string)                     // an identifier
    | PriorBar                               // a word that reads one bar back
    | Offset(series: Term, back: nat)        // series[back] of a price or a call
    | VarBack(name: string, back: nat)       // variable[back]
    | Element(name: string, index: Term)     // array[index], an element
    | Window(bars: nat, args: Terms, guarded: bool)  // a call over the last bars; crosses read one, unguarded
    | Node(parts: Terms)                     // any other call or operator

  datatype Terms = None_ | More(head: Term, tail: Terms)

  datatype Assign = Assign(target: string, value: Term)

  type Needs = map<string, nat>

  function Get(needs: Needs, x: string): nat {
    if x in needs then needs[x] else 0
  }

  function MaxNat(a: nat, b: nat): nat {
    if a < b then b else a
  }

  /** Past bars an expression reads, given what the variables are known to need. A variable read
      back counts nothing until it is known to read price bars itself. */
  function Need(needs: Needs, t: Term): nat
    decreases t
  {
    match t
    case Word(x) => Get(needs, x)
    case PriorBar => 1
    case Offset(s, k) => k + Need(needs, s)
    case VarBack(x, k) => if Get(needs, x) == 0 then 0 else k + Get(needs, x)
    case Element(a, i) => MaxNat(Need(needs, i), Get(needs, a))
    case Window(n, args, _) => n + NeedAll(needs, args)
    case Node(parts) => NeedAll(needs, parts)
  }

  function NeedAll(needs: Needs, ts: Terms): nat
    decreases ts
  {
    match ts
    case None_ => 0
    case More(t, rest) => MaxNat(Need(needs, t), NeedAll(needs, rest))
  }

  /** The variables an expression reads. */
  function Reads(t: Term): set<string>
    decreases t
  {
    match t
    case Word(x) => {x}
    case PriorBar => {}
    case Offset(s, _) => Reads(s)
    case VarBack(x, _) => {x}
    case Element(a, i) => {a} + Reads(i)
    case Window(_, args, _) => ReadsAll(args)
    case Node(parts) => ReadsAll(parts)
  }

  function ReadsAll(ts: Terms): set<string>
    decreases ts
  {
    match ts
    case None_ => {}
    case More(t, rest) => Reads(t) + ReadsAll(rest)
  }

  ghost predicate Below(a: Needs, b: Needs) {
    forall x :: Get(a, x) <= Get(b, x)
  }

  /** Knowing more only raises what an expression reads. */
  lemma {:induction false} NeedIsMonotone(a: Needs, b: Needs, t: Term)
    requires Below(a, b)
    ensures Need(a, t) <= Need(b, t)
    decreases t
  {
    match t
    case Word(x) => assert Get(a, x) <= Get(b, x);
    case PriorBar =>
    case Offset(s, _) => NeedIsMonotone(a, b, s);
    case VarBack(x, _) => assert Get(a, x) <= Get(b, x);
    case Element(arr, i) =>
      NeedIsMonotone(a, b, i);
      assert Get(a, arr) <= Get(b, arr);
    case Window(_, args, _) => NeedAllIsMonotone(a, b, args);
    case Node(parts) => NeedAllIsMonotone(a, b, parts);
  }

  lemma {:induction false} NeedAllIsMonotone(a: Needs, b: Needs, ts: Terms)
    requires Below(a, b)
    ensures NeedAll(a, ts) <= NeedAll(b, ts)
    decreases ts
  {
    if ts.More? {
      NeedIsMonotone(a, b, ts.head);
      NeedAllIsMonotone(a, b, ts.tail);
    }
  }

  /** Only the variables read matter. */
  lemma {:induction false} NeedIsLocal(a: Needs, b: Needs, t: Term)
    requires forall x :: x in Reads(t) ==> Get(a, x) == Get(b, x)
    ensures Need(a, t) == Need(b, t)
    decreases t
  {
    match t
    case Word(x) => assert x in Reads(t);
    case PriorBar =>
    case Offset(s, _) => NeedIsLocal(a, b, s);
    case VarBack(x, _) => assert x in Reads(t);
    case Element(arr, i) =>
      NeedIsLocal(a, b, i);
      assert arr in Reads(t);
    case Window(_, args, _) => NeedAllIsLocal(a, b, args);
    case Node(parts) => NeedAllIsLocal(a, b, parts);
  }

  lemma {:induction false} NeedAllIsLocal(a: Needs, b: Needs, ts: Terms)
    requires forall x :: x in ReadsAll(ts) ==> Get(a, x) == Get(b, x)
    ensures NeedAll(a, ts) == NeedAll(b, ts)
    decreases ts
  {
    if ts.More? {
      NeedIsLocal(a, b, ts.head);
      NeedAllIsLocal(a, b, ts.tail);
    }
  }

  // ---- Solutions -------------------------------------------------------------------------

  /** Every variable counts at least what each of its assignments reads. */
  ghost predicate Covers(assigns: seq<Assign>, needs: Needs) {
    forall i :: 0 <= i < |assigns| ==> Need(needs, assigns[i].value) <= Get(needs, assigns[i].target)
  }

  ghost predicate LeastCover(assigns: seq<Assign>, needs: Needs) {
    Covers(assigns, needs) && forall other :: Covers(assigns, other) ==> Below(needs, other)
  }

  /** The most that any assignment to `x` reads. */
  function MostRead(assigns: seq<Assign>, needs: Needs, x: string): nat {
    if assigns == [] then 0
    else MaxNat(MostRead(assigns[..|assigns| - 1], needs, x),
                if assigns[|assigns| - 1].target == x then Need(needs, assigns[|assigns| - 1].value) else 0)
  }

  lemma {:induction false} MostReadBounds(assigns: seq<Assign>, needs: Needs, x: string, bound: nat)
    requires forall i :: 0 <= i < |assigns| && assigns[i].target == x ==> Need(needs, assigns[i].value) <= bound
    ensures MostRead(assigns, needs, x) <= bound
    ensures forall i :: 0 <= i < |assigns| && assigns[i].target == x ==>
              Need(needs, assigns[i].value) <= MostRead(assigns, needs, x)
  {
    if assigns != [] {
      var init := assigns[..|assigns| - 1];
      forall i | 0 <= i < |init| && init[i].target == x ensures Need(needs, init[i].value) <= bound {
        assert init[i] == assigns[i];
      }
      MostReadBounds(init, needs, x, bound);
      forall i | 0 <= i < |assigns| && assigns[i].target == x
        ensures Need(needs, assigns[i].value) <= MostRead(assigns, needs, x)
      {
        if i < |init| {
          assert init[i] == assigns[i];
        }
      }
    }
  }

  /** The least cover solves the equations: each variable needs exactly the most that one of its
      assignments reads. */
  lemma LeastCoverSolves(assigns: seq<Assign>, needs: Needs, x: string)
    requires LeastCover(assigns, needs)
    ensures Get(needs, x) == MostRead(assigns, needs, x)
  {
    MostReadBounds(assigns, needs, x, Get(needs, x));
    var lower := needs[x := MostRead(assigns, needs, x)];
    assert Below(lower, needs);
    forall i | 0 <= i < |assigns| ensures Need(lower, assigns[i].value) <= Get(lower, assigns[i].target) {
      NeedIsMonotone(lower, needs, assigns[i].value);
    }
    assert Covers(assigns, lower);
    assert Get(needs, x) <= Get(lower, x);
  }

  /** A variable averaged over its own past has no count that covers it, so its loop never
      settles. */
  lemma SelfWindowHasNoCover(assigns: seq<Assign>, i: nat, x: string, bars: nat, guarded: bool, needs: Needs)
    requires i < |assigns| && bars >= 1
    requires assigns[i] == Assign(x, Window(bars, More(Word(x), None_), guarded))
    ensures !Covers(assigns, needs)
  {
    assert NeedAll(needs, More(Word(x), None_)) == MaxNat(Get(needs, x), NeedAll(needs, None_));
    assert Need(needs, assigns[i].value) > Get(needs, assigns[i].target);
  }

  // ---- Acyclic dependencies ------------------------------------------------------------------

  function Targets(assigns: seq<Assign>): set<string> {
    set i | 0 <= i < |assigns| :: assigns[i].target
  }

  /** `rank` orders the assigned variables so that each reads only lower ones. */
  ghost predicate Ranks(assigns: seq<Assign>, rank: map<string, nat>) {
    && Targets(assigns) <= rank.Keys
    && forall i, y :: 0 <= i < |assigns| && y in Reads(assigns[i].value) && y in Targets(assigns)
         ==> rank[y] < rank[assigns[i].target]
  }

  ghost predicate Acyclic(assigns: seq<Assign>) {
    exists rank :: Ranks(assigns, rank)
  }

  /** How many assigned variables rank below `x`. */
  ghost function Position(assigns: seq<Assign>, rank: map<string, nat>, x: string): nat
    requires Targets(assigns) <= rank.Keys && x in rank
  {
    |set y | y in Targets(assigns) && rank[y] < rank[x]|
  }

  lemma PositionGrows(assigns: seq<Assign>, rank: map<string, nat>, x: string, y: string)
    requires Targets(assigns) <= rank.Keys && x in Targets(assigns) && y in Targets(assigns) && rank[y] < rank[x]
    ensures Position(assigns, rank, y) < Position(assigns, rank, x)
  {
    var a, b := set z | z in Targets(assigns) && rank[z] < rank[y], set z | z in Targets(assigns) && rank[z] < rank[x];
    assert a + {y} <= b && y !in a;
    SubsetSmaller(a + {y}, b);
  }

  lemma PositionBounded(assigns: seq<Assign>, rank: map<string, nat>, x: string)
    requires Targets(assigns) <= rank.Keys && x in Targets(assigns)
    ensures Position(assigns, rank, x) < |Targets(assigns)|
  {
    var a := set z | z in Targets(assigns) && rank[z] < rank[x];
    assert a + {x} <= Targets(assigns) && x !in a;
    SubsetSmaller(a + {x}, Targets(assigns));
  }

  lemma {:induction false} SubsetSmaller(a: set<string>, b: set<string>)
    requires a <= b
    ensures |a| <= |b|
    decreases |a|
  {
    if a != {} {
      var x :| x in a;
      SubsetSmaller(a - {x}, b - {x});
    }
  }

  lemma {:induction false} TargetsBounded(assigns: seq<Assign>)
    ensures |Targets(assigns)| <= |assigns|
  {
    if assigns != [] {
      var init, last := assigns[..|assigns| - 1], assigns[|assigns| - 1].target;
      TargetsBounded(init);
      forall x | x in Targets(assigns) ensures x in Targets(init) + {last} {
        var i :| 0 <= i < |assigns| && assigns[i].target == x;
        assert i < |init| ==> init[i].target == x;
      }
      SubsetSmaller(Targets(assigns), Targets(init) + {last});
    }
  }

  /** The first `k` assignments to variables placed below `r` are covered. */
  ghost predicate SettledBelow(assigns: seq<Assign>, rank: map<string, nat>, needs: Needs, r: nat, k: nat)
    requires Targets(assigns) <= rank.Keys
  {
    forall i :: 0 <= i < k && i < |assigns| ==>
      assert assigns[i].target in Targets(assigns);
      Position(assigns, rank, assigns[i].target) < r ==> Need(needs, assigns[i].value) <= Get(needs, assigns[i].target)
  }

  /** Raising a variable placed at or above `r` disturbs nothing below, and covers nothing less. */
  lemma RaiseKeeps(assigns: seq<Assign>, rank: map<string, nat>, needs: Needs, r: nat, k: nat, x: string, n: nat)
    requires Ranks(assigns, rank) && SettledBelow(assigns, rank, needs, r, k) && n > Get(needs, x)
    requires x in Targets(assigns) && Position(assigns, rank, x) + 1 >= r
    ensures SettledBelow(assigns, rank, needs[x := n], r, k)
  {
    var needs' := needs[x := n];
    forall i | 0 <= i < k && i < |assigns| && assigns[i].target in Targets(assigns)
               && Position(assigns, rank, assigns[i].target) < r
      ensures Need(needs', assigns[i].value) <= Get(needs', assigns[i].target)
    {
      if x in Reads(assigns[i].value) {
        PositionGrows(assigns, rank, assigns[i].target, x);
        assert false;
      }
      NeedIsLocal(needs, needs', assigns[i].value);
    }
  }

  /** A variable just raised covers the assignment that raised it, which does not read it. */
  lemma OwnValue(assigns: seq<Assign>, rank: map<string, nat>, needs: Needs, i: nat, n: nat)
    requires Ranks(assigns, rank) && i < |assigns| && n == Need(needs, assigns[i].value)
    ensures var needs' := needs[assigns[i].target := n];
            Need(needs', assigns[i].value) <= Get(needs', assigns[i].target)
  {
    assert assigns[i].target in Targets(assigns);
    NeedIsLocal(needs, needs[assigns[i].target := n], assigns[i].value);
  }

  /** One assignment of a round: raising its target when it reads more. */
  function Raised(needs: Needs, a: Assign): Needs {
    if Need(needs, a.value) > Get(needs, a.target) then needs[a.target := Need(needs, a.value)] else needs
  }

  lemma RaisedSettles(assigns: seq<Assign>, rank: map<string, nat>, needs: Needs, r: nat, i: nat)
    requires Ranks(assigns, rank) && i < |assigns|
    requires SettledBelow(assigns, rank, needs, r, |assigns|) && SettledBelow(assigns, rank, needs, r + 1, i)
    ensures SettledBelow(assigns, rank, Raised(needs, assigns[i]), r, |assigns|)
    ensures SettledBelow(assigns, rank, Raised(needs, assigns[i]), r + 1, i + 1)
  {
    hide Position, Need, Reads;
    var x, n := assigns[i].target, Need(needs, assigns[i].value);
    assert x in Targets(assigns);
    if n > Get(needs, x) {
      assert Position(assigns, rank, x) >= r;
      RaiseKeeps(assigns, rank, needs, r, |assigns|, x, n);
      RaiseKeeps(assigns, rank, needs, r + 1, i, x, n);
      OwnValue(assigns, rank, needs, i, n);
    }
  }

  lemma NothingToRaise(assigns: seq<Assign>, rank: map<string, nat>, needs: Needs, i: nat)
    requires Ranks(assigns, rank) && i < |assigns|
    requires SettledBelow(assigns, rank, needs, |Targets(assigns)|, |assigns|)
    ensures Need(needs, assigns[i].value) <= Get(needs, assigns[i].target)
  {
    assert assigns[i].target in Targets(assigns);
    PositionBounded(assigns, rank, assigns[i].target);
  }

  lemma RaisedIsBelow(assigns: seq<Assign>, needs: Needs, i: nat, other: Needs)
    requires i < |assigns| && Covers(assigns, other) && Below(needs, other)
    ensures Below(Raised(needs, assigns[i]), other)
  {
    NeedIsMonotone(needs, other, assigns[i].value);
  }

  // ---- Passes over the assignments ---------------------------------------------------------------

  /** One round: every assignment in source order. */
  function Pass(needs: Needs, assigns: seq<Assign>): Needs {
    if assigns == [] then needs else Raised(Pass(needs, assigns[..|assigns| - 1]), assigns[|assigns| - 1])
  }

  function Passes(assigns: seq<Assign>, n: nat): Needs {
    if n == 0 then map[] else Pass(Passes(assigns, n - 1), assigns)
  }

  lemma PassSteps(needs: Needs, assigns: seq<Assign>, i: nat)
    requires i < |assigns|
    ensures Pass(needs, assigns[..i + 1]) == Raised(Pass(needs, assigns[..i]), assigns[i])
  {
    assert assigns[..i + 1][..i] == assigns[..i];
  }

  lemma {:induction false} PassIsBelow(needs: Needs, assigns: seq<Assign>, k: nat, other: Needs)
    requires k <= |assigns| && Covers(assigns, other) && Below(needs, other)
    ensures Below(Pass(needs, assigns[..k]), other)
  {
    if k > 0 {
      PassIsBelow(needs, assigns, k - 1, other);
      PassSteps(needs, assigns, k - 1);
      RaisedIsBelow(assigns, Pass(needs, assigns[..k - 1]), k - 1, other);
    } else {
      assert assigns[..0] == [];
    }
  }

  /** Passes from nothing stay below every cover. */
  lemma {:induction false} PassesAreBelow(assigns: seq<Assign>, n: nat, other: Needs)
    requires Covers(assigns, other)
    ensures Below(Passes(assigns, n), other)
  {
    if n > 0 {
      PassesAreBelow(assigns, n - 1, other);
      PassIsBelow(Passes(assigns, n - 1), assigns, |assigns|, other);
      assert assigns[..|assigns|] == assigns;
    }
  }

  // ---- Acyclic dependencies settle ------------------------------------------------------------------

  lemma {:induction false} PassSettles(assigns: seq<Assign>, rank: map<string, nat>, needs: Needs, r: nat, k: nat)
    requires Ranks(assigns, rank) && k <= |assigns| && SettledBelow(assigns, rank, needs, r, |assigns|)
    ensures SettledBelow(assigns, rank, Pass(needs, assigns[..k]), r, |assigns|)
    ensures SettledBelow(assigns, rank, Pass(needs, assigns[..k]), r + 1, k)
  {
    hide Raised, Need, Position, Reads;
    if k > 0 {
      PassSteps(needs, assigns, k - 1);
      hide SettledBelow, Ranks, Pass;
      PassSettles(assigns, rank, needs, r, k - 1);
      RaisedSettles(assigns, rank, Pass(needs, assigns[..k - 1]), r, k - 1);
    } else {
      assert assigns[..0] == [];
    }
  }

  lemma {:induction false} PassesSettle(assigns: seq<Assign>, rank: map<string, nat>, n: nat)
    requires Ranks(assigns, rank)
    ensures SettledBelow(assigns, rank, Passes(assigns, n), n, |assigns|)
  {
    if n > 0 {
      PassesSettle(assigns, rank, n - 1);
      hide SettledBelow, Ranks, Pass;
      PassSettles(assigns, rank, Passes(assigns, n - 1), n - 1, |assigns|);
      assert assigns[..|assigns|] == assigns;
    }
  }

  /** When no variable depends on itself the counts have a cover. */
  lemma AcyclicHasCover(assigns: seq<Assign>)
    requires Acyclic(assigns)
    ensures exists needs :: Covers(assigns, needs)
  {
    var rank :| Ranks(assigns, rank);
    var needs := Passes(assigns, |Targets(assigns)|);
    PassesSettle(assigns, rank, |Targets(assigns)|);
    hide SettledBelow, Ranks, Passes;
    forall i | 0 <= i < |assigns| ensures Need(needs, assigns[i].value) <= Get(needs, assigns[i].target) {
      NothingToRaise(assigns, rank, needs, i);
    }
    assert Covers(assigns, needs);
  }

  // ---- Any cover settles the loop -------------------------------------------------------------------

  /** What `t` reads comes from `y`: raising `y` further raises it as much. */
  ghost predicate Critical(t: Term, needs: Needs, y: string) {
    forall m :: Get(m, y) >= Get(needs, y) ==> Need(m, t) - Need(needs, t) >= Get(m, y) - Get(needs, y)
  }

  ghost predicate CriticalAll(ts: Terms, needs: Needs, y: string) {
    forall m :: Get(m, y) >= Get(needs, y) ==> NeedAll(m, ts) - NeedAll(needs, ts) >= Get(m, y) - Get(needs, y)
  }

  /** What grew when `x` was raised comes from `x`. */
  lemma {:induction false} GrowthIsCritical(needs: Needs, x: string, n: nat, t: Term)
    requires n > Get(needs, x) && Need(needs[x := n], t) > Need(needs, t)
    ensures Critical(t, needs[x := n], x)
    decreases t
  {
    var next := needs[x := n];
    match t
    case Word(y) =>
    case PriorBar =>
    case Offset(s, _) => GrowthIsCritical(needs, x, n, s);
    case VarBack(y, _) =>
    case Element(a, i) =>
      if Need(next, t) == Need(next, i) {
        GrowthIsCritical(needs, x, n, i);
      } else {
        assert a == x;
      }
    case Window(_, args, _) => GrowthIsCriticalAll(needs, x, n, args);
    case Node(parts) => GrowthIsCriticalAll(needs, x, n, parts);
  }

  lemma {:induction false} GrowthIsCriticalAll(needs: Needs, x: string, n: nat, ts: Terms)
    requires n > Get(needs, x) && NeedAll(needs[x := n], ts) > NeedAll(needs, ts)
    ensures CriticalAll(ts, needs[x := n], x)
    decreases ts
  {
    if ts.More? {
      var next := needs[x := n];
      if NeedAll(next, ts) == Need(next, ts.head) {
        GrowthIsCritical(needs, x, n, ts.head);
      } else {
        GrowthIsCriticalAll(needs, x, n, ts.tail);
      }
    }
  }

  /** How far a count is below the cover. */
  function Slack(cover: Needs, needs: Needs, x: string): int {
    Get(cover, x) - Get(needs, x)
  }

  /** The assigned variables that have no more slack than `y`. */
  ghost function Tighter(assigns: seq<Assign>, cover: Needs, needs: Needs, y: string): set<string> {
    set z | z in Targets(assigns) && Slack(cover, needs, z) <= Slack(cover, needs, y)
  }

  /** Every assignment among the first `k` that still reads too much owes it to a variable at least
      `r` variables are as tight as. */
  ghost predicate OwedDeep(assigns: seq<Assign>, cover: Needs, needs: Needs, r: nat, k: nat) {
    forall i :: 0 <= i < k && i < |assigns| && Need(needs, assigns[i].value) > Get(needs, assigns[i].target) ==>
                  Owed(assigns, cover, needs, r, assigns[i].value)
  }

  ghost predicate Owed(assigns: seq<Assign>, cover: Needs, needs: Needs, r: nat, t: Term) {
    exists y :: y in Targets(assigns) && Critical(t, needs, y) && |Tighter(assigns, cover, needs, y)| >= r
  }

  /** A raise that is owed to `y` leaves its variable with at least the slack of `y`, and it had
      more: one more variable is as tight. */
  lemma RaiseIsDeeper(assigns: seq<Assign>, cover: Needs, needs: Needs, i: nat, y: string, r: nat)
    requires Covers(assigns, cover) && Below(needs, cover) && i < |assigns|
    requires Need(needs, assigns[i].value) > Get(needs, assigns[i].target)
    requires y in Targets(assigns) && Critical(assigns[i].value, needs, y) && |Tighter(assigns, cover, needs, y)| >= r
    ensures |Tighter(assigns, cover, Raised(needs, assigns[i]), assigns[i].target)| >= r + 1
  {
    var x, next := assigns[i].target, Raised(needs, assigns[i]);
    assert Get(cover, y) >= Get(needs, y);
    assert Need(cover, assigns[i].value) - Need(needs, assigns[i].value) >= Slack(cover, needs, y);
    assert Slack(cover, next, x) >= Slack(cover, needs, y) && Slack(cover, needs, x) > Slack(cover, next, x);
    var a, b := Tighter(assigns, cover, needs, y), Tighter(assigns, cover, next, x);
    assert x in Targets(assigns) && x !in a;
    forall z | z in a ensures z in b {
      assert Get(next, z) >= Get(needs, z);
    }
    SubsetSmaller(a + {x}, b);
  }

  lemma FirstRaiseIsDeep(assigns: seq<Assign>, cover: Needs, needs: Needs, x: string)
    requires x in Targets(assigns)
    ensures |Tighter(assigns, cover, needs, x)| >= 1
  {
    SubsetSmaller({x}, Tighter(assigns, cover, needs, x));
  }

  /** Raising another variable takes nothing from those as tight as `y`. */
  lemma TighterGrows(assigns: seq<Assign>, cover: Needs, needs: Needs, x: string, n: nat, y: string)
    requires n > Get(needs, x) && y != x
    ensures |Tighter(assigns, cover, needs[x := n], y)| >= |Tighter(assigns, cover, needs, y)|
  {
    SubsetSmaller(Tighter(assigns, cover, needs, y), Tighter(assigns, cover, needs[x := n], y));
  }

  /** After a raise of `x`, whatever `t` reads too much is owed to `x` or to what it was owed to. */
  lemma RaiseOwes(assigns: seq<Assign>, cover: Needs, needs: Needs, x: string, n: nat, r: nat, t: Term)
    requires n > Get(needs, x) && x in Targets(assigns) && |Tighter(assigns, cover, needs[x := n], x)| >= r
    requires Need(needs[x := n], t) > Need(needs, t) || Owed(assigns, cover, needs, r, t)
    ensures Owed(assigns, cover, needs[x := n], r, t)
  {
    if Need(needs[x := n], t) > Need(needs, t) {
      GrowthIsCritical(needs, x, n, t);
    } else {
      StillOwed(assigns, cover, needs, x, n, r, t);
    }
  }

  lemma StillOwed(assigns: seq<Assign>, cover: Needs, needs: Needs, x: string, n: nat, r: nat, t: Term)
    requires n > Get(needs, x) && Need(needs[x := n], t) <= Need(needs, t) && Owed(assigns, cover, needs, r, t)
    ensures Owed(assigns, cover, needs[x := n], r, t)
  {
    var next := needs[x := n];
    hide Need, Tighter, Targets;
    assert Below(needs, next);
    NeedIsMonotone(needs, next, t);
    var y :| y in Targets(assigns) && Critical(t, needs, y) && |Tighter(assigns, cover, needs, y)| >= r;
    assert y != x by {
      assert y == x ==> Get(next, y) >= Get(needs, y) && Need(next, t) - Need(needs, t) >= Get(next, y) - Get(needs, y);
    }
    TighterGrows(assigns, cover, needs, x, n, y);
    assert Critical(t, next, y);
  }

  /** One assignment of a round. */
  lemma RaisedOwes(assigns: seq<Assign>, cover: Needs, needs: Needs, r: nat, i: nat)
    requires Covers(assigns, cover) && Below(needs, cover) && i < |assigns|
    requires r == 0 || OwedDeep(assigns, cover, needs, r, |assigns|)
    requires OwedDeep(assigns, cover, needs, r + 1, i)
    ensures r == 0 || OwedDeep(assigns, cover, Raised(needs, assigns[i]), r, |assigns|)
    ensures OwedDeep(assigns, cover, Raised(needs, assigns[i]), r + 1, i + 1)
  {
    var x, n, next := assigns[i].target, Need(needs, assigns[i].value), Raised(needs, assigns[i]);
    assert x in Targets(assigns);
    if n > Get(needs, x) {
      DeepAfter(assigns, cover, needs, r, i);
      hide Owed, Critical, Tighter, Targets, Covers, Need;
      forall j | 0 <= j < |assigns| && Need(next, assigns[j].value) > Get(next, assigns[j].target)
        ensures r == 0 || Owed(assigns, cover, next, r, assigns[j].value)
        ensures j < i + 1 ==> Owed(assigns, cover, next, r + 1, assigns[j].value)
      {
        assert Get(next, assigns[j].target) >= Get(needs, assigns[j].target);
        if r > 0 {
          RaiseOwes(assigns, cover, needs, x, n, r, assigns[j].value);
        }
        if j <= i {
          assert j == i ==> Need(next, assigns[j].value) > Need(needs, assigns[j].value);
          RaiseOwes(assigns, cover, needs, x, n, r + 1, assigns[j].value);
        }
      }
    }
  }

  lemma DeepAfter(assigns: seq<Assign>, cover: Needs, needs: Needs, r: nat, i: nat)
    requires Covers(assigns, cover) && Below(needs, cover) && i < |assigns|
    requires r == 0 || OwedDeep(assigns, cover, needs, r, |assigns|)
    requires Need(needs, assigns[i].value) > Get(needs, assigns[i].target)
    ensures |Tighter(assigns, cover, Raised(needs, assigns[i]), assigns[i].target)| >= r + 1
  {
    hide Need, Critical, Covers, Tighter;
    if r == 0 {
      assert assigns[i].target in Targets(assigns);
      FirstRaiseIsDeep(assigns, cover, Raised(needs, assigns[i]), assigns[i].target);
    } else {
      assert Owed(assigns, cover, needs, r, assigns[i].value);
      var y :| y in Targets(assigns) && Critical(assigns[i].value, needs, y)
        && |Tighter(assigns, cover, needs, y)| >= r;
      RaiseIsDeeper(assigns, cover, needs, i, y, r);
    }
  }

  lemma {:induction false} PassOwes(assigns: seq<Assign>, cover: Needs, needs: Needs, r: nat, k: nat)
    requires Covers(assigns, cover) && Below(needs, cover) && k <= |assigns|
    requires r == 0 || OwedDeep(assigns, cover, needs, r, |assigns|)
    ensures r == 0 || OwedDeep(assigns, cover, Pass(needs, assigns[..k]), r, |assigns|)
    ensures OwedDeep(assigns, cover, Pass(needs, assigns[..k]), r + 1, k)
  {
    hide Raised, Covers, Below, Owed, Need;
    if k > 0 {
      PassSteps(needs, assigns, k - 1);
      PassIsBelow(needs, assigns, k - 1, cover);
      hide OwedDeep, Pass;
      PassOwes(assigns, cover, needs, r, k - 1);
      RaisedOwes(assigns, cover, Pass(needs, assigns[..k - 1]), r, k - 1);
    } else {
      assert assigns[..0] == [];
    }
  }

  lemma {:induction false} PassesOwe(assigns: seq<Assign>, cover: Needs, n: nat)
    requires Covers(assigns, cover) && n > 0
    ensures OwedDeep(assigns, cover, Passes(assigns, n), n, |assigns|)
  {
    if n > 1 {
      PassesOwe(assigns, cover, n - 1);
    }
    PassesAreBelow(assigns, n - 1, cover);
    hide OwedDeep, Pass, Covers, Below;
    PassOwes(assigns, cover, Passes(assigns, n - 1), n - 1, |assigns|);
    assert assigns[..|assigns|] == assigns;
  }

  /** When some cover exists, more passes than there are variables reach one: fewer variables than
      that can be as tight as another. */
  lemma CoverSettles(assigns: seq<Assign>, cover: Needs, n: nat)
    requires Covers(assigns, cover) && n > |Targets(assigns)|
    ensures Covers(assigns, Passes(assigns, n))
  {
    var needs := Passes(assigns, n);
    PassesOwe(assigns, cover, n);
    hide Passes, Critical, Need;
    forall i | 0 <= i < |assigns| ensures Need(needs, assigns[i].value) <= Get(needs, assigns[i].target) {
      if Need(needs, assigns[i].value) > Get(needs, assigns[i].target) {
        assert Owed(assigns, cover, needs, n, assigns[i].value);
        var y :| y in Targets(assigns) && |Tighter(assigns, cover, needs, y)| >= n;
        SubsetSmaller(Tighter(assigns, cover, needs, y), Targets(assigns));
        assert false;
      }
    }
  }

  /** `X = X + Close[1]` depends on itself and settles. */
  lemma CyclicCanSettle()
    ensures var assigns := [Assign("x", Node(More(Word("x"), More(Offset(Node(None_), 1), None_))))];
            !Acyclic(assigns) && Covers(assigns, map["x" := 1])
  {
    var value := Node(More(Word("x"), More(Offset(Node(None_), 1), None_)));
    var assigns := [Assign("x", value)];
    assert Reads(value) == {"x"} by {
      assert ReadsAll(More(Offset(Node(None_), 1), None_)) == {};
    }
    assert assigns[0].target in Targets(assigns);
    assert Need(map["x" := 1], value) == 1 by {
      assert NeedAll(map["x" := 1], More(Offset(Node(None_), 1), None_)) == 1;
    }
  }

  // ---- The loop --------------------------------------------------------------------------------

  class Scan {
    var varNeed: Needs

    constructor ()
      ensures varNeed == map[]
    {
      varNeed := map[];
    }

    /** One pass over the assignments in source order. */
    method Round(assigns: seq<Assign>) returns (changed: bool)
      modifies this
      ensures varNeed == Pass(old(varNeed), assigns)
      ensures changed <==> !Covers(assigns, old(varNeed))
      ensures !changed ==> varNeed == old(varNeed)
    {
      changed := false;
      var i := 0;
      hide Need;
      while i < |assigns|
        invariant 0 <= i <= |assigns|
        invariant varNeed == Pass(old(varNeed), assigns[..i])
        invariant !changed ==> varNeed == old(varNeed)
        invariant changed ==> !Covers(assigns, old(varNeed))
        invariant !changed ==>
                    forall j :: 0 <= j < i ==> Need(varNeed, assigns[j].value) <= Get(varNeed, assigns[j].target)
      {
        PassSteps(old(varNeed), assigns, i);
        var n := Need(varNeed, assigns[i].value);
        if n > Get(varNeed, assigns[i].target) {
          varNeed := varNeed[assigns[i].target := n];
          changed := true;
        }
        i := i + 1;
      }
      assert assigns[..i] == assigns;
    }

    /** At most two more rounds than there are assignments. A round changes nothing exactly when
        some counts cover every assignment, and the counts are then the least that do; without
        cyclic dependencies they always exist. */
    method Settle(assigns: seq<Assign>) returns (settled: bool)
      requires varNeed == map[]
      modifies this
      ensures settled <==> exists needs :: Covers(assigns, needs)
      ensures settled ==> LeastCover(assigns, varNeed)
      ensures Acyclic(assigns) ==> settled
    {
      settled := false;
      TargetsBounded(assigns);
      if Acyclic(assigns) {
        AcyclicHasCover(assigns);
      }
      hide Acyclic, Covers, Pass, Targets;
      var round := 0;
      while round < |assigns| + 2
        invariant 0 <= round <= |assigns| + 2
        invariant varNeed == Passes(assigns, round)
        invariant round > 0 ==> !Covers(assigns, Passes(assigns, round - 1))
      {
        var changed := Round(assigns);
        if !changed {
          settled := true;
          forall other | Covers(assigns, other) ensures Below(varNeed, other) {
            PassesAreBelow(assigns, round, other);
          }
          return;
        }
        round := round + 1;
      }
      forall needs | Covers(assigns, needs) ensures false {
        CoverSettles(assigns, needs, round - 1);
      }
    }
  }
}
