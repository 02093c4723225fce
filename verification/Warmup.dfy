/** The number of bars the program reports, from the counts of the first pass, and when the warm-up of
    that length holds every bar that is read. */
module Warmup {
  import opened Sequences
  import opened Lookback
  import opened Reach

  // ---- The second pass ----------------------------------------------------------------------------------

  function Larger(a: Option<nat>, b: Option<nat>): Option<nat> {
    if a.Some? && b.Some? then Some(MaxNat(a.value, b.value)) else None
  }

  function Earlier(k: nat, a: Option<nat>): Option<nat> {
    if a.Some? then Some(k + a.value) else None
  }

  /** One of the arguments is just a variable that reads past bars. */
  predicate BareNeed(needs: Needs, args: Terms) {
    args.More? && ((args.head.Word? && Get(needs, args.head.name) > 0) || BareNeed(needs, args.tail))
  }

  /** What an expression reads besides what its variables read, these being counted where they are
      assigned. None is a refusal: a variable that reads past bars has no value before the first bar. */
  function Answer(needs: Needs, t: Term): Option<nat>
    decreases t
  {
    match t
    case Word(_) => Some(0)
    case PriorBar => Some(1)
    case Offset(s, k) => Earlier(k, Answer(needs, s))
    case VarBack(x, k) => if Get(needs, x) == 0 then Some(k) else if k == 0 then Some(0) else None
    case Element(_, i) => Answer(needs, i)
    case Window(n, args, guarded) =>
      if guarded && n > 0 && BareNeed(needs, args) then None else Earlier(n, AnswerAll(needs, args))
    case Node(parts) => AnswerAll(needs, parts)
  }

  function AnswerAll(needs: Needs, ts: Terms): Option<nat>
    decreases ts
  {
    match ts
    case None_ => Some(0)
    case More(t, rest) => Larger(Answer(needs, t), AnswerAll(needs, rest))
  }

  /** Every expression of the program: what is assigned, and the rest. */
  function Expressions(assigns: seq<Assign>, others: seq<Term>): seq<Term> {
    if assigns == [] then others else [assigns[0].value] + Expressions(assigns[1..], others)
  }

  /** The number the program reports. */
  function Reported(needs: Needs, ts: seq<Term>): Option<nat> {
    if ts == [] then Some(0) else Larger(Answer(needs, ts[0]), Reported(needs, ts[1..]))
  }

  // ---- Where it is right --------------------------------------------------------------------------------

  /** No variable the term reads reads past bars. */
  predicate Calm(needs: Needs, names: set<string>) {
    forall x :: x in names ==> Get(needs, x) == 0
  }

  /** No offset and no window goes back over an expression with a variable that reads past bars. */
  predicate Shallow(needs: Needs, t: Term)
    decreases t
  {
    match t
    case Offset(s, k) => (k == 0 || Calm(needs, Reads(s))) && Shallow(needs, s)
    case Element(_, i) => Shallow(needs, i)
    case Window(n, args, _) => (n == 0 || Calm(needs, ReadsAll(args))) && AllShallow(needs, args)
    case Node(parts) => AllShallow(needs, parts)
    case _ => true
  }

  predicate AllShallow(needs: Needs, ts: Terms)
    decreases ts
  {
    ts.More? ==> Shallow(needs, ts.head) && AllShallow(needs, ts.tail)
  }

  /** No variable is read back that reads nothing but its own history. */
  predicate Priced(needs: Needs, t: Term)
    decreases t
  {
    match t
    case Offset(s, _) => Priced(needs, s)
    case VarBack(x, k) => Get(needs, x) == 0 ==> k == 0
    case Element(_, i) => Priced(needs, i)
    case Window(_, args, _) => AllPriced(needs, args)
    case Node(parts) => AllPriced(needs, parts)
    case _ => true
  }

  predicate AllPriced(needs: Needs, ts: Terms)
    decreases ts
  {
    ts.More? ==> Priced(needs, ts.head) && AllPriced(needs, ts.tail)
  }

  lemma {:induction false} CalmIsAnswered(needs: Needs, t: Term)
    requires Calm(needs, Reads(t)) && Answer(needs, t).Some?
    ensures Need(needs, t) <= Answer(needs, t).value
    decreases t
  {
    match t
    case Word(x) => assert x in Reads(t);
    case PriorBar =>
    case Offset(s, _) => CalmIsAnswered(needs, s);
    case VarBack(x, _) => assert x in Reads(t);
    case Element(a, i) =>
      assert a in Reads(t);
      CalmIsAnswered(needs, i);
    case Window(_, args, _) => AllCalmAreAnswered(needs, args);
    case Node(parts) => AllCalmAreAnswered(needs, parts);
  }

  lemma {:induction false} AllCalmAreAnswered(needs: Needs, ts: Terms)
    requires Calm(needs, ReadsAll(ts)) && AnswerAll(needs, ts).Some?
    ensures NeedAll(needs, ts) <= AnswerAll(needs, ts).value
    decreases ts
  {
    if ts.More? {
      CalmIsAnswered(needs, ts.head);
      AllCalmAreAnswered(needs, ts.tail);
    }
  }

  /** Under counts of at most `bound`, an expression answered by at most `bound` needs no more. */
  lemma {:induction false} ShallowIsAnswered(needs: Needs, low: Needs, bound: nat, t: Term)
    requires Below(low, needs) && forall x :: Get(low, x) <= bound
    requires Shallow(needs, t) && Answer(needs, t).Some? && Answer(needs, t).value <= bound
    ensures Need(low, t) <= bound
    decreases t
  {
    match t
    case Word(x) => assert Get(low, x) <= bound;
    case PriorBar =>
    case Offset(s, k) =>
      if k == 0 {
        ShallowIsAnswered(needs, low, bound, s);
      } else {
        CalmIsAnswered(needs, s);
        NeedIsMonotone(low, needs, s);
      }
    case VarBack(x, _) => assert Get(low, x) <= Get(needs, x) && Get(low, x) <= bound;
    case Element(a, i) =>
      assert Get(low, a) <= bound;
      ShallowIsAnswered(needs, low, bound, i);
    case Window(n, args, _) =>
      if n == 0 {
        AllShallowAreAnswered(needs, low, bound, args);
      } else {
        AllCalmAreAnswered(needs, args);
        NeedAllIsMonotone(low, needs, args);
      }
    case Node(parts) => AllShallowAreAnswered(needs, low, bound, parts);
  }

  lemma {:induction false} AllShallowAreAnswered(needs: Needs, low: Needs, bound: nat, ts: Terms)
    requires Below(low, needs) && forall x :: Get(low, x) <= bound
    requires AllShallow(needs, ts) && AnswerAll(needs, ts).Some? && AnswerAll(needs, ts).value <= bound
    ensures NeedAll(low, ts) <= bound
    decreases ts
  {
    if ts.More? {
      ShallowIsAnswered(needs, low, bound, ts.head);
      AllShallowAreAnswered(needs, low, bound, ts.tail);
    }
  }

  /** And an expression that reads no mere history needs what it is answered by. */
  lemma {:induction false} AnswerIsNeeded(needs: Needs, t: Term)
    requires Priced(needs, t) && Answer(needs, t).Some?
    ensures Answer(needs, t).value <= Need(needs, t)
    decreases t
  {
    match t
    case Offset(s, _) => AnswerIsNeeded(needs, s);
    case Element(_, i) => AnswerIsNeeded(needs, i);
    case Window(_, args, _) => AnswersAreNeeded(needs, args);
    case Node(parts) => AnswersAreNeeded(needs, parts);
    case _ =>
  }

  lemma {:induction false} AnswersAreNeeded(needs: Needs, ts: Terms)
    requires AllPriced(needs, ts) && AnswerAll(needs, ts).Some?
    ensures AnswerAll(needs, ts).value <= NeedAll(needs, ts)
    decreases ts
  {
    if ts.More? {
      AnswerIsNeeded(needs, ts.head);
      AnswersAreNeeded(needs, ts.tail);
    }
  }

  lemma {:induction false} ReportedBounds(needs: Needs, ts: seq<Term>)
    requires Reported(needs, ts).Some?
    ensures forall t :: t in ts ==> Answer(needs, t).Some? && Answer(needs, t).value <= Reported(needs, ts).value
    ensures Reported(needs, ts).value == 0
            || exists t :: t in ts && Answer(needs, t) == Reported(needs, ts)
  {
    if ts != [] {
      ReportedBounds(needs, ts[1..]);
      assert forall t :: t in ts <==> t == ts[0] || t in ts[1..];
    }
  }

  lemma {:induction false} ValuesAreExpressions(assigns: seq<Assign>, others: seq<Term>)
    ensures forall i :: 0 <= i < |assigns| ==> assigns[i].value in Expressions(assigns, others)
  {
    if assigns != [] {
      ValuesAreExpressions(assigns[1..], others);
      assert forall i :: 1 <= i < |assigns| ==> assigns[i] == assigns[1..][i - 1];
    }
  }

  /** The counts cut off at `bound`. */
  function Capped(needs: Needs, bound: nat): (low: Needs)
    ensures Below(low, needs) && forall x :: Get(low, x) <= bound
    ensures forall x :: Get(low, x) == if Get(needs, x) < bound then Get(needs, x) else bound
  {
    map x | x in needs :: if needs[x] < bound then needs[x] else bound
  }

  /** The least counts of a program answered by `a` are at most `a`. */
  lemma CountsAreReported(assigns: seq<Assign>, others: seq<Term>, needs: Needs, a: nat)
    requires LeastCover(assigns, needs) && Reported(needs, Expressions(assigns, others)) == Some(a)
    requires forall t :: t in Expressions(assigns, others) ==> Shallow(needs, t)
    ensures forall x :: Get(needs, x) <= a
  {
    var low := Capped(needs, a);
    ReportedBounds(needs, Expressions(assigns, others));
    ValuesAreExpressions(assigns, others);
    hide Expressions, Reported, Answer, Shallow, Need, Capped;
    forall i | 0 <= i < |assigns| ensures Need(low, assigns[i].value) <= Get(low, assigns[i].target) {
      var t := assigns[i].value;
      assert t in Expressions(assigns, others);
      ShallowIsAnswered(needs, low, a, t);
      NeedIsMonotone(low, needs, t);
      assert Need(needs, t) <= Get(needs, assigns[i].target);
    }
    assert Covers(assigns, low);
    forall x ensures Get(needs, x) <= a {
      assert Get(needs, x) <= Get(low, x);
    }
  }

  /** A warm-up of the reported length holds every bar that any expression reaches, and without reads of
      mere history the farthest of them is exactly that far back. */
  lemma ReportIsFarthest(assigns: seq<Assign>, others: seq<Term>, needs: Needs, a: nat)
    requires LeastCover(assigns, needs) && Reported(needs, Expressions(assigns, others)) == Some(a)
    requires forall t :: t in Expressions(assigns, others) ==> Shallow(needs, t)
    ensures forall t, n, d: nat :: t in Expressions(assigns, others) && Reaches(assigns, n, t, d) ==> d <= a
    ensures a > 0 && (forall t :: t in Expressions(assigns, others) ==> Priced(needs, t)) ==>
              exists t, n :: t in Expressions(assigns, others) && Reaches(assigns, n, t, a)
  {
    var ts := Expressions(assigns, others);
    CountsAreReported(assigns, others, needs, a);
    ReportedBounds(needs, ts);
    hide Expressions, Reported, Answer, Shallow, Need, Reaches, Priced, Covers;
    forall t, n, d: nat | t in ts && Reaches(assigns, n, t, d) ensures d <= a {
      ShallowIsAnswered(needs, needs, a, t);
      NeedIsFarthest(assigns, needs, t);
    }
    if a > 0 && forall t :: t in ts ==> Priced(needs, t) {
      var t :| t in ts && Answer(needs, t) == Some(a);
      AnswerIsNeeded(needs, t);
      ShallowIsAnswered(needs, needs, a, t);
      NeedIsFarthest(assigns, needs, t);
    }
  }

  // ---- Where it is not -------------------------------------------------------------------------------------

  /** `X = Close[5]; Y = Average(X + 1, 10);` */
  function WindowedExpression(x: string, y: string, close: string): seq<Assign> {
    [Assign(x, Offset(Word(close), 5)),
     Assign(y, Window(10, More(Node(More(Word(x), None_)), None_), true))]
  }

  lemma WindowedCounts(x: string, y: string, close: string)
    requires x != y && x != close && y != close
    ensures LeastCover(WindowedExpression(x, y, close), map[x := 5, y := 15])
  {
    var assigns, needs := WindowedExpression(x, y, close), map[x := 5, y := 15];
    assert NeedAll(needs, More(Word(x), None_)) == 5;
    assert Need(needs, Node(More(Word(x), None_))) == 5;
    assert NeedAll(needs, More(Node(More(Word(x), None_)), None_)) == 5;
    assert Covers(assigns, needs);
    forall other | Covers(assigns, other) ensures Below(needs, other) {
      assert Need(other, assigns[0].value) <= Get(other, x) && Need(other, assigns[1].value) <= Get(other, y);
      assert NeedAll(other, More(Word(x), None_)) >= Get(other, x);
      assert Need(other, Node(More(Word(x), None_))) >= Get(other, x);
      assert NeedAll(other, More(Node(More(Word(x), None_)), None_)) >= Get(other, x);
    }
  }

  /** It is answered by 10, and reads 15 bars back: the variable is caught only where it stands alone. */
  lemma WindowedExpressionReadsMore(x: string, y: string, close: string)
    requires x != y && x != close && y != close
    ensures var assigns, needs := WindowedExpression(x, y, close), map[x := 5, y := 15];
            && LeastCover(assigns, needs)
            && Reported(needs, Expressions(assigns, [])) == Some(10)
            && Farthest(assigns, assigns[1].value, 15)
  {
    var assigns, needs := WindowedExpression(x, y, close), map[x := 5, y := 15];
    WindowedCounts(x, y, close);
    NeedIsFarthest(assigns, needs, assigns[1].value);
    assert NeedAll(needs, More(Word(x), None_)) == 5;
    assert NeedAll(needs, More(Node(More(Word(x), None_)), None_)) == 5;
    assert AnswerAll(needs, More(Word(x), None_)) == Some(0);
    assert AnswerAll(needs, More(Node(More(Word(x), None_)), None_)) == Some(0);
    assert !BareNeed(needs, More(Node(More(Word(x), None_)), None_));
    assert Answer(needs, assigns[0].value) == Some(5) && Answer(needs, assigns[1].value) == Some(10);
    assert assigns[1..] == [assigns[1]] && assigns[1..][1..] == [];
    hide LeastCover, Farthest, Need, Answer;
    var ts := [assigns[0].value, assigns[1].value];
    assert Expressions(assigns[1..], []) == [assigns[1].value] + [];
    assert Expressions(assigns, []) == ts;
    assert ts[1..] == [assigns[1].value] && ts[1..][1..] == [];
    assert Reported(needs, ts[1..]) == Some(10);
  }
}
