/** The storage split preserves meaning: on every tape, for every program whose variable offsets
    are literal, the generated code computes on every bar what the simple semantics computes. */
module StorageTheorem {
  import opened Sequences
  import opened Storage

  // ---- The programs covered -----------------------------------------------------------

  /** The generator writes the same code for the expression in and out of series context: it names
      no variable or price, except as an argument of a series function or under a literal offset. */
  predicate Steady(plan: Plan, e: Expr)
    decreases e
  {
    match e
    case Const(_) => true
    case Name(x) => !Stateful(plan, x) && x !in plan.prices
    case Unary(_, a) => Steady(plan, a)
    case Binary(_, a, b) => Steady(plan, a) && Steady(plan, b)
    case Call(f, es) => f in plan.seriesFuncs || SteadyArgs(plan, es)
    case Back(x, i) => x in plan.inputs || (!Stateful(plan, x) && x !in plan.prices) || Steady(plan, i)
    case BackLit(_, _) => true
  }

  predicate SteadyArgs(plan: Plan, es: Exprs)
    decreases es
  {
    es.MoreExprs? ==> Steady(plan, es.arg) && SteadyArgs(plan, es.rest)
  }

  lemma {:induction false} SteadyExactly(plan: Plan, e: Expr)
    ensures Gen(plan, e, true) == Gen(plan, e, false) <==> Steady(plan, e)
    decreases e
  {
    match e
    case Unary(_, a) => SteadyExactly(plan, a);
    case Binary(_, a, b) =>
      SteadyExactly(plan, a);
      SteadyExactly(plan, b);
    case Call(f, es) => SteadyArgsExactly(plan, es);
    case Back(_, i) => SteadyExactly(plan, i);
    case _ =>
  }

  lemma {:induction false} SteadyArgsExactly(plan: Plan, es: Exprs)
    ensures GenArgs(plan, es, true) == GenArgs(plan, es, false) <==> SteadyArgs(plan, es)
    decreases es
  {
    if es.MoreExprs? {
      SteadyExactly(plan, es.arg);
      SteadyArgsExactly(plan, es.rest);
    }
  }

  /** Offsets of variables are literal, and the code of an offset inside a series argument does not
      depend on where it stands. */
  predicate Literal(plan: Plan, e: Expr, series: bool)
    decreases e
  {
    match e
    case Unary(_, a) => Literal(plan, a, series)
    case Binary(_, a, b) => Literal(plan, a, series) && Literal(plan, b, series)
    case Call(f, es) => LiteralArgs(plan, es, series || f in plan.seriesFuncs)
    case Back(x, i) =>
      x in plan.inputs || (!Stateful(plan, x) && Literal(plan, i, false) && (series ==> Steady(plan, i)))
    case _ => true
  }

  predicate LiteralArgs(plan: Plan, es: Exprs, series: bool)
    decreases es
  {
    es.MoreExprs? ==> Literal(plan, es.arg, series) && LiteralArgs(plan, es.rest, series)
  }

  /** `lists` names the list variables: literal offsets throughout, every variable read through
      its list kept as one, and none of them declared again. */
  predicate Covered(plan: Plan, lists: set<string>, st: Stmt)
    decreases st
  {
    match st
    case Assign(_, e) => CoveredExpr(plan, lists, e)
    case Act(e) => CoveredExpr(plan, lists, e)
    case If(c, a, b) => CoveredExpr(plan, lists, c) && CoveredBlock(plan, lists, a) && CoveredBlock(plan, lists, b)
    case For(_, a, b, _, body) =>
      CoveredExpr(plan, lists, a) && CoveredExpr(plan, lists, b) && CoveredBlock(plan, lists, body)
    case While(c, body) => CoveredExpr(plan, lists, c) && CoveredBlock(plan, lists, body)
    case Repeat(body, c) => CoveredBlock(plan, lists, body) && CoveredExpr(plan, lists, c)
    case Redeclare(x) => x !in lists
    case _ => true
  }

  predicate CoveredBlock(plan: Plan, lists: set<string>, b: Block)
    decreases b
  {
    b.Then? ==> Covered(plan, lists, b.stmt) && CoveredBlock(plan, lists, b.rest)
  }

  predicate CoveredExpr(plan: Plan, lists: set<string>, e: Expr) {
    Literal(plan, e, false) && Collect(plan, e, false) <= lists
  }

  // ---- Expressions -----------------------------------------------------------------------

  /** The lists are the selected variables' histories. */
  ghost predicate Agree(plan: Plan, past: map<string, seq<Value>>, lists: map<string, seq<Value>>) {
    && plan.seeds.Keys !! plan.prices
    && Kept(past, plan.seeds.Keys)
    && lists.Keys <= past.Keys
    && forall x :: x in lists ==> lists[x] == past[x]
  }

  /** A list variable read with offset `n` gives the value `n` bars ago exactly for positive
      offsets, and for 0 only when the variable still holds its seed: a computed offset 0 reads
      the first element. */
  lemma ReadBackMeaning(past: seq<Value>, now: Value, n: int)
    requires past != []
    ensures ReadBack(past, n) == ValueAgo(past, now, n) <==> n >= 1 || n <= -|past| || (n == 0 && past[0] == now)
  {
  }

  lemma NameMeans(plan: Plan, fr: Frame, past: map<string, seq<Value>>, lists: map<string, seq<Value>>,
                  vars: map<string, Value>, x: string, series: bool)
    requires Agree(plan, past, lists) && past.Keys <= vars.Keys && (series && Stateful(plan, x) ==> x in lists)
    ensures PyEval(fr, lists, vars, Gen(plan, Name(x), series)) == Meaning(plan, fr, past, vars, Name(x), series)
  {
  }

  lemma OffsetMeans(plan: Plan, fr: Frame, past: map<string, seq<Value>>, lists: map<string, seq<Value>>,
                    vars: map<string, Value>, x: string, n: nat, series: bool)
    requires Agree(plan, past, lists) && past.Keys <= vars.Keys && (Stateful(plan, x) ==> x in lists)
    ensures PyEval(fr, lists, vars, Gen(plan, BackLit(x, n), series))
            == Meaning(plan, fr, past, vars, BackLit(x, n), series)
  {
    if Stateful(plan, x) && n > 0 {
      ReadBackMeaning(past[x], vars[x], n);
    }
    hide ReadBack, ValueAgo;
    assert x !in plan.seeds ==> PyEval(fr, lists, vars, PConst(Scalar(n as real))) == Some(Scalar(n as real));
  }

  lemma PriceOffsetMeans(plan: Plan, fr: Frame, past: map<string, seq<Value>>, lists: map<string, seq<Value>>,
                         vars: map<string, Value>, x: string, i: Expr, series: bool)
    requires Agree(plan, past, lists)
    requires x in plan.inputs || !Stateful(plan, x)
    requires PyEval(fr, lists, vars, Gen(plan, i, series)) == Meaning(plan, fr, past, vars, i, false)
    ensures PyEval(fr, lists, vars, Gen(plan, Back(x, i), series)) == Meaning(plan, fr, past, vars, Back(x, i), series)
  {
  }

  /** Each generated expression evaluates to its meaning. */
  lemma {:induction false} GenMeans(plan: Plan, fr: Frame, past: map<string, seq<Value>>,
                                    lists: map<string, seq<Value>>, vars: map<string, Value>, e: Expr, series: bool)
    requires Agree(plan, past, lists) && past.Keys <= vars.Keys
    requires Literal(plan, e, series) && Collect(plan, e, series) <= lists.Keys
    ensures PyEval(fr, lists, vars, Gen(plan, e, series)) == Meaning(plan, fr, past, vars, e, series)
    decreases e, 1
  {
    hide Agree, Steady, ReadBack, ValueAgo;
    match e
    case Const(_) =>
    case Name(x) => NameMeans(plan, fr, past, lists, vars, x, series);
    case Unary(_, a) => GenMeans(plan, fr, past, lists, vars, a, series);
    case Binary(_, _, _) => BinaryMeans(plan, fr, past, lists, vars, e, series);
    case Call(f, es) => GenArgsMean(plan, fr, past, lists, vars, es, series || f in plan.seriesFuncs);
    case Back(_, _) => BackMeans(plan, fr, past, lists, vars, e, series);
    case BackLit(x, n) => OffsetMeans(plan, fr, past, lists, vars, x, n, series);
  }

  lemma {:induction false} BinaryMeans(plan: Plan, fr: Frame, past: map<string, seq<Value>>,
                                       lists: map<string, seq<Value>>, vars: map<string, Value>, e: Expr, series: bool)
    requires Agree(plan, past, lists) && past.Keys <= vars.Keys && e.Binary?
    requires Literal(plan, e, series) && Collect(plan, e, series) <= lists.Keys
    ensures PyEval(fr, lists, vars, Gen(plan, e, series)) == Meaning(plan, fr, past, vars, e, series)
    decreases e, 0
  {
    hide Agree, Decides, Logical;
    GenMeans(plan, fr, past, lists, vars, e.left, series);
    GenMeans(plan, fr, past, lists, vars, e.right, series);
  }

  lemma {:induction false} BackMeans(plan: Plan, fr: Frame, past: map<string, seq<Value>>,
                                     lists: map<string, seq<Value>>, vars: map<string, Value>, e: Expr, series: bool)
    requires Agree(plan, past, lists) && past.Keys <= vars.Keys && e.Back?
    requires Literal(plan, e, series) && Collect(plan, e, series) <= lists.Keys
    ensures PyEval(fr, lists, vars, Gen(plan, e, series)) == Meaning(plan, fr, past, vars, e, series)
    decreases e, 0
  {
    hide Agree, Steady, ReadBack, ValueAgo;
    if e.name in plan.inputs {
      assert Gen(plan, e, series) == PLocal(e.name);
    } else {
      GenMeans(plan, fr, past, lists, vars, e.index, false);
      if series {
        SteadyExactly(plan, e.index);
      }
      hide Gen, PyEval, Meaning;
      PriceOffsetMeans(plan, fr, past, lists, vars, e.name, e.index, series);
    }
  }

  lemma {:induction false} GenArgsMean(plan: Plan, fr: Frame, past: map<string, seq<Value>>,
                                       lists: map<string, seq<Value>>, vars: map<string, Value>, es: Exprs,
                                       series: bool)
    requires Agree(plan, past, lists) && past.Keys <= vars.Keys
    requires LiteralArgs(plan, es, series) && CollectArgs(plan, es, series) <= lists.Keys
    ensures PyEvalArgs(fr, lists, vars, GenArgs(plan, es, series)) == Meanings(plan, fr, past, vars, es, series)
    decreases es
  {
    if es.MoreExprs? {
      GenMeans(plan, fr, past, lists, vars, es.arg, series);
      GenArgsMean(plan, fr, past, lists, vars, es.rest, series);
    }
  }

  // ---- Statements --------------------------------------------------------------------------

  /** A statement keeps every local it found. */
  predicate Keeps(flow: Flow, names: set<string>) {
    flow.Next? || flow.Broke? || flow.Continued? ==> names <= flow.env.vars.Keys
  }

  predicate Same(f: Flow, g: Flow, names: set<string>) {
    f == g && Keeps(f, names)
  }

  lemma EvalAgrees(plan: Plan, fr: Frame, past: map<string, seq<Value>>, lists: map<string, seq<Value>>, env: Env,
                   e: Expr)
    requires Agree(plan, past, lists) && past.Keys <= env.vars.Keys && CoveredExpr(plan, lists.Keys, e)
    ensures Eval(plan, fr, Full(past), env, e) == Eval(plan, fr, Split(lists), env, e)
  {
    GenMeans(plan, fr, past, lists, env.vars, e, false);
  }

  lemma {:induction false} ExecAgrees(plan: Plan, fr: Frame, past: map<string, seq<Value>>,
                                      lists: map<string, seq<Value>>, env: Env, st: Stmt, fuel: nat)
    requires Agree(plan, past, lists) && past.Keys <= env.vars.Keys && Covered(plan, lists.Keys, st)
    ensures Same(Exec(plan, fr, Full(past), env, st, fuel), Exec(plan, fr, Split(lists), env, st, fuel), past.Keys)
    decreases fuel, st, 0
  {
    hide Agree, Eval, CoveredExpr;
    match st
    case Assign(_, e) => EvalAgrees(plan, fr, past, lists, env, e);
    case Act(e) => EvalAgrees(plan, fr, past, lists, env, e);
    case If(c, a, b) =>
      EvalAgrees(plan, fr, past, lists, env, c);
      BlockAgrees(plan, fr, past, lists, env, a, fuel);
      BlockAgrees(plan, fr, past, lists, env, b, fuel);
    case For(i, a, b, down, body) =>
      EvalAgrees(plan, fr, past, lists, env, a);
      EvalAgrees(plan, fr, past, lists, env, b);
      var v, w := Eval(plan, fr, Full(past), env, a), Eval(plan, fr, Full(past), env, b);
      if v.Some? && w.Some? {
        var m, n := fr.toInt(v.value), fr.toInt(w.value);
        if m.Some? && n.Some? {
          var passes := if down then m.value - n.value + 1 else n.value - m.value + 1;
          ForAgrees(plan, fr, past, lists, env, i, m.value, down, if passes > 0 then passes else 0, body, fuel);
        }
      }
    case While(c, body) => WhileAgrees(plan, fr, past, lists, env, c, body, fuel);
    case Repeat(body, c) => RepeatAgrees(plan, fr, past, lists, env, body, c, fuel);
    case _ =>
  }

  lemma {:induction false} BlockAgrees(plan: Plan, fr: Frame, past: map<string, seq<Value>>,
                                       lists: map<string, seq<Value>>, env: Env, b: Block, fuel: nat)
    requires Agree(plan, past, lists) && past.Keys <= env.vars.Keys && CoveredBlock(plan, lists.Keys, b)
    ensures Same(ExecBlock(plan, fr, Full(past), env, b, fuel), ExecBlock(plan, fr, Split(lists), env, b, fuel),
                 past.Keys)
    decreases fuel, b, 0
  {
    hide Agree, Exec, Covered;
    if b.Then? {
      ExecAgrees(plan, fr, past, lists, env, b.stmt, fuel);
      var flow := Exec(plan, fr, Full(past), env, b.stmt, fuel);
      if flow.Next? {
        BlockAgrees(plan, fr, past, lists, flow.env, b.rest, fuel);
      }
    }
  }

  lemma {:induction false} ForAgrees(plan: Plan, fr: Frame, past: map<string, seq<Value>>,
                                     lists: map<string, seq<Value>>, env: Env, i: string, at: int, down: bool,
                                     passes: nat, body: Block, fuel: nat)
    requires Agree(plan, past, lists) && past.Keys <= env.vars.Keys && CoveredBlock(plan, lists.Keys, body)
    ensures Same(ExecFor(plan, fr, Full(past), env, i, at, down, passes, body, fuel),
                 ExecFor(plan, fr, Split(lists), env, i, at, down, passes, body, fuel), past.Keys)
    decreases fuel, body, 1, passes
  {
    hide Agree, ExecBlock, CoveredBlock;
    if passes > 0 {
      var env1 := env.(vars := env.vars[i := Scalar(at as real)]);
      BlockAgrees(plan, fr, past, lists, env1, body, fuel);
      var flow := ExecBlock(plan, fr, Full(past), env1, body, fuel);
      if flow.Next? || flow.Continued? {
        ForAgrees(plan, fr, past, lists, flow.env, i, if down then at - 1 else at + 1, down, passes - 1, body, fuel);
      }
    }
  }

  lemma {:induction false} WhileAgrees(plan: Plan, fr: Frame, past: map<string, seq<Value>>,
                                       lists: map<string, seq<Value>>, env: Env, c: Expr, body: Block, fuel: nat)
    requires Agree(plan, past, lists) && past.Keys <= env.vars.Keys
    requires CoveredExpr(plan, lists.Keys, c) && CoveredBlock(plan, lists.Keys, body)
    ensures Same(ExecWhile(plan, fr, Full(past), env, c, body, fuel),
                 ExecWhile(plan, fr, Split(lists), env, c, body, fuel),
                 past.Keys)
    decreases fuel, body, 1
  {
    hide Agree, ExecBlock, CoveredBlock, Eval, CoveredExpr;
    EvalAgrees(plan, fr, past, lists, env, c);
    var v := Eval(plan, fr, Full(past), env, c);
    if fuel > 0 && v.Some? && fr.truth(v.value) {
      BlockAgrees(plan, fr, past, lists, env, body, fuel - 1);
      var flow := ExecBlock(plan, fr, Full(past), env, body, fuel - 1);
      if flow.Next? || flow.Continued? {
        WhileAgrees(plan, fr, past, lists, flow.env, c, body, fuel - 1);
      }
    }
  }

  lemma {:induction false} RepeatAgrees(plan: Plan, fr: Frame, past: map<string, seq<Value>>,
                                        lists: map<string, seq<Value>>, env: Env, body: Block, c: Expr, fuel: nat)
    requires Agree(plan, past, lists) && past.Keys <= env.vars.Keys
    requires CoveredExpr(plan, lists.Keys, c) && CoveredBlock(plan, lists.Keys, body)
    ensures Same(ExecRepeat(plan, fr, Full(past), env, body, c, fuel),
                 ExecRepeat(plan, fr, Split(lists), env, body, c, fuel),
                 past.Keys)
    decreases fuel, body, 1
  {
    hide Agree, ExecBlock, CoveredBlock, Eval, CoveredExpr;
    if fuel > 0 {
      BlockAgrees(plan, fr, past, lists, env, body, fuel - 1);
      var flow := ExecBlock(plan, fr, Full(past), env, body, fuel - 1);
      if flow.Next? {
        EvalAgrees(plan, fr, past, lists, flow.env, c);
      }
      if flow.Next? || flow.Continued? {
        RepeatAgrees(plan, fr, past, lists, flow.env, body, c, fuel - 1);
      }
    }
  }

  // ---- Bars and runs ---------------------------------------------------------------------------

  predicate Distinct(names: seq<string>) {
    forall i, j :: 0 <= i < j < |names| ==> names[i] != names[j]
  }

  /** `names` lists, once each, the variables that have a slot and not a list. */
  ghost predicate SlotNames(plan: Plan, lists: set<string>, names: seq<string>) {
    && Distinct(names)
    && lists <= plan.seeds.Keys
    && forall x :: x in names <==> x in plan.seeds && x !in lists
  }

  /** The split state holds the histories' ends, and the selected histories whole. */
  ghost predicate Refines(plan: Plan, names: seq<string>, past: map<string, seq<Value>>, st: SplitState) {
    && Agree(plan, past, st.lists)
    && SlotNames(plan, st.lists.Keys, names) && |st.slots| == |names|
    && forall i :: 0 <= i < |names| ==> st.slots[i] == Last(past[names[i]])
  }

  lemma {:induction false} UnpackReads(names: seq<string>, slots: seq<Value>)
    requires |names| == |slots| && Distinct(names)
    ensures forall x :: x in Unpack(names, slots) <==> x in names
    ensures forall i :: 0 <= i < |names| ==> Unpack(names, slots)[names[i]] == slots[i]
    decreases |names|
  {
    if names != [] {
      var n := |names| - 1;
      UnpackReads(names[..n], slots[..n]);
      assert names == names[..n] + [names[n]];
    }
  }

  lemma MergedParts(base: map<string, Value>, a: map<string, Value>, b: map<string, Value>, all: map<string, Value>)
    requires a.Keys + b.Keys == all.Keys
    requires (forall x :: x in a ==> a[x] == all[x]) && (forall x :: x in b ==> b[x] == all[x])
    ensures base + a + b == base + all
  {
    forall x ensures (x in base + a + b <==> x in base + all)
      && (x in base + all ==> (base + a + b)[x] == (base + all)[x]) {
    }
  }

  /** Unpacked slots and loaded lists give every variable its last value. */
  lemma SameStart(plan: Plan, names: seq<string>, past: map<string, seq<Value>>, st: SplitState)
    requires Refines(plan, names, past, st)
    ensures plan.inputs + Unpack(names, st.slots) + (map x | x in st.lists :: Last(st.lists[x]))
            == plan.inputs + map x | x in past :: Last(past[x])
  {
    UnpackReads(names, st.slots);
    var unpacked := Unpack(names, st.slots);
    forall x | x in unpacked ensures x in past && unpacked[x] == Last(past[x]) {
      var i :| 0 <= i < |names| && names[i] == x;
      assert unpacked[names[i]] == st.slots[i];
    }
    MergedParts(plan.inputs, unpacked, map x | x in st.lists :: Last(st.lists[x]), map x | x in past :: Last(past[x]));
  }

  /** What the two bars leave behind when they end in the same environment. */
  lemma SameEnd(plan: Plan, names: seq<string>, past: map<string, seq<Value>>, st: SplitState, vars: map<string, Value>)
    requires Refines(plan, names, past, st) && past.Keys <= vars.Keys
    ensures var past' := map x | x in past :: past[x] + (if x in vars then [vars[x]] else []);
            var lists' := map x | x in st.lists :: st.lists[x] + (if x in vars then [vars[x]] else []);
            Refines(plan, names, past', SplitState(lists', Pack(names, vars, st.slots)))
  {
    var past' := map x | x in past :: past[x] + (if x in vars then [vars[x]] else []);
    var lists' := map x | x in st.lists :: st.lists[x] + (if x in vars then [vars[x]] else []);
    assert forall x :: x in past ==> past'[x] == past[x] + [vars[x]];
    assert past'.Keys == past.Keys && lists'.Keys == st.lists.Keys;
    forall i | 0 <= i < |names| ensures Pack(names, vars, st.slots)[i] == Last(past'[names[i]]) {
      assert names[i] in names;
    }
  }

  /** One bar: the same statements have the same effect on the same locals, and the kept state
      still refines the histories. */
  lemma BarAgrees(plan: Plan, fr: Frame, names: seq<string>, past: map<string, seq<Value>>, st: SplitState, body: Block,
                  fuel: nat)
    requires Refines(plan, names, past, st) && CoveredBlock(plan, st.lists.Keys, body)
    ensures var (past', flow) := SimpleBar(plan, fr, past, body, fuel);
            var (st', flow') := SplitBar(plan, fr, names, st, body, fuel);
            flow == flow' && Refines(plan, names, past', st') && st'.lists.Keys == st.lists.Keys
  {
    SameStart(plan, names, past, st);
    var vars := plan.inputs + map x | x in past :: Last(past[x]);
    assert past.Keys <= vars.Keys;
    BlockAgrees(plan, fr, past, st.lists, Env(vars, []), body, fuel);
    hide ExecBlock, CoveredBlock, Unpack;
    var flow := ExecBlock(plan, fr, Full(past), Env(vars, []), body, fuel);
    if flow.Next? {
      SameEnd(plan, names, past, st, flow.env.vars);
    }
  }

  /** The histories after a tape, and each bar's outcome. */
  function SimpleRun(plan: Plan, frames: seq<Frame>, body: Block, fuel: nat): (r: (map<string, seq<Value>>, seq<Flow>))
    ensures Kept(r.0, plan.seeds.Keys)
  {
    if frames == [] then (map x | x in plan.seeds :: [plan.seeds[x]], [])
    else
      var (past, flows) := SimpleRun(plan, frames[..|frames| - 1], body, fuel);
      var (past', flow) := SimpleBar(plan, frames[|frames| - 1], past, body, fuel);
      (past', flows + [flow])
  }

  /** The first call's seeding of `_state`. */
  function Seeded(plan: Plan, lists: set<string>, names: seq<string>): SplitState
    requires lists <= plan.seeds.Keys && forall x :: x in names ==> x in plan.seeds
  {
    SplitState(map x | x in lists :: [plan.seeds[x]], seq(|names|, i requires 0 <= i < |names| => plan.seeds[names[i]]))
  }

  function SplitRun(plan: Plan, lists: set<string>, names: seq<string>, frames: seq<Frame>, body: Block, fuel: nat)
    : (r: (SplitState, seq<Flow>))
    requires lists <= plan.seeds.Keys && forall x :: x in names ==> x in plan.seeds
    ensures |r.0.slots| == |names| && Kept(r.0.lists, r.0.lists.Keys)
  {
    if frames == [] then (Seeded(plan, lists, names), [])
    else
      var (st, flows) := SplitRun(plan, lists, names, frames[..|frames| - 1], body, fuel);
      var (st', flow) := SplitBar(plan, frames[|frames| - 1], names, st, body, fuel);
      (st', flows + [flow])
  }

  lemma {:induction false} RunAgrees(plan: Plan, lists: set<string>, names: seq<string>, frames: seq<Frame>,
                                     body: Block, fuel: nat)
    requires plan.seeds.Keys !! plan.prices && SlotNames(plan, lists, names) && CoveredBlock(plan, lists, body)
    ensures var (past, flows) := SimpleRun(plan, frames, body, fuel);
            var (st, flows') := SplitRun(plan, lists, names, frames, body, fuel);
            flows == flows' && Refines(plan, names, past, st) && st.lists.Keys == lists
  {
    hide CoveredBlock, SimpleBar, SplitBar;
    if frames != [] {
      var init := frames[..|frames| - 1];
      RunAgrees(plan, lists, names, init, body, fuel);
      var past, st := SimpleRun(plan, init, body, fuel).0, SplitRun(plan, lists, names, init, body, fuel).0;
      BarAgrees(plan, frames[|frames| - 1], names, past, st, body, fuel);
    } else {
      Seeding(plan, lists, names);
    }
  }

  lemma Seeding(plan: Plan, lists: set<string>, names: seq<string>)
    requires plan.seeds.Keys !! plan.prices && SlotNames(plan, lists, names)
    ensures Refines(plan, names, map x | x in plan.seeds :: [plan.seeds[x]], Seeded(plan, lists, names))
  {
    forall i | 0 <= i < |names|
      ensures Seeded(plan, lists, names).slots[i] == Last((map x | x in plan.seeds :: [plan.seeds[x]])[names[i]])
    {
      assert names[i] in names;
    }
  }

  // ---- The selection ----------------------------------------------------------------------------

  /** Literal offsets throughout and no second declaration of a variable the analysis selects. */
  predicate Admissible(plan: Plan, selected: set<string>, b: Block)
    decreases b
  {
    b.Then? ==> AdmissibleStmt(plan, selected, b.stmt) && Admissible(plan, selected, b.rest)
  }

  predicate AdmissibleStmt(plan: Plan, selected: set<string>, st: Stmt)
    decreases st
  {
    match st
    case Assign(_, e) => Literal(plan, e, false)
    case Act(e) => Literal(plan, e, false)
    case If(c, a, b) => Literal(plan, c, false) && Admissible(plan, selected, a) && Admissible(plan, selected, b)
    case For(_, a, b, _, body) => Literal(plan, a, false) && Literal(plan, b, false) && Admissible(plan, selected, body)
    case While(c, body) => Literal(plan, c, false) && Admissible(plan, selected, body)
    case Repeat(body, c) => Admissible(plan, selected, body) && Literal(plan, c, false)
    case Redeclare(x) => x !in selected
    case _ => true
  }

  lemma {:induction false} CollectedIsStateful(plan: Plan, e: Expr, series: bool)
    ensures Collect(plan, e, series) <= plan.seeds.Keys
    decreases e
  {
    match e
    case Unary(_, a) => CollectedIsStateful(plan, a, series);
    case Binary(_, a, b) =>
      CollectedIsStateful(plan, a, series);
      CollectedIsStateful(plan, b, series);
    case Call(f, es) => CollectedArgsAreStateful(plan, es, series || f in plan.seriesFuncs);
    case Back(_, i) => CollectedIsStateful(plan, i, false);
    case _ =>
  }

  lemma {:induction false} CollectedArgsAreStateful(plan: Plan, es: Exprs, series: bool)
    ensures CollectArgs(plan, es, series) <= plan.seeds.Keys
    decreases es
  {
    if es.MoreExprs? {
      CollectedIsStateful(plan, es.arg, series);
      CollectedArgsAreStateful(plan, es.rest, series);
    }
  }

  lemma {:induction false} SelectionCovers(plan: Plan, selected: set<string>, b: Block)
    requires CollectBlock(plan, b) <= selected && Admissible(plan, selected, b)
    ensures CoveredBlock(plan, selected, b) && CollectBlock(plan, b) <= plan.seeds.Keys
    decreases b, 0
  {
    if b.Then? {
      StmtSelectionCovers(plan, selected, b.stmt);
      SelectionCovers(plan, selected, b.rest);
    }
  }

  lemma {:induction false} StmtSelectionCovers(plan: Plan, selected: set<string>, st: Stmt)
    requires CollectStmt(plan, st) <= selected && AdmissibleStmt(plan, selected, st)
    ensures Covered(plan, selected, st) && CollectStmt(plan, st) <= plan.seeds.Keys
    decreases st, 0
  {
    match st
    case Assign(_, e) => CollectedIsStateful(plan, e, false);
    case Act(e) => CollectedIsStateful(plan, e, false);
    case If(c, a, b) =>
      CollectedIsStateful(plan, c, false);
      SelectionCovers(plan, selected, a);
      SelectionCovers(plan, selected, b);
    case For(_, a, b, _, body) =>
      CollectedIsStateful(plan, a, false);
      CollectedIsStateful(plan, b, false);
      SelectionCovers(plan, selected, body);
    case While(c, body) =>
      CollectedIsStateful(plan, c, false);
      SelectionCovers(plan, selected, body);
    case Repeat(body, c) =>
      CollectedIsStateful(plan, c, false);
      SelectionCovers(plan, selected, body);
    case _ =>
  }

  /** The storage optimisation preserves meaning. With lists kept for exactly the variables the
      analysis selects, every bar of every tape ends as in the simple semantics: the same
      locals, the same orders and plots, the same loop exits and errors; and what is kept
      between bars is the end of every history, the selected ones whole. */
  lemma StoragePreservesMeaning(plan: Plan, names: seq<string>, frames: seq<Frame>, body: Block, fuel: nat)
    requires plan.seeds.Keys !! plan.prices
    requires SlotNames(plan, CollectBlock(plan, body), names) && Admissible(plan, CollectBlock(plan, body), body)
    ensures var (past, flows) := SimpleRun(plan, frames, body, fuel);
            var (st, flows') := SplitRun(plan, CollectBlock(plan, body), names, frames, body, fuel);
            && flows == flows'
            && st.lists.Keys == CollectBlock(plan, body)
            && (forall x :: x in st.lists ==> st.lists[x] == past[x])
            && (forall i :: 0 <= i < |names| ==> st.slots[i] == Last(past[names[i]]))
  {
    var selected := CollectBlock(plan, body);
    SelectionCovers(plan, selected, body);
    RunAgrees(plan, selected, names, frames, body, fuel);
  }

  // ---- Where it does not -----------------------------------------------------------------------

  /** Generated in series context, the expression reads variable `x` through its list whenever it
      is evaluated: the name stands outside the right operands of `and` and `or`. */
  predicate Asks(plan: Plan, e: Expr, x: string)
    decreases e
  {
    match e
    case Name(y) => y == x
    case Unary(_, a) => Asks(plan, a, x)
    case Binary(op, a, b) => Asks(plan, a, x) || (!Logical(op) && Asks(plan, b, x))
    case Call(_, es) => ArgsAsk(plan, es, x)
    case Back(y, i) => y !in plan.inputs && Asks(plan, i, x)
    case _ => false
  }

  predicate ArgsAsk(plan: Plan, es: Exprs, x: string)
    decreases es
  {
    es.MoreExprs? && (Asks(plan, es.arg, x) || ArgsAsk(plan, es.rest, x))
  }

  lemma {:induction false} AskingRaises(plan: Plan, fr: Frame, lists: map<string, seq<Value>>, vars: map<string, Value>,
                                        e: Expr, x: string)
    requires Stateful(plan, x) && x !in lists && Asks(plan, e, x)
    ensures PyEval(fr, lists, vars, Gen(plan, e, true)) == None
    decreases e
  {
    match e
    case Unary(_, a) => AskingRaises(plan, fr, lists, vars, a, x);
    case Binary(_, a, b) =>
      if Asks(plan, a, x) {
        AskingRaises(plan, fr, lists, vars, a, x);
      } else {
        AskingRaises(plan, fr, lists, vars, b, x);
      }
    case Call(_, es) => AskingArgsRaise(plan, fr, lists, vars, es, x);
    case Back(_, i) => AskingRaises(plan, fr, lists, vars, i, x);
    case _ =>
  }

  lemma {:induction false} AskingArgsRaise(plan: Plan, fr: Frame, lists: map<string, seq<Value>>,
                                           vars: map<string, Value>, es: Exprs, x: string)
    requires Stateful(plan, x) && x !in lists && ArgsAsk(plan, es, x)
    ensures PyEvalArgs(fr, lists, vars, GenArgs(plan, es, true)) == None
    decreases es
  {
    if Asks(plan, es.arg, x) {
      AskingRaises(plan, fr, lists, vars, es.arg, x);
    } else {
      AskingArgsRaise(plan, fr, lists, vars, es.rest, x);
    }
  }

  /** An offset inside a series argument, computed from a variable that has no list: the generator
      writes it in series context and asks for the list. The call always raises. */
  lemma OffsetInSeriesRaises(plan: Plan, fr: Frame, lists: map<string, seq<Value>>, vars: map<string, Value>,
                             f: string, es: Exprs, x: string, series: bool)
    requires f in plan.seriesFuncs && Stateful(plan, x) && x !in lists && ArgsAsk(plan, es, x)
    ensures PyEval(fr, lists, vars, Gen(plan, Call(f, es), series)) == None
  {
    AskingArgsRaise(plan, fr, lists, vars, es, x);
  }

  /** And the analysis, which reads offsets outside series context, gives it none: such a variable
      is selected only when it stands under an offset or in a series argument of its own. */
  lemma {:induction false} OffsetIsNotSelected(plan: Plan, i: Expr, x: string)
    requires !Selects(plan, i, x)
    ensures x !in Collect(plan, i, false)
    decreases i
  {
    match i
    case Unary(_, a) => OffsetIsNotSelected(plan, a, x);
    case Binary(_, a, b) =>
      OffsetIsNotSelected(plan, a, x);
      OffsetIsNotSelected(plan, b, x);
    case Call(f, es) => ArgsAreNotSelected(plan, es, x);
    case Back(_, j) => OffsetIsNotSelected(plan, j, x);
    case _ =>
  }

  lemma {:induction false} ArgsAreNotSelected(plan: Plan, es: Exprs, x: string)
    requires !ArgsSelect(plan, es, x)
    ensures x !in CollectArgs(plan, es, false)
    decreases es
  {
    if es.MoreExprs? {
      OffsetIsNotSelected(plan, es.arg, x);
      ArgsAreNotSelected(plan, es.rest, x);
    }
  }

  /** `x` stands under an offset, or somewhere in a call of a series function. */
  predicate Selects(plan: Plan, e: Expr, x: string)
    decreases e
  {
    match e
    case Unary(_, a) => Selects(plan, a, x)
    case Binary(_, a, b) => Selects(plan, a, x) || Selects(plan, b, x)
    case Call(f, es) => f in plan.seriesFuncs || ArgsSelect(plan, es, x)
    case Back(y, i) => y == x || Selects(plan, i, x)
    case BackLit(y, _) => y == x
    case _ => false
  }

  predicate ArgsSelect(plan: Plan, es: Exprs, x: string)
    decreases es
  {
    es.MoreExprs? && (Selects(plan, es.arg, x) || ArgsSelect(plan, es.rest, x))
  }

  /** A second declaration of a list variable undoes the bar's assignments to it; declaring a
      slot variable again changes nothing. */
  lemma RedeclarationReloads(plan: Plan, fr: Frame, past: map<string, seq<Value>>, lists: map<string, seq<Value>>,
                             env: Env, x: string, fuel: nat)
    requires Agree(plan, past, lists) && x in past && x in env.vars
    ensures Exec(plan, fr, Full(past), env, Redeclare(x), fuel) == Exec(plan, fr, Split(lists), env, Redeclare(x), fuel)
            <==> x !in lists || env.vars[x] == Last(past[x])
  {
    assert env.vars[x := env.vars[x]] == env.vars;
  }
}
