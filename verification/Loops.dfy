/** What the statements of a bar do, over either storage of variables: laws that tie each to the others. */
module Loops {
  import opened Sequences
  import opened Storage

  // ---- What a counting loop visits ------------------------------------------------------------------------

  /** `i` is nothing but a local. */
  predicate Local(plan: Plan, mem: Memory, i: string) {
    i !in plan.prices && i !in plan.seeds && (mem.Full? ==> i !in mem.past)
  }

  /** The whole numbers from `m` up to `n`, or down to it, each once; none when `n` lies the other way. */
  ghost predicate Counts(xs: seq<Value>, m: int, n: int, down: bool) {
    && (xs == [] <==> if down then m < n else n < m)
    && (xs != [] ==> xs[|xs| - 1] == Scalar(n as real))
    && forall k :: 0 <= k < |xs| ==> xs[k] == Scalar((if down then m - k else m + k) as real)
  }

  lemma LocalReads(plan: Plan, fr: Frame, mem: Memory, env: Env, i: string)
    requires Local(plan, mem, i)
    ensures Eval(plan, fr, mem, env, Name(i)) == Lookup(env.vars, i)
  {
  }

  lemma OneRound(plan: Plan, fr: Frame, mem: Memory, env: Env, i: string, x: Value, fuel: nat)
    requires Local(plan, mem, i)
    ensures ExecBlock(plan, fr, mem, env.(vars := env.vars[i := x]), Then(Act(Name(i)), Done), fuel)
            == Next(Env(env.vars[i := x], env.acts + [x]))
  {
    LocalReads(plan, fr, mem, env.(vars := env.vars[i := x]), i);
    hide Eval;
  }

  lemma {:induction false} RoundsAct(plan: Plan, fr: Frame, mem: Memory, env: Env, i: string, at: int, down: bool,
                                     passes: nat, fuel: nat) returns (xs: seq<Value>)
    requires Local(plan, mem, i)
    ensures var r := ExecFor(plan, fr, mem, env, i, at, down, passes, Then(Act(Name(i)), Done), fuel);
            r.Next? && r.env.acts == env.acts + xs
    ensures |xs| == passes
    ensures forall k :: 0 <= k < passes ==> xs[k] == Scalar((if down then at - k else at + k) as real)
    decreases passes
  {
    hide ExecBlock, Eval;
    if passes == 0 {
      xs := [];
    } else {
      var x := Scalar(at as real);
      OneRound(plan, fr, mem, env, i, x, fuel);
      var rest := RoundsAct(plan, fr, mem, Env(env.vars[i := x], env.acts + [x]), i, if down then at - 1 else at + 1,
                            down, passes - 1, fuel);
      xs := [x] + rest;
      assert env.acts + [x] + rest == env.acts + xs;
    }
  }

  /** A loop that acts on its counter acts on every whole number between its bounds, both included, in
      order: upwards, or downwards with DownTo. */
  lemma CountingLoopVisits(plan: Plan, fr: Frame, mem: Memory, env: Env, i: string, a: Expr, b: Expr, v: Value,
                           w: Value, m: int, n: int, down: bool, fuel: nat) returns (xs: seq<Value>)
    requires Local(plan, mem, i)
    requires Eval(plan, fr, mem, env, a) == Some(v) && Eval(plan, fr, mem, env, b) == Some(w)
    requires fr.toInt(v) == Some(m) && fr.toInt(w) == Some(n)
    ensures Counts(xs, m, n, down)
    ensures var r := Exec(plan, fr, mem, env, For(i, a, b, down, Then(Act(Name(i)), Done)), fuel);
            r.Next? && r.env.acts == env.acts + xs
  {
    var passes := if down then m - n + 1 else n - m + 1;
    hide ExecFor, Eval;
    xs := RoundsAct(plan, fr, mem, env, i, m, down, if passes > 0 then passes else 0, fuel);
  }

  /** A variable reads as what was assigned to it, in single precision if it is a number kept so. */
  lemma AssignedReadsBack(plan: Plan, fr: Frame, mem: Memory, env: Env, x: string, e: Expr, v: Value, fuel: nat)
    requires x !in plan.prices && Eval(plan, fr, mem, env, e) == Some(v)
    ensures var r := Exec(plan, fr, mem, env, Assign(x, e), fuel);
            && r.Next? && r.env.acts == env.acts
            && Eval(plan, fr, mem, r.env, Name(x)) == Some(if x in plan.narrowed then fr.narrow(v) else v)
            && forall y :: y != x ==> Lookup(r.env.vars, y) == Lookup(env.vars, y)
  {
    var r := Exec(plan, fr, mem, env, Assign(x, e), fuel);
    assert r.Next? && r.env == env.(vars := env.vars[x := Stored(plan, fr, x, v)]) by {
      hide Stored;
    }
  }

  // ---- Breaking out -----------------------------------------------------------------------------------------

  /** Neither Break nor Continue leaves what was run. */
  predicate Contained(r: Flow) {
    !r.Broke? && !r.Continued?
  }

  lemma {:induction false} ForContains(plan: Plan, fr: Frame, mem: Memory, env: Env, i: string, at: int, down: bool,
                                       passes: nat, body: Block, fuel: nat)
    ensures Contained(ExecFor(plan, fr, mem, env, i, at, down, passes, body, fuel))
    decreases passes
  {
    hide ExecBlock;
    if passes > 0 {
      var r := ExecBlock(plan, fr, mem, env.(vars := env.vars[i := Scalar(at as real)]), body, fuel);
      if r.Next? || r.Continued? {
        ForContains(plan, fr, mem, r.env, i, if down then at - 1 else at + 1, down, passes - 1, body, fuel);
      }
    }
  }

  lemma {:induction false} WhileContains(plan: Plan, fr: Frame, mem: Memory, env: Env, c: Expr, body: Block, fuel: nat)
    ensures Contained(ExecWhile(plan, fr, mem, env, c, body, fuel))
    decreases fuel
  {
    hide ExecBlock, Eval;
    if fuel > 0 {
      var r := ExecBlock(plan, fr, mem, env, body, fuel - 1);
      if r.Next? || r.Continued? {
        WhileContains(plan, fr, mem, r.env, c, body, fuel - 1);
      }
    }
  }

  lemma {:induction false} RepeatContains(plan: Plan, fr: Frame, mem: Memory, env: Env, body: Block, c: Expr, fuel: nat)
    ensures Contained(ExecRepeat(plan, fr, mem, env, body, c, fuel))
    decreases fuel
  {
    hide ExecBlock, Eval;
    if fuel > 0 {
      var r := ExecBlock(plan, fr, mem, env, body, fuel - 1);
      if r.Next? || r.Continued? {
        RepeatContains(plan, fr, mem, r.env, body, c, fuel - 1);
      }
    }
  }

  /** Break and Continue end at the loop they stand in. */
  lemma LoopsContain(plan: Plan, fr: Frame, mem: Memory, env: Env, st: Stmt, fuel: nat)
    requires st.For? || st.While? || st.Repeat?
    ensures Contained(Exec(plan, fr, mem, env, st, fuel))
  {
    hide ExecFor, ExecWhile, ExecRepeat, Eval, Contained;
    match st
    case For(i, a, b, down, body) =>
      var v, w := Eval(plan, fr, mem, env, a), Eval(plan, fr, mem, env, b);
      assert Contained(Raised) by { RaisedIsContained(); }
      if v.Some? && w.Some? && fr.toInt(v.value).Some? && fr.toInt(w.value).Some? {
        var m, n := fr.toInt(v.value).value, fr.toInt(w.value).value;
        var passes := if down then m - n + 1 else n - m + 1;
        ForContains(plan, fr, mem, env, i, m, down, if passes > 0 then passes else 0, body, fuel);
      }
    case While(c, body) => WhileContains(plan, fr, mem, env, c, body, fuel);
    case Repeat(body, c) => RepeatContains(plan, fr, mem, env, body, c, fuel);
  }

  lemma RaisedIsContained()
    ensures Contained(Raised)
  {
  }

  // ---- Loops as other statements -------------------------------------------------------------------------------

  function Append(a: Block, b: Block): Block {
    match a
    case Done => b
    case Then(st, rest) => Then(st, Append(rest, b))
  }

  /** No Break or Continue outside a loop of its own. */
  predicate Straight(b: Block)
    decreases b
  {
    b.Then? ==> StraightStmt(b.stmt) && Straight(b.rest)
  }

  predicate StraightStmt(st: Stmt)
    decreases st
  {
    !st.Break? && !st.Continue? && (st.If? ==> Straight(st.yes) && Straight(st.no))
  }

  lemma {:induction false} StraightIsContained(plan: Plan, fr: Frame, mem: Memory, env: Env, b: Block, fuel: nat)
    requires Straight(b)
    ensures Contained(ExecBlock(plan, fr, mem, env, b, fuel))
    decreases b
  {
    hide ExecFor, ExecWhile, ExecRepeat, Eval;
    if b.Then? {
      StmtIsContained(plan, fr, mem, env, b.stmt, fuel);
      hide Exec;
      var r := Exec(plan, fr, mem, env, b.stmt, fuel);
      if r.Next? {
        StraightIsContained(plan, fr, mem, r.env, b.rest, fuel);
      }
    }
  }

  lemma {:induction false} StmtIsContained(plan: Plan, fr: Frame, mem: Memory, env: Env, st: Stmt, fuel: nat)
    requires StraightStmt(st)
    ensures Contained(Exec(plan, fr, mem, env, st, fuel))
    decreases st
  {
    if st.For? || st.While? || st.Repeat? {
      LoopsContain(plan, fr, mem, env, st, fuel);
    } else if st.If? {
      hide ExecBlock, Eval;
      StraightIsContained(plan, fr, mem, env, st.yes, fuel);
      StraightIsContained(plan, fr, mem, env, st.no, fuel);
    } else {
      hide Eval;
    }
  }

  lemma {:induction false} AppendRuns(plan: Plan, fr: Frame, mem: Memory, env: Env, a: Block, b: Block, fuel: nat)
    ensures ExecBlock(plan, fr, mem, env, Append(a, b), fuel)
            == match ExecBlock(plan, fr, mem, env, a, fuel)
               case Next(env') => ExecBlock(plan, fr, mem, env', b, fuel)
               case r => r
    decreases a
  {
    hide Exec;
    if a.Then? {
      var r := Exec(plan, fr, mem, env, a.stmt, fuel);
      if r.Next? {
        AppendRuns(plan, fr, mem, r.env, a.rest, b, fuel);
      }
    }
  }

  function AndThen(body: Block, st: Stmt): Block {
    Append(body, Then(st, Done))
  }

  lemma BodyThenWhile(plan: Plan, fr: Frame, mem: Memory, env: Env, c: Expr, body: Block, fuel: nat)
    requires Straight(body)
    ensures ExecBlock(plan, fr, mem, env, AndThen(body, While(c, body)), fuel)
            == match ExecBlock(plan, fr, mem, env, body, fuel)
               case Next(env') => ExecWhile(plan, fr, mem, env', c, body, fuel)
               case r => r
  {
    AppendRuns(plan, fr, mem, env, body, Then(While(c, body), Done), fuel);
    var r := ExecBlock(plan, fr, mem, env, body, fuel);
    if r.Next? {
      WhileContains(plan, fr, mem, r.env, c, body, fuel);
    }
    hide ExecWhile;
  }

  /** A While with passes left is an If around its body and itself. */
  lemma WhileUnrolls(plan: Plan, fr: Frame, mem: Memory, env: Env, c: Expr, body: Block, fuel: nat)
    requires Straight(body) && fuel > 0
    ensures Exec(plan, fr, mem, env, While(c, body), fuel)
            == Exec(plan, fr, mem, env, If(c, AndThen(body, While(c, body)), Done), fuel - 1)
  {
    BodyThenWhile(plan, fr, mem, env, c, body, fuel - 1);
    StraightIsContained(plan, fr, mem, env, body, fuel - 1);
    hide Eval, AndThen;
  }

  /** `not` turns truth around. */
  ghost predicate Negates(fr: Frame) {
    forall v :: fr.unary("not", v).Some? && fr.truth(fr.unary("not", v).value) == !fr.truth(v)
  }

  lemma EvalUnary(plan: Plan, fr: Frame, mem: Memory, env: Env, op: string, a: Expr)
    ensures Eval(plan, fr, mem, env, Unary(op, a))
            == match Eval(plan, fr, mem, env, a) case None => None case Some(v) => fr.unary(op, v)
  {
  }

  lemma Denied(plan: Plan, fr: Frame, mem: Memory, env: Env, c: Expr)
    requires Negates(fr)
    ensures var v, w := Eval(plan, fr, mem, env, c), Eval(plan, fr, mem, env, Unary("not", c));
            (v.Some? <==> w.Some?) && (v.Some? ==> fr.truth(w.value) == !fr.truth(v.value))
  {
    EvalUnary(plan, fr, mem, env, "not", c);
    hide Eval;
  }

  lemma {:induction false} RepeatThenWhile(plan: Plan, fr: Frame, mem: Memory, env: Env, body: Block, c: Expr,
                                           fuel: nat)
    requires Straight(body) && Negates(fr)
    ensures ExecRepeat(plan, fr, mem, env, body, c, fuel + 1)
            == match ExecBlock(plan, fr, mem, env, body, fuel)
               case Next(env') => ExecWhile(plan, fr, mem, env', Unary("not", c), body, fuel)
               case r => r
    decreases fuel
  {
    hide Eval, ExecBlock, Straight, Negates;
    StraightIsContained(plan, fr, mem, env, body, fuel);
    var r := ExecBlock(plan, fr, mem, env, body, fuel);
    if r.Next? {
      Denied(plan, fr, mem, r.env, c);
      var v := Eval(plan, fr, mem, r.env, c);
      if v.Some? && !fr.truth(v.value) && fuel > 0 {
        RepeatThenWhile(plan, fr, mem, r.env, body, c, fuel - 1);
        StraightIsContained(plan, fr, mem, r.env, body, fuel - 1);
      }
    }
  }

  /** A Repeat is its body and then a While of what its condition denies. */
  lemma RepeatIsWhile(plan: Plan, fr: Frame, mem: Memory, env: Env, body: Block, c: Expr, fuel: nat)
    requires Straight(body) && Negates(fr)
    ensures Exec(plan, fr, mem, env, Repeat(body, c), fuel + 1)
            == ExecBlock(plan, fr, mem, env, AndThen(body, While(Unary("not", c), body)), fuel)
  {
    hide Eval, ExecBlock, ExecRepeat, ExecWhile, Straight, Negates, AndThen;
    RepeatThenWhile(plan, fr, mem, env, body, c, fuel);
    BodyThenWhile(plan, fr, mem, env, Unary("not", c), body, fuel);
  }

  // ---- And and or ---------------------------------------------------------------------------------------------

  lemma EvalLogical(plan: Plan, fr: Frame, mem: Memory, env: Env, op: string, a: Expr, b: Expr)
    requires Logical(op)
    ensures Eval(plan, fr, mem, env, Binary(op, a, b))
            == match Eval(plan, fr, mem, env, a)
               case None => None
               case Some(v) => if Decides(fr, op, v) then Some(v) else Eval(plan, fr, mem, env, b)
  {
  }

  /** `a and b` is as true as both, `a or b` as either; where `a` decides, `b` may be an error. */
  lemma LogicalMeans(plan: Plan, fr: Frame, mem: Memory, env: Env, a: Expr, b: Expr, v: Value)
    requires Eval(plan, fr, mem, env, a) == Some(v)
    ensures var w, both := Eval(plan, fr, mem, env, b), Eval(plan, fr, mem, env, Binary("and", a, b));
            && (both.Some? <==> !fr.truth(v) || w.Some?)
            && (both.Some? ==> fr.truth(both.value) == (fr.truth(v) && (w.Some? ==> fr.truth(w.value))))
    ensures var w, either := Eval(plan, fr, mem, env, b), Eval(plan, fr, mem, env, Binary("or", a, b));
            && (either.Some? <==> fr.truth(v) || w.Some?)
            && (either.Some? ==> fr.truth(either.value) == (fr.truth(v) || (w.Some? && fr.truth(w.value))))
  {
    EvalLogical(plan, fr, mem, env, "and", a, b);
    EvalLogical(plan, fr, mem, env, "or", a, b);
    assert |"and"| == 3 && |"or"| == 2;
    hide Eval;
  }
}
