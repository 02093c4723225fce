/** How generated code stores a strategy's variables: the values of most variables are packed
    into one list of slots, overwritten every bar; only the variables the analysis selects keep
    a growing list of end-of-bar values. The simple semantics, in which every variable keeps
    its whole history, is defined beside it. */
module Storage {
  import opened Sequences

  datatype Value = Scalar(x: real) | Text(s: string) | Many(items: seq<Value>)

  /** One bar: its data and every primitive's result on it, all arbitrary. None is a raised
      error. */
  datatype Frame = Frame(
    current: string -> Value,
    column: string -> Value,
    lag: (string, Value) -> Option<Value>,
    unary: (string, Value) -> Option<Value>,
    binary: (string, Value, Value) -> Option<Value>,
    call: (string, seq<Value>) -> Option<Value>,
    truth: Value -> bool,
    toInt: Value -> Option<int>,
    narrow: Value -> Value)

  datatype Expr =
    | Const(value: Value)
    | Name(name: string)
    | Unary(op: string, operand: Expr)
    | Binary(op: string, left: Expr, right: Expr)
    | Call(fn: string, args: Exprs)
    | Back(name: string, index: Expr)      // name[index]
    | BackLit(name: string, n: nat)        // name[n], a literal offset

  datatype Exprs = NoExprs | MoreExprs(arg: Expr, rest: Exprs)

  /** `Act` is any statement that only evaluates: an order, a plot, an alert. `Redeclare` is a
      Variables block that names a top-level variable again inside the body. */
  datatype Stmt =
    | Assign(target: string, value: Expr)
    | Act(what: Expr)
    | If(cond: Expr, yes: Block, no: Block)
    | For(counter: string, from: Expr, to: Expr, down: bool, body: Block)
    | While(cond: Expr, body: Block)
    | Repeat(body: Block, until: Expr)
    | Break
    | Continue
    | Redeclare(name: string)

  datatype Block = Done | Then(stmt: Stmt, rest: Block)

  /** The program's declarations and what the generator knows about names. */
  datatype Plan = Plan(
    prices: set<string>,
    seriesFuncs: set<string>,
    seeds: map<string, Value>,      // the declared variables and their first-bar values
    inputs: map<string, Value>,
    narrowed: set<string>)          // numeric variables stored in single precision

  predicate Stateful(plan: Plan, x: string) {
    x in plan.seeds
  }

  // ---- Generated expressions ----------------------------------------------------------

  datatype PyExpr =
    | PConst(value: Value)
    | PCurrent(price: string)               // `_close`
    | PColumn(price: string)                // `close`
    | PColumnBack(price: string, index: PyExpr)
    | PLocal(name: string)
    | PWithCurrent(name: string)            // `(_state['x'] + [x])`
    | PBack(name: string, n: nat)           // `_state['x'][-n]`, or `_state['x'][0]` when shorter
    | PBackAt(name: string, index: PyExpr)  // the same with a computed offset
    | PUnary(op: string, operand: PyExpr)
    | PBinary(op: string, left: PyExpr, right: PyExpr)
    | PCall(fn: string, args: PyExprs)
    | PError

  datatype PyExprs = NoPy | MorePy(arg: PyExpr, rest: PyExprs)

  /** The expression the generator emits; `series` is its series-context flag. */
  function Gen(plan: Plan, e: Expr, series: bool): PyExpr
    decreases e
  {
    match e
    case Const(v) => PConst(v)
    case Name(x) =>
      if x in plan.prices && !series then PCurrent(x)
      else if series && Stateful(plan, x) then PWithCurrent(x)
      else if x in plan.prices then PColumn(x)
      else PLocal(x)
    case Unary(op, a) => PUnary(op, Gen(plan, a, series))
    case Binary(op, a, b) => PBinary(op, Gen(plan, a, series), Gen(plan, b, series))
    case Call(f, es) => PCall(f, GenArgs(plan, es, series || f in plan.seriesFuncs))
    case Back(x, i) =>
      if x in plan.inputs then PLocal(x)
      else if Stateful(plan, x) then PBackAt(x, Gen(plan, i, series))
      else if x in plan.prices then PColumnBack(x, Gen(plan, i, series))
      else PError
    case BackLit(x, n) =>
      if x in plan.inputs then PLocal(x)
      else if Stateful(plan, x) then if n == 0 then PLocal(x) else PBack(x, n)
      else if x in plan.prices then PColumnBack(x, PConst(Scalar(n as real)))
      else PError
  }

  function GenArgs(plan: Plan, es: Exprs, series: bool): PyExprs
    decreases es
  {
    match es
    case NoExprs => NoPy
    case MoreExprs(e, rest) => MorePy(Gen(plan, e, series), GenArgs(plan, rest, series))
  }

  /** The list read `n` from its end, or its first element when it is shorter. */
  function ReadBack(list: seq<Value>, n: int): Option<Value> {
    if |list| == 0 then None
    else if n > |list| then Some(list[0])
    else if n >= 1 then Some(list[|list| - n])
    else if -n < |list| then Some(list[-n])  // a zero or negative offset indexes from the front
    else None
  }

  function Lookup(vars: map<string, Value>, x: string): Option<Value> {
    if x in vars then Some(vars[x]) else None
  }

  predicate Logical(op: string) {
    op == "and" || op == "or"
  }

  /** The left operand of a Python `and` or `or` settles it, and the right one is not evaluated. */
  predicate Decides(fr: Frame, op: string, v: Value) {
    (op == "and" && !fr.truth(v)) || (op == "or" && fr.truth(v))
  }

  /** Running the generated expression; a missing list or local raises. */
  function PyEval(fr: Frame, lists: map<string, seq<Value>>, vars: map<string, Value>, p: PyExpr): Option<Value>
    decreases p
  {
    match p
    case PConst(v) => Some(v)
    case PCurrent(x) => Some(fr.current(x))
    case PColumn(x) => Some(fr.column(x))
    case PColumnBack(x, i) =>
      (match PyEval(fr, lists, vars, i)
       case None => None
       case Some(v) => fr.lag(x, v))
    case PLocal(x) => Lookup(vars, x)
    case PWithCurrent(x) => if x in lists && x in vars then Some(Many(lists[x] + [vars[x]])) else None
    case PBack(x, n) => if x in lists then ReadBack(lists[x], n) else None
    case PBackAt(x, i) =>
      (match PyEval(fr, lists, vars, i)
       case None => None
       case Some(v) =>
         var n := fr.toInt(v);
         if n.Some? && x in lists then ReadBack(lists[x], n.value) else None)
    case PUnary(op, a) =>
      (match PyEval(fr, lists, vars, a)
       case None => None
       case Some(v) => fr.unary(op, v))
    case PBinary(op, a, b) =>
      (match PyEval(fr, lists, vars, a)
       case None => None
       case Some(v) =>
         if Decides(fr, op, v) then Some(v)
         else
           match PyEval(fr, lists, vars, b)
           case None => None
           case Some(w) => if Logical(op) then Some(w) else fr.binary(op, v, w))
    case PCall(f, args) =>
      (match PyEvalArgs(fr, lists, vars, args)
       case None => None
       case Some(vs) => fr.call(f, vs))
    case PError => None
  }

  function PyEvalArgs(fr: Frame, lists: map<string, seq<Value>>, vars: map<string, Value>, ps: PyExprs)
    : Option<seq<Value>>
    decreases ps
  {
    match ps
    case NoPy => Some([])
    case MorePy(p, rest) =>
      match PyEval(fr, lists, vars, p)
      case None => None
      case Some(v) =>
        match PyEvalArgs(fr, lists, vars, rest)
        case None => None
        case Some(vs) => Some([v] + vs)
  }

  // ---- The simple semantics --------------------------------------------------------------

  /** The value `n` bars ago: now for 0, the end of an earlier bar, or the seed before those.
      A negative offset is an error. */
  function ValueAgo(past: seq<Value>, now: Value, n: int): Option<Value> {
    if n < 0 || past == [] then None
    else if n == 0 then Some(now)
    else if n <= |past| then Some(past[|past| - n])
    else Some(past[0])
  }

  /** What an expression means when every variable keeps its whole history `past`. */
  function Meaning(plan: Plan, fr: Frame, past: map<string, seq<Value>>, vars: map<string, Value>, e: Expr,
                   series: bool)
    : Option<Value>
    decreases e
  {
    match e
    case Const(v) => Some(v)
    case Name(x) =>
      if x in past then if x !in vars then None else if series then Some(Many(past[x] + [vars[x]])) else Some(vars[x])
      else if x in plan.prices then Some(if series then fr.column(x) else fr.current(x))
      else Lookup(vars, x)
    case Unary(op, a) =>
      (match Meaning(plan, fr, past, vars, a, series)
       case None => None
       case Some(v) => fr.unary(op, v))
    case Binary(op, a, b) =>
      (match Meaning(plan, fr, past, vars, a, series)
       case None => None
       case Some(v) =>
         if Decides(fr, op, v) then Some(v)
         else
           match Meaning(plan, fr, past, vars, b, series)
           case None => None
           case Some(w) => if Logical(op) then Some(w) else fr.binary(op, v, w))
    case Call(f, es) =>
      (match Meanings(plan, fr, past, vars, es, series || f in plan.seriesFuncs)
       case None => None
       case Some(vs) => fr.call(f, vs))
    case Back(x, i) =>
      if x in plan.inputs then Lookup(vars, x)
      else
        (match Meaning(plan, fr, past, vars, i, false)
         case None => None
         case Some(v) =>
           if x in past then
             var n := fr.toInt(v);
             if n.Some? && x in vars then ValueAgo(past[x], vars[x], n.value) else None
           else if x in plan.prices then fr.lag(x, v)
           else None)
    case BackLit(x, n) =>
      if x in plan.inputs then Lookup(vars, x)
      else if x in past then if x in vars then ValueAgo(past[x], vars[x], n) else None
      else if x in plan.prices then fr.lag(x, Scalar(n as real))
      else None
  }

  function Meanings(plan: Plan, fr: Frame, past: map<string, seq<Value>>, vars: map<string, Value>, es: Exprs,
                    series: bool)
    : Option<seq<Value>>
    decreases es
  {
    match es
    case NoExprs => Some([])
    case MoreExprs(e, rest) =>
      match Meaning(plan, fr, past, vars, e, series)
      case None => None
      case Some(v) =>
        match Meanings(plan, fr, past, vars, rest, series)
        case None => None
        case Some(vs) => Some([v] + vs)
  }

  // ---- The analysis -----------------------------------------------------------------------

  /** Variables an expression reads through their list. */
  function Collect(plan: Plan, e: Expr, series: bool): set<string>
    decreases e
  {
    match e
    case Const(_) => {}
    case Name(x) => if series && Stateful(plan, x) then {x} else {}
    case Unary(_, a) => Collect(plan, a, series)
    case Binary(_, a, b) => Collect(plan, a, series) + Collect(plan, b, series)
    case Call(f, es) => CollectArgs(plan, es, series || f in plan.seriesFuncs)
    case Back(x, i) => (if Stateful(plan, x) then {x} else {}) + Collect(plan, i, false)
    case BackLit(x, _) => if Stateful(plan, x) then {x} else {}
  }

  function CollectArgs(plan: Plan, es: Exprs, series: bool): set<string>
    decreases es
  {
    match es
    case NoExprs => {}
    case MoreExprs(e, rest) => Collect(plan, e, series) + CollectArgs(plan, rest, series)
  }

  function CollectStmt(plan: Plan, st: Stmt): set<string>
    decreases st
  {
    match st
    case Assign(_, e) => Collect(plan, e, false)
    case Act(e) => Collect(plan, e, false)
    case If(c, a, b) => Collect(plan, c, false) + CollectBlock(plan, a) + CollectBlock(plan, b)
    case For(_, a, b, _, body) => Collect(plan, a, false) + Collect(plan, b, false) + CollectBlock(plan, body)
    case While(c, body) => Collect(plan, c, false) + CollectBlock(plan, body)
    case Repeat(body, c) => CollectBlock(plan, body) + Collect(plan, c, false)
    case _ => {}
  }

  function CollectBlock(plan: Plan, b: Block): set<string>
    decreases b
  {
    match b
    case Done => {}
    case Then(st, rest) => CollectStmt(plan, st) + CollectBlock(plan, rest)
  }

  // ---- Statements, over either storage -----------------------------------------------------

  /** Every variable's history, or lists for the selected variables only. */
  datatype Memory = Full(past: map<string, seq<Value>>) | Split(lists: map<string, seq<Value>>)

  /** The bar's locals and what its statements did so far. */
  datatype Env = Env(vars: map<string, Value>, acts: seq<Value>)

  datatype Flow = Next(env: Env) | Broke(env: Env) | Continued(env: Env) | Raised | OutOfFuel

  function Eval(plan: Plan, fr: Frame, mem: Memory, env: Env, e: Expr): Option<Value> {
    match mem
    case Full(past) => Meaning(plan, fr, past, env.vars, e, false)
    case Split(lists) => PyEval(fr, lists, env.vars, Gen(plan, e, false))
  }

  function Stored(plan: Plan, fr: Frame, x: string, v: Value): Value {
    if x in plan.narrowed then fr.narrow(v) else v
  }

  /** A redeclaration leaves a variable alone, except that the generated code reloads a list
      variable from its last entry. */
  function Reload(mem: Memory, env: Env, x: string): Env {
    if mem.Split? && x in mem.lists && mem.lists[x] != [] then
      env.(vars := env.vars[x := mem.lists[x][|mem.lists[x]| - 1]])
    else env
  }

  /** One statement. `fuel` bounds the passes of a While or Repeat; a program is compared for
      every fuel. */
  function Exec(plan: Plan, fr: Frame, mem: Memory, env: Env, st: Stmt, fuel: nat): Flow
    decreases fuel, st, 0
  {
    match st
    case Assign(x, e) =>
      (match Eval(plan, fr, mem, env, e)
       case None => Raised
       case Some(v) => Next(env.(vars := env.vars[x := Stored(plan, fr, x, v)])))
    case Act(e) =>
      (match Eval(plan, fr, mem, env, e)
       case None => Raised
       case Some(v) => Next(env.(acts := env.acts + [v])))
    case If(c, a, b) =>
      (match Eval(plan, fr, mem, env, c)
       case None => Raised
       case Some(v) => ExecBlock(plan, fr, mem, env, if fr.truth(v) then a else b, fuel))
    case For(i, a, b, down, body) =>
      (match (Eval(plan, fr, mem, env, a), Eval(plan, fr, mem, env, b))
       case (Some(v), Some(w)) =>
         (match (fr.toInt(v), fr.toInt(w))
          case (Some(m), Some(n)) =>
            var passes := if down then m - n + 1 else n - m + 1;
            ExecFor(plan, fr, mem, env, i, m, down, if passes > 0 then passes else 0, body, fuel)
          case _ => Raised)
       case _ => Raised)
    case While(c, body) => ExecWhile(plan, fr, mem, env, c, body, fuel)
    case Repeat(body, c) => ExecRepeat(plan, fr, mem, env, body, c, fuel)
    case Break => Broke(env)
    case Continue => Continued(env)
    case Redeclare(x) => Next(Reload(mem, env, x))
  }

  function ExecBlock(plan: Plan, fr: Frame, mem: Memory, env: Env, b: Block, fuel: nat): Flow
    decreases fuel, b, 0
  {
    match b
    case Done => Next(env)
    case Then(st, rest) =>
      match Exec(plan, fr, mem, env, st, fuel)
      case Next(env') => ExecBlock(plan, fr, mem, env', rest, fuel)
      case r => r
  }

  /** `passes` more rounds of a counting loop at counter value `at`. */
  function ExecFor(plan: Plan, fr: Frame, mem: Memory, env: Env, i: string, at: int, down: bool, passes: nat,
                   body: Block, fuel: nat): Flow
    decreases fuel, body, 1, passes
  {
    if passes == 0 then Next(env)
    else
      match ExecBlock(plan, fr, mem, env.(vars := env.vars[i := Scalar(at as real)]), body, fuel)
      case Next(env') => ExecFor(plan, fr, mem, env', i, if down then at - 1 else at + 1, down, passes - 1, body, fuel)
      case Continued(env') => ExecFor(plan, fr, mem, env', i, if down then at - 1 else at + 1, down, passes - 1, body,
                                      fuel)
      case Broke(env') => Next(env')
      case r => r
  }

  function ExecWhile(plan: Plan, fr: Frame, mem: Memory, env: Env, c: Expr, body: Block, fuel: nat): Flow
    decreases fuel, body, 1
  {
    match Eval(plan, fr, mem, env, c)
    case None => Raised
    case Some(v) =>
      if !fr.truth(v) then Next(env)
      else if fuel == 0 then OutOfFuel
      else
        match ExecBlock(plan, fr, mem, env, body, fuel - 1)
        case Next(env') => ExecWhile(plan, fr, mem, env', c, body, fuel - 1)
        case Continued(env') => ExecWhile(plan, fr, mem, env', c, body, fuel - 1)
        case Broke(env') => Next(env')
        case r => r
  }

  /** `while True: body; if until: break` -- so a Continue in the body skips the test. */
  function ExecRepeat(plan: Plan, fr: Frame, mem: Memory, env: Env, body: Block, until: Expr, fuel: nat): Flow
    decreases fuel, body, 1
  {
    if fuel == 0 then OutOfFuel
    else
      match ExecBlock(plan, fr, mem, env, body, fuel - 1)
      case Next(env') =>
        (match Eval(plan, fr, mem, env', until)
         case None => Raised
         case Some(v) => if fr.truth(v) then Next(env') else ExecRepeat(plan, fr, mem, env', body, until, fuel - 1))
      case Continued(env') => ExecRepeat(plan, fr, mem, env', body, until, fuel - 1)
      case Broke(env') => Next(env')
      case r => r
  }

  // ---- Bars -----------------------------------------------------------------------------------

  function Last(s: seq<Value>): Value
    requires s != []
  {
    s[|s| - 1]
  }

  /** Every declared variable has a history. */
  ghost predicate Kept(past: map<string, seq<Value>>, names: set<string>) {
    past.Keys == names && forall x :: x in past ==> past[x] != []
  }

  /** The simple semantics of one bar: variables start at their last value and, when the bar
      completes, each history gains its end-of-bar value. A bar that raises leaves no trace. */
  function SimpleBar(plan: Plan, fr: Frame, past: map<string, seq<Value>>, body: Block, fuel: nat)
    : (map<string, seq<Value>>, Flow)
    requires Kept(past, plan.seeds.Keys)
  {
    var vars := plan.inputs + map x | x in past :: Last(past[x]);
    var flow := ExecBlock(plan, fr, Full(past), Env(vars, []), body, fuel);
    (if flow.Next? then map x | x in past :: past[x] + (if x in flow.env.vars then [flow.env.vars[x]] else [])
     else past,
     flow)
  }

  /** What the generated code keeps between bars. */
  datatype SplitState = SplitState(lists: map<string, seq<Value>>, slots: seq<Value>)

  /** `a, b, c = _pb_slots`. */
  function Unpack(names: seq<string>, slots: seq<Value>): map<string, Value>
    requires |names| == |slots|
    decreases |names|
  {
    if names == [] then map[]
    else Unpack(names[..|names| - 1], slots[..|names| - 1])[names[|names| - 1] := slots[|names| - 1]]
  }

  /** `_pb_slots[:] = (a, b, c)`. */
  function Pack(names: seq<string>, vars: map<string, Value>, old_: seq<Value>): (slots: seq<Value>)
    requires |names| == |old_|
    ensures |slots| == |names|
    ensures forall i :: 0 <= i < |names| ==> slots[i] == if names[i] in vars then vars[names[i]] else old_[i]
  {
    seq(|names|, i requires 0 <= i < |names| => if names[i] in vars then vars[names[i]] else old_[i])
  }

  /** One call of the generated function: prologue, list variables loaded where they are
      declared, body, epilogue. */
  function SplitBar(plan: Plan, fr: Frame, names: seq<string>, st: SplitState, body: Block, fuel: nat)
    : (SplitState, Flow)
    requires |names| == |st.slots| && Kept(st.lists, st.lists.Keys)
  {
    var vars := plan.inputs + Unpack(names, st.slots) + map x | x in st.lists :: Last(st.lists[x]);
    var flow := ExecBlock(plan, fr, Split(st.lists), Env(vars, []), body, fuel);
    (if flow.Next? then
       SplitState(map x | x in st.lists :: st.lists[x] + (if x in flow.env.vars then [flow.env.vars[x]] else []),
                  Pack(names, flow.env.vars, st.slots))
     else st,
     flow)
  }
}
