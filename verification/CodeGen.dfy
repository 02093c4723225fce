/** The generator object: its series-context flag is switched on for a series argument and put
    back after it, and its selection of list variables grows while it walks the program. */
module CodeGens {
  import opened Storage

  class CodeGen {
    const plan: Plan
    var seriesContext: bool
    var historyVars: set<string>

    constructor (plan: Plan)
      ensures this.plan == plan && !seriesContext && historyVars == {}
    {
      this.plan, seriesContext, historyVars := plan, false, {};
    }

    // ---- Expressions ------------------------------------------------------------------

    method GenExpr(e: Expr) returns (p: PyExpr)
      modifies this`seriesContext
      ensures p == Gen(plan, e, old(seriesContext)) && seriesContext == old(seriesContext)
      decreases e
    {
      match e
      case Const(v) =>
        p := PConst(v);
      case Name(x) =>
        if x in plan.prices && !seriesContext {
          return PCurrent(x);
        }
        if seriesContext && x in plan.seeds {
          return PWithCurrent(x);
        }
        p := if x in plan.prices then PColumn(x) else PLocal(x);
      case Unary(op, a) =>
        var operand := GenExpr(a);
        p := PUnary(op, operand);
      case Binary(op, a, b) =>
        var left := GenExpr(a);
        var right := GenExpr(b);
        p := PBinary(op, left, right);
      case Call(f, es) =>
        var oldContext := seriesContext;
        if f in plan.seriesFuncs {
          seriesContext := true;
        }
        var args := GenCallArgs(es);
        seriesContext := oldContext;
        p := PCall(f, args);
      case Back(x, i) =>
        var index := GenExpr(i);
        if x in plan.inputs {
          return PLocal(x);
        }
        if x in plan.seeds {
          return PBackAt(x, index);
        }
        p := if x in plan.prices then PColumnBack(x, index) else PError;
      case BackLit(x, n) =>
        if x in plan.inputs {
          return PLocal(x);
        }
        if x in plan.seeds {
          return if n == 0 then PLocal(x) else PBack(x, n);
        }
        p := if x in plan.prices then PColumnBack(x, PConst(Scalar(n as real))) else PError;
    }

    method GenCallArgs(es: Exprs) returns (ps: PyExprs)
      modifies this`seriesContext
      ensures ps == GenArgs(plan, es, old(seriesContext)) && seriesContext == old(seriesContext)
      decreases es
    {
      match es
      case NoExprs =>
        ps := NoPy;
      case MoreExprs(e, rest) =>
        var p := GenExpr(e);
        var more := GenCallArgs(rest);
        ps := MorePy(p, more);
    }

    // ---- Storage analysis ---------------------------------------------------------------

    method CollectHistoryVars(e: Expr, series: bool)
      modifies this`historyVars
      ensures historyVars == old(historyVars) + Collect(plan, e, series)
      decreases e
    {
      match e
      case Const(_) =>
      case Name(x) =>
        if series && x in plan.seeds {
          historyVars := historyVars + {x};
        }
      case Unary(_, a) =>
        CollectHistoryVars(a, series);
      case Binary(_, a, b) =>
        CollectHistoryVars(a, series);
        CollectHistoryVars(b, series);
      case Call(f, es) =>
        CollectCallArgs(es, series || f in plan.seriesFuncs);
      case Back(x, i) =>
        if x in plan.seeds {
          historyVars := historyVars + {x};
        }
        CollectHistoryVars(i, false);
      case BackLit(x, n) =>
        // The offset test alone would spare `x[0]`, but the name is then walked as a series.
        if x in plan.seeds {
          historyVars := historyVars + {x};
        }
    }

    method CollectCallArgs(es: Exprs, series: bool)
      modifies this`historyVars
      ensures historyVars == old(historyVars) + CollectArgs(plan, es, series)
      decreases es
    {
      if es.MoreExprs? {
        CollectHistoryVars(es.arg, series);
        CollectCallArgs(es.rest, series);
      }
    }

    method CollectStatement(st: Stmt)
      modifies this`historyVars
      ensures historyVars == old(historyVars) + CollectStmt(plan, st)
      decreases st
    {
      match st
      case Assign(_, e) => CollectHistoryVars(e, false);
      case Act(e) => CollectHistoryVars(e, false);
      case If(c, a, b) =>
        CollectHistoryVars(c, false);
        CollectBody(a);
        CollectBody(b);
      case For(_, a, b, _, body) =>
        CollectHistoryVars(a, false);
        CollectHistoryVars(b, false);
        CollectBody(body);
      case While(c, body) =>
        CollectHistoryVars(c, false);
        CollectBody(body);
      case Repeat(body, c) =>
        CollectBody(body);
        CollectHistoryVars(c, false);
      case _ =>
    }

    method CollectBody(b: Block)
      modifies this`historyVars
      ensures historyVars == old(historyVars) + CollectBlock(plan, b)
      decreases b
    {
      if b.Then? {
        CollectStatement(b.stmt);
        CollectBody(b.rest);
      }
    }

    /** The variables that get a list instead of a slot. */
    method AnalyseStorage(body: Block)
      modifies this`historyVars
      ensures historyVars == CollectBlock(plan, body)
    {
      historyVars := {};
      CollectBody(body);
    }
  }
}
