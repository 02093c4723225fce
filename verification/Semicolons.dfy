/** Statements as people write them: stray semicolons, `:=` for `=`, and no semicolon before Else.
    The emitter prints none of these; all of them read as what it prints. */
module Semicolons {
  import opened Syntax
  import opened Grammar
  import opened Emitter
  import opened ExprRoundTrip
  import opened Statements
  import opened StmtRoundTrip
  import opened Programs

  // ---- Stray semicolons ---------------------------------------------------------------------------

  function Semis(n: nat, k: Tokens): Tokens {
    if n == 0 then k else Cons(Semi, Semis(n - 1, k))
  }

  /** The statements `sts` before `k`; `gap` says how many semicolons too many stand before each
      and at the end. */
  function Loosely(voc: Vocabulary, sts: Stmts, gap: Stmts -> nat, k: Tokens): Tokens
    decreases sts
  {
    match sts
    case NoStmts => Semis(gap(sts), k)
    case MoreStmts(st, rest) => Semis(gap(sts), EmitStmt(voc, st, Loosely(voc, rest, gap, k)))
  }

  lemma {:induction false} ProgramSkips(voc: Vocabulary, n: nat, k: Tokens)
    ensures ParseProgram(voc, Semis(n, k)) == ParseProgram(voc, k)
  {
    if n > 0 {
      ProgramSkips(voc, n - 1, k);
    }
  }

  lemma {:induction false} BlockSkips(voc: Vocabulary, n: nat, k: Tokens)
    ensures ParseBlock(voc, Semis(n, k)) == ParseBlock(voc, k)
  {
    if n > 0 {
      BlockSkips(voc, n - 1, k);
    }
  }

  /** No Else comes next. */
  lemma LooseOpens(voc: Vocabulary, sts: Stmts, gap: Stmts -> nat, k: Tokens)
    requires AllFormed(voc, sts) && !Starts(k, Kw(KElse))
    ensures !Starts(Loosely(voc, sts, gap, k), Kw(KElse))
  {
    hide Formed, EmitStmt;
    if sts.MoreStmts? {
      StmtOpens(voc, NO_HEADER, sts.stmt, Loosely(voc, sts.rest, gap, k));
    }
  }

  /** However many semicolons stand between the statements of a program, it reads the same. */
  lemma {:induction false} StraySemicolons(voc: Vocabulary, p: Stmts, gap: Stmts -> nat)
    requires Coherent(voc) && AllWellFormed(voc, p)
    ensures ParseProgram(voc, Loosely(voc, p, gap, Nil)) == Ok(AllShown(p), Nil)
    decreases p
  {
    hide Coherent, Formed, Clear, ParseStmt, Dangles, EmitStmt, Shown;
    if p.NoStmts? {
      ProgramSkips(voc, gap(p), Nil);
    } else {
      var s1 := Loosely(voc, p.rest, gap, Nil);
      StraySemicolons(voc, p.rest, gap);
      LooseOpens(voc, p.rest, gap, Nil);
      StmtReads(voc, p.stmt, s1);
      StmtOpens(voc, NO_HEADER, p.stmt, s1);
      ProgramStep(voc, EmitStmt(voc, p.stmt, s1), Shown(p.stmt), s1, AllShown(p.rest));
      ProgramSkips(voc, gap(p), EmitStmt(voc, p.stmt, s1));
    }
  }

  /** The same inside Begin and End. */
  lemma {:induction false} StrayInBlock(voc: Vocabulary, b: Stmts, gap: Stmts -> nat, k: Tokens)
    requires Coherent(voc) && AllWellFormed(voc, b)
    ensures ParseBlock(voc, Loosely(voc, b, gap, Cons(Kw(KEnd), k))) == Ok(AllShown(b), Cons(Kw(KEnd), k))
    decreases b
  {
    hide Coherent, Formed, Clear, ParseStmt, Dangles, EmitStmt, Shown;
    if b.NoStmts? {
      BlockSkips(voc, gap(b), Cons(Kw(KEnd), k));
    } else {
      var s1 := Loosely(voc, b.rest, gap, Cons(Kw(KEnd), k));
      StrayInBlock(voc, b.rest, gap, k);
      LooseOpens(voc, b.rest, gap, Cons(Kw(KEnd), k));
      StmtReads(voc, b.stmt, s1);
      StmtOpens(voc, NO_HEADER, b.stmt, s1);
      BlockSkips(voc, gap(b), EmitStmt(voc, b.stmt, s1));
      hide ParseBlock;
      BlockStep(voc, EmitStmt(voc, b.stmt, s1), Shown(b.stmt), s1, AllShown(b.rest), Cons(Kw(KEnd), k));
    }
  }

  /** But not between Repeat and Until. */
  lemma StrayInRepeatFails(voc: Vocabulary, k: Tokens)
    ensures ParseUntil(voc, Cons(Semi, k)) == Fail
  {
    hide ParseAt;
    SemiFails(voc, 1, k);
    assert ParseStmt(voc, Cons(Semi, k)) == Fail;
  }

  // ---- Ends of statements ---------------------------------------------------------------------------

  /** `t = e` or `t := e`, then what ends it. */
  function Assigned(voc: Vocabulary, t: Expr, sign: Symbol, e: Expr, k: Tokens): Tokens {
    Emit(voc, t, Cons(Op(sign), Emit(voc, e, k)))
  }

  /** Either sign assigns to a name or an indexed name, `:=` alone to a call, and the semicolon may
      be left out before Else and nowhere else. */
  lemma AssignedReads(voc: Vocabulary, t: Expr, sign: Symbol, e: Expr, k: Tokens)
    requires Coherent(voc) && TargetShape(voc, t) && !NamesInternal(t) && Shape(voc, e)
    requires sign == SAssign || (sign == SEq && !t.Call?)
    ensures ParseStmt(voc, Assigned(voc, t, sign, e, Cons(Semi, k))) == Ok(Assign(t, e), k)
    ensures Starts(k, Kw(KElse)) ==> ParseStmt(voc, Assigned(voc, t, sign, e, k)) == Ok(Assign(t, e), k)
    ensures Fits(e, k) && NextLevel(k) == 0 && !Starts(k, Semi) && !Starts(k, Kw(KElse)) ==>
              ParseStmt(voc, Assigned(voc, t, sign, e, k)) == Fail
  {
    hide Coherent, Shape, TargetShape, NamesInternal, ParseStmt, Assigned, Fits, NextLevel;
    ElseFits(e, k);
    AssignedParses(voc, t, sign, e, Cons(Semi, k));
    if Fits(e, k) && NextLevel(k) == 0 {
      AssignedParses(voc, t, sign, e, k);
    }
  }

  lemma ElseFits(e: Expr, k: Tokens)
    ensures Starts(k, Kw(KElse)) ==> Fits(e, k) && NextLevel(k) == 0
    ensures Fits(e, Cons(Semi, k)) && NextLevel(Cons(Semi, k)) == 0
  {
    hide EndsOpen;
  }

  lemma AssignedParses(voc: Vocabulary, t: Expr, sign: Symbol, e: Expr, k: Tokens)
    requires Coherent(voc) && TargetShape(voc, t) && !NamesInternal(t) && Shape(voc, e)
    requires sign == SAssign || (sign == SEq && !t.Call?)
    requires Fits(e, k) && NextLevel(k) == 0
    ensures ParseStmt(voc, Assigned(voc, t, sign, e, k)) == EndStmt(Assign(t, e), k)
  {
    hide Coherent, Shape, Emit, ParseAt, ParseNamed, NamesInternal, Fits, NextLevel, LeadName;
    var s := Cons(Op(sign), Emit(voc, e, k));
    TargetReads(voc, t, s);
    ExpressionRoundTrip(voc, e, k);
    NoReserved(voc, t);
    DispatchSimple(voc, Emit(voc, t, s));
  }

  /** A target begins with no statement word. */
  lemma NoReserved(voc: Vocabulary, t: Expr)
    requires TargetShape(voc, t)
    ensures LeadName(t) !in voc.statementWords && (t.Ident? || t.BarRef? || t.Call?)
  {
  }
}
