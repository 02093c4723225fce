/** The recursive-descent parser as the program runs it: one cursor over a token sequence,
    moved by peek, advance, match and expect. Every method is proved to read exactly what the
    grammar says from where the cursor stands. */
module Parsers {
  import opened Sequences
  import opened Syntax
  import opened Grammar
  import opened Statements

  /** A returned node, or the syntax error that ended the parse. */
  datatype Outcome<+T> = Raised | Value(value: T) {
    predicate IsFailure() {
      Raised?
    }

    function PropagateFailure<U>(): Outcome<U>
      requires IsFailure()
    {
      Raised
    }

    function Extract(): T
      requires !IsFailure()
    {
      value
    }
  }

  /** The outcome is what the grammar reads, with `rest` still to come. */
  ghost predicate Agrees<T>(p: Parsed<T>, r: Outcome<T>, rest: Tokens) {
    if r.Raised? then p.Fail? else p == Ok(r.value, rest)
  }

  function TokensFrom(ts: seq<Token>, i: nat): (l: Tokens)
    requires i <= |ts|
    ensures Length(l) == |ts| - i
    decreases |ts| - i
  {
    if i == |ts| then Nil else Cons(ts[i], TokensFrom(ts, i + 1))
  }

  // ---- Lists built by appending -------------------------------------------------------

  function ToArgs(es: seq<Expr>, more: Args): Args {
    if es == [] then more else MoreArgs(es[0], ToArgs(es[1..], more))
  }

  lemma {:induction false} ToArgsAppends(es: seq<Expr>, e: Expr, more: Args)
    ensures ToArgs(es + [e], more) == ToArgs(es, MoreArgs(e, more))
  {
    if es != [] {
      assert (es + [e])[1..] == es[1..] + [e];
      ToArgsAppends(es[1..], e, more);
    } else {
      assert (es + [e])[1..] == [];
    }
  }

  /** `es`, already read, before what `p` reads. */
  function PrependArgs(es: seq<Expr>, p: Parsed<Args>): Parsed<Args> {
    if p.Fail? then Fail else Ok(ToArgs(es, p.value), p.rest)
  }

  /** What may follow an argument. */
  function AfterArg(voc: Vocabulary, s: Tokens): Parsed<Args> {
    if Starts(s, RPar) then Ok(NoArgs, s.tail) else if Starts(s, Comma) then ParseArgs(voc, s.tail) else Fail
  }

  lemma ArgRead(voc: Vocabulary, es: seq<Expr>, s: Tokens)
    ensures PrependArgs(es, ParseArgs(voc, s))
            == match ParseAt(voc, 1, s) case Fail => Fail case Ok(e, s1) => PrependArgs(es + [e], AfterArg(voc, s1))
  {
    hide ParseAt;
    var r := ParseAt(voc, 1, s);
    if r.Ok? {
      var p := AfterArg(voc, r.rest);
      if p.Ok? {
        ToArgsAppends(es, r.value, p.value);
      }
    }
  }

  function ToStmts(sts: seq<Stmt>, more: Stmts): Stmts {
    if sts == [] then more else MoreStmts(sts[0], ToStmts(sts[1..], more))
  }

  lemma {:induction false} ToStmtsAppends(sts: seq<Stmt>, st: Stmt, more: Stmts)
    ensures ToStmts(sts + [st], more) == ToStmts(sts, MoreStmts(st, more))
  {
    if sts != [] {
      assert (sts + [st])[1..] == sts[1..] + [st];
      ToStmtsAppends(sts[1..], st, more);
    } else {
      assert (sts + [st])[1..] == [];
    }
  }

  /** `sts`, already read, before what `p` reads. */
  function PrependStmts(sts: seq<Stmt>, p: Parsed<Stmts>): Parsed<Stmts> {
    if p.Fail? then Fail else Ok(ToStmts(sts, p.value), p.rest)
  }

  lemma StmtAppended(sts: seq<Stmt>, st: Stmt, p: Parsed<Stmts>)
    ensures PrependStmts(sts + [st], p)
            == PrependStmts(sts, match p case Fail => Fail case Ok(more, s) => Ok(MoreStmts(st, more), s))
  {
    if p.Ok? {
      ToStmtsAppends(sts, st, p.value);
    }
  }

  /** What is left to read of a For after its `=`. */
  function ForRange(voc: Vocabulary, v: string, s: Tokens): Parsed<Stmt> {
    match ParseAt(voc, 1, s)
    case Fail => Fail
    case Ok(a, s1) =>
      if Starts(s1, Kw(KTo)) || Starts(s1, Kw(KDownTo)) then ForLeg(voc, v, a, Starts(s1, Kw(KDownTo)), s1.tail)
      else Fail
  }

  function ForLeg(voc: Vocabulary, v: string, a: Expr, down: bool, s: Tokens): Parsed<Stmt> {
    match ParseAt(voc, 1, s)
    case Fail => Fail
    case Ok(z, s1) =>
      match ParseLeg(voc, s1)
      case Fail => Fail
      case Ok(leg, s2) => Ok(For(v, a, z, down, leg.0, leg.1), s2)
  }

  /** What is left to read of `Mod(a, b)` after its parenthesis. */
  function ModArgs(voc: Vocabulary, s: Tokens): Parsed<Expr> {
    match ParseAt(voc, 1, s)
    case Fail => Fail
    case Ok(a, s1) =>
      if !Starts(s1, Comma) then Fail
      else
        match ParseAt(voc, 1, s1.tail)
        case Fail => Fail
        case Ok(b, s2) => if Starts(s2, RPar) then Ok(Binary(Mod, a, b), s2.tail) else Fail
  }

  lemma ModRead(voc: Vocabulary, s: Tokens)
    ensures ParseKeywordCall(voc, KMod, s) == if Starts(s, LPar) then ModArgs(voc, s.tail) else Fail
  {
    hide ParseAt;
  }

  lemma ForRead(voc: Vocabulary, s: Tokens)
    ensures Statements.ParseFor(voc, s)
            == if StartsWithId(s) && Starts(s.tail, Op(SEq)) then ForRange(voc, s.head.name, s.tail.tail) else Fail
  {
    hide ParseAt, ParseLeg;
  }

  class Parser {
    const tokens: seq<Token>
    const voc: Vocabulary
    var pos: nat

    constructor (tokens: seq<Token>, voc: Vocabulary)
      ensures this.tokens == tokens && this.voc == voc && pos == 0
    {
      this.tokens, this.voc, pos := tokens, voc, 0;
    }

    predicate Valid()
      reads this
    {
      pos <= |tokens|
    }

    /** What is still to read. */
    function Rest(): Tokens
      reads this
      requires Valid()
    {
      TokensFrom(tokens, pos)
    }

    /** The current token; None at the end of input. */
    function Peek(): (t: Option<Token>)
      reads this
      requires Valid()
      ensures t == if Rest().Nil? then None else Some(Rest().head)
    {
      if pos < |tokens| then Some(tokens[pos]) else None
    }

    predicate NextIsLParen()
      reads this
      requires Valid()
      ensures NextIsLParen() <==> Rest().Cons? && Starts(Rest().tail, LPar)
    {
      assert pos < |tokens| ==> Rest().tail == TokensFrom(tokens, pos + 1);
      pos + 1 < |tokens| && tokens[pos + 1] == LPar
    }

    method Advance() returns (t: Token)
      requires Valid() && Rest().Cons?
      modifies this`pos
      ensures Valid() && t == old(Rest()).head && Rest() == old(Rest()).tail
    {
      t := tokens[pos];
      pos := pos + 1;
    }

    /** Consume `t` when it is next. */
    method Match(t: Token) returns (found: bool)
      requires Valid()
      modifies this`pos
      ensures Valid() && found == Starts(old(Rest()), t)
      ensures Rest() == if found then old(Rest()).tail else old(Rest())
    {
      found := Peek() == Some(t);
      if found {
        var _ := Advance();
      }
    }

    method Expect(t: Token) returns (r: Outcome<()>)
      requires Valid()
      modifies this`pos
      ensures Valid() && Agrees(Statements.Expect(old(Rest()), t), r, Rest())
      ensures if Starts(old(Rest()), t) then r == Value(()) && Rest() == old(Rest()).tail else r == Raised
    {
      var found := Match(t);
      return if found then Value(()) else Raised;
    }

    // ---- Expressions --------------------------------------------------------------------

    method ParseExpression() returns (r: Outcome<Expr>)
      requires Valid()
      modifies this`pos
      ensures Valid() && Agrees(ParseAt(voc, 1, old(Rest())), r, Rest())
      decreases Length(Rest()), 21
    {
      r := ParseOr();
    }

    method ParseOr() returns (r: Outcome<Expr>)
      requires Valid()
      modifies this`pos
      ensures Valid() && Agrees(ParseAt(voc, 1, old(Rest())), r, Rest())
      decreases Length(Rest()), 20
    {
      hide Grammar.ParsePrimary, TokensFrom;
      ghost var s := Rest();
      var left :- ParseAnd();
      while Peek() == Some(Kw(KOr))
        invariant Valid() && Length(Rest()) < Length(s)
        invariant ParseAt(voc, 1, s) == ParseMore(voc, 1, left, Rest())
        decreases Length(Rest())
      {
        var _ := Advance();
        var right :- ParseAnd();
        left := Binary(Or, left, right);
      }
      return Value(left);
    }

    method ParseAnd() returns (r: Outcome<Expr>)
      requires Valid()
      modifies this`pos
      ensures Valid() && Agrees(ParseAt(voc, 2, old(Rest())), r, Rest())
      decreases Length(Rest()), 19
    {
      hide Grammar.ParsePrimary, TokensFrom;
      ghost var s := Rest();
      var left :- ParseNot();
      while Peek() == Some(Kw(KAnd))
        invariant Valid() && Length(Rest()) < Length(s)
        invariant ParseAt(voc, 2, s) == ParseMore(voc, 2, left, Rest())
        decreases Length(Rest())
      {
        var _ := Advance();
        var right :- ParseNot();
        left := Binary(And, left, right);
      }
      return Value(left);
    }

    method ParseNot() returns (r: Outcome<Expr>)
      requires Valid()
      modifies this`pos
      ensures Valid() && Agrees(ParseAt(voc, 3, old(Rest())), r, Rest())
      decreases Length(Rest()), 18
    {
      hide Grammar.ParsePrimary, TokensFrom, ParseMore;
      if Peek() == Some(Kw(KNot)) {
        var _ := Advance();
        var operand :- ParseNot();
        return Value(Not(operand));
      }
      r := ParseComparison();
    }

    method ParseComparison() returns (r: Outcome<Expr>)
      requires Valid()
      modifies this`pos
      ensures Valid() && Agrees(ParseAt(voc, 4, old(Rest())), r, Rest())
      decreases Length(Rest()), 17
    {
      hide TokensFrom, ParseAt, ParseMore;
      ghost var s := Rest();
      LevelRead(voc, 4, s);
      var left :- ParseAddition();
      while true
        invariant Valid() && Length(Rest()) < Length(s)
        invariant ParseAt(voc, 4, s) == ParseMore(voc, 4, left, Rest())
        decreases Length(Rest())
      {
        var t := Peek();
        MoreRead(voc, 4, left, Rest());
        if t.Some? && t.value.Op? && t.value.sym in {SEq, SLt, SGt, SGe, SLe, SNe} {
          var op := Advance();
          var right :- ParseAddition();
          left := Compare(Comparison(op.sym), left, right);
        } else if t == Some(Kw(KCrossesAbove)) || t == Some(Kw(KCrossesBelow)) {
          var name := Advance();
          var right :- ParseAddition();
          left := Crosses(name == Kw(KCrossesAbove), left, right);
        } else {
          break;
        }
      }
      return Value(left);
    }

    method ParseAddition() returns (r: Outcome<Expr>)
      requires Valid()
      modifies this`pos
      ensures Valid() && Agrees(ParseAt(voc, 5, old(Rest())), r, Rest())
      decreases Length(Rest()), 16
    {
      hide Grammar.ParsePrimary, TokensFrom;
      ghost var s := Rest();
      var left :- ParseMultiplication();
      while Peek() == Some(Op(SPlus)) || Peek() == Some(Op(SMinus))
        invariant Valid() && Length(Rest()) < Length(s)
        invariant ParseAt(voc, 5, s) == ParseMore(voc, 5, left, Rest())
        decreases Length(Rest())
      {
        var op := Advance();
        var right :- ParseMultiplication();
        left := Binary(if op == Op(SPlus) then Plus else Minus, left, right);
      }
      return Value(left);
    }

    method ParseMultiplication() returns (r: Outcome<Expr>)
      requires Valid()
      modifies this`pos
      ensures Valid() && Agrees(ParseAt(voc, 6, old(Rest())), r, Rest())
      decreases Length(Rest()), 15
    {
      hide TokensFrom, ParseAt, ParseMore;
      ghost var s := Rest();
      LevelRead(voc, 6, s);
      var left :- ParseUnary();
      while true
        invariant Valid() && Length(Rest()) < Length(s)
        invariant ParseAt(voc, 6, s) == ParseMore(voc, 6, left, Rest())
        decreases Length(Rest())
      {
        var t := Peek();
        MoreRead(voc, 6, left, Rest());
        if t == Some(Op(SStar)) || t == Some(Op(SSlash)) {
          var op := Advance();
          var right :- ParseUnary();
          left := Binary(if op == Op(SStar) then Times else Div, left, right);
        } else if t == Some(Kw(KMod)) {
          var _ := Advance();
          var right :- ParseUnary();
          left := Binary(Mod, left, right);
        } else {
          break;
        }
      }
      return Value(left);
    }

    method ParseUnary() returns (r: Outcome<Expr>)
      requires Valid()
      modifies this`pos
      ensures Valid() && Agrees(ParseAt(voc, 7, old(Rest())), r, Rest())
      decreases Length(Rest()), 14
    {
      hide Grammar.ParsePrimary, TokensFrom, ParseMore;
      if Peek() == Some(Op(SMinus)) {
        var _ := Advance();
        var operand :- ParseUnary();
        return Value(Neg(operand));
      }
      if Peek() == Some(Op(SPlus)) {
        var _ := Advance();
        r := ParseUnary();
        return;
      }
      var node :- ParsePrimary();
      var t := Peek();
      if t.Some? && t.value.Id? && IsPointWord(t.value.name) {
        var _ := Advance();
        node := Binary(Times, node, TICK);
      }
      return Value(node);
    }

    method ParsePrimary() returns (r: Outcome<Expr>)
      requires Valid()
      modifies this`pos
      ensures Valid() && Agrees(Grammar.ParsePrimary(voc, old(Rest())), r, Rest())
      decreases Length(Rest()), 13
    {
      hide TokensFrom, Grammar.ParseIdentPrimary, ParseKeywordCall, Resolve;
      var tok := Peek();
      if tok.None? {
        return Raised;
      }
      match tok.value
      case Num(t) => {
        var _ := Advance();
        return Value(Number(t, None));
      }
      case Str(t) => {
        var _ := Advance();
        return Value(Text(t));
      }
      case Id(name) => {
        r := ParseIdentPrimary(Resolve(voc, name, NextIsLParen()));
      }
      case Kw(w) => {
        r := ParseKeywordPrimary(w);
      }
      case LPar => {
        var _ := Advance();
        var e :- ParseExpression();
        var _ :- Expect(RPar);
        return Value(e);
      }
      case _ => return Raised;
    }

    method ParseKeywordPrimary(w: Word) returns (r: Outcome<Expr>)
      requires Valid() && Starts(Rest(), Kw(w))
      modifies this`pos
      ensures Valid() && Agrees(Grammar.ParsePrimary(voc, old(Rest())), r, Rest())
      decreases Length(Rest()), 12
    {
      hide TokensFrom, Grammar.ParseIdentPrimary, ParseAt, Grammar.ParseCallArgs, CrossesOf;
      match w
      case KTrue =>
        var _ := Advance();
        return Value(Boolean(true));
      case KFalse =>
        var _ := Advance();
        return Value(Boolean(false));
      case KMod =>
        r := ParseModCall();
      case KCrossesAbove =>
        r := ParseCrossesCall(true);
      case KCrossesBelow =>
        r := ParseCrossesCall(false);
      case _ => return Raised;
    }

    /** `Mod(a, b)`. */
    method ParseModCall() returns (r: Outcome<Expr>)
      requires Valid() && Starts(Rest(), Kw(KMod))
      modifies this`pos
      ensures Valid() && Agrees(ParseKeywordCall(voc, KMod, old(Rest()).tail), r, Rest())
      decreases Length(Rest()), 11
    {
      hide TokensFrom, ParseAt, Statements.Expect, ParseKeywordCall;
      ModRead(voc, Rest().tail);
      var _ := Advance();
      var _ :- Expect(LPar);
      var a :- ParseExpression();
      var _ :- Expect(Comma);
      var b :- ParseExpression();
      var _ :- Expect(RPar);
      return Value(Binary(Mod, a, b));
    }

    /** `CrossesAbove(a, b)`; the arity is checked here rather than by a later pass. */
    method ParseCrossesCall(above: bool) returns (r: Outcome<Expr>)
      requires Valid() && Starts(Rest(), Kw(if above then KCrossesAbove else KCrossesBelow))
      modifies this`pos
      ensures var w := if above then KCrossesAbove else KCrossesBelow;
              Valid() && Agrees(ParseKeywordCall(voc, w, old(Rest()).tail), r, Rest())
      decreases Length(Rest()), 11
    {
      hide TokensFrom, ParseAt, Grammar.ParseCallArgs;
      var _ := Advance();
      var _ :- Expect(LPar);
      var es :- ParseCallArgs();
      var e := CrossesOf(above, es);
      return if e.Some? then Value(e.value) else Raised;
    }

    /** Arguments up to and including `)`, appended to a list. */
    method ParseCallArgs() returns (r: Outcome<Args>)
      requires Valid()
      modifies this`pos
      ensures Valid() && Agrees(Grammar.ParseCallArgs(voc, old(Rest())), r, Rest())
      decreases Length(Rest()), 22
    {
      hide TokensFrom, ParseAt, ParseArgs;
      ghost var s := Rest();
      var es := [];
      if Peek() != Some(RPar) {
        ArgRead(voc, [], s);
        var e :- ParseExpression();
        es := [e];
        assert [] + [e] == es;
        var more := Match(Comma);
        while more
          invariant Valid() && Length(Rest()) < Length(s)
          invariant ParseArgs(voc, s) == PrependArgs(es, if more then ParseArgs(voc, Rest()) else AfterArg(voc, Rest()))
          invariant !more ==> !Starts(Rest(), Comma)
          decreases Length(Rest()) + if more then 1 else 0
        {
          ArgRead(voc, es, Rest());
          var e :- ParseExpression();
          es := es + [e];
          more := Match(Comma);
        }
      }
      var _ :- Expect(RPar);
      return Value(ToArgs(es, NoArgs));
    }

    /** `[ index ]` after `node`. */
    method ParseBarRef(node: Expr) returns (r: Outcome<Expr>)
      requires Valid() && Starts(Rest(), LBr)
      modifies this`pos
      ensures Valid() && Agrees(ParseIndex(voc, node, old(Rest())), r, Rest())
      decreases Length(Rest()), 10
    {
      hide TokensFrom, ParseAt;
      var _ := Advance();
      var index :- ParseExpression();
      var _ :- Expect(RBr);
      return Value(BarRef(node, index));
    }

    /** A function call, bar reference or plain identifier, called `name`. */
    method ParseIdentOrCall(name: string) returns (r: Outcome<Expr>)
      requires Valid() && StartsWithId(Rest())
      modifies this`pos
      ensures Valid() && Agrees(ParseNamed(voc, name, old(Rest()).tail), r, Rest())
      decreases Length(Rest()), 11
    {
      hide TokensFrom, ParseIndex;
      var _ := Advance();
      var node := Ident(name);
      if Peek() == Some(LPar) {
        var _ := Advance();
        var es :- ParseCallArgs();
        node := Call(name, es);
      }
      if Peek() == Some(LBr) {
        r := ParseBarRef(node);
      } else {
        NoIndex(voc, node, Rest());
        return Value(node);
      }
    }

    /** A position keyword, plain, called or indexed. */
    method ParsePositionKw(kw: string) returns (r: Outcome<Expr>)
      requires Valid() && StartsWithId(Rest())
      modifies this`pos
      ensures Valid() && Agrees(ParsePosition(voc, kw, old(Rest()).tail), r, Rest())
      decreases Length(Rest()), 11
    {
      hide TokensFrom, ParseIndex, ParseAt;
      var _ := Advance();
      if Peek() == Some(LPar) {
        var _ := Advance();
        var i :- ParseExpression();
        if Peek() == Some(Comma) {
          var _ := Advance();
          var j :- ParseExpression();
          var _ :- Expect(RPar);
          return Value(PosKwCall(kw, i, j));
        }
        var _ :- Expect(RPar);
        return Value(BarRef(PosKw(kw), i));
      }
      if Peek() == Some(LBr) {
        r := ParseBarRef(PosKw(kw));
      } else {
        NoIndex(voc, PosKw(kw), Rest());
        return Value(PosKw(kw));
      }
    }

    /** A symbol property; its data-stream argument is read and dropped. */
    method ParseSymbolInfoKw(kw: string) returns (r: Outcome<Expr>)
      requires Valid() && StartsWithId(Rest())
      modifies this`pos
      ensures Valid() && Agrees(ParseSymbolInfo(voc, kw, old(Rest()).tail), r, Rest())
      decreases Length(Rest()), 11
    {
      hide TokensFrom, ParseAt;
      var _ := Advance();
      if Peek() == Some(LPar) {
        var _ := Advance();
        if Peek() != Some(RPar) {
          var _ :- ParseExpression();
        }
        var _ :- Expect(RPar);
      }
      return Value(PosKw(kw));
    }

    /** `X of DataN` or `X of Data(N)`; None leaves the cursor alone. */
    method TryParseDataOf(val: string) returns (r: Outcome<Option<Expr>>)
      requires Valid() && StartsWithId(Rest())
      modifies this`pos
      ensures Valid()
      ensures match ReadDataSuffix(old(Rest()).tail)
              case NotData => r == Value(None) && Rest() == old(Rest())
              case BadNumber => r.Raised?
              case DataStream(n, s) => r == Value(Some(DataOf(val, n))) && Rest() == s
    {
      hide DataNumber, DigitsValue;
      assert old(Rest()).tail == TokensFrom(tokens, pos + 1);
      if !(pos + 2 < |tokens| && tokens[pos + 1] == Id(OF)) {
        return Value(None);
      }
      assert old(Rest()).tail.tail == TokensFrom(tokens, pos + 2);
      var dataTok := tokens[pos + 2];
      if dataTok.Id? && DataNumber(dataTok.name).Some? {
        pos := pos + 3;
        return Value(Some(DataOf(val, DataNumber(dataTok.name).value)));
      }
      if dataTok == Id(DATA) && pos + 5 < |tokens| && tokens[pos + 3] == LPar && tokens[pos + 4].Num?
         && tokens[pos + 5] == RPar {
        assert TokensFrom(tokens, pos + 3).tail == TokensFrom(tokens, pos + 4);
        assert TokensFrom(tokens, pos + 4).tail == TokensFrom(tokens, pos + 5);
        assert TokensFrom(tokens, pos + 5).tail == TokensFrom(tokens, pos + 6);
        var n := DigitsValue(tokens[pos + 4].text);
        pos := pos + 6;
        return if n.Some? then Value(Some(DataOf(val, n.value))) else Raised;
      }
      NoDataCall(tokens, pos);
      return Value(None);
    }

    /** Identifier-led primaries, tried in precedence order. */
    method ParseIdentPrimary(val: string) returns (r: Outcome<Expr>)
      requires Valid() && StartsWithId(Rest())
      modifies this`pos
      ensures Valid() && Agrees(Grammar.ParseIdentPrimary(voc, val, old(Rest()).tail), r, Rest())
      decreases Length(Rest()), 12
    {
      hide TokensFrom, ParseIndex, ParseNamed, ParsePosition, ParseSymbolInfo, ReadDataSuffix;
      if val == MARKET_POSITION {
        var _ := Advance();
        var node := Ident(INTERNAL_MARKET_POSITION);
        if Peek() == Some(LBr) {
          r := ParseBarRef(node);
        } else {
          NoIndex(voc, node, Rest());
          return Value(node);
        }
      } else if val in voc.positionWords && !(val in voc.userNames && !NextIsLParen()) {
        r := ParsePositionKw(voc.positionWords[val]);
      } else if val in voc.symbolWords {
        if val !in voc.seriesWords {
          return Raised;
        }
        r := ParseSymbolInfoKw(voc.seriesWords[val]);
      } else if val in voc.seriesWords {
        if NextIsLParen() {
          CalledIsNoData(Rest().tail);
          r := ParseIdentOrCall(val);
          return;
        }
        var _ := Advance();
        return Value(PosKw(voc.seriesWords[val]));
      } else if val in voc.constants {
        var _ := Advance();
        return Value(Number(voc.constants[val], Some(val)));
      } else if val in voc.mcWords && val !in voc.userNames {
        var _ := Advance();
        return Value(McKw(voc.mcWords[val]));
      } else {
        if val in voc.dataSources {
          var dataOf :- TryParseDataOf(val);
          if dataOf.Some? {
            return Value(dataOf.value);
          }
        }
        r := ParseIdentOrCall(val);
      }
    }

    // ---- Statements ---------------------------------------------------------------------

    /** Consume the `;` that ends a statement; before Else it may be missing. */
    method EndStmt() returns (r: Outcome<()>)
      requires Valid()
      modifies this`pos
      ensures Valid() && Agrees(Statements.EndStmt((), old(Rest())), r, Rest())
    {
      var found := Match(Semi);
      return if found || Peek() == Some(Kw(KElse)) then Value(()) else Raised;
    }

    method ParseAssignmentOrExpr() returns (r: Outcome<Stmt>)
      requires Valid()
      modifies this`pos
      ensures Valid() && Agrees(ParseSimple(voc, old(Rest())), r, Rest())
    {
      hide TokensFrom, ParseAt, ParseNamed;
      var savePos := pos;
      var t := Peek();
      if t.Some? && t.value.Id? {
        var target :- ParseIdentOrCall(t.value.name);
        var colon := Match(Op(SAssign));
        var equals := false;
        if !colon && (target.Ident? || target.BarRef?) {
          equals := Match(Op(SEq));
        }
        if colon || equals {
          var value :- ParseExpression();
          var _ :- EndStmt();
          return Value(Assign(target, value));
        }
        pos := savePos;
      }
      var e :- ParseExpression();
      var _ :- EndStmt();
      return Value(ExprStmt(e));
    }

    method ParseStatement() returns (r: Outcome<Stmt>)
      requires Valid()
      modifies this`pos
      ensures Valid() && Agrees(ParseStmt(voc, old(Rest())), r, Rest())
      decreases Length(Rest()), 1
    {
      hide TokensFrom, ParseAt, ParseSimple, Statements.ParseIf, Statements.ParseFor, ParseLeg, ParseUntil;
      var t := Peek();
      if t.None? {
        return Raised;
      }
      match t.value
      case Kw(KIf) => r := ParseIf();
      case Kw(KFor) => r := ParseFor();
      case Kw(KWhile) => r := ParseWhile();
      case Kw(KRepeat) => r := ParseRepeatUntil();
      case Kw(KOnce) => r := ParseOnce();
      case LBr => return Raised;
      case Kw(KBreak) => r := ParseWord(Break);
      case Kw(KContinue) => r := ParseWord(Continue);
      case Kw(KAbort) => r := ParseWord(Abort);
      case Id(n) =>
        if n in voc.statementWords {
          return Raised;
        }
        r := ParseAssignmentOrExpr();
      case _ => r := ParseAssignmentOrExpr();
    }

    method ParseWord(st: Stmt) returns (r: Outcome<Stmt>)
      requires Valid() && Rest().Cons?
      modifies this`pos
      ensures Valid() && Agrees(Statements.EndStmt(st, old(Rest()).tail), r, Rest())
    {
      var _ := Advance();
      var _ :- EndStmt();
      return Value(st);
    }

    method ParseIf() returns (r: Outcome<Stmt>)
      requires Valid() && Starts(Rest(), Kw(KIf))
      modifies this`pos
      ensures Valid() && Agrees(Statements.ParseIf(voc, old(Rest()).tail), r, Rest())
      decreases Length(Rest()), 0
    {
      hide TokensFrom, ParseAt, ParseLeg;
      var _ := Advance();
      var cond :- ParseExpression();
      var _ :- Expect(Kw(KThen));
      var leg :- ParseBody();
      var elseLeg := NoElse;
      var more := Match(Kw(KElse));
      if more {
        var other :- ParseBody();
        elseLeg := Else(other.0, other.1);
      }
      return Value(If(cond, leg.0, elseLeg, leg.1));
    }

    /** One body leg, and whether it was written with Begin/End. */
    method ParseBody() returns (r: Outcome<(Stmts, bool)>)
      requires Valid()
      modifies this`pos
      ensures Valid() && Agrees(ParseLeg(voc, old(Rest())), r, Rest())
      decreases Length(Rest()), 3
    {
      hide TokensFrom, ParseStmt, Statements.ParseBlock;
      if Peek() == Some(Kw(KBegin)) {
        var body :- ParseBlock();
        return Value((body, true));
      }
      var st :- ParseStatement();
      return Value((MoreStmts(st, NoStmts), false));
    }

    /** `Begin ... End` and its terminator. */
    method ParseBlock() returns (r: Outcome<Stmts>)
      requires Valid() && Starts(Rest(), Kw(KBegin))
      modifies this`pos
      ensures Valid()
      ensures r.Raised? ==> ParseLeg(voc, old(Rest())).Fail?
      ensures r.Value? ==> ParseLeg(voc, old(Rest())) == Ok((r.value, true), Rest())
      decreases Length(Rest()), 2
    {
      hide TokensFrom, ParseStmt;
      ghost var s := Rest();
      var _ := Advance();
      ghost var s1 := Rest();
      var sts := [];
      while Peek().Some? && Peek() != Some(Kw(KEnd))
        invariant Valid() && Length(Rest()) < Length(s)
        invariant Statements.ParseBlock(voc, s1) == PrependStmts(sts, Statements.ParseBlock(voc, Rest()))
        decreases Length(Rest())
      {
        var stray := Match(Semi);
        if stray {
          continue;
        }
        var st :- ParseStatement();
        StmtAppended(sts, st, Statements.ParseBlock(voc, Rest()));
        sts := sts + [st];
      }
      var _ :- Expect(Kw(KEnd));
      var _ :- EndStmt();
      return Value(ToStmts(sts, NoStmts));
    }

    method ParseFor() returns (r: Outcome<Stmt>)
      requires Valid() && Starts(Rest(), Kw(KFor))
      modifies this`pos
      ensures Valid() && Agrees(Statements.ParseFor(voc, old(Rest()).tail), r, Rest())
      decreases Length(Rest()), 0
    {
      hide TokensFrom, ParseAt, ParseLeg, Statements.Expect, Statements.ParseFor;
      ForRead(voc, Rest().tail);
      var _ := Advance();
      var t := Peek();
      if t.None? || !t.value.Id? {
        return Raised;
      }
      var name := Advance();
      var _ :- Expect(Op(SEq));
      var start :- ParseExpression();
      var down := false;
      var up := Match(Kw(KTo));
      if !up {
        down := Match(Kw(KDownTo));
        if !down {
          return Raised;
        }
      }
      var end :- ParseExpression();
      var leg :- ParseBody();
      return Value(For(name.name, start, end, down, leg.0, leg.1));
    }

    method ParseWhile() returns (r: Outcome<Stmt>)
      requires Valid() && Starts(Rest(), Kw(KWhile))
      modifies this`pos
      ensures Valid() && Agrees(ParseStmt(voc, old(Rest())), r, Rest())
      decreases Length(Rest()), 0
    {
      hide TokensFrom, ParseAt, ParseLeg, ParseSimple, Statements.ParseIf, Statements.ParseFor, ParseUntil;
      var _ := Advance();
      var cond :- ParseExpression();
      var leg :- ParseBody();
      return Value(While(cond, leg.0, leg.1));
    }

    method ParseRepeatUntil() returns (r: Outcome<Stmt>)
      requires Valid() && Starts(Rest(), Kw(KRepeat))
      modifies this`pos
      ensures Valid() && Agrees(ParseStmt(voc, old(Rest())), r, Rest())
      decreases Length(Rest()), 0
    {
      hide TokensFrom, ParseAt, ParseLeg, ParseSimple, Statements.ParseIf, Statements.ParseFor, ParseUntil;
      var _ := Advance();
      var body :- ParseUntilBody();
      var cond :- ParseExpression();
      var _ :- EndStmt();
      return Value(Repeat(body, cond));
    }

    /** The statements of a Repeat, and its Until. */
    method ParseUntilBody() returns (r: Outcome<Stmts>)
      requires Valid()
      modifies this`pos
      ensures Valid() && Agrees(ParseUntil(voc, old(Rest())), r, Rest())
      decreases Length(Rest()), 2
    {
      hide TokensFrom, ParseStmt;
      ghost var s := Rest();
      var sts := [];
      while Peek().Some? && Peek() != Some(Kw(KUntil))
        invariant Valid() && Length(Rest()) <= Length(s)
        invariant ParseUntil(voc, s) == PrependStmts(sts, ParseUntil(voc, Rest()))
        decreases Length(Rest())
      {
        var st :- ParseStatement();
        StmtAppended(sts, st, ParseUntil(voc, Rest()));
        sts := sts + [st];
      }
      var _ :- Expect(Kw(KUntil));
      return Value(ToStmts(sts, NoStmts));
    }

    method ParseOnce() returns (r: Outcome<Stmt>)
      requires Valid() && Starts(Rest(), Kw(KOnce))
      modifies this`pos
      ensures Valid() && Agrees(ParseStmt(voc, old(Rest())), r, Rest())
      decreases Length(Rest()), 0
    {
      hide TokensFrom, ParseAt, ParseLeg, ParseSimple, Statements.ParseIf, Statements.ParseFor, ParseUntil;
      var _ := Advance();
      var leg :- ParseBody();
      return Value(Once(leg.0, leg.1));
    }

    /** A whole program, stray semicolons skipped. */
    method ParseProgram() returns (r: Outcome<Stmts>)
      requires Valid()
      modifies this`pos
      ensures Valid() && Agrees(Statements.ParseProgram(voc, old(Rest())), r, Rest())
    {
      hide TokensFrom, ParseStmt;
      ghost var s := Rest();
      var sts := [];
      while Peek().Some?
        invariant Valid()
        invariant Statements.ParseProgram(voc, s) == PrependStmts(sts, Statements.ParseProgram(voc, Rest()))
        decreases Length(Rest())
      {
        var stray := Match(Semi);
        if stray {
          continue;
        }
        var st :- ParseStatement();
        StmtAppended(sts, st, Statements.ParseProgram(voc, Rest()));
        sts := sts + [st];
      }
      return Value(ToStmts(sts, NoStmts));
    }
  }

  /** A left-associative level opens with one operand of the next. */
  lemma LevelRead(voc: Vocabulary, lvl: nat, s: Tokens)
    requires 1 <= lvl <= 6 && lvl != 3
    ensures ParseAt(voc, lvl, s)
            == match ParseAt(voc, lvl + 1, s) case Fail => Fail case Ok(e, s1) => ParseMore(voc, lvl, e, s1)
  {
  }

  lemma MoreRead(voc: Vocabulary, lvl: nat, left: Expr, s: Tokens)
    requires 1 <= lvl <= 6
    ensures ParseMore(voc, lvl, left, s)
            == if NextLevel(s) != lvl then Ok(left, s)
               else match ParseAt(voc, lvl + 1, s.tail)
                    case Fail => Fail
                    case Ok(e, s1) => ParseMore(voc, lvl, Join(s.head, left, e), s1)
  {
  }

  lemma CalledIsNoData(s: Tokens)
    requires Starts(s, LPar)
    ensures ReadDataSuffix(s) == NotData
  {
  }

  function Comparison(sym: Symbol): CmpOp
    requires sym in {SEq, SLt, SGt, SGe, SLe, SNe}
  {
    match sym
    case SEq => Eq
    case SLt => Lt
    case SGt => Gt
    case SGe => Ge
    case SLe => Le
    case SNe => Ne
  }

  lemma NoIndex(voc: Vocabulary, node: Expr, s: Tokens)
    requires !Starts(s, LBr)
    ensures ParseIndex(voc, node, s) == Ok(node, s)
  {
  }

  /** Neither `of DataN` nor the whole of `of Data(N)`. */
  lemma NoDataCall(ts: seq<Token>, p: nat)
    requires p + 2 < |ts| && ts[p + 1] == Id(OF)
    requires !(ts[p + 2].Id? && DataNumber(ts[p + 2].name).Some?)
    requires !(ts[p + 2] == Id(DATA) && p + 5 < |ts| && ts[p + 3] == LPar && ts[p + 4].Num? && ts[p + 5] == RPar)
    ensures ReadDataSuffix(TokensFrom(ts, p + 1)) == NotData
  {
    hide DataNumber, DigitsValue;
    assert TokensFrom(ts, p + 1).tail == TokensFrom(ts, p + 2);
    assert TokensFrom(ts, p + 2).tail == TokensFrom(ts, p + 3);
    if p + 3 < |ts| {
      assert TokensFrom(ts, p + 3).tail == TokensFrom(ts, p + 4);
      if p + 4 < |ts| {
        assert TokensFrom(ts, p + 4).tail == TokensFrom(ts, p + 5);
      }
    }
  }
}
