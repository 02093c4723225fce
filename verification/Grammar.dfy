/** The expression grammar as a precedence table: the independent definition the
    recursive-descent parser is proved to implement. */
module Grammar {
  import opened Sequences
  import opened Syntax

  datatype Parsed<+T> = Fail | Ok(value: T, rest: Tokens)

  /** Precedence levels: 1 or, 2 and, 3 not, 4 comparison, 5 sum, 6 product, 7 sign. */
  function InfixLevel(t: Token): nat {
    match t
    case Kw(KOr) => 1
    case Kw(KAnd) => 2
    case Op(SEq) => 4
    case Op(SLt) => 4
    case Op(SGt) => 4
    case Op(SGe) => 4
    case Op(SLe) => 4
    case Op(SNe) => 4
    case Kw(KCrossesAbove) => 4
    case Kw(KCrossesBelow) => 4
    case Op(SPlus) => 5
    case Op(SMinus) => 5
    case Op(SStar) => 6
    case Op(SSlash) => 6
    case Kw(KMod) => 6
    case _ => 0
  }

  function NextLevel(s: Tokens): nat {
    if s.Nil? then 0 else InfixLevel(s.head)
  }

  /** The node an infix token builds. */
  function Join(t: Token, l: Expr, r: Expr): (e: Expr)
    requires InfixLevel(t) > 0
    ensures Infix(e) && e.left == l && e.right == r
  {
    match t
    case Kw(KOr) => Binary(Or, l, r)
    case Kw(KAnd) => Binary(And, l, r)
    case Op(SEq) => Compare(Eq, l, r)
    case Op(SLt) => Compare(Lt, l, r)
    case Op(SGt) => Compare(Gt, l, r)
    case Op(SGe) => Compare(Ge, l, r)
    case Op(SLe) => Compare(Le, l, r)
    case Op(SNe) => Compare(Ne, l, r)
    case Kw(KCrossesAbove) => Crosses(true, l, r)
    case Kw(KCrossesBelow) => Crosses(false, l, r)
    case Op(SPlus) => Binary(Plus, l, r)
    case Op(SMinus) => Binary(Minus, l, r)
    case Op(SStar) => Binary(Times, l, r)
    case Op(SSlash) => Binary(Div, l, r)
    case Kw(KMod) => Binary(Mod, l, r)
  }

  predicate Starts(s: Tokens, t: Token) {
    s.Cons? && s.head == t
  }

  predicate StartsWithId(s: Tokens) {
    s.Cons? && s.head.Id?
  }

  /** An expression at least as tight as level `lvl`. */
  function ParseAt(voc: Vocabulary, lvl: nat, s: Tokens): (r: Parsed<Expr>)
    requires 1 <= lvl <= 7
    ensures r.Ok? ==> Length(r.rest) < Length(s)
    decreases Length(s), 9 - lvl
  {
    if lvl == 3 && Starts(s, Kw(KNot)) then
      match ParseAt(voc, 3, s.tail)
      case Fail => Fail
      case Ok(e, s1) => Ok(Not(e), s1)
    else if lvl == 3 then ParseAt(voc, 4, s)
    else if lvl == 7 && Starts(s, Op(SMinus)) then
      match ParseAt(voc, 7, s.tail)
      case Fail => Fail
      case Ok(e, s1) => Ok(Neg(e), s1)
    else if lvl == 7 && Starts(s, Op(SPlus)) then ParseAt(voc, 7, s.tail)
    else if lvl == 7 then
      match ParsePrimary(voc, s)
      case Fail => Fail
      case Ok(e, s1) =>
        if StartsWithId(s1) && IsPointWord(s1.head.name) then Ok(Binary(Times, e, TICK), s1.tail) else Ok(e, s1)
    else
      match ParseAt(voc, lvl + 1, s)
      case Fail => Fail
      case Ok(e, s1) => ParseMore(voc, lvl, e, s1)
  }

  /** `left` extended by every operator of level `lvl` that follows: left-associative. */
  function ParseMore(voc: Vocabulary, lvl: nat, left: Expr, s: Tokens): (r: Parsed<Expr>)
    requires 1 <= lvl <= 6
    ensures r.Ok? ==> Length(r.rest) <= Length(s)
    decreases Length(s), 0
  {
    if NextLevel(s) == lvl then
      match ParseAt(voc, lvl + 1, s.tail)
      case Fail => Fail
      case Ok(e, s1) => ParseMore(voc, lvl, Join(s.head, left, e), s1)
    else Ok(left, s)
  }

  /** The rest of a parenthesised or bracketed form: an expression and a closing token. */
  function ParseClosed(voc: Vocabulary, s: Tokens, close: Token): (r: Parsed<Expr>)
    ensures r.Ok? ==> Length(r.rest) < Length(s)
    decreases Length(s), 10
  {
    match ParseAt(voc, 1, s)
    case Fail => Fail
    case Ok(e, s1) => if Starts(s1, close) then Ok(e, s1.tail) else Fail
  }

  /** `expr , expr ... )`. */
  function ParseArgs(voc: Vocabulary, s: Tokens): (r: Parsed<Args>)
    ensures r.Ok? ==> Length(r.rest) < Length(s)
    decreases Length(s), 10
  {
    match ParseAt(voc, 1, s)
    case Fail => Fail
    case Ok(e, s1) =>
      if Starts(s1, RPar) then Ok(MoreArgs(e, NoArgs), s1.tail)
      else if Starts(s1, Comma) then
        match ParseArgs(voc, s1.tail)
        case Fail => Fail
        case Ok(es, s2) => Ok(MoreArgs(e, es), s2)
      else Fail
  }

  /** What follows `name (`. */
  function ParseCallArgs(voc: Vocabulary, s: Tokens): (r: Parsed<Args>)
    ensures r.Ok? ==> Length(r.rest) < Length(s)
    decreases Length(s), 11
  {
    if Starts(s, RPar) then Ok(NoArgs, s.tail) else ParseArgs(voc, s)
  }

  /** An optional `[ index ]` after `node`. */
  function ParseIndex(voc: Vocabulary, node: Expr, s: Tokens): (r: Parsed<Expr>)
    ensures r.Ok? ==> Length(r.rest) <= Length(s)
    decreases Length(s), 1
  {
    if Starts(s, LBr) then
      match ParseClosed(voc, s.tail, RBr)
      case Fail => Fail
      case Ok(i, s1) => Ok(BarRef(node, i), s1)
    else Ok(node, s)
  }

  /** A function call, bar reference or plain identifier spelled `name`; `s` follows it. */
  function ParseNamed(voc: Vocabulary, name: string, s: Tokens): (r: Parsed<Expr>)
    ensures r.Ok? ==> Length(r.rest) <= Length(s)
    decreases Length(s), 2
  {
    if Starts(s, LPar) then
      match ParseCallArgs(voc, s.tail)
      case Fail => Fail
      case Ok(es, s1) => ParseIndex(voc, Call(name, es), s1)
    else ParseIndex(voc, Ident(name), s)
  }

  /** A position keyword, plain, indexed, or called with one or two arguments. */
  function ParsePosition(voc: Vocabulary, kw: string, s: Tokens): (r: Parsed<Expr>)
    ensures r.Ok? ==> Length(r.rest) <= Length(s)
    decreases Length(s), 2
  {
    if Starts(s, LPar) then
      match ParseAt(voc, 1, s.tail)
      case Fail => Fail
      case Ok(i, s1) =>
        if Starts(s1, Comma) then
          match ParseClosed(voc, s1.tail, RPar)
          case Fail => Fail
          case Ok(j, s2) => Ok(PosKwCall(kw, i, j), s2)
        else if Starts(s1, RPar) then Ok(BarRef(PosKw(kw), i), s1.tail)
        else Fail
    else ParseIndex(voc, PosKw(kw), s)
  }

  /** A symbol property; its optional data-stream argument is read and dropped. */
  function ParseSymbolInfo(voc: Vocabulary, kw: string, s: Tokens): (r: Parsed<Expr>)
    ensures r.Ok? ==> Length(r.rest) <= Length(s)
    decreases Length(s), 2
  {
    if Starts(s, LPar) then
      if Starts(s.tail, RPar) then Ok(PosKw(kw), s.tail.tail)
      else
        match ParseClosed(voc, s.tail, RPar)
        case Fail => Fail
        case Ok(_, s1) => Ok(PosKw(kw), s1)
    else Ok(PosKw(kw), s)
  }

  /** What `of DataN` or `of Data(N)` leaves to read; None when `s` is neither. */
  datatype DataSuffix = NotData | BadNumber | DataStream(num: nat, rest: Tokens)

  function ReadDataSuffix(s: Tokens): (r: DataSuffix)
    ensures r.DataStream? ==> Length(r.rest) < Length(s)
  {
    if Starts(s, Id(OF)) && StartsWithId(s.tail) then
      var after := s.tail.tail;
      if DataNumber(s.tail.head.name).Some? then DataStream(DataNumber(s.tail.head.name).value, after)
      else if s.tail.head.name == DATA && Starts(after, LPar) && after.tail.Cons? && after.tail.head.Num?
              && Starts(after.tail.tail, RPar) then
        var n := DigitsValue(after.tail.head.text);
        assert Length(s.tail) == 1 + Length(after) && Length(after) == 1 + Length(after.tail);
        assert Length(after.tail) == 1 + Length(after.tail.tail)
          && Length(after.tail.tail) == 1 + Length(after.tail.tail.tail);
        if n.Some? then DataStream(n.value, after.tail.tail.tail) else BadNumber
      else NotData
    else NotData
  }

  /** An identifier-led primary; `val` is its resolved spelling and `s` follows it. */
  function ParseIdentPrimary(voc: Vocabulary, val: string, s: Tokens): (r: Parsed<Expr>)
    ensures r.Ok? ==> Length(r.rest) <= Length(s)
    decreases Length(s), 3
  {
    match Classify(voc, val, Starts(s, LPar))
    case MarketPosition => ParseIndex(voc, Ident(INTERNAL_MARKET_POSITION), s)
    case Position => ParsePosition(voc, voc.positionWords[val], s)
    case SymbolInfo => if val in voc.seriesWords then ParseSymbolInfo(voc, voc.seriesWords[val], s) else Fail
    case Series => Ok(PosKw(voc.seriesWords[val]), s)
    case Constant => Ok(Number(voc.constants[val], Some(val)), s)
    case McWord => Ok(McKw(voc.mcWords[val]), s)
    case Plain =>
      if val in voc.dataSources then
        match ReadDataSuffix(s)
        case DataStream(n, s1) => Ok(DataOf(val, n), s1)
        case BadNumber => Fail
        case NotData => ParseNamed(voc, val, s)
      else ParseNamed(voc, val, s)
  }

  function CrossesOf(above: bool, es: Args): Option<Expr> {
    if es.MoreArgs? && es.rest.MoreArgs? && es.rest.rest.NoArgs? then Some(Crosses(above, es.arg, es.rest.arg))
    else None
  }

  /** The keyword call forms `CrossesAbove(a, b)` and `Mod(a, b)`. */
  function ParseKeywordCall(voc: Vocabulary, w: Word, s: Tokens): (r: Parsed<Expr>)
    ensures r.Ok? ==> Length(r.rest) <= Length(s)
    decreases Length(s), 3
  {
    if !Starts(s, LPar) then Fail
    else if w == KMod then
      match ParseAt(voc, 1, s.tail)
      case Fail => Fail
      case Ok(a, s1) =>
        if !Starts(s1, Comma) then Fail
        else
          match ParseClosed(voc, s1.tail, RPar)
          case Fail => Fail
          case Ok(b, s2) => Ok(Binary(Mod, a, b), s2)
    else
      match ParseCallArgs(voc, s.tail)
      case Fail => Fail
      case Ok(es, s1) =>
        var e := CrossesOf(w == KCrossesAbove, es);
        if e.Some? then Ok(e.value, s1) else Fail
  }

  function ParsePrimary(voc: Vocabulary, s: Tokens): (r: Parsed<Expr>)
    ensures r.Ok? ==> Length(r.rest) < Length(s)
    decreases Length(s), 1
  {
    if s.Nil? then Fail
    else
      match s.head
      case Num(t) => Ok(Number(t, None), s.tail)
      case Str(t) => Ok(Text(t), s.tail)
      case Id(name) => ParseIdentPrimary(voc, Resolve(voc, name, Starts(s.tail, LPar)), s.tail)
      case Kw(KTrue) => Ok(Boolean(true), s.tail)
      case Kw(KFalse) => Ok(Boolean(false), s.tail)
      case Kw(KCrossesAbove) => ParseKeywordCall(voc, KCrossesAbove, s.tail)
      case Kw(KCrossesBelow) => ParseKeywordCall(voc, KCrossesBelow, s.tail)
      case Kw(KMod) => ParseKeywordCall(voc, KMod, s.tail)
      case LPar => ParseClosed(voc, s.tail, RPar)
      case _ => Fail
  }
}
