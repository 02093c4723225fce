/** What the lexer's words, numbers, literals and operators are to the parser. */
module TokenText {
  import opened Syntax
  import opened Emitter
  import opened Statements
  import L = Lexer

  /** Operators and punctuation; the lexer yields no other text that begins so. */
  function SymbolToken(text: string): Token {
    if |text| == 1 then
      match text[0]
      case '+' => Op(SPlus)
      case '-' => Op(SMinus)
      case '*' => Op(SStar)
      case '/' => Op(SSlash)
      case '=' => Op(SEq)
      case '<' => Op(SLt)
      case '>' => Op(SGt)
      case ':' => Op(SColon)
      case '[' => LBr
      case ']' => RBr
      case '(' => LPar
      case ')' => RPar
      case ';' => Semi
      case ',' => Comma
      case _ => Id(text)
    else if |text| == 2 then
      match text[0]
      case '>' => Op(SGe)
      case ':' => Op(SAssign)
      case '.' => Op(SRange)
      case _ => if text[1] == '=' then Op(SLe) else Op(SNe)
    else Id(text)
  }

  /** A token of the parser; `words` are the keywords. */
  function Meant(words: map<string, Word>, t: L.Token): Token {
    match t
    case Str(text) => Token.Str(text)
    case CrossesAbove => Kw(KCrossesAbove)
    case CrossesBelow => Kw(KCrossesBelow)
    case Lexeme(text) =>
      if text == [] then Id(text)
      else if L.IsDigit(text[0]) then Num(text)
      else if L.WordStart(text[0]) then if text in words then Kw(words[text]) else Id(text)
      else SymbolToken(text)
  }

  /** What was lexed, before `k`. */
  function Onto(words: map<string, Word>, ts: seq<L.Token>, k: Tokens): Tokens {
    if ts == [] then k else Cons(Meant(words, ts[0]), Onto(words, ts[1..], k))
  }

  lemma {:induction false} OntoAppends(words: map<string, Word>, a: seq<L.Token>, b: seq<L.Token>, k: Tokens)
    ensures Onto(words, a + b, k) == Onto(words, a, Onto(words, b, k))
  {
    if a == [] {
      assert a + b == b;
    } else {
      assert (a + b)[1..] == a[1..] + b;
      OntoAppends(words, a[1..], b, k);
    }
  }

  lemma OntoOne(words: map<string, Word>, t: L.Token, k: Tokens)
    ensures Onto(words, [t], k) == Cons(Meant(words, t), k)
  {
    assert [t][1..] == [];
  }

  /** How a keyword is printed; the two-word ones are not single words. */
  function Spelling(k: Word): string {
    match k
    case KIf => "If"
    case KThen => "Then"
    case KElse => "Else"
    case KBegin => "Begin"
    case KEnd => "End"
    case KFor => "For"
    case KTo => "to"
    case KDownTo => "downto"
    case KWhile => "While"
    case KRepeat => "Repeat"
    case KUntil => "Until"
    case KOnce => "Once"
    case KBreak => "Break"
    case KContinue => "Continue"
    case KAbort => "Abort"
    case KAnd => "and"
    case KOr => "or"
    case KNot => "not"
    case KMod => "mod"
    case KTrue => "true"
    case KFalse => "false"
    case _ => []
  }

  /** What is printed for a keyword is that keyword, whatever the case of its letters; `crosses` and
      its second words are none by themselves. */
  ghost predicate KeywordTable(words: map<string, Word>) {
    && L.CROSSES !in words && (forall w :: w in words ==> L.CrossWord(w).None?)
    && forall k :: Spelling(k) != [] ==> L.Lower(Spelling(k)) in words && words[L.Lower(Spelling(k))] == k
  }

  /** The name `crosses` nowhere stands before above, over, below or under: the two would be one
      keyword. */
  predicate Unmerged(s: Tokens) {
    s.Cons? ==>
      && !(s.head == Id(L.CROSSES) && s.tail.Cons? && s.tail.head.Id? && L.CrossWord(s.tail.head.name).Some?)
      && Unmerged(s.tail)
  }

  lemma {:induction false} UnmergedAfter(words: map<string, Word>, ts: seq<L.Token>, k: Tokens)
    requires Unmerged(Onto(words, ts, k))
    ensures Unmerged(k)
  {
    if ts != [] {
      UnmergedAfter(words, ts[1..], k);
    }
  }

  /** Where the last word is `crosses`, no second word follows. */
  lemma {:induction false} UnmergedSeam(words: map<string, Word>, ts: seq<L.Token>, k: Tokens)
    requires KeywordTable(words) && ts != [] && ts[|ts| - 1] == L.Lexeme(L.CROSSES) && Unmerged(Onto(words, ts, k))
    ensures !(k.Cons? && k.head.Id? && L.CrossWord(k.head.name).Some?)
  {
    if |ts| == 1 {
      OntoOne(words, ts[0], k);
      assert Meant(words, ts[0]) == Id(L.CROSSES);
    } else {
      UnmergedSeam(words, ts[1..], k);
    }
  }

  // ---- The pieces of a statement ---------------------------------------------------------------

  /** The head of an If, For, While or Once, before what its leg prints. */
  function HeadTokens(voc: Vocabulary, st: Stmt, k: Tokens): Tokens {
    match st
    case If(c, _, _, _) => Cons(Kw(KIf), Emit(voc, c, Cons(Kw(KThen), k)))
    case For(v, a, z, down, _, _) =>
      Cons(Kw(KFor), Cons(Id(v), Cons(Op(SEq), Emit(voc, a, Cons(Kw(if down then KDownTo else KTo), Emit(voc, z, k))))))
    case While(c, _, _) => Cons(Kw(KWhile), Emit(voc, c, k))
    case Once(_, _) => Cons(Kw(KOnce), k)
    case _ => k
  }

  /** The text lexes to the tokens of the head. */
  ghost predicate ReadsHead(voc: Vocabulary, words: map<string, Word>, text: string, st: Stmt) {
    var r := L.Lex(text);
    r.Good? && forall k :: Onto(words, r.tokens, k) == HeadTokens(voc, st, k)
  }

  ghost predicate ReadsExpr(voc: Vocabulary, words: map<string, Word>, text: string, e: Expr) {
    var r := L.Lex(text);
    r.Good? && forall k :: Onto(words, r.tokens, k) == Emit(voc, e, k)
  }

  /** The text lexes to a statement without legs, up to its semicolon. */
  ghost predicate ReadsSimple(voc: Vocabulary, words: map<string, Word>, text: string, st: Stmt) {
    var r := L.Lex(text);
    r.Good? && forall k :: Onto(words, r.tokens, Cons(Semi, k)) == EmitStmt(voc, st, k)
  }
}
