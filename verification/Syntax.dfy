/** Tokens, syntax trees and reserved words of the EasyLanguage front end. */
module Syntax {
  import opened Sequences

  datatype List<T> = Nil | Cons(head: T, tail: List<T>)

  function Length<T>(l: List<T>): nat {
    match l
    case Nil => 0
    case Cons(_, t) => 1 + Length(t)
  }

  datatype Word = KIf | KThen | KElse | KBegin | KEnd | KFor | KTo | KDownTo | KWhile | KRepeat | KUntil
                | KOnce | KBreak | KContinue | KAbort | KAnd | KOr | KNot | KMod | KTrue | KFalse
                | KCrossesAbove | KCrossesBelow | KOther(word: string)

  datatype Symbol = SPlus | SMinus | SStar | SSlash | SEq | SLt | SGt | SGe | SLe | SNe | SAssign | SColon | SRange

  datatype Token = Num(text: string) | Str(text: string) | Id(name: string) | Kw(word: Word) | Op(sym: Symbol)
                 | LBr | RBr | LPar | RPar | Semi | Comma

  /** A token stream; the end of input is the empty list. */
  type Tokens = List<Token>

  datatype BinOp = Or | And | Plus | Minus | Times | Div | Mod
  datatype CmpOp = Eq | Lt | Gt | Ge | Le | Ne

  datatype Expr =
    | Number(text: string, symbol: Option<string>)
    | Text(value: string)
    | Boolean(truth: bool)
    | Ident(name: string)
    | Binary(op: BinOp, left: Expr, right: Expr)
    | Compare(cmp: CmpOp, left: Expr, right: Expr)
    | Not(operand: Expr)
    | Neg(operand: Expr)
    | Crosses(above: bool, left: Expr, right: Expr)
    | Call(name: string, args: Args)
    | BarRef(series: Expr, index: Expr)
    | PosKw(kwarg: string)
    | PosKwCall(kwarg: string, first: Expr, second: Expr)
    | McKw(kwarg: string)
    | DataOf(source: string, num: nat)

  datatype Args = NoArgs | MoreArgs(arg: Expr, rest: Args)

  predicate Infix(e: Expr) {
    e.Binary? || e.Compare? || e.Crosses?
  }

  const MARKET_POSITION := "marketposition"
  const INTERNAL_MARKET_POSITION := "_market_position"
  const OF := "of"
  const DATA := "data"

  predicate IsPointWord(name: string) {
    name == "point" || name == "points"
  }

  /** `N Point(s)` multiplies by the minimum price move. */
  const TICK := Binary(Div, PosKw("minmove"), PosKw("pricescale"))

  // ---- DataN ---------------------------------------------------------------------

  function DigitValue(c: char): Option<nat> {
    if '0' <= c <= '9' then Some((c as int) - ('0' as int)) else None
  }

  /** The value of a decimal numeral, or None when a character is not a digit. */
  function DigitsValue(s: string): Option<nat> {
    if s == [] then Some(0)
    else
      var init, d := DigitsValue(s[..|s| - 1]), DigitValue(s[|s| - 1]);
      if init.Some? && d.Some? then Some(init.value * 10 + d.value) else None
  }

  function Digit(d: nat): char
    requires d < 10
  {
    ('0' as int + d) as char
  }

  function Digits(n: nat): (s: string)
    ensures s != []
  {
    if n < 10 then [Digit(n)] else Digits(n / 10) + [Digit(n % 10)]
  }

  /** Numerals print and read back. */
  lemma {:induction false} DigitsReadBack(n: nat)
    ensures DigitsValue(Digits(n)) == Some(n)
  {
    var s := Digits(n);
    assert DigitValue(Digit(n % 10)) == Some(n % 10);
    if n < 10 {
      assert s[..|s| - 1] == [];
    } else {
      DigitsReadBack(n / 10);
      assert s[..|s| - 1] == Digits(n / 10);
    }
  }

  function DataName(n: nat): string {
    DATA + Digits(n)
  }

  /** The stream number of an identifier `DataN`. */
  function DataNumber(name: string): Option<nat> {
    if |name| > 4 && name[..4] == DATA then DigitsValue(name[4..]) else None
  }

  lemma DataNameReadsBack(n: nat)
    ensures DataNumber(DataName(n)) == Some(n)
  {
    DigitsReadBack(n);
    assert DataName(n)[..4] == DATA && DataName(n)[4..] == Digits(n);
  }

  // ---- Reserved words ----------------------------------------------------------------

  /** The keyword tables and the names the program declares. */
  datatype Vocabulary = Vocabulary(
    positionWords: map<string, string>,
    seriesWords: map<string, string>,
    symbolWords: set<string>,
    constants: map<string, string>,
    mcWords: map<string, string>,
    dataSources: set<string>,
    abbreviations: map<string, string>,
    statementWords: set<string>,
    spelling: map<string, string>,
    mcSpelling: map<string, string>,
    declared: set<string>,
    userNames: set<string>)

  /** What an identifier in expression position stands for. */
  datatype Class = MarketPosition | Position | SymbolInfo | Series | Constant | McWord | Plain

  /** Price abbreviations (`C` for `Close`) unless declared or called like a function. */
  function Resolve(voc: Vocabulary, name: string, called: bool): string {
    if name in voc.abbreviations && name !in voc.declared && !called then voc.abbreviations[name] else name
  }

  function Classify(voc: Vocabulary, val: string, called: bool): Class {
    if val == MARKET_POSITION then MarketPosition
    else if val in voc.positionWords && !(val in voc.userNames && !called) then Position
    else if val in voc.symbolWords then SymbolInfo
    else if val in voc.seriesWords then if called then Plain else Series
    else if val in voc.constants then Constant
    else if val in voc.mcWords && val !in voc.userNames then McWord
    else Plain
  }

  /** `w` is a word that reads as position/series keyword `kw`. */
  predicate SpellsKeyword(voc: Vocabulary, w: string, kw: string) {
    && w !in voc.abbreviations && w != MARKET_POSITION
    && (if w in voc.positionWords then voc.positionWords[w] == kw
        else w in voc.seriesWords && voc.seriesWords[w] == kw)
  }

  /** The tables are inverse to each other and no declared name shadows a keyword. */
  ghost predicate Coherent(voc: Vocabulary) {
    && NamesApart(voc) && KeywordsSpelled(voc) && McWordsSpelled(voc) && PointsApart(voc)
    && "minmove" in voc.spelling && "pricescale" in voc.spelling
  }

  /** No table leads to a point word. */
  ghost predicate PointsApart(voc: Vocabulary) {
    && (forall a :: a in voc.abbreviations ==> !IsPointWord(voc.abbreviations[a]))
    && (forall kw :: kw in voc.spelling ==> !IsPointWord(voc.spelling[kw]))
    && (forall kw :: kw in voc.mcSpelling ==> !IsPointWord(voc.mcSpelling[kw]))
  }

  ghost predicate NamesApart(voc: Vocabulary) {
    && (forall a :: a in voc.abbreviations ==>
          voc.abbreviations[a] !in voc.abbreviations && Classify(voc, a, true) == Plain && a !in voc.dataSources)
    && (forall w :: w in voc.userNames ==> w !in voc.positionWords && w !in voc.mcWords)
  }

  ghost predicate KeywordsSpelled(voc: Vocabulary) {
    && (forall kw :: kw in voc.spelling ==> SpellsKeyword(voc, voc.spelling[kw], kw))
    && (forall w :: w in voc.positionWords ==>
          voc.positionWords[w] in voc.spelling && voc.spelling[voc.positionWords[w]] in voc.positionWords)
    && (forall w :: w in voc.seriesWords ==> voc.seriesWords[w] in voc.spelling)
    && voc.symbolWords <= voc.seriesWords.Keys
  }

  ghost predicate McWordsSpelled(voc: Vocabulary) {
    && (forall kw :: kw in voc.mcSpelling ==>
          var w := voc.mcSpelling[kw];
          Classify(voc, w, false) == McWord && voc.mcWords[w] == kw && w !in voc.abbreviations)
    && (forall w :: w in voc.mcWords ==> voc.mcWords[w] in voc.mcSpelling)
  }

  predicate AllDiffer(words: seq<string>) {
    forall i, j :: 0 <= i < j < |words| ==> words[i] != words[j]
  }

  /** A vocabulary with a keyword of every kind, an abbreviation and a declared name. */
  function Sample(position: string, minMove: string, priceScale: string, series: string, mc: string, short: string,
                  long: string, name: string): Vocabulary {
    Vocabulary(map[position := position, minMove := minMove, priceScale := priceScale], map[series := series], {},
               map[],
               map[mc := mc], {}, map[short := long], {},
               map[position := position, minMove := minMove, priceScale := priceScale, series := series], map[mc := mc],
               {name}, {name})
  }

  lemma SampleApart(position: string, minMove: string, priceScale: string, series: string, mc: string, short: string,
                   long: string, name: string)
    requires AllDiffer([position, minMove, priceScale, series, mc, short, long, name, MARKET_POSITION])
    ensures NamesApart(Sample(position, minMove, priceScale, series, mc, short, long, name))
  {
    var words := [position, minMove, priceScale, series, mc, short, long, name, MARKET_POSITION];
    assert words[0] == position && words[1] == minMove && words[2] == priceScale && words[3] == series
      && words[4] == mc;
    assert words[5] == short && words[6] == long && words[7] == name && words[8] == MARKET_POSITION;
  }

  lemma SampleSpelled(position: string, minMove: string, priceScale: string, series: string, mc: string, short: string,
                   long: string, name: string)
    requires AllDiffer([position, minMove, priceScale, series, mc, short, long, name, MARKET_POSITION])
    ensures KeywordsSpelled(Sample(position, minMove, priceScale, series, mc, short, long, name))
  {
    var words := [position, minMove, priceScale, series, mc, short, long, name, MARKET_POSITION];
    assert words[0] == position && words[1] == minMove && words[2] == priceScale && words[3] == series
      && words[4] == mc;
    assert words[5] == short && words[6] == long && words[7] == name && words[8] == MARKET_POSITION;
  }

  lemma SampleMcSpelled(position: string, minMove: string, priceScale: string, series: string, mc: string,
                        short: string, long: string, name: string)
    requires AllDiffer([position, minMove, priceScale, series, mc, short, long, name, MARKET_POSITION])
    ensures McWordsSpelled(Sample(position, minMove, priceScale, series, mc, short, long, name))
  {
    var words := [position, minMove, priceScale, series, mc, short, long, name, MARKET_POSITION];
    assert words[0] == position && words[1] == minMove && words[2] == priceScale && words[3] == series
      && words[4] == mc;
    assert words[5] == short && words[6] == long && words[7] == name && words[8] == MARKET_POSITION;
  }

  lemma SamplePointsApart()
    ensures PointsApart(Sample("p", "minmove", "pricescale", "s", "mc", "c", "k", "x"))
  {
    assert |"point"| == 5 && |"points"| == 6;
    assert |"p"| == |"s"| == |"k"| == 1 && |"mc"| == 2 && |"minmove"| == 7 && |"pricescale"| == 10;
  }

  /** Coherent vocabularies exist. */
  lemma SampleIsCoherent()
    ensures Coherent(Sample("p", "minmove", "pricescale", "s", "mc", "c", "k", "x"))
  {
    var words := ["p", "minmove", "pricescale", "s", "mc", "c", "k", "x", MARKET_POSITION];
    assert |"minmove"| == 7 && |"pricescale"| == 10 && |MARKET_POSITION| == 14 && |"mc"| == 2;
    assert AllDiffer(words);
    SampleApart("p", "minmove", "pricescale", "s", "mc", "c", "k", "x");
    SampleSpelled("p", "minmove", "pricescale", "s", "mc", "c", "k", "x");
    SampleMcSpelled("p", "minmove", "pricescale", "s", "mc", "c", "k", "x");
    SamplePointsApart();
    hide AllDiffer, NamesApart, KeywordsSpelled, McWordsSpelled, PointsApart;
  }
}
