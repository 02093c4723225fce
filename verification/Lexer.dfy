/** The lexer, character by character: words, numbers and operators by longest match, string
    literals that end on their line, `//` runs and nesting brace comments. Keyword or
    identifier is read off a word's text and is not told apart here. */
module Lexer {
  import opened Sequences

  predicate Blank(c: char) {
    c == ' ' || c == '\t' || c == '\r' || c == '\n'
  }

  predicate IsDigit(c: char) {
    '0' <= c <= '9'
  }

  predicate WordStart(c: char) {
    'A' <= c <= 'Z' || 'a' <= c <= 'z' || c == '_' || c == '#'
  }

  predicate WordPart(c: char) {
    'A' <= c <= 'Z' || 'a' <= c <= 'z' || IsDigit(c) || c == '_' || c == '.'
  }

  datatype Class = Digits | Words | Blanks

  predicate In(k: Class, c: char) {
    match k
    case Digits => IsDigit(c)
    case Words => WordPart(c)
    case Blanks => Blank(c)
  }

  /** How many leading characters are in class `k`. */
  function Run(s: string, k: Class): (n: nat)
    ensures n <= |s|
  {
    if s == [] || !In(k, s[0]) then 0 else 1 + Run(s[1..], k)
  }

  /** `\d+(\.\d+)?`. */
  function NumberLength(s: string): (n: nat)
    requires s != [] && IsDigit(s[0])
    ensures 1 <= n <= |s|
  {
    var d := Run(s, Digits);
    if d + 1 < |s| && s[d] == '.' && IsDigit(s[d + 1]) then d + 1 + Run(s[d + 1..], Digits) else d
  }

  const PAIRS: set<string> := {">=", "<=", "<>", ":=", ".."}
  const SINGLES: set<char> := {'+', '-', '*', '/', '=', '<', '>', '[', ']', '(', ')', ';', ',', ':'}

  /** Length of the word, number or operator at the front; 0 for an unknown character. */
  function Munch(s: string): (n: nat)
    requires s != []
    ensures n <= |s|
  {
    if IsDigit(s[0]) then NumberLength(s)
    else if WordStart(s[0]) then 1 + Run(s[1..], Words)
    else if |s| >= 2 && s[..2] in PAIRS then 2
    else if s[0] in SINGLES then 1
    else 0
  }

  function LowerChar(c: char): char {
    if 'A' <= c <= 'Z' then (c as int + 32) as char else c
  }

  function Lower(s: string): string {
    if s == [] then [] else [LowerChar(s[0])] + Lower(s[1..])
  }

  datatype Token = Lexeme(text: string) | Str(text: string) | CrossesAbove | CrossesBelow

  const CROSSES := "crosses"

  /** Above/over or below/under. */
  function CrossWord(w: string): Option<Token> {
    if w == "above" || w == "over" then Some(CrossesAbove)
    else if w == "below" || w == "under" then Some(CrossesBelow)
    else None
  }

  /** The second word of a two-word `crosses above`, after `s` blanks: its token, and how much of
      `s` it takes. */
  function SecondWord(s: string): (r: Option<(Token, nat)>)
    ensures r.Some? ==> r.value.1 <= |s|
  {
    var k := Run(s, Blanks);
    if k < |s| && WordStart(s[k]) then
      var n := 1 + Run(s[k + 1..], Words);
      var t := CrossWord(Lower(s[k..k + n]));
      if t.Some? then Some((t.value, k + n)) else None
    else None
  }

  /** Offset just past the brace that closes a comment nested `depth` deep. */
  function CommentEnd(s: string, depth: nat): (r: Option<nat>)
    ensures r.Some? ==> r.value <= |s|
    decreases |s|
  {
    if depth == 0 then Some(0)
    else if s == [] then None
    else
      var r := CommentEnd(s[1..], if s[0] == '{' then depth + 1 else if s[0] == '}' then depth - 1 else depth);
      if r.Some? then Some(1 + r.value) else None
  }

  /** Offset of the first `c`. */
  function Find(s: string, c: char): (r: Option<nat>)
    ensures r.Some? ==> r.value < |s| && s[r.value] == c && c !in s[..r.value]
    ensures r.None? ==> c !in s
  {
    if s == [] then None
    else if s[0] == c then Some(0)
    else
      var r := Find(s[1..], c);
      assert r.Some? ==> s[..1 + r.value] == [s[0]] + s[1..][..r.value];
      if r.Some? then Some(1 + r.value) else None
  }

  /** Offset of the quote that closes a literal on its own line. */
  function StringEnd(s: string): (r: Option<nat>)
    ensures r.Some? ==> r.value < |s|
  {
    if s == [] || s[0] == '\n' then None
    else if s[0] == '"' then Some(0)
    else
      var r := StringEnd(s[1..]);
      if r.Some? then Some(1 + r.value) else None
  }

  predicate LineComment(s: string) {
    |s| >= 2 && s[0] == '/' && s[1] == '/'
  }

  /** One turn of the lexer's loop: an error, blank text skipped, a comment set aside, or a
      token; `n` characters are used up. */
  datatype Step = Error | Skip(n: nat) | Note(n: nat) | Yield(n: nat, token: Token)

  function CodeStep(s: string): (r: Step)
    requires s != []
    ensures r.Yield? ==> 1 <= r.n <= |s|
    ensures r.Yield? || r.Error?
  {
    var n := Munch(s);
    if n == 0 then Error
    else if Lower(s[..n]) == CROSSES && SecondWord(s[n..]).Some? then
      Yield(n + SecondWord(s[n..]).value.1, SecondWord(s[n..]).value.0)
    else Yield(n, Lexeme(Lower(s[..n])))
  }

  function NextStep(s: string): (r: Step)
    requires s != []
    ensures !r.Error? ==> 1 <= r.n <= |s|
  {
    if Blank(s[0]) then Skip(1)
    else if s[0] == '{' then
      var j := CommentEnd(s[1..], 1);
      if j.None? then Error else Note(1 + j.value)
    else if LineComment(s) then
      var k := Find(s, '\n');
      Note(if k.Some? then k.value else |s|)
    else if s[0] == '"' then
      var j := StringEnd(s[1..]);
      if j.None? then Error else Yield(2 + j.value, Str(s[1..1 + j.value]))
    else CodeStep(s)
  }

  /** The tokens and the comment texts, or a syntax error. */
  datatype Lexed = Bad | Good(tokens: seq<Token>, notes: seq<string>)

  function Lex(s: string): Lexed
    decreases |s|
  {
    if s == [] then Good([], [])
    else
      match NextStep(s)
      case Error => Bad
      case Skip(n) => Lex(s[n..])
      case Note(n) =>
        (match Lex(s[n..])
         case Bad => Bad
         case Good(ts, ns) => Good(ts, [s[..n]] + ns))
      case Yield(n, t) =>
        match Lex(s[n..])
        case Bad => Bad
        case Good(ts, ns) => Good([t] + ts, ns)
  }

  /** `Lex` one step at a time. */
  lemma {:induction false} LexTurn(s: string)
    requires s != []
    ensures Lex(s) == match NextStep(s)
                      case Error => Bad
                      case Skip(n) => Lex(s[n..])
                      case Note(n) => Before([], [s[..n]], Lex(s[n..]))
                      case Yield(n, t) => Before([t], [], Lex(s[n..]))
  {
  }

  lemma BeforeAppends(tokens: seq<Token>, notes: seq<string>, ts: seq<Token>, ns: seq<string>, r: Lexed)
    ensures Before(tokens, notes, Before(ts, ns, r)) == Before(tokens + ts, notes + ns, r)
  {
    if r.Good? {
      assert tokens + (ts + r.tokens) == (tokens + ts) + r.tokens;
      assert notes + (ns + r.notes) == (notes + ns) + r.notes;
    }
  }

  lemma NothingBefore(r: Lexed)
    ensures Before([], [], r) == r
  {
    if r.Good? {
      assert [] + r.tokens == r.tokens && [] + r.notes == r.notes;
    }
  }

  lemma DropTwice(s: string, i: nat, n: nat)
    requires i + n <= |s|
    ensures s[i..][n..] == s[i + n..] && s[i..][..n] == s[i..i + n]
  {
  }

  function Tokens(step: Step): seq<Token> {
    if step.Yield? then [step.token] else []
  }

  function Notes(step: Step, text: string): seq<string> {
    if step.Note? then [text] else []
  }

  /** One turn moves what `s` holds at `i` to the two lists. */
  lemma TurnBefore(tokens: seq<Token>, notes: seq<string>, s: string, i: nat)
    requires i < |s|
    ensures var step := NextStep(s[i..]);
            Before(tokens, notes, Lex(s[i..]))
            == if step.Error? then Bad
               else Before(tokens + Tokens(step), notes + Notes(step, s[i..i + step.n]), Lex(s[i + step.n..]))
  {
    hide NextStep, Lex, Before;
    LexTurn(s[i..]);
    var step := NextStep(s[i..]);
    if step.Error? {
      BadBefore(tokens, notes);
    } else {
      DropTwice(s, i, step.n);
      var rest := Lex(s[i + step.n..]);
      NothingBefore(rest);
      BeforeAppends(tokens, notes, Tokens(step), Notes(step, s[i..i + step.n]), rest);
    }
  }

  /** The lexer's loop over an index, appending to its two lists. */
  method Tokenise(s: string) returns (r: Lexed)
    ensures r == Lex(s)
  {
    var tokens: seq<Token>, notes: seq<string> := [], [];
    var i := 0;
    assert s[0..] == s;
    NothingBefore(Lex(s));
    assert Lex(s[|s|..]) == Good([], []);
    hide NextStep, Lex, Before, Tokens, Notes;
    while i < |s|
      invariant 0 <= i <= |s|
      invariant Lex(s) == Before(tokens, notes, Lex(s[i..]))
      decreases |s| - i
    {
      TurnBefore(tokens, notes, s, i);
      var step := NextStep(s[i..]);
      if step.Error? {
        return Bad;
      }
      var j := i + step.n;
      assert i < j <= |s|;
      tokens, notes := tokens + Tokens(step), notes + Notes(step, s[i..j]);
      i := j;
    }
    BeforeEnd(tokens, notes);
    return Good(tokens, notes);
  }

  lemma BadBefore(tokens: seq<Token>, notes: seq<string>)
    ensures Before(tokens, notes, Bad) == Bad
  {
  }

  lemma BeforeEnd(tokens: seq<Token>, notes: seq<string>)
    ensures Before(tokens, notes, Good([], [])) == Good(tokens, notes)
  {
  }

  /** What was read already, before what is still to read. */
  function Before(tokens: seq<Token>, notes: seq<string>, r: Lexed): Lexed {
    if r.Bad? then Bad else Good(tokens + r.tokens, notes + r.notes)
  }
}
