/** The lexical analyzer (`LexAnalyzer::read` and its helpers in
    parser/LexAnalyzer.cpp), as a pure function from the remaining input to
    the next token and the input left after it. The one character of
    lookahead the source keeps in `mNext` is the head of the sequence; end of
    input plays the part of `EOF`. */
module Lexer {
  import opened Tokens
  import opened Optional
  import opened Numerals
  import Keywords

  /** Outcome of one `read`: failure, or the token and the unread input. */
  datatype Lexed = Fail | Ok(tok: Token, rest: seq<char>)

  /** `isspace` in the C locale. */
  predicate IsSpace(c: char) {
    c == ' ' || c == '\t' || c == '\n' || c == '\r' || c == 11 as char || c == 12 as char
  }

  /** `isalpha` in the C locale. */
  predicate IsAlpha(c: char) {
    'a' <= c <= 'z' || 'A' <= c <= 'Z'
  }

  /** Characters that may continue an identifier: `isalnum` or underscore. */
  predicate IsIdentChar(c: char) {
    IsAlpha(c) || IsDecDigit(c) || c == '_'
  }

  /** Characters that may start an identifier. */
  predicate IsIdentStart(c: char) {
    IsAlpha(c) || c == '_'
  }

  /** The input after the leading whitespace. */
  function SkipSpace(s: seq<char>): (t: seq<char>)
    ensures |t| <= |s|
    ensures |t| == 0 || !IsSpace(t[0])
    ensures forall i :: 0 <= i < |s| - |t| ==> IsSpace(s[i])
  {
    if |s| > 0 && IsSpace(s[0]) then SkipSpace(s[1..]) else s
  }

  /** Length of the longest prefix of `s` made of identifier characters. */
  function IdentRun(s: seq<char>): (n: nat)
    ensures n <= |s|
    ensures forall i :: 0 <= i < n ==> IsIdentChar(s[i])
    ensures n == |s| || !IsIdentChar(s[n])
  {
    if |s| > 0 && IsIdentChar(s[0]) then 1 + IdentRun(s[1..]) else 0
  }

  /** Length of the longest prefix of `s` made of digits of radix `x`. */
  function DigitRun(x: Radix, s: seq<char>): (n: nat)
    ensures n <= |s|
    ensures AllDigits(x, s[..n])
    ensures n == |s| || !IsDigitOf(x, s[n])
  {
    if |s| > 0 && IsDigitOf(x, s[0]) then
      var n := 1 + DigitRun(x, s[1..]);
      assert s[..n] == [s[0]] + s[1..][..n - 1];
      n
    else 0
  }

  /** The accumulation loop of `readNumber*`: `acc = acc * base + digit`
      while the lookahead is a digit; returns the value and the unread input. */
  function Accumulate(x: Radix, s: seq<char>, acc: nat): (r: (nat, seq<char>))
    ensures |r.1| <= |s|
  {
    if |s| > 0 && IsDigitOf(x, s[0]) then
      DigitBelowBase(x, s[0]);
      Accumulate(x, s[1..], acc * Base(x) + DigitValue(s[0]))
    else (acc, s)
  }

  /** `readIdent`: the first character is taken unconditionally, then the
      identifier characters that follow; the token is the keyword lookup of
      the text. */
  function ReadIdent(s: seq<char>): (r: Lexed)
    requires |s| > 0
    ensures r.Ok? && |r.rest| < |s|
  {
    var n := 1 + IdentRun(s[1..]);
    var text := s[..n];
    Ok(Token(Keywords.Lookup(text), text, 0), s[n..])
  }

  /** `readNumberOct`, `readNumberDec` and `readNumberHex`: at least one digit
      of the radix is required, then the maximal run is accumulated. */
  function ReadNumber(x: Radix, s: seq<char>): (r: Lexed)
    ensures r.Ok? ==> |r.rest| < |s|
  {
    if |s| == 0 || !IsDigitOf(x, s[0]) then Fail
    else
      var (v, rest) := Accumulate(x, s, 0);
      Ok(Token(Number, "", v), rest)
  }

  /** `readString`, entered after the opening quote: every character up to
      the closing quote is collected into `acc`; the closing quote is
      consumed; end of input before it is a failure. */
  function ReadString(s: seq<char>, acc: string): (r: Lexed)
    ensures r.Ok? ==> |r.rest| < |s|
  {
    if |s| == 0 then Fail
    else if s[0] == '\'' then Ok(Token(Str, acc, 0), s[1..])
    else ReadString(s[1..], acc + [s[0]])
  }

  /** A single-character token, or the two-character token when the next
      character is `second` (maximal munch). */
  function Munch(s: seq<char>, second: char, long: Kind, short: Kind): (r: Lexed)
    requires |s| > 0
    ensures r.Ok? && |r.rest| < |s|
  {
    if |s| > 1 && s[1] == second then Ok(Sym(long), s[2..]) else Ok(Sym(short), s[1..])
  }

  /** The tokens spelled with one character and never the start of a
      longer one. */
  function Single(c: char): (k: Option<Kind>)
    ensures k.Some? ==> k.value != Eoi
  {
    match c
    case '+' => Some(Plus)
    case '-' => Some(Minus)
    case '*' => Some(Mult)
    case '/' => Some(Div)
    case '=' => Some(Eq)
    case '(' => Some(LPar)
    case ')' => Some(RPar)
    case '[' => Some(LBra)
    case ']' => Some(RBra)
    case ',' => Some(Comma)
    case ';' => Some(SCol)
    case _ => None
  }

  /** The dispatch of `read` on its first non-blank character. */
  function ReadToken(t: seq<char>): (r: Lexed)
    ensures r.Ok? ==> |r.rest| <= |t|
    ensures r.Ok? && r.tok.kind != Eoi ==> |r.rest| < |t|
  {
    if |t| == 0 then Ok(Sym(Eoi), t)
    else if IsIdentStart(t[0]) then ReadIdent(t)
    else if IsDecDigit(t[0]) then ReadNumber(Decimal, t)
    else if t[0] == '&' then ReadNumber(Octal, t[1..])
    else if t[0] == '$' then ReadNumber(Hexadecimal, t[1..])
    else if t[0] == '\'' then ReadString(t[1..], [])
    else if t[0] == '<' then
      if |t| > 1 && t[1] == '>' then Ok(Sym(Neq), t[2..]) else Munch(t, '=', Leq, Lt)
    else if t[0] == '>' then Munch(t, '=', Geq, Gt)
    else if t[0] == '.' then Munch(t, '.', DDot, Dot)
    else if t[0] == ':' then Munch(t, '=', Assgn, Col)
    else match Single(t[0])
      case Some(k) => Ok(Sym(k), t[1..])
      case None => Fail
  }

  /** `LexAnalyzer::read`: skip whitespace, then dispatch. */
  function Read(s: seq<char>): (r: Lexed)
    ensures r.Ok? ==> |r.rest| <= |s|
    ensures r.Ok? && r.tok.kind != Eoi ==> |r.rest| < |s|
  {
    ReadToken(SkipSpace(s))
  }

  /** The whole token stream the parser pulls, up to and including the first
      `Eoi`; a lexical error anywhere fails the whole input. */
  function Tokenize(s: seq<char>): (r: Option<seq<Token>>)
    ensures r.Some? ==> |r.value| > 0
    decreases |s|
  {
    var l := Read(s);
    if l.Fail? then None
    else if l.tok.kind == Eoi then Some([l.tok])
    else
      var more := Tokenize(l.rest);
      if more.None? then None
      else Some([l.tok] + more.value)
  }

  /** The stream ends with the end-of-input token and holds no other. */
  lemma {:induction false} TokenizeEndsWithEoi(s: seq<char>)
    requires Tokenize(s).Some?
    ensures Tokenize(s).value[|Tokenize(s).value| - 1].kind == Eoi
    ensures forall i :: 0 <= i < |Tokenize(s).value| - 1 ==> Tokenize(s).value[i].kind != Eoi
    decreases |s|
  {
    var l := Read(s);
    if l.tok.kind != Eoi {
      TokenizeEndsWithEoi(l.rest);
      var more := Tokenize(l.rest).value;
      assert Tokenize(s).value == [l.tok] + more;
    }
  }
}
