/** Properties of the lexer: numeric literals read back their value in every
    radix, identifiers and keywords are maximal runs looked up in the keyword
    table, whitespace is insignificant between tokens, and laying tokens out
    with blanks and lexing the text gives back the tokens. */
module LexerProps {
  import opened Tokens
  import opened Optional
  import opened Numerals
  import opened Lexer
  import Keywords

  /** The accumulator loop computes the reference value of the maximal digit
      run, starting from the value of the digits already read. */
  lemma {:induction false} AccumulateIsValue(x: Radix, pre: seq<char>, s: seq<char>)
    requires AllDigits(x, pre)
    ensures AllDigits(x, pre + s[..DigitRun(x, s)])
    ensures Accumulate(x, s, Value(x, pre))
         == (Value(x, pre + s[..DigitRun(x, s)]), s[DigitRun(x, s)..])
    decreases |s|
  {
    var n := DigitRun(x, s);
    if n == 0 {
      assert pre + s[..0] == pre;
    } else {
      var pre' := pre + [s[0]];
      ValueSnoc(x, pre, s[0]);
      AccumulateIsValue(x, pre', s[1..]);
      RunShift(x, pre, s, n);
    }
  }

  /** Appending one digit multiplies the value by the base and adds it. */
  lemma ValueSnoc(x: Radix, pre: seq<char>, c: char)
    requires AllDigits(x, pre) && IsDigitOf(x, c)
    ensures AllDigits(x, pre + [c])
    ensures Value(x, pre + [c]) == Value(x, pre) * Base(x) + DigitValue(c)
  {
    assert (pre + [c])[..|pre|] == pre;
  }

  /** Moving the first digit of a run onto the digits already read. */
  lemma RunShift(x: Radix, pre: seq<char>, s: seq<char>, n: nat)
    requires 0 < n == DigitRun(x, s)
    ensures DigitRun(x, s[1..]) == n - 1
    ensures (pre + [s[0]]) + s[1..][..n - 1] == pre + s[..n]
    ensures s[1..][n - 1..] == s[n..]
  {
    assert s[..n] == [s[0]] + s[1..][..n - 1];
  }

  /** A numeric literal is the maximal run of digits of its radix, read as
      its positional value; without a leading digit it is an error. */
  lemma ReadNumberIsValue(x: Radix, s: seq<char>)
    ensures AllDigits(x, s[..DigitRun(x, s)])
    ensures ReadNumber(x, s)
         == if DigitRun(x, s) == 0 then Fail
            else Ok(Token(Number, "", Value(x, s[..DigitRun(x, s)])), s[DigitRun(x, s)..])
  {
    AccumulateIsValue(x, [], s);
    assert [] + s[..DigitRun(x, s)] == s[..DigitRun(x, s)];
  }

  /** A run of digits followed by a non-digit: the run is exactly the digits. */
  lemma {:induction false} DigitRunOfDigits(x: Radix, ds: seq<char>, rest: seq<char>)
    requires AllDigits(x, ds)
    requires |rest| == 0 || !IsDigitOf(x, rest[0])
    ensures DigitRun(x, ds + rest) == |ds|
    decreases |ds|
  {
    if |ds| > 0 {
      DigitRunOfDigits(x, ds[1..], rest);
      assert (ds + rest)[1..] == ds[1..] + rest;
    } else {
      assert ds + rest == rest;
    }
  }

  /** Reading the numeral of `n` in radix `x` gives back `n` and stops at the
      first non-digit. */
  lemma ReadNumeral(x: Radix, n: nat, rest: seq<char>)
    requires |rest| == 0 || !IsDigitOf(x, rest[0])
    ensures ReadNumber(x, Numeral(x, n) + rest) == Ok(Token(Number, "", n), rest)
  {
    var ds := Numeral(x, n);
    DigitRunOfDigits(x, ds, rest);
    ReadNumberIsValue(x, ds + rest);
    assert (ds + rest)[..|ds|] == ds;
    assert (ds + rest)[|ds|..] == rest;
    ValueOfNumeral(x, n);
  }

  /** Decimal literals: `Numeral(Decimal, n)` reads back as `n`. */
  lemma DecimalRoundTrip(n: nat, rest: seq<char>)
    requires |rest| == 0 || !IsDecDigit(rest[0])
    ensures Read(Numeral(Decimal, n) + rest) == Ok(Token(Number, "", n), rest)
  {
    var s := Numeral(Decimal, n) + rest;
    assert s[0] == Numeral(Decimal, n)[0];
    assert SkipSpace(s) == s;
    ReadNumeral(Decimal, n, rest);
  }

  /** Octal literals: `&` followed by `Numeral(Octal, n)` reads back as `n`. */
  lemma OctalRoundTrip(n: nat, rest: seq<char>)
    requires |rest| == 0 || !IsOctDigit(rest[0])
    ensures Read(['&'] + Numeral(Octal, n) + rest) == Ok(Token(Number, "", n), rest)
  {
    var s := ['&'] + Numeral(Octal, n) + rest;
    assert SkipSpace(s) == s;
    assert s[1..] == Numeral(Octal, n) + rest;
    ReadNumeral(Octal, n, rest);
  }

  /** Hexadecimal literals: `$` followed by `Numeral(Hexadecimal, n)` reads
      back as `n`. */
  lemma HexRoundTrip(n: nat, rest: seq<char>)
    requires |rest| == 0 || !IsHexDigit(rest[0])
    ensures Read(['$'] + Numeral(Hexadecimal, n) + rest) == Ok(Token(Number, "", n), rest)
  {
    var s := ['$'] + Numeral(Hexadecimal, n) + rest;
    assert SkipSpace(s) == s;
    assert s[1..] == Numeral(Hexadecimal, n) + rest;
    ReadNumeral(Hexadecimal, n, rest);
  }

  /** Hexadecimal digits are read case-insensitively. */
  lemma HexIgnoresCase(ds: seq<char>, rest: seq<char>)
    requires AllDigits(Hexadecimal, ds)
    requires |rest| == 0 || !IsHexDigit(rest[0])
    ensures AllDigits(Hexadecimal, LowerAll(ds))
    ensures ReadNumber(Hexadecimal, LowerAll(ds) + rest) == ReadNumber(Hexadecimal, ds + rest)
  {
    ValueIgnoresCase(ds);
    var ls := LowerAll(ds);
    DigitRunOfDigits(Hexadecimal, ds, rest);
    DigitRunOfDigits(Hexadecimal, ls, rest);
    ReadNumberIsValue(Hexadecimal, ds + rest);
    ReadNumberIsValue(Hexadecimal, ls + rest);
    assert (ds + rest)[..|ds|] == ds && (ds + rest)[|ds|..] == rest;
    assert (ls + rest)[..|ls|] == ls && (ls + rest)[|ls|..] == rest;
  }

  /** `&` must be followed by an octal digit: `&8` and a bare `&` are errors. */
  lemma OctalNeedsDigit(s: seq<char>)
    requires |s| == 0 || !IsOctDigit(s[0])
    ensures Read(['&'] + s) == Fail
  {
    assert SkipSpace(['&'] + s) == ['&'] + s;
    assert (['&'] + s)[1..] == s;
  }

  /** `$` must be followed by a hexadecimal digit. */
  lemma HexNeedsDigit(s: seq<char>)
    requires |s| == 0 || !IsHexDigit(s[0])
    ensures Read(['$'] + s) == Fail
  {
    assert SkipSpace(['$'] + s) == ['$'] + s;
    assert (['$'] + s)[1..] == s;
  }

  /** A word: an identifier start followed by identifier characters. */
  predicate IsWord(w: string) {
    |w| > 0 && IsIdentStart(w[0]) && forall i :: 0 <= i < |w| ==> IsIdentChar(w[i])
  }

  lemma {:induction false} IdentRunOfWord(w: string, rest: seq<char>)
    requires forall i :: 0 <= i < |w| ==> IsIdentChar(w[i])
    requires |rest| == 0 || !IsIdentChar(rest[0])
    ensures IdentRun(w + rest) == |w|
    decreases |w|
  {
    if |w| > 0 {
      IdentRunOfWord(w[1..], rest);
      assert (w + rest)[1..] == w[1..] + rest;
    } else {
      assert w + rest == rest;
    }
  }

  /** A word followed by a non-identifier character is one token: its text
      is the word and its kind is the word's entry in the keyword table,
      `Ident` when it has none. */
  lemma ReadWord(w: string, rest: seq<char>)
    requires IsWord(w)
    requires |rest| == 0 || !IsIdentChar(rest[0])
    ensures Read(w + rest) == Ok(Token(Keywords.LinearLookup(w, 0), w, 0), rest)
  {
    var s := w + rest;
    assert s[0] == w[0];
    assert SkipSpace(s) == s;
    IdentRunOfWord(w[1..], rest);
    assert s[1..] == w[1..] + rest;
    assert s[..|w|] == w && s[|w|..] == rest;
    Keywords.LookupIsLinearLookup(w);
  }

  /** Leading whitespace never changes the token read. */
  lemma {:induction false} SpaceIsSkipped(ws: seq<char>, s: seq<char>)
    requires forall i :: 0 <= i < |ws| ==> IsSpace(ws[i])
    ensures Read(ws + s) == Read(s)
    decreases |ws|
  {
    if |ws| > 0 {
      SpaceIsSkipped(ws[1..], s);
      assert (ws + s)[1..] == ws[1..] + s;
      assert SkipSpace(ws + s) == SkipSpace(ws[1..] + s);
    } else {
      assert ws + s == s;
    }
  }

  /** A string literal is everything between two quotes, without escapes. */
  lemma {:induction false} ReadStringBody(body: string, acc: string, rest: seq<char>)
    requires '\'' !in body
    ensures ReadString(body + ['\''] + rest, acc) == Ok(Token(Str, acc + body, 0), rest)
    decreases |body|
  {
    if |body| == 0 {
      assert body + ['\''] + rest == ['\''] + rest;
      assert acc + body == acc;
    } else {
      assert body[0] != '\'' by { assert body[0] in body; }
      ReadStringBody(body[1..], acc + [body[0]], rest);
      assert (body + ['\''] + rest)[1..] == body[1..] + ['\''] + rest;
      assert acc + [body[0]] + body[1..] == acc + body;
    }
  }

  lemma StringLiteral(body: string, rest: seq<char>)
    requires '\'' !in body
    ensures Read(['\''] + body + ['\''] + rest) == Ok(Token(Str, body, 0), rest)
  {
    var s := ['\''] + body + ['\''] + rest;
    assert SkipSpace(s) == s;
    assert s[1..] == body + ['\''] + rest;
    ReadStringBody(body, [], rest);
    assert [] + body == body;
  }

  /** A string literal without its closing quote is an error. */
  lemma {:induction false} UnterminatedStringBody(body: string, acc: string)
    requires '\'' !in body
    ensures ReadString(body, acc) == Fail
    decreases |body|
  {
    if |body| > 0 {
      assert body[0] in body;
      UnterminatedStringBody(body[1..], acc + [body[0]]);
    }
  }

  lemma UnterminatedString(body: string)
    requires '\'' !in body
    ensures Read(['\''] + body) == Fail
  {
    var s := ['\''] + body;
    assert SkipSpace(s) == s;
    assert s[1..] == body;
    UnterminatedStringBody(body, []);
  }

  /** The characters that can start a token after whitespace. */
  predicate StartsToken(c: char) {
    IsIdentStart(c) || IsDecDigit(c) || c in "&$'+-*/=<>()[],;.:"
  }

  /** Any other character is a lexical error. */
  lemma UnknownCharacter(c: char, s: seq<char>)
    requires !IsSpace(c) && !StartsToken(c)
    ensures Read([c] + s) == Fail
  {
    assert SkipSpace([c] + s) == [c] + s;
  }

  /** Only whitespace left: the end-of-input token, which is also what every
      later read returns. */
  lemma EndOfInput(ws: seq<char>)
    requires forall i :: 0 <= i < |ws| ==> IsSpace(ws[i])
    ensures Read(ws) == Ok(Sym(Eoi), [])
  {
    SpaceIsSkipped(ws, []);
    assert ws + [] == ws;
  }

  /** The spelling of a symbol token; empty for kinds that are not symbols. */
  function SymbolText(k: Kind): (s: string)
    ensures |s| <= 2
  {
    match k
    case Arith(PlusOp) => "+"
    case Arith(MinusOp) => "-"
    case Arith(MultOp) => "*"
    case Arith(DivOp) => "/"
    case Rel(EqOp) => "="
    case Rel(NeqOp) => "<>"
    case Rel(LtOp) => "<"
    case Rel(LeqOp) => "<="
    case Rel(GtOp) => ">"
    case Rel(GeqOp) => ">="
    case Bracket(LParSym) => "("
    case Bracket(RParSym) => ")"
    case Bracket(LBraSym) => "["
    case Bracket(RBraSym) => "]"
    case Punct(CommaSym) => ","
    case Punct(SColSym) => ";"
    case Punct(DotSym) => "."
    case Punct(DDotSym) => ".."
    case Punct(ColSym) => ":"
    case Punct(AssgnSym) => ":="
    case _ => ""
  }

  /** The tokens the lexer can produce, with the payload it gives them:
      numbers carry their value, strings their quote-free text, words their
      text and the keyword table's kind, symbols nothing. */
  predicate Lexable(t: Token) {
    t.kind != Eoi &&
    if t.kind == Number then t.text == "" && t.value >= 0
    else if t.kind == Str then t.value == 0 && '\'' !in t.text
    else if |t.text| > 0 then IsWord(t.text) && t.kind == Keywords.LinearLookup(t.text, 0) && t.value == 0
    else SymbolText(t.kind) != "" && t == Sym(t.kind)
  }

  /** How a token is written in source text. */
  function Spell(t: Token): (s: string)
    requires Lexable(t)
    ensures |s| > 0
  {
    if t.kind == Number then Numeral(Decimal, t.value as nat)
    else if t.kind == Str then ['\''] + t.text + ['\'']
    else if |t.text| > 0 then t.text
    else SymbolText(t.kind)
  }

  /** Tokens written out, each followed by a blank. */
  function Layout(toks: seq<Token>): (s: string)
    requires forall i :: 0 <= i < |toks| ==> Lexable(toks[i])
    ensures |toks| > 0 ==> |s| > |toks| - 1
  {
    if |toks| == 0 then "" else Spell(toks[0]) + " " + Layout(toks[1..])
  }

  /** A two-character operator is taken whatever follows it (maximal
      munch). */
  lemma ReadLongSymbol(k: Kind, rest: seq<char>)
    requires |SymbolText(k)| == 2
    ensures Read(SymbolText(k) + rest) == Ok(Sym(k), rest)
  {
    var s := SymbolText(k) + rest;
    assert SkipSpace(s) == s;
    assert s[2..] == rest;
  }

  /** A one-character symbol that never starts a longer one is taken
      whatever follows it. */
  lemma ReadSingleSymbol(k: Kind, rest: seq<char>)
    requires |SymbolText(k)| == 1 && k !in {Lt, Gt, Dot, Col}
    ensures Read(SymbolText(k) + rest) == Ok(Sym(k), rest)
  {
    var s := SymbolText(k) + rest;
    assert SkipSpace(s) == s;
    assert s[1..] == rest;
  }

  /** The characters that turn the one-character symbol `k` into a
      two-character one. */
  function Extenders(k: Kind): (cs: set<char>)
    ensures forall c :: c in cs ==> |SymbolText(k)| == 1 && |SymbolText(k) + [c]| == 2
  {
    if k == Lt then {'>', '='}
    else if k == Gt || k == Col then {'='}
    else if k == Dot then {'.'}
    else {}
  }

  /** `Extenders` is exactly what the spelling table says: `c` extends `k`
      if and only if the two characters spell another symbol. */
  lemma ExtendersSpellSymbols(k: Kind, c: char)
    requires |SymbolText(k)| == 1
    ensures c in Extenders(k) <==> exists k2 :: SymbolText(k2) == SymbolText(k) + [c]
  {
    var w := SymbolText(k) + [c];
    if c in Extenders(k) {
      if k == Lt && c == '>' {
        assert SymbolText(Neq) == w;
      } else if k == Lt {
        assert SymbolText(Leq) == w;
      } else if k == Gt {
        assert SymbolText(Geq) == w;
      } else if k == Col {
        assert SymbolText(Assgn) == w;
      } else {
        assert SymbolText(DDot) == w;
      }
    } else {
      assert |w| == 2 && w[0] == SymbolText(k)[0] && w[1] == c;
      forall k2 ensures SymbolText(k2) != w {
      }
    }
  }

  /** `<` stands alone when neither `>` nor `=` follows it. */
  lemma ReadLessSymbol(rest: seq<char>)
    requires |rest| == 0 || rest[0] !in Extenders(Lt)
    ensures Read(SymbolText(Lt) + rest) == Ok(Sym(Lt), rest)
  {
    var s := "<" + rest;
    assert SkipSpace(s) == s;
    assert s[1..] == rest;
    if |rest| > 0 {
      assert s[1] == rest[0];
    }
  }

  /** `>` stands alone when `=` does not follow it. */
  lemma ReadGreaterSymbol(rest: seq<char>)
    requires |rest| == 0 || rest[0] !in Extenders(Gt)
    ensures Read(SymbolText(Gt) + rest) == Ok(Sym(Gt), rest)
  {
    var s := ">" + rest;
    assert SkipSpace(s) == s;
    assert s[1..] == rest;
    if |rest| > 0 {
      assert s[1] == rest[0];
    }
  }

  /** `.` stands alone when another `.` does not follow it. */
  lemma ReadDotSymbol(rest: seq<char>)
    requires |rest| == 0 || rest[0] !in Extenders(Dot)
    ensures Read(SymbolText(Dot) + rest) == Ok(Sym(Dot), rest)
  {
    var s := "." + rest;
    assert SkipSpace(s) == s;
    assert s[1..] == rest;
    if |rest| > 0 {
      assert s[1] == rest[0];
    }
  }

  /** `:` stands alone when `=` does not follow it. */
  lemma ReadColonSymbol(rest: seq<char>)
    requires |rest| == 0 || rest[0] !in Extenders(Col)
    ensures Read(SymbolText(Col) + rest) == Ok(Sym(Col), rest)
  {
    var s := ":" + rest;
    assert SkipSpace(s) == s;
    assert s[1..] == rest;
    if |rest| > 0 {
      assert s[1] == rest[0];
    }
  }

  /** A one-character symbol stands alone unless the next character
      extends it into a two-character one (maximal munch). */
  lemma ReadShortSymbol(k: Kind, rest: seq<char>)
    requires |SymbolText(k)| == 1
    requires |rest| == 0 || rest[0] !in Extenders(k)
    ensures Read(SymbolText(k) + rest) == Ok(Sym(k), rest)
  {
    if k == Lt {
      ReadLessSymbol(rest);
    } else if k == Gt {
      ReadGreaterSymbol(rest);
    } else if k == Dot {
      ReadDotSymbol(rest);
    } else if k == Col {
      ReadColonSymbol(rest);
    } else {
      ReadSingleSymbol(k, rest);
    }
  }

  lemma ReadSymbol(k: Kind, rest: seq<char>)
    requires SymbolText(k) != ""
    requires |rest| > 0 && rest[0] == ' '
    ensures Read(SymbolText(k) + rest) == Ok(Sym(k), rest)
  {
    if |SymbolText(k)| == 2 {
      ReadLongSymbol(k, rest);
    } else {
      ReadShortSymbol(k, rest);
    }
  }

  /** Every lexable token, written out and followed by a blank, reads back
      as itself. */
  lemma ReadSpelling(t: Token, rest: seq<char>)
    requires Lexable(t)
    requires |rest| > 0 && rest[0] == ' '
    ensures Read(Spell(t) + rest) == Ok(t, rest)
  {
    if t.kind == Number {
      DecimalRoundTrip(t.value as nat, rest);
    } else if t.kind == Str {
      StringLiteral(t.text, rest);
    } else if |t.text| > 0 {
      ReadWord(t.text, rest);
    } else {
      ReadSymbol(t.kind, rest);
    }
  }

  /** One token of a layout: the token, then the tokens of what follows. */
  lemma TokenizeStep(t: Token, rest: seq<char>)
    requires Lexable(t)
    ensures Tokenize(Spell(t) + " " + rest)
         == if Tokenize(rest).None? then None else Some([t] + Tokenize(rest).value)
  {
    ReadSpelling(t, " " + rest);
    assert Spell(t) + " " + rest == Spell(t) + (" " + rest);
    SpaceIsSkipped(" ", rest);
  }

  lemma ConsSnoc<T>(xs: seq<T>, y: T)
    requires |xs| > 0
    ensures [xs[0]] + (xs[1..] + [y]) == xs + [y]
  {
  }

  /** Lexing the layout of any lexable tokens gives back exactly those
      tokens, followed by the end-of-input token. */
  lemma {:induction false} TokenizeLayout(toks: seq<Token>)
    requires forall i :: 0 <= i < |toks| ==> Lexable(toks[i])
    ensures Tokenize(Layout(toks)) == Some(toks + [Sym(Eoi)])
    decreases |toks|
  {
    if |toks| == 0 {
      assert Read("") == Ok(Sym(Eoi), "");
      assert toks + [Sym(Eoi)] == [Sym(Eoi)];
    } else {
      TokenizeStep(toks[0], Layout(toks[1..]));
      TokenizeLayout(toks[1..]);
      ConsSnoc(toks, Sym(Eoi));
    }
  }
}
