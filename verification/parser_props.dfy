/** Properties of the expression parser: a fully parenthesised printer for
    expressions, the round trip through it, and what the six precedence
    levels make of unparenthesised operator chains.

    Positions are passed around as separate parameters, tied together by
    equations such as `end == pos + |Render(e)|`, so that every contract
    speaks of the parser at plain positions. */
module ExprGrammar {
  import opened Tokens
  import opened Ast
  import opened Parser

  /** The tokens `s` occur in `toks` from position `pos` on. Stated
      token by token, so that the verifier unfolds it only on demand. */
  predicate At(toks: seq<Token>, pos: nat, s: seq<Token>)
    decreases |s|
  {
    if |s| == 0 then pos <= |toks|
    else pos < |toks| && toks[pos] == s[0] && At(toks, pos + 1, s[1..])
  }

  lemma {:induction false} AtBound(toks: seq<Token>, pos: nat, s: seq<Token>)
    requires At(toks, pos, s)
    ensures pos + |s| <= |toks|
    decreases |s|
  {
    if |s| > 0 {
      AtBound(toks, pos + 1, s[1..]);
    }
  }

  lemma {:induction false} AtSplit(toks: seq<Token>, pos: nat, a: seq<Token>, b: seq<Token>, mid: nat)
    requires At(toks, pos, a + b) && mid == pos + |a|
    ensures At(toks, pos, a) && At(toks, mid, b)
    decreases |a|
  {
    if |a| == 0 {
      assert a + b == b;
      AtBound(toks, pos, b);
    } else {
      assert (a + b)[0] == a[0];
      assert (a + b)[1..] == a[1..] + b;
      AtSplit(toks, pos + 1, a[1..], b, mid);
    }
  }

  lemma AtFirst(toks: seq<Token>, pos: nat, s: seq<Token>)
    requires At(toks, pos, s) && |s| > 0
    ensures pos < |toks| && toks[pos] == s[0] && Peek(toks, pos) == s[0].kind
  {
  }

  lemma AtCons(toks: seq<Token>, pos: nat, t: Token, s: seq<Token>, next: nat)
    requires At(toks, pos, [t] + s) && next == pos + 1
    ensures pos < |toks| && toks[pos] == t && Peek(toks, pos) == t.kind && At(toks, next, s)
  {
    assert ([t] + s)[1..] == s;
  }

  lemma AtSnoc(toks: seq<Token>, pos: nat, s: seq<Token>, t: Token, end: nat)
    requires At(toks, pos, s + [t]) && end == pos + |s|
    ensures At(toks, pos, s) && Peek(toks, end) == t.kind
  {
    AtSplit(toks, pos, s, [t], end);
    AtFirst(toks, end, [t]);
  }

  /** A stretch of tokens between two others: `[a] + body + [b]`. */
  lemma AtBetween(toks: seq<Token>, pos: nat, a: Token, body: seq<Token>, b: Token, inner: nat, end: nat)
    requires At(toks, pos, [a] + body + [b]) && inner == pos + 1 && end == inner + |body|
    ensures pos < |toks| && toks[pos] == a && Peek(toks, pos) == a.kind
    ensures At(toks, inner, body) && Peek(toks, end) == b.kind
  {
    assert [a] + body + [b] == [a] + (body + [b]);
    AtCons(toks, pos, a, body + [b], inner);
    AtSnoc(toks, inner, body, b, end);
  }

  lemma {:induction false} AtSlice(toks: seq<Token>, pos: nat, s: seq<Token>)
    requires pos + |s| <= |toks| && toks[pos..pos + |s|] == s
    ensures At(toks, pos, s)
    decreases |s|
  {
    if |s| > 0 {
      assert toks[pos] == toks[pos..pos + |s|][0];
      assert toks[pos + 1..pos + 1 + |s[1..]|] == s[1..];
      AtSlice(toks, pos + 1, s[1..]);
    }
  }

  lemma AtWhole(s: seq<Token>, t: Token)
    ensures At(s + [t], 0, s) && Peek(s + [t], |s|) == t.kind
  {
    assert (s + [t])[0..|s|] == s;
    AtSlice(s + [t], 0, s);
  }

  /** Expressions that can be written in source text: the grammar's
      operators only, negation as the only prefix operator, no string
      literal. */
  predicate WellFormed(e: Expr) {
    match e
    case IntLit(_) => true
    case StrLit(_) => false
    case Var(_) => true
    case ArrRef(_, i) => WellFormed(i)
    case Call(_, args) => forall a | a in args :: WellFormed(a)
    case Unop(op, x) => op == Minus && WellFormed(x)
    case Binop(op, l, r) => IsBinOp(op) && WellFormed(l) && WellFormed(r)
  }

  /** Fully parenthesised tokens of an expression: every operator
      application is wrapped in parentheses. */
  function Render(e: Expr): (s: seq<Token>)
    ensures |s| > 0 && StartsOperand(s[0].kind)
    decreases e
  {
    match e
    case IntLit(v) => [Token(Number, "", v)]
    case StrLit(t) => [Sym(LPar), Token(Str, t, 0), Sym(RPar)]
    case Var(n) => [Token(Ident, n, 0)]
    case ArrRef(n, i) => [Token(Ident, n, 0), Sym(LBra)] + Render(i) + [Sym(RBra)]
    case Call(n, args) => [Token(Ident, n, 0), Sym(LPar)] + RenderArgs(args) + [Sym(RPar)]
    case Unop(op, x) => [Sym(LPar), Sym(op)] + Render(x) + [Sym(RPar)]
    case Binop(op, l, r) => [Sym(LPar)] + Render(l) + [Sym(op)] + Render(r) + [Sym(RPar)]
  }

  /** Call arguments separated by commas. */
  function RenderArgs(args: seq<Expr>): seq<Token>
    decreases args
  {
    if |args| == 0 then [] else Render(args[0]) + RenderMoreArgs(args[1..])
  }

  /** Further call arguments, each preceded by a comma. */
  function RenderMoreArgs(args: seq<Expr>): seq<Token>
    decreases args
  {
    if |args| == 0 then [] else [Sym(Comma)] + Render(args[0]) + RenderMoreArgs(args[1..])
  }

  /* One step of each level, stated on its own so that the round trip
     never has to unfold the parser itself. */

  lemma Expr5Number(toks: seq<Token>, pos: nat, next: nat)
    requires pos <= |toks| && Peek(toks, pos) == Number && next == pos + 1
    ensures ParseExpr5(toks, pos) == Done(IntLit(toks[pos].value), next)
  {
  }

  lemma Expr5Ident(toks: seq<Token>, pos: nat, next: nat)
    requires pos <= |toks| && Peek(toks, pos) == Ident && next == pos + 1
    ensures ParseExpr5(toks, pos) == ParseExpr5Ident(toks, next, toks[pos].text)
  {
  }

  lemma Expr5Paren(toks: seq<Token>, pos: nat, inner: nat, e: Expr, q: nat, end: nat)
    requires pos <= |toks| && Peek(toks, pos) == LPar && inner == pos + 1
    requires ParseExpr0(toks, inner) == Done(e, q) && Peek(toks, q) == RPar && end == q + 1
    ensures ParseExpr5(toks, pos) == Done(e, end)
  {
  }

  lemma IdentVar(toks: seq<Token>, pos: nat, name: string)
    requires pos <= |toks| && EndsExpr5(Peek(toks, pos))
    ensures ParseExpr5Ident(toks, pos, name) == Done(Var(name), pos)
  {
  }

  lemma IdentArr(toks: seq<Token>, pos: nat, inner: nat, name: string, i: Expr, q: nat, end: nat)
    requires pos <= |toks| && Peek(toks, pos) == LBra && inner == pos + 1
    requires ParseExpr0(toks, inner) == Done(i, q) && Peek(toks, q) == RBra && end == q + 1
    ensures ParseExpr5Ident(toks, pos, name) == Done(ArrRef(name, i), end)
  {
  }

  lemma IdentCall(toks: seq<Token>, pos: nat, inner: nat, name: string, c: Expr, q: nat, end: nat)
    requires pos <= |toks| && Peek(toks, pos) == LPar && inner == pos + 1
    requires ParseFunExprArgs(toks, inner, Call(name, [])) == Done(c, q) && Peek(toks, q) == RPar
    requires end == q + 1
    ensures ParseExpr5Ident(toks, pos, name) == Done(c, end)
  {
  }

  lemma ArgsFirst(toks: seq<Token>, pos: nat, n: string, a: Expr, m: nat, more: seq<Expr>, q: nat)
    requires pos <= |toks| && StartsExpr(Peek(toks, pos))
    requires ParseExpr0(toks, pos) == Done(a, m)
    requires m <= |toks| && ParseFunExprArgsRest(toks, m, Call(n, [a])) == Done(Call(n, [a] + more), q)
    ensures ParseFunExprArgs(toks, pos, Call(n, [])) == Done(Call(n, [a] + more), q)
  {
    assert AddCallArg(Call(n, []), a) == Call(n, [a]);
  }

  lemma ArgsNext(toks: seq<Token>, pos: nat, inner: nat, n: string, pre: seq<Expr>, a: Expr, m: nat, more: seq<Expr>, q: nat)
    requires pos <= |toks| && Peek(toks, pos) == Comma && inner == pos + 1
    requires ParseExpr0(toks, inner) == Done(a, m)
    requires m <= |toks| && ParseFunExprArgsRest(toks, m, Call(n, pre + [a])) == Done(Call(n, pre + [a] + more), q)
    ensures ParseFunExprArgsRest(toks, pos, Call(n, pre)) == Done(Call(n, pre + ([a] + more)), q)
  {
    assert AddCallArg(Call(n, pre), a) == Call(n, pre + [a]);
    assert pre + [a] + more == pre + ([a] + more);
  }

  lemma ArgsClose(toks: seq<Token>, pos: nat, call: Expr)
    requires pos <= |toks| && call.Call? && Peek(toks, pos) == RPar
    ensures ParseFunExprArgs(toks, pos, call) == Done(call, pos)
    ensures ParseFunExprArgsRest(toks, pos, call) == Done(call, pos)
  {
  }

  lemma Expr4Binop(toks: seq<Token>, pos: nat, l: Expr, m: nat, m1: nat, r: Expr, q: nat)
    requires pos <= |toks| && StartsOperand(Peek(toks, pos))
    requires ParseExpr5(toks, pos) == Done(l, m) && IsMulOp(Peek(toks, m)) && m1 == m + 1
    requires ParseExpr5(toks, m1) == Done(r, q) && EndsExpr4(Peek(toks, q))
    ensures ParseExpr4(toks, pos) == Done(Binop(Peek(toks, m), l, r), q)
  {
    Expr4RestStep(toks, m, m1, l, r, q);
  }

  lemma Expr4RestStep(toks: seq<Token>, m: nat, m1: nat, l: Expr, r: Expr, q: nat)
    requires m < |toks| && IsMulOp(Peek(toks, m)) && m1 == m + 1
    requires ParseExpr5(toks, m1) == Done(r, q) && EndsExpr4(Peek(toks, q))
    ensures ParseExpr4Rest(toks, m, l) == Done(Binop(Peek(toks, m), l, r), q)
  {
    Expr4RestEnd(toks, q, Binop(Peek(toks, m), l, r));
  }

  lemma Expr4RestEnd(toks: seq<Token>, q: nat, e: Expr)
    requires q <= |toks| && EndsExpr4(Peek(toks, q))
    ensures ParseExpr4Rest(toks, q, e) == Done(e, q)
  {
  }

  lemma Expr3Binop(toks: seq<Token>, pos: nat, l: Expr, m: nat, m1: nat, r: Expr, q: nat)
    requires pos <= |toks| && StartsOperand(Peek(toks, pos))
    requires ParseExpr4(toks, pos) == Done(l, m) && IsAddOp(Peek(toks, m)) && m1 == m + 1
    requires ParseExpr4(toks, m1) == Done(r, q) && EndsExpr3(Peek(toks, q))
    ensures ParseExpr3(toks, pos) == Done(Binop(Peek(toks, m), l, r), q)
  {
    Expr3RestStep(toks, m, m1, l, r, q);
  }

  lemma Expr3RestStep(toks: seq<Token>, m: nat, m1: nat, l: Expr, r: Expr, q: nat)
    requires m < |toks| && IsAddOp(Peek(toks, m)) && m1 == m + 1
    requires ParseExpr4(toks, m1) == Done(r, q) && EndsExpr3(Peek(toks, q))
    ensures ParseExpr3Rest(toks, m, l) == Done(Binop(Peek(toks, m), l, r), q)
  {
    Expr3RestEnd(toks, q, Binop(Peek(toks, m), l, r));
  }

  lemma Expr3RestEnd(toks: seq<Token>, q: nat, e: Expr)
    requires q <= |toks| && EndsExpr3(Peek(toks, q))
    ensures ParseExpr3Rest(toks, q, e) == Done(e, q)
  {
  }

  lemma Expr3Negation(toks: seq<Token>, pos: nat, next: nat, x: Expr, q: nat)
    requires pos <= |toks| && Peek(toks, pos) == Minus && next == pos + 1
    requires ParseExpr4(toks, next) == Done(x, q) && EndsExpr3(Peek(toks, q))
    ensures ParseExpr3(toks, pos) == Done(Unop(Minus, x), q)
  {
  }

  lemma Expr2Binop(toks: seq<Token>, pos: nat, l: Expr, m: nat, m1: nat, r: Expr, q: nat)
    requires pos <= |toks| && StartsExpr(Peek(toks, pos))
    requires ParseExpr3(toks, pos) == Done(l, m) && IsRelOp(Peek(toks, m)) && m1 == m + 1
    requires ParseExpr3(toks, m1) == Done(r, q)
    ensures ParseExpr2(toks, pos) == Done(Binop(Peek(toks, m), l, r), q)
  {
  }

  lemma Expr1Binop(toks: seq<Token>, pos: nat, l: Expr, m: nat, m1: nat, r: Expr, q: nat)
    requires pos <= |toks| && StartsExpr(Peek(toks, pos))
    requires ParseExpr2(toks, pos) == Done(l, m) && Peek(toks, m) == And && m1 == m + 1
    requires ParseExpr2(toks, m1) == Done(r, q) && EndsExpr1(Peek(toks, q))
    ensures ParseExpr1(toks, pos) == Done(Binop(And, l, r), q)
  {
    assert ParseExpr1Rest(toks, q, Binop(And, l, r)) == Done(Binop(And, l, r), q);
  }

  lemma Expr0Binop(toks: seq<Token>, pos: nat, l: Expr, m: nat, m1: nat, r: Expr, q: nat)
    requires pos <= |toks| && StartsExpr(Peek(toks, pos))
    requires ParseExpr1(toks, pos) == Done(l, m) && Peek(toks, m) == Or && m1 == m + 1
    requires ParseExpr1(toks, m1) == Done(r, q) && EndsExpr0(Peek(toks, q))
    ensures ParseExpr0(toks, pos) == Done(Binop(Or, l, r), q)
  {
    assert ParseExpr0Rest(toks, q, Binop(Or, l, r)) == Done(Binop(Or, l, r), q);
  }

  /* Each level passes an operand through unchanged when the next token is
     outside that level's operators. */

  lemma Lift5To4(toks: seq<Token>, pos: nat, e: Expr, q: nat)
    requires pos <= |toks| && StartsOperand(Peek(toks, pos))
    requires ParseExpr5(toks, pos) == Done(e, q) && EndsExpr4(Peek(toks, q))
    ensures ParseExpr4(toks, pos) == Done(e, q)
  {
  }

  lemma Lift4To3(toks: seq<Token>, pos: nat, e: Expr, q: nat)
    requires pos <= |toks| && StartsOperand(Peek(toks, pos))
    requires ParseExpr4(toks, pos) == Done(e, q) && EndsExpr3(Peek(toks, q))
    ensures ParseExpr3(toks, pos) == Done(e, q)
  {
  }

  lemma Lift3To2(toks: seq<Token>, pos: nat, e: Expr, q: nat)
    requires pos <= |toks| && StartsExpr(Peek(toks, pos))
    requires ParseExpr3(toks, pos) == Done(e, q) && EndsExpr2(Peek(toks, q))
    ensures ParseExpr2(toks, pos) == Done(e, q)
  {
  }

  lemma Lift2To1(toks: seq<Token>, pos: nat, e: Expr, q: nat)
    requires pos <= |toks| && StartsExpr(Peek(toks, pos))
    requires ParseExpr2(toks, pos) == Done(e, q) && EndsExpr1(Peek(toks, q))
    ensures ParseExpr1(toks, pos) == Done(e, q)
  {
  }

  lemma Lift1To0(toks: seq<Token>, pos: nat, e: Expr, q: nat)
    requires pos <= |toks| && StartsExpr(Peek(toks, pos))
    requires ParseExpr1(toks, pos) == Done(e, q) && EndsExpr0(Peek(toks, q))
    ensures ParseExpr0(toks, pos) == Done(e, q)
  {
  }

  /** An operand of a level followed by a token that ends a whole
      expression is the whole expression. */
  lemma Lift4To0(toks: seq<Token>, pos: nat, e: Expr, q: nat)
    requires pos <= |toks| && StartsOperand(Peek(toks, pos))
    requires ParseExpr4(toks, pos) == Done(e, q) && EndsExpr0(Peek(toks, q))
    ensures ParseExpr0(toks, pos) == Done(e, q)
  {
    Lift4To3(toks, pos, e, q);
    Lift3To0(toks, pos, e, q);
  }

  lemma Lift3To0(toks: seq<Token>, pos: nat, e: Expr, q: nat)
    requires pos <= |toks| && StartsExpr(Peek(toks, pos))
    requires ParseExpr3(toks, pos) == Done(e, q) && EndsExpr0(Peek(toks, q))
    ensures ParseExpr0(toks, pos) == Done(e, q)
  {
    Lift3To2(toks, pos, e, q);
    Lift2To0(toks, pos, e, q);
  }

  lemma Lift2To0(toks: seq<Token>, pos: nat, e: Expr, q: nat)
    requires pos <= |toks| && StartsExpr(Peek(toks, pos))
    requires ParseExpr2(toks, pos) == Done(e, q) && EndsExpr0(Peek(toks, q))
    ensures ParseExpr0(toks, pos) == Done(e, q)
  {
    Lift2To1(toks, pos, e, q);
    Lift1To0(toks, pos, e, q);
  }

  /* Where the parts of a rendered expression sit. */

  lemma ArrRefTokens(n: string, i: Expr, toks: seq<Token>, pos: nat, p1: nat, p2: nat, q: nat)
    requires At(toks, pos, Render(ArrRef(n, i)))
    requires p1 == pos + 1 && p2 == p1 + 1 && q == p2 + |Render(i)|
    ensures |Render(ArrRef(n, i))| == |Render(i)| + 3
    ensures Peek(toks, pos) == Ident && toks[pos].text == n && Peek(toks, p1) == LBra
    ensures At(toks, p2, Render(i)) && Peek(toks, q) == RBra
  {
    var id := Token(Ident, n, 0);
    assert Render(ArrRef(n, i)) == [id] + ([Sym(LBra)] + Render(i) + [Sym(RBra)]);
    AtCons(toks, pos, id, [Sym(LBra)] + Render(i) + [Sym(RBra)], p1);
    AtBetween(toks, p1, Sym(LBra), Render(i), Sym(RBra), p2, q);
  }

  lemma CallTokens(n: string, args: seq<Expr>, toks: seq<Token>, pos: nat, p1: nat, p2: nat, q: nat)
    requires At(toks, pos, Render(Call(n, args)))
    requires p1 == pos + 1 && p2 == p1 + 1 && q == p2 + |RenderArgs(args)|
    ensures |Render(Call(n, args))| == |RenderArgs(args)| + 3
    ensures Peek(toks, pos) == Ident && toks[pos].text == n && Peek(toks, p1) == LPar
    ensures At(toks, p2, RenderArgs(args)) && Peek(toks, q) == RPar
  {
    var id := Token(Ident, n, 0);
    assert Render(Call(n, args)) == [id] + ([Sym(LPar)] + RenderArgs(args) + [Sym(RPar)]);
    AtCons(toks, pos, id, [Sym(LPar)] + RenderArgs(args) + [Sym(RPar)], p1);
    AtBetween(toks, p1, Sym(LPar), RenderArgs(args), Sym(RPar), p2, q);
  }

  lemma UnopTokens(op: Kind, x: Expr, toks: seq<Token>, pos: nat, p1: nat, p2: nat, q: nat)
    requires At(toks, pos, Render(Unop(op, x)))
    requires p1 == pos + 1 && p2 == p1 + 1 && q == p2 + |Render(x)|
    ensures |Render(Unop(op, x))| == |Render(x)| + 3
    ensures Peek(toks, pos) == LPar && Peek(toks, p1) == op
    ensures At(toks, p2, Render(x)) && Peek(toks, q) == RPar
  {
    assert Render(Unop(op, x)) == [Sym(LPar)] + ([Sym(op)] + Render(x)) + [Sym(RPar)];
    AtBetween(toks, pos, Sym(LPar), [Sym(op)] + Render(x), Sym(RPar), p1, q);
    AtCons(toks, p1, Sym(op), Render(x), p2);
  }

  lemma BinopTokens(op: Kind, l: Expr, r: Expr, toks: seq<Token>, pos: nat, p1: nat, m: nat, m1: nat, q: nat)
    requires At(toks, pos, Render(Binop(op, l, r)))
    requires p1 == pos + 1 && m == p1 + |Render(l)| && m1 == m + 1 && q == m1 + |Render(r)|
    ensures |Render(Binop(op, l, r))| == |Render(l)| + |Render(r)| + 3
    ensures Peek(toks, pos) == LPar && At(toks, p1, Render(l))
    ensures Peek(toks, m) == op && At(toks, m1, Render(r)) && Peek(toks, q) == RPar
  {
    var tail := [Sym(op)] + Render(r);
    assert Render(Binop(op, l, r)) == [Sym(LPar)] + (Render(l) + tail) + [Sym(RPar)];
    AtBetween(toks, pos, Sym(LPar), Render(l) + tail, Sym(RPar), p1, q);
    AtSplit(toks, p1, Render(l), tail, m);
    AtCons(toks, m, Sym(op), Render(r), m1);
  }

  /** The round trip at every level: a well-formed expression, rendered and
      followed by a token that may follow an operand of the level, parses
      back to itself and stops at that token. */
  lemma {:induction false} RoundTrip0(e: Expr, toks: seq<Token>, pos: nat, end: nat)
    requires WellFormed(e) && At(toks, pos, Render(e)) && end == pos + |Render(e)|
    requires EndsExpr0(Peek(toks, end))
    ensures ParseExpr0(toks, pos) == Done(e, end)
    decreases e, 9
  {
    RoundTrip1(e, toks, pos, end);
    Lift1To0(toks, pos, e, end);
  }

  lemma {:induction false} RoundTrip1(e: Expr, toks: seq<Token>, pos: nat, end: nat)
    requires WellFormed(e) && At(toks, pos, Render(e)) && end == pos + |Render(e)|
    requires EndsExpr1(Peek(toks, end))
    ensures ParseExpr1(toks, pos) == Done(e, end)
    decreases e, 8
  {
    RoundTrip2(e, toks, pos, end);
    Lift2To1(toks, pos, e, end);
  }

  lemma {:induction false} RoundTrip2(e: Expr, toks: seq<Token>, pos: nat, end: nat)
    requires WellFormed(e) && At(toks, pos, Render(e)) && end == pos + |Render(e)|
    requires EndsExpr2(Peek(toks, end))
    ensures ParseExpr2(toks, pos) == Done(e, end)
    decreases e, 7
  {
    RoundTrip3(e, toks, pos, end);
    Lift3To2(toks, pos, e, end);
  }

  lemma {:induction false} RoundTrip3(e: Expr, toks: seq<Token>, pos: nat, end: nat)
    requires WellFormed(e) && At(toks, pos, Render(e)) && end == pos + |Render(e)|
    requires EndsExpr3(Peek(toks, end))
    ensures ParseExpr3(toks, pos) == Done(e, end)
    decreases e, 6
  {
    RoundTrip4(e, toks, pos, end);
    Lift4To3(toks, pos, e, end);
  }

  lemma {:induction false} RoundTrip4(e: Expr, toks: seq<Token>, pos: nat, end: nat)
    requires WellFormed(e) && At(toks, pos, Render(e)) && end == pos + |Render(e)|
    requires EndsExpr4(Peek(toks, end))
    ensures ParseExpr4(toks, pos) == Done(e, end)
    decreases e, 5
  {
    RoundTrip5(e, toks, pos, end);
    Lift5To4(toks, pos, e, end);
  }

  lemma {:induction false} RoundTrip5(e: Expr, toks: seq<Token>, pos: nat, end: nat)
    requires WellFormed(e) && At(toks, pos, Render(e)) && end == pos + |Render(e)|
    requires EndsExpr5(Peek(toks, end))
    ensures ParseExpr5(toks, pos) == Done(e, end)
    decreases e, 4
  {
    match e
    case IntLit(_) =>
      AtFirst(toks, pos, Render(e));
      Expr5Number(toks, pos, end);
    case Var(n) =>
      AtFirst(toks, pos, Render(e));
      Expr5Ident(toks, pos, end);
      IdentVar(toks, end, n);
    case ArrRef(n, i) =>
      RoundTripIndex(n, i, toks, pos, end);
    case Call(n, args) =>
      RoundTripCall(n, args, toks, pos, end);
    case Unop(op, x) =>
      RoundTripParenNegation(x, toks, pos, end);
    case Binop(op, l, r) =>
      RoundTripParenOperator(op, l, r, toks, pos, end);
  }

  lemma {:induction false} RoundTripIndex(n: string, i: Expr, toks: seq<Token>, pos: nat, end: nat)
    requires WellFormed(i) && At(toks, pos, Render(ArrRef(n, i)))
    requires end == pos + |Render(ArrRef(n, i))|
    ensures ParseExpr5(toks, pos) == Done(ArrRef(n, i), end)
    decreases ArrRef(n, i), 3
  {
    var p1 := pos + 1;
    var p2 := p1 + 1;
    var q := p2 + |Render(i)|;
    ArrRefTokens(n, i, toks, pos, p1, p2, q);
    RoundTrip0(i, toks, p2, q);
    Expr5Ident(toks, pos, p1);
    IdentArr(toks, p1, p2, n, i, q, end);
  }

  lemma {:induction false} RoundTripCall(n: string, args: seq<Expr>, toks: seq<Token>, pos: nat, end: nat)
    requires WellFormed(Call(n, args)) && At(toks, pos, Render(Call(n, args)))
    requires end == pos + |Render(Call(n, args))|
    ensures ParseExpr5(toks, pos) == Done(Call(n, args), end)
    decreases Call(n, args), 3
  {
    var p1 := pos + 1;
    var p2 := p1 + 1;
    var q := p2 + |RenderArgs(args)|;
    CallTokens(n, args, toks, pos, p1, p2, q);
    RoundTripArgs(n, args, toks, p2, q);
    Expr5Ident(toks, pos, p1);
    IdentCall(toks, p1, p2, n, Call(n, args), q, end);
  }

  lemma {:induction false} RoundTripParenNegation(x: Expr, toks: seq<Token>, pos: nat, end: nat)
    requires WellFormed(x) && At(toks, pos, Render(Unop(Minus, x)))
    requires end == pos + |Render(Unop(Minus, x))|
    ensures ParseExpr5(toks, pos) == Done(Unop(Minus, x), end)
    decreases Unop(Minus, x), 3
  {
    var p1 := pos + 1;
    var p2 := p1 + 1;
    var q := p2 + |Render(x)|;
    UnopTokens(Minus, x, toks, pos, p1, p2, q);
    RoundTripNegation(x, toks, p1, p2, q);
    Expr5Paren(toks, pos, p1, Unop(Minus, x), q, end);
  }

  lemma {:induction false} RoundTripParenOperator(op: Kind, l: Expr, r: Expr, toks: seq<Token>, pos: nat, end: nat)
    requires WellFormed(Binop(op, l, r)) && At(toks, pos, Render(Binop(op, l, r)))
    requires end == pos + |Render(Binop(op, l, r))|
    ensures ParseExpr5(toks, pos) == Done(Binop(op, l, r), end)
    decreases Binop(op, l, r), 3
  {
    var p1 := pos + 1;
    var m := p1 + |Render(l)|;
    var m1 := m + 1;
    var q := m1 + |Render(r)|;
    BinopTokens(op, l, r, toks, pos, p1, m, m1, q);
    RoundTripOperator(op, l, r, toks, p1, m, m1, q);
    Expr5Paren(toks, pos, p1, Binop(op, l, r), q, end);
  }

  /** `- x` followed by `)` parses as the negation of `x`. */
  lemma {:induction false} RoundTripNegation(x: Expr, toks: seq<Token>, pos: nat, next: nat, q: nat)
    requires WellFormed(x) && Peek(toks, pos) == Minus && next == pos + 1
    requires At(toks, next, Render(x)) && q == next + |Render(x)| && Peek(toks, q) == RPar
    ensures ParseExpr0(toks, pos) == Done(Unop(Minus, x), q)
    decreases Unop(Minus, x), 0
  {
    RoundTrip4(x, toks, next, q);
    Expr3Negation(toks, pos, next, x, q);
    Lift3To0(toks, pos, Unop(Minus, x), q);
  }

  /** `l op r` followed by `)` parses as one application of `op`, whatever
      level `op` belongs to. */
  lemma {:induction false} RoundTripOperator(op: Kind, l: Expr, r: Expr, toks: seq<Token>, pos: nat, m: nat, m1: nat, q: nat)
    requires IsBinOp(op) && WellFormed(l) && WellFormed(r)
    requires At(toks, pos, Render(l)) && m == pos + |Render(l)| && Peek(toks, m) == op
    requires m1 == m + 1 && At(toks, m1, Render(r)) && q == m1 + |Render(r)|
    requires Peek(toks, q) == RPar
    ensures ParseExpr0(toks, pos) == Done(Binop(op, l, r), q)
    decreases Binop(op, l, r), 2
  {
    if IsMulOp(op) {
      RoundTripProduct(op, l, r, toks, pos, m, m1, q);
    } else if IsAddOp(op) {
      RoundTripSum(op, l, r, toks, pos, m, m1, q);
    } else if IsRelOp(op) {
      RoundTripRelation(op, l, r, toks, pos, m, m1, q);
    } else if op == And {
      RoundTripConjunction(l, r, toks, pos, m, m1, q);
    } else {
      RoundTripDisjunction(l, r, toks, pos, m, m1, q);
    }
  }

  lemma {:induction false} RoundTripProduct(op: Kind, l: Expr, r: Expr, toks: seq<Token>, pos: nat, m: nat, m1: nat, q: nat)
    requires IsMulOp(op) && WellFormed(l) && WellFormed(r)
    requires At(toks, pos, Render(l)) && m == pos + |Render(l)| && Peek(toks, m) == op
    requires m1 == m + 1 && At(toks, m1, Render(r)) && q == m1 + |Render(r)|
    requires Peek(toks, q) == RPar
    ensures ParseExpr0(toks, pos) == Done(Binop(op, l, r), q)
    decreases Binop(op, l, r), 1
  {
    AtFirst(toks, pos, Render(l));
    RoundTrip5(l, toks, pos, m);
    RoundTrip5(r, toks, m1, q);
    Expr4Binop(toks, pos, l, m, m1, r, q);
    Lift4To0(toks, pos, Binop(op, l, r), q);
  }

  lemma {:induction false} RoundTripSum(op: Kind, l: Expr, r: Expr, toks: seq<Token>, pos: nat, m: nat, m1: nat, q: nat)
    requires IsAddOp(op) && WellFormed(l) && WellFormed(r)
    requires At(toks, pos, Render(l)) && m == pos + |Render(l)| && Peek(toks, m) == op
    requires m1 == m + 1 && At(toks, m1, Render(r)) && q == m1 + |Render(r)|
    requires Peek(toks, q) == RPar
    ensures ParseExpr0(toks, pos) == Done(Binop(op, l, r), q)
    decreases Binop(op, l, r), 1
  {
    AtFirst(toks, pos, Render(l));
    RoundTrip4(l, toks, pos, m);
    RoundTrip4(r, toks, m1, q);
    Expr3Binop(toks, pos, l, m, m1, r, q);
    Lift3To0(toks, pos, Binop(op, l, r), q);
  }

  lemma {:induction false} RoundTripRelation(op: Kind, l: Expr, r: Expr, toks: seq<Token>, pos: nat, m: nat, m1: nat, q: nat)
    requires IsRelOp(op) && WellFormed(l) && WellFormed(r)
    requires At(toks, pos, Render(l)) && m == pos + |Render(l)| && Peek(toks, m) == op
    requires m1 == m + 1 && At(toks, m1, Render(r)) && q == m1 + |Render(r)|
    requires Peek(toks, q) == RPar
    ensures ParseExpr0(toks, pos) == Done(Binop(op, l, r), q)
    decreases Binop(op, l, r), 1
  {
    AtFirst(toks, pos, Render(l));
    RoundTrip3(l, toks, pos, m);
    RoundTrip3(r, toks, m1, q);
    Expr2Binop(toks, pos, l, m, m1, r, q);
    Lift2To0(toks, pos, Binop(op, l, r), q);
  }

  lemma {:induction false} RoundTripConjunction(l: Expr, r: Expr, toks: seq<Token>, pos: nat, m: nat, m1: nat, q: nat)
    requires WellFormed(l) && WellFormed(r)
    requires At(toks, pos, Render(l)) && m == pos + |Render(l)| && Peek(toks, m) == And
    requires m1 == m + 1 && At(toks, m1, Render(r)) && q == m1 + |Render(r)|
    requires Peek(toks, q) == RPar
    ensures ParseExpr0(toks, pos) == Done(Binop(And, l, r), q)
    decreases Binop(And, l, r), 1
  {
    AtFirst(toks, pos, Render(l));
    RoundTrip2(l, toks, pos, m);
    RoundTrip2(r, toks, m1, q);
    Expr1Binop(toks, pos, l, m, m1, r, q);
    Lift1To0(toks, pos, Binop(And, l, r), q);
  }

  lemma {:induction false} RoundTripDisjunction(l: Expr, r: Expr, toks: seq<Token>, pos: nat, m: nat, m1: nat, q: nat)
    requires WellFormed(l) && WellFormed(r)
    requires At(toks, pos, Render(l)) && m == pos + |Render(l)| && Peek(toks, m) == Or
    requires m1 == m + 1 && At(toks, m1, Render(r)) && q == m1 + |Render(r)|
    requires Peek(toks, q) == RPar
    ensures ParseExpr0(toks, pos) == Done(Binop(Or, l, r), q)
    decreases Binop(Or, l, r), 1
  {
    AtFirst(toks, pos, Render(l));
    RoundTrip1(l, toks, pos, m);
    RoundTrip1(r, toks, m1, q);
    Expr0Binop(toks, pos, l, m, m1, r, q);
  }

  /** Tokens that may follow a call argument. */
  predicate FollowsArg(k: Kind) {
    k in {Comma, RPar}
  }

  /** What follows a list of further arguments: a comma when there is
      another argument, the closing parenthesis otherwise. */
  lemma MoreArgsFollow(args: seq<Expr>, toks: seq<Token>, pos: nat, end: nat)
    requires At(toks, pos, RenderMoreArgs(args)) && end == pos + |RenderMoreArgs(args)|
    requires Peek(toks, end) == RPar
    ensures FollowsArg(Peek(toks, pos))
  {
    if |args| > 0 {
      assert RenderMoreArgs(args)[0] == Sym(Comma);
      AtFirst(toks, pos, RenderMoreArgs(args));
    }
  }

  lemma ArgsTokens(args: seq<Expr>, toks: seq<Token>, pos: nat, m: nat, end: nat)
    requires |args| > 0 && At(toks, pos, RenderArgs(args)) && end == pos + |RenderArgs(args)|
    requires Peek(toks, end) == RPar && m == pos + |Render(args[0])|
    ensures end == m + |RenderMoreArgs(args[1..])|
    ensures At(toks, pos, Render(args[0])) && StartsExpr(Peek(toks, pos))
    ensures At(toks, m, RenderMoreArgs(args[1..])) && FollowsArg(Peek(toks, m))
  {
    AtSplit(toks, pos, Render(args[0]), RenderMoreArgs(args[1..]), m);
    AtFirst(toks, pos, Render(args[0]));
    MoreArgsFollow(args[1..], toks, m, end);
  }

  lemma MoreArgsTokens(args: seq<Expr>, toks: seq<Token>, pos: nat, p1: nat, m: nat, end: nat)
    requires |args| > 0 && At(toks, pos, RenderMoreArgs(args)) && end == pos + |RenderMoreArgs(args)|
    requires Peek(toks, end) == RPar && p1 == pos + 1 && m == p1 + |Render(args[0])|
    ensures end == m + |RenderMoreArgs(args[1..])|
    ensures Peek(toks, pos) == Comma && At(toks, p1, Render(args[0])) && StartsExpr(Peek(toks, p1))
    ensures At(toks, m, RenderMoreArgs(args[1..])) && FollowsArg(Peek(toks, m))
  {
    var head := [Sym(Comma)] + Render(args[0]);
    assert RenderMoreArgs(args) == head + RenderMoreArgs(args[1..]);
    AtSplit(toks, pos, head, RenderMoreArgs(args[1..]), m);
    AtCons(toks, pos, Sym(Comma), Render(args[0]), p1);
    AtFirst(toks, p1, Render(args[0]));
    MoreArgsFollow(args[1..], toks, m, end);
  }

  lemma ArgsWellFormed(args: seq<Expr>)
    requires |args| > 0 && forall a | a in args :: WellFormed(a)
    ensures WellFormed(args[0]) && forall a | a in args[1..] :: WellFormed(a)
  {
    assert args[0] in args;
    assert forall a | a in args[1..] :: a in args;
  }

  /** Comma-separated arguments followed by `)` are parsed in order and
      appended to the call. */
  lemma {:induction false} RoundTripArgs(n: string, args: seq<Expr>, toks: seq<Token>, pos: nat, end: nat)
    requires forall a | a in args :: WellFormed(a)
    requires At(toks, pos, RenderArgs(args)) && end == pos + |RenderArgs(args)| && Peek(toks, end) == RPar
    ensures ParseFunExprArgs(toks, pos, Call(n, [])) == Done(Call(n, args), end)
    decreases args, 1
  {
    if |args| == 0 {
      ArgsClose(toks, pos, Call(n, []));
    } else {
      var a, more := args[0], args[1..];
      var m := pos + |Render(a)|;
      ArgsTokens(args, toks, pos, m, end);
      ArgsWellFormed(args);
      RoundTrip0(a, toks, pos, m);
      RoundTripMoreArgs(n, [a], more, toks, m, end);
      ArgsFirst(toks, pos, n, a, m, more, end);
      assert [a] + more == args;
    }
  }

  lemma {:induction false} RoundTripMoreArgs(n: string, pre: seq<Expr>, args: seq<Expr>, toks: seq<Token>, pos: nat, end: nat)
    requires forall a | a in args :: WellFormed(a)
    requires At(toks, pos, RenderMoreArgs(args)) && end == pos + |RenderMoreArgs(args)|
    requires Peek(toks, end) == RPar
    ensures ParseFunExprArgsRest(toks, pos, Call(n, pre)) == Done(Call(n, pre + args), end)
    decreases args, 0
  {
    if |args| == 0 {
      ArgsClose(toks, pos, Call(n, pre));
      assert pre + args == pre;
    } else {
      var a, more := args[0], args[1..];
      var p1 := pos + 1;
      var m := p1 + |Render(a)|;
      MoreArgsTokens(args, toks, pos, p1, m, end);
      ArgsWellFormed(args);
      RoundTrip0(a, toks, p1, m);
      RoundTripMoreArgs(n, pre + [a], more, toks, m, end);
      ArgsNext(toks, pos, p1, n, pre, a, m, more, end);
      assert [a] + more == args;
    }
  }

  /** The printer is a right inverse of the parser: every well-formed
      expression, rendered and followed by any token that may end an
      expression, parses back to itself. */
  lemma ParseRender(e: Expr, t: Token)
    requires WellFormed(e) && EndsExpr0(t.kind)
    ensures ParseExpr0(Render(e) + [t], 0) == Done(e, |Render(e)|)
  {
    AtWhole(Render(e), t);
    RoundTrip0(e, Render(e) + [t], 0, |Render(e)|);
  }
}
