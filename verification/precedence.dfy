/** What the six expression levels make of unparenthesised operator chains:
    precedence between levels, left associativity within a level, a single
    relational operator, the scope of a leading minus, and the one level
    (`or`) that forgives a missing right operand.

    The operands are arbitrary well-formed expressions, written with the
    printer of `ExprGrammar`, so each lemma covers every chain of its shape
    and not just one sample. */
module Precedence {
  import opened Tokens
  import opened Ast
  import opened Parser
  import opened ExprGrammar

  /** `x` occupies the tokens from `pos` up to `end`. */
  predicate Operand(toks: seq<Token>, pos: nat, x: Expr, end: nat) {
    WellFormed(x) && At(toks, pos, Render(x)) && end == pos + |Render(x)|
  }

  /** An operand starts with a token that may start an expression. */
  lemma OperandStarts(toks: seq<Token>, pos: nat, x: Expr, end: nat)
    requires Operand(toks, pos, x, end)
    ensures pos <= |toks| && StartsOperand(Peek(toks, pos)) && StartsExpr(Peek(toks, pos))
  {
    AtFirst(toks, pos, Render(x));
  }

  /* Unrolling one more iteration of a `...Rest` loop, and entering a level. */

  lemma Expr4RestMore(toks: seq<Token>, m: nat, m1: nat, l: Expr, r: Expr, q: nat, res: Parsed<Expr>)
    requires m < |toks| && IsMulOp(Peek(toks, m)) && m1 == m + 1
    requires ParseExpr5(toks, m1) == Done(r, q)
    requires ParseExpr4Rest(toks, q, Binop(Peek(toks, m), l, r)) == res
    ensures ParseExpr4Rest(toks, m, l) == res
  {
  }

  lemma Expr3RestMore(toks: seq<Token>, m: nat, m1: nat, l: Expr, r: Expr, q: nat, res: Parsed<Expr>)
    requires m < |toks| && IsAddOp(Peek(toks, m)) && m1 == m + 1
    requires ParseExpr4(toks, m1) == Done(r, q)
    requires ParseExpr3Rest(toks, q, Binop(Peek(toks, m), l, r)) == res
    ensures ParseExpr3Rest(toks, m, l) == res
  {
  }

  lemma Expr4Enter(toks: seq<Token>, pos: nat, l: Expr, m: nat, res: Parsed<Expr>)
    requires pos <= |toks| && StartsOperand(Peek(toks, pos))
    requires ParseExpr5(toks, pos) == Done(l, m) && ParseExpr4Rest(toks, m, l) == res
    ensures ParseExpr4(toks, pos) == res
  {
  }

  lemma Expr3Enter(toks: seq<Token>, pos: nat, l: Expr, m: nat, res: Parsed<Expr>)
    requires pos <= |toks| && StartsOperand(Peek(toks, pos))
    requires ParseExpr4(toks, pos) == Done(l, m) && ParseExpr3Rest(toks, m, l) == res
    ensures ParseExpr3(toks, pos) == res
  {
  }

  lemma Expr3EnterNegated(toks: seq<Token>, pos: nat, p1: nat, x: Expr, m: nat, res: Parsed<Expr>)
    requires pos <= |toks| && Peek(toks, pos) == Minus && p1 == pos + 1
    requires ParseExpr4(toks, p1) == Done(x, m) && ParseExpr3Rest(toks, m, Unop(Minus, x)) == res
    ensures ParseExpr3(toks, pos) == res
  {
  }

  /** A relational operator after a complete comparison ends the
      conjunction level with a failure at that operator. */
  lemma Expr1AfterComparison(toks: seq<Token>, pos: nat, e: Expr, m: nat)
    requires pos <= |toks| && StartsExpr(Peek(toks, pos))
    requires ParseExpr2(toks, pos) == Done(e, m) && IsRelOp(Peek(toks, m))
    ensures ParseExpr1(toks, pos) == Stuck(m)
    ensures ParseExpr0(toks, pos) == Stuck(m)
  {
  }

  /** `or` followed by something that cannot start an expression. */
  lemma Expr0OrMissing(toks: seq<Token>, pos: nat, x: Expr, m: nat, m1: nat)
    requires pos <= |toks| && StartsExpr(Peek(toks, pos))
    requires ParseExpr1(toks, pos) == Done(x, m) && Peek(toks, m) == Or && m1 == m + 1
    requires !StartsExpr(Peek(toks, m1))
    ensures ParseExpr0(toks, pos) == Done(x, m1)
  {
    assert ParseExpr1(toks, m1) == Stuck(m1);
  }

  /** `and` followed by something that cannot start an expression. */
  lemma Expr1AndMissing(toks: seq<Token>, pos: nat, x: Expr, m: nat, m1: nat)
    requires pos <= |toks| && StartsExpr(Peek(toks, pos))
    requires ParseExpr2(toks, pos) == Done(x, m) && Peek(toks, m) == And && m1 == m + 1
    requires !StartsExpr(Peek(toks, m1))
    ensures ParseExpr0(toks, pos) == Stuck(m1)
  {
    assert ParseExpr2(toks, m1) == Stuck(m1);
    assert ParseExpr1(toks, pos) == Stuck(m1);
  }

  /** `x + y * z` is `x + (y * z)`: a multiplicative operator binds tighter
      than an additive one on its left. */
  lemma ProductInsideSum(x: Expr, y: Expr, z: Expr, add: Kind, mul: Kind, toks: seq<Token>,
                         pos: nat, m1: nat, p2: nat, m2: nat, p3: nat, q: nat)
    requires IsAddOp(add) && IsMulOp(mul)
    requires Operand(toks, pos, x, m1) && Peek(toks, m1) == add && p2 == m1 + 1
    requires Operand(toks, p2, y, m2) && Peek(toks, m2) == mul && p3 == m2 + 1
    requires Operand(toks, p3, z, q) && EndsExpr0(Peek(toks, q))
    ensures ParseExpr0(toks, pos) == Done(Binop(add, x, Binop(mul, y, z)), q)
  {
    OperandStarts(toks, pos, x, m1);
    OperandStarts(toks, p2, y, m2);
    RoundTrip4(x, toks, pos, m1);
    RoundTrip5(y, toks, p2, m2);
    RoundTrip5(z, toks, p3, q);
    Expr4Binop(toks, p2, y, m2, p3, z, q);
    Expr3Binop(toks, pos, x, m1, p2, Binop(mul, y, z), q);
    Lift3To0(toks, pos, Binop(add, x, Binop(mul, y, z)), q);
  }

  /** `x * y + z` is `(x * y) + z`. */
  lemma ProductBeforeSum(x: Expr, y: Expr, z: Expr, mul: Kind, add: Kind, toks: seq<Token>,
                         pos: nat, m1: nat, p2: nat, m2: nat, p3: nat, q: nat)
    requires IsMulOp(mul) && IsAddOp(add)
    requires Operand(toks, pos, x, m1) && Peek(toks, m1) == mul && p2 == m1 + 1
    requires Operand(toks, p2, y, m2) && Peek(toks, m2) == add && p3 == m2 + 1
    requires Operand(toks, p3, z, q) && EndsExpr0(Peek(toks, q))
    ensures ParseExpr0(toks, pos) == Done(Binop(add, Binop(mul, x, y), z), q)
  {
    OperandStarts(toks, pos, x, m1);
    RoundTrip5(x, toks, pos, m1);
    RoundTrip5(y, toks, p2, m2);
    RoundTrip4(z, toks, p3, q);
    Expr4Binop(toks, pos, x, m1, p2, y, m2);
    Expr3Binop(toks, pos, Binop(mul, x, y), m2, p3, z, q);
    Lift3To0(toks, pos, Binop(add, Binop(mul, x, y), z), q);
  }

  /** `x - y - z` is `(x - y) - z`: additive operators associate to the
      left. */
  lemma SumAssociatesLeft(x: Expr, y: Expr, z: Expr, a1: Kind, a2: Kind, toks: seq<Token>,
                          pos: nat, m1: nat, p2: nat, m2: nat, p3: nat, q: nat)
    requires IsAddOp(a1) && IsAddOp(a2)
    requires Operand(toks, pos, x, m1) && Peek(toks, m1) == a1 && p2 == m1 + 1
    requires Operand(toks, p2, y, m2) && Peek(toks, m2) == a2 && p3 == m2 + 1
    requires Operand(toks, p3, z, q) && EndsExpr0(Peek(toks, q))
    ensures ParseExpr0(toks, pos) == Done(Binop(a2, Binop(a1, x, y), z), q)
  {
    var e := Binop(a2, Binop(a1, x, y), z);
    OperandStarts(toks, pos, x, m1);
    RoundTrip4(x, toks, pos, m1);
    RoundTrip4(y, toks, p2, m2);
    RoundTrip4(z, toks, p3, q);
    Expr3RestStep(toks, m2, p3, Binop(a1, x, y), z, q);
    Expr3RestMore(toks, m1, p2, x, y, m2, Done(e, q));
    Expr3Enter(toks, pos, x, m1, Done(e, q));
    Lift3To0(toks, pos, e, q);
  }

  /** `x / y * z` is `(x / y) * z`: multiplicative operators associate to
      the left. */
  lemma ProductAssociatesLeft(x: Expr, y: Expr, z: Expr, o1: Kind, o2: Kind, toks: seq<Token>,
                              pos: nat, m1: nat, p2: nat, m2: nat, p3: nat, q: nat)
    requires IsMulOp(o1) && IsMulOp(o2)
    requires Operand(toks, pos, x, m1) && Peek(toks, m1) == o1 && p2 == m1 + 1
    requires Operand(toks, p2, y, m2) && Peek(toks, m2) == o2 && p3 == m2 + 1
    requires Operand(toks, p3, z, q) && EndsExpr0(Peek(toks, q))
    ensures ParseExpr0(toks, pos) == Done(Binop(o2, Binop(o1, x, y), z), q)
  {
    var e := Binop(o2, Binop(o1, x, y), z);
    OperandStarts(toks, pos, x, m1);
    RoundTrip5(x, toks, pos, m1);
    RoundTrip5(y, toks, p2, m2);
    RoundTrip5(z, toks, p3, q);
    Expr4RestStep(toks, m2, p3, Binop(o1, x, y), z, q);
    Expr4RestMore(toks, m1, p2, x, y, m2, Done(e, q));
    Expr4Enter(toks, pos, x, m1, Done(e, q));
    Lift4To0(toks, pos, e, q);
  }

  /** `x or y and z` is `x or (y and z)`. */
  lemma ConjunctionInsideDisjunction(x: Expr, y: Expr, z: Expr, toks: seq<Token>,
                                     pos: nat, m1: nat, p2: nat, m2: nat, p3: nat, q: nat)
    requires Operand(toks, pos, x, m1) && Peek(toks, m1) == Or && p2 == m1 + 1
    requires Operand(toks, p2, y, m2) && Peek(toks, m2) == And && p3 == m2 + 1
    requires Operand(toks, p3, z, q) && EndsExpr0(Peek(toks, q))
    ensures ParseExpr0(toks, pos) == Done(Binop(Or, x, Binop(And, y, z)), q)
  {
    OperandStarts(toks, pos, x, m1);
    OperandStarts(toks, p2, y, m2);
    RoundTrip1(x, toks, pos, m1);
    RoundTrip2(y, toks, p2, m2);
    RoundTrip2(z, toks, p3, q);
    Expr1Binop(toks, p2, y, m2, p3, z, q);
    Expr0Binop(toks, pos, x, m1, p2, Binop(And, y, z), q);
  }

  /** `x < y < z` is rejected: after one comparison the second relational
      operator cannot continue the expression, whatever follows it. */
  lemma ComparisonsDoNotChain(x: Expr, y: Expr, r1: Kind, toks: seq<Token>,
                              pos: nat, m1: nat, p2: nat, m2: nat)
    requires IsRelOp(r1)
    requires Operand(toks, pos, x, m1) && Peek(toks, m1) == r1 && p2 == m1 + 1
    requires Operand(toks, p2, y, m2) && IsRelOp(Peek(toks, m2))
    ensures ParseExpr0(toks, pos) == Stuck(m2)
  {
    OperandStarts(toks, pos, x, m1);
    RoundTrip3(x, toks, pos, m1);
    RoundTrip3(y, toks, p2, m2);
    Expr2Binop(toks, pos, x, m1, p2, y, m2);
    Expr1AfterComparison(toks, pos, Binop(r1, x, y), m2);
  }

  /** `- x * y` is `-(x * y)`: a leading minus negates the whole first
      term. */
  lemma NegationCoversProduct(x: Expr, y: Expr, mul: Kind, toks: seq<Token>,
                              pos: nat, p1: nat, m: nat, m1: nat, q: nat)
    requires IsMulOp(mul)
    requires Peek(toks, pos) == Minus && p1 == pos + 1
    requires Operand(toks, p1, x, m) && Peek(toks, m) == mul && m1 == m + 1
    requires Operand(toks, m1, y, q) && EndsExpr0(Peek(toks, q))
    ensures ParseExpr0(toks, pos) == Done(Unop(Minus, Binop(mul, x, y)), q)
  {
    OperandStarts(toks, p1, x, m);
    RoundTrip5(x, toks, p1, m);
    RoundTrip5(y, toks, m1, q);
    Expr4Binop(toks, p1, x, m, m1, y, q);
    Expr3Negation(toks, pos, p1, Binop(mul, x, y), q);
    Lift3To0(toks, pos, Unop(Minus, Binop(mul, x, y)), q);
  }

  /** `- x + y` is `(-x) + y`: the minus does not reach past the first
      term. */
  lemma NegationStopsAtSum(x: Expr, y: Expr, add: Kind, toks: seq<Token>,
                           pos: nat, p1: nat, m: nat, m1: nat, q: nat)
    requires IsAddOp(add)
    requires Peek(toks, pos) == Minus && p1 == pos + 1
    requires Operand(toks, p1, x, m) && Peek(toks, m) == add && m1 == m + 1
    requires Operand(toks, m1, y, q) && EndsExpr0(Peek(toks, q))
    ensures ParseExpr0(toks, pos) == Done(Binop(add, Unop(Minus, x), y), q)
  {
    var e := Binop(add, Unop(Minus, x), y);
    RoundTrip4(x, toks, p1, m);
    RoundTrip4(y, toks, m1, q);
    Expr3RestStep(toks, m, m1, Unop(Minus, x), y, q);
    Expr3EnterNegated(toks, pos, p1, x, m, Done(e, q));
    Lift3To0(toks, pos, e, q);
  }

  /** `x or` followed by anything that cannot start an expression still
      parses: the dangling `or` is dropped and parsing resumes just after
      it. */
  lemma DanglingOrIsDropped(x: Expr, toks: seq<Token>, pos: nat, m: nat, m1: nat)
    requires Operand(toks, pos, x, m) && Peek(toks, m) == Or && m1 == m + 1
    requires !StartsExpr(Peek(toks, m1))
    ensures ParseExpr0(toks, pos) == Done(x, m1)
  {
    OperandStarts(toks, pos, x, m);
    RoundTrip1(x, toks, pos, m);
    Expr0OrMissing(toks, pos, x, m, m1);
  }

  /** The same shape with `and` fails, at the token after the `and`. */
  lemma DanglingAndFails(x: Expr, toks: seq<Token>, pos: nat, m: nat, m1: nat)
    requires Operand(toks, pos, x, m) && Peek(toks, m) == And && m1 == m + 1
    requires !StartsExpr(Peek(toks, m1))
    ensures ParseExpr0(toks, pos) == Stuck(m1)
  {
    OperandStarts(toks, pos, x, m);
    RoundTrip2(x, toks, pos, m);
    Expr1AndMissing(toks, pos, x, m, m1);
  }
}
