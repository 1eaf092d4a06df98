/** Properties of the statement and declaration grammar: the identifier
    lists of `var` and `const` sections, the shape `while` and `for`
    statements are desugared to, the bounds check on array types, and what
    the desugared `while` loop means for lowering. */
module StmtGrammar {
  import opened Optional
  import opened Tokens
  import opened Ast
  import opened Parser
  import opened SymTable
  import opened Lower
  import opened LowerProps
  import opened Syntax

  /* Identifier lists. */

  /** `toks` holds `, n1 , n2 ...` for the names `names`, from `pos`. */
  predicate ListAt(toks: seq<Token>, pos: nat, names: seq<string>)
    decreases |names|
  {
    |names| == 0 ||
    (pos + 1 < |toks| && toks[pos].kind == Comma && toks[pos + 1].kind == Ident &&
     toks[pos + 1].text == names[0] && ListAt(toks, pos + 2, names[1..]))
  }

  /** The rest of an identifier list collects every name, in order, up to
      the `=` or `:` that ends it. */
  lemma {:induction false} IdentListCollects(toks: seq<Token>, pos: nat, ids: seq<string>, names: seq<string>, end: nat)
    requires ListAt(toks, pos, names) && end == pos + 2 * |names| && end <= |toks|
    requires Peek(toks, end) in {Eq, Col}
    ensures ParseIdentListRest(toks, pos, ids) == Done(ids + names, end)
    decreases |names|
  {
    if |names| == 0 {
      assert ids + names == ids;
    } else {
      var next := pos + 2;
      IdentListCollects(toks, next, ids + [names[0]], names[1..], end);
      assert ids + [names[0]] + names[1..] == ids + names;
      assert Match(toks, pos + 1, Ident) == Done(toks[pos + 1], next);
    }
  }

  /** Hence a section item `n0, n1, ... : T` declares every name with the
      type, and `n0, n1, ... = v` every name with the value, in order. */
  lemma SectionItemExpands(toks: seq<Token>, pos: nat, n0: string, names: seq<string>, end: nat, ty: TypeNode, v: int)
    requires ListAt(toks, pos, names) && end == pos + 2 * |names| && end <= |toks|
    requires Peek(toks, end) in {Eq, Col}
    ensures ParseIdentListRest(toks, pos, [n0]).Done?
    ensures var ids := ParseIdentListRest(toks, pos, [n0]).val;
      |VarDecls(ids, ty)| == |ConstDecls(ids, v)| == |names| + 1 &&
      VarDecls(ids, ty)[0] == VarDecl(n0, ty) && ConstDecls(ids, v)[0] == ConstDecl(n0, v) &&
      (forall i | 0 <= i < |names| :: VarDecls(ids, ty)[i + 1] == VarDecl(names[i], ty)) &&
      (forall i | 0 <= i < |names| :: ConstDecls(ids, v)[i + 1] == ConstDecl(names[i], v))
  {
    IdentListCollects(toks, pos, [n0], names, end);
    var ids := [n0] + names;
    assert forall i | 0 <= i < |names| :: ids[i + 1] == names[i];
  }

  /* Array types. */

  /** `array [ lo .. hi ] of integer`, with both bounds plain numbers, from
      `pos`. */
  predicate ArrayTypeAt(toks: seq<Token>, pos: nat) {
    pos + 8 <= |toks| &&
    toks[pos].kind == KwArr && toks[pos + 1].kind == LBra && toks[pos + 2].kind == Number &&
    toks[pos + 3].kind == DDot && toks[pos + 4].kind == Number && toks[pos + 5].kind == RBra &&
    toks[pos + 6].kind == KwOf && toks[pos + 7].kind == KwInt
  }

  /** An array type parses exactly when its upper bound exceeds its lower
      bound, and then holds both bounds and the element type. */
  lemma ArrayBounds(toks: seq<Token>, pos: nat, end: nat)
    requires ArrayTypeAt(toks, pos) && end == pos + 8
    ensures var lo, hi := toks[pos + 2].value, toks[pos + 4].value;
      ParseTypeIdent(toks, pos) ==
        if hi <= lo then Stuck(end) else Done(ArrType(lo, hi, IntType), end)
  {
    var p2, p4, p7 := pos + 2, pos + 4, pos + 7;
    assert ParseMinusNumber(toks, p2) == Done(toks[p2].value, p2 + 1);
    assert ParseMinusNumber(toks, p4) == Done(toks[p4].value, p4 + 1);
    assert ParseTypeIdent(toks, p7) == Done(IntType, end);
  }

  /* Assignments, calls and the other simple statements. */

  /** After an identifier, `[ I ]` makes the target an element of the
      array of that name. */
  lemma ElementTarget(toks: seq<Token>, pos: nat, n: string, p1: nat, i: Expr, m: nat, q: nat)
    requires pos <= |toks| && Peek(toks, pos) == LBra && p1 == pos + 1
    requires ParseExpr0(toks, p1) == Done(i, m) && Peek(toks, m) == RBra && q == m + 1
    ensures ParseStmtLvalIdent(toks, pos, n) == Done(ArrRef(n, i), q)
  {
    assert Match(toks, m, RBra) == Done(toks[m], q);
  }

  /** `x := V` appends the assignment of `V` to the target `x`. */
  lemma AssignParses(toks: seq<Token>, pos: nat, n: string, blk: Block, x: Expr, m: nat, m1: nat, v: Expr, q: nat)
    requires pos <= |toks| && Peek(toks, pos) in {Assgn, LBra}
    requires ParseStmtLvalIdent(toks, pos, n) == Done(x, m) && Peek(toks, m) == Assgn && m1 == m + 1
    requires ParseExpr0(toks, m1) == Done(v, q)
    ensures ParseStmtIdent(toks, pos, n, blk) == Done(Block(blk.decls, blk.stmts + [BinopStmt(Assgn, x, v)]), q)
  {
    assert Match(toks, m, Assgn) == Done(toks[m], m1);
  }

  /** `p(A1, ..., An)` appends a call statement holding the call the
      argument list builds. */
  lemma CallStmtParses(toks: seq<Token>, pos: nat, n: string, blk: Block, p1: nat, call: Expr, m: nat, q: nat)
    requires pos <= |toks| && Peek(toks, pos) == LPar && p1 == pos + 1
    requires ParseFunExprArgs(toks, p1, Call(n, [])) == Done(call, m) && Peek(toks, m) == RPar && q == m + 1
    ensures ParseStmtIdent(toks, pos, n, blk) == Done(Block(blk.decls, blk.stmts + [CallStmt(call)]), q)
  {
    assert Match(toks, m, RPar) == Done(toks[m], q);
  }

  /** `inc(x)` and `dec(x)` append a step of `x` by the literal one, and
      `readln(x)` a read of `x` with the `%d` format. */
  lemma CounterParses(toks: seq<Token>, pos: nat, k: Kind, blk: Block, p2: nat, x: Expr, m: nat, q: nat)
    requires pos + 2 <= |toks| && toks[pos].kind == LPar && toks[pos + 1].kind == Ident && p2 == pos + 2
    requires ParseStmtLvalIdent(toks, p2, toks[pos + 1].text) == Done(x, m) && Peek(toks, m) == RPar && q == m + 1
    ensures ParseCounterOrRead(toks, pos, k, blk) ==
      Done(Block(blk.decls, blk.stmts + [if k == KwReadln then Read("%d", x) else BinopStmt(k, x, IntLit(1))]), q)
  {
    assert Match(toks, pos, LPar) == Done(toks[pos], pos + 1);
    assert Match(toks, pos + 1, Ident) == Done(toks[pos + 1], p2);
    assert Match(toks, m, RPar) == Done(toks[m], q);
  }

  /** `write('text')` appends a write of the text with the `%s` format. */
  lemma WriteParses(toks: seq<Token>, pos: nat, blk: Block, q: nat)
    requires pos + 3 <= |toks| && q == pos + 3
    requires toks[pos].kind == LPar && toks[pos + 1].kind == Str && toks[pos + 2].kind == RPar
    ensures ParseWrite(toks, pos, blk) == Done(Block(blk.decls, blk.stmts + [Write("%s", StrLit(toks[pos + 1].text))]), q)
  {
    assert Match(toks, pos, LPar) == Done(toks[pos], pos + 1);
    assert Match(toks, pos + 1, Str) == Done(toks[pos + 1], pos + 2);
    assert Match(toks, pos + 2, RPar) == Done(toks[pos + 2], q);
  }

  /** `writeln(E)` appends a write of `E` with the `%d` and newline
      format. */
  lemma WritelnParses(toks: seq<Token>, pos: nat, blk: Block, p1: nat, e: Expr, m: nat, q: nat)
    requires pos < |toks| && toks[pos].kind == LPar && p1 == pos + 1
    requires ParseExpr0(toks, p1) == Done(e, m) && Peek(toks, m) == RPar && q == m + 1
    ensures ParseWriteln(toks, pos, blk) == Done(Block(blk.decls, blk.stmts + [Write("%d\n", e)]), q)
  {
    assert Match(toks, pos, LPar) == Done(toks[pos], p1);
    assert Match(toks, m, RPar) == Done(toks[m], q);
  }

  /* `if`. */

  /** `if C then S [else T]` appends a conditional whose branches are the
      blocks `S` and `T` are parsed into, each a block of its own. */
  lemma IfParses(toks: seq<Token>, pos: nat, blk: Block, c: Expr, m: nat, t: nat, th: Block, q: nat, el: Option<Block>, q2: nat)
    requires pos <= |toks|
    requires ParseExpr0(toks, pos) == Done(c, m) && Peek(toks, m) == KwThen && t == m + 1
    requires ParseStmt(toks, t, Block([], [])) == Done(th, q)
    requires ParseElseBranch(toks, q) == Done(el, q2)
    ensures ParseIf(toks, pos, blk) == Done(Block(blk.decls, blk.stmts + [If(c, th, el)]), q2)
  {
    assert Match(toks, m, KwThen) == Done(toks[m], t);
  }

  /** `else S` gives the block `S` is parsed into. */
  lemma ElseParses(toks: seq<Token>, pos: nat, p1: nat, el: Block, q: nat)
    requires pos <= |toks| && Peek(toks, pos) == KwElse && p1 == pos + 1
    requires ParseStmt(toks, p1, Block([], [])) == Done(el, q)
    ensures ParseElseBranch(toks, pos) == Done(Some(el), q)
  {
  }

  /* `while` and `for`. */

  /** `while C do S` becomes a loop around the block `S` is parsed into,
      which starts by leaving the loop when `C` does not hold. */
  lemma WhileDesugars(toks: seq<Token>, pos: nat, blk: Block, c: Expr, m: nat, d: nat, body: Block, q: nat)
    requires pos <= |toks|
    requires ParseExpr0(toks, pos) == Done(c, m) && Peek(toks, m) == KwDo && d == m + 1
    requires ParseStmt(toks, d, Block([], [Break(Unop(Not, c))])) == Done(body, q)
    ensures ParseWhile(toks, pos, blk) == Done(Block(blk.decls, blk.stmts + [Loop(body)]), q)
    ensures |body.stmts| > 0 && body.stmts[0] == Break(Unop(Not, c))
  {
    MatchNext(toks, m, KwDo, d);
    assert AddStmt(EmptyBlock, Break(Unop(Not, c))) == Block([], [Break(Unop(Not, c))]);
    WhileStep(toks, pos, blk, c, m, d, body, q);
    assert AddStmt(blk, Loop(body)) == Block(blk.decls, blk.stmts + [Loop(body)]);
    StmtKeepsPrefix(toks, d, Break(Unop(Not, c)), body, q);
  }

  lemma WhileStep(toks: seq<Token>, pos: nat, blk: Block, c: Expr, m: nat, d: nat, body: Block, q: nat)
    requires pos <= |toks| && ParseExpr0(toks, pos) == Done(c, m)
    requires m < |toks| && Match(toks, m, KwDo) == Done(toks[m], d)
    requires d <= |toks| && ParseStmt(toks, d, AddStmt(EmptyBlock, Break(Unop(Not, c)))) == Done(body, q)
    ensures ParseWhile(toks, pos, blk) == Done(AddStmt(blk, Loop(body)), q)
  {
  }

  /** A statement parsed into a block holding `s` keeps `s` first. */
  lemma StmtKeepsPrefix(toks: seq<Token>, d: nat, s: Stmt, body: Block, q: nat)
    requires d <= |toks| && ParseStmt(toks, d, Block([], [s])) == Done(body, q)
    ensures |body.stmts| > 0 && body.stmts[0] == s
  {
    assert Extends(Block([], [s]), body);
  }

  /** `for v := A to|downto B do S` becomes the assignment `v := A`
      followed by a loop around the block `S` is parsed into. That block
      starts by leaving the loop when `v` has passed `B` (`v > B` counting
      up, `v < B` counting down) and ends by stepping `v` by one. */
  lemma ForDesugars(toks: seq<Token>, pos: nat, blk: Block, v: string, p2: nat,
                    a: Expr, m1: nat, up: bool, p3: nat, b: Expr, m2: nat, d: nat, body: Block, q: nat)
    requires pos + 2 <= |toks| && p2 == pos + 2
    requires toks[pos].kind == Ident && toks[pos].text == v && toks[pos + 1].kind == Assgn
    requires ParseExpr0(toks, p2) == Done(a, m1)
    requires Peek(toks, m1) == (if up then KwTo else KwDownto) && p3 == m1 + 1
    requires ParseExpr0(toks, p3) == Done(b, m2) && Peek(toks, m2) == KwDo && d == m2 + 1
    requires ParseStmt(toks, d, Block([], [ForStop(v, up, b)])) == Done(body, q)
    ensures ParseFor(toks, pos, blk) ==
      Done(Block(blk.decls, blk.stmts + [BinopStmt(Assgn, Var(v), a),
                                         Loop(Block(body.decls, body.stmts + [ForStep(v, up)]))]), q)
    ensures |body.stmts| > 0 && body.stmts[0] == ForStop(v, up, b)
  {
    ForHeading(toks, pos, v, p2);
    assert ParseForDirection(toks, m1) == Done(up, p3);
    assert Match(toks, m2, KwDo) == Done(toks[m2], d);
    assert AddStmt(EmptyBlock, ForStop(v, up, b)) == Block([], [ForStop(v, up, b)]);
    StmtKeepsPrefix(toks, d, ForStop(v, up, b), body, q);
    var loop := Loop(AddStmt(body, ForStep(v, up)));
    assert loop == Loop(Block(body.decls, body.stmts + [ForStep(v, up)]));
    AddTwo(blk, BinopStmt(Assgn, Var(v), a), loop);
  }

  lemma AddTwo(blk: Block, s1: Stmt, s2: Stmt)
    ensures AddStmt(AddStmt(blk, s1), s2) == Block(blk.decls, blk.stmts + [s1, s2])
  {
    assert blk.stmts + [s1] + [s2] == blk.stmts + [s1, s2];
  }

  lemma ForHeading(toks: seq<Token>, pos: nat, v: string, p2: nat)
    requires pos + 2 <= |toks| && p2 == pos + 2
    requires toks[pos].kind == Ident && toks[pos].text == v && toks[pos + 1].kind == Assgn
    ensures Match(toks, pos, Ident) == Done(toks[pos], pos + 1)
    ensures Match(toks, pos + 1, Assgn) == Done(toks[pos + 1], p2)
  {
  }

  /** Parsing and lowering together: a `while` loop whose condition reads
      a variable never lowers unless its body block declares something,
      because the loop's block cannot see the variables around it. */
  lemma ParsedWhileOverVariableFails(toks: seq<Token>, pos: nat, blk: Block, c: Expr, m: nat, d: nat, body: Block, q: nat, t: Table)
    requires pos <= |toks|
    requires ParseExpr0(toks, pos) == Done(c, m) && Peek(toks, m) == KwDo && d == m + 1
    requires ParseStmt(toks, d, Block([], [Break(Unop(Not, c))])) == Done(body, q)
    requires VarNames(c) != {} && body.decls == []
    ensures ParseWhile(toks, pos, blk).Done?
    ensures LowerStmt(ParseWhile(toks, pos, blk).val.stmts[|blk.stmts|], t).None?
  {
    WhileDesugars(toks, pos, blk, c, m, d, body, q);
    assert ParseWhile(toks, pos, blk).val.stmts[|blk.stmts|] == Loop(body);
    assert body == Block([], body.stmts);
    UndeclaredBreakFails(body.stmts, 0, t);
  }
}
