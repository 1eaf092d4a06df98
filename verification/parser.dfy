/** The recursive-descent parser of parser/Parser.cpp over the token stream
    the lexer produces. Each `parse*` procedure becomes a function from a
    position in the stream to the value it builds and the position of the
    lookahead after it, or to the position of the lookahead where it gave
    up. The AST nodes the source mutates in place (the block being filled,
    the function being declared, the call receiving arguments) are threaded
    through as values. */
module Parser {
  import opened Tokens
  import opened Optional
  import opened Ast
  import Lexer

  /** The outcome of a parse procedure: its value and the lookahead position
      after it, or the lookahead position at which it failed. */
  datatype Parsed<+T> = Done(val: T, pos: nat) | Stuck(pos: nat) {
    predicate IsFailure() {
      Stuck?
    }

    function PropagateFailure<U>(): Parsed<U> {
      Stuck(pos)
    }

    function Extract(): (r: Parsed<T>)
      requires Done?
      ensures r == this
    {
      this
    }
  }

  /** The current token; past the end the lexer keeps answering `Eoi`. */
  function PeekTok(toks: seq<Token>, pos: nat): (t: Token)
    ensures pos >= |toks| ==> t.kind == Eoi
  {
    if pos < |toks| then toks[pos] else Sym(Eoi)
  }

  function Peek(toks: seq<Token>, pos: nat): (k: Kind)
    ensures k != Eoi ==> pos < |toks|
  {
    PeekTok(toks, pos).kind
  }

  /** `next`: move to the following token, staying at the end of input. */
  function Advance(toks: seq<Token>, pos: nat): (p: nat)
    requires pos <= |toks|
    ensures p <= |toks|
    ensures pos < |toks| ==> p == pos + 1
    ensures pos == |toks| ==> p == pos
  {
    if pos < |toks| then pos + 1 else pos
  }

  /** `match`: consume the current token when it has kind `k`, and fail
      without consuming anything otherwise. */
  function Match(toks: seq<Token>, pos: nat, k: Kind): (r: Parsed<Token>)
    requires pos <= |toks|
    ensures r.Done? <==> Peek(toks, pos) == k
    ensures r.Done? ==> r.val == PeekTok(toks, pos) && r.val.kind == k
    ensures r.Done? && k != Eoi ==> r.pos == pos + 1
    ensures r.Stuck? ==> r.pos == pos
    ensures pos <= r.pos <= |toks|
  {
    if Peek(toks, pos) == k then Done(PeekTok(toks, pos), Advance(toks, pos)) else Stuck(pos)
  }

  /** `match` on a token of the expected kind steps to `next`, the
      following position. */
  lemma MatchNext(toks: seq<Token>, pos: nat, k: Kind, next: nat)
    requires pos < |toks| && Peek(toks, pos) == k && next == pos + 1
    ensures Match(toks, pos, k) == Done(toks[pos], next)
  {
  }

  /** Tokens that may start an operand: an identifier, a number or a
      parenthesised expression. */
  predicate StartsOperand(k: Kind) {
    k in {Ident, Number, LPar}
  }

  /** Tokens that may start an expression: an operand or a leading minus. */
  predicate StartsExpr(k: Kind) {
    k in {Minus, Ident, Number, LPar}
  }

  predicate IsRelOp(k: Kind) {
    k in {Eq, Neq, Lt, Leq, Gt, Geq}
  }

  predicate IsAddOp(k: Kind) {
    k in {Plus, Minus}
  }

  predicate IsMulOp(k: Kind) {
    k in {Mult, Div, Mod}
  }

  /** The binary operators of all levels. */
  predicate IsBinOp(k: Kind) {
    k in {Or, And, Eq, Neq, Lt, Leq, Gt, Geq, Plus, Minus, Mult, Div, Mod}
  }

  /** The tokens that may follow a complete expression. */
  predicate EndsExpr0(k: Kind) {
    k in {RPar, RBra, Comma, SCol, KwThen, KwElse, KwDo, KwTo, KwDownto, KwEnd}
  }

  /** Tokens that open a block: its declaration sections or its body. */
  predicate StartsBlock(k: Kind) {
    k in {KwConst, KwVar, KwBegin}
  }

  /** The tokens that may follow an operand of each level: the follow set
      of the level above plus that level's own operators. */
  predicate EndsExpr1(k: Kind) {
    k == Or || EndsExpr0(k)
  }

  predicate EndsExpr2(k: Kind) {
    k == And || EndsExpr1(k)
  }

  predicate EndsExpr3(k: Kind) {
    IsRelOp(k) || EndsExpr2(k)
  }

  predicate EndsExpr4(k: Kind) {
    k == Plus || k == Minus || EndsExpr3(k)
  }

  predicate EndsExpr5(k: Kind) {
    k == Mult || k == Div || k == Mod || EndsExpr4(k)
  }

  /** `parseExpr0`: disjunctions. */
  function ParseExpr0(toks: seq<Token>, pos: nat): (r: Parsed<Expr>)
    requires pos <= |toks|
    ensures pos <= r.pos <= |toks|
    ensures r.Done? ==> pos < r.pos
    decreases |toks| - pos, 7
  {
    if StartsExpr(Peek(toks, pos)) then
      var l :- ParseExpr1(toks, pos);
      ParseExpr0Rest(toks, l.pos, l.val)
    else Stuck(pos)
  }

  /** `parseExpr0Rest`. Unlike every other level, a right operand of `or`
      that fails to parse does not fail the expression: the operator is
      dropped, the left operand is the result, and parsing carries on from
      wherever the failed operand left the lookahead. */
  function ParseExpr0Rest(toks: seq<Token>, pos: nat, lhs: Expr): (r: Parsed<Expr>)
    requires pos <= |toks|
    ensures pos <= r.pos <= |toks|
    decreases |toks| - pos, 1
  {
    var k := Peek(toks, pos);
    if k == Or then
      var rop := ParseExpr1(toks, pos + 1);
      if rop.Stuck? then Done(lhs, rop.pos)
      else ParseExpr0Rest(toks, rop.pos, Binop(Or, lhs, rop.val))
    else if EndsExpr0(k) then Done(lhs, pos)
    else Stuck(pos)
  }

  /** `parseExpr1`: conjunctions. */
  function ParseExpr1(toks: seq<Token>, pos: nat): (r: Parsed<Expr>)
    requires pos <= |toks|
    ensures pos <= r.pos <= |toks|
    ensures r.Done? ==> pos < r.pos
    decreases |toks| - pos, 6
  {
    if StartsExpr(Peek(toks, pos)) then
      var l :- ParseExpr2(toks, pos);
      ParseExpr1Rest(toks, l.pos, l.val)
    else Stuck(pos)
  }

  function ParseExpr1Rest(toks: seq<Token>, pos: nat, lhs: Expr): (r: Parsed<Expr>)
    requires pos <= |toks|
    ensures pos <= r.pos <= |toks|
    decreases |toks| - pos, 1
  {
    var k := Peek(toks, pos);
    if k == And then
      var rop :- ParseExpr2(toks, pos + 1);
      ParseExpr1Rest(toks, rop.pos, Binop(And, lhs, rop.val))
    else if EndsExpr1(k) then Done(lhs, pos)
    else Stuck(pos)
  }

  /** `parseExpr2`: at most one relational operator. */
  function ParseExpr2(toks: seq<Token>, pos: nat): (r: Parsed<Expr>)
    requires pos <= |toks|
    ensures pos <= r.pos <= |toks|
    ensures r.Done? ==> pos < r.pos
    decreases |toks| - pos, 5
  {
    if StartsExpr(Peek(toks, pos)) then
      var l :- ParseExpr3(toks, pos);
      ParseExpr2Rest(toks, l.pos, l.val)
    else Stuck(pos)
  }

  /** `parseExpr2Rest`: after one relational operator and its right operand
      the level is complete; it does not look at what follows. */
  function ParseExpr2Rest(toks: seq<Token>, pos: nat, lhs: Expr): (r: Parsed<Expr>)
    requires pos <= |toks|
    ensures pos <= r.pos <= |toks|
    decreases |toks| - pos, 1
  {
    var k := Peek(toks, pos);
    if IsRelOp(k) then
      var rop :- ParseExpr3(toks, pos + 1);
      Done(Binop(k, lhs, rop.val), rop.pos)
    else if EndsExpr2(k) then Done(lhs, pos)
    else Stuck(pos)
  }

  /** `parseExpr3`: sums; a leading minus negates the first term. */
  function ParseExpr3(toks: seq<Token>, pos: nat): (r: Parsed<Expr>)
    requires pos <= |toks|
    ensures pos <= r.pos <= |toks|
    ensures r.Done? ==> pos < r.pos
    decreases |toks| - pos, 4
  {
    var k := Peek(toks, pos);
    if StartsOperand(k) then
      var l :- ParseExpr4(toks, pos);
      ParseExpr3Rest(toks, l.pos, l.val)
    else if k == Minus then
      var l :- ParseExpr4(toks, pos + 1);
      ParseExpr3Rest(toks, l.pos, Unop(Minus, l.val))
    else Stuck(pos)
  }

  function ParseExpr3Rest(toks: seq<Token>, pos: nat, lhs: Expr): (r: Parsed<Expr>)
    requires pos <= |toks|
    ensures pos <= r.pos <= |toks|
    decreases |toks| - pos, 1
  {
    var k := Peek(toks, pos);
    if IsAddOp(k) then
      var rop :- ParseExpr4(toks, pos + 1);
      ParseExpr3Rest(toks, rop.pos, Binop(k, lhs, rop.val))
    else if EndsExpr3(k) then Done(lhs, pos)
    else Stuck(pos)
  }

  /** `parseExpr4`: products. */
  function ParseExpr4(toks: seq<Token>, pos: nat): (r: Parsed<Expr>)
    requires pos <= |toks|
    ensures pos <= r.pos <= |toks|
    ensures r.Done? ==> pos < r.pos
    decreases |toks| - pos, 3
  {
    if StartsOperand(Peek(toks, pos)) then
      var l :- ParseExpr5(toks, pos);
      ParseExpr4Rest(toks, l.pos, l.val)
    else Stuck(pos)
  }

  function ParseExpr4Rest(toks: seq<Token>, pos: nat, lhs: Expr): (r: Parsed<Expr>)
    requires pos <= |toks|
    ensures pos <= r.pos <= |toks|
    decreases |toks| - pos, 1
  {
    var k := Peek(toks, pos);
    if IsMulOp(k) then
      var rop :- ParseExpr5(toks, pos + 1);
      ParseExpr4Rest(toks, rop.pos, Binop(k, lhs, rop.val))
    else if EndsExpr4(k) then Done(lhs, pos)
    else Stuck(pos)
  }

  /** `parseExpr5`: identifiers, numbers and parenthesised expressions. */
  function ParseExpr5(toks: seq<Token>, pos: nat): (r: Parsed<Expr>)
    requires pos <= |toks|
    ensures pos <= r.pos <= |toks|
    ensures r.Done? ==> pos < r.pos
    decreases |toks| - pos, 2
  {
    var t := PeekTok(toks, pos);
    if t.kind == Ident then
      ParseExpr5Ident(toks, pos + 1, t.text)
    else if t.kind == Number then
      Done(IntLit(t.value), pos + 1)
    else if t.kind == LPar then
      var e :- ParseExpr0(toks, pos + 1);
      var c :- Match(toks, e.pos, RPar);
      Done(e.val, c.pos)
    else Stuck(pos)
  }

  /** `parseExpr5Ident`, after an identifier: a call, an array element, or
      a plain variable when an operator or a follow token comes next. */
  function ParseExpr5Ident(toks: seq<Token>, pos: nat, name: string): (r: Parsed<Expr>)
    requires pos <= |toks|
    ensures pos <= r.pos <= |toks|
    decreases |toks| - pos, 1
  {
    var k := Peek(toks, pos);
    if k == LPar then
      var call :- ParseFunExprArgs(toks, pos + 1, Call(name, []));
      var c :- Match(toks, call.pos, RPar);
      Done(call.val, c.pos)
    else if k == LBra then
      var i :- ParseExpr0(toks, pos + 1);
      var c :- Match(toks, i.pos, RBra);
      Done(ArrRef(name, i.val), c.pos)
    else if EndsExpr5(k) then Done(Var(name), pos)
    else Stuck(pos)
  }

  /** `parseFunExprArgs`: the arguments of a call, possibly none. */
  function ParseFunExprArgs(toks: seq<Token>, pos: nat, call: Expr): (r: Parsed<Expr>)
    requires pos <= |toks| && call.Call?
    ensures pos <= r.pos <= |toks|
    ensures r.Done? ==> r.val.Call? && r.val.callee == call.callee && call.args <= r.val.args
    decreases |toks| - pos, 8
  {
    var k := Peek(toks, pos);
    if StartsExpr(k) then
      var a :- ParseExpr0(toks, pos);
      ParseFunExprArgsRest(toks, a.pos, AddCallArg(call, a.val))
    else if k == RPar then Done(call, pos)
    else Stuck(pos)
  }

  function ParseFunExprArgsRest(toks: seq<Token>, pos: nat, call: Expr): (r: Parsed<Expr>)
    requires pos <= |toks| && call.Call?
    ensures pos <= r.pos <= |toks|
    ensures r.Done? ==> r.val.Call? && r.val.callee == call.callee && call.args <= r.val.args
    decreases |toks| - pos, 1
  {
    var k := Peek(toks, pos);
    if k == Comma then
      var a :- ParseExpr0(toks, pos + 1);
      ParseFunExprArgsRest(toks, a.pos, AddCallArg(call, a.val))
    else if k == RPar then Done(call, pos)
    else Stuck(pos)
  }

  /** `parseMinusNumber`: an integer literal, optionally negated. */
  function ParseMinusNumber(toks: seq<Token>, pos: nat): (r: Parsed<int>)
    requires pos <= |toks|
    ensures pos <= r.pos <= |toks|
    ensures r.Done? ==> pos < r.pos
    ensures r.Done? && Peek(toks, pos) == Number ==> r.val == toks[pos].value && r.pos == pos + 1
    ensures r.Done? && Peek(toks, pos) == Minus
         ==> Peek(toks, pos + 1) == Number && r.val == -toks[pos + 1].value && r.pos == pos + 2
    ensures r.Done? ==> Peek(toks, pos) in {Number, Minus}
  {
    var t := PeekTok(toks, pos);
    if t.kind == Minus then
      var n :- Match(toks, pos + 1, Number);
      Done(-n.val.value, n.pos)
    else if t.kind == Number then Done(t.value, pos + 1)
    else Stuck(pos)
  }

  /** `parseTypeIdent`: `integer`, or `array [lo .. hi] of` a type, where
      the range must not be empty or a single element (`hi <= lo` fails). */
  function ParseTypeIdent(toks: seq<Token>, pos: nat): (r: Parsed<TypeNode>)
    requires pos <= |toks|
    ensures pos <= r.pos <= |toks|
    ensures r.Done? ==> pos < r.pos
    ensures r.Done? && r.val.ArrType? ==> r.val.lo < r.val.hi
    decreases |toks| - pos
  {
    var k := Peek(toks, pos);
    if k == KwInt then Done(IntType, pos + 1)
    else if k == KwArr then
      var l :- Match(toks, pos + 1, LBra);
      var lo :- ParseMinusNumber(toks, l.pos);
      var dd :- Match(toks, lo.pos, DDot);
      var hi :- ParseMinusNumber(toks, dd.pos);
      var rb :- Match(toks, hi.pos, RBra);
      var of :- Match(toks, rb.pos, KwOf);
      var elem :- ParseTypeIdent(toks, of.pos);
      if hi.val <= lo.val then Stuck(elem.pos)
      else Done(ArrType(lo.val, hi.val, elem.val), elem.pos)
    else Stuck(pos)
  }

  /** `parseIdentListRest`: further `, name` items of an identifier list,
      ended by `=` or `:`. */
  function ParseIdentListRest(toks: seq<Token>, pos: nat, ids: seq<string>): (r: Parsed<seq<string>>)
    requires pos <= |toks|
    ensures pos <= r.pos <= |toks|
    ensures r.Done? ==> ids <= r.val && Peek(toks, r.pos) in {Eq, Col}
    decreases |toks| - pos
  {
    var k := Peek(toks, pos);
    if k == Comma then
      var id :- Match(toks, pos + 1, Ident);
      ParseIdentListRest(toks, id.pos, ids + [id.val.text])
    else if k == Eq || k == Col then Done(ids, pos)
    else Stuck(pos)
  }

  /** The `addDecl` loop of a constant item: one constant declaration per
      identifier, in order, all with the same value. */
  function ConstDecls(ids: seq<string>, v: int): (ds: seq<LocDecl>)
    ensures |ds| == |ids|
    ensures forall i :: 0 <= i < |ids| ==> ds[i] == ConstDecl(ids[i], v)
    decreases |ids|
  {
    if |ids| == 0 then [] else [ConstDecl(ids[0], v)] + ConstDecls(ids[1..], v)
  }

  /** One variable declaration per identifier: the first owns the parsed
      type, every other one gets a clone of it. */
  function VarDecls(ids: seq<string>, t: TypeNode): (ds: seq<LocDecl>)
    ensures |ds| == |ids|
    ensures forall i :: 0 <= i < |ids| ==> ds[i] == VarDecl(ids[i], t)
  {
    if |ids| == 0 then []
    else
      var ds := [VarDecl(ids[0], t)] + seq(|ids| - 1, i requires 0 <= i < |ids| - 1 => VarDecl(ids[i + 1], Clone(t)));
      assert forall i :: 1 <= i < |ids| ==> ds[i] == VarDecl(ids[i], Clone(t));
      ds
  }

  /** `b2` is `b` with declarations and statements appended. */
  predicate Extends(b: Block, b2: Block) {
    b.decls <= b2.decls && b.stmts <= b2.stmts
  }

  /** `parseDeclsLoc`: `const` and `var` sections up to `begin`. */
  function ParseDeclsLoc(toks: seq<Token>, pos: nat, blk: Block): (r: Parsed<Block>)
    requires pos <= |toks|
    ensures pos <= r.pos <= |toks|
    ensures r.Done? ==> blk.decls <= r.val.decls && r.val.stmts == blk.stmts
    ensures r.Done? ==> Peek(toks, r.pos) == KwBegin
    decreases |toks| - pos
  {
    var k := Peek(toks, pos);
    if k == KwConst then
      var sect :- ParseConstSection(toks, pos + 1, blk);
      ParseDeclsLoc(toks, sect.pos, sect.val)
    else if k == KwVar then
      var sect :- ParseVarSection(toks, pos + 1, blk);
      ParseDeclsLoc(toks, sect.pos, sect.val)
    else if k == KwBegin then Done(blk, pos)
    else Stuck(pos)
  }

  /** The `const` branch of `parseDeclsLoc` after the keyword: the first
      `names = number;` item, then `parseConstDeclRest`. */
  function ParseConstSection(toks: seq<Token>, pos: nat, blk: Block): (r: Parsed<Block>)
    requires pos <= |toks|
    ensures pos <= r.pos <= |toks|
    ensures r.Done? ==> pos < r.pos && blk.decls <= r.val.decls && r.val.stmts == blk.stmts
  {
    var id :- Match(toks, pos, Ident);
    var ids :- ParseIdentListRest(toks, id.pos, [id.val.text]);
    var eq :- Match(toks, ids.pos, Eq);
    var v :- ParseMinusNumber(toks, eq.pos);
    var sc :- Match(toks, v.pos, SCol);
    ParseConstDeclRest(toks, sc.pos, AddDeclsAppend(blk, ConstDecls(ids.val, v.val)))
  }

  /** The `var` branch of `parseDeclsLoc` after the keyword: the first
      `names : type;` item, then `parseVarDeclRest`. */
  function ParseVarSection(toks: seq<Token>, pos: nat, blk: Block): (r: Parsed<Block>)
    requires pos <= |toks|
    ensures pos <= r.pos <= |toks|
    ensures r.Done? ==> pos < r.pos && blk.decls <= r.val.decls && r.val.stmts == blk.stmts
  {
    var id :- Match(toks, pos, Ident);
    var ids :- ParseIdentListRest(toks, id.pos, [id.val.text]);
    var col :- Match(toks, ids.pos, Col);
    var t :- ParseTypeIdent(toks, col.pos);
    var sc :- Match(toks, t.pos, SCol);
    ParseVarDeclRest(toks, sc.pos, AddDeclsAppend(blk, VarDecls(ids.val, t.val)))
  }

  /** The parser's `addDecl` loop over a declaration list. */
  function AddDeclsAppend(blk: Block, ds: seq<LocDecl>): (r: Block)
    ensures r == Block(blk.decls + ds, blk.stmts)
  {
    AddDeclsAppends(blk, ds);
    AddDecls(blk, ds)
  }

  /** `parseConstDeclRest`: further `names = number;` items. */
  function ParseConstDeclRest(toks: seq<Token>, pos: nat, blk: Block): (r: Parsed<Block>)
    requires pos <= |toks|
    ensures pos <= r.pos <= |toks|
    ensures r.Done? ==> blk.decls <= r.val.decls && r.val.stmts == blk.stmts
    decreases |toks| - pos
  {
    var k := Peek(toks, pos);
    if k == Ident then
      var ids :- ParseIdentListRest(toks, pos + 1, [PeekTok(toks, pos).text]);
      var eq :- Match(toks, ids.pos, Eq);
      var v :- ParseMinusNumber(toks, eq.pos);
      var sc :- Match(toks, v.pos, SCol);
      ParseConstDeclRest(toks, sc.pos, AddDeclsAppend(blk, ConstDecls(ids.val, v.val)))
    else if StartsBlock(k) then Done(blk, pos)
    else Stuck(pos)
  }

  /** `parseVarDeclRest`: further `names : type;` items. */
  function ParseVarDeclRest(toks: seq<Token>, pos: nat, blk: Block): (r: Parsed<Block>)
    requires pos <= |toks|
    ensures pos <= r.pos <= |toks|
    ensures r.Done? ==> blk.decls <= r.val.decls && r.val.stmts == blk.stmts
    decreases |toks| - pos
  {
    var k := Peek(toks, pos);
    if k == Ident then
      var ids :- ParseIdentListRest(toks, pos + 1, [PeekTok(toks, pos).text]);
      var col :- Match(toks, ids.pos, Col);
      var t :- ParseTypeIdent(toks, col.pos);
      var sc :- Match(toks, t.pos, SCol);
      ParseVarDeclRest(toks, sc.pos, AddDeclsAppend(blk, VarDecls(ids.val, t.val)))
    else if StartsBlock(k) then Done(blk, pos)
    else Stuck(pos)
  }

  const EmptyBlock := Block([], [])

  /** `parseBlock`: declarations, then `begin` statements `end`, all added
      to `blk`. */
  function ParseBlock(toks: seq<Token>, pos: nat, blk: Block): (r: Parsed<Block>)
    requires pos <= |toks|
    ensures pos <= r.pos <= |toks|
    ensures r.Done? ==> pos < r.pos && Extends(blk, r.val)
    decreases |toks| - pos, 2
  {
    if StartsBlock(Peek(toks, pos)) then
      var d :- ParseDeclsLoc(toks, pos, blk);
      var b :- Match(toks, d.pos, KwBegin);
      var s :- ParseStmt(toks, b.pos, d.val);
      var rest :- ParseBlockRest(toks, s.pos, s.val);
      var e :- Match(toks, rest.pos, KwEnd);
      Done(rest.val, e.pos)
    else Stuck(pos)
  }

  /** `parseBlockRest`: further `; statement` items up to `end`. */
  function ParseBlockRest(toks: seq<Token>, pos: nat, blk: Block): (r: Parsed<Block>)
    requires pos <= |toks|
    ensures pos <= r.pos <= |toks|
    ensures r.Done? ==> Extends(blk, r.val) && Peek(toks, r.pos) == KwEnd
    decreases |toks| - pos, 1
  {
    var k := Peek(toks, pos);
    if k == SCol then
      var s :- ParseStmt(toks, pos + 1, blk);
      ParseBlockRest(toks, s.pos, s.val)
    else if k == KwEnd then Done(blk, pos)
    else Stuck(pos)
  }

  /** `parseStmt`: one statement, added to `blk` after the parser's own
      desugaring; a nested block adds its declarations and statements to
      `blk` itself; before `;` or `end` the statement is empty. */
  function ParseStmt(toks: seq<Token>, pos: nat, blk: Block): (r: Parsed<Block>)
    requires pos <= |toks|
    ensures pos <= r.pos <= |toks|
    ensures r.Done? ==> Extends(blk, r.val)
    ensures Peek(toks, pos) == KwExit ==> r == Done(Block(blk.decls, blk.stmts + [Exit]), pos + 1)
    ensures Peek(toks, pos) in {SCol, KwEnd} ==> r == Done(blk, pos)
    ensures r.Done? && r.pos == pos ==> r.val == blk && Peek(toks, pos) in {SCol, KwEnd}
    decreases |toks| - pos, 3
  {
    var t := PeekTok(toks, pos);
    var k := t.kind;
    if k == Ident then
      ParseStmtIdent(toks, pos + 1, t.text, blk)
    else if k == KwIf then
      ParseIf(toks, pos + 1, blk)
    else if k == KwWhile then
      ParseWhile(toks, pos + 1, blk)
    else if k == KwFor then
      ParseFor(toks, pos + 1, blk)
    else if k == KwExit then
      Done(AddStmt(blk, Exit), pos + 1)
    else if StartsBlock(k) then
      ParseBlock(toks, pos, blk)
    else if k == KwInc || k == KwDec || k == KwReadln then
      ParseCounterOrRead(toks, pos + 1, k, blk)
    else if k == KwWrite then
      ParseWrite(toks, pos + 1, blk)
    else if k == KwWriteln then
      ParseWriteln(toks, pos + 1, blk)
    else if k == SCol || k == KwEnd then Done(blk, pos)
    else Stuck(pos)
  }

  /** After `if`: condition, `then`, a statement in a block of its own and
      the optional `else` branch. */
  function ParseIf(toks: seq<Token>, pos: nat, blk: Block): (r: Parsed<Block>)
    requires pos <= |toks|
    ensures pos <= r.pos <= |toks|
    ensures r.Done? ==> r.val.decls == blk.decls && blk.stmts <= r.val.stmts
    ensures r.Done? ==> |r.val.stmts| == |blk.stmts| + 1 && r.val.stmts[|blk.stmts|].If?
    decreases |toks| - pos, 2
  {
    var c :- ParseExpr0(toks, pos);
    var th :- Match(toks, c.pos, KwThen);
    var body :- ParseStmt(toks, th.pos, EmptyBlock);
    var el :- ParseElseBranch(toks, body.pos);
    Done(AddStmt(blk, If(c.val, body.val, el.val)), el.pos)
  }

  /** After `while`: a loop whose body starts by leaving the loop when the
      condition does not hold. */
  function ParseWhile(toks: seq<Token>, pos: nat, blk: Block): (r: Parsed<Block>)
    requires pos <= |toks|
    ensures pos <= r.pos <= |toks|
    ensures r.Done? ==> r.val.decls == blk.decls && blk.stmts <= r.val.stmts
    ensures r.Done? ==> |r.val.stmts| == |blk.stmts| + 1 && r.val.stmts[|blk.stmts|].Loop?
    decreases |toks| - pos, 2
  {
    var c :- ParseExpr0(toks, pos);
    var d :- Match(toks, c.pos, KwDo);
    var body :- ParseStmt(toks, d.pos, AddStmt(EmptyBlock, Break(Unop(Not, c.val))));
    Done(AddStmt(blk, Loop(body.val)), body.pos)
  }

  /** After `for`: the assignment of the start value, then a loop that
      leaves when the variable passes the limit, runs the body and steps
      the variable up (`to`) or down (`downto`). */
  function ParseFor(toks: seq<Token>, pos: nat, blk: Block): (r: Parsed<Block>)
    requires pos <= |toks|
    ensures pos <= r.pos <= |toks|
    ensures r.Done? ==> r.val.decls == blk.decls && blk.stmts <= r.val.stmts
    ensures r.Done? ==> |r.val.stmts| == |blk.stmts| + 2 && r.val.stmts[|blk.stmts| + 1].Loop?
    decreases |toks| - pos, 2
  {
    var v :- Match(toks, pos, Ident);
    var a :- Match(toks, v.pos, Assgn);
    var from :- ParseExpr0(toks, a.pos);
    var up :- ParseForDirection(toks, from.pos);
    var to :- ParseExpr0(toks, up.pos);
    var d :- Match(toks, to.pos, KwDo);
    var name := v.val.text;
    var stop := Break(Binop(if up.val then Gt else Lt, Var(name), to.val));
    var body :- ParseStmt(toks, d.pos, AddStmt(EmptyBlock, stop));
    var step := BinopStmt(if up.val then KwInc else KwDec, Var(name), IntLit(1));
    var init := BinopStmt(Assgn, Var(name), from.val);
    Done(AddStmt(AddStmt(blk, init), Loop(AddStmt(body.val, step))), body.pos)
  }

  /** After `inc`, `dec` or `readln`: a parenthesised variable or array
      element, incremented, decremented or read. */
  function ParseCounterOrRead(toks: seq<Token>, pos: nat, k: Kind, blk: Block): (r: Parsed<Block>)
    requires pos <= |toks|
    ensures pos <= r.pos <= |toks|
    ensures r.Done? ==> r.val.decls == blk.decls && blk.stmts <= r.val.stmts
    ensures r.Done? ==> |r.val.stmts| == |blk.stmts| + 1
    ensures r.Done? ==> (r.val.stmts[|blk.stmts|].Read? <==> k == KwReadln)
  {
    var l :- Match(toks, pos, LPar);
    var id :- Match(toks, l.pos, Ident);
    var lv :- ParseStmtLvalIdent(toks, id.pos, id.val.text);
    var rp :- Match(toks, lv.pos, RPar);
    if k == KwReadln then Done(AddStmt(blk, Read("%d", lv.val)), rp.pos)
    else Done(AddStmt(blk, BinopStmt(k, lv.val, IntLit(1))), rp.pos)
  }

  /** After `write`: a parenthesised string literal, printed as it is. */
  function ParseWrite(toks: seq<Token>, pos: nat, blk: Block): (r: Parsed<Block>)
    requires pos <= |toks|
    ensures pos <= r.pos <= |toks|
    ensures r.Done? ==> r.val.decls == blk.decls && blk.stmts <= r.val.stmts
    ensures r.Done? ==> |r.val.stmts| == |blk.stmts| + 1 && r.val.stmts[|blk.stmts|].Write?
  {
    var l :- Match(toks, pos, LPar);
    var s :- Match(toks, l.pos, Str);
    var rp :- Match(toks, s.pos, RPar);
    Done(AddStmt(blk, Write("%s", StrLit(s.val.text))), rp.pos)
  }

  /** After `writeln`: a parenthesised expression, printed as a decimal
      number and a newline. */
  function ParseWriteln(toks: seq<Token>, pos: nat, blk: Block): (r: Parsed<Block>)
    requires pos <= |toks|
    ensures pos <= r.pos <= |toks|
    ensures r.Done? ==> r.val.decls == blk.decls && blk.stmts <= r.val.stmts
    ensures r.Done? ==> |r.val.stmts| == |blk.stmts| + 1 && r.val.stmts[|blk.stmts|].Write?
  {
    var l :- Match(toks, pos, LPar);
    var e :- ParseExpr0(toks, l.pos);
    var rp :- Match(toks, e.pos, RPar);
    Done(AddStmt(blk, Write("%d\n", e.val)), rp.pos)
  }

  /** `parseStmtIdent`, after an identifier: an assignment to a variable or
      array element, or a procedure call. */
  function ParseStmtIdent(toks: seq<Token>, pos: nat, name: string, blk: Block): (r: Parsed<Block>)
    requires pos <= |toks|
    ensures pos <= r.pos <= |toks|
    ensures r.Done? ==> r.val.decls == blk.decls && |r.val.stmts| == |blk.stmts| + 1 && blk.stmts <= r.val.stmts
  {
    var k := Peek(toks, pos);
    if k == Assgn || k == LBra then
      var lv :- ParseStmtLvalIdent(toks, pos, name);
      var a :- Match(toks, lv.pos, Assgn);
      var v :- ParseExpr0(toks, a.pos);
      Done(AddStmt(blk, BinopStmt(Assgn, lv.val, v.val)), v.pos)
    else if k == LPar then
      var call :- ParseFunExprArgs(toks, pos + 1, Call(name, []));
      var rp :- Match(toks, call.pos, RPar);
      Done(AddStmt(blk, CallStmt(call.val)), rp.pos)
    else Stuck(pos)
  }

  /** `parseStmtLvalIdent`: an array element, or the variable itself before
      `:=` or `)`. */
  function ParseStmtLvalIdent(toks: seq<Token>, pos: nat, name: string): (r: Parsed<Expr>)
    requires pos <= |toks|
    ensures pos <= r.pos <= |toks|
    ensures r.Done? ==> (r.val.Var? || r.val.ArrRef?) && r.val.name == name
    ensures r == Done(Var(name), pos) <==> Peek(toks, pos) in {Assgn, RPar}
    ensures r.Done? && r.val.ArrRef? ==> Peek(toks, pos) == LBra && pos < r.pos && Peek(toks, r.pos - 1) == RBra
  {
    var k := Peek(toks, pos);
    if k == LBra then
      var i :- ParseExpr0(toks, pos + 1);
      var c :- Match(toks, i.pos, RBra);
      Done(ArrRef(name, i.val), c.pos)
    else if k == Assgn || k == RPar then Done(Var(name), pos)
    else Stuck(pos)
  }

  /** `parseElseBranch`: an `else` statement in a block of its own, or
      nothing before `;` or `end`. */
  function ParseElseBranch(toks: seq<Token>, pos: nat): (r: Parsed<Option<Block>>)
    requires pos <= |toks|
    ensures pos <= r.pos <= |toks|
    ensures r.Done? && r.val.None? ==> Peek(toks, pos) in {SCol, KwEnd} && r.pos == pos
    ensures Peek(toks, pos) in {SCol, KwEnd} ==> r == Done(None, pos)
    ensures r.Done? ==> (r.val.Some? <==> Peek(toks, pos) == KwElse)
    decreases |toks| - pos, 1
  {
    var k := Peek(toks, pos);
    if k == KwElse then
      var s :- ParseStmt(toks, pos + 1, EmptyBlock);
      Done(Some(s.val), s.pos)
    else if k == SCol || k == KwEnd then Done(None, pos)
    else Stuck(pos)
  }

  /** `parseForDirection`: `to` counts up, `downto` counts down. */
  function ParseForDirection(toks: seq<Token>, pos: nat): (r: Parsed<bool>)
    requires pos <= |toks|
    ensures pos <= r.pos <= |toks|
    ensures r.Done? <==> Peek(toks, pos) in {KwTo, KwDownto}
    ensures r.Done? ==> r.pos == pos + 1 && (r.val <==> Peek(toks, pos) == KwTo)
  {
    var k := Peek(toks, pos);
    if k == KwTo then Done(true, pos + 1)
    else if k == KwDownto then Done(false, pos + 1)
    else Stuck(pos)
  }

  /** `parseFunDeclArgs`: the formal parameters `name : type`, separated by
      `;`, possibly none. */
  function ParseFunDeclArgs(toks: seq<Token>, pos: nat, fun: FunDecl): (r: Parsed<FunDecl>)
    requires pos <= |toks|
    ensures pos <= r.pos <= |toks|
    ensures r.Done? ==> fun.args <= r.val.args && r.val.name == fun.name
    ensures r.Done? ==> r.val.resType == fun.resType && r.val.body == fun.body
    ensures r.Done? ==> Peek(toks, r.pos) == RPar
  {
    var t := PeekTok(toks, pos);
    if t.kind == Ident then
      var c :- Match(toks, pos + 1, Col);
      var ty :- ParseTypeIdent(toks, c.pos);
      ParseFunDeclArgsRest(toks, ty.pos, AddArg(fun, t.text, ty.val))
    else if t.kind == RPar then Done(fun, pos)
    else Stuck(pos)
  }

  function ParseFunDeclArgsRest(toks: seq<Token>, pos: nat, fun: FunDecl): (r: Parsed<FunDecl>)
    requires pos <= |toks|
    ensures pos <= r.pos <= |toks|
    ensures r.Done? ==> fun.args <= r.val.args && r.val.name == fun.name
    ensures r.Done? ==> r.val.resType == fun.resType && r.val.body == fun.body
    ensures r.Done? ==> Peek(toks, r.pos) == RPar
    decreases |toks| - pos
  {
    var k := Peek(toks, pos);
    if k == SCol then
      var id :- Match(toks, pos + 1, Ident);
      var c :- Match(toks, id.pos, Col);
      var ty :- ParseTypeIdent(toks, c.pos);
      ParseFunDeclArgsRest(toks, ty.pos, AddArg(fun, id.val.text, ty.val))
    else if k == RPar then Done(fun, pos)
    else Stuck(pos)
  }

  /** `parseFunDeclBody`: a block, or `forward` which leaves no body. */
  function ParseFunDeclBody(toks: seq<Token>, pos: nat, fun: FunDecl): (r: Parsed<FunDecl>)
    requires pos <= |toks|
    ensures pos <= r.pos <= |toks|
    ensures r.Done? ==> r.val.name == fun.name && r.val.args == fun.args && r.val.resType == fun.resType
    ensures r.Done? && Peek(toks, pos) == KwFwd ==> r.val == fun && r.pos == pos + 1
    ensures r.Done? && Peek(toks, pos) != KwFwd ==> !IsForward(r.val)
  {
    var k := Peek(toks, pos);
    if StartsBlock(k) then
      var b :- ParseBlock(toks, pos, EmptyBlock);
      Done(SetBody(fun, Some(b.val)), b.pos)
    else if k == KwFwd then Done(fun, pos + 1)
    else Stuck(pos)
  }

  /** `parseDeclsGlob`: function and procedure declarations, each appended
      to the program, up to the main block. */
  function ParseDeclsGlob(toks: seq<Token>, pos: nat, prog: ProgDecl): (r: Parsed<ProgDecl>)
    requires pos <= |toks|
    ensures pos <= r.pos <= |toks|
    ensures r.Done? ==> r.val.name == prog.name && prog.funs <= r.val.funs
    ensures r.Done? ==> StartsBlock(Peek(toks, r.pos))
    decreases |toks| - pos
  {
    var k := Peek(toks, pos);
    if k == KwFunc || k == KwProc then
      var fun :- ParseFunDecl(toks, pos + 1, k == KwFunc);
      ParseDeclsGlob(toks, fun.pos, AddFun(prog, fun.val))
    else if StartsBlock(k) then Done(prog, pos)
    else Stuck(pos)
  }

  /** One function or procedure declaration after its keyword: name,
      parameters, result type (functions only), `;`, body or `forward`, `;`. */
  function ParseFunDecl(toks: seq<Token>, pos: nat, isFunction: bool): (r: Parsed<FunDecl>)
    requires pos <= |toks|
    ensures pos <= r.pos <= |toks|
    ensures r.Done? ==> pos < r.pos && (r.val.resType.Some? <==> isFunction)
  {
    var id :- Match(toks, pos, Ident);
    var lp :- Match(toks, id.pos, LPar);
    var withArgs :- ParseFunDeclArgs(toks, lp.pos, NewFun(id.val.text));
    var rp :- Match(toks, withArgs.pos, RPar);
    var res :- ParseResult(toks, rp.pos, isFunction);
    var sc :- Match(toks, res.pos, SCol);
    var body :- ParseFunDeclBody(toks, sc.pos, withArgs.val);
    var sc2 :- Match(toks, body.pos, SCol);
    Done(SetResType(body.val, res.val), sc2.pos)
  }

  /** The `: type` part of a function header (absent for a procedure). */
  function ParseResult(toks: seq<Token>, pos: nat, isFunction: bool): (r: Parsed<Option<TypeNode>>)
    requires pos <= |toks|
    ensures pos <= r.pos <= |toks|
    ensures r.Done? ==> (r.val.Some? <==> isFunction)
    ensures !isFunction ==> r == Done(None, pos)
  {
    if isFunction then
      var c :- Match(toks, pos, Col);
      var t :- ParseTypeIdent(toks, c.pos);
      Done(Some(t.val), t.pos)
    else Done(None, pos)
  }

  /** The function the parser appends for the main block: `main`, with an
      integer result and the block as body. */
  function MainFun(blk: Block): (f: FunDecl)
    ensures f.name == "main" && f.args == [] && f.resType == Some(IntType) && f.body == Some(blk)
  {
    SetBody(SetResType(NewFun("main"), Some(IntType)), Some(blk))
  }

  /** `parseProgram`: `program name;`, the global declarations, the main
      block, `.` and the end of input. */
  function ParseProgram(toks: seq<Token>): (r: Parsed<ProgDecl>)
    ensures r.pos <= |toks|
    ensures r.Done? ==> |r.val.funs| > 0
    ensures r.Done? ==>
      var m := r.val.funs[|r.val.funs| - 1];
      m.name == "main" && m.args == [] && m.resType == Some(IntType) && !IsForward(m)
    ensures r.Done? ==> 1 < |toks| && toks[0].kind == KwProg && toks[1].kind == Ident && r.val.name == toks[1].text
  {
    if Peek(toks, 0) == KwProg then
      var id :- Match(toks, 1, Ident);
      var sc :- Match(toks, id.pos, SCol);
      var globals :- ParseDeclsGlob(toks, sc.pos, ProgDecl(id.val.text, []));
      var blk :- ParseBlock(toks, globals.pos, EmptyBlock);
      var dot :- Match(toks, blk.pos, Dot);
      var eoi :- Match(toks, dot.pos, Eoi);
      Done(AddFun(globals.val, MainFun(blk.val)), eoi.pos)
    else Stuck(0)
  }

  /** `parse`: the program, or failure. A parsed program is named by the
      identifier after `program`, and its last function is `main`: no
      arguments, an integer result and a body. */
  function Parse(toks: seq<Token>): (r: Option<ProgDecl>)
    ensures r.Some? <==> ParseProgram(toks).Done?
    ensures r.Some? ==> r.value == ParseProgram(toks).val
    ensures r.Some? ==> 1 < |toks| && toks[0].kind == KwProg && toks[1].kind == Ident && r.value.name == toks[1].text
    ensures r.Some? ==> |r.value.funs| > 0
    ensures r.Some? ==>
      var m := r.value.funs[|r.value.funs| - 1];
      m.name == "main" && m.args == [] && m.resType == Some(IntType) && !IsForward(m)
  {
    match ParseProgram(toks)
    case Done(p, _) => Some(p)
    case Stuck(_) => None
  }

  /** Lexing and parsing a whole source text. */
  function ParseSource(src: string): (r: Option<ProgDecl>)
    ensures r.Some? ==> Lexer.Tokenize(src).Some?
    ensures r.Some? ==> r == Parse(Lexer.Tokenize(src).value)
    ensures r.Some? ==> |r.value.funs| > 0
    ensures r.Some? ==>
      var m := r.value.funs[|r.value.funs| - 1];
      m.name == "main" && m.args == [] && m.resType == Some(IntType) && !IsForward(m)
  {
    var toks :- Lexer.Tokenize(src);
    Parse(toks)
  }
}
