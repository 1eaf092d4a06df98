/** The abstract syntax tree the parser builds (the `Ast*Node` classes in
    the ast/ directory), as immutable datatypes. Operator nodes keep the
    lexer token that produced them, as the source does. */
module Ast {
  import opened Tokens
  import opened Optional

  /** `AstIntTypeNode` and `AstArrTypeNode` (index bounds, element type). */
  datatype TypeNode = IntType | ArrType(lo: int, hi: int, elem: TypeNode)

  /** The expression nodes of ast/AstExprNode.cpp. */
  datatype Expr =
    | IntLit(value: int)
    | StrLit(text: string)
    | Var(name: string)
    | ArrRef(name: string, index: Expr)
    | Call(callee: string, args: seq<Expr>)
    | Unop(op: Kind, operand: Expr)
    | Binop(op: Kind, left: Expr, right: Expr)

  /** The statement nodes of ast/AstStmtNode.cpp. `BinopStmt` carries the
      assignment, `inc` or `dec` token; `CallStmt` wraps a `Call`; `Read` and
      `Write` carry the format string the parser chose. A nested
      `begin ... end` is not a node of its own: the parser adds its
      declarations and statements to the enclosing block. */
  datatype Stmt =
    | BinopStmt(op: Kind, lval: Expr, rval: Expr)
    | CallStmt(call: Expr)
    | If(cond: Expr, thenBlk: Block, elseBlk: Option<Block>)
    | Loop(body: Block)
    | Break(cond: Expr)
    | Exit
    | Read(fmt: string, target: Expr)
    | Write(fmt: string, arg: Expr)

  /** `AstBlkStmtNode`: local declarations, then statements. */
  datatype Block = Block(decls: seq<LocDecl>, stmts: seq<Stmt>)

  /** `AstConstDeclNode` and `AstVarDeclNode`. */
  datatype LocDecl = ConstDecl(name: string, value: int) | VarDecl(name: string, ty: TypeNode)

  /** `AstFunDeclNode`: no result type marks a procedure, no body a forward
      declaration. */
  datatype FunDecl = FunDecl(
    name: string,
    args: seq<(string, TypeNode)>,
    resType: Option<TypeNode>,
    body: Option<Block>)

  /** `AstProgDeclNode`: the program name and its functions in source order. */
  datatype ProgDecl = ProgDecl(name: string, funs: seq<FunDecl>)

  /** `clone` of the type nodes: a fresh node with the same bounds and a
      cloned element type. */
  function Clone(t: TypeNode): (r: TypeNode)
    ensures r == t
  {
    match t
    case IntType => IntType
    case ArrType(lo, hi, elem) => ArrType(lo, hi, Clone(elem))
  }

  predicate IsProcedure(f: FunDecl) {
    f.resType.None?
  }

  predicate IsForward(f: FunDecl) {
    f.body.None?
  }

  /** A newly constructed function declaration: no arguments, a procedure,
      forward until a body is set. */
  function NewFun(name: string): (f: FunDecl)
    ensures f.name == name && f.args == []
    ensures IsProcedure(f) && IsForward(f)
  {
    FunDecl(name, [], None, None)
  }

  /** `addArg` appends one argument and leaves the rest of the declaration. */
  function AddArg(f: FunDecl, name: string, t: TypeNode): (r: FunDecl)
    ensures |r.args| == |f.args| + 1 && r.args[|f.args|] == (name, t)
    ensures forall i :: 0 <= i < |f.args| ==> r.args[i] == f.args[i]
    ensures r.name == f.name && r.resType == f.resType && r.body == f.body
    ensures IsProcedure(r) == IsProcedure(f) && IsForward(r) == IsForward(f)
  {
    f.(args := f.args + [(name, t)])
  }

  /** `setResType` replaces the result type; none makes a procedure. */
  function SetResType(f: FunDecl, t: Option<TypeNode>): (r: FunDecl)
    ensures IsProcedure(r) <==> t.None?
    ensures r.resType == t
    ensures r.name == f.name && r.args == f.args && r.body == f.body
    ensures IsForward(r) == IsForward(f)
  {
    f.(resType := t)
  }

  /** `setBody` replaces the body; none makes a forward declaration. */
  function SetBody(f: FunDecl, b: Option<Block>): (r: FunDecl)
    ensures IsForward(r) <==> b.None?
    ensures r.body == b
    ensures r.name == f.name && r.args == f.args && r.resType == f.resType
    ensures IsProcedure(r) == IsProcedure(f)
  {
    f.(body := b)
  }

  /** `addDecl` appends a declaration to a block. */
  function AddDecl(b: Block, d: LocDecl): (r: Block)
    ensures |r.decls| == |b.decls| + 1 && r.decls[|b.decls|] == d
    ensures forall i :: 0 <= i < |b.decls| ==> r.decls[i] == b.decls[i]
    ensures r.stmts == b.stmts
  {
    b.(decls := b.decls + [d])
  }

  /** `addStmt` appends a statement to a block. */
  function AddStmt(b: Block, s: Stmt): (r: Block)
    ensures |r.stmts| == |b.stmts| + 1 && r.stmts[|b.stmts|] == s
    ensures forall i :: 0 <= i < |b.stmts| ==> r.stmts[i] == b.stmts[i]
    ensures r.decls == b.decls
  {
    b.(stmts := b.stmts + [s])
  }

  /** `AstFunExprNode::addArg` appends an argument to a call. */
  function AddCallArg(e: Expr, a: Expr): (r: Expr)
    requires e.Call?
    ensures r.Call? && r.callee == e.callee
    ensures |r.args| == |e.args| + 1 && r.args[|e.args|] == a
    ensures forall i :: 0 <= i < |e.args| ==> r.args[i] == e.args[i]
  {
    e.(args := e.args + [a])
  }

  /** `AstProgDeclNode::addFun` appends a function. */
  function AddFun(p: ProgDecl, f: FunDecl): (r: ProgDecl)
    ensures r.name == p.name
    ensures |r.funs| == |p.funs| + 1 && r.funs[|p.funs|] == f
    ensures forall i :: 0 <= i < |p.funs| ==> r.funs[i] == p.funs[i]
  {
    p.(funs := p.funs + [f])
  }

  /** Adding declarations one at a time, as the parser does. */
  function AddDecls(b: Block, ds: seq<LocDecl>): Block
    decreases |ds|
  {
    if |ds| == 0 then b else AddDecls(AddDecl(b, ds[0]), ds[1..])
  }

  /** Adding declarations one by one appends them all, in order. */
  lemma {:induction false} AddDeclsAppends(b: Block, ds: seq<LocDecl>)
    ensures AddDecls(b, ds) == Block(b.decls + ds, b.stmts)
    decreases |ds|
  {
    if |ds| > 0 {
      AddDeclsAppends(AddDecl(b, ds[0]), ds[1..]);
      assert b.decls + [ds[0]] + ds[1..] == b.decls + ds;
    } else {
      assert b.decls + ds == b.decls;
    }
  }
}
