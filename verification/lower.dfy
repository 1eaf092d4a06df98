/** Lowering of the AST to the abstract IR: the `translate` methods of the
    ast/ directory as a checked translation. Every `translate` returns
    `false` on failure, and here returns `None`. Statements and expressions
    only read the symbol table, so their lowering returns the IR alone.
    Declarations register names, so their lowering also returns the
    updated table. */
module Lower {
  import opened Optional
  import opened Tokens
  import opened Ast
  import opened Parser
  import opened Ir
  import opened SymTable

  /* Types (ast/AstTypeNode.cpp). */

  /** `integer` becomes the integer type. An array becomes an array of its
      lowered element type, and its index type is built from
      `end - begin + 1`, which GCC takes as the largest index: the indices
      run from 0 to `end - begin + 1`. The source's `translate` reports
      success for every type, so the result here is the type itself. */
  function LowerType(ty: TypeNode): (r: IrType)
    ensures r.ArrayTy? <==> ty.ArrType?
  {
    match ty
    case IntType => IntTy
    case ArrType(lo, hi, elem) => ArrayTy(LowerType(elem), hi - lo + 1)
  }

  /* Operator tokens to tree codes. */

  /** The code of a binary operator token. Every binary operator of the
      grammar has one, and no other token has one. */
  function BinCodeOf(k: Kind): (c: Option<BinCode>)
    ensures c.Some? <==> IsBinOp(k)
  {
    match k
    case Arith(a) =>
      Some(match a
           case PlusOp => PlusExpr
           case MinusOp => MinusExpr
           case MultOp => MultExpr
           case DivOp => TruncDivExpr
           case ModOp => TruncModExpr)
    case Rel(o) =>
      Some(match o
           case EqOp => EqExpr
           case NeqOp => NeExpr
           case LtOp => LtExpr
           case LeqOp => LeExpr
           case GtOp => GtExpr
           case GeqOp => GeExpr)
    case Logic(OrOp) => Some(TruthOrExpr)
    case Logic(AndOp) => Some(TruthAndExpr)
    case _ => None
  }

  /** The operator token a binary code comes from: the inverse of
      `BinCodeOf`. */
  function BinTokenOf(c: BinCode): (k: Kind)
    ensures IsBinOp(k) && BinCodeOf(k) == Some(c)
  {
    match c
    case PlusExpr => Plus
    case MinusExpr => Minus
    case MultExpr => Mult
    case TruncDivExpr => Div
    case TruncModExpr => Mod
    case EqExpr => Eq
    case NeExpr => Neq
    case LtExpr => Lt
    case LeExpr => Leq
    case GtExpr => Gt
    case GeExpr => Geq
    case TruthOrExpr => Or
    case TruthAndExpr => And
  }

  /** The code of a unary operator token: only `-` and `not` have one. */
  function UnCodeOf(k: Kind): (c: Option<UnCode>)
    ensures c.Some? <==> k in {Minus, Not}
  {
    if k == Minus then Some(NegateExpr)
    else if k == Not then Some(TruthNotExpr)
    else None
  }

  /** The operator token a unary code comes from: the inverse of
      `UnCodeOf`. */
  function UnTokenOf(c: UnCode): (k: Kind)
    ensures UnCodeOf(k) == Some(c)
  {
    match c
    case NegateExpr => Minus
    case TruthNotExpr => Not
  }

  /** The code of an assigning statement's token: `:=`, `inc` and `dec`. */
  function AssignCodeOf(k: Kind): (c: Option<AssignCode>)
    ensures c.Some? <==> k in {Assgn, KwInc, KwDec}
  {
    if k == Assgn then Some(ModifyExpr)
    else if k == KwInc then Some(PreincrementExpr)
    else if k == KwDec then Some(PredecrementExpr)
    else None
  }

  /** The token an assignment code comes from: the inverse of
      `AssignCodeOf`. */
  function AssignTokenOf(c: AssignCode): (k: Kind)
    ensures AssignCodeOf(k) == Some(c)
  {
    match c
    case ModifyExpr => Assgn
    case PreincrementExpr => KwInc
    case PredecrementExpr => KwDec
  }

  /* Expressions (ast/AstExprNode.cpp). */

  /** Literals always lower. A variable and an array are both resolved in
      the variable map: the array map is never consulted and no index
      offset is applied (ast/AstExprNode.cpp:187). A call resolves its
      callee in the function map before its arguments. Operands are lowered
      before the operator token is examined. */
  function LowerExpr(e: Expr, t: Table): (r: Option<Ir>)
    ensures e.IntLit? || e.StrLit? ==> r.Some?
    ensures (e.Var? || e.ArrRef?) && LookupVar(t, e.name).None? ==> r.None?
    ensures e.Call? && LookupFun(t, e.callee).None? ==> r.None?
    ensures e.Unop? && UnCodeOf(e.op).None? ==> r.None?
    ensures e.Binop? && BinCodeOf(e.op).None? ==> r.None?
    decreases e, 1
  {
    match e
    case IntLit(v) => Some(IntCst(v))
    case StrLit(s) => Some(StrAddr(s))
    case Var(n) =>
      var d :- LookupVar(t, n);
      Some(DeclRef(d))
    case ArrRef(n, i) =>
      var d :- LookupVar(t, n);
      var ix :- LowerExpr(i, t);
      Some(ArrayRef(d, ix))
    case Call(n, args) =>
      var f :- LookupFun(t, n);
      var xs :- LowerArgs(args, t);
      Some(CallExpr(f.sig, xs))
    case Unop(op, x) =>
      var ix :- LowerExpr(x, t);
      var c :- UnCodeOf(op);
      Some(Unary(c, ix))
    case Binop(op, l, rt) =>
      var il :- LowerExpr(l, t);
      var ir :- LowerExpr(rt, t);
      var c :- BinCodeOf(op);
      Some(Binary(c, il, ir))
  }

  /** The arguments of a call, in order; the first failure aborts. The
      result holds each argument's own lowering at its own position. */
  function LowerArgs(args: seq<Expr>, t: Table): (r: Option<seq<Ir>>)
    ensures r.Some? <==> forall i | 0 <= i < |args| :: LowerExpr(args[i], t).Some?
    ensures r.Some? ==> |r.value| == |args|
    ensures r.Some? ==> forall i | 0 <= i < |args| :: r.value[i] == LowerExpr(args[i], t).value
    decreases args, 0
  {
    if |args| == 0 then Some([])
    else
      var x :- LowerExpr(args[0], t);
      var xs :- LowerArgs(args[1..], t);
      assert forall i | 1 <= i < |args| :: args[i] == args[1..][i - 1];
      Some([x] + xs)
  }

  /* Statements and blocks (ast/AstStmtNode.cpp). */

  /** One statement, in the table of the enclosing block. */
  function LowerStmt(s: Stmt, t: Table): (r: Option<Ir>)
    ensures s.BinopStmt? && AssignCodeOf(s.op).None? ==> r.None?
    ensures s.If? ==> (r.Some? <==>
      LowerExpr(s.cond, t).Some? && LowerBlock(s.thenBlk, t).Some? &&
      (s.elseBlk.Some? ==> LowerBlock(s.elseBlk.value, t).Some?))
    ensures s.If? && r.Some? ==> r.value.CondExpr? && (r.value.elseIr.Some? <==> s.elseBlk.Some?)
    ensures s.If? && r.Some? ==> r.value.cond == LowerExpr(s.cond, t).value && r.value.thenIr == LowerBlock(s.thenBlk, t).value
    ensures s.If? && r.Some? && s.elseBlk.Some? ==> r.value.elseIr == Some(LowerBlock(s.elseBlk.value, t).value)
    ensures s.Loop? ==> (r.Some? <==> LowerBlock(s.body, t).Some?)
    ensures s.Loop? && r.Some? ==> r.value == LoopExpr(LowerBlock(s.body, t).value)
    ensures s.Break? ==> (r.Some? <==> LowerExpr(s.cond, t).Some?)
    ensures s.Break? && r.Some? ==> r.value == ExitExpr(LowerExpr(s.cond, t).value)
    ensures s.CallStmt? ==> r == LowerExpr(s.call, t)
    ensures s.Exit? ==> r == Some(ReturnExpr(GetRes(t)))
    ensures s.Read? ==> (r.Some? <==> LowerExpr(s.target, t).Some?)
    ensures s.Read? && r.Some? ==> r.value == LibCall(Scanf, StrAddr(s.fmt), AddrOf(LowerExpr(s.target, t).value))
    ensures s.Write? ==> (r.Some? <==> LowerExpr(s.arg, t).Some?)
    ensures s.Write? && r.Some? ==> r.value == LibCall(Printf, StrAddr(s.fmt), LowerExpr(s.arg, t).value)
    decreases s, 2
  {
    match s
    case BinopStmt(op, l, rt) =>
      var il :- LowerExpr(l, t);
      var ir :- LowerExpr(rt, t);
      var c :- AssignCodeOf(op);
      Some(Assign(c, il, ir))
    case CallStmt(call) => LowerExpr(call, t)
    case If(c, th, el) =>
      var ic :- LowerExpr(c, t);
      var ith :- LowerBlock(th, t);
      if el.None? then Some(CondExpr(ic, ith, None))
      else
        var iel :- LowerBlock(el.value, t);
        Some(CondExpr(ic, ith, Some(iel)))
    case Loop(b) =>
      var ib :- LowerBlock(b, t);
      Some(LoopExpr(ib))
    case Break(c) =>
      var ic :- LowerExpr(c, t);
      Some(ExitExpr(ic))
    case Exit => Some(ReturnExpr(GetRes(t)))
    case Read(fmt, x) =>
      var ix :- LowerExpr(x, t);
      Some(LibCall(Scanf, StrAddr(fmt), AddrOf(ix)))
    case Write(fmt, x) =>
      var ix :- LowerExpr(x, t);
      Some(LibCall(Printf, StrAddr(fmt), ix))
  }

  /** Statements in order; the first failure aborts. */
  function LowerStmts(ss: seq<Stmt>, t: Table): (r: Option<seq<Ir>>)
    ensures r.Some? <==> forall i | 0 <= i < |ss| :: LowerStmt(ss[i], t).Some?
    ensures r.Some? ==> |r.value| == |ss|
    ensures r.Some? ==> forall i | 0 <= i < |ss| :: r.value[i] == LowerStmt(ss[i], t).value
    decreases ss, 1
  {
    if |ss| == 0 then Some([])
    else
      var x :- LowerStmt(ss[0], t);
      var xs :- LowerStmts(ss[1..], t);
      assert forall i | 1 <= i < |ss| :: ss[i] == ss[1..][i - 1];
      Some([x] + xs)
  }

  /** One `DECL_EXPR` per local declaration, in order. */
  function DeclExprs(ds: seq<Decl>): (r: seq<Ir>)
    ensures |r| == |ds| && forall i | 0 <= i < |ds| :: r[i] == DeclExpr(ds[i])
  {
    if |ds| == 0 then [] else [DeclExpr(ds[0])] + DeclExprs(ds[1..])
  }

  /** A block is lowered in a sub-table copied from the caller's, which
      keeps only the functions. The declarations come first, then the
      statements; the bind expression lists the declared variables and
      starts with a declaration expression for each of them. */
  function LowerBlock(b: Block, t: Table): (r: Option<Ir>)
    ensures r.Some? ==> r.value.BindExpr? && |r.value.vars| == |b.decls|
    ensures r.Some? ==> r.value.vars == LowerLocDecls(b.decls, CopyOf(t)).0
    ensures r.Some? <==> LowerStmts(b.stmts, LowerLocDecls(b.decls, CopyOf(t)).1).Some?
    ensures r.Some? ==>
      r.value.stmts == DeclExprs(r.value.vars) + LowerStmts(b.stmts, LowerLocDecls(b.decls, CopyOf(t)).1).value
    decreases b, 0
  {
    var scope := LowerLocDecls(b.decls, CopyOf(t));
    var stmts :- LowerStmts(b.stmts, scope.1);
    Some(BindExpr(scope.0, DeclExprs(scope.0) + stmts))
  }

  /* Local declarations (ast/AstDeclNode.cpp). */

  /** Constants and variables are looked up first, and an existing entry
      is returned with the table unchanged. Otherwise a new declaration is
      created and registered: a constant is a const-qualified integer with
      its value, and a variable has its lowered type. The registration
      cannot fail after the lookup, and no type fails to lower, so the
      source's `translate` always reports success; the result here is the
      declaration and the table themselves. */
  function LowerLocDecl(d: LocDecl, t: Table): (r: (Decl, Table))
    ensures LookupVar(r.1, d.name) == Some(r.0)
    ensures LookupVar(t, d.name).Some? ==> r == (LookupVar(t, d.name).value, t)
    ensures LookupVar(t, d.name).None? && d.ConstDecl? ==> r.0 == VarD(d.name, ConstIntTy, Some(d.value))
    ensures LookupVar(t, d.name).None? && d.VarDecl? ==> r.0 == VarD(d.name, LowerType(d.ty), None)
    ensures forall n | n != d.name :: LookupVar(r.1, n) == LookupVar(t, n)
    ensures r.1.res == t.res && r.1.arrs == t.arrs && r.1.funs == t.funs
  {
    match LookupVar(t, d.name)
    case Some(prev) => (prev, t)
    case None =>
      var x := match d
               case ConstDecl(n, v) => VarD(n, ConstIntTy, Some(v))
               case VarDecl(n, ty) => VarD(n, LowerType(ty), None);
      (x, RegisterVar(t, d.name, x).value)
  }

  /** A block's declarations in order. Every declared name ends up in the
      table, mapped to the declaration its own lowering returned. Names that
      were present before keep their entries, and nothing but the
      variables changes. */
  function LowerLocDecls(ds: seq<LocDecl>, t: Table): (r: (seq<Decl>, Table))
    ensures |r.0| == |ds|
    ensures forall i | 0 <= i < |ds| :: LookupVar(r.1, ds[i].name) == Some(r.0[i])
    ensures forall n | LookupVar(t, n).Some? :: LookupVar(r.1, n) == LookupVar(t, n)
    ensures forall n | LookupVar(t, n).None? && forall i | 0 <= i < |ds| :: ds[i].name != n ::
      LookupVar(r.1, n).None?
    ensures r.1.res == t.res && r.1.arrs == t.arrs && r.1.funs == t.funs
  {
    if |ds| == 0 then ([], t)
    else
      var (x, t1) := LowerLocDecl(ds[0], t);
      var (xs, t2) := LowerLocDecls(ds[1..], t1);
      assert forall i | 1 <= i < |ds| :: ds[i] == ds[1..][i - 1];
      ([x] + xs, t2)
  }

  /* Functions and the program (ast/AstDeclNode.cpp). */

  /** The parameter declarations of a function, in order. */
  function LowerParams(args: seq<(string, TypeNode)>): (r: seq<Decl>)
    ensures |r| == |args|
    ensures forall i | 0 <= i < |args| :: r[i] == ParmD(args[i].0, LowerType(args[i].1))
  {
    if |args| == 0 then []
    else [ParmD(args[0].0, LowerType(args[0].1))] + LowerParams(args[1..])
  }

  /** `void` for a procedure, the lowered result type for a function. */
  function LowerResultType(f: FunDecl): (r: IrType)
    ensures IsProcedure(f) <==> r == VoidTy
    ensures !IsProcedure(f) ==> r == LowerType(f.resType.value)
  {
    if IsProcedure(f) then VoidTy else LowerType(f.resType.value)
  }

  /** The declaring half of a function's lowering. A name that is already
      registered keeps its first declaration: a later heading, forward or
      not, does not replace it. A new name gets a declaration built from
      this heading and registered without a body. */
  function DeclareFun(f: FunDecl, t: Table): (r: (FunSig, Table))
    ensures LookupFun(t, f.name).Some? ==> r == (LookupFun(t, f.name).value.sig, t)
    ensures LookupFun(t, f.name).None? ==>
      LookupFun(r.1, f.name) == Some(FunEntry(r.0, None)) &&
      r.0.name == f.name && |r.0.params| == |f.args| &&
      (forall i | 0 <= i < |f.args| :: r.0.params[i].ParmD? && r.0.params[i].name == f.args[i].0) &&
      (IsProcedure(f) <==> r.0.result == ResultD(VoidTy))
    ensures LookupFun(t, f.name).None? ==> r.0 == FunSig(f.name, LowerParams(f.args), ResultD(LowerResultType(f)))
    ensures LookupFun(r.1, f.name).Some? && LookupFun(r.1, f.name).value.sig == r.0
    ensures forall n | n != f.name :: LookupFun(r.1, n) == LookupFun(t, n)
    ensures r.1.res == t.res && r.1.vars == t.vars && r.1.arrs == t.arrs
  {
    match LookupFun(t, f.name)
    case Some(entry) => (entry.sig, t)
    case None =>
      var sig := FunSig(f.name, LowerParams(f.args), ResultD(LowerResultType(f)));
      (sig, RegisterFun(t, f.name, FunEntry(sig, None)).value)
  }

  /** Registers the arguments of a definition, in order, as the parameter
      declarations of the first declaration. The source walks that
      declaration's parameter chain in step with the arguments, so a
      definition with more arguments than the declaration runs off the
      chain; here that is a failure. */
  function BindParams(args: seq<(string, TypeNode)>, parms: seq<Decl>, t: Table): (r: Option<Table>)
    ensures |args| > |parms| ==> r.None?
    ensures r.Some? ==> forall i | 0 <= i < |args| :: LookupVar(r.value, args[i].0) == Some(parms[i])
    ensures r.Some? ==> forall n | LookupVar(t, n).Some? :: LookupVar(r.value, n) == LookupVar(t, n)
    ensures r.Some? ==> forall i | 0 <= i < |args| :: LookupVar(t, args[i].0).None?
    ensures r.Some? ==> r.value.res == t.res && r.value.arrs == t.arrs && r.value.funs == t.funs
  {
    if |args| == 0 then Some(t)
    else if |parms| == 0 then None
    else
      var t1 :- RegisterVar(t, args[0].0, parms[0]);
      var t2 :- BindParams(args[1..], parms[1..], t1);
      assert forall i | 1 <= i < |args| :: args[i] == args[1..][i - 1] && parms[i] == parms[1..][i - 1];
      Some(t2)
  }

  /** The table a function body is lowered in: a copy of the caller's
      table (functions only); for a function, the result declaration both
      in the result slot and as a variable under the function's name; then
      the arguments. */
  function FunScope(f: FunDecl, sig: FunSig, t: Table): (r: Option<Table>)
    ensures r.Some? ==> r.value.funs == t.funs
    ensures r.Some? ==> (GetRes(r.value).Some? <==> !IsProcedure(f))
    ensures r.Some? && !IsProcedure(f) ==>
      GetRes(r.value) == Some(sig.result) && LookupVar(r.value, f.name) == Some(sig.result)
    ensures r.Some? ==> (|f.args| <= |sig.params| &&
      forall i | 0 <= i < |f.args| :: LookupVar(r.value, f.args[i].0) == Some(sig.params[i]))
    ensures |f.args| > |sig.params| ==> r.None?
  {
    var sub := CopyOf(t);
    var withRes := if IsProcedure(f) then sub
                   else RegisterVar(RegisterRes(sub, sig.result).value, f.name, sig.result).value;
    BindParams(f.args, sig.params, withRes)
  }

  /** A function declaration. The heading is declared first (see
      `DeclareFun`); a forward declaration stops there and never fails. A
      definition fails when the function already has a body ("defined more
      than once"). Otherwise its body is lowered in its own scope and
      stored with the declaration. */
  function LowerFun(f: FunDecl, t: Table): (r: Option<(FunSig, Table)>)
    ensures IsForward(f) ==> r == Some(DeclareFun(f, t))
    ensures !IsForward(f) && LookupFun(t, f.name).Some? && LookupFun(t, f.name).value.body.Some? ==> r.None?
    ensures r.Some? ==> LookupFun(r.value.1, f.name).Some? && LookupFun(r.value.1, f.name).value.sig == r.value.0
    ensures r.Some? && LookupFun(t, f.name).Some? ==> r.value.0 == LookupFun(t, f.name).value.sig
    ensures r.Some? && !IsForward(f) ==> LookupFun(r.value.1, f.name).value.body.Some?
    ensures !IsForward(f) && (LookupFun(t, f.name).None? || LookupFun(t, f.name).value.body.None?) ==>
      var (sig, t1) := DeclareFun(f, t);
      (r.Some? <==> FunScope(f, sig, t1).Some? && LowerBlock(f.body.value, FunScope(f, sig, t1).value).Some?)
    ensures !IsForward(f) && (LookupFun(t, f.name).None? || LookupFun(t, f.name).value.body.None?) && r.Some? ==>
      var (sig, t1) := DeclareFun(f, t);
      FunScope(f, sig, t1).Some? && LowerBlock(f.body.value, FunScope(f, sig, t1).value).Some? &&
      LookupFun(r.value.1, f.name) == Some(FunEntry(sig, Some(LowerBlock(f.body.value, FunScope(f, sig, t1).value).value)))
    ensures r.Some? ==> forall n | n != f.name :: LookupFun(r.value.1, n) == LookupFun(t, n)
    ensures r.Some? ==> forall n | LookupFun(t, n).Some? && LookupFun(t, n).value.body.Some? ::
      LookupFun(r.value.1, n) == LookupFun(t, n)
    ensures r.Some? ==> r.value.1.res == t.res && r.value.1.vars == t.vars && r.value.1.arrs == t.arrs
  {
    var (sig, t1) := DeclareFun(f, t);
    if IsForward(f) then Some((sig, t1))
    else if LookupFun(t1, f.name).value.body.Some? then None
    else
      var scope :- FunScope(f, sig, t1);
      var body :- LowerBlock(f.body.value, scope);
      Some((sig, t1.(funs := t1.funs[f.name := FunEntry(sig, Some(body))])))
  }

  /** The functions of a program in list order, each in the table the
      previous ones left; the first failure aborts. On success every
      function is registered, every defined one has a body, and functions
      that already had a body keep it. */
  function LowerFuns(fs: seq<FunDecl>, t: Table): (r: Option<Table>)
    ensures r.Some? ==> forall i | 0 <= i < |fs| :: LookupFun(r.value, fs[i].name).Some?
    ensures r.Some? ==> forall i | 0 <= i < |fs| && !IsForward(fs[i]) ::
      LookupFun(r.value, fs[i].name).value.body.Some?
    ensures r.Some? ==> forall n | LookupFun(t, n).Some? :: LookupFun(r.value, n).Some?
    ensures r.Some? ==> forall n | LookupFun(t, n).Some? && LookupFun(t, n).value.body.Some? ::
      LookupFun(r.value, n) == LookupFun(t, n)
    decreases |fs|
  {
    if |fs| == 0 then Some(t)
    else
      var x :- LowerFun(fs[0], t);
      var r :- LowerFuns(fs[1..], x.1);
      assert forall i | 1 <= i < |fs| :: fs[i] == fs[1..][i - 1];
      Some(r)
  }

  /** A program is lowered from a fresh table. */
  function LowerProgram(p: ProgDecl): (r: Option<Table>)
    ensures r.Some? ==> forall i | 0 <= i < |p.funs| :: LookupFun(r.value, p.funs[i].name).Some?
    ensures r.Some? ==> forall i | 0 <= i < |p.funs| && !IsForward(p.funs[i]) ::
      LookupFun(r.value, p.funs[i].name).value.body.Some?
  {
    LowerFuns(p.funs, NewTable())
  }

  /** The loop of `AstProgDeclNode::translate`, which returns at the first
      function that fails. */
  method TranslateProgram(p: ProgDecl) returns (r: Option<Table>)
    ensures r == LowerProgram(p)
  {
    var t := NewTable();
    var i := 0;
    assert p.funs[i..] == p.funs;
    while i < |p.funs|
      invariant 0 <= i <= |p.funs|
      invariant LowerFuns(p.funs[i..], t) == LowerProgram(p)
    {
      assert p.funs[i..][1..] == p.funs[i + 1..];
      var x := LowerFun(p.funs[i], t);
      if x.None? {
        return None;
      }
      t := x.value.1;
      i := i + 1;
    }
    return Some(t);
  }
}
