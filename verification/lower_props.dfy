/** Properties of lowering: when expression lowering succeeds, stated
    against independent definitions of the names and operators an
    expression uses; the table an expression or block actually depends on;
    lookup-or-create for local declarations; the forward and define-once
    rules for functions; and the first-failure abort of the program. */
module LowerProps {
  import opened Optional
  import opened Tokens
  import opened Ast
  import opened Parser
  import opened Ir
  import opened SymTable
  import opened Lower

  /* Types. */

  /** The value `end - begin + 1` of each array level of a type,
      outermost first, read off the AST. */
  function Dims(ty: TypeNode): seq<int> {
    match ty
    case IntType => []
    case ArrType(lo, hi, elem) => [hi - lo + 1] + Dims(elem)
  }

  /** The largest index of each level of an IR array type, outermost
      first. */
  function IrDims(it: IrType): seq<int> {
    match it
    case ArrayTy(elem, n) => [n] + IrDims(elem)
    case _ => []
  }

  /** The element type at the bottom of an IR type. */
  function IrBase(it: IrType): IrType {
    match it
    case ArrayTy(elem, _) => IrBase(elem)
    case _ => it
  }

  /** A lowered type has one array level per array level of the source
      type, each with largest index `end - begin + 1`, over the integer
      type. */
  lemma {:induction false} LoweredDims(ty: TypeNode)
    ensures IrDims(LowerType(ty)) == Dims(ty)
    ensures IrBase(LowerType(ty)) == IntTy
  {
    match ty
    case IntType =>
    case ArrType(lo, hi, elem) => LoweredDims(elem);
  }

  /* Operator codes. */

  /** The binary operator tokens and the binary codes correspond one to
      one: distinct tokens get distinct codes, and `BinTokenOf` inverts
      `BinCodeOf`. */
  lemma BinCodeBijective(k1: Kind, k2: Kind)
    requires IsBinOp(k1) && IsBinOp(k2)
    ensures BinTokenOf(BinCodeOf(k1).value) == k1
    ensures BinCodeOf(k1) == BinCodeOf(k2) ==> k1 == k2
  {
  }

  /** Likewise for the two unary codes. */
  lemma UnCodeBijective(k1: Kind, k2: Kind)
    requires UnCodeOf(k1).Some? && UnCodeOf(k2).Some?
    ensures UnTokenOf(UnCodeOf(k1).value) == k1
    ensures UnCodeOf(k1) == UnCodeOf(k2) ==> k1 == k2
  {
  }

  /** Likewise for the three assignment codes. */
  lemma AssignCodeBijective(k1: Kind, k2: Kind)
    requires AssignCodeOf(k1).Some? && AssignCodeOf(k2).Some?
    ensures AssignTokenOf(AssignCodeOf(k1).value) == k1
    ensures AssignCodeOf(k1) == AssignCodeOf(k2) ==> k1 == k2
  {
  }

  /* What an expression refers to. */

  /** The names an expression reads through the variable map: variables
      and arrays alike. */
  function VarNames(e: Expr): set<string>
    decreases e, 1
  {
    match e
    case IntLit(_) => {}
    case StrLit(_) => {}
    case Var(n) => {n}
    case ArrRef(n, i) => {n} + VarNames(i)
    case Call(_, args) => ArgsVarNames(args)
    case Unop(_, x) => VarNames(x)
    case Binop(_, l, r) => VarNames(l) + VarNames(r)
  }

  function ArgsVarNames(args: seq<Expr>): set<string>
    decreases args, 0
  {
    if |args| == 0 then {} else VarNames(args[0]) + ArgsVarNames(args[1..])
  }

  /** The functions an expression calls. */
  function Callees(e: Expr): set<string>
    decreases e, 1
  {
    match e
    case IntLit(_) => {}
    case StrLit(_) => {}
    case Var(_) => {}
    case ArrRef(_, i) => Callees(i)
    case Call(n, args) => {n} + ArgsCallees(args)
    case Unop(_, x) => Callees(x)
    case Binop(_, l, r) => Callees(l) + Callees(r)
  }

  function ArgsCallees(args: seq<Expr>): set<string>
    decreases args, 0
  {
    if |args| == 0 then {} else Callees(args[0]) + ArgsCallees(args[1..])
  }

  /** Every operator in the expression is one the IR has a code for. */
  predicate KnownOps(e: Expr)
    decreases e, 1
  {
    match e
    case IntLit(_) => true
    case StrLit(_) => true
    case Var(_) => true
    case ArrRef(_, i) => KnownOps(i)
    case Call(_, args) => ArgsKnownOps(args)
    case Unop(op, x) => op in {Minus, Not} && KnownOps(x)
    case Binop(op, l, r) => IsBinOp(op) && KnownOps(l) && KnownOps(r)
  }

  predicate ArgsKnownOps(args: seq<Expr>)
    decreases args, 0
  {
    |args| == 0 || (KnownOps(args[0]) && ArgsKnownOps(args[1..]))
  }

  /** Expression lowering succeeds exactly when every name it reads is a
      variable, every function it calls is registered and every operator
      has a code. */
  lemma {:induction false} LowerExprSucceeds(e: Expr, t: Table)
    ensures LowerExpr(e, t).Some? <==>
      VarNames(e) <= t.vars.Keys && Callees(e) <= t.funs.Keys && KnownOps(e)
    decreases e, 1
  {
    match e
    case IntLit(_) =>
    case StrLit(_) =>
    case Var(_) =>
    case ArrRef(_, i) => LowerExprSucceeds(i, t);
    case Call(_, args) => LowerArgsSucceed(args, t);
    case Unop(_, x) => LowerExprSucceeds(x, t);
    case Binop(_, l, r) =>
      LowerExprSucceeds(l, t);
      LowerExprSucceeds(r, t);
  }

  /** The same for the arguments of a call, all of which must lower. */
  lemma {:induction false} LowerArgsSucceed(args: seq<Expr>, t: Table)
    ensures LowerArgs(args, t).Some? <==>
      ArgsVarNames(args) <= t.vars.Keys && ArgsCallees(args) <= t.funs.Keys && ArgsKnownOps(args)
    decreases args, 0
  {
    if |args| > 0 {
      LowerExprSucceeds(args[0], t);
      LowerArgsSucceed(args[1..], t);
      assert LowerArgs(args, t).Some? <==>
        LowerExpr(args[0], t).Some? && LowerArgs(args[1..], t).Some? by {
        assert forall i | 1 <= i < |args| :: args[i] == args[1..][i - 1];
      }
    }
  }

  /** `t2` holds every variable and function of `t1`, with the same
      declaration. */
  predicate TableExtends(t1: Table, t2: Table) {
    (forall n | n in t1.vars :: n in t2.vars && t2.vars[n] == t1.vars[n]) &&
    (forall n | n in t1.funs :: n in t2.funs && t2.funs[n] == t1.funs[n])
  }

  /** Registering more names never changes an expression that already
      lowers. In particular the array map and the result slot play no part
      in expression lowering. */
  lemma {:induction false} LowerExprExtends(e: Expr, t1: Table, t2: Table)
    requires TableExtends(t1, t2)
    requires LowerExpr(e, t1).Some?
    ensures LowerExpr(e, t2) == LowerExpr(e, t1)
    decreases e, 1
  {
    match e
    case IntLit(_) =>
    case StrLit(_) =>
    case Var(_) =>
    case ArrRef(_, i) => LowerExprExtends(i, t1, t2);
    case Call(_, args) => LowerArgsExtend(args, t1, t2);
    case Unop(_, x) => LowerExprExtends(x, t1, t2);
    case Binop(_, l, r) =>
      LowerExprExtends(l, t1, t2);
      LowerExprExtends(r, t1, t2);
  }

  lemma {:induction false} LowerArgsExtend(args: seq<Expr>, t1: Table, t2: Table)
    requires TableExtends(t1, t2)
    requires LowerArgs(args, t1).Some?
    ensures LowerArgs(args, t2) == LowerArgs(args, t1)
    decreases args, 0
  {
    forall i | 0 <= i < |args|
      ensures LowerExpr(args[i], t2) == LowerExpr(args[i], t1)
    {
      LowerExprExtends(args[i], t1, t2);
    }
    assert LowerArgs(args, t2).Some?;
    var a1 := LowerArgs(args, t1).value;
    var a2 := LowerArgs(args, t2).value;
    assert |a1| == |a2|;
    assert forall i | 0 <= i < |a1| :: a1[i] == a2[i];
    assert a1 == a2;
  }

  /** A variable reference fails exactly when its name is not a variable,
      and otherwise stands for the variable's declaration. */
  lemma VarLowering(n: string, t: Table)
    ensures LowerExpr(Var(n), t).None? <==> n !in t.vars
    ensures n in t.vars ==> LowerExpr(Var(n), t) == Some(DeclRef(t.vars[n]))
  {
  }

  /** An array element reference is resolved in the variable map and
      ignores the array map and its offsets: it fails when the name is not
      a variable, whatever the index, and otherwise exactly when the index
      fails. */
  lemma ArrRefLowering(n: string, i: Expr, t: Table, arrs: map<string, (int, Decl)>)
    ensures n !in t.vars ==> LowerExpr(ArrRef(n, i), t).None?
    ensures n in t.vars ==> (LowerExpr(ArrRef(n, i), t).Some? <==> LowerExpr(i, t).Some?)
    ensures LowerExpr(ArrRef(n, i), t).Some? ==>
      LowerExpr(ArrRef(n, i), t).value == ArrayRef(t.vars[n], LowerExpr(i, t).value)
    ensures LowerExpr(ArrRef(n, i), t.(arrs := arrs)) == LowerExpr(ArrRef(n, i), t)
  {
    if LowerExpr(ArrRef(n, i), t).Some? {
      LowerExprExtends(ArrRef(n, i), t, t.(arrs := arrs));
    } else if LowerExpr(ArrRef(n, i), t.(arrs := arrs)).Some? {
      LowerExprExtends(ArrRef(n, i), t.(arrs := arrs), t);
    }
  }

  /** A call carries its callee's first declaration and its arguments'
      lowerings, in source order and number. */
  lemma CallLowering(n: string, args: seq<Expr>, t: Table)
    requires LowerExpr(Call(n, args), t).Some?
    ensures n in t.funs
    ensures LowerExpr(Call(n, args), t).value.CallExpr?
    ensures LowerExpr(Call(n, args), t).value.fn == t.funs[n].sig
    ensures |LowerExpr(Call(n, args), t).value.args| == |args|
    ensures forall i | 0 <= i < |args| ::
      LowerExpr(Call(n, args), t).value.args[i] == LowerExpr(args[i], t).value
  {
  }

  /** A unary expression lowers exactly when its operator is `-` or `not`
      and its operand lowers, and the code it gets maps back to the
      operator. */
  lemma UnopLowering(op: Kind, x: Expr, t: Table)
    ensures LowerExpr(Unop(op, x), t).Some? <==> op in {Minus, Not} && LowerExpr(x, t).Some?
    ensures LowerExpr(Unop(op, x), t).Some? ==>
      var u := LowerExpr(Unop(op, x), t).value;
      u.Unary? && UnTokenOf(u.ucode) == op && u.operand == LowerExpr(x, t).value
  {
  }

  /** A binary expression lowers exactly when its operator is one of the
      thirteen binary operators and both operands lower; the code it gets
      maps back to the operator, and the operands keep their sides. */
  lemma BinopLowering(op: Kind, l: Expr, r: Expr, t: Table)
    ensures LowerExpr(Binop(op, l, r), t).Some? <==>
      IsBinOp(op) && LowerExpr(l, t).Some? && LowerExpr(r, t).Some?
    ensures LowerExpr(Binop(op, l, r), t).Some? ==>
      var b := LowerExpr(Binop(op, l, r), t).value;
      b.Binary? && BinTokenOf(b.bcode) == op &&
      b.left == LowerExpr(l, t).value && b.right == LowerExpr(r, t).value
  {
    if LowerExpr(Binop(op, l, r), t).Some? {
      BinCodeBijective(op, BinTokenOf(LowerExpr(Binop(op, l, r), t).value.bcode));
    }
  }

  /** An assigning statement lowers exactly when its token is `:=`, `inc`
      or `dec` and both sides lower, and the code it gets maps back to the
      token. */
  lemma AssignLowering(op: Kind, l: Expr, r: Expr, t: Table)
    ensures LowerStmt(BinopStmt(op, l, r), t).Some? <==>
      op in {Assgn, KwInc, KwDec} && LowerExpr(l, t).Some? && LowerExpr(r, t).Some?
    ensures LowerStmt(BinopStmt(op, l, r), t).Some? ==>
      var a := LowerStmt(BinopStmt(op, l, r), t).value;
      a.Assign? && AssignTokenOf(a.acode) == op &&
      a.lhs == LowerExpr(l, t).value && a.rhs == LowerExpr(r, t).value
  {
  }

  /* Blocks. */

  /** A block sees only the functions of the table it is lowered in: two
      tables with the same functions give the same result, whatever their
      variables and result slots. */
  lemma BlockSeesOnlyFunctions(b: Block, t1: Table, t2: Table)
    requires t1.funs == t2.funs
    ensures LowerBlock(b, t1) == LowerBlock(b, t2)
  {
    assert CopyOf(t1) == CopyOf(t2);
  }

  /** A `break` on a condition that reads a name fails inside a block that
      declares nothing: the block's sub-table starts with no variables, so
      the name is unknown there, however the enclosing block declared it. */
  lemma {:induction false} UndeclaredBreakFails(ss: seq<Stmt>, i: nat, t: Table)
    requires i < |ss| && ss[i].Break? && VarNames(ss[i].cond) != {}
    ensures LowerBlock(Block([], ss), t).None?
  {
    var scope := LowerLocDecls([], CopyOf(t)).1;
    assert scope.vars == map[];
    LowerExprSucceeds(ss[i].cond, scope);
  }

  /** Hence the loop a `while` statement desugars to fails to lower
      whenever its condition reads a variable. */
  lemma WhileOverVariableFails(c: Expr, s: Stmt, t: Table)
    requires VarNames(c) != {}
    ensures LowerStmt(Loop(Block([], [Break(Unop(Not, c)), s])), t).None?
  {
    UndeclaredBreakFails([Break(Unop(Not, c)), s], 0, t);
  }

  /** An `exit` directly inside a block returns no result: the block's
      sub-table starts with an empty result slot. */
  lemma ExitInBlockReturnsNothing(b: Block, t: Table, i: nat)
    requires i < |b.stmts| && b.stmts[i].Exit?
    requires LowerBlock(b, t).Some?
    ensures LowerBlock(b, t).value.stmts[|b.decls| + i] == ReturnExpr(None)
  {
    var scope := LowerLocDecls(b.decls, CopyOf(t)).1;
    assert GetRes(scope).None?;
    assert LowerStmts(b.stmts, scope).value[i] == ReturnExpr(None);
  }

  /* Local declarations. */

  /** Lowering a constant or variable declaration a second time returns
      the same declaration and leaves the table as the first time left
      it. */
  lemma LocDeclIdempotent(d: LocDecl, t: Table)
    ensures LowerLocDecl(d, LowerLocDecl(d, t).1) == LowerLocDecl(d, t)
  {
  }

  /** Two declarations of one name in a block give one variable: the
      second returns the first's declaration, whatever its kind or type. */
  lemma RedeclarationMerges(d1: LocDecl, d2: LocDecl, t: Table)
    requires d1.name == d2.name
    ensures LowerLocDecls([d1, d2], t).0 == [LowerLocDecl(d1, t).0, LowerLocDecl(d1, t).0]
    ensures LowerLocDecls([d1, d2], t).1 == LowerLocDecl(d1, t).1
  {
    var (x1, t1) := LowerLocDecl(d1, t);
    assert LowerLocDecl(d2, t1) == (x1, t1);
    assert [d2][1..] == [] && [d2][0] == d2;
    assert LowerLocDecls([], t1) == ([], t1);
    assert [x1] + [] == [x1];
    assert LowerLocDecls([d2], t1) == ([x1], t1);
    assert [d1, d2][1..] == [d2];
  }

  /* Functions. */

  /** A forward declaration never fails, and repeating it (or any other
      forward heading of the same name) changes nothing. */
  lemma ForwardRepeats(f: FunDecl, g: FunDecl, t: Table)
    requires IsForward(f) && IsForward(g) && f.name == g.name
    ensures LowerFun(f, t).Some?
    ensures LowerFun(g, LowerFun(f, t).value.1) == LowerFun(f, t)
  {
  }

  /** A function defined once cannot be defined again: the second
      definition fails whatever its heading and body. */
  lemma DefinedOnce(f: FunDecl, g: FunDecl, t: Table)
    requires !IsForward(f) && !IsForward(g) && f.name == g.name
    requires LowerFun(f, t).Some?
    ensures LowerFun(g, LowerFun(f, t).value.1).None?
  {
  }

  /** A forward declaration followed by the definition is accepted when
      the body lowers: the definition is lowered against the forward
      declaration's signature and is stored with it. */
  lemma ForwardThenDefine(f: FunDecl, g: FunDecl, t: Table)
    requires IsForward(f) && !IsForward(g) && f.name == g.name
    requires LookupFun(t, f.name).None?
    requires LowerFun(g, LowerFun(f, t).value.1).Some?
    ensures LowerFun(g, LowerFun(f, t).value.1).value.0 == LowerFun(f, t).value.0
    ensures LookupFun(LowerFun(g, LowerFun(f, t).value.1).value.1, f.name).value.body.Some?
  {
  }

  /** Two arguments of one name make a definition fail. */
  lemma {:induction false} BindParamsDuplicate(args: seq<(string, TypeNode)>, parms: seq<Decl>, t: Table, i: nat, j: nat)
    requires i < j < |args| && args[i].0 == args[j].0
    ensures BindParams(args, parms, t).None?
    decreases i
  {
    if |parms| > 0 && RegisterVar(t, args[0].0, parms[0]).Some? {
      var t1 := RegisterVar(t, args[0].0, parms[0]).value;
      assert args[1..][j - 1] == args[j];
      if i == 0 {
        assert LookupVar(t1, args[1..][j - 1].0).Some?;
      } else {
        assert args[1..][i - 1] == args[i];
        BindParamsDuplicate(args[1..], parms[1..], t1, i - 1, j - 1);
      }
    }
  }

  lemma DuplicateArgumentFails(f: FunDecl, t: Table, i: nat, j: nat)
    requires !IsForward(f) && i < j < |f.args| && f.args[i].0 == f.args[j].0
    requires LookupFun(t, f.name).None? || LookupFun(t, f.name).value.body.None?
    ensures LowerFun(f, t).None?
  {
    var (sig, t1) := DeclareFun(f, t);
    var sub := CopyOf(t1);
    var withRes := if IsProcedure(f) then sub
                   else RegisterVar(RegisterRes(sub, sig.result).value, f.name, sig.result).value;
    BindParamsDuplicate(f.args, sig.params, withRes, i, j);
  }

  /** A function (not a procedure) with an argument of its own name fails:
      the name is already the variable holding its result. */
  lemma ArgumentNamedAsFunctionFails(f: FunDecl, t: Table, i: nat)
    requires !IsForward(f) && !IsProcedure(f) && i < |f.args| && f.args[i].0 == f.name
    ensures LowerFun(f, t).None?
  {
  }

  /** A definition with more arguments than the function's first
      declaration has parameters fails. */
  lemma TooManyArgumentsFails(f: FunDecl, sig: FunSig, t: Table)
    requires !IsForward(f) && LookupFun(t, f.name) == Some(FunEntry(sig, None))
    requires |f.args| > |sig.params|
    ensures LowerFun(f, t).None?
  {
  }

  /** In a successful definition each argument names the parameter
      declaration at its own position, and a function's own name names its
      result. */
  lemma ScopeBindsArguments(f: FunDecl, sig: FunSig, t: Table)
    requires FunScope(f, sig, t).Some?
    ensures forall i | 0 <= i < |f.args| ::
      i < |sig.params| && LookupVar(FunScope(f, sig, t).value, f.args[i].0) == Some(sig.params[i])
    ensures !IsProcedure(f) ==> LookupVar(FunScope(f, sig, t).value, f.name) == Some(sig.result)
  {
  }

  /* The program. */

  /** Lowering a list of functions is lowering its first part and then
      the rest in the table the first part left. */
  lemma {:induction false} LowerFunsAppend(a: seq<FunDecl>, b: seq<FunDecl>, t: Table)
    ensures LowerFuns(a + b, t) ==
      (match LowerFuns(a, t) case None => None case Some(t1) => LowerFuns(b, t1))
    decreases |a|
  {
    if |a| == 0 {
      assert a + b == b;
    } else {
      assert (a + b)[1..] == a[1..] + b;
      assert (a + b)[0] == a[0];
      match LowerFun(a[0], t)
      case None =>
      case Some(x) => LowerFunsAppend(a[1..], b, x.1);
    }
  }

  /** The first function that fails to lower makes the whole program fail,
      whatever follows it. */
  lemma FirstFailureAborts(fs: seq<FunDecl>, t: Table, i: nat)
    requires i < |fs|
    requires LowerFuns(fs[..i], t).Some?
    requires LowerFun(fs[i], LowerFuns(fs[..i], t).value).None?
    ensures LowerFuns(fs, t).None?
  {
    var pre, post := fs[..i], fs[i..];
    SplitAt(fs, i);
    LowerFunsAppend(pre, post, t);
    HeadFails(post, LowerFuns(pre, t).value);
  }

  lemma SplitAt<T>(s: seq<T>, i: nat)
    requires i <= |s|
    ensures s[..i] + s[i..] == s
  {
  }

  lemma HeadFails(fs: seq<FunDecl>, t: Table)
    requires |fs| > 0 && LowerFun(fs[0], t).None?
    ensures LowerFuns(fs, t).None?
  {
  }
}
