/** The abstract IR that lowering produces: one constructor per GCC tree
    code the `translate` methods build, with the GENERIC details (types of
    expressions, locations, flags, block chaining) left out. */
module Ir {
  import opened Optional

  /** `integer_type_node`, its const-qualified variant used for constants,
      `void_type_node` for procedure results, and an array type whose index
      type is built by `build_index_type(maxIndex)`. GCC reads that value as
      the largest index of a domain starting at 0, so the array has
      `maxIndex + 1` elements. */
  datatype IrType = IntTy | ConstIntTy | VoidTy | ArrayTy(elem: IrType, maxIndex: int)

  /** The declarations the symbol table hands out: `VAR_DECL` (constants
      carry their initial value), `PARM_DECL` and `RESULT_DECL`. */
  datatype Decl =
    | VarD(name: string, ty: IrType, init: Option<int>)
    | ParmD(name: string, ty: IrType)
    | ResultD(ty: IrType)

  /** A `FUNCTION_DECL` without its body: name, parameter declarations
      (`DECL_ARGUMENTS`) and result declaration (`DECL_RESULT`). */
  datatype FunSig = FunSig(name: string, params: seq<Decl>, result: Decl)

  /** `NEGATE_EXPR` and `TRUTH_NOT_EXPR`. */
  datatype UnCode = NegateExpr | TruthNotExpr

  /** The thirteen binary tree codes of expression lowering. */
  datatype BinCode =
    | PlusExpr | MinusExpr | MultExpr | TruncDivExpr | TruncModExpr
    | EqExpr | NeExpr | LtExpr | LeExpr | GtExpr | GeExpr
    | TruthOrExpr | TruthAndExpr

  /** `MODIFY_EXPR`, `PREINCREMENT_EXPR` and `PREDECREMENT_EXPR`. */
  datatype AssignCode = ModifyExpr | PreincrementExpr | PredecrementExpr

  /** The two C library functions `read`/`write` statements call. */
  datatype LibFun = Scanf | Printf

  datatype Ir =
    | IntCst(value: int)                              // INTEGER_CST
    | StrAddr(text: string)                           // ADDR_EXPR of a STRING_CST
    | DeclRef(decl: Decl)                             // a declaration used as a value
    | ArrayRef(array: Decl, index: Ir)                // ARRAY_REF
    | CallExpr(fn: FunSig, args: seq<Ir>)             // CALL_EXPR
    | Unary(ucode: UnCode, operand: Ir)
    | Binary(bcode: BinCode, left: Ir, right: Ir)
    | Assign(acode: AssignCode, lhs: Ir, rhs: Ir)
    | AddrOf(target: Ir)                              // ADDR_EXPR
    | LibCall(lib: LibFun, fmt: Ir, arg: Ir)          // CALL_EXPR of scanf/printf
    | DeclExpr(local: Decl)                           // DECL_EXPR
    | BindExpr(vars: seq<Decl>, stmts: seq<Ir>)       // BIND_EXPR
    | CondExpr(cond: Ir, thenIr: Ir, elseIr: Option<Ir>)  // COND_EXPR
    | LoopExpr(body: Ir)                              // LOOP_EXPR
    | ExitExpr(cond: Ir)                              // EXIT_EXPR
    | ReturnExpr(result: Option<Decl>)                // RETURN_EXPR
}
