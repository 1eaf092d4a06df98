/** The language as it is written, independently of the parser: sections,
    statements, routines and programs as surface syntax; a printer from them
    to tokens; and the AST each construct stands for once the parser has
    desugared it. Expressions are the AST's own, printed fully
    parenthesised. */
module Syntax {
  import opened Optional
  import opened Tokens
  import opened Ast
  import opened Parser
  import opened ExprGrammar

  /** A `const` section, whose items give a value to a list of names, or a
      `var` section, whose items give a type to a list of names. */
  datatype Section =
    | Consts(constItems: seq<(seq<string>, int)>)
    | Vars(varItems: seq<(seq<string>, TypeNode)>)

  /** The statements of the language. The target of an assignment, `inc`,
      `dec` or `readln` is a variable or an array element. A compound
      statement is a block with its own declaration sections. */
  datatype Statement =
    | Assignment(target: Expr, value: Expr)
    | ProcCall(callee: string, args: seq<Expr>)
    | IfStmt(cond: Expr, thenStmt: Statement, elseStmt: Option<Statement>)
    | WhileStmt(cond: Expr, body: Statement)
    | ForStmt(counter: string, start: Expr, up: bool, limit: Expr, body: Statement)
    | ExitStmt
    | CounterStmt(inc: bool, target: Expr)
    | ReadlnStmt(target: Expr)
    | WriteStmt(text: string)
    | WritelnStmt(arg: Expr)
    | Compound(blk: Body)
    | EmptyStmt

  /** Declaration sections, then `begin`, statements separated by `;`, and
      `end`. */
  datatype Body = Body(sections: seq<Section>, stmts: seq<Statement>)

  /** A function (with a result type) or a procedure (without), defined by
      a body or declared `forward` (no body). */
  datatype Routine = Routine(
    name: string,
    params: seq<(string, TypeNode)>,
    result: Option<TypeNode>,
    def: Option<Body>)

  /** `program name;`, the routines, and the main block. */
  datatype Program = Program(name: string, routines: seq<Routine>, main: Body)

  /* What may be written. */

  /** A variable, or an array element with a well-formed index. */
  predicate IsTarget(e: Expr) {
    match e
    case Var(_) => true
    case ArrRef(_, i) => WellFormed(i)
    case _ => false
  }

  /** Array types whose upper bound exceeds the lower one, at every level. */
  predicate TypeOk(ty: TypeNode) {
    match ty
    case IntType => true
    case ArrType(lo, hi, elem) => lo < hi && TypeOk(elem)
  }

  /** A section has at least one item, and every item at least one name. */
  predicate SectionOk(sec: Section) {
    match sec
    case Consts(items) => |items| > 0 && forall i | 0 <= i < |items| :: |items[i].0| > 0
    case Vars(items) =>
      |items| > 0 && forall i | 0 <= i < |items| :: |items[i].0| > 0 && TypeOk(items[i].1)
  }

  /** Statements that cannot stand before `else`: the empty statement, an
      `if` without `else` (the `else` would be its own), and statements
      that end in one of these. */
  predicate OpenEnded(s: Statement) {
    match s
    case EmptyStmt => true
    case IfStmt(_, _, el) => el.None? || OpenEnded(el.value)
    case WhileStmt(_, b) => OpenEnded(b)
    case ForStmt(_, _, _, _, b) => OpenEnded(b)
    case _ => false
  }

  /** The tokens that may follow a statement: `;` or `end`, and `else`
      unless the statement is open-ended. */
  predicate FollowsStmt(s: Statement, k: Kind) {
    k in {SCol, KwEnd} || (k == KwElse && !OpenEnded(s))
  }

  predicate StmtOk(s: Statement)
    decreases s, 0
  {
    match s
    case Assignment(x, v) => IsTarget(x) && WellFormed(v)
    case ProcCall(_, args) => forall a | a in args :: WellFormed(a)
    case IfStmt(c, th, el) =>
      WellFormed(c) && StmtOk(th) &&
      (el.Some? ==> StmtOk(el.value) && !OpenEnded(th))
    case WhileStmt(c, b) => WellFormed(c) && StmtOk(b)
    case ForStmt(_, a, _, l, b) => WellFormed(a) && WellFormed(l) && StmtOk(b)
    case ExitStmt => true
    case CounterStmt(_, x) => IsTarget(x)
    case ReadlnStmt(x) => IsTarget(x)
    case WriteStmt(_) => true
    case WritelnStmt(e) => WellFormed(e)
    case Compound(b) => BodyOk(b)
    case EmptyStmt => true
  }

  /** Well-formed sections and at least one statement (possibly empty). */
  predicate BodyOk(b: Body)
    decreases b, 1
  {
    (forall i | 0 <= i < |b.sections| :: SectionOk(b.sections[i])) &&
    |b.stmts| > 0 && forall i | 0 <= i < |b.stmts| :: StmtOk(b.stmts[i])
  }

  predicate RoutineOk(r: Routine) {
    (forall i | 0 <= i < |r.params| :: TypeOk(r.params[i].1)) &&
    (r.result.Some? ==> TypeOk(r.result.value)) &&
    (r.def.Some? ==> BodyOk(r.def.value))
  }

  predicate ProgramOk(p: Program) {
    (forall i | 0 <= i < |p.routines| :: RoutineOk(p.routines[i])) && BodyOk(p.main)
  }

  /* The printer. */

  function IdentTok(n: string): Token {
    Token(Ident, n, 0)
  }

  /** An integer literal: a number, preceded by `-` when negative. */
  function RenderNum(v: int): seq<Token> {
    if v < 0 then [Sym(Minus), Token(Number, "", -v)] else [Token(Number, "", v)]
  }

  function RenderType(ty: TypeNode): seq<Token> {
    match ty
    case IntType => [Sym(KwInt)]
    case ArrType(lo, hi, elem) =>
      [Sym(KwArr), Sym(LBra)] + RenderNum(lo) + [Sym(DDot)] + RenderNum(hi) +
      [Sym(RBra), Sym(KwOf)] + RenderType(elem)
  }

  /** Names separated by commas. */
  function RenderNames(names: seq<string>): seq<Token> {
    if |names| == 0 then [] else [IdentTok(names[0])] + RenderMoreNames(names[1..])
  }

  /** Further names, each preceded by a comma. */
  function RenderMoreNames(names: seq<string>): seq<Token> {
    if |names| == 0 then [] else [Sym(Comma), IdentTok(names[0])] + RenderMoreNames(names[1..])
  }

  function RenderConstItem(item: (seq<string>, int)): seq<Token> {
    RenderNames(item.0) + [Sym(Eq)] + RenderNum(item.1) + [Sym(SCol)]
  }

  function RenderConstItems(items: seq<(seq<string>, int)>): seq<Token> {
    if |items| == 0 then [] else RenderConstItem(items[0]) + RenderConstItems(items[1..])
  }

  function RenderVarItem(item: (seq<string>, TypeNode)): seq<Token> {
    RenderNames(item.0) + [Sym(Col)] + RenderType(item.1) + [Sym(SCol)]
  }

  function RenderVarItems(items: seq<(seq<string>, TypeNode)>): seq<Token> {
    if |items| == 0 then [] else RenderVarItem(items[0]) + RenderVarItems(items[1..])
  }

  function RenderSection(sec: Section): seq<Token> {
    match sec
    case Consts(items) => [Sym(KwConst)] + RenderConstItems(items)
    case Vars(items) => [Sym(KwVar)] + RenderVarItems(items)
  }

  function RenderSections(secs: seq<Section>): seq<Token> {
    if |secs| == 0 then [] else RenderSection(secs[0]) + RenderSections(secs[1..])
  }

  function RenderStmt(s: Statement): seq<Token>
    decreases s, 1
  {
    match s
    case Assignment(x, v) => Render(x) + [Sym(Assgn)] + Render(v)
    case ProcCall(n, args) => Render(Call(n, args))
    case IfStmt(c, th, el) =>
      [Sym(KwIf)] + Render(c) + [Sym(KwThen)] + RenderStmt(th) + RenderElse(el)
    case WhileStmt(c, b) => [Sym(KwWhile)] + Render(c) + [Sym(KwDo)] + RenderStmt(b)
    case ForStmt(v, a, up, l, b) =>
      [Sym(KwFor), IdentTok(v), Sym(Assgn)] + Render(a) + [Sym(if up then KwTo else KwDownto)] +
      Render(l) + [Sym(KwDo)] + RenderStmt(b)
    case ExitStmt => [Sym(KwExit)]
    case CounterStmt(inc, x) => [Sym(if inc then KwInc else KwDec), Sym(LPar)] + Render(x) + [Sym(RPar)]
    case ReadlnStmt(x) => [Sym(KwReadln), Sym(LPar)] + Render(x) + [Sym(RPar)]
    case WriteStmt(text) => [Sym(KwWrite), Sym(LPar), Token(Str, text, 0), Sym(RPar)]
    case WritelnStmt(e) => [Sym(KwWriteln), Sym(LPar)] + Render(e) + [Sym(RPar)]
    case Compound(b) => RenderBody(b)
    case EmptyStmt => []
  }

  /** The `else` part of a conditional: nothing, or `else` and the
      statement. */
  function RenderElse(el: Option<Statement>): seq<Token>
    decreases el, 0
  {
    match el
    case None => []
    case Some(e) => [Sym(KwElse)] + RenderStmt(e)
  }

  function RenderBody(b: Body): seq<Token>
    decreases b, 2
  {
    RenderSections(b.sections) + [Sym(KwBegin)] + RenderStmts(b.stmts) + [Sym(KwEnd)]
  }

  /** Statements separated by semicolons. */
  function RenderStmts(ss: seq<Statement>): seq<Token>
    decreases ss, 1
  {
    if |ss| == 0 then [] else RenderStmt(ss[0]) + RenderMoreStmts(ss[1..])
  }

  /** Further statements, each preceded by a semicolon. */
  function RenderMoreStmts(ss: seq<Statement>): seq<Token>
    decreases ss, 0
  {
    if |ss| == 0 then [] else [Sym(SCol)] + RenderStmt(ss[0]) + RenderMoreStmts(ss[1..])
  }

  /** Parameters `name : type` separated by semicolons. */
  function RenderParams(ps: seq<(string, TypeNode)>): seq<Token> {
    if |ps| == 0 then [] else [IdentTok(ps[0].0), Sym(Col)] + RenderType(ps[0].1) + RenderMoreParams(ps[1..])
  }

  function RenderMoreParams(ps: seq<(string, TypeNode)>): seq<Token> {
    if |ps| == 0 then []
    else [Sym(SCol), IdentTok(ps[0].0), Sym(Col)] + RenderType(ps[0].1) + RenderMoreParams(ps[1..])
  }

  /** `function name(params): type;` or `procedure name(params);`, then
      the body or `forward`, then `;`. */
  function RenderRoutine(r: Routine): seq<Token> {
    [Sym(if r.result.Some? then KwFunc else KwProc), IdentTok(r.name), Sym(LPar)] +
    RenderParams(r.params) + [Sym(RPar)] + RenderResult(r.result) + [Sym(SCol)] + RenderDef(r.def) + [Sym(SCol)]
  }

  /** `: type` for a function, nothing for a procedure. */
  function RenderResult(result: Option<TypeNode>): seq<Token> {
    match result
    case None => []
    case Some(t) => [Sym(Col)] + RenderType(t)
  }

  /** The body, or `forward`. */
  function RenderDef(def: Option<Body>): seq<Token> {
    match def
    case None => [Sym(KwFwd)]
    case Some(b) => RenderBody(b)
  }

  function RenderRoutines(rs: seq<Routine>): seq<Token> {
    if |rs| == 0 then [] else RenderRoutine(rs[0]) + RenderRoutines(rs[1..])
  }

  function RenderProgram(p: Program): seq<Token> {
    [Sym(KwProg), IdentTok(p.name), Sym(SCol)] + RenderRoutines(p.routines) +
    RenderBody(p.main) + [Sym(Dot)]
  }

  /* What the constructs stand for. */

  /** The declarations and statements of `a`, followed by those of `b`. */
  function Join(a: Block, b: Block): Block {
    Block(a.decls + b.decls, a.stmts + b.stmts)
  }

  /** A block holding the single statement `s`. */
  function Single(s: Stmt): Block {
    Block([], [s])
  }

  /** The statement that leaves a `for` loop once its variable has passed
      the limit: `v > limit` counting up, `v < limit` counting down. */
  function ForStop(v: string, up: bool, limit: Expr): Stmt {
    Break(Binop(if up then Gt else Lt, Var(v), limit))
  }

  /** The statement that steps a `for` loop's variable by one. */
  function ForStep(v: string, up: bool): Stmt {
    BinopStmt(if up then KwInc else KwDec, Var(v), IntLit(1))
  }

  /** The declarations of the items of a section, item by item and name by
      name. */
  function SectionDecls(sec: Section): seq<LocDecl> {
    match sec
    case Consts(items) => ConstItemDecls(items)
    case Vars(items) => VarItemDecls(items)
  }

  function ConstItemDecls(items: seq<(seq<string>, int)>): seq<LocDecl> {
    if |items| == 0 then [] else ConstDecls(items[0].0, items[0].1) + ConstItemDecls(items[1..])
  }

  function VarItemDecls(items: seq<(seq<string>, TypeNode)>): seq<LocDecl> {
    if |items| == 0 then [] else VarDecls(items[0].0, items[0].1) + VarItemDecls(items[1..])
  }

  function SectionsDecls(secs: seq<Section>): seq<LocDecl> {
    if |secs| == 0 then [] else SectionDecls(secs[0]) + SectionsDecls(secs[1..])
  }

  /** What a statement adds to the block it stands in. A `while` loop
      starts by leaving when its condition fails; a `for` loop is the
      assignment of its start value and a loop that leaves once the
      variable passes the limit and ends by stepping it; `inc` and `dec`
      step by the literal one; `readln` and `writeln` use the `%d` formats
      and `write` the `%s` one. A compound statement adds its declarations
      and statements to the enclosing block itself. */
  function Desugar(s: Statement): Block
    decreases s, 1
  {
    match s
    case Assignment(x, v) => Single(BinopStmt(Assgn, x, v))
    case ProcCall(n, args) => Single(CallStmt(Call(n, args)))
    case IfStmt(c, th, el) =>
      Single(If(c, Desugar(th), DesugarElse(el)))
    case WhileStmt(c, b) => Single(Loop(Join(Single(Break(Unop(Not, c))), Desugar(b))))
    case ForStmt(v, a, up, l, b) =>
      Block([], [BinopStmt(Assgn, Var(v), a),
                 Loop(Join(Join(Single(ForStop(v, up, l)), Desugar(b)), Single(ForStep(v, up))))])
    case ExitStmt => Single(Exit)
    case CounterStmt(inc, x) => Single(BinopStmt(if inc then KwInc else KwDec, x, IntLit(1)))
    case ReadlnStmt(x) => Single(Read("%d", x))
    case WriteStmt(text) => Single(Write("%s", StrLit(text)))
    case WritelnStmt(e) => Single(Write("%d\n", e))
    case Compound(b) => DesugarBody(b)
    case EmptyStmt => EmptyBlock
  }

  /** An `else` branch stands for a block of its own. */
  function DesugarElse(el: Option<Statement>): Option<Block>
    decreases el, 0
  {
    match el
    case None => None
    case Some(e) => Some(Desugar(e))
  }

  /** A body: the declarations of its sections, then what its statements
      add, in order. */
  function DesugarBody(b: Body): Block
    decreases b, 2
  {
    Join(Block(SectionsDecls(b.sections), []), DesugarAll(b.stmts))
  }

  function DesugarAll(ss: seq<Statement>): Block
    decreases ss, 1
  {
    if |ss| == 0 then EmptyBlock else Join(Desugar(ss[0]), DesugarAll(ss[1..]))
  }

  function DesugarRoutine(r: Routine): FunDecl {
    FunDecl(r.name, r.params, r.result, DesugarDef(r.def))
  }

  function DesugarDef(def: Option<Body>): Option<Block> {
    match def
    case None => None
    case Some(b) => Some(DesugarBody(b))
  }

  function DesugarRoutines(rs: seq<Routine>): seq<FunDecl> {
    if |rs| == 0 then [] else [DesugarRoutine(rs[0])] + DesugarRoutines(rs[1..])
  }

  /** The routines in order, then `main` with the main block as body. */
  function DesugarProgram(p: Program): ProgDecl {
    ProgDecl(p.name, DesugarRoutines(p.routines) + [MainFun(DesugarBody(p.main))])
  }
}
