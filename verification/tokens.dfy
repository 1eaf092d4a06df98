/** Lexical tokens (`LexToken` and `LexElem` in parser/LexAnalyzer.hpp). */
module Tokens {

  /** The `LEXTOK_*` enumerators, grouped as the header groups them:
      end of input, the three tokens with a payload, arithmetic, relational
      and logical operators, brackets, punctuation and keywords. Every
      enumerator is also available under its own name as a constant below. */
  datatype Kind =
    | Eoi
    | Ident | Number | Str
    | Arith(arith: ArithOp)
    | Rel(rel: RelOp)
    | Logic(logic: LogicOp)
    | Bracket(bracket: BracketSym)
    | Punct(punct: PunctSym)
    | Kw(word: Keyword)

  datatype ArithOp = PlusOp | MinusOp | MultOp | DivOp | ModOp
  datatype RelOp = EqOp | NeqOp | LtOp | LeqOp | GtOp | GeqOp
  datatype LogicOp = OrOp | AndOp | NotOp
  datatype BracketSym = LParSym | RParSym | LBraSym | RBraSym
  datatype PunctSym = DotSym | DDotSym | CommaSym | ColSym | SColSym | AssgnSym
  datatype Keyword =
    | VarWord | ConstWord | ProgramWord | FunctionWord | ProcedureWord | ForwardWord
    | IntegerWord | ArrayWord | OfWord
    | BeginWord | EndWord | IfWord | ThenWord | ElseWord | WhileWord | DoWord
    | ForWord | ToWord | DowntoWord | ExitWord
    | IncWord | DecWord | ReadlnWord | WriteWord | WritelnWord

  const Plus: Kind := Arith(PlusOp)
  const Minus: Kind := Arith(MinusOp)
  const Mult: Kind := Arith(MultOp)
  const Div: Kind := Arith(DivOp)
  const Mod: Kind := Arith(ModOp)

  const Eq: Kind := Rel(EqOp)
  const Neq: Kind := Rel(NeqOp)
  const Lt: Kind := Rel(LtOp)
  const Leq: Kind := Rel(LeqOp)
  const Gt: Kind := Rel(GtOp)
  const Geq: Kind := Rel(GeqOp)

  const Or: Kind := Logic(OrOp)
  const And: Kind := Logic(AndOp)
  const Not: Kind := Logic(NotOp)

  const LPar: Kind := Bracket(LParSym)
  const RPar: Kind := Bracket(RParSym)
  const LBra: Kind := Bracket(LBraSym)
  const RBra: Kind := Bracket(RBraSym)

  const Dot: Kind := Punct(DotSym)
  const DDot: Kind := Punct(DDotSym)
  const Comma: Kind := Punct(CommaSym)
  const Col: Kind := Punct(ColSym)
  const SCol: Kind := Punct(SColSym)
  const Assgn: Kind := Punct(AssgnSym)

  const KwVar: Kind := Kw(VarWord)
  const KwConst: Kind := Kw(ConstWord)
  const KwProg: Kind := Kw(ProgramWord)
  const KwFunc: Kind := Kw(FunctionWord)
  const KwProc: Kind := Kw(ProcedureWord)
  const KwFwd: Kind := Kw(ForwardWord)
  const KwInt: Kind := Kw(IntegerWord)
  const KwArr: Kind := Kw(ArrayWord)
  const KwOf: Kind := Kw(OfWord)
  const KwBegin: Kind := Kw(BeginWord)
  const KwEnd: Kind := Kw(EndWord)
  const KwIf: Kind := Kw(IfWord)
  const KwThen: Kind := Kw(ThenWord)
  const KwElse: Kind := Kw(ElseWord)
  const KwWhile: Kind := Kw(WhileWord)
  const KwDo: Kind := Kw(DoWord)
  const KwFor: Kind := Kw(ForWord)
  const KwTo: Kind := Kw(ToWord)
  const KwDownto: Kind := Kw(DowntoWord)
  const KwExit: Kind := Kw(ExitWord)
  const KwInc: Kind := Kw(IncWord)
  const KwDec: Kind := Kw(DecWord)
  const KwReadln: Kind := Kw(ReadlnWord)
  const KwWrite: Kind := Kw(WriteWord)
  const KwWriteln: Kind := Kw(WritelnWord)

  /** A lexical element: the token kind, the string payload of identifiers and
      string literals, and the integer payload of numbers. Tokens without a
      payload carry "" and 0. */
  datatype Token = Token(kind: Kind, text: string, value: int)

  /** A token without payload. */
  function Sym(k: Kind): Token {
    Token(k, "", 0)
  }
}
