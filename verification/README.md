# A verified model of the sfe front end

The sfe front end compiles a small Pascal-like language (integers, fixed-bound
integer arrays, functions and procedures, `forward` declarations, `if`,
`while`, `for ... to/downto`, `exit`, `inc`/`dec`, `readln`, `write`,
`writeln`) into GCC GENERIC trees. This project models its four pure
pieces in Dafny and proves properties of them:

- **Lexer** (`lexer.dfy`, `keywords.dfy`, `numerals.dfy`). `LexAnalyzer::read` is a
  function from the remaining input (`seq<char>`) to a token and the rest, or
  failure. It covers whitespace skipping, identifiers with the binary-searched
  keyword table, decimal, `&` octal and `$` hexadecimal literals by Horner
  accumulation, quoted strings without escapes, and maximal munch for
  `<> <= >= .. :=`.
- **Parser** (`parser.dfy`). It is the recursive descent of `Parser.cpp` over a
  pre-lexed `seq<Token>`, with six expression levels, each with its `...Rest`
  procedure. The parser desugars `while`, `for`, `inc`, `dec`, `readln`,
  `write` and `writeln`. A shared `var`/`const` clause expands to one
  declaration per identifier. Every parse function returns the AST node and
  the new position, or the position where it got stuck.
- **Symbol table** (`symtable.dfy`). It is a record of three finite maps
  (variables, arrays with an offset, functions) plus an optional result slot.
  Register fails on a name that is already present, unregister fails on an
  absent one, and the copy constructor keeps only the functions.
- **Lowering** (`ir.dfy`, `lower.dfy`). The `translate` methods become a
  checked translation into a small IR datatype with one constructor per GCC
  tree code used. `None` stands for `translate` returning `false`. Statements
  and expressions only read the table. Declarations also return the
  updated table.

The properties are in `lexer_props.dfy` (lexing round trips), `parser_props.dfy`
(expression round trip), `precedence.dfy` (precedence and associativity),
`stmt_props.dfy` (statement desugaring), `program_props.dfy` (statement,
declaration, routine and program round trips), `lower_props.dfy` (lowering) and
in the contracts of the operations themselves.

The round trips of `program_props.dfy` rest on `syntax.dfy`. It defines the
surface syntax as a datatype of its own: statements before desugaring,
`const`/`var` sections with shared-name items, routines and programs. It then
gives two reference definitions. The printer (`Render...`) writes that syntax
as the token sequence the parser reads. The desugaring (`Desugar...`) says
what each statement should become in the AST: `while` becomes a loop that
leaves on `not C`, `for` becomes a start assignment and a stepping loop,
`inc(x)` and `dec(x)` become `x` updated by the literal 1, `readln(x)`
becomes a read with format `%d`, `write('s')` becomes a write with format
`%s`, and `writeln(e)` becomes a write with format `%d` and a newline. Each
round-trip lemma states that parsing the printed form gives exactly the
desugared value, for every well-formed input, and so states the parser's
result independently of its code.

The model follows the code where the code and its design notes differ:

- **Array references.** An array reference is resolved in the variable map,
  with no index offset (ast/AstExprNode.cpp:187). It does not use the array
  map with a `begin` offset.
- **Block scoping.** A block is lowered in a copy of the caller's table, and
  that copy keeps only the functions (parser/SymTable.cpp:18-24,
  ast/AstStmtNode.cpp:187). Nothing is registered and then unregistered in the
  caller's table. As written, this has the following consequences, all proved
  below:
  - a nested block or loop body cannot see the variables around it;
  - a function body cannot see its arguments or its result;
  - `exit` inside any block returns no result;
  - a `while` loop whose condition reads a variable never lowers when its
    body declares nothing (a body that declares the variables its condition
    reads is not covered).
- **Duplicate declarations.** Constants and variables are looked up before
  they are created (ast/AstDeclNode.cpp:63-67, 122-127). A second declaration
  of a name in one block therefore merges with the first instead of failing.
- **`exit` with no result.** `exit` lowers to a return of whatever the result
  slot holds, possibly nothing (ast/AstStmtNode.cpp:402-413). It never fails.
- **Increment and decrement.** `inc`/`dec` statements carry the `inc`/`dec`
  tokens and the literal `1`, and lower to pre-increment and pre-decrement.

The headers disagree with the `.cpp` files in places. `getVar`/`addVar`/
`getFun`/`addFun`/`setRes` are modelled as `LookupVar`/`RegisterVar`/
`LookupFun`/`RegisterFun`/`RegisterRes`. `AstTypeNode::getSym`/`addSym`, which
are declared but never defined, are modelled as the variable-map lookup and
registration.

## Model

| member | source | states |
|---|---|---|
| Keywords.Compare | parser/LexAnalyzer.cpp:129-130 | the sign of `strcmp`, in -1..1 |
| Keywords.CompareZeroIffEqual | parser/LexAnalyzer.cpp:129-138 | `strcmp` is zero exactly on equal strings |
| Keywords.CompareAntisymmetric | parser/LexAnalyzer.cpp:129-136 | swapping the operands negates the comparison |
| Keywords.CompareTransitive | parser/LexAnalyzer.cpp:80-81 | the ordering the table relies on is transitive |
| Keywords.TableAscending | parser/LexAnalyzer.cpp:80-112 | every keyword entry is strictly below its successor |
| Keywords.TableSorted | parser/LexAnalyzer.cpp:80-112 | any earlier entry is strictly below any later entry |
| Keywords.KeysDistinct | parser/LexAnalyzer.cpp:80-112 | no keyword occurs twice in the table |
| Keywords.NotAtOrBelow | parser/LexAnalyzer.cpp:133-134 | when the key compares above entry m, no entry up to m holds it (the `l = m + 1` step) |
| Keywords.NotAtOrAbove | parser/LexAnalyzer.cpp:135-136 | when the key compares below entry m, no entry from m on holds it (the `r = m` step) |
| Keywords.Search | parser/LexAnalyzer.cpp:118-142 | the binary search returns the token of any entry holding the key, and `Ident` when none does |
| Keywords.LinearLookupFinds | parser/LexAnalyzer.cpp:80-112 | the front-to-back scan of the table returns an entry's token or `Ident` |
| Keywords.LookupIsLinearLookup | parser/LexAnalyzer.cpp:118-142 | the binary search agrees with the front-to-back scan on every string |
| Keywords.LookupKeyword | parser/LexAnalyzer.cpp:118-142 | each keyword maps to its own token and every other string to `Ident` |
| Numerals.DigitValue | parser/LexAnalyzer.cpp:324-327 | a hexadecimal digit's value is below 16 |
| Numerals.DigitBelowBase | parser/LexAnalyzer.cpp:262-331 | a digit of a radix is worth less than the base |
| Numerals.DigitChar | parser/LexAnalyzer.cpp:322-328 | the digit character written for d reads back as d and is a digit of every radix above d |
| Numerals.Numeral | parser/LexAnalyzer.cpp:262-331 | the written form of a number is a non-empty run of digits of its radix |
| Numerals.ValueOfNumeral | parser/LexAnalyzer.cpp:262-331 | writing a number and taking its positional value gives the number back |
| Numerals.ValueIgnoresCase | parser/LexAnalyzer.cpp:324-327 | lower-casing hexadecimal digits keeps them digits and keeps the value |
| Numerals.LowerAll | parser/LexAnalyzer.cpp:327 | `tolower` applied character by character gives a string of the same length whose every character is the lower case of the one at the same index |
| Lexer.SkipSpace | parser/LexAnalyzer.cpp:167-168 | removes exactly the leading whitespace, and what remains does not start with whitespace |
| Lexer.IdentRun | parser/LexAnalyzer.cpp:251-254 | the longest prefix of identifier characters |
| Lexer.DigitRun | parser/LexAnalyzer.cpp:262-331 | the longest prefix of digits of the radix |
| Lexer.Accumulate | parser/LexAnalyzer.cpp:262-331 | the rest left by the accumulation loop is never longer than the input (its value is stated by LexerProps.AccumulateIsValue) |
| Lexer.ReadIdent | parser/LexAnalyzer.cpp:245-259 | reading a word always succeeds and consumes input |
| Lexer.ReadNumber | parser/LexAnalyzer.cpp:262-331 | a successful literal consumes at least one character |
| Lexer.ReadString | parser/LexAnalyzer.cpp:334-355 | a successful string consumes at least its closing quote |
| Lexer.Munch | parser/LexAnalyzer.cpp:189-222 | a one- or two-character symbol always reads and consumes input |
| Lexer.Single | parser/LexAnalyzer.cpp:183-210 | the single-character symbols never give end of input |
| Lexer.ReadToken | parser/LexAnalyzer.cpp:170-227 | every token but end of input consumes input |
| Lexer.Read | parser/LexAnalyzer.cpp:163-228 | every token but end of input consumes input |
| Lexer.Tokenize | parser/Parser.cpp:69-72 | a successful token stream is non-empty |
| Lexer.TokenizeEndsWithEoi | parser/LexAnalyzer.cpp:177 | the token stream ends with the end-of-input token and holds no other |
| LexerProps.AccumulateIsValue | parser/LexAnalyzer.cpp:262-331 | the accumulation loop computes the positional value of the maximal digit run and stops right after it |
| LexerProps.ReadNumberIsValue | parser/LexAnalyzer.cpp:262-331 | a literal is the positional value of the maximal digit run, and fails without a first digit |
| LexerProps.DigitRunOfDigits | parser/LexAnalyzer.cpp:262-331 | digits followed by a non-digit form exactly one run |
| LexerProps.ReadNumeral | parser/LexAnalyzer.cpp:262-331 | the digits of n in any radix read back as n and stop at the first non-digit |
| LexerProps.DecimalRoundTrip | parser/LexAnalyzer.cpp:285-305 | a decimal numeral reads back as its value |
| LexerProps.OctalRoundTrip | parser/LexAnalyzer.cpp:262-282 | `&` and an octal numeral read back as its value |
| LexerProps.HexRoundTrip | parser/LexAnalyzer.cpp:308-331 | `$` and a hexadecimal numeral read back as its value |
| LexerProps.HexIgnoresCase | parser/LexAnalyzer.cpp:308-331 | upper- and lower-case hexadecimal digits give the same token |
| LexerProps.OctalNeedsDigit | parser/LexAnalyzer.cpp:262-274 | `&` not followed by an octal digit is an error |
| LexerProps.HexNeedsDigit | parser/LexAnalyzer.cpp:308-320 | `$` not followed by a hexadecimal digit is an error |
| LexerProps.IdentRunOfWord | parser/LexAnalyzer.cpp:251-254 | identifier characters followed by another character form exactly one run |
| LexerProps.ReadWord | parser/LexAnalyzer.cpp:245-259 | a word is one token whose text is the word and whose kind is the word's keyword entry, or `Ident` |
| LexerProps.SpaceIsSkipped | parser/LexAnalyzer.cpp:167-168 | leading whitespace never changes the token read |
| LexerProps.ReadStringBody | parser/LexAnalyzer.cpp:341-353 | the string loop collects every character up to the closing quote and consumes it |
| LexerProps.StringLiteral | parser/LexAnalyzer.cpp:334-355 | a quoted string is one token holding exactly the characters between the quotes |
| LexerProps.UnterminatedStringBody | parser/LexAnalyzer.cpp:341-347 | end of input before the closing quote fails the string loop |
| LexerProps.UnterminatedString | parser/LexAnalyzer.cpp:334-355 | a string without its closing quote is an error |
| LexerProps.UnknownCharacter | parser/LexAnalyzer.cpp:225-227 | a character that starts no token is an error |
| LexerProps.EndOfInput | parser/LexAnalyzer.cpp:167-177 | only whitespace left gives the end-of-input token and consumes everything |
| LexerProps.SymbolText | parser/LexAnalyzer.cpp:183-222 | every symbol is spelled with one or two characters |
| LexerProps.Spell | parser/LexAnalyzer.cpp:163-228 | every token the lexer can produce has a non-empty spelling |
| LexerProps.Layout | parser/LexAnalyzer.cpp:163-228 | tokens written out with a blank after each are at least as long as the token count |
| LexerProps.ReadLongSymbol | parser/LexAnalyzer.cpp:189-222 | a two-character operator is read whatever follows it |
| LexerProps.ReadSingleSymbol | parser/LexAnalyzer.cpp:183-210 | a one-character symbol that starts no longer one is read whatever follows it |
| LexerProps.Extenders | parser/LexAnalyzer.cpp:189-222 | each extending character turns the one-character symbol into a two-character spelling |
| LexerProps.ExtendersSpellSymbols | parser/LexAnalyzer.cpp:189-222 | a character extends a symbol exactly when the two characters spell another symbol |
| LexerProps.ReadLessSymbol | parser/LexAnalyzer.cpp:189-196 | `<` stands alone unless `>` or `=` follows |
| LexerProps.ReadGreaterSymbol | parser/LexAnalyzer.cpp:197-202 | `>` stands alone unless `=` follows |
| LexerProps.ReadDotSymbol | parser/LexAnalyzer.cpp:211-216 | `.` stands alone unless another `.` follows |
| LexerProps.ReadColonSymbol | parser/LexAnalyzer.cpp:217-222 | `:` stands alone unless `=` follows |
| LexerProps.ReadShortSymbol | parser/LexAnalyzer.cpp:183-222 | maximal munch: a one-character symbol stands alone exactly when the next character does not extend it |
| LexerProps.ReadSymbol | parser/LexAnalyzer.cpp:183-222 | every symbol followed by a blank reads back as itself |
| LexerProps.ReadSpelling | parser/LexAnalyzer.cpp:163-228 | every lexable token, written out and followed by a blank, reads back as itself |
| LexerProps.TokenizeStep | parser/LexAnalyzer.cpp:163-228 | a written-out token followed by a blank is the first token of the stream |
| LexerProps.TokenizeLayout | parser/LexAnalyzer.cpp:163-228 | lexing the layout of any lexable tokens gives back exactly those tokens, then end of input |
| Parser.PeekTok | parser/Parser.cpp:36-39 | past the end of the tokens the current token is end of input |
| Parser.Peek | parser/Parser.cpp:36-39 | a kind other than end of input lies inside the tokens |
| Parser.Advance | parser/Parser.cpp:69-72 | moves one token forward and stays put at the end |
| Parser.Match | parser/Parser.cpp:54-66 | succeeds exactly on the expected kind, returns that token and advances; otherwise does not move |
| Parser.ParseExpr0 | parser/Parser.cpp:845-867 | a parsed disjunction consumes at least one token |
| Parser.ParseExpr0Rest | parser/Parser.cpp:870-909 | never moves backwards |
| Parser.ParseExpr1 | parser/Parser.cpp:912-934 | a parsed conjunction consumes at least one token |
| Parser.ParseExpr1Rest | parser/Parser.cpp:937-978 | never moves backwards |
| Parser.ParseExpr2 | parser/Parser.cpp:981-1003 | a parsed comparison consumes at least one token |
| Parser.ParseExpr2Rest | parser/Parser.cpp:1006-1093 | never moves backwards |
| Parser.ParseExpr3 | parser/Parser.cpp:1096-1127 | a parsed sum consumes at least one token |
| Parser.ParseExpr3Rest | parser/Parser.cpp:1130-1190 | never moves backwards |
| Parser.ParseExpr4 | parser/Parser.cpp:1193-1213 | a parsed product consumes at least one token |
| Parser.ParseExpr4Rest | parser/Parser.cpp:1216-1289 | never moves backwards |
| Parser.ParseExpr5 | parser/Parser.cpp:1292-1324 | a parsed operand consumes at least one token |
| Parser.ParseExpr5Ident | parser/Parser.cpp:1327-1395 | never moves backwards |
| Parser.ParseFunExprArgs | parser/Parser.cpp:1398-1426 | arguments are appended to the call and its callee is kept |
| Parser.ParseFunExprArgsRest | parser/Parser.cpp:1429-1455 | further arguments are appended to the call and its callee is kept |
| Parser.ParseMinusNumber | parser/Parser.cpp:1458-1482 | a number gives its value and a leading minus its negation; nothing else parses |
| Parser.ParseTypeIdent | parser/Parser.cpp:1485-1529 | a parsed array type has its lower bound below its upper bound |
| Parser.ParseIdentListRest | parser/Parser.cpp:1532-1558 | the names read so far are kept and the list ends before `=` or `:` |
| Parser.ConstDecls | parser/Parser.cpp:312-317 | the `addDecl` loop gives one constant per identifier, in the identifiers' order, each with the parsed value |
| Parser.VarDecls | parser/Parser.cpp:335-346 | one variable per identifier, in order, each with a type equal to the parsed one |
| Parser.ParseDeclsLoc | parser/Parser.cpp:284-357 | only declarations are appended, and the sections end before `begin` |
| Parser.ParseConstSection | parser/Parser.cpp:299-320 | a `const` section only appends declarations |
| Parser.ParseVarSection | parser/Parser.cpp:322-349 | a `var` section only appends declarations |
| Parser.AddDeclsAppend | parser/Parser.cpp:312-346 | adding a declaration list appends it in order |
| Parser.ParseConstDeclRest | parser/Parser.cpp:360-401 | further constant items only append declarations |
| Parser.ParseVarDeclRest | parser/Parser.cpp:404-451 | further variable items only append declarations |
| Parser.ParseBlock | parser/Parser.cpp:454-476 | a block only appends to the enclosing block and consumes input, at least `begin` and `end` |
| Parser.ParseBlockRest | parser/Parser.cpp:479-500 | statements are only appended, up to `end` |
| Parser.ParseStmt | parser/Parser.cpp:503-711 | a statement only appends to the enclosing block |
| Parser.ParseIf | parser/Parser.cpp:524-538 | `if` appends exactly one conditional statement |
| Parser.ParseWhile | parser/Parser.cpp:540-559 | `while` appends exactly one loop |
| Parser.ParseFor | parser/Parser.cpp:561-605 | `for` appends exactly two statements, the second a loop |
| Parser.ParseCounterOrRead | parser/Parser.cpp:618-673 | `inc`, `dec` and `readln` append one statement, a read exactly for `readln` |
| Parser.ParseWrite | parser/Parser.cpp:675-690 | `write` appends exactly one write statement |
| Parser.ParseWriteln | parser/Parser.cpp:692-702 | `writeln` appends exactly one write statement |
| Parser.ParseStmtIdent | parser/Parser.cpp:714-758 | an assignment or call appends exactly one statement |
| Parser.ParseStmtLvalIdent | parser/Parser.cpp:761-791 | a target is the named variable or an element of the named array |
| Parser.ParseElseBranch | parser/Parser.cpp:794-818 | no `else` branch only before `;` or `end`, consuming nothing |
| Parser.ParseForDirection | parser/Parser.cpp:821-842 | succeeds exactly on `to` or `downto`, and counts up exactly for `to` |
| Parser.ParseFunDeclArgs | parser/Parser.cpp:185-215 | parameters are appended to the declaration, up to `)` |
| Parser.ParseFunDeclArgsRest | parser/Parser.cpp:218-250 | further parameters are appended, up to `)` |
| Parser.ParseFunDeclBody | parser/Parser.cpp:253-281 | `forward` leaves the declaration without a body; a block gives it one |
| Parser.ParseDeclsGlob | parser/Parser.cpp:117-182 | functions are only appended to the program, up to the main block |
| Parser.ParseFunDecl | parser/Parser.cpp:130-172 | a declaration has a result type exactly when it is a `function`, and consumes input |
| Parser.ParseResult | parser/Parser.cpp:130-172 | a result type is read exactly for a `function` |
| Parser.MainFun | parser/Parser.cpp:104-108 | `main` has no arguments, an integer result and the main block as body |
| Parser.ParseProgram | parser/Parser.cpp:75-114 | a parsed program is named by the identifier after `program` and ends with `main`, which has no arguments, an integer result and a body |
| Parser.Parse | parser/Parser.cpp:21-33 | a parsed program starts with `program` and is named by the identifier after it; its last function is `main`, with no arguments, an integer result and a body |
| Parser.ParseSource | parser/Parser.cpp:21-33 | a source text parses only when it lexes; its program's last function is `main`, with no arguments, an integer result and a body |
| ExprGrammar.Render | parser/Parser.cpp:1292-1324 | the printed form of an expression starts with a token that can start an operand |
| ExprGrammar.Expr4RestStep | parser/Parser.cpp:1229-1257 | one multiplicative operator and operand extend the product to the left |
| ExprGrammar.Expr3RestStep | parser/Parser.cpp:1143-1161 | one additive operator and operand extend the sum to the left |
| ExprGrammar.Expr3Negation | parser/Parser.cpp:1114-1122 | a leading minus negates the first term |
| ExprGrammar.Expr2Binop | parser/Parser.cpp:1019-1071 | one relational operator and a right operand complete the comparison |
| ExprGrammar.Expr1Binop | parser/Parser.cpp:950-958 | `and` joins two comparisons |
| ExprGrammar.Expr0Binop | parser/Parser.cpp:883-891 | `or` joins two conjunctions |
| ExprGrammar.RoundTrip0 | parser/Parser.cpp:845-1395 | a printed well-formed expression followed by a token that ends an expression parses back to itself |
| ExprGrammar.RoundTripIndex | parser/Parser.cpp:1327-1395 | an array element parses back to itself |
| ExprGrammar.RoundTripCall | parser/Parser.cpp:1327-1455 | a call parses back to itself, arguments in order |
| ExprGrammar.RoundTripOperator | parser/Parser.cpp:845-1289 | `l op r` inside parentheses parses as one application of op, at whatever level op belongs to |
| ExprGrammar.RoundTripArgs | parser/Parser.cpp:1398-1455 | comma-separated arguments are parsed in order and appended to the call |
| ExprGrammar.ParseRender | parser/Parser.cpp:845-1455 | printing is a right inverse of parsing for every well-formed expression |
| Precedence.Expr1AfterComparison | parser/Parser.cpp:947-977 | a relational operator after a complete comparison fails at that operator |
| Precedence.ProductInsideSum | parser/Parser.cpp:1130-1289 | `x + y * z` parses as `x + (y * z)` |
| Precedence.ProductBeforeSum | parser/Parser.cpp:1130-1289 | `x * y + z` parses as `(x * y) + z` |
| Precedence.SumAssociatesLeft | parser/Parser.cpp:1143-1161 | additive operators associate to the left |
| Precedence.ProductAssociatesLeft | parser/Parser.cpp:1229-1257 | multiplicative operators associate to the left |
| Precedence.ConjunctionInsideDisjunction | parser/Parser.cpp:870-978 | `x or y and z` parses as `x or (y and z)` |
| Precedence.ComparisonsDoNotChain | parser/Parser.cpp:937-1093 | `x < y < z` is rejected at the second relational operator |
| Precedence.NegationCoversProduct | parser/Parser.cpp:1114-1122 | `- x * y` parses as `-(x * y)` |
| Precedence.NegationStopsAtSum | parser/Parser.cpp:1096-1161 | `- x + y` parses as `(-x) + y` |
| Precedence.DanglingOrIsDropped | parser/Parser.cpp:883-886 | a failed right operand of `or` is not an error: the `or` is dropped and parsing resumes after it |
| Precedence.DanglingAndFails | parser/Parser.cpp:950-953 | the same shape with `and` is an error |
| StmtGrammar.IdentListCollects | parser/Parser.cpp:1532-1558 | an identifier list collects every name in order, up to `=` or `:` |
| StmtGrammar.SectionItemExpands | parser/Parser.cpp:299-349 | `n0, n1, ... : T` declares every name with T and `n0, n1, ... = v` every name with v, in order |
| StmtGrammar.ArrayBounds | parser/Parser.cpp:1504-1524 | an array type parses exactly when its upper bound exceeds its lower bound, keeping both bounds |
| StmtGrammar.WhileDesugars | parser/Parser.cpp:540-559 | `while C do S` becomes a loop whose body starts by leaving the loop on `not C`, then S |
| StmtGrammar.StmtKeepsPrefix | parser/Parser.cpp:503-711 | a statement parsed into a block keeps what the block held first |
| StmtGrammar.ForDesugars | parser/Parser.cpp:561-605 | `for` becomes the start assignment, then a loop that leaves once the variable passes the limit, runs the body and steps the variable by one |
| StmtGrammar.ParsedWhileOverVariableFails | parser/Parser.cpp:540-559 | a parsed `while` over a variable, with a body declaring nothing, never lowers |
| ProgramGrammar.NumRoundTrip | parser/Parser.cpp:1458-1482 | a printed number, with a leading minus when negative, parses back to its value |
| ProgramGrammar.TypeRoundTrip | parser/Parser.cpp:1485-1529 | a printed well-formed type, `integer` or a nested array type, parses back to itself |
| ProgramGrammar.NamesRoundTrip | parser/Parser.cpp:1532-1558 | `, n1, ..., nk` before `=` or `:` appends exactly those names, in order |
| ProgramGrammar.ConstItemsRoundTrip | parser/Parser.cpp:360-401 | printed constant items append one constant per name, item by item, each with its item's value |
| ProgramGrammar.VarItemsRoundTrip | parser/Parser.cpp:404-451 | printed variable items append one variable per name, item by item, each with its item's type |
| ProgramGrammar.SectionRoundTrip | parser/Parser.cpp:299-349 | a printed `const` or `var` section starts with its keyword and appends the declarations of all its items |
| ProgramGrammar.SectionsRoundTrip | parser/Parser.cpp:284-357 | printed sections before `begin` append the declarations of every section in order and stop at `begin` |
| ProgramGrammar.TargetRoundTrip | parser/Parser.cpp:761-791 | a printed variable, or array element with its index expression, parses back to itself |
| ProgramGrammar.AssignRoundTrip | parser/Parser.cpp:714-758 | `x := v` appends exactly the assignment of v to x |
| ProgramGrammar.ProcCallRoundTrip | parser/Parser.cpp:714-758 | `p(a1, ..., ak)` appends exactly the call of p with those arguments, in order |
| ProgramGrammar.CounterRoundTrip | parser/Parser.cpp:618-673 | `inc(x)` and `dec(x)` append x updated by the literal 1 under that keyword; `readln(x)` appends a read of x with format `%d` |
| ProgramGrammar.WriteRoundTrip | parser/Parser.cpp:675-690 | `write('s')` appends a write of the string s with format `%s` |
| ProgramGrammar.WritelnRoundTrip | parser/Parser.cpp:692-702 | `writeln(e)` appends a write of e with format `%d` and a newline |
| ProgramGrammar.SimpleStmtRoundTrip | parser/Parser.cpp:503-711 | every printed statement other than `if`, `while`, `for` and a block appends its reference desugaring |
| ProgramGrammar.ElseRoundTrip | parser/Parser.cpp:794-818 | no `else` gives no branch; `else S` gives the block holding the desugaring of S |
| ProgramGrammar.IfRoundTrip | parser/Parser.cpp:524-538 | `if C then S else T` appends one conditional of C with the block of S and, when present, the block of T |
| ProgramGrammar.WhileRoundTrip | parser/Parser.cpp:540-559 | a printed `while` appends its reference desugaring |
| ProgramGrammar.ForRoundTrip | parser/Parser.cpp:561-605 | a printed `for` appends its reference desugaring |
| ProgramGrammar.StmtRoundTrip | parser/Parser.cpp:503-711 | every printed well-formed statement appends exactly its reference desugaring to the block |
| ProgramGrammar.StmtsRoundTrip | parser/Parser.cpp:466-500 | `S1; ...; Sk` before `end` appends the desugarings of all k statements, in order |
| ProgramGrammar.MoreStmtsRoundTrip | parser/Parser.cpp:479-500 | `; S1 ...; Sk` before `end` appends the desugarings of all k statements, in order, and stops at `end` |
| ProgramGrammar.BodyRoundTrip | parser/Parser.cpp:454-476 | a printed block appends the declarations of its sections, then its desugared statements, and consumes through `end` |
| ProgramGrammar.ParamsRoundTrip | parser/Parser.cpp:185-215 | a printed parameter list adds every parameter with its name and type, in order, up to `)` |
| ProgramGrammar.MoreParamsRoundTrip | parser/Parser.cpp:218-250 | `; n: T ...` adds every further parameter with its name and type, in order, up to `)` |
| ProgramGrammar.ResultRoundTrip | parser/Parser.cpp:141-143 | `: T` gives exactly the type T for a function; a procedure reads nothing and has no result type |
| ProgramGrammar.DefRoundTrip | parser/Parser.cpp:253-281 | `forward;` leaves the declaration without a body; a printed block becomes its body |
| ProgramGrammar.RoutineRoundTrip | parser/Parser.cpp:130-172 | a printed routine parses to its declaration: its name, its parameters in order, its result type and its body |
| ProgramGrammar.RoutinesRoundTrip | parser/Parser.cpp:117-182 | printed routines append their declarations in order and stop at the main block |
| ProgramGrammar.ProgramRoundTrip | parser/Parser.cpp:75-114 | a printed well-formed program parses to its desugaring: its name, its routines in order, then `main` with the main block as body |
| ProgramGrammar.SourceRoundTrip | parser/Parser.cpp:21-33 | a printed program laid out as text lexes and parses to its desugaring |
| Ast.Clone | ast/AstTypeNode.cpp:14-64 | a clone of a type node is structurally equal to it |
| Ast.NewFun | ast/AstDeclNode.cpp:148-155 | a new declaration has no arguments and is a forward procedure |
| Ast.AddArg | ast/AstDeclNode.cpp:183-190 | appends one argument and changes nothing else |
| Ast.SetResType | ast/AstDeclNode.cpp:193-199 | replaces the result type; a procedure is exactly one without one |
| Ast.SetBody | ast/AstDeclNode.cpp:202-208 | replaces the body; a forward declaration is exactly one without one |
| Ast.AddDecl | ast/AstStmtNode.cpp:135-140 | appends one declaration and keeps the statements |
| Ast.AddStmt | ast/AstStmtNode.cpp:143-148 | appends one statement and keeps the declarations |
| Ast.AddCallArg | ast/AstExprNode.cpp:229-234 | appends one call argument and keeps the callee |
| Ast.AddFun | ast/AstDeclNode.cpp:389-394 | appends one function to the program |
| Ast.AddDeclsAppends | ast/AstStmtNode.cpp:135-140 | adding declarations one by one appends them all, in order |
| SymTable.Insert | parser/SymTable.cpp:88-103 | `std::map::insert` succeeds exactly on a fresh key, adds it and keeps every other key |
| SymTable.Erase | parser/SymTable.cpp:110-120 | `std::map::erase` succeeds exactly on a present key and removes only it |
| SymTable.InsertErase | parser/SymTable.cpp:84-121 | inserting a fresh key and erasing it gives the map back |
| SymTable.EraseInsert | parser/SymTable.cpp:84-121 | erasing a key and inserting its value again gives the map back |
| SymTable.NewTable | parser/SymTable.cpp:13-16 | a fresh table has no result and no names |
| SymTable.CopyOf | parser/SymTable.cpp:18-24 | a copy keeps exactly the functions; result, variables and arrays start empty |
| SymTable.RegisterRes | parser/SymTable.cpp:33-45 | succeeds exactly on an empty slot, fills it and touches nothing else |
| SymTable.UnregisterRes | parser/SymTable.cpp:48-58 | succeeds exactly on a filled slot, empties it and touches nothing else |
| SymTable.RegisterUnregisterRes | parser/SymTable.cpp:33-58 | registering a result and unregistering it restores the table |
| SymTable.RegisterVar | parser/SymTable.cpp:84-104 | succeeds exactly when the name is no variable; then it maps to the declaration, every other name as before, other namespaces untouched |
| SymTable.UnregisterVar | parser/SymTable.cpp:107-121 | succeeds exactly when the name is a variable and removes only it |
| SymTable.RegisterUnregisterVar | parser/SymTable.cpp:84-121 | register then unregister restores the table |
| SymTable.UnregisterRegisterVar | parser/SymTable.cpp:84-121 | unregister then re-register restores the table |
| SymTable.RegisterArr | parser/SymTable.cpp:149-172 | succeeds exactly on a fresh array name; then it maps to the (offset, declaration) pair, others unchanged |
| SymTable.UnregisterArr | parser/SymTable.cpp:175-189 | succeeds exactly when the name is an array and removes only it |
| SymTable.RegisterUnregisterArr | parser/SymTable.cpp:124-189 | register then unregister restores the table |
| SymTable.UnregisterRegisterArr | parser/SymTable.cpp:124-189 | unregister then re-register restores the table |
| SymTable.RegisterFun | parser/SymTable.cpp:215-235 | succeeds exactly on a fresh function name; then it maps to the entry, others unchanged |
| SymTable.UnregisterFun | parser/SymTable.cpp:238-253 | succeeds exactly when the name is a function and removes only it |
| SymTable.RegisterUnregisterFun | parser/SymTable.cpp:192-253 | register then unregister restores the table |
| SymTable.UnregisterRegisterFun | parser/SymTable.cpp:192-253 | unregister then re-register restores the table |
| Lower.LowerType | ast/AstTypeNode.cpp:80-96 | a type lowers to an array type exactly when it is an array type |
| Lower.BinCodeOf | ast/AstExprNode.cpp:403-422 | exactly the thirteen binary operator tokens have a code |
| Lower.BinTokenOf | ast/AstExprNode.cpp:403-422 | every binary code comes from a binary operator token that maps to it |
| Lower.UnCodeOf | ast/AstExprNode.cpp:332-338 | exactly `-` and `not` have a unary code |
| Lower.UnTokenOf | ast/AstExprNode.cpp:332-338 | every unary code comes from a token that maps to it |
| Lower.AssignCodeOf | ast/AstStmtNode.cpp:64-72 | exactly `:=`, `inc` and `dec` have an assignment code |
| Lower.AssignTokenOf | ast/AstStmtNode.cpp:64-72 | every assignment code comes from a token that maps to it |
| Lower.LowerExpr | ast/AstExprNode.cpp:35-423 | literals always lower; an unknown variable, array or callee fails; an operator without a code fails |
| Lower.LowerArgs | ast/AstExprNode.cpp:275-278 | the arguments lower exactly when each does, to each one's own lowering in order |
| Lower.LowerStmt | ast/AstStmtNode.cpp:53-604 | `if` lowers exactly when the condition and both blocks do, keeping the else branch's presence; loop, break, read and write exactly when their child does; a call as its expression; exit returns the result slot |
| Lower.LowerStmts | ast/AstStmtNode.cpp:208-218 | the statements lower exactly when each does, to each one's own lowering in order |
| Lower.DeclExprs | ast/AstStmtNode.cpp:198-201 | one declaration expression per declaration, in order |
| Lower.LowerBlock | ast/AstStmtNode.cpp:179-235 | a block is a bind whose variables are exactly the declarations its locals lowered to in the copied table, in order, each with a declaration expression first, then the statements lowered in that table; it fails exactly when a statement fails |
| Lower.LowerLocDecl | ast/AstDeclNode.cpp:57-143 | an existing name returns its entry with the table unchanged; otherwise a constant becomes a const integer with its value and a variable a declaration of its lowered type, registered under the name, and nothing else changes |
| Lower.LowerLocDecls | ast/AstStmtNode.cpp:187-202 | every declared name maps to its own lowering's declaration; earlier names keep their entries; no other name appears |
| Lower.LowerParams | ast/AstDeclNode.cpp:260-287 | one parameter declaration per argument, in order, with the lowered type |
| Lower.LowerResultType | ast/AstDeclNode.cpp:289-294 | the result type is `void` exactly for a procedure, and a function's lowered result type otherwise |
| Lower.DeclareFun | ast/AstDeclNode.cpp:252-320 | an existing name keeps its first declaration; a fresh one registers a body-less declaration whose parameters are the lowered arguments, in order, and whose result is the lowered result type |
| Lower.BindParams | ast/AstDeclNode.cpp:340-352 | each argument names the parameter at its own position; more arguments than parameters fail; a name already bound fails |
| Lower.FunScope | ast/AstDeclNode.cpp:331-352 | the body table holds the functions, the result slot and own name exactly for a function, and each argument's parameter |
| Lower.LowerFun | ast/AstDeclNode.cpp:246-366 | forward never fails; a second definition fails; otherwise a definition succeeds exactly when its scope binds and its body lowers in that scope, and then stores that lowered body under its first signature; other functions and defined entries are unchanged |
| Lower.LowerFuns | ast/AstDeclNode.cpp:419-429 | on success every function is registered, every defined one has a body, and earlier definitions are kept |
| Lower.LowerProgram | ast/AstDeclNode.cpp:412-433 | on success every function of the program is registered and every defined one has a body |
| Lower.TranslateProgram | ast/AstDeclNode.cpp:412-433 | the loop over the functions computes the program's lowering |
| LowerProps.LoweredDims | ast/AstTypeNode.cpp:80-96 | a lowered type has one array level per source array level, each built with `end - begin + 1` as its largest index, over the integer type |
| LowerProps.BinCodeBijective | ast/AstExprNode.cpp:403-422 | binary tokens and codes correspond one to one |
| LowerProps.UnCodeBijective | ast/AstExprNode.cpp:332-338 | unary tokens and codes correspond one to one |
| LowerProps.AssignCodeBijective | ast/AstStmtNode.cpp:64-72 | assignment tokens and codes correspond one to one |
| LowerProps.LowerExprSucceeds | ast/AstExprNode.cpp:124-423 | an expression lowers exactly when every name it reads is a variable, every callee is registered and every operator has a code |
| LowerProps.LowerArgsSucceed | ast/AstExprNode.cpp:275-278 | the same for a call's arguments |
| LowerProps.LowerExprExtends | ast/AstExprNode.cpp:124-287 | registering more names never changes an expression that already lowers |
| LowerProps.LowerArgsExtend | ast/AstExprNode.cpp:275-278 | the same for a call's arguments |
| LowerProps.VarLowering | ast/AstExprNode.cpp:124-141 | a variable fails exactly when its name is not a variable, and otherwise refers to its declaration |
| LowerProps.ArrRefLowering | ast/AstExprNode.cpp:181-207 | an array element is resolved in the variable map, before its index, with no offset and regardless of the array map |
| LowerProps.CallLowering | ast/AstExprNode.cpp:259-287 | a call carries its callee's declaration and its arguments' lowerings in source order and number |
| LowerProps.UnopLowering | ast/AstExprNode.cpp:322-339 | a unary expression lowers exactly for `-` and `not` with a lowering operand, and its code maps back to the operator |
| LowerProps.BinopLowering | ast/AstExprNode.cpp:392-423 | a binary expression lowers exactly for the thirteen operators with both operands lowering, and its code maps back to the operator |
| LowerProps.AssignLowering | ast/AstStmtNode.cpp:53-73 | an assigning statement lowers exactly for `:=`, `inc` and `dec` with both sides lowering, and its code maps back |
| LowerProps.BlockSeesOnlyFunctions | parser/SymTable.cpp:18-24 | a block's lowering depends only on the caller's functions |
| LowerProps.UndeclaredBreakFails | ast/AstStmtNode.cpp:179-235 | a block that declares nothing fails on a break whose condition reads a name |
| LowerProps.WhileOverVariableFails | ast/AstStmtNode.cpp:179-235 | the loop a `while` over a variable desugars to fails to lower |
| LowerProps.ExitInBlockReturnsNothing | ast/AstStmtNode.cpp:179-235 | an `exit` directly in a block returns no result |
| LowerProps.LocDeclIdempotent | ast/AstDeclNode.cpp:57-143 | lowering a declaration again returns the same declaration and table |
| LowerProps.RedeclarationMerges | ast/AstDeclNode.cpp:57-143 | two declarations of one name in a block give one variable |
| LowerProps.ForwardRepeats | ast/AstDeclNode.cpp:252-322 | a forward declaration never fails, and repeating it changes nothing |
| LowerProps.DefinedOnce | ast/AstDeclNode.cpp:322-330 | a second definition of a function fails |
| LowerProps.ForwardThenDefine | ast/AstDeclNode.cpp:252-362 | a definition after a forward declaration keeps its signature and stores the body |
| LowerProps.BindParamsDuplicate | ast/AstDeclNode.cpp:340-352 | two arguments of one name make binding fail |
| LowerProps.DuplicateArgumentFails | ast/AstDeclNode.cpp:340-352 | a definition with two arguments of one name fails |
| LowerProps.ArgumentNamedAsFunctionFails | ast/AstDeclNode.cpp:333-348 | a function with an argument of its own name fails |
| LowerProps.TooManyArgumentsFails | ast/AstDeclNode.cpp:340-352 | a definition with more arguments than its first declaration fails |
| LowerProps.ScopeBindsArguments | ast/AstDeclNode.cpp:331-352 | each argument names the parameter at its position and a function's name names its result |
| LowerProps.LowerFunsAppend | ast/AstDeclNode.cpp:419-429 | lowering a list is lowering its first part, then the rest in the table left behind |
| LowerProps.FirstFailureAborts | ast/AstDeclNode.cpp:419-429 | the first function that fails makes the whole program fail |

## Left out

- GCC GENERIC construction is replaced by the IR datatype. This covers `build*`, the `DECL_*`/`TREE_*` flags, `BLOCK` chaining (ast/AstStmtNode.cpp:220-232), the synthesis of the `scanf`/`printf` declarations, and the string types of string literals.
- `register_global_function_declaration` (ast/AstDeclNode.cpp:427-428) is a call into the backend and is not modelled.
- `FILE*` handling: the lexer reads a `seq<char>`, and the parser reads the token stream of the whole input. The source lexes lazily. The two differ only when a lexical error lies after the token where parsing stops, for example after a dangling `or`. There the model fails and the source may still succeed.
- The text of diagnostics, the `print` methods, destructors, `main.cpp`'s per-file driver loop, `gsfe.c` and `sfe-lang.h` are left out.
- Token payloads: symbol tokens carry the text `""` and the value 0, and number tokens carry the text `""`. The source leaves the previous token's text and value in place instead (parser/LexAnalyzer.cpp:163-228). The parser reads the payload only of identifier, string and number tokens, so parsing is not affected.
- Numerals.Value and the lexer use unbounded integers. C `int` overflow in literal accumulation, in `-peekInt()` and in `end - begin + 1` is not modelled.
- Lower.LowerType: the source's type `translate` can report failure, but never does. Integer types always succeed, and an array fails only when its element type fails. The model is therefore a total function.
- Lower.LowerLocDecl: the result of registering a fresh name is not checked, because the name was just looked up and found absent.
- Lower.BindParams: when a definition has more arguments than its first declaration's parameter chain, the source walks past the end of that chain (a NULL dereference). The model treats this as a failure.
- Lower.LowerParams: parameters are typed with the lowered argument types. The function type's `TREE_LIST` of parameter types is folded into the parameter declarations.
- Parser.ParseDeclsLoc: its own contract states only that declarations are appended and that it stops before `begin`. Which declarations are appended is stated, for printed sections, by ProgramGrammar.SectionsRoundTrip.
- Parser.ParseConstSection: its own contract states only that declarations are appended. The constants themselves are stated, for a printed section, by ProgramGrammar.SectionRoundTrip.
- Parser.ParseVarSection: its own contract states only that declarations are appended. The variables themselves are stated, for a printed section, by ProgramGrammar.SectionRoundTrip.
- Parser.ParseConstDeclRest: its own contract states only that declarations are appended. The constants of the remaining items are stated, for printed items, by ProgramGrammar.ConstItemsRoundTrip.
- Parser.ParseVarDeclRest: its own contract states only that declarations are appended. The variables of the remaining items are stated, for printed items, by ProgramGrammar.VarItemsRoundTrip.
- Parser.ParseBlock: its own contract states only what is kept. What is appended is stated, for a printed block, by ProgramGrammar.BodyRoundTrip.
- Parser.ParseBlockRest: its own contract states only what is kept and that it stops at `end`. The statements appended are stated, for printed statements, by ProgramGrammar.MoreStmtsRoundTrip.
- Parser.ParseStmt: its own contract states only what is kept. The statement each keyword yields is stated, for every printed well-formed statement, by ProgramGrammar.StmtRoundTrip.
- Parser.ParseIf: its own contract states only the kind and count of what is appended. The condition and branches are stated by ProgramGrammar.IfRoundTrip.
- Parser.ParseCounterOrRead: its own contract states only the count and which keyword gives a read. The statement is stated by ProgramGrammar.CounterRoundTrip.
- Parser.ParseWrite: its own contract states only the kind of statement. Its format and string are stated by ProgramGrammar.WriteRoundTrip.
- Parser.ParseWriteln: its own contract states only the kind of statement. Its format and operand are stated by ProgramGrammar.WritelnRoundTrip.
- Parser.ParseStmtIdent: its own contract states only the count. The assignment or call is stated by ProgramGrammar.AssignRoundTrip and ProgramGrammar.ProcCallRoundTrip.
- Parser.ParseStmtLvalIdent: its own contract states only the target's name and whether it is a variable or an array element. The index expression is stated by ProgramGrammar.TargetRoundTrip.
- Parser.ParseElseBranch: its own contract states the case without `else` and that a branch is read exactly after `else`. What that branch holds is stated by ProgramGrammar.ElseRoundTrip.
- Parser.ParseFunDeclArgs: its own contract states only that parameters are appended. Their names and types are stated, for a printed list, by ProgramGrammar.ParamsRoundTrip.
- Parser.ParseFunDeclArgsRest: its own contract states only that parameters are appended. Their names and types are stated by ProgramGrammar.MoreParamsRoundTrip.
- Parser.ParseDeclsGlob: its own contract states only that earlier functions are kept. The functions added are stated, for printed routines, by ProgramGrammar.RoutinesRoundTrip.
- Parser.ParseFunDecl: its own contract states only the result-type fact. The name, parameters and body are stated by ProgramGrammar.RoutineRoundTrip.
- Parser.ParseResult: its own contract states only whether a type is read. The type itself is stated by ProgramGrammar.ResultRoundTrip.
- Parser.ParseProgram: its own contract states the header name and the shape of `main`. The routines and the main block are stated by ProgramGrammar.ProgramRoundTrip.
- The round trips cover printed well-formed input only. On other token streams the parser functions' results are stated only by their own contracts.
