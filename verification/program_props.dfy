/** The round trip for whole programs: printed, every well-formed program
    parses to the AST its constructs stand for. The lemmas follow the
    grammar from the bottom up: numbers, types and identifier lists, the
    declaration sections, statements and bodies, parameter lists and
    routines, and the program itself.

    Positions are passed as separate parameters tied together by
    equations, as in the expression round trip. */
module ProgramGrammar {
  import opened Optional
  import opened Tokens
  import opened Ast
  import opened Parser
  import opened ExprGrammar
  import opened Syntax
  import opened StmtGrammar
  import LexerProps

  /* Blocks. */

  lemma JoinAssoc(a: Block, b: Block, c: Block)
    ensures Join(Join(a, b), c) == Join(a, Join(b, c))
  {
    assert a.decls + b.decls + c.decls == a.decls + (b.decls + c.decls);
    assert a.stmts + b.stmts + c.stmts == a.stmts + (b.stmts + c.stmts);
  }

  lemma JoinEmpty(a: Block)
    ensures Join(a, EmptyBlock) == a && Join(EmptyBlock, a) == a
  {
    assert a.decls + [] == a.decls && a.stmts + [] == a.stmts;
  }

  /** Joining a single statement appends it. */
  lemma JoinSingle(a: Block, s: Stmt)
    ensures Join(a, Single(s)) == Block(a.decls, a.stmts + [s])
  {
    assert a.decls + [] == a.decls;
  }

  lemma AtTwo(toks: seq<Token>, pos: nat, t1: Token, t2: Token)
    requires At(toks, pos, [t1, t2])
    ensures pos + 1 < |toks| && toks[pos] == t1 && toks[pos + 1] == t2
  {
    AtCons(toks, pos, t1, [t2], pos + 1);
    AtFirst(toks, pos + 1, [t2]);
  }

  /* Numbers, types and identifier lists. */

  /** A printed integer constant parses back to its value. */
  lemma NumRoundTrip(v: int, toks: seq<Token>, pos: nat, end: nat)
    requires At(toks, pos, RenderNum(v)) && end == pos + |RenderNum(v)|
    ensures ParseMinusNumber(toks, pos) == Done(v, end)
  {
    if v < 0 {
      AtTwo(toks, pos, Sym(Minus), Token(Number, "", -v));
      assert Match(toks, pos + 1, Number) == Done(toks[pos + 1], end);
    } else {
      AtFirst(toks, pos, RenderNum(v));
    }
  }

  /** Where the parts of a printed array type lie. */
  lemma ArrayTypeTokens(lo: int, hi: int, elem: TypeNode, toks: seq<Token>, pos: nat,
                        p2: nat, p3: nat, p4: nat, p5: nat, p6: nat, p7: nat, end: nat)
    requires At(toks, pos, RenderType(ArrType(lo, hi, elem))) && end == pos + |RenderType(ArrType(lo, hi, elem))|
    requires p2 == pos + 2 && p3 == p2 + |RenderNum(lo)| && p4 == p3 + 1
    requires p5 == p4 + |RenderNum(hi)| && p6 == p5 + 1 && p7 == p6 + 1
    ensures end == p7 + |RenderType(elem)|
    ensures Peek(toks, pos) == KwArr && Peek(toks, pos + 1) == LBra && Peek(toks, p3) == DDot
    ensures Peek(toks, p5) == RBra && Peek(toks, p6) == KwOf
    ensures At(toks, p2, RenderNum(lo)) && At(toks, p4, RenderNum(hi)) && At(toks, p7, RenderType(elem))
  {
    var open, nl, nh := [Sym(KwArr), Sym(LBra)], RenderNum(lo), RenderNum(hi);
    var close := [Sym(RBra), Sym(KwOf)];
    AtSplit(toks, pos, open + nl + [Sym(DDot)] + nh + close, RenderType(elem), p7);
    AtSplit(toks, pos, open + nl + [Sym(DDot)] + nh, close, p5);
    AtSplit(toks, pos, open + nl + [Sym(DDot)], nh, p4);
    AtSplit(toks, pos, open + nl, [Sym(DDot)], p3);
    AtSplit(toks, pos, open, nl, p2);
    AtTwo(toks, pos, Sym(KwArr), Sym(LBra));
    AtFirst(toks, p3, [Sym(DDot)]);
    AtTwo(toks, p5, Sym(RBra), Sym(KwOf));
  }

  /** `array [lo .. hi] of T` with increasing bounds gives the array type. */
  lemma ArrayTypeStep(toks: seq<Token>, pos: nat, p2: nat, p3: nat, p4: nat, p5: nat, p6: nat, p7: nat, end: nat,
                      lo: int, hi: int, elem: TypeNode)
    requires p7 <= |toks| && p2 == pos + 2 && p4 == p3 + 1 && p6 == p5 + 1 && p7 == p6 + 1
    requires Peek(toks, pos) == KwArr && Peek(toks, pos + 1) == LBra && Peek(toks, p3) == DDot
    requires Peek(toks, p5) == RBra && Peek(toks, p6) == KwOf
    requires ParseMinusNumber(toks, p2) == Done(lo, p3) && ParseMinusNumber(toks, p4) == Done(hi, p5)
    requires ParseTypeIdent(toks, p7) == Done(elem, end) && lo < hi
    ensures ParseTypeIdent(toks, pos) == Done(ArrType(lo, hi, elem), end)
  {
    assert Match(toks, pos + 1, LBra) == Done(toks[pos + 1], p2);
    assert Match(toks, p3, DDot) == Done(toks[p3], p4);
    assert Match(toks, p5, RBra) == Done(toks[p5], p6);
    assert Match(toks, p6, KwOf) == Done(toks[p6], p7);
  }

  /** A printed type whose array bounds are increasing parses back to
      itself. */
  lemma {:induction false} TypeRoundTrip(ty: TypeNode, toks: seq<Token>, pos: nat, end: nat)
    requires TypeOk(ty) && At(toks, pos, RenderType(ty)) && end == pos + |RenderType(ty)|
    ensures ParseTypeIdent(toks, pos) == Done(ty, end)
    decreases ty
  {
    match ty
    case IntType =>
      AtFirst(toks, pos, RenderType(ty));
    case ArrType(lo, hi, elem) =>
      var p2 := pos + 2;
      var p3 := p2 + |RenderNum(lo)|;
      var p4 := p3 + 1;
      var p5 := p4 + |RenderNum(hi)|;
      var p6 := p5 + 1;
      var p7 := p6 + 1;
      ArrayTypeTokens(lo, hi, elem, toks, pos, p2, p3, p4, p5, p6, p7, end);
      NumRoundTrip(lo, toks, p2, p3);
      NumRoundTrip(hi, toks, p4, p5);
      TypeRoundTrip(elem, toks, p7, end);
      AtBound(toks, p7, RenderType(elem));
      ArrayTypeStep(toks, pos, p2, p3, p4, p5, p6, p7, end, lo, hi, elem);
  }

  /** Printed further names are the comma-identifier pairs the
      identifier-list lemmas speak of. */
  lemma {:induction false} MoreNamesListed(names: seq<string>, toks: seq<Token>, pos: nat)
    requires At(toks, pos, RenderMoreNames(names))
    ensures ListAt(toks, pos, names) && |RenderMoreNames(names)| == 2 * |names|
    decreases |names|
  {
    if |names| > 0 {
      var pair := [Sym(Comma), IdentTok(names[0])];
      AtSplit(toks, pos, pair, RenderMoreNames(names[1..]), pos + 2);
      AtTwo(toks, pos, Sym(Comma), IdentTok(names[0]));
      MoreNamesListed(names[1..], toks, pos + 2);
    }
  }

  lemma NamesRoundTrip(names: seq<string>, toks: seq<Token>, pos: nat, ids: seq<string>, end: nat)
    requires At(toks, pos, RenderMoreNames(names)) && end == pos + |RenderMoreNames(names)|
    requires Peek(toks, end) in {Eq, Col}
    ensures ParseIdentListRest(toks, pos, ids) == Done(ids + names, end)
  {
    MoreNamesListed(names, toks, pos);
    AtBound(toks, pos, RenderMoreNames(names));
    IdentListCollects(toks, pos, ids, names, end);
  }

  /* Declaration sections. */

  lemma ConstItemDeclsCons(items: seq<(seq<string>, int)>, pre: seq<LocDecl>)
    requires |items| > 0
    ensures pre + ConstDecls(items[0].0, items[0].1) + ConstItemDecls(items[1..]) == pre + ConstItemDecls(items)
  {
  }

  lemma VarItemDeclsCons(items: seq<(seq<string>, TypeNode)>, pre: seq<LocDecl>)
    requires |items| > 0
    ensures pre + VarDecls(items[0].0, items[0].1) + VarItemDecls(items[1..]) == pre + VarItemDecls(items)
  {
  }

  /** Where the parts of a printed `names = value;` item lie. */
  lemma ConstItemTokens(names: seq<string>, v: int, toks: seq<Token>, pos: nat, p1: nat, pe: nat, pv: nat, ps: nat, next: nat)
    requires |names| > 0 && At(toks, pos, RenderConstItem((names, v))) && next == pos + |RenderConstItem((names, v))|
    requires p1 == pos + 1 && pe == p1 + |RenderMoreNames(names[1..])| && pv == pe + 1 && ps == pv + |RenderNum(v)|
    ensures next == ps + 1 && pos < |toks| && toks[pos] == IdentTok(names[0])
    ensures At(toks, p1, RenderMoreNames(names[1..])) && Peek(toks, pe) == Eq
    ensures At(toks, pv, RenderNum(v)) && Peek(toks, ps) == SCol
  {
    var rn := RenderMoreNames(names[1..]);
    assert RenderNames(names) == [IdentTok(names[0])] + rn;
    AtSplit(toks, pos, RenderNames(names) + [Sym(Eq)] + RenderNum(v), [Sym(SCol)], ps);
    AtSplit(toks, pos, RenderNames(names) + [Sym(Eq)], RenderNum(v), pv);
    AtSplit(toks, pos, RenderNames(names), [Sym(Eq)], pe);
    AtCons(toks, pos, IdentTok(names[0]), rn, p1);
    AtFirst(toks, pe, [Sym(Eq)]);
    AtFirst(toks, ps, [Sym(SCol)]);
  }

  /** One `names = value;` item adds a constant declaration per name. */
  lemma ConstItemStep(toks: seq<Token>, pos: nat, names: seq<string>, v: int, pe: nat, pv: nat, ps: nat, next: nat, blk: Block)
    requires pos < |toks| && toks[pos].kind == Ident
    requires ParseIdentListRest(toks, pos + 1, [toks[pos].text]) == Done(names, pe) && Peek(toks, pe) == Eq && pv == pe + 1
    requires ParseMinusNumber(toks, pv) == Done(v, ps) && Peek(toks, ps) == SCol && next == ps + 1
    ensures ParseConstDeclRest(toks, pos, blk) == ParseConstDeclRest(toks, next, Block(blk.decls + ConstDecls(names, v), blk.stmts))
  {
    assert Match(toks, pe, Eq) == Done(toks[pe], pv);
    assert Match(toks, ps, SCol) == Done(toks[ps], next);
  }

  /** A printed `names = value;` item declares its names with the value. */
  lemma ConstItemParses(item: (seq<string>, int), toks: seq<Token>, pos: nat, next: nat, blk: Block)
    requires |item.0| > 0 && At(toks, pos, RenderConstItem(item)) && next == pos + |RenderConstItem(item)|
    ensures next <= |toks|
    ensures ParseConstDeclRest(toks, pos, blk) ==
      ParseConstDeclRest(toks, next, Block(blk.decls + ConstDecls(item.0, item.1), blk.stmts))
  {
    var names, v := item.0, item.1;
    var p1 := pos + 1;
    var pe := p1 + |RenderMoreNames(names[1..])|;
    var pv := pe + 1;
    var ps := pv + |RenderNum(v)|;
    ConstItemTokens(names, v, toks, pos, p1, pe, pv, ps, next);
    NamesRoundTrip(names[1..], toks, p1, [names[0]], pe);
    assert [names[0]] + names[1..] == names;
    NumRoundTrip(v, toks, pv, ps);
    ConstItemStep(toks, pos, names, v, pe, pv, ps, next, blk);
  }

  /** Printed `names = value;` items, followed by a token that opens a
      section or the statements, parse to one constant declaration per
      name, item by item. */
  lemma {:induction false} ConstItemsRoundTrip(items: seq<(seq<string>, int)>, toks: seq<Token>, pos: nat, end: nat, blk: Block)
    requires forall i | 0 <= i < |items| :: |items[i].0| > 0
    requires At(toks, pos, RenderConstItems(items)) && end == pos + |RenderConstItems(items)|
    requires StartsBlock(Peek(toks, end))
    ensures ParseConstDeclRest(toks, pos, blk) == Done(Block(blk.decls + ConstItemDecls(items), blk.stmts), end)
    decreases |items|
  {
    if |items| == 0 {
      assert blk.decls + ConstItemDecls(items) == blk.decls;
    } else {
      var next := pos + |RenderConstItem(items[0])|;
      AtSplit(toks, pos, RenderConstItem(items[0]), RenderConstItems(items[1..]), next);
      ConstItemParses(items[0], toks, pos, next, blk);
      var blk1 := Block(blk.decls + ConstDecls(items[0].0, items[0].1), blk.stmts);
      ConstItemsRoundTrip(items[1..], toks, next, end, blk1);
      ConstItemDeclsCons(items, blk.decls);
    }
  }

  /** Where the parts of a printed `names : type;` item lie. */
  lemma VarItemTokens(names: seq<string>, ty: TypeNode, toks: seq<Token>, pos: nat, p1: nat, pc: nat, pt: nat, ps: nat, next: nat)
    requires |names| > 0 && At(toks, pos, RenderVarItem((names, ty))) && next == pos + |RenderVarItem((names, ty))|
    requires p1 == pos + 1 && pc == p1 + |RenderMoreNames(names[1..])| && pt == pc + 1 && ps == pt + |RenderType(ty)|
    ensures next == ps + 1 && pos < |toks| && toks[pos] == IdentTok(names[0])
    ensures At(toks, p1, RenderMoreNames(names[1..])) && Peek(toks, pc) == Col
    ensures At(toks, pt, RenderType(ty)) && Peek(toks, ps) == SCol
  {
    var rn := RenderMoreNames(names[1..]);
    assert RenderNames(names) == [IdentTok(names[0])] + rn;
    AtSplit(toks, pos, RenderNames(names) + [Sym(Col)] + RenderType(ty), [Sym(SCol)], ps);
    AtSplit(toks, pos, RenderNames(names) + [Sym(Col)], RenderType(ty), pt);
    AtSplit(toks, pos, RenderNames(names), [Sym(Col)], pc);
    AtCons(toks, pos, IdentTok(names[0]), rn, p1);
    AtFirst(toks, pc, [Sym(Col)]);
    AtFirst(toks, ps, [Sym(SCol)]);
  }

  /** One `names : type;` item adds a variable declaration per name. */
  lemma VarItemStep(toks: seq<Token>, pos: nat, names: seq<string>, ty: TypeNode, pc: nat, pt: nat, ps: nat, next: nat, blk: Block)
    requires pos < |toks| && toks[pos].kind == Ident
    requires ParseIdentListRest(toks, pos + 1, [toks[pos].text]) == Done(names, pc) && Peek(toks, pc) == Col && pt == pc + 1
    requires ParseTypeIdent(toks, pt) == Done(ty, ps) && Peek(toks, ps) == SCol && next == ps + 1
    ensures ParseVarDeclRest(toks, pos, blk) == ParseVarDeclRest(toks, next, Block(blk.decls + VarDecls(names, ty), blk.stmts))
  {
    assert Match(toks, pc, Col) == Done(toks[pc], pt);
    assert Match(toks, ps, SCol) == Done(toks[ps], next);
  }

  /** A printed `names : type;` item declares its names with the type. */
  lemma VarItemParses(item: (seq<string>, TypeNode), toks: seq<Token>, pos: nat, next: nat, blk: Block)
    requires |item.0| > 0 && TypeOk(item.1)
    requires At(toks, pos, RenderVarItem(item)) && next == pos + |RenderVarItem(item)|
    ensures next <= |toks|
    ensures ParseVarDeclRest(toks, pos, blk) ==
      ParseVarDeclRest(toks, next, Block(blk.decls + VarDecls(item.0, item.1), blk.stmts))
  {
    var names, ty := item.0, item.1;
    var p1 := pos + 1;
    var pc := p1 + |RenderMoreNames(names[1..])|;
    var pt := pc + 1;
    var ps := pt + |RenderType(ty)|;
    VarItemTokens(names, ty, toks, pos, p1, pc, pt, ps, next);
    NamesRoundTrip(names[1..], toks, p1, [names[0]], pc);
    assert [names[0]] + names[1..] == names;
    TypeRoundTrip(ty, toks, pt, ps);
    VarItemStep(toks, pos, names, ty, pc, pt, ps, next, blk);
  }

  /** Printed `names : type;` items, likewise, with one variable
      declaration per name. */
  lemma {:induction false} VarItemsRoundTrip(items: seq<(seq<string>, TypeNode)>, toks: seq<Token>, pos: nat, end: nat, blk: Block)
    requires forall i | 0 <= i < |items| :: |items[i].0| > 0 && TypeOk(items[i].1)
    requires At(toks, pos, RenderVarItems(items)) && end == pos + |RenderVarItems(items)|
    requires StartsBlock(Peek(toks, end))
    ensures ParseVarDeclRest(toks, pos, blk) == Done(Block(blk.decls + VarItemDecls(items), blk.stmts), end)
    decreases |items|
  {
    if |items| == 0 {
      assert blk.decls + VarItemDecls(items) == blk.decls;
    } else {
      var next := pos + |RenderVarItem(items[0])|;
      AtSplit(toks, pos, RenderVarItem(items[0]), RenderVarItems(items[1..]), next);
      VarItemParses(items[0], toks, pos, next, blk);
      var blk1 := Block(blk.decls + VarDecls(items[0].0, items[0].1), blk.stmts);
      VarItemsRoundTrip(items[1..], toks, next, end, blk1);
      VarItemDeclsCons(items, blk.decls);
    }
  }

  /** The first item of a section is parsed as the later ones are. */
  lemma SectionStartsLikeRest(toks: seq<Token>, pos: nat, blk: Block)
    requires pos < |toks| && toks[pos].kind == Ident
    ensures ParseConstSection(toks, pos, blk) == ParseConstDeclRest(toks, pos, blk)
    ensures ParseVarSection(toks, pos, blk) == ParseVarDeclRest(toks, pos, blk)
  {
    assert Match(toks, pos, Ident) == Done(PeekTok(toks, pos), pos + 1);
  }

  /** A printed section, after its keyword, parses to the declarations of
      its items. */
  lemma SectionRoundTrip(sec: Section, toks: seq<Token>, pos: nat, p1: nat, end: nat, blk: Block)
    requires SectionOk(sec) && At(toks, pos, RenderSection(sec)) && end == pos + |RenderSection(sec)|
    requires StartsBlock(Peek(toks, end)) && p1 == pos + 1
    ensures pos < |toks| && Peek(toks, pos) == (if sec.Consts? then KwConst else KwVar)
    ensures sec.Consts? ==> ParseConstSection(toks, p1, blk) == Done(Block(blk.decls + SectionDecls(sec), blk.stmts), end)
    ensures sec.Vars? ==> ParseVarSection(toks, p1, blk) == Done(Block(blk.decls + SectionDecls(sec), blk.stmts), end)
  {
    match sec
    case Consts(items) =>
      AtCons(toks, pos, Sym(KwConst), RenderConstItems(items), p1);
      assert RenderConstItems(items)[0] == IdentTok(items[0].0[0]);
      AtFirst(toks, p1, RenderConstItems(items));
      SectionStartsLikeRest(toks, p1, blk);
      ConstItemsRoundTrip(items, toks, p1, end, blk);
    case Vars(items) =>
      AtCons(toks, pos, Sym(KwVar), RenderVarItems(items), p1);
      assert RenderVarItems(items)[0] == IdentTok(items[0].0[0]);
      AtFirst(toks, p1, RenderVarItems(items));
      SectionStartsLikeRest(toks, p1, blk);
      VarItemsRoundTrip(items, toks, p1, end, blk);
  }

  /** In the declaration part, a printed section adds the declarations of
      its items and the part goes on after it. */
  lemma ConstSectionStep(toks: seq<Token>, pos: nat, blk: Block, b1: Block, q: nat, r: Parsed<Block>)
    requires pos < |toks| && Peek(toks, pos) == KwConst
    requires ParseConstSection(toks, pos + 1, blk) == Done(b1, q)
    requires q <= |toks| && ParseDeclsLoc(toks, q, b1) == r
    ensures ParseDeclsLoc(toks, pos, blk) == r
  {
  }

  lemma VarSectionStep(toks: seq<Token>, pos: nat, blk: Block, b1: Block, q: nat, r: Parsed<Block>)
    requires pos < |toks| && Peek(toks, pos) == KwVar
    requires ParseVarSection(toks, pos + 1, blk) == Done(b1, q)
    requires q <= |toks| && ParseDeclsLoc(toks, q, b1) == r
    ensures ParseDeclsLoc(toks, pos, blk) == r
  {
  }

  lemma SectionChain(toks: seq<Token>, pos: nat, isConst: bool, blk: Block, b1: Block, q: nat, r: Parsed<Block>)
    requires pos < |toks| && Peek(toks, pos) == (if isConst then KwConst else KwVar)
    requires isConst ==> ParseConstSection(toks, pos + 1, blk) == Done(b1, q)
    requires !isConst ==> ParseVarSection(toks, pos + 1, blk) == Done(b1, q)
    requires q <= |toks| && ParseDeclsLoc(toks, q, b1) == r
    ensures ParseDeclsLoc(toks, pos, blk) == r
  {
    if isConst {
      ConstSectionStep(toks, pos, blk, b1, q, r);
    } else {
      VarSectionStep(toks, pos, blk, b1, q, r);
    }
  }

  lemma NoSections(toks: seq<Token>, pos: nat, blk: Block)
    requires pos <= |toks| && Peek(toks, pos) == KwBegin
    ensures ParseDeclsLoc(toks, pos, blk) == Done(blk, pos)
  {
  }

  lemma SectionsTokens(secs: seq<Section>, toks: seq<Token>, pos: nat, mid: nat, end: nat)
    requires |secs| > 0 && At(toks, pos, RenderSections(secs)) && end == pos + |RenderSections(secs)|
    requires Peek(toks, end) == KwBegin && mid == pos + |RenderSection(secs[0])|
    ensures mid <= end <= |toks| && At(toks, pos, RenderSection(secs[0]))
    ensures At(toks, mid, RenderSections(secs[1..])) && end == mid + |RenderSections(secs[1..])|
    ensures StartsBlock(Peek(toks, mid))
  {
    AtSplit(toks, pos, RenderSection(secs[0]), RenderSections(secs[1..]), mid);
    AtBound(toks, mid, RenderSections(secs[1..]));
    SectionsStart(secs[1..], toks, mid, end);
  }

  /** Printed sections start with a section keyword, or are followed by
      `begin` when there are none. */
  lemma SectionsStart(secs: seq<Section>, toks: seq<Token>, pos: nat, end: nat)
    requires At(toks, pos, RenderSections(secs)) && end == pos + |RenderSections(secs)|
    requires Peek(toks, end) == KwBegin
    ensures StartsBlock(Peek(toks, pos))
  {
    if |secs| > 0 {
      assert RenderSections(secs)[0] == RenderSection(secs[0])[0];
      AtFirst(toks, pos, RenderSections(secs));
    }
  }

  lemma SectionsDeclsCons(secs: seq<Section>, pre: seq<LocDecl>)
    requires |secs| > 0
    ensures pre + SectionDecls(secs[0]) + SectionsDecls(secs[1..]) == pre + SectionsDecls(secs)
  {
  }

  /** The block after the first section, extended by the rest, is the
      block extended by all sections. */
  lemma SectionsBlockCons(secs: seq<Section>, blk: Block, blk1: Block)
    requires |secs| > 0 && blk1 == Block(blk.decls + SectionDecls(secs[0]), blk.stmts)
    ensures Block(blk1.decls + SectionsDecls(secs[1..]), blk1.stmts) == Block(blk.decls + SectionsDecls(secs), blk.stmts)
  {
    SectionsDeclsCons(secs, blk.decls);
  }

  /** A printed first section steps the declaration part to the block
      extended by its items. */
  lemma SectionsFirst(sec: Section, toks: seq<Token>, pos: nat, mid: nat, blk: Block, blk1: Block, r: Parsed<Block>)
    requires SectionOk(sec) && At(toks, pos, RenderSection(sec)) && mid == pos + |RenderSection(sec)|
    requires StartsBlock(Peek(toks, mid)) && blk1 == Block(blk.decls + SectionDecls(sec), blk.stmts)
    requires mid <= |toks| && ParseDeclsLoc(toks, mid, blk1) == r
    ensures ParseDeclsLoc(toks, pos, blk) == r
  {
    SectionRoundTrip(sec, toks, pos, pos + 1, mid, blk);
    SectionChain(toks, pos, sec.Consts?, blk, blk1, mid, r);
  }

  /** Printed sections followed by `begin` parse to the declarations of
      all their items, section by section. */
  lemma {:induction false} SectionsRoundTrip(secs: seq<Section>, toks: seq<Token>, pos: nat, end: nat, blk: Block)
    requires forall i | 0 <= i < |secs| :: SectionOk(secs[i])
    requires At(toks, pos, RenderSections(secs)) && end == pos + |RenderSections(secs)|
    requires Peek(toks, end) == KwBegin
    ensures ParseDeclsLoc(toks, pos, blk) == Done(Block(blk.decls + SectionsDecls(secs), blk.stmts), end)
    decreases |secs|
  {
    if |secs| == 0 {
      assert blk.decls + SectionsDecls(secs) == blk.decls;
      NoSections(toks, pos, blk);
    } else {
      var mid := pos + |RenderSection(secs[0])|;
      SectionsTokens(secs, toks, pos, mid, end);
      var blk1 := Block(blk.decls + SectionDecls(secs[0]), blk.stmts);
      SectionsRoundTrip(secs[1..], toks, mid, end, blk1);
      SectionsBlockCons(secs, blk, blk1);
      SectionsFirst(secs[0], toks, pos, mid, blk, blk1, Done(Block(blk.decls + SectionsDecls(secs), blk.stmts), end));
    }
  }


  /* Simple statements. */

  /** The statement keyword chooses the parser of the rest. */
  lemma StmtDispatch(toks: seq<Token>, pos: nat, blk: Block)
    requires pos < |toks|
    ensures toks[pos].kind == Ident ==> ParseStmt(toks, pos, blk) == ParseStmtIdent(toks, pos + 1, toks[pos].text, blk)
    ensures toks[pos].kind == KwIf ==> ParseStmt(toks, pos, blk) == ParseIf(toks, pos + 1, blk)
    ensures toks[pos].kind == KwWhile ==> ParseStmt(toks, pos, blk) == ParseWhile(toks, pos + 1, blk)
    ensures toks[pos].kind == KwFor ==> ParseStmt(toks, pos, blk) == ParseFor(toks, pos + 1, blk)
    ensures StartsBlock(toks[pos].kind) ==> ParseStmt(toks, pos, blk) == ParseBlock(toks, pos, blk)
    ensures toks[pos].kind in {KwInc, KwDec, KwReadln} ==>
      ParseStmt(toks, pos, blk) == ParseCounterOrRead(toks, pos + 1, toks[pos].kind, blk)
    ensures toks[pos].kind == KwWrite ==> ParseStmt(toks, pos, blk) == ParseWrite(toks, pos + 1, blk)
    ensures toks[pos].kind == KwWriteln ==> ParseStmt(toks, pos, blk) == ParseWriteln(toks, pos + 1, blk)
  {
  }

  lemma JoinPair(a: Block, s1: Stmt, s2: Stmt)
    ensures Join(a, Block([], [s1, s2])) == Block(a.decls, a.stmts + [s1, s2])
  {
    assert a.decls + [] == a.decls;
  }

  /** A printed target, followed by `:=` or `)`, is an identifier whose
      rest parses back to the target. */
  lemma TargetRoundTrip(x: Expr, toks: seq<Token>, pos: nat, p1: nat, end: nat)
    requires IsTarget(x) && At(toks, pos, Render(x)) && end == pos + |Render(x)| && p1 == pos + 1
    requires Peek(toks, end) in {Assgn, RPar}
    ensures pos < |toks| && toks[pos].kind == Ident && toks[pos].text == x.name
    ensures x.Var? ==> Peek(toks, p1) == Peek(toks, end)
    ensures x.ArrRef? ==> Peek(toks, p1) == LBra
    ensures ParseStmtLvalIdent(toks, p1, x.name) == Done(x, end)
  {
    AtBound(toks, pos, Render(x));
    match x
    case Var(n) =>
      AtFirst(toks, pos, Render(x));
    case ArrRef(n, i) =>
      var p2 := p1 + 1;
      var m := p2 + |Render(i)|;
      ArrRefTokens(n, i, toks, pos, p1, p2, m);
      RoundTrip0(i, toks, p2, m);
      ElementTarget(toks, p1, n, p2, i, m, end);
  }

  /** `x := V` printed parses to the assignment. */
  lemma AssignRoundTrip(x: Expr, v: Expr, toks: seq<Token>, pos: nat, end: nat, blk: Block)
    requires IsTarget(x) && WellFormed(v)
    requires At(toks, pos, RenderStmt(Assignment(x, v))) && end == pos + |RenderStmt(Assignment(x, v))|
    requires EndsExpr0(Peek(toks, end))
    ensures ParseStmt(toks, pos, blk) == Done(Join(blk, Desugar(Assignment(x, v))), end)
  {
    var px := pos + |Render(x)|;
    var pv := px + 1;
    AtSplit(toks, pos, Render(x) + [Sym(Assgn)], Render(v), pv);
    AtSnoc(toks, pos, Render(x), Sym(Assgn), px);
    TargetRoundTrip(x, toks, pos, pos + 1, px);
    RoundTrip0(v, toks, pv, end);
    assert Desugar(Assignment(x, v)) == Single(BinopStmt(Assgn, x, v));
    JoinSingle(blk, BinopStmt(Assgn, x, v));
    AssignParses(toks, pos + 1, x.name, blk, x, px, pv, v, end);
    StmtDispatch(toks, pos, blk);
  }

  /** `p(A1, ..., An)` printed parses to the call statement. */
  lemma ProcCallRoundTrip(n: string, args: seq<Expr>, toks: seq<Token>, pos: nat, end: nat, blk: Block)
    requires forall a | a in args :: WellFormed(a)
    requires At(toks, pos, RenderStmt(ProcCall(n, args))) && end == pos + |RenderStmt(ProcCall(n, args))|
    ensures ParseStmt(toks, pos, blk) == Done(Join(blk, Desugar(ProcCall(n, args))), end)
  {
    var p1 := pos + 1;
    var p2 := p1 + 1;
    var m := p2 + |RenderArgs(args)|;
    CallTokens(n, args, toks, pos, p1, p2, m);
    RoundTripArgs(n, args, toks, p2, m);
    CallStmtParses(toks, p1, n, blk, p2, Call(n, args), m, end);
    StmtDispatch(toks, pos, blk);
    JoinSingle(blk, CallStmt(Call(n, args)));
  }

  /** Where the parts of `k ( X )` lie. */
  lemma ParenTokens(k: Kind, body: seq<Token>, toks: seq<Token>, pos: nat, p1: nat, p2: nat, m: nat, end: nat)
    requires At(toks, pos, [Sym(k), Sym(LPar)] + body + [Sym(RPar)]) && end == pos + |body| + 3
    requires p1 == pos + 1 && p2 == p1 + 1 && m == p2 + |body|
    ensures pos + 1 < |toks| && toks[pos].kind == k && toks[p1].kind == LPar
    ensures At(toks, p2, body) && Peek(toks, m) == RPar && end == m + 1
  {
    AtSplit(toks, pos, [Sym(k), Sym(LPar)] + body, [Sym(RPar)], m);
    AtSplit(toks, pos, [Sym(k), Sym(LPar)], body, p2);
    AtTwo(toks, pos, Sym(k), Sym(LPar));
    AtFirst(toks, m, [Sym(RPar)]);
  }

  /** `inc(x)`, `dec(x)` and `readln(x)` printed parse to the step or
      the read of the target. */
  lemma CounterRoundTrip(k: Kind, x: Expr, toks: seq<Token>, pos: nat, end: nat, blk: Block)
    requires k in {KwInc, KwDec, KwReadln} && IsTarget(x)
    requires At(toks, pos, [Sym(k), Sym(LPar)] + Render(x) + [Sym(RPar)]) && end == pos + |Render(x)| + 3
    ensures ParseStmt(toks, pos, blk) ==
      Done(Block(blk.decls, blk.stmts + [if k == KwReadln then Read("%d", x) else BinopStmt(k, x, IntLit(1))]), end)
  {
    var p1 := pos + 1;
    var p2 := p1 + 1;
    var m := p2 + |Render(x)|;
    ParenTokens(k, Render(x), toks, pos, p1, p2, m, end);
    TargetRoundTrip(x, toks, p2, p2 + 1, m);
    CounterParses(toks, p1, k, blk, p2 + 1, x, m, end);
    StmtDispatch(toks, pos, blk);
  }

  lemma WriteTokens(text: string, toks: seq<Token>, pos: nat, p2: nat)
    requires At(toks, pos, RenderStmt(WriteStmt(text))) && p2 == pos + 2
    ensures pos + 3 < |toks| && toks[pos].kind == KwWrite && toks[pos + 1].kind == LPar
    ensures toks[p2] == Token(Str, text, 0) && toks[p2 + 1].kind == RPar
  {
    var st := Token(Str, text, 0);
    assert RenderStmt(WriteStmt(text)) == [Sym(KwWrite), Sym(LPar)] + [st, Sym(RPar)];
    AtSplit(toks, pos, [Sym(KwWrite), Sym(LPar)], [st, Sym(RPar)], p2);
    AtTwo(toks, pos, Sym(KwWrite), Sym(LPar));
    AtTwo(toks, p2, st, Sym(RPar));
  }

  /** `write('text')` printed parses to the write of the text. */
  lemma WriteRoundTrip(text: string, toks: seq<Token>, pos: nat, end: nat, blk: Block)
    requires At(toks, pos, RenderStmt(WriteStmt(text))) && end == pos + 4
    ensures ParseStmt(toks, pos, blk) == Done(Join(blk, Desugar(WriteStmt(text))), end)
  {
    assert Desugar(WriteStmt(text)) == Single(Write("%s", StrLit(text)));
    JoinSingle(blk, Write("%s", StrLit(text)));
    WriteTokens(text, toks, pos, pos + 2);
    WriteParses(toks, pos + 1, blk, end);
    StmtDispatch(toks, pos, blk);
  }

  /** `writeln(E)` printed parses to the write of `E`. */
  lemma WritelnRoundTrip(e: Expr, toks: seq<Token>, pos: nat, end: nat, blk: Block)
    requires WellFormed(e)
    requires At(toks, pos, RenderStmt(WritelnStmt(e))) && end == pos + |RenderStmt(WritelnStmt(e))|
    ensures ParseStmt(toks, pos, blk) == Done(Join(blk, Desugar(WritelnStmt(e))), end)
  {
    var p1 := pos + 1;
    var p2 := p1 + 1;
    var m := p2 + |Render(e)|;
    ParenTokens(KwWriteln, Render(e), toks, pos, p1, p2, m, end);
    RoundTrip0(e, toks, p2, m);
    WritelnParses(toks, p1, blk, p2, e, m, end);
    StmtDispatch(toks, pos, blk);
    JoinSingle(blk, Write("%d\n", e));
  }

  /* Compound statements and bodies. */

  lemma IfTokens(c: Expr, th: Statement, el: Option<Statement>, toks: seq<Token>, pos: nat,
                 p1: nat, m: nat, t: nat, q: nat, end: nat)
    requires At(toks, pos, RenderStmt(IfStmt(c, th, el))) && end == pos + |RenderStmt(IfStmt(c, th, el))|
    requires p1 == pos + 1 && m == p1 + |Render(c)| && t == m + 1 && q == t + |RenderStmt(th)|
    ensures pos < |toks| && toks[pos].kind == KwIf && At(toks, p1, Render(c)) && Peek(toks, m) == KwThen
    ensures At(toks, t, RenderStmt(th)) && At(toks, q, RenderElse(el)) && end == q + |RenderElse(el)|
  {
    var rc := Render(c);
    AtSplit(toks, pos, [Sym(KwIf)] + rc + [Sym(KwThen)] + RenderStmt(th), RenderElse(el), q);
    AtSplit(toks, pos, [Sym(KwIf)] + rc + [Sym(KwThen)], RenderStmt(th), t);
    AtSplit(toks, pos, [Sym(KwIf)] + rc, [Sym(KwThen)], m);
    AtCons(toks, pos, Sym(KwIf), rc, p1);
    AtFirst(toks, m, [Sym(KwThen)]);
  }

  lemma WhileTokens(c: Expr, b: Statement, toks: seq<Token>, pos: nat, p1: nat, m: nat, d: nat, end: nat)
    requires At(toks, pos, RenderStmt(WhileStmt(c, b))) && end == pos + |RenderStmt(WhileStmt(c, b))|
    requires p1 == pos + 1 && m == p1 + |Render(c)| && d == m + 1
    ensures pos < |toks| && toks[pos].kind == KwWhile && At(toks, p1, Render(c)) && Peek(toks, m) == KwDo
    ensures At(toks, d, RenderStmt(b)) && end == d + |RenderStmt(b)|
  {
    var rc := Render(c);
    AtSplit(toks, pos, [Sym(KwWhile)] + rc + [Sym(KwDo)], RenderStmt(b), d);
    AtSplit(toks, pos, [Sym(KwWhile)] + rc, [Sym(KwDo)], m);
    AtCons(toks, pos, Sym(KwWhile), rc, p1);
    AtFirst(toks, m, [Sym(KwDo)]);
  }

  lemma ForTokens(v: string, a: Expr, up: bool, l: Expr, b: Statement, toks: seq<Token>, pos: nat,
                  p1: nat, p3: nat, m1: nat, p4: nat, m2: nat, d: nat, end: nat)
    requires At(toks, pos, RenderStmt(ForStmt(v, a, up, l, b))) && end == pos + |RenderStmt(ForStmt(v, a, up, l, b))|
    requires p1 == pos + 1 && p3 == p1 + 2 && m1 == p3 + |Render(a)| && p4 == m1 + 1
    requires m2 == p4 + |Render(l)| && d == m2 + 1
    ensures p3 <= |toks| && toks[pos].kind == KwFor
    ensures toks[p1].kind == Ident && toks[p1].text == v && toks[p1 + 1].kind == Assgn
    ensures At(toks, p3, Render(a)) && Peek(toks, m1) == (if up then KwTo else KwDownto)
    ensures At(toks, p4, Render(l)) && Peek(toks, m2) == KwDo
    ensures At(toks, d, RenderStmt(b)) && end == d + |RenderStmt(b)|
  {
    var head := [Sym(KwFor), IdentTok(v), Sym(Assgn)];
    var dir := Sym(if up then KwTo else KwDownto);
    var ra, rl := Render(a), Render(l);
    AtSplit(toks, pos, head + ra + [dir] + rl + [Sym(KwDo)], RenderStmt(b), d);
    AtSplit(toks, pos, head + ra + [dir] + rl, [Sym(KwDo)], m2);
    AtSplit(toks, pos, head + ra + [dir], rl, p4);
    AtSplit(toks, pos, head + ra, [dir], m1);
    AtSplit(toks, pos, head, ra, p3);
    AtCons(toks, pos, Sym(KwFor), [IdentTok(v), Sym(Assgn)], p1);
    AtTwo(toks, p1, IdentTok(v), Sym(Assgn));
    AtFirst(toks, m1, [dir]);
    AtFirst(toks, m2, [Sym(KwDo)]);
  }

  lemma BodyTokens(b: Body, toks: seq<Token>, pos: nat, bp: nat, p1: nat, e: nat, end: nat)
    requires At(toks, pos, RenderBody(b)) && end == pos + |RenderBody(b)|
    requires bp == pos + |RenderSections(b.sections)| && p1 == bp + 1 && e == p1 + |RenderStmts(b.stmts)|
    ensures end == e + 1 && end <= |toks|
    ensures At(toks, pos, RenderSections(b.sections)) && Peek(toks, bp) == KwBegin
    ensures At(toks, p1, RenderStmts(b.stmts)) && Peek(toks, e) == KwEnd
  {
    var rs := RenderSections(b.sections);
    AtBound(toks, pos, RenderBody(b));
    AtSplit(toks, pos, rs + [Sym(KwBegin)] + RenderStmts(b.stmts), [Sym(KwEnd)], e);
    AtSplit(toks, pos, rs + [Sym(KwBegin)], RenderStmts(b.stmts), p1);
    AtSnoc(toks, pos, rs, Sym(KwBegin), bp);
    AtFirst(toks, e, [Sym(KwEnd)]);
  }

  /** What may follow a statement of a list: `;` before the next one,
      `end` after the last. */
  lemma MoreStmtsStart(ss: seq<Statement>, toks: seq<Token>, pos: nat, e: nat)
    requires At(toks, pos, RenderMoreStmts(ss)) && e == pos + |RenderMoreStmts(ss)| && Peek(toks, e) == KwEnd
    ensures Peek(toks, pos) in {SCol, KwEnd}
  {
    if |ss| > 0 {
      assert RenderMoreStmts(ss)[0] == Sym(SCol);
      AtFirst(toks, pos, RenderMoreStmts(ss));
    }
  }

  lemma BlockRestStep(toks: seq<Token>, pos: nat, blk: Block, b1: Block, q: nat, r: Parsed<Block>)
    requires pos < |toks| && Peek(toks, pos) == SCol
    requires ParseStmt(toks, pos + 1, blk) == Done(b1, q)
    requires q <= |toks| && ParseBlockRest(toks, q, b1) == r
    ensures ParseBlockRest(toks, pos, blk) == r
  {
  }

  /** What `ParseBlock` does once the local declarations are read: `begin`,
      the statements, then the closing `end`. */
  function StmtsToEnd(toks: seq<Token>, p: nat, d: Block): (r: Parsed<Block>)
    requires p <= |toks|
    ensures r.Done? ==> Extends(d, r.val)
  {
    var b :- Match(toks, p, KwBegin);
    var s :- ParseStmt(toks, b.pos, d);
    var rest :- ParseBlockRest(toks, s.pos, s.val);
    var e :- Match(toks, rest.pos, KwEnd);
    Done(rest.val, e.pos)
  }

  lemma BodyDeclsStep(toks: seq<Token>, pos: nat, blk: Block, d: Block, bp: nat, r: Parsed<Block>)
    requires pos <= |toks| && StartsBlock(Peek(toks, pos))
    requires bp <= |toks| && ParseDeclsLoc(toks, pos, blk) == Done(d, bp)
    requires StmtsToEnd(toks, bp, d) == r
    ensures ParseBlock(toks, pos, blk) == r
  {
  }

  lemma BodyStmtsStep(toks: seq<Token>, p: nat, p1: nat, d: Block, d1: Block, q1: nat, r: Block, e: nat, end: nat)
    requires p < |toks| && Match(toks, p, KwBegin) == Done(toks[p], p1)
    requires p1 <= |toks| && ParseStmt(toks, p1, d) == Done(d1, q1)
    requires q1 <= |toks| && ParseBlockRest(toks, q1, d1) == Done(r, e)
    requires e < |toks| && Match(toks, e, KwEnd) == Done(toks[e], end)
    ensures StmtsToEnd(toks, p, d) == Done(r, end)
  {
  }

  /** `parseBlock` from the declarations' result to the closing `end`. */
  lemma BodyChain(toks: seq<Token>, pos: nat, blk: Block, d: Block, bp: nat, p1: nat, d1: Block, q1: nat, r: Block, e: nat, end: nat)
    requires pos <= |toks| && StartsBlock(Peek(toks, pos))
    requires bp < |toks| && ParseDeclsLoc(toks, pos, blk) == Done(d, bp) && Peek(toks, bp) == KwBegin
    requires p1 == bp + 1 && ParseStmt(toks, p1, d) == Done(d1, q1)
    requires q1 <= |toks| && ParseBlockRest(toks, q1, d1) == Done(r, e)
    requires e < |toks| && Peek(toks, e) == KwEnd && end == e + 1
    ensures ParseBlock(toks, pos, blk) == Done(r, end)
  {
    assert Match(toks, bp, KwBegin) == Done(toks[bp], p1);
    assert Match(toks, e, KwEnd) == Done(toks[e], end);
    BodyStmtsStep(toks, bp, p1, d, d1, q1, r, e, end);
    BodyDeclsStep(toks, pos, blk, d, bp, Done(r, end));
  }

  lemma BodyJoin(blk: Block, b: Body)
    ensures Join(Block(blk.decls + SectionsDecls(b.sections), blk.stmts), DesugarAll(b.stmts)) == Join(blk, DesugarBody(b))
  {
    assert Block(blk.decls + SectionsDecls(b.sections), blk.stmts) == Join(blk, Block(SectionsDecls(b.sections), []));
    JoinAssoc(blk, Block(SectionsDecls(b.sections), []), DesugarAll(b.stmts));
  }

  /** A printed body starts with a section keyword or `begin`. */
  lemma BodyStarts(b: Body, toks: seq<Token>, pos: nat)
    requires At(toks, pos, RenderBody(b))
    ensures pos < |toks| && StartsBlock(Peek(toks, pos))
  {
    var bp := pos + |RenderSections(b.sections)|;
    BodyTokens(b, toks, pos, bp, bp + 1, bp + 1 + |RenderStmts(b.stmts)|, pos + |RenderBody(b)|);
    SectionsStart(b.sections, toks, pos, bp);
  }

  /** The statements that hold no other statement. */
  lemma SimpleStmtRoundTrip(s: Statement, toks: seq<Token>, pos: nat, end: nat, blk: Block)
    requires !(s.IfStmt? || s.WhileStmt? || s.ForStmt? || s.Compound?)
    requires StmtOk(s) && At(toks, pos, RenderStmt(s)) && end == pos + |RenderStmt(s)|
    requires FollowsStmt(s, Peek(toks, end))
    ensures ParseStmt(toks, pos, blk) == Done(Join(blk, Desugar(s)), end)
  {
    match s
    case Assignment(x, v) =>
      AssignRoundTrip(x, v, toks, pos, end, blk);
    case ProcCall(n, args) =>
      ProcCallRoundTrip(n, args, toks, pos, end, blk);
    case ExitStmt =>
      AtFirst(toks, pos, RenderStmt(s));
      JoinSingle(blk, Exit);
    case CounterStmt(inc, x) =>
      CounterRoundTrip(if inc then KwInc else KwDec, x, toks, pos, end, blk);
      JoinSingle(blk, BinopStmt(if inc then KwInc else KwDec, x, IntLit(1)));
    case ReadlnStmt(x) =>
      CounterRoundTrip(KwReadln, x, toks, pos, end, blk);
      JoinSingle(blk, Read("%d", x));
    case WriteStmt(text) =>
      WriteRoundTrip(text, toks, pos, end, blk);
    case WritelnStmt(e) =>
      WritelnRoundTrip(e, toks, pos, end, blk);
    case EmptyStmt =>
      JoinEmpty(blk);
  }

  /** Every well-formed statement, printed and followed by a token that may
      follow it, parses to what it stands for, added to the enclosing
      block. */
  lemma {:induction false} StmtRoundTrip(s: Statement, toks: seq<Token>, pos: nat, end: nat, blk: Block)
    requires StmtOk(s) && At(toks, pos, RenderStmt(s)) && end == pos + |RenderStmt(s)|
    requires FollowsStmt(s, Peek(toks, end))
    ensures ParseStmt(toks, pos, blk) == Done(Join(blk, Desugar(s)), end)
    decreases s, 3
  {
    if s.IfStmt? {
      IfRoundTrip(s, toks, pos, end, blk);
    } else if s.WhileStmt? {
      WhileRoundTrip(s, toks, pos, end, blk);
    } else if s.ForStmt? {
      ForRoundTrip(s, toks, pos, end, blk);
    } else if s.Compound? {
      BodyStarts(s.blk, toks, pos);
      StmtDispatch(toks, pos, blk);
      BodyRoundTrip(s.blk, toks, pos, end, blk);
    } else {
      SimpleStmtRoundTrip(s, toks, pos, end, blk);
    }
  }

  /** The `else` part of a printed conditional parses to its branch, and
      the `then` branch is followed by a token that may follow it. */
  lemma {:induction false} ElseRoundTrip(s: Statement, toks: seq<Token>, q: nat, end: nat)
    requires s.IfStmt? && StmtOk(s)
    requires At(toks, q, RenderElse(s.elseStmt)) && end == q + |RenderElse(s.elseStmt)|
    requires FollowsStmt(s, Peek(toks, end))
    ensures FollowsStmt(s.thenStmt, Peek(toks, q))
    ensures ParseElseBranch(toks, q) == Done(DesugarElse(s.elseStmt), end)
    decreases s, 1
  {
    AtBound(toks, q, RenderElse(s.elseStmt));
    match s.elseStmt
    case None =>
    case Some(e) =>
      AtCons(toks, q, Sym(KwElse), RenderStmt(e), q + 1);
      StmtRoundTrip(e, toks, q + 1, end, EmptyBlock);
      JoinEmpty(Desugar(e));
      ElseParses(toks, q, q + 1, Desugar(e), end);
  }

  lemma {:induction false} IfRoundTrip(s: Statement, toks: seq<Token>, pos: nat, end: nat, blk: Block)
    requires s.IfStmt? && StmtOk(s) && At(toks, pos, RenderStmt(s)) && end == pos + |RenderStmt(s)|
    requires FollowsStmt(s, Peek(toks, end))
    ensures ParseStmt(toks, pos, blk) == Done(Join(blk, Desugar(s)), end)
    decreases s, 2
  {
    var c, th, el := s.cond, s.thenStmt, s.elseStmt;
    var p1 := pos + 1;
    var m := p1 + |Render(c)|;
    var t := m + 1;
    var q := t + |RenderStmt(th)|;
    IfTokens(c, th, el, toks, pos, p1, m, t, q, end);
    AtBound(toks, q, RenderElse(el));
    RoundTrip0(c, toks, p1, m);
    ElseRoundTrip(s, toks, q, end);
    StmtRoundTrip(th, toks, t, q, EmptyBlock);
    JoinEmpty(Desugar(th));
    IfParses(toks, p1, blk, c, m, t, Desugar(th), q, DesugarElse(el), end);
    StmtDispatch(toks, pos, blk);
    JoinSingle(blk, If(c, Desugar(th), DesugarElse(el)));
  }

  lemma {:induction false} WhileRoundTrip(s: Statement, toks: seq<Token>, pos: nat, end: nat, blk: Block)
    requires s.WhileStmt? && StmtOk(s) && At(toks, pos, RenderStmt(s)) && end == pos + |RenderStmt(s)|
    requires FollowsStmt(s, Peek(toks, end))
    ensures ParseStmt(toks, pos, blk) == Done(Join(blk, Desugar(s)), end)
    decreases s, 2
  {
    var c, b := s.cond, s.body;
    var p1 := pos + 1;
    var m := p1 + |Render(c)|;
    var d := m + 1;
    WhileTokens(c, b, toks, pos, p1, m, d, end);
    RoundTrip0(c, toks, p1, m);
    var stop := Single(Break(Unop(Not, c)));
    StmtRoundTrip(b, toks, d, end, stop);
    WhileDesugars(toks, p1, blk, c, m, d, Join(stop, Desugar(b)), end);
    StmtDispatch(toks, pos, blk);
    JoinSingle(blk, Loop(Join(stop, Desugar(b))));
  }

  lemma {:induction false} ForRoundTrip(s: Statement, toks: seq<Token>, pos: nat, end: nat, blk: Block)
    requires s.ForStmt? && StmtOk(s) && At(toks, pos, RenderStmt(s)) && end == pos + |RenderStmt(s)|
    requires FollowsStmt(s, Peek(toks, end))
    ensures ParseStmt(toks, pos, blk) == Done(Join(blk, Desugar(s)), end)
    decreases s, 2
  {
    var v, a, up, l, b := s.counter, s.start, s.up, s.limit, s.body;
    var p1 := pos + 1;
    var p3 := p1 + 2;
    var m1 := p3 + |Render(a)|;
    var p4 := m1 + 1;
    var m2 := p4 + |Render(l)|;
    var d := m2 + 1;
    ForTokens(v, a, up, l, b, toks, pos, p1, p3, m1, p4, m2, d, end);
    RoundTrip0(a, toks, p3, m1);
    RoundTrip0(l, toks, p4, m2);
    var stop := Single(ForStop(v, up, l));
    StmtRoundTrip(b, toks, d, end, stop);
    var body := Join(stop, Desugar(b));
    ForDesugars(toks, p1, blk, v, p3, a, m1, up, p4, l, m2, d, body, end);
    StmtDispatch(toks, pos, blk);
    JoinSingle(body, ForStep(v, up));
    JoinPair(blk, BinopStmt(Assgn, Var(v), a), Loop(Join(body, Single(ForStep(v, up)))));
  }

  /** A printed body parses to its declarations and what its statements
      stand for, added to the enclosing block. */
  lemma {:induction false} BodyRoundTrip(b: Body, toks: seq<Token>, pos: nat, end: nat, blk: Block)
    requires BodyOk(b) && At(toks, pos, RenderBody(b)) && end == pos + |RenderBody(b)|
    ensures ParseBlock(toks, pos, blk) == Done(Join(blk, DesugarBody(b)), end)
    decreases b, 3
  {
    var bp := pos + |RenderSections(b.sections)|;
    var p1 := bp + 1;
    var e := p1 + |RenderStmts(b.stmts)|;
    BodyTokens(b, toks, pos, bp, p1, e, end);
    SectionsStart(b.sections, toks, pos, bp);
    SectionsRoundTrip(b.sections, toks, pos, bp, blk);
    var d := Block(blk.decls + SectionsDecls(b.sections), blk.stmts);
    BodyJoin(blk, b);
    var q1, d1 := StmtsRoundTrip(b.stmts, toks, p1, e, d);
    BodyChain(toks, pos, blk, d, bp, p1, d1, q1, Join(blk, DesugarBody(b)), e, end);
  }

  /** The statements of a body up to `end`: the first one, then the rest
      of the list. */
  lemma {:induction false} StmtsRoundTrip(ss: seq<Statement>, toks: seq<Token>, pos: nat, e: nat, blk: Block)
    returns (q1: nat, d1: Block)
    requires |ss| > 0 && forall i | 0 <= i < |ss| :: StmtOk(ss[i])
    requires At(toks, pos, RenderStmts(ss)) && e == pos + |RenderStmts(ss)| && Peek(toks, e) == KwEnd
    ensures q1 <= |toks| && ParseStmt(toks, pos, blk) == Done(d1, q1)
    ensures ParseBlockRest(toks, q1, d1) == Done(Join(blk, DesugarAll(ss)), e)
    decreases ss, 2
  {
    q1 := pos + |RenderStmt(ss[0])|;
    AtSplit(toks, pos, RenderStmt(ss[0]), RenderMoreStmts(ss[1..]), q1);
    AtBound(toks, q1, RenderMoreStmts(ss[1..]));
    MoreStmtsStart(ss[1..], toks, q1, e);
    StmtRoundTrip(ss[0], toks, pos, q1, blk);
    d1 := Join(blk, Desugar(ss[0]));
    MoreStmtsRoundTrip(ss[1..], toks, q1, e, d1);
    JoinAssoc(blk, Desugar(ss[0]), DesugarAll(ss[1..]));
  }

  lemma MoreStmtsTokens(ss: seq<Statement>, toks: seq<Token>, pos: nat)
    requires |ss| > 0 && At(toks, pos, RenderMoreStmts(ss))
    ensures pos < |toks| && Peek(toks, pos) == SCol && At(toks, pos + 1, RenderStmts(ss))
    ensures |RenderMoreStmts(ss)| == 1 + |RenderStmts(ss)|
  {
    assert RenderMoreStmts(ss) == [Sym(SCol)] + RenderStmts(ss);
    AtCons(toks, pos, Sym(SCol), RenderStmts(ss), pos + 1);
  }

  /** Printed `; statement` items up to `end` parse to what the
      statements stand for, in order. */
  lemma {:induction false} MoreStmtsRoundTrip(ss: seq<Statement>, toks: seq<Token>, pos: nat, e: nat, blk: Block)
    requires forall i | 0 <= i < |ss| :: StmtOk(ss[i])
    requires At(toks, pos, RenderMoreStmts(ss)) && e == pos + |RenderMoreStmts(ss)| && Peek(toks, e) == KwEnd
    ensures ParseBlockRest(toks, pos, blk) == Done(Join(blk, DesugarAll(ss)), e)
    decreases ss, 3
  {
    if |ss| == 0 {
      JoinEmpty(blk);
    } else {
      MoreStmtsTokens(ss, toks, pos);
      var q1, d1 := StmtsRoundTrip(ss, toks, pos + 1, e, blk);
      BlockRestStep(toks, pos, blk, d1, q1, Done(Join(blk, DesugarAll(ss)), e));
    }
  }

  /* Routines and the program. */

  lemma ParamHeadTokens(n: string, ty: TypeNode, more: seq<Token>, toks: seq<Token>, pos: nat, pt: nat, q: nat)
    requires At(toks, pos, [IdentTok(n), Sym(Col)] + RenderType(ty) + more)
    requires pt == pos + 2 && q == pt + |RenderType(ty)|
    ensures pt <= |toks| && toks[pos] == IdentTok(n) && toks[pos + 1] == Sym(Col)
    ensures At(toks, pt, RenderType(ty)) && At(toks, q, more)
  {
    AtSplit(toks, pos, [IdentTok(n), Sym(Col)] + RenderType(ty), more, q);
    AtSplit(toks, pos, [IdentTok(n), Sym(Col)], RenderType(ty), pt);
    AtTwo(toks, pos, IdentTok(n), Sym(Col));
  }

  /** Adding one parameter, then the rest, adds them all. */
  lemma ParamsAppend(fun: FunDecl, ps: seq<(string, TypeNode)>)
    requires |ps| > 0
    ensures AddArg(fun, ps[0].0, ps[0].1).(args := AddArg(fun, ps[0].0, ps[0].1).args + ps[1..]) ==
            fun.(args := fun.args + ps)
  {
    assert fun.args + [ps[0]] + ps[1..] == fun.args + ps;
  }

  lemma MoreParamsStep(toks: seq<Token>, pos: nat, fun: FunDecl, n: string, ty: TypeNode, q: nat)
    requires pos + 2 < |toks| && toks[pos].kind == SCol && toks[pos + 1] == IdentTok(n) && toks[pos + 2].kind == Col
    requires ParseTypeIdent(toks, pos + 3) == Done(ty, q)
    ensures ParseFunDeclArgsRest(toks, pos, fun) == ParseFunDeclArgsRest(toks, q, AddArg(fun, n, ty))
  {
    assert Match(toks, pos + 1, Ident) == Done(toks[pos + 1], pos + 2);
    assert Match(toks, pos + 2, Col) == Done(toks[pos + 2], pos + 3);
  }

  lemma MoreParamsShape(ps: seq<(string, TypeNode)>)
    requires |ps| > 0
    ensures RenderMoreParams(ps) ==
            [Sym(SCol)] + ([IdentTok(ps[0].0), Sym(Col)] + RenderType(ps[0].1) + RenderMoreParams(ps[1..]))
  {
  }

  /** The first `; name: type` of printed parameters: where the rest
      starts, and that parsing from here is parsing the rest with the first
      parameter added. */
  lemma MoreParamsFirst(ps: seq<(string, TypeNode)>, toks: seq<Token>, pos: nat, fun: FunDecl, q: nat)
    requires |ps| > 0 && TypeOk(ps[0].1)
    requires At(toks, pos, RenderMoreParams(ps)) && q == pos + 3 + |RenderType(ps[0].1)|
    ensures q <= |toks| && At(toks, q, RenderMoreParams(ps[1..]))
    ensures ParseFunDeclArgsRest(toks, pos, fun) == ParseFunDeclArgsRest(toks, q, AddArg(fun, ps[0].0, ps[0].1))
  {
    var n, ty := ps[0].0, ps[0].1;
    MoreParamsShape(ps);
    AtCons(toks, pos, Sym(SCol), [IdentTok(n), Sym(Col)] + RenderType(ty) + RenderMoreParams(ps[1..]), pos + 1);
    ParamHeadTokens(n, ty, RenderMoreParams(ps[1..]), toks, pos + 1, pos + 3, q);
    TypeRoundTrip(ty, toks, pos + 3, q);
    MoreParamsStep(toks, pos, fun, n, ty, q);
  }

  /** Printed `; name: type` parameters up to `)` are added to the
      function in order. */
  lemma {:induction false} MoreParamsRoundTrip(ps: seq<(string, TypeNode)>, toks: seq<Token>, pos: nat, end: nat, fun: FunDecl)
    requires forall i | 0 <= i < |ps| :: TypeOk(ps[i].1)
    requires At(toks, pos, RenderMoreParams(ps)) && end == pos + |RenderMoreParams(ps)| && Peek(toks, end) == RPar
    ensures ParseFunDeclArgsRest(toks, pos, fun) == Done(fun.(args := fun.args + ps), end)
    decreases |ps|
  {
    AtBound(toks, pos, RenderMoreParams(ps));
    if |ps| == 0 {
      assert fun.args + ps == fun.args;
    } else {
      var q := pos + 3 + |RenderType(ps[0].1)|;
      MoreParamsFirst(ps, toks, pos, fun, q);
      MoreParamsShape(ps);
      MoreParamsRoundTrip(ps[1..], toks, q, end, AddArg(fun, ps[0].0, ps[0].1));
      ParamsAppend(fun, ps);
    }
  }

  /** The first `name: type` of a parameter list: `:` and the type are
      matched and the parameter is added before the rest is parsed. */
  lemma ParamsStep(toks: seq<Token>, pos: nat, fun: FunDecl, n: string, ty: TypeNode, p2: nat, q: nat)
    requires pos + 1 < |toks| && toks[pos] == IdentTok(n)
    requires Match(toks, pos + 1, Col) == Done(toks[pos + 1], p2)
    requires ParseTypeIdent(toks, p2) == Done(ty, q)
    ensures ParseFunDeclArgs(toks, pos, fun) == ParseFunDeclArgsRest(toks, q, AddArg(fun, n, ty))
  { }

  /** The first `name: type` of printed parameters: where the rest starts,
      and that parsing from here is parsing the rest with the first
      parameter added. */
  lemma ParamsFirst(ps: seq<(string, TypeNode)>, toks: seq<Token>, pos: nat, fun: FunDecl, q: nat)
    requires |ps| > 0 && TypeOk(ps[0].1)
    requires At(toks, pos, RenderParams(ps)) && q == pos + 2 + |RenderType(ps[0].1)|
    ensures q <= |toks| && At(toks, q, RenderMoreParams(ps[1..]))
    ensures ParseFunDeclArgs(toks, pos, fun) == ParseFunDeclArgsRest(toks, q, AddArg(fun, ps[0].0, ps[0].1))
  {
    var n, ty := ps[0].0, ps[0].1;
    ParamHeadTokens(n, ty, RenderMoreParams(ps[1..]), toks, pos, pos + 2, q);
    TypeRoundTrip(ty, toks, pos + 2, q);
    MatchNext(toks, pos + 1, Col, pos + 2);
    ParamsStep(toks, pos, fun, n, ty, pos + 2, q);
  }

  /** A printed parameter list up to `)` is added to the function in
      order. */
  lemma ParamsRoundTrip(ps: seq<(string, TypeNode)>, toks: seq<Token>, pos: nat, end: nat, fun: FunDecl)
    requires forall i | 0 <= i < |ps| :: TypeOk(ps[i].1)
    requires At(toks, pos, RenderParams(ps)) && end == pos + |RenderParams(ps)| && Peek(toks, end) == RPar
    ensures ParseFunDeclArgs(toks, pos, fun) == Done(fun.(args := fun.args + ps), end)
  {
    AtBound(toks, pos, RenderParams(ps));
    if |ps| == 0 {
      assert fun.args + ps == fun.args;
    } else {
      var q := pos + 2 + |RenderType(ps[0].1)|;
      ParamsFirst(ps, toks, pos, fun, q);
      MoreParamsRoundTrip(ps[1..], toks, q, end, AddArg(fun, ps[0].0, ps[0].1));
      ParamsAppend(fun, ps);
    }
  }

  /** A printed result part parses to the result type, and to none for a
      procedure. */
  lemma ResultRoundTrip(result: Option<TypeNode>, toks: seq<Token>, pos: nat, end: nat)
    requires (result.Some? ==> TypeOk(result.value))
    requires At(toks, pos, RenderResult(result)) && end == pos + |RenderResult(result)|
    ensures ParseResult(toks, pos, result.Some?) == Done(result, end)
  {
    AtBound(toks, pos, RenderResult(result));
    match result
    case None =>
    case Some(t) =>
      AtCons(toks, pos, Sym(Col), RenderType(t), pos + 1);
      TypeRoundTrip(t, toks, pos + 1, end);
      assert Match(toks, pos, Col) == Done(toks[pos], pos + 1);
  }

  /** A printed body gives the function that body; `forward` leaves it
      without one. */
  lemma DefRoundTrip(def: Option<Body>, toks: seq<Token>, pos: nat, end: nat, fun: FunDecl)
    requires (def.Some? ==> BodyOk(def.value)) && fun.body.None?
    requires At(toks, pos, RenderDef(def)) && end == pos + |RenderDef(def)|
    ensures ParseFunDeclBody(toks, pos, fun) == Done(fun.(body := DesugarDef(def)), end)
  {
    AtBound(toks, pos, RenderDef(def));
    match def
    case None =>
      AtFirst(toks, pos, [Sym(KwFwd)]);
    case Some(b) =>
      BodyStarts(b, toks, pos);
      BodyRoundTrip(b, toks, pos, end, EmptyBlock);
      JoinEmpty(DesugarBody(b));
  }

  lemma RoutineTokens(r: Routine, toks: seq<Token>, pos: nat, p3: nat, pr: nat, p4: nat, ps: nat, p5: nat, ps2: nat, end: nat)
    requires At(toks, pos, RenderRoutine(r)) && end == pos + |RenderRoutine(r)|
    requires p3 == pos + 3 && pr == p3 + |RenderParams(r.params)| && p4 == pr + 1
    requires ps == p4 + |RenderResult(r.result)| && p5 == ps + 1 && ps2 == p5 + |RenderDef(r.def)|
    ensures end == ps2 + 1 && end <= |toks|
    ensures toks[pos].kind == (if r.result.Some? then KwFunc else KwProc)
    ensures toks[pos + 1] == IdentTok(r.name) && toks[pos + 2].kind == LPar
    ensures At(toks, p3, RenderParams(r.params)) && Peek(toks, pr) == RPar
    ensures At(toks, p4, RenderResult(r.result)) && Peek(toks, ps) == SCol
    ensures At(toks, p5, RenderDef(r.def)) && Peek(toks, ps2) == SCol
  {
    var head := [Sym(if r.result.Some? then KwFunc else KwProc), IdentTok(r.name), Sym(LPar)];
    var rp, rr, rd := RenderParams(r.params), RenderResult(r.result), RenderDef(r.def);
    AtBound(toks, pos, RenderRoutine(r));
    AtSplit(toks, pos, head + rp + [Sym(RPar)] + rr + [Sym(SCol)] + rd, [Sym(SCol)], ps2);
    AtSplit(toks, pos, head + rp + [Sym(RPar)] + rr + [Sym(SCol)], rd, p5);
    AtSplit(toks, pos, head + rp + [Sym(RPar)] + rr, [Sym(SCol)], ps);
    AtSplit(toks, pos, head + rp + [Sym(RPar)], rr, p4);
    AtSplit(toks, pos, head + rp, [Sym(RPar)], pr);
    AtSplit(toks, pos, head, rp, p3);
    AtCons(toks, pos, head[0], [IdentTok(r.name), Sym(LPar)], pos + 1);
    AtTwo(toks, pos + 1, IdentTok(r.name), Sym(LPar));
    AtFirst(toks, pr, [Sym(RPar)]);
    AtFirst(toks, ps, [Sym(SCol)]);
    AtFirst(toks, ps2, [Sym(SCol)]);
  }

  /** Where the parts of a printed routine starting at `pos` lie: the
      parameters, the closing `)`, the result part, the `;` after it, the
      body and the final `;`. */
  datatype Spots = Spots(params: nat, rpar: nat, result: nat, scol: nat, def: nat, last: nat)

  function RoutineSpots(r: Routine, pos: nat): (s: Spots)
    ensures s.params == pos + 3 && s.result == s.rpar + 1 && s.def == s.scol + 1
    ensures s.params <= s.rpar && s.result <= s.scol && s.def <= s.last
  {
    var rpar := pos + 3 + |RenderParams(r.params)|;
    var scol := rpar + 1 + |RenderResult(r.result)|;
    Spots(pos + 3, rpar, rpar + 1, scol, scol + 1, scol + 1 + |RenderDef(r.def)|)
  }

  /** What `parseFunDecl` does once the parameter list is read: the `)`,
      the result part, `;`, the body and the final `;`. */
  function FunDeclRest(toks: seq<Token>, pos: nat, isFunction: bool, fun: FunDecl): (r: Parsed<FunDecl>)
    requires pos <= |toks|
    ensures r.Done? ==> (r.val.resType.Some? <==> isFunction)
  {
    var rp :- Match(toks, pos, RPar);
    var res :- ParseResult(toks, rp.pos, isFunction);
    var sc :- Match(toks, res.pos, SCol);
    var body :- ParseFunDeclBody(toks, sc.pos, fun);
    var sc2 :- Match(toks, body.pos, SCol);
    Done(SetResType(body.val, res.val), sc2.pos)
  }

  lemma FunDeclHead(toks: seq<Token>, p1: nat, isFunction: bool, p2: nat, p3: nat, pr: nat, fun1: FunDecl, v: Parsed<FunDecl>)
    requires p1 < |toks| && Match(toks, p1, Ident) == Done(toks[p1], p2)
    requires p2 < |toks| && Match(toks, p2, LPar) == Done(toks[p2], p3)
    requires p3 <= |toks| && ParseFunDeclArgs(toks, p3, NewFun(toks[p1].text)) == Done(fun1, pr)
    requires pr <= |toks| && FunDeclRest(toks, pr, isFunction, fun1) == v
    ensures ParseFunDecl(toks, p1, isFunction) == v
  {
  }

  lemma FunDeclTail(toks: seq<Token>, isFunction: bool, s: Spots, fun1: FunDecl, res: Option<TypeNode>, fun2: FunDecl, end: nat)
    requires s.rpar < s.result <= s.scol < s.def <= s.last < |toks|
    requires Match(toks, s.rpar, RPar) == Done(toks[s.rpar], s.result)
    requires ParseResult(toks, s.result, isFunction) == Done(res, s.scol)
    requires Match(toks, s.scol, SCol) == Done(toks[s.scol], s.def)
    requires ParseFunDeclBody(toks, s.def, fun1) == Done(fun2, s.last)
    requires Match(toks, s.last, SCol) == Done(toks[s.last], end)
    ensures FunDeclRest(toks, s.rpar, isFunction, fun1) == Done(SetResType(fun2, res), end)
  {
  }

  /** A routine header and body whose parts parse one after the other
      parse as a whole. */
  lemma FunDeclStep(toks: seq<Token>, p1: nat, isFunction: bool, p2: nat, s: Spots,
                    fun1: FunDecl, res: Option<TypeNode>, fun2: FunDecl, end: nat)
    requires p1 < p2 < s.params <= s.rpar < s.result <= s.scol < s.def <= s.last < |toks|
    requires Match(toks, p1, Ident) == Done(toks[p1], p2) && Match(toks, p2, LPar) == Done(toks[p2], s.params)
    requires ParseFunDeclArgs(toks, s.params, NewFun(toks[p1].text)) == Done(fun1, s.rpar)
    requires Match(toks, s.rpar, RPar) == Done(toks[s.rpar], s.result)
    requires ParseResult(toks, s.result, isFunction) == Done(res, s.scol)
    requires Match(toks, s.scol, SCol) == Done(toks[s.scol], s.def)
    requires ParseFunDeclBody(toks, s.def, fun1) == Done(fun2, s.last)
    requires Match(toks, s.last, SCol) == Done(toks[s.last], end)
    ensures ParseFunDecl(toks, p1, isFunction) == Done(SetResType(fun2, res), end)
  {
    FunDeclTail(toks, isFunction, s, fun1, res, fun2, end);
    FunDeclHead(toks, p1, isFunction, p2, s.params, s.rpar, fun1, Done(SetResType(fun2, res), end));
  }

  /** The single tokens of a printed routine, as `parseFunDecl` matches
      them. */
  lemma RoutineMatches(r: Routine, toks: seq<Token>, pos: nat, s: Spots) returns (p2: nat, end: nat)
    requires s == RoutineSpots(r, pos) && s.last < |toks|
    requires toks[pos + 1] == IdentTok(r.name) && toks[pos + 2].kind == LPar
    requires Peek(toks, s.rpar) == RPar && Peek(toks, s.scol) == SCol && Peek(toks, s.last) == SCol
    ensures pos + 1 < p2 < s.params <= s.rpar < s.result <= s.scol < s.def <= s.last && end == s.last + 1
    ensures Match(toks, pos + 1, Ident) == Done(toks[pos + 1], p2) && Match(toks, p2, LPar) == Done(toks[p2], s.params)
    ensures Match(toks, s.rpar, RPar) == Done(toks[s.rpar], s.result)
    ensures Match(toks, s.scol, SCol) == Done(toks[s.scol], s.def)
    ensures Match(toks, s.last, SCol) == Done(toks[s.last], end)
  {
    p2, end := pos + 2, s.last + 1;
  }

  lemma RoutineSpotsTokens(r: Routine, toks: seq<Token>, pos: nat, s: Spots)
    requires At(toks, pos, RenderRoutine(r)) && s == RoutineSpots(r, pos)
    ensures s.last + 1 == pos + |RenderRoutine(r)| && s.last < |toks|
    ensures toks[pos].kind == (if r.result.Some? then KwFunc else KwProc)
    ensures toks[pos + 1] == IdentTok(r.name) && toks[pos + 2].kind == LPar
    ensures At(toks, s.params, RenderParams(r.params)) && Peek(toks, s.rpar) == RPar
    ensures At(toks, s.result, RenderResult(r.result)) && Peek(toks, s.scol) == SCol
    ensures At(toks, s.def, RenderDef(r.def)) && Peek(toks, s.last) == SCol
  {
    RoutineTokens(r, toks, pos, s.params, s.rpar, s.result, s.scol, s.def, s.last, pos + |RenderRoutine(r)|);
  }

  lemma RoutineParamsPart(r: Routine, toks: seq<Token>, pos: nat, s: Spots)
    requires RoutineOk(r) && At(toks, pos, RenderRoutine(r)) && s == RoutineSpots(r, pos)
    ensures s.last < |toks| && toks[pos + 1] == IdentTok(r.name) && toks[pos + 2].kind == LPar
    ensures ParseFunDeclArgs(toks, s.params, NewFun(r.name)) == Done(NewFun(r.name).(args := r.params), s.rpar)
  {
    RoutineSpotsTokens(r, toks, pos, s);
    assert [] + r.params == r.params;
    ParamsRoundTrip(r.params, toks, s.params, s.rpar, NewFun(r.name));
  }

  lemma RoutineResultPart(r: Routine, toks: seq<Token>, pos: nat, s: Spots)
    requires RoutineOk(r) && At(toks, pos, RenderRoutine(r)) && s == RoutineSpots(r, pos)
    ensures s.last < |toks| && ParseResult(toks, s.result, r.result.Some?) == Done(r.result, s.scol)
    ensures Peek(toks, s.scol) == SCol
  {
    RoutineSpotsTokens(r, toks, pos, s);
    ResultRoundTrip(r.result, toks, s.result, s.scol);
  }

  lemma RoutineDefPart(r: Routine, toks: seq<Token>, pos: nat, s: Spots, fun: FunDecl)
    requires RoutineOk(r) && At(toks, pos, RenderRoutine(r)) && s == RoutineSpots(r, pos) && fun.body.None?
    ensures s.last < |toks| && ParseFunDeclBody(toks, s.def, fun) == Done(fun.(body := DesugarDef(r.def)), s.last)
    ensures Peek(toks, s.last) == SCol && s.last + 1 == pos + |RenderRoutine(r)|
    ensures toks[pos].kind == (if r.result.Some? then KwFunc else KwProc)
  {
    RoutineSpotsTokens(r, toks, pos, s);
    DefRoundTrip(r.def, toks, s.def, s.last, fun);
  }

  /** The parts of a routine, parsed one after the other, give the routine
      as a whole. */
  lemma RoutineFunDecl(r: Routine, toks: seq<Token>, p1: nat, p2: nat, s: Spots, end: nat)
    requires p1 < p2 < s.params <= s.rpar < s.result <= s.scol < s.def <= s.last < |toks|
    requires toks[p1] == IdentTok(r.name)
    requires Match(toks, p1, Ident) == Done(toks[p1], p2) && Match(toks, p2, LPar) == Done(toks[p2], s.params)
    requires ParseFunDeclArgs(toks, s.params, NewFun(r.name)) == Done(NewFun(r.name).(args := r.params), s.rpar)
    requires Match(toks, s.rpar, RPar) == Done(toks[s.rpar], s.result)
    requires ParseResult(toks, s.result, r.result.Some?) == Done(r.result, s.scol)
    requires Match(toks, s.scol, SCol) == Done(toks[s.scol], s.def)
    requires ParseFunDeclBody(toks, s.def, NewFun(r.name).(args := r.params)) ==
      Done(NewFun(r.name).(args := r.params).(body := DesugarDef(r.def)), s.last)
    requires Match(toks, s.last, SCol) == Done(toks[s.last], end)
    ensures ParseFunDecl(toks, p1, r.result.Some?) == Done(DesugarRoutine(r), end)
  {
    var fun1 := NewFun(r.name).(args := r.params);
    var fun2 := fun1.(body := DesugarDef(r.def));
    RoutineDecl(r);
    assert SetResType(fun2, r.result) == DesugarRoutine(r);
    assert toks[p1].text == r.name;
    FunDeclStep(toks, p1, r.result.Some?, p2, s, fun1, r.result, fun2, end);
  }

  /** A printed routine, after its keyword, parses to the declaration it
      stands for. */
  lemma RoutineRoundTrip(r: Routine, toks: seq<Token>, pos: nat, end: nat)
    requires RoutineOk(r) && At(toks, pos, RenderRoutine(r)) && end == pos + |RenderRoutine(r)|
    ensures end <= |toks| && toks[pos].kind == (if r.result.Some? then KwFunc else KwProc)
    ensures ParseFunDecl(toks, pos + 1, r.result.Some?) == Done(DesugarRoutine(r), end)
  {
    var fun1 := NewFun(r.name).(args := r.params);
    var s := RoutineSpots(r, pos);
    RoutineParamsPart(r, toks, pos, s);
    RoutineResultPart(r, toks, pos, s);
    RoutineDefPart(r, toks, pos, s, fun1);
    var p2, e2 := RoutineMatches(r, toks, pos, s);
    RoutineFunDecl(r, toks, pos + 1, p2, s, e2);
  }

  lemma RoutineDecl(r: Routine)
    ensures SetResType(NewFun(r.name).(args := r.params, body := DesugarDef(r.def)), r.result) == DesugarRoutine(r)
  {
  }

  lemma GlobStep(toks: seq<Token>, pos: nat, prog: ProgDecl, f: FunDecl, q: nat, r: Parsed<ProgDecl>)
    requires pos < |toks| && toks[pos].kind in {KwFunc, KwProc}
    requires ParseFunDecl(toks, pos + 1, toks[pos].kind == KwFunc) == Done(f, q)
    requires q <= |toks| && ParseDeclsGlob(toks, q, AddFun(prog, f)) == r
    ensures ParseDeclsGlob(toks, pos, prog) == r
  {
  }

  lemma RoutinesStep(toks: seq<Token>, pos: nat, isFunction: bool, prog: ProgDecl, f: FunDecl, q: nat, r: Parsed<ProgDecl>)
    requires pos < |toks| && toks[pos].kind == (if isFunction then KwFunc else KwProc)
    requires ParseFunDecl(toks, pos + 1, isFunction) == Done(f, q)
    requires q <= |toks| && ParseDeclsGlob(toks, q, AddFun(prog, f)) == r
    ensures ParseDeclsGlob(toks, pos, prog) == r
  {
    GlobStep(toks, pos, prog, f, q, r);
  }

  lemma FunsAppend(prog: ProgDecl, f: FunDecl, rest: seq<FunDecl>)
    ensures ProgDecl(AddFun(prog, f).name, AddFun(prog, f).funs + rest) == ProgDecl(prog.name, prog.funs + ([f] + rest))
  {
    assert AddFun(prog, f).funs == prog.funs + [f];
    assert prog.funs + [f] + rest == prog.funs + ([f] + rest);
  }

  /** The first routine of a list, once the rest is known to parse. */
  lemma RoutinesFirst(rs: seq<Routine>, toks: seq<Token>, pos: nat, q: nat, end: nat, prog: ProgDecl)
    requires |rs| > 0 && RoutineOk(rs[0]) && At(toks, pos, RenderRoutine(rs[0])) && q == pos + |RenderRoutine(rs[0])| && q <= |toks|
    requires var prog1 := AddFun(prog, DesugarRoutine(rs[0]));
      ParseDeclsGlob(toks, q, prog1) == Done(ProgDecl(prog1.name, prog1.funs + DesugarRoutines(rs[1..])), end)
    ensures ParseDeclsGlob(toks, pos, prog) == Done(ProgDecl(prog.name, prog.funs + DesugarRoutines(rs)), end)
  {
    RoutineRoundTrip(rs[0], toks, pos, q);
    FunsAppend(prog, DesugarRoutine(rs[0]), DesugarRoutines(rs[1..]));
    assert DesugarRoutines(rs) == [DesugarRoutine(rs[0])] + DesugarRoutines(rs[1..]);
    RoutinesStep(toks, pos, rs[0].result.Some?, prog, DesugarRoutine(rs[0]), q, Done(ProgDecl(prog.name, prog.funs + DesugarRoutines(rs)), end));
  }

  lemma RoutinesTokens(rs: seq<Routine>, toks: seq<Token>, pos: nat, q: nat)
    requires |rs| > 0 && At(toks, pos, RenderRoutines(rs)) && q == pos + |RenderRoutine(rs[0])|
    ensures At(toks, pos, RenderRoutine(rs[0])) && At(toks, q, RenderRoutines(rs[1..]))
    ensures q + |RenderRoutines(rs[1..])| == pos + |RenderRoutines(rs)|
  {
    AtSplit(toks, pos, RenderRoutine(rs[0]), RenderRoutines(rs[1..]), q);
  }

  /** Printed routines up to the main block are appended to the program in
      order. */
  lemma {:induction false} RoutinesRoundTrip(rs: seq<Routine>, toks: seq<Token>, pos: nat, end: nat, prog: ProgDecl)
    requires forall i | 0 <= i < |rs| :: RoutineOk(rs[i])
    requires At(toks, pos, RenderRoutines(rs)) && end == pos + |RenderRoutines(rs)| && StartsBlock(Peek(toks, end))
    ensures ParseDeclsGlob(toks, pos, prog) == Done(ProgDecl(prog.name, prog.funs + DesugarRoutines(rs)), end)
    decreases |rs|
  {
    AtBound(toks, pos, RenderRoutines(rs));
    if |rs| == 0 {
      assert prog.funs + [] == prog.funs;
    } else {
      var q := pos + |RenderRoutine(rs[0])|;
      RoutinesTokens(rs, toks, pos, q);
      RoutinesRoundTrip(rs[1..], toks, q, end, AddFun(prog, DesugarRoutine(rs[0])));
      RoutinesFirst(rs, toks, pos, q, end, prog);
    }
  }

  lemma ProgramTokens(p: Program, toks: seq<Token>, p3: nat, bm: nat, db: nat)
    requires toks == RenderProgram(p) + [Sym(Eoi)]
    requires p3 == 3 && bm == p3 + |RenderRoutines(p.routines)| && db == bm + |RenderBody(p.main)|
    ensures db + 1 < |toks| && toks[0].kind == KwProg && toks[1] == IdentTok(p.name) && toks[2].kind == SCol
    ensures At(toks, p3, RenderRoutines(p.routines)) && At(toks, bm, RenderBody(p.main))
    ensures toks[db].kind == Dot && toks[db + 1].kind == Eoi
  {
    var head := [Sym(KwProg), IdentTok(p.name), Sym(SCol)];
    AtWhole(RenderProgram(p), Sym(Eoi));
    AtSplit(toks, 0, head + RenderRoutines(p.routines) + RenderBody(p.main), [Sym(Dot)], db);
    AtSplit(toks, 0, head + RenderRoutines(p.routines), RenderBody(p.main), bm);
    AtSplit(toks, 0, head, RenderRoutines(p.routines), p3);
    AtCons(toks, 0, Sym(KwProg), [IdentTok(p.name), Sym(SCol)], 1);
    AtTwo(toks, 1, IdentTok(p.name), Sym(SCol));
    AtFirst(toks, db, [Sym(Dot)]);
  }

  /** What `ParseProgram` does once the header `program name;` is read. */
  function AfterHeader(toks: seq<Token>, pos: nat, prog: ProgDecl): (r: Parsed<ProgDecl>)
    requires pos <= |toks|
    ensures r.Done? ==> r.val.name == prog.name
  {
    var globals :- ParseDeclsGlob(toks, pos, prog);
    var blk :- ParseBlock(toks, globals.pos, EmptyBlock);
    var dot :- Match(toks, blk.pos, Dot);
    var eoi :- Match(toks, dot.pos, Eoi);
    Done(AddFun(globals.val, MainFun(blk.val)), eoi.pos)
  }

  /** What `ParseProgram` does once the routines are read: the main block,
      `.` and the end of input. */
  function AfterGlobals(toks: seq<Token>, pos: nat, globals: ProgDecl): (r: Parsed<ProgDecl>)
    requires pos <= |toks|
    ensures r.Done? ==> r.val.name == globals.name
  {
    var blk :- ParseBlock(toks, pos, EmptyBlock);
    var dot :- Match(toks, blk.pos, Dot);
    var eoi :- Match(toks, dot.pos, Eoi);
    Done(AddFun(globals, MainFun(blk.val)), eoi.pos)
  }

  lemma HeaderStep(toks: seq<Token>, name: string, r: Parsed<ProgDecl>)
    requires 3 <= |toks| && toks[0].kind == KwProg && toks[1] == IdentTok(name) && toks[2].kind == SCol
    requires AfterHeader(toks, 3, ProgDecl(name, [])) == r
    ensures ParseProgram(toks) == r
  {
  }

  lemma GlobalsStep(toks: seq<Token>, pos: nat, prog: ProgDecl, globals: ProgDecl, bm: nat, r: Parsed<ProgDecl>)
    requires pos <= |toks| && ParseDeclsGlob(toks, pos, prog) == Done(globals, bm)
    requires bm <= |toks| && AfterGlobals(toks, bm, globals) == r
    ensures AfterHeader(toks, pos, prog) == r
  {
  }

  lemma MainStep(toks: seq<Token>, globals: ProgDecl, bm: nat, blk: Block, db: nat, d1: nat, end: nat)
    requires bm <= |toks| && ParseBlock(toks, bm, EmptyBlock) == Done(blk, db)
    requires db < |toks| && Match(toks, db, Dot) == Done(toks[db], d1)
    requires d1 < |toks| && Match(toks, d1, Eoi) == Done(toks[d1], end)
    ensures AfterGlobals(toks, bm, globals) == Done(AddFun(globals, MainFun(blk)), end)
  {
  }

  lemma ParseDone(toks: seq<Token>, prog: ProgDecl, end: nat)
    requires ParseProgram(toks) == Done(prog, end)
    ensures Parse(toks) == Some(prog)
  {
  }

  /** `ParseProgram` from the results of its parts. */
  lemma ProgramChain(toks: seq<Token>, name: string, globals: ProgDecl, bm: nat, blk: Block, db: nat, d1: nat, end: nat)
    requires 3 <= |toks| && toks[0].kind == KwProg && toks[1] == IdentTok(name) && toks[2].kind == SCol
    requires ParseDeclsGlob(toks, 3, ProgDecl(name, [])) == Done(globals, bm)
    requires bm <= |toks| && ParseBlock(toks, bm, EmptyBlock) == Done(blk, db)
    requires db < |toks| && Match(toks, db, Dot) == Done(toks[db], d1)
    requires d1 < |toks| && Match(toks, d1, Eoi) == Done(toks[d1], end)
    ensures ParseProgram(toks) == Done(AddFun(globals, MainFun(blk)), end)
  {
    var r := Done(AddFun(globals, MainFun(blk)), end);
    MainStep(toks, globals, bm, blk, db, d1, end);
    GlobalsStep(toks, 3, ProgDecl(name, []), globals, bm, r);
    HeaderStep(toks, name, r);
  }

  /** The routines and the main block of a printed program parse to what
      they stand for. */
  lemma ProgramParts(p: Program, toks: seq<Token>, bm: nat, db: nat)
    requires ProgramOk(p) && toks == RenderProgram(p) + [Sym(Eoi)]
    requires bm == 3 + |RenderRoutines(p.routines)| && db == bm + |RenderBody(p.main)|
    ensures db + 1 < |toks| && toks[0].kind == KwProg && toks[1] == IdentTok(p.name) && toks[2].kind == SCol
    ensures toks[db].kind == Dot && toks[db + 1].kind == Eoi
    ensures ParseDeclsGlob(toks, 3, ProgDecl(p.name, [])) == Done(ProgDecl(p.name, DesugarRoutines(p.routines)), bm)
    ensures bm <= |toks| && ParseBlock(toks, bm, EmptyBlock) == Done(DesugarBody(p.main), db)
  {
    ProgramTokens(p, toks, 3, bm, db);
    BodyStarts(p.main, toks, bm);
    RoutinesRoundTrip(p.routines, toks, 3, bm, ProgDecl(p.name, []));
    BodyRoundTrip(p.main, toks, bm, db, EmptyBlock);
    JoinEmpty(DesugarBody(p.main));
    assert [] + DesugarRoutines(p.routines) == DesugarRoutines(p.routines);
  }

  /** The closing `.` and the end of input, as `ParseProgram` matches them. */
  lemma ProgramEnd(toks: seq<Token>, db: nat) returns (d1: nat, end: nat)
    requires db + 1 < |toks| && toks[db].kind == Dot && toks[db + 1].kind == Eoi
    ensures db < |toks| && Match(toks, db, Dot) == Done(toks[db], d1)
    ensures d1 < |toks| && Match(toks, d1, Eoi) == Done(toks[d1], end)
  {
    d1, end := db + 1, db + 2;
    MatchNext(toks, db, Dot, d1);
    MatchNext(toks, d1, Eoi, end);
  }

  lemma DesugarProgramLast(p: Program)
    ensures DesugarProgram(p) == AddFun(ProgDecl(p.name, DesugarRoutines(p.routines)), MainFun(DesugarBody(p.main)))
  {
  }

  /** Every well-formed program, printed and followed by the end of input,
      parses to what it stands for: its routines in order, then `main`
      with the main block as body. */
  lemma ProgramRoundTrip(p: Program)
    requires ProgramOk(p)
    ensures Parse(RenderProgram(p) + [Sym(Eoi)]) == Some(DesugarProgram(p))
  {
    var toks := RenderProgram(p) + [Sym(Eoi)];
    var bm := 3 + |RenderRoutines(p.routines)|;
    var db := bm + |RenderBody(p.main)|;
    ProgramParts(p, toks, bm, db);
    var d1, end := ProgramEnd(toks, db);
    DesugarProgramLast(p);
    ProgramChain(toks, p.name, ProgDecl(p.name, DesugarRoutines(p.routines)), bm, DesugarBody(p.main), db, d1, end);
    ParseDone(toks, DesugarProgram(p), end);
  }

  /** The same from source text: a well-formed program whose tokens can
      all be written out, laid out one token after another with a space
      between, is read back to what it stands for. */
  lemma SourceRoundTrip(p: Program)
    requires ProgramOk(p) && forall i | 0 <= i < |RenderProgram(p)| :: LexerProps.Lexable(RenderProgram(p)[i])
    ensures ParseSource(LexerProps.Layout(RenderProgram(p))) == Some(DesugarProgram(p))
  {
    LexerProps.TokenizeLayout(RenderProgram(p));
    ProgramRoundTrip(p);
  }
}
