/** The symbol table of parser/SymTable.cpp: a result slot and three
    namespaces (variables, arrays with an index offset, functions), each a
    finite map from names. `register*` refuses a name that is present and
    `unregister*` one that is absent; the table is a value, so every
    operation returns the new table, or `None` where the source returns
    `false`. */
module SymTable {
  import opened Optional
  import opened Ir

  /** A function declaration and, once it has been defined, its body
      (`DECL_SAVED_TREE`). */
  datatype FunEntry = FunEntry(sig: FunSig, body: Option<Ir>)

  datatype Table = Table(
    res: Option<Decl>,
    vars: map<string, Decl>,
    arrs: map<string, (int, Decl)>,
    funs: map<string, FunEntry>)

  /* The insertion and erasure every namespace shares. */

  /** `std::map::insert`, which refuses a key that is already present. */
  function Insert<V>(m: map<string, V>, name: string, v: V): (r: Option<map<string, V>>)
    ensures r.Some? <==> name !in m
    ensures r.Some? ==> r.value.Keys == m.Keys + {name} && r.value[name] == v
    ensures r.Some? ==> forall k | k in m :: r.value[k] == m[k]
  {
    if name in m then None else Some(m[name := v])
  }

  /** `std::map::erase` of one key, reported as a failure when nothing was
      erased. */
  function Erase<V>(m: map<string, V>, name: string): (r: Option<map<string, V>>)
    ensures r.Some? <==> name in m
    ensures r.Some? ==> r.value.Keys == m.Keys - {name}
    ensures r.Some? ==> forall k | k in r.value :: r.value[k] == m[k]
  {
    if name in m then Some(m - {name}) else None
  }

  /** Inserting a fresh key and erasing it again gives the map back. */
  lemma InsertErase<V>(m: map<string, V>, name: string, v: V)
    requires name !in m
    ensures Erase(Insert(m, name, v).value, name) == Some(m)
  {
    var m1 := Insert(m, name, v).value;
    var m2 := Erase(m1, name).value;
    assert m2.Keys == m.Keys;
    assert forall k | k in m2 :: m2[k] == m1[k] == m[k];
    assert m2 == m;
  }

  /** Erasing a key and inserting its old value again gives the map back. */
  lemma EraseInsert<V>(m: map<string, V>, name: string)
    requires name in m
    ensures Insert(Erase(m, name).value, name, m[name]) == Some(m)
  {
    var m1 := Erase(m, name).value;
    var m2 := Insert(m1, name, m[name]).value;
    assert m2.Keys == m.Keys;
    assert forall k | k in m1 :: m2[k] == m1[k] == m[k];
    assert m2 == m;
  }

  /* Construction. */

  /** The default constructor: no result, no names. */
  function NewTable(): (t: Table)
    ensures GetRes(t).None?
    ensures forall n :: LookupVar(t, n).None? && LookupArr(t, n).None? && LookupFun(t, n).None?
  {
    Table(None, map[], map[], map[])
  }

  /** The copy constructor: only the functions are copied; the result slot
      and the variable and array namespaces start empty. */
  function CopyOf(t: Table): (c: Table)
    ensures GetRes(c).None?
    ensures forall n :: LookupVar(c, n).None? && LookupArr(c, n).None?
    ensures forall n :: LookupFun(c, n) == LookupFun(t, n)
  {
    Table(None, map[], map[], t.funs)
  }

  /* The result slot. */

  function GetRes(t: Table): Option<Decl> {
    t.res
  }

  /** `registerRes`: fails when a result is already registered. */
  function RegisterRes(t: Table, d: Decl): (r: Option<Table>)
    ensures r.Some? <==> GetRes(t).None?
    ensures r.Some? ==> GetRes(r.value) == Some(d)
    ensures r.Some? ==> r.value.vars == t.vars && r.value.arrs == t.arrs && r.value.funs == t.funs
  {
    if t.res.Some? then None else Some(t.(res := Some(d)))
  }

  /** `unregisterRes`: fails when no result is registered. */
  function UnregisterRes(t: Table): (r: Option<Table>)
    ensures r.Some? <==> GetRes(t).Some?
    ensures r.Some? ==> GetRes(r.value).None?
    ensures r.Some? ==> r.value.vars == t.vars && r.value.arrs == t.arrs && r.value.funs == t.funs
  {
    if t.res.None? then None else Some(t.(res := None))
  }

  /** Registering a result into an empty slot and unregistering it restores
      the table. */
  lemma RegisterUnregisterRes(t: Table, d: Decl)
    requires GetRes(t).None?
    ensures RegisterRes(t, d).Some?
    ensures UnregisterRes(RegisterRes(t, d).value) == Some(t)
  {
  }

  /* Variables. */

  function LookupVar(t: Table, name: string): Option<Decl> {
    if name in t.vars then Some(t.vars[name]) else None
  }

  /** `registerVar`: fails exactly when the name is already a variable;
      afterwards the name looks up to `d`, every other name as before, and
      nothing outside the variables changes. */
  function RegisterVar(t: Table, name: string, d: Decl): (r: Option<Table>)
    ensures r.Some? <==> LookupVar(t, name).None?
    ensures r.Some? ==> LookupVar(r.value, name) == Some(d)
    ensures r.Some? ==> forall n | n != name :: LookupVar(r.value, n) == LookupVar(t, n)
    ensures r.Some? ==> r.value.res == t.res && r.value.arrs == t.arrs && r.value.funs == t.funs
  {
    var vs :- Insert(t.vars, name, d);
    Some(t.(vars := vs))
  }

  /** `unregisterVar`: fails exactly when the name is not a variable;
      afterwards only that name is gone. */
  function UnregisterVar(t: Table, name: string): (r: Option<Table>)
    ensures r.Some? <==> LookupVar(t, name).Some?
    ensures r.Some? ==> LookupVar(r.value, name).None?
    ensures r.Some? ==> forall n | n != name :: LookupVar(r.value, n) == LookupVar(t, n)
    ensures r.Some? ==> r.value.res == t.res && r.value.arrs == t.arrs && r.value.funs == t.funs
  {
    var vs :- Erase(t.vars, name);
    Some(t.(vars := vs))
  }

  lemma RegisterUnregisterVar(t: Table, name: string, d: Decl)
    requires LookupVar(t, name).None?
    ensures RegisterVar(t, name, d).Some?
    ensures UnregisterVar(RegisterVar(t, name, d).value, name) == Some(t)
  {
    InsertErase(t.vars, name, d);
  }

  lemma UnregisterRegisterVar(t: Table, name: string)
    requires LookupVar(t, name).Some?
    ensures UnregisterVar(t, name).Some?
    ensures RegisterVar(UnregisterVar(t, name).value, name, LookupVar(t, name).value) == Some(t)
  {
    EraseInsert(t.vars, name);
  }

  /* Arrays: each name carries an index offset and a declaration. */

  function LookupArr(t: Table, name: string): Option<(int, Decl)> {
    if name in t.arrs then Some(t.arrs[name]) else None
  }

  function RegisterArr(t: Table, name: string, off: int, d: Decl): (r: Option<Table>)
    ensures r.Some? <==> LookupArr(t, name).None?
    ensures r.Some? ==> LookupArr(r.value, name) == Some((off, d))
    ensures r.Some? ==> forall n | n != name :: LookupArr(r.value, n) == LookupArr(t, n)
    ensures r.Some? ==> r.value.res == t.res && r.value.vars == t.vars && r.value.funs == t.funs
  {
    var arrs :- Insert(t.arrs, name, (off, d));
    Some(t.(arrs := arrs))
  }

  function UnregisterArr(t: Table, name: string): (r: Option<Table>)
    ensures r.Some? <==> LookupArr(t, name).Some?
    ensures r.Some? ==> LookupArr(r.value, name).None?
    ensures r.Some? ==> forall n | n != name :: LookupArr(r.value, n) == LookupArr(t, n)
    ensures r.Some? ==> r.value.res == t.res && r.value.vars == t.vars && r.value.funs == t.funs
  {
    var arrs :- Erase(t.arrs, name);
    Some(t.(arrs := arrs))
  }

  lemma RegisterUnregisterArr(t: Table, name: string, off: int, d: Decl)
    requires LookupArr(t, name).None?
    ensures RegisterArr(t, name, off, d).Some?
    ensures UnregisterArr(RegisterArr(t, name, off, d).value, name) == Some(t)
  {
    InsertErase(t.arrs, name, (off, d));
  }

  lemma UnregisterRegisterArr(t: Table, name: string)
    requires LookupArr(t, name).Some?
    ensures UnregisterArr(t, name).Some?
    ensures RegisterArr(UnregisterArr(t, name).value, name,
                        LookupArr(t, name).value.0, LookupArr(t, name).value.1) == Some(t)
  {
    EraseInsert(t.arrs, name);
  }

  /* Functions. */

  function LookupFun(t: Table, name: string): Option<FunEntry> {
    if name in t.funs then Some(t.funs[name]) else None
  }

  function RegisterFun(t: Table, name: string, f: FunEntry): (r: Option<Table>)
    ensures r.Some? <==> LookupFun(t, name).None?
    ensures r.Some? ==> LookupFun(r.value, name) == Some(f)
    ensures r.Some? ==> forall n | n != name :: LookupFun(r.value, n) == LookupFun(t, n)
    ensures r.Some? ==> r.value.res == t.res && r.value.vars == t.vars && r.value.arrs == t.arrs
  {
    var fs :- Insert(t.funs, name, f);
    Some(t.(funs := fs))
  }

  function UnregisterFun(t: Table, name: string): (r: Option<Table>)
    ensures r.Some? <==> LookupFun(t, name).Some?
    ensures r.Some? ==> LookupFun(r.value, name).None?
    ensures r.Some? ==> forall n | n != name :: LookupFun(r.value, n) == LookupFun(t, n)
    ensures r.Some? ==> r.value.res == t.res && r.value.vars == t.vars && r.value.arrs == t.arrs
  {
    var fs :- Erase(t.funs, name);
    Some(t.(funs := fs))
  }

  lemma RegisterUnregisterFun(t: Table, name: string, f: FunEntry)
    requires LookupFun(t, name).None?
    ensures RegisterFun(t, name, f).Some?
    ensures UnregisterFun(RegisterFun(t, name, f).value, name) == Some(t)
  {
    InsertErase(t.funs, name, f);
  }

  lemma UnregisterRegisterFun(t: Table, name: string)
    requires LookupFun(t, name).Some?
    ensures UnregisterFun(t, name).Some?
    ensures RegisterFun(UnregisterFun(t, name).value, name, LookupFun(t, name).value) == Some(t)
  {
    EraseInsert(t.funs, name);
  }
}
