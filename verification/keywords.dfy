/** The keyword table and its binary-search lookup
    (`LEX_KEYWORDS` and `lexKeywordLookup` in parser/LexAnalyzer.cpp). */
module Keywords {
  import opened Tokens

  /** The keyword table; the source requires it to be sorted alphabetically. */
  const Table: seq<(string, Kind)> := [
    ("and", And),
    ("array", KwArr),
    ("begin", KwBegin),
    ("const", KwConst),
    ("dec", KwDec),
    ("div", Div),
    ("do", KwDo),
    ("downto", KwDownto),
    ("else", KwElse),
    ("end", KwEnd),
    ("exit", KwExit),
    ("for", KwFor),
    ("forward", KwFwd),
    ("function", KwFunc),
    ("if", KwIf),
    ("inc", KwInc),
    ("integer", KwInt),
    ("mod", Mod),
    ("of", KwOf),
    ("or", Or),
    ("procedure", KwProc),
    ("program", KwProg),
    ("readln", KwReadln),
    ("then", KwThen),
    ("to", KwTo),
    ("var", KwVar),
    ("while", KwWhile),
    ("write", KwWrite),
    ("writeln", KwWriteln)
  ]

  /** The sign of `strcmp(a, b)`: characters compared left to right, a proper
      prefix ordered first. */
  function Compare(a: string, b: string): (c: int)
    ensures -1 <= c <= 1
  {
    if |a| == 0 && |b| == 0 then 0
    else if |a| == 0 then -1
    else if |b| == 0 then 1
    else if a[0] < b[0] then -1
    else if a[0] > b[0] then 1
    else Compare(a[1..], b[1..])
  }

  lemma {:induction false} CompareZeroIffEqual(a: string, b: string)
    ensures Compare(a, b) == 0 <==> a == b
    decreases |a|
  {
    if |a| > 0 && |b| > 0 && a[0] == b[0] {
      CompareZeroIffEqual(a[1..], b[1..]);
      assert a == [a[0]] + a[1..] && b == [b[0]] + b[1..];
    }
  }

  lemma {:induction false} CompareAntisymmetric(a: string, b: string)
    ensures Compare(a, b) == -Compare(b, a)
    decreases |a|
  {
    if |a| > 0 && |b| > 0 && a[0] == b[0] {
      CompareAntisymmetric(a[1..], b[1..]);
    }
  }

  lemma {:induction false} CompareTransitive(a: string, b: string, c: string)
    requires Compare(a, b) < 0 && Compare(b, c) < 0
    ensures Compare(a, c) < 0
    decreases |a|
  {
    if |a| > 0 && |b| > 0 && |c| > 0 && a[0] == b[0] && b[0] == c[0] {
      CompareTransitive(a[1..], b[1..], c[1..]);
    }
  }

  /** Each keyword is strictly below its successor, so the table is sorted
      and free of duplicates, as binary search needs. */
  lemma TableAscending()
    ensures forall i :: 0 <= i < |Table| - 1 ==> Compare(Table[i].0, Table[i + 1].0) < 0
  {
    AscendingAt0();
    AscendingAt2();
    AscendingAt4();
    AscendingAt6();
    AscendingAt8();
    AscendingAt10();
    AscendingAt12();
    AscendingAt14();
    AscendingAt16();
    AscendingAt18();
    AscendingAt20();
    AscendingAt22();
    AscendingAt24();
    AscendingAt26();
  }

  lemma AscendingAt0()
    ensures Compare(Table[0].0, Table[1].0) < 0
    ensures Compare(Table[1].0, Table[2].0) < 0
  {
  }

  lemma AscendingAt2()
    ensures Compare(Table[2].0, Table[3].0) < 0
    ensures Compare(Table[3].0, Table[4].0) < 0
  {
  }

  lemma AscendingAt4()
    ensures Compare(Table[4].0, Table[5].0) < 0
    ensures Compare(Table[5].0, Table[6].0) < 0
  {
  }

  lemma AscendingAt6()
    ensures Compare(Table[6].0, Table[7].0) < 0
    ensures Compare(Table[7].0, Table[8].0) < 0
  {
  }

  lemma AscendingAt8()
    ensures Compare(Table[8].0, Table[9].0) < 0
    ensures Compare(Table[9].0, Table[10].0) < 0
  {
  }

  lemma AscendingAt10()
    ensures Compare(Table[10].0, Table[11].0) < 0
    ensures Compare(Table[11].0, Table[12].0) < 0
  {
  }

  lemma AscendingAt12()
    ensures Compare(Table[12].0, Table[13].0) < 0
    ensures Compare(Table[13].0, Table[14].0) < 0
  {
  }

  lemma AscendingAt14()
    ensures Compare(Table[14].0, Table[15].0) < 0
    ensures Compare(Table[15].0, Table[16].0) < 0
  {
  }

  lemma AscendingAt16()
    ensures Compare(Table[16].0, Table[17].0) < 0
    ensures Compare(Table[17].0, Table[18].0) < 0
  {
  }

  lemma AscendingAt18()
    ensures Compare(Table[18].0, Table[19].0) < 0
    ensures Compare(Table[19].0, Table[20].0) < 0
  {
  }

  lemma AscendingAt20()
    ensures Compare(Table[20].0, Table[21].0) < 0
    ensures Compare(Table[21].0, Table[22].0) < 0
  {
  }

  lemma AscendingAt22()
    ensures Compare(Table[22].0, Table[23].0) < 0
    ensures Compare(Table[23].0, Table[24].0) < 0
  {
  }

  lemma AscendingAt24()
    ensures Compare(Table[24].0, Table[25].0) < 0
    ensures Compare(Table[25].0, Table[26].0) < 0
  {
  }

  lemma AscendingAt26()
    ensures Compare(Table[26].0, Table[27].0) < 0
    ensures Compare(Table[27].0, Table[28].0) < 0
  {
  }

  /** Any earlier entry is strictly below any later one. */
  lemma {:induction false} TableSorted(i: nat, j: nat)
    requires i < j < |Table|
    ensures Compare(Table[i].0, Table[j].0) < 0
    decreases j - i
  {
    TableAscending();
    if i + 1 < j {
      TableSorted(i + 1, j);
      CompareTransitive(Table[i].0, Table[i + 1].0, Table[j].0);
    }
  }

  lemma KeysDistinct(i: nat, j: nat)
    requires i < |Table| && j < |Table| && i != j
    ensures Table[i].0 != Table[j].0
  {
    if i < j {
      TableSorted(i, j);
      CompareZeroIffEqual(Table[i].0, Table[j].0);
    } else {
      TableSorted(j, i);
      CompareZeroIffEqual(Table[j].0, Table[i].0);
    }
  }

  /** When `s` compares above entry `m`, no entry up to `m` is `s`. */
  lemma NotAtOrBelow(s: string, m: nat)
    requires m < |Table| && Compare(s, Table[m].0) > 0
    ensures forall i :: 0 <= i <= m ==> Table[i].0 != s
  {
    forall i | 0 <= i <= m
      ensures Table[i].0 != s
    {
      CompareAntisymmetric(s, Table[m].0);
      if i < m {
        TableSorted(i, m);
        CompareTransitive(Table[i].0, Table[m].0, s);
      }
      CompareZeroIffEqual(Table[i].0, s);
    }
  }

  /** When `s` compares below entry `m`, no entry from `m` on is `s`. */
  lemma NotAtOrAbove(s: string, m: nat)
    requires m < |Table| && Compare(s, Table[m].0) < 0
    ensures forall i :: m <= i < |Table| ==> Table[i].0 != s
  {
    forall i | m <= i < |Table|
      ensures Table[i].0 != s
    {
      if m < i {
        TableSorted(m, i);
        CompareTransitive(s, Table[m].0, Table[i].0);
      }
      CompareZeroIffEqual(s, Table[i].0);
    }
  }

  /** The binary search of `lexKeywordLookup` over entries `lo` up to `hi`. */
  function Search(s: string, lo: nat, hi: nat): (k: Kind)
    requires lo <= hi <= |Table|
    ensures forall i :: lo <= i < hi && Table[i].0 == s ==> k == Table[i].1
    ensures (forall i :: lo <= i < hi ==> Table[i].0 != s) ==> k == Ident
    decreases hi - lo
  {
    if lo < hi then
      var m := (lo + hi) / 2;
      var c := Compare(s, Table[m].0);
      if c > 0 then
        NotAtOrBelow(s, m);
        Search(s, m + 1, hi)
      else if c < 0 then
        NotAtOrAbove(s, m);
        Search(s, lo, m)
      else
        CompareZeroIffEqual(s, Table[m].0);
        assert forall i :: 0 <= i < |Table| && i != m ==> Table[i].0 != s by {
          forall i | 0 <= i < |Table| && i != m
            ensures Table[i].0 != s
          {
            KeysDistinct(i, m);
          }
        }
        Table[m].1
    else
      Ident
  }

  /** `lexKeywordLookup`: the token of a keyword, `Ident` for anything else. */
  function Lookup(s: string): Kind {
    Search(s, 0, |Table|)
  }

  /** Reference definition: scan the table front to back. */
  function LinearLookup(s: string, from: nat): Kind
    requires from <= |Table|
    decreases |Table| - from
  {
    if from == |Table| then Ident
    else if Table[from].0 == s then Table[from].1
    else LinearLookup(s, from + 1)
  }

  lemma {:induction false} LinearLookupFinds(s: string, from: nat)
    requires from <= |Table|
    ensures forall i :: from <= i < |Table| && Table[i].0 == s ==> LinearLookup(s, from) == Table[i].1
    ensures (forall i :: from <= i < |Table| ==> Table[i].0 != s) ==> LinearLookup(s, from) == Ident
    decreases |Table| - from
  {
    if from < |Table| {
      LinearLookupFinds(s, from + 1);
      if Table[from].0 == s {
        forall i | from <= i < |Table| && Table[i].0 == s
          ensures i == from
        {
          if i != from { KeysDistinct(i, from); }
        }
      }
    }
  }

  /** The binary search agrees with the front-to-back scan on every string. */
  lemma LookupIsLinearLookup(s: string)
    ensures Lookup(s) == LinearLookup(s, 0)
  {
    LinearLookupFinds(s, 0);
  }

  /** Every keyword maps to its own token; every other string to `Ident`. */
  lemma LookupKeyword(s: string)
    ensures forall i :: 0 <= i < |Table| && Table[i].0 == s ==> Lookup(s) == Table[i].1
    ensures (forall i :: 0 <= i < |Table| ==> Table[i].0 != s) ==> Lookup(s) == Ident
  {
  }
}
