/**
  The front end's province table: short province names (the keys of
  `provinceCodeMap`) against two-digit province codes, the derived
  code → name map, the lookups in both directions and the two
  membership tests used when drilling down into a province.
*/
module ProvinceCodeMap {
  import opened Features

  /** `provinceCodeMap`, as (short name, code) pairs in declaration order. */
  const ProvinceCodes: seq<(string, string)> := [
    ("北京", "11"), ("天津", "12"), ("河北", "13"), ("山西", "14"), ("内蒙古", "15"),
    ("辽宁", "21"), ("吉林", "22"), ("黑龙江", "23"), ("上海", "31"), ("江苏", "32"),
    ("浙江", "33"), ("安徽", "34"), ("福建", "35"), ("江西", "36"), ("山东", "37"),
    ("河南", "41"), ("湖北", "42"), ("湖南", "43"), ("广东", "44"), ("广西", "45"),
    ("海南", "46"), ("重庆", "50"), ("四川", "51"), ("贵州", "52"), ("云南", "53"),
    ("西藏", "54"), ("陕西", "61"), ("甘肃", "62"), ("青海", "63"), ("宁夏", "64"),
    ("新疆", "65"), ("台湾", "71"), ("香港", "81"), ("澳门", "82")]

  /**
    `Object.fromEntries` over the swapped pairs: every code of the table
    becomes a key; a later pair overwrites an earlier one with the same code.
  */
  function Inverse(pairs: seq<(string, string)>): (m: map<string, string>)
    ensures forall c :: c in m <==> exists i :: 0 <= i < |pairs| && pairs[i].1 == c
    ensures forall c :: c in m ==> exists i :: 0 <= i < |pairs| && pairs[i].1 == c && m[c] == pairs[i].0
    decreases |pairs|
  {
    if pairs == [] then map[]
    else Inverse(pairs[..|pairs| - 1])[pairs[|pairs| - 1].1 := pairs[|pairs| - 1].0]
  }

  /** `codeToProvinceName` */
  const CodeToProvinceName: map<string, string> := Inverse(ProvinceCodes)

  /** `provinceCodeMap[name]` for an own key of the table; `None` is `undefined`. */
  function KeyLookup(pairs: seq<(string, string)>, key: string): (r: Option<string>)
    ensures r.None? <==> forall i :: 0 <= i < |pairs| ==> pairs[i].0 != key
    decreases |pairs|
  {
    if pairs == [] then None
    else if pairs[0].0 == key then Some(pairs[0].1)
    else KeyLookup(pairs[1..], key)
  }

  /** The code of the first key, in table order, that `name` starts with. */
  function FirstPrefixMatch(pairs: seq<(string, string)>, name: string): (r: Option<string>)
    ensures r.None? <==> forall i :: 0 <= i < |pairs| ==> !StartsWith(name, pairs[i].0)
    ensures r.Some? ==> exists i :: 0 <= i < |pairs| && StartsWith(name, pairs[i].0) && r.value == pairs[i].1 &&
                          forall j :: 0 <= j < i ==> !StartsWith(name, pairs[j].0)
    decreases |pairs|
  {
    if pairs == [] then None
    else if StartsWith(name, pairs[0].0) then Some(pairs[0].1)
    else
      var r := FirstPrefixMatch(pairs[1..], name);
      assert r.Some? ==> exists i :: 0 <= i < |pairs[1..]| && StartsWith(name, pairs[1..][i].0) && r.value == pairs[1..][i].1 &&
                           forall j :: 0 <= j < i ==> !StartsWith(name, pairs[1..][j].0);
      r
  }

  /** `provinceName`'s code in `pairs`: an exact key first, else the first key the name starts with. */
  function LookupCode(pairs: seq<(string, string)>, name: string): Option<string>
  {
    var exact := KeyLookup(pairs, name);
    if exact.Some? && exact.value != "" then exact else FirstPrefixMatch(pairs, name)
  }

  /** What `getProvinceCode` returns. */
  function ProvinceCode(name: string): Option<string>
  {
    LookupCode(ProvinceCodes, name)
  }

  /** `getProvinceCode`: the exact lookup, then the `for...in` scan with early return. */
  method GetProvinceCode(provinceName: string) returns (code: Option<string>)
    ensures code == ProvinceCode(provinceName)
  {
    var exact := KeyLookup(ProvinceCodes, provinceName);
    if exact.Some? && exact.value != "" {
      return exact;
    }
    code := ScanForPrefix(ProvinceCodes, provinceName);
  }

  /** The `for...in` loop of `getProvinceCode`, over the keys of `pairs` in order. */
  method ScanForPrefix(pairs: seq<(string, string)>, provinceName: string) returns (code: Option<string>)
    ensures code == FirstPrefixMatch(pairs, provinceName)
  {
    var i := 0;
    while i < |pairs|
      invariant 0 <= i <= |pairs|
      invariant FirstPrefixMatch(pairs[i..], provinceName) == FirstPrefixMatch(pairs, provinceName)
    {
      if StartsWith(provinceName, pairs[i].0) {
        return Some(pairs[i].1);
      }
      assert pairs[i..][1..] == pairs[i + 1..];
      i := i + 1;
    }
    return None;
  }

  /** `getProvinceName`: `codeToProvinceName[code] || null`. */
  function GetProvinceName(code: string): Option<string>
  {
    if code in CodeToProvinceName && CodeToProvinceName[code] != "" then Some(CodeToProvinceName[code]) else None
  }

  /** `isSupportedForDrillDown` */
  predicate IsSupportedForDrillDown(provinceCode: string)
  {
    provinceCode !in ["71", "82"]
  }

  /** `isMunicipality` */
  predicate IsMunicipality(code: string)
  {
    code in ["11", "12", "31", "50"]
  }

  // ---------------------------------------------------------------------
  // Shape of a name/code table and what it buys the lookups
  // ---------------------------------------------------------------------

  ghost predicate NamesDistinct(pairs: seq<(string, string)>)
  {
    forall i, j :: 0 <= i < j < |pairs| ==> pairs[i].0 != pairs[j].0
  }

  ghost predicate CodesDistinct(pairs: seq<(string, string)>)
  {
    forall i, j :: 0 <= i < j < |pairs| ==> pairs[i].1 != pairs[j].1
  }

  /** No key is a prefix of another key. */
  ghost predicate PrefixFree(pairs: seq<(string, string)>)
  {
    forall i, j :: 0 <= i < |pairs| && 0 <= j < |pairs| && i != j ==> !StartsWith(pairs[j].0, pairs[i].0)
  }

  ghost predicate NoEmptyEntries(pairs: seq<(string, string)>)
  {
    forall i :: 0 <= i < |pairs| ==> pairs[i].0 != "" && pairs[i].1 != ""
  }

  ghost predicate WellFormedTable(pairs: seq<(string, string)>)
  {
    NamesDistinct(pairs) && CodesDistinct(pairs) && PrefixFree(pairs) && NoEmptyEntries(pairs)
  }

  // The table facts are split by blocks of rows: each block is checked
  // against itself and against the rows after it.

  lemma NamesDistinctFrom0()
    ensures forall i, j :: 0 <= i < j < 6 ==> ProvinceCodes[i].0 != ProvinceCodes[j].0
    ensures forall i, j :: 0 <= i < 6 <= j < |ProvinceCodes| ==> ProvinceCodes[i].0 != ProvinceCodes[j].0
  {
  }

  lemma CodesDistinctFrom0()
    ensures forall i, j :: 0 <= i < j < 6 ==> ProvinceCodes[i].1 != ProvinceCodes[j].1
    ensures forall i, j :: 0 <= i < 6 <= j < |ProvinceCodes| ==> ProvinceCodes[i].1 != ProvinceCodes[j].1
  {
  }

  lemma NamesDistinctFrom6()
    ensures forall i, j :: 6 <= i < j < 12 ==> ProvinceCodes[i].0 != ProvinceCodes[j].0
    ensures forall i, j :: 6 <= i < 12 <= j < |ProvinceCodes| ==> ProvinceCodes[i].0 != ProvinceCodes[j].0
  {
  }

  lemma CodesDistinctFrom6()
    ensures forall i, j :: 6 <= i < j < 12 ==> ProvinceCodes[i].1 != ProvinceCodes[j].1
    ensures forall i, j :: 6 <= i < 12 <= j < |ProvinceCodes| ==> ProvinceCodes[i].1 != ProvinceCodes[j].1
  {
  }

  lemma NamesDistinctFrom12()
    ensures forall i, j :: 12 <= i < j < 18 ==> ProvinceCodes[i].0 != ProvinceCodes[j].0
    ensures forall i, j :: 12 <= i < 18 <= j < |ProvinceCodes| ==> ProvinceCodes[i].0 != ProvinceCodes[j].0
  {
  }

  lemma CodesDistinctFrom12()
    ensures forall i, j :: 12 <= i < j < 18 ==> ProvinceCodes[i].1 != ProvinceCodes[j].1
    ensures forall i, j :: 12 <= i < 18 <= j < |ProvinceCodes| ==> ProvinceCodes[i].1 != ProvinceCodes[j].1
  {
  }

  lemma NamesDistinctFrom18()
    ensures forall i, j :: 18 <= i < j < 24 ==> ProvinceCodes[i].0 != ProvinceCodes[j].0
    ensures forall i, j :: 18 <= i < 24 <= j < |ProvinceCodes| ==> ProvinceCodes[i].0 != ProvinceCodes[j].0
  {
  }

  lemma CodesDistinctFrom18()
    ensures forall i, j :: 18 <= i < j < 24 ==> ProvinceCodes[i].1 != ProvinceCodes[j].1
    ensures forall i, j :: 18 <= i < 24 <= j < |ProvinceCodes| ==> ProvinceCodes[i].1 != ProvinceCodes[j].1
  {
  }

  lemma NamesDistinctFrom24()
    ensures forall i, j :: 24 <= i < j < 34 ==> ProvinceCodes[i].0 != ProvinceCodes[j].0
  {
  }

  lemma CodesDistinctFrom24()
    ensures forall i, j :: 24 <= i < j < 34 ==> ProvinceCodes[i].1 != ProvinceCodes[j].1
  {
  }

  lemma TableEntryLengths()
    ensures forall i :: 0 <= i < |ProvinceCodes| ==> |ProvinceCodes[i].1| == 2
    ensures forall i :: 0 <= i < |ProvinceCodes| ==> |ProvinceCodes[i].0| == 2 || i == 4 || i == 7
    ensures |ProvinceCodes[4].0| == 3 && |ProvinceCodes[7].0| == 3
  {
  }

  lemma NoShortNameIsAThreeCharacterStem()
    ensures forall j :: 0 <= j < |ProvinceCodes| ==> ProvinceCodes[j].0 != "内蒙" && ProvinceCodes[j].0 != "黑龙"
    ensures ProvinceCodes[4].0[..2] == "内蒙" && ProvinceCodes[7].0[..2] == "黑龙"
  {
  }

  /** The province table has distinct names, distinct codes, no empty entry, and no key is a prefix of another. */
  lemma {:induction false} ProvinceCodesWellFormed()
    ensures WellFormedTable(ProvinceCodes)
  {
    NamesDistinctFrom0();
    CodesDistinctFrom0();
    NamesDistinctFrom6();
    CodesDistinctFrom6();
    NamesDistinctFrom12();
    CodesDistinctFrom12();
    NamesDistinctFrom18();
    CodesDistinctFrom18();
    NamesDistinctFrom24();
    CodesDistinctFrom24();
    TableEntryLengths();
    NoShortNameIsAThreeCharacterStem();
    forall i, j | 0 <= i < |ProvinceCodes| && 0 <= j < |ProvinceCodes| && i != j
      ensures !StartsWith(ProvinceCodes[j].0, ProvinceCodes[i].0)
    {
    }
  }

  /** Two prefixes of one string are prefixes of each other. */
  lemma PrefixesOfOneString(s: string, a: string, b: string)
    requires StartsWith(s, a) && StartsWith(s, b)
    ensures StartsWith(a, b) || StartsWith(b, a)
  {
    if |a| <= |b| {
      assert b[..|a|] == s[..|a|] == a;
    } else {
      assert a[..|b|] == s[..|b|] == b;
    }
  }

  /**
    In a prefix-free table at most one key is a prefix of any name, so the
    prefix search does not depend on the iteration order of the table.
  */
  lemma PrefixMatchIsUnique(pairs: seq<(string, string)>, name: string, i: nat, j: nat)
    requires PrefixFree(pairs)
    requires i < |pairs| && j < |pairs|
    requires StartsWith(name, pairs[i].0) && StartsWith(name, pairs[j].0)
    ensures i == j
  {
    PrefixesOfOneString(name, pairs[i].0, pairs[j].0);
  }

  /** With distinct codes, the inverse maps each code back to its own name. */
  lemma {:induction false} InverseAt(pairs: seq<(string, string)>, i: nat)
    requires i < |pairs|
    requires CodesDistinct(pairs)
    ensures Inverse(pairs)[pairs[i].1] == pairs[i].0
    decreases |pairs|
  {
    var n := |pairs| - 1;
    if i < n {
      InverseAt(pairs[..n], i);
    }
  }

  /** With distinct keys, the exact lookup of the i-th key gives the i-th code. */
  lemma {:induction false} KeyLookupAt(pairs: seq<(string, string)>, i: nat)
    requires i < |pairs|
    requires NamesDistinct(pairs)
    ensures KeyLookup(pairs, pairs[i].0) == Some(pairs[i].1)
    decreases |pairs|
  {
    if i > 0 {
      KeyLookupAt(pairs[1..], i - 1);
    }
  }

  /**
    In a well-formed table the exact-match branch never changes the
    answer: the lookup is the prefix search alone.
  */
  lemma ExactMatchAgreesWithPrefixSearch(pairs: seq<(string, string)>, name: string)
    requires WellFormedTable(pairs)
    ensures LookupCode(pairs, name) == FirstPrefixMatch(pairs, name)
  {
    var exact := KeyLookup(pairs, name);
    if exact.Some? {
      var i :| 0 <= i < |pairs| && pairs[i].0 == name;
      KeyLookupAt(pairs, i);
      assert StartsWith(name, pairs[i].0);
      var r := FirstPrefixMatch(pairs, name);
      var k :| 0 <= k < |pairs| && StartsWith(name, pairs[k].0) && r.value == pairs[k].1;
      PrefixMatchIsUnique(pairs, name, i, k);
    }
  }

  /** `getProvinceCode(name)` is the code of the one key `name` starts with, and `null` when there is none. */
  lemma ProvinceCodeIsTheMatchingKey(name: string)
    ensures ProvinceCode(name).None? <==> forall i :: 0 <= i < |ProvinceCodes| ==> !StartsWith(name, ProvinceCodes[i].0)
    ensures forall i :: 0 <= i < |ProvinceCodes| && StartsWith(name, ProvinceCodes[i].0) ==> ProvinceCode(name) == Some(ProvinceCodes[i].1)
  {
    ProvinceCodesWellFormed();
    ExactMatchAgreesWithPrefixSearch(ProvinceCodes, name);
    var r := FirstPrefixMatch(ProvinceCodes, name);
    forall i | 0 <= i < |ProvinceCodes| && StartsWith(name, ProvinceCodes[i].0)
      ensures r == Some(ProvinceCodes[i].1)
    {
      var k :| 0 <= k < |ProvinceCodes| && StartsWith(name, ProvinceCodes[k].0) && r.value == ProvinceCodes[k].1;
      PrefixMatchIsUnique(ProvinceCodes, name, i, k);
    }
  }

  /** A full name resolves through its short-name prefix: 北京市 gives 11. */
  lemma FullNameResolves(name: string)
    requires name == "北京市"
    ensures ProvinceCode(name) == Some("11")
  {
    ProvinceCodeIsTheMatchingKey(name);
    assert StartsWith(name, ProvinceCodes[0].0);
  }

  /** With distinct entries the two lookups invert each other on the table. */
  lemma {:induction false} TableRoundTrip(pairs: seq<(string, string)>, i: nat)
    requires i < |pairs| && WellFormedTable(pairs)
    ensures LookupCode(pairs, pairs[i].0) == Some(pairs[i].1)
    ensures pairs[i].1 in Inverse(pairs) && Inverse(pairs)[pairs[i].1] == pairs[i].0
  {
    InverseAt(pairs, i);
    KeyLookupAt(pairs, i);
  }

  /** `getProvinceName` gives the short name of a code of the table, and `null` for any other code. */
  lemma ProvinceNameOfCode(code: string)
    ensures GetProvinceName(code).None? <==> forall i :: 0 <= i < |ProvinceCodes| ==> ProvinceCodes[i].1 != code
    ensures forall i :: 0 <= i < |ProvinceCodes| && ProvinceCodes[i].1 == code ==> GetProvinceName(code) == Some(ProvinceCodes[i].0)
  {
    ProvinceCodesWellFormed();
    forall i | 0 <= i < |ProvinceCodes| && ProvinceCodes[i].1 == code
      ensures GetProvinceName(code) == Some(ProvinceCodes[i].0)
    {
      TableRoundTrip(ProvinceCodes, i);
    }
  }

  /** Round trip from codes: for every code of the table, `getProvinceCode(getProvinceName(c)) == c`. */
  lemma CodeRoundTrip(code: string)
    requires exists i :: 0 <= i < |ProvinceCodes| && ProvinceCodes[i].1 == code
    ensures GetProvinceName(code).Some?
    ensures ProvinceCode(GetProvinceName(code).value) == Some(code)
  {
    var i :| 0 <= i < |ProvinceCodes| && ProvinceCodes[i].1 == code;
    ProvinceCodesWellFormed();
    TableRoundTrip(ProvinceCodes, i);
  }

  /** Round trip from names: for every short name of the table, `getProvinceName(getProvinceCode(n)) == n`. */
  lemma NameRoundTrip(name: string)
    requires exists i :: 0 <= i < |ProvinceCodes| && ProvinceCodes[i].0 == name
    ensures ProvinceCode(name).Some?
    ensures GetProvinceName(ProvinceCode(name).value) == Some(name)
  {
    var i :| 0 <= i < |ProvinceCodes| && ProvinceCodes[i].0 == name;
    ProvinceCodesWellFormed();
    TableRoundTrip(ProvinceCodes, i);
  }

  /** Among the provinces of the table, drill-down is refused exactly for 台湾 and 澳门. */
  lemma DrillDownExcludesTaiwanAndMacau(i: nat)
    requires i < |ProvinceCodes|
    ensures !IsSupportedForDrillDown(ProvinceCodes[i].1) <==> ProvinceCodes[i].0 == "台湾" || ProvinceCodes[i].0 == "澳门"
  {
  }

  /** Among the provinces of the table, the municipalities are exactly 北京, 天津, 上海 and 重庆. */
  lemma MunicipalitiesByName(i: nat)
    requires i < |ProvinceCodes|
    ensures IsMunicipality(ProvinceCodes[i].1) <==>
              ProvinceCodes[i].0 == "北京" || ProvinceCodes[i].0 == "天津" || ProvinceCodes[i].0 == "上海" || ProvinceCodes[i].0 == "重庆"
  {
  }
}
