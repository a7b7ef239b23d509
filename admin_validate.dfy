/**
  The read-only checks run over a merged tree: an error for every
  province, city or county lacking a code or a name, a warning for every
  county whose code does not start with its city's code, for every city
  without counties and for every province without cities; and the
  statistics report derived from the tree.
*/
module AdminValidate {
  import opened Features

  // ---------------------------------------------------------------------
  // Messages
  // ---------------------------------------------------------------------

  /** One error or warning, with the values its text interpolates. */
  datatype Message =
    | ProvinceIncomplete(code: Option<string>, name: Option<string>)
    | CityIncomplete(provinceName: Option<string>, code: Option<string>, name: Option<string>)
    | CountyIncomplete(provinceName: Option<string>, cityName: Option<string>, code: Option<string>, name: Option<string>)
    | CodeMismatch(cityName: Option<string>, cityCode: Option<string>, countyName: Option<string>, countyCode: Option<string>)
    | NoCounties(provinceName: Option<string>, cityName: Option<string>)
    | NoCities(provinceName: Option<string>)

  /** The text the script pushes for a message. */
  function Text(m: Message): string
  {
    match m
    case ProvinceIncomplete(code, name) =>
      "省份数据不完整: " + Show(code) + " - " + Show(name)
    case CityIncomplete(provinceName, code, name) =>
      "城市数据不完整: " + Show(provinceName) + " - " + Show(code) + " - " + Show(name)
    case CountyIncomplete(provinceName, cityName, code, name) =>
      "区县数据不完整: " + Show(provinceName) + " - " + Show(cityName) + " - " + Show(code) + " - " + Show(name)
    case CodeMismatch(cityName, cityCode, countyName, countyCode) =>
      "代码层级不匹配: " + Show(cityName) + "(" + Show(cityCode) + ") - " + Show(countyName) + "(" + Show(countyCode) + ")"
    case NoCounties(provinceName, cityName) =>
      Show(provinceName) + " - " + Show(cityName) + " 没有区县数据"
    case NoCities(provinceName) =>
      Show(provinceName) + " 没有城市数据"
  }

  // ---------------------------------------------------------------------
  // What is checked
  // ---------------------------------------------------------------------

  /** `code && name` */
  predicate Complete(code: Option<string>, name: Option<string>)
  {
    Truthy(code) && Truthy(name)
  }

  /** Both codes present and the county code's first four characters differ from the city code. */
  predicate Mismatched(cityCode: Option<string>, countyCode: Option<string>)
  {
    Truthy(cityCode) && Truthy(countyCode) && cityCode.value != Take(countyCode.value, 4)
  }

  /** Every node of the tree has a code and a name. */
  predicate TreeComplete(ps: seq<Province>)
  {
    forall i :: 0 <= i < |ps| ==>
      Complete(ps[i].code, ps[i].name) &&
      forall j :: 0 <= j < |ps[i].cities| ==>
        Complete(ps[i].cities[j].code, ps[i].cities[j].name) &&
        forall k :: 0 <= k < |ps[i].cities[j].counties| ==>
          Complete(ps[i].cities[j].counties[k].code, ps[i].cities[j].counties[k].name)
  }

  /** Every province has cities, every city has counties, and every county code extends its city's code. */
  predicate TreeConsistent(ps: seq<Province>)
  {
    forall i :: 0 <= i < |ps| ==>
      |ps[i].cities| > 0 &&
      forall j :: 0 <= j < |ps[i].cities| ==>
        |ps[i].cities[j].counties| > 0 &&
        forall k :: 0 <= k < |ps[i].cities[j].counties| ==>
          !Mismatched(ps[i].cities[j].code, ps[i].cities[j].counties[k].code)
  }

  // ---------------------------------------------------------------------
  // The two message lists, in traversal order
  // ---------------------------------------------------------------------

  function CountyErrors(provinceName: Option<string>, cityName: Option<string>, counties: seq<County>): seq<Message>
  {
    if counties == [] then []
    else
      var c := counties[|counties| - 1];
      CountyErrors(provinceName, cityName, counties[..|counties| - 1])
        + (if Complete(c.code, c.name) then [] else [CountyIncomplete(provinceName, cityName, c.code, c.name)])
  }

  function CountyWarnings(cityName: Option<string>, cityCode: Option<string>, counties: seq<County>): seq<Message>
  {
    if counties == [] then []
    else
      var c := counties[|counties| - 1];
      CountyWarnings(cityName, cityCode, counties[..|counties| - 1])
        + (if Mismatched(cityCode, c.code) then [CodeMismatch(cityName, cityCode, c.name, c.code)] else [])
  }

  /** The errors raised for one city: its own, then its counties'. */
  function OneCityErrors(provinceName: Option<string>, city: City): seq<Message>
  {
    (if Complete(city.code, city.name) then [] else [CityIncomplete(provinceName, city.code, city.name)])
      + CountyErrors(provinceName, city.name, city.counties)
  }

  /** The warnings raised for one city: its counties' mismatches, then its own emptiness. */
  function OneCityWarnings(provinceName: Option<string>, city: City): seq<Message>
  {
    CountyWarnings(city.name, city.code, city.counties)
      + (if |city.counties| == 0 then [NoCounties(provinceName, city.name)] else [])
  }

  function CityErrors(provinceName: Option<string>, cities: seq<City>): seq<Message>
  {
    if cities == [] then []
    else CityErrors(provinceName, cities[..|cities| - 1]) + OneCityErrors(provinceName, cities[|cities| - 1])
  }

  function CityWarnings(provinceName: Option<string>, cities: seq<City>): seq<Message>
  {
    if cities == [] then []
    else CityWarnings(provinceName, cities[..|cities| - 1]) + OneCityWarnings(provinceName, cities[|cities| - 1])
  }

  function OneProvinceErrors(p: Province): seq<Message>
  {
    (if Complete(p.code, p.name) then [] else [ProvinceIncomplete(p.code, p.name)])
      + CityErrors(p.name, p.cities)
  }

  function OneProvinceWarnings(p: Province): seq<Message>
  {
    CityWarnings(p.name, p.cities) + (if |p.cities| == 0 then [NoCities(p.name)] else [])
  }

  function Errors(ps: seq<Province>): seq<Message>
  {
    if ps == [] then [] else Errors(ps[..|ps| - 1]) + OneProvinceErrors(ps[|ps| - 1])
  }

  function Warnings(ps: seq<Province>): seq<Message>
  {
    if ps == [] then [] else Warnings(ps[..|ps| - 1]) + OneProvinceWarnings(ps[|ps| - 1])
  }

  /** What `validateData` returns; `Text` gives each message's wording. */
  datatype Validation = Validation(errors: seq<Message>, warnings: seq<Message>)

  /** Regrouping pushed messages; the loop proofs cite this one small fact rather than re-deriving it in their larger contexts. */
  lemma AppendAssociates(a: seq<Message>, b: seq<Message>, c: seq<Message>)
    ensures (a + b) + c == a + (b + c)
  {
  }

  /** `validateData`: walks the tree once and collects both lists; the tree is a value and is left as it was. */
  method ValidateData(h: Hierarchy) returns (v: Validation)
    ensures v.errors == Errors(h.features)
    ensures v.warnings == Warnings(h.features)
  {
    var ps := h.features;
    var errors: seq<Message> := [];
    var warnings: seq<Message> := [];
    var i := 0;
    while i < |ps|
      invariant 0 <= i <= |ps|
      invariant errors == Errors(ps[..i])
      invariant warnings == Warnings(ps[..i])
    {
      var province := ps[i];
      assert ps[..i + 1][..i] == ps[..i];
      ghost var errorsBefore, warningsBefore := errors, warnings;
      var own: seq<Message> := [];
      if !Complete(province.code, province.name) {
        own := [ProvinceIncomplete(province.code, province.name)];
      }
      errors := errors + own;
      errors, warnings := CheckCities(province.name, province.cities, errors, warnings);
      AppendAssociates(errorsBefore, own, CityErrors(province.name, province.cities));
      var empty: seq<Message> := [];
      if |province.cities| == 0 {
        empty := [NoCities(province.name)];
      }
      warnings := warnings + empty;
      AppendAssociates(warningsBefore, CityWarnings(province.name, province.cities), empty);
      i := i + 1;
    }
    assert ps[..i] == ps;
    v := Validation(errors, warnings);
  }

  /** The city loop of `validateData`, pushing onto the lists built so far. */
  method CheckCities(provinceName: Option<string>, cities: seq<City>, errors0: seq<Message>, warnings0: seq<Message>)
    returns (errors: seq<Message>, warnings: seq<Message>)
    ensures errors == errors0 + CityErrors(provinceName, cities)
    ensures warnings == warnings0 + CityWarnings(provinceName, cities)
  {
    errors, warnings := errors0, warnings0;
    var j := 0;
    while j < |cities|
      invariant 0 <= j <= |cities|
      invariant errors == errors0 + CityErrors(provinceName, cities[..j])
      invariant warnings == warnings0 + CityWarnings(provinceName, cities[..j])
    {
      var city := cities[j];
      assert cities[..j + 1][..j] == cities[..j];
      ghost var errorsBefore, warningsBefore := errors, warnings;
      var own: seq<Message> := [];
      if !Complete(city.code, city.name) {
        own := [CityIncomplete(provinceName, city.code, city.name)];
      }
      errors := errors + own;
      errors, warnings := CheckCounties(provinceName, city, errors, warnings);
      AppendAssociates(errorsBefore, own, CountyErrors(provinceName, city.name, city.counties));
      var empty: seq<Message> := [];
      if |city.counties| == 0 {
        empty := [NoCounties(provinceName, city.name)];
      }
      warnings := warnings + empty;
      AppendAssociates(warningsBefore, CountyWarnings(city.name, city.code, city.counties), empty);
      AppendAssociates(errors0, CityErrors(provinceName, cities[..j]), OneCityErrors(provinceName, city));
      AppendAssociates(warnings0, CityWarnings(provinceName, cities[..j]), OneCityWarnings(provinceName, city));
      j := j + 1;
    }
    assert cities[..j] == cities;
  }

  /** The county loop of `validateData`, pushing onto the lists built so far. */
  method CheckCounties(provinceName: Option<string>, city: City, errors0: seq<Message>, warnings0: seq<Message>)
    returns (errors: seq<Message>, warnings: seq<Message>)
    ensures errors == errors0 + CountyErrors(provinceName, city.name, city.counties)
    ensures warnings == warnings0 + CountyWarnings(city.name, city.code, city.counties)
  {
    errors, warnings := errors0, warnings0;
    var counties := city.counties;
    var k := 0;
    while k < |counties|
      invariant 0 <= k <= |counties|
      invariant errors == errors0 + CountyErrors(provinceName, city.name, counties[..k])
      invariant warnings == warnings0 + CountyWarnings(city.name, city.code, counties[..k])
    {
      var county := counties[k];
      assert counties[..k + 1][..k] == counties[..k];
      var own: seq<Message> := [];
      if !Complete(county.code, county.name) {
        own := [CountyIncomplete(provinceName, city.name, county.code, county.name)];
      }
      AppendAssociates(errors0, CountyErrors(provinceName, city.name, counties[..k]), own);
      errors := errors + own;
      var mismatch: seq<Message> := [];
      if Truthy(city.code) && Truthy(county.code) {
        var countyCityPrefix := Take(county.code.value, 4);
        if city.code.value != countyCityPrefix {
          mismatch := [CodeMismatch(city.name, city.code, county.name, county.code)];
        }
      }
      AppendAssociates(warnings0, CountyWarnings(city.name, city.code, counties[..k]), mismatch);
      warnings := warnings + mismatch;
      k := k + 1;
    }
    assert counties[..k] == counties;
  }

  // ---------------------------------------------------------------------
  // What the lists contain
  // ---------------------------------------------------------------------

  /** `m` is the error the tree's own defects call for: an incomplete province, city or county. */
  predicate ErrorFor(ps: seq<Province>, m: Message)
  {
    (exists i :: 0 <= i < |ps| && !Complete(ps[i].code, ps[i].name) && m == ProvinceIncomplete(ps[i].code, ps[i].name))
    || (exists i, j :: 0 <= i < |ps| && 0 <= j < |ps[i].cities| &&
          var c := ps[i].cities[j];
          !Complete(c.code, c.name) && m == CityIncomplete(ps[i].name, c.code, c.name))
    || (exists i, j, k :: 0 <= i < |ps| && 0 <= j < |ps[i].cities| && 0 <= k < |ps[i].cities[j].counties| &&
          var c := ps[i].cities[j].counties[k];
          !Complete(c.code, c.name) && m == CountyIncomplete(ps[i].name, ps[i].cities[j].name, c.code, c.name))
  }

  /** `m` is a warning the tree calls for: a code mismatch, a city without counties, a province without cities. */
  predicate WarningFor(ps: seq<Province>, m: Message)
  {
    (exists i, j, k :: 0 <= i < |ps| && 0 <= j < |ps[i].cities| && 0 <= k < |ps[i].cities[j].counties| &&
          var city := ps[i].cities[j];
          var c := city.counties[k];
          Mismatched(city.code, c.code) && m == CodeMismatch(city.name, city.code, c.name, c.code))
    || (exists i, j :: 0 <= i < |ps| && 0 <= j < |ps[i].cities| &&
          |ps[i].cities[j].counties| == 0 && m == NoCounties(ps[i].name, ps[i].cities[j].name))
    || (exists i :: 0 <= i < |ps| && |ps[i].cities| == 0 && m == NoCities(ps[i].name))
  }

  lemma {:induction false} CountyErrorsMembers(provinceName: Option<string>, cityName: Option<string>, counties: seq<County>, m: Message)
    ensures m in CountyErrors(provinceName, cityName, counties) <==>
      exists k :: 0 <= k < |counties| && !Complete(counties[k].code, counties[k].name) &&
        m == CountyIncomplete(provinceName, cityName, counties[k].code, counties[k].name)
    decreases |counties|
  {
    if counties != [] {
      var n := |counties| - 1;
      CountyErrorsMembers(provinceName, cityName, counties[..n], m);
      if m in CountyErrors(provinceName, cityName, counties[..n]) {
        var k :| 0 <= k < n && !Complete(counties[..n][k].code, counties[..n][k].name) &&
          m == CountyIncomplete(provinceName, cityName, counties[..n][k].code, counties[..n][k].name);
        assert counties[..n][k] == counties[k];
      }
    }
  }

  lemma {:induction false} CountyWarningsMembers(cityName: Option<string>, cityCode: Option<string>, counties: seq<County>, m: Message)
    ensures m in CountyWarnings(cityName, cityCode, counties) <==>
      exists k :: 0 <= k < |counties| && Mismatched(cityCode, counties[k].code) &&
        m == CodeMismatch(cityName, cityCode, counties[k].name, counties[k].code)
    decreases |counties|
  {
    if counties != [] {
      var n := |counties| - 1;
      CountyWarningsMembers(cityName, cityCode, counties[..n], m);
      if m in CountyWarnings(cityName, cityCode, counties[..n]) {
        var k :| 0 <= k < n && Mismatched(cityCode, counties[..n][k].code) &&
          m == CodeMismatch(cityName, cityCode, counties[..n][k].name, counties[..n][k].code);
        assert counties[..n][k] == counties[k];
      }
    }
  }

  lemma {:induction false} CityErrorsMembers(provinceName: Option<string>, cities: seq<City>, m: Message)
    ensures m in CityErrors(provinceName, cities) <==> exists j :: 0 <= j < |cities| && m in OneCityErrors(provinceName, cities[j])
    decreases |cities|
  {
    if cities != [] {
      var n := |cities| - 1;
      CityErrorsMembers(provinceName, cities[..n], m);
      var earlier, last := CityErrors(provinceName, cities[..n]), OneCityErrors(provinceName, cities[n]);
      assert CityErrors(provinceName, cities) == earlier + last;
      assert m in CityErrors(provinceName, cities) <==> m in earlier || m in last;
      if m in earlier {
        var j :| 0 <= j < n && m in OneCityErrors(provinceName, cities[..n][j]);
        assert cities[..n][j] == cities[j];
      }
      if j0 :| 0 <= j0 < |cities| && m in OneCityErrors(provinceName, cities[j0]) {
        if j0 < n {
          assert cities[..n][j0] == cities[j0];
          assert m in earlier;
        }
      }
    }
  }

  lemma {:induction false} CityWarningsMembers(provinceName: Option<string>, cities: seq<City>, m: Message)
    ensures m in CityWarnings(provinceName, cities) <==> exists j :: 0 <= j < |cities| && m in OneCityWarnings(provinceName, cities[j])
    decreases |cities|
  {
    if cities != [] {
      var n := |cities| - 1;
      CityWarningsMembers(provinceName, cities[..n], m);
      var earlier, last := CityWarnings(provinceName, cities[..n]), OneCityWarnings(provinceName, cities[n]);
      assert CityWarnings(provinceName, cities) == earlier + last;
      assert m in CityWarnings(provinceName, cities) <==> m in earlier || m in last;
      if m in earlier {
        var j :| 0 <= j < n && m in OneCityWarnings(provinceName, cities[..n][j]);
        assert cities[..n][j] == cities[j];
      }
      if j0 :| 0 <= j0 < |cities| && m in OneCityWarnings(provinceName, cities[j0]) {
        if j0 < n {
          assert cities[..n][j0] == cities[j0];
          assert m in earlier;
        }
      }
    }
  }

  lemma {:induction false} ErrorsMembers(ps: seq<Province>, m: Message)
    ensures m in Errors(ps) <==> exists i :: 0 <= i < |ps| && m in OneProvinceErrors(ps[i])
    decreases |ps|
  {
    if ps != [] {
      var n := |ps| - 1;
      ErrorsMembers(ps[..n], m);
      var earlier, last := Errors(ps[..n]), OneProvinceErrors(ps[n]);
      assert Errors(ps) == earlier + last;
      assert m in Errors(ps) <==> m in earlier || m in last;
      if m in earlier {
        var i :| 0 <= i < n && m in OneProvinceErrors(ps[..n][i]);
        assert ps[..n][i] == ps[i];
      }
      if i0 :| 0 <= i0 < |ps| && m in OneProvinceErrors(ps[i0]) {
        if i0 < n {
          assert ps[..n][i0] == ps[i0];
          assert m in earlier;
        }
      }
    }
  }

  lemma {:induction false} WarningsMembers(ps: seq<Province>, m: Message)
    ensures m in Warnings(ps) <==> exists i :: 0 <= i < |ps| && m in OneProvinceWarnings(ps[i])
    decreases |ps|
  {
    if ps != [] {
      var n := |ps| - 1;
      WarningsMembers(ps[..n], m);
      var earlier, last := Warnings(ps[..n]), OneProvinceWarnings(ps[n]);
      assert Warnings(ps) == earlier + last;
      assert m in Warnings(ps) <==> m in earlier || m in last;
      if m in earlier {
        var i :| 0 <= i < n && m in OneProvinceWarnings(ps[..n][i]);
        assert ps[..n][i] == ps[i];
      }
      if i0 :| 0 <= i0 < |ps| && m in OneProvinceWarnings(ps[i0]) {
        if i0 < n {
          assert ps[..n][i0] == ps[i0];
          assert m in earlier;
        }
      }
    }
  }

  /** The errors are exactly the messages for the incomplete nodes of the tree: each one is raised, and nothing else is. */
  lemma ErrorsAreExactlyIncompleteNodes(ps: seq<Province>, m: Message)
    ensures m in Errors(ps) <==> ErrorFor(ps, m)
  {
    ErrorsMembers(ps, m);
    forall i | 0 <= i < |ps|
      ensures m in OneProvinceErrors(ps[i]) <==>
        (!Complete(ps[i].code, ps[i].name) && m == ProvinceIncomplete(ps[i].code, ps[i].name)) ||
        (exists j :: 0 <= j < |ps[i].cities| && m in OneCityErrors(ps[i].name, ps[i].cities[j]))
    {
      CityErrorsMembers(ps[i].name, ps[i].cities, m);
    }
    forall i, j | 0 <= i < |ps| && 0 <= j < |ps[i].cities|
      ensures var c := ps[i].cities[j];
        m in OneCityErrors(ps[i].name, c) <==>
        (!Complete(c.code, c.name) && m == CityIncomplete(ps[i].name, c.code, c.name)) ||
        (exists k :: 0 <= k < |c.counties| && !Complete(c.counties[k].code, c.counties[k].name) &&
           m == CountyIncomplete(ps[i].name, c.name, c.counties[k].code, c.counties[k].name))
    {
      CountyErrorsMembers(ps[i].name, ps[i].cities[j].name, ps[i].cities[j].counties, m);
    }
  }

  /** The warnings are exactly the messages for the tree's mismatched counties, empty cities and empty provinces. */
  lemma WarningsAreExactlyDefects(ps: seq<Province>, m: Message)
    ensures m in Warnings(ps) <==> WarningFor(ps, m)
  {
    WarningsMembers(ps, m);
    forall i | 0 <= i < |ps|
      ensures m in OneProvinceWarnings(ps[i]) <==>
        (exists j :: 0 <= j < |ps[i].cities| && m in OneCityWarnings(ps[i].name, ps[i].cities[j])) ||
        (|ps[i].cities| == 0 && m == NoCities(ps[i].name))
    {
      CityWarningsMembers(ps[i].name, ps[i].cities, m);
    }
    forall i, j | 0 <= i < |ps| && 0 <= j < |ps[i].cities|
      ensures var c := ps[i].cities[j];
        m in OneCityWarnings(ps[i].name, c) <==>
        (exists k :: 0 <= k < |c.counties| && Mismatched(c.code, c.counties[k].code) &&
           m == CodeMismatch(c.name, c.code, c.counties[k].name, c.counties[k].code)) ||
        (|c.counties| == 0 && m == NoCounties(ps[i].name, c.name))
    {
      CountyWarningsMembers(ps[i].cities[j].name, ps[i].cities[j].code, ps[i].cities[j].counties, m);
    }
  }

  /** No errors exactly when every province, city and county has a code and a name. */
  lemma NoErrorsIffComplete(ps: seq<Province>)
    ensures Errors(ps) == [] <==> TreeComplete(ps)
  {
    if Errors(ps) != [] {
      ErrorsAreExactlyIncompleteNodes(ps, Errors(ps)[0]);
    }
    if !TreeComplete(ps) {
      var i :| 0 <= i < |ps| && !(Complete(ps[i].code, ps[i].name) &&
        forall j :: 0 <= j < |ps[i].cities| ==>
          Complete(ps[i].cities[j].code, ps[i].cities[j].name) &&
          forall k :: 0 <= k < |ps[i].cities[j].counties| ==>
            Complete(ps[i].cities[j].counties[k].code, ps[i].cities[j].counties[k].name));
      if !Complete(ps[i].code, ps[i].name) {
        ErrorsAreExactlyIncompleteNodes(ps, ProvinceIncomplete(ps[i].code, ps[i].name));
      } else {
        var j :| 0 <= j < |ps[i].cities| && !(Complete(ps[i].cities[j].code, ps[i].cities[j].name) &&
          forall k :: 0 <= k < |ps[i].cities[j].counties| ==>
            Complete(ps[i].cities[j].counties[k].code, ps[i].cities[j].counties[k].name));
        var c := ps[i].cities[j];
        if !Complete(c.code, c.name) {
          ErrorsAreExactlyIncompleteNodes(ps, CityIncomplete(ps[i].name, c.code, c.name));
        } else {
          var k :| 0 <= k < |c.counties| && !Complete(c.counties[k].code, c.counties[k].name);
          ErrorsAreExactlyIncompleteNodes(ps, CountyIncomplete(ps[i].name, c.name, c.counties[k].code, c.counties[k].name));
        }
      }
    }
  }

  /** No warnings exactly when every province has cities, every city has counties and no county code contradicts its city's. */
  lemma NoWarningsIffConsistent(ps: seq<Province>)
    ensures Warnings(ps) == [] <==> TreeConsistent(ps)
  {
    if Warnings(ps) != [] {
      WarningsAreExactlyDefects(ps, Warnings(ps)[0]);
    }
    if !TreeConsistent(ps) {
      var i :| 0 <= i < |ps| && !(|ps[i].cities| > 0 &&
        forall j :: 0 <= j < |ps[i].cities| ==>
          |ps[i].cities[j].counties| > 0 &&
          forall k :: 0 <= k < |ps[i].cities[j].counties| ==>
            !Mismatched(ps[i].cities[j].code, ps[i].cities[j].counties[k].code));
      if |ps[i].cities| == 0 {
        WarningsAreExactlyDefects(ps, NoCities(ps[i].name));
      } else {
        var j :| 0 <= j < |ps[i].cities| && !(|ps[i].cities[j].counties| > 0 &&
          forall k :: 0 <= k < |ps[i].cities[j].counties| ==>
            !Mismatched(ps[i].cities[j].code, ps[i].cities[j].counties[k].code));
        var c := ps[i].cities[j];
        if |c.counties| == 0 {
          WarningsAreExactlyDefects(ps, NoCounties(ps[i].name, c.name));
        } else {
          var k :| 0 <= k < |c.counties| && Mismatched(c.code, c.counties[k].code);
          WarningsAreExactlyDefects(ps, CodeMismatch(c.name, c.code, c.counties[k].name, c.counties[k].code));
        }
      }
    }
  }

  // ---------------------------------------------------------------------
  // The statistics report
  // ---------------------------------------------------------------------

  datatype CityInfo = CityInfo(code: Option<string>, name: Option<string>, countyCount: nat)

  datatype ProvinceInfo = ProvinceInfo(
    code: Option<string>,
    name: Option<string>,
    cityCount: nat,
    countyCount: nat,
    cities: seq<CityInfo>)

  datatype Report = Report(summary: Metadata, provinces: seq<ProvinceInfo>)

  /** `info` describes `p`: its code and name, its number of cities and of counties, and one entry per city in order. */
  predicate Summarises(p: Province, info: ProvinceInfo)
  {
    && info.code == p.code
    && info.name == p.name
    && info.cityCount == |p.cities|
    && info.countyCount == CountyCount(p.cities)
    && |info.cities| == |p.cities|
    && forall j :: 0 <= j < |p.cities| ==>
         info.cities[j] == CityInfo(p.cities[j].code, p.cities[j].name, |p.cities[j].counties|)
  }

  /** `r` is the report of `h`: the metadata totals as summary, and one summary per province in order. */
  predicate ReportOf(h: Hierarchy, r: Report)
  {
    && r.summary == h.metadata
    && |r.provinces| == |h.features|
    && forall i :: 0 <= i < |h.features| ==> Summarises(h.features[i], r.provinces[i])
  }

  /** The city loop of `generateReport` for one province. */
  method SummariseProvince(p: Province) returns (info: ProvinceInfo)
    ensures Summarises(p, info)
  {
    var cities: seq<CityInfo> := [];
    var countyCount := 0;
    var j := 0;
    while j < |p.cities|
      invariant 0 <= j <= |p.cities|
      invariant countyCount == CountyCount(p.cities[..j])
      invariant |cities| == j
      invariant forall j' :: 0 <= j' < j ==>
        cities[j'] == CityInfo(p.cities[j'].code, p.cities[j'].name, |p.cities[j'].counties|)
    {
      var city := p.cities[j];
      assert p.cities[..j + 1][..j] == p.cities[..j];
      countyCount := countyCount + |city.counties|;
      cities := cities + [CityInfo(city.code, city.name, |city.counties|)];
      j := j + 1;
    }
    assert p.cities[..j] == p.cities;
    info := ProvinceInfo(p.code, p.name, |p.cities|, countyCount, cities);
  }

  /** `generateReport` */
  method GenerateReport(h: Hierarchy) returns (r: Report)
    ensures ReportOf(h, r)
  {
    var provinces: seq<ProvinceInfo> := [];
    var i := 0;
    while i < |h.features|
      invariant 0 <= i <= |h.features|
      invariant |provinces| == i
      invariant forall i' :: 0 <= i' < i ==> Summarises(h.features[i'], provinces[i'])
    {
      var info := SummariseProvince(h.features[i]);
      provinces := provinces + [info];
      i := i + 1;
    }
    r := Report(h.metadata, provinces);
  }

  /** Sum of the provinces' city counts in a report. */
  function ReportedCities(infos: seq<ProvinceInfo>): nat
  {
    if infos == [] then 0 else ReportedCities(infos[..|infos| - 1]) + infos[|infos| - 1].cityCount
  }

  /** Sum of the provinces' county counts in a report. */
  function ReportedCounties(infos: seq<ProvinceInfo>): nat
  {
    if infos == [] then 0 else ReportedCounties(infos[..|infos| - 1]) + infos[|infos| - 1].countyCount
  }

  lemma {:induction false} ReportedSums(ps: seq<Province>, infos: seq<ProvinceInfo>)
    requires |infos| == |ps|
    requires forall i :: 0 <= i < |ps| ==> Summarises(ps[i], infos[i])
    ensures ReportedCities(infos) == CityTotal(ps)
    ensures ReportedCounties(infos) == CountyTotal(ps)
    decreases |ps|
  {
    if ps != [] {
      var n := |ps| - 1;
      assert Summarises(ps[n], infos[n]);
      ReportedSums(ps[..n], infos[..n]);
    }
  }

  /**
    For a tree whose metadata agrees with it (as the merge guarantees),
    the report's summary is confirmed by its own rows: as many provinces
    as the province total, and the city and county counts of the
    provinces add up to the city and county totals.
  */
  lemma ReportRowsAddUpToSummary(h: Hierarchy, r: Report)
    requires TotalsAgree(h) && ReportOf(h, r)
    ensures |r.provinces| == r.summary.totalProvinces
    ensures ReportedCities(r.provinces) == r.summary.totalCities
    ensures ReportedCounties(r.provinces) == r.summary.totalCounties
  {
    ReportedSums(h.features, r.provinces);
  }
}
