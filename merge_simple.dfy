/**
  The simplified merge script: it walks the national document's features
  in order and, for each, reads `<id>.json` from the province folder and
  then `<cityId>.json` from the county folder. A missing file leaves the
  node without children; a file that fails to parse drops the node being
  built (the `forEach` callback returns before the push); a parsed file
  without `features`, like an unreadable national document, makes the
  whole run throw.
*/
module SimpleMerge {
  import opened Features

  /** What one `forEach` callback does: push a node, return early, or throw. */
  datatype Step<T> = Keep(value: T) | Skip | Crash

  /**
    The nodes pushed by a run of callbacks, in order; none if one of them
    throws (the run stops there and nothing is written).
  */
  function Kept<T>(steps: seq<Step<T>>): Option<seq<T>>
  {
    if steps == [] then Some([])
    else
      var n := |steps| - 1;
      match Kept(steps[..n])
      case None => None
      case Some(xs) =>
        match steps[n]
        case Crash => None
        case Skip => Some(xs)
        case Keep(x) => Some(xs + [x])
  }

  /** One more callback: a skip adds nothing, a kept node is appended. */
  lemma KeptStep<T>(steps: seq<Step<T>>, k: nat, xs: seq<T>)
    requires k < |steps| && Kept(steps[..k]) == Some(xs)
    ensures steps[k].Skip? ==> Kept(steps[..k + 1]) == Some(xs)
    ensures steps[k].Keep? ==> Kept(steps[..k + 1]) == Some(xs + [steps[k].value])
    ensures steps[k].Crash? ==> Kept(steps[..k + 1]).None?
  {
    assert steps[..k + 1][..k] == steps[..k];
  }

  /** The run throws exactly when one of its callbacks throws. */
  lemma {:induction false} KeptFailsIffCrash<T>(steps: seq<Step<T>>)
    ensures Kept(steps).None? <==> exists i :: 0 <= i < |steps| && steps[i].Crash?
    decreases |steps|
  {
    if steps != [] {
      var n := |steps| - 1;
      KeptFailsIffCrash(steps[..n]);
      assert forall i :: 0 <= i < n ==> steps[..n][i] == steps[i];
    }
  }

  /** A witness for `KeptSelectsInOrder`: the positions of the kept steps. */
  lemma {:induction false} KeptPositions<T>(steps: seq<Step<T>>) returns (idx: seq<nat>)
    requires Kept(steps).Some?
    ensures |idx| == |Kept(steps).value|
    ensures forall k :: 0 <= k < |idx| ==> idx[k] < |steps| && steps[idx[k]] == Keep(Kept(steps).value[k])
    ensures forall k, l :: 0 <= k < l < |idx| ==> idx[k] < idx[l]
    ensures forall i :: 0 <= i < |steps| && i !in idx ==> steps[i].Skip?
    decreases |steps|
  {
    if steps == [] {
      return [];
    }
    var n := |steps| - 1;
    var prefix := steps[..n];
    var xs := Kept(prefix).value;
    idx := KeptPositions(prefix);
    assert forall k :: 0 <= k < |idx| ==> idx[k] < n;
    if steps[n].Keep? {
      idx := idx + [n];
    } else {
      assert steps[n].Skip?;
      assert forall i :: 0 <= i < |steps| && i !in idx ==> i == n || prefix[i].Skip?;
    }
  }

  /**
    When the run does not throw, the pushed nodes are the kept steps in
    their original order: an increasing choice of positions whose steps
    are `Keep`, every position left out being a `Skip`.
  */
  lemma KeptSelectsInOrder<T>(steps: seq<Step<T>>)
    requires Kept(steps).Some?
    ensures exists idx: seq<nat> ::
        && |idx| == |Kept(steps).value|
        && (forall k :: 0 <= k < |idx| ==> idx[k] < |steps| && steps[idx[k]] == Keep(Kept(steps).value[k]))
        && (forall k, l :: 0 <= k < l < |idx| ==> idx[k] < idx[l])
        && (forall i :: 0 <= i < |steps| && i !in idx ==> steps[i].Skip?)
  {
    var idx := KeptPositions(steps);
  }

  /** Sums accumulate over `Kept` step by step: one more kept city adds its counties. */
  lemma CountyCountSnoc(cities: seq<City>, c: City)
    ensures CountyCount(cities + [c]) == CountyCount(cities) + |c.counties|
  {
    assert (cities + [c])[..|cities|] == cities;
  }

  // ---------------------------------------------------------------------
  // Building one node
  // ---------------------------------------------------------------------

  /** The county item for one county feature: its own `id`, name, `childNum` and boundary, and its parents' codes. */
  function CountyItem(f: SourceFeature, cityCode: Option<string>, provinceCode: Option<string>): County
  {
    County(f.id, f.name, cityCode, provinceCode, f.childNum, f.geometry)
  }

  /** The callback for one city feature, reading `geometryCouties/<id>.json`. */
  function CityStep(f: SourceFeature, provinceCode: Option<string>, countyDir: Folder): Step<City>
  {
    var cityCode := f.id;
    var city := City(cityCode, f.name, provinceCode, f.childNum, f.geometry, []);
    match Lookup(countyDir, Show(cityCode) + ".json")
    case None => Keep(city)
    case Some(Unparseable) => Skip
    case Some(Primitive(_)) => Crash
    case Some(Parsed(Document(None))) => Crash
    case Some(Parsed(Document(Some(fs)))) =>
      Keep(city.(counties := seq(|fs|, i requires 0 <= i < |fs| => CountyItem(fs[i], cityCode, provinceCode))))
  }

  function CitySteps(fs: seq<SourceFeature>, provinceCode: Option<string>, countyDir: Folder): seq<Step<City>>
  {
    seq(|fs|, i requires 0 <= i < |fs| => CityStep(fs[i], provinceCode, countyDir))
  }

  /** The callback for one national feature, reading `geometryProvince/<id>.json`. */
  function ProvinceStep(f: SourceFeature, provinceDir: Folder, countyDir: Folder): Step<Province>
  {
    var province := Province(f.id, f.name, f.childNum, f.geometry, []);
    match Lookup(provinceDir, Show(f.id) + ".json")
    case None => Keep(province)
    case Some(Unparseable) => Skip
    case Some(Primitive(_)) => Crash
    case Some(Parsed(Document(None))) => Crash
    case Some(Parsed(Document(Some(fs)))) =>
      match Kept(CitySteps(fs, f.id, countyDir))
      case None => Crash
      case Some(cities) => Keep(province.(cities := cities))
  }

  function ProvinceSteps(fs: seq<SourceFeature>, provinceDir: Folder, countyDir: Folder): seq<Step<Province>>
  {
    seq(|fs|, i requires 0 <= i < |fs| => ProvinceStep(fs[i], provinceDir, countyDir))
  }

  /** The provinces a whole run writes, or none when it throws (including on an unreadable national document). */
  function SimpleResult(china: Option<FileState>, provinceDir: Folder, countyDir: Folder): Option<seq<Province>>
  {
    match china
    case Some(Parsed(Document(Some(fs)))) => Kept(ProvinceSteps(fs, provinceDir, countyDir))
    case _ => None
  }

  // ---------------------------------------------------------------------
  // The script
  // ---------------------------------------------------------------------

  /** The city callback: builds the city, pushing one county per feature of its county file. */
  method BuildCity(f: SourceFeature, provinceCode: Option<string>, countyDir: Folder) returns (step: Step<City>)
    ensures step == CityStep(f, provinceCode, countyDir)
  {
    var cityCode := f.id;
    var cityName := f.name;
    var city := City(cityCode, cityName, provinceCode, f.childNum, f.geometry, []);
    var countyFile := Lookup(countyDir, Show(cityCode) + ".json");
    if countyFile.Some? {
      if countyFile.value.Unparseable? {
        return Skip;
      }
      if countyFile.value.Primitive? || countyFile.value.doc.features.None? {
        return Crash;
      }
      var fs := countyFile.value.doc.features.value;
      var counties: seq<County> := [];
      var k := 0;
      while k < |fs|
        invariant 0 <= k <= |fs|
        invariant |counties| == k
        invariant forall i :: 0 <= i < k ==> counties[i] == CountyItem(fs[i], cityCode, provinceCode)
      {
        counties := counties + [County(fs[k].id, fs[k].name, cityCode, provinceCode, fs[k].childNum, fs[k].geometry)];
        k := k + 1;
      }
      assert counties == seq(|fs|, i requires 0 <= i < |fs| => CountyItem(fs[i], cityCode, provinceCode));
      city := city.(counties := counties);
    }
    step := Keep(city);
  }

  /**
    The province callback: builds the province and its cities, adding 1
    to the city total per pushed city and its county count to the county
    total.
  */
  method BuildProvince(f: SourceFeature, provinceDir: Folder, countyDir: Folder, totalCities0: nat, totalCounties0: nat)
    returns (step: Step<Province>, totalCities: nat, totalCounties: nat)
    ensures step == ProvinceStep(f, provinceDir, countyDir)
    ensures step.Keep? ==> totalCities == totalCities0 + |step.value.cities|
    ensures step.Keep? ==> totalCounties == totalCounties0 + CountyCount(step.value.cities)
    ensures step.Skip? ==> totalCities == totalCities0 && totalCounties == totalCounties0
  {
    totalCities, totalCounties := totalCities0, totalCounties0;
    var provinceCode := f.id;
    var province := Province(provinceCode, f.name, f.childNum, f.geometry, []);
    var provinceFile := Lookup(provinceDir, Show(provinceCode) + ".json");
    if provinceFile.Some? {
      if provinceFile.value.Unparseable? {
        return Skip, totalCities, totalCounties;
      }
      if provinceFile.value.Primitive? || provinceFile.value.doc.features.None? {
        return Crash, totalCities, totalCounties;
      }
      var fs := provinceFile.value.doc.features.value;
      ghost var steps := CitySteps(fs, provinceCode, countyDir);
      var cities: seq<City> := [];
      var k := 0;
      while k < |fs|
        invariant 0 <= k <= |fs|
        invariant Kept(steps[..k]) == Some(cities)
        invariant totalCities == totalCities0 + |cities|
        invariant totalCounties == totalCounties0 + CountyCount(cities)
      {
        var cityStep := BuildCity(fs[k], provinceCode, countyDir);
        KeptStep(steps, k, cities);
        if cityStep.Crash? {
          KeptFailsIffCrash(steps);
          return Crash, totalCities, totalCounties;
        }
        if cityStep.Keep? {
          CountyCountSnoc(cities, cityStep.value);
          cities := cities + [cityStep.value];
          totalCities := totalCities + 1;
          totalCounties := totalCounties + |cityStep.value.counties|;
        }
        k := k + 1;
      }
      assert steps[..k] == steps;
      province := province.(cities := cities);
    }
    step := Keep(province);
  }

  /**
    `main` of the simplified script, its file accesses abstracted: the
    national document's features are walked in order, and the three
    totals are incremented as nodes are pushed. None means the script
    threw and wrote nothing.
  */
  method SimpleMain(china: Option<FileState>, provinceDir: Folder, countyDir: Folder) returns (r: Option<Hierarchy>)
    ensures r.None? <==> SimpleResult(china, provinceDir, countyDir).None?
    ensures r.Some? ==> r.value.features == SimpleResult(china, provinceDir, countyDir).value
    ensures r.Some? ==> TotalsAgree(r.value)
  {
    if china.None? || !china.value.Parsed? || china.value.doc.features.None? {
      return None;
    }
    var fs := china.value.doc.features.value;
    ghost var steps := ProvinceSteps(fs, provinceDir, countyDir);
    var features: seq<Province> := [];
    var totalProvinces, totalCities, totalCounties := 0, 0, 0;
    var k := 0;
    while k < |fs|
      invariant 0 <= k <= |fs|
      invariant Kept(steps[..k]) == Some(features)
      invariant totalProvinces == |features|
      invariant totalCities == CityTotal(features)
      invariant totalCounties == CountyTotal(features)
    {
      var step;
      step, totalCities, totalCounties := BuildProvince(fs[k], provinceDir, countyDir, totalCities, totalCounties);
      KeptStep(steps, k, features);
      if step.Crash? {
        KeptFailsIffCrash(steps);
        return None;
      }
      if step.Keep? {
        TotalsSnoc(features, step.value);
        features := features + [step.value];
        totalProvinces := totalProvinces + 1;
      }
      k := k + 1;
    }
    assert steps[..k] == steps;
    r := Some(Hierarchy(features, Metadata(totalProvinces, totalCities, totalCounties)));
  }

  // ---------------------------------------------------------------------
  // Properties of a run
  // ---------------------------------------------------------------------

  /** The province file read for a national feature. */
  function ProvinceFile(f: SourceFeature, provinceDir: Folder): Option<FileState>
  {
    Lookup(provinceDir, Show(f.id) + ".json")
  }

  /** The county file read for a city feature: looked up by exact name. */
  function CountyFile(f: SourceFeature, countyDir: Folder): Option<FileState>
  {
    Lookup(countyDir, Show(f.id) + ".json")
  }

  /**
    The file exists and parses, but to a value whose `features` is not an
    array: a primitive (`null.features` throws, `(5).features.length`
    does too) or an object without `features`.
  */
  predicate ParsedWithoutFeatures(file: Option<FileState>)
  {
    file.Some? && (file.value.Primitive? || file.value == Parsed(Document(None)))
  }

  /**
    A province file holding `null` does not drop the province: the parse
    succeeds, and reading `features` from the result throws.
  */
  lemma NullProvinceFileThrows(f: SourceFeature)
    requires f.id == Some("11")
    ensures SimpleResult(Some(Parsed(Document(Some([f])))), map["11.json" := Primitive(false)], map[]).None?
  {
    var provinceDir := map["11.json" := Primitive(false)];
    var steps := ProvinceSteps([f], provinceDir, map[]);
    assert Show(f.id) + ".json" == "11.json";
    assert ProvinceFile(f, provinceDir) == Some(Primitive(false));
    assert steps[0] == ProvinceStep(f, provinceDir, map[]);
    KeptFailsIffCrash(steps);
  }

  /** The province copies the national feature's id as code, its name, `childNum` and boundary. */
  predicate Copies(p: Province, f: SourceFeature)
  {
    p.code == f.id && p.name == f.name && p.childNum == f.childNum && p.geometry == f.geometry
  }

  /** The city copies its feature's id as code, its name, `childNum` and boundary, and records the province's code. */
  predicate CityCopies(c: City, f: SourceFeature, provinceCode: Option<string>)
  {
    c.code == f.id && c.name == f.name && c.childNum == f.childNum && c.geometry == f.geometry && c.provinceCode == provinceCode
  }

  /**
    The script throws exactly when the national document is missing,
    unreadable, a primitive or has no `features`, or some province
    file, or some county file of a readable province file, parses to a
    value without a `features` array.
  */
  lemma SimpleRunThrowsIff(china: Option<FileState>, provinceDir: Folder, countyDir: Folder)
    ensures SimpleResult(china, provinceDir, countyDir).None? <==>
      || !(china.Some? && china.value.Parsed? && china.value.doc.features.Some?)
      || exists i :: 0 <= i < |china.value.doc.features.value| &&
           var f := china.value.doc.features.value[i];
           || ParsedWithoutFeatures(ProvinceFile(f, provinceDir))
           || (ProvinceFile(f, provinceDir).Some? && ProvinceFile(f, provinceDir).value.Parsed? &&
               ProvinceFile(f, provinceDir).value.doc.features.Some? &&
               exists j :: 0 <= j < |ProvinceFile(f, provinceDir).value.doc.features.value| &&
                 ParsedWithoutFeatures(CountyFile(ProvinceFile(f, provinceDir).value.doc.features.value[j], countyDir)))
  {
    if china.Some? && china.value.Parsed? && china.value.doc.features.Some? {
      var fs := china.value.doc.features.value;
      var steps := ProvinceSteps(fs, provinceDir, countyDir);
      KeptFailsIffCrash(steps);
      forall i | 0 <= i < |fs|
        ensures steps[i].Crash? <==>
           || ParsedWithoutFeatures(ProvinceFile(fs[i], provinceDir))
           || (ProvinceFile(fs[i], provinceDir).Some? && ProvinceFile(fs[i], provinceDir).value.Parsed? &&
               ProvinceFile(fs[i], provinceDir).value.doc.features.Some? &&
               exists j :: 0 <= j < |ProvinceFile(fs[i], provinceDir).value.doc.features.value| &&
                 ParsedWithoutFeatures(CountyFile(ProvinceFile(fs[i], provinceDir).value.doc.features.value[j], countyDir)))
      {
        var file := ProvinceFile(fs[i], provinceDir);
        if file.Some? && file.value.Parsed? && file.value.doc.features.Some? {
          var cfs := file.value.doc.features.value;
          var csteps := CitySteps(cfs, fs[i].id, countyDir);
          KeptFailsIffCrash(csteps);
          assert forall j :: 0 <= j < |cfs| ==>
            (csteps[j].Crash? <==> ParsedWithoutFeatures(CountyFile(cfs[j], countyDir)));
        }
      }
    }
  }

  /**
    A run that completes writes the national features in their order,
    each province copying the feature's id as code, its name, `childNum`
    and boundary. A feature is left out exactly when its province file
    exists but cannot be parsed; a feature without a province file still
    yields its province, with no cities.
  */
  lemma ProvincesFollowChina(fs: seq<SourceFeature>, provinceDir: Folder, countyDir: Folder)
    requires Kept(ProvinceSteps(fs, provinceDir, countyDir)).Some?
    ensures var ps := Kept(ProvinceSteps(fs, provinceDir, countyDir)).value;
      exists idx: seq<nat> ::
        && |idx| == |ps|
        && (forall k, l :: 0 <= k < l < |idx| ==> idx[k] < idx[l])
        && (forall k :: 0 <= k < |idx| ==>
              && idx[k] < |fs|
              && Copies(ps[k], fs[idx[k]])
              && (ProvinceFile(fs[idx[k]], provinceDir).None? ==> ps[k].cities == []))
        && (forall i :: 0 <= i < |fs| ==> (i !in idx <==> ProvinceFile(fs[i], provinceDir) == Some(Unparseable)))
  {
    var steps := ProvinceSteps(fs, provinceDir, countyDir);
    var ps := Kept(steps).value;
    var idx := KeptPositions(steps);
    forall k | 0 <= k < |idx|
      ensures Copies(ps[k], fs[idx[k]]) && (ProvinceFile(fs[idx[k]], provinceDir).None? ==> ps[k].cities == [])
    {
      assert steps[idx[k]] == ProvinceStep(fs[idx[k]], provinceDir, countyDir);
    }
    forall i | 0 <= i < |fs|
      ensures i !in idx <==> ProvinceFile(fs[i], provinceDir) == Some(Unparseable)
    {
      assert steps[i] == ProvinceStep(fs[i], provinceDir, countyDir);
      if i in idx {
        var k :| 0 <= k < |idx| && idx[k] == i;
      }
    }
  }

  /**
    Within a kept province whose file has features, the cities are those
    features in order, each coded by its id and tagged with the
    province's code; a city is left out exactly when its county file
    exists but cannot be parsed, and a city without a county file is kept
    with no counties.
  */
  lemma CitiesFollowProvinceFile(cfs: seq<SourceFeature>, provinceCode: Option<string>, countyDir: Folder)
    requires Kept(CitySteps(cfs, provinceCode, countyDir)).Some?
    ensures var cities := Kept(CitySteps(cfs, provinceCode, countyDir)).value;
      exists idx: seq<nat> ::
        && |idx| == |cities|
        && (forall k, l :: 0 <= k < l < |idx| ==> idx[k] < idx[l])
        && (forall k :: 0 <= k < |idx| ==>
              && idx[k] < |cfs|
              && CityCopies(cities[k], cfs[idx[k]], provinceCode)
              && (CountyFile(cfs[idx[k]], countyDir).None? ==> cities[k].counties == []))
        && (forall i :: 0 <= i < |cfs| ==> (i !in idx <==> CountyFile(cfs[i], countyDir) == Some(Unparseable)))
  {
    var steps := CitySteps(cfs, provinceCode, countyDir);
    var cities := Kept(steps).value;
    var idx := KeptPositions(steps);
    forall k | 0 <= k < |idx|
      ensures CityCopies(cities[k], cfs[idx[k]], provinceCode) && (CountyFile(cfs[idx[k]], countyDir).None? ==> cities[k].counties == [])
    {
      assert steps[idx[k]] == CityStep(cfs[idx[k]], provinceCode, countyDir);
    }
    forall i | 0 <= i < |cfs|
      ensures i !in idx <==> CountyFile(cfs[i], countyDir) == Some(Unparseable)
    {
      assert steps[i] == CityStep(cfs[i], provinceCode, countyDir);
      if i in idx {
        var k :| 0 <= k < |idx| && idx[k] == i;
      }
    }
  }

  /**
    A kept city's counties are the features of its county file, in
    order, each coded by its own id and recording the city's and the
    province's codes.
  */
  lemma CityCountiesFromCountyFile(f: SourceFeature, provinceCode: Option<string>, countyDir: Folder)
    requires CityStep(f, provinceCode, countyDir).Keep?
    ensures var city := CityStep(f, provinceCode, countyDir).value;
      && (CountyFile(f, countyDir).None? ==> city.counties == [])
      && (CountyFile(f, countyDir).Some? ==>
            var cfs := CountyFile(f, countyDir).value.doc.features.value;
            |city.counties| == |cfs| &&
            forall k :: 0 <= k < |cfs| ==>
              city.counties[k].code == cfs[k].id && city.counties[k].name == cfs[k].name &&
              city.counties[k].cityCode == f.id && city.counties[k].provinceCode == provinceCode)
  {
  }

  /**
    Parent codes agree throughout a completed run: every city carries its
    province's code, and every county its city's code and its province's
    code.
  */
  lemma SimpleTreeParentCodes(china: Option<FileState>, provinceDir: Folder, countyDir: Folder, i: nat, j: nat)
    requires SimpleResult(china, provinceDir, countyDir).Some?
    requires i < |SimpleResult(china, provinceDir, countyDir).value|
    requires j < |SimpleResult(china, provinceDir, countyDir).value[i].cities|
    ensures var p := SimpleResult(china, provinceDir, countyDir).value[i];
      && p.cities[j].provinceCode == p.code
      && forall c :: c in p.cities[j].counties ==> c.cityCode == p.cities[j].code && c.provinceCode == p.code
  {
    var fs := china.value.doc.features.value;
    var steps := ProvinceSteps(fs, provinceDir, countyDir);
    var pidx := KeptPositions(steps);
    var f := fs[pidx[i]];
    assert steps[pidx[i]] == ProvinceStep(f, provinceDir, countyDir);
    var cfs := ProvinceFile(f, provinceDir).value.doc.features.value;
    var csteps := CitySteps(cfs, f.id, countyDir);
    var cidx := KeptPositions(csteps);
    var g := cfs[cidx[j]];
    assert csteps[cidx[j]] == CityStep(g, f.id, countyDir);
  }

  // ---------------------------------------------------------------------
  // The script as written
  // ---------------------------------------------------------------------

  /** The names bound at the module's top level before `__dirname` is computed. */
  const TopLevelNames: set<string> := {"fs", "path", "fileURLToPath", "__filename"}

  /** The name line 11 passes to `path.dirname`. */
  const DirnameArgument: string := "__filenaem"

  /**
    The script as written: the top level reads `DirnameArgument` before
    `main` is called, and reading a name that is not bound throws a
    `ReferenceError`, so nothing is written. The rest of this module
    models the script with the evidently intended `__filename`.
  */
  function SimpleScriptAsWritten(china: Option<FileState>, provinceDir: Folder, countyDir: Folder): Option<seq<Province>>
  {
    if DirnameArgument in TopLevelNames then SimpleResult(china, provinceDir, countyDir) else None
  }

  /**
    A national document with no features, and empty folders: the script
    as written throws, while the intended script writes an empty tree.
  */
  lemma MisspelledDirnameThrows()
    ensures SimpleScriptAsWritten(Some(Parsed(Document(Some([])))), map[], map[]).None?
    ensures SimpleResult(Some(Parsed(Document(Some([])))), map[], map[]) == Some([])
  {
    assert DirnameArgument[8] != "__filename"[8];
  }
}
