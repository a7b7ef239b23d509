/**
  The administrative-hierarchy merge: for every entry of the province
  table it builds one province feature, takes its boundary from the
  national document, and attaches cities (from the province's own
  document, or a single synthesized "市辖区" city for the
  direct-administration provinces) and counties (from every county file
  whose name starts with the city's code, or with the province's code
  for a direct-administration province). The metadata totals are
  accumulated along the way.
*/
module AdminMerge {
  import opened Features
  import opened RegionCodes

  // ---------------------------------------------------------------------
  // Counties
  // ---------------------------------------------------------------------

  /** The county built from one county-file feature: code `id || code`, the feature's name and boundary, the parent codes. */
  function CountyOf(f: SourceFeature, cityCode: Option<string>, provinceCode: string): County
  {
    County(Or(f.id, f.code), f.name, cityCode, Some(provinceCode), None, f.geometry)
  }

  /** The directory filter: `file.startsWith(prefix) && file.endsWith('.json')`. */
  predicate IsCountyFileFor(fileName: string, prefix: string)
  {
    StartsWith(fileName, prefix) && EndsWith(fileName, ".json")
  }

  /** `countyData && countyData.features`: the features of a readable file that has them, none otherwise. */
  function FileFeatures(content: FileState): seq<SourceFeature>
  {
    match FeatureList(ReadJsonFile(Some(content)))
    case Some(fs) => fs
    case None => []
  }

  /** The counties one file contributes, in feature order. */
  function FileCounties(content: FileState, cityCode: Option<string>, provinceCode: string): seq<County>
  {
    var fs := FileFeatures(content);
    seq(|fs|, i requires 0 <= i < |fs| => CountyOf(fs[i], cityCode, provinceCode))
  }

  /** The counties one listing entry contributes: those of its file when its name matches, none otherwise. */
  function EntryCounties(e: Entry, prefix: string, cityCode: Option<string>, provinceCode: string): seq<County>
  {
    if IsCountyFileFor(e.name, prefix) then FileCounties(e.content, cityCode, provinceCode) else []
  }

  /**
    The counties attached to one city: the directory listing is scanned
    in order and every `.json` file whose name starts with `prefix`
    contributes its features in order. Every county so attached carries
    the city's and the province's codes.
  */
  function ScanCounties(listing: seq<Entry>, prefix: string, cityCode: Option<string>, provinceCode: string): (cs: seq<County>)
    ensures forall c :: c in cs ==> c.cityCode == cityCode && c.provinceCode == Some(provinceCode)
  {
    if listing == [] then []
    else
      var n := |listing| - 1;
      ScanCounties(listing[..n], prefix, cityCode, provinceCode) + EntryCounties(listing[n], prefix, cityCode, provinceCode)
  }

  /** Every attached county comes from a feature of a matching file. */
  lemma {:induction false} ScanCountiesSound(listing: seq<Entry>, prefix: string, cityCode: Option<string>, provinceCode: string, c: County)
    requires c in ScanCounties(listing, prefix, cityCode, provinceCode)
    ensures exists k, f :: 0 <= k < |listing| && IsCountyFileFor(listing[k].name, prefix) &&
              f in FileFeatures(listing[k].content) && c == CountyOf(f, cityCode, provinceCode)
    decreases |listing|
  {
    var n := |listing| - 1;
    var earlier := ScanCounties(listing[..n], prefix, cityCode, provinceCode);
    var last := EntryCounties(listing[n], prefix, cityCode, provinceCode);
    assert ScanCounties(listing, prefix, cityCode, provinceCode) == earlier + last;
    if c in earlier {
      ScanCountiesSound(listing[..n], prefix, cityCode, provinceCode, c);
      var k, f :| 0 <= k < n && IsCountyFileFor(listing[..n][k].name, prefix) &&
                  f in FileFeatures(listing[..n][k].content) && c == CountyOf(f, cityCode, provinceCode);
      assert listing[..n][k] == listing[k];
    } else {
      assert c in last;
      var i :| 0 <= i < |last| && last[i] == c;
      assert FileFeatures(listing[n].content)[i] in FileFeatures(listing[n].content);
    }
  }

  /** Every feature of every matching file is attached: nothing a matching file holds is lost. */
  lemma {:induction false} ScanCountiesComplete(listing: seq<Entry>, prefix: string, cityCode: Option<string>, provinceCode: string, k: nat, f: SourceFeature)
    requires k < |listing| && IsCountyFileFor(listing[k].name, prefix)
    requires f in FileFeatures(listing[k].content)
    ensures CountyOf(f, cityCode, provinceCode) in ScanCounties(listing, prefix, cityCode, provinceCode)
    decreases |listing|
  {
    var n := |listing| - 1;
    var earlier := ScanCounties(listing[..n], prefix, cityCode, provinceCode);
    var last := EntryCounties(listing[n], prefix, cityCode, provinceCode);
    assert ScanCounties(listing, prefix, cityCode, provinceCode) == earlier + last;
    if k < n {
      assert listing[..n][k] == listing[k];
      ScanCountiesComplete(listing[..n], prefix, cityCode, provinceCode, k, f);
      assert CountyOf(f, cityCode, provinceCode) in earlier;
    } else {
      var fs := FileFeatures(listing[n].content);
      var i :| 0 <= i < |fs| && fs[i] == f;
      assert last[i] == CountyOf(f, cityCode, provinceCode);
    }
  }

  /** Scanning two listings one after the other gives the counties of the first and then those of the second. */
  lemma {:induction false} ScanCountiesAppend(a: seq<Entry>, b: seq<Entry>, prefix: string, cityCode: Option<string>, provinceCode: string)
    ensures ScanCounties(a + b, prefix, cityCode, provinceCode)
         == ScanCounties(a, prefix, cityCode, provinceCode) + ScanCounties(b, prefix, cityCode, provinceCode)
    decreases |b|
  {
    if b == [] {
      assert a + b == a;
    } else {
      var n := |b| - 1;
      var last := EntryCounties(b[n], prefix, cityCode, provinceCode);
      assert (a + b)[..|a + b| - 1] == a + b[..n];
      assert (a + b)[|a + b| - 1] == b[n];
      calc {
        ScanCounties(a + b, prefix, cityCode, provinceCode);
        ScanCounties(a + b[..n], prefix, cityCode, provinceCode) + last;
        { ScanCountiesAppend(a, b[..n], prefix, cityCode, provinceCode); }
        (ScanCounties(a, prefix, cityCode, provinceCode) + ScanCounties(b[..n], prefix, cityCode, provinceCode)) + last;
        ScanCounties(a, prefix, cityCode, provinceCode) + (ScanCounties(b[..n], prefix, cityCode, provinceCode) + last);
        ScanCounties(a, prefix, cityCode, provinceCode) + ScanCounties(b, prefix, cityCode, provinceCode);
      }
    }
  }

  /** Scanning one more entry of a listing adds that entry's counties. */
  lemma ScanCountiesStep(listing: seq<Entry>, k: nat, prefix: string, cityCode: Option<string>, provinceCode: string)
    requires k < |listing|
    ensures ScanCounties(listing[..k + 1], prefix, cityCode, provinceCode)
         == ScanCounties(listing[..k], prefix, cityCode, provinceCode) + EntryCounties(listing[k], prefix, cityCode, provinceCode)
  {
    assert listing[..k + 1][..k] == listing[..k] && listing[..k + 1][k] == listing[k];
  }

  /** The feature loop for one county file: one county per feature pushed onto `counties0`. */
  method PushCounties(counties0: seq<County>, fs: seq<SourceFeature>, cityCode: Option<string>, provinceCode: string)
    returns (counties: seq<County>)
    ensures |counties| == |counties0| + |fs|
    ensures counties[..|counties0|] == counties0
    ensures forall i :: 0 <= i < |fs| ==> counties[|counties0| + i] == CountyOf(fs[i], cityCode, provinceCode)
  {
    counties := counties0;
    var j := 0;
    while j < |fs|
      invariant 0 <= j <= |fs|
      invariant |counties| == |counties0| + j
      invariant counties[..|counties0|] == counties0
      invariant forall i :: 0 <= i < j ==> counties[|counties0| + i] == CountyOf(fs[i], cityCode, provinceCode)
    {
      counties := counties + [CountyOf(fs[j], cityCode, provinceCode)];
      j := j + 1;
    }
  }

  /**
    The county loop shared by `processDirectCity` and `processProvince`:
    for each matching file of the listing, read it and push one county
    per feature.
  */
  method CollectCounties(listing: seq<Entry>, prefix: string, cityCode: Option<string>, provinceCode: string)
    returns (counties: seq<County>)
    ensures counties == ScanCounties(listing, prefix, cityCode, provinceCode)
  {
    counties := [];
    var k := 0;
    while k < |listing|
      invariant 0 <= k <= |listing|
      invariant counties == ScanCounties(listing[..k], prefix, cityCode, provinceCode)
    {
      var entry := listing[k];
      ScanCountiesStep(listing, k, prefix, cityCode, provinceCode);
      ghost var added := EntryCounties(entry, prefix, cityCode, provinceCode);
      if IsCountyFileFor(entry.name, prefix) {
        var countyData := ReadJsonFile(Some(entry.content));
        if countyData.Some? && countyData.value.features.Some? {
          ghost var counties0 := counties;
          counties := PushCounties(counties, countyData.value.features.value, cityCode, provinceCode);
          assert counties == counties0 + added;
        } else {
          assert added == [];
        }
      } else {
        assert added == [];
      }
      k := k + 1;
    }
    assert listing[..k] == listing;
  }

  // ---------------------------------------------------------------------
  // Cities
  // ---------------------------------------------------------------------

  /** The name of the single city synthesized for a direct-administration province. */
  const DirectCityName: string := "市辖区"

  /** `processDirectCity`'s city: code `provinceCode + '01'`, every county file named after the province. */
  function DirectCity(provinceCode: string, countyDir: seq<Entry>): City
  {
    var cityCode := provinceCode + "01";
    City(Some(cityCode), Some(DirectCityName), Some(provinceCode), None, NoGeometry,
         ScanCounties(countyDir, provinceCode, Some(cityCode), provinceCode))
  }

  /** `processDirectCity` */
  method ProcessDirectCity(provinceCode: string, countyDir: seq<Entry>) returns (cities: seq<City>)
    ensures cities == [DirectCity(provinceCode, countyDir)]
  {
    var cityCode := provinceCode + "01";
    var counties := CollectCounties(countyDir, provinceCode, Some(cityCode), provinceCode);
    cities := [City(Some(cityCode), Some(DirectCityName), Some(provinceCode), None, NoGeometry, counties)];
  }

  /**
    A direct-administration province has exactly one city, "市辖区",
    whose code is the province code followed by "01" and whose province
    prefix is the province code again. Every county under it carries
    that city code and the province code and comes from a `.json` file
    whose name starts with the province code; every feature of such a
    file is attached.
  */
  lemma DirectCityShape(provinceCode: string, countyDir: seq<Entry>)
    requires |provinceCode| == 2
    ensures var city := DirectCity(provinceCode, countyDir);
      && city.code == Some(provinceCode + "01")
      && city.name == Some("市辖区")
      && GetProvinceCodeFromCity(city.code.value) == provinceCode
      && GetCodePrefix(city.code.value, "city") == city.code.value
      && (forall c :: c in city.counties ==>
            c.cityCode == city.code && c.provinceCode == Some(provinceCode) &&
            exists k, f :: 0 <= k < |countyDir| && IsCountyFileFor(countyDir[k].name, provinceCode) &&
              f in FileFeatures(countyDir[k].content) && c == CountyOf(f, city.code, provinceCode))
      && (forall k, f ::
            (0 <= k < |countyDir| && IsCountyFileFor(countyDir[k].name, provinceCode) && f in FileFeatures(countyDir[k].content))
            ==> CountyOf(f, city.code, provinceCode) in city.counties)
  {
    var code := provinceCode + "01";
    assert code[..2] == provinceCode;
    forall c | c in DirectCity(provinceCode, countyDir).counties
      ensures exists k, f :: 0 <= k < |countyDir| && IsCountyFileFor(countyDir[k].name, provinceCode) &&
                f in FileFeatures(countyDir[k].content) && c == CountyOf(f, Some(code), provinceCode)
    {
      ScanCountiesSound(countyDir, provinceCode, Some(code), provinceCode, c);
    }
    forall k, f | 0 <= k < |countyDir| && IsCountyFileFor(countyDir[k].name, provinceCode) && f in FileFeatures(countyDir[k].content)
      ensures CountyOf(f, Some(code), provinceCode) in DirectCity(provinceCode, countyDir).counties
    {
      ScanCountiesComplete(countyDir, provinceCode, Some(code), provinceCode, k, f);
    }
  }

  /** `processProvince`'s city for one feature of the province document. */
  function CityOf(f: SourceFeature, provinceCode: string, countyDir: seq<Entry>): City
  {
    var cityCode := Or(f.id, f.code);
    City(cityCode, f.name, Some(provinceCode), None, f.geometry,
         ScanCounties(countyDir, Show(cityCode), cityCode, provinceCode))
  }

  /** `processProvince`'s result: no cities for an unreadable document or one without features, else one per feature. */
  function ProvinceCities(provinceCode: string, provinceFile: Option<FileState>, countyDir: seq<Entry>): seq<City>
  {
    match FeatureList(ReadJsonFile(provinceFile))
    case None => []
    case Some(fs) => seq(|fs|, i requires 0 <= i < |fs| => CityOf(fs[i], provinceCode, countyDir))
  }

  /** `processProvince`: one city per feature of `<provinceCode>.json`, each with the counties its code selects. */
  method ProcessProvince(provinceCode: string, provinceDir: Folder, countyDir: seq<Entry>) returns (cities: seq<City>)
    ensures cities == ProvinceCities(provinceCode, Lookup(provinceDir, provinceCode + ".json"), countyDir)
  {
    cities := [];
    var provinceData := ReadJsonFile(Lookup(provinceDir, provinceCode + ".json"));
    if provinceData.None? || provinceData.value.features.None? {
      return;
    }
    var fs := provinceData.value.features.value;
    var k := 0;
    while k < |fs|
      invariant 0 <= k <= |fs|
      invariant |cities| == k
      invariant forall i :: 0 <= i < k ==> cities[i] == CityOf(fs[i], provinceCode, countyDir)
    {
      var cityCode := Or(fs[k].id, fs[k].code);
      var cityName := fs[k].name;
      var counties := CollectCounties(countyDir, Show(cityCode), cityCode, provinceCode);
      cities := cities + [City(cityCode, cityName, Some(provinceCode), None, fs[k].geometry, counties)];
      k := k + 1;
    }
  }

  /**
    An ordinary province's cities: none when its document is unreadable
    or has no features; otherwise one per feature, in order, each coded
    `id || code`, tagged with the province code, and holding exactly the
    counties of the `.json` files whose names start with that code (an
    absent code is written as "undefined" and selects files named so).
  */
  lemma ProvinceCitiesShape(provinceCode: string, provinceFile: Option<FileState>, countyDir: seq<Entry>)
    ensures var cities := ProvinceCities(provinceCode, provinceFile, countyDir);
      && (FeatureList(ReadJsonFile(provinceFile)).None? ==> cities == [])
      && (FeatureList(ReadJsonFile(provinceFile)).Some? ==>
            var fs := FeatureList(ReadJsonFile(provinceFile)).value;
            |cities| == |fs| &&
            forall i :: 0 <= i < |fs| ==>
              && cities[i].code == Or(fs[i].id, fs[i].code)
              && cities[i].name == fs[i].name
              && cities[i].geometry == fs[i].geometry
              && cities[i].provinceCode == Some(provinceCode)
              && (forall c :: c in cities[i].counties ==>
                    c.cityCode == cities[i].code && c.provinceCode == Some(provinceCode) &&
                    exists k, f :: 0 <= k < |countyDir| && IsCountyFileFor(countyDir[k].name, Show(cities[i].code)) &&
                      f in FileFeatures(countyDir[k].content) && c == CountyOf(f, cities[i].code, provinceCode))
              && (forall k, f ::
                    (0 <= k < |countyDir| && IsCountyFileFor(countyDir[k].name, Show(cities[i].code)) &&
                     f in FileFeatures(countyDir[k].content))
                    ==> CountyOf(f, cities[i].code, provinceCode) in cities[i].counties))
  {
    var cities := ProvinceCities(provinceCode, provinceFile, countyDir);
    if FeatureList(ReadJsonFile(provinceFile)).Some? {
      var fs := FeatureList(ReadJsonFile(provinceFile)).value;
      forall i, c | 0 <= i < |fs| && c in cities[i].counties
        ensures exists k, f :: 0 <= k < |countyDir| && IsCountyFileFor(countyDir[k].name, Show(cities[i].code)) &&
                  f in FileFeatures(countyDir[k].content) && c == CountyOf(f, cities[i].code, provinceCode)
      {
        ScanCountiesSound(countyDir, Show(cities[i].code), cities[i].code, provinceCode, c);
      }
      forall i, k, f | 0 <= i < |fs| && 0 <= k < |countyDir| && IsCountyFileFor(countyDir[k].name, Show(cities[i].code)) &&
                       f in FileFeatures(countyDir[k].content)
        ensures CountyOf(f, cities[i].code, provinceCode) in cities[i].counties
      {
        ScanCountiesComplete(countyDir, Show(cities[i].code), cities[i].code, provinceCode, k, f);
      }
    }
  }

  // ---------------------------------------------------------------------
  // Provinces and the whole tree
  // ---------------------------------------------------------------------

  /**
    `Array.prototype.find` on the national features by `properties.id`:
    the index of the first feature whose id is `code`, or none.
  */
  function FindById(features: seq<SourceFeature>, code: string): (r: Option<nat>)
    ensures r.None? <==> forall i :: 0 <= i < |features| ==> features[i].id != Some(code)
    ensures r.Some? ==> r.value < |features| && features[r.value].id == Some(code)
    ensures r.Some? ==> forall j :: 0 <= j < r.value ==> features[j].id != Some(code)
  {
    if features == [] then None
    else if features[0].id == Some(code) then Some(0)
    else match FindById(features[1..], code)
      case None => None
      case Some(i) => Some(i + 1)
  }

  /** The province's boundary: that of the first national feature with its code, or none. */
  function ProvinceGeometry(chinaFeatures: seq<SourceFeature>, code: string): Geometry
  {
    match FindById(chinaFeatures, code)
    case Some(i) => chinaFeatures[i].geometry
    case None => NoGeometry
  }

  /** The cities of the province with this code: the direct-city branch or the province branch. */
  function ProvinceCitiesFor(code: string, provinceDir: Folder, countyDir: seq<Entry>): seq<City>
  {
    if IsDirectCity(code) then [DirectCity(code, countyDir)]
    else ProvinceCities(code, Lookup(provinceDir, code + ".json"), countyDir)
  }

  /** The province feature built for one table entry. */
  function ProvinceFeature(entry: (string, string), chinaFeatures: seq<SourceFeature>, provinceDir: Folder, countyDir: seq<Entry>): Province
  {
    Province(Some(entry.0), Some(entry.1), None, ProvinceGeometry(chinaFeatures, entry.0),
             ProvinceCitiesFor(entry.0, provinceDir, countyDir))
  }

  /** The provinces of the merged tree: one per entry of `PROVINCE_MAP`, in table order. */
  function MergedProvinces(chinaFeatures: seq<SourceFeature>, provinceDir: Folder, countyDir: seq<Entry>): seq<Province>
  {
    seq(|ProvinceMap|, i requires 0 <= i < |ProvinceMap| => ProvinceFeature(ProvinceMap[i], chinaFeatures, provinceDir, countyDir))
  }

  /** `cities.forEach(city => countyCount += city.properties.counties.length)` */
  method CountCounties(cities: seq<City>) returns (countyCount: nat)
    ensures countyCount == CountyCount(cities)
  {
    countyCount := 0;
    var k := 0;
    while k < |cities|
      invariant 0 <= k <= |cities|
      invariant countyCount == CountyCount(cities[..k])
    {
      assert cities[..k + 1][..k] == cities[..k];
      countyCount := countyCount + |cities[k].counties|;
      k := k + 1;
    }
    assert cities[..k] == cities;
  }

  /** One pass of the province loop: the province feature for a table entry, and its county count. */
  method BuildProvinceFeature(entry: (string, string), chinaFeatures: seq<SourceFeature>, provinceDir: Folder, countyDir: seq<Entry>)
    returns (province: Province, countyCount: nat)
    ensures province == ProvinceFeature(entry, chinaFeatures, provinceDir, countyDir)
    ensures countyCount == CountyCount(province.cities)
  {
    var provinceCode := entry.0;
    var provinceName := entry.1;
    var geometry := ProvinceGeometry(chinaFeatures, provinceCode);
    var cities;
    if IsDirectCity(provinceCode) {
      cities := ProcessDirectCity(provinceCode, countyDir);
    } else {
      cities := ProcessProvince(provinceCode, provinceDir, countyDir);
    }
    countyCount := CountCounties(cities);
    province := Province(Some(provinceCode), Some(provinceName), None, geometry, cities);
  }

  /**
    The province loop of `mergeAdministrativeData` over any table: one
    province per entry, in order, with the three totals incremented as
    provinces, cities and counties are added.
  */
  method MergeProvinces(table: seq<(string, string)>, chinaFeatures: seq<SourceFeature>, provinceDir: Folder, countyDir: seq<Entry>)
    returns (h: Hierarchy)
    ensures |h.features| == |table|
    ensures forall i :: 0 <= i < |table| ==> h.features[i] == ProvinceFeature(table[i], chinaFeatures, provinceDir, countyDir)
    ensures TotalsAgree(h)
  {
    var features: seq<Province> := [];
    var totalProvinces, totalCities, totalCounties := 0, 0, 0;
    var k := 0;
    while k < |table|
      invariant 0 <= k <= |table|
      invariant |features| == k
      invariant forall i :: 0 <= i < k ==> features[i] == ProvinceFeature(table[i], chinaFeatures, provinceDir, countyDir)
      invariant totalProvinces == |features|
      invariant totalCities == CityTotal(features)
      invariant totalCounties == CountyTotal(features)
    {
      var province, countyCount := BuildProvinceFeature(table[k], chinaFeatures, provinceDir, countyDir);
      totalCities := totalCities + |province.cities|;
      totalCounties := totalCounties + countyCount;
      TotalsSnoc(features, province);
      features := features + [province];
      totalProvinces := totalProvinces + 1;
      k := k + 1;
    }
    h := Hierarchy(features, Metadata(totalProvinces, totalCities, totalCounties));
  }

  /** How a run of `mergeAdministrativeData` ends. */
  datatype MergeOutcome =
    | ChinaUnreadable            // china.json missing or unreadable: returns early, nothing written
    | Crashed                    // china.json parsed but has no `features`: `.find` throws
    | Written(hierarchy: Hierarchy)

  /** `mergeAdministrativeData` */
  method MergeAdministrativeData(china: Option<FileState>, provinceDir: Folder, countyDir: seq<Entry>) returns (r: MergeOutcome)
    ensures r.ChinaUnreadable? <==> ReadJsonFile(china).None?
    ensures r.Crashed? <==> ReadJsonFile(china).Some? && FeatureList(ReadJsonFile(china)).None?
    ensures r.Written? ==> FeatureList(ReadJsonFile(china)).Some?
    ensures r.Written? ==> r.hierarchy.features == MergedProvinces(FeatureList(ReadJsonFile(china)).value, provinceDir, countyDir)
    ensures r.Written? ==> TotalsAgree(r.hierarchy)
  {
    var chinaData := ReadJsonFile(china);
    if chinaData.None? {
      return ChinaUnreadable;
    }
    if chinaData.value.features.None? {
      return Crashed;
    }
    var h := MergeProvinces(ProvinceMap, chinaData.value.features.value, provinceDir, countyDir);
    r := Written(h);
  }

  // ---------------------------------------------------------------------
  // Properties of the merged tree
  // ---------------------------------------------------------------------

  /**
    The merged tree has one province per table entry, in table order,
    with the entry's code and full name; its boundary is that of the
    first national feature whose id is the code, and none when no
    feature has it.
  */
  lemma MergedProvincesFollowTable(chinaFeatures: seq<SourceFeature>, provinceDir: Folder, countyDir: seq<Entry>, i: nat)
    requires i < |ProvinceMap|
    ensures var ps := MergedProvinces(chinaFeatures, provinceDir, countyDir);
      && |ps| == |ProvinceMap| == 34
      && ps[i].code == Some(ProvinceMap[i].0)
      && ps[i].name == Some(ProvinceMap[i].1)
      && ((forall j :: 0 <= j < |chinaFeatures| ==> chinaFeatures[j].id != Some(ProvinceMap[i].0)) ==> ps[i].geometry == NoGeometry)
      && (forall j :: 0 <= j < |chinaFeatures| && chinaFeatures[j].id == Some(ProvinceMap[i].0) &&
            (forall j' :: 0 <= j' < j ==> chinaFeatures[j'].id != Some(ProvinceMap[i].0))
            ==> ps[i].geometry == chinaFeatures[j].geometry)
  {
    var code := ProvinceMap[i].0;
    var r := FindById(chinaFeatures, code);
    forall j | 0 <= j < |chinaFeatures| && chinaFeatures[j].id == Some(code) &&
               (forall j' :: 0 <= j' < j ==> chinaFeatures[j'].id != Some(code))
      ensures ProvinceGeometry(chinaFeatures, code) == chinaFeatures[j].geometry
    {
      assert r.Some?;
      assert !(r.value < j) && !(j < r.value);
    }
  }

  /**
    Parent codes agree throughout the merged tree: every city carries its
    province's code, and every county carries its city's code and its
    province's code.
  */
  lemma MergedTreeParentCodes(chinaFeatures: seq<SourceFeature>, provinceDir: Folder, countyDir: seq<Entry>, i: nat, j: nat)
    requires i < |ProvinceMap|
    requires j < |MergedProvinces(chinaFeatures, provinceDir, countyDir)[i].cities|
    ensures var p := MergedProvinces(chinaFeatures, provinceDir, countyDir)[i];
      && p.cities[j].provinceCode == p.code
      && forall c :: c in p.cities[j].counties ==> c.cityCode == p.cities[j].code && c.provinceCode == p.code
  {
    var code := ProvinceMap[i].0;
    if !IsDirectCity(code) {
      ProvinceCitiesShape(code, Lookup(provinceDir, code + ".json"), countyDir);
    }
  }

  /**
    Every direct-administration province of the merged tree has exactly
    one city, "市辖区", coded with the province code followed by "01",
    whose province prefix is the province code again.
  */
  lemma MergedDirectProvinces(chinaFeatures: seq<SourceFeature>, provinceDir: Folder, countyDir: seq<Entry>, i: nat)
    requires i < |ProvinceMap| && IsDirectCity(ProvinceMap[i].0)
    ensures var p := MergedProvinces(chinaFeatures, provinceDir, countyDir)[i];
      && |p.cities| == 1
      && p.cities[0].code == Some(ProvinceMap[i].0 + "01")
      && p.cities[0].name == Some("市辖区")
      && GetProvinceCodeFromCity(p.cities[0].code.value) == ProvinceMap[i].0
  {
    DirectCityShape(ProvinceMap[i].0, countyDir);
  }

  /**
    Beijing with two county files "110101.json" and "110105.json", each
    holding one district: the first province of the tree is 11, with the
    one city 1101 holding both districts in listing order. The other 33
    provinces are emitted as well, so the province total is 34, not 1.
  */
  lemma BeijingTwoDistricts(chinaFeatures: seq<SourceFeature>, provinceDir: Folder, countyDir: seq<Entry>, a: SourceFeature, b: SourceFeature)
    requires a.id == Some("110101") && b.id == Some("110105")
    requires countyDir == [Entry("110101.json", Parsed(Document(Some([a])))), Entry("110105.json", Parsed(Document(Some([b]))))]
    ensures var ps := MergedProvinces(chinaFeatures, provinceDir, countyDir);
      && |ps| == 34
      && ps[0].code == Some("11")
      && |ps[0].cities| == 1
      && ps[0].cities[0].code == Some("1101")
      && |ps[0].cities[0].counties| == 2
      && ps[0].cities[0].counties[0].code == Some("110101")
      && ps[0].cities[0].counties[1].code == Some("110105")
      && CountyCount(ps[0].cities) == 2
  {
    var e0, e1 := countyDir[0], countyDir[1];
    var code := ProvinceMap[0].0;
    assert code == "11";
    var cityCode := code + "01";
    assert cityCode == "1101";
    assert IsCountyFileFor(e0.name, code) && IsCountyFileFor(e1.name, code);
    var c0, c1 := CountyOf(a, Some(cityCode), code), CountyOf(b, Some(cityCode), code);
    assert FileCounties(e0.content, Some(cityCode), code) == [c0];
    assert FileCounties(e1.content, Some(cityCode), code) == [c1];
    assert countyDir[..1][..0] == [];
    assert ScanCounties(countyDir[..1], code, Some(cityCode), code) == [c0];
    assert countyDir[..|countyDir| - 1] == countyDir[..1];
    assert ScanCounties(countyDir, code, Some(cityCode), code) == [c0, c1];
  }
}
