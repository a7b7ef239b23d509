/**
  Shared vocabulary of the two administrative-hierarchy merge scripts:
  the GeoJSON-like source documents they read, the small pieces of
  JavaScript value semantics they rely on (`||`, truthiness, template
  literals, `startsWith`, `substring`), and the province → city → county
  tree they emit, with the sums its metadata must agree with.
*/
module Features {

  datatype Option<+T> = None | Some(value: T)

  // ---------------------------------------------------------------------
  // JavaScript string semantics used by the scripts
  // ---------------------------------------------------------------------

  /** `s.startsWith(p)` */
  predicate StartsWith(s: string, p: string)
  {
    |p| <= |s| && s[..|p|] == p
  }

  /** `s.endsWith(suffix)` */
  predicate EndsWith(s: string, suffix: string)
  {
    |suffix| <= |s| && s[|s| - |suffix|..] == suffix
  }

  /** `s.substring(0, n)`: the first `n` characters, or all of `s` when it is shorter. */
  function Take(s: string, n: nat): (r: string)
    ensures StartsWith(s, r)
    ensures |r| == if |s| < n then |s| else n
  {
    if |s| <= n then s else s[..n]
  }

  /**
    A property that may be absent from a JSON object: `None` is
    `undefined`. A property is truthy when it is present and not the
    empty string.
  */
  predicate Truthy(s: Option<string>)
  {
    s.Some? && s.value != ""
  }

  /** `a || b` on two string-valued properties. */
  function Or(a: Option<string>, b: Option<string>): (r: Option<string>)
    ensures Truthy(a) ==> r == a
    ensures !Truthy(a) ==> r == b
  {
    if Truthy(a) then a else b
  }

  /** The text a template literal `${x}` produces for a string or `undefined`. */
  function Show(s: Option<string>): string
  {
    match s
    case Some(v) => v
    case None => "undefined"
  }

  // ---------------------------------------------------------------------
  // Source documents
  // ---------------------------------------------------------------------

  /** A boundary is carried through unchanged and never inspected. */
  datatype Geometry = NoGeometry | Shape(id: nat)

  /** One feature of a source document, reduced to the properties the scripts read. */
  datatype SourceFeature = SourceFeature(
    id: Option<string>,
    code: Option<string>,
    name: Option<string>,
    childNum: Option<int>,
    geometry: Geometry)

  /**
    A parsed object, reduced to its `features` array, which may be
    missing (as it is for an array or an object without one).
  */
  datatype Document = Document(features: Option<seq<SourceFeature>>)

  /**
    What reading one existing file gives: a failure to read or parse, a
    JSON primitive (`null`, a boolean, a number or a string; `truthy`
    tells whether JavaScript counts it as true), or a parsed object.
  */
  datatype FileState = Unparseable | Primitive(truthy: bool) | Parsed(doc: Document)

  /** A directory addressed by file name; a name that is not a key does not exist. */
  type Folder = map<string, FileState>

  /** One item of a directory listing, in listing order. */
  datatype Entry = Entry(name: string, content: FileState)

  /**
    `readJsonFile` as its callers see it, through `!data` and
    `data.features`: `None` when the file is missing or unreadable, or
    parses to a falsy primitive; otherwise the parsed value, where a
    truthy primitive has no `features`.
  */
  function ReadJsonFile(file: Option<FileState>): (r: Option<Document>)
    ensures r.Some? <==> file.Some? && (file.value.Parsed? || file.value == Primitive(true))
    ensures r.Some? && file.value.Parsed? ==> r.value == file.value.doc
    ensures r.Some? && file.value.Primitive? ==> r.value.features.None?
  {
    match file
    case Some(Parsed(doc)) => Some(doc)
    case Some(Primitive(true)) => Some(Document(None))
    case _ => None
  }

  /** The file called `name` in `folder`, if it exists. */
  function Lookup(folder: Folder, name: string): (r: Option<FileState>)
    ensures r.Some? <==> name in folder
    ensures r.Some? ==> r.value == folder[name]
  {
    if name in folder then Some(folder[name]) else None
  }

  /** `data && data.features`: the feature list of a readable document that has one. */
  function FeatureList(doc: Option<Document>): (r: Option<seq<SourceFeature>>)
    ensures r.Some? <==> doc.Some? && doc.value.features.Some?
    ensures r.Some? ==> r.value == doc.value.features.value
  {
    match doc
    case Some(Document(Some(fs))) => Some(fs)
    case _ => None
  }

  // ---------------------------------------------------------------------
  // The merged tree
  // ---------------------------------------------------------------------

  datatype County = County(
    code: Option<string>,
    name: Option<string>,
    cityCode: Option<string>,
    provinceCode: Option<string>,
    childNum: Option<int>,
    geometry: Geometry)

  datatype City = City(
    code: Option<string>,
    name: Option<string>,
    provinceCode: Option<string>,
    childNum: Option<int>,
    geometry: Geometry,
    counties: seq<County>)

  datatype Province = Province(
    code: Option<string>,
    name: Option<string>,
    childNum: Option<int>,
    geometry: Geometry,
    cities: seq<City>)

  datatype Metadata = Metadata(totalProvinces: nat, totalCities: nat, totalCounties: nat)

  /** The FeatureCollection both scripts write: the province features and the totals. */
  datatype Hierarchy = Hierarchy(features: seq<Province>, metadata: Metadata)

  /** Number of counties over a list of cities. */
  function CountyCount(cities: seq<City>): nat
  {
    if cities == [] then 0
    else CountyCount(cities[..|cities| - 1]) + |cities[|cities| - 1].counties|
  }

  /** Number of cities over a list of provinces. */
  function CityTotal(provinces: seq<Province>): nat
  {
    if provinces == [] then 0
    else CityTotal(provinces[..|provinces| - 1]) + |provinces[|provinces| - 1].cities|
  }

  /** Number of counties over a list of provinces. */
  function CountyTotal(provinces: seq<Province>): nat
  {
    if provinces == [] then 0
    else CountyTotal(provinces[..|provinces| - 1]) + CountyCount(provinces[|provinces| - 1].cities)
  }

  /** The metadata totals agree with the tree they describe. */
  predicate TotalsAgree(h: Hierarchy)
  {
    h.metadata == Metadata(|h.features|, CityTotal(h.features), CountyTotal(h.features))
  }

  lemma {:induction false} CountyCountAppend(a: seq<City>, b: seq<City>)
    ensures CountyCount(a + b) == CountyCount(a) + CountyCount(b)
    decreases |b|
  {
    if b == [] {
      assert a + b == a;
    } else {
      var n := |b| - 1;
      assert (a + b)[..|a + b| - 1] == a + b[..n];
      CountyCountAppend(a, b[..n]);
    }
  }

  /** Appending a province adds its cities to the city total and its counties to the county total. */
  lemma TotalsSnoc(provinces: seq<Province>, p: Province)
    ensures CityTotal(provinces + [p]) == CityTotal(provinces) + |p.cities|
    ensures CountyTotal(provinces + [p]) == CountyTotal(provinces) + CountyCount(p.cities)
  {
    assert (provinces + [p])[..|provinces|] == provinces;
  }
}
