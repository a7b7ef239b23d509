# China administrative-region data: merge scripts, province table and map helpers

This project models, in Dafny, the data core of a 3D map of China:

- **The administrative merge** (`mergeAdministrativeRegions.js`). It builds one province feature for each entry of the 34-entry province table. Each province takes its boundary from the national document. Its cities come from the province's own document. A direct-administration province instead gets one synthesized "市辖区" city. Counties are attached by county *file name* prefix. The script also accumulates the totals, validates the tree (errors and warnings) and derives a statistics report.
- **The simplified merge** (`merge_simple.js`). It walks the national document's features and reads `<id>.json` from the province folder, then `<cityId>.json` from the county folder. Its error policy differs:
  - a missing file gives no children;
  - an unparseable file drops the node;
  - a document without `features`, or a file holding a primitive such as `null`, makes the run throw.
- **The front end's province table** (`provinceCodeMap.js`): name → code lookup with prefix matching, the inverse map, and the drill-down and municipality tests.
- **The front end's data loader** (`mapDataLoader.js`). It is a class with a bounded cache of 20 entries that evicts its earliest-inserted key. It is modelled as a Dafny `class` whose fields are the cache's insertion order and entries.
- **The map helpers** (`mapUtils.js`): glow uniforms, visibility, geometry disposal, colour bands and the "万" display text.

Files and folders are values. A folder is a `map` from file name to `FileState`, and a directory listing is a `seq<Entry>` in listing order. A missing JSON property is `None`, which is JavaScript `undefined`. Where a script writes `undefined` into a template literal or `startsWith`, the model uses the text "undefined", as JavaScript does. The bundler's dynamic `import` is a parameter `modules` mapping each module path to its default export.

Modules:

| file | module |
|---|---|
| `features.dfy` | `Features`: source documents, the output tree, JavaScript `||`, truthiness, `substring`, `startsWith` |
| `region_codes.dfy` | `RegionCodes`: `PROVINCE_MAP`, `DIRECT_CITIES`, the code-prefix helpers |
| `admin_merge.dfy` | `AdminMerge`: `processDirectCity`, `processProvince`, `mergeAdministrativeData` |
| `admin_validate.dfy` | `AdminValidate`: `validateData`, `generateReport` |
| `merge_checks.dfy` | `MergeChecks`: what validation can report about a merged tree |
| `merge_simple.dfy` | `SimpleMerge`: the simplified script |
| `province_code_map.dfy` | `ProvinceCodeMap` |
| `map_data_loader.dfy` | `DataLoader` |
| `map_utils.dfy` | `MapUtils` |

Some behaviours of the scripts worth noting; the model follows the code:

- All 34 table provinces are always emitted, even without any data. A run over Beijing alone therefore reports 34 provinces (`AdminMerge.BeijingTwoDistricts`).
- Counties are attached by file-name prefix, not by county code.
- A code shorter than a prefix is not an error. `substring` returns the whole code.
- Duplicate counties are not removed.
- In the simplified script, an unparseable province or county file drops that node. Its children are not merely emptied.

## Model

| member | source | states |
|---|---|---|
| Features.ReadJsonFile | src/assets/json/mergeAdministrativeRegions.js:59-67 | a value comes back exactly when the file exists and parses to an object or a truthy primitive; it is that object, and a primitive has no `features`; otherwise `null` or a falsy value |
| Features.FeatureList | src/assets/json/mergeAdministrativeRegions.js:258-261 | `data && data.features` is present exactly when the document is readable and has `features`, and is that list |
| Features.Take | src/assets/json/mergeAdministrativeRegions.js:85-87 | `substring(0, n)` is a prefix of the string, of length `n`, or the whole string when it is shorter |
| Features.Or | src/assets/json/mergeAdministrativeRegions.js:231 | `id \|\| code` is the id when it is truthy, else the code |
| Features.CountyCountAppend | src/assets/json/mergeAdministrativeRegions.js:167-171 | the county count over two city lists is the sum of their counts |
| Features.TotalsSnoc | src/assets/json/mergeAdministrativeRegions.js:164-187 | pushing a province adds its cities to the city total and its counties to the county total |
| RegionCodes.GetCodePrefix | src/assets/json/mergeAdministrativeRegions.js:72-80 | the prefix is a prefix of the code, of length 2, 4 or 6 for province, city or county (the whole code when shorter); any other level gives the code |
| RegionCodes.GetCityCodeFromCounty | src/assets/json/mergeAdministrativeRegions.js:85-87 | agrees with the city-level prefix |
| RegionCodes.GetProvinceCodeFromCity | src/assets/json/mergeAdministrativeRegions.js:92-94 | agrees with the province-level prefix |
| RegionCodes.ProvinceOfCityOfCounty | src/assets/json/mergeAdministrativeRegions.js:85-94 | the province of a county's city is the county's province prefix |
| RegionCodes.DirectCitiesAreMunicipalitiesAndSars | src/assets/json/mergeAdministrativeRegions.js:99-101 | a code is a direct-administration province iff it is one of the front end's four municipalities or 81/82 |
| RegionCodes.ProvinceMapMatchesCodeTable | src/assets/json/mergeAdministrativeRegions.js:16-51 | the merge table and the front end's table list the same 34 codes in the same order |
| RegionCodes.DirectCitiesAreProvinces | src/assets/json/mergeAdministrativeRegions.js:54 | every `DIRECT_CITIES` code is a province of `PROVINCE_MAP` |
| AdminMerge.ScanCounties | src/assets/json/mergeAdministrativeRegions.js:221-242 | every attached county carries the given city and province codes |
| AdminMerge.ScanCountiesSound | src/assets/json/mergeAdministrativeRegions.js:221-242 | every attached county comes from a feature of a `.json` file whose name starts with the prefix |
| AdminMerge.ScanCountiesComplete | src/assets/json/mergeAdministrativeRegions.js:221-242 | every feature of every matching file is attached |
| AdminMerge.ScanCountiesAppend | src/assets/json/mergeAdministrativeRegions.js:224-242 | scanning two listings in a row attaches the first's counties, then the second's |
| AdminMerge.ScanCountiesStep | src/assets/json/mergeAdministrativeRegions.js:224-226 | one more listing entry adds exactly the counties of that entry's file when its name matches |
| AdminMerge.PushCounties | src/assets/json/mergeAdministrativeRegions.js:287-300 | the feature loop pushes one county per feature, in order, after the counties already there |
| AdminMerge.CollectCounties | src/assets/json/mergeAdministrativeRegions.js:281-302 | the nested file and feature loops attach exactly the scanned counties, in order |
| AdminMerge.ProcessDirectCity | src/assets/json/mergeAdministrativeRegions.js:204-246 | returns the one synthesized city |
| AdminMerge.DirectCityShape | src/assets/json/mergeAdministrativeRegions.js:204-246 | the city is `code + '01'`, named 市辖区, its province prefix is the province code; its counties are exactly the features of the files named after the province, tagged with both codes |
| AdminMerge.ProcessProvince | src/assets/json/mergeAdministrativeRegions.js:251-308 | the loop builds one city per feature of `<code>.json` |
| AdminMerge.ProvinceCitiesShape | src/assets/json/mergeAdministrativeRegions.js:251-308 | no cities when the province file is unreadable or has no features; otherwise one city per feature in order, coded `id \|\| code`, with exactly the counties whose file names start with that code |
| AdminMerge.FindById | src/assets/json/mergeAdministrativeRegions.js:152-154 | `find` gives the first feature whose id is the code, or none exactly when no id matches |
| AdminMerge.CountCounties | src/assets/json/mergeAdministrativeRegions.js:179-182 | the `forEach` sum is the number of counties over the cities |
| AdminMerge.BuildProvinceFeature | src/assets/json/mergeAdministrativeRegions.js:140-184 | one pass of the province loop builds the entry's province feature and counts its counties |
| AdminMerge.MergeProvinces | src/assets/json/mergeAdministrativeRegions.js:137-188 | one province per table entry in order, and the metadata totals equal the number of provinces, cities and counties of the tree |
| AdminMerge.MergeAdministrativeData | src/assets/json/mergeAdministrativeRegions.js:106-199 | no output when the national file is unreadable or parses to a falsy primitive; a throw when it has no `features` (a truthy primitive included); otherwise the merged provinces with agreeing totals |
| AdminMerge.MergedProvincesFollowTable | src/assets/json/mergeAdministrativeRegions.js:137-157 | 34 provinces with the table's code and full name; boundary from the first national feature with that id, none when there is none |
| AdminMerge.MergedTreeParentCodes | src/assets/json/mergeAdministrativeRegions.js:204-308 | every city carries its province's code, every county its city's and its province's |
| AdminMerge.MergedDirectProvinces | src/assets/json/mergeAdministrativeRegions.js:159-164 | a direct-administration province has the single city `code + '01'`, 市辖区 |
| AdminMerge.BeijingTwoDistricts | src/assets/json/mergeAdministrativeRegions.js:137-246 | with files 110101.json and 110105.json, province 11 has one city 1101 holding both districts in order; the tree still has 34 provinces |
| MergeChecks.MergedTreeHasNoProvinceErrors | src/assets/json/mergeAdministrativeRegions.js:323-326 | validating a merged tree never reports an incomplete province |
| AdminValidate.ValidateData | src/assets/json/mergeAdministrativeRegions.js:313-374 | the walk produces exactly the traversal-order error and warning lists |
| AdminValidate.CheckCities | src/assets/json/mergeAdministrativeRegions.js:329-359 | the city loop appends exactly the cities' errors and warnings |
| AdminValidate.CheckCounties | src/assets/json/mergeAdministrativeRegions.js:338-353 | the county loop appends exactly the counties' errors and mismatch warnings |
| AdminValidate.CountyErrorsMembers | src/assets/json/mergeAdministrativeRegions.js:342-344 | a county error is raised iff some county lacks a code or a name |
| AdminValidate.CountyWarningsMembers | src/assets/json/mergeAdministrativeRegions.js:347-352 | a mismatch warning is raised iff some county's code does not start with the city code |
| AdminValidate.CityErrorsMembers | src/assets/json/mergeAdministrativeRegions.js:329-359 | a message is among the cities' errors iff it is one city's |
| AdminValidate.CityWarningsMembers | src/assets/json/mergeAdministrativeRegions.js:329-359 | a message is among the cities' warnings iff it is one city's |
| AdminValidate.ErrorsMembers | src/assets/json/mergeAdministrativeRegions.js:319-365 | a message is an error iff it is one province's |
| AdminValidate.WarningsMembers | src/assets/json/mergeAdministrativeRegions.js:319-365 | a message is a warning iff it is one province's |
| AdminValidate.ErrorsAreExactlyIncompleteNodes | src/assets/json/mergeAdministrativeRegions.js:313-365 | the errors are exactly the messages for provinces, cities and counties lacking a code or a name |
| AdminValidate.WarningsAreExactlyDefects | src/assets/json/mergeAdministrativeRegions.js:313-365 | the warnings are exactly the code mismatches, the cities without counties and the provinces without cities |
| AdminValidate.NoErrorsIffComplete | src/assets/json/mergeAdministrativeRegions.js:313-365 | no errors iff every node has a code and a name |
| AdminValidate.NoWarningsIffConsistent | src/assets/json/mergeAdministrativeRegions.js:313-365 | no warnings iff every province has cities, every city has counties, and every county code extends its city's |
| AdminValidate.SummariseProvince | src/assets/json/mergeAdministrativeRegions.js:389-408 | a province's row: its code, name, city count, county count and one row per city |
| AdminValidate.GenerateReport | src/assets/json/mergeAdministrativeRegions.js:379-412 | the summary is the metadata and there is one row per province, in order |
| AdminValidate.ReportedSums | src/assets/json/mergeAdministrativeRegions.js:389-409 | the rows' city and county counts add up to the tree's city and county totals |
| AdminValidate.ReportRowsAddUpToSummary | src/assets/json/mergeAdministrativeRegions.js:379-412 | for a tree whose totals agree, the report's rows add up to its summary |
| SimpleMerge.KeptFailsIffCrash | src/assets/json/merge_simple.js:37-142 | a run of callbacks fails iff one of them throws |
| SimpleMerge.KeptPositions | src/assets/json/merge_simple.js:37-142 | each pushed node is the value of a keeping callback |
| SimpleMerge.KeptSelectsInOrder | src/assets/json/merge_simple.js:37-142 | the pushed nodes are those of the keeping callbacks, in order; every other callback returned early |
| SimpleMerge.CountyCountSnoc | src/assets/json/merge_simple.js:122-124 | pushing a city adds its counties to the county total |
| SimpleMerge.BuildCity | src/assets/json/merge_simple.js:68-130 | the city callback keeps, drops or throws as its county file dictates |
| SimpleMerge.BuildProvince | src/assets/json/merge_simple.js:37-142 | the province callback's result, with the city and county counters advanced by exactly what it pushed |
| SimpleMerge.SimpleMain | src/assets/json/merge_simple.js:14-154 | no output iff the run throws; otherwise the kept provinces with agreeing totals |
| SimpleMerge.SimpleRunThrowsIff | src/assets/json/merge_simple.js:20-94 | the run throws iff the national document is unusable, or a province file, or a county file of a readable province file, parses to a primitive or to an object without `features` |
| SimpleMerge.NullProvinceFileThrows | src/assets/json/merge_simple.js:57-65 | a province file holding `null` makes the run throw rather than drop the province |
| SimpleMerge.ProvincesFollowChina | src/assets/json/merge_simple.js:37-65 | the provinces copy the national features in order; a feature is dropped iff its province file is unparseable; no province file means no cities |
| SimpleMerge.CitiesFollowProvinceFile | src/assets/json/merge_simple.js:68-94 | the cities copy the province file's features in order; a city is dropped iff its county file is unparseable |
| SimpleMerge.CityCountiesFromCountyFile | src/assets/json/merge_simple.js:86-115 | a kept city's counties are its county file's features, in order, with its own and its province's codes |
| SimpleMerge.SimpleTreeParentCodes | src/assets/json/merge_simple.js:68-115 | every city carries its province's code, every county its city's and its province's |
| SimpleMerge.MisspelledDirnameThrows | src/assets/json/merge_simple.js:10-11 | the script as written writes nothing even where the intended script writes a tree |
| ProvinceCodeMap.Inverse | src/config/provinceCodeMap.js:47-49 | the inverse's keys are exactly the table's codes, each mapped to a name listed with it |
| ProvinceCodeMap.KeyLookup | src/config/provinceCodeMap.js:58-60 | the exact lookup fails iff the name is no key |
| ProvinceCodeMap.FirstPrefixMatch | src/config/provinceCodeMap.js:65-71 | the code of the first key the name starts with, none iff no key is a prefix |
| ProvinceCodeMap.GetProvinceCode | src/config/provinceCodeMap.js:56-72 | exact match first, then the prefix scan |
| ProvinceCodeMap.ScanForPrefix | src/config/provinceCodeMap.js:65-71 | the loop returns the first prefix match |
| ProvinceCodeMap.ProvinceCodesWellFormed | src/config/provinceCodeMap.js:7-42 | the table's names are distinct, non-empty and prefix-free, and its codes are distinct |
| ProvinceCodeMap.PrefixMatchIsUnique | src/config/provinceCodeMap.js:62-69 | in a prefix-free table at most one key is a prefix of a name, so iteration order does not matter |
| ProvinceCodeMap.InverseAt | src/config/provinceCodeMap.js:47-49 | with distinct codes the inverse maps each code to its own name |
| ProvinceCodeMap.KeyLookupAt | src/config/provinceCodeMap.js:58-60 | with distinct names the exact lookup of a key gives its code |
| ProvinceCodeMap.ExactMatchAgreesWithPrefixSearch | src/config/provinceCodeMap.js:56-72 | in a well-formed table the exact-match branch never changes the answer |
| ProvinceCodeMap.ProvinceCodeIsTheMatchingKey | src/config/provinceCodeMap.js:56-72 | `getProvinceCode(name)` is `null` iff no short name is a prefix of it, and otherwise that short name's code |
| ProvinceCodeMap.FullNameResolves | src/config/provinceCodeMap.js:62-64 | 北京市 resolves to 11 |
| ProvinceCodeMap.TableRoundTrip | src/config/provinceCodeMap.js:7-49 | in a well-formed table the two lookups invert each other |
| ProvinceCodeMap.ProvinceNameOfCode | src/config/provinceCodeMap.js:79-81 | `getProvinceName` is the short name of a table code and `null` iff the code is not in the table |
| ProvinceCodeMap.CodeRoundTrip | src/config/provinceCodeMap.js:56-81 | for a table code, name then code gives the code back |
| ProvinceCodeMap.NameRoundTrip | src/config/provinceCodeMap.js:56-81 | for a short name, code then name gives the name back |
| ProvinceCodeMap.DrillDownExcludesTaiwanAndMacau | src/config/provinceCodeMap.js:89-93 | among table provinces, drill-down is refused iff the province is 台湾 or 澳门 |
| ProvinceCodeMap.MunicipalitiesByName | src/config/provinceCodeMap.js:101-104 | among table provinces, the municipalities are exactly 北京, 天津, 上海 and 重庆 |
| DataLoader.KeysNeverCollide | src/utils/mapDataLoader.js:19-71 | province and city cache keys never collide, and each names one code |
| DataLoader.CityPathsAreDistinct | src/utils/mapDataLoader.js:55-62 | the city module is the area code plus "00" in the county folder: distinct codes give distinct modules, never a province module |
| DataLoader.AddKeepsInvariant | src/utils/mapDataLoader.js:84-90 | adding keeps the keys distinct and matching the entries, never exceeds the capacity, and stores the data under the key |
| DataLoader.AddEvictsOnlyTheOldest | src/utils/mapDataLoader.js:84-90 | a full cache loses exactly its earliest-inserted key and keeps every other entry; a cache with room loses nothing |
| DataLoader.MapDataLoader.constructor | src/utils/mapDataLoader.js:6-11 | an empty cache of capacity 20 |
| DataLoader.MapDataLoader.AddToCache | src/utils/mapDataLoader.js:84-90 | the new order and entries are those of an add, and the cache stays well formed |
| DataLoader.MapDataLoader.Load | src/utils/mapDataLoader.js:19-37 | a hit returns the cached value and requests nothing; a miss requests the module, returning and caching it if it exists and returning `null` with the cache unchanged if not |
| DataLoader.MapDataLoader.LoadProvinceData | src/utils/mapDataLoader.js:19-37 | a load under `province_<code>` from the province folder |
| DataLoader.MapDataLoader.LoadCityData | src/utils/mapDataLoader.js:49-71 | a load under `city_<code>` from `<code>00.json` in the county folder |
| DataLoader.MapDataLoader.LoadCountyData | src/utils/mapDataLoader.js:76-78 | the same load as `loadCityData` with the same code |
| DataLoader.MapDataLoader.ClearCache | src/utils/mapDataLoader.js:92-94 | the cache is empty afterwards |
| MapUtils.UpdateGlowEffect | src/utils/mapUtils.js:9-16 | every item's uniform of that name, where its material has one, is 1 when enabled and 0 otherwise; nothing else changes |
| MapUtils.ToggleVisibility | src/utils/mapUtils.js:23-27 | every item's visibility is the given one; materials and geometries are untouched |
| MapUtils.DisposeGeometries | src/utils/mapUtils.js:61-67 | every item's geometry, where it has one, is disposed; nothing else changes |
| MapUtils.FirstBand | src/utils/mapUtils.js:36-41 | the first band holding the value, none iff no band holds it |
| MapUtils.GetColorByValue | src/utils/mapUtils.js:35-43 | the colour of the first band holding the value, else of the last band |
| MapUtils.FirstBandIs | src/utils/mapUtils.js:36-41 | a holding band preceded only by non-holding bands is the first band |
| MapUtils.PillarBands | src/config/mapConfig.js:40-46 | with the pillar bands, 0–7999 gets band `value / 2000`, 8000 and above the last, and a negative value, held by no band, the last band's colour |
| MapUtils.ParseNatToString | src/utils/mapUtils.js:54 | reading back the decimal text of a number gives the number |
| MapUtils.FormatDataValueMeaning | src/utils/mapUtils.js:50-55 | below 10000 the text is the value; from 10000 on it is the number of ten thousands nearest the value (halves up) followed by 万 |

## Left out

- File-system access, JSON parsing and console logging are out of scope. A file is missing, unparseable, a JSON primitive (known only by its truthiness) or a parsed object (known by its `features`). An object whose `features` is present but is not an array is not modelled.
- A feature without a `properties` object would make every script throw. Features always have properties here.
- Ids and codes are strings. Numeric ids in the source data, and strict `===` between a number and a string, are not modelled.
- A missing county folder makes `readdirSync` throw. This is not modelled; the listing is always a value.
- `main` writes the merged tree and reads it back before validating. The model validates the tree value directly, and the written report file is the `Report` value.
- Boundaries (`geometry`) are opaque values that are copied, never inspected.
- Constant descriptive fields (`type`, `name`, `level`, `description`, `version`) and the `updateTime` clock value are not modelled.
- AdminValidate: messages are a datatype. `Text` renders the exact wording, and the lemmas speak of the datatype.
- SimpleMerge: the progress logs at merge_simple.js:127-129 and 139-141 and the file-size report are left out.
- ProvinceCodeMap: lookups consider the table's own keys only. A name such as `toString`, which JavaScript would find on the object prototype, is not modelled.
- DataLoader: the asynchronous interleaving of concurrent loads is not modelled; each load runs to completion.
- DataLoader: the dynamic import is the `modules` map, and the `requested` ghost field records the paths asked for.
- MapUtils.GetColorByValue: values are integers. Fractional values and `NaN` are not modelled. An empty band list, on which the script throws, is excluded by a precondition.
- MapUtils.FormatDataValue: values are integers. `toFixed` on fractional values and number-to-text for magnitudes of 1e21 and above (exponent notation) are not modelled.
- MapUtils.DisposeGeometries: three.js `dispose()`, which releases GPU buffers, is abstracted to setting the geometry's `disposed` flag. What the renderer frees is not modelled.
- MapUtils.UpdateGlowEffect: a material without a `uniforms` object is a material with an empty uniform map. Uniform values are reals.
- `projection.js`, `mapAnimations.js`, `simple_merge.js`, the router and the build configuration are not part of this model.

## Findings

| source | as written | input that shows it | evidently intended | confidence | as-written member | corrected member |
|---|---|---|---|---|---|---|
| src/assets/json/merge_simple.js:11 | `path.dirname(__filenaem)` reads a name that is never declared, so the module throws a `ReferenceError` at load time and `main` never runs | any input, e.g. a national document with an empty `features` array and empty folders | `path.dirname(__filename)`, after which the script writes the merged tree (here an empty one) | high, not executed | SimpleMerge.SimpleScriptAsWritten, SimpleMerge.MisspelledDirnameThrows | SimpleMerge.SimpleMain |
