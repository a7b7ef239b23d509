/**
  Administrative-division codes as the merge script reads them: the
  province is the first 2 characters, the city the first 4, the county
  the first 6 (GB/T 2260). Also the fixed province table the merge
  iterates and the set of provinces without a city tier.
*/
module RegionCodes {
  import opened Features
  import ProvinceCodeMap

  /** `PROVINCE_MAP`: code → full name, in iteration order. */
  const ProvinceMap: seq<(string, string)> := [
    ("11", "北京市"), ("12", "天津市"), ("13", "河北省"), ("14", "山西省"), ("15", "内蒙古自治区"),
    ("21", "辽宁省"), ("22", "吉林省"), ("23", "黑龙江省"), ("31", "上海市"), ("32", "江苏省"),
    ("33", "浙江省"), ("34", "安徽省"), ("35", "福建省"), ("36", "江西省"), ("37", "山东省"),
    ("41", "河南省"), ("42", "湖北省"), ("43", "湖南省"), ("44", "广东省"), ("45", "广西壮族自治区"),
    ("46", "海南省"), ("50", "重庆市"), ("51", "四川省"), ("52", "贵州省"), ("53", "云南省"),
    ("54", "西藏自治区"), ("61", "陕西省"), ("62", "甘肃省"), ("63", "青海省"), ("64", "宁夏回族自治区"),
    ("65", "新疆维吾尔自治区"), ("71", "台湾省"), ("81", "香港特别行政区"), ("82", "澳门特别行政区")]

  /** `DIRECT_CITIES`: municipalities and special administrative regions. */
  const DirectCities: seq<string> := ["11", "12", "31", "50", "81", "82"]

  /**
    `getCodePrefix(code, level)`: the province, city or county prefix of
    a code; a code shorter than the prefix comes back whole, and an
    unknown level gives the whole code.
  */
  function GetCodePrefix(code: string, level: string): (r: string)
    ensures StartsWith(code, r)
    ensures level == "province" ==> |r| == if |code| < 2 then |code| else 2
    ensures level == "city" ==> |r| == if |code| < 4 then |code| else 4
    ensures level == "county" ==> |r| == if |code| < 6 then |code| else 6
    ensures level != "province" && level != "city" && level != "county" ==> r == code
  {
    if level == "province" then Take(code, 2)
    else if level == "city" then Take(code, 4)
    else if level == "county" then Take(code, 6)
    else code
  }

  /** `getCityCodeFromCounty` */
  function GetCityCodeFromCounty(countyCode: string): (r: string)
    ensures r == GetCodePrefix(countyCode, "city")
  {
    Take(countyCode, 4)
  }

  /** `getProvinceCodeFromCity` */
  function GetProvinceCodeFromCity(cityCode: string): (r: string)
    ensures r == GetCodePrefix(cityCode, "province")
  {
    Take(cityCode, 2)
  }

  /** Going up from county to city and then to province gives the province prefix of the county. */
  lemma ProvinceOfCityOfCounty(countyCode: string)
    ensures GetProvinceCodeFromCity(GetCityCodeFromCounty(countyCode)) == GetCodePrefix(countyCode, "province")
  {
    if |countyCode| > 4 {
      assert countyCode[..4][..2] == countyCode[..2];
    }
  }

  /** `isDirectCity` */
  predicate IsDirectCity(provinceCode: string)
  {
    provinceCode in DirectCities
  }

  /**
    The provinces without a city tier are the four municipalities of the
    front end's table together with Hong Kong (81) and Macau (82).
  */
  lemma DirectCitiesAreMunicipalitiesAndSars(code: string)
    ensures IsDirectCity(code) <==> ProvinceCodeMap.IsMunicipality(code) || code == "81" || code == "82"
  {
  }

  /** The merge table and the front end's table list the same codes in the same order. */
  lemma ProvinceMapMatchesCodeTable()
    ensures |ProvinceMap| == |ProvinceCodeMap.ProvinceCodes|
    ensures forall i :: 0 <= i < |ProvinceMap| ==> ProvinceMap[i].0 == ProvinceCodeMap.ProvinceCodes[i].1
  {
  }

  /** Every direct-administration code is a province of the merge table. */
  lemma DirectCitiesAreProvinces(code: string)
    requires IsDirectCity(code)
    ensures exists i :: 0 <= i < |ProvinceMap| && ProvinceMap[i].0 == code
  {
    if code == "11" { assert ProvinceMap[0].0 == code; }
    else if code == "12" { assert ProvinceMap[1].0 == code; }
    else if code == "31" { assert ProvinceMap[8].0 == code; }
    else if code == "50" { assert ProvinceMap[21].0 == code; }
    else if code == "81" { assert ProvinceMap[32].0 == code; }
    else { assert ProvinceMap[33].0 == code; }
  }
}
