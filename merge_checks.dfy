/**
  What the validation pass can find in a tree the merge produced: the
  provinces come from the province table, so none of them lacks a code
  or a name, and only cities and counties can be reported incomplete.
*/
module MergeChecks {
  import opened Features
  import opened RegionCodes
  import opened AdminMerge
  import opened AdminValidate

  /** Every entry of `PROVINCE_MAP` has a non-empty code and a non-empty name. */
  lemma ProvinceMapEntriesNonEmpty(i: nat)
    requires i < |ProvinceMap|
    ensures |ProvinceMap[i].0| > 0 && |ProvinceMap[i].1| > 0
  {
  }

  /** No error about a province is raised for a merged tree: every one of its errors concerns a city or a county. */
  lemma MergedTreeHasNoProvinceErrors(chinaFeatures: seq<SourceFeature>, provinceDir: Folder, countyDir: seq<Entry>, m: Message)
    requires m in Errors(MergedProvinces(chinaFeatures, provinceDir, countyDir))
    ensures m.CityIncomplete? || m.CountyIncomplete?
  {
    var ps := MergedProvinces(chinaFeatures, provinceDir, countyDir);
    ErrorsAreExactlyIncompleteNodes(ps, m);
    forall i | 0 <= i < |ps|
      ensures Complete(ps[i].code, ps[i].name)
    {
      MergedProvincesFollowTable(chinaFeatures, provinceDir, countyDir, i);
      ProvinceMapEntriesNonEmpty(i);
    }
  }
}
