/**
  The front end's boundary-data loader: a bounded cache of loaded
  documents keyed by `province_<code>` and `city_<code>`, filled from the
  bundler's dynamic imports. When the cache is full, adding a key first
  deletes the earliest-inserted one.
*/
module DataLoader {
  import opened Features

  /** `maxCacheSize` */
  const MaxCacheSize: nat := 20

  // ---------------------------------------------------------------------
  // Keys and module paths
  // ---------------------------------------------------------------------

  function ProvinceKey(provinceCode: string): string
  {
    "province_" + provinceCode
  }

  function CityKey(areaCode: string): string
  {
    "city_" + areaCode
  }

  /** The module a province load imports. */
  function ProvincePath(provinceCode: string): string
  {
    "@/assets/jsonNew/geometryProvince/" + provinceCode + ".json"
  }

  /** The file a city load requests: the area code followed by "00". */
  function CityFileName(areaCode: string): string
  {
    areaCode + "00"
  }

  /** The module a city load imports. */
  function CityPath(areaCode: string): string
  {
    "@/assets/jsonNew/geometryCouties/" + CityFileName(areaCode) + ".json"
  }

  /** Province and city entries live in separate namespaces, and each key names one code. */
  lemma KeysNeverCollide(a: string, b: string)
    ensures ProvinceKey(a) != CityKey(b)
    ensures ProvinceKey(a) == ProvinceKey(b) ==> a == b
    ensures CityKey(a) == CityKey(b) ==> a == b
  {
    assert ProvinceKey(a)[0] == 'p' && CityKey(b)[0] == 'c';
    if ProvinceKey(a) == ProvinceKey(b) {
      assert a == ProvinceKey(a)[9..] && b == ProvinceKey(b)[9..];
    }
    if CityKey(a) == CityKey(b) {
      assert a == CityKey(a)[5..] && b == CityKey(b)[5..];
    }
  }

  /**
    A city load requests the area code with "00" appended, from the
    county folder: distinct area codes request distinct modules, and no
    city module is a province module.
  */
  lemma CityPathsAreDistinct(a: string, b: string, p: string)
    ensures CityPath(a) == CityPath(b) ==> a == b
    ensures CityPath(a) != ProvincePath(p)
    ensures CityFileName(a)[..|a|] == a && CityFileName(a)[|a|..] == "00"
  {
    var dir := "@/assets/jsonNew/geometryCouties/";
    if CityPath(a) == CityPath(b) {
      assert |a| == |b|;
      assert a == CityPath(a)[|dir|..|dir| + |a|];
      assert b == CityPath(b)[|dir|..|dir| + |b|];
    }
    assert CityPath(a)[25] == 'C' && ProvincePath(p)[25] == 'P';
  }

  // ---------------------------------------------------------------------
  // The cache as values
  // ---------------------------------------------------------------------

  /** The keys in insertion order after `_addToCache(key, ...)`. */
  function OrderAfterAdd(order: seq<string>, key: string, capacity: nat): seq<string>
  {
    var kept := if |order| >= capacity && |order| > 0 then order[1..] else order;
    if key in kept then kept else kept + [key]
  }

  /** The entries after `_addToCache(key, data)`. */
  function EntriesAfterAdd(order: seq<string>, entries: map<string, Document>, key: string, data: Document, capacity: nat): map<string, Document>
  {
    var kept := if |order| >= capacity && |order| > 0 then entries - {order[0]} else entries;
    kept[key := data]
  }

  /** No key occurs twice in the insertion order. */
  predicate Distinct(order: seq<string>)
  {
    forall i, j :: 0 <= i < j < |order| ==> order[i] != order[j]
  }

  /** The insertion order lists exactly the keys of the entries, each once, and there are at most `capacity` of them. */
  ghost predicate CacheInvariant(order: seq<string>, entries: map<string, Document>, capacity: nat)
  {
    Distinct(order) && (forall k :: k in entries <==> k in order) && |order| <= capacity
  }

  /**
    Adding a key keeps the cache well formed and never lets it grow past
    its capacity; the new key then maps to the given data.
  */
  lemma AddKeepsInvariant(order: seq<string>, entries: map<string, Document>, key: string, data: Document, capacity: nat)
    requires capacity > 0 && CacheInvariant(order, entries, capacity)
    ensures CacheInvariant(OrderAfterAdd(order, key, capacity), EntriesAfterAdd(order, entries, key, data, capacity), capacity)
    ensures EntriesAfterAdd(order, entries, key, data, capacity)[key] == data
  {
    var full := |order| >= capacity && |order| > 0;
    var kept := if full then order[1..] else order;
    assert Distinct(kept);
    assert forall k :: k in kept <==> k in order && (full ==> k != order[0]);
  }

  /**
    A full cache evicts exactly its earliest-inserted key to make room
    for a new one: the order loses its head and gains the new key at the
    end, the new key maps to the data, and every other entry is as it
    was. A cache with room evicts nothing.
  */
  lemma AddEvictsOnlyTheOldest(order: seq<string>, entries: map<string, Document>, key: string, data: Document, capacity: nat)
    requires capacity > 0 && CacheInvariant(order, entries, capacity)
    requires key !in entries
    ensures var order' := OrderAfterAdd(order, key, capacity);
      var entries' := EntriesAfterAdd(order, entries, key, data, capacity);
      && (|order| == capacity ==>
            order' == order[1..] + [key] && order[0] !in entries' &&
            forall k :: k in entries && k != order[0] ==> k in entries' && entries'[k] == entries[k])
      && (|order| < capacity ==>
            order' == order + [key] && entries'.Keys == entries.Keys + {key} &&
            forall k :: k in entries ==> entries'[k] == entries[k])
  {
    if |order| == capacity {
      assert order[0] in order;
      assert key !in order[1..];
    }
  }

  // ---------------------------------------------------------------------
  // The loader
  // ---------------------------------------------------------------------

  class MapDataLoader {
    /** The cache's keys in insertion order (a JavaScript `Map` iterates in this order). */
    var order: seq<string>
    /** The cache's entries. */
    var entries: map<string, Document>
    const maxCacheSize: nat
    /** The module paths handed to the bundler so far, in order. */
    ghost var requested: seq<string>

    ghost predicate Valid()
      reads this
    {
      maxCacheSize == MaxCacheSize && CacheInvariant(order, entries, maxCacheSize)
    }

    constructor()
      ensures Valid()
      ensures order == [] && entries == map[] && requested == []
    {
      order := [];
      entries := map[];
      maxCacheSize := MaxCacheSize;
      requested := [];
    }

    /**
      What a load under `key` from module `path` does: a cached key is
      answered from the cache with nothing imported; otherwise the module
      is requested, and if the bundler has it its document is returned
      and added to the cache, else the load fails with the cache as it
      was.
    */
    twostate predicate Loaded(key: string, path: string, modules: map<string, Document>, new r: Option<Document>)
      reads this
    {
      if key in old(entries) then
        r == Some(old(entries)[key]) && entries == old(entries) && order == old(order) && requested == old(requested)
      else
        && requested == old(requested) + [path]
        && if path in modules then
             && r == Some(modules[path])
             && entries == EntriesAfterAdd(old(order), old(entries), key, modules[path], maxCacheSize)
             && order == OrderAfterAdd(old(order), key, maxCacheSize)
           else
             r == None && entries == old(entries) && order == old(order)
    }

    /** `_addToCache` */
    method AddToCache(key: string, data: Document)
      requires Valid()
      modifies this
      ensures Valid()
      ensures order == OrderAfterAdd(old(order), key, maxCacheSize)
      ensures entries == EntriesAfterAdd(old(order), old(entries), key, data, maxCacheSize)
      ensures requested == old(requested)
    {
      AddKeepsInvariant(order, entries, key, data, maxCacheSize);
      if |order| >= maxCacheSize {
        var firstKey := order[0];
        entries := entries - {firstKey};
        order := order[1..];
      }
      entries := entries[key := data];
      if key !in order {
        order := order + [key];
      }
    }

    /** The shared body of the two loaders: look in the cache, else import and cache. */
    method Load(key: string, path: string, modules: map<string, Document>) returns (r: Option<Document>)
      requires Valid()
      modifies this
      ensures Valid()
      ensures Loaded(key, path, modules, r)
    {
      if key in entries {
        return Some(entries[key]);
      }
      requested := requested + [path];
      if path !in modules {
        return None;
      }
      var data := modules[path];
      AddToCache(key, data);
      r := Some(data);
    }

    /** `loadProvinceData`; `modules` stands for what the bundler can import. */
    method LoadProvinceData(provinceCode: string, modules: map<string, Document>) returns (r: Option<Document>)
      requires Valid()
      modifies this
      ensures Valid()
      ensures Loaded(ProvinceKey(provinceCode), ProvincePath(provinceCode), modules, r)
    {
      r := Load(ProvinceKey(provinceCode), ProvincePath(provinceCode), modules);
    }

    /** `loadCityData` */
    method LoadCityData(areaCode: string, modules: map<string, Document>) returns (r: Option<Document>)
      requires Valid()
      modifies this
      ensures Valid()
      ensures Loaded(CityKey(areaCode), CityPath(areaCode), modules, r)
    {
      r := Load(CityKey(areaCode), CityPath(areaCode), modules);
    }

    /** `loadCountyData`: the same as `loadCityData` with the same code. */
    method LoadCountyData(code: string, modules: map<string, Document>) returns (r: Option<Document>)
      requires Valid()
      modifies this
      ensures Valid()
      ensures Loaded(CityKey(code), CityPath(code), modules, r)
    {
      r := LoadCityData(code, modules);
    }

    /** `clearCache` */
    method ClearCache()
      requires Valid()
      modifies this
      ensures Valid()
      ensures order == [] && entries == map[]
      ensures requested == old(requested)
    {
      order := [];
      entries := map[];
    }
  }
}
