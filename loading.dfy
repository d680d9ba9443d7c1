/** The data store of `src/utils/data_loader.py`: a process-wide cache of the record lists read
    from JSON files, and the generic filter, sort and distinct-values helpers over such lists. */
module Loading {
  import opened Wrappers
  import opened Text
  import opened Json
  import opened Seqs
  import opened Sorting
  import opened Ranks

  /** One record of a data file: a Python dict, shared by reference between the cache and every
      caller that received the cached list. */
  class Record {
    var fields: Fields

    constructor (fields: Fields)
      ensures this.fields == fields
    {
      this.fields := fields;
    }
  }

  /** The current contents of a list of records. */
  function Snapshot(rs: seq<Record>): (r: seq<Fields>)
    reads set i | 0 <= i < |rs| :: rs[i]
    ensures |r| == |rs| && forall i :: 0 <= i < |rs| ==> r[i] == rs[i].fields
  {
    seq(|rs|, i reads set k | 0 <= k < |rs| :: rs[k] requires 0 <= i < |rs| => rs[i].fields)
  }

  /** A file as `json.load` sees it: text that is not valid JSON, or a list of records. */
  datatype Document = Unparsable | Parsed(records: seq<Fields>)

  /** The two failures `load_json` lets escape. */
  datatype LoadError = FileNotFound(path: string) | InvalidJson(path: string)

  /** The sum of the lengths of the lists stored under `keys` (`total_records`). */
  function TotalLength(m: map<string, seq<Record>>, keys: seq<string>): nat
    requires forall i :: 0 <= i < |keys| ==> keys[i] in m
  {
    if keys == [] then 0 else TotalLength(m, keys[..|keys| - 1]) + |m[keys[|keys| - 1]]|
  }

  /** The dicts `json.load` builds for a parsed file: one new object per record. */
  method NewRecords(records: seq<Fields>) returns (rs: seq<Record>)
    ensures (forall i :: 0 <= i < |rs| ==> fresh(rs[i])) && Snapshot(rs) == records
  {
    rs := [];
    for i := 0 to |records|
      invariant |rs| == i
      invariant forall k :: 0 <= k < i ==> fresh(rs[k]) && rs[k].fields == records[k]
    {
      var record := new Record(records[i]);
      rs := rs + [record];
    }
  }

  /** The class-level `DataLoader._cache`: one instance stands for the process-wide dict.
      `keys` is the dict's insertion order, in which `values()` iterates. */
  class DataLoader {
    var cache: map<string, seq<Record>>
    var keys: seq<string>

    /** The keys are listed once each, and they are exactly the cached paths; two entries never
        share a record object, since each load builds its own. */
    ghost predicate Valid()
      reads this
    {
      && (forall i, j :: 0 <= i < j < |keys| ==> keys[i] != keys[j])
      && (forall p :: p in cache <==> p in keys)
      && (forall p, q :: p in cache && q in cache && p != q ==> EntryRecords(p) !! EntryRecords(q))
    }

    constructor ()
      ensures Valid() && cache == map[] && keys == []
    {
      cache := map[];
      keys := [];
    }

    /** The records held in the cache entry for `path`. */
    ghost function EntryRecords(path: string): set<Record>
      reads this
    {
      if path in cache then set i | 0 <= i < |cache[path]| :: cache[path][i] else {}
    }

    /** What `load_json(path)` would give now: the contents of the cached list, or else what the
        disk holds under `path`. */
    ghost function View(path: string, disk: map<string, Document>): Result<seq<Fields>, LoadError>
      reads this, EntryRecords(path)
    {
      if path in cache then Ok(Snapshot(cache[path]))
      else if path !in disk then Err(FileNotFound(path))
      else match disk[path]
        case Unparsable => Err(InvalidJson(path))
        case Parsed(records) => Ok(records)
    }

    /** `load_json(path)`: a cached path returns the cached list object itself, without looking
        at the disk; otherwise a missing file raises FileNotFoundError and an unparsable one
        JSONDecodeError, both leaving the cache as it was; a parsed file yields new record
        objects, which are stored under `path` and returned. */
    method LoadJson(path: string, disk: map<string, Document>) returns (r: Result<seq<Record>, LoadError>)
      requires Valid()
      modifies this
      ensures Valid()
      ensures path in old(cache) ==> r == Ok(old(cache)[path]) && unchanged(this)
      ensures path !in old(cache) && path !in disk ==> r == Err(FileNotFound(path)) && unchanged(this)
      ensures path !in old(cache) && path in disk && disk[path].Unparsable? ==>
        r == Err(InvalidJson(path)) && unchanged(this)
      ensures path !in old(cache) && path in disk && disk[path].Parsed? ==>
        && r.Ok?
        && (forall i :: 0 <= i < |r.value| ==> fresh(r.value[i]))
        && Snapshot(r.value) == disk[path].records
        && cache == old(cache)[path := r.value]
        && keys == old(keys) + [path]
      ensures r.Err? ==> old(View(path, disk)) == Err(r.error) && unchanged(this)
      ensures r.Ok? ==> && old(View(path, disk)) == Ok(Snapshot(r.value))
                        && path in cache && cache[path] == r.value
                        && forall i :: 0 <= i < |r.value| ==> r.value[i] in old(EntryRecords(path)) || fresh(r.value[i])
    {
      if path in cache {
        return Ok(cache[path]);
      }
      if path !in disk {
        return Err(FileNotFound(path));
      }
      match disk[path]
      case Unparsable =>
        return Err(InvalidJson(path));
      case Parsed(records) =>
        var rs := NewRecords(records);
        cache := cache[path := rs];
        keys := keys + [path];
        return Ok(rs);
    }

    /** `clear_cache()`. */
    method ClearCache()
      modifies this
      ensures Valid() && cache == map[] && keys == []
    {
      cache := map[];
      keys := [];
    }

    /** `get_cache_info()`: the number of cached files and the total number of cached records. */
    method GetCacheInfo() returns (files: nat, records: nat)
      requires Valid()
      ensures files == |cache| && records == TotalLength(cache, keys)
    {
      files := |cache|;
      records := 0;
      for i := 0 to |keys|
        invariant records == TotalLength(cache, keys[..i])
      {
        assert keys[..i + 1][..i] == keys[..i];
        records := records + |cache[keys[i]]|;
      }
      assert keys[..|keys|] == keys;
    }

    /** A second `load_json` of the same path returns the very list the first one returned,
        whatever the disk holds by then. */
    method LoadAgain(path: string, disk: map<string, Document>, laterDisk: map<string, Document>)
      returns (first: Result<seq<Record>, LoadError>, second: Result<seq<Record>, LoadError>)
      requires Valid()
      modifies this
      ensures first.Ok? ==> second == first
      ensures first.Ok? ==> path in cache && cache[path] == first.value
    {
      first := LoadJson(path, disk);
      second := LoadJson(path, laterDisk);
    }

    /** After `clear_cache`, `get_cache_info` reports no files and no records. */
    method ClearThenInfo() returns (files: nat, records: nat)
      requires Valid()
      modifies this
      ensures files == 0 && records == 0
    {
      ClearCache();
      files, records := GetCacheInfo();
    }
  }

  /** One `filter_data` criterion: the item has the key and the two values print the same,
      ignoring case (`str(item[key]).lower() == str(value).lower()`). */
  predicate MatchesCriterion(item: Fields, key: string, value: Value) {
    key in item && Lower(Show(item[key])) == Lower(Show(value))
  }

  /** The item meets every criterion whose value is not None. */
  predicate MeetsAll(item: Fields, filters: seq<(string, Value)>) {
    forall k :: 0 <= k < |filters| && filters[k].1 != Null ==> MatchesCriterion(item, filters[k].0, filters[k].1)
  }

  function MeetsAllTest(filters: seq<(string, Value)>): Fields -> bool {
    item => MeetsAll(item, filters)
  }

  function CriterionTest(key: string, value: Value): Fields -> bool {
    item => MatchesCriterion(item, key, value)
  }

  lemma MeetsAllStep(item: Fields, filters: seq<(string, Value)>, i: nat)
    requires i < |filters|
    ensures MeetsAll(item, filters[..i + 1])
        == (MeetsAll(item, filters[..i])
            && (filters[i].1 != Null ==> MatchesCriterion(item, filters[i].0, filters[i].1)))
  {
    var pre, step := filters[..i], filters[..i + 1];
    assert forall k :: 0 <= k < i ==> step[k] == pre[k];
    assert step[i] == filters[i];
  }

  /** `filter_data(data, filters)`: the items that meet every criterion whose value is not
      None, in their original order. The filters are a list of key/value pairs in the dict's
      iteration order. */
  method FilterData(data: seq<Fields>, filters: seq<(string, Value)>) returns (filtered: seq<Fields>)
    ensures filtered == Filter(data, MeetsAllTest(filters))
  {
    FilterKeepsAll(data, MeetsAllTest([]));
    if filters == [] {
      return data;
    }
    filtered := data;
    for i := 0 to |filters|
      invariant filtered == Filter(data, MeetsAllTest(filters[..i]))
    {
      var key, value := filters[i].0, filters[i].1;
      forall item ensures MeetsAllTest(filters[..i + 1])(item)
                        == (MeetsAllTest(filters[..i])(item) && (value != Null ==> CriterionTest(key, value)(item))) {
        MeetsAllStep(item, filters, i);
      }
      if value != Null {
        FilterTwice(data, MeetsAllTest(filters[..i]), CriterionTest(key, value), MeetsAllTest(filters[..i + 1]));
        filtered := Filter(filtered, CriterionTest(key, value));
      } else {
        FilterSameTest(data, MeetsAllTest(filters[..i]), MeetsAllTest(filters[..i + 1]));
      }
    }
    assert filters[..|filters|] == filters;
  }

  /** What `filter_data` returns: an order-preserving subsequence of its input holding exactly
      the items that meet every non-None criterion, each as often as it occurs in the input;
      with no criterion that is not None, the input itself. */
  lemma FilterDataSpec(data: seq<Fields>, filters: seq<(string, Value)>)
    ensures var r := Filter(data, MeetsAllTest(filters));
      && IsSubsequence(r, data)
      && (forall item :: item in r <==> item in data && MeetsAll(item, filters))
      && (forall item :: multiset(r)[item] == if MeetsAll(item, filters) then multiset(data)[item] else 0)
      && ((forall k :: 0 <= k < |filters| ==> filters[k].1 == Null) ==> r == data)
  {
    FilterIsSubsequence(data, MeetsAllTest(filters));
    FilterMembers(data, MeetsAllTest(filters));
    FilterCounts(data, MeetsAllTest(filters));
    if forall k :: 0 <= k < |filters| ==> filters[k].1 == Null {
      FilterKeepsAll(data, MeetsAllTest(filters));
    }
  }

  /** The sort key `x.get(sort_by, float('inf'))`. */
  function FieldRank(field: string): Fields -> Rank {
    item => if field in item then KeyOf(item[field]) else Infinity
  }

  /** The order `sorted(..., reverse=reverse)` puts keys in. */
  function SortOrder(reverse: bool): (Rank, Rank) -> bool {
    if reverse then RankGreater else RankLess
  }

  /** `sort_data(data, sort_by, reverse)`: the stable sort by the field, or the input unchanged
      when the sort raises TypeError on two keys Python cannot compare. */
  function SortData(data: seq<Fields>, sortBy: string, reverse: bool): seq<Fields> {
    if AllComparable(data, FieldRank(sortBy)) then SortBy(data, FieldRank(sortBy), SortOrder(reverse))
    else data
  }

  /** `sort_data` permutes its input; when the keys are comparable the output is ordered by the
      field (ascending, or descending when `reverse`), with a missing field counting as +infinity,
      and items with equal keys keep their input order; otherwise the input comes back as is. */
  lemma SortDataSpec(data: seq<Fields>, sortBy: string, reverse: bool)
    ensures var r := SortData(data, sortBy, reverse);
      && multiset(r) == multiset(data)
      && (AllComparable(data, FieldRank(sortBy)) ==>
            && SortedBy(r, FieldRank(sortBy), SortOrder(reverse))
            && StableFor(r, data, FieldRank(sortBy)))
      && (!AllComparable(data, FieldRank(sortBy)) ==> r == data)
  {
    RankLessIsStrictTotalOrder();
    RankGreaterIsStrictTotalOrder();
    SortBySorted(data, FieldRank(sortBy), SortOrder(reverse));
    SortByStable(data, FieldRank(sortBy), SortOrder(reverse));
  }

  /** The values of `field` in the items that have it, in order. */
  function FieldValues(data: seq<Fields>, field: string): seq<Value> {
    if data == [] then []
    else
      var last := data[|data| - 1];
      FieldValues(data[..|data| - 1], field) + (if field in last then [last[field]] else [])
  }

  lemma {:induction false} FieldValuesAppend(a: seq<Fields>, b: seq<Fields>, field: string)
    ensures FieldValues(a + b, field) == FieldValues(a, field) + FieldValues(b, field)
    decreases |b|
  {
    if b == [] {
      assert a + b == a;
    } else {
      var ab := a + b;
      assert ab[..|ab| - 1] == a + b[..|b| - 1];
      FieldValuesAppend(a, b[..|b| - 1], field);
    }
  }

  /** A value is among the field's values exactly when some item holds it under the field. */
  lemma {:induction false} FieldValuesMembers(data: seq<Fields>, field: string)
    ensures forall v :: v in FieldValues(data, field) <==>
      exists i :: 0 <= i < |data| && field in data[i] && data[i][field] == v
  {
    if data != [] {
      var init := data[..|data| - 1];
      FieldValuesMembers(init, field);
      forall v | (exists i :: 0 <= i < |data| && field in data[i] && data[i][field] == v)
        ensures v in FieldValues(data, field)
      {
        var i :| 0 <= i < |data| && field in data[i] && data[i][field] == v;
        if i < |init| {
          assert init[i] == data[i];
        }
      }
      forall v | v in FieldValues(init, field)
        ensures exists i :: 0 <= i < |data| && field in data[i] && data[i][field] == v
      {
        var i :| 0 <= i < |init| && field in init[i] && init[i][field] == v;
        assert data[i] == init[i];
      }
    }
  }

  /** Some value in the list has the same key as `v` (Python's set treats them as one). */
  predicate KeyPresent(vs: seq<Value>, v: Value) {
    exists j :: 0 <= j < |vs| && KeyOf(vs[j]) == KeyOf(v)
  }

  /** One representative per group of values that a Python set holds once (the first to
      arrive), in arrival order. */
  function Distinct(vs: seq<Value>): seq<Value> {
    if vs == [] then []
    else
      var d := Distinct(vs[..|vs| - 1]);
      var v := vs[|vs| - 1];
      if KeyPresent(d, v) then d else d + [v]
  }

  /** The representatives are values of the list, one per key, and every value of the list is
      represented. */
  lemma {:induction false} DistinctSpec(vs: seq<Value>)
    ensures forall j :: 0 <= j < |Distinct(vs)| ==> Distinct(vs)[j] in vs
    ensures DistinctKeys(Distinct(vs), KeyOf)
    ensures forall v :: v in vs ==> KeyPresent(Distinct(vs), v)
  {
    if vs != [] {
      var init := vs[..|vs| - 1];
      DistinctSpec(init);
      var d := Distinct(init);
      var v := vs[|vs| - 1];
      assert vs == init + [v];
      forall w | w in vs ensures KeyPresent(Distinct(vs), w) {
        if w in init {
          var j :| 0 <= j < |d| && KeyOf(d[j]) == KeyOf(w);
          assert Distinct(vs)[j] == d[j];
        } else {
          assert w == v;
          if !KeyPresent(d, v) {
            assert Distinct(vs)[|d|] == v;
          }
        }
      }
    }
  }

  /** The two ways `get_unique_values` raises TypeError: a list value cannot go into a set, and
      two values of different kinds cannot be sorted. */
  datatype UniqueError = Unhashable | Unorderable

  /** The set `get_unique_values` builds: one representative per distinct field value, or
      Unhashable when some value is a list. */
  function ValueSet(data: seq<Fields>, field: string): Result<seq<Value>, UniqueError> {
    var vs := FieldValues(data, field);
    if exists i :: 0 <= i < |vs| && vs[i].List? then Err(Unhashable) else Ok(Distinct(vs))
  }

  /** `get_unique_values(data, field)` as a value: the distinct field values, sorted. */
  function UniqueValues(data: seq<Fields>, field: string): Result<seq<Value>, UniqueError> {
    match ValueSet(data, field)
    case Err(e) => Err(e)
    case Ok(d) => if AllComparable(d, KeyOf) then Ok(SortBy(d, KeyOf, RankLess)) else Err(Unorderable)
  }

  /** Sorting the representatives keeps values of the list, one per key, in strictly
      increasing key order, and still represents every value of the list. */
  lemma SortedRepresentatives(vs: seq<Value>)
    ensures var r := SortBy(Distinct(vs), KeyOf, RankLess);
      && (forall j :: 0 <= j < |r| ==> r[j] in vs)
      && (forall j, l :: 0 <= j < l < |r| ==> RankLess(KeyOf(r[j]), KeyOf(r[l])))
      && (forall v :: v in vs ==> KeyPresent(r, v))
  {
    var d := Distinct(vs);
    var r := SortBy(d, KeyOf, RankLess);
    DistinctSpec(vs);
    RankLessIsStrictTotalOrder();
    SortByStrict(d, KeyOf, RankLess);
    forall j | 0 <= j < |r| ensures r[j] in vs {
      assert r[j] in multiset(d);
    }
    forall v | v in vs ensures KeyPresent(r, v) {
      var j :| 0 <= j < |d| && KeyOf(d[j]) == KeyOf(v);
      assert d[j] in multiset(r);
    }
  }

  /** A successful `get_unique_values` lists values the items hold under the field, in strictly
      increasing order (so no two are equal), and every value some item holds equals one of
      them. */
  lemma UniqueValuesSpec(data: seq<Fields>, field: string)
    ensures UniqueValues(data, field).Ok? ==>
      var r := UniqueValues(data, field).value;
      && (forall j :: 0 <= j < |r| ==>
            exists i :: 0 <= i < |data| && field in data[i] && data[i][field] == r[j])
      && (forall j, l :: 0 <= j < l < |r| ==> RankLess(KeyOf(r[j]), KeyOf(r[l])))
      && (forall i :: 0 <= i < |data| && field in data[i] ==> KeyPresent(r, data[i][field]))
  {
    var vs := FieldValues(data, field);
    if UniqueValues(data, field).Ok? {
      var r := UniqueValues(data, field).value;
      assert r == SortBy(Distinct(vs), KeyOf, RankLess);
      SortedRepresentatives(vs);
      FieldValuesMembers(data, field);
      forall i | 0 <= i < |data| && field in data[i] ensures KeyPresent(r, data[i][field]) {
        assert data[i][field] in vs;
      }
    }
  }

  /** Taking one more item of `data` adds that item's value, if it has one, to the values of the
      prefix; that value sits at the same place among the values of the whole list. */
  lemma FieldValuesStep(data: seq<Fields>, i: nat, field: string)
    requires i < |data|
    ensures FieldValues(data[..i + 1], field) == FieldValues(data[..i], field) + (if field in data[i] then [data[i][field]] else [])
    ensures field in data[i] ==>
      && |FieldValues(data[..i], field)| < |FieldValues(data, field)|
      && FieldValues(data, field)[|FieldValues(data[..i], field)|] == data[i][field]
  {
    assert data[..i + 1][..i] == data[..i];
    FieldValuesAppend(data[..i + 1], data[i + 1..], field);
    assert data[..i + 1] + data[i + 1..] == data;
  }

  /** A new value joins the representatives unless one with its key is already there. */
  lemma DistinctSnoc(vs: seq<Value>, v: Value)
    ensures Distinct(vs + [v]) == if KeyPresent(Distinct(vs), v) then Distinct(vs) else Distinct(vs) + [v]
  {
    assert (vs + [v])[..|vs|] == vs;
  }

  /** A list value under the field makes building the set raise, whatever comes after. */
  lemma UnhashableAt(data: seq<Fields>, field: string, i: nat)
    requires i < |data| && field in data[i] && data[i][field].List?
    ensures ValueSet(data, field) == Err(Unhashable)
  {
    FieldValuesStep(data, i, field);
  }

  /** The loop of `get_unique_values` that adds each item's value to the set. */
  method CollectValues(data: seq<Fields>, field: string) returns (result: Result<seq<Value>, UniqueError>)
    ensures result == ValueSet(data, field)
  {
    var values: seq<Value> := [];
    for i := 0 to |data|
      invariant forall k :: 0 <= k < |FieldValues(data[..i], field)| ==> !FieldValues(data[..i], field)[k].List?
      invariant values == Distinct(FieldValues(data[..i], field))
    {
      FieldValuesStep(data, i, field);
      var pre := FieldValues(data[..i], field);
      if field in data[i] {
        var v := data[i][field];
        assert FieldValues(data[..i + 1], field) == pre + [v];
        DistinctSnoc(pre, v);
        if v.List? {
          UnhashableAt(data, field, i);
          return Err(Unhashable);
        }
        if !KeyPresent(values, v) {
          values := values + [v];
        }
      } else {
        assert FieldValues(data[..i + 1], field) == pre;
      }
    }
    assert data[..|data|] == data;
    return Ok(values);
  }

  /** `get_unique_values(data, field)`: builds the set, then sorts it. */
  method GetUniqueValues(data: seq<Fields>, field: string) returns (result: Result<seq<Value>, UniqueError>)
    ensures result == UniqueValues(data, field)
  {
    var values := CollectValues(data, field);
    if values.Err? {
      return Err(values.error);
    }
    if !AllComparable(values.value, KeyOf) {
      return Err(Unorderable);
    }
    result := Ok(SortBy(values.value, KeyOf, RankLess));
  }
}
