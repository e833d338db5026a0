/**
 * The GraphQL search resolver (src/server/gql/search_resolver.py): typed
 * filter inputs are flattened to the engine's filter entries, the request is
 * dispatched to keyword-only, filter-only or combined mode, and in combined
 * mode the keyword page is intersected with the filter page's ids, keeping
 * the keyword order.
 */
module SearchResolver {
  import opened Wrappers
  import opened Json
  import opened EsService

  /** `IntraFieldOperator` and `InterFieldOperator` (src/server/gql/types.py:31-40):
      both are the string enum AND/OR. */
  datatype Operator = AND | OR {
    function Value(): string {
      match this
      case AND => "AND"
      case OR => "OR"
    }
  }

  /** `FilterInput`: one field with typed value lists, any of them absent. */
  datatype FilterInput = FilterInput(
    field: string,
    stringValues: Option<seq<string>>,
    intValues: Option<seq<int>>,
    floatValues: Option<seq<Float>>,
    operator: Operator)

  /** `ScholarshipSource`: the five renamed fields of an engine document. */
  datatype ScholarshipSource = ScholarshipSource(
    name: Json, country: Json, startDate: Json, endDate: Json, amount: Json)

  /** `SearchHit` and `SearchResult` as the resolver returns them. */
  datatype SearchHit = SearchHit(id: string, score: real, source: Option<ScholarshipSource>)
  datatype SearchResult = SearchResult(total: int, items: seq<SearchHit>)

  /** The values of an optional list; an absent list and an empty one both give nothing. */
  function Listed<T>(o: Option<seq<T>>): seq<T> {
    if o.Some? then o.value else []
  }

  /** Each int rendered in decimal, in order. */
  function IntTexts(ns: seq<int>): (r: seq<string>)
    ensures |r| == |ns| && forall i :: 0 <= i < |ns| ==> r[i] == IntToString(ns[i])
  {
    seq(|ns|, i requires 0 <= i < |ns| => IntToString(ns[i]))
  }

  /** Each float's rendered text, in order. */
  function FloatTexts(fs: seq<Float>): (r: seq<string>)
    ensures |r| == |fs| && forall i :: 0 <= i < |fs| ==> r[i] == fs[i].text
  {
    seq(|fs|, i requires 0 <= i < |fs| => fs[i].text)
  }

  /** `_combine_values`: the string values, then the int values, then the float
      values, each as `str()` renders it, keeping the order within each group;
      an absent group and an empty one both contribute nothing. */
  function CombineValues(f: FilterInput): (vals: seq<string>)
    ensures vals == Listed(f.stringValues) + IntTexts(Listed(f.intValues)) + FloatTexts(Listed(f.floatValues))
  {
    var vals := [];
    var vals := if Filled(f.stringValues) then vals + f.stringValues.value else vals;
    var vals := if Filled(f.intValues) then vals + IntTexts(f.intValues.value) else vals;
    var vals := if Filled(f.floatValues) then vals + FloatTexts(f.floatValues.value) else vals;
    vals
  }

  /** Position by position: the strings first, then each int in decimal,
      then each float's text. */
  lemma CombineValuesPositions(f: FilterInput)
    ensures var vals, ss, ns, fs := CombineValues(f), Listed(f.stringValues), Listed(f.intValues), Listed(f.floatValues);
      && |vals| == |ss| + |ns| + |fs|
      && (forall i :: 0 <= i < |ss| ==> vals[i] == ss[i])
      && (forall i :: 0 <= i < |ns| ==> vals[|ss| + i] == IntToString(ns[i]))
      && (forall i :: 0 <= i < |fs| ==> vals[|ss| + |ns| + i] == fs[i].text)
  {
    var ss, ns, fs := Listed(f.stringValues), Listed(f.intValues), Listed(f.floatValues);
    var b, c := IntTexts(ns), FloatTexts(fs);
    var vals := CombineValues(f);
    assert vals == ss + b + c;
    assert |b| == |ns| && |c| == |fs|;
    CombinedIndexes(ss, b, c);
    forall i | 0 <= i < |ns| ensures vals[|ss| + i] == IntToString(ns[i]) {
      assert vals[|ss| + i] == b[i];
    }
    forall i | 0 <= i < |fs| ensures vals[|ss| + |ns| + i] == fs[i].text {
      assert vals[|ss| + |b| + i] == c[i];
    }
  }

  lemma CombinedIndexes(a: seq<string>, b: seq<string>, c: seq<string>)
    ensures forall i :: 0 <= i < |a| ==> (a + b + c)[i] == a[i]
    ensures forall i :: 0 <= i < |b| ==> (a + b + c)[|a| + i] == b[i]
    ensures forall i :: 0 <= i < |c| ==> (a + b + c)[|a| + |b| + i] == c[i]
  {
  }

  /** `filters_as_dicts`: one term entry per input, in input order. */
  function FiltersAsDicts(filters: Option<seq<FilterInput>>): (r: seq<Filter>)
    ensures |r| == |Listed(filters)|
    ensures forall i :: 0 <= i < |r| ==>
      r[i] == Terms(Listed(filters)[i].field, CombineValues(Listed(filters)[i]),
                    Some(Listed(filters)[i].operator.Value()))
    ensures AllTerms(r)
  {
    var fs := Listed(filters);
    seq(|fs|, i requires 0 <= i < |fs| => Terms(fs[i].field, CombineValues(fs[i]), Some(fs[i].operator.Value())))
  }

  /** `_to_scholarship_source`. */
  function ToScholarshipSource(src: Doc): ScholarshipSource {
    ScholarshipSource(
      Get(src, "Scholarship_Name"), Get(src, "Country"), Get(src, "Start_Date"),
      Get(src, "End_Date"), Get(src, "Funding_Level"))
  }

  /** The renamed source reads only Scholarship_Name, Country, Start_Date,
      End_Date and Funding_Level: setting any other key leaves it unchanged. */
  lemma SourceIgnoresOtherKeys(src: Doc, k: string, v: Json)
    requires k != "Scholarship_Name" && k != "Country" && k != "Start_Date"
    requires k != "End_Date" && k != "Funding_Level"
    ensures ToScholarshipSource(Put(src, k, v)) == ToScholarshipSource(src)
  {
    PutElsewhere(src, k, v, "Scholarship_Name");
    PutElsewhere(src, k, v, "Country");
    PutElsewhere(src, k, v, "Start_Date");
    PutElsewhere(src, k, v, "End_Date");
    PutElsewhere(src, k, v, "Funding_Level");
  }

  /** One engine item as a `SearchHit`: id and score copied, the source renamed
      only when the item carries a non-empty one. */
  function ToSearchHit(h: Hit): (r: SearchHit)
    ensures r.id == h.id && r.score == h.score
    ensures r.source.Some? <==> |h.source| > 0
    ensures r.source.Some? ==>
      && r.source.value.name == Get(h.source, "Scholarship_Name")
      && r.source.value.country == Get(h.source, "Country")
      && r.source.value.startDate == Get(h.source, "Start_Date")
      && r.source.value.endDate == Get(h.source, "End_Date")
      && r.source.value.amount == Get(h.source, "Funding_Level")
  {
    SearchHit(h.id, h.score, if |h.source| > 0 then Some(ToScholarshipSource(h.source)) else None)
  }

  /** A single-mode result: the engine total (the page's total) and every item
      converted, in engine order. */
  function SingleResult(p: Page): (r: SearchResult)
    ensures r.total == p.total
    ensures |r.items| == |p.items|
    ensures forall i :: 0 <= i < |p.items| ==> r.items[i] == ToSearchHit(p.items[i])
  {
    SearchResult(p.total, seq(|p.items|, i requires 0 <= i < |p.items| => ToSearchHit(p.items[i])))
  }

  // ----------------------------------------------------------------------
  // Mode dispatch (search_resolver.py:73, 95, 118-134)
  // ----------------------------------------------------------------------

  datatype Mode = KeywordOnly | FiltersOnly | Combined

  /** Keyword-only iff `q` is truthy and there is no filter; filter-only iff
      there are filters and `q` is falsy; combined otherwise, which includes
      the case where neither is given. */
  function Dispatch(q: Option<string>, dicts: seq<Filter>): (m: Mode)
    ensures m == KeywordOnly <==> Filled(q) && |dicts| == 0
    ensures m == FiltersOnly <==> !Filled(q) && |dicts| > 0
    ensures m == Combined <==> (Filled(q) <==> |dicts| > 0)
  {
    if Filled(q) && |dicts| == 0 then KeywordOnly
    else if |dicts| > 0 && !Filled(q) then FiltersOnly
    else Combined
  }

  // ----------------------------------------------------------------------
  // Fusion (search_resolver.py:136-146)
  // ----------------------------------------------------------------------

  /** `flt_ids`: the ids of a page's items. */
  function IdSet(items: seq<Hit>): set<string> {
    set i | 0 <= i < |items| :: items[i].id
  }

  /** The items of `kw` whose id is in `ids`, in `kw` order. */
  function KeepIds(kw: seq<Hit>, ids: set<string>): seq<Hit> {
    if |kw| == 0 then []
    else if kw[0].id in ids then [kw[0]] + KeepIds(kw[1..], ids)
    else KeepIds(kw[1..], ids)
  }

  /** The combined-mode result: keyword items that the filter page also
      found, in keyword order, with their keyword scores; the total is their count. */
  function Fuse(kw: Page, flt: Page): (r: SearchResult)
    ensures r.total == |r.items|
  {
    var merged := KeepIds(kw.items, IdSet(flt.items));
    SearchResult(|merged|, seq(|merged|, i requires 0 <= i < |merged| => ToSearchHit(merged[i])))
  }

  /** `a` is `b` with some elements left out, the rest in their order. */
  predicate IsSubsequence(a: seq<Hit>, b: seq<Hit>)
    decreases |b|
  {
    if |a| == 0 then true
    else if |b| == 0 then false
    else (a[0] == b[0] && IsSubsequence(a[1..], b[1..])) || IsSubsequence(a, b[1..])
  }

  /** Exactly the keyword items with a filter id, and no others. */
  lemma {:induction false} KeepIdsMembers(kw: seq<Hit>, ids: set<string>)
    ensures forall h :: h in KeepIds(kw, ids) <==> h in kw && h.id in ids
    ensures |KeepIds(kw, ids)| <= |kw|
  {
    if |kw| > 0 {
      KeepIdsMembers(kw[1..], ids);
      assert kw == [kw[0]] + kw[1..];
    }
  }

  /** The keyword order is kept: the fused list is a subsequence of the keyword list. */
  lemma {:induction false} KeepIdsKeepsOrder(kw: seq<Hit>, ids: set<string>)
    ensures IsSubsequence(KeepIds(kw, ids), kw)
    decreases |kw|
  {
    if |kw| > 0 {
      KeepIdsKeepsOrder(kw[1..], ids);
      var rest := KeepIds(kw[1..], ids);
      if kw[0].id in ids {
        assert ([kw[0]] + rest)[1..] == rest;
      } else {
        SubsequenceOfTail(rest, kw);
      }
    }
  }

  lemma {:induction false} SubsequenceOfTail(a: seq<Hit>, b: seq<Hit>)
    requires |b| > 0 && IsSubsequence(a, b[1..])
    ensures IsSubsequence(a, b)
  {
  }

  /** The fused items are the keyword items with a filter id, in keyword order;
      there are never more of them than keyword items, and none when the
      filter page is empty. */
  lemma FuseProperties(kw: Page, flt: Page)
    ensures var r := Fuse(kw, flt);
      var merged := KeepIds(kw.items, IdSet(flt.items));
      && |r.items| == |merged|
      && (forall i :: 0 <= i < |merged| ==> r.items[i] == ToSearchHit(merged[i]))
      && (forall h :: h in merged <==> h in kw.items && h.id in IdSet(flt.items))
      && IsSubsequence(merged, kw.items)
      && r.total <= |kw.items|
      && (|flt.items| == 0 ==> r.total == 0 && r.items == [])
  {
    var ids := IdSet(flt.items);
    KeepIdsMembers(kw.items, ids);
    KeepIdsKeepsOrder(kw.items, ids);
    if |flt.items| == 0 {
      assert ids == {};
      NothingKeptFromEmpty(kw.items);
    }
  }

  lemma {:induction false} NothingKeptFromEmpty(kw: seq<Hit>)
    ensures KeepIds(kw, {}) == []
  {
    if |kw| > 0 { NothingKeptFromEmpty(kw[1..]); }
  }

  /** No two items share an id. */
  predicate DistinctIds(items: seq<Hit>) {
    forall i, j :: 0 <= i < j < |items| ==> items[i].id != items[j].id
  }

  lemma IdSetCons(h: Hit, s: seq<Hit>)
    ensures IdSet([h] + s) == {h.id} + IdSet(s)
  {
    var t := [h] + s;
    assert t[0] == h;
    assert h.id in IdSet(t);
    forall x | x in IdSet(t) ensures x in {h.id} + IdSet(s) {
      var i :| 0 <= i < |t| && t[i].id == x;
      if i > 0 { assert s[i - 1] == t[i]; }
    }
    forall x | x in IdSet(s) ensures x in IdSet(t) {
      var i :| 0 <= i < |s| && s[i].id == x;
      assert t[i + 1] == s[i];
    }
  }

  lemma {:induction false} IdSetSize(items: seq<Hit>)
    ensures |IdSet(items)| <= |items|
    ensures DistinctIds(items) ==> |IdSet(items)| == |items|
  {
    if |items| > 0 {
      IdSetSize(items[1..]);
      assert IdSet(items) == {items[0].id} + IdSet(items[1..]);
      if DistinctIds(items) {
        assert DistinctIds(items[1..]);
        assert items[0].id !in IdSet(items[1..]);
      }
    }
  }

  lemma {:induction false} KeepIdsDistinct(kw: seq<Hit>, ids: set<string>)
    requires DistinctIds(kw)
    ensures DistinctIds(KeepIds(kw, ids))
    ensures IdSet(KeepIds(kw, ids)) <= ids
  {
    if |kw| > 0 {
      assert DistinctIds(kw[1..]);
      KeepIdsDistinct(kw[1..], ids);
      KeepIdsMembers(kw[1..], ids);
      var rest := KeepIds(kw[1..], ids);
      if kw[0].id in ids {
        forall h | h in rest ensures h.id != kw[0].id {
          var j :| 0 <= j < |kw[1..]| && kw[1..][j] == h;
          assert kw[j + 1] == h;
        }
        IdSetCons(kw[0], rest);
      }
    }
  }

  /** When the keyword page has no repeated id, the fused page is no longer
      than the filter page either. */
  lemma FuseBoundedByFilterPage(kw: Page, flt: Page)
    requires DistinctIds(kw.items)
    ensures Fuse(kw, flt).total <= |flt.items|
  {
    var ids := IdSet(flt.items);
    var merged := KeepIds(kw.items, ids);
    KeepIdsDistinct(kw.items, ids);
    IdSetSize(merged);
    IdSetSize(flt.items);
    SubsetSize(IdSet(merged), ids);
  }

  lemma SubsetSize(a: set<string>, b: set<string>)
    requires a <= b
    ensures |a| <= |b|
  {
    assert b == a + (b - a);
  }

  // ----------------------------------------------------------------------
  // search_es (search_resolver.py:32-146)
  // ----------------------------------------------------------------------

  /** `search_es` with the engine replies abstracted: a keyword-only or
      filter-only request returns that single search's result; any other
      request runs both searches and fuses them. */
  method SearchEs(collection: string, q: Option<string>, filters: Option<seq<FilterInput>>,
                  interOp: Operator, size: int, offset: int, engine: SearchRequest -> EngineReply)
    returns (r: SearchResult)
    ensures var dicts := FiltersAsDicts(filters);
      var scope := Some(collection);
      var mode := Dispatch(q, dicts);
      && (mode == KeywordOnly ==>
            r == SingleResult(SearchKeyword(q.value, collection, size, offset, scope, engine)))
      && (mode == FiltersOnly ==>
            r == SingleResult(FilterAdvancedResult(collection, dicts, scope, interOp.Value(), size, offset, engine).value))
      && (mode == Combined ==>
            r == Fuse(SearchKeyword(q.GetOr(""), collection, size, offset, scope, engine),
                      FilterAdvancedResult(collection, dicts, scope, interOp.Value(), size, offset, engine).value))
  {
    var dicts := FiltersAsDicts(filters);
    var scope := Some(collection);
    if Filled(q) && |dicts| == 0 {
      var result := SearchKeyword(q.value, collection, size, offset, scope, engine);
      return SingleResult(result);
    }
    if |dicts| > 0 && !Filled(q) {
      var result := FilterAdvanced(collection, dicts, scope, interOp.Value(), size, offset, engine);
      return SingleResult(result.value);
    }
    var kw := SearchKeyword(q.GetOr(""), collection, size, offset, scope, engine);
    var flt := FilterAdvanced(collection, dicts, scope, interOp.Value(), size, offset, engine);
    var fltIds := IdSet(flt.value.items);
    var merged := KeepIds(kw.items, fltIds);
    r := SearchResult(|merged|, seq(|merged|, i requires 0 <= i < |merged| => ToSearchHit(merged[i])));
  }
}
