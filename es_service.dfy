/**
 * The search-engine service layer (src/server/services/es_svc.py): the
 * catch-all text of a document, index payloads, and the two query builders
 * `search_keyword` and `filter_advanced` with their hit mapping.
 *
 * The engine client is abstract: a search is a function from the request the
 * code sends to the reply the engine returns, so "no search is issued" means
 * the result does not depend on that function.
 */
module EsService {
  import opened Wrappers
  import opened Json

  // ----------------------------------------------------------------------
  // Queries and replies
  // ----------------------------------------------------------------------

  /** One clause of a bool query: `{"match": {field: {...}}}` or `{"term": {field: value}}`. */
  datatype Clause =
    | Match(field: string, query: string, operator: string, fuzziness: Option<string>)
    | Term(field: string, value: string)

  /** `{"bool": {...}}`; an absent key is `None`. */
  datatype BoolQuery = BoolQuery(
    must: Option<seq<Clause>>,
    filter: Option<seq<Clause>>,
    should: Option<seq<Clause>>,
    minimumShouldMatch: Option<int>)

  const EmptyBool := BoolQuery(None, None, None, None)

  /** The arguments of one `client.search` call. */
  datatype SearchRequest = SearchRequest(index: string, query: BoolQuery, size: int, offset: int)

  /** One element of `res["hits"]["hits"]`. */
  datatype RawHit = RawHit(id: string, score: real, source: Doc)

  /** The part of a search reply the code reads: `hits.total.value` and `hits.hits`. */
  datatype EngineReply = EngineReply(total: int, hits: seq<RawHit>)

  /** `{"id", "score", "source"}` as handed to the resolvers. */
  datatype Hit = Hit(id: string, score: real, source: Doc)

  /** `{"total": ..., "items": [...]}`. */
  datatype Page = Page(total: int, items: seq<Hit>)

  const EmptyPage := Page(0, [])

  /** A bound of a range entry: a GPA floor or an ISO date string. */
  datatype Bound = NumberBound(x: Float) | TextBound(s: string)

  /** An entry of the filter list `filter_advanced` receives: a term entry
      `{field, values, operator?}` or a range entry `{field, mode: "range", min?, max?}`. */
  datatype Filter =
    | Terms(field: string, values: seq<string>, operator: Option<string>)
    | Range(field: string, min: Option<Bound>, max: Option<Bound>)

  /** Every entry carries a values list. */
  predicate AllTerms(filters: seq<Filter>) {
    forall i :: 0 <= i < |filters| ==> filters[i].Terms?
  }

  /** A term entry with operator "OR" for a non-empty list; nothing for a
      missing or empty one. */
  function ListFilter(field: string, values: Option<seq<string>>): seq<Filter> {
    if Filled(values) then [Terms(field, values.value, Some("OR"))] else []
  }

  /** The fields of `fs` strictly increase in `rank`: a fixed field order,
      no field twice. */
  predicate OrderedBy(fs: seq<Filter>, rank: string -> int) {
    forall i, j :: 0 <= i < j < |fs| ==> rank(fs[i].field) < rank(fs[j].field)
  }

  /** Ordered by `rank`, with every rank in `lo..hi`. */
  predicate Band(fs: seq<Filter>, lo: int, hi: int, rank: string -> int) {
    OrderedBy(fs, rank) && forall i :: 0 <= i < |fs| ==> lo <= rank(fs[i].field) <= hi
  }

  lemma BandConcat(a: seq<Filter>, b: seq<Filter>, lo: int, mid: int, hi: int, rank: string -> int)
    requires lo <= mid <= hi + 1
    requires Band(a, lo, mid - 1, rank) && Band(b, mid, hi, rank)
    ensures Band(a + b, lo, hi, rank)
  {
    var ab := a + b;
    forall i | 0 <= i < |ab| ensures lo <= rank(ab[i].field) <= hi {
      if i < |a| { assert ab[i] == a[i]; } else { assert ab[i] == b[i - |a|]; }
    }
    forall i, j | 0 <= i < j < |ab| ensures rank(ab[i].field) < rank(ab[j].field) {
      if j < |a| {
        assert ab[i] == a[i] && ab[j] == a[j];
      } else if i >= |a| {
        assert ab[i] == b[i - |a|] && ab[j] == b[j - |a|];
      } else {
        assert ab[i] == a[i] && ab[j] == b[j - |a|];
      }
    }
  }

  lemma ListFilterBand(field: string, values: Option<seq<string>>, rank: string -> int)
    ensures Band(ListFilter(field, values), rank(field), rank(field), rank)
  {
  }

  /** Every entry is an OR term entry with a non-empty values list. */
  predicate OrEntries(fs: seq<Filter>) {
    forall i :: 0 <= i < |fs| ==> fs[i].Terms? && fs[i].operator == Some("OR") && |fs[i].values| > 0
  }

  lemma OrEntriesConcat(a: seq<Filter>, b: seq<Filter>)
    requires OrEntries(a) && OrEntries(b)
    ensures OrEntries(a + b)
  {
    var ab := a + b;
    forall i | 0 <= i < |ab| ensures ab[i].Terms? && ab[i].operator == Some("OR") && |ab[i].values| > 0 {
      if i < |a| { assert ab[i] == a[i]; } else { assert ab[i] == b[i - |a|]; }
    }
  }

  lemma ListFilterOr(field: string, values: Option<seq<string>>)
    ensures OrEntries(ListFilter(field, values)) && |ListFilter(field, values)| <= 1
  {
  }

  /** Indexing into a three-part concatenation. */
  lemma PartOfThree(a: seq<Filter>, b: seq<Filter>, c: seq<Filter>, i: int)
    requires 0 <= i < |a| + |b| + |c|
    ensures (a + b + c)[i] == if i < |a| then a[i] else if i < |a| + |b| then b[i - |a|] else c[i - |a| - |b|]
  {
  }

  lemma ConcatAssoc3(a: seq<Filter>, b: seq<Filter>, c: seq<Filter>)
    ensures a + b + c == a + (b + c)
  {
  }

  lemma ConcatAssoc5(a: seq<Filter>, b: seq<Filter>, c: seq<Filter>, d: seq<Filter>, e: seq<Filter>)
    ensures a + b + c + d + e == a + (b + c + d + e)
    ensures a + b + c + d + e == a + (b + (c + (d + e)))
    ensures a + b + c + d + e == a + b + (c + (d + e))
    ensures a + b + c + d + e == a + b + c + (d + e)
  {
  }

  /** The entry for `field` is there iff its list is non-empty, and then it is
      the OR entry carrying that list. */
  predicate ListedAs(fs: seq<Filter>, field: string, values: Option<seq<string>>) {
    && ((exists i :: 0 <= i < |fs| && fs[i].field == field) <==> Filled(values))
    && (forall i :: 0 <= i < |fs| && fs[i].field == field ==>
          Filled(values) && fs[i] == Terms(field, values.value, Some("OR")))
  }

  /** A list entry placed between entries of lower and of higher rank is the
      only entry on its field. */
  lemma ListFilterEntry(fs: seq<Filter>, pre: seq<Filter>, field: string, values: Option<seq<string>>,
                        post: seq<Filter>, lo: int, hi: int, rank: string -> int)
    requires fs == pre + ListFilter(field, values) + post
    requires Band(pre, lo, rank(field) - 1, rank) && Band(post, rank(field) + 1, hi, rank)
    ensures ListedAs(fs, field, values)
  {
    var mid := ListFilter(field, values);
    forall i | 0 <= i < |fs| && fs[i].field == field
      ensures i == |pre| && Filled(values) && fs[i] == Terms(field, values.value, Some("OR"))
    {
      PartOfThree(pre, mid, post, i);
    }
    if Filled(values) {
      PartOfThree(pre, mid, post, |pre|);
      assert fs[|pre|].field == field;
    }
  }

  /** `KeyError: 'values'`, raised for an entry without a values list. */
  datatype FilterError = MissingValues(field: string)

  // ----------------------------------------------------------------------
  // Catch-all text (es_svc.py:30-45)
  // ----------------------------------------------------------------------

  /** Concatenation of a sequence of sequences, in order. */
  function Flatten(xss: seq<seq<string>>): seq<string> {
    if |xss| == 0 then [] else Flatten(xss[..|xss| - 1]) + xss[|xss| - 1]
  }

  /** The strings `walk` appends for a value: the `str()` form of every
      str/int/float/bool leaf, depth first through dict values and list elements. */
  function Leaves(x: Json): seq<string> {
    match x
    case JObject(fs) => Flatten(seq(|fs|, k requires 0 <= k < |fs| => Leaves(fs[k].1)))
    case JList(xs) => Flatten(seq(|xs|, k requires 0 <= k < |xs| => Leaves(xs[k])))
    case JNull => []
    case _ => [PyStr(x)]
  }

  /** The `__text` field of a document. */
  function CatchAllText(doc: Doc): string {
    Join(" ", Leaves(JObject(doc)))
  }

  lemma {:induction false} FlattenAppend(a: seq<seq<string>>, b: seq<seq<string>>)
    ensures Flatten(a + b) == Flatten(a) + Flatten(b)
    decreases |b|
  {
    if |b| == 0 {
      assert a + b == a;
    } else {
      assert (a + b)[..|a + b| - 1] == a + b[..|b| - 1];
      FlattenAppend(a, b[..|b| - 1]);
    }
  }

  lemma FlattenStep(parts: seq<seq<string>>, i: int)
    requires 0 <= i < |parts|
    ensures Flatten(parts[..i + 1]) == Flatten(parts[..i]) + parts[i]
  {
    assert parts[..i + 1][..i] == parts[..i];
  }

  lemma AppendAssoc(a: seq<string>, b: seq<string>, c: seq<string>)
    ensures a + b + c == a + (b + c)
  {
  }

  /** The walk of a list is the walks of its two halves, one after the other. */
  lemma LeavesOfListConcat(a: seq<Json>, b: seq<Json>)
    ensures Leaves(JList(a + b)) == Leaves(JList(a)) + Leaves(JList(b))
  {
    var la := seq(|a|, k requires 0 <= k < |a| => Leaves(a[k]));
    var lb := seq(|b|, k requires 0 <= k < |b| => Leaves(b[k]));
    var ab := a + b;
    assert seq(|ab|, k requires 0 <= k < |ab| => Leaves(ab[k])) == la + lb;
    FlattenAppend(la, lb);
  }

  /** A `None` element contributes nothing, wherever it stands. */
  lemma NullContributesNothing(a: seq<Json>, b: seq<Json>)
    ensures Leaves(JList(a + [JNull] + b)) == Leaves(JList(a + b))
  {
    LeavesOfListConcat(a + [JNull], b);
    LeavesOfListConcat(a, [JNull]);
    LeavesOfListConcat(a, b);
    LeavesOfNull();
    assert Leaves(JList(a + [JNull])) == Leaves(JList(a));
  }

  lemma LeavesOfNull()
    ensures Leaves(JList([JNull])) == []
  {
    var one := [JNull];
    assert seq(|one|, k requires 0 <= k < |one| => Leaves(one[k])) == [[]];
    assert Flatten([[]]) == Flatten([]) + [];
  }

  /** Keys never reach the text: a dict is walked like the list of its values. */
  lemma LeavesOfObjectAreLeavesOfValues(fs: Doc)
    ensures Leaves(JObject(fs)) == Leaves(JList(seq(|fs|, k requires 0 <= k < |fs| => fs[k].1)))
  {
    var vs := seq(|fs|, k requires 0 <= k < |fs| => fs[k].1);
    assert seq(|fs|, k requires 0 <= k < |fs| => Leaves(fs[k].1))
        == seq(|vs|, k requires 0 <= k < |vs| => Leaves(vs[k]));
  }

  /** `walk(x)`: appends the leaves of `x` to the shared list `vals`. */
  method Walk(x: Json, vals: seq<string>) returns (out: seq<string>)
    ensures out == vals + Leaves(x)
    decreases x, 1
  {
    if x.JObject? {
      out := WalkValues(x, vals);
    } else if x.JList? {
      out := WalkItems(x, vals);
    } else if x.JNull? {
      out := vals;
    } else {
      out := vals + [PyStr(x)];
    }
  }

  /** The loop over a dict's values, walking each in turn. */
  method WalkValues(x: Json, vals: seq<string>) returns (out: seq<string>)
    requires x.JObject?
    ensures out == vals + Leaves(x)
    decreases x, 0
  {
    var fs := x.fields;
    ghost var parts := seq(|fs|, k requires 0 <= k < |fs| => Leaves(fs[k].1));
    out := vals;
    var i := 0;
    while i < |fs|
      invariant 0 <= i <= |fs|
      invariant out == vals + Flatten(parts[..i])
    {
      FlattenStep(parts, i);
      ghost var before := out;
      out := Walk(fs[i].1, out);
      assert out == before + parts[i];
      AppendAssoc(vals, Flatten(parts[..i]), parts[i]);
      i := i + 1;
    }
    assert parts[..|fs|] == parts;
  }

  /** The loop over a list's elements, walking each in turn. */
  method WalkItems(x: Json, vals: seq<string>) returns (out: seq<string>)
    requires x.JList?
    ensures out == vals + Leaves(x)
    decreases x, 0
  {
    var xs := x.items;
    ghost var parts := seq(|xs|, k requires 0 <= k < |xs| => Leaves(xs[k]));
    out := vals;
    var i := 0;
    while i < |xs|
      invariant 0 <= i <= |xs|
      invariant out == vals + Flatten(parts[..i])
    {
      FlattenStep(parts, i);
      ghost var before := out;
      out := Walk(xs[i], out);
      assert out == before + parts[i];
      AppendAssoc(vals, Flatten(parts[..i]), parts[i]);
      i := i + 1;
    }
    assert parts[..|xs|] == parts;
  }

  /** `_catch_all(doc)`: the leaves of the document joined by single spaces. */
  method CatchAll(doc: Doc) returns (text: string)
    ensures text == Join(" ", Leaves(JObject(doc)))
  {
    var vals := Walk(JObject(doc), []);
    assert vals == Leaves(JObject(doc));
    text := Join(" ", vals);
  }

  // ----------------------------------------------------------------------
  // Index payloads (es_svc.py:48-91)
  // ----------------------------------------------------------------------

  /** One bulk action: `{"_op_type", "_index", "_id", "_source"}`. */
  datatype IndexAction = IndexAction(opType: string, index: string, id: Json, source: Doc)

  /** A copy of the document with its catch-all text under `__text`, then the
      collection stored under `collection` when one is given. */
  function Payload(doc: Doc, collection: Option<string>): Doc {
    Stamp(doc, CatchAllText(doc), collection)
  }

  /** The document with `text` stored under `__text`, then `collection` when given. */
  function Stamp(doc: Doc, text: string, collection: Option<string>): Doc {
    var src := Put(doc, "__text", JStr(text));
    if Filled(collection) then Put(src, "collection", JStr(collection.value)) else src
  }

  /** The document's `id` when truthy, otherwise its `doc_id`. */
  function DocId(doc: Doc): Json {
    var id := Get(doc, "id");
    if Truthy(id) then id else Get(doc, "doc_id")
  }

  /** What a payload holds: the catch-all text of the ORIGINAL document, the
      collection when one is given, every other field unchanged, and the
      document's own keys first, in their order. */
  lemma PayloadFields(doc: Doc, collection: Option<string>)
    ensures Get(Payload(doc, collection), "__text") == JStr(CatchAllText(doc))
    ensures Get(Payload(doc, collection), "collection")
         == if Filled(collection) then JStr(collection.value) else Get(doc, "collection")
    ensures forall k :: k != "__text" && k != "collection" ==> Get(Payload(doc, collection), k) == Get(doc, k)
    ensures Keys(doc) <= Keys(Payload(doc, collection))
  {
    var text := CatchAllText(doc);
    StampText(doc, text, collection);
    StampCollection(doc, text, collection);
    StampOtherFields(doc, text, collection);
    StampKeepsKeys(doc, text, collection);
  }

  lemma StampText(doc: Doc, text: string, collection: Option<string>)
    ensures Get(Stamp(doc, text, collection), "__text") == JStr(text)
  {
    var src := Put(doc, "__text", JStr(text));
    if Filled(collection) {
      TextIsNotCollection();
      PutElsewhere(src, "collection", JStr(collection.value), "__text");
    }
  }

  lemma StampCollection(doc: Doc, text: string, collection: Option<string>)
    ensures Get(Stamp(doc, text, collection), "collection")
         == if Filled(collection) then JStr(collection.value) else Get(doc, "collection")
  {
    TextIsNotCollection();
    PutElsewhere(doc, "__text", JStr(text), "collection");
  }

  lemma TextIsNotCollection()
    ensures "__text" != "collection"
  {
    assert |"__text"| != |"collection"|;
  }

  lemma StampOtherFields(doc: Doc, text: string, collection: Option<string>)
    ensures forall k :: k != "__text" && k != "collection" ==> Get(Stamp(doc, text, collection), k) == Get(doc, k)
  {
  }

  lemma StampKeepsKeys(doc: Doc, text: string, collection: Option<string>)
    ensures Keys(doc) <= Keys(Stamp(doc, text, collection))
  {
    var src := Put(doc, "__text", JStr(text));
    PutKeepsKeys(doc, "__text", JStr(text));
    if Filled(collection) {
      PutKeepsKeys(src, "collection", JStr(collection.value));
    }
  }

  lemma PutElsewhere(d: Doc, k: string, v: Json, other: string)
    requires other != k
    ensures Get(Put(d, k, v), other) == Get(d, other)
  {
  }

  lemma PutKeepsKeys(d: Doc, k: string, v: Json)
    ensures Keys(d) <= Keys(Put(d, k, v))
  {
  }

  /** The payload both indexing paths build: a copy of the document, its
      catch-all text stored under `__text`, then the collection when given. */
  method BuildPayload(doc: Doc, collection: Option<string>) returns (payload: Doc)
    ensures payload == Payload(doc, collection)
  {
    payload := doc;
    var text := CatchAll(payload);
    payload := Put(payload, "__text", JStr(text));
    if Filled(collection) {
      payload := Put(payload, "collection", JStr(collection.value));
    }
  }

  /** `index_one`'s payload and id: the explicit id wins, then `id`, then `doc_id`. */
  method IndexOne(doc: Doc, index: string, id: Option<string>, collection: Option<string>)
    returns (payload: Doc, esId: Json)
    ensures payload == Payload(doc, collection)
    ensures esId == if Filled(id) then JStr(id.value)
                    else if Truthy(Get(doc, "id")) then Get(doc, "id")
                    else Get(doc, "doc_id")
  {
    payload := BuildPayload(doc, collection);
    esId := if Filled(id) then JStr(id.value) else DocId(doc);
  }

  /** The bulk action `index_many` yields for one document: its payload
      under its own id. */
  function ActionFor(d: Doc, index: string, collection: Option<string>): IndexAction
  {
    IndexAction("index", index, DocId(d), Payload(d, collection))
  }

  /** One action of `index_many`. */
  method BuildAction(d: Doc, index: string, collection: Option<string>) returns (a: IndexAction)
    ensures a == ActionFor(d, index, collection)
  {
    var src := BuildPayload(d, collection);
    a := IndexAction("index", index, DocId(d), src);
  }

  lemma AppendAction(actions: seq<IndexAction>, docs: seq<Doc>, a: IndexAction,
                     index: string, collection: Option<string>)
    requires |actions| < |docs|
    requires forall j :: 0 <= j < |actions| ==> actions[j] == ActionFor(docs[j], index, collection)
    requires a == ActionFor(docs[|actions|], index, collection)
    ensures forall j :: 0 <= j <= |actions| ==> (actions + [a])[j] == ActionFor(docs[j], index, collection)
  {
    forall j | 0 <= j <= |actions|
      ensures (actions + [a])[j] == ActionFor(docs[j], index, collection)
    {
      if j < |actions| {
        assert (actions + [a])[j] == actions[j];
      }
    }
  }

  /** The actions `index_many`'s generator yields: one per document, in order. */
  method IndexMany(docs: seq<Doc>, index: string, collection: Option<string>)
    returns (actions: seq<IndexAction>)
    ensures |actions| == |docs|
    ensures forall i :: 0 <= i < |docs| ==> actions[i] == ActionFor(docs[i], index, collection)
  {
    actions := [];
    var i := 0;
    while i < |docs|
      invariant 0 <= i <= |docs|
      invariant |actions| == i
      invariant forall j :: 0 <= j < i ==> actions[j] == ActionFor(docs[j], index, collection)
    {
      var a := BuildAction(docs[i], index, collection);
      AppendAction(actions, docs, a, index, collection);
      actions := actions + [a];
      i := i + 1;
    }
  }

  // ----------------------------------------------------------------------
  // Hit mapping (es_svc.py:125-129, 190-194)
  // ----------------------------------------------------------------------

  /** The page built from a reply: the engine's total, and each hit's id, score
      and source in engine order. */
  function ToPage(reply: EngineReply): (p: Page)
    ensures p.total == reply.total
    ensures |p.items| == |reply.hits|
    ensures forall i :: 0 <= i < |reply.hits| ==>
      p.items[i].id == reply.hits[i].id && p.items[i].score == reply.hits[i].score
      && p.items[i].source == reply.hits[i].source
  {
    Page(reply.total, seq(|reply.hits|, i requires 0 <= i < |reply.hits| =>
      Hit(reply.hits[i].id, reply.hits[i].score, reply.hits[i].source)))
  }

  // ----------------------------------------------------------------------
  // Keyword search (es_svc.py:94-129)
  // ----------------------------------------------------------------------

  /** The keyword query: a fuzzy `or` match of `q` on `__text`, then the
      collection term when a collection is given. */
  function KeywordQuery(q: string, collection: Option<string>): (r: BoolQuery)
    ensures r.filter.None? && r.should.None? && r.minimumShouldMatch.None? && r.must.Some?
    ensures |r.must.value| == if Filled(collection) then 2 else 1
    ensures r.must.value[0] == Match("__text", q, "or", Some("AUTO"))
    ensures Filled(collection) ==> r.must.value[1] == Term("collection", collection.value)
  {
    var must := [Match("__text", q, "or", Some("AUTO"))];
    var must := if Filled(collection) then must + [Term("collection", collection.value)] else must;
    BoolQuery(Some(must), None, None, None)
  }

  /** `search_keyword`: always exactly one search, whose reply is mapped to a page. */
  function SearchKeyword(q: string, index: string, size: int, offset: int,
                         collection: Option<string>, engine: SearchRequest -> EngineReply): (p: Page)
    ensures var reply := engine(SearchRequest(index, KeywordQuery(q, collection), size, offset));
      && p.total == reply.total
      && |p.items| == |reply.hits|
      && forall i :: 0 <= i < |reply.hits| ==>
           p.items[i] == Hit(reply.hits[i].id, reply.hits[i].score, reply.hits[i].source)
  {
    ToPage(engine(SearchRequest(index, KeywordQuery(q, collection), size, offset)))
  }

  /** The page depends on the engine only through its reply to the one
      keyword request, sent with the caller's index, size and offset. */
  lemma SearchKeywordOneRequest(q: string, index: string, size: int, offset: int, collection: Option<string>,
                                e1: SearchRequest -> EngineReply, e2: SearchRequest -> EngineReply)
    requires e1(SearchRequest(index, KeywordQuery(q, collection), size, offset))
          == e2(SearchRequest(index, KeywordQuery(q, collection), size, offset))
    ensures SearchKeyword(q, index, size, offset, collection, e1) == SearchKeyword(q, index, size, offset, collection, e2)
  {
  }

  // ----------------------------------------------------------------------
  // Advanced filter search (es_svc.py:131-194)
  // ----------------------------------------------------------------------

  /** The match clause built for one term entry. */
  function MatchClause(field: string, values: seq<string>, operator: Option<string>): Clause {
    Match(field, Join(" ", values), Lower(operator.GetOr("OR")), None)
  }

  /** The position of the first range entry, `|filters|` when there is none. */
  function FirstRange(filters: seq<Filter>): (k: nat)
    ensures k <= |filters|
    ensures forall j :: 0 <= j < k ==> filters[j].Terms?
    ensures k < |filters| ==> filters[k].Range?
  {
    if |filters| == 0 || filters[0].Range? then 0 else 1 + FirstRange(filters[1..])
  }

  /** The clause list of `filter_advanced`'s loop: one match clause per entry,
      in order, or the `KeyError` the first range entry raises. */
  function CompileFilters(filters: seq<Filter>): (r: Result<seq<Clause>, FilterError>)
    ensures r.Err? <==> FirstRange(filters) < |filters|
    ensures r.Err? ==> r.error == MissingValues(filters[FirstRange(filters)].field)
    ensures r.Ok? ==> |r.value| == |filters| && forall i :: 0 <= i < |filters| ==>
      r.value[i] == MatchClause(filters[i].field, filters[i].values, filters[i].operator)
  {
    if |filters| == 0 then Ok([])
    else match filters[0]
      case Range(field, _, _) => Err(MissingValues(field))
      case Terms(field, values, operator) =>
        match CompileFilters(filters[1..])
        case Err(e) => Err(e)
        case Ok(cs) => Ok([MatchClause(field, values, operator)] + cs)
  }

  /** `query_body` after the clauses and the collection term are placed, or
      None when the bool body stays empty and no search is issued. */
  function AdvancedQuery(clauses: seq<Clause>, collection: Option<string>, interOp: string)
    : (r: Option<BoolQuery>)
    ensures r.None? <==> |clauses| == 0 && !Filled(collection)
    ensures r.Some? ==> r.value.must.None?
    ensures r.Some? && |clauses| > 0 && interOp == "AND" ==>
      r.value.should.None? && r.value.minimumShouldMatch.None? && r.value.filter.Some?
      && |r.value.filter.value| == |clauses| + (if Filled(collection) then 1 else 0)
      && r.value.filter.value[..|clauses|] == clauses
    ensures r.Some? && |clauses| > 0 && interOp != "AND" ==>
      r.value.should == Some(clauses) && r.value.minimumShouldMatch == Some(1)
      && r.value.filter == (if Filled(collection) then Some([Term("collection", collection.value)]) else None)
    ensures r.Some? && |clauses| == 0 ==>
      r.value == BoolQuery(None, Some([Term("collection", collection.value)]), None, None)
    ensures r.Some? && Filled(collection) ==>
      r.value.filter.Some? && |r.value.filter.value| > 0
      && r.value.filter.value[|r.value.filter.value| - 1] == Term("collection", collection.value)
  {
    var term := Term("collection", collection.GetOr(""));
    if |clauses| == 0 then
      if Filled(collection) then Some(BoolQuery(None, Some([term]), None, None)) else None
    else if interOp == "AND" then
      Some(BoolQuery(None, Some(if Filled(collection) then clauses + [term] else clauses), None, None))
    else
      Some(BoolQuery(None, if Filled(collection) then Some([term]) else None, Some(clauses), Some(1)))
  }

  /** What `filter_advanced` returns. */
  function FilterAdvancedResult(index: string, filters: seq<Filter>, collection: Option<string>,
                                interOp: string, size: int, offset: int,
                                engine: SearchRequest -> EngineReply): (r: Result<Page, FilterError>)
    ensures AllTerms(filters) ==> r.Ok?
  {
    match CompileFilters(filters)
    case Err(e) => Err(e)
    case Ok(clauses) =>
      match AdvancedQuery(clauses, collection, interOp)
      case None => Ok(EmptyPage)
      case Some(q) => Ok(ToPage(engine(SearchRequest(index, q, size, offset))))
  }

  /** The outcomes of `filter_advanced`: a range entry raises; no clause and no
      collection gives the empty page without a search; otherwise the engine's
      page for the compiled query. Term entries alone never raise. */
  lemma FilterAdvancedOutcomes(index: string, filters: seq<Filter>, collection: Option<string>,
                               interOp: string, size: int, offset: int,
                               engine: SearchRequest -> EngineReply)
    ensures var r := FilterAdvancedResult(index, filters, collection, interOp, size, offset, engine);
      && (r.Err? <==> exists i :: 0 <= i < |filters| && filters[i].Range?)
      && (|filters| == 0 && !Filled(collection) ==> r == Ok(EmptyPage))
      && (r.Ok? && (|filters| > 0 || Filled(collection)) ==>
            r.value == ToPage(engine(SearchRequest(index,
              AdvancedQuery(CompileFilters(filters).value, collection, interOp).value, size, offset))))
  {
    var k := FirstRange(filters);
    if k < |filters| {
      assert filters[k].Range?;
    }
  }

  /** `filter_advanced`: builds the clauses in a loop, places them, and issues
      the search unless the bool body is empty. */
  method FilterAdvanced(index: string, filters: seq<Filter>, collection: Option<string>,
                        interOp: string, size: int, offset: int,
                        engine: SearchRequest -> EngineReply)
    returns (r: Result<Page, FilterError>)
    ensures r == FilterAdvancedResult(index, filters, collection, interOp, size, offset, engine)
  {
    var clauses: seq<Clause> := [];
    var i := 0;
    while i < |filters|
      invariant 0 <= i <= |filters|
      invariant |clauses| == i
      invariant forall j :: 0 <= j < i ==> filters[j].Terms?
      invariant forall j :: 0 <= j < i ==>
        clauses[j] == MatchClause(filters[j].field, filters[j].values, filters[j].operator)
    {
      var f := filters[i];
      if f.Range? {
        assert FirstRange(filters) == i;
        return Err(MissingValues(f.field));
      }
      var intraOperator := Lower(f.operator.GetOr("OR"));
      var queryText := Join(" ", f.values);
      clauses := clauses + [Match(f.field, queryText, intraOperator, None)];
      i := i + 1;
    }
    assert FirstRange(filters) == |filters|;
    assert clauses == CompileFilters(filters).value;

    var body := EmptyBool;
    if |clauses| > 0 {
      if interOp == "AND" {
        body := body.(filter := Some(clauses));
      } else {
        body := body.(should := Some(clauses), minimumShouldMatch := Some(1));
      }
    }
    if Filled(collection) {
      var existing := if body.filter.Some? then body.filter.value else [];
      assert body.filter.None? ==> existing + [Term("collection", collection.value)] == [Term("collection", collection.value)];
      body := body.(filter := Some(existing + [Term("collection", collection.value)]));
    }
    ghost var compiled := AdvancedQuery(clauses, collection, interOp);
    assert compiled.Some? ==> body == compiled.value;
    assert compiled.None? <==> body == EmptyBool;
    if body == EmptyBool {
      return Ok(EmptyPage);
    }
    var reply := engine(SearchRequest(index, body, size, offset));
    r := Ok(ToPage(reply));
  }
}
