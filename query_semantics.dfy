/**
 * What a compiled filter query selects.  The engine is abstract, so a
 * document is described only by which leaf clauses it satisfies (`m`); the
 * bool query then means what the search engine's bool query means: every
 * `must` and `filter` clause holds, and at least `minimum_should_match` of the
 * `should` clauses hold (1 by default when `should` stands alone, 0 otherwise).
 *
 * On top of that reading this module proves the combination rules of
 * `filter_advanced` (src/server/services/es_svc.py:161-176): AND requires every
 * criterion, OR requires one, the collection term is required in both modes,
 * and the two monotonicity rules, with the cases where they do not hold.
 */
module QuerySemantics {
  import opened Wrappers
  import opened Json
  import opened EsService

  /** How many of the clauses the document satisfies. */
  function CountHolding(cs: seq<Clause>, m: Clause -> bool): nat {
    if |cs| == 0 then 0 else (if m(cs[0]) then 1 else 0) + CountHolding(cs[1..], m)
  }

  predicate AllHold(cs: seq<Clause>, m: Clause -> bool) {
    forall i :: 0 <= i < |cs| ==> m(cs[i])
  }

  function MinimumShouldMatch(q: BoolQuery): int {
    if q.minimumShouldMatch.Some? then q.minimumShouldMatch.value
    else if |q.should.GetOr([])| > 0 && |q.must.GetOr([])| == 0 && |q.filter.GetOr([])| == 0 then 1
    else 0
  }

  /** The document satisfies the bool query. */
  predicate Holds(q: BoolQuery, m: Clause -> bool) {
    && AllHold(q.must.GetOr([]), m)
    && AllHold(q.filter.GetOr([]), m)
    && CountHolding(q.should.GetOr([]), m) >= MinimumShouldMatch(q)
  }

  /** `filter_advanced` can return the document: the entries compile, a search
      is issued, and the document satisfies the compiled query. */
  predicate Selects(filters: seq<Filter>, collection: Option<string>, interOp: string, m: Clause -> bool) {
    var cs := CompileFilters(filters);
    && cs.Ok?
    && var q := AdvancedQuery(cs.value, collection, interOp);
    && q.Some?
    && Holds(q.value, m)
  }

  /** The document satisfies the criterion of entry `i`. */
  predicate Satisfies(f: Filter, m: Clause -> bool)
    requires f.Terms?
  {
    m(MatchClause(f.field, f.values, f.operator))
  }

  predicate InCollection(collection: Option<string>, m: Clause -> bool) {
    Filled(collection) ==> m(Term("collection", collection.value))
  }

  lemma {:induction false} CountPositive(cs: seq<Clause>, m: Clause -> bool)
    ensures CountHolding(cs, m) >= 1 <==> exists i :: 0 <= i < |cs| && m(cs[i])
  {
    if |cs| > 0 {
      CountPositive(cs[1..], m);
      if m(cs[0]) {
      } else {
        assert (exists i :: 0 <= i < |cs| && m(cs[i])) <==> (exists i :: 0 <= i < |cs[1..]| && m(cs[1..][i]));
      }
    }
  }

  lemma AllHoldConcat(a: seq<Clause>, b: seq<Clause>, m: Clause -> bool)
    ensures AllHold(a + b, m) <==> AllHold(a, m) && AllHold(b, m)
  {
    if AllHold(a, m) && AllHold(b, m) {
      forall i | 0 <= i < |a + b| ensures m((a + b)[i]) {
        if i >= |a| { assert (a + b)[i] == b[i - |a|]; }
      }
    }
    if AllHold(a + b, m) {
      forall i | 0 <= i < |a| ensures m(a[i]) { assert a[i] == (a + b)[i]; }
      forall i | 0 <= i < |b| ensures m(b[i]) { assert b[i] == (a + b)[|a| + i]; }
    }
  }

  /** Inter-field AND: a document is selected iff it satisfies every criterion
      and lies in the collection. */
  lemma AndMeaning(filters: seq<Filter>, collection: Option<string>, m: Clause -> bool)
    requires AllTerms(filters) && |filters| > 0
    ensures Selects(filters, collection, "AND", m)
        <==> (forall i :: 0 <= i < |filters| ==> Satisfies(filters[i], m)) && InCollection(collection, m)
  {
    assert FirstRange(filters) == |filters|;
    var cs := CompileFilters(filters).value;
    var q := AdvancedQuery(cs, collection, "AND").value;
    var fl := q.filter.value;
    if Filled(collection) {
      assert fl == cs + [Term("collection", collection.value)];
      AllHoldConcat(cs, [Term("collection", collection.value)], m);
    } else {
      assert fl == cs;
    }
    assert AllHold(cs, m) <==> forall i :: 0 <= i < |filters| ==> Satisfies(filters[i], m);
  }

  /** Inter-field OR (any operator but "AND"): a document is selected iff it
      satisfies at least one criterion and lies in the collection. */
  lemma OrMeaning(filters: seq<Filter>, collection: Option<string>, interOp: string, m: Clause -> bool)
    requires AllTerms(filters) && |filters| > 0 && interOp != "AND"
    ensures Selects(filters, collection, interOp, m)
        <==> (exists i :: 0 <= i < |filters| && Satisfies(filters[i], m)) && InCollection(collection, m)
  {
    assert FirstRange(filters) == |filters|;
    var cs := CompileFilters(filters).value;
    var q := AdvancedQuery(cs, collection, interOp).value;
    var fl := q.filter.GetOr([]);
    assert AllHold(fl, m) <==> InCollection(collection, m) by {
      if Filled(collection) { assert fl == [Term("collection", collection.value)]; } else { assert fl == []; }
    }
    assert Holds(q, m) <==> CountHolding(cs, m) >= 1 && AllHold(fl, m);
    CountPositive(cs, m);
    SomeClauseHolds(filters, cs, m);
  }

  /** A compiled clause holds iff the criterion it comes from is satisfied. */
  lemma SomeClauseHolds(filters: seq<Filter>, cs: seq<Clause>, m: Clause -> bool)
    requires AllTerms(filters) && CompileFilters(filters) == Ok(cs)
    ensures (exists i :: 0 <= i < |cs| && m(cs[i])) <==> exists i :: 0 <= i < |filters| && Satisfies(filters[i], m)
  {
    if exists i :: 0 <= i < |cs| && m(cs[i]) {
      var i :| 0 <= i < |cs| && m(cs[i]);
      assert Satisfies(filters[i], m);
    }
    if exists i :: 0 <= i < |filters| && Satisfies(filters[i], m) {
      var i :| 0 <= i < |filters| && Satisfies(filters[i], m);
      assert m(cs[i]);
    }
  }

  /** The collection term is required whatever the inter-field operator. */
  lemma CollectionAlwaysRequired(filters: seq<Filter>, collection: Option<string>, interOp: string, m: Clause -> bool)
    requires Selects(filters, collection, interOp, m)
    ensures InCollection(collection, m)
  {
    if Filled(collection) {
      var q := AdvancedQuery(CompileFilters(filters).value, collection, interOp).value;
      var fl := q.filter.value;
      assert m(fl[|fl| - 1]);
    }
  }

  /** With no entries and no collection nothing is ever selected: the empty
      page, never "match everything". */
  lemma NothingWithoutCriteria(collection: Option<string>, interOp: string, m: Clause -> bool)
    requires !Filled(collection)
    ensures !Selects([], collection, interOp, m)
  {
  }

  /** AND monotonicity: dropping one criterion never loses a document, as long
      as a search is still issued afterwards. */
  lemma AndRemovalKeepsSelection(filters: seq<Filter>, i: nat, collection: Option<string>, m: Clause -> bool)
    requires AllTerms(filters) && i < |filters|
    requires |filters| >= 2 || Filled(collection)
    requires Selects(filters, collection, "AND", m)
    ensures Selects(filters[..i] + filters[i + 1..], collection, "AND", m)
  {
    var rest := filters[..i] + filters[i + 1..];
    AndMeaning(filters, collection, m);
    RemovalKeepsEntries(filters, i);
    if |rest| > 0 {
      AndMeaning(rest, collection, m);
    } else {
      assert rest == [];
      var q := AdvancedQuery([], collection, "AND").value;
      assert q.filter.value == [Term("collection", collection.value)];
    }
  }

  /** Dropping entry `i` leaves the other entries, in order. */
  lemma RemovalKeepsEntries(filters: seq<Filter>, i: nat)
    requires i < |filters|
    ensures var rest := filters[..i] + filters[i + 1..];
      && |rest| == |filters| - 1
      && (forall j :: 0 <= j < i ==> rest[j] == filters[j])
      && (forall j :: i <= j < |rest| ==> rest[j] == filters[j + 1])
  {
  }

  /** Dropping the only criterion without a collection leaves nothing to
      search: the monotonicity above needs its second precondition. */
  lemma AndRemovingLastCriterionEmpties(f: Filter, collection: Option<string>, m: Clause -> bool)
    requires f.Terms? && !Filled(collection) && Satisfies(f, m)
    ensures Selects([f], collection, "AND", m)
    ensures !Selects([f][..0] + [f][1..], collection, "AND", m)
  {
    AndMeaning([f], collection, m);
    assert [f][..0] + [f][1..] == [];
  }

  /** OR monotonicity: adding a criterion anywhere never loses a document,
      once there is at least one criterion. */
  lemma OrAdditionKeepsSelection(filters: seq<Filter>, i: nat, f: Filter, collection: Option<string>,
                                 interOp: string, m: Clause -> bool)
    requires AllTerms(filters) && f.Terms? && i <= |filters| && |filters| > 0 && interOp != "AND"
    requires Selects(filters, collection, interOp, m)
    ensures Selects(filters[..i] + [f] + filters[i..], collection, interOp, m)
  {
    var more := filters[..i] + [f] + filters[i..];
    OrMeaning(filters, collection, interOp, m);
    OrMeaning(more, collection, interOp, m);
    var j :| 0 <= j < |filters| && Satisfies(filters[j], m);
    if j < i {
      assert more[j] == filters[j];
    } else {
      assert more[j + 1] == filters[j];
    }
  }

  /** The first criterion can narrow an OR search: with a collection and no
      entries every document of the collection is selected, with one entry
      only those satisfying it. */
  lemma OrFirstCriterionCanNarrow()
    ensures var f := Terms("Country", ["X"], Some("OR"));
            var inScopeOnly := (c: Clause) => c.Term?;
            Selects([], Some("s"), "OR", inScopeOnly) && !Selects([f], Some("s"), "OR", inScopeOnly)
  {
    var f := Terms("Country", ["X"], Some("OR"));
    var inScopeOnly := (c: Clause) => c.Term?;
    OrMeaning([f], Some("s"), "OR", inScopeOnly);
  }
}
