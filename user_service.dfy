/**
 * The REST recommendation path (src/server/services/user_svc.py): a stored
 * user profile becomes a filter list of desired-* preferences, and the filter
 * search runs with inter-field OR unless that list is empty.
 */
module UserService {
  import opened Wrappers
  import opened Json
  import opened EsService

  /** `UserProfile` (src/server/dtos/user_dtos.py:7-39). Dates are kept as
      their text, floats as `Float`. */
  datatype UserProfile = UserProfile(
    uid: string,
    email: string,
    displayName: Option<string>,
    name: Option<string>,
    gender: Option<string>,
    birthDate: Option<string>,
    gpaRange4: Option<Float>,
    desiredScholarshipType: Option<seq<string>>,
    desiredCountries: Option<seq<string>>,
    desiredFundingLevel: Option<seq<string>>,
    desiredApplicationMode: Option<seq<string>>,
    desiredApplicationMonth: Option<int>,
    desiredFieldOfStudy: Option<seq<string>>,
    degree: Option<string>,
    fieldOfStudy: Option<string>,
    languageCertificates: Option<string>,
    academicCertificates: Option<string>,
    academicAwards: Option<string>,
    publications: Option<string>,
    yearsOfExperience: Option<Float>,
    totalWorkingHours: Option<Float>,
    notes: Option<string>,
    tags: Option<seq<string>>,
    specialThings: Option<string>)

  predicate Distinct(xs: seq<string>) {
    forall i, j :: 0 <= i < j < |xs| ==> xs[i] != xs[j]
  }

  /** The entries for the four list preferences, in the source's order. */
  function DesiredFilters(u: UserProfile): seq<Filter> {
    ListFilter("Country", u.desiredCountries)
    + ListFilter("Scholarship_Type", u.desiredScholarshipType)
    + ListFilter("Funding_Level", u.desiredFundingLevel)
    + ListFilter("Application_Mode", u.desiredApplicationMode)
  }

  /** The fields of study the Eligible_Fields entry offers: the desired ones
      and the profile's own, when it has one. */
  function FieldsOfStudy(u: UserProfile): set<string> {
    (if u.desiredFieldOfStudy.Some? then set x | x in u.desiredFieldOfStudy.value else {})
    + (if Filled(u.fieldOfStudy) then {u.fieldOfStudy.value} else {})
  }

  /** The Eligible_Fields entry: an OR entry whose values list each field of
      study once, in some order. */
  ghost predicate EligibleFieldsEntry(u: UserProfile, e: Filter) {
    && e.Terms? && e.field == "Eligible_Fields" && e.operator == Some("OR")
    && Distinct(e.values)
    && forall x :: x in e.values <==> x in FieldsOfStudy(u)
  }

  /** `fs` is a list `map_profile_to_filters` can return for `u`: the desired
      entries, then the Eligible_Fields entry iff there is a field of study. */
  ghost predicate MapsProfile(u: UserProfile, fs: seq<Filter>) {
    var pre := DesiredFilters(u);
    if FieldsOfStudy(u) == {} then fs == pre
    else |fs| == |pre| + 1 && fs[..|pre|] == pre && EligibleFieldsEntry(u, fs[|pre|])
  }

  /** `list(s)` for a Python set: its elements, each once, in iteration order. */
  method ListOfSet(s: set<string>) returns (xs: seq<string>)
    ensures Distinct(xs)
    ensures forall x :: x in xs <==> x in s
  {
    xs := [];
    var rest := s;
    while rest != {}
      invariant Distinct(xs)
      invariant forall x :: x in s <==> x in xs || x in rest
      invariant forall x :: x in xs ==> x !in rest
      decreases |rest|
    {
      var x :| x in rest;
      xs := xs + [x];
      rest := rest - {x};
    }
  }

  /** `map_profile_to_filters`. */
  method MapProfileToFilters(u: UserProfile) returns (filters: seq<Filter>)
    ensures MapsProfile(u, filters)
  {
    filters := [];
    if Filled(u.desiredCountries) {
      filters := filters + [Terms("Country", u.desiredCountries.value, Some("OR"))];
    }
    ghost var s0 := filters;
    assert s0 == ListFilter("Country", u.desiredCountries);
    if Filled(u.desiredScholarshipType) {
      filters := filters + [Terms("Scholarship_Type", u.desiredScholarshipType.value, Some("OR"))];
    }
    ghost var s1 := filters;
    assert s1 == s0 + ListFilter("Scholarship_Type", u.desiredScholarshipType);
    if Filled(u.desiredFundingLevel) {
      filters := filters + [Terms("Funding_Level", u.desiredFundingLevel.value, Some("OR"))];
    }
    ghost var s2 := filters;
    assert s2 == s1 + ListFilter("Funding_Level", u.desiredFundingLevel);
    if Filled(u.desiredApplicationMode) {
      filters := filters + [Terms("Application_Mode", u.desiredApplicationMode.value, Some("OR"))];
    }
    DesiredFiltersSteps(u, s0, s1, s2, filters);
    ghost var pre := filters;
    var fieldsEntry := EligibleFieldsStep(u);
    filters := filters + fieldsEntry;
    assert filters[..|pre|] == pre;
  }

  /** The field-of-study part of `map_profile_to_filters`: the desired fields
      of study as a set, the profile's own added when missing, or the
      profile's own alone when nothing is desired. */
  method EligibleFieldsStep(u: UserProfile) returns (entry: seq<Filter>)
    ensures FieldsOfStudy(u) == {} ==> entry == []
    ensures FieldsOfStudy(u) != {} ==> |entry| == 1 && EligibleFieldsEntry(u, entry[0])
  {
    entry := [];
    if Filled(u.desiredFieldOfStudy) {
      var combinedFields := set x | x in u.desiredFieldOfStudy.value;
      if Filled(u.fieldOfStudy) && u.fieldOfStudy.value !in combinedFields {
        combinedFields := combinedFields + {u.fieldOfStudy.value};
      }
      assert combinedFields == FieldsOfStudy(u);
      if combinedFields != {} {
        var values := ListOfSet(combinedFields);
        entry := [Terms("Eligible_Fields", values, Some("OR"))];
      }
    } else if Filled(u.fieldOfStudy) {
      entry := [Terms("Eligible_Fields", [u.fieldOfStudy.value], Some("OR"))];
      assert FieldsOfStudy(u) == {u.fieldOfStudy.value} by {
        if u.desiredFieldOfStudy.Some? {
          assert u.desiredFieldOfStudy.value == [];
        }
      }
    } else {
      assert FieldsOfStudy(u) == {} by {
        if u.desiredFieldOfStudy.Some? {
          assert u.desiredFieldOfStudy.value == [];
        }
      }
    }
  }

  /** The appends of `MapProfileToFilters`, step by step, build `DesiredFilters`. */
  lemma DesiredFiltersSteps(u: UserProfile, s0: seq<Filter>, s1: seq<Filter>, s2: seq<Filter>, s3: seq<Filter>)
    requires s0 == ListFilter("Country", u.desiredCountries)
    requires s1 == s0 + ListFilter("Scholarship_Type", u.desiredScholarshipType)
    requires s2 == s1 + ListFilter("Funding_Level", u.desiredFundingLevel)
    requires s3 == s2 + ListFilter("Application_Mode", u.desiredApplicationMode)
    ensures s3 == DesiredFilters(u)
  {
  }

  /** The order the source emits fields in. */
  const FieldOrder := ["Country", "Scholarship_Type", "Funding_Level", "Application_Mode", "Eligible_Fields"]

  function FieldRank(field: string): int {
    if field == "Country" then 0
    else if field == "Scholarship_Type" then 1
    else if field == "Funding_Level" then 2
    else if field == "Application_Mode" then 3
    else if field == "Eligible_Fields" then 4
    else 5
  }

  /** The desired entries: at most four OR entries with values, in the order
      Country, Scholarship_Type, Funding_Level, Application_Mode. */
  lemma DesiredBand(u: UserProfile)
    ensures Band(DesiredFilters(u), 0, 3, FieldRank)
    ensures OrEntries(DesiredFilters(u)) && |DesiredFilters(u)| <= 4
  {
    var s0 := ListFilter("Country", u.desiredCountries);
    var s1 := ListFilter("Scholarship_Type", u.desiredScholarshipType);
    var s2 := ListFilter("Funding_Level", u.desiredFundingLevel);
    var s3 := ListFilter("Application_Mode", u.desiredApplicationMode);
    ListFilterBand("Country", u.desiredCountries, FieldRank);
    ListFilterBand("Scholarship_Type", u.desiredScholarshipType, FieldRank);
    ListFilterBand("Funding_Level", u.desiredFundingLevel, FieldRank);
    ListFilterBand("Application_Mode", u.desiredApplicationMode, FieldRank);
    BandConcat(s0, s1, 0, 1, 1, FieldRank);
    BandConcat(s0 + s1, s2, 0, 2, 2, FieldRank);
    BandConcat(s0 + s1 + s2, s3, 0, 3, 3, FieldRank);
    ListFilterOr("Country", u.desiredCountries);
    ListFilterOr("Scholarship_Type", u.desiredScholarshipType);
    ListFilterOr("Funding_Level", u.desiredFundingLevel);
    ListFilterOr("Application_Mode", u.desiredApplicationMode);
    OrEntriesConcat(s0, s1);
    OrEntriesConcat(s0 + s1, s2);
    OrEntriesConcat(s0 + s1 + s2, s3);
  }

  /** Whatever order the set yields: the fields come out in the order
      Country, Scholarship_Type, Funding_Level, Application_Mode,
      Eligible_Fields, none twice, so there are at most five entries; every
      entry is an OR term entry with a non-empty values list. */
  lemma UserFiltersInFixedOrder(u: UserProfile, fs: seq<Filter>)
    requires MapsProfile(u, fs)
    ensures Band(fs, 0, 4, FieldRank)
    ensures |fs| <= 5
    ensures OrEntries(fs) && AllTerms(fs)
  {
    var pre := DesiredFilters(u);
    DesiredBand(u);
    if FieldsOfStudy(u) != {} {
      var e := fs[|pre|];
      assert fs == pre + [e];
      var x :| x in FieldsOfStudy(u);
      assert x in e.values;
      assert Band([e], 4, 4, FieldRank);
      BandConcat(pre, [e], 0, 4, 4, FieldRank);
      OrEntriesConcat(pre, [e]);
    }
  }

  /** Each desired entry is there iff its profile list is non-empty, and it
      then carries that list with operator OR. */
  lemma DesiredEntries(u: UserProfile, fs: seq<Filter>)
    requires MapsProfile(u, fs)
    ensures ListedAs(fs, "Country", u.desiredCountries)
    ensures ListedAs(fs, "Scholarship_Type", u.desiredScholarshipType)
    ensures ListedAs(fs, "Funding_Level", u.desiredFundingLevel)
    ensures ListedAs(fs, "Application_Mode", u.desiredApplicationMode)
  {
    var tail := FieldsTail(u, fs);
    DesiredRanks();
    CountryEntry(u, fs, tail);
    TypeEntry(u, fs, tail);
    FundingEntry(u, fs, tail);
    ModeEntry(u, fs, tail);
  }

  lemma DesiredRanks()
    ensures FieldRank("Country") == 0 && FieldRank("Scholarship_Type") == 1
    ensures FieldRank("Funding_Level") == 2 && FieldRank("Application_Mode") == 3
  {
  }

  lemma CountryEntry(u: UserProfile, fs: seq<Filter>, tail: seq<Filter>)
    requires fs == DesiredFilters(u) + tail && Band(tail, 4, 4, FieldRank)
    ensures ListedAs(fs, "Country", u.desiredCountries)
  {
    var s0 := ListFilter("Country", u.desiredCountries);
    var s1 := ListFilter("Scholarship_Type", u.desiredScholarshipType);
    var s2 := ListFilter("Funding_Level", u.desiredFundingLevel);
    var s3 := ListFilter("Application_Mode", u.desiredApplicationMode);
    DesiredRanks();
    ListFilterBand("Scholarship_Type", u.desiredScholarshipType, FieldRank);
    ListFilterBand("Funding_Level", u.desiredFundingLevel, FieldRank);
    ListFilterBand("Application_Mode", u.desiredApplicationMode, FieldRank);
    BandConcat(s3, tail, 3, 4, 4, FieldRank);
    BandConcat(s2, s3 + tail, 2, 3, 4, FieldRank);
    BandConcat(s1, s2 + (s3 + tail), 1, 2, 4, FieldRank);
    ConcatAssoc5(s0, s1, s2, s3, tail);
    assert fs == s0 + (s1 + (s2 + (s3 + tail)));
    assert s0 == [] + s0;
    ListFilterEntry(fs, [], "Country", u.desiredCountries, s1 + (s2 + (s3 + tail)), 0, 4, FieldRank);
  }

  lemma TypeEntry(u: UserProfile, fs: seq<Filter>, tail: seq<Filter>)
    requires fs == DesiredFilters(u) + tail && Band(tail, 4, 4, FieldRank)
    ensures ListedAs(fs, "Scholarship_Type", u.desiredScholarshipType)
  {
    var s0 := ListFilter("Country", u.desiredCountries);
    var s1 := ListFilter("Scholarship_Type", u.desiredScholarshipType);
    var s2 := ListFilter("Funding_Level", u.desiredFundingLevel);
    var s3 := ListFilter("Application_Mode", u.desiredApplicationMode);
    DesiredRanks();
    ListFilterBand("Country", u.desiredCountries, FieldRank);
    ListFilterBand("Funding_Level", u.desiredFundingLevel, FieldRank);
    ListFilterBand("Application_Mode", u.desiredApplicationMode, FieldRank);
    BandConcat(s3, tail, 3, 4, 4, FieldRank);
    BandConcat(s2, s3 + tail, 2, 3, 4, FieldRank);
    ConcatAssoc5(s0, s1, s2, s3, tail);
    assert fs == s0 + s1 + (s2 + (s3 + tail));
    ListFilterEntry(fs, s0, "Scholarship_Type", u.desiredScholarshipType, s2 + (s3 + tail), 0, 4, FieldRank);
  }

  lemma FundingEntry(u: UserProfile, fs: seq<Filter>, tail: seq<Filter>)
    requires fs == DesiredFilters(u) + tail && Band(tail, 4, 4, FieldRank)
    ensures ListedAs(fs, "Funding_Level", u.desiredFundingLevel)
  {
    var s0 := ListFilter("Country", u.desiredCountries);
    var s1 := ListFilter("Scholarship_Type", u.desiredScholarshipType);
    var s2 := ListFilter("Funding_Level", u.desiredFundingLevel);
    var s3 := ListFilter("Application_Mode", u.desiredApplicationMode);
    DesiredRanks();
    ListFilterBand("Country", u.desiredCountries, FieldRank);
    ListFilterBand("Scholarship_Type", u.desiredScholarshipType, FieldRank);
    ListFilterBand("Application_Mode", u.desiredApplicationMode, FieldRank);
    BandConcat(s0, s1, 0, 1, 1, FieldRank);
    BandConcat(s3, tail, 3, 4, 4, FieldRank);
    ConcatAssoc5(s0, s1, s2, s3, tail);
    assert fs == (s0 + s1) + s2 + (s3 + tail);
    ListFilterEntry(fs, s0 + s1, "Funding_Level", u.desiredFundingLevel, s3 + tail, 0, 4, FieldRank);
  }

  lemma ModeEntry(u: UserProfile, fs: seq<Filter>, tail: seq<Filter>)
    requires fs == DesiredFilters(u) + tail && Band(tail, 4, 4, FieldRank)
    ensures ListedAs(fs, "Application_Mode", u.desiredApplicationMode)
  {
    var s0 := ListFilter("Country", u.desiredCountries);
    var s1 := ListFilter("Scholarship_Type", u.desiredScholarshipType);
    var s2 := ListFilter("Funding_Level", u.desiredFundingLevel);
    DesiredRanks();
    ListFilterBand("Country", u.desiredCountries, FieldRank);
    ListFilterBand("Scholarship_Type", u.desiredScholarshipType, FieldRank);
    ListFilterBand("Funding_Level", u.desiredFundingLevel, FieldRank);
    BandConcat(s0, s1, 0, 1, 1, FieldRank);
    BandConcat(s0 + s1, s2, 0, 2, 2, FieldRank);
    ListFilterEntry(fs, s0 + s1 + s2, "Application_Mode", u.desiredApplicationMode, tail, 0, 4, FieldRank);
  }

  /** What follows the desired entries: nothing, or the Eligible_Fields entry. */
  lemma FieldsTail(u: UserProfile, fs: seq<Filter>) returns (tail: seq<Filter>)
    requires MapsProfile(u, fs)
    ensures fs == DesiredFilters(u) + tail
    ensures Band(tail, 4, 4, FieldRank)
  {
    var pre := DesiredFilters(u);
    tail := fs[|pre|..];
    assert fs == fs[..|pre|] + tail;
  }

  /** Every entry's field is one of the five the mapping knows. */
  lemma UserFieldsListed(u: UserProfile, fs: seq<Filter>)
    requires MapsProfile(u, fs)
    ensures forall i :: 0 <= i < |fs| ==> fs[i].field in FieldOrder
  {
    UserFiltersInFixedOrder(u, fs);
    forall i | 0 <= i < |fs| ensures fs[i].field in FieldOrder {
      assert fs[i].field == FieldOrder[FieldRank(fs[i].field)];
    }
  }

  /** Degree and GPA never produce an entry: two profiles that differ only
      there map to the same lists. */
  lemma DegreeAndGpaIgnored(u: UserProfile, degree: Option<string>, gpa: Option<Float>, fs: seq<Filter>)
    ensures MapsProfile(u, fs) <==> MapsProfile(u.(degree := degree, gpaRange4 := gpa), fs)
  {
    var v := u.(degree := degree, gpaRange4 := gpa);
    assert DesiredFilters(v) == DesiredFilters(u);
    assert FieldsOfStudy(v) == FieldsOfStudy(u);
  }

  /** Without desired fields of study, a field of study alone yields the
      single-valued entry `[field_of_study]`. */
  lemma FieldOfStudyAlone(u: UserProfile, fs: seq<Filter>)
    requires MapsProfile(u, fs) && !Filled(u.desiredFieldOfStudy) && Filled(u.fieldOfStudy)
    ensures fs == DesiredFilters(u) + [Terms("Eligible_Fields", [u.fieldOfStudy.value], Some("OR"))]
  {
    var pre := DesiredFilters(u);
    assert FieldsOfStudy(u) == {u.fieldOfStudy.value} by {
      if u.desiredFieldOfStudy.Some? {
        assert u.desiredFieldOfStudy.value == [];
      }
    }
    var e := fs[|pre|];
    var vs := e.values;
    assert fs == pre + [e];
    assert (set y | y in vs) == {u.fieldOfStudy.value};
    DistinctCardinality(vs);
    assert vs[0] == u.fieldOfStudy.value;
    assert vs == [vs[0]];
  }

  /** A list without repeats has as many elements as its set. */
  lemma {:induction false} DistinctCardinality(xs: seq<string>)
    requires Distinct(xs)
    ensures |set x | x in xs| == |xs|
  {
    if |xs| > 0 {
      var tail := xs[1..];
      assert Distinct(tail);
      DistinctCardinality(tail);
      assert (set x | x in xs) == {xs[0]} + (set x | x in tail);
      assert xs[0] !in (set x | x in tail);
    }
  }

  /** `find_matching_scholarships_for_profile` with the engine abstracted:
      the empty page without a search when no entry comes out, otherwise the
      inter-field OR filter search, unchanged. */
  method FindMatchingScholarshipsForProfile(u: UserProfile, index: string, collection: string,
                                            size: int, offset: int, engine: SearchRequest -> EngineReply)
    returns (r: Result<Page, FilterError>, ghost filters: seq<Filter>)
    ensures MapsProfile(u, filters)
    ensures |filters| == 0 ==> r == Ok(EmptyPage)
    ensures |filters| > 0 ==> r == FilterAdvancedResult(index, filters, Some(collection), "OR", size, offset, engine)
  {
    var fs := MapProfileToFilters(u);
    filters := fs;
    if |fs| == 0 {
      return Ok(EmptyPage), filters;
    }
    r := FilterAdvanced(index, fs, Some(collection), "OR", size, offset, engine);
  }

  /** The REST path never fails: its entries are all term entries. */
  lemma RestSearchNeverFails(u: UserProfile, fs: seq<Filter>, index: string, collection: string,
                             size: int, offset: int, engine: SearchRequest -> EngineReply)
    requires MapsProfile(u, fs)
    ensures FilterAdvancedResult(index, fs, Some(collection), "OR", size, offset, engine).Ok?
  {
    UserFiltersInFixedOrder(u, fs);
  }

  /** No entry comes out exactly when the profile has no list preference and
      no field of study. */
  lemma EmptyFiltersIff(u: UserProfile, fs: seq<Filter>)
    requires MapsProfile(u, fs)
    ensures |fs| == 0 <==>
      !Filled(u.desiredCountries) && !Filled(u.desiredScholarshipType) && !Filled(u.desiredFundingLevel)
      && !Filled(u.desiredApplicationMode) && !Filled(u.desiredFieldOfStudy) && !Filled(u.fieldOfStudy)
  {
    if Filled(u.desiredFieldOfStudy) {
      assert u.desiredFieldOfStudy.value[0] in FieldsOfStudy(u);
    }
    if !Filled(u.desiredFieldOfStudy) && !Filled(u.fieldOfStudy) {
      assert FieldsOfStudy(u) == {} by {
        if u.desiredFieldOfStudy.Some? {
          assert u.desiredFieldOfStudy.value == [];
        }
      }
    }
  }
}
