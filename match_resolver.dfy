/**
 * The GraphQL recommendation resolver (src/server/gql/match_resolver.py): a
 * profile becomes a filter list, the filter search runs with inter-field OR,
 * the hits are rehydrated by one batch lookup, and every item gets its match
 * explanation and summary fields; the page carries its pagination flags.
 *
 * The engine is abstract: `engine` answers searches and `mget` answers the
 * batch lookup (or fails).
 */
module MatchResolver {
  import opened Wrappers
  import opened Json
  import opened EsService
  import SearchResolver

  /** `UserProfileInput` (src/server/gql/types.py:71-82). It declares no
      `desired_countries`, so `getattr(profile, "desired_countries", None)` is
      always None for it. */
  datatype ProfileInput = ProfileInput(
    gpaRange4: Option<Float>,
    degree: Option<string>,
    fieldOfStudy: Option<string>,
    desiredScholarshipType: Option<seq<string>>,
    desiredFundingLevel: Option<seq<string>>,
    desiredApplicationMode: Option<seq<string>>,
    deadlineAfter: Option<string>,
    deadlineBefore: Option<string>)

  /** `_to_summary_fields`: the four summary values of a source. */
  datatype Summary = Summary(name: Json, startDate: Json, endDate: Json, amount: Json)

  /** `MatchItem`, with its four `summary_*` fields grouped. */
  datatype MatchItem = MatchItem(
    id: string, esScore: real, matchScore: real, matchedFields: seq<string>, summary: Summary)

  /** `MatchResult`. */
  datatype MatchResult = MatchResult(
    total: int, items: seq<MatchItem>, hasNextPage: bool, nextOffset: Option<int>,
    warnings: Option<seq<string>>)

  /** The batch lookup: its request and what the client gives back. */
  datatype MgetRequest = MgetRequest(index: string, ids: seq<string>)
  datatype MgetDoc = MgetDoc(found: bool, id: string, source: Option<Doc>)
  datatype MgetReply = MgetFailed | MgetDocs(docs: seq<MgetDoc>)

  const Collection := "scholarships"
  const BatchWarning := "Unable to batch load sources; using inline ES sources when available."

  function ToSummaryFields(src: Doc): Summary {
    Summary(Get(src, "Scholarship_Name"), Get(src, "Start_Date"), Get(src, "End_Date"), Get(src, "Funding_Level"))
  }

  /** The summary reads only Scholarship_Name, Start_Date, End_Date and
      Funding_Level: setting any other key leaves it unchanged. */
  lemma SummaryIgnoresOtherKeys(src: Doc, k: string, v: Json)
    requires k != "Scholarship_Name" && k != "Start_Date" && k != "End_Date" && k != "Funding_Level"
    ensures ToSummaryFields(Put(src, k, v)) == ToSummaryFields(src)
  {
    PutElsewhere(src, k, v, "Scholarship_Name");
    PutElsewhere(src, k, v, "Start_Date");
    PutElsewhere(src, k, v, "End_Date");
    PutElsewhere(src, k, v, "Funding_Level");
  }

  /** The summary reads the same document keys as the search resolver's
      `ScholarshipSource`, without the country. */
  lemma SummaryAgreesWithSearchSource(src: Doc)
    ensures var s, t := ToSummaryFields(src), SearchResolver.ToScholarshipSource(src);
      s.name == t.name && s.startDate == t.startDate && s.endDate == t.endDate && s.amount == t.amount
  {
  }

  // ----------------------------------------------------------------------
  // Match explanation (match_resolver.py:38-84)
  // ----------------------------------------------------------------------

  const GpaKeys := ["Min_GPA", "Minimum_GPA", "GPA"]
  const GpaMet := "gpa_requirement_met"
  const GpaBelow := "gpa_below_requirement"

  function FieldOfStudyToken(x: string): string {
    "field_of_study_match:" + x
  }

  /** The degree token; the `;required_degree=` part is there iff the
      source's `required_degree` is truthy. */
  function DegreeToken(degree: string, required: Json): string {
    if Truthy(required)
    then "degree_match:profile=" + degree + ";required_degree=" + PyStr(required)
    else "degree_match:profile=" + degree
  }

  /** The first truthy value among Degree, Eligible_Degree and required_degree,
      or the last of them when none is truthy. */
  function DegreeCandidates(src: Doc): Json {
    var a := Get(src, "Degree");
    var b := Get(src, "Eligible_Degree");
    var c := Get(src, "required_degree");
    if Truthy(a) then a else if Truthy(b) then b else c
  }

  /** Membership for a list, equality for a string, nothing for anything else. */
  predicate DegreeMatches(degree: string, candidates: Json) {
    match candidates
    case JList(xs) => JStr(degree) in xs
    case JStr(s) => degree == s
    case _ => false
  }

  /** The degree token starts with `degree_match:profile=<degree>` and is
      exactly that when the source's `required_degree` is falsy. */
  lemma DegreeTokenShape(degree: string, required: Json)
    ensures var t, p := DegreeToken(degree, required), "degree_match:profile=" + degree;
      && |p| <= |t| && t[..|p|] == p
      && (t == p <==> !Truthy(required))
  {
    var t, p := DegreeToken(degree, required), "degree_match:profile=" + degree;
    if Truthy(required) {
      var rest := ";required_degree=" + PyStr(required);
      assert t == p + rest;
      assert |t| > |p|;
    }
  }

  /** The `or` chain: the candidates are truthy iff one of the three keys
      holds a truthy value, and then they are the first such value. */
  lemma DegreeCandidatesFirstTruthy(src: Doc)
    ensures var a, b, c, r := Get(src, "Degree"), Get(src, "Eligible_Degree"), Get(src, "required_degree"), DegreeCandidates(src);
      && (Truthy(r) <==> Truthy(a) || Truthy(b) || Truthy(c))
      && (Truthy(a) ==> r == a)
      && (!Truthy(a) && Truthy(b) ==> r == b)
      && (!Truthy(a) && !Truthy(b) ==> r == c)
  {
  }

  /** A degree matches a list that holds it as a string, or that very string;
      numbers, dicts, None and other text never match. */
  lemma DegreeMatchesKinds(degree: string, candidates: Json)
    ensures DegreeMatches(degree, candidates) <==>
      (candidates.JList? && exists i :: 0 <= i < |candidates.items| && candidates.items[i] == JStr(degree))
      || candidates == JStr(degree)
  {
  }

  /** Key `i` is the first of `keys` whose value in `src` is numeric. */
  predicate FirstNumericAt(src: Doc, keys: seq<string>, i: int) {
    && 0 <= i < |keys|
    && IsNumber(Get(src, keys[i]))
    && forall j :: 0 <= j < i ==> !IsNumber(Get(src, keys[j]))
  }

  /** The value of the first key whose value is numeric, if any. */
  function FirstNumber(src: Doc, keys: seq<string>): (r: Option<real>)
    ensures r.None? <==> forall i :: 0 <= i < |keys| ==> !IsNumber(Get(src, keys[i]))
    ensures r.Some? ==> exists i :: FirstNumericAt(src, keys, i) && r.value == NumberValue(Get(src, keys[i]))
  {
    if |keys| == 0 then None
    else
      var v := Get(src, keys[0]);
      if IsNumber(v) then Some(NumberValue(v))
      else
        var r := FirstNumber(src, keys[1..]);
        assert forall i :: 1 <= i < |keys| ==> keys[i] == keys[1..][i - 1];
        r
  }

  function FieldOfStudyReasons(p: ProfileInput): seq<string> {
    if Filled(p.fieldOfStudy) then [FieldOfStudyToken(p.fieldOfStudy.value)] else []
  }

  function DegreeReasons(p: ProfileInput, src: Doc): seq<string> {
    if Filled(p.degree) && DegreeMatches(p.degree.value, DegreeCandidates(src))
    then [DegreeToken(p.degree.value, Get(src, "required_degree"))]
    else []
  }

  function GpaReasons(p: ProfileInput, src: Doc): seq<string> {
    if p.gpaRange4.None? then []
    else match FirstNumber(src, GpaKeys)
      case None => []
      case Some(floor) => if p.gpaRange4.value.value >= floor then [GpaMet] else [GpaBelow]
  }

  /** The reasons `_build_matched_fields` explains a match with. */
  function MatchedFields(profile: Option<ProfileInput>, src: Doc): seq<string> {
    if profile.None? then []
    else FieldOfStudyReasons(profile.value) + DegreeReasons(profile.value, src) + GpaReasons(profile.value, src)
  }

  /** Without a profile there is nothing to explain and nothing to filter on. */
  lemma NoProfileGivesNothing(src: Doc)
    ensures MatchedFields(None, src) == [] && ProfileFilters(None) == []
  {
  }

  /** The check a token reports on: 0 field of study, 1 degree, 2 GPA. */
  function ReasonKind(t: string): int {
    if "field_of_study_match:" <= t then 0 else if "degree_match:" <= t then 1 else 2
  }

  lemma TokenKinds(x: string, d: string, req: Json)
    ensures ReasonKind(FieldOfStudyToken(x)) == 0
    ensures ReasonKind(DegreeToken(d, req)) == 1
    ensures ReasonKind(GpaMet) == 2 && ReasonKind(GpaBelow) == 2
  {
    var t := DegreeToken(d, req);
    assert t[..13] == "degree_match:";
    assert t[0] == 'd';
    assert FieldOfStudyToken(x)[..21] == "field_of_study_match:";
  }

  /** The token at position `i` reports the field of study while the
      field-of-study part lasts, then the degree, then the GPA. */
  lemma {:induction false} ReasonKindAt(p: ProfileInput, src: Doc, i: int)
    requires 0 <= i < |MatchedFields(Some(p), src)|
    ensures var a, b := FieldOfStudyReasons(p), DegreeReasons(p, src);
      ReasonKind(MatchedFields(Some(p), src)[i]) == if i < |a| then 0 else if i < |a| + |b| then 1 else 2
  {
    TokenKinds(p.fieldOfStudy.GetOr(""), p.degree.GetOr(""), Get(src, "required_degree"));
    var a, b, c := FieldOfStudyReasons(p), DegreeReasons(p, src), GpaReasons(p, src);
    var r := a + b + c;
    assert r == MatchedFields(Some(p), src);
    if i < |a| {
      assert r[i] == a[i];
    } else if i < |a| + |b| {
      assert r[i] == b[i - |a|];
    } else {
      assert r[i] == c[i - |a| - |b|];
    }
  }

  /** Tokens come in the fixed order field of study, degree, GPA, at most one
      of each. */
  lemma ReasonsInFixedOrder(profile: Option<ProfileInput>, src: Doc)
    ensures var r := MatchedFields(profile, src);
      |r| <= 3 && forall i, j :: 0 <= i < j < |r| ==> ReasonKind(r[i]) < ReasonKind(r[j])
  {
    if profile.Some? {
      var r := MatchedFields(profile, src);
      forall i, j | 0 <= i < j < |r| ensures ReasonKind(r[i]) < ReasonKind(r[j]) {
        ReasonKindAt(profile.value, src, i);
        ReasonKindAt(profile.value, src, j);
      }
    }
  }

  /** The field-of-study token comes first whenever the profile has a field
      of study, whatever the source holds; otherwise no such token appears. */
  lemma FieldOfStudyTokenIgnoresSource(p: ProfileInput, src: Doc)
    ensures var r := MatchedFields(Some(p), src);
      && (Filled(p.fieldOfStudy) ==> |r| > 0 && r[0] == FieldOfStudyToken(p.fieldOfStudy.value))
      && (!Filled(p.fieldOfStudy) ==> forall i :: 0 <= i < |r| ==> ReasonKind(r[i]) != 0)
  {
    var r := MatchedFields(Some(p), src);
    forall i | 0 <= i < |r| ensures !Filled(p.fieldOfStudy) ==> ReasonKind(r[i]) != 0 {
      ReasonKindAt(p, src, i);
    }
  }

  /** A degree token appears iff the profile degree is in (list) or equal to
      (string) the first truthy of Degree / Eligible_Degree / required_degree;
      it then carries the required degree iff that field is truthy. */
  lemma DegreeTokenRule(p: ProfileInput, src: Doc)
    ensures var r := MatchedFields(Some(p), src);
      && ((exists i :: 0 <= i < |r| && ReasonKind(r[i]) == 1)
          <==> Filled(p.degree) && DegreeMatches(p.degree.value, DegreeCandidates(src)))
      && (forall i :: 0 <= i < |r| && ReasonKind(r[i]) == 1 ==>
            r[i] == DegreeToken(p.degree.value, Get(src, "required_degree")))
  {
    var a, b, c := FieldOfStudyReasons(p), DegreeReasons(p, src), GpaReasons(p, src);
    var r := MatchedFields(Some(p), src);
    assert r == a + b + c;
    forall i | 0 <= i < |r| && ReasonKind(r[i]) == 1
      ensures |b| == 1 && r[i] == b[0]
    {
      ReasonKindAt(p, src, i);
      assert r[i] == b[i - |a|];
    }
    if |b| > 0 {
      ReasonKindAt(p, src, |a|);
      assert r[|a|] == b[0];
    }
  }

  /** The GPA token compares the profile GPA with the first numeric value of
      Min_GPA / Minimum_GPA / GPA: met when at least that value, below
      otherwise, and no token when the profile has no GPA or no key is numeric. */
  lemma GpaTokenRule(p: ProfileInput, src: Doc)
    ensures var r := MatchedFields(Some(p), src);
      var floor := FirstNumber(src, GpaKeys);
      && (GpaMet in r <==> p.gpaRange4.Some? && floor.Some? && p.gpaRange4.value.value >= floor.value)
      && (GpaBelow in r <==> p.gpaRange4.Some? && floor.Some? && p.gpaRange4.value.value < floor.value)
      && ((forall i :: 0 <= i < |r| ==> ReasonKind(r[i]) != 2) <==> p.gpaRange4.None? || floor.None?)
  {
    TokenKinds(p.fieldOfStudy.GetOr(""), p.degree.GetOr(""), Get(src, "required_degree"));
    var a, b, c := FieldOfStudyReasons(p), DegreeReasons(p, src), GpaReasons(p, src);
    var r := MatchedFields(Some(p), src);
    assert r == a + b + c;
    forall i | 0 <= i < |r| && ReasonKind(r[i]) == 2
      ensures |c| == 1 && r[i] == c[0]
    {
      ReasonKindAt(p, src, i);
      assert r[i] == c[i - |a| - |b|];
    }
    forall i | 0 <= i < |r| && (r[i] == GpaMet || r[i] == GpaBelow)
      ensures ReasonKind(r[i]) == 2
    {
    }
    if |c| > 0 {
      ReasonKindAt(p, src, |a| + |b|);
      assert r[|a| + |b|] == c[0];
    }
  }

  /** The GPA floor lookup of `_build_matched_fields`: the loop over
      Min_GPA, Minimum_GPA, GPA that stops at the first numeric value. */
  method MinGpa(source: Doc) returns (minGpa: Option<real>)
    ensures minGpa == FirstNumber(source, GpaKeys)
  {
    minGpa := None;
    var i := 0;
    while i < |GpaKeys|
      invariant 0 <= i <= |GpaKeys|
      invariant FirstNumber(source, GpaKeys) == FirstNumber(source, GpaKeys[i..])
    {
      var v := Get(source, GpaKeys[i]);
      if IsNumber(v) {
        minGpa := Some(NumberValue(v));
        return;
      }
      assert GpaKeys[i..][1..] == GpaKeys[i + 1..];
      i := i + 1;
    }
  }

  /** `_build_matched_fields`: successive appends in the order of the checks. */
  method BuildMatchedFields(profile: Option<ProfileInput>, source: Doc) returns (reasons: seq<string>)
    ensures reasons == MatchedFields(profile, source)
  {
    reasons := [];
    if profile.None? {
      return;
    }
    var p := profile.value;
    if Filled(p.fieldOfStudy) {
      reasons := reasons + [FieldOfStudyToken(p.fieldOfStudy.value)];
    }
    ghost var afterFos := reasons;
    assert afterFos == FieldOfStudyReasons(p);
    if Filled(p.degree) {
      var degreeFields := DegreeCandidates(source);
      var requiredDegree := Get(source, "required_degree");
      if degreeFields.JList? {
        if JStr(p.degree.value) in degreeFields.items {
          reasons := reasons + [DegreeToken(p.degree.value, requiredDegree)];
        }
      } else if degreeFields.JStr? {
        if p.degree.value == degreeFields.s {
          reasons := reasons + [DegreeToken(p.degree.value, requiredDegree)];
        }
      }
    }
    ghost var afterDegree := reasons;
    assert afterDegree == afterFos + DegreeReasons(p, source);
    if p.gpaRange4.Some? {
      var minGpa := MinGpa(source);
      if minGpa.Some? {
        if p.gpaRange4.value.value >= minGpa.value {
          reasons := reasons + [GpaMet];
        } else {
          reasons := reasons + [GpaBelow];
        }
      }
    }
    assert reasons == afterDegree + GpaReasons(p, source);
  }

  // ----------------------------------------------------------------------
  // Profile to filters (match_resolver.py:87-152)
  // ----------------------------------------------------------------------

  function DegreeFilters(p: ProfileInput): seq<Filter> {
    if Filled(p.degree)
    then [Terms("Degree", [p.degree.value], Some("OR")),
          Terms("Eligible_Degree", [p.degree.value], Some("OR")),
          Terms("required_degree", [p.degree.value], Some("OR"))]
    else []
  }

  function GpaFilter(p: ProfileInput): seq<Filter> {
    if p.gpaRange4.Some? then [Range("Min_GPA", Some(NumberBound(p.gpaRange4.value)), None)] else []
  }

  function DeadlineFilter(p: ProfileInput): seq<Filter> {
    if Filled(p.deadlineAfter) || Filled(p.deadlineBefore)
    then [Range("End_Date",
                if Filled(p.deadlineAfter) then Some(TextBound(p.deadlineAfter.value)) else None,
                if Filled(p.deadlineBefore) then Some(TextBound(p.deadlineBefore.value)) else None)]
    else []
  }

  /** The entries for the field of study and the three list preferences. */
  function PreferenceFilters(p: ProfileInput): seq<Filter> {
    ListFilter("Eligible_Fields", if Filled(p.fieldOfStudy) then Some([p.fieldOfStudy.value]) else None)
    + ListFilter("Scholarship_Type", p.desiredScholarshipType)
    + ListFilter("Funding_Level", p.desiredFundingLevel)
    + ListFilter("Application_Mode", p.desiredApplicationMode)
  }

  /** The filter list `_profile_to_filters` builds. The Country step of the
      source reads `desired_countries`, which the profile type lacks, so it
      contributes nothing. */
  function ProfileFilters(profile: Option<ProfileInput>): seq<Filter> {
    if profile.None? then []
    else
      var p := profile.value;
      DegreeFilters(p) + PreferenceFilters(p) + GpaFilter(p) + DeadlineFilter(p)
  }

  /** The order the source emits engine fields in, leaving out the
      unreachable Country step. */
  const FieldOrder := ["Degree", "Eligible_Degree", "required_degree", "Eligible_Fields",
                       "Scholarship_Type", "Funding_Level", "Application_Mode", "Min_GPA", "End_Date"]

  /** The position of a field in `FieldOrder`; 9 for any other field. */
  function FieldRank(field: string): int {
    if field == "Degree" then 0
    else if field == "Eligible_Degree" then 1
    else if field == "required_degree" then 2
    else if field == "Eligible_Fields" then 3
    else if field == "Scholarship_Type" then 4
    else if field == "Funding_Level" then 5
    else if field == "Application_Mode" then 6
    else if field == "Min_GPA" then 7
    else if field == "End_Date" then 8
    else 9
  }

  lemma PreferenceBand(p: ProfileInput)
    ensures Band(PreferenceFilters(p), 3, 6, FieldRank)
  {
    var s1 := ListFilter("Eligible_Fields", if Filled(p.fieldOfStudy) then Some([p.fieldOfStudy.value]) else None);
    var s2 := ListFilter("Scholarship_Type", p.desiredScholarshipType);
    var s3 := ListFilter("Funding_Level", p.desiredFundingLevel);
    var s4 := ListFilter("Application_Mode", p.desiredApplicationMode);
    ListFilterBand("Eligible_Fields", if Filled(p.fieldOfStudy) then Some([p.fieldOfStudy.value]) else None, FieldRank);
    ListFilterBand("Scholarship_Type", p.desiredScholarshipType, FieldRank);
    ListFilterBand("Funding_Level", p.desiredFundingLevel, FieldRank);
    ListFilterBand("Application_Mode", p.desiredApplicationMode, FieldRank);
    BandConcat(s1, s2, 3, 4, 4, FieldRank);
    BandConcat(s1 + s2, s3, 3, 5, 5, FieldRank);
    BandConcat(s1 + s2 + s3, s4, 3, 6, 6, FieldRank);
  }

  lemma DegreeBand(p: ProfileInput)
    ensures Band(DegreeFilters(p), 0, 2, FieldRank)
  {
  }

  lemma SplitAfterDegree(p: ProfileInput)
    ensures ProfileFilters(Some(p)) == DegreeFilters(p) + (PreferenceFilters(p) + GpaFilter(p) + DeadlineFilter(p))
  {
    var d, pr, g, dl := DegreeFilters(p), PreferenceFilters(p), GpaFilter(p), DeadlineFilter(p);
    assert ProfileFilters(Some(p)) == d + pr + g + dl;
    ConcatAssoc(d, pr, g, dl);
  }

  lemma ConcatAssoc(a: seq<Filter>, b: seq<Filter>, c: seq<Filter>, d: seq<Filter>)
    ensures a + b + c + d == a + (b + c + d)
  {
  }

  /** Everything after the degree entries ranks 3 or above. */
  lemma AfterDegreeBand(p: ProfileInput)
    ensures Band(PreferenceFilters(p) + GpaFilter(p) + DeadlineFilter(p), 3, 8, FieldRank)
  {
    PreferenceBand(p);
    assert Band(GpaFilter(p), 7, 7, FieldRank);
    assert Band(DeadlineFilter(p), 8, 8, FieldRank);
    BandConcat(PreferenceFilters(p), GpaFilter(p), 3, 7, 7, FieldRank);
    BandConcat(PreferenceFilters(p) + GpaFilter(p), DeadlineFilter(p), 3, 8, 8, FieldRank);
  }

  lemma RankedFieldIsListed(f: string)
    requires FieldRank(f) <= 8
    ensures f in FieldOrder && f != "Country"
  {
    assert f == FieldOrder[FieldRank(f)];
  }

  /** The fields come out in the order of `FieldOrder`, none twice. */
  lemma ProfileFiltersInFixedOrder(profile: Option<ProfileInput>)
    ensures Band(ProfileFilters(profile), 0, 8, FieldRank)
  {
    if profile.Some? {
      var p := profile.value;
      var rest := PreferenceFilters(p) + GpaFilter(p) + DeadlineFilter(p);
      AfterDegreeBand(p);
      DegreeBand(p);
      BandConcat(DegreeFilters(p), rest, 0, 3, 8, FieldRank);
      SplitAfterDegree(p);
    }
  }

  /** Every field the mapping emits is one of `FieldOrder`, so Country never
      appears and there are at most nine entries. */
  lemma ProfileFieldsListed(profile: Option<ProfileInput>)
    ensures var r := ProfileFilters(profile);
      && (forall i :: 0 <= i < |r| ==> r[i].field in FieldOrder && r[i].field != "Country")
      && |r| <= 9
  {
    var r := ProfileFilters(profile);
    ProfileFiltersInFixedOrder(profile);
    forall i | 0 <= i < |r| ensures r[i].field in FieldOrder && r[i].field != "Country" {
      RankedFieldIsListed(r[i].field);
    }
  }

  /** A degree fans out to exactly three OR entries on Degree, Eligible_Degree
      and required_degree, each with the single degree, and they come first;
      without a degree none of those fields appears. */
  lemma DegreeFanOut(p: ProfileInput)
    ensures var r := ProfileFilters(Some(p));
      && (Filled(p.degree) ==>
            (&& |r| >= 3
             && r[0] == Terms("Degree", [p.degree.value], Some("OR"))
             && r[1] == Terms("Eligible_Degree", [p.degree.value], Some("OR"))
             && r[2] == Terms("required_degree", [p.degree.value], Some("OR"))))
      && (!Filled(p.degree) ==> forall i :: 0 <= i < |r| ==> FieldRank(r[i].field) > 2)
  {
    var r, rest := ProfileFilters(Some(p)), PreferenceFilters(p) + GpaFilter(p) + DeadlineFilter(p);
    SplitAfterDegree(p);
    assert r == DegreeFilters(p) + rest;
    if Filled(p.degree) {
      assert r[0] == DegreeFilters(p)[0];
      assert r[1] == DegreeFilters(p)[1];
      assert r[2] == DegreeFilters(p)[2];
    } else {
      assert r == rest;
      AfterDegreeBand(p);
    }
  }

  /** Every term entry is an OR entry with a non-empty values list. */
  lemma TermEntriesAreOr(profile: Option<ProfileInput>)
    ensures forall i :: 0 <= i < |ProfileFilters(profile)| && ProfileFilters(profile)[i].Terms? ==>
      ProfileFilters(profile)[i].operator == Some("OR") && |ProfileFilters(profile)[i].values| > 0
  {
    if profile.Some? {
      var p := profile.value;
      var head, g, d := DegreeFilters(p) + PreferenceFilters(p), GpaFilter(p), DeadlineFilter(p);
      TermsComeFirst(p);
      HeadIsOr(p);
      var r := head + g + d;
      forall i | 0 <= i < |r|
        ensures r[i].Terms? ==> r[i].operator == Some("OR") && |r[i].values| > 0
      {
        if i < |head| {
          assert r[i] == head[i];
        } else if i < |head| + |g| {
          assert r[i] == g[i - |head|];
        } else {
          assert r[i] == d[i - |head| - |g|];
        }
      }
    }
  }

  /** The degree, field-of-study and list-preference entries are OR entries with values. */
  lemma HeadIsOr(p: ProfileInput)
    ensures OrEntries(DegreeFilters(p) + PreferenceFilters(p))
  {
    var t1 := ListFilter("Eligible_Fields", if Filled(p.fieldOfStudy) then Some([p.fieldOfStudy.value]) else None);
    var t2 := ListFilter("Scholarship_Type", p.desiredScholarshipType);
    var t3 := ListFilter("Funding_Level", p.desiredFundingLevel);
    var t4 := ListFilter("Application_Mode", p.desiredApplicationMode);
    ListFilterOr("Eligible_Fields", if Filled(p.fieldOfStudy) then Some([p.fieldOfStudy.value]) else None);
    ListFilterOr("Scholarship_Type", p.desiredScholarshipType);
    ListFilterOr("Funding_Level", p.desiredFundingLevel);
    ListFilterOr("Application_Mode", p.desiredApplicationMode);
    OrEntriesConcat(t1, t2);
    OrEntriesConcat(t1 + t2, t3);
    OrEntriesConcat(t1 + t2 + t3, t4);
    assert OrEntries(DegreeFilters(p));
    OrEntriesConcat(DegreeFilters(p), PreferenceFilters(p));
  }

  /** The term entries come before the two range entries and rank below them. */
  lemma TermsComeFirst(p: ProfileInput)
    ensures ProfileFilters(Some(p)) == (DegreeFilters(p) + PreferenceFilters(p)) + GpaFilter(p) + DeadlineFilter(p)
    ensures var head := DegreeFilters(p) + PreferenceFilters(p);
      forall i :: 0 <= i < |head| ==> head[i].Terms? && FieldRank(head[i].field) <= 6
  {
    PreferenceBand(p);
    DegreeBand(p);
    BandConcat(DegreeFilters(p), PreferenceFilters(p), 0, 3, 6, FieldRank);
  }

  /** The Min_GPA range is there iff the profile has a GPA, zero included, and
      it has a lower bound only. */
  lemma GpaRangeEntry(p: ProfileInput)
    ensures var r := ProfileFilters(Some(p));
      && ((exists i :: 0 <= i < |r| && r[i].field == "Min_GPA") <==> p.gpaRange4.Some?)
      && (forall i :: 0 <= i < |r| && r[i].field == "Min_GPA" ==>
            r[i] == Range("Min_GPA", Some(NumberBound(p.gpaRange4.value)), None))
  {
    var head, g, d := DegreeFilters(p) + PreferenceFilters(p), GpaFilter(p), DeadlineFilter(p);
    TermsComeFirst(p);
    PreferenceRanks();
    var r := head + g + d;
    forall i | 0 <= i < |r|
      ensures r[i].field == "Min_GPA" ==> i == |head| && |g| == 1 && r[i] == g[0]
    {
      PartOfThree(head, g, d, i);
    }
    if p.gpaRange4.Some? {
      PartOfThree(head, g, d, |head|);
    }
  }

  /** The End_Date entry: its `min` is there iff `deadline_after` is set and
      its `max` iff `deadline_before` is. */
  lemma DeadlineBounds(p: ProfileInput)
    requires Filled(p.deadlineAfter) || Filled(p.deadlineBefore)
    ensures |DeadlineFilter(p)| == 1
    ensures var e := DeadlineFilter(p)[0];
      && e.Range? && e.field == "End_Date"
      && (e.min.Some? <==> Filled(p.deadlineAfter))
      && (e.max.Some? <==> Filled(p.deadlineBefore))
      && (Filled(p.deadlineAfter) ==> e.min.value == TextBound(p.deadlineAfter.value))
      && (Filled(p.deadlineBefore) ==> e.max.value == TextBound(p.deadlineBefore.value))
  {
  }

  /** The End_Date range is there iff a deadline bound is set, and it is the
      entry `DeadlineBounds` describes. */
  lemma DeadlineRangeEntry(p: ProfileInput)
    ensures var r := ProfileFilters(Some(p));
      && ((exists i :: 0 <= i < |r| && r[i].field == "End_Date") <==> Filled(p.deadlineAfter) || Filled(p.deadlineBefore))
      && (forall i :: 0 <= i < |r| && r[i].field == "End_Date" ==>
            |DeadlineFilter(p)| == 1 && r[i] == DeadlineFilter(p)[0])
  {
    var head, g, d := DegreeFilters(p) + PreferenceFilters(p), GpaFilter(p), DeadlineFilter(p);
    TermsComeFirst(p);
    PreferenceRanks();
    var r := head + g + d;
    forall i | 0 <= i < |r|
      ensures r[i].field == "End_Date" ==> i == |head| + |g| && |d| == 1 && r[i] == d[0]
    {
      PartOfThree(head, g, d, i);
    }
    if |d| == 1 {
      PartOfThree(head, g, d, |head| + |g|);
    }
  }

  /** The field-of-study entry is there iff the profile has a field of study,
      and then lists that field alone; each list-preference entry is there
      iff its list is non-empty, and then carries that list. All four are OR
      entries. */
  lemma PreferenceEntries(p: ProfileInput)
    ensures var r := ProfileFilters(Some(p));
      && ListedAs(r, "Eligible_Fields", if Filled(p.fieldOfStudy) then Some([p.fieldOfStudy.value]) else None)
      && ListedAs(r, "Scholarship_Type", p.desiredScholarshipType)
      && ListedAs(r, "Funding_Level", p.desiredFundingLevel)
      && ListedAs(r, "Application_Mode", p.desiredApplicationMode)
  {
    var fos := if Filled(p.fieldOfStudy) then Some([p.fieldOfStudy.value]) else None;
    var d := DegreeFilters(p);
    var t1 := ListFilter("Eligible_Fields", fos);
    var t2 := ListFilter("Scholarship_Type", p.desiredScholarshipType);
    var t3 := ListFilter("Funding_Level", p.desiredFundingLevel);
    var t4 := ListFilter("Application_Mode", p.desiredApplicationMode);
    var rest := GpaFilter(p) + DeadlineFilter(p);
    var r := ProfileFilters(Some(p));
    PreferenceRanks();
    PreferenceParts(p);
    DegreeBand(p);
    ListFilterBand("Eligible_Fields", fos, FieldRank);
    ListFilterBand("Scholarship_Type", p.desiredScholarshipType, FieldRank);
    ListFilterBand("Funding_Level", p.desiredFundingLevel, FieldRank);
    ListFilterBand("Application_Mode", p.desiredApplicationMode, FieldRank);
    BandConcat(GpaFilter(p), DeadlineFilter(p), 7, 8, 8, FieldRank);
    BandConcat(t4, rest, 6, 7, 8, FieldRank);
    BandConcat(t3, t4 + rest, 5, 6, 8, FieldRank);
    BandConcat(t2, t3 + (t4 + rest), 4, 5, 8, FieldRank);
    BandConcat(d, t1, 0, 3, 3, FieldRank);
    BandConcat(d + t1, t2, 0, 4, 4, FieldRank);
    BandConcat(d + t1 + t2, t3, 0, 5, 5, FieldRank);
    ListFilterEntry(r, d, "Eligible_Fields", fos, t2 + (t3 + (t4 + rest)), 0, 8, FieldRank);
    ListFilterEntry(r, d + t1, "Scholarship_Type", p.desiredScholarshipType, t3 + (t4 + rest), 0, 8, FieldRank);
    ListFilterEntry(r, d + t1 + t2, "Funding_Level", p.desiredFundingLevel, t4 + rest, 0, 8, FieldRank);
    ListFilterEntry(r, d + t1 + t2 + t3, "Application_Mode", p.desiredApplicationMode, rest, 0, 8, FieldRank);
  }

  lemma PreferenceRanks()
    ensures FieldRank("Eligible_Fields") == 3 && FieldRank("Scholarship_Type") == 4
    ensures FieldRank("Funding_Level") == 5 && FieldRank("Application_Mode") == 6
    ensures FieldRank("Min_GPA") == 7 && FieldRank("End_Date") == 8
  {
  }

  /** `ProfileFilters` regrouped around each list-preference entry. */
  lemma PreferenceParts(p: ProfileInput)
    ensures var d, t1, t2, t3, t4, rest :=
        DegreeFilters(p),
        ListFilter("Eligible_Fields", if Filled(p.fieldOfStudy) then Some([p.fieldOfStudy.value]) else None),
        ListFilter("Scholarship_Type", p.desiredScholarshipType),
        ListFilter("Funding_Level", p.desiredFundingLevel),
        ListFilter("Application_Mode", p.desiredApplicationMode),
        GpaFilter(p) + DeadlineFilter(p);
      var r := ProfileFilters(Some(p));
      && r == d + t1 + t2 + t3 + (t4 + rest)
      && r == d + t1 + t2 + (t3 + (t4 + rest))
      && r == d + t1 + (t2 + (t3 + (t4 + rest)))
      && r == d + t1 + t2 + t3 + t4 + rest
  {
    var d := DegreeFilters(p);
    var t1 := ListFilter("Eligible_Fields", if Filled(p.fieldOfStudy) then Some([p.fieldOfStudy.value]) else None);
    var t2 := ListFilter("Scholarship_Type", p.desiredScholarshipType);
    var t3 := ListFilter("Funding_Level", p.desiredFundingLevel);
    var t4 := ListFilter("Application_Mode", p.desiredApplicationMode);
    var g, dl := GpaFilter(p), DeadlineFilter(p);
    var x4 := d + t1 + t2 + t3 + t4;
    assert ProfileFilters(Some(p)) == (d + (t1 + t2 + t3 + t4)) + g + dl;
    ConcatAssoc5(d, t1, t2, t3, t4);
    ConcatAssoc3(x4, g, dl);
    ConcatAssoc3(d + t1 + t2 + t3, t4, g + dl);
    ConcatAssoc3(d + t1 + t2, t3, t4 + (g + dl));
    ConcatAssoc3(d + t1, t2, t3 + (t4 + (g + dl)));
  }

  /** Range entries are the only ones without values, so the filter search
      raises exactly when the profile has a GPA or a deadline bound. */
  lemma RangeEntriesIff(profile: Option<ProfileInput>)
    ensures AllTerms(ProfileFilters(profile))
        <==> profile.None? || (profile.value.gpaRange4.None?
                               && !Filled(profile.value.deadlineAfter) && !Filled(profile.value.deadlineBefore))
  {
    if profile.Some? {
      var p := profile.value;
      TermsComeFirst(p);
      var head, g, d := DegreeFilters(p) + PreferenceFilters(p), GpaFilter(p), DeadlineFilter(p);
      AllTermsConcat(head, g);
      AllTermsConcat(head + g, d);
      assert AllTerms(head);
      assert AllTerms(g) <==> p.gpaRange4.None? by {
        if p.gpaRange4.Some? { assert g[0].Range?; }
      }
      assert AllTerms(d) <==> !Filled(p.deadlineAfter) && !Filled(p.deadlineBefore) by {
        if |d| > 0 { assert d[0].Range?; }
      }
    }
  }

  lemma AllTermsConcat(a: seq<Filter>, b: seq<Filter>)
    ensures AllTerms(a + b) <==> AllTerms(a) && AllTerms(b)
  {
    if AllTerms(a + b) {
      forall i | 0 <= i < |a| ensures a[i].Terms? { assert a[i] == (a + b)[i]; }
      forall i | 0 <= i < |b| ensures b[i].Terms? { assert b[i] == (a + b)[|a| + i]; }
    }
  }

  /** `_profile_to_filters`: successive appends in the source's order. */
  method ProfileToFilters(profile: Option<ProfileInput>) returns (filters: seq<Filter>)
    ensures filters == ProfileFilters(profile)
  {
    filters := [];
    if profile.None? {
      return;
    }
    var p := profile.value;
    if Filled(p.degree) {
      filters := filters + [Terms("Degree", [p.degree.value], Some("OR"))];
      filters := filters + [Terms("Eligible_Degree", [p.degree.value], Some("OR"))];
      filters := filters + [Terms("required_degree", [p.degree.value], Some("OR"))];
    }
    ghost var s0 := filters;
    assert s0 == DegreeFilters(p);
    if Filled(p.fieldOfStudy) {
      filters := filters + [Terms("Eligible_Fields", [p.fieldOfStudy.value], Some("OR"))];
    }
    ghost var s1 := filters;
    assert s1 == s0 + ListFilter("Eligible_Fields", if Filled(p.fieldOfStudy) then Some([p.fieldOfStudy.value]) else None);
    if Filled(p.desiredScholarshipType) {
      filters := filters + [Terms("Scholarship_Type", p.desiredScholarshipType.value, Some("OR"))];
    }
    ghost var s2 := filters;
    assert s2 == s1 + ListFilter("Scholarship_Type", p.desiredScholarshipType);
    if Filled(p.desiredFundingLevel) {
      filters := filters + [Terms("Funding_Level", p.desiredFundingLevel.value, Some("OR"))];
    }
    ghost var s3 := filters;
    assert s3 == s2 + ListFilter("Funding_Level", p.desiredFundingLevel);
    if Filled(p.desiredApplicationMode) {
      filters := filters + [Terms("Application_Mode", p.desiredApplicationMode.value, Some("OR"))];
    }
    ghost var s4 := filters;
    assert s4 == s3 + ListFilter("Application_Mode", p.desiredApplicationMode);
    if p.gpaRange4.Some? {
      filters := filters + [Range("Min_GPA", Some(NumberBound(p.gpaRange4.value)), None)];
    }
    ghost var s5 := filters;
    assert s5 == s4 + GpaFilter(p);
    if Filled(p.deadlineAfter) || Filled(p.deadlineBefore) {
      var min := if Filled(p.deadlineAfter) then Some(TextBound(p.deadlineAfter.value)) else None;
      var max := if Filled(p.deadlineBefore) then Some(TextBound(p.deadlineBefore.value)) else None;
      filters := filters + [Range("End_Date", min, max)];
    }
    ProfileFiltersSteps(p, s0, s1, s2, s3, s4, s5, filters);
  }

  /** The appends of `ProfileToFilters`, step by step, build `ProfileFilters`. */
  lemma ProfileFiltersSteps(p: ProfileInput, s0: seq<Filter>, s1: seq<Filter>, s2: seq<Filter>,
                            s3: seq<Filter>, s4: seq<Filter>, s5: seq<Filter>, s6: seq<Filter>)
    requires s0 == DegreeFilters(p)
    requires s1 == s0 + ListFilter("Eligible_Fields", if Filled(p.fieldOfStudy) then Some([p.fieldOfStudy.value]) else None)
    requires s2 == s1 + ListFilter("Scholarship_Type", p.desiredScholarshipType)
    requires s3 == s2 + ListFilter("Funding_Level", p.desiredFundingLevel)
    requires s4 == s3 + ListFilter("Application_Mode", p.desiredApplicationMode)
    requires s5 == s4 + GpaFilter(p)
    requires s6 == s5 + DeadlineFilter(p)
    ensures s6 == ProfileFilters(Some(p))
  {
    var t1 := ListFilter("Eligible_Fields", if Filled(p.fieldOfStudy) then Some([p.fieldOfStudy.value]) else None);
    var t2 := ListFilter("Scholarship_Type", p.desiredScholarshipType);
    var t3 := ListFilter("Funding_Level", p.desiredFundingLevel);
    var t4 := ListFilter("Application_Mode", p.desiredApplicationMode);
    assert s4 == s0 + t1 + t2 + t3 + t4;
    ConcatAssoc5(s0, t1, t2, t3, t4);
    assert s4 == DegreeFilters(p) + PreferenceFilters(p);
  }

  // ----------------------------------------------------------------------
  // Rehydration (match_resolver.py:155-166)
  // ----------------------------------------------------------------------

  /** The map the loader's loop fills from the lookup's docs: found docs only,
      keyed by id, a later doc overwriting an earlier one. */
  function LoadedSources(docs: seq<MgetDoc>): map<string, Doc> {
    if |docs| == 0 then map[]
    else
      var m := LoadedSources(docs[..|docs| - 1]);
      var d := docs[|docs| - 1];
      if d.found then m[d.id := d.source.GetOr([])] else m
  }

  /** `docs[i]` is the last found doc with id `k`. */
  predicate LastFoundAt(docs: seq<MgetDoc>, i: int, k: string) {
    && 0 <= i < |docs| && docs[i].found && docs[i].id == k
    && forall j :: i < j < |docs| && docs[j].found ==> docs[j].id != k
  }

  /** The loader keeps exactly the ids of found docs. */
  lemma {:induction false} LoadedSourcesKeys(docs: seq<MgetDoc>)
    ensures forall k :: k in LoadedSources(docs) <==>
      exists i :: 0 <= i < |docs| && docs[i].found && docs[i].id == k
  {
    if |docs| > 0 {
      var init := docs[..|docs| - 1];
      var last := |docs| - 1;
      LoadedSourcesKeys(init);
      forall k ensures k in LoadedSources(docs) <==> exists i :: 0 <= i < |docs| && docs[i].found && docs[i].id == k {
        if k in LoadedSources(docs) && !(docs[last].found && docs[last].id == k) {
          assert k in LoadedSources(init);
          var i :| 0 <= i < |init| && init[i].found && init[i].id == k;
          assert docs[i] == init[i];
        }
        if exists i :: 0 <= i < |docs| && docs[i].found && docs[i].id == k {
          var i :| 0 <= i < |docs| && docs[i].found && docs[i].id == k;
          if i < last { assert init[i] == docs[i]; }
        }
      }
    }
  }

  /** Each kept id maps to the source of the last found doc with that id. */
  lemma {:induction false} LoadedSourcesValues(docs: seq<MgetDoc>)
    ensures forall k :: k in LoadedSources(docs) ==>
      exists i :: LastFoundAt(docs, i, k) && LoadedSources(docs)[k] == docs[i].source.GetOr([])
  {
    if |docs| > 0 {
      var init := docs[..|docs| - 1];
      var last := |docs| - 1;
      LoadedSourcesValues(init);
      forall k | k in LoadedSources(docs)
        ensures exists i :: LastFoundAt(docs, i, k) && LoadedSources(docs)[k] == docs[i].source.GetOr([])
      {
        if docs[last].found && docs[last].id == k {
          assert LastFoundAt(docs, last, k);
        } else {
          assert k in LoadedSources(init) && LoadedSources(docs)[k] == LoadedSources(init)[k];
          var i :| LastFoundAt(init, i, k) && LoadedSources(init)[k] == init[i].source.GetOr([]);
          assert docs[i] == init[i];
          assert forall j :: i < j < last ==> docs[j] == init[j];
          assert LastFoundAt(docs, i, k);
        }
      }
    }
  }

  /** `_load_scholarships_by_ids`: no lookup for no ids, an empty map when the
      lookup fails, otherwise the found docs' sources by id. */
  method LoadScholarshipsByIds(index: string, ids: seq<string>, mget: MgetRequest -> MgetReply)
    returns (out: map<string, Doc>)
    ensures |ids| == 0 ==> out == map[]
    ensures |ids| > 0 ==> out == match mget(MgetRequest(index, ids))
                                 case MgetFailed => map[]
                                 case MgetDocs(docs) => LoadedSources(docs)
  {
    if |ids| == 0 {
      return map[];
    }
    var res := mget(MgetRequest(index, ids));
    if res.MgetFailed? {
      return map[];
    }
    var docs := res.docs;
    out := map[];
    var i := 0;
    while i < |docs|
      invariant 0 <= i <= |docs|
      invariant out == LoadedSources(docs[..i])
    {
      assert docs[..i + 1][..i] == docs[..i];
      var doc := docs[i];
      if doc.found {
        out := out[doc.id := doc.source.GetOr([])];
      }
      i := i + 1;
    }
    assert docs[..|docs|] == docs;
  }

  /** What the loader returns for a page of hits. */
  function SourcesById(hits: seq<Hit>, mget: MgetRequest -> MgetReply): map<string, Doc> {
    var ids := seq(|hits|, i requires 0 <= i < |hits| => hits[i].id);
    if |ids| == 0 then map[]
    else match mget(MgetRequest(Collection, ids))
      case MgetFailed => map[]
      case MgetDocs(docs) => LoadedSources(docs)
  }

  // ----------------------------------------------------------------------
  // Result assembly and pagination (match_resolver.py:169-228)
  // ----------------------------------------------------------------------

  /** The source an item is built from: the loaded copy when non-empty, else
      the hit's inline copy when non-empty, else the empty dict. */
  function SourceFor(byId: map<string, Doc>, h: Hit): Doc {
    if h.id in byId && |byId[h.id]| > 0 then byId[h.id]
    else if |h.source| > 0 then h.source
    else []
  }

  /** The page the filter search yields, or the error it raises. An empty
      filter list gives the empty page without a search. */
  function MatchPage(profile: Option<ProfileInput>, size: int, offset: int,
                     engine: SearchRequest -> EngineReply): Result<Page, FilterError>
  {
    var filters := ProfileFilters(profile);
    if |filters| == 0 then Ok(EmptyPage)
    else FilterAdvancedResult(Collection, filters, Some(Collection), "OR", size, offset, engine)
  }

  /** The item `match_scholarships` builds for one hit: engine id and score,
      match score 0.0, and the explanation and summary of its source. */
  function ItemFor(profile: Option<ProfileInput>, byId: map<string, Doc>, h: Hit): MatchItem {
    var src := SourceFor(byId, h);
    MatchItem(h.id, h.score, 0.0, MatchedFields(profile, src), ToSummaryFields(src))
  }

  /** An item describes the rehydrated copy of its document when the lookup
      returned a non-empty one, and the engine's inline copy otherwise; its
      id and score are the hit's and its match score is 0.0. */
  lemma ItemPrefersLoadedSource(profile: Option<ProfileInput>, byId: map<string, Doc>, h: Hit)
    ensures var it := ItemFor(profile, byId, h);
      var src := if h.id in byId && |byId[h.id]| > 0 then byId[h.id] else h.source;
      && it.id == h.id && it.esScore == h.score && it.matchScore == 0.0
      && it.matchedFields == MatchedFields(profile, src)
      && it.summary == Summary(Get(src, "Scholarship_Name"), Get(src, "Start_Date"),
                               Get(src, "End_Date"), Get(src, "Funding_Level"))
  {
  }

  /** The warning list: present only when there were hits but the batch
      lookup yielded nothing. */
  function Warnings(hits: seq<Hit>, byId: map<string, Doc>): Option<seq<string>> {
    if |hits| > 0 && |byId| == 0 then Some([BatchWarning]) else None
  }

  /** The batch warning appears iff there were hits and the lookup failed or
      found none of them; it is then the single fixed message. */
  lemma WarningIffNothingLoaded(hits: seq<Hit>, mget: MgetRequest -> MgetReply)
    ensures var ids := seq(|hits|, i requires 0 <= i < |hits| => hits[i].id);
      var reply, w := mget(MgetRequest(Collection, ids)), Warnings(hits, SourcesById(hits, mget));
      && (w.Some? <==> |hits| > 0 && (reply.MgetFailed? || forall i :: 0 <= i < |reply.docs| ==> !reply.docs[i].found))
      && (w.Some? ==> w.value == [BatchWarning])
  {
    var ids := seq(|hits|, i requires 0 <= i < |hits| => hits[i].id);
    var reply := mget(MgetRequest(Collection, ids));
    if |hits| > 0 && reply.MgetDocs? {
      var docs := reply.docs;
      LoadedSourcesKeys(docs);
      if exists i :: 0 <= i < |docs| && docs[i].found {
        var i :| 0 <= i < |docs| && docs[i].found;
        assert docs[i].id in LoadedSources(docs);
      } else {
        assert LoadedSources(docs) == map[];
      }
    }
  }

  /** The retrieval step of `match_scholarships`: the inter-field OR filter
      search over the profile's entries, or the empty page without a search
      when there is none. */
  method RetrievePage(profile: Option<ProfileInput>, size: int, offset: int,
                      engine: SearchRequest -> EngineReply)
    returns (res: Result<Page, FilterError>)
    ensures res == MatchPage(profile, size, offset, engine)
  {
    var filters := ProfileToFilters(profile);
    if |filters| > 0 {
      res := FilterAdvanced(Collection, filters, Some(Collection), "OR", size, offset, engine);
    } else {
      res := Ok(EmptyPage);
    }
  }

  /** The item loop of `match_scholarships`: one item per hit, in hit order. */
  method BuildItems(profile: Option<ProfileInput>, sourcesById: map<string, Doc>, hits: seq<Hit>)
    returns (items: seq<MatchItem>)
    ensures |items| == |hits|
    ensures forall j :: 0 <= j < |hits| ==> items[j] == ItemFor(profile, sourcesById, hits[j])
  {
    items := [];
    var i := 0;
    while i < |hits|
      invariant 0 <= i <= |hits|
      invariant |items| == i
      invariant forall j :: 0 <= j < i ==> items[j] == ItemFor(profile, sourcesById, hits[j])
    {
      var item := BuildItem(profile, sourcesById, hits[i]);
      items := items + [item];
      i := i + 1;
    }
  }

  /** The body of the item loop: the source fallback chain, the explanation
      and the summary of one hit. */
  method BuildItem(profile: Option<ProfileInput>, sourcesById: map<string, Doc>, h: Hit)
    returns (item: MatchItem)
    ensures item == ItemFor(profile, sourcesById, h)
  {
    var sid := h.id;
    var src := if sid in sourcesById && |sourcesById[sid]| > 0 then sourcesById[sid]
               else if |h.source| > 0 then h.source
               else [];
    var matchedFields := BuildMatchedFields(profile, src);
    item := MatchItem(sid, h.score, 0.0, matchedFields, ToSummaryFields(src));
  }

  /** `match_scholarships` with the engine calls abstracted. */
  method MatchScholarships(profile: Option<ProfileInput>, size: int, offset: int,
                           engine: SearchRequest -> EngineReply, mget: MgetRequest -> MgetReply)
    returns (r: Result<MatchResult, FilterError>)
    ensures r.Err? <==> MatchPage(profile, size, offset, engine).Err?
    ensures r.Err? ==> r.error == MatchPage(profile, size, offset, engine).error
    ensures r.Ok? ==>
      var page := MatchPage(profile, size, offset, engine).value;
      var byId := SourcesById(page.items, mget);
      && r.value.total == page.total
      && |r.value.items| == |page.items|
      && (forall i :: 0 <= i < |page.items| ==> r.value.items[i] == ItemFor(profile, byId, page.items[i]))
      && r.value.hasNextPage == (offset + size < page.total)
      && (r.value.nextOffset.Some? <==> r.value.hasNextPage)
      && (r.value.nextOffset.Some? ==> r.value.nextOffset.value == offset + size)
      && r.value.warnings == Warnings(page.items, byId)
  {
    var collection := Collection;
    var fr := RetrievePage(profile, size, offset, engine);
    if fr.Err? {
      return Err(fr.error);
    }
    var res := fr.value;

    var warnings: seq<string> := [];
    var hits := res.items;
    var ids := seq(|hits|, i requires 0 <= i < |hits| => hits[i].id);
    var sourcesById := LoadScholarshipsByIds(collection, ids, mget);
    assert sourcesById == SourcesById(hits, mget);
    if |hits| > 0 && |sourcesById| == 0 {
      warnings := warnings + [BatchWarning];
      assert warnings == [BatchWarning];
    }
    assert (if |warnings| > 0 then Some(warnings) else None) == Warnings(hits, sourcesById);

    var items := BuildItems(profile, sourcesById, hits);

    var totalHits := res.total;
    var hasNext := offset + size < totalHits;
    var nextOff := if hasNext then Some(offset + size) else None;
    r := Ok(MatchResult(totalHits, items, hasNext, nextOff, if |warnings| > 0 then Some(warnings) else None));
  }

  /** An empty filter list (no profile, or nothing in it the mapping uses)
      gives total 0, no items, no next page and no warning, whatever the engine
      would answer. */
  lemma EmptyFiltersGiveEmptyPage(profile: Option<ProfileInput>, size: int, offset: int,
                                  engine: SearchRequest -> EngineReply)
    requires |ProfileFilters(profile)| == 0
    ensures MatchPage(profile, size, offset, engine) == Ok(EmptyPage)
  {
  }

  /** A GPA or a deadline bound in the profile produces a range entry, which
      the filter search reads `values` from and fails on. */
  lemma RangeProfileFails(p: ProfileInput, size: int, offset: int, engine: SearchRequest -> EngineReply)
    requires p.gpaRange4.Some? || Filled(p.deadlineAfter) || Filled(p.deadlineBefore)
    ensures MatchPage(Some(p), size, offset, engine).Err?
  {
    RangeEntriesIff(Some(p));
    FilterAdvancedOutcomes(Collection, ProfileFilters(Some(p)), Some(Collection), "OR", size, offset, engine);
  }

  /** Without a GPA and without deadline bounds the filter search never fails. */
  lemma TermProfileSucceeds(p: ProfileInput, size: int, offset: int, engine: SearchRequest -> EngineReply)
    requires p.gpaRange4.None? && !Filled(p.deadlineAfter) && !Filled(p.deadlineBefore)
    ensures MatchPage(Some(p), size, offset, engine).Ok?
  {
    RangeEntriesIff(Some(p));
  }
}
