# Scholarship search core, modelled in Dafny

This project models the search layer of a scholarship recommendation
server. It covers four Python modules:

- `es_svc.py` is the search-engine service. It builds the catch-all text
  of a document and the index payloads and ids. Its two query builders are
  `search_keyword` (a fuzzy match on the catch-all text, scoped to a
  collection) and `filter_advanced` (one match clause per filter entry,
  combined by AND or OR, with the collection term always required). It
  maps engine hits to pages.
- `search_resolver.py` is the GraphQL search resolver. It flattens typed
  filter inputs into filter entries and picks one of three modes:
  keyword-only, filter-only or combined. In combined mode it keeps the
  keyword hits whose id the filter page also returned, in keyword order.
- `match_resolver.py` is the GraphQL recommendation resolver. It turns a
  profile into a filter list and runs an inter-field OR filter search. It
  rehydrates the hits through one batch lookup and explains each match with
  reason tokens. The page it returns carries pagination flags and a
  warning.
- `user_svc.py` is the REST recommendation path. It maps a stored profile
  to desired-* filter entries and skips the search when none comes out.

The engine is never called. A search is a function parameter `engine`
from the request the code would send to the engine's reply, and the batch
lookup is a parameter `mget` that answers with documents or fails. "No
search is issued" therefore means the result does not depend on `engine`.

Files:

- `wrappers.dfy` holds `Option` and `Result`.
- `json.dfy` holds the JSON-like values a document is made of and the
  Python behaviour the code relies on: truthiness, `dict.get`, key
  assignment, `str()`, `" ".join` and ASCII `lower()`.
- `es_service.dfy`, `search_resolver.dfy`, `match_resolver.dfy` and
  `user_service.dfy` follow the four source modules.
- `query_semantics.dfy` gives the compiled bool query its search-engine
  meaning and proves the AND/OR combination rules and monotonicity of
  `filter_advanced`.

Behaviours of the code that a reader might not expect, and that the model
keeps as written:

- `filter_advanced` reads `values` from every entry (es_svc.py:150), so an
  entry that carries a range instead of a values list makes it raise before
  any search. The model returns `Err(MissingValues(field))` for it.
  `_profile_to_filters` adds such range entries for a GPA and for deadline
  bounds (match_resolver.py:136-150), so `MatchResolver.RangeProfileFails`
  shows the recommendation query fails whenever the profile has one.
- The fused page keeps the keyword hits whose id the filter page returned
  (search_resolver.py:136-146). It has at most |K| items (K the keyword
  hits), and at most |F| (F the filter hits) only when the keyword ids are
  distinct (`SearchResolver.FuseBoundedByFilterPage`).
- Removing an AND criterion keeps every selected document only while a
  search is still issued: the body is empty when no clause and no collection
  remain, and the code then returns the empty page (es_svc.py:179-181,
  `QuerySemantics.AndRemovingLastCriterionEmpties`).
- The GraphQL profile input has no `desired_countries`, so the Country step
  of `_profile_to_filters` (match_resolver.py:102-109) never fires
  (`MatchResolver.ProfileFieldsListed`).

## Model

| member | source | states |
|---|---|---|
| Json.Put | src/server/services/es_svc.py:81-83 | Assigning a key gives it the new value and leaves every other key's value alone. An existing key keeps its position; a new key goes last. |
| Json.Lower | src/server/services/es_svc.py:151 | Lower-casing keeps the length and lower-cases each ASCII letter in place. |
| Json.LowerOr | src/server/services/es_svc.py:151 | The default intra-field operator "OR" lower-cases to "or". |
| Json.LowerIdempotent | src/server/services/es_svc.py:151 | Lower-casing an already lower-cased operator changes nothing. |
| Json.GetFirstMatch | src/server/services/es_svc.py:63 | `d.get(k)` is None when no pair has key `k`, and otherwise the value of the first pair with that key. |
| Json.FalsyValues | src/server/services/es_svc.py:63 | A value is falsy exactly when it is None, False, 0, a zero float, the empty string, the empty list or the empty dict. |
| Json.TruthyAgreesWithFilled | src/server/gql/search_resolver.py:55-60 | A string or list is truthy iff it is non-empty, so an `if xs:` test on an optional list agrees with the model's filled-option test. |
| Json.NatToStringDigits | src/server/gql/search_resolver.py:57-58 | `str()` of a natural number is a non-empty run of decimal digits, without a leading zero unless the number is 0, whose value is the number. |
| Json.IntToStringShape | src/server/gql/search_resolver.py:57-58 | `str()` of an integer starts with '-' iff it is negative, and the rest spells its absolute value in decimal. |
| Json.JoinAppend | src/server/services/es_svc.py:45 | Joining one more item appends the separator and then the item. |
| Json.PyStrOfStrings | src/server/gql/match_resolver.py:59-66 | `str()` of a string is the string itself, and of a list of strings it is the bracketed, comma-separated list of quoted items. |
| EsService.FlattenAppend | src/server/services/es_svc.py:38-39 | Walking two runs of values one after the other yields the first run's leaves, then the second's. |
| EsService.LeavesOfListConcat | src/server/services/es_svc.py:37-39 | The leaves of a list are the leaves of its two halves, in order. |
| EsService.NullContributesNothing | src/server/services/es_svc.py:40-42 | A value that is not str/int/float/bool (None) adds no leaf. |
| EsService.LeavesOfObjectAreLeavesOfValues | src/server/services/es_svc.py:34-36 | A dict's leaves are its values' leaves, in insertion order; keys contribute nothing. |
| EsService.Walk | src/server/services/es_svc.py:33-42 | The recursive walk appends exactly the depth-first leaves of its argument to the shared list. |
| EsService.WalkValues | src/server/services/es_svc.py:34-36 | The loop over a dict's values appends the leaves of each value in turn. |
| EsService.WalkItems | src/server/services/es_svc.py:37-39 | The loop over a list's elements appends the leaves of each element in turn. |
| EsService.CatchAll | src/server/services/es_svc.py:30-45 | The catch-all text is the document's depth-first leaves joined by single spaces. |
| EsService.PayloadFields | src/server/services/es_svc.py:58-61 | A payload holds the catch-all text of the original document, overwrites `collection` when one is given, and keeps every other field and the original key order. |
| EsService.ListFilterEntry | src/server/services/user_svc.py:18-28 | An optional list step placed between entries of lower and higher rank yields an entry on its field iff its list is non-empty, and that entry is the OR entry on the list. |
| EsService.BuildPayload | src/server/services/es_svc.py:58-61 | Copying the document, storing its catch-all text under `__text` and then the collection builds exactly the payload above. |
| EsService.IndexOne | src/server/services/es_svc.py:58-64 | `index_one` sends the payload above under the explicit id if truthy, else the document's `id` if truthy, else its `doc_id`. |
| EsService.IndexMany | src/server/services/es_svc.py:79-88 | `index_many` yields one action per document, in order. Each is an "index" action into the given index, with that document's payload (catch-all text computed from the document itself) and its `id`-or-`doc_id`. |
| EsService.ToPage | src/server/services/es_svc.py:190-194 | A page copies the engine's total and maps each hit one-to-one, in engine order, to id, score and source. |
| EsService.KeywordQuery | src/server/services/es_svc.py:105-117 | The keyword query's `must` list is a match on `__text` (operator "or", fuzziness AUTO), then the collection term iff a collection is given; no other bool key is set. |
| EsService.SearchKeyword | src/server/services/es_svc.py:92-129 | `search_keyword` sends exactly one request, the keyword query above with the given index, size and offset. It returns that reply's total and one item per hit, in engine order, with the hit's id, score and source. |
| EsService.SearchKeywordOneRequest | src/server/services/es_svc.py:119-129 | Two engines that answer the keyword request alike give the same page: nothing else is asked of the engine. |
| EsService.FirstRange | src/server/services/es_svc.py:148-150 | Finds the first entry without a values list: all entries before it are term entries. |
| EsService.CompileFilters | src/server/services/es_svc.py:147-156 | Fails with the first range entry's field exactly when some entry is a range entry. Otherwise it gives one match clause per entry, in order: the values joined by " ", the operator lower-cased, "or" by default. |
| EsService.AdvancedQuery | src/server/services/es_svc.py:158-181 | AND puts the clauses under `filter`; any other operator puts them under `should` with minimum 1. The collection term is appended last to `filter` in both modes. The body is empty (no search) iff there are no clauses and no collection. |
| EsService.FilterAdvancedResult | src/server/services/es_svc.py:131-194 | A list of term entries never raises. |
| EsService.FilterAdvancedOutcomes | src/server/services/es_svc.py:131-194 | `filter_advanced` raises iff some entry is a range entry. With no entries and no collection it returns the empty page without a search. Otherwise it returns the engine's page for the compiled query. |
| EsService.FilterAdvanced | src/server/services/es_svc.py:131-194 | The clause-building loop and the in-place construction of the bool body compute exactly `FilterAdvancedResult`. |
| QuerySemantics.CountPositive | src/server/services/es_svc.py:164-166 | At least one `should` clause holds iff some clause holds. |
| QuerySemantics.AndMeaning | src/server/services/es_svc.py:161-176 | In AND mode a document is selected iff it satisfies every criterion and lies in the collection. |
| QuerySemantics.OrMeaning | src/server/services/es_svc.py:164-176 | In OR mode a document is selected iff it satisfies at least one criterion and lies in the collection. |
| QuerySemantics.CollectionAlwaysRequired | src/server/services/es_svc.py:171-176 | Whatever the operator, a selected document lies in the collection. |
| QuerySemantics.NothingWithoutCriteria | src/server/services/es_svc.py:179-181 | With no entries and no collection nothing is selected: the empty page, never "match everything". |
| QuerySemantics.AndRemovalKeepsSelection | src/server/services/es_svc.py:161-163 | In AND mode, dropping any one criterion never loses a selected document, as long as a search is still issued. |
| QuerySemantics.AndRemovingLastCriterionEmpties | src/server/services/es_svc.py:179-181 | Dropping the only criterion with no collection turns a selected document into none selected. |
| QuerySemantics.OrAdditionKeepsSelection | src/server/services/es_svc.py:164-166 | In OR mode, inserting a criterion anywhere into a non-empty list never loses a selected document. |
| QuerySemantics.OrFirstCriterionCanNarrow | src/server/services/es_svc.py:164-176 | The first OR criterion can narrow the selection: a collection-only query selects a document that a one-criterion query rejects. |
| SearchResolver.CombineValues | src/server/gql/search_resolver.py:53-61 | The combined list is the string values, then the int values in decimal, then the float values as `str()` renders them. An absent group and an empty group both add nothing. |
| SearchResolver.CombineValuesPositions | src/server/gql/search_resolver.py:53-61 | Position by position: the combined list is exactly as long as the three groups together, the strings sit first, then each int in decimal, then each float's text. |
| SearchResolver.FiltersAsDicts | src/server/gql/search_resolver.py:63-70 | Each input becomes one term entry with its field, combined values and operator value, keeping input order and length; no input gives no entry. |
| SearchResolver.ToSearchHit | src/server/gql/search_resolver.py:43-51 | A hit keeps its id and score. Its source is renamed (Scholarship_Name, Country, Start_Date, End_Date, Funding_Level) iff the hit has a non-empty source. |
| SearchResolver.SourceIgnoresOtherKeys | src/server/gql/search_resolver.py:43-51 | The scholarship source reads only Scholarship_Name, Country, Start_Date, End_Date and Funding_Level: setting any other document key leaves it unchanged. |
| SearchResolver.SingleResult | src/server/gql/search_resolver.py:82-92 | A single-mode result carries the engine total and every hit converted, in engine order. |
| SearchResolver.Dispatch | src/server/gql/search_resolver.py:72-134 | Keyword-only iff `q` is truthy and there is no filter; filter-only iff there are filters and `q` is falsy; combined otherwise, including when neither is given. |
| SearchResolver.Fuse | src/server/gql/search_resolver.py:136-146 | The fused total is the number of fused items. |
| SearchResolver.KeepIdsMembers | src/server/gql/search_resolver.py:137-145 | A hit survives fusion iff it is a keyword hit whose id is among the filter ids. |
| SearchResolver.KeepIdsKeepsOrder | src/server/gql/search_resolver.py:137-145 | The surviving hits are a subsequence of the keyword hits: keyword order is kept. |
| SearchResolver.FuseProperties | src/server/gql/search_resolver.py:136-146 | The fused items are exactly the converted keyword hits with a filter id, in keyword order, with keyword scores. There are at most as many as keyword hits, and none when the filter page is empty. |
| SearchResolver.NothingKeptFromEmpty | src/server/gql/search_resolver.py:136-145 | An empty id set keeps no keyword hit. |
| SearchResolver.IdSetSize | src/server/gql/search_resolver.py:136 | The filter id set has at most as many ids as the page has hits, and exactly as many when the ids are distinct. |
| SearchResolver.KeepIdsDistinct | src/server/gql/search_resolver.py:137-145 | Fusion keeps ids distinct and keeps only ids of the filter set. |
| SearchResolver.FuseBoundedByFilterPage | src/server/gql/search_resolver.py:146 | With distinct keyword ids, the fused total is at most the number of filter hits. |
| SearchResolver.SearchEs | src/server/gql/search_resolver.py:32-148 | Keyword-only and filter-only requests return that one search's result. Any other request runs the keyword search (with `q or ""`) and the filter search, and returns their fusion. |
| MatchResolver.SummaryAgreesWithSearchSource | src/server/gql/match_resolver.py:30-36 | The summary reads the same four document keys as the search resolver's source: name, start date, end date, amount. |
| MatchResolver.SummaryIgnoresOtherKeys | src/server/gql/match_resolver.py:30-36 | The summary reads only Scholarship_Name, Start_Date, End_Date and Funding_Level: setting any other document key leaves it unchanged. |
| MatchResolver.NoProfileGivesNothing | src/server/gql/match_resolver.py:41-42 | Without a profile there are no reasons, and no filters either (lines 89-90). |
| MatchResolver.FirstNumber | src/server/gql/match_resolver.py:70-76 | None iff no key holds a number; otherwise the value at the first key holding one (bools count, as Python's `isinstance(v, int)` accepts them). |
| MatchResolver.MinGpa | src/server/gql/match_resolver.py:72-77 | The loop over Min_GPA, Minimum_GPA, GPA that breaks at the first numeric value finds exactly that first number, or none. |
| MatchResolver.ReasonKindAt | src/server/gql/match_resolver.py:44-82 | Token `i` reports the field of study while that part lasts, then the degree, then the GPA. |
| MatchResolver.ReasonsInFixedOrder | src/server/gql/match_resolver.py:44-84 | There are at most three tokens, in the strict order field of study, degree, GPA, at most one of each. |
| MatchResolver.FieldOfStudyTokenIgnoresSource | src/server/gql/match_resolver.py:45-46 | With a field of study, its token comes first whatever the source holds; without one, no such token appears. |
| MatchResolver.DegreeTokenRule | src/server/gql/match_resolver.py:49-67 | A degree token appears iff the profile degree is in (list) or equal to (string) the first truthy of Degree / Eligible_Degree / required_degree. The token carries `;required_degree=` iff that field is truthy. |
| MatchResolver.DegreeTokenShape | src/server/gql/match_resolver.py:58-67 | The degree token always begins with `degree_match:profile=` and the degree, and is exactly that iff `required_degree` is falsy. |
| MatchResolver.DegreeCandidatesFirstTruthy | src/server/gql/match_resolver.py:50-54 | The candidates are Degree if truthy, else Eligible_Degree if truthy, else required_degree; they are truthy iff one of the three is. |
| MatchResolver.DegreeMatchesKinds | src/server/gql/match_resolver.py:56-63 | The degree matches iff the candidates are a list containing the degree string or are that string itself; any other kind never matches. |
| MatchResolver.GpaTokenRule | src/server/gql/match_resolver.py:70-82 | "gpa_requirement_met" appears iff the profile GPA is at least the first numeric floor, and "gpa_below_requirement" iff it is below. No GPA token appears iff there is no GPA or no numeric floor. |
| MatchResolver.BuildMatchedFields | src/server/gql/match_resolver.py:38-84 | The successive appends and the GPA loop with `break` compute exactly the reasons above. |
| MatchResolver.DegreeBand | src/server/gql/match_resolver.py:92-96 | The degree entries occupy ranks 0-2, in order. |
| MatchResolver.PreferenceBand | src/server/gql/match_resolver.py:99-133 | The field-of-study and list-preference entries occupy ranks 3-6, in order; which of them appear is stated by PreferenceEntries. |
| MatchResolver.PreferenceEntries | src/server/gql/match_resolver.py:99-133 | An Eligible_Fields entry appears iff there is a field of study, and it is the OR entry on that one field. Each of Scholarship_Type, Funding_Level and Application_Mode appears iff its list is non-empty, and is then the OR entry on that list. |
| MatchResolver.AfterDegreeBand | src/server/gql/match_resolver.py:99-150 | Everything after the degree entries occupies ranks 3-8, in order. |
| MatchResolver.ProfileFiltersInFixedOrder | src/server/gql/match_resolver.py:87-152 | The entries come in the fixed field order Degree, Eligible_Degree, required_degree, Eligible_Fields, Scholarship_Type, Funding_Level, Application_Mode, Min_GPA, End_Date, each at most once. |
| MatchResolver.ProfileFieldsListed | src/server/gql/match_resolver.py:102-109 | Every entry's field is one of the nine above. Country never appears, and there are at most nine entries. |
| MatchResolver.DegreeFanOut | src/server/gql/match_resolver.py:92-96 | A degree fans out to exactly three OR entries on Degree, Eligible_Degree and required_degree, each with the single degree, and they come first. Without a degree none of those fields appears. |
| MatchResolver.TermEntriesAreOr | src/server/gql/match_resolver.py:92-133 | Every term entry is an OR entry with a non-empty values list. |
| MatchResolver.TermsComeFirst | src/server/gql/match_resolver.py:92-150 | Every term entry precedes the range entries. |
| MatchResolver.GpaRangeEntry | src/server/gql/match_resolver.py:136-141 | A Min_GPA entry appears iff the profile has a GPA, 0 included. It is a range with only a lower bound, the GPA. |
| MatchResolver.DeadlineBounds | src/server/gql/match_resolver.py:144-150 | The End_Date range has `min` iff `deadline_after` is set and `max` iff `deadline_before` is set, holding those dates. |
| MatchResolver.DeadlineRangeEntry | src/server/gql/match_resolver.py:144-150 | An End_Date entry appears iff a deadline bound is set, and it is the range above. |
| MatchResolver.RangeEntriesIff | src/server/gql/match_resolver.py:136-150 | The profile's entries are all term entries iff there is no profile, or it has no GPA and no deadline bound. |
| MatchResolver.ProfileToFilters | src/server/gql/match_resolver.py:87-152 | The successive appends compute exactly the filter list described above. |
| MatchResolver.RetrievePage | src/server/gql/match_resolver.py:177-189 | The retrieval step sends the inter-field OR filter search over the profile's entries, scoped to the scholarships collection, or gives the empty page without a search when there is no entry. |
| MatchResolver.LoadedSourcesKeys | src/server/gql/match_resolver.py:162-164 | The loader's map (`LoadedSources`) holds exactly the ids of found docs. |
| MatchResolver.LoadedSourcesValues | src/server/gql/match_resolver.py:162-164 | In `LoadedSources`, each id maps to the source of the last found doc with that id; a missing source counts as `{}`. |
| MatchResolver.LoadScholarshipsByIds | src/server/gql/match_resolver.py:155-166 | No ids gives `{}` without a lookup, and a failed lookup gives `{}`. Otherwise the loop builds the found docs' map. |
| MatchResolver.ItemPrefersLoadedSource | src/server/gql/match_resolver.py:199-212 | An item (built from `SourceFor`) explains and summarises the rehydrated copy when the lookup returned a non-empty one, and otherwise the inline copy. It keeps the hit's id and score and has match score 0.0. |
| MatchResolver.BuildItem | src/server/gql/match_resolver.py:200-212 | One loop step builds the item for its hit: the loaded source if non-empty, else the inline one, else `{}`, explained and summarised. |
| MatchResolver.BuildItems | src/server/gql/match_resolver.py:199-212 | The item loop yields exactly one item per hit, in hit order, each the item for that hit. |
| MatchResolver.MatchScholarships | src/server/gql/match_resolver.py:169-228 | The filter search's error is returned unchanged. On success: the engine total, one item per hit in hit order, `hasNextPage` iff offset+size < total, `nextOffset` = offset+size iff there is a next page, and the warning iff there are hits but the lookup gave nothing. |
| MatchResolver.WarningIffNothingLoaded | src/server/gql/match_resolver.py:193-197 | `Warnings`: the batch-load warning is raised iff there are hits and the lookup of their ids failed or found none of them, and it is then the single fixed message. |
| MatchResolver.EmptyFiltersGiveEmptyPage | src/server/gql/match_resolver.py:178-189 | `MatchPage`, the filter step of `match_scholarships`, gives the empty page for an empty filter list whatever the engine would answer. |
| MatchResolver.RangeProfileFails | src/server/gql/match_resolver.py:136-150 | A profile with a GPA or a deadline bound makes the filter search raise. |
| MatchResolver.TermProfileSucceeds | src/server/gql/match_resolver.py:178-189 | Without a GPA and deadline bounds the filter search never raises. |
| UserService.ListOfSet | src/server/services/user_svc.py:32-36 | `list(combined_fields)` lists each element of the set exactly once, in some order. |
| UserService.MapProfileToFilters | src/server/services/user_svc.py:8-46 | The desired entries come first. They are followed by the Eligible_Fields entry iff there is a field of study, whose values are the desired fields of study plus the profile's own, each once. |
| UserService.EligibleFieldsStep | src/server/services/user_svc.py:30-38 | The field-of-study step adds nothing iff there is no desired or own field of study. Otherwise it adds one Eligible_Fields OR entry whose values are the desired fields plus the own one when missing, each once, or the own one alone. |
| UserService.DesiredBand | src/server/services/user_svc.py:18-28 | The desired entries are OR entries on Country, Scholarship_Type, Funding_Level and Application_Mode, in that order, at most one each; which of them appear is stated by DesiredEntries. |
| UserService.DesiredEntries | src/server/services/user_svc.py:18-28 | Each of Country, Scholarship_Type, Funding_Level and Application_Mode appears iff its desired list is non-empty, and is then the OR entry on exactly that list. |
| UserService.UserFiltersInFixedOrder | src/server/services/user_svc.py:18-38 | The entries come in the order Country, Scholarship_Type, Funding_Level, Application_Mode, Eligible_Fields with none twice, so there are at most five, and every entry is an OR term entry with non-empty values. |
| UserService.UserFieldsListed | src/server/services/user_svc.py:18-38 | Every entry's field is one of those five. |
| UserService.DegreeAndGpaIgnored | src/server/services/user_svc.py:8-46 | Changing degree or GPA never changes the filter list. |
| UserService.FieldOfStudyAlone | src/server/services/user_svc.py:37-38 | Without desired fields of study, a field of study alone yields Eligible_Fields `[field_of_study]`. |
| UserService.EmptyFiltersIff | src/server/services/user_svc.py:67-69 | No entry comes out iff the profile has no list preference and no field of study. |
| UserService.FindMatchingScholarshipsForProfile | src/server/services/user_svc.py:52-87 | No entry gives the empty page without a search. Otherwise the result is the inter-field OR filter search, unchanged. |
| UserService.RestSearchNeverFails | src/server/services/user_svc.py:75-83 | The REST filter search never raises, since all its entries are term entries. |

## Left out

- Engine and database calls are parameters, not calls: the client setup and `ensure_index`, `client.search`, `client.mget`, `helpers.bulk`, `client.index` and `es.close()`. Their replies are inputs, and the bulk success count and the `_id` the engine echoes back are not modelled.
- Exceptions other than the missing `values` key are left out: engine errors, and a hit without `_id` or `_score`. The batch lookup's `except Exception` is the `MgetFailed` reply.
- Retries, timeouts and concurrency belong to the client. The combined search runs its two searches one after the other, as modelled.
- Firestore-to-engine sync, authentication, Firestore routes and the HTTP and GraphQL bindings are I/O plumbing and are left out.
- `days_until_deadline` reads the wall clock and is left out.
- No deadline sort or oversized-page retrieval exists in this code, so none is modelled.
- Range compilation: range entries are never turned into range clauses, because `filter_advanced` fails on them first. No range-query meaning is given.
- Floating point: a float is its value as a real together with the text `str()` gives it. GPA comparisons are over reals, not IEEE doubles.
- MatchResolver.DegreeToken: `str()` of a list or dict (Python `repr`, with its quote escaping) is rendered without escaping quotes inside strings.
- Json.Lower: lower-cases ASCII letters only, not full Unicode.
- UserService.ListOfSet: the iteration order of a Python set is unspecified, so the method picks any order; the contract states distinctness and membership only.
- `dtos/search_dtos.py` (`FilterItem`) is not part of this model; its entries are taken to carry field, values and operator, as `user_svc.py` builds them.
- MatchResolver.MatchScholarships: `float(h.get("score", 0.0) or 0.0)` is taken as the hit's score, since every hit carries a numeric score. A missing `total` default is not needed, since a page always has one.
- SearchResolver.FuseBoundedByFilterPage: the bound by the filter page's size needs distinct keyword ids. Without them the fused list can be longer than the filter page.
- QuerySemantics.OrAdditionKeepsSelection: needs at least one criterion already there, since the first criterion can narrow an OR search.
- QuerySemantics.AndRemovalKeepsSelection: needs a search to remain after the removal, since removing the last criterion without a collection gives the empty page.
