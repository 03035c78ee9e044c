# olap-client request building, modelled in Dafny

This project models the core of `olap-client`, a Python client for OLAP servers. The client turns a
query object into a request URL, and it reads server schemas into a typed tree that callers search
by name. The model covers these parts:

- **Schema tree** (`schema.dfy`, `schema_build.dfy`).
  - A cube holds dimensions, hierarchies, levels and properties, plus measures.
  - Walking the tree enumerates hierarchies, levels and properties in dimension → hierarchy →
    level → property order.
  - The `get_*` lookups return the first element that matches, and fail when none does.
  - Base classes match by name. Tesseract levels and properties also match their unique name.
  - Building a cube from records stamps the parents' names onto each child, gives levels 1-based
    depths, maps the dimension type and splits the aggregator's `name` from its metadata.
- **Tesseract LogicLayer URL** (`tesseract_query.dfy`, `logiclayer_facts.dfy`, `url_order.dfy`).
  - `build_logiclayer_url` builds an insertion-ordered dictionary (`ordered_dict.dfy`) in stages:
    fixed keys, locale, cuts, limit, sort, calculations, option flags.
  - It then drops empty values, writes every list as a sorted comma-join and form-encodes the
    result (`form_encoding.dfy`, `text.dfy`).
  - Also modelled: filter serialization, effective names, the validity check and the endpoint
    check.
- **Legacy string-keyed query builder** (`legacy_query.dfy`). Covers its set-union setters,
  last-write-wins setters and validity check. A finding about its class-level containers is
  below.
- **Mondrian REST URL** (`mondrian.dfy`). Covers the fixed parameter order, the cut syntax, the
  `order_desc` flag, dropping only absent values, and one key repetition per list element.
- **Tesseract server helpers** (`tesseract_server.dfy`).
  - `join_name`, `cube_from_tesseract` and `members_from_tesseract`.
  - The legacy static `build_logiclayer_url`.
  - The endpoint checks of `build_query_url` and `setEndpoint`.

Python dictionaries are sequences of pairs kept in insertion order. Assigning an existing key
overwrites it in place; a new key is appended. Python sets that the code iterates are sequences
in their iteration order. Only the Tesseract LogicLayer URL is proved not to depend on that
order. The Mondrian URL and the legacy Tesseract URL iterate sets directly: they are modelled
for one fixed order, the order of first insertion, and no order independence is claimed for
them.

Every crash of the Python code becomes an `Err` value of `Outcome.Result`. These include:

- `StopIteration` from a failed lookup;
- the `KeyError` for an unsupported endpoint;
- the `TypeError` of the `time` branch;
- `.append` on a string when a cut's level is literally named `exclude`;
- a missing `ID` or aggregator `name`.

Where the library's written description and its code differ, the model follows the code:

- Cut members are joined in their stored order and are not sorted. Only values that are lists or
  sets when the dictionary is finalised get sorted, and a cut's value is already a string by then.
- `join_name` brackets every part whenever it gets at least one part. `next(...)` yields a
  boolean, which is never `None`, so the unbracketed branch is unreachable.

## Model

| member | source | states |
|---|---|---|
| Schema.CubeGetDimension | olap_client/models.py:57-59 | The result is the first dimension whose name equals the argument; the lookup fails with NotFound exactly when no dimension has that name |
| Schema.CubeGetHierarchy | olap_client/models.py:61-63 | The result is the first hierarchy with that name in dimension-then-hierarchy order; it fails exactly when no hierarchy of any dimension has the name |
| Schema.CubeGetLevel | olap_client/models.py:65-67 | The result is the first level in the cube's dimension → hierarchy → level enumeration that matches the name, so it does match; failure happens exactly when no level in that enumeration matches |
| Schema.CubeGetMeasure | olap_client/models.py:69-71 | The result is the first measure with exactly that name; it fails exactly when no measure has it |
| Schema.CubeGetProperty | olap_client/models.py:73-75 | The result is the first property in the cube's four-level enumeration that matches the name; it fails exactly when none matches |
| Schema.DimensionGetHierarchy | olap_client/models.py:108-110 | The result is the dimension's first hierarchy with that name; it fails exactly when none has it |
| Schema.DimensionGetLevel | olap_client/models.py:112-114 | The result is the first matching level among the dimension's own levels, taken hierarchy by hierarchy |
| Schema.DimensionGetProperty | olap_client/models.py:116-118 | The result is the first matching property among the dimension's own properties, taken level by level |
| Schema.HierarchyGetLevel | olap_client/models.py:148-150 | The result is the first matching level of the hierarchy; it fails exactly when none of its levels matches |
| Schema.HierarchyGetProperty | olap_client/models.py:152-154 | The result is the first matching property of the hierarchy's levels, in level order |
| Schema.LevelGetProperty | olap_client/models.py:181-183 | The result is the first matching property of the level; it fails exactly when none matches |
| Schema.GenericMatchesByName | olap_client/models.py:177-179 | A level or property without a unique name (the base classes) matches a name exactly when the name equals its own name |
| Schema.DimensionPropertiesOrder | olap_client/models.py:101-106 | A dimension's property enumeration, walked through its levels, equals the concatenation of its hierarchies' property enumerations in hierarchy order |
| Schema.HierarchyLevelInDimension | olap_client/models.py:94-99 | A level found in one of a dimension's hierarchies belongs to the dimension's level enumeration, and the dimension's own lookup of that name succeeds |
| Schema.DimensionLevelInCube | olap_client/models.py:36-42 | A level found in one of a cube's dimensions belongs to the cube's level enumeration, and the cube's lookup of that name succeeds |
| Schema.DimensionHierarchyInCube | olap_client/models.py:29-34 | A hierarchy found in one of a cube's dimensions belongs to the cube's hierarchy enumeration, and the cube's lookup succeeds |
| Schema.LevelPropertyInHierarchy | olap_client/models.py:137-142 | A property found in a level of a hierarchy is in the hierarchy's property enumeration, and the hierarchy's lookup succeeds |
| Schema.HierarchyPropertyInDimension | olap_client/models.py:101-106 | A property found in a hierarchy of a dimension is in the dimension's property enumeration, and the dimension's lookup succeeds |
| Schema.DimensionPropertyInCube | olap_client/models.py:44-51 | A property found in a dimension of a cube is in the cube's property enumeration, and the cube's lookup succeeds |
| Schema.FindFirstIsUnique | olap_client/models.py:59 | Only one element can be the first to satisfy a test, so every `next(...)` lookup has a single possible answer |
| SchemaBuild.MapDimensionType | olap_client/tesseract/schema.py:38-47 | Accepts exactly `standard`, `time` and `geo`, mapping each to the type of the same name; any other string is rejected |
| SchemaBuild.DimensionTypeRoundTrip | olap_client/tesseract/schema.py:38-47 | Each dimension type's string maps back to that same type |
| SchemaBuild.MapAggregator | olap_client/tesseract/schema.py:105-111 | The aggregator name is the record's `name` field, or `unknown` when the field or the record is missing; the metadata never contains `name`, and putting the name back restores the original record |
| SchemaBuild.BuildMeasure | olap_client/tesseract/schema.py:100-111 | A built measure keeps the record's name and annotations and splits its aggregator as described above |
| SchemaBuild.PropertyRecords | olap_client/models.py:170 | A level whose properties are missing or null gets an empty property list; otherwise it keeps the given list |
| SchemaBuild.BuildProperties | olap_client/models.py:167-175 | Each built property keeps its record's name, unique name, caption set and annotations, and carries the names of its dimension, hierarchy and level |
| SchemaBuild.BuildLevels | olap_client/tesseract/schema.py:55-60 | The k-th level record of a hierarchy is built with depth one more than the depth before it, starting at the given depth |
| SchemaBuild.BuildDimensions | olap_client/tesseract/schema.py:38-47 | Building the dimensions succeeds exactly when every dimension type is valid; on failure the error names an invalid type that occurs |
| SchemaBuild.HierarchyStampedBuilt | olap_client/tesseract/schema.py:55-60 | In a built hierarchy, level k (counting from 1) has depth k and carries the hierarchy's and the dimension's names, and its properties carry all three owners' names |
| SchemaBuild.DimensionStampedBuilt | olap_client/models.py:87-92 | Every hierarchy of a built dimension carries the dimension's name, and the levels under it are stamped with 1-based consecutive depths |
| SchemaBuild.BuildCubeStamped | olap_client/models.py:129-135 | In a built cube, every hierarchy, level and property carries its owners' names, and each hierarchy's level depths run 1, 2, … in order |
| SchemaBuild.BuildCubeOkIff | olap_client/tesseract/schema.py:38-47 | A cube builds exactly when every dimension's type is `standard`, `time` or `geo` |
| SchemaBuild.BuildCubeShape | olap_client/tesseract/schema.py:21-60 | Building keeps the number and names of dimensions, hierarchies and levels at every position, and the number of property records of each level |
| TesseractQuery.ValueName | olap_client/tesseract/query.py:74-77 | A filter's value name is the raw string when the value is a calculation name, and the measure's name when it is a measure |
| TesseractQuery.FilterFields | olap_client/tesseract/query.py:79-84 | A filter has six dot-separated fields when the joint and the second condition are present, and three otherwise |
| TesseractQuery.MakeTopk | olap_client/tesseract/query.py:45-55 | A top-k calculation's order is `desc` exactly when it is descending and `asc` exactly when it is not |
| TesseractQuery.NewQuery | olap_client/tesseract/schema.py:28-29 | `new_query` gives a query bound to that cube that asks for JSON records and has no cuts, drilldowns, filters, measures, calculations, locale, time, options, limit or sort key, with sort direction `desc` |
| TesseractQuery.LevelName | olap_client/tesseract/query.py:261-263 | The effective name is the unique name when that is non-empty and the name otherwise; the level always matches its effective name, so the name resolves back to it |
| TesseractQuery.PropertyName | olap_client/tesseract/query.py:261-263 | The same rule for properties: unique name if non-empty, else name, and the property matches the result |
| TesseractQuery.RaiseOnInvalid | olap_client/tesseract/query.py:107-116 | Validation fails exactly when there are no drilldowns, or no measures, or a filter whose value is a measure not among the query's measures |
| TesseractQuery.CheckFilters | olap_client/tesseract/query.py:114-116 | The filter loop rejects exactly when some filter's measure value is missing from the measures |
| TesseractQuery.InitialParams | olap_client/tesseract/query.py:183-200 | The dictionary starts with exactly the keys cube, measures, drilldowns, properties, filters and exclude, in that order |
| TesseractQuery.ApplyCut | olap_client/tesseract/query.py:205-209 | A cut sets its level's effective name to the members comma-joined in stored order. An exclusive cut also appends that name to `exclude`. It fails exactly when it is exclusive and `exclude` is no longer a list, or the level is itself named `exclude` |
| TesseractQuery.CheckTime | olap_client/tesseract/query.py:218-219 | The time branch fails exactly when both time components are set, which is the only case in which it runs |
| TesseractQuery.CalcKey | olap_client/tesseract/query.py:221-241 | Only growth, rca and topk calculations produce a key: growth writes `growth`, rca writes `rca` and topk writes `top` |
| TesseractQuery.ApplyCalculation | olap_client/tesseract/query.py:221-241 | A calculation of another kind changes nothing. A known kind overwrites its key with its text, or fails when its parameters cannot be written |
| TesseractQuery.Finalize | olap_client/tesseract/query.py:255-257 | Every pair in the output is a valid entry of the dictionary, rendered, and every valid entry appears in the output |
| TesseractQuery.GetUrl | olap_client/tesseract/query.py:119-125 | The LogicLayer endpoint gives the LogicLayer URL; any other endpoint fails |
| LogicLayerFacts.FreshQueryParams | olap_client/tesseract/query.py:183-257 | A fresh query builds only its initial dictionary, and after dropping empties only `cube` survives, and only when the cube name is non-empty |
| LogicLayerFacts.FreshQueryUrl | olap_client/tesseract/query.py:258 | A fresh query's URL is `data.jsonrecords?cube=<quoted cube name>`, or `data.jsonrecords?` for an unnamed cube |
| LogicLayerFacts.JsonRecordsUrl | olap_client/tesseract/query.py:258 | With the default extension, the URL is `data.jsonrecords?` followed by the encoded parameters |
| LogicLayerFacts.ApplyCutKeys | olap_client/tesseract/query.py:205-209 | A cut appends its level's effective name to the key order, and `exclude` too when it is exclusive; a key already present keeps its place |
| LogicLayerFacts.WithCutsKeys | olap_client/tesseract/query.py:205-209 | After the cut loop, the keys are the previous keys followed by each new cut level name, in order of first appearance |
| LogicLayerFacts.WithCalculationsKeys | olap_client/tesseract/query.py:221-241 | After the calculation loop, the new keys `growth`, `rca`, `top` appear in order of their kind's first occurrence |
| LogicLayerFacts.WithOptionKeysKeys | olap_client/tesseract/query.py:243-253 | Option keys are appended in the order debug, exclude_default_members, parents, sparse, and only those switched on |
| LogicLayerFacts.BuildParamsKeys | olap_client/tesseract/query.py:183-253 | The whole dictionary's key order lists, each once at its first appearance: the fixed keys, locale, the cut level names, limit, sort, the calculation keys and the option keys |
| LogicLayerFacts.FinalizeKeys | olap_client/tesseract/query.py:255-257 | Dropping invalid values keeps the surviving keys in their dictionary order |
| LogicLayerFacts.UrlKeyOrder | olap_client/tesseract/query.py:183-257 | The keys that reach the URL appear in the order given above, with the dropped ones left out |
| LogicLayerFacts.LimitAndSort | olap_client/tesseract/query.py:211-216 | `limit` is written only when the page is positive, and `sort` only when a sort key is set, as `key.direction`; otherwise the cut stage's value (if any) stays |
| LogicLayerFacts.LaterStagesKeep | olap_client/tesseract/query.py:221-253 | The calculation and option stages never change `limit` or `sort` |
| LogicLayerFacts.LimitTextReadsBack | olap_client/tesseract/query.py:211-213 | The limit text splits at its comma into the page, followed by the offset only when the offset is positive |
| LogicLayerFacts.SerializeFilterReadsBack | olap_client/tesseract/query.py:79-84 | A serialized filter splits at its dots back into value name, operator and number, plus joint, second operator and second number exactly when the filter is joined |
| LogicLayerFacts.CaptionsIgnored | olap_client/tesseract/query.py:192-194 | Changing only the drilldowns' captions leaves the URL unchanged |
| LogicLayerFacts.WithOptionKeysGet | olap_client/tesseract/query.py:243-253 | An option key is set to `true` exactly when its option is present and true; every other key keeps its value |
| LogicLayerFacts.LastSetting | olap_client/tesseract/query.py:221-241 | The reference definition of "the last calculation of a kind": it occurs in the list, has that key, and no later calculation has it |
| LogicLayerFacts.WithCalculationsOkIff | olap_client/tesseract/query.py:221-241 | The calculation loop fails exactly when some growth, rca or topk calculation cannot write its text |
| LogicLayerFacts.WithCalculationsGet | olap_client/tesseract/query.py:221-241 | For each key, the last calculation of that kind wins; a key no calculation sets keeps its earlier value |
| LogicLayerFacts.WithCutsBrokenExclude | olap_client/tesseract/query.py:205-209 | Once a cut on a level named `exclude` has replaced the list with a string, the loop fails exactly when an exclusive cut remains |
| LogicLayerFacts.WithCutsOkIff | olap_client/tesseract/query.py:205-209 | The cut loop fails exactly when an exclusive cut comes after a cut whose level is named `exclude`, or is itself on such a level |
| LogicLayerFacts.WithCutsExclude | olap_client/tesseract/query.py:205-209 | Without a level named `exclude`, the loop succeeds and `exclude` gains the exclusive cuts' level names in cut order |
| LogicLayerFacts.WithCutsValue | olap_client/tesseract/query.py:205-209 | The last cut on a level decides that level's value: its members comma-joined in order |
| LogicLayerFacts.WithCutsUntouched | olap_client/tesseract/query.py:205-209 | A key that is not `exclude` and names no cut level is not changed by the cut loop |
| UrlOrder.ValueEquivRender | olap_client/tesseract/query.py:255-257 | Two collections with the same elements are both kept or both dropped, and render to the same sorted comma-join |
| UrlOrder.FinalizeEquiv | olap_client/tesseract/query.py:255-257 | Dictionaries with the same keys in the same order and collections equal up to order give the same final pairs |
| UrlOrder.PutEquiv | olap_client/tesseract/query.py:203 | Overwriting or appending the same key in two equivalent dictionaries keeps them equivalent |
| UrlOrder.BuildParamsEquiv | olap_client/tesseract/query.py:202-253 | Two queries with equivalent initial dictionaries and the same later settings succeed or fail together and give equivalent dictionaries |
| UrlOrder.UrlEquiv | olap_client/tesseract/query.py:255-258 | Such queries produce the same URL |
| UrlOrder.InitialEquiv | olap_client/tesseract/query.py:183-200 | Queries with the same cube name and the same measure, drilldown, property and filter names up to order have equivalent initial dictionaries |
| UrlOrder.ReorderedUrl | olap_client/tesseract/query.py:183-258 | Reordering the drilldowns, filters or measures of a query does not change its URL |
| UrlOrder.PropertyOrderUrl | olap_client/tesseract/query.py:194 | Reordering one drilldown's properties does not change the URL |
| LegacyQuery.NewQuery | olap_client/query.py:25-45 | The corrected, per-query constructor: a new query has the given cube name, empty containers, JSON records format and no locale, time, pagination, sorting or growth. The constructor as written shares class-level containers instead (LegacyQuery.SharedNewQuery and the finding below) |
| LegacyQuery.RaiseOnInvalid | olap_client/query.py:47-52 | Validation fails exactly when the cube name is empty, or there are no drilldowns, or there are no measures |
| LegacyQuery.Union | olap_client/query.py:67-69 | A set update holds exactly the old and the new elements, keeps the old ones first, and adds no duplicate |
| LegacyQuery.UnionPresent | olap_client/query.py:67-69 | Adding elements that are already present changes nothing |
| LegacyQuery.SetBoolean | olap_client/query.py:54-57 | Only a key already present is updated, to the new value; an absent key leaves the query unchanged, and nothing else changes |
| LegacyQuery.SetBooleanFresh | olap_client/query.py:54-57 | On a fresh query, whose booleans are empty, `set_boolean` is a no-op |
| LegacyQuery.SetCaption | olap_client/query.py:59-61 | The level's caption becomes the property; other levels' captions and the rest of the query are unchanged; a new level is appended to the key order and an existing one keeps its place |
| LegacyQuery.AddCut | olap_client/query.py:63-65 | The level's member set becomes the union of its old members and the new ones, so no member is removed; other levels are unchanged and a new level is appended to the key order |
| LegacyQuery.AddDrilldown | olap_client/query.py:67-69 | The drilldown set becomes the union of the old set and the arguments; nothing else changes |
| LegacyQuery.AddMeasure | olap_client/query.py:89-91 | The measure set becomes the union of the old set and the arguments; nothing else changes |
| LegacyQuery.AddProperty | olap_client/query.py:97-99 | The level's property set holds exactly its old properties and the new ones; other levels are unchanged; a new level is appended to the key order and an existing one keeps its place |
| LegacyQuery.SetFilter | olap_client/query.py:71-79 | With a truthy joint, the entry stores the flat tuple of the first condition, the joint and the second condition, and is an error when the second condition is missing; otherwise it stores the first condition alone, overwriting any earlier filter under that key in place; a new measure is appended to the key order |
| LegacyQuery.FilterComponents | olap_client/query.py:78 | `set_filter` stores the flat tuple `condition1`, or `condition1 + (joint,) + condition2`; in both shapes its items 0 and 1, which the Mondrian URL reads, are the first condition's operator and number |
| LegacyQuery.SetFormat | olap_client/query.py:81-83 | Only the format changes |
| LegacyQuery.SetGrowth | olap_client/query.py:85-87 | Only the growth pair changes, to the given level and measure |
| LegacyQuery.SetPagination | olap_client/query.py:93-95 | Only the pagination changes, to the given page and offset |
| LegacyQuery.SetSorting | olap_client/query.py:104-106 | Only the sorting changes; the direction defaults to `desc` when none is given |
| LegacyQuery.SetRca | olap_client/query.py:101-102 | `set_rca` leaves the query unchanged |
| LegacyQuery.SetTime | olap_client/query.py:108-109 | `set_time` leaves the query unchanged |
| LegacyQuery.SetTopk | olap_client/query.py:111-112 | `set_topk` leaves the query unchanged |
| LegacyQuery.SettersWellFormed | olap_client/query.py:63-99 | The set-valued containers never hold a repeated element after any of the `add_*` setters |
| LegacyQuery.AddDrilldownIdempotent | olap_client/query.py:67-69 | Adding the same drilldowns twice is the same as adding them once |
| LegacyQuery.AddMeasureIdempotent | olap_client/query.py:89-91 | Adding the same measures twice is the same as adding them once |
| LegacyQuery.AddDrilldownCommutes | olap_client/query.py:67-69 | Two drilldown additions in either order give the same set |
| LegacyQuery.AddMeasureCommutes | olap_client/query.py:89-91 | Two measure additions in either order give the same set |
| LegacyQuery.LastWriteWins | olap_client/query.py:93-106 | A second `set_pagination` or `set_sorting` completely replaces the first |
| LegacyQuery.ValidAfterAdding | olap_client/query.py:47-52 | A fresh query with a cube name is invalid, still invalid with only a drilldown, and valid once a measure is added too |
| LegacyQuery.SharedNewQuery | olap_client/query.py:25-45 | The constructor as written: a new query sees whatever the class-level containers hold, and is otherwise a fresh query |
| LegacyQuery.SharedContainersLeak | olap_client/query.py:25-40 | With shared containers, a second query passes validation because of the first query's drilldown and measure. A query with its own containers does not |
| Mondrian.StrCut | olap_client/mondrian/server.py:16-20 | A one-member cut is `level.&[m]`; any other cut is wrapped in braces |
| Mondrian.StrCutSplit | olap_client/mondrian/server.py:16-20 | Inside the braces, a cut of several members splits at its commas into `level.&[m]` for each member, in member order |
| Mondrian.MondrianKeyOrder | olap_client/mondrian/server.py:22-48 | The sent pairs follow the fixed literal key order from `caption[]` to `sparse` |
| Mondrian.ValuesForExpand | olap_client/mondrian/server.py:47-48 | A key's sent values are nothing when it is absent or maps to `None`, one value per element for a list, and one value otherwise |
| Mondrian.MondrianListValues | olap_client/mondrian/server.py:23-35 | Captions are sent as `level.prop`, cuts in cut syntax, filters as `calc op n`, and drilldowns and measures as stored, each value under its own repeated key |
| Mondrian.MondrianOrderValues | olap_client/mondrian/server.py:38-39 | `order_desc` is always sent, as `True` exactly when the direction is `desc` or `DESC`; `order` is sent only when a sort key is set |
| Mondrian.MondrianPagingValues | olap_client/mondrian/server.py:34-37 | `limit` and `offset` are sent only when set, as decimal integers |
| Mondrian.MondrianFlagValues | olap_client/mondrian/server.py:27-44 | A boolean option is sent, as `True` or `False`, exactly when the query has that key; `False` is not dropped |
| Mondrian.FreshMondrianPairs | olap_client/mondrian/server.py:22-47 | For a query whose containers are empty (the first query in a process, or any query with per-query containers), the only pair sent is `order_desc=False` |
| Mondrian.MondrianUrlAsWritten | olap_client/mondrian/server.py:16-26 | As written, the URL fails exactly when some stored cut has exactly one member, because `members[0]` is applied to a set; otherwise it is the corrected URL |
| Mondrian.SingleMemberCutFails | olap_client/mondrian/server.py:16-26 | As written, a new query with one `add_cut(level, member)` cannot be turned into a URL |
| Mondrian.SingleMemberCutSent | olap_client/mondrian/server.py:16-26 | Corrected, that query sends the single cut value `level.&[member]` |
| Mondrian.FreshMondrianUrl | olap_client/mondrian/server.py:49 | For a query whose containers are empty (the first query in a process, or any query with per-query containers), the URL is `<cube>/aggregate.jsonrecords?order_desc=False` |
| TesseractServer.JoinNameBracketsAll | olap_client/tesseract/server.py:219-228 | `join_name` brackets every part and joins them with dots; the result is empty exactly when there are no parts |
| TesseractServer.JoinNameSplit | olap_client/tesseract/server.py:219-228 | For parts without dots, splitting a full name at its dots and unbracketing recovers the parts |
| TesseractServer.MeasureRecords | olap_client/tesseract/server.py:191-199 | Measures convert exactly when every aggregator has a `name`, keeping number and order |
| TesseractServer.CubeFromTesseract | olap_client/tesseract/server.py:145-205 | A cube converts exactly when it has no named sets and every measure's aggregator has a name; it keeps the cube name and the number of dimensions and measures |
| TesseractServer.HierarchyRecordStampedBuilt | olap_client/tesseract/server.py:155-182 | Each converted level carries its dimension's and hierarchy's names, its name as caption, the joined full name and 1-based depth k for the k-th level |
| TesseractServer.DimensionRecordStampedBuilt | olap_client/tesseract/server.py:149-188 | Every hierarchy and level of a converted dimension is stamped with its owners' names and full names |
| TesseractServer.CubeFromTesseractStamped | olap_client/tesseract/server.py:145-205 | Every dimension of a converted cube is stamped that way throughout |
| TesseractServer.LevelFullNameReadsBack | olap_client/tesseract/server.py:165 | For dot-free names, a level's full name splits back into its dimension, hierarchy and level names |
| TesseractServer.LevelPropertiesBuilt | olap_client/tesseract/server.py:168-178 | A level with null properties gets none; otherwise it gets one property per record, with the record's name, in order |
| TesseractServer.PropertyRecords | olap_client/tesseract/server.py:168-178 | Each converted property carries its owners' names and the owning level's annotations |
| TesseractServer.MemberOf | olap_client/tesseract/server.py:208-216 | A member converts exactly when it has an `ID`; otherwise the error names the missing key |
| TesseractServer.MembersFromTesseract | olap_client/tesseract/server.py:208-216 | Conversion succeeds exactly when every member has an `ID`, and keeps number and order |
| TesseractServer.MemberFallbacks | olap_client/tesseract/server.py:211-213 | The key is the `ID`. The name is `Label` when present and non-empty, else `ID`. The caption is `<locale> Label` when present and non-empty, else the name; neither is empty when the ID is not |
| TesseractServer.LegacyKeyOrder | olap_client/tesseract/server.py:116-139 | The legacy dictionary has the 19 fixed keys in literal order, then each new cut level in first-appearance order |
| TesseractServer.WithCutValuesGet | olap_client/tesseract/server.py:138-139 | A cut level maps to its members comma-joined; every other key keeps its fixed value |
| TesseractServer.LegacyCutValues | olap_client/tesseract/server.py:138-139 | In the legacy dictionary, a cut level's value is its members comma-joined, overriding a fixed key of the same name |
| TesseractServer.LegacyPairsSent | olap_client/tesseract/server.py:141-142 | A pair is sent exactly when its key has a valid value in the dictionary, written as that value's text |
| TesseractServer.FixedFlag | olap_client/tesseract/server.py:116-136 | The four boolean keys hold the query's boolean option, or `None` when it has none |
| TesseractServer.LegacyFlagSent | olap_client/tesseract/server.py:116-141 | A boolean option that is set is sent, even when `False` |
| TesseractServer.FreshLegacyPairs | olap_client/tesseract/server.py:116-141 | For a query whose containers are empty (the first query in a process, or any query with per-query containers), only `cube` is sent, and only for a non-empty cube name |
| TesseractServer.FreshLegacyUrl | olap_client/tesseract/server.py:142 | For a query whose containers are empty (the first query in a process, or any query with per-query containers), the legacy URL is `data.jsonrecords?cube=<quoted name>`, or `data.jsonrecords?` for an empty name |
| TesseractServer.BuildQueryUrl | olap_client/tesseract/server.py:22-30 | The URL is built exactly when the endpoint is LogicLayer; any other endpoint fails |
| TesseractServer.SetEndpoint | olap_client/tesseract/server.py:59-63 | Every endpoint except Aggregate is accepted and stored; Aggregate is rejected |
| TesseractServer.EndpointsAlwaysBuild | olap_client/tesseract/server.py:22-63 | Whatever sequence of endpoint settings a new server goes through, it builds the legacy LogicLayer URL |
| TesseractServer.EndpointsStayLogicLayer | olap_client/tesseract/server.py:59-63 | Since Aggregate is always refused, a server on LogicLayer stays on LogicLayer |
| FormEncoding.QuotePlusSafe | olap_client/tesseract/query.py:258 | Form encoding writes only unreserved characters, `+` and `%` followed by hex digits |
| FormEncoding.QuoteCharFixed | olap_client/tesseract/query.py:258 | A character is written as itself exactly when it is unreserved (letters, digits, `_.-~`) |
| FormEncoding.QuotePlusUnreserved | olap_client/tesseract/query.py:258 | A string of unreserved characters is written unchanged |
| FormEncoding.Utf8 | olap_client/tesseract/query.py:258 | A character takes one to four bytes, and exactly one, equal to its code, when it is ASCII |
| FormEncoding.UnquoteQuotePlus | olap_client/tesseract/query.py:258 | Decoding undoes form encoding for ASCII strings |
| FormEncoding.DecodeEncodePair | olap_client/tesseract/query.py:258 | One encoded `key=value` decodes back to its pair, and contains no `&` |
| FormEncoding.EncodePairsRoundTrip | olap_client/tesseract/query.py:258 | For ASCII keys and values, the encoded query string decodes back to the same pairs in the same order |
| FormEncoding.EncodeOnePair | olap_client/tesseract/query.py:258 | A single pair with an unreserved key encodes as `key=` followed by the encoded value |
| OrderedDict.PutGet | olap_client/tesseract/query.py:207 | After assigning a key, reading it gives the new value and every other key reads as before |
| OrderedDict.PutKeys | olap_client/tesseract/query.py:207 | Assigning an existing key keeps the key order; a new key is appended at the end |
| OrderedDict.PutUnique | olap_client/tesseract/query.py:207 | Assignment never makes a key appear twice |
| Text.SortSpec | olap_client/tesseract/query.py:255 | Sorting gives an ordered list with the same elements and multiplicities |
| Text.SortIgnoresOrder | olap_client/tesseract/query.py:255 | Two lists with the same elements sort to the same list |
| Text.SplitJoin | olap_client/tesseract/query.py:255 | Joining comma-free parts with commas and splitting again gives back the parts |
| Text.IntToStringRoundTrip | olap_client/tesseract/query.py:81 | The decimal text of any integer parses back to that integer |

## Left out

- HTTP transport is not modelled, because it is network I/O. This covers `Server.query`, the `fetch_*` coroutines, the test HTTP server and the test fixtures.
- The aggregate-endpoint builders are not modelled: they only raise `NotImplementedError`, and the aggregate endpoint appears only as the error of `get_url`, `build_query_url` and `setEndpoint`.
- `transform_limit` and `transform_sort` in `olap_client/tesseract/server.py` are not modelled, because they are not valid Python.
- The `time` parameter of the Tesseract URL is not modelled as output. The branch always crashes when it runs, so it is modelled as the error `TesseractQuery.CheckTime` returns.
- Mondrian `properties[]` is a parameter of the model (`setRepr`), because the source writes the text of a whole Python set, which has no fixed form.
- TesseractQuery.RaiseOnInvalid: the inherited check that the cube is truthy is left out, because a cube object is always truthy.
- Pydantic machinery (type coercion, forward references, `__hash__`, alias and `min_auth_level` fields) is not modelled. Measure equality is structural equality of the record.
- Python set iteration order is not modelled. Sets that are iterated are sequences in first-insertion order. Only the Tesseract LogicLayer URL is proved not to depend on that order; the Mondrian and legacy Tesseract URLs are not.
- LegacyQuery.SetSorting: an explicit `order=None` argument is not modelled; `None` stands for an omitted argument, which defaults to `desc`.
- FormEncoding.UnquoteQuotePlus: the decode round trip is stated for ASCII text only. Non-ASCII characters are still encoded, as UTF-8 percent escapes.
- The `str`-based enumerations are modelled by their string values. Version-dependent formatting of `str` enums is not modelled.
- `Cube.new_query` of the base class is not modelled, because it passes a cube object where a name string is expected.
- The Tesseract query record's setters (`add_cut`, `add_drilldown` and the rest) are defined in a version of `olap_client/query.py` that is not part of this model. The record is built directly from the fields that `build_logiclayer_url` reads.
- Cut members are assumed to be strings. Integer members, as in `set_cut("Year", members=[2019, 2020])`, would make `",".join` at `olap_client/tesseract/query.py:207` raise `TypeError`; the model has no such input.
- Integer member IDs (`Union[str, int]`) are modelled as strings. Measure aggregator metadata values are strings.
- Required JSON fields other than `ID` and an aggregator's `name` (for example a dimension's `type` or a level's `unique_name`) are assumed present. Records are typed datatypes, so their absence cannot be expressed.
- The list/set branch of the server's `is_valid_value` is not exercised, because every value of the legacy dictionary is a string, a boolean or `None`.

## Findings

| source | as written | input that shows it | evidently intended | confidence | as-written member | corrected member |
|---|---|---|---|---|---|---|
| olap_client/query.py:25-40 | The containers (booleans, captions, cuts, drilldowns, filters, measures, properties) are class attributes, mutated in place by the `add_*`/`set_*` setters, so every `Query` shares them | `Query("trade_i_baci_a_92").add_drilldown("Year").add_measure("Trade Value")`, then a second `Query("trade_i_baci_a_92")`: the second passes `raise_on_invalid` without any drilldown or measure of its own | Each query owns empty containers, so a fresh query is invalid until it gets its own drilldown and measure | not executed | LegacyQuery.SharedContainersLeak | LegacyQuery.ValidAfterAdding |
| olap_client/mondrian/server.py:16-20 | A one-member cut is written as `members[0]`, but `add_cut` stores the members as a set, which cannot be indexed | `Query("sales").add_cut("Year", "2019")`, then building the Mondrian URL: `TypeError` | A one-member cut is sent as `Year.&[2019]` | not executed | Mondrian.SingleMemberCutFails | Mondrian.SingleMemberCutSent |
