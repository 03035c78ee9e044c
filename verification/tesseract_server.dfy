/** The pure helpers of the Tesseract server: full names, turning the server's cube and member
    records into the client's schema records, the legacy LogicLayer URL of a string-keyed query,
    and the endpoint checks. */
module TesseractServer {
  import opened Outcome
  import opened Seqs
  import opened Text
  import opened OrderedDict
  import opened FormEncoding
  import opened LegacyQuery
  import Mondrian
  import TesseractQuery

  // ---- full names ----

  function Bracket(part: string): string {
    "[" + part + "]"
  }

  function Bracketed(parts: seq<string>): (r: seq<string>)
    ensures |r| == |parts| && forall i :: 0 <= i < |parts| ==> r[i] == Bracket(parts[i])
    decreases |parts|
  {
    if |parts| == 0 then [] else [Bracket(parts[0])] + Bracketed(parts[1..])
  }

  /** `next(("." in token for token in parts), None)`: whether the first part holds a dot, or
      `None` when there are no parts. */
  function FirstDotTest(parts: seq<string>): Option<bool> {
    if |parts| == 0 then None else Some('.' in parts[0])
  }

  /** `join_name`: the parts joined with dots, each in brackets when the guard is not `None`. */
  function JoinName(parts: seq<string>): string {
    if FirstDotTest(parts).Some? then Join(".", Bracketed(parts)) else Join(".", parts)
  }

  /** The guard compares the first test's outcome with `None`, and `False` is not `None`: every part
      is bracketed whether or not any part holds a dot, and only no parts at all give `""`. */
  lemma JoinNameBracketsAll(parts: seq<string>)
    ensures JoinName(parts) == Join(".", Bracketed(parts))
    ensures JoinName(parts) == "" <==> |parts| == 0
  {
    if |parts| > 0 {
      var bs := Bracketed(parts);
      if |parts| == 1 {
        assert JoinName(parts) == bs[0];
      } else {
        assert JoinName(parts) == bs[0] + "." + Join(".", bs[1..]);
      }
      assert |bs[0]| >= 2;
    }
  }

  /** The inside of a bracketed part. */
  function Unbracket(s: string): string {
    if |s| >= 2 && s[0] == '[' && s[|s| - 1] == ']' then s[1..|s| - 1] else s
  }

  function Unbracketed(xs: seq<string>): (r: seq<string>)
    ensures |r| == |xs| && forall i :: 0 <= i < |xs| ==> r[i] == Unbracket(xs[i])
    decreases |xs|
  {
    if |xs| == 0 then [] else [Unbracket(xs[0])] + Unbracketed(xs[1..])
  }

  /** Reading a full name back: split at the dots and strip the brackets. */
  function SplitFullName(s: string): seq<string> {
    Unbracketed(Split(s, '.'))
  }

  /** A full name gives back its parts, as long as none of them holds a dot. */
  lemma JoinNameSplit(parts: seq<string>)
    requires |parts| >= 1
    requires forall i :: 0 <= i < |parts| ==> '.' !in parts[i]
    ensures SplitFullName(JoinName(parts)) == parts
  {
    var bs := Bracketed(parts);
    forall i | 0 <= i < |bs| ensures '.' !in bs[i] && Unbracket(bs[i]) == parts[i] {
      assert bs[i] == ['['] + parts[i] + [']'];
      assert bs[i][1..|bs[i]| - 1] == parts[i];
    }
    SplitJoin(bs, '.');
    assert JoinName(parts) == Join(['.'], bs);
  }

  // ---- cube records ----

  type Annotations = map<string, string>

  /** `record.get("annotations", {})`. */
  function AnnotationsOr(a: Option<Annotations>): Annotations {
    if a.Some? then a.value else map[]
  }

  /** The server's records; an optional field is `None` when the record lacks it (or, for
      `properties`, `default_hierarchy` and `unique_name`, holds null). */
  datatype JsonProperty = JsonProperty(name: string)

  datatype JsonLevel = JsonLevel(
    name: string,
    uniqueName: Option<string>,
    properties: Option<seq<JsonProperty>>,
    annotations: Option<Annotations>)

  datatype JsonHierarchy = JsonHierarchy(name: string, levels: seq<JsonLevel>, annotations: Option<Annotations>)

  datatype JsonDimension = JsonDimension(
    name: string,
    dimensionType: string,
    defaultHierarchy: Option<string>,
    hierarchies: seq<JsonHierarchy>,
    annotations: Option<Annotations>)

  /** `aggregator` is the aggregator object, whose `name` field may be missing. */
  datatype JsonMeasure = JsonMeasure(name: string, aggregator: map<string, string>, annotations: Option<Annotations>)

  /** `namedSets` counts the entries of `named_sets` (none when the field is missing). */
  datatype JsonCube = JsonCube(
    name: string,
    dimensions: seq<JsonDimension>,
    measures: seq<JsonMeasure>,
    namedSets: nat,
    annotations: Option<Annotations>)

  /** The client's generic records (`olap_client/cube.py`). A built cube never has named sets. */
  datatype PropertyRecord = PropertyRecord(
    annotations: Annotations, dimension: string, hierarchy: string, level: string, name: string)

  datatype LevelRecord = LevelRecord(
    annotations: Annotations,
    caption: string,
    depth: int,
    dimension: string,
    fullName: string,
    hierarchy: string,
    name: string,
    properties: seq<PropertyRecord>,
    uniqueName: Option<string>)

  datatype HierarchyRecord = HierarchyRecord(
    annotations: Annotations, dimension: string, fullName: string, levels: seq<LevelRecord>, name: string)

  datatype DimensionRecord = DimensionRecord(
    annotations: Annotations,
    defaultHierarchy: Option<string>,
    dimensionType: string,
    fullName: string,
    hierarchies: seq<HierarchyRecord>,
    name: string)

  datatype MeasureRecord = MeasureRecord(aggregatorType: string, annotations: Annotations, caption: string, name: string)

  datatype CubeRecord = CubeRecord(
    annotations: Annotations, dimensions: seq<DimensionRecord>, measures: seq<MeasureRecord>, name: string)

  /** Every property of a level carries the level's annotations, not its own. */
  function PropertyRecords(ps: seq<JsonProperty>, dim: string, hie: string, lvl: JsonLevel): (r: seq<PropertyRecord>)
    ensures |r| == |ps| && forall i :: 0 <= i < |ps| ==>
      r[i] == PropertyRecord(AnnotationsOr(lvl.annotations), dim, hie, lvl.name, ps[i].name)
    decreases |ps|
  {
    if |ps| == 0 then []
    else [PropertyRecord(AnnotationsOr(lvl.annotations), dim, hie, lvl.name, ps[0].name)]
         + PropertyRecords(ps[1..], dim, hie, lvl)
  }

  function LevelRecordOf(lvl: JsonLevel, dim: string, hie: string, depth: int): LevelRecord {
    LevelRecord(
      AnnotationsOr(lvl.annotations), lvl.name, depth, dim, JoinName([dim, hie, lvl.name]), hie, lvl.name,
      if lvl.properties.Some? then PropertyRecords(lvl.properties.value, dim, hie, lvl) else [],
      lvl.uniqueName)
  }

  /** `enumerate(levels, first)`. */
  function LevelRecords(ls: seq<JsonLevel>, dim: string, hie: string, first: int): (r: seq<LevelRecord>)
    ensures |r| == |ls| && forall k :: 0 <= k < |ls| ==> r[k] == LevelRecordOf(ls[k], dim, hie, first + k)
    decreases |ls|
  {
    if |ls| == 0 then [] else [LevelRecordOf(ls[0], dim, hie, first)] + LevelRecords(ls[1..], dim, hie, first + 1)
  }

  function HierarchyRecordOf(h: JsonHierarchy, dim: string): HierarchyRecord {
    HierarchyRecord(AnnotationsOr(h.annotations), dim, JoinName([dim, h.name]), LevelRecords(h.levels, dim, h.name, 1), h.name)
  }

  function HierarchyRecords(hs: seq<JsonHierarchy>, dim: string): (r: seq<HierarchyRecord>)
    ensures |r| == |hs| && forall i :: 0 <= i < |hs| ==> r[i] == HierarchyRecordOf(hs[i], dim)
    decreases |hs|
  {
    if |hs| == 0 then [] else [HierarchyRecordOf(hs[0], dim)] + HierarchyRecords(hs[1..], dim)
  }

  function DimensionRecordOf(d: JsonDimension): DimensionRecord {
    DimensionRecord(
      AnnotationsOr(d.annotations), d.defaultHierarchy, d.dimensionType, JoinName([d.name]),
      HierarchyRecords(d.hierarchies, d.name), d.name)
  }

  function DimensionRecords(ds: seq<JsonDimension>): (r: seq<DimensionRecord>)
    ensures |r| == |ds| && forall i :: 0 <= i < |ds| ==> r[i] == DimensionRecordOf(ds[i])
    decreases |ds|
  {
    if |ds| == 0 then [] else [DimensionRecordOf(ds[0])] + DimensionRecords(ds[1..])
  }

  /** `mea["aggregator"]["name"]` raises KeyError when the aggregator has no name. */
  function MeasureRecordOf(m: JsonMeasure): (r: Result<MeasureRecord>)
    ensures r.Ok? <==> "name" in m.aggregator
    ensures r.Err? ==> r.error == MissingKey("name")
  {
    if "name" in m.aggregator then Ok(MeasureRecord(m.aggregator["name"], AnnotationsOr(m.annotations), m.name, m.name))
    else Err(MissingKey("name"))
  }

  function MeasureRecords(ms: seq<JsonMeasure>): (r: Result<seq<MeasureRecord>>)
    ensures r.Ok? <==> forall i :: 0 <= i < |ms| ==> "name" in ms[i].aggregator
    ensures r.Ok? ==> |r.value| == |ms| && forall i :: 0 <= i < |ms| ==> Ok(r.value[i]) == MeasureRecordOf(ms[i])
    ensures r.Err? ==> r.error == MissingKey("name")
    decreases |ms|
  {
    if |ms| == 0 then Ok([])
    else
      var m :- MeasureRecordOf(ms[0]);
      var rest :- MeasureRecords(ms[1..]);
      assert forall i :: 1 <= i < |ms| ==> ms[i] == ms[1..][i - 1];
      Ok([m] + rest)
  }

  /** `cube_from_tesseract`. The keyword arguments are evaluated in order, so a measure without an
      aggregator name fails first; a named set fails validation, since `NamedSet()` gets none of its
      required fields. */
  function CubeFromTesseract(c: JsonCube): (r: Result<CubeRecord>)
    ensures r.Ok? <==> c.namedSets == 0 && forall i :: 0 <= i < |c.measures| ==> "name" in c.measures[i].aggregator
    ensures r.Ok? ==> r.value.name == c.name && |r.value.dimensions| == |c.dimensions| && |r.value.measures| == |c.measures|
  {
    var dims := DimensionRecords(c.dimensions);
    var ms :- MeasureRecords(c.measures);
    if c.namedSets > 0 then Err(ValidationError("NamedSet"))
    else Ok(CubeRecord(AnnotationsOr(c.annotations), dims, ms, c.name))
  }

  // What the built records promise.

  predicate LevelRecordStamped(l: LevelRecord, dim: string, hie: string) {
    l.dimension == dim && l.hierarchy == hie && l.caption == l.name
    && l.fullName == JoinName([dim, hie, l.name])
    && forall p :: p in l.properties ==>
         p.dimension == dim && p.hierarchy == hie && p.level == l.name && p.annotations == l.annotations
  }

  predicate HierarchyRecordStamped(h: HierarchyRecord, dim: string) {
    h.dimension == dim && h.fullName == JoinName([dim, h.name])
    && (forall l :: l in h.levels ==> LevelRecordStamped(l, dim, h.name))
    && forall k :: 0 <= k < |h.levels| ==> h.levels[k].depth == k + 1
  }

  predicate DimensionRecordStamped(d: DimensionRecord) {
    d.fullName == JoinName([d.name]) && forall h :: h in d.hierarchies ==> HierarchyRecordStamped(h, d.name)
  }

  /** Every node carries its owners' names and a full name made of them, and the k-th level of a
      hierarchy (counting from 1) has depth k. */
  predicate CubeRecordStamped(c: CubeRecord) {
    forall d :: d in c.dimensions ==> DimensionRecordStamped(d)
  }

  lemma LevelRecordStampedBuilt(lvl: JsonLevel, dim: string, hie: string, depth: int)
    ensures LevelRecordStamped(LevelRecordOf(lvl, dim, hie, depth), dim, hie)
  {
  }

  lemma HierarchyRecordStampedBuilt(h: JsonHierarchy, dim: string)
    ensures HierarchyRecordStamped(HierarchyRecordOf(h, dim), dim)
  {
    var ls := LevelRecords(h.levels, dim, h.name, 1);
    forall l | l in ls ensures LevelRecordStamped(l, dim, h.name) {
      var k :| 0 <= k < |ls| && ls[k] == l;
      LevelRecordStampedBuilt(h.levels[k], dim, h.name, 1 + k);
    }
  }

  lemma DimensionRecordStampedBuilt(d: JsonDimension)
    ensures DimensionRecordStamped(DimensionRecordOf(d))
  {
    var r := DimensionRecordOf(d);
    forall h | h in r.hierarchies ensures HierarchyRecordStamped(h, d.name) {
      var j :| 0 <= j < |r.hierarchies| && r.hierarchies[j] == h;
      HierarchyRecordStampedBuilt(d.hierarchies[j], d.name);
    }
  }

  lemma CubeFromTesseractStamped(c: JsonCube)
    requires CubeFromTesseract(c).Ok?
    ensures CubeRecordStamped(CubeFromTesseract(c).value)
  {
    var ds := CubeFromTesseract(c).value.dimensions;
    assert ds == DimensionRecords(c.dimensions);
    forall d | d in ds ensures DimensionRecordStamped(d) {
      var i :| 0 <= i < |ds| && ds[i] == d;
      DimensionRecordStampedBuilt(c.dimensions[i]);
    }
  }

  /** A level's full name reads back as its dimension, hierarchy and own name when none of them
      holds a dot. */
  lemma LevelFullNameReadsBack(l: LevelRecord, dim: string, hie: string)
    requires LevelRecordStamped(l, dim, hie)
    requires '.' !in dim && '.' !in hie && '.' !in l.name
    ensures SplitFullName(l.fullName) == [l.dimension, l.hierarchy, l.name]
  {
    var parts := [dim, hie, l.name];
    forall i | 0 <= i < 3 ensures '.' !in parts[i] {
      assert i == 0 || i == 1 || i == 2;
    }
    JoinNameSplit(parts);
  }

  /** A level whose record has no property list, or a null one, gets no properties; otherwise one
      per listed property, in order. */
  lemma LevelPropertiesBuilt(lvl: JsonLevel, dim: string, hie: string, depth: int)
    ensures lvl.properties.None? ==> LevelRecordOf(lvl, dim, hie, depth).properties == []
    ensures lvl.properties.Some? ==>
      var ps := LevelRecordOf(lvl, dim, hie, depth).properties;
      |ps| == |lvl.properties.value| && forall i :: 0 <= i < |ps| ==> ps[i].name == lvl.properties.value[i].name
  {
  }

  // ---- members ----

  /** A member record, its fields as strings. */
  type JsonMember = map<string, string>

  datatype Member = Member(caption: string, key: string, name: string)

  /** `a or b`: a missing or empty field does not count. */
  predicate Present(m: JsonMember, k: string) {
    k in m && m[k] != ""
  }

  /** One member; `mem["ID"]` raises KeyError when the record has no `ID`. */
  function MemberOf(m: JsonMember, locale: string): (r: Result<Member>)
    ensures r.Ok? <==> "ID" in m
    ensures r.Err? ==> r.error == MissingKey("ID")
  {
    if "ID" !in m then Err(MissingKey("ID"))
    else
      var name := if Present(m, "Label") then m["Label"] else m["ID"];
      var caption := if Present(m, locale + " Label") then m[locale + " Label"] else name;
      Ok(Member(caption, m["ID"], name))
  }

  /** `members_from_tesseract`. */
  function MembersFromTesseract(ms: seq<JsonMember>, locale: string): (r: Result<seq<Member>>)
    ensures r.Ok? <==> forall i :: 0 <= i < |ms| ==> "ID" in ms[i]
    ensures r.Ok? ==> |r.value| == |ms| && forall i :: 0 <= i < |ms| ==> Ok(r.value[i]) == MemberOf(ms[i], locale)
    decreases |ms|
  {
    if |ms| == 0 then Ok([])
    else
      var m :- MemberOf(ms[0], locale);
      var rest :- MembersFromTesseract(ms[1..], locale);
      assert forall i :: 1 <= i < |ms| ==> ms[i] == ms[1..][i - 1];
      Ok([m] + rest)
  }

  /** The caption chain is `"<locale> Label"`, then `Label`, then `ID`, and the name chain is `Label`,
      then `ID`: the key is the ID, a member without a localized label is captioned by its name, and
      neither caption nor name is empty unless the ID is. */
  lemma MemberFallbacks(m: JsonMember, locale: string)
    requires "ID" in m
    ensures var mem := MemberOf(m, locale).value;
      mem.key == m["ID"]
      && (Present(m, "Label") ==> mem.name == m["Label"])
      && (!Present(m, "Label") ==> mem.name == m["ID"])
      && (Present(m, locale + " Label") ==> mem.caption == m[locale + " Label"])
      && (!Present(m, locale + " Label") ==> mem.caption == mem.name)
      && (m["ID"] != "" ==> mem.caption != "" && mem.name != "")
  {
  }

  // ---- the legacy LogicLayer URL ----

  /** A value of the legacy parameter dictionary. */
  datatype LegacyValue = NoValue | Str(text: string) | Bool(flag: bool)

  /** `is_valid_value`: `None` and `""` are dropped, a boolean (even `False`) is kept. */
  predicate IsValidValue(v: LegacyValue) {
    match v
    case NoValue => false
    case Str(s) => s != ""
    case Bool(_) => true
  }

  /** `str(v)`, as `urlencode` applies it. */
  function ValueText(v: LegacyValue): string {
    match v
    case NoValue => "None"
    case Str(s) => s
    case Bool(b) => Mondrian.BoolText(b)
  }

  function BooleanValue(q: Query, k: string): LegacyValue {
    if k in q.containers.booleans then Bool(q.containers.booleans[k]) else NoValue
  }

  const LegacyFixedKeys: seq<string> := ["cube", "debug", "drilldowns", "exclude_default_members", "exclude",
    "filters", "growth", "limit", "locale", "measures", "parents", "properties", "rate", "rca", "sort",
    "sparse", "time", "top_where", "top"]

  /** The dictionary literal of the static `build_logiclayer_url`, given the values it reads from
      the query. */
  function LegacyLiteral(cube: string, debug: LegacyValue, drilldowns: string, excludeDefault: LegacyValue,
                         measures: string, parents: LegacyValue, sparse: LegacyValue): Dict<string, LegacyValue> {
    [("cube", Str(cube)),
     ("debug", debug),
     ("drilldowns", Str(drilldowns)),
     ("exclude_default_members", excludeDefault),
     ("exclude", Str("")),
     ("filters", Str("")),
     ("growth", Str("")),
     ("limit", Str("")),
     ("locale", Str("")),
     ("measures", Str(measures)),
     ("parents", parents),
     ("properties", Str("")),
     ("rate", Str("")),
     ("rca", Str("")),
     ("sort", Str("")),
     ("sparse", sparse),
     ("time", Str("")),
     ("top_where", Str("")),
     ("top", Str(""))]
  }

  function LegacyFixedParams(q: Query): Dict<string, LegacyValue> {
    LegacyLiteral(q.cube, BooleanValue(q, "debug"), Join(",", q.containers.drilldowns),
                  BooleanValue(q, "exclude_default_members"), Join(",", q.containers.measures),
                  BooleanValue(q, "parents"), BooleanValue(q, "sparse"))
  }

  /** `all_params[level] = ",".join(members)` for each cut, in the cuts' order. */
  function WithCutValues(p: Dict<string, LegacyValue>, cuts: Dict<string, seq<string>>): Dict<string, LegacyValue>
    decreases |cuts|
  {
    if |cuts| == 0 then p else WithCutValues(Put(p, cuts[0].0, Str(Join(",", cuts[0].1))), cuts[1..])
  }

  function LegacyParams(q: Query): Dict<string, LegacyValue> {
    WithCutValues(LegacyFixedParams(q), q.containers.cuts)
  }

  function SendEntry(e: (string, LegacyValue)): seq<(string, string)> {
    if IsValidValue(e.1) then [(e.0, ValueText(e.1))] else []
  }

  function LegacyPairs(q: Query): seq<(string, string)> {
    FlatMap(LegacyParams(q), SendEntry)
  }

  /** The static `TesseractServer.build_logiclayer_url`. */
  function LegacyLogicLayerUrl(q: Query): string {
    "data." + q.format.Value() + "?" + EncodePairs(LegacyPairs(q))
  }

  lemma {:induction false} WithCutValuesKeys(p: Dict<string, LegacyValue>, cuts: Dict<string, seq<string>>)
    ensures Keys(WithCutValues(p, cuts)) == AddNew(Keys(p), Keys(cuts))
    decreases |cuts|
  {
    if |cuts| > 0 {
      var p' := Put(p, cuts[0].0, Str(Join(",", cuts[0].1)));
      PutKeys(p, cuts[0].0, Str(Join(",", cuts[0].1)));
      WithCutValuesKeys(p', cuts[1..]);
      assert Keys(cuts) == [cuts[0].0] + Keys(cuts[1..]);
      assert Keys(cuts)[1..] == Keys(cuts[1..]);
    }
  }

  /** The parameters are the literal's keys in literal order, then each cut level that is not one of
      them, in the order the cuts were added. */
  lemma LegacyKeyOrder(q: Query)
    ensures Keys(LegacyParams(q)) == AddNew(LegacyFixedKeys, Keys(q.containers.cuts))
  {
    var p := LegacyFixedParams(q);
    assert Keys(p) == LegacyFixedKeys;
    WithCutValuesKeys(p, q.containers.cuts);
  }

  lemma {:induction false} WithCutValuesGet(p: Dict<string, LegacyValue>, cuts: Dict<string, seq<string>>, k: string)
    requires UniqueKeys(cuts)
    ensures Get(WithCutValues(p, cuts), k) ==
      if k in Keys(cuts) then Some(Str(Join(",", Get(cuts, k).value))) else Get(p, k)
    decreases |cuts|
  {
    if |cuts| > 0 {
      var v := Str(Join(",", cuts[0].1));
      var p' := Put(p, cuts[0].0, v);
      UniqueTail(cuts);
      WithCutValuesGet(p', cuts[1..], k);
      PutGet(p, cuts[0].0, v, k);
      assert Keys(cuts) == [cuts[0].0] + Keys(cuts[1..]);
    }
  }

  /** A cut level's parameter holds its members comma-joined in stored order, even when the level is
      named like a fixed key; every other parameter keeps the literal's value. */
  lemma LegacyCutValues(q: Query, k: string)
    requires UniqueKeys(q.containers.cuts)
    ensures var cuts := q.containers.cuts;
      Get(LegacyParams(q), k) ==
        if k in Keys(cuts) then Some(Str(Join(",", Get(cuts, k).value))) else Get(LegacyFixedParams(q), k)
  {
    WithCutValuesGet(LegacyFixedParams(q), q.containers.cuts, k);
  }

  /** The query string sends exactly the entries whose value is worth sending, as `str` of it. */
  lemma LegacyPairsSent(q: Query, pair: (string, string))
    ensures pair in LegacyPairs(q) <==>
      exists i :: 0 <= i < |LegacyParams(q)| && LegacyParams(q)[i].0 == pair.0
        && IsValidValue(LegacyParams(q)[i].1) && ValueText(LegacyParams(q)[i].1) == pair.1
  {
    var p := LegacyParams(q);
    FlatMapMember(p, SendEntry, pair);
  }

  /** Each flag of the literal holds `booleans.get(flag)`. */
  lemma LiteralFlag(cube: string, debug: LegacyValue, drilldowns: string, excludeDefault: LegacyValue,
                    measures: string, parents: LegacyValue, sparse: LegacyValue, i: nat)
    requires i == 1 || i == 3 || i == 10 || i == 15
    ensures var f := LegacyLiteral(cube, debug, drilldowns, excludeDefault, measures, parents, sparse);
      Get(f, f[i].0) == Some(f[i].1)
  {
    var f := LegacyLiteral(cube, debug, drilldowns, excludeDefault, measures, parents, sparse);
    assert f[0].0 == "cube" && f[1].0 == "debug" && f[2].0 == "drilldowns" && f[3].0 == "exclude_default_members";
    assert f[4].0 == "exclude" && f[5].0 == "filters" && f[6].0 == "growth" && f[7].0 == "limit";
    assert f[8].0 == "locale" && f[9].0 == "measures" && f[10].0 == "parents" && f[11].0 == "properties";
    assert f[12].0 == "rate" && f[13].0 == "rca" && f[14].0 == "sort" && f[15].0 == "sparse";
    forall j | 0 <= j < i ensures f[j].0 != f[i].0 {
      assert j == 0 || j == 1 || j == 2 || j == 3 || j == 4 || j == 5 || j == 6 || j == 7 || j == 8 || j == 9
        || j == 10 || j == 11 || j == 12 || j == 13 || j == 14;
    }
    GetBefore(f, i);
  }

  lemma FixedFlag(q: Query, k: string)
    requires k == "debug" || k == "exclude_default_members" || k == "parents" || k == "sparse"
    ensures Get(LegacyFixedParams(q), k) == Some(BooleanValue(q, k))
  {
    var i := if k == "debug" then 1 else if k == "exclude_default_members" then 3 else if k == "parents" then 10 else 15;
    LiteralFlag(q.cube, BooleanValue(q, "debug"), Join(",", q.containers.drilldowns),
                BooleanValue(q, "exclude_default_members"), Join(",", q.containers.measures),
                BooleanValue(q, "parents"), BooleanValue(q, "sparse"), i);
  }

  /** An entry worth sending is sent. */
  lemma SentFromGet(d: Dict<string, LegacyValue>, k: string, v: LegacyValue)
    requires Get(d, k) == Some(v) && IsValidValue(v)
    ensures (k, ValueText(v)) in FlatMap(d, SendEntry)
  {
    FlatMapMember(d, SendEntry, (k, ValueText(v)));
  }

  /** A flag set to `False` is still sent, as `False`, unless a cut level takes its key. */
  lemma LegacyFlagSent(q: Query, k: string)
    requires k == "debug" || k == "exclude_default_members" || k == "parents" || k == "sparse"
    requires k in q.containers.booleans && k !in Keys(q.containers.cuts) && UniqueKeys(q.containers.cuts)
    ensures (k, Mondrian.BoolText(q.containers.booleans[k])) in LegacyPairs(q)
  {
    var p := LegacyParams(q);
    var b := q.containers.booleans[k];
    assert Get(p, k) == Some(Bool(b)) by {
      LegacyCutValues(q, k);
      FixedFlag(q, k);
    }
    SentFromGet(p, k, Bool(b));
  }

  lemma {:induction false} SendNone(d: Dict<string, LegacyValue>)
    requires forall i :: 0 <= i < |d| ==> !IsValidValue(d[i].1)
    ensures FlatMap(d, SendEntry) == []
    decreases |d|
  {
    if |d| > 0 {
      SendNone(d[1..]);
    }
  }

  lemma FreshLegacyPrefix(q: Query)
    requires q.format == JsonRecords
    ensures "data." + q.format.Value() + "?" == "data.jsonrecords?"
  {
  }

  /** A fresh query sends only its cube name. */
  lemma FreshLegacyPairs(cube: string)
    ensures LegacyPairs(NewQuery(cube)) == if cube == "" then [] else [("cube", cube)]
  {
    var q := NewQuery(cube);
    var d := LegacyFixedParams(q);
    assert LegacyParams(q) == d;
    var rest := d[1..];
    assert Join(",", q.containers.drilldowns) == "" && Join(",", q.containers.measures) == "";
    forall i | 0 <= i < |rest| ensures !IsValidValue(rest[i].1) {
      assert rest[i] == d[i + 1];
    }
    SendNone(rest);
    assert d == [d[0]] + rest;
    FlatMapAppend([d[0]], rest, SendEntry);
  }

  /** The URL of a fresh query. */
  lemma FreshLegacyUrl(cube: string)
    ensures LegacyLogicLayerUrl(NewQuery(cube)) ==
      "data.jsonrecords?" + if cube == "" then "" else "cube=" + QuotePlus(cube)
  {
    var q := NewQuery(cube);
    var pairs := LegacyPairs(q);
    assert EncodePairs(pairs) == (if cube == "" then "" else "cube=" + QuotePlus(cube)) by {
      FreshLegacyPairs(cube);
      TesseractQuery.CubeOnlyEncoded(cube, pairs);
    }
    FreshLegacyPrefix(q);
  }

  // ---- endpoints ----

  /** The server's state that URL building depends on; the endpoint starts as LogicLayer. */
  datatype Server = Server(baseUrl: string, endpoint: TesseractQuery.Endpoint)

  function NewServer(baseUrl: string): Server {
    Server(baseUrl, TesseractQuery.LogicLayer)
  }

  /** `build_query_url`: only the LogicLayer endpoint has a builder; any other raises KeyError. */
  function BuildQueryUrl(s: Server, q: Query): (r: Result<string>)
    ensures r.Ok? <==> s.endpoint == TesseractQuery.LogicLayer
    ensures r.Ok? ==> r.value == LegacyLogicLayerUrl(q)
    ensures r.Err? ==> r.error == UnknownEndpoint
  {
    if s.endpoint == TesseractQuery.LogicLayer then Ok(LegacyLogicLayerUrl(q)) else Err(UnknownEndpoint)
  }

  /** `setEndpoint`: the Aggregate endpoint is refused with NotImplementedError. */
  function SetEndpoint(s: Server, e: TesseractQuery.Endpoint): (r: Result<Server>)
    ensures r.Ok? <==> e != TesseractQuery.Aggregate
    ensures r.Ok? ==> r.value == s.(endpoint := e)
    ensures r.Err? ==> r.error == NotImplemented
  {
    if e == TesseractQuery.Aggregate then Err(NotImplemented) else Ok(s.(endpoint := e))
  }

  /** The endpoint can only ever be LogicLayer, so a server built by `NewServer` and changed only
      through `SetEndpoint` always builds a URL. */
  lemma EndpointsAlwaysBuild(baseUrl: string, es: seq<TesseractQuery.Endpoint>, q: Query)
    ensures BuildQueryUrl(ApplyEndpoints(NewServer(baseUrl), es), q) == Ok(LegacyLogicLayerUrl(q))
  {
    EndpointsStayLogicLayer(NewServer(baseUrl), es);
  }

  /** Calling `setEndpoint` with each of `es`, skipping the calls that raise. */
  function ApplyEndpoints(s: Server, es: seq<TesseractQuery.Endpoint>): Server
    decreases |es|
  {
    if |es| == 0 then s
    else
      var r := SetEndpoint(s, es[0]);
      ApplyEndpoints(if r.Ok? then r.value else s, es[1..])
  }

  lemma {:induction false} EndpointsStayLogicLayer(s: Server, es: seq<TesseractQuery.Endpoint>)
    requires s.endpoint == TesseractQuery.LogicLayer
    ensures ApplyEndpoints(s, es).endpoint == TesseractQuery.LogicLayer
    decreases |es|
  {
    if |es| > 0 {
      var r := SetEndpoint(s, es[0]);
      EndpointsStayLogicLayer(if r.Ok? then r.value else s, es[1..]);
    }
  }
}
