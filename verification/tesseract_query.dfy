/** A Tesseract query and its LogicLayer URL, `data.<extension>?<form-encoded parameters>`.

    The parameters are collected in an insertion-ordered dictionary: the fixed keys `cube`,
    `measures`, `drilldowns`, `properties`, `filters` and `exclude` first, then `locale`, one key per
    cut level, `limit`, `sort`, one key per calculation kind and the option flags. Setting a key that
    is already present replaces its value in place. Finally every collection value is written as its
    sorted elements joined by commas, empty values are dropped, and the rest is form-encoded. */
module TesseractQuery {
  import opened Outcome
  import opened Seqs
  import opened Text
  import opened OrderedDict
  import opened FormEncoding
  import opened Schema

  /** The server endpoints a query can be addressed to. */
  datatype Endpoint = Aggregate | LogicLayer

  const JsonRecords := "jsonrecords"

  /** What a filter constrains: a calculation given by its kind, or a measure. */
  datatype FilterValue = Named(kind: string) | OfMeasure(measure: Measure)

  /** `TesseractFilter.value_name`. */
  function ValueName(v: FilterValue): (r: string)
    ensures v.Named? ==> r == v.kind
    ensures v.OfMeasure? ==> r == v.measure.name
  {
    match v
    case Named(kind) => kind
    case OfMeasure(m) => m.name
  }

  /** A comparison and its integer operand, such as `("gt", 200)`. */
  type Constraint = (string, int)

  /** A filter with one constraint, or two joined by `joint`. The second constraint's comparison
      is `None` when it is not set; its operand is then never read. */
  datatype Filter = Filter(
    value: FilterValue,
    constraint1: Constraint,
    joint: Option<string>,
    constraint2: Option<Constraint>)
  {
    /** Whether the second constraint is written: the joint and its comparison are both set. */
    predicate Joined() {
      joint.Some? && constraint2.Some?
    }
  }

  function FilterFields(f: Filter): (fields: seq<string>)
    ensures |fields| == if f.Joined() then 6 else 3
  {
    [ValueName(f.value), f.constraint1.0, IntToString(f.constraint1.1)]
    + if f.Joined() then [f.joint.value, f.constraint2.value.0, IntToString(f.constraint2.value.1)] else []
  }

  /** `TesseractFilter.serialize`: `name.op.n`, followed by `.joint.op.n` when joined. */
  function SerializeFilter(f: Filter): string {
    Join(".", FilterFields(f))
  }

  /** A cut restricts a level to some members (`isExclusive` excludes them instead). */
  datatype Cut = Cut(level: Level, members: seq<string>, isExclusive: bool, isForMatch: bool)

  /** A drilldown on a level with extra properties (a set, listed in iteration order) and an
      optional caption property. */
  datatype Drilldown = Drilldown(level: Level, properties: seq<Property>, caption: Option<Property>)

  /** The calculation records. `Other` is a calculation built from a bare kind with no parameters. */
  datatype Calculation =
    | Growth(period: Level, growthValue: Measure)
    | Rca(location: Level, category: Level, rcaValue: Measure)
    | Topk(amount: int, topCategory: Level, topValue: FilterValue, order: string)
    | Other(kind: string)
  {
    function Kind(): string {
      match this
      case Growth(_, _) => "growth"
      case Rca(_, _, _) => "rca"
      case Topk(_, _, _, _) => "topk"
      case Other(k) => k
    }
  }

  /** `TopkCalculation(amount, category, value, descendent)`: descending unless told otherwise. */
  function MakeTopk(amount: int, category: Level, value: FilterValue, descendent: bool): (c: Calculation)
    ensures c.Kind() == "topk" && c.Topk?
    ensures c.order == "desc" <==> descendent
    ensures c.order == "asc" <==> !descendent
  {
    Topk(amount, category, value, if !descendent then "asc" else "desc")
  }

  /** The query record. Cuts, drilldowns and filters are the values of their dictionaries in
      insertion order; `measures` lists a set in its iteration order. */
  datatype Query = Query(
    cube: Cube,
    cuts: seq<Cut>,
    drilldowns: seq<Drilldown>,
    filters: seq<Filter>,
    measures: seq<Measure>,
    calculations: seq<Calculation>,
    locale: Option<string>,
    time: (Option<string>, Option<string>),
    pagination: (int, int),
    sorting: (Option<string>, string),
    options: map<string, bool>,
    extension: string)

  /** `TesseractCube.new_query()`: an empty query on the cube, asking for JSON records. */
  function NewQuery(cube: Cube): (q: Query)
    ensures q.cube == cube && q.extension == JsonRecords
    ensures q.cuts == [] && q.drilldowns == [] && q.filters == [] && q.measures == [] && q.calculations == []
    ensures q.locale.None? && q.time == (None, None) && q.options == map[]
    ensures q.pagination == (0, 0) && q.sorting == (None, "desc")
  {
    Query(cube, [], [], [], [], [], None, (None, None), (0, 0), (None, "desc"), map[], JsonRecords)
  }

  /** `get_unique_name` for a level: its unique name when that is set and not empty, else its name.
      Either way it is a name the level answers to. */
  function LevelName(l: Level): (r: string)
    ensures l.Matches(r)
    ensures r == l.name || (l.uniqueName == Some(r) && r != "")
    ensures l.uniqueName.Some? && l.uniqueName.value != "" ==> r == l.uniqueName.value
  {
    if l.uniqueName.Some? && l.uniqueName.value != "" then l.uniqueName.value else l.name
  }

  /** `get_unique_name` for a property. */
  function PropertyName(p: Property): (r: string)
    ensures p.Matches(r)
    ensures r == p.name || (p.uniqueName == Some(r) && r != "")
    ensures p.uniqueName.Some? && p.uniqueName.value != "" ==> r == p.uniqueName.value
  {
    if p.uniqueName.Some? && p.uniqueName.value != "" then p.uniqueName.value else p.name
  }

  /** `TesseractQuery.raise_on_invalid`: a query needs a drilldown and a measure, and every filter
      on a measure must filter one of the query's measures. */
  function RaiseOnInvalid(q: Query): (r: Result<()>)
    ensures r.Err? <==>
      |q.drilldowns| == 0 || |q.measures| == 0
      || exists i :: 0 <= i < |q.filters| && q.filters[i].value.OfMeasure? && q.filters[i].value.measure !in q.measures
    ensures r.Err? ==> r.error == InvalidQuery
  {
    if |q.drilldowns| == 0 || |q.measures| == 0 then Err(InvalidQuery)
    else CheckFilters(q.filters, q.measures)
  }

  function CheckFilters(fs: seq<Filter>, measures: seq<Measure>): (r: Result<()>)
    ensures r.Err? <==> exists i :: 0 <= i < |fs| && fs[i].value.OfMeasure? && fs[i].value.measure !in measures
    ensures r.Err? ==> r.error == InvalidQuery
    decreases |fs|
  {
    if |fs| == 0 then Ok(())
    else if fs[0].value.OfMeasure? && fs[0].value.measure !in measures then Err(InvalidQuery)
    else
      var r := CheckFilters(fs[1..], measures);
      assert forall i :: 1 <= i < |fs| ==> fs[i] == fs[1..][i - 1];
      r
  }

  // ---- the parameter dictionary ----

  /** A parameter value: a string, or a list or set of strings. */
  datatype ParamValue = Scalar(text: string) | Collection(items: seq<string>)

  type Params = Dict<string, ParamValue>

  /** `is_valid_value`: empty strings and empty collections are not worth sending. */
  predicate IsValidValue(v: ParamValue) {
    match v
    case Scalar(s) => s != ""
    case Collection(xs) => |xs| > 0
  }

  function IsValidFn(): ParamValue -> bool {
    (v: ParamValue) => IsValidValue(v)
  }

  /** The string a surviving value is sent as: a collection's elements are sorted and comma-joined. */
  function Render(v: ParamValue): string {
    match v
    case Scalar(s) => s
    case Collection(xs) => Join(",", Sort(xs))
  }

  function MeasureNameOf(m: Measure): seq<string> {
    [m.name]
  }

  function LevelNameOf(d: Drilldown): seq<string> {
    [LevelName(d.level)]
  }

  function PropertyNameOf(p: Property): seq<string> {
    [PropertyName(p)]
  }

  /** The names of a drilldown's properties, in the set's iteration order. */
  function PropertyNamesOf(d: Drilldown): seq<string> {
    FlatMap(d.properties, PropertyNameOf)
  }

  function FilterStringOf(f: Filter): seq<string> {
    [SerializeFilter(f)]
  }

  const FixedKeys: seq<string> := ["cube", "measures", "drilldowns", "properties", "filters", "exclude"]

  /** The dictionary literal, after the drilldown and filter loops have filled in their lists. The
      measure names form a set: each name once. */
  function InitialParams(q: Query): (p: Params)
    ensures Keys(p) == FixedKeys
  {
    [("cube", Scalar(q.cube.name)),
     ("measures", Collection(Distinct(FlatMap(q.measures, MeasureNameOf)))),
     ("drilldowns", Collection(FlatMap(q.drilldowns, LevelNameOf))),
     ("properties", Collection(FlatMap(q.drilldowns, PropertyNamesOf))),
     ("filters", Collection(FlatMap(q.filters, FilterStringOf))),
     ("exclude", Collection([]))]
  }

  function WithLocale(p: Params, locale: Option<string>): Params {
    if locale.Some? then Put(p, "locale", Scalar(locale.value)) else p
  }

  /** Whether `exclude` still holds a list that a cut can append to. */
  predicate ExcludeIsList(p: Params) {
    Get(p, "exclude").Some? && Get(p, "exclude").value.Collection?
  }

  /** One cut: its level's key gets the comma-joined members, and an exclusive cut also appends the
      level to `exclude` — which fails once a cut has replaced the `exclude` list by a string. */
  function ApplyCut(p: Params, cut: Cut): (r: Result<Params>)
    ensures r.Err? <==> cut.isExclusive && (LevelName(cut.level) == "exclude" || !ExcludeIsList(p))
    ensures r.Ok? ==> Get(r.value, LevelName(cut.level)) == Some(Scalar(Join(",", cut.members)))
    ensures r.Ok? && cut.isExclusive ==>
      Get(r.value, "exclude") == Some(Collection(Get(p, "exclude").value.items + [LevelName(cut.level)]))
    ensures r.Ok? && !cut.isExclusive && LevelName(cut.level) != "exclude" ==> Get(r.value, "exclude") == Get(p, "exclude")
  {
    var name := LevelName(cut.level);
    var p1 := Put(p, name, Scalar(Join(",", cut.members)));
    PutGet(p, name, Scalar(Join(",", cut.members)), "exclude");
    if !cut.isExclusive then Ok(p1)
    else
      var excluded: Option<ParamValue> := Get(p1, "exclude");
      if excluded.None? then Err(MissingKey("exclude"))
      else if excluded.value.Scalar? then Err(BadOperand("exclude"))
      else
        var xs := excluded.value.items;
        PutGet(p1, "exclude", Collection(xs + [name]), name);
        Ok(Put(p1, "exclude", Collection(xs + [name])))
  }

  function WithCuts(p: Params, cuts: seq<Cut>): Result<Params>
    decreases |cuts|
  {
    if |cuts| == 0 then Ok(p)
    else
      var p1 :- ApplyCut(p, cuts[0]);
      WithCuts(p1, cuts[1..])
  }

  /** The `limit` text: `page` alone, or `page,offset` when the offset is positive. */
  function LimitText(pagination: (int, int)): string {
    if pagination.1 > 0 then IntToString(pagination.0) + "," + IntToString(pagination.1)
    else IntToString(pagination.0)
  }

  function WithLimit(p: Params, pagination: (int, int)): Params {
    if pagination.0 > 0 then Put(p, "limit", Scalar(LimitText(pagination))) else p
  }

  function WithSort(p: Params, sorting: (Option<string>, string)): Params {
    if sorting.0.Some? then Put(p, "sort", Scalar(sorting.0.value + "." + sorting.1)) else p
  }

  /** The `time` branch calls `str.join` with two arguments, so it raises whenever both the time
      precision and value are set. */
  function CheckTime(time: (Option<string>, Option<string>)): (r: Result<()>)
    ensures r.Err? <==> time.0.Some? && time.1.Some?
  {
    if time.0.Some? && time.1.Some? then Err(BadOperand("time")) else Ok(())
  }

  /** The parameter a calculation sets, if it is of a kind the URL knows. */
  function CalcKey(c: Calculation): (k: Option<string>)
    ensures k.Some? <==> c.Kind() in {"growth", "rca", "topk"}
    ensures c.Kind() == "growth" ==> k == Some("growth")
    ensures c.Kind() == "rca" ==> k == Some("rca")
    ensures c.Kind() == "topk" ==> k == Some("top")
  {
    match c.Kind()
    case "growth" => Some("growth")
    case "rca" => Some("rca")
    case "topk" => Some("top")
    case _ => None
  }

  /** The parameter text of a calculation of a known kind. A bare calculation has none of the
      parameters its kind needs; a top-k on a calculation name has no measure name to write. */
  function CalcText(c: Calculation): (r: Result<string>)
    requires CalcKey(c).Some?
  {
    match c
    case Growth(period, value) => Ok(LevelName(period) + "," + value.name)
    case Rca(location, category, value) => Ok(LevelName(location) + "," + LevelName(category) + "," + value.name)
    case Topk(amount, category, value, order) =>
      if value.OfMeasure? then Ok(IntToString(amount) + "," + LevelName(category) + "," + value.measure.name + "," + order)
      else Err(BadOperand("value"))
    case Other(kind) =>
      Err(MissingKey(if kind == "growth" then "period" else if kind == "rca" then "location" else "amount"))
  }

  function ApplyCalculation(p: Params, c: Calculation): (r: Result<Params>)
    ensures CalcKey(c).None? ==> r == Ok(p)
    ensures CalcKey(c).Some? && CalcText(c).Ok? ==> r == Ok(Put(p, CalcKey(c).value, Scalar(CalcText(c).value)))
    ensures CalcKey(c).Some? && CalcText(c).Err? ==> r.Err?
  {
    match CalcKey(c)
    case None => Ok(p)
    case Some(k) =>
      var text :- CalcText(c);
      Ok(Put(p, k, Scalar(text)))
  }

  function WithCalculations(p: Params, cs: seq<Calculation>): Result<Params>
    decreases |cs|
  {
    if |cs| == 0 then Ok(p)
    else
      var p1 :- ApplyCalculation(p, cs[0]);
      WithCalculations(p1, cs[1..])
  }

  const OptionKeys: seq<string> := ["debug", "exclude_default_members", "parents", "sparse"]

  /** An option is sent, as `true`, only when its value is the boolean true. */
  predicate OptionOn(options: map<string, bool>, k: string) {
    k in options && options[k]
  }

  function WithOptionKeys(p: Params, options: map<string, bool>, ks: seq<string>): Params
    decreases |ks|
  {
    if |ks| == 0 then p
    else WithOptionKeys(if OptionOn(options, ks[0]) then Put(p, ks[0], Scalar("true")) else p, options, ks[1..])
  }

  function WithOptions(p: Params, options: map<string, bool>): Params {
    WithOptionKeys(p, options, OptionKeys)
  }

  /** The dictionary just before its final rewrite, or the exception raised while building it. */
  function BuildParams(q: Query): Result<Params> {
    var p1 := WithLocale(InitialParams(q), q.locale);
    var p2 :- WithCuts(p1, q.cuts);
    var p3 := WithSort(WithLimit(p2, q.pagination), q.sorting);
    var _ :- CheckTime(q.time);
    var p4 :- WithCalculations(p3, q.calculations);
    Ok(WithOptions(p4, q.options))
  }

  function RenderEntry(e: (string, ParamValue)): seq<(string, string)> {
    if IsValidValue(e.1) then [(e.0, Render(e.1))] else []
  }

  /** The final rewrite: valid entries only, each rendered, in dictionary order. */
  function Finalize(p: Params): (r: seq<(string, string)>)
    ensures forall i :: 0 <= i < |r| ==> exists j :: 0 <= j < |p| && IsValidValue(p[j].1) && r[i] == (p[j].0, Render(p[j].1))
    ensures forall j :: 0 <= j < |p| && IsValidValue(p[j].1) ==> (p[j].0, Render(p[j].1)) in r
  {
    var r := FlatMap(p, RenderEntry);
    forall i | 0 <= i < |r|
      ensures exists j :: 0 <= j < |p| && IsValidValue(p[j].1) && r[i] == (p[j].0, Render(p[j].1))
    {
      FlatMapMember(p, RenderEntry, r[i]);
    }
    forall j | 0 <= j < |p| && IsValidValue(p[j].1) ensures (p[j].0, Render(p[j].1)) in r {
      FlatMapMember(p, RenderEntry, (p[j].0, Render(p[j].1)));
    }
    r
  }

  /** The cube's name alone, encoded: nothing when the name is empty. */
  lemma CubeOnlyEncoded(cube: string, pairs: seq<(string, string)>)
    requires pairs == if cube == "" then [] else [("cube", cube)]
    ensures EncodePairs(pairs) == if cube == "" then "" else "cube=" + QuotePlus(cube)
  {
    if cube != "" {
      assert forall i :: 0 <= i < |"cube"| ==> Unreserved("cube"[i]);
      EncodeOnePair("cube", cube);
    }
  }

  /** `build_logiclayer_url`. */
  function LogicLayerUrl(q: Query): Result<string> {
    var p :- BuildParams(q);
    Ok("data." + q.extension + "?" + EncodePairs(Finalize(p)))
  }

  /** `TesseractQuery.get_url`: only the LogicLayer endpoint is supported. */
  function GetUrl(q: Query, endpoint: Endpoint): (r: Result<string>)
    ensures endpoint == Aggregate ==> r == Err(UnknownEndpoint)
    ensures endpoint == LogicLayer ==> r == LogicLayerUrl(q)
  {
    if endpoint == LogicLayer then LogicLayerUrl(q) else Err(UnknownEndpoint)
  }
}
