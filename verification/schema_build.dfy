/** Building the schema tree of a Tesseract cube from the records its server publishes, as the
    validators of the schema classes do: each dimension stamps its name onto its hierarchies, each
    hierarchy stamps the dimension and hierarchy names onto its levels and numbers them from 1, each
    level stamps its owners' names onto its properties (a missing or null property list becomes an
    empty one), the dimension type is mapped onto the generic enumeration, and a measure's
    aggregator record is split into its `name` and the remaining metadata. */
module SchemaBuild {
  import opened Outcome
  import opened Schema

  datatype RawProperty = RawProperty(
    name: string,
    uniqueName: Option<string>,
    captionSet: Option<string>,
    annotations: map<string, string>)

  /** `properties` is `None` when the record has no such field or holds null there. */
  datatype RawLevel = RawLevel(
    name: string,
    uniqueName: Option<string>,
    properties: Option<seq<RawProperty>>,
    annotations: map<string, string>)

  datatype RawHierarchy = RawHierarchy(
    name: string,
    levels: seq<RawLevel>,
    annotations: map<string, string>)

  datatype RawDimension = RawDimension(
    name: string,
    dimensionType: string,
    defaultHierarchy: Option<string>,
    hierarchies: seq<RawHierarchy>,
    annotations: map<string, string>)

  /** `aggregator` is `None` when the record has no such field. */
  datatype RawMeasure = RawMeasure(
    name: string,
    aggregator: Option<map<string, string>>,
    annotations: map<string, string>)

  datatype RawCube = RawCube(
    name: string,
    dimensions: seq<RawDimension>,
    measures: seq<RawMeasure>,
    annotations: map<string, string>)

  /** The string value of each dimension type, shared by the generic and the Tesseract enumeration. */
  function DimensionTypeName(t: DimensionType): string {
    match t
    case Standard => "standard"
    case Time => "time"
    case Geo => "geo"
  }

  /** `map_dimension_type`: the three known type names map to their enumeration members; any other
      value is rejected. */
  function MapDimensionType(s: string): (r: Result<DimensionType>)
    ensures r.Ok? <==> s == "standard" || s == "time" || s == "geo"
    ensures r.Ok? ==> DimensionTypeName(r.value) == s
    ensures r.Err? ==> r.error == InvalidDimensionType(s)
  {
    if s == "standard" then Ok(Standard)
    else if s == "time" then Ok(Time)
    else if s == "geo" then Ok(Geo)
    else Err(InvalidDimensionType(s))
  }

  /** Every enumeration member survives the trip through its name. */
  lemma DimensionTypeRoundTrip(t: DimensionType)
    ensures MapDimensionType(DimensionTypeName(t)) == Ok(t)
  {
  }

  const UnknownAggregator := "unknown"

  /** `map_aggregator_type`: the aggregator's `name` (or `unknown`) and the rest of its fields. */
  function MapAggregator(agg: Option<map<string, string>>): (r: (string, map<string, string>))
    ensures "name" !in r.1
    ensures agg.None? ==> r == (UnknownAggregator, map[])
    ensures agg.Some? && "name" in agg.value ==> r.0 == agg.value["name"] && r.1["name" := r.0] == agg.value
    ensures agg.Some? && "name" !in agg.value ==> r.0 == UnknownAggregator && r.1 == agg.value
  {
    var a := if agg.Some? then agg.value else map[];
    (if "name" in a then a["name"] else UnknownAggregator, a - {"name"})
  }

  function BuildMeasure(rm: RawMeasure): (m: Measure)
    ensures m.name == rm.name && m.annotations == rm.annotations
    ensures (m.aggregatorName, m.aggregatorMeta) == MapAggregator(rm.aggregator)
  {
    var (aggName, meta) := MapAggregator(rm.aggregator);
    Measure(rm.name, aggName, meta, rm.annotations)
  }

  function BuildMeasures(rms: seq<RawMeasure>): (ms: seq<Measure>)
    ensures |ms| == |rms| && forall i :: 0 <= i < |rms| ==> ms[i] == BuildMeasure(rms[i])
    decreases |rms|
  {
    if |rms| == 0 then [] else [BuildMeasure(rms[0])] + BuildMeasures(rms[1..])
  }

  function BuildProperty(rp: RawProperty, dim: string, hie: string, lvl: string): Property {
    Property(rp.name, rp.uniqueName, rp.captionSet, dim, hie, lvl, rp.annotations)
  }

  function BuildProperties(rps: seq<RawProperty>, dim: string, hie: string, lvl: string): (ps: seq<Property>)
    ensures |ps| == |rps|
    ensures forall i :: 0 <= i < |ps| ==> ps[i].name == rps[i].name && ps[i].uniqueName == rps[i].uniqueName
    ensures forall i :: 0 <= i < |ps| ==> ps[i].captionSet == rps[i].captionSet && ps[i].annotations == rps[i].annotations
    ensures forall i :: 0 <= i < |ps| ==> ps[i].dimension == dim && ps[i].hierarchy == hie && ps[i].level == lvl
    decreases |rps|
  {
    if |rps| == 0 then [] else [BuildProperty(rps[0], dim, hie, lvl)] + BuildProperties(rps[1..], dim, hie, lvl)
  }

  /** `properties or []`: a missing or null property list counts as empty. */
  function PropertyRecords(rl: RawLevel): (rps: seq<RawProperty>)
    ensures rl.properties.None? ==> rps == []
    ensures rl.properties.Some? ==> rps == rl.properties.value
  {
    if rl.properties.Some? then rl.properties.value else []
  }

  function BuildLevel(rl: RawLevel, dim: string, hie: string, depth: int): Level {
    Level(rl.name, rl.uniqueName, depth, dim, hie,
          BuildProperties(PropertyRecords(rl), dim, hie, rl.name), rl.annotations)
  }

  /** The levels of a hierarchy, the first at depth `first` and each next one deeper by one. */
  function BuildLevels(rls: seq<RawLevel>, dim: string, hie: string, first: int): (ls: seq<Level>)
    ensures |ls| == |rls|
    ensures forall k :: 0 <= k < |ls| ==> ls[k] == BuildLevel(rls[k], dim, hie, first + k)
    decreases |rls|
  {
    if |rls| == 0 then [] else [BuildLevel(rls[0], dim, hie, first)] + BuildLevels(rls[1..], dim, hie, first + 1)
  }

  function BuildHierarchy(rh: RawHierarchy, dim: string): Hierarchy {
    Hierarchy(rh.name, dim, BuildLevels(rh.levels, dim, rh.name, 1), rh.annotations)
  }

  function BuildHierarchies(rhs: seq<RawHierarchy>, dim: string): (hs: seq<Hierarchy>)
    ensures |hs| == |rhs| && forall i :: 0 <= i < |hs| ==> hs[i] == BuildHierarchy(rhs[i], dim)
    decreases |rhs|
  {
    if |rhs| == 0 then [] else [BuildHierarchy(rhs[0], dim)] + BuildHierarchies(rhs[1..], dim)
  }

  function BuildDimension(rd: RawDimension): Result<Dimension> {
    var t :- MapDimensionType(rd.dimensionType);
    Ok(Dimension(rd.name, t, rd.defaultHierarchy, BuildHierarchies(rd.hierarchies, rd.name), rd.annotations))
  }

  function BuildDimensions(rds: seq<RawDimension>): (r: Result<seq<Dimension>>)
    ensures r.Ok? <==> forall i :: 0 <= i < |rds| ==> MapDimensionType(rds[i].dimensionType).Ok?
    ensures r.Ok? ==> |r.value| == |rds| && forall i :: 0 <= i < |rds| ==> Ok(r.value[i]) == BuildDimension(rds[i])
    ensures r.Err? ==> exists i :: 0 <= i < |rds| && r.error == InvalidDimensionType(rds[i].dimensionType)
                                   && MapDimensionType(rds[i].dimensionType).Err?
    decreases |rds|
  {
    if |rds| == 0 then Ok([])
    else
      var d :- BuildDimension(rds[0]);
      var rest :- BuildDimensions(rds[1..]);
      assert forall i :: 1 <= i < |rds| ==> rds[i] == rds[1..][i - 1];
      Ok([d] + rest)
  }

  /** Validating a Tesseract cube record. */
  function BuildCube(rc: RawCube): Result<Cube> {
    var dims :- BuildDimensions(rc.dimensions);
    Ok(Cube(rc.name, dims, BuildMeasures(rc.measures), rc.annotations))
  }

  // What the validators promise about the tree they build.

  predicate LevelStamped(l: Level, dim: string, hie: string) {
    l.dimension == dim && l.hierarchy == hie
    && forall p :: p in l.properties ==> p.dimension == dim && p.hierarchy == hie && p.level == l.name
  }

  predicate HierarchyStamped(h: Hierarchy, dim: string) {
    h.dimension == dim && forall l :: l in h.levels ==> LevelStamped(l, dim, h.name)
  }

  /** Every node below a dimension carries the names of all of its owners. */
  predicate DimensionStamped(d: Dimension) {
    forall h :: h in d.hierarchies ==> HierarchyStamped(h, d.name)
  }

  predicate CubeStamped(c: Cube) {
    forall d :: d in c.dimensions ==> DimensionStamped(d)
  }

  /** The k-th level of every hierarchy (counting from 1) has depth k. */
  predicate DepthsConsecutive(c: Cube) {
    forall d, h :: d in c.dimensions && h in d.hierarchies ==>
      forall k :: 0 <= k < |h.levels| ==> h.levels[k].depth == k + 1
  }

  lemma HierarchyStampedBuilt(rh: RawHierarchy, dim: string)
    ensures HierarchyStamped(BuildHierarchy(rh, dim), dim)
    ensures forall k :: 0 <= k < |rh.levels| ==> BuildHierarchy(rh, dim).levels[k].depth == k + 1
  {
    var ls := BuildLevels(rh.levels, dim, rh.name, 1);
    forall l | l in ls ensures LevelStamped(l, dim, rh.name) {
      var k :| 0 <= k < |ls| && ls[k] == l;
      assert l == BuildLevel(rh.levels[k], dim, rh.name, 1 + k);
    }
  }

  lemma DimensionStampedBuilt(rd: RawDimension)
    requires BuildDimension(rd).Ok?
    ensures DimensionStamped(BuildDimension(rd).value)
    ensures forall h :: h in BuildDimension(rd).value.hierarchies ==>
      forall k :: 0 <= k < |h.levels| ==> h.levels[k].depth == k + 1
  {
    var hs := BuildHierarchies(rd.hierarchies, rd.name);
    assert BuildDimension(rd).value.hierarchies == hs;
    forall h | h in hs
      ensures HierarchyStamped(h, rd.name)
      ensures forall k :: 0 <= k < |h.levels| ==> h.levels[k].depth == k + 1
    {
      var j :| 0 <= j < |hs| && hs[j] == h;
      HierarchyStampedBuilt(rd.hierarchies[j], rd.name);
    }
  }

  /** A successfully built cube is stamped throughout and numbers its levels 1, 2, ... per hierarchy. */
  lemma BuildCubeStamped(rc: RawCube)
    requires BuildCube(rc).Ok?
    ensures CubeStamped(BuildCube(rc).value)
    ensures DepthsConsecutive(BuildCube(rc).value)
  {
    var ds := BuildCube(rc).value.dimensions;
    assert Ok(ds) == BuildDimensions(rc.dimensions);
    forall d | d in ds
      ensures DimensionStamped(d)
      ensures forall h :: h in d.hierarchies ==> forall k :: 0 <= k < |h.levels| ==> h.levels[k].depth == k + 1
    {
      var i :| 0 <= i < |ds| && ds[i] == d;
      assert Ok(d) == BuildDimension(rc.dimensions[i]);
      DimensionStampedBuilt(rc.dimensions[i]);
    }
  }

  /** A cube record validates iff each of its dimensions has a known type. */
  lemma BuildCubeOkIff(rc: RawCube)
    ensures BuildCube(rc).Ok? <==>
      forall i :: 0 <= i < |rc.dimensions| ==>
        var t := rc.dimensions[i].dimensionType; t == "standard" || t == "time" || t == "geo"
  {
  }

  /** Construction keeps the record's shape: the same dimensions, hierarchies, levels and properties
      under the same names and in the same order. */
  lemma BuildCubeShape(rc: RawCube, i: nat, j: nat, k: nat)
    requires BuildCube(rc).Ok?
    requires i < |rc.dimensions| && j < |rc.dimensions[i].hierarchies|
    requires k < |rc.dimensions[i].hierarchies[j].levels|
    ensures var c := BuildCube(rc).value;
      |c.dimensions| == |rc.dimensions| && c.dimensions[i].name == rc.dimensions[i].name
      && |c.dimensions[i].hierarchies| == |rc.dimensions[i].hierarchies|
      && c.dimensions[i].hierarchies[j].name == rc.dimensions[i].hierarchies[j].name
      && |c.dimensions[i].hierarchies[j].levels| == |rc.dimensions[i].hierarchies[j].levels|
      && c.dimensions[i].hierarchies[j].levels[k].name == rc.dimensions[i].hierarchies[j].levels[k].name
      && |c.dimensions[i].hierarchies[j].levels[k].properties|
         == |PropertyRecords(rc.dimensions[i].hierarchies[j].levels[k])|
  {
    var c := BuildCube(rc).value;
    assert Ok(c.dimensions[i]) == BuildDimension(rc.dimensions[i]);
  }
}
