/** The OLAP schema tree: a cube holds dimensions, a dimension hierarchies, a hierarchy levels and
    a level properties; a cube also holds measures. The flattening iterators walk the tree depth
    first, and every `get_*` lookup returns the first element of a flattening that matches a name,
    raising StopIteration when none does.

    One datatype stands for both the generic classes and their Tesseract subclasses: a Tesseract
    level or property may carry a `unique_name`, a generic one never does (`uniqueName == None`). */
module Schema {
  import opened Outcome
  import opened Seqs

  datatype DimensionType = Standard | Time | Geo

  datatype Property = Property(
    name: string,
    uniqueName: Option<string>,
    captionSet: Option<string>,
    dimension: string,
    hierarchy: string,
    level: string,
    annotations: map<string, string>)
  {
    /** A property answers to its name, and a Tesseract property also to its unique name. */
    predicate Matches(n: string) {
      n == name || uniqueName == Some(n)
    }
  }

  datatype Level = Level(
    name: string,
    uniqueName: Option<string>,
    depth: int,
    dimension: string,
    hierarchy: string,
    properties: seq<Property>,
    annotations: map<string, string>)
  {
    /** A level answers to its name, and a Tesseract level also to its unique name. */
    predicate Matches(n: string) {
      n == name || uniqueName == Some(n)
    }
  }

  datatype Hierarchy = Hierarchy(
    name: string,
    dimension: string,
    levels: seq<Level>,
    annotations: map<string, string>)
  {
    predicate Matches(n: string) {
      n == name
    }
  }

  datatype Dimension = Dimension(
    name: string,
    dimensionType: DimensionType,
    defaultHierarchy: Option<string>,
    hierarchies: seq<Hierarchy>,
    annotations: map<string, string>)

  datatype Measure = Measure(
    name: string,
    aggregatorName: string,
    aggregatorMeta: map<string, string>,
    annotations: map<string, string>)

  datatype Cube = Cube(
    name: string,
    dimensions: seq<Dimension>,
    measures: seq<Measure>,
    annotations: map<string, string>)

  // Child accessors, named so that every flattening below uses the same function value.

  function HierarchiesOf(d: Dimension): seq<Hierarchy> {
    d.hierarchies
  }

  function LevelsOf(h: Hierarchy): seq<Level> {
    h.levels
  }

  function PropertiesOf(l: Level): seq<Property> {
    l.properties
  }

  /** `Dimension.levels`: the levels of each hierarchy in turn. */
  function DimensionLevels(d: Dimension): seq<Level> {
    FlatMap(d.hierarchies, LevelsOf)
  }

  /** `Dimension.properties`: the properties of each of the dimension's levels in turn. */
  function DimensionProperties(d: Dimension): seq<Property> {
    FlatMap(DimensionLevels(d), PropertiesOf)
  }

  /** `Hierarchy.properties`. */
  function HierarchyProperties(h: Hierarchy): seq<Property> {
    FlatMap(h.levels, PropertiesOf)
  }

  /** `Cube.hierarchies`. */
  function CubeHierarchies(c: Cube): seq<Hierarchy> {
    FlatMap(c.dimensions, HierarchiesOf)
  }

  /** `Cube.levels`: dimension by dimension, hierarchy by hierarchy. */
  function CubeLevels(c: Cube): seq<Level> {
    FlatMap(c.dimensions, DimensionLevels)
  }

  function DimensionPropertiesByHierarchy(d: Dimension): seq<Property> {
    FlatMap(d.hierarchies, HierarchyProperties)
  }

  /** `Cube.properties`: dimension, hierarchy, level, property. */
  function CubeProperties(c: Cube): seq<Property> {
    FlatMap(c.dimensions, DimensionPropertiesByHierarchy)
  }

  /** The first element satisfying `p`, or StopIteration. */
  function Find<T(==)>(xs: seq<T>, p: T -> bool): (r: Result<T>)
    ensures r.Err? <==> forall i :: 0 <= i < |xs| ==> !p(xs[i])
    ensures r.Err? ==> r.error == NotFound
    ensures r.Ok? ==> exists i :: 0 <= i < |xs| && xs[i] == r.value && p(xs[i])
                        && forall j :: 0 <= j < i ==> !p(xs[j])
    decreases |xs|
  {
    if |xs| == 0 then Err(NotFound)
    else if p(xs[0]) then Ok(xs[0])
    else
      var r := Find(xs[1..], p);
      if r.Ok? then
        var i :| 0 <= i < |xs[1..]| && xs[1..][i] == r.value && p(xs[1..][i])
                 && forall j :: 0 <= j < i ==> !p(xs[1..][j]);
        assert xs[i + 1] == r.value;
        assert forall j :: 1 <= j < i + 1 ==> xs[j] == xs[1..][j - 1];
        r
      else r
  }

  /** `r` is the first element of `xs` for which `p` holds. */
  predicate FirstWith<T(==)>(xs: seq<T>, p: T -> bool, r: T) {
    exists i :: 0 <= i < |xs| && xs[i] == r && p(r) && forall j :: 0 <= j < i ==> !p(xs[j])
  }

  function DimensionNamed(n: string): Dimension -> bool {
    (d: Dimension) => d.name == n
  }

  function HierarchyNamed(n: string): Hierarchy -> bool {
    (h: Hierarchy) => h.Matches(n)
  }

  function LevelMatching(n: string): Level -> bool {
    (l: Level) => l.Matches(n)
  }

  function PropertyMatching(n: string): Property -> bool {
    (p: Property) => p.Matches(n)
  }

  function MeasureNamed(n: string): Measure -> bool {
    (m: Measure) => m.name == n
  }

  /** `Cube.get_dimension`: the first dimension whose name equals `n`. */
  function CubeGetDimension(c: Cube, n: string): (r: Result<Dimension>)
    ensures r.Ok? ==> r.value in c.dimensions && r.value.name == n
    ensures r.Ok? ==> FirstWith(c.dimensions, DimensionNamed(n), r.value)
    ensures r.Err? <==> forall d :: d in c.dimensions ==> d.name != n
    ensures r.Err? ==> r.error == NotFound
  {
    Find(c.dimensions, DimensionNamed(n))
  }

  /** `Cube.get_hierarchy`: the first hierarchy of the cube, in flattening order, named `n`. */
  function CubeGetHierarchy(c: Cube, n: string): (r: Result<Hierarchy>)
    ensures r.Ok? ==> r.value in CubeHierarchies(c) && r.value.name == n
    ensures r.Ok? ==> FirstWith(CubeHierarchies(c), HierarchyNamed(n), r.value)
    ensures r.Err? <==> forall h :: h in CubeHierarchies(c) ==> h.name != n
    ensures r.Err? ==> r.error == NotFound
  {
    Find(CubeHierarchies(c), HierarchyNamed(n))
  }

  /** `Cube.get_level`: the first level of the cube, in flattening order, that matches `n`. */
  function CubeGetLevel(c: Cube, n: string): (r: Result<Level>)
    ensures r.Ok? ==> r.value in CubeLevels(c) && r.value.Matches(n)
    ensures r.Ok? ==> FirstWith(CubeLevels(c), LevelMatching(n), r.value)
    ensures r.Err? <==> forall l :: l in CubeLevels(c) ==> !l.Matches(n)
    ensures r.Err? ==> r.error == NotFound
  {
    Find(CubeLevels(c), LevelMatching(n))
  }

  /** `Cube.get_measure`: the first measure named `n`. */
  function CubeGetMeasure(c: Cube, n: string): (r: Result<Measure>)
    ensures r.Ok? ==> r.value in c.measures && r.value.name == n
    ensures r.Ok? ==> FirstWith(c.measures, MeasureNamed(n), r.value)
    ensures r.Err? <==> forall m :: m in c.measures ==> m.name != n
    ensures r.Err? ==> r.error == NotFound
  {
    Find(c.measures, MeasureNamed(n))
  }

  /** `Cube.get_property`: the first property of the cube, in flattening order, that matches `n`. */
  function CubeGetProperty(c: Cube, n: string): (r: Result<Property>)
    ensures r.Ok? ==> r.value in CubeProperties(c) && r.value.Matches(n)
    ensures r.Ok? ==> FirstWith(CubeProperties(c), PropertyMatching(n), r.value)
    ensures r.Err? <==> forall p :: p in CubeProperties(c) ==> !p.Matches(n)
    ensures r.Err? ==> r.error == NotFound
  {
    Find(CubeProperties(c), PropertyMatching(n))
  }

  /** `Dimension.get_hierarchy`. */
  function DimensionGetHierarchy(d: Dimension, n: string): (r: Result<Hierarchy>)
    ensures r.Ok? ==> r.value in d.hierarchies && r.value.name == n
    ensures r.Ok? ==> FirstWith(d.hierarchies, HierarchyNamed(n), r.value)
    ensures r.Err? <==> forall h :: h in d.hierarchies ==> h.name != n
    ensures r.Err? ==> r.error == NotFound
  {
    Find(d.hierarchies, HierarchyNamed(n))
  }

  /** `Dimension.get_level`. */
  function DimensionGetLevel(d: Dimension, n: string): (r: Result<Level>)
    ensures r.Ok? ==> r.value in DimensionLevels(d) && r.value.Matches(n)
    ensures r.Ok? ==> FirstWith(DimensionLevels(d), LevelMatching(n), r.value)
    ensures r.Err? <==> forall l :: l in DimensionLevels(d) ==> !l.Matches(n)
    ensures r.Err? ==> r.error == NotFound
  {
    Find(DimensionLevels(d), LevelMatching(n))
  }

  /** `Dimension.get_property`. */
  function DimensionGetProperty(d: Dimension, n: string): (r: Result<Property>)
    ensures r.Ok? ==> r.value in DimensionProperties(d) && r.value.Matches(n)
    ensures r.Ok? ==> FirstWith(DimensionProperties(d), PropertyMatching(n), r.value)
    ensures r.Err? <==> forall p :: p in DimensionProperties(d) ==> !p.Matches(n)
    ensures r.Err? ==> r.error == NotFound
  {
    Find(DimensionProperties(d), PropertyMatching(n))
  }

  /** `Hierarchy.get_level`. */
  function HierarchyGetLevel(h: Hierarchy, n: string): (r: Result<Level>)
    ensures r.Ok? ==> r.value in h.levels && r.value.Matches(n)
    ensures r.Ok? ==> FirstWith(h.levels, LevelMatching(n), r.value)
    ensures r.Err? <==> forall l :: l in h.levels ==> !l.Matches(n)
    ensures r.Err? ==> r.error == NotFound
  {
    Find(h.levels, LevelMatching(n))
  }

  /** `Hierarchy.get_property`. */
  function HierarchyGetProperty(h: Hierarchy, n: string): (r: Result<Property>)
    ensures r.Ok? ==> r.value in HierarchyProperties(h) && r.value.Matches(n)
    ensures r.Ok? ==> FirstWith(HierarchyProperties(h), PropertyMatching(n), r.value)
    ensures r.Err? <==> forall p :: p in HierarchyProperties(h) ==> !p.Matches(n)
    ensures r.Err? ==> r.error == NotFound
  {
    Find(HierarchyProperties(h), PropertyMatching(n))
  }

  /** `Level.get_property`. */
  function LevelGetProperty(l: Level, n: string): (r: Result<Property>)
    ensures r.Ok? ==> r.value in l.properties && r.value.Matches(n)
    ensures r.Ok? ==> FirstWith(l.properties, PropertyMatching(n), r.value)
    ensures r.Err? <==> forall p :: p in l.properties ==> !p.Matches(n)
    ensures r.Err? ==> r.error == NotFound
  {
    Find(l.properties, PropertyMatching(n))
  }

  /** A generic (non-Tesseract) level or property matches exactly its own name. */
  lemma GenericMatchesByName(l: Level, p: Property, n: string)
    requires l.uniqueName.None? && p.uniqueName.None?
    ensures l.Matches(n) <==> n == l.name
    ensures p.Matches(n) <==> n == p.name
  {
  }

  /** Grouping a dimension's properties by level or by hierarchy lists them in the same order. */
  lemma DimensionPropertiesOrder(d: Dimension)
    ensures DimensionProperties(d) == DimensionPropertiesByHierarchy(d)
  {
    FlatMapAssoc(d.hierarchies, LevelsOf, PropertiesOf, HierarchyProperties);
  }

  /** A level found in a hierarchy is a level of the dimension, which then finds one too. */
  lemma HierarchyLevelInDimension(d: Dimension, h: Hierarchy, n: string)
    requires h in d.hierarchies && HierarchyGetLevel(h, n).Ok?
    ensures HierarchyGetLevel(h, n).value in DimensionLevels(d)
    ensures DimensionGetLevel(d, n).Ok?
  {
    FlatMapContains(d.hierarchies, LevelsOf, h, HierarchyGetLevel(h, n).value);
  }

  /** A level found in a dimension is a level of the cube, which then finds one too. */
  lemma DimensionLevelInCube(c: Cube, d: Dimension, n: string)
    requires d in c.dimensions && DimensionGetLevel(d, n).Ok?
    ensures DimensionGetLevel(d, n).value in CubeLevels(c)
    ensures CubeGetLevel(c, n).Ok?
  {
    FlatMapContains(c.dimensions, DimensionLevels, d, DimensionGetLevel(d, n).value);
  }

  /** A hierarchy found in a dimension is a hierarchy of the cube, which then finds one too. */
  lemma DimensionHierarchyInCube(c: Cube, d: Dimension, n: string)
    requires d in c.dimensions && DimensionGetHierarchy(d, n).Ok?
    ensures DimensionGetHierarchy(d, n).value in CubeHierarchies(c)
    ensures CubeGetHierarchy(c, n).Ok?
  {
    FlatMapContains(c.dimensions, HierarchiesOf, d, DimensionGetHierarchy(d, n).value);
  }

  /** A property found in a level is a property of its hierarchy, which then finds one too. */
  lemma LevelPropertyInHierarchy(h: Hierarchy, l: Level, n: string)
    requires l in h.levels && LevelGetProperty(l, n).Ok?
    ensures LevelGetProperty(l, n).value in HierarchyProperties(h)
    ensures HierarchyGetProperty(h, n).Ok?
  {
    FlatMapContains(h.levels, PropertiesOf, l, LevelGetProperty(l, n).value);
  }

  /** A property found in a hierarchy is a property of its dimension, which then finds one too. */
  lemma HierarchyPropertyInDimension(d: Dimension, h: Hierarchy, n: string)
    requires h in d.hierarchies && HierarchyGetProperty(h, n).Ok?
    ensures HierarchyGetProperty(h, n).value in DimensionProperties(d)
    ensures DimensionGetProperty(d, n).Ok?
  {
    DimensionPropertiesOrder(d);
    FlatMapContains(d.hierarchies, HierarchyProperties, h, HierarchyGetProperty(h, n).value);
  }

  /** A property found in a dimension is a property of the cube, which then finds one too. */
  lemma DimensionPropertyInCube(c: Cube, d: Dimension, n: string)
    requires d in c.dimensions && DimensionGetProperty(d, n).Ok?
    ensures DimensionGetProperty(d, n).value in CubeProperties(c)
    ensures CubeGetProperty(c, n).Ok?
  {
    DimensionPropertiesOrder(d);
    FlatMapContains(c.dimensions, DimensionPropertiesByHierarchy, d, DimensionGetProperty(d, n).value);
  }

  /** A lookup by a name that comes first in the flattening returns that very element. */
  lemma FindFirstIsUnique<T>(xs: seq<T>, p: T -> bool, a: T, b: T)
    requires FirstWith(xs, p, a) && FirstWith(xs, p, b)
    ensures a == b
  {
    var i :| 0 <= i < |xs| && xs[i] == a && p(a) && forall j :: 0 <= j < i ==> !p(xs[j]);
    var k :| 0 <= k < |xs| && xs[k] == b && p(b) && forall j :: 0 <= j < k ==> !p(xs[j]);
    assert p(xs[i]) && p(xs[k]);
  }
}
