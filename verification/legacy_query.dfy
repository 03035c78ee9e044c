/** The string-keyed query builder of `olap_client/query.py`. Every setter returns the query it
    changed; here each is a function from the query before to the query after.

    A Python set is modelled as a duplicate-free sequence in first-insertion order (the order in
    which a set happens to iterate is not specified, so the properties below speak of elements).
    The source declares its containers as class attributes, which every instance shares; the model
    gives each query its own containers, and `SharedNewQuery` models the code as written. */
module LegacyQuery {
  import opened Outcome
  import opened Seqs
  import opened OrderedDict

  /** `QueryFormat`, a string enumeration. */
  datatype QueryFormat = Csv | Json | JsonRecords | Xls
  {
    function Value(): string {
      match this
      case Csv => "csv"
      case Json => "json"
      case JsonRecords => "jsonrecords"
      case Xls => "xls"
    }
  }

  /** A comparison and its operand, such as `("gt", 0)`. */
  type Condition = (string, int)

  /** The two shapes `set_filter` can store: `condition1` alone, or both conditions and the joint. */
  datatype FilterTuple = Single(first: Condition) | Joined(first: Condition, joint: string, second: Condition)

  /** One item of a Python tuple holding strings and integers. */
  datatype TupleItem = Word(word: string) | Whole(whole: int)

  /** A condition as the two-item tuple `(op, n)`. */
  function ConditionItems(c: Condition): seq<TupleItem> {
    [Word(c.0), Whole(c.1)]
  }

  /** The flat tuple Python keeps for a filter. */
  function Stored(f: FilterTuple): (t: seq<TupleItem>)
    ensures |t| == if f.Joined? then 5 else 2
  {
    match f
    case Single(c) => ConditionItems(c)
    case Joined(c1, joint, c2) => ConditionItems(c1) + [Word(joint)] + ConditionItems(c2)
  }

  /** The containers the source declares at class level. */
  datatype Containers = Containers(
    booleans: map<string, bool>,
    captions: Dict<string, string>,
    cuts: Dict<string, seq<string>>,
    drilldowns: seq<string>,
    filters: Dict<string, FilterTuple>,
    measures: seq<string>,
    properties: Dict<string, seq<string>>)

  const EmptyContainers := Containers(map[], [], [], [], [], [], [])

  datatype Query = Query(
    cube: string,
    containers: Containers,
    format: QueryFormat,
    locale: Option<string>,
    pagination: (Option<int>, Option<int>),
    sorting: (Option<string>, Option<string>),
    time: Option<string>,
    growth: (Option<string>, Option<string>))

  /** The sets of a query never hold a repeated element. */
  predicate SetsWellFormed(q: Query) {
    NoDup(q.containers.drilldowns) && NoDup(q.containers.measures)
    && (forall i :: 0 <= i < |q.containers.cuts| ==> NoDup(q.containers.cuts[i].1))
    && (forall i :: 0 <= i < |q.containers.properties| ==> NoDup(q.containers.properties[i].1))
  }

  /** `Query(cube_name)` with the class defaults. */
  function NewQuery(cube: string): (q: Query)
    ensures q.cube == cube && q.containers == EmptyContainers && SetsWellFormed(q)
    ensures q.format == JsonRecords && q.locale.None? && q.time.None?
    ensures q.pagination == (None, None) && q.sorting == (None, None) && q.growth == (None, None)
  {
    Query(cube, EmptyContainers, JsonRecords, None, (None, None), (None, None), None, (None, None))
  }

  /** `raise_on_invalid`: the server would surely refuse a query without a cube name, a drilldown
      or a measure. */
  function RaiseOnInvalid(q: Query): (r: Result<()>)
    ensures r.Err? <==> q.cube == "" || |q.containers.drilldowns| == 0 || |q.containers.measures| == 0
    ensures r.Err? ==> r.error == InvalidQuery
  {
    if q.cube == "" || |q.containers.drilldowns| == 0 || |q.containers.measures| == 0 then Err(InvalidQuery)
    else Ok(())
  }

  /** `set.update(items)`. */
  function Union(s: seq<string>, items: seq<string>): (r: seq<string>)
    ensures NoDup(s) ==> NoDup(r)
    ensures forall x :: x in r <==> x in s || x in items
    ensures |s| <= |r| && r[..|s|] == s
  {
    AddNewElements(s, items);
    AddNew(s, items)
  }

  lemma AddNewElements(s: seq<string>, items: seq<string>)
    ensures NoDup(s) ==> NoDup(AddNew(s, items))
    ensures forall x :: x in AddNew(s, items) <==> x in s || x in items
    ensures |s| <= |AddNew(s, items)| && AddNew(s, items)[..|s|] == s
  {
    if NoDup(s) {
      AddNewSpec(s, items);
    } else {
      AddNewMembers(s, items);
    }
  }

  lemma {:induction false} AddNewMembers(s: seq<string>, items: seq<string>)
    ensures forall x :: x in AddNew(s, items) <==> x in s || x in items
    ensures |s| <= |AddNew(s, items)| && AddNew(s, items)[..|s|] == s
    decreases |items|
  {
    if |items| > 0 {
      var s' := if items[0] in s then s else s + [items[0]];
      AddNewMembers(s', items[1..]);
      assert items == [items[0]] + items[1..];
      assert AddNew(s, items)[..|s'|][..|s|] == s;
    }
  }

  /** Adding elements that are all present already changes nothing. */
  lemma {:induction false} UnionPresent(s: seq<string>, items: seq<string>)
    requires forall i :: 0 <= i < |items| ==> items[i] in s
    ensures Union(s, items) == s
    decreases |items|
  {
    if |items| > 0 {
      UnionPresent(s, items[1..]);
    }
  }

  // ---- the setters ----

  /** `set_boolean`: a flag is updated only when the query already holds it. */
  function SetBoolean(q: Query, prop: string, value: bool): (r: Query)
    ensures prop in q.containers.booleans ==> r.containers.booleans == q.containers.booleans[prop := value]
    ensures prop !in q.containers.booleans ==> r == q
    ensures r.containers.booleans.Keys == q.containers.booleans.Keys
    ensures r.(containers := q.containers) == q
    ensures r.containers.(booleans := q.containers.booleans) == q.containers
  {
    if prop in q.containers.booleans then
      q.(containers := q.containers.(booleans := q.containers.booleans[prop := value]))
    else q
  }

  /** `set_caption`: the caption property of a level, replacing an earlier one. */
  function SetCaption(q: Query, level: string, prop: string): (r: Query)
    ensures Get(r.containers.captions, level) == Some(prop)
    ensures forall l :: l != level ==> Get(r.containers.captions, l) == Get(q.containers.captions, l)
    ensures Keys(r.containers.captions) == AddKey(Keys(q.containers.captions), level)
    ensures r.(containers := q.containers) == q
    ensures r.containers.(captions := q.containers.captions) == q.containers
  {
    var captions := Put(q.containers.captions, level, prop);
    forall l ensures Get(captions, l) == (if l == level then Some(prop) else Get(q.containers.captions, l)) {
      PutGet(q.containers.captions, level, prop, l);
    }
    PutKeys(q.containers.captions, level, prop);
    q.(containers := q.containers.(captions := captions))
  }

  /** The members of a level's cut, or nothing when the level has no cut. */
  function CutMembers(q: Query, level: string): seq<string> {
    var found := Get(q.containers.cuts, level);
    if found.Some? then found.value else []
  }

  /** `add_cut`: the members join the level's set, which is created empty if missing. */
  function AddCut(q: Query, level: string, members: seq<string>): (r: Query)
    ensures Get(r.containers.cuts, level) == Some(Union(CutMembers(q, level), members))
    ensures forall l :: l != level ==> Get(r.containers.cuts, l) == Get(q.containers.cuts, l)
    ensures Keys(r.containers.cuts) == AddKey(Keys(q.containers.cuts), level)
    ensures r.(containers := q.containers) == q
    ensures r.containers.(cuts := q.containers.cuts) == q.containers
  {
    var merged := Union(CutMembers(q, level), members);
    var cuts := Put(q.containers.cuts, level, merged);
    forall l ensures Get(cuts, l) == (if l == level then Some(merged) else Get(q.containers.cuts, l)) {
      PutGet(q.containers.cuts, level, merged, l);
    }
    PutKeys(q.containers.cuts, level, merged);
    q.(containers := q.containers.(cuts := cuts))
  }

  /** `add_drilldown`. */
  function AddDrilldown(q: Query, levels: seq<string>): (r: Query)
    ensures r.containers.drilldowns == Union(q.containers.drilldowns, levels)
    ensures r.(containers := q.containers) == q
    ensures r.containers.(drilldowns := q.containers.drilldowns) == q.containers
  {
    q.(containers := q.containers.(drilldowns := Union(q.containers.drilldowns, levels)))
  }

  /** `add_measure`. */
  function AddMeasure(q: Query, measures: seq<string>): (r: Query)
    ensures r.containers.measures == Union(q.containers.measures, measures)
    ensures r.(containers := q.containers) == q
    ensures r.containers.(measures := q.containers.measures) == q.containers
  {
    q.(containers := q.containers.(measures := Union(q.containers.measures, measures)))
  }

  /** `add_property`: the properties join the level's set, which is created empty if missing. */
  function AddProperty(q: Query, level: string, props: seq<string>): (r: Query)
    ensures Get(r.containers.properties, level).Some?
    ensures forall x :: x in Get(r.containers.properties, level).value <==>
      x in props || (Get(q.containers.properties, level).Some? && x in Get(q.containers.properties, level).value)
    ensures forall l :: l != level ==> Get(r.containers.properties, l) == Get(q.containers.properties, l)
    ensures Keys(r.containers.properties) == AddKey(Keys(q.containers.properties), level)
    ensures r.(containers := q.containers) == q
    ensures r.containers.(properties := q.containers.properties) == q.containers
  {
    var found := Get(q.containers.properties, level);
    var merged := Union(if found.Some? then found.value else [], props);
    var properties := Put(q.containers.properties, level, merged);
    forall l ensures Get(properties, l) == (if l == level then Some(merged) else Get(q.containers.properties, l)) {
      PutGet(q.containers.properties, level, merged, l);
    }
    PutKeys(q.containers.properties, level, merged);
    q.(containers := q.containers.(properties := properties))
  }

  /** Python truthiness of the `joint` argument: `None` and the empty string are false. */
  predicate Truthy(joint: Option<string>) {
    joint.Some? && joint.value != ""
  }

  /** `set_filter`: with a truthy joint the second condition is concatenated after it, and a missing
      second condition makes the concatenation fail; otherwise only the first condition is kept. */
  function SetFilter(q: Query, measure: string, condition1: Condition, joint: Option<string>, condition2: Option<Condition>)
    : (r: Result<Query>)
    ensures r.Err? <==> Truthy(joint) && condition2.None?
    ensures r.Ok? && Truthy(joint) ==>
      Get(r.value.containers.filters, measure) == Some(Joined(condition1, joint.value, condition2.value))
    ensures r.Ok? && !Truthy(joint) ==> Get(r.value.containers.filters, measure) == Some(Single(condition1))
    ensures r.Ok? ==>
              Get(r.value.containers.filters, measure).Some?
              && Stored(Get(r.value.containers.filters, measure).value)
                 == if Truthy(joint) then ConditionItems(condition1) + [Word(joint.value)] + ConditionItems(condition2.value)
                    else ConditionItems(condition1)
    ensures r.Ok? ==> forall k :: k != measure ==> Get(r.value.containers.filters, k) == Get(q.containers.filters, k)
    ensures r.Ok? ==> Keys(r.value.containers.filters) == AddKey(Keys(q.containers.filters), measure)
    ensures r.Ok? ==> r.value.(containers := q.containers) == q
    ensures r.Ok? ==> r.value.containers.(filters := q.containers.filters) == q.containers
  {
    if Truthy(joint) && condition2.None? then Err(BadOperand("condition2"))
    else
      var stored := if Truthy(joint) then Joined(condition1, joint.value, condition2.value) else Single(condition1);
      var filters := Put(q.containers.filters, measure, stored);
      forall k ensures Get(filters, k) == (if k == measure then Some(stored) else Get(q.containers.filters, k)) {
        PutGet(q.containers.filters, measure, stored, k);
      }
      PutKeys(q.containers.filters, measure, stored);
      Ok(q.(containers := q.containers.(filters := filters)))
  }

  /** Items 0 and 1 of the stored tuple: in both shapes, the first condition's operator and number. */
  function FilterComponents(f: FilterTuple): (r: (TupleItem, TupleItem))
    ensures r == (Word(f.first.0), Whole(f.first.1))
  {
    var t := Stored(f);
    (t[0], t[1])
  }

  function SetFormat(q: Query, format: QueryFormat): (r: Query)
    ensures r.format == format && r.(format := q.format) == q
  {
    q.(format := format)
  }

  function SetGrowth(q: Query, level: string, measure: string): (r: Query)
    ensures r.growth == (Some(level), Some(measure)) && r.(growth := q.growth) == q
  {
    q.(growth := (Some(level), Some(measure)))
  }

  /** `set_pagination(page, offset=None)`. */
  function SetPagination(q: Query, page: int, offset: Option<int>): (r: Query)
    ensures r.pagination == (Some(page), offset) && r.(pagination := q.pagination) == q
  {
    q.(pagination := (Some(page), offset))
  }

  /** `set_sorting(sort_key, order="desc")`; `order` is `None` to take the default. */
  function SetSorting(q: Query, key: string, order: Option<string>): (r: Query)
    ensures r.sorting.0 == Some(key)
    ensures r.sorting.1 == Some(if order.Some? then order.value else "desc")
    ensures r.(sorting := q.sorting) == q
  {
    q.(sorting := (Some(key), Some(if order.Some? then order.value else "desc")))
  }

  /** `set_rca`, `set_time` and `set_topk` are placeholders. */
  function SetRca(q: Query): (r: Query)
    ensures r == q
  {
    q
  }

  function SetTime(q: Query): (r: Query)
    ensures r == q
  {
    q
  }

  function SetTopk(q: Query): (r: Query)
    ensures r == q
  {
    q
  }

  // ---- properties of the setters ----

  /** The union setters keep the sets free of repeats. */
  lemma SettersWellFormed(q: Query, level: string, items: seq<string>)
    requires SetsWellFormed(q)
    ensures SetsWellFormed(AddDrilldown(q, items)) && SetsWellFormed(AddMeasure(q, items))
    ensures SetsWellFormed(AddCut(q, level, items)) && SetsWellFormed(AddProperty(q, level, items))
  {
    var cuts := q.containers.cuts;
    var prev := CutMembers(q, level);
    assert NoDup(prev) by {
      if Get(cuts, level).Some? {
        var i :| 0 <= i < |cuts| && cuts[i] == (level, prev);
      }
    }
    var r := AddCut(q, level, items);
    forall i | 0 <= i < |r.containers.cuts| ensures NoDup(r.containers.cuts[i].1) {
      PutEntries(cuts, level, Union(prev, items), i);
    }
    var props := q.containers.properties;
    var found := Get(props, level);
    var oldProps := if found.Some? then found.value else [];
    assert NoDup(oldProps) by {
      if found.Some? {
        var i :| 0 <= i < |props| && props[i] == (level, found.value);
      }
    }
    var r' := AddProperty(q, level, items);
    forall i | 0 <= i < |r'.containers.properties| ensures NoDup(r'.containers.properties[i].1) {
      PutEntries(props, level, Union(oldProps, items), i);
    }
  }

  /** Every entry after `d[k] = v` is `(k, v)` or an entry of `d`. */
  lemma {:induction false} PutEntries<V>(d: Dict<string, V>, k: string, v: V, i: nat)
    requires i < |Put(d, k, v)|
    ensures Put(d, k, v)[i] == (k, v) || Put(d, k, v)[i] in d
    decreases |d|
  {
    if |d| > 0 && d[0].0 != k && i > 0 {
      PutEntries(d[1..], k, v, i - 1);
      assert Put(d, k, v)[i] == Put(d[1..], k, v)[i - 1];
    }
  }

  /** Adding the same drilldowns twice is adding them once. */
  lemma AddDrilldownIdempotent(q: Query, levels: seq<string>)
    ensures AddDrilldown(AddDrilldown(q, levels), levels) == AddDrilldown(q, levels)
  {
    UnionPresent(Union(q.containers.drilldowns, levels), levels);
  }

  /** Adding the same measures twice is adding them once. */
  lemma AddMeasureIdempotent(q: Query, measures: seq<string>)
    ensures AddMeasure(AddMeasure(q, measures), measures) == AddMeasure(q, measures)
  {
    UnionPresent(Union(q.containers.measures, measures), measures);
  }

  /** Two unions in either order give the same set. */
  lemma UnionCommutes(s: seq<string>, xs: seq<string>, ys: seq<string>)
    requires NoDup(s)
    ensures multiset(Union(Union(s, xs), ys)) == multiset(Union(Union(s, ys), xs))
  {
    var a, b := Union(Union(s, xs), ys), Union(Union(s, ys), xs);
    NoDupSameElements(a, b);
  }

  /** The drilldown set does not depend on the order of the calls that fill it. */
  lemma AddDrilldownCommutes(q: Query, xs: seq<string>, ys: seq<string>)
    requires SetsWellFormed(q)
    ensures multiset(AddDrilldown(AddDrilldown(q, xs), ys).containers.drilldowns)
         == multiset(AddDrilldown(AddDrilldown(q, ys), xs).containers.drilldowns)
  {
    UnionCommutes(q.containers.drilldowns, xs, ys);
  }

  /** The measure set does not depend on the order of the calls that fill it. */
  lemma AddMeasureCommutes(q: Query, xs: seq<string>, ys: seq<string>)
    requires SetsWellFormed(q)
    ensures multiset(AddMeasure(AddMeasure(q, xs), ys).containers.measures)
         == multiset(AddMeasure(AddMeasure(q, ys), xs).containers.measures)
  {
    UnionCommutes(q.containers.measures, xs, ys);
  }

  /** On a fresh query `set_boolean` does nothing: no flag is ever present. */
  lemma SetBooleanFresh(cube: string, prop: string, value: bool)
    ensures SetBoolean(NewQuery(cube), prop, value) == NewQuery(cube)
  {
  }

  /** The last `set_pagination` or `set_sorting` wins. */
  lemma LastWriteWins(q: Query, p1: int, o1: Option<int>, p2: int, o2: Option<int>, k1: string, k2: string,
                      d1: Option<string>, d2: Option<string>)
    ensures SetPagination(SetPagination(q, p1, o1), p2, o2) == SetPagination(q, p2, o2)
    ensures SetSorting(SetSorting(q, k1, d1), k2, d2) == SetSorting(q, k2, d2)
  {
  }

  /** A query becomes valid once it has a cube name, a drilldown and a measure. */
  lemma ValidAfterAdding(cube: string, level: string, measure: string)
    requires cube != ""
    ensures RaiseOnInvalid(NewQuery(cube)).Err?
    ensures RaiseOnInvalid(AddDrilldown(NewQuery(cube), [level])).Err?
    ensures RaiseOnInvalid(AddMeasure(AddDrilldown(NewQuery(cube), [level]), [measure])).Ok?
  {
    assert level in AddDrilldown(NewQuery(cube), [level]).containers.drilldowns;
    assert measure in AddMeasure(AddDrilldown(NewQuery(cube), [level]), [measure]).containers.measures;
  }

  // ---- the containers as written ----

  /** `Query(cube_name)` as the source writes it: the containers are class attributes, so a new
      query sees whatever the earlier queries put into them (`classState`), and every `add_*` or
      `set_*` call that mutates a container mutates that shared state. */
  function SharedNewQuery(classState: Containers, cube: string): (q: Query)
    ensures q.containers == classState && q.(containers := EmptyContainers) == NewQuery(cube)
  {
    NewQuery(cube).(containers := classState)
  }

  /** With shared containers a brand-new query already holds the drilldown and the measure added
      through another query, so its `raise_on_invalid` passes; with per-query containers it fails. */
  lemma SharedContainersLeak()
    ensures var q1 := SharedNewQuery(EmptyContainers, "trade_i_baci_a_92");
            var classState := AddMeasure(AddDrilldown(q1, ["Year"]), ["Trade Value"]).containers;
            RaiseOnInvalid(SharedNewQuery(classState, "trade_i_baci_a_92")).Ok?
            && RaiseOnInvalid(NewQuery("trade_i_baci_a_92")).Err?
  {
    var q1 := SharedNewQuery(EmptyContainers, "trade_i_baci_a_92");
    var q := AddMeasure(AddDrilldown(q1, ["Year"]), ["Trade Value"]);
    assert "Year" in q.containers.drilldowns;
    assert "Trade Value" in q.containers.measures;
  }
}
