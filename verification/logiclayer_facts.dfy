/** What the LogicLayer URL of a Tesseract query promises: the URL of a fresh query, the order of
    the parameters, how cuts, calculations and option flags end up in it, and that it does not
    depend on the iteration order of the query's sets and dictionaries. */
module LogicLayerFacts {
  import opened Outcome
  import opened Seqs
  import opened Text
  import opened OrderedDict
  import opened FormEncoding
  import opened Schema
  import opened TesseractQuery

  // ---- the URL of a fresh query ----

  lemma FreshQueryParams(c: Cube)
    ensures BuildParams(NewQuery(c)) == Ok(InitialParams(NewQuery(c)))
    ensures Finalize(InitialParams(NewQuery(c))) == if c.name == "" then [] else [("cube", c.name)]
  {
    var q := NewQuery(c);
    var p := InitialParams(q);
    assert Distinct<string>([]) == [];
    assert WithOptions(p, q.options) == p;
    var rest := [("measures", Collection([])), ("drilldowns", Collection([])), ("properties", Collection([])),
                 ("filters", Collection([])), ("exclude", Collection([]))];
    assert p == [("cube", Scalar(c.name))] + rest;
    FlatMapAppend([("cube", Scalar(c.name))], rest, RenderEntry);
    assert FlatMap(rest, RenderEntry) == [];
  }

  /** A fresh query sends nothing but its cube's name. */
  lemma FreshQueryUrl(c: Cube)
    ensures LogicLayerUrl(NewQuery(c)) ==
      Ok("data.jsonrecords?" + if c.name == "" then "" else "cube=" + QuotePlus(c.name))
  {
    var q := NewQuery(c);
    var p := InitialParams(q);
    var pairs := Finalize(p);
    assert BuildParams(q) == Ok(p) && pairs == (if c.name == "" then [] else [("cube", c.name)]) by {
      FreshQueryParams(c);
    }
    var e := if c.name == "" then "" else "cube=" + QuotePlus(c.name);
    assert EncodePairs(pairs) == e by { CubeOnlyEncoded(c.name, pairs); }
    JsonRecordsUrl(q, p, e);
  }

  lemma JsonRecordsUrl(q: Query, p: Params, e: string)
    requires BuildParams(q) == Ok(p) && EncodePairs(Finalize(p)) == e && q.extension == JsonRecords
    ensures LogicLayerUrl(q) == Ok("data.jsonrecords?" + e)
  {
    LogicLayerUrlOf(q, p);
    JsonRecordsPrefix(q.extension);
  }

  lemma LogicLayerUrlOf(q: Query, p: Params)
    requires BuildParams(q) == Ok(p)
    ensures LogicLayerUrl(q) == Ok("data." + q.extension + "?" + EncodePairs(Finalize(p)))
  {
  }

  lemma JsonRecordsPrefix(x: string)
    requires x == JsonRecords
    ensures "data." + x + "?" == "data.jsonrecords?"
  {
  }


  // ---- the order of the parameters ----

  function CutKeys(cut: Cut): seq<string> {
    [LevelName(cut.level)] + if cut.isExclusive then ["exclude"] else []
  }

  function CalcKeys(c: Calculation): seq<string> {
    if CalcKey(c).Some? then [CalcKey(c).value] else []
  }

  function OptionKeysOn(options: map<string, bool>, ks: seq<string>): seq<string>
    decreases |ks|
  {
    if |ks| == 0 then []
    else (if OptionOn(options, ks[0]) then [ks[0]] else []) + OptionKeysOn(options, ks[1..])
  }

  function LocaleKeys(q: Query): seq<string> {
    if q.locale.Some? then ["locale"] else []
  }

  function LimitSortKeys(q: Query): seq<string> {
    (if q.pagination.0 > 0 then ["limit"] else []) + (if q.sorting.0.Some? then ["sort"] else [])
  }

  /** Every key the builder sets, in the order it sets them. */
  function ParamKeys(q: Query): seq<string> {
    FixedKeys + LocaleKeys(q) + FlatMap(q.cuts, CutKeys) + LimitSortKeys(q)
    + FlatMap(q.calculations, CalcKeys) + OptionKeysOn(q.options, OptionKeys)
  }

  lemma KeysPut(p: Params, k: string, v: ParamValue)
    ensures Keys(Put(p, k, v)) == AddNew(Keys(p), [k])
  {
    PutKeys(p, k, v);
  }

  lemma ApplyCutKeys(p: Params, cut: Cut)
    requires ApplyCut(p, cut).Ok?
    ensures Keys(ApplyCut(p, cut).value) == AddNew(Keys(p), CutKeys(cut))
  {
    var name := LevelName(cut.level);
    var p1 := Put(p, name, Scalar(Join(",", cut.members)));
    KeysPut(p, name, Scalar(Join(",", cut.members)));
    if cut.isExclusive {
      var xs := Get(p1, "exclude").value.items;
      KeysPut(p1, "exclude", Collection(xs + [name]));
      AddNewConcat(Keys(p), [name], ["exclude"]);
    }
  }

  lemma {:induction false} WithCutsKeys(p: Params, cuts: seq<Cut>)
    requires WithCuts(p, cuts).Ok?
    ensures Keys(WithCuts(p, cuts).value) == AddNew(Keys(p), FlatMap(cuts, CutKeys))
    decreases |cuts|
  {
    if |cuts| > 0 {
      var p1 := ApplyCut(p, cuts[0]).value;
      ApplyCutKeys(p, cuts[0]);
      WithCutsKeys(p1, cuts[1..]);
      AddNewConcat(Keys(p), CutKeys(cuts[0]), FlatMap(cuts[1..], CutKeys));
    }
  }

  lemma {:induction false} WithCalculationsKeys(p: Params, cs: seq<Calculation>)
    requires WithCalculations(p, cs).Ok?
    ensures Keys(WithCalculations(p, cs).value) == AddNew(Keys(p), FlatMap(cs, CalcKeys))
    decreases |cs|
  {
    if |cs| > 0 {
      var p1 := ApplyCalculation(p, cs[0]).value;
      if CalcKey(cs[0]).Some? {
        KeysPut(p, CalcKey(cs[0]).value, Scalar(CalcText(cs[0]).value));
      }
      WithCalculationsKeys(p1, cs[1..]);
      AddNewConcat(Keys(p), CalcKeys(cs[0]), FlatMap(cs[1..], CalcKeys));
    }
  }

  lemma {:induction false} WithOptionKeysKeys(p: Params, options: map<string, bool>, ks: seq<string>)
    ensures Keys(WithOptionKeys(p, options, ks)) == AddNew(Keys(p), OptionKeysOn(options, ks))
    decreases |ks|
  {
    if |ks| > 0 {
      var on := if OptionOn(options, ks[0]) then [ks[0]] else [];
      var p1 := if OptionOn(options, ks[0]) then Put(p, ks[0], Scalar("true")) else p;
      if OptionOn(options, ks[0]) {
        KeysPut(p, ks[0], Scalar("true"));
      }
      WithOptionKeysKeys(p1, options, ks[1..]);
      AddNewConcat(Keys(p), on, OptionKeysOn(options, ks[1..]));
    }
  }

  lemma AddNewOptional(acc: seq<string>, b: bool, k: string, p: Params, v: ParamValue)
    requires Keys(p) == acc
    ensures Keys(if b then Put(p, k, v) else p) == AddNew(acc, if b then [k] else [])
  {
    if b {
      KeysPut(p, k, v);
    }
  }

  /** The parameters set before the cuts. */
  function CutBase(q: Query): Params {
    WithLocale(InitialParams(q), q.locale)
  }

  lemma CutBaseKeys(q: Query)
    ensures Keys(CutBase(q)) == Distinct(FixedKeys + LocaleKeys(q))
  {
    assert NoDup(FixedKeys);
    AddNewNoDup(FixedKeys);
    if q.locale.Some? {
      AddNewOptional(FixedKeys, true, "locale", InitialParams(q), Scalar(q.locale.value));
    }
    AddNewConcat([], FixedKeys, LocaleKeys(q));
  }

  lemma LimitSortStageKeys(q: Query, p: Params)
    ensures Keys(WithSort(WithLimit(p, q.pagination), q.sorting)) == AddNew(Keys(p), LimitSortKeys(q))
  {
    var limit := if q.pagination.0 > 0 then ["limit"] else [];
    var sort := if q.sorting.0.Some? then ["sort"] else [];
    var p3 := WithLimit(p, q.pagination);
    AddNewOptional(Keys(p), q.pagination.0 > 0, "limit", p, Scalar(LimitText(q.pagination)));
    if q.sorting.0.Some? {
      AddNewOptional(Keys(p3), true, "sort", p3, Scalar(q.sorting.0.value + "." + q.sorting.1));
    }
    AddNewConcat(Keys(p), limit, sort);
  }

  /** The keys after cuts, limit and sort. */
  lemma SortStageKeys(q: Query)
    requires WithCuts(CutBase(q), q.cuts).Ok?
    ensures Keys(WithSort(WithLimit(WithCuts(CutBase(q), q.cuts).value, q.pagination), q.sorting))
      == Distinct(FixedKeys + LocaleKeys(q) + FlatMap(q.cuts, CutKeys) + LimitSortKeys(q))
  {
    var p2 := WithCuts(CutBase(q), q.cuts).value;
    CutBaseKeys(q);
    WithCutsKeys(CutBase(q), q.cuts);
    AddNewConcat([], FixedKeys + LocaleKeys(q), FlatMap(q.cuts, CutKeys));
    LimitSortStageKeys(q, p2);
    AddNewConcat([], FixedKeys + LocaleKeys(q) + FlatMap(q.cuts, CutKeys), LimitSortKeys(q));
  }

  /** The dictionary lists every key the builder sets, once, where it was first set: a key set again
      (a cut on a level called `limit`, a second growth calculation) keeps its first position. */
  lemma BuildParamsKeys(q: Query)
    requires BuildParams(q).Ok?
    ensures Keys(BuildParams(q).value) == Distinct(ParamKeys(q))
  {
    var p3 := WithSort(WithLimit(WithCuts(CutBase(q), q.cuts).value, q.pagination), q.sorting);
    var pre := FixedKeys + LocaleKeys(q) + FlatMap(q.cuts, CutKeys) + LimitSortKeys(q);
    SortStageKeys(q);
    var p4 := WithCalculations(p3, q.calculations).value;
    assert BuildParams(q) == Ok(WithOptions(p4, q.options));
    WithCalculationsKeys(p3, q.calculations);
    WithOptionKeysKeys(p4, q.options, OptionKeys);
    AddNewConcat([], pre, FlatMap(q.calculations, CalcKeys));
    AddNewConcat([], pre + FlatMap(q.calculations, CalcKeys), OptionKeysOn(q.options, OptionKeys));
  }

  /** `xs` is `ys` with some elements left out. */
  predicate Subsequence<T(==)>(xs: seq<T>, ys: seq<T>)
    decreases |ys|
  {
    |xs| == 0 || (|ys| > 0 && ((xs[0] == ys[0] && Subsequence(xs[1..], ys[1..])) || Subsequence(xs, ys[1..])))
  }

  /** The entries whose values survive the final rewrite. */
  function ValidEntries(p: Params): Params {
    FilterValues(p, IsValidFn())
  }

  /** Each entry rendered as the string it is sent as. */
  function RenderAll(p: Params): (r: seq<(string, string)>)
    ensures |r| == |p| && forall i :: 0 <= i < |p| ==> r[i] == (p[i].0, Render(p[i].1))
    decreases |p|
  {
    if |p| == 0 then [] else [(p[0].0, Render(p[0].1))] + RenderAll(p[1..])
  }

  lemma {:induction false} FlatMapRenderEntry(p: Params)
    ensures FlatMap(p, RenderEntry) == RenderAll(ValidEntries(p))
    decreases |p|
  {
    if |p| > 0 {
      FlatMapRenderEntry(p[1..]);
      assert IsValidFn()(p[0].1) == IsValidValue(p[0].1);
      if IsValidValue(p[0].1) {
        assert ValidEntries(p) == [p[0]] + ValidEntries(p[1..]);
        assert RenderAll(ValidEntries(p))[1..] == RenderAll(ValidEntries(p[1..]));
      }
    }
  }

  /** The URL's pairs are the dictionary's non-empty entries, rendered, in dictionary order. */
  lemma FinalizeValid(p: Params)
    ensures Finalize(p) == RenderAll(ValidEntries(p))
  {
    FlatMapRenderEntry(p);
  }

  lemma {:induction false} FilterKeysSubsequence(p: Params)
    ensures Subsequence(Keys(ValidEntries(p)), Keys(p))
    decreases |p|
  {
    if |p| > 0 {
      FilterKeysSubsequence(p[1..]);
      assert Keys(p)[1..] == Keys(p[1..]);
      assert IsValidFn()(p[0].1) == IsValidValue(p[0].1);
      if IsValidValue(p[0].1) {
        assert Keys(ValidEntries(p))[1..] == Keys(ValidEntries(p[1..]));
      }
    }
  }

  lemma FinalizeKeys(p: Params)
    ensures Keys(Finalize(p)) == Keys(ValidEntries(p))
    ensures Subsequence(Keys(Finalize(p)), Keys(p))
  {
    FinalizeValid(p);
    FilterKeysSubsequence(p);
    var v := ValidEntries(p);
    assert Keys(RenderAll(v)) == Keys(v);
  }

  /** The URL's parameters come in the order the builder first set their keys: cube, measures,
      drilldowns, properties, filters, exclude, locale, the cut levels, limit, sort, the calculation
      kinds and the option flags — minus those left empty. */
  lemma UrlKeyOrder(q: Query)
    requires BuildParams(q).Ok?
    ensures Subsequence(Keys(Finalize(BuildParams(q).value)), Distinct(ParamKeys(q)))
  {
    BuildParamsKeys(q);
    FinalizeKeys(BuildParams(q).value);
  }

  // ---- limit, sort and filters ----

  /** `limit` and `sort` are set after the cuts and by nothing later: `limit` holds the page text
      when the page is positive, `sort` the `field.direction` text when a field is set, and
      otherwise each keeps what the cuts left. */
  lemma LimitAndSort(q: Query)
    requires BuildParams(q).Ok?
    ensures var p2 := WithCuts(CutBase(q), q.cuts).value; var p := BuildParams(q).value;
      Get(p, "limit") == (if q.pagination.0 > 0 then Some(Scalar(LimitText(q.pagination))) else Get(p2, "limit"))
      && Get(p, "sort") == (if q.sorting.0.Some? then Some(Scalar(q.sorting.0.value + "." + q.sorting.1)) else Get(p2, "sort"))
  {
    var p2 := WithCuts(CutBase(q), q.cuts).value;
    var p3a := WithLimit(p2, q.pagination);
    var p3 := WithSort(p3a, q.sorting);
    var p4 := WithCalculations(p3, q.calculations).value;
    if q.pagination.0 > 0 {
      PutGet(p2, "limit", Scalar(LimitText(q.pagination)), "sort");
    }
    if q.sorting.0.Some? {
      PutGet(p3a, "sort", Scalar(q.sorting.0.value + "." + q.sorting.1), "limit");
    }
    LaterStagesKeep(q, "limit");
    LaterStagesKeep(q, "sort");
  }

  /** Neither the calculations nor the option flags touch `limit` or `sort`. */
  lemma LaterStagesKeep(q: Query, k: string)
    requires BuildParams(q).Ok? && (k == "limit" || k == "sort")
    ensures Get(BuildParams(q).value, k) ==
      Get(WithSort(WithLimit(WithCuts(CutBase(q), q.cuts).value, q.pagination), q.sorting), k)
  {
    BuildParamsOk(q);
    var p3 := WithSort(WithLimit(WithCuts(CutBase(q), q.cuts).value, q.pagination), q.sorting);
    LastStagesKeep(p3, q.calculations, q.options, k);
  }

  /** A successful build: the cuts apply, the calculations apply, and the options come last. */
  lemma BuildParamsOk(q: Query)
    requires BuildParams(q).Ok?
    ensures WithCuts(CutBase(q), q.cuts).Ok?
    ensures var p3 := WithSort(WithLimit(WithCuts(CutBase(q), q.cuts).value, q.pagination), q.sorting);
      WithCalculations(p3, q.calculations).Ok?
      && BuildParams(q).value == WithOptions(WithCalculations(p3, q.calculations).value, q.options)
  {
  }

  /** Neither the calculations nor the options write `limit` or `sort`. */
  lemma LastStagesKeep(p3: Params, cs: seq<Calculation>, options: map<string, bool>, k: string)
    requires WithCalculations(p3, cs).Ok? && (k == "limit" || k == "sort")
    ensures Get(WithOptions(WithCalculations(p3, cs).value, options), k) == Get(p3, k)
  {
    assert LastSetting(cs, k).None?;
    WithCalculationsGet(p3, cs, k);
    WithOptionKeysGet(WithCalculations(p3, cs).value, options, OptionKeys, k);
  }


  /** The `limit` text splits at its comma into the page's text and, when it was written, the
      offset's; each reads back as its number (`IntToStringRoundTrip`). */
  lemma LimitTextReadsBack(pagination: (int, int))
    ensures Split(LimitText(pagination), ',') ==
      if pagination.1 > 0 then [IntToString(pagination.0), IntToString(pagination.1)] else [IntToString(pagination.0)]
  {
    var a, b := IntToString(pagination.0), IntToString(pagination.1);
    IntToStringWithout(pagination.0, ',');
    IntToStringWithout(pagination.1, ',');
    if pagination.1 > 0 {
      assert LimitText(pagination) == Join([','], [a, b]);
      SplitJoin([a, b], ',');
    } else {
      SplitJoin([a], ',');
    }
  }

  /** A serialized filter splits at its dots into its fields when none of its words holds a dot:
      the value name, comparison and operand, followed by the joint, comparison and operand when
      the second constraint is joined. */
  lemma SerializeFilterReadsBack(f: Filter)
    requires '.' !in ValueName(f.value) && '.' !in f.constraint1.0
    requires f.Joined() ==> '.' !in f.joint.value && '.' !in f.constraint2.value.0
    ensures var parts := Split(SerializeFilter(f), '.');
      parts == FilterFields(f)
      && parts[0] == ValueName(f.value) && parts[1] == f.constraint1.0 && parts[2] == IntToString(f.constraint1.1)
      && (f.Joined() ==> |parts| == 6 && parts[3] == f.joint.value && parts[4] == f.constraint2.value.0
                         && parts[5] == IntToString(f.constraint2.value.1))
      && (!f.Joined() ==> |parts| == 3)
  {
    var fields := FilterFields(f);
    IntToStringWithout(f.constraint1.1, '.');
    if f.Joined() {
      IntToStringWithout(f.constraint2.value.1, '.');
    }
    forall i | 0 <= i < |fields| ensures '.' !in fields[i] {
    }
    SplitJoin(fields, '.');
    assert SerializeFilter(f) == Join(['.'], fields);
  }

  /** A drilldown's caption property is never written: queries that differ only in their
      drilldowns' captions get the same URL. */
  lemma CaptionsIgnored(q: Query, ds: seq<Drilldown>)
    requires |ds| == |q.drilldowns|
    requires forall i :: 0 <= i < |ds| ==> ds[i].level == q.drilldowns[i].level && ds[i].properties == q.drilldowns[i].properties
    ensures LogicLayerUrl(q.(drilldowns := ds)) == LogicLayerUrl(q)
  {
    var q' := q.(drilldowns := ds);
    FlatMapCongruent(ds, q.drilldowns, LevelNameOf);
    FlatMapCongruent(ds, q.drilldowns, PropertyNamesOf);
    assert InitialParams(q') == InitialParams(q);
    assert CutBase(q') == CutBase(q);
  }

  // ---- option flags ----

  /** A flag is set to `true` exactly when its option holds the boolean true; nothing else changes. */
  lemma {:induction false} WithOptionKeysGet(p: Params, options: map<string, bool>, ks: seq<string>, k: string)
    ensures Get(WithOptionKeys(p, options, ks), k) ==
      if k in ks && OptionOn(options, k) then Some(Scalar("true")) else Get(p, k)
    decreases |ks|
  {
    if |ks| > 0 {
      var p1 := if OptionOn(options, ks[0]) then Put(p, ks[0], Scalar("true")) else p;
      WithOptionKeysGet(p1, options, ks[1..], k);
      if OptionOn(options, ks[0]) {
        PutGet(p, ks[0], Scalar("true"), k);
      }
      assert k in ks <==> k == ks[0] || k in ks[1..];
    }
  }

  // ---- calculations ----

  /** The last calculation in the list that sets parameter `k`. */
  function LastSetting(cs: seq<Calculation>, k: string): (r: Option<Calculation>)
    ensures r.None? <==> forall i :: 0 <= i < |cs| ==> CalcKey(cs[i]) != Some(k)
    ensures r.Some? ==> exists i :: 0 <= i < |cs| && cs[i] == r.value && CalcKey(cs[i]) == Some(k)
                          && forall j :: i < j < |cs| ==> CalcKey(cs[j]) != Some(k)
    decreases |cs|
  {
    if |cs| == 0 then None
    else
      var rest := LastSetting(cs[1..], k);
      assert forall i :: 1 <= i < |cs| ==> cs[i] == cs[1..][i - 1];
      if rest.Some? then
        var i :| 0 <= i < |cs[1..]| && cs[1..][i] == rest.value && CalcKey(cs[1..][i]) == Some(k)
                 && forall j :: i < j < |cs[1..]| ==> CalcKey(cs[1..][j]) != Some(k);
        assert cs[i + 1] == rest.value;
        rest
      else if CalcKey(cs[0]) == Some(k) then Some(cs[0])
      else None
  }

  /** The calculations fail iff one of a known kind cannot be written. */
  lemma {:induction false} WithCalculationsOkIff(p: Params, cs: seq<Calculation>)
    ensures WithCalculations(p, cs).Ok? <==> forall i :: 0 <= i < |cs| && CalcKey(cs[i]).Some? ==> CalcText(cs[i]).Ok?
    decreases |cs|
  {
    if |cs| > 0 {
      assert forall i :: 1 <= i < |cs| ==> cs[i] == cs[1..][i - 1];
      if ApplyCalculation(p, cs[0]).Ok? {
        WithCalculationsOkIff(ApplyCalculation(p, cs[0]).value, cs[1..]);
      }
    }
  }

  /** For each calculation kind only the last calculation of that kind is sent; a parameter no
      calculation sets keeps its value. */
  lemma {:induction false} WithCalculationsGet(p: Params, cs: seq<Calculation>, k: string)
    requires WithCalculations(p, cs).Ok?
    ensures LastSetting(cs, k).None? ==> Get(WithCalculations(p, cs).value, k) == Get(p, k)
    ensures LastSetting(cs, k).Some? ==>
      CalcText(LastSetting(cs, k).value).Ok?
      && Get(WithCalculations(p, cs).value, k) == Some(Scalar(CalcText(LastSetting(cs, k).value).value))
    decreases |cs|
  {
    WithCalculationsOkIff(p, cs);
    if |cs| > 0 {
      var p1 := ApplyCalculation(p, cs[0]).value;
      WithCalculationsGet(p1, cs[1..], k);
      if CalcKey(cs[0]).Some? {
        PutGet(p, CalcKey(cs[0]).value, Scalar(CalcText(cs[0]).value), k);
      }
    }
  }

  // ---- cuts ----

  /** Cut `i` is the last cut on its level's key. */
  predicate LastCutOn(cuts: seq<Cut>, i: nat) {
    i < |cuts| && forall j :: i < j < |cuts| ==> LevelName(cuts[j].level) != LevelName(cuts[i].level)
  }

  lemma SomeExclusiveRest(cuts: seq<Cut>)
    requires |cuts| > 0 && !cuts[0].isExclusive
    ensures (exists j :: 0 <= j < |cuts| && cuts[j].isExclusive) <==>
      exists j :: 0 <= j < |cuts[1..]| && cuts[1..][j].isExclusive
  {
    if exists j :: 0 <= j < |cuts| && cuts[j].isExclusive {
      var j :| 0 <= j < |cuts| && cuts[j].isExclusive;
      assert cuts[1..][j - 1].isExclusive;
    }
    if exists j :: 0 <= j < |cuts[1..]| && cuts[1..][j].isExclusive {
      var j :| 0 <= j < |cuts[1..]| && cuts[1..][j].isExclusive;
      assert cuts[j + 1].isExclusive;
    }
  }

  /** Once `exclude` holds a string, every exclusive cut fails. */
  lemma {:induction false} WithCutsBrokenExclude(p: Params, cuts: seq<Cut>)
    requires Get(p, "exclude").Some? && !ExcludeIsList(p)
    ensures WithCuts(p, cuts).Err? <==> exists j :: 0 <= j < |cuts| && cuts[j].isExclusive
    decreases |cuts|
  {
    if |cuts| > 0 {
      if cuts[0].isExclusive {
        assert ApplyCut(p, cuts[0]).Err?;
      } else {
        var name := LevelName(cuts[0].level);
        PutGet(p, name, Scalar(Join(",", cuts[0].members)), "exclude");
        WithCutsBrokenExclude(ApplyCut(p, cuts[0]).value, cuts[1..]);
        SomeExclusiveRest(cuts);
      }
    }
  }

  /** Some cut on a level whose effective name is `exclude` comes at or before an exclusive cut. */
  predicate ExclusiveAfterExclude(cuts: seq<Cut>) {
    exists i, j :: 0 <= i <= j < |cuts| && LevelName(cuts[i].level) == "exclude" && cuts[j].isExclusive
  }

  lemma ExclusiveAfterExcludeFirst(cuts: seq<Cut>)
    requires |cuts| > 0 && LevelName(cuts[0].level) == "exclude" && !cuts[0].isExclusive
    ensures ExclusiveAfterExclude(cuts) <==> exists j :: 0 <= j < |cuts[1..]| && cuts[1..][j].isExclusive
  {
    if ExclusiveAfterExclude(cuts) {
      var i, j :| 0 <= i <= j < |cuts| && LevelName(cuts[i].level) == "exclude" && cuts[j].isExclusive;
      assert cuts[1..][j - 1].isExclusive;
    }
    if exists j :: 0 <= j < |cuts[1..]| && cuts[1..][j].isExclusive {
      var j :| 0 <= j < |cuts[1..]| && cuts[1..][j].isExclusive;
      assert cuts[j + 1].isExclusive;
    }
  }

  lemma ExclusiveAfterExcludeRest(cuts: seq<Cut>)
    requires |cuts| > 0 && LevelName(cuts[0].level) != "exclude"
    ensures ExclusiveAfterExclude(cuts) <==> ExclusiveAfterExclude(cuts[1..])
  {
    if ExclusiveAfterExclude(cuts) {
      var i, j :| 0 <= i <= j < |cuts| && LevelName(cuts[i].level) == "exclude" && cuts[j].isExclusive;
      assert i > 0;
      assert LevelName(cuts[1..][i - 1].level) == "exclude" && cuts[1..][j - 1].isExclusive;
    }
    if ExclusiveAfterExclude(cuts[1..]) {
      var i, j :| 0 <= i <= j < |cuts[1..]| && LevelName(cuts[1..][i].level) == "exclude" && cuts[1..][j].isExclusive;
      assert LevelName(cuts[i + 1].level) == "exclude" && cuts[j + 1].isExclusive;
    }
  }

  /** Starting from an `exclude` list, the cuts fail iff an exclusive cut comes at or after a cut
      on a level whose effective name is `exclude`, which replaces the list by a string. */
  lemma {:induction false} WithCutsOkIff(p: Params, cuts: seq<Cut>)
    requires ExcludeIsList(p)
    ensures WithCuts(p, cuts).Err? <==> ExclusiveAfterExclude(cuts)
    decreases |cuts|
  {
    if |cuts| > 0 {
      var name := LevelName(cuts[0].level);
      if ApplyCut(p, cuts[0]).Err? {
        assert LevelName(cuts[0].level) == "exclude" && cuts[0].isExclusive;
      } else {
        var p1 := ApplyCut(p, cuts[0]).value;
        if name == "exclude" {
          PutGet(p, name, Scalar(Join(",", cuts[0].members)), "exclude");
          WithCutsBrokenExclude(p1, cuts[1..]);
          ExclusiveAfterExcludeFirst(cuts);
        } else {
          WithCutsOkIff(p1, cuts[1..]);
          ExclusiveAfterExcludeRest(cuts);
        }
      }
    }
  }

  /** The levels of the exclusive cuts, in order. */
  function ExcludedOf(cut: Cut): seq<string> {
    if cut.isExclusive then [LevelName(cut.level)] else []
  }

  /** Without a cut on a level named `exclude`, the exclusive cuts' levels are appended to the
      `exclude` list in order. */
  lemma ApplyCutExclude(p: Params, cut: Cut)
    requires ExcludeIsList(p) && LevelName(cut.level) != "exclude"
    ensures ApplyCut(p, cut).Ok? && ExcludeIsList(ApplyCut(p, cut).value)
    ensures Get(ApplyCut(p, cut).value, "exclude").value.items == Get(p, "exclude").value.items + ExcludedOf(cut)
  {
    if !cut.isExclusive {
      assert Get(p, "exclude").value.items + ExcludedOf(cut) == Get(p, "exclude").value.items;
    }
  }

  lemma {:induction false} WithCutsExclude(p: Params, cuts: seq<Cut>)
    requires ExcludeIsList(p)
    requires forall i :: 0 <= i < |cuts| ==> LevelName(cuts[i].level) != "exclude"
    ensures WithCuts(p, cuts).Ok? && ExcludeIsList(WithCuts(p, cuts).value)
    ensures Get(WithCuts(p, cuts).value, "exclude").value.items == Get(p, "exclude").value.items + FlatMap(cuts, ExcludedOf)
    decreases |cuts|
  {
    if |cuts| > 0 {
      ApplyCutExclude(p, cuts[0]);
      var p1 := ApplyCut(p, cuts[0]).value;
      var rest := cuts[1..];
      NoExcludeTail(cuts);
      WithCutsExclude(p1, rest);
      WithCutsStep(p, cuts);
      var xs, e0, er := Get(p, "exclude").value.items, ExcludedOf(cuts[0]), FlatMap(rest, ExcludedOf);
      assert FlatMap(cuts, ExcludedOf) == e0 + er;
      AppendAssociative(xs, e0, er);
    }
  }

  lemma NoExcludeTail(cuts: seq<Cut>)
    requires |cuts| > 0 && forall i :: 0 <= i < |cuts| ==> LevelName(cuts[i].level) != "exclude"
    ensures forall i :: 0 <= i < |cuts[1..]| ==> LevelName(cuts[1..][i].level) != "exclude"
  {
    forall i | 0 <= i < |cuts[1..]| ensures LevelName(cuts[1..][i].level) != "exclude" {
      assert cuts[1..][i] == cuts[i + 1];
    }
  }

  /** Once the first cut applies, the rest apply to its output. */
  lemma WithCutsStep(p: Params, cuts: seq<Cut>)
    requires |cuts| > 0 && ApplyCut(p, cuts[0]).Ok?
    ensures WithCuts(p, cuts) == WithCuts(ApplyCut(p, cuts[0]).value, cuts[1..])
  {
  }

  /** The last cut on a level (other than `exclude`) sends its members, comma-joined in their stored
      order, under the level's effective name. */
  lemma {:induction false} WithCutsValue(p: Params, cuts: seq<Cut>, i: nat)
    requires WithCuts(p, cuts).Ok?
    requires LastCutOn(cuts, i) && LevelName(cuts[i].level) != "exclude"
    ensures Get(WithCuts(p, cuts).value, LevelName(cuts[i].level)) == Some(Scalar(Join(",", cuts[i].members)))
    decreases |cuts|
  {
    var p1 := ApplyCut(p, cuts[0]).value;
    assert forall j :: 1 <= j < |cuts| ==> cuts[j] == cuts[1..][j - 1];
    if i > 0 {
      WithCutsValue(p1, cuts[1..], i - 1);
    } else {
      WithCutsUntouched(p1, cuts[1..], LevelName(cuts[0].level));
    }
  }

  /** Cuts touch only their own levels' keys and `exclude`. */
  lemma {:induction false} WithCutsUntouched(p: Params, cuts: seq<Cut>, k: string)
    requires WithCuts(p, cuts).Ok?
    requires k != "exclude" && forall j :: 0 <= j < |cuts| ==> LevelName(cuts[j].level) != k
    ensures Get(WithCuts(p, cuts).value, k) == Get(p, k)
    decreases |cuts|
  {
    if |cuts| > 0 {
      ApplyCutUntouched(p, cuts[0], k);
      NoLevelTail(cuts, k);
      WithCutsStep(p, cuts);
      WithCutsUntouched(ApplyCut(p, cuts[0]).value, cuts[1..], k);
    }
  }

  /** A cut leaves alone every key other than its level's name and `exclude`. */
  lemma ApplyCutUntouched(p: Params, cut: Cut, k: string)
    requires ApplyCut(p, cut).Ok? && k != "exclude" && LevelName(cut.level) != k
    ensures Get(ApplyCut(p, cut).value, k) == Get(p, k)
  {
    var name := LevelName(cut.level);
    var p0 := Put(p, name, Scalar(Join(",", cut.members)));
    PutGet(p, name, Scalar(Join(",", cut.members)), k);
    if cut.isExclusive {
      PutGet(p0, "exclude", Collection(Get(p0, "exclude").value.items + [name]), k);
    }
  }

  lemma NoLevelTail(cuts: seq<Cut>, k: string)
    requires |cuts| > 0 && forall j :: 0 <= j < |cuts| ==> LevelName(cuts[j].level) != k
    ensures forall j :: 0 <= j < |cuts[1..]| ==> LevelName(cuts[1..][j].level) != k
  {
    forall j | 0 <= j < |cuts[1..]| ensures LevelName(cuts[1..][j].level) != k {
      assert cuts[1..][j] == cuts[j + 1];
    }
  }

}
