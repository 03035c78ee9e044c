/** The LogicLayer URL does not depend on the iteration order of the query's sets and of its
    drilldown and filter dictionaries: every collection is sorted before it is written, so two
    dictionaries whose collections differ only in order give the same URL. */
module UrlOrder {
  import opened Outcome
  import opened Seqs
  import opened Text
  import opened OrderedDict
  import opened FormEncoding
  import opened Schema
  import opened TesseractQuery

  /** Two values that are written the same way: equal, or collections with the same elements. */
  predicate ValueEquiv(a: ParamValue, b: ParamValue) {
    a == b || (a.Collection? && b.Collection? && multiset(a.items) == multiset(b.items))
  }

  /** Two dictionaries with the same keys in the same order and equivalent values. */
  predicate ParamsEquiv(p: Params, p': Params) {
    |p| == |p'| && forall i :: 0 <= i < |p| ==> p[i].0 == p'[i].0 && ValueEquiv(p[i].1, p'[i].1)
  }

  /** Equivalent values are kept or dropped together and rendered to the same string. */
  lemma ValueEquivRender(a: ParamValue, b: ParamValue)
    requires ValueEquiv(a, b)
    ensures IsValidValue(a) == IsValidValue(b)
    ensures Render(a) == Render(b)
  {
    if a != b {
      assert |a.items| == |multiset(a.items)| == |multiset(b.items)| == |b.items|;
      SortIgnoresOrder(a.items, b.items);
    }
  }

  lemma EquivTail(p: Params, p': Params)
    requires ParamsEquiv(p, p') && |p| > 0
    ensures ParamsEquiv(p[1..], p'[1..])
  {
    forall i | 0 <= i < |p[1..]| ensures p[1..][i].0 == p'[1..][i].0 && ValueEquiv(p[1..][i].1, p'[1..][i].1) {
      assert p[1..][i] == p[i + 1] && p'[1..][i] == p'[i + 1];
    }
  }

  lemma {:induction false} RenderEntriesEquiv(p: Params, p': Params)
    requires ParamsEquiv(p, p')
    ensures FlatMap(p, RenderEntry) == FlatMap(p', RenderEntry)
    decreases |p|
  {
    if |p| > 0 {
      EquivTail(p, p');
      RenderEntriesEquiv(p[1..], p'[1..]);
      ValueEquivRender(p[0].1, p'[0].1);
      assert RenderEntry(p[0]) == RenderEntry(p'[0]);
    }
  }

  /** Equivalent dictionaries give the same URL parameters. */
  lemma FinalizeEquiv(p: Params, p': Params)
    requires ParamsEquiv(p, p')
    ensures Finalize(p) == Finalize(p')
  {
    RenderEntriesEquiv(p, p');
  }

  lemma {:induction false} GetEquiv(p: Params, p': Params, k: string)
    requires ParamsEquiv(p, p')
    ensures Get(p, k).Some? == Get(p', k).Some?
    ensures Get(p, k).Some? ==> ValueEquiv(Get(p, k).value, Get(p', k).value)
    decreases |p|
  {
    if |p| > 0 && p[0].0 != k {
      EquivTail(p, p');
      GetEquiv(p[1..], p'[1..], k);
    }
  }

  lemma {:induction false} PutEquiv(p: Params, p': Params, k: string, v: ParamValue, v': ParamValue)
    requires ParamsEquiv(p, p') && ValueEquiv(v, v')
    ensures ParamsEquiv(Put(p, k, v), Put(p', k, v'))
    decreases |p|
  {
    if |p| > 0 && p[0].0 != k {
      EquivTail(p, p');
      PutEquiv(p[1..], p'[1..], k, v, v');
      var r, r' := Put(p, k, v), Put(p', k, v');
      assert r == [p[0]] + Put(p[1..], k, v) && r' == [p'[0]] + Put(p'[1..], k, v');
      forall i | 0 <= i < |r| ensures r[i].0 == r'[i].0 && ValueEquiv(r[i].1, r'[i].1) {
        if i > 0 {
          assert r[i] == Put(p[1..], k, v)[i - 1] && r'[i] == Put(p'[1..], k, v')[i - 1];
        }
      }
    } else if |p| > 0 {
      var r, r' := Put(p, k, v), Put(p', k, v');
      forall i | 0 <= i < |r| ensures r[i].0 == r'[i].0 && ValueEquiv(r[i].1, r'[i].1) {
        if i > 0 {
          assert r[i] == p[i] && r'[i] == p'[i];
        }
      }
    }
  }

  lemma ApplyCutEquiv(p: Params, p': Params, cut: Cut)
    requires ParamsEquiv(p, p')
    ensures ApplyCut(p, cut).Ok? == ApplyCut(p', cut).Ok?
    ensures ApplyCut(p, cut).Ok? ==> ParamsEquiv(ApplyCut(p, cut).value, ApplyCut(p', cut).value)
    ensures ApplyCut(p, cut).Err? ==> ApplyCut(p, cut) == ApplyCut(p', cut)
  {
    var name := LevelName(cut.level);
    var v := Scalar(Join(",", cut.members));
    var p1, p1' := Put(p, name, v), Put(p', name, v);
    PutEquiv(p, p', name, v, v);
    GetEquiv(p1, p1', "exclude");
    GetEquiv(p, p', "exclude");
    if ApplyCut(p, cut).Ok? && cut.isExclusive {
      var xs, xs' := Get(p1, "exclude").value.items, Get(p1', "exclude").value.items;
      assert multiset(xs + [name]) == multiset(xs' + [name]);
      PutEquiv(p1, p1', "exclude", Collection(xs + [name]), Collection(xs' + [name]));
    }
  }

  lemma {:induction false} WithCutsEquiv(p: Params, p': Params, cuts: seq<Cut>)
    requires ParamsEquiv(p, p')
    ensures WithCuts(p, cuts).Ok? == WithCuts(p', cuts).Ok?
    ensures WithCuts(p, cuts).Ok? ==> ParamsEquiv(WithCuts(p, cuts).value, WithCuts(p', cuts).value)
    ensures WithCuts(p, cuts).Err? ==> WithCuts(p, cuts) == WithCuts(p', cuts)
    decreases |cuts|
  {
    if |cuts| > 0 {
      ApplyCutEquiv(p, p', cuts[0]);
      if ApplyCut(p, cuts[0]).Ok? {
        WithCutsEquiv(ApplyCut(p, cuts[0]).value, ApplyCut(p', cuts[0]).value, cuts[1..]);
      }
    }
  }

  lemma {:induction false} WithCalculationsEquiv(p: Params, p': Params, cs: seq<Calculation>)
    requires ParamsEquiv(p, p')
    ensures WithCalculations(p, cs).Ok? == WithCalculations(p', cs).Ok?
    ensures WithCalculations(p, cs).Ok? ==> ParamsEquiv(WithCalculations(p, cs).value, WithCalculations(p', cs).value)
    ensures WithCalculations(p, cs).Err? ==> WithCalculations(p, cs) == WithCalculations(p', cs)
    decreases |cs|
  {
    if |cs| > 0 {
      if CalcKey(cs[0]).Some? && CalcText(cs[0]).Ok? {
        var v := Scalar(CalcText(cs[0]).value);
        PutEquiv(p, p', CalcKey(cs[0]).value, v, v);
      }
      if ApplyCalculation(p, cs[0]).Ok? {
        WithCalculationsEquiv(ApplyCalculation(p, cs[0]).value, ApplyCalculation(p', cs[0]).value, cs[1..]);
      }
    }
  }

  lemma {:induction false} WithOptionKeysEquiv(p: Params, p': Params, options: map<string, bool>, ks: seq<string>)
    requires ParamsEquiv(p, p')
    ensures ParamsEquiv(WithOptionKeys(p, options, ks), WithOptionKeys(p', options, ks))
    decreases |ks|
  {
    if |ks| > 0 {
      var v := Scalar("true");
      if OptionOn(options, ks[0]) {
        PutEquiv(p, p', ks[0], v, v);
        WithOptionKeysEquiv(Put(p, ks[0], v), Put(p', ks[0], v), options, ks[1..]);
      } else {
        WithOptionKeysEquiv(p, p', options, ks[1..]);
      }
    }
  }

  /** Two queries that agree on everything but what their initial dictionaries list. */
  predicate SameSettings(q: Query, q': Query) {
    q.cuts == q'.cuts && q.calculations == q'.calculations && q.locale == q'.locale && q.time == q'.time
    && q.pagination == q'.pagination && q.sorting == q'.sorting && q.options == q'.options
    && q.extension == q'.extension
  }

  lemma {:induction false} BuildParamsEquiv(q: Query, q': Query)
    requires SameSettings(q, q') && ParamsEquiv(InitialParams(q), InitialParams(q'))
    ensures BuildParams(q).Ok? == BuildParams(q').Ok?
    ensures BuildParams(q).Ok? ==> ParamsEquiv(BuildParams(q).value, BuildParams(q').value)
    ensures BuildParams(q).Err? ==> BuildParams(q) == BuildParams(q')
  {
    var p1, p1' := WithLocale(InitialParams(q), q.locale), WithLocale(InitialParams(q'), q.locale);
    LocaleEquiv(InitialParams(q), InitialParams(q'), q.locale);
    WithCutsEquiv(p1, p1', q.cuts);
    if WithCuts(p1, q.cuts).Ok? {
      var p2, p2' := WithCuts(p1, q.cuts).value, WithCuts(p1', q.cuts).value;
      LimitSortEquiv(p2, p2', q.pagination, q.sorting);
      var p3, p3' := WithSort(WithLimit(p2, q.pagination), q.sorting), WithSort(WithLimit(p2', q.pagination), q.sorting);
      TailEquiv(p3, p3', q.calculations, q.options);
    }
  }

  lemma LocaleEquiv(p: Params, p': Params, locale: Option<string>)
    requires ParamsEquiv(p, p')
    ensures ParamsEquiv(WithLocale(p, locale), WithLocale(p', locale))
  {
    if locale.Some? {
      PutEquiv(p, p', "locale", Scalar(locale.value), Scalar(locale.value));
    }
  }

  lemma LimitSortEquiv(p: Params, p': Params, pagination: (int, int), sorting: (Option<string>, string))
    requires ParamsEquiv(p, p')
    ensures ParamsEquiv(WithSort(WithLimit(p, pagination), sorting), WithSort(WithLimit(p', pagination), sorting))
  {
    var limit := Scalar(LimitText(pagination));
    if pagination.0 > 0 {
      PutEquiv(p, p', "limit", limit, limit);
    }
    var p3, p3' := WithLimit(p, pagination), WithLimit(p', pagination);
    if sorting.0.Some? {
      var sort := Scalar(sorting.0.value + "." + sorting.1);
      PutEquiv(p3, p3', "sort", sort, sort);
    }
  }

  lemma TailEquiv(p: Params, p': Params, cs: seq<Calculation>, options: map<string, bool>)
    requires ParamsEquiv(p, p')
    ensures WithCalculations(p, cs).Ok? == WithCalculations(p', cs).Ok?
    ensures WithCalculations(p, cs).Ok? ==>
      ParamsEquiv(WithOptions(WithCalculations(p, cs).value, options), WithOptions(WithCalculations(p', cs).value, options))
    ensures WithCalculations(p, cs).Err? ==> WithCalculations(p, cs) == WithCalculations(p', cs)
  {
    WithCalculationsEquiv(p, p', cs);
    if WithCalculations(p, cs).Ok? {
      WithOptionKeysEquiv(WithCalculations(p, cs).value, WithCalculations(p', cs).value, options, OptionKeys);
    }
  }


  /** The URL is a function of the settings and of what the initial dictionary lists, not of the
      order in which it lists it. */
  lemma UrlEquiv(q: Query, q': Query)
    requires SameSettings(q, q') && ParamsEquiv(InitialParams(q), InitialParams(q'))
    ensures LogicLayerUrl(q) == LogicLayerUrl(q')
  {
    BuildParamsEquiv(q, q');
    if BuildParams(q).Ok? {
      var p, p' := BuildParams(q).value, BuildParams(q').value;
      FinalizeEquiv(p, p');
      assert LogicLayerUrl(q) == Ok("data." + q.extension + "?" + EncodePairs(Finalize(p)));
      assert LogicLayerUrl(q') == Ok("data." + q.extension + "?" + EncodePairs(Finalize(p')));
    }
  }

  /** `q'` lists the same drilldowns, filters and measures as `q`, perhaps in another order. */
  predicate Reordered(q: Query, q': Query) {
    SameSettings(q, q') && q.cube == q'.cube
    && multiset(q.drilldowns) == multiset(q'.drilldowns)
    && multiset(q.filters) == multiset(q'.filters)
    && multiset(q.measures) == multiset(q'.measures)
  }

  /** The initial dictionaries agree when the cube names agree and the four lists hold the same
      names. */
  lemma InitialEquiv(q: Query, q': Query)
    requires q.cube.name == q'.cube.name
    requires multiset(Distinct(FlatMap(q.measures, MeasureNameOf))) == multiset(Distinct(FlatMap(q'.measures, MeasureNameOf)))
    requires multiset(FlatMap(q.drilldowns, LevelNameOf)) == multiset(FlatMap(q'.drilldowns, LevelNameOf))
    requires multiset(FlatMap(q.drilldowns, PropertyNamesOf)) == multiset(FlatMap(q'.drilldowns, PropertyNamesOf))
    requires multiset(FlatMap(q.filters, FilterStringOf)) == multiset(FlatMap(q'.filters, FilterStringOf))
    ensures ParamsEquiv(InitialParams(q), InitialParams(q'))
  {
    var p, p' := InitialParams(q), InitialParams(q');
    assert |p| == |p'| == 6;
    assert ValueEquiv(p[0].1, p'[0].1) && ValueEquiv(p[1].1, p'[1].1) && ValueEquiv(p[2].1, p'[2].1);
    assert ValueEquiv(p[3].1, p'[3].1) && ValueEquiv(p[4].1, p'[4].1) && ValueEquiv(p[5].1, p'[5].1);
    forall i | 0 <= i < 6 ensures p[i].0 == p'[i].0 && ValueEquiv(p[i].1, p'[i].1) {
      assert p[i].0 == FixedKeys[i] == p'[i].0;
      assert i == 0 || i == 1 || i == 2 || i == 3 || i == 4 || i == 5;
    }
  }

  lemma InitialReordered(q: Query, q': Query)
    requires Reordered(q, q')
    ensures ParamsEquiv(InitialParams(q), InitialParams(q'))
  {
    FlatMapPermutation(q.measures, q'.measures, MeasureNameOf);
    DistinctPermutation(FlatMap(q.measures, MeasureNameOf), FlatMap(q'.measures, MeasureNameOf));
    FlatMapPermutation(q.drilldowns, q'.drilldowns, LevelNameOf);
    FlatMapPermutation(q.drilldowns, q'.drilldowns, PropertyNamesOf);
    FlatMapPermutation(q.filters, q'.filters, FilterStringOf);
    InitialEquiv(q, q');
  }

  /** Adding the same drilldowns, filters and measures in another order gives the same URL. */
  lemma ReorderedUrl(q: Query, q': Query)
    requires Reordered(q, q')
    ensures LogicLayerUrl(q) == LogicLayerUrl(q')
  {
    InitialReordered(q, q');
    UrlEquiv(q, q');
  }

  /** The property set of drilldown `i` listed in another order gives the same URL. */
  lemma PropertyOrderUrl(q: Query, i: nat, props: seq<Property>)
    requires i < |q.drilldowns| && multiset(props) == multiset(q.drilldowns[i].properties)
    ensures LogicLayerUrl(q) == LogicLayerUrl(q.(drilldowns := q.drilldowns[i := q.drilldowns[i].(properties := props)]))
  {
    var ds := q.drilldowns;
    var ds' := ds[i := ds[i].(properties := props)];
    var q' := q.(drilldowns := ds');
    FlatMapSplit(ds, i, PropertyNamesOf);
    FlatMapSplit(ds', i, PropertyNamesOf);
    assert ds'[..i] == ds[..i] && ds'[i + 1..] == ds[i + 1..];
    FlatMapPermutation(props, ds[i].properties, PropertyNameOf);
    FlatMapSplit(ds, i, LevelNameOf);
    FlatMapSplit(ds', i, LevelNameOf);
    assert FlatMap(ds, LevelNameOf) == FlatMap(ds', LevelNameOf);
    assert multiset(FlatMap(ds, PropertyNamesOf)) == multiset(FlatMap(ds', PropertyNamesOf));
    InitialEquiv(q, q');
    UrlEquiv(q, q');
  }
}
