/** The Mondrian REST URL of a legacy query, `<cube>/aggregate.<format>?<parameters>`.

    The parameters come from a fixed dictionary literal, `caption[]` through `sparse`. Entries whose
    value is `None` are dropped; `urlencode` with `doseq` then writes a list as one `key=element`
    pair per element, and a string, number or boolean as a single pair. */
module Mondrian {
  import opened Outcome
  import opened Seqs
  import opened Text
  import opened OrderedDict
  import opened FormEncoding
  import opened LegacyQuery

  /** A parameter value of the dictionary literal. */
  datatype ParamValue = Absent | Plain(text: string) | Flag(flag: bool) | Number(number: int) | Items(items: seq<string>)

  type Params = Dict<string, ParamValue>

  /** `str(b)` for a boolean. */
  function BoolText(b: bool): string {
    if b then "True" else "False"
  }

  /** The strings `urlencode` sends for one value; `None` never reaches it. */
  function Sent(v: ParamValue): (r: seq<string>)
    ensures v.Absent? ==> r == []
    ensures v.Items? ==> r == v.items
    ensures !v.Absent? && !v.Items? ==> |r| == 1
  {
    match v
    case Absent => []
    case Plain(s) => [s]
    case Flag(b) => [BoolText(b)]
    case Number(n) => [IntToString(n)]
    case Items(xs) => xs
  }

  /** One pair per string, all under the key `k`. */
  function Keyed(k: string, xs: seq<string>): (r: seq<(string, string)>)
    ensures |r| == |xs| && forall i :: 0 <= i < |xs| ==> r[i] == (k, xs[i])
    decreases |xs|
  {
    if |xs| == 0 then [] else [(k, xs[0])] + Keyed(k, xs[1..])
  }

  function Expand(e: (string, ParamValue)): seq<(string, string)> {
    Keyed(e.0, Sent(e.1))
  }

  /** `level.&[member]`. */
  function MemberRef(level: string, member: string): string {
    level + ".&[" + member + "]"
  }

  function MemberRefs(level: string, members: seq<string>): (r: seq<string>)
    ensures |r| == |members| && forall i :: 0 <= i < |members| ==> r[i] == MemberRef(level, members[i])
    decreases |members|
  {
    if |members| == 0 then [] else [MemberRef(level, members[0])] + MemberRefs(level, members[1..])
  }

  /** `str_cuts`: a single member is written bare, any other number of members as a braced set. */
  function StrCut(level: string, members: seq<string>): (r: string)
    ensures |members| == 1 ==> r == MemberRef(level, members[0])
    ensures |members| != 1 ==> |r| >= 2 && r[0] == '{' && r[|r| - 1] == '}'
  {
    if |members| == 1 then MemberRef(level, members[0])
    else "{" + Join(",", MemberRefs(level, members)) + "}"
  }

  /** The braced form lists the members in order: splitting its inside at the commas gives back one
      reference per member, when neither the level nor the members contain a comma. */
  lemma StrCutSplit(level: string, members: seq<string>)
    requires |members| >= 2
    requires ',' !in level && forall i :: 0 <= i < |members| ==> ',' !in members[i]
    ensures var r := StrCut(level, members); Split(r[1..|r| - 1], ',') == MemberRefs(level, members)
  {
    var refs := MemberRefs(level, members);
    forall i | 0 <= i < |refs| ensures ',' !in refs[i] {
      assert refs[i] == level + ".&[" + members[i] + "]";
    }
    SplitJoin(refs, ',');
    var r := StrCut(level, members);
    assert r[1..|r| - 1] == Join(",", refs);
  }

  function CaptionText(e: (string, string)): seq<string> {
    [e.0 + "." + e.1]
  }

  function CutText(e: (string, seq<string>)): seq<string> {
    [StrCut(e.0, e.1)]
  }

  /** `str(item)` for an item of a stored tuple. */
  function ItemText(item: TupleItem): string {
    match item
    case Word(w) => w
    case Whole(n) => IntToString(n)
  }

  /** `"calc c0 c1"`: only the first two components of the stored tuple are written. */
  function FilterText(e: (string, FilterTuple)): (r: seq<string>)
    ensures r == [e.0 + " " + e.1.first.0 + " " + IntToString(e.1.first.1)]
  {
    var (c0, c1) := FilterComponents(e.1);
    [e.0 + " " + ItemText(c0) + " " + ItemText(c1)]
  }

  /** `booleans.get(k)`. */
  function Boolean(q: Query, k: string): ParamValue {
    if k in q.containers.booleans then Flag(q.containers.booleans[k]) else Absent
  }

  function OptionalInt(n: Option<int>): ParamValue {
    if n.Some? then Number(n.value) else Absent
  }

  function OptionalText(s: Option<string>): ParamValue {
    if s.Some? then Plain(s.value) else Absent
  }

  /** `sorting[1] in ("desc", "DESC")`. */
  predicate OrderDesc(q: Query) {
    q.sorting.1 == Some("desc") || q.sorting.1 == Some("DESC")
  }

  /** The key of entry `i` of the dictionary literal. */
  function EntryKey(i: int): string {
    match i
    case 0 => "caption[]"
    case 1 => "cut[]"
    case 2 => "debug"
    case 3 => "distinct"
    case 4 => "drilldown[]"
    case 5 => "filter[]"
    case 6 => "limit"
    case 7 => "measures[]"
    case 8 => "nonempty"
    case 9 => "offset"
    case 10 => "order_desc"
    case 11 => "order"
    case 12 => "parents"
    case 13 => "properties[]"
    case _ => "sparse"
  }

  function PropertyText(setRepr: seq<string> -> string): ((string, seq<string>)) -> seq<string> {
    (e: (string, seq<string>)) => [e.0 + "." + setRepr(e.1)]
  }

  /** The value of entry `i` of the dictionary literal. The `properties[]` entries write a whole
      Python set; `setRepr` stands for `str()` of a set. */
  function EntryValue(q: Query, setRepr: seq<string> -> string, i: int): ParamValue {
    match i
    case 0 => Items(FlatMap(q.containers.captions, CaptionText))
    case 1 => Items(FlatMap(q.containers.cuts, CutText))
    case 2 => Boolean(q, "debug")
    case 3 => Boolean(q, "distinct")
    case 4 => Items(q.containers.drilldowns)
    case 5 => Items(FlatMap(q.containers.filters, FilterText))
    case 6 => OptionalInt(q.pagination.0)
    case 7 => Items(q.containers.measures)
    case 8 => Boolean(q, "nonempty")
    case 9 => OptionalInt(q.pagination.1)
    case 10 => Flag(OrderDesc(q))
    case 11 => OptionalText(q.sorting.0)
    case 12 => Boolean(q, "parents")
    case 13 => Items(FlatMap(q.containers.properties, PropertyText(setRepr)))
    case _ => Boolean(q, "sparse")
  }

  /** The dictionary literal: fifteen entries, `caption[]` through `sparse`. */
  function AllParams(q: Query, setRepr: seq<string> -> string): (d: Params)
    ensures |d| == 15 && forall i :: 0 <= i < 15 ==> d[i] == (EntryKey(i), EntryValue(q, setRepr, i))
  {
    seq(15, i => (EntryKey(i), EntryValue(q, setRepr, i)))
  }

  /** The position of a key in the dictionary literal. */
  function Rank(k: string): nat {
    match k
    case "caption[]" => 0
    case "cut[]" => 1
    case "debug" => 2
    case "distinct" => 3
    case "drilldown[]" => 4
    case "filter[]" => 5
    case "limit" => 6
    case "measures[]" => 7
    case "nonempty" => 8
    case "offset" => 9
    case "order_desc" => 10
    case "order" => 11
    case "parents" => 12
    case "properties[]" => 13
    case "sparse" => 14
    case _ => 15
  }

  /** The query string's pairs. */
  function MondrianPairs(q: Query, setRepr: seq<string> -> string): seq<(string, string)> {
    FlatMap(AllParams(q, setRepr), Expand)
  }

  /** `MondrianServer.build_query_url`. */
  function MondrianUrl(q: Query, setRepr: seq<string> -> string): string {
    q.cube + "/aggregate." + q.format.Value() + "?" + EncodePairs(MondrianPairs(q, setRepr))
  }

  // ---- the order of the parameters ----

  /** The keys of `ps` never go back in rank. */
  predicate RankSorted(ps: seq<(string, string)>) {
    forall i, j :: 0 <= i < j < |ps| ==> Rank(ps[i].0) <= Rank(ps[j].0)
  }

  predicate RankAtLeast(ps: seq<(string, string)>, r: nat) {
    forall i :: 0 <= i < |ps| ==> r <= Rank(ps[i].0)
  }

  lemma ConcatRankSorted(a: seq<(string, string)>, b: seq<(string, string)>, r: nat)
    requires forall i :: 0 <= i < |a| ==> Rank(a[i].0) == r
    requires RankAtLeast(b, r) && RankSorted(b)
    ensures RankAtLeast(a + b, r) && RankSorted(a + b)
  {
    var ps := a + b;
    forall i | 0 <= i < |ps| ensures r <= Rank(ps[i].0) {
      if i >= |a| {
        assert ps[i] == b[i - |a|];
      }
    }
    forall i, j | 0 <= i < j < |ps| ensures Rank(ps[i].0) <= Rank(ps[j].0) {
      if j < |a| {
        assert ps[i] == a[i] && ps[j] == a[j];
      } else if i < |a| {
        assert ps[i] == a[i] && ps[j] == b[j - |a|];
      } else {
        assert ps[i] == b[i - |a|] && ps[j] == b[j - |a|];
      }
    }
  }

  lemma RankAtLeastWeaken(ps: seq<(string, string)>, r: nat, r': nat)
    requires RankAtLeast(ps, r') && r <= r'
    ensures RankAtLeast(ps, r)
  {
  }

  /** Expanding a ranked dictionary gives pairs whose keys never go back in rank, none ranked
      below the first entry. */
  lemma {:induction false} ExpandRanked(d: Params)
    requires forall i, j :: 0 <= i < j < |d| ==> Rank(d[i].0) < Rank(d[j].0)
    ensures |d| > 0 ==> RankAtLeast(FlatMap(d, Expand), Rank(d[0].0))
    ensures RankSorted(FlatMap(d, Expand))
    decreases |d|
  {
    if |d| > 0 {
      var rest := d[1..];
      forall i, j | 0 <= i < j < |rest| ensures Rank(rest[i].0) < Rank(rest[j].0) {
        assert rest[i] == d[i + 1] && rest[j] == d[j + 1];
      }
      ExpandRanked(rest);
      var head, tail := Expand(d[0]), FlatMap(rest, Expand);
      assert FlatMap(d, Expand) == head + tail;
      if |rest| > 0 {
        assert rest[0] == d[1];
        RankAtLeastWeaken(tail, Rank(d[0].0), Rank(rest[0].0));
      }
      ConcatRankSorted(head, tail, Rank(d[0].0));
    }
  }

  /** Each key of the literal ranks at its own position. */
  lemma KeysRanked()
    ensures forall i :: 0 <= i < 15 ==> Rank(EntryKey(i)) == i
  {
    forall i | 0 <= i < 15 ensures Rank(EntryKey(i)) == i {
      assert i == 0 || i == 1 || i == 2 || i == 3 || i == 4 || i == 5 || i == 6 || i == 7 || i == 8 || i == 9
        || i == 10 || i == 11 || i == 12 || i == 13 || i == 14;
    }
  }

  lemma AllParamsRanked(q: Query, setRepr: seq<string> -> string)
    ensures forall i, j :: 0 <= i < j < |AllParams(q, setRepr)| ==>
      Rank(AllParams(q, setRepr)[i].0) < Rank(AllParams(q, setRepr)[j].0)
  {
    KeysRanked();
  }

  /** The parameters come in the literal's order, `caption[]` first and `sparse` last; the pairs of a
      list parameter stay together. */
  lemma MondrianKeyOrder(q: Query, setRepr: seq<string> -> string)
    ensures RankSorted(MondrianPairs(q, setRepr))
  {
    AllParamsRanked(q, setRepr);
    ExpandRanked(AllParams(q, setRepr));
  }

  // ---- what is sent under each key ----

  /** The values sent under key `k`, in order. */
  function ValuesFor(ps: seq<(string, string)>, k: string): (r: seq<string>)
    ensures |r| <= |ps|
    decreases |ps|
  {
    if |ps| == 0 then []
    else (if ps[0].0 == k then [ps[0].1] else []) + ValuesFor(ps[1..], k)
  }

  lemma {:induction false} ValuesForAppend(a: seq<(string, string)>, b: seq<(string, string)>, k: string)
    ensures ValuesFor(a + b, k) == ValuesFor(a, k) + ValuesFor(b, k)
    decreases |a|
  {
    if |a| > 0 {
      assert (a + b)[1..] == a[1..] + b;
      ValuesForAppend(a[1..], b, k);
    } else {
      assert a + b == b;
    }
  }

  lemma {:induction false} ValuesForKeyed(key: string, xs: seq<string>, k: string)
    ensures ValuesFor(Keyed(key, xs), k) == if key == k then xs else []
    decreases |xs|
  {
    if |xs| > 0 {
      ValuesForKeyed(key, xs[1..], k);
      assert Keyed(key, xs)[1..] == Keyed(key, xs[1..]);
    }
  }

  /** Under a key of the dictionary exactly that entry's strings are sent; under any other key
      nothing. */
  lemma {:induction false} ValuesForExpand(d: Params, k: string)
    requires UniqueKeys(d)
    ensures ValuesFor(FlatMap(d, Expand), k) == if Get(d, k).Some? then Sent(Get(d, k).value) else []
    decreases |d|
  {
    if |d| > 0 {
      UniqueTail(d);
      ValuesForExpand(d[1..], k);
      ValuesForAppend(Expand(d[0]), FlatMap(d[1..], Expand), k);
      ValuesForKeyed(d[0].0, Sent(d[0].1), k);
      if d[0].0 == k {
        assert Get(d[1..], k).None?;
      }
    }
  }

  lemma AllParamsUnique(q: Query, setRepr: seq<string> -> string)
    ensures UniqueKeys(AllParams(q, setRepr)) && |AllParams(q, setRepr)| == 15
  {
    AllParamsRanked(q, setRepr);
  }

  /** The strings sent under the key of entry `i` of the literal. */
  lemma ValuesOfEntry(q: Query, setRepr: seq<string> -> string, i: nat, k: string, v: ParamValue)
    requires i < 15 && EntryKey(i) == k && EntryValue(q, setRepr, i) == v
    ensures ValuesFor(MondrianPairs(q, setRepr), k) == Sent(v)
  {
    var d := AllParams(q, setRepr);
    AllParamsUnique(q, setRepr);
    GetEntry(d, i);
    ValuesForExpand(d, k);
  }

  /** The list parameters send one string per element, in the containers' order. */
  lemma MondrianListValues(q: Query, setRepr: seq<string> -> string)
    ensures var ps := MondrianPairs(q, setRepr);
      ValuesFor(ps, "caption[]") == FlatMap(q.containers.captions, CaptionText)
      && ValuesFor(ps, "cut[]") == FlatMap(q.containers.cuts, CutText)
      && ValuesFor(ps, "drilldown[]") == q.containers.drilldowns
      && ValuesFor(ps, "filter[]") == FlatMap(q.containers.filters, FilterText)
      && ValuesFor(ps, "measures[]") == q.containers.measures
  {
    ValuesOfEntry(q, setRepr, 0, "caption[]", EntryValue(q, setRepr, 0));
    ValuesOfEntry(q, setRepr, 1, "cut[]", EntryValue(q, setRepr, 1));
    ValuesOfEntry(q, setRepr, 4, "drilldown[]", EntryValue(q, setRepr, 4));
    ValuesOfEntry(q, setRepr, 5, "filter[]", EntryValue(q, setRepr, 5));
    ValuesOfEntry(q, setRepr, 7, "measures[]", EntryValue(q, setRepr, 7));
  }

  /** `order_desc` is always sent, as `True` or `False`; `order` only when a sort key is set. */
  lemma MondrianOrderValues(q: Query, setRepr: seq<string> -> string)
    ensures var ps := MondrianPairs(q, setRepr);
      ValuesFor(ps, "order_desc") == [BoolText(OrderDesc(q))]
      && ValuesFor(ps, "order") == (if q.sorting.0.Some? then [q.sorting.0.value] else [])
  {
    OrderDescValue(q, setRepr, OrderDesc(q));
    OrderValue(q, setRepr, q.sorting.0);
  }

  /** `limit` and `offset` are sent, as decimal numbers, only when set. */
  lemma MondrianPagingValues(q: Query, setRepr: seq<string> -> string)
    ensures var ps := MondrianPairs(q, setRepr);
      ValuesFor(ps, "limit") == (if q.pagination.0.Some? then [IntToString(q.pagination.0.value)] else [])
      && ValuesFor(ps, "offset") == (if q.pagination.1.Some? then [IntToString(q.pagination.1.value)] else [])
  {
    OptionalIntValue(q, setRepr, 6, "limit", q.pagination.0);
    OptionalIntValue(q, setRepr, 9, "offset", q.pagination.1);
  }

  /** Each of the five flags is sent, as `True` or `False`, only when `booleans` holds it. */
  lemma MondrianFlagValues(q: Query, setRepr: seq<string> -> string, k: string)
    requires k in {"debug", "distinct", "nonempty", "parents", "sparse"}
    ensures ValuesFor(MondrianPairs(q, setRepr), k)
      == if k in q.containers.booleans then [BoolText(q.containers.booleans[k])] else []
  {
    var i := if k == "debug" then 2 else if k == "distinct" then 3 else if k == "nonempty" then 8
      else if k == "parents" then 12 else 14;
    FlagValue(q, setRepr, i, k);
  }

  lemma OrderDescValue(q: Query, setRepr: seq<string> -> string, b: bool)
    requires b == OrderDesc(q)
    ensures ValuesFor(MondrianPairs(q, setRepr), "order_desc") == [BoolText(b)]
  {
    ValuesOfEntry(q, setRepr, 10, "order_desc", Flag(b));
  }

  lemma OrderValue(q: Query, setRepr: seq<string> -> string, order: Option<string>)
    requires order == q.sorting.0
    ensures ValuesFor(MondrianPairs(q, setRepr), "order") == if order.Some? then [order.value] else []
  {
    ValuesOfEntry(q, setRepr, 11, "order", OptionalText(order));
  }

  lemma FlagValue(q: Query, setRepr: seq<string> -> string, i: nat, k: string)
    requires i < 15 && EntryKey(i) == k && EntryValue(q, setRepr, i) == Boolean(q, k)
    ensures ValuesFor(MondrianPairs(q, setRepr), k)
      == if k in q.containers.booleans then [BoolText(q.containers.booleans[k])] else []
  {
    ValuesOfEntry(q, setRepr, i, k, Boolean(q, k));
  }

  lemma OptionalIntValue(q: Query, setRepr: seq<string> -> string, i: nat, k: string, n: Option<int>)
    requires i < 15 && EntryKey(i) == k && EntryValue(q, setRepr, i) == OptionalInt(n)
    ensures ValuesFor(MondrianPairs(q, setRepr), k) == if n.Some? then [IntToString(n.value)] else []
  {
    ValuesOfEntry(q, setRepr, i, k, OptionalInt(n));
  }

  /** Expanding a dictionary in which only entry `j` sends anything gives that entry's pairs. */
  lemma {:induction false} ExpandOnly(d: Params, j: nat)
    requires j < |d| && forall i :: 0 <= i < |d| && i != j ==> Sent(d[i].1) == []
    ensures FlatMap(d, Expand) == Expand(d[j])
    decreases |d|
  {
    var rest := d[1..];
    assert FlatMap(d, Expand) == Expand(d[0]) + FlatMap(rest, Expand);
    if j == 0 {
      forall i | 0 <= i < |rest| ensures Sent(rest[i].1) == [] {
        assert rest[i] == d[i + 1];
      }
      ExpandNone(rest);
      assert Expand(d[0]) + [] == Expand(d[0]);
    } else {
      assert Expand(d[0]) == [];
      forall i | 0 <= i < |rest| && i != j - 1 ensures Sent(rest[i].1) == [] {
        assert rest[i] == d[i + 1];
      }
      ExpandOnly(rest, j - 1);
      assert rest[j - 1] == d[j];
    }
  }

  lemma {:induction false} ExpandNone(d: Params)
    requires forall i :: 0 <= i < |d| ==> Sent(d[i].1) == []
    ensures FlatMap(d, Expand) == []
    decreases |d|
  {
    if |d| > 0 {
      var rest := d[1..];
      forall i | 0 <= i < |rest| ensures Sent(rest[i].1) == [] {
        assert rest[i] == d[i + 1];
      }
      ExpandNone(rest);
      assert Expand(d[0]) == [];
    }
  }

  /** The entries of a query with empty containers, no pagination and no order send nothing but
      `order_desc=False`. */
  lemma SilentEntries(q: Query, setRepr: seq<string> -> string)
    requires q.containers == EmptyContainers && q.pagination == (None, None) && q.sorting == (None, None)
    ensures EntryValue(q, setRepr, 10) == Flag(false)
    ensures forall i :: 0 <= i < 15 && i != 10 ==> Sent(EntryValue(q, setRepr, i)) == []
  {
    forall i | 0 <= i < 15 && i != 10 ensures Sent(EntryValue(q, setRepr, i)) == [] {
      assert i == 0 || i == 1 || i == 2 || i == 3 || i == 4 || i == 5 || i == 6 || i == 7 || i == 8
        || i == 9 || i == 11 || i == 12 || i == 13 || i == 14;
    }
  }

  /** A fresh query sends only `order_desc=False`. */
  lemma FreshMondrianPairs(cube: string, setRepr: seq<string> -> string)
    ensures MondrianPairs(NewQuery(cube), setRepr) == [("order_desc", "False")]
  {
    var q := NewQuery(cube);
    var d := AllParams(q, setRepr);
    SilentEntries(q, setRepr);
    ExpandOnly(d, 10);
    assert d[10] == ("order_desc", Flag(false));
  }

  /** What a fresh query sends, encoded: both words are unreserved and pass through. */
  lemma OrderDescEncoded(ps: seq<(string, string)>, k: string, v: string)
    requires k == "order_desc" && v == "False" && ps == [(k, v)]
    ensures EncodePairs(ps) == k + "=" + v
  {
    assert forall i :: 0 <= i < |k| ==> Unreserved(k[i]);
    assert forall i :: 0 <= i < |v| ==> Unreserved(v[i]);
    EncodeOnePair(k, v);
    QuotePlusUnreserved(v);
  }

  /** What follows the cube's name in the URL of a fresh query. */
  const FreshTail := "/aggregate.jsonrecords?order_desc=False"

  /** The URL of a fresh query: the cube, the default format, and `order_desc=False` alone. */
  lemma FreshMondrianUrl(cube: string, setRepr: seq<string> -> string)
    ensures MondrianUrl(NewQuery(cube), setRepr) == cube + FreshTail
  {
    var q := NewQuery(cube);
    var k, v := "order_desc", "False";
    var e := EncodePairs(MondrianPairs(q, setRepr));
    assert e == k + "=" + v by {
      FreshMondrianPairs(cube, setRepr);
      OrderDescEncoded(MondrianPairs(q, setRepr), k, v);
    }
    var suffix := "/aggregate." + "jsonrecords" + "?" + e;
    assert MondrianUrl(q, setRepr) == cube + suffix;
    assert suffix == FreshTail by { FreshMondrianSuffix(e, k, v); }
  }

  lemma FreshMondrianSuffix(e: string, k: string, v: string)
    requires k == "order_desc" && v == "False" && e == k + "=" + v
    ensures "/aggregate." + "jsonrecords" + "?" + e == FreshTail
  {
  }
  /** `members[0]` on the Python set `add_cut` stores raises `TypeError`: the URL as written can
      only be built when no stored cut has exactly one member. */
  function IndexableCuts(cuts: Dict<string, seq<string>>): (r: Result<()>)
    ensures r.Err? <==> exists i :: 0 <= i < |cuts| && |cuts[i].1| == 1
    ensures r.Err? ==> r.error == BadOperand("'set' object is not subscriptable")
    decreases |cuts|
  {
    if |cuts| == 0 then Ok(())
    else if |cuts[0].1| == 1 then Err(BadOperand("'set' object is not subscriptable"))
    else
      var rest := IndexableCuts(cuts[1..]);
      assert forall i :: 1 <= i < |cuts| ==> cuts[i] == cuts[1..][i - 1];
      rest
  }

  /** `build_query_url` as written: it fails on every single-member cut, and otherwise
      yields the URL of the corrected model. */
  function MondrianUrlAsWritten(q: Query, setRepr: seq<string> -> string): (r: Result<string>)
    ensures r.Err? <==> exists i :: 0 <= i < |q.containers.cuts| && |q.containers.cuts[i].1| == 1
    ensures r.Ok? ==> r.value == MondrianUrl(q, setRepr)
  {
    var _ :- IndexableCuts(q.containers.cuts);
    Ok(MondrianUrl(q, setRepr))
  }

  /** The cuts of a fresh query after one `add_cut(level, [member])`. */
  lemma OneCutStored(cube: string, level: string, member: string)
    ensures AddCut(NewQuery(cube), level, [member]).containers.cuts == [(level, [member])]
  {
    var q := NewQuery(cube);
    assert CutMembers(q, level) == [];
    assert AddNew([], [member]) == [member] by {
      assert AddNew([member], [member][1..]) == [member];
    }
  }

  /** As written, a query with a single cut of one member, such as `add_cut("Year", "2019")`,
      cannot be sent to Mondrian at all. */
  lemma SingleMemberCutFails(cube: string, setRepr: seq<string> -> string, level: string, member: string)
    ensures MondrianUrlAsWritten(AddCut(NewQuery(cube), level, [member]), setRepr).Err?
  {
    OneCutStored(cube, level, member);
    var q := AddCut(NewQuery(cube), level, [member]);
    assert |q.containers.cuts[0].1| == 1;
  }

  /** Corrected: the same query sends its single member as `level.&[member]`. */
  lemma SingleMemberCutSent(cube: string, setRepr: seq<string> -> string, level: string, member: string)
    ensures var q := AddCut(NewQuery(cube), level, [member]);
      ValuesFor(MondrianPairs(q, setRepr), "cut[]") == [MemberRef(level, member)]
  {
    OneCutStored(cube, level, member);
    var q := AddCut(NewQuery(cube), level, [member]);
    MondrianListValues(q, setRepr);
    assert FlatMap(q.containers.cuts, CutText) == CutText(q.containers.cuts[0]) + FlatMap(q.containers.cuts[1..], CutText);
  }
}
