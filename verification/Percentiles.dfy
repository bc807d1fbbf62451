/**
 * Latency percentiles per environment and stage.
 */
module Percentiles {
  import opened Collections
  import opened Wrappers

  datatype Environment = Cpu | Gpu

  datatype Observation = Observation(environment: Environment, stage: string, latency: real)

  datatype GroupKey = GroupKey(environment: Environment, stage: string)

  type Groups = map<GroupKey, seq<real>>

  datatype GroupMetrics = GroupMetrics(n: nat, p50: real, p95: real)

  datatype Entry = Entry(key: GroupKey, metrics: GroupMetrics)

  function KeyOf(o: Observation): GroupKey {
    GroupKey(o.environment, o.stage)
  }

  function LatenciesOf(observations: seq<Observation>, key: GroupKey): seq<real> {
    if observations == [] then []
    else
      var last := observations[|observations| - 1];
      LatenciesOf(observations[..|observations| - 1], key) + if KeyOf(last) == key then [last.latency] else []
  }

  lemma LatenciesGrow(observations: seq<Observation>, i: nat, key: GroupKey)
    requires i < |observations|
    ensures LatenciesOf(observations[..i + 1], key)
         == LatenciesOf(observations[..i], key) +
            if KeyOf(observations[i]) == key then [observations[i].latency] else []
  {
    assert observations[..i + 1][..i] == observations[..i];
  }

  function Group(groups: Groups, key: GroupKey): seq<real> {
    if key in groups then groups[key] else []
  }

  // ---- sorting ----

  predicate SortedUp(s: seq<real>) {
    forall i, j :: 0 <= i <= j < |s| ==> s[i] <= s[j]
  }

  function Insert(x: real, s: seq<real>): seq<real> {
    if s == [] then [x] else if x <= s[0] then [x] + s else [s[0]] + Insert(x, s[1..])
  }

  function Sort(s: seq<real>): seq<real> {
    if s == [] then [] else Insert(s[|s| - 1], Sort(s[..|s| - 1]))
  }

  lemma {:induction false} InsertKeepsValues(x: real, s: seq<real>)
    ensures multiset(Insert(x, s)) == multiset([x]) + multiset(s)
  {
    if s == [] {
    } else if x <= s[0] {
      MultisetOfConcat([x], s);
    } else {
      InsertKeepsValues(x, s[1..]);
      assert s == [s[0]] + s[1..];
      MultisetOfConcat([s[0]], s[1..]);
      MultisetOfConcat([s[0]], Insert(x, s[1..]));
    }
  }

  lemma {:induction false} InsertKeepsOrder(x: real, s: seq<real>)
    requires SortedUp(s)
    ensures SortedUp(Insert(x, s))
    ensures Insert(x, s) != [] && (s != [] ==> Insert(x, s)[0] == if x <= s[0] then x else s[0])
  {
    if s != [] && x > s[0] {
      InsertKeepsOrder(x, s[1..]);
      Prepend(s[0], Insert(x, s[1..]));
    }
  }

  lemma Prepend(x: real, s: seq<real>)
    requires SortedUp(s) && s != [] && x <= s[0]
    ensures SortedUp([x] + s)
  {
  }

  lemma {:induction false} SortOrders(s: seq<real>)
    ensures SortedUp(Sort(s))
  {
    if s != [] {
      SortOrders(s[..|s| - 1]);
      InsertKeepsOrder(s[|s| - 1], Sort(s[..|s| - 1]));
    }
  }

  lemma {:induction false} SortKeepsValues(s: seq<real>)
    ensures multiset(Sort(s)) == multiset(s)
  {
    if s != [] {
      var earlier, last := s[..|s| - 1], s[|s| - 1];
      SortKeepsValues(earlier);
      InsertKeepsValues(last, Sort(earlier));
      assert s == earlier + [last];
      MultisetOfConcat(earlier, [last]);
    }
  }

  /** Sorting orders the values and keeps each as often as it occurs. */
  lemma SortFacts(s: seq<real>)
    ensures SortedUp(Sort(s)) && multiset(Sort(s)) == multiset(s) && |Sort(s)| == |s|
  {
    SortOrders(s);
    SortKeepsValues(s);
    assert |multiset(Sort(s))| == |multiset(s)|;
  }

  // ---- percentiles ----

  /** max(0, ceil(0.95 * n) - 1), with the product taken exactly. */
  function P95Index(n: nat): nat
    requires n > 0
  {
    (19 * n + 19) / 20 - 1
  }

  lemma P95IndexInRange(n: nat)
    requires n > 0
    ensures P95Index(n) < n && n / 2 <= P95Index(n)
    ensures 20 * (P95Index(n) + 1) >= 19 * n > 20 * P95Index(n)
  {
  }

  function Median(ordered: seq<real>): real
    requires ordered != []
  {
    var n := |ordered|;
    if n % 2 == 1 then ordered[n / 2] else (ordered[n / 2 - 1] + ordered[n / 2]) / 2.0
  }

  function P95(ordered: seq<real>): real
    requires ordered != []
  {
    P95IndexInRange(|ordered|);
    ordered[P95Index(|ordered|)]
  }

  /** How many values do not exceed a bound. */
  function CountUpTo(s: seq<real>, bound: real): nat {
    if s == [] then 0 else CountUpTo(s[..|s| - 1], bound) + if s[|s| - 1] <= bound then 1 else 0
  }

  lemma {:induction false} CountAtLeast(ordered: seq<real>, bound: real, k: nat)
    requires k <= |ordered| && forall i :: 0 <= i < k ==> ordered[i] <= bound
    ensures CountUpTo(ordered, bound) >= k
  {
    if k > 0 {
      var n := |ordered| - 1;
      CountAtLeast(ordered[..n], bound, if k <= n then k else n);
    }
  }

  lemma {:induction false} CountAtMost(ordered: seq<real>, bound: real, k: nat)
    requires k <= |ordered| && forall i :: k <= i < |ordered| ==> ordered[i] > bound
    ensures CountUpTo(ordered, bound) <= k
  {
    if |ordered| > 0 {
      var n := |ordered| - 1;
      CountAtMost(ordered[..n], bound, if k <= n then k else n);
    }
  }

  /** The 95th percentile is a measured value, covers at least 95% of the group, and no smaller value does. */
  lemma P95IsLeastCovering(values: seq<real>, smaller: real)
    requires values != []
    ensures Sort(values) != [] && P95(Sort(values)) in values
    ensures 20 * CountUpTo(Sort(values), P95(Sort(values))) >= 19 * |values|
    ensures smaller < P95(Sort(values)) ==> 20 * CountUpTo(Sort(values), smaller) < 19 * |values|
  {
    SortFacts(values);
    var ordered := Sort(values);
    P95IndexInRange(|ordered|);
    var k := P95Index(|ordered|);
    assert ordered[k] in multiset(ordered);
    CountAtLeast(ordered, ordered[k], k + 1);
    if smaller < ordered[k] {
      CountAtMost(ordered, smaller, k);
    }
  }

  /** The median never exceeds the 95th percentile. */
  lemma MedianAtMostP95(values: seq<real>)
    requires values != []
    ensures Sort(values) != [] && Median(Sort(values)) <= P95(Sort(values))
  {
    SortFacts(values);
    var ordered := Sort(values);
    P95IndexInRange(|ordered|);
    assert ordered[|ordered| / 2] <= ordered[P95Index(|ordered|)];
  }

  // ---- the report ----

  function MetricsOf(values: seq<real>): GroupMetrics
    requires values != []
  {
    SortFacts(values);
    GroupMetrics(|values|, Median(Sort(values)), P95(Sort(values)))
  }

  method Collect(observations: seq<Observation>) returns (groups: Groups)
    ensures forall key :: Group(groups, key) == LatenciesOf(observations, key)
    ensures forall key :: key in groups ==> groups[key] != []
  {
    groups := map[];
    for i := 0 to |observations|
      invariant forall key :: Group(groups, key) == LatenciesOf(observations[..i], key)
      invariant forall key :: key in groups ==> groups[key] != []
    {
      var o := observations[i];
      ghost var before := groups;
      groups := groups[KeyOf(o) := Group(groups, KeyOf(o)) + [o.latency]];
      forall key
        ensures Group(groups, key) == LatenciesOf(observations[..i + 1], key)
      {
        LatenciesGrow(observations, i, key);
        assert Group(before, key) == LatenciesOf(observations[..i], key);
      }
    }
    assert observations[..|observations|] == observations;
  }

  // ---- the order of the entries ----

  /** Tuples compare by environment and then by stage. */
  predicate KeyLess(a: GroupKey, b: GroupKey) {
    (a.environment.Cpu? && b.environment.Gpu?) || (a.environment == b.environment && StringLess(a.stage, b.stage))
  }

  lemma KeyLessIsStrictOrder(a: GroupKey, b: GroupKey, c: GroupKey)
    ensures a != b ==> KeyLess(a, b) || KeyLess(b, a)
    ensures KeyLess(a, b) ==> !KeyLess(b, a)
    ensures KeyLess(a, b) && KeyLess(b, c) ==> KeyLess(a, c)
  {
    if StringLess(a.stage, b.stage) {
      StringLessAsymmetric(a.stage, b.stage);
      if StringLess(b.stage, c.stage) {
        StringLessTransitive(a.stage, b.stage, c.stage);
      }
    }
    if a.stage != b.stage {
      StringLessTotal(a.stage, b.stage);
    }
  }

  predicate IsLeast(key: GroupKey, keys: set<GroupKey>) {
    key in keys && forall other :: other in keys && other != key ==> KeyLess(key, other)
  }

  lemma {:induction false} LeastExists(keys: set<GroupKey>)
    requires keys != {}
    ensures exists key :: IsLeast(key, keys)
    decreases |keys|
  {
    var key :| key in keys;
    if keys == {key} {
      assert IsLeast(key, keys);
    } else {
      var rest := keys - {key};
      LeastExists(rest);
      var least :| IsLeast(least, rest);
      KeyLessIsStrictOrder(key, least, key);
      var first := if KeyLess(key, least) then key else least;
      forall other | other in keys && other != first
        ensures KeyLess(first, other)
      {
        KeyLessIsStrictOrder(key, least, other);
      }
      assert IsLeast(first, keys);
    }
  }

  predicate Ascending(report: seq<Entry>) {
    forall i, j :: 0 <= i < j < |report| ==> KeyLess(report[i].key, report[j].key)
  }

  function KeysOf(report: seq<Entry>): set<GroupKey> {
    set e | e in report :: e.key
  }

  lemma KeysOfGrow(report: seq<Entry>, e: Entry)
    ensures KeysOf(report + [e]) == KeysOf(report) + {e.key}
  {
    assert forall x :: x in report + [e] <==> x in report || x == e;
  }

  predicate EntryIs(observations: seq<Observation>, e: Entry) {
    var values := LatenciesOf(observations, e.key);
    values != [] && e.metrics == MetricsOf(values)
  }

  /** One entry per measured group, with its metrics, in the order of the keys. */
  ghost predicate IsReport(observations: seq<Observation>, report: seq<Entry>) {
    && Ascending(report)
    && (forall e :: e in report ==> EntryIs(observations, e))
    && forall key :: key in KeysOf(report) <==> LatenciesOf(observations, key) != []
  }

  /** The report so far: correct entries in order, before every key still to come. */
  predicate ReportedBefore(observations: seq<Observation>, report: seq<Entry>, todo: set<GroupKey>) {
    && Ascending(report)
    && (forall e :: e in report ==> EntryIs(observations, e))
    && forall e, key :: e in report && key in todo ==> KeyLess(e.key, key)
  }

  lemma ReportGrows(observations: seq<Observation>, report: seq<Entry>, todo: set<GroupKey>, entry: Entry)
    requires ReportedBefore(observations, report, todo) && IsLeast(entry.key, todo) && EntryIs(observations, entry)
    ensures ReportedBefore(observations, report + [entry], todo - {entry.key})
    ensures KeysOf(report + [entry]) == KeysOf(report) + {entry.key}
  {
    KeysOfGrow(report, entry);
    var longer := report + [entry];
    forall i, j | 0 <= i < j < |longer|
      ensures KeyLess(longer[i].key, longer[j].key)
    {
      if j == |report| {
        assert report[i] in report;
      }
    }
  }

  method PerformanceMetrics(observations: seq<Observation>) returns (report: seq<Entry>)
    ensures IsReport(observations, report)
  {
    var groups := Collect(observations);
    report := [];
    var todo := groups.Keys;
    while todo != {}
      invariant todo <= groups.Keys && KeysOf(report) == groups.Keys - todo
      invariant ReportedBefore(observations, report, todo)
      decreases |todo|
    {
      LeastExists(todo);
      var key :| IsLeast(key, todo);
      assert Group(groups, key) == LatenciesOf(observations, key);
      var entry := Entry(key, MetricsOf(groups[key]));
      ReportGrows(observations, report, todo, entry);
      report := report + [entry];
      todo := todo - {key};
    }
    assert forall key :: key in groups <==> Group(groups, key) != [];
  }

  /** Observations in groups of a set of keys. */
  function Sizes(observations: seq<Observation>, keys: set<GroupKey>): nat {
    if observations == [] then 0
    else
      Sizes(observations[..|observations| - 1], keys) +
      if KeyOf(observations[|observations| - 1]) in keys then 1 else 0
  }

  lemma {:induction false} SizesSplit(observations: seq<Observation>, keys: set<GroupKey>, key: GroupKey)
    requires key in keys
    ensures Sizes(observations, keys) == Sizes(observations, keys - {key}) + |LatenciesOf(observations, key)|
  {
    if observations != [] {
      SizesSplit(observations[..|observations| - 1], keys, key);
    }
  }

  lemma {:induction false} AllSized(observations: seq<Observation>, keys: set<GroupKey>)
    requires forall o :: o in observations ==> KeyOf(o) in keys
    ensures Sizes(observations, keys) == |observations|
  {
    if observations != [] {
      assert observations[|observations| - 1] in observations;
      AllSized(observations[..|observations| - 1], keys);
    }
  }

  lemma {:induction false} NoneSized(observations: seq<Observation>)
    ensures Sizes(observations, {}) == 0
  {
    if observations != [] {
      NoneSized(observations[..|observations| - 1]);
    }
  }

  function TotalSize(report: seq<Entry>): nat {
    if report == [] then 0 else TotalSize(report[..|report| - 1]) + report[|report| - 1].metrics.n
  }

  lemma KeysOfLast(report: seq<Entry>)
    requires report != [] && Ascending(report)
    ensures var earlier, last := report[..|report| - 1], report[|report| - 1];
            Ascending(earlier) && last.key !in KeysOf(earlier) && KeysOf(report) == KeysOf(earlier) + {last.key}
  {
    var earlier, last := report[..|report| - 1], report[|report| - 1];
    assert report == earlier + [last];
    forall e | e in earlier
      ensures e.key != last.key
    {
      KeyLessIsStrictOrder(e.key, last.key, e.key);
    }
  }

  /** The group sizes add up to the observations in the groups reported. */
  lemma {:induction false} GroupSizesAddUp(observations: seq<Observation>, report: seq<Entry>)
    requires Ascending(report) && forall e :: e in report ==> EntryIs(observations, e)
    ensures TotalSize(report) == Sizes(observations, KeysOf(report))
  {
    if report == [] {
      NoneSized(observations);
      assert KeysOf(report) == {};
    } else {
      var earlier, last := report[..|report| - 1], report[|report| - 1];
      KeysOfLast(report);
      GroupSizesAddUp(observations, earlier);
      SizesSplit(observations, KeysOf(report), last.key);
      assert KeysOf(report) - {last.key} == KeysOf(earlier);
      assert EntryIs(observations, last);
    }
  }

  lemma {:induction false} EveryObservationHasAGroup(observations: seq<Observation>, o: Observation)
    requires o in observations
    ensures LatenciesOf(observations, KeyOf(o)) != []
  {
    var earlier, last := observations[..|observations| - 1], observations[|observations| - 1];
    if o != last {
      EveryObservationHasAGroup(earlier, o);
    }
  }

  /** No observation is lost and none counted twice. */
  lemma ReportCoversInput(observations: seq<Observation>, report: seq<Entry>)
    requires IsReport(observations, report)
    ensures TotalSize(report) == |observations|
  {
    GroupSizesAddUp(observations, report);
    forall o | o in observations
      ensures KeyOf(o) in KeysOf(report)
    {
      EveryObservationHasAGroup(observations, o);
    }
    AllSized(observations, KeysOf(report));
  }
}
