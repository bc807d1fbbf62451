/**
 * Release metrics: retrieval quality of ranked precedents and latency percentiles.
 * The logarithmic discount is any function with the properties the bounds depend on.
 */
module Metrics {
  import opened Collections
  import opened Wrappers

  type Id = string

  datatype Observation = Observation(expected: seq<Id>, ranked: seq<Id>, leaked: bool)

  /**
   * Discount of rank i (from 1), as 1 / log2(i + 1): positive, strictly falling, and the
   * first is worth less than the next two.
   */
  predicate IsDiscount(d: nat -> real) {
    d(1) > d(2) > d(3) > 0.0 && d(2) + d(3) > d(1)
  }

  function Ids(s: seq<Id>): set<Id> {
    set x | x in s
  }

  function TopThree(ranked: seq<Id>): seq<Id> {
    if |ranked| <= 3 then ranked else ranked[..3]
  }

  // ---- recall ----

  function Recall(o: Observation): real
    requires o.expected != []
  {
    assert o.expected[0] in Ids(o.expected);
    |Ids(o.expected) * Ids(TopThree(o.ranked))| as real / |Ids(o.expected)| as real
  }

  lemma RatioInUnit(a: nat, b: nat)
    requires a <= b && b > 0
    ensures 0.0 <= a as real / b as real <= 1.0
    ensures a as real / b as real == 1.0 <==> a == b
  {
  }

  /** Recall lies in [0, 1] and is 1 exactly when every expected precedent is among the first three. */
  lemma RecallInUnit(o: Observation)
    requires o.expected != []
    ensures 0.0 <= Recall(o) <= 1.0
    ensures Recall(o) == 1.0 <==> Ids(o.expected) <= Ids(TopThree(o.ranked))
  {
    assert o.expected[0] in Ids(o.expected);
    var found := Ids(o.expected) * Ids(TopThree(o.ranked));
    SubsetIsSmaller(found, Ids(o.expected));
    RatioInUnit(|found|, |Ids(o.expected)|);
    if found != Ids(o.expected) {
      var x :| x in Ids(o.expected) && x !in found;
      SubsetIsSmaller(found, Ids(o.expected) - {x});
    }
  }

  // ---- reciprocal rank ----

  /** Rank from 1 of the first expected result at or after position from. */
  function FirstRank(ranked: seq<Id>, expected: set<Id>, from: nat): Option<nat>
    requires from <= |ranked|
    decreases |ranked| - from
  {
    if from == |ranked| then None
    else if ranked[from] in expected then Some(from + 1)
    else FirstRank(ranked, expected, from + 1)
  }

  lemma {:induction false} FirstRankIsFirst(ranked: seq<Id>, expected: set<Id>, from: nat)
    requires from <= |ranked|
    ensures match FirstRank(ranked, expected, from)
            case None => forall i :: from <= i < |ranked| ==> ranked[i] !in expected
            case Some(rank) =>
              && from < rank <= |ranked| && ranked[rank - 1] in expected
              && forall i :: from <= i < rank - 1 ==> ranked[i] !in expected
    decreases |ranked| - from
  {
    if from < |ranked| && ranked[from] !in expected {
      FirstRankIsFirst(ranked, expected, from + 1);
    }
  }

  function ReciprocalRank(o: Observation): real {
    match FirstRank(o.ranked, Ids(o.expected), 0)
    case None => 0.0
    case Some(rank) => if rank == 0 then 0.0 else 1.0 / rank as real
  }

  lemma InverseInUnit(rank: nat)
    requires rank > 0
    ensures 0.0 < 1.0 / rank as real <= 1.0
    ensures 1.0 / rank as real == 1.0 <==> rank == 1
  {
    var r := rank as real;
    assert 1.0 / r * r == 1.0;
  }

  /**
   * The reciprocal rank lies in [0, 1], is 0 exactly without a hit, and 1 exactly when
   * the first result is expected.
   */
  lemma ReciprocalRankInUnit(o: Observation)
    ensures 0.0 <= ReciprocalRank(o) <= 1.0
    ensures ReciprocalRank(o) == 0.0 <==> forall x :: x in o.ranked ==> x !in Ids(o.expected)
    ensures ReciprocalRank(o) == 1.0 <==> o.ranked != [] && o.ranked[0] in Ids(o.expected)
  {
    FirstRankIsFirst(o.ranked, Ids(o.expected), 0);
    match FirstRank(o.ranked, Ids(o.expected), 0)
    case None =>
    case Some(rank) => InverseInUnit(rank);
  }

  // ---- discounted gain ----

  predicate HitAt(ranked: seq<Id>, expected: set<Id>, i: nat) {
    i < |ranked| && ranked[i] in expected
  }

  function Gain(d: nat -> real, ranked: seq<Id>, expected: set<Id>, i: nat): real {
    if HitAt(ranked, expected, i) then d(i + 1) else 0.0
  }

  /** The first three ranks, one summand each. */
  function Dcg(d: nat -> real, ranked: seq<Id>, expected: set<Id>): real {
    Gain(d, ranked, expected, 0) + Gain(d, ranked, expected, 1) + Gain(d, ranked, expected, 2)
  }

  function Ideal(d: nat -> real, n: nat): real {
    if n == 0 then 0.0 else if n == 1 then d(1) else if n == 2 then d(1) + d(2) else d(1) + d(2) + d(3)
  }

  function Hits(ranked: seq<Id>, expected: set<Id>): nat {
    (if HitAt(ranked, expected, 0) then 1 else 0) + (if HitAt(ranked, expected, 1) then 1 else 0) +
      (if HitAt(ranked, expected, 2) then 1 else 0)
  }

  function Ndcg(d: nat -> real, o: Observation): real
    requires IsDiscount(d) && o.expected != []
  {
    assert o.expected[0] in Ids(o.expected);
    Dcg(d, o.ranked, Ids(o.expected)) / Ideal(d, |Ids(o.expected)|)
  }

  lemma DividedByPositive(a: real, b: real)
    requires b > 0.0 && a >= 0.0
    ensures 0.0 <= a / b
    ensures a / b <= 1.0 <==> a <= b
    ensures a / b == 1.0 <==> a == b
  {
    assert a / b * b == a;
  }

  /**
   * The gain stays within the ideal exactly when the top three hold no more hits than
   * there are expected precedents.
   */
  lemma GainWithinIdealExactly(d: nat -> real, ranked: seq<Id>, expected: set<Id>)
    requires IsDiscount(d) && expected != {}
    ensures 0.0 <= Dcg(d, ranked, expected)
    ensures Dcg(d, ranked, expected) <= Ideal(d, |expected|) <==> Hits(ranked, expected) <= |expected|
    ensures Hits(ranked, expected) <= |expected| ==>
              (Dcg(d, ranked, expected) == Ideal(d, |expected|)
               <==> forall i :: 0 <= i < 3 && i < |expected| ==> HitAt(ranked, expected, i))
  {
    assert |expected| >= 1;
    assert HitAt(ranked, expected, 0) || !HitAt(ranked, expected, 0);
    assert HitAt(ranked, expected, 1) || !HitAt(ranked, expected, 1);
    assert HitAt(ranked, expected, 2) || !HitAt(ranked, expected, 2);
  }

  /** Distinct results cannot hit more often than there are expected precedents. */
  lemma DistinctHitsAreExpected(ranked: seq<Id>, expected: set<Id>)
    requires Distinct(ranked)
    ensures Hits(ranked, expected) <= |expected|
  {
    var hit: set<Id> := set i | 0 <= i < 3 && HitAt(ranked, expected, i) :: ranked[i];
    var a := if HitAt(ranked, expected, 0) then {ranked[0]} else {};
    var b := if HitAt(ranked, expected, 1) then {ranked[1]} else {};
    var c := if HitAt(ranked, expected, 2) then {ranked[2]} else {};
    if |ranked| > 1 {
      DistinctAt(ranked, 0, 1);
    }
    if |ranked| > 2 {
      DistinctAt(ranked, 0, 2);
      DistinctAt(ranked, 1, 2);
    }
    assert a !! b && (a + b) !! c;
    assert |a + b + c| == |a| + |b| + |c|;
    SubsetIsSmaller(a + b + c, expected);
  }

  /**
   * Without repeated results the normalized gain lies in [0, 1], and it is 1 exactly
   * when the first results, as many as are expected up to three, are all expected.
   */
  lemma NdcgInUnit(d: nat -> real, o: Observation)
    requires IsDiscount(d) && o.expected != [] && Distinct(o.ranked)
    ensures 0.0 <= Ndcg(d, o) <= 1.0
    ensures Ndcg(d, o) == 1.0 <==>
              forall i :: 0 <= i < 3 && i < |Ids(o.expected)| ==> HitAt(o.ranked, Ids(o.expected), i)
  {
    NdcgAtMostOneExactly(d, o);
    DistinctHitsAreExpected(o.ranked, Ids(o.expected));
    assert o.expected[0] in Ids(o.expected);
    GainWithinIdealExactly(d, o.ranked, Ids(o.expected));
    DividedByPositive(Dcg(d, o.ranked, Ids(o.expected)), Ideal(d, |Ids(o.expected)|));
  }

  /** With repeats it exceeds 1, which no report accepts, exactly when the top three hit more often than is expected. */
  lemma NdcgAtMostOneExactly(d: nat -> real, o: Observation)
    requires IsDiscount(d) && o.expected != []
    ensures Ndcg(d, o) <= 1.0 <==> Hits(o.ranked, Ids(o.expected)) <= |Ids(o.expected)|
  {
    var expected := Ids(o.expected);
    assert o.expected[0] in expected;
    GainWithinIdealExactly(d, o.ranked, expected);
    DividedByPositive(Dcg(d, o.ranked, expected), Ideal(d, |expected|));
  }

  // ---- the report ----

  datatype MetricsError = NoObservations | Leakage | OutOfRange

  datatype Report = Report(n: nat, recall: real, mrr: real, ndcg: real)

  function Sum(values: seq<real>): real {
    if values == [] then 0.0 else Sum(values[..|values| - 1]) + values[|values| - 1]
  }

  predicate InUnit(x: real) {
    0.0 <= x <= 1.0
  }

  lemma {:induction false} SumBounds(values: seq<real>)
    requires forall x :: x in values ==> InUnit(x)
    ensures 0.0 <= Sum(values) <= |values| as real
  {
    if values != [] {
      var n := |values| - 1;
      assert values[n] in values;
      assert forall x :: x in values[..n] ==> x in values;
      SumBounds(values[..n]);
    }
  }

  function Mean(values: seq<real>): real
    requires values != []
  {
    Sum(values) / |values| as real
  }

  lemma MeanInUnit(values: seq<real>)
    requires values != [] && forall x :: x in values ==> InUnit(x)
    ensures InUnit(Mean(values))
  {
    SumBounds(values);
    DividedByPositive(Sum(values), |values| as real);
  }

  function Recalls(observations: seq<Observation>): (values: seq<real>)
    requires forall o :: o in observations ==> o.expected != []
    ensures |values| == |observations|
    ensures forall i :: 0 <= i < |values| ==> values[i] == Recall(observations[i])
  {
    seq(|observations|, i requires 0 <= i < |observations| => Recall(observations[i]))
  }

  function ReciprocalRanks(observations: seq<Observation>): (values: seq<real>)
    ensures |values| == |observations|
    ensures forall i :: 0 <= i < |values| ==> values[i] == ReciprocalRank(observations[i])
  {
    seq(|observations|, i requires 0 <= i < |observations| => ReciprocalRank(observations[i]))
  }

  function Ndcgs(d: nat -> real, observations: seq<Observation>): (values: seq<real>)
    requires IsDiscount(d) && forall o :: o in observations ==> o.expected != []
    ensures |values| == |observations|
    ensures forall i :: 0 <= i < |values| ==> values[i] == Ndcg(d, observations[i])
  {
    seq(|observations|, i requires 0 <= i < |observations| => Ndcg(d, observations[i]))
  }

  lemma RecallsGrow(observations: seq<Observation>, i: nat)
    requires i < |observations| && forall o :: o in observations ==> o.expected != []
    ensures Recalls(observations[..i + 1]) == Recalls(observations[..i]) + [Recall(observations[i])]
  {
  }

  lemma ReciprocalRanksGrow(observations: seq<Observation>, i: nat)
    requires i < |observations|
    ensures ReciprocalRanks(observations[..i + 1])
        == ReciprocalRanks(observations[..i]) + [ReciprocalRank(observations[i])]
  {
  }

  lemma NdcgsGrow(d: nat -> real, observations: seq<Observation>, i: nat)
    requires i < |observations| && IsDiscount(d) && forall o :: o in observations ==> o.expected != []
    ensures Ndcgs(d, observations[..i + 1]) == Ndcgs(d, observations[..i]) + [Ndcg(d, observations[i])]
  {
  }

  method Measure(
    d: nat -> real, observations: seq<Observation>) returns (recalls: seq<real>, ranks: seq<real>, ndcgs: seq<real>)
    requires IsDiscount(d) && forall o :: o in observations ==> o.expected != []
    ensures recalls == Recalls(observations) && ranks == ReciprocalRanks(observations)
    ensures ndcgs == Ndcgs(d, observations)
  {
    recalls, ranks, ndcgs := [], [], [];
    for i := 0 to |observations|
      invariant recalls == Recalls(observations[..i])
      invariant ranks == ReciprocalRanks(observations[..i])
      invariant ndcgs == Ndcgs(d, observations[..i])
    {
      recalls := recalls + [Recall(observations[i])];
      ranks := ranks + [ReciprocalRank(observations[i])];
      ndcgs := ndcgs + [Ndcg(d, observations[i])];
      RecallsGrow(observations, i);
      ReciprocalRanksGrow(observations, i);
      NdcgsGrow(d, observations, i);
    }
    assert observations[..|observations|] == observations;
  }

  function ReportOf(d: nat -> real, observations: seq<Observation>): Report
    requires IsDiscount(d) && observations != [] && forall o :: o in observations ==> o.expected != []
  {
    Report(|observations|, Mean(Recalls(observations)), Mean(ReciprocalRanks(observations)),
      Mean(Ndcgs(d, observations)))
  }

  predicate ReportOk(r: Report) {
    InUnit(r.recall) && InUnit(r.mrr) && InUnit(r.ndcg)
  }

  method RetrievalMetrics(d: nat -> real, observations: seq<Observation>) returns (result: Result<Report, MetricsError>)
    requires IsDiscount(d) && forall o :: o in observations ==> o.expected != []
    ensures result == Err(NoObservations) <==> observations == []
    ensures result == Err(Leakage) <==> exists o :: o in observations && o.leaked
    ensures observations != [] && (forall o :: o in observations ==> !o.leaked) ==>
              result == if ReportOk(ReportOf(d, observations)) then Ok(ReportOf(d, observations)) else Err(OutOfRange)
  {
    if observations == [] {
      return Err(NoObservations);
    }
    if exists o :: o in observations && o.leaked {
      return Err(Leakage);
    }
    var recalls, ranks, ndcgs := Measure(d, observations);
    var report := Report(|observations|, Mean(recalls), Mean(ranks), Mean(ndcgs));
    return if ReportOk(report) then Ok(report) else Err(OutOfRange);
  }

  /** On distinct rankings every mean lies in [0, 1], so a report is never refused for its range. */
  lemma ReportIsInRange(d: nat -> real, observations: seq<Observation>)
    requires IsDiscount(d) && observations != [] && forall o :: o in observations ==>
        o.expected != [] && Distinct(o.ranked)
    ensures ReportOk(ReportOf(d, observations))
  {
    forall i | 0 <= i < |observations|
      ensures InUnit(Recall(observations[i])) && InUnit(ReciprocalRank(observations[i]))
      ensures InUnit(Ndcg(d, observations[i]))
    {
      RecallInUnit(observations[i]);
      ReciprocalRankInUnit(observations[i]);
      NdcgInUnit(d, observations[i]);
    }
    MeanInUnit(Recalls(observations));
    MeanInUnit(ReciprocalRanks(observations));
    MeanInUnit(Ndcgs(d, observations));
  }
}
