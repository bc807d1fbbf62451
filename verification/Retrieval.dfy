/**
 * Eligibility-gated precedent retrieval: two filtered nearest-neighbour lists, one per
 * named vector, are fused by point, thresholded, ranked and cut.
 */
module Retrieval {
  import opened Collections
  import opened Wrappers
  import opened MatchingSchema
  import opened WorkflowSchema
  import opened RulesEngine
  import opened Ranking

  datatype RetrievalConfig = RetrievalConfig(
    topK: nat, candidateLimit: nat, profileWeight: real, commentsWeight: real, minScore: real, requireActive: bool)

  const WEIGHT_TOLERANCE := 0.000000001

  predicate ValidConfig(c: RetrievalConfig) {
    && 1 <= c.topK <= 50 && 1 <= c.candidateLimit <= 200 && c.topK <= c.candidateLimit
    && 0.0 <= c.profileWeight <= 1.0 && 0.0 <= c.commentsWeight <= 1.0 && -1.0 <= c.minScore <= 1.0
    && -WEIGHT_TOLERANCE <= c.profileWeight + c.commentsWeight - 1.0 <= WEIGHT_TOLERANCE
  }

  datatype RetrievalError = IneligibleFunder | ScoreOutOfRange

  datatype Hit = Hit(id: PointId, payload: Option<DecidedLoanCase>, score: real)

  datatype Scores = Scores(payload: DecidedLoanCase, profile: Option<real>, comments: Option<real>)

  /** The scores dictionary, with its keys in insertion order. */
  datatype Fusion = Fusion(order: seq<PointId>, scores: map<PointId, Scores>)

  const NO_SCORES := Fusion([], map[])

  predicate IsRetrievable(c: DecidedLoanCase, now: Timestamp) {
    c.lifecycle == Active && (c.validUntil.None? || c.validUntil.value > now)
  }

  function Put(f: Fusion, id: PointId, s: Scores): Fusion {
    Fusion(if id in f.scores then f.order else f.order + [id], f.scores[id := s])
  }

  function AddProfile(f: Fusion, hit: Hit): Fusion {
    if hit.payload.None? then f else Put(f, hit.id, Scores(hit.payload.value, Some(hit.score), None))
  }

  function AddComments(f: Fusion, hit: Hit): Fusion {
    if hit.payload.None? then f
    else
      var profile := if hit.id in f.scores then f.scores[hit.id].profile else None;
      Put(f, hit.id, Scores(hit.payload.value, profile, Some(hit.score)))
  }

  function FoldProfile(hits: seq<Hit>): Fusion {
    if hits == [] then NO_SCORES else AddProfile(FoldProfile(hits[..|hits| - 1]), hits[|hits| - 1])
  }

  function FoldComments(f: Fusion, hits: seq<Hit>): Fusion {
    if hits == [] then f else AddComments(FoldComments(f, hits[..|hits| - 1]), hits[|hits| - 1])
  }

  function OrZero(score: Option<real>): real {
    if score.Some? then score.value else 0.0
  }

  function WeightedSum(v: real, w: real, x: real, y: real): real {
    v * x + w * y
  }

  function Combined(c: RetrievalConfig, profile: Option<real>, comments: Option<real>): real {
    WeightedSum(c.profileWeight, c.commentsWeight, OrZero(profile), OrZero(comments))
  }

  predicate InRange(score: real) {
    -1.0 <= score <= 1.0
  }

  /** The score bounds of a match; they are checked when it is built. */
  predicate ValidMatch(m: PrecedentMatch) {
    && InRange(m.score)
    && (m.profileScore.Some? ==> InRange(m.profileScore.value))
    && (m.commentsScore.Some? ==> InRange(m.commentsScore.value))
  }

  /** What one fused item contributes: nothing, a match, or an error. */
  function ItemMatch(
    c: RetrievalConfig, eligible: set<FunderId>, now: Timestamp, s: Scores): Result<Option<PrecedentMatch>,
    RetrievalError>
  {
    var score := Combined(c, s.profile, s.comments);
    if c.requireActive && !IsRetrievable(s.payload, now) then Ok(None)
    else if s.payload.decision.funderId !in eligible then Err(IneligibleFunder)
    else if score < c.minScore then Ok(None)
    else
      var m := PrecedentMatch(s.payload, score, s.profile, s.comments);
      if ValidMatch(m) then Ok(Some(m)) else Err(ScoreOutOfRange)
  }

  function Matches(
    c: RetrievalConfig, eligible: set<FunderId>, now: Timestamp, scores: map<PointId, Scores>, order: seq<PointId>)
    : Result<seq<PrecedentMatch>, RetrievalError>
    requires forall id :: id in order ==> id in scores
  {
    if order == [] then Ok([])
    else
      var earlier := Matches(c, eligible, now, scores, order[..|order| - 1]);
      var item := ItemMatch(c, eligible, now, scores[order[|order| - 1]]);
      if earlier.Err? then earlier
      else if item.Err? then Err(item.error)
      else Ok(if item.value.Some? then earlier.value + [item.value.value] else earlier.value)
  }

  function Top(matches: seq<PrecedentMatch>, k: nat): seq<PrecedentMatch> {
    var ranked := Sorted(matches);
    if |ranked| <= k then ranked else ranked[..k]
  }

  function EligibleFunders(results: seq<FunderEligibility>): set<FunderId> {
    set e | e in results && e.eligible :: e.funderId
  }

  ghost predicate OrderOk(f: Fusion) {
    Distinct(f.order) && forall id :: id in f.order <==> id in f.scores
  }

  lemma PutKeepsOrder(f: Fusion, id: PointId, s: Scores)
    requires OrderOk(f)
    ensures OrderOk(Put(f, id, s))
  {
    if id !in f.scores {
      var order := f.order + [id];
      forall i, j | 0 <= i < j < |order|
        ensures Differ(order, i, j)
      {
        if j < |f.order| {
          assert Differ(f.order, i, j);
        } else {
          assert f.order[i] in f.order;
        }
      }
    }
  }

  lemma {:induction false} FoldProfileOrder(hits: seq<Hit>)
    ensures OrderOk(FoldProfile(hits))
  {
    if hits != [] {
      var f, last := FoldProfile(hits[..|hits| - 1]), hits[|hits| - 1];
      FoldProfileOrder(hits[..|hits| - 1]);
      if last.payload.Some? {
        PutKeepsOrder(f, last.id, Scores(last.payload.value, Some(last.score), None));
      }
    }
  }

  lemma {:induction false} FoldCommentsOrder(f: Fusion, hits: seq<Hit>)
    requires OrderOk(f)
    ensures OrderOk(FoldComments(f, hits))
  {
    if hits != [] {
      var sofar, last := FoldComments(f, hits[..|hits| - 1]), hits[|hits| - 1];
      FoldCommentsOrder(f, hits[..|hits| - 1]);
      if last.payload.Some? {
        var profile := if last.id in sofar.scores then sofar.scores[last.id].profile else None;
        PutKeepsOrder(sofar, last.id, Scores(last.payload.value, profile, Some(last.score)));
      }
    }
  }

  function Fused(profileHits: seq<Hit>, commentHits: seq<Hit>): (f: Fusion)
    ensures OrderOk(f)
  {
    FoldProfileOrder(profileHits);
    FoldCommentsOrder(FoldProfile(profileHits), commentHits);
    FoldComments(FoldProfile(profileHits), commentHits)
  }

  /** The matches of a retrieval; the two lists are only asked for when some funder is eligible. */
  function Retrieved(
    c: RetrievalConfig, eligible: set<FunderId>, profileHits: seq<Hit>, commentHits: seq<Hit>, now: Timestamp)
    : Result<seq<PrecedentMatch>, RetrievalError>
  {
    if eligible == {} then Ok([])
    else
      var f := Fused(profileHits, commentHits);
      var matches := Matches(c, eligible, now, f.scores, f.order);
      if matches.Err? then matches else Ok(Top(matches.value, c.topK))
  }

  lemma {:induction false} MatchesStopForGood(
    c: RetrievalConfig, eligible: set<FunderId>, now: Timestamp, scores: map<PointId, Scores>,
    order: seq<PointId>, n: nat)
    requires n <= |order| && forall id :: id in order ==> id in scores
    requires Matches(c, eligible, now, scores, order[..n]).Err?
    ensures Matches(c, eligible, now, scores, order) == Matches(c, eligible, now, scores, order[..n])
    decreases |order| - n
  {
    if n == |order| {
      assert order[..n] == order;
    } else {
      assert order[..n + 1][..n] == order[..n];
      MatchesStopForGood(c, eligible, now, scores, order, n + 1);
    }
  }

  method Fuse(profileHits: seq<Hit>, commentHits: seq<Hit>) returns (order: seq<PointId>, scores: map<PointId, Scores>)
    ensures Fusion(order, scores) == Fused(profileHits, commentHits)
  {
    order, scores := [], map[];
    for i := 0 to |profileHits|
      invariant Fusion(order, scores) == FoldProfile(profileHits[..i])
    {
      var hit := profileHits[i];
      assert profileHits[..i + 1][..i] == profileHits[..i];
      if hit.payload.Some? {
        if hit.id !in scores {
          order := order + [hit.id];
        }
        scores := scores[hit.id := Scores(hit.payload.value, Some(hit.score), None)];
      }
    }
    assert profileHits[..|profileHits|] == profileHits;
    ghost var start := FoldProfile(profileHits);
    for i := 0 to |commentHits|
      invariant Fusion(order, scores) == FoldComments(start, commentHits[..i])
    {
      var hit := commentHits[i];
      assert commentHits[..i + 1][..i] == commentHits[..i];
      if hit.payload.None? {
        continue;
      }
      var profile := None;
      if hit.id in scores {
        profile := scores[hit.id].profile;
      } else {
        order := order + [hit.id];
      }
      scores := scores[hit.id := Scores(hit.payload.value, profile, Some(hit.score))];
    }
    assert commentHits[..|commentHits|] == commentHits;
  }

  method Retrieve(
    c: RetrievalConfig, eligible: set<FunderId>, profileHits: seq<Hit>, commentHits: seq<Hit>, now: Timestamp)
    returns (result: Result<seq<PrecedentMatch>, RetrievalError>)
    ensures result == Retrieved(c, eligible, profileHits, commentHits, now)
  {
    if eligible == {} {
      return Ok([]);
    }
    var order, scores := Fuse(profileHits, commentHits);
    var matches: seq<PrecedentMatch> := [];
    for i := 0 to |order|
      invariant Matches(c, eligible, now, scores, order[..i]) == Ok(matches)
    {
      assert order[..i + 1][..i] == order[..i];
      var item := ItemMatch(c, eligible, now, scores[order[i]]);
      if item.Err? {
        MatchesStopForGood(c, eligible, now, scores, order, i + 1);
        return Err(item.error);
      }
      if item.value.Some? {
        matches := matches + [item.value.value];
      }
    }
    assert order[..|order|] == order;
    return Ok(Top(matches, c.topK));
  }

  // ---- the collection behind the lists ----

  datatype Vector = ProfileVector | CommentsVector

  /** A stored precedent with its similarity to the two query vectors. */
  datatype Point = Point(precedent: DecidedLoanCase, profile: real, comments: real)

  function ScoreOf(p: Point, v: Vector): real {
    if v == ProfileVector then p.profile else p.comments
  }

  predicate PassesFilter(c: RetrievalConfig, eligible: set<FunderId>, p: Point) {
    p.precedent.decision.funderId in eligible && (c.requireActive ==> p.precedent.lifecycle == Active)
  }

  function Passing(c: RetrievalConfig, eligible: set<FunderId>, points: map<PointId, Point>): set<PointId> {
    set id | id in points && PassesFilter(c, eligible, points[id])
  }

  /** Points are filed under the identifier derived from their case. */
  predicate WellFiled(points: map<PointId, Point>) {
    forall id :: id in points ==> id == PointId(points[id].precedent.caseId)
  }

  function HitIds(hits: seq<Hit>): set<PointId> {
    set i | 0 <= i < |hits| :: hits[i].id
  }

  predicate TrueHit(points: map<PointId, Point>, v: Vector, hit: Hit) {
    hit.id in points && hit.payload == Some(points[hit.id].precedent) && hit.score == ScoreOf(points[hit.id], v)
  }

  predicate TrueHits(points: map<PointId, Point>, passing: set<PointId>, v: Vector, hits: seq<Hit>) {
    forall hit :: hit in hits ==> TrueHit(points, v, hit) && hit.id in passing
  }

  /** The list is a true top list of the passing points: exact scores, no repeats, nothing better left out. */
  predicate TopList(points: map<PointId, Point>, passing: set<PointId>, v: Vector, hits: seq<Hit>, limit: nat) {
    && TrueHits(points, passing, v, hits)
    && (forall i, j :: 0 <= i < j < |hits| ==> hits[i].id != hits[j].id)
    && |hits| == (if |passing| <= limit then |passing| else limit)
    && (forall id :: id in passing && id in points && id !in HitIds(hits) ==> NoBetter(points[id], v, hits))
  }

  predicate NoBetter(p: Point, v: Vector, hits: seq<Hit>) {
    forall hit :: hit in hits ==> ScoreOf(p, v) <= hit.score
  }

  lemma {:induction false} HitIdsCount(hits: seq<Hit>)
    requires forall i, j :: 0 <= i < j < |hits| ==> hits[i].id != hits[j].id
    ensures |HitIds(hits)| == |hits|
  {
    if hits != [] {
      var earlier, last := hits[..|hits| - 1], hits[|hits| - 1];
      HitIdsCount(earlier);
      HitIdsSplit(earlier, last);
      assert hits == earlier + [last];
      forall i | 0 <= i < |earlier|
        ensures earlier[i].id != last.id
      {
      }
    } else {
      assert HitIds(hits) == {};
    }
  }

  lemma HitIdsSplit(earlier: seq<Hit>, last: Hit)
    ensures HitIds(earlier + [last]) == HitIds(earlier) + {last.id}
  {
    var hits := earlier + [last];
    forall id | id in HitIds(earlier) + {last.id}
      ensures id in HitIds(hits)
    {
      if id == last.id {
        assert hits[|earlier|].id == id;
      } else {
        var i :| 0 <= i < |earlier| && earlier[i].id == id;
        assert hits[i].id == id;
      }
    }
  }

  lemma SubsetOfSameSize(a: set<PointId>, b: set<PointId>)
    requires a <= b && |a| == |b|
    ensures a == b
  {
    if a != b {
      var x :| x in b && x !in a;
      assert a <= b - {x};
      SubsetIsSmaller(a, b - {x});
    }
  }

  /** With room for every passing point, a top list holds exactly the passing points. */
  lemma RoomyListIsComplete(points: map<PointId, Point>, passing: set<PointId>, v: Vector, hits: seq<Hit>, limit: nat)
    requires TopList(points, passing, v, hits, limit) && |passing| <= limit
    ensures HitIds(hits) == passing
  {
    HitIdsCount(hits);
    forall id | id in HitIds(hits)
      ensures id in passing
    {
      var i :| 0 <= i < |hits| && hits[i].id == id;
      assert hits[i] in hits;
    }
    SubsetOfSameSize(HitIds(hits), passing);
  }

  // ---- what fusion computes ----

  function If(present: bool, score: real): Option<real> {
    if present then Some(score) else None
  }

  /** The fused entry of a point that the given lists contain. */
  function EntryOf(p: Point, inProfile: bool, inComments: bool): Scores {
    Scores(p.precedent, If(inProfile, p.profile), If(inComments, p.comments))
  }

  predicate FusionOf(points: map<PointId, Point>, f: Fusion, inProfile: set<PointId>, inComments: set<PointId>) {
    && f.scores.Keys == inProfile + inComments
    && forall id :: id in f.scores ==>
         id in points && f.scores[id] == EntryOf(points[id], id in inProfile, id in inComments)
  }

  lemma {:induction false} FoldProfileIs(points: map<PointId, Point>, passing: set<PointId>, hits: seq<Hit>)
    requires TrueHits(points, passing, ProfileVector, hits)
    ensures FusionOf(points, FoldProfile(hits), HitIds(hits), {})
  {
    if hits != [] {
      var earlier, last := hits[..|hits| - 1], hits[|hits| - 1];
      assert hits == earlier + [last] && last in hits;
      FoldProfileIs(points, passing, earlier);
      HitIdsSplit(earlier, last);
      assert TrueHit(points, ProfileVector, last);
    } else {
      assert HitIds(hits) == {};
    }
  }

  lemma {:induction false} FoldCommentsIs(
    points: map<PointId, Point>, passing: set<PointId>, f: Fusion, inProfile: set<PointId>, hits: seq<Hit>)
    requires FusionOf(points, f, inProfile, {}) && TrueHits(points, passing, CommentsVector, hits)
    ensures FusionOf(points, FoldComments(f, hits), inProfile, HitIds(hits))
  {
    if hits != [] {
      var earlier, last := hits[..|hits| - 1], hits[|hits| - 1];
      assert hits == earlier + [last] && last in hits;
      FoldCommentsIs(points, passing, f, inProfile, earlier);
      HitIdsSplit(earlier, last);
      assert TrueHit(points, CommentsVector, last);
    } else {
      assert HitIds(hits) == {};
    }
  }

  /** Every fused entry carries the true scores of exactly the lists its point is in. */
  lemma FusedIs(points: map<PointId, Point>, passing: set<PointId>, profileHits: seq<Hit>, commentHits: seq<Hit>)
    requires TrueHits(points, passing, ProfileVector, profileHits)
    requires TrueHits(points, passing, CommentsVector, commentHits)
    ensures FusionOf(points, Fused(profileHits, commentHits), HitIds(profileHits), HitIds(commentHits))
  {
    FoldProfileIs(points, passing, profileHits);
    FoldCommentsIs(points, passing, FoldProfile(profileHits), HitIds(profileHits), commentHits);
  }

  // ---- brute force ----

  function TrueScore(c: RetrievalConfig, p: Point): real {
    Combined(c, Some(p.profile), Some(p.comments))
  }

  predicate Counts(c: RetrievalConfig, now: Timestamp, p: Point) {
    (c.requireActive ==> IsRetrievable(p.precedent, now)) && TrueScore(c, p) >= c.minScore
  }

  function MatchOf(c: RetrievalConfig, p: Point): PrecedentMatch {
    PrecedentMatch(p.precedent, TrueScore(c, p), Some(p.profile), Some(p.comments))
  }

  function Chosen(
    c: RetrievalConfig, now: Timestamp, points: map<PointId, Point>, ids: seq<PointId>): seq<PrecedentMatch>
    requires forall id :: id in ids ==> id in points
  {
    if ids == [] then []
    else
      var last := points[ids[|ids| - 1]];
      Chosen(c, now, points, ids[..|ids| - 1]) + if Counts(c, now, last) then [MatchOf(c, last)] else []
  }

  /** Score every passing point in whatever order, keep those over the threshold, rank, take the best. */
  function BruteForce(
    c: RetrievalConfig, now: Timestamp, points: map<PointId, Point>, ids: seq<PointId>): seq<PrecedentMatch>
    requires forall id :: id in ids ==> id in points
  {
    Top(Chosen(c, now, points, ids), c.topK)
  }

  lemma {:induction false} ChosenAre(c: RetrievalConfig, now: Timestamp, points: map<PointId, Point>, ids: seq<PointId>)
    requires forall id :: id in ids ==> id in points
    ensures forall m ::
              m in Chosen(c, now, points, ids) <==>
              exists id :: id in ids && Counts(c, now, points[id]) && m == MatchOf(c, points[id])
  {
    if ids != [] {
      var earlier, last := ids[..|ids| - 1], ids[|ids| - 1];
      ChosenAre(c, now, points, earlier);
      assert forall id :: id in ids <==> id in earlier || id == last;
    }
  }

  lemma {:induction false} ChosenAreDistinct(
    c: RetrievalConfig, now: Timestamp, points: map<PointId, Point>, ids: seq<PointId>)
    requires WellFiled(points) && Distinct(ids) && forall id :: id in ids ==> id in points
    ensures DistinctCases(Chosen(c, now, points, ids))
  {
    if ids != [] {
      var earlier, last := ids[..|ids| - 1], ids[|ids| - 1];
      DistinctPrefix(ids, |ids| - 1);
      ChosenAreDistinct(c, now, points, earlier);
      ChosenAre(c, now, points, earlier);
      var chosen := Chosen(c, now, points, earlier);
      forall i | 0 <= i < |chosen|
        ensures chosen[i].precedent.caseId != points[last].precedent.caseId
      {
        assert chosen[i] in chosen;
        var id :| id in earlier && Counts(c, now, points[id]) && chosen[i] == MatchOf(c, points[id]);
      }
    }
  }

  /** Similarities and weights that keep every fused score within the bounds of a match. */
  predicate ScoresInRange(points: map<PointId, Point>) {
    forall id :: id in points ==> InRange(points[id].profile) && InRange(points[id].comments)
  }

  lemma ScaleMonotone(w: real, x: real, y: real)
    requires 0.0 <= w && x <= y
    ensures w * x <= w * y
  {
  }

  lemma ProductNotNegative(w: real, x: real)
    requires 0.0 <= w && 0.0 <= x
    ensures 0.0 <= w * x
  {
  }

  lemma WeightedSumAtMostOne(v: real, w: real, x: real, y: real)
    requires 0.0 <= v && 0.0 <= w && v + w <= 1.0 && x <= 1.0 && y <= 1.0
    ensures v * x + w * y <= 1.0
  {
    ProductNotNegative(v, 1.0 - x);
    ProductNotNegative(w, 1.0 - y);
    assert v * (1.0 - x) + w * (1.0 - y) == v + w - (v * x + w * y);
  }

  lemma WeightedSumInRange(v: real, w: real, x: real, y: real)
    requires 0.0 <= v && 0.0 <= w && v + w <= 1.0 && InRange(x) && InRange(y)
    ensures InRange(WeightedSum(v, w, x, y))
  {
    WeightedSumAtMostOne(v, w, x, y);
    WeightedSumAtMostOne(v, w, -x, -y);
    assert v * -x + w * -y == -(v * x + w * y);
  }

  lemma FusedScoreInRange(c: RetrievalConfig, profile: Option<real>, comments: Option<real>)
    requires 0.0 <= c.profileWeight && 0.0 <= c.commentsWeight && c.profileWeight + c.commentsWeight <= 1.0
    requires InRange(OrZero(profile)) && InRange(OrZero(comments))
    ensures InRange(Combined(c, profile, comments))
  {
    WeightedSumInRange(c.profileWeight, c.commentsWeight, OrZero(profile), OrZero(comments));
  }

  /**
   * Fused scores are guaranteed to fit the bounds of a match exactly when the weights
   * do not sum to more than one; the configuration's tolerance also admits sums above.
   */
  lemma WeightsKeepScoresInRangeExactly(c: RetrievalConfig)
    requires ValidConfig(c)
    ensures c.profileWeight + c.commentsWeight <= 1.0
       <==> forall profile, comments :: InRange(OrZero(profile)) && InRange(OrZero(comments)) ==>
            InRange(Combined(c, profile, comments))
  {
    if c.profileWeight + c.commentsWeight <= 1.0 {
      forall profile, comments | InRange(OrZero(profile)) && InRange(OrZero(comments))
        ensures InRange(Combined(c, profile, comments))
      {
        FusedScoreInRange(c, profile, comments);
      }
    } else {
      assert InRange(OrZero(Some(1.0)));
      assert Combined(c, Some(1.0), Some(1.0)) == c.profileWeight + c.commentsWeight;
    }
  }

  /** Why a retrieval with weights above one can fail: a perfect hit in both lists is no valid match. */
  lemma PerfectHitIsRefused(c: RetrievalConfig, eligible: set<FunderId>, now: Timestamp, payload: DecidedLoanCase)
    requires ValidConfig(c) && c.profileWeight + c.commentsWeight > 1.0
    requires payload.decision.funderId in eligible && IsRetrievable(payload, now)
    ensures ItemMatch(c, eligible, now, Scores(payload, Some(1.0), Some(1.0))) == Err(ScoreOutOfRange)
  {
  }

  /** A configuration the validator accepts although its weights sum to more than one. */
  const HEAVY := RetrievalConfig(1, 1, 0.75, 0.2500000005, 0.0, true)

  /** Such weights are within the tolerance, and a perfect active hit then makes the retrieval raise. */
  lemma HeavyConfigIsRefused(payload: DecidedLoanCase, now: Timestamp)
    requires IsRetrievable(payload, now)
    ensures ValidConfig(HEAVY) && HEAVY.profileWeight + HEAVY.commentsWeight > 1.0
    ensures var hit := Hit(PointId(payload.caseId), Some(payload), 1.0);
            Retrieved(HEAVY, {payload.decision.funderId}, [hit], [hit], now) == Err(ScoreOutOfRange)
  {
    var id, hits := PointId(payload.caseId), [Hit(PointId(payload.caseId), Some(payload), 1.0)];
    assert hits[..0] == [];
    var first, both := Scores(payload, Some(1.0), None), Scores(payload, Some(1.0), Some(1.0));
    var profile := FoldProfile(hits);
    assert profile == AddProfile(FoldProfile(hits[..0]), hits[0]) && profile.order == [] + [id]
      && profile.scores == map[id := first];
    var fused := FoldComments(profile, hits);
    assert fused == AddComments(FoldComments(profile, hits[..0]), hits[0]);
    assert fused.order == [id] && fused.scores[id] == both;
    assert Fused(hits, hits) == fused;
    var funders := {payload.decision.funderId};
    assert Matches(HEAVY, funders, now, fused.scores, fused.order[..0]) == Ok([]);
    assert fused.order[|fused.order| - 1] == id;
    assert payload.decision.funderId in funders;
    assert [id][..0] == [];
    PerfectHitIsRefused(HEAVY, {payload.decision.funderId}, now, payload);
  }

  /** The fused entry contributes what the point itself would. */
  predicate Contributes(c: RetrievalConfig, eligible: set<FunderId>, now: Timestamp, p: Point, s: Scores) {
    ItemMatch(c, eligible, now, s) == Ok(if Counts(c, now, p) then Some(MatchOf(c, p)) else None)
  }

  lemma CompleteItem(
    c: RetrievalConfig, eligible: set<FunderId>, now: Timestamp, points: map<PointId, Point>, id: PointId)
    requires ValidConfig(c) && c.profileWeight + c.commentsWeight <= 1.0 && ScoresInRange(points)
    requires id in points && PassesFilter(c, eligible, points[id])
    ensures Contributes(c, eligible, now, points[id], EntryOf(points[id], true, true))
  {
    FusedScoreInRange(c, Some(points[id].profile), Some(points[id].comments));
  }

  lemma MatchesStep(
    c: RetrievalConfig, eligible: set<FunderId>, now: Timestamp, scores: map<PointId, Scores>, order: seq<PointId>,
    earlier: seq<PrecedentMatch>, item: Option<PrecedentMatch>)
    requires order != [] && forall id :: id in order ==> id in scores
    requires Matches(c, eligible, now, scores, order[..|order| - 1]) == Ok(earlier)
    requires ItemMatch(c, eligible, now, scores[order[|order| - 1]]) == Ok(item)
    ensures Matches(c, eligible, now, scores, order) == Ok(earlier + if item.Some? then [item.value] else [])
  {
    assert earlier + [] == earlier;
  }

  lemma {:induction false} MatchesAreChosen(
    c: RetrievalConfig, eligible: set<FunderId>, now: Timestamp, points: map<PointId, Point>,
    scores: map<PointId, Scores>, order: seq<PointId>)
    requires forall id :: id in order ==> id in scores && id in points
    requires forall id :: id in order ==> Contributes(c, eligible, now, points[id], scores[id])
    ensures Matches(c, eligible, now, scores, order) == Ok(Chosen(c, now, points, order))
  {
    if order != [] {
      var last := order[|order| - 1];
      assert last in order;
      MatchesAreChosen(c, eligible, now, points, scores, order[..|order| - 1]);
      assert Contributes(c, eligible, now, points[last], scores[last]);
      MatchesStep(c, eligible, now, scores, order, Chosen(c, now, points, order[..|order| - 1]),
                  if Counts(c, now, points[last]) then Some(MatchOf(c, points[last])) else None);
    }
  }

  /**
   * When the candidate limit covers every passing point, fused retrieval is brute force,
   * whatever order the hits, the dictionary and the brute-force enumeration come in.
   */
  lemma FusionIsBruteForce(
    c: RetrievalConfig, eligible: set<FunderId>, now: Timestamp, points: map<PointId, Point>,
    profileHits: seq<Hit>, commentHits: seq<Hit>, ids: seq<PointId>)
    requires ValidConfig(c) && c.profileWeight + c.commentsWeight <= 1.0 && ScoresInRange(points) && WellFiled(points)
    requires eligible != {}
    requires |Passing(c, eligible, points)| <= c.candidateLimit
    requires TopList(points, Passing(c, eligible, points), ProfileVector, profileHits, c.candidateLimit)
    requires TopList(points, Passing(c, eligible, points), CommentsVector, commentHits, c.candidateLimit)
    requires Distinct(ids) && forall id :: id in ids <==> id in Passing(c, eligible, points)
    ensures forall id :: id in ids ==> id in points
    ensures Retrieved(c, eligible, profileHits, commentHits, now) == Ok(BruteForce(c, now, points, ids))
  {
    var passing := Passing(c, eligible, points);
    RoomyListIsComplete(points, passing, ProfileVector, profileHits, c.candidateLimit);
    RoomyListIsComplete(points, passing, CommentsVector, commentHits, c.candidateLimit);
    FusedIs(points, passing, profileHits, commentHits);
    var f := Fused(profileHits, commentHits);
    forall id | id in f.order
      ensures id in passing && Contributes(c, eligible, now, points[id], f.scores[id])
    {
      CompleteItem(c, eligible, now, points, id);
    }
    MatchesAreChosen(c, eligible, now, points, f.scores, f.order);
    SameIdsSameTop(c, now, points, f.order, ids);
  }

  lemma SameIdsSameTop(
    c: RetrievalConfig, now: Timestamp, points: map<PointId, Point>, order: seq<PointId>, ids: seq<PointId>)
    requires WellFiled(points) && Distinct(order) && Distinct(ids)
    requires forall id :: id in order <==> id in ids
    requires forall id :: id in order ==> id in points
    ensures Top(Chosen(c, now, points, order), c.topK) == BruteForce(c, now, points, ids)
  {
    ChosenAre(c, now, points, order);
    ChosenAre(c, now, points, ids);
    ChosenAreDistinct(c, now, points, order);
    ChosenAreDistinct(c, now, points, ids);
    SortIgnoresOrder(Chosen(c, now, points, order), Chosen(c, now, points, ids));
  }

  // ---- what a short candidate list can miss ----

  /** A point missing from both lists scores no more than the weighted sum of any two hits, so of the two cut-offs. */
  lemma MissingPointIsBounded(
    c: RetrievalConfig, points: map<PointId, Point>, passing: set<PointId>, profileHits: seq<Hit>,
    commentHits: seq<Hit>,
    id: PointId, worstProfile: Hit, worstComments: Hit)
    requires ValidConfig(c) && id in points && id in passing
    requires TopList(points, passing, ProfileVector, profileHits, c.candidateLimit)
    requires TopList(points, passing, CommentsVector, commentHits, c.candidateLimit)
    requires id !in HitIds(profileHits) && id !in HitIds(commentHits) && worstProfile in profileHits
    requires worstComments in commentHits
    ensures TrueScore(c, points[id]) <= c.profileWeight * worstProfile.score + c.commentsWeight * worstComments.score
  {
    var p := points[id];
    assert NoBetter(p, ProfileVector, profileHits) && NoBetter(p, CommentsVector, commentHits);
    BoundedByHits(c, p, worstProfile, worstComments);
  }

  lemma BoundedByHits(c: RetrievalConfig, p: Point, worstProfile: Hit, worstComments: Hit)
    requires 0.0 <= c.profileWeight && 0.0 <= c.commentsWeight
    requires p.profile <= worstProfile.score && p.comments <= worstComments.score
    ensures TrueScore(c, p) <= c.profileWeight * worstProfile.score + c.commentsWeight * worstComments.score
  {
    ScaleMonotone(c.profileWeight, p.profile, worstProfile.score);
    ScaleMonotone(c.commentsWeight, p.comments, worstComments.score);
    assert OrZero(Some(p.profile)) == p.profile && OrZero(Some(p.comments)) == p.comments;
  }

  /**
   * A list a point is missing from counts as similarity zero: the fused score is too high
   * exactly when the weighted true similarity is negative.
   */
  lemma AbsenceCountsAsZero(c: RetrievalConfig, p: Point)
    ensures Combined(c, Some(p.profile), None) > TrueScore(c, p) <==> c.commentsWeight * p.comments < 0.0
    ensures Combined(c, None, Some(p.comments)) > TrueScore(c, p) <==> c.profileWeight * p.profile < 0.0
    ensures Combined(c, Some(p.profile), Some(p.comments)) == TrueScore(c, p)
  {
  }

  // ---- every answer ----

  predicate Proper(c: RetrievalConfig, eligible: set<FunderId>, now: Timestamp, m: PrecedentMatch) {
    && m.precedent.decision.funderId in eligible
    && m.score == Combined(c, m.profileScore, m.commentsScore) && m.score >= c.minScore && ValidMatch(m)
    && (c.requireActive ==> IsRetrievable(m.precedent, now))
  }

  lemma {:induction false} MatchesAreProper(
    c: RetrievalConfig, eligible: set<FunderId>, now: Timestamp, scores: map<PointId, Scores>, order: seq<PointId>)
    requires (forall id :: id in order ==> id in scores) && Matches(c, eligible, now, scores, order).Ok?
    ensures forall m :: m in Matches(c, eligible, now, scores, order).value ==> Proper(c, eligible, now, m)
  {
    if order != [] {
      MatchesAreProper(c, eligible, now, scores, order[..|order| - 1]);
    }
  }

  /**
   * Whatever the two lists contain, an answer holds at most top_k matches, each of an
   * eligible funder and over the threshold.
   */
  lemma AnswersAreProper(
    c: RetrievalConfig, eligible: set<FunderId>, profileHits: seq<Hit>, commentHits: seq<Hit>, now: Timestamp)
    requires Retrieved(c, eligible, profileHits, commentHits, now).Ok?
    ensures var matches := Retrieved(c, eligible, profileHits, commentHits, now).value;
            |matches| <= c.topK && forall m :: m in matches ==> Proper(c, eligible, now, m)
  {
    if eligible != {} {
      var f := Fused(profileHits, commentHits);
      MatchesAreProper(c, eligible, now, f.scores, f.order);
      var all := Matches(c, eligible, now, f.scores, f.order).value;
      SortedKeepsElements(all);
      SameElements(Sorted(all), all);
    }
  }
}
