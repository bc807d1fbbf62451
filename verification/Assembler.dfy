/**
 * Assembly of eligible precedents into the advisory bundle a human reviews: group the
 * matches by funder, partition the policies, and ground every claim.
 */
module Assembler {
  import opened Collections
  import opened Wrappers
  import opened MatchingSchema
  import opened RulesEngine

  datatype AssembleError =
    | OtherApplication | DuplicatePolicies | NotCovered | IneligiblePrecedent
    | InvalidCandidate | InvalidExclusion | TooManyClaims

  const CLAIM_CAP := 500

  // ---- lookups ----

  function PolicyIds(policies: seq<FunderPolicy>): (ids: seq<FunderId>)
    ensures |ids| == |policies|
    ensures forall i :: 0 <= i < |policies| ==> ids[i] == policies[i].funderId
  {
    seq(|policies|, i requires 0 <= i < |policies| => policies[i].funderId)
  }

  /** The dictionary over eligibility results: a later result for the same funder replaces an earlier one. */
  function ById(results: seq<FunderEligibility>): map<FunderId, FunderEligibility> {
    if results == [] then map[]
    else ById(results[..|results| - 1])[results[|results| - 1].funderId := results[|results| - 1]]
  }

  function FunderOf(m: PrecedentMatch): FunderId {
    m.precedent.decision.funderId
  }

  /** The matches of one funder, in rank order. */
  function MatchesOf(matches: seq<PrecedentMatch>, funder: FunderId): seq<PrecedentMatch> {
    if matches == [] then []
    else
      MatchesOf(matches[..|matches| - 1], funder) +
      (if FunderOf(matches[|matches| - 1]) == funder then [matches[|matches| - 1]] else [])
  }

  predicate EligibleMatch(byId: map<FunderId, FunderEligibility>, m: PrecedentMatch) {
    FunderOf(m) in byId && byId[FunderOf(m)].eligible
  }

  function Group(grouped: map<FunderId, seq<PrecedentMatch>>, funder: FunderId): seq<PrecedentMatch> {
    if funder in grouped then grouped[funder] else []
  }

  // ---- candidates and exclusions ----

  function CandidateOf(policy: FunderPolicy, e: FunderEligibility, matches: seq<PrecedentMatch>): AdvisoryCandidate {
    var own := MatchesOf(matches, policy.funderId);
    AdvisoryCandidate(policy.funderId, policy.displayName, e.checks, own, own == [])
  }

  function FailedChecks(checks: seq<RuleCheck>): seq<RuleCheck> {
    if checks == [] then []
    else FailedChecks(checks[..|checks| - 1]) + (if checks[|checks| - 1].passed then [] else [checks[|checks| - 1]])
  }

  function ExclusionOf(policy: FunderPolicy, e: FunderEligibility): ExcludedFunder {
    ExcludedFunder(policy.funderId, policy.displayName, FailedChecks(e.checks))
  }

  /** What the candidate type accepts: eight passed checks. Its other rules hold by construction. */
  predicate ValidCandidate(c: AdvisoryCandidate) {
    && |c.passedChecks| == 8 && AllPassed(c.passedChecks)
    && c.noClosePrecedent == (c.precedents == [])
    && forall m :: m in c.precedents ==> FunderOf(m) == c.funderId
  }

  predicate ValidExclusion(x: ExcludedFunder) {
    x.failedChecks != [] && forall check :: check in x.failedChecks ==> !check.passed
  }

  function Candidates(
    policies: seq<FunderPolicy>, byId: map<FunderId, FunderEligibility>,
    matches: seq<PrecedentMatch>): seq<AdvisoryCandidate>
    requires forall p :: p in policies ==> p.funderId in byId
  {
    if policies == [] then []
    else
      var last := policies[|policies| - 1];
      Candidates(policies[..|policies| - 1], byId, matches)
        + if byId[last.funderId].eligible then [CandidateOf(last, byId[last.funderId], matches)] else []
  }

  function Exclusions(policies: seq<FunderPolicy>, byId: map<FunderId, FunderEligibility>): seq<ExcludedFunder>
    requires forall p :: p in policies ==> p.funderId in byId
  {
    if policies == [] then []
    else
      var last := policies[|policies| - 1];
      Exclusions(policies[..|policies| - 1], byId) +
      if byId[last.funderId].eligible then [] else [ExclusionOf(last, byId[last.funderId])]
  }

  // ---- claims ----

  function EvidenceClaims(app: AppId, hash: Option<string>, evidence: seq<EvidenceMetric>): (claims: seq<GroundedClaim>)
    ensures |claims| == |evidence|
    ensures forall i :: 0 <= i < |evidence| ==>
        claims[i] == GroundedClaim(app, CitedEvidence(evidence[i].citation), hash)
  {
    seq(|evidence|, i requires 0 <= i < |evidence| => GroundedClaim(app, CitedEvidence(evidence[i].citation), hash))
  }

  function CheckClaims(app: AppId, hash: Option<string>, e: FunderEligibility): (claims: seq<GroundedClaim>)
    ensures |claims| == |e.checks|
    ensures forall i :: 0 <= i < |e.checks| ==>
        claims[i] == GroundedClaim(app, Calculation(e.funderId, e.checks[i]), hash)
  {
    seq(|e.checks|, i requires 0 <= i < |e.checks| => GroundedClaim(app, Calculation(e.funderId, e.checks[i]), hash))
  }

  function CalculationClaims(app: AppId, hash: Option<string>, results: seq<FunderEligibility>): seq<GroundedClaim> {
    if results == [] then []
    else CalculationClaims(app, hash, results[..|results| - 1]) + CheckClaims(app, hash, results[|results| - 1])
  }

  function PrecedentClaims(app: AppId, hash: Option<string>, matches: seq<PrecedentMatch>): (claims: seq<GroundedClaim>)
    ensures |claims| == |matches|
    ensures forall i :: 0 <= i < |matches| ==>
        claims[i] == GroundedClaim(app, CitedPrecedent(matches[i].precedent.caseId), hash)
  {
    seq(|matches|, i requires 0 <= i < |matches| =>
      GroundedClaim(app, CitedPrecedent(matches[i].precedent.caseId), hash))
  }

  function Claims(
    application: BorrowerApplication, hash: Option<string>, retrieval: RetrievalResult): seq<GroundedClaim>
  {
    EvidenceClaims(application.applicationId, hash, application.evidence)
      + CalculationClaims(application.applicationId, hash, retrieval.eligibility)
      + PrecedentClaims(application.applicationId, hash, retrieval.matches)
  }

  // ---- assembly ----

  /** The first error the loop over the policies runs into. */
  function PolicyError(
    policies: seq<FunderPolicy>, byId: map<FunderId, FunderEligibility>,
    matches: seq<PrecedentMatch>): Option<AssembleError>
    requires forall p :: p in policies ==> p.funderId in byId
  {
    if policies == [] then None
    else
      var earlier := PolicyError(policies[..|policies| - 1], byId, matches);
      var last := policies[|policies| - 1];
      var e := byId[last.funderId];
      if earlier.Some? then earlier
      else if !e.eligible then if ValidExclusion(ExclusionOf(last, e)) then None else Some(InvalidExclusion)
      else if ValidCandidate(CandidateOf(last, e, matches)) then None
      else Some(InvalidCandidate)
  }

  function Assembled(
    hash: Option<string>, application: BorrowerApplication, policies: seq<FunderPolicy>, retrieval: RetrievalResult)
    : Result<SuggestionBundle, AssembleError>
  {
    var byId := ById(retrieval.eligibility);
    if retrieval.applicationId != application.applicationId then Err(OtherApplication)
    else if !Distinct(PolicyIds(policies)) then Err(DuplicatePolicies)
    else if byId.Keys != (set id | id in PolicyIds(policies)) then Err(NotCovered)
    else if !(forall m :: m in retrieval.matches ==> EligibleMatch(byId, m)) then Err(IneligiblePrecedent)
    else
      CoveredByIds(policies, byId);
      var error := PolicyError(policies, byId, retrieval.matches);
      var claims := Claims(application, hash, retrieval);
      if error.Some? then Err(error.value)
      else if |claims| > CLAIM_CAP then Err(TooManyClaims)
      else Ok(SuggestionBundle(application, Candidates(policies, byId, retrieval.matches), Exclusions(policies, byId),
        claims))
  }

  predicate Covered(policies: seq<FunderPolicy>, byId: map<FunderId, FunderEligibility>) {
    forall p :: p in policies ==> p.funderId in byId
  }

  lemma CoveredByIds(policies: seq<FunderPolicy>, byId: map<FunderId, FunderEligibility>)
    requires byId.Keys == set id | id in PolicyIds(policies)
    ensures Covered(policies, byId)
  {
    forall p | p in policies
      ensures p.funderId in byId
    {
      var i :| 0 <= i < |policies| && policies[i] == p;
      assert PolicyIds(policies)[i] == p.funderId;
    }
  }

  lemma MatchesOfGrow(matches: seq<PrecedentMatch>, i: nat, funder: FunderId)
    requires i < |matches|
    ensures MatchesOf(matches[..i + 1], funder)
         == MatchesOf(matches[..i], funder) + if FunderOf(matches[i]) == funder then [matches[i]] else []
  {
    assert matches[..i + 1][..i] == matches[..i];
  }

  method GroupByFunder(byId: map<FunderId, FunderEligibility>, matches: seq<PrecedentMatch>)
    returns (result: Result<map<FunderId, seq<PrecedentMatch>>, AssembleError>)
    ensures result.Ok? <==> forall m :: m in matches ==> EligibleMatch(byId, m)
    ensures result.Err? ==> result.error == IneligiblePrecedent
    ensures result.Ok? ==> forall funder :: Group(result.value, funder) == MatchesOf(matches, funder)
  {
    var grouped: map<FunderId, seq<PrecedentMatch>> := map[];
    for i := 0 to |matches|
      invariant forall m :: m in matches[..i] ==> EligibleMatch(byId, m)
      invariant forall funder :: Group(grouped, funder) == MatchesOf(matches[..i], funder)
    {
      var m := matches[i];
      var funder := FunderOf(m);
      if funder !in byId || !byId[funder].eligible {
        assert m in matches && !EligibleMatch(byId, m);
        return Err(IneligiblePrecedent);
      }
      ghost var before := grouped;
      grouped := grouped[funder := Group(grouped, funder) + [m]];
      forall f
        ensures Group(grouped, f) == MatchesOf(matches[..i + 1], f)
      {
        MatchesOfGrow(matches, i, f);
        assert Group(before, f) == MatchesOf(matches[..i], f);
      }
      assert matches[..i + 1] == matches[..i] + [m];
    }
    assert matches[..|matches|] == matches;
    return Ok(grouped);
  }

  method IndexById(results: seq<FunderEligibility>) returns (byId: map<FunderId, FunderEligibility>)
    ensures byId == ById(results)
  {
    byId := map[];
    for i := 0 to |results|
      invariant byId == ById(results[..i])
    {
      byId := byId[results[i].funderId := results[i]];
      assert results[..i + 1][..i] == results[..i];
    }
    assert results[..|results|] == results;
  }

  lemma CalculationClaimsGrow(app: AppId, hash: Option<string>, results: seq<FunderEligibility>, i: nat)
    requires i < |results|
    ensures CalculationClaims(app, hash, results[..i + 1])
         == CalculationClaims(app, hash, results[..i]) + CheckClaims(app, hash, results[i])
  {
    assert results[..i + 1][..i] == results[..i];
  }

  lemma CheckClaimsAppended(
    cited: seq<GroundedClaim>, app: AppId, hash: Option<string>, results: seq<FunderEligibility>, i: nat)
    requires i < |results|
    ensures cited + CalculationClaims(app, hash, results[..i + 1])
         == (cited + CalculationClaims(app, hash, results[..i])) + CheckClaims(app, hash, results[i])
  {
    CalculationClaimsGrow(app, hash, results, i);
    var before, next := CalculationClaims(app, hash, results[..i]), CheckClaims(app, hash, results[i]);
    assert cited + (before + next) == (cited + before) + next;
  }

  /** The inner loop over one funder's checks. */
  method AppendCheckClaims(before: seq<GroundedClaim>, app: AppId, hash: Option<string>, e: FunderEligibility)
    returns (claims: seq<GroundedClaim>)
    ensures claims == before + CheckClaims(app, hash, e)
  {
    claims := before;
    for j := 0 to |e.checks|
      invariant claims == before + CheckClaims(app, hash, e)[..j]
    {
      claims := claims + [GroundedClaim(app, Calculation(e.funderId, e.checks[j]), hash)];
    }
  }

  /** The loop over the matches. */
  method AppendPrecedentClaims(
    before: seq<GroundedClaim>, app: AppId, hash: Option<string>, matches: seq<PrecedentMatch>)
    returns (claims: seq<GroundedClaim>)
    ensures claims == before + PrecedentClaims(app, hash, matches)
  {
    claims := before;
    for i := 0 to |matches|
      invariant claims == before + PrecedentClaims(app, hash, matches)[..i]
    {
      claims := claims + [GroundedClaim(app, CitedPrecedent(matches[i].precedent.caseId), hash)];
    }
  }

  method BuildClaims(
    application: BorrowerApplication, hash: Option<string>, retrieval: RetrievalResult)
    returns (claims: seq<GroundedClaim>)
    ensures claims == Claims(application, hash, retrieval)
  {
    var app := application.applicationId;
    claims := [];
    for i := 0 to |application.evidence|
      invariant claims == EvidenceClaims(app, hash, application.evidence)[..i]
    {
      claims := claims + [GroundedClaim(app, CitedEvidence(application.evidence[i].citation), hash)];
    }
    ghost var cited := claims;
    for i := 0 to |retrieval.eligibility|
      invariant claims == cited + CalculationClaims(app, hash, retrieval.eligibility[..i])
    {
      claims := AppendCheckClaims(claims, app, hash, retrieval.eligibility[i]);
      CheckClaimsAppended(cited, app, hash, retrieval.eligibility, i);
    }
    assert retrieval.eligibility[..|retrieval.eligibility|] == retrieval.eligibility;
    claims := AppendPrecedentClaims(claims, app, hash, retrieval.matches);
  }

  lemma {:induction false} PolicyErrorStays(
    policies: seq<FunderPolicy>, n: nat, byId: map<FunderId, FunderEligibility>, matches: seq<PrecedentMatch>)
    requires n <= |policies| && Covered(policies, byId) && PolicyError(policies[..n], byId, matches).Some?
    ensures PolicyError(policies, byId, matches) == PolicyError(policies[..n], byId, matches)
    decreases |policies| - n
  {
    if n == |policies| {
      assert policies[..n] == policies;
    } else {
      assert policies[..n + 1][..n] == policies[..n];
      PolicyErrorStays(policies, n + 1, byId, matches);
    }
  }

  /** The loop over the policies: candidates and exclusions, or the first of them that does not validate. */
  method SortPolicies(
    policies: seq<FunderPolicy>, byId: map<FunderId, FunderEligibility>, groups: map<FunderId, seq<PrecedentMatch>>,
    ghost matches: seq<PrecedentMatch>)
    returns (candidates: seq<AdvisoryCandidate>, excluded: seq<ExcludedFunder>, error: Option<AssembleError>)
    requires Covered(policies, byId) && forall funder :: Group(groups, funder) == MatchesOf(matches, funder)
    ensures error == PolicyError(policies, byId, matches)
    ensures error.None? ==> candidates == Candidates(policies, byId, matches) && excluded == Exclusions(policies, byId)
  {
    candidates, excluded := [], [];
    for i := 0 to |policies|
      invariant candidates == Candidates(policies[..i], byId, matches)
      invariant excluded == Exclusions(policies[..i], byId)
      invariant PolicyError(policies[..i], byId, matches) == None
    {
      var policy := policies[i];
      var e := byId[policy.funderId];
      assert policies[..i + 1][..i] == policies[..i];
      if !e.eligible {
        var exclusion := ExclusionOf(policy, e);
        if !ValidExclusion(exclusion) {
          PolicyErrorStays(policies, i + 1, byId, matches);
          return candidates, excluded, Some(InvalidExclusion);
        }
        excluded := excluded + [exclusion];
      } else {
        var own := Group(groups, policy.funderId);
        var candidate := AdvisoryCandidate(policy.funderId, policy.displayName, e.checks, own, own == []);
        if !ValidCandidate(candidate) {
          PolicyErrorStays(policies, i + 1, byId, matches);
          return candidates, excluded, Some(InvalidCandidate);
        }
        candidates := candidates + [candidate];
      }
    }
    assert policies[..|policies|] == policies;
    error := None;
  }

  method Assemble(
    hash: Option<string>, application: BorrowerApplication, policies: seq<FunderPolicy>, retrieval: RetrievalResult)
    returns (result: Result<SuggestionBundle, AssembleError>)
    ensures result == Assembled(hash, application, policies, retrieval)
  {
    if retrieval.applicationId != application.applicationId {
      return Err(OtherApplication);
    }
    if !Distinct(PolicyIds(policies)) {
      return Err(DuplicatePolicies);
    }
    var byId := IndexById(retrieval.eligibility);
    if byId.Keys != (set id | id in PolicyIds(policies)) {
      return Err(NotCovered);
    }
    CoveredByIds(policies, byId);
    var groups := GroupByFunder(byId, retrieval.matches);
    if groups.Err? {
      return Err(groups.error);
    }
    var candidates, excluded, error := SortPolicies(policies, byId, groups.value, retrieval.matches);
    if error.Some? {
      return Err(error.value);
    }
    var claims := BuildClaims(application, hash, retrieval);
    if |claims| > CLAIM_CAP {
      return Err(TooManyClaims);
    }
    return Ok(SuggestionBundle(application, candidates, excluded, claims));
  }

  // ---- what assembly conserves ----

  /** Funders of candidates and exclusions, in policy order. */
  function CandidateIds(candidates: seq<AdvisoryCandidate>): (ids: seq<FunderId>)
    ensures |ids| == |candidates|
    ensures forall i :: 0 <= i < |candidates| ==> ids[i] == candidates[i].funderId
  {
    seq(|candidates|, i requires 0 <= i < |candidates| => candidates[i].funderId)
  }

  function ExcludedIds(excluded: seq<ExcludedFunder>): (ids: seq<FunderId>)
    ensures |ids| == |excluded|
    ensures forall i :: 0 <= i < |excluded| ==> ids[i] == excluded[i].funderId
  {
    seq(|excluded|, i requires 0 <= i < |excluded| => excluded[i].funderId)
  }

  /** The identifiers of the policies whose eligibility is as given, in order. */
  function IdsWhere(policies: seq<FunderPolicy>, byId: map<FunderId, FunderEligibility>, eligible: bool): seq<FunderId>
    requires Covered(policies, byId)
  {
    if policies == [] then []
    else
      var last := policies[|policies| - 1];
      IdsWhere(policies[..|policies| - 1], byId, eligible) +
      if byId[last.funderId].eligible == eligible then [last.funderId] else []
  }

  lemma {:induction false} CandidatesInOrder(
    policies: seq<FunderPolicy>, byId: map<FunderId, FunderEligibility>, matches: seq<PrecedentMatch>)
    requires Covered(policies, byId)
    ensures CandidateIds(Candidates(policies, byId, matches)) == IdsWhere(policies, byId, true)
  {
    if policies != [] {
      var earlier, last := policies[..|policies| - 1], policies[|policies| - 1];
      CandidatesInOrder(earlier, byId, matches);
      var before, after := Candidates(earlier, byId, matches), Candidates(policies, byId, matches);
      assert CandidateIds(after) == CandidateIds(before) + if byId[last.funderId].eligible then [last.funderId] else [];
    }
  }

  lemma {:induction false} ExclusionsInOrder(policies: seq<FunderPolicy>, byId: map<FunderId, FunderEligibility>)
    requires Covered(policies, byId)
    ensures ExcludedIds(Exclusions(policies, byId)) == IdsWhere(policies, byId, false)
  {
    if policies != [] {
      var earlier, last := policies[..|policies| - 1], policies[|policies| - 1];
      ExclusionsInOrder(earlier, byId);
      var before, after := Exclusions(earlier, byId), Exclusions(policies, byId);
      assert ExcludedIds(after) == ExcludedIds(before) + if byId[last.funderId].eligible then [] else [last.funderId];
    }
  }

  lemma {:induction false} IdsAreSplit(policies: seq<FunderPolicy>, byId: map<FunderId, FunderEligibility>)
    requires Covered(policies, byId)
    ensures multiset(IdsWhere(policies, byId, true)) + multiset(IdsWhere(policies, byId, false))
        == multiset(PolicyIds(policies))
  {
    if policies != [] {
      var earlier, last := policies[..|policies| - 1], policies[|policies| - 1];
      IdsAreSplit(earlier, byId);
      assert PolicyIds(policies) == PolicyIds(earlier) + [last.funderId];
    }
  }

  /**
   * Candidates are the eligible policies and exclusions the others, both in policy order;
   * together they are all policies, once each.
   */
  lemma PoliciesArePartitioned(
    hash: Option<string>, application: BorrowerApplication, policies: seq<FunderPolicy>, retrieval: RetrievalResult)
    requires Assembled(hash, application, policies, retrieval).Ok?
    ensures Covered(policies, ById(retrieval.eligibility))
    ensures var bundle, byId := Assembled(hash, application, policies, retrieval).value, ById(retrieval.eligibility);
            && CandidateIds(bundle.candidates) == IdsWhere(policies, byId, true)
            && ExcludedIds(bundle.excluded) == IdsWhere(policies, byId, false)
            && multiset(CandidateIds(bundle.candidates)) + multiset(ExcludedIds(bundle.excluded))
                 == multiset(PolicyIds(policies))
  {
    var byId := ById(retrieval.eligibility);
    CoveredByIds(policies, byId);
    CandidatesInOrder(policies, byId, retrieval.matches);
    ExclusionsInOrder(policies, byId);
    IdsAreSplit(policies, byId);
  }

  /** All matches shown, candidate by candidate. */
  function Shown(candidates: seq<AdvisoryCandidate>): seq<PrecedentMatch> {
    if candidates == [] then [] else Shown(candidates[..|candidates| - 1]) + candidates[|candidates| - 1].precedents
  }

  /** How often a match belongs to the funders listed. */
  lemma {:induction false} MatchesOfCounts(matches: seq<PrecedentMatch>, funder: FunderId, m: PrecedentMatch)
    ensures multiset(MatchesOf(matches, funder))[m] == if FunderOf(m) == funder then multiset(matches)[m] else 0
  {
    if matches != [] {
      var earlier, last := matches[..|matches| - 1], matches[|matches| - 1];
      MatchesOfCounts(earlier, funder, m);
      assert matches == earlier + [last];
    }
  }

  lemma {:induction false} IdsWhereAre(
    policies: seq<FunderPolicy>, byId: map<FunderId, FunderEligibility>, eligible: bool, id: FunderId)
    requires Covered(policies, byId)
    ensures id in IdsWhere(policies, byId, eligible)
        <==> id in PolicyIds(policies) && id in byId && byId[id].eligible == eligible
  {
    if policies != [] {
      var earlier, last := policies[..|policies| - 1], policies[|policies| - 1];
      IdsWhereAre(earlier, byId, eligible, id);
      assert PolicyIds(policies) == PolicyIds(earlier) + [last.funderId];
    }
  }

  lemma DistinctIdsBefore(policies: seq<FunderPolicy>)
    requires policies != [] && Distinct(PolicyIds(policies))
    ensures var earlier, last := policies[..|policies| - 1], policies[|policies| - 1];
            Distinct(PolicyIds(earlier)) && last.funderId !in PolicyIds(earlier)
  {
    var n := |policies| - 1;
    var ids := PolicyIds(policies);
    DistinctPrefix(ids, n);
    assert PolicyIds(policies[..n]) == ids[..n];
    assert ids[n] == policies[n].funderId;
  }

  lemma ShownGrows(candidates: seq<AdvisoryCandidate>, c: AdvisoryCandidate)
    ensures Shown(candidates + [c]) == Shown(candidates) + c.precedents
  {
    assert (candidates + [c])[..|candidates|] == candidates;
  }

  lemma CandidatesGrow(
    policies: seq<FunderPolicy>, byId: map<FunderId, FunderEligibility>, matches: seq<PrecedentMatch>)
    requires Covered(policies, byId) && policies != []
    ensures var earlier, last := policies[..|policies| - 1], policies[|policies| - 1];
            && Covered(earlier, byId) && last.funderId in byId
            && IdsWhere(policies, byId, true)
                 == IdsWhere(earlier, byId, true) + (if byId[last.funderId].eligible then [last.funderId] else [])
            && Candidates(policies, byId, matches) == Candidates(earlier, byId, matches)
                 + (if byId[last.funderId].eligible then [CandidateOf(last, byId[last.funderId], matches)] else [])
  {
  }

  /** A match is shown as often as it was retrieved if its funder is a candidate, and not at all otherwise. */
  lemma {:induction false} ShownCounts(
    policies: seq<FunderPolicy>, byId: map<FunderId, FunderEligibility>, matches: seq<PrecedentMatch>,
    m: PrecedentMatch)
    requires Covered(policies, byId) && Distinct(PolicyIds(policies))
    ensures multiset(Shown(Candidates(policies, byId, matches)))[m]
         == if FunderOf(m) in IdsWhere(policies, byId, true) then multiset(matches)[m] else 0
  {
    if policies != [] {
      var earlier, last := policies[..|policies| - 1], policies[|policies| - 1];
      DistinctIdsBefore(policies);
      ShownCounts(earlier, byId, matches, m);
      CandidatesGrow(policies, byId, matches);
      if byId[last.funderId].eligible {
        IdsWhereAre(earlier, byId, true, last.funderId);
        CandidateShows(Candidates(earlier, byId, matches), CandidateOf(last, byId[last.funderId], matches), matches, m);
      } else {
        assert IdsWhere(policies, byId, true) == IdsWhere(earlier, byId, true);
        assert Candidates(policies, byId, matches) == Candidates(earlier, byId, matches);
      }
    }
  }

  lemma CandidateShows(
    before: seq<AdvisoryCandidate>, c: AdvisoryCandidate, matches: seq<PrecedentMatch>, m: PrecedentMatch)
    requires c.precedents == MatchesOf(matches, c.funderId)
    ensures multiset(Shown(before + [c]))[m]
         == multiset(Shown(before))[m] + if FunderOf(m) == c.funderId then multiset(matches)[m] else 0
  {
    ShownGrows(before, c);
    assert multiset(Shown(before) + c.precedents) == multiset(Shown(before)) + multiset(c.precedents);
    MatchesOfCounts(matches, c.funderId, m);
  }

  lemma SameCounts(a: multiset<PrecedentMatch>, b: multiset<PrecedentMatch>)
    requires forall m :: a[m] == b[m]
    ensures a == b
  {
  }

  lemma MatchIsShown(
    policies: seq<FunderPolicy>, byId: map<FunderId, FunderEligibility>, matches: seq<PrecedentMatch>,
    m: PrecedentMatch)
    requires Covered(policies, byId) && Distinct(PolicyIds(policies)) && byId.Keys == set id | id in PolicyIds(policies)
    requires m in matches ==> EligibleMatch(byId, m)
    ensures multiset(Shown(Candidates(policies, byId, matches)))[m] == multiset(matches)[m]
  {
    ShownCounts(policies, byId, matches, m);
    if m in matches {
      assert FunderOf(m) in byId.Keys;
      IdsWhereAre(policies, byId, true, FunderOf(m));
    }
  }

  /** Every match is shown exactly once, under its own funder and in rank order there. */
  lemma MatchesAreConserved(
    hash: Option<string>, application: BorrowerApplication, policies: seq<FunderPolicy>, retrieval: RetrievalResult)
    requires Assembled(hash, application, policies, retrieval).Ok?
    ensures var bundle := Assembled(hash, application, policies, retrieval).value;
            && multiset(Shown(bundle.candidates)) == multiset(retrieval.matches)
            && forall c :: c in bundle.candidates ==> c.precedents == MatchesOf(retrieval.matches, c.funderId)
  {
    var byId := ById(retrieval.eligibility);
    CoveredByIds(policies, byId);
    forall m: PrecedentMatch
      ensures multiset(Shown(Candidates(policies, byId, retrieval.matches)))[m] == multiset(retrieval.matches)[m]
    {
      MatchIsShown(policies, byId, retrieval.matches, m);
    }
    SameCounts(multiset(Shown(Candidates(policies, byId, retrieval.matches))), multiset(retrieval.matches));
    CandidatesShowTheirMatches(policies, byId, retrieval.matches);
  }

  lemma {:induction false} CandidatesShowTheirMatches(
    policies: seq<FunderPolicy>, byId: map<FunderId, FunderEligibility>, matches: seq<PrecedentMatch>)
    requires Covered(policies, byId)
    ensures forall c :: c in Candidates(policies, byId, matches) ==> c.precedents == MatchesOf(matches, c.funderId)
  {
    if policies != [] {
      CandidatesShowTheirMatches(policies[..|policies| - 1], byId, matches);
    }
  }

  lemma {:induction false} CalculationClaimCount(app: AppId, hash: Option<string>, results: seq<FunderEligibility>)
    requires forall e :: e in results ==> |e.checks| == 8
    ensures |CalculationClaims(app, hash, results)| == 8 * |results|
  {
    if results != [] {
      CalculationClaimCount(app, hash, results[..|results| - 1]);
    }
  }

  // ---- engine and assembler together ----

  predicate FromEngine(application: BorrowerApplication, e: FunderEligibility, p: FunderPolicy) {
    e == Evaluate(application, p)
  }

  /** The entry is the engine's evaluation of one of the policies. */
  predicate Evaluated(
    application: BorrowerApplication, policies: seq<FunderPolicy>, id: FunderId, e: FunderEligibility)
  {
    exists p :: p in policies && p.funderId == id && FromEngine(application, e, p)
  }

  lemma EvaluatedBefore(
    application: BorrowerApplication, policies: seq<FunderPolicy>, id: FunderId, e: FunderEligibility)
    requires policies != [] && Evaluated(application, policies[..|policies| - 1], id, e)
    ensures Evaluated(application, policies, id, e)
  {
    var p :| p in policies[..|policies| - 1] && p.funderId == id && FromEngine(application, e, p);
    assert p in policies;
  }

  /** What the dictionary holds after one more policy. */
  lemma ByIdNext(application: BorrowerApplication, policies: seq<FunderPolicy>)
    requires policies != []
    ensures var earlier, last := policies[..|policies| - 1], policies[|policies| - 1];
            && ById(EvaluateAll(application, policies))
                 == ById(EvaluateAll(application, earlier))[last.funderId := Evaluate(application, last)]
            && PolicyIds(policies) == PolicyIds(earlier) + [last.funderId]
  {
    var results := EvaluateAll(application, policies);
    assert results[..|results| - 1] == EvaluateAll(application, policies[..|policies| - 1]);
  }

  lemma {:induction false} EngineById(application: BorrowerApplication, policies: seq<FunderPolicy>, id: FunderId)
    ensures id in ById(EvaluateAll(application, policies)) <==> id in PolicyIds(policies)
    ensures id in ById(EvaluateAll(application, policies)) ==>
              Evaluated(application, policies, id, ById(EvaluateAll(application, policies))[id])
  {
    if policies != [] {
      var earlier, last := policies[..|policies| - 1], policies[|policies| - 1];
      EngineById(application, earlier, id);
      ByIdNext(application, policies);
      if id == last.funderId {
        assert last in policies && FromEngine(application, Evaluate(application, last), last);
      } else if id in PolicyIds(policies) {
        EvaluatedBefore(application, policies, id, ById(EvaluateAll(application, earlier))[id]);
      }
    }
  }

  /** The dictionary's keys are the policies' identifiers, and its entries the engine's. */
  lemma EngineEntries(
    application: BorrowerApplication, policies: seq<FunderPolicy>, byId: map<FunderId, FunderEligibility>)
    requires byId == ById(EvaluateAll(application, policies))
    ensures byId.Keys == set id | id in PolicyIds(policies)
    ensures forall id :: id in byId ==> Evaluated(application, policies, id, byId[id])
  {
    forall id
      ensures id in byId <==> id in PolicyIds(policies)
      ensures id in byId ==> Evaluated(application, policies, id, byId[id])
    {
      EngineById(application, policies, id);
    }
  }

  lemma {:induction false} FailedChecksAre(checks: seq<RuleCheck>)
    ensures forall check :: check in FailedChecks(checks) <==> check in checks && !check.passed
  {
    if checks != [] {
      var earlier, last := checks[..|checks| - 1], checks[|checks| - 1];
      FailedChecksAre(earlier);
      assert checks == earlier + [last];
    }
  }

  lemma EngineEntryIsValid(
    application: BorrowerApplication, p: FunderPolicy, policy: FunderPolicy, matches: seq<PrecedentMatch>)
    requires p.funderId == policy.funderId
    ensures var e := Evaluate(application, p);
            if e.eligible then ValidCandidate(CandidateOf(policy, e, matches))
            else ValidExclusion(ExclusionOf(policy, e))
  {
    var e := Evaluate(application, p);
    if e.eligible {
      MatchesOfBelong(matches, policy.funderId);
    } else {
      FailedChecksAre(e.checks);
      var check :| check in e.checks && !check.passed;
      assert check in FailedChecks(e.checks);
    }
  }

  lemma {:induction false} MatchesOfBelong(matches: seq<PrecedentMatch>, funder: FunderId)
    ensures forall m :: m in MatchesOf(matches, funder) ==> FunderOf(m) == funder && m in matches
  {
    if matches != [] {
      MatchesOfBelong(matches[..|matches| - 1], funder);
    }
  }

  lemma {:induction false} EngineCausesNoPolicyError(
    application: BorrowerApplication, policies: seq<FunderPolicy>, byId: map<FunderId, FunderEligibility>,
    matches: seq<PrecedentMatch>)
    requires Covered(policies, byId)
    requires forall id :: id in byId ==>
        exists p: FunderPolicy :: p.funderId == id && FromEngine(application, byId[id], p)
    ensures PolicyError(policies, byId, matches) == None
  {
    if policies != [] {
      var last := policies[|policies| - 1];
      EngineCausesNoPolicyError(application, policies[..|policies| - 1], byId, matches);
      assert last.funderId in byId;
      var p: FunderPolicy :| p.funderId == last.funderId && FromEngine(application, byId[last.funderId], p);
      EngineEntryIsValid(application, p, last, matches);
    }
  }

  lemma ClaimCount(
    application: BorrowerApplication, hash: Option<string>, policies: seq<FunderPolicy>, retrieval: RetrievalResult)
    requires retrieval.eligibility == EvaluateAll(application, policies)
    ensures |Claims(application, hash, retrieval)| == |application.evidence| + 8 * |policies| + |retrieval.matches|
  {
    CalculationClaimCount(application.applicationId, hash, retrieval.eligibility);
  }

  /**
   * On the engine's own results and matches of eligible funders only, assembly fails for
   * no other reason than the cap on claims, of which there is one per piece of evidence,
   * eight per policy and one per match.
   */
  lemma EngineAndAssemblerCompose(
    hash: Option<string>, application: BorrowerApplication, policies: seq<FunderPolicy>, retrieval: RetrievalResult)
    requires retrieval.applicationId == application.applicationId
    requires Distinct(PolicyIds(policies)) && retrieval.eligibility == EvaluateAll(application, policies)
    requires forall m :: m in retrieval.matches ==>
        exists p :: p in policies && p.funderId == FunderOf(m) && Evaluate(application, p).eligible
    ensures Assembled(hash, application, policies, retrieval).Ok?
       <==> |application.evidence| + 8 * |policies| + |retrieval.matches| <= CLAIM_CAP
    ensures Assembled(hash, application, policies, retrieval).Ok? ==>
              |Assembled(hash, application, policies, retrieval).value.claims|
                == |application.evidence| + 8 * |policies| + |retrieval.matches|
  {
    var byId := ById(retrieval.eligibility);
    EngineEntries(application, policies, byId);
    CoveredByIds(policies, byId);
    forall m | m in retrieval.matches
      ensures EligibleMatch(byId, m)
    {
      var p :| p in policies && p.funderId == FunderOf(m) && Evaluate(application, p).eligible;
      assert Evaluated(application, policies, FunderOf(m), byId[FunderOf(m)]);
      var q :| q in policies && q.funderId == FunderOf(m) && FromEngine(application, byId[FunderOf(m)], q);
      SameIdSamePolicy(policies, p, q);
    }
    EngineCausesNoPolicyError(application, policies, byId, retrieval.matches);
    ClaimCount(application, hash, policies, retrieval);
  }

  lemma SameIdSamePolicy(policies: seq<FunderPolicy>, p: FunderPolicy, q: FunderPolicy)
    requires Distinct(PolicyIds(policies)) && p in policies && q in policies && p.funderId == q.funderId
    ensures p == q
  {
    var i :| 0 <= i < |policies| && policies[i] == p;
    var j :| 0 <= j < |policies| && policies[j] == q;
    if i != j {
      DistinctAt(PolicyIds(policies), i, j);
    }
  }
}
