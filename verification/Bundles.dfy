/**
 * When a stored advisory bundle parses again, and the masked copy that production keeps
 * of it.
 */
module Bundles {
  import opened Collections
  import opened Wrappers
  import opened MatchingSchema
  import opened Facts
  import opened RulesEngine
  import opened Assembler

  predicate ValidParts(bundle: SuggestionBundle) {
    && (forall c :: c in bundle.candidates ==> ValidCandidate(c))
    && (forall x :: x in bundle.excluded ==> ValidExclusion(x))
    && |bundle.claims| <= CLAIM_CAP
  }

  predicate ValidPartition(bundle: SuggestionBundle) {
    && Distinct(CandidateIds(bundle.candidates))
    && Distinct(ExcludedIds(bundle.excluded))
    && forall id :: id in CandidateIds(bundle.candidates) ==> id !in ExcludedIds(bundle.excluded)
  }

  /** The validators a bundle goes through when it is read back. */
  predicate Parses(bundle: SuggestionBundle) {
    ValidApplication(bundle.application) && ValidParts(bundle) && ValidPartition(bundle)
  }

  lemma {:induction false} NoErrorMeansValid(
    policies: seq<FunderPolicy>, byId: map<FunderId, FunderEligibility>, matches: seq<PrecedentMatch>)
    requires Covered(policies, byId) && PolicyError(policies, byId, matches).None?
    ensures forall c :: c in Candidates(policies, byId, matches) ==> ValidCandidate(c)
    ensures forall x :: x in Exclusions(policies, byId) ==> ValidExclusion(x)
  {
    if policies != [] {
      NoErrorMeansValid(policies[..|policies| - 1], byId, matches);
    }
  }

  lemma {:induction false} IdsWhereAreDistinct(
    policies: seq<FunderPolicy>, byId: map<FunderId, FunderEligibility>, eligible: bool)
    requires Covered(policies, byId) && Distinct(PolicyIds(policies))
    ensures Distinct(IdsWhere(policies, byId, eligible))
  {
    if policies != [] {
      var earlier, last := policies[..|policies| - 1], policies[|policies| - 1];
      DistinctIdsBefore(policies);
      IdsWhereAreDistinct(earlier, byId, eligible);
      IdsWhereAre(earlier, byId, eligible, last.funderId);
      if byId[last.funderId].eligible == eligible {
        DistinctAppend(IdsWhere(earlier, byId, eligible), last.funderId);
      } else {
        assert IdsWhere(policies, byId, eligible) == IdsWhere(earlier, byId, eligible);
      }
    }
  }

  lemma DistinctAppend(s: seq<FunderId>, id: FunderId)
    requires Distinct(s) && id !in s
    ensures Distinct(s + [id])
  {
    forall i, j | 0 <= i < j < |s + [id]|
      ensures Differ(s + [id], i, j)
    {
      if j < |s| {
        assert Differ(s, i, j);
      } else {
        assert s[i] in s;
      }
    }
  }

  /** Whatever the assembler builds for a valid application can be read back. */
  lemma AssembledParses(hash: Option<string>, a: BorrowerApplication, policies: seq<FunderPolicy>, r: RetrievalResult)
    requires ValidApplication(a) && Assembled(hash, a, policies, r).Ok?
    ensures Parses(Assembled(hash, a, policies, r).value)
  {
    var bundle, byId := Assembled(hash, a, policies, r).value, ById(r.eligibility);
    PoliciesArePartitioned(hash, a, policies, r);
    NoErrorMeansValid(policies, byId, r.matches);
    IdsWhereAreDistinct(policies, byId, true);
    IdsWhereAreDistinct(policies, byId, false);
    forall id | id in CandidateIds(bundle.candidates)
      ensures id !in ExcludedIds(bundle.excluded)
    {
      IdsWhereAre(policies, byId, true, id);
      IdsWhereAre(policies, byId, false, id);
    }
  }

  // ---- production ----

  /** How production rewrites the texts of the bundle it stores with the workflow. */
  datatype Masking = Masking(name: AppId -> string, redact: string -> string)

  function MaskedApplication(m: Masking, a: BorrowerApplication): BorrowerApplication {
    a.(borrowerName := m.name(a.applicationId), financeContext := m.redact(a.financeContext),
       operationsContext := m.redact(a.operationsContext))
  }

  /** Names and contexts are masked; the evidence is kept as it is. */
  function Masked(m: Masking, bundle: SuggestionBundle): SuggestionBundle {
    bundle.(application := MaskedApplication(m, bundle.application))
  }

  /** The evidence does not cite the borrower's name, or cites just the mask. */
  predicate NameUncited(m: Masking, a: BorrowerApplication) {
    BorrowerMetric in FactsOf(a.evidence) ==> FactsOf(a.evidence)[BorrowerMetric] == Text(m.name(a.applicationId))
  }

  lemma MaskedAgreesExactly(m: Masking, a: BorrowerApplication)
    requires Agrees(a, FactsOf(a.evidence))
    ensures Agrees(MaskedApplication(m, a), FactsOf(a.evidence)) <==> NameUncited(m, a)
  {
    var facts, masked := FactsOf(a.evidence), MaskedApplication(m, a);
    forall metric | metric in facts && metric != BorrowerMetric
      ensures SameFact(ExpectedFact(masked, metric), facts[metric])
    {
      assert ExpectedFact(masked, metric) == ExpectedFact(a, metric);
    }
    if BorrowerMetric in facts {
      assert SameFact(ExpectedFact(a, BorrowerMetric), facts[BorrowerMetric]);
    }
  }

  /** A masked bundle can be read back exactly when its evidence does not cite another borrower's name than the mask. */
  lemma MaskedParsesExactly(m: Masking, bundle: SuggestionBundle)
    requires Parses(bundle) && ValidTexts(MaskedApplication(m, bundle.application))
    ensures Parses(Masked(m, bundle)) <==> NameUncited(m, bundle.application)
  {
    var masked := Masked(m, bundle);
    MaskedAgreesExactly(m, bundle.application);
    assert ValidParts(masked) && ValidPartition(masked);
  }

  /**
   * The financial worker always cites the name it extracted, so the bundle production
   * stores for its application can be read back exactly when the borrower happens to be
   * called like its mask.
   */
  lemma ProductionBundleParsesExactly(
    m: Masking, hash: Option<string>, md: Metadata, evidence: seq<EvidenceMetric>, a: BorrowerApplication,
    policies: seq<FunderPolicy>, r: RetrievalResult)
    requires AllFacts(evidence) && FormApplication(md, evidence) == Some(a)
    requires ValidTexts(MaskedApplication(m, a)) && Assembled(hash, a, policies, r).Ok?
    ensures Parses(Masked(m, Assembled(hash, a, policies, r).value)) <==> a.borrowerName == m.name(a.applicationId)
  {
    AssembledParses(hash, a, policies, r);
    MaskedParsesExactly(m, Assembled(hash, a, policies, r).value);
    NameIsCited(md, evidence, a);
  }

  lemma NameIsCited(md: Metadata, evidence: seq<EvidenceMetric>, a: BorrowerApplication)
    requires AllFacts(evidence) && FormedFrom(md, evidence, a)
    ensures BorrowerMetric in FactsOf(a.evidence) && FactsOf(a.evidence)[BorrowerMetric] == Text(a.borrowerName)
  {
    ExtractedFactsAre(evidence, BorrowerMetric);
  }
}
