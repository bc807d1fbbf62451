/**
 * Fail-closed validation before the human-review handoff, and when it accepts what the
 * graph, the rules engine, the retriever and the assembler produced.
 */
module Guardrails {
  import opened Collections
  import opened Wrappers
  import opened MatchingSchema
  import opened WorkflowSchema
  import opened AgentSchema
  import opened Decimals
  import opened Facts
  import opened AgentGraph
  import opened GraphInvariants
  import opened RulesEngine
  import opened Assembler
  import opened Ranking
  import opened Retrieval

  datatype Guard = Guard(policyHash: Option<string>, verifierSecret: Option<string>,
    policies: map<WorkerName, ExecutionPolicy>)

  /** What the lookup of the retrieved precedents in the store says. */
  datatype Resolution = NoResolver | Unavailable | Answered(resolved: bool)

  function Terminal(code: string): Option<WorkerFailure> {
    Some(WorkerFailure(code, false, false))
  }

  function Attention(code: string): Option<WorkerFailure> {
    Some(WorkerFailure(code, true, true))
  }

  // ---- receipts ----

  function ReceiptFailure(g: Guard, secret: string, r: WorkerReceipt): Option<WorkerFailure> {
    if r.payload.policyHash != g.policyHash || r.signature.None? then Terminal("worker_receipt_invalid")
    else if r.signature != Some(Hmac(secret, r.payload)) then Terminal("worker_receipt_invalid")
    else if r.payload.worker !in g.policies then Terminal("worker_policy_missing")
    else
      var policy := g.policies[r.payload.worker];
      if r.payload.attempt > policy.maxAttempts || |r.payload.toolCalls| > policy.maxCalls
         || (exists t :: t in r.payload.toolCalls && t !in policy.permittedTools)
         || r.payload.latency > policy.deadline
      then Terminal("worker_policy_violation")
      else None
  }

  function FirstReceiptFailure(g: Guard, secret: string, receipts: seq<WorkerReceipt>): Option<WorkerFailure> {
    if receipts == [] then None
    else if ReceiptFailure(g, secret, receipts[0]).Some? then ReceiptFailure(g, secret, receipts[0])
    else FirstReceiptFailure(g, secret, receipts[1..])
  }

  function ReceiptsFailure(g: Guard, receipts: seq<WorkerReceipt>): Option<WorkerFailure> {
    if g.policyHash.None? then None
    else if g.verifierSecret.None? then Terminal("receipt_verifier_missing")
    else FirstReceiptFailure(g, g.verifierSecret.value, receipts)
  }

  lemma {:induction false} NoReceiptFails(g: Guard, secret: string, receipts: seq<WorkerReceipt>)
    ensures FirstReceiptFailure(g, secret, receipts).None? <==> forall r :: r in receipts ==>
        ReceiptFailure(g, secret, r).None?
  {
    if receipts != [] {
      NoReceiptFails(g, secret, receipts[1..]);
      assert forall r :: r in receipts <==> r == receipts[0] || r in receipts[1..];
    }
  }

  /** The guard checks with what the graph issues with. */
  predicate SamePolicy(g: Guard, cfg: GraphConfig) {
    g.policyHash == cfg.policyHash && g.policies == cfg.policies && g.verifierSecret == cfg.signingSecret
  }

  /** The worker has an execution policy, and its step took no longer than that gives its body. */
  predicate InTime(cfg: GraphConfig, p: ReceiptPayload) {
    p.worker in cfg.policies && p.latency <= cfg.policies[p.worker].deadline
  }

  lemma IssuedReceiptPasses(g: Guard, cfg: GraphConfig, s: ThreadState, secret: string, r: WorkerReceipt)
    requires SamePolicy(g, cfg) && cfg.signingSecret == Some(secret) && ReceiptOk(cfg, s, r)
    ensures ReceiptFailure(g, secret, r).None? <==> InTime(cfg, r.payload)
  {
    assert WithinPolicy(cfg, r.payload);
  }

  /**
   * Every receipt the graph issues passes the guard's own re-check of hash, signature,
   * attempts, call count and tools. Only a missing verifier, a worker without an
   * execution policy, or a step longer than the deadline can fail it: the deadline is
   * enforced on the body, the receipt tells the duration of the whole step.
   */
  lemma IssuedReceiptsPassExactly(g: Guard, cfg: GraphConfig, s: ThreadState)
    requires SamePolicy(g, cfg) && ReceiptsOk(cfg, s)
    ensures ReceiptsFailure(g, s.receipts).None? <==>
              || cfg.policyHash.None?
              || (cfg.signingSecret.Some? && forall r :: r in s.receipts ==> InTime(cfg, r.payload))
  {
    if cfg.policyHash.Some? && cfg.signingSecret.Some? {
      var secret := cfg.signingSecret.value;
      NoReceiptFails(g, secret, s.receipts);
      forall r | r in s.receipts
        ensures ReceiptFailure(g, secret, r).None? <==> InTime(cfg, r.payload)
      {
        assert ReceiptOk(cfg, s, r);
        IssuedReceiptPasses(g, cfg, s, secret, r);
      }
    }
  }

  // ---- contents ----

  predicate ValidGeometry(c: Citation) {
    c.pageNumber >= 1 && c.bbox.x1 > c.bbox.x0 && c.bbox.y1 > c.bbox.y0
  }

  /** The guard compares texts: the cited one with that of the profile. */
  predicate Contradicts(a: BorrowerApplication, e: EvidenceReference) {
    e.value != FactText(ExpectedFact(a, e.metric))
  }

  function EligibleIds(s: ThreadState): set<FunderId> {
    set e | e in s.eligibility && e.eligible :: e.funderId
  }

  function CaseIds(matches: seq<PrecedentMatch>): set<CaseId> {
    set m | m in matches :: m.precedent.caseId
  }

  function EvidenceCitations(evidence: seq<EvidenceReference>): set<Citation> {
    set e | e in evidence :: e.citation
  }

  function OwnershipFailure(
    s: ThreadState, a: BorrowerApplication, r: RetrievalResult, b: SuggestionBundle): Option<WorkerFailure>
  {
    if a.applicationId != s.applicationId then Terminal("cross_application_artifact")
    else if r.applicationId != s.applicationId then Terminal("cross_application_retrieval")
    else if b.application.applicationId != s.applicationId then Terminal("cross_application_suggestion")
    else None
  }

  function EvidenceFailure(s: ThreadState, a: BorrowerApplication): Option<WorkerFailure> {
    if s.evidence == [] then Attention("missing_evidence")
    else if exists e :: e in s.evidence && e.citation.documentId !in s.documents then
      Terminal("cross_application_evidence")
    else if exists e :: e in s.evidence && !ValidGeometry(e.citation) then Attention("invalid_citation_geometry")
    else if exists e :: e in s.evidence && Contradicts(a, e) then Attention("unsupported_numeric_claim")
    else None
  }

  function EligibleOnlyFailure(s: ThreadState, r: RetrievalResult, b: SuggestionBundle): Option<WorkerFailure> {
    if (exists m :: m in r.matches && FunderOf(m) !in EligibleIds(s))
      || (exists c :: c in b.candidates && c.funderId !in EligibleIds(s))
    then Terminal("ineligible_funder_leakage")
    else None
  }

  function PrecedentFailure(r: RetrievalResult, resolution: Resolution): Option<WorkerFailure> {
    if r.matches == [] then None
    else
      match resolution
      case NoResolver => Attention("precedent_receipt_unverified")
      case Unavailable => Some(WorkerFailure("qdrant_verification_unavailable", true, false))
      case Answered(resolved) => if resolved then None else Attention("precedent_receipt_unverified")
  }

  function ClaimFailure(g: Guard, s: ThreadState, r: RetrievalResult, claim: GroundedClaim): Option<WorkerFailure> {
    if claim.applicationId != s.applicationId then Terminal("cross_application_claim")
    else if g.policyHash.Some? && claim.policyHash != g.policyHash then Terminal("claim_policy_mismatch")
    else
      match claim.source
      case CitedEvidence(citation) => if citation in EvidenceCitations(s.evidence) then None
        else Attention("unsupported_output_claim")
      case CitedPrecedent(caseId) => if caseId in CaseIds(r.matches) then None
        else Attention("unsupported_output_claim")
      case Calculation(_, _) => None
  }

  function FirstClaimFailure(
    g: Guard, s: ThreadState, r: RetrievalResult, claims: seq<GroundedClaim>): Option<WorkerFailure>
  {
    if claims == [] then None
    else if ClaimFailure(g, s, r, claims[0]).Some? then ClaimFailure(g, s, r, claims[0])
    else FirstClaimFailure(g, s, r, claims[1..])
  }

  function ClaimsFailure(g: Guard, s: ThreadState, r: RetrievalResult, b: SuggestionBundle): Option<WorkerFailure> {
    if g.policyHash.Some? && b.claims == [] then Attention("missing_claim_ledger")
    else FirstClaimFailure(g, s, r, b.claims)
  }

  function OrElse(first: Option<WorkerFailure>, second: Option<WorkerFailure>): Option<WorkerFailure> {
    if first.Some? then first else second
  }

  /** The first failure in the order the checks are made, or None when the worker passes. */
  function Verdict(
    g: Guard, s: ThreadState, a: BorrowerApplication, r: RetrievalResult, b: SuggestionBundle,
    resolution: Resolution): Option<WorkerFailure>
  {
    OrElse(ReceiptsFailure(g, s.receipts),
      OrElse(OwnershipFailure(s, a, r, b),
        OrElse(EvidenceFailure(s, a),
          OrElse(EligibleOnlyFailure(s, r, b),
            OrElse(PrecedentFailure(r, resolution), ClaimsFailure(g, s, r, b))))))
  }

  lemma {:induction false} NoClaimFails(g: Guard, s: ThreadState, r: RetrievalResult, claims: seq<GroundedClaim>)
    requires forall claim :: claim in claims ==> ClaimFailure(g, s, r, claim).None?
    ensures FirstClaimFailure(g, s, r, claims).None?
  {
    if claims != [] {
      assert claims[0] in claims;
      NoClaimFails(g, s, r, claims[1..]);
    }
  }

  // ---- what the earlier workers leave in the checkpoint ----

  function ReferenceTo(m: EvidenceMetric): EvidenceReference {
    EvidenceReference(m.name, FactText(m.value), m.citation)
  }

  function EvidenceReferences(evidence: seq<EvidenceMetric>): (refs: seq<EvidenceReference>)
    ensures |refs| == |evidence|
    ensures forall i :: 0 <= i < |evidence| ==> refs[i] == ReferenceTo(evidence[i])
  {
    seq(|evidence|, i requires 0 <= i < |evidence| => ReferenceTo(evidence[i]))
  }

  function EligibilityReferences(results: seq<FunderEligibility>): (refs: seq<EligibilityReference>)
    ensures |refs| == |results|
    ensures forall i :: 0 <= i < |results| ==> refs[i] == EligibilityReference(results[i].funderId, results[i].eligible)
  {
    seq(|results|, i requires 0 <= i < |results| => EligibilityReference(results[i].funderId, results[i].eligible))
  }

  /** The checkpoint as the workers before the guardrails leave it for this application. */
  predicate Prepared(s: ThreadState, a: BorrowerApplication, results: seq<FunderEligibility>) {
    && s.applicationId == a.applicationId
    && s.evidence == EvidenceReferences(a.evidence)
    && s.eligibility == EligibilityReferences(results)
    && forall e :: e in a.evidence ==> e.citation.documentId in s.documents
  }

  predicate GeometryHolds(a: BorrowerApplication) {
    forall e :: e in a.evidence ==> ValidGeometry(e.citation)
  }

  /** Every cited fact has the text the profile has for it. */
  predicate TextsAgree(a: BorrowerApplication) {
    forall e :: e in a.evidence ==> TextAgrees(a, e)
  }

  predicate TextAgrees(a: BorrowerApplication, e: EvidenceMetric) {
    FactText(e.value) == FactText(ExpectedFact(a, e.name))
  }

  lemma ReferenceOf(s: ThreadState, a: BorrowerApplication, e: EvidenceReference)
    requires s.evidence == EvidenceReferences(a.evidence)
    ensures e in s.evidence <==> exists m :: m in a.evidence && e == ReferenceTo(m)
  {
    if e in s.evidence {
      var i :| 0 <= i < |s.evidence| && s.evidence[i] == e;
      assert a.evidence[i] in a.evidence;
    }
    if exists m :: m in a.evidence && e == ReferenceTo(m) {
      var m :| m in a.evidence && e == ReferenceTo(m);
      var i :| 0 <= i < |a.evidence| && a.evidence[i] == m;
      assert s.evidence[i] == e;
    }
  }

  lemma EvidencePassesExactly(s: ThreadState, a: BorrowerApplication, results: seq<FunderEligibility>)
    requires a.evidence != [] && Prepared(s, a, results)
    ensures EvidenceFailure(s, a).None? <==> GeometryHolds(a) && TextsAgree(a)
  {
    forall e | e in s.evidence
      ensures e.citation.documentId in s.documents
    {
      ReferenceOf(s, a, e);
    }
    if EvidenceFailure(s, a).None? {
      forall m | m in a.evidence
        ensures ValidGeometry(m.citation) && TextAgrees(a, m)
      {
        ReferenceOf(s, a, ReferenceTo(m));
        assert !Contradicts(a, ReferenceTo(m));
      }
    } else {
      var e :| e in s.evidence && (!ValidGeometry(e.citation) || Contradicts(a, e));
      ReferenceOf(s, a, e);
    }
  }

  // ---- texts of worker-formed applications ----

  /** What the guard needs of the texts: years and headcount were extracted as plain integers. */
  predicate PlainIntegers(evidence: seq<EvidenceMetric>)
    requires AllFacts(evidence)
  {
    NumberOf(evidence, YearsMetric).Plain() && NumberOf(evidence, HeadcountMetric).Plain()
  }

  lemma ListedIsFact(evidence: seq<EvidenceMetric>, e: EvidenceMetric)
    requires AllFacts(evidence) && e in evidence
    ensures FactOf(evidence, e.name) == e.value
  {
    var i :| 0 <= i < |evidence| && evidence[i] == e;
    PlaceOfListed(i);
  }

  /** Between a fact and its profile field only the count of an extracted number can differ in text. */
  lemma FactTextsAgreeExactly(md: Metadata, evidence: seq<EvidenceMetric>, a: BorrowerApplication, m: Metric)
    requires AllFacts(evidence) && FormedFrom(md, evidence, a)
    ensures FactText(FactOf(evidence, m)) == FactText(ExpectedFact(a, m))
        <==> (IsCount(m) ==> NumberOf(evidence, m).Plain())
  {
    if IsCount(m) {
      var n := CountFact(md, evidence, a, m);
      CountTextsAgreeExactly(NumberOf(evidence, m), n);
    } else {
      OtherFactsAgree(md, evidence, a, m);
    }
  }

  lemma CountTextsAgreeExactly(d: Decimal, n: nat)
    requires d.Integral() == Some(n)
    ensures FactText(Number(d)) == FactText(Number(FromInt(n))) <==> d.Plain()
  {
    PrintsAsIntegerExactly(d, n);
  }

  lemma TextAgreesExactly(md: Metadata, evidence: seq<EvidenceMetric>, a: BorrowerApplication, e: EvidenceMetric)
    requires AllFacts(evidence) && FormedFrom(md, evidence, a) && e in evidence
    ensures TextAgrees(a, e) <==> (IsCount(e.name) ==> NumberOf(evidence, e.name).Plain())
  {
    ListedIsFact(evidence, e);
    FactTextsAgreeExactly(md, evidence, a, e.name);
  }

  lemma FactIsListed(evidence: seq<EvidenceMetric>, m: Metric)
    requires AllFacts(evidence)
    ensures exists e :: e in evidence && e.name == m
  {
    MetricPlaces(m);
    assert evidence[MetricPlace(m)] in evidence;
  }

  /** For an application the financial worker formed, the texts agree exactly when the counts were plain integers. */
  lemma FormedTextsAgreeExactly(md: Metadata, evidence: seq<EvidenceMetric>, a: BorrowerApplication)
    requires AllFacts(evidence) && FormedFrom(md, evidence, a)
    ensures TextsAgree(a) <==> PlainIntegers(evidence)
  {
    FactIsListed(evidence, YearsMetric);
    FactIsListed(evidence, HeadcountMetric);
    var years :| years in evidence && years.name == YearsMetric;
    var headcount :| headcount in evidence && headcount.name == HeadcountMetric;
    TextAgreesExactly(md, evidence, a, years);
    TextAgreesExactly(md, evidence, a, headcount);
    if PlainIntegers(evidence) {
      forall e | e in a.evidence
        ensures TextAgrees(a, e)
      {
        TextAgreesExactly(md, evidence, a, e);
      }
    }
  }

  lemma EligibleIsListed(s: ThreadState, results: seq<FunderEligibility>, e: FunderEligibility)
    requires s.eligibility == EligibilityReferences(results) && e in results && e.eligible
    ensures e.funderId in EligibleIds(s)
  {
    var i :| 0 <= i < |results| && results[i] == e;
    assert s.eligibility[i] == EligibilityReference(e.funderId, true);
    assert s.eligibility[i] in s.eligibility;
  }

  lemma {:induction false} ByIdIsListed(results: seq<FunderEligibility>, id: FunderId)
    requires id in ById(results)
    ensures ById(results)[id] in results && ById(results)[id].funderId == id
  {
    if results != [] && results[|results| - 1].funderId != id {
      ByIdIsListed(results[..|results| - 1], id);
    }
  }

  lemma {:induction false} CandidatesAreEligible(
    policies: seq<FunderPolicy>, byId: map<FunderId, FunderEligibility>, matches: seq<PrecedentMatch>)
    requires Covered(policies, byId)
    ensures forall c :: c in Candidates(policies, byId, matches) ==> c.funderId in byId && byId[c.funderId].eligible
  {
    if policies != [] {
      CandidatesAreEligible(policies[..|policies| - 1], byId, matches);
    }
  }

  lemma AssembledIsEligibleOnly(
    s: ThreadState, hash: Option<string>, a: BorrowerApplication, policies: seq<FunderPolicy>, r: RetrievalResult)
    requires s.eligibility == EligibilityReferences(r.eligibility) && Assembled(hash, a, policies, r).Ok?
    ensures EligibleOnlyFailure(s, r, Assembled(hash, a, policies, r).value).None?
  {
    var byId := ById(r.eligibility);
    CoveredByIds(policies, byId);
    CandidatesAreEligible(policies, byId, r.matches);
    forall id | id in byId && byId[id].eligible
      ensures id in EligibleIds(s)
    {
      ByIdIsListed(r.eligibility, id);
      EligibleIsListed(s, r.eligibility, byId[id]);
    }
    forall m | m in r.matches
      ensures FunderOf(m) in EligibleIds(s)
    {
      assert EligibleMatch(byId, m);
    }
  }

  lemma {:induction false} CalculationClaimsAre(app: AppId, hash: Option<string>, results: seq<FunderEligibility>)
    ensures forall c :: c in CalculationClaims(app, hash, results) ==>
        c.applicationId == app && c.policyHash == hash && c.source.Calculation?
  {
    if results != [] {
      CalculationClaimsAre(app, hash, results[..|results| - 1]);
      var last := CheckClaims(app, hash, results[|results| - 1]);
      forall c | c in last
        ensures c.applicationId == app && c.policyHash == hash && c.source.Calculation?
      {
        var i :| 0 <= i < |last| && last[i] == c;
      }
    }
  }

  lemma AssembledClaimIsGrounded(
    g: Guard, s: ThreadState, a: BorrowerApplication, r: RetrievalResult, claim: GroundedClaim)
    requires s.applicationId == a.applicationId && s.evidence == EvidenceReferences(a.evidence)
    requires claim in Claims(a, g.policyHash, r)
    ensures ClaimFailure(g, s, r, claim).None?
  {
    var app, hash := a.applicationId, g.policyHash;
    CalculationClaimsAre(app, hash, r.eligibility);
    var cited, precedents := EvidenceClaims(app, hash, a.evidence), PrecedentClaims(app, hash, r.matches);
    if claim in cited {
      var i :| 0 <= i < |cited| && cited[i] == claim;
      assert s.evidence[i].citation == a.evidence[i].citation && s.evidence[i] in s.evidence;
    } else if claim in precedents {
      var i :| 0 <= i < |precedents| && precedents[i] == claim;
      assert r.matches[i] in r.matches;
    }
  }

  lemma AssembledClaimsPass(
    g: Guard, s: ThreadState, a: BorrowerApplication, policies: seq<FunderPolicy>, r: RetrievalResult)
    requires a.evidence != [] && s.applicationId == a.applicationId && s.evidence == EvidenceReferences(a.evidence)
    requires Assembled(g.policyHash, a, policies, r).Ok?
    ensures ClaimsFailure(g, s, r, Assembled(g.policyHash, a, policies, r).value).None?
  {
    var claims := Claims(a, g.policyHash, r);
    assert |claims| >= |a.evidence|;
    forall claim | claim in claims
      ensures ClaimFailure(g, s, r, claim).None?
    {
      AssembledClaimIsGrounded(g, s, a, r, claim);
    }
    NoClaimFails(g, s, r, claims);
  }

  /** The precedents are confirmed, or there are none to confirm. */
  predicate Confirmed(r: RetrievalResult, resolution: Resolution) {
    r.matches == [] || resolution == Answered(true)
  }

  lemma GuardAcceptsExactly(
    g: Guard, s: ThreadState, a: BorrowerApplication, policies: seq<FunderPolicy>, r: RetrievalResult,
    resolution: Resolution)
    requires a.evidence != [] && Prepared(s, a, r.eligibility) && Assembled(g.policyHash, a, policies, r).Ok?
    ensures Verdict(g, s, a, r, Assembled(g.policyHash, a, policies, r).value, resolution).None?
            <==> ReceiptsFailure(g, s.receipts).None? && GeometryHolds(a) && TextsAgree(a) && Confirmed(r, resolution)
  {
    EvidencePassesExactly(s, a, r.eligibility);
    AssembledIsEligibleOnly(s, g.policyHash, a, policies, r);
    AssembledClaimsPass(g, s, a, policies, r);
  }

  /**
   * On a checkpoint and artifacts prepared by the workers, the guard accepts the
   * assembled bundle exactly when the receipts pass, every citation has a real page and
   * area, years and headcount were extracted as plain integers, and the retrieved
   * precedents are confirmed: eligibility and claim grounding never fail.
   */
  lemma GuardAcceptsAssembledExactly(
    g: Guard, s: ThreadState, md: Metadata, evidence: seq<EvidenceMetric>, a: BorrowerApplication,
    policies: seq<FunderPolicy>,
    r: RetrievalResult, resolution: Resolution)
    requires AllFacts(evidence) && FormApplication(md, evidence) == Some(a)
    requires Prepared(s, a, r.eligibility) && Assembled(g.policyHash, a, policies, r).Ok?
    ensures Verdict(g, s, a, r, Assembled(g.policyHash, a, policies, r).value, resolution).None?
            <==> ReceiptsFailure(g, s.receipts).None? && GeometryHolds(a) && PlainIntegers(evidence)
                 && Confirmed(r, resolution)
  {
    GuardAcceptsExactly(g, s, a, policies, r, resolution);
    FormedTextsAgreeExactly(md, evidence, a);
  }

  /** A cited text that differs from the profile's is refused, whatever else is in order. */
  lemma OtherTextIsRefused(
    g: Guard, s: ThreadState, a: BorrowerApplication, r: RetrievalResult, b: SuggestionBundle, resolution: Resolution)
    requires a.evidence != [] && Prepared(s, a, r.eligibility) && GeometryHolds(a) && !TextsAgree(a)
    requires ReceiptsFailure(g, s.receipts).None? && OwnershipFailure(s, a, r, b).None?
    ensures Verdict(g, s, a, r, b, resolution) == Attention("unsupported_numeric_claim")
  {
    EvidencePassesExactly(s, a, r.eligibility);
    forall e | e in s.evidence
      ensures e.citation.documentId in s.documents && ValidGeometry(e.citation)
    {
      ReferenceOf(s, a, e);
    }
    assert s.evidence[0] in s.evidence;
  }

  const TWELVE_POINT_NOUGHT := Decimal(false, 120, -1)

  /**
   * The figure "12.0" for the years of operating forms a valid application of twelve
   * years, but the guard compares it with the text "12" and refuses it.
   */
  lemma PointNoughtIsRefused(
    g: Guard, s: ThreadState, md: Metadata, evidence: seq<EvidenceMetric>, a: BorrowerApplication, r: RetrievalResult,
    b: SuggestionBundle, resolution: Resolution)
    requires AllFacts(evidence) && FormApplication(md, evidence) == Some(a)
    requires NumberOf(evidence, YearsMetric) == TWELVE_POINT_NOUGHT
    requires Prepared(s, a, r.eligibility) && GeometryHolds(a)
    requires ReceiptsFailure(g, s.receipts).None? && OwnershipFailure(s, a, r, b).None?
    ensures TWELVE_POINT_NOUGHT.Str() == "12.0" && a.profile.yearsOperating == 12
    ensures Verdict(g, s, a, r, b, resolution) == Attention("unsupported_numeric_claim")
  {
    FormedTextsAgreeExactly(md, evidence, a);
    OtherTextIsRefused(g, s, a, r, b, resolution);
    TwelveText();
    YearsAre(md, evidence, a);
  }

  /** Such figures exist: with every other fact in range they form an application, cited from real areas. */
  lemma PointNoughtForms(md: Metadata)
    requires ValidMetadata(md)
    ensures var evidence := SampleEvidence(TWELVE_POINT_NOUGHT);
            && NumberOf(evidence, YearsMetric) == TWELVE_POINT_NOUGHT
            && FormApplication(md, evidence).Some? && GeometryHolds(FormApplication(md, evidence).value)
  {
    TwelveText();
    SampleIsFormed(md, TWELVE_POINT_NOUGHT);
    SampleGeometry(SampleEvidence(TWELVE_POINT_NOUGHT), FormApplication(md, SampleEvidence(TWELVE_POINT_NOUGHT)).value);
  }

  lemma SampleGeometry(evidence: seq<EvidenceMetric>, a: BorrowerApplication)
    requires a.evidence == evidence && forall e :: e in evidence ==> e.citation == SAMPLE_CITATION
    ensures GeometryHolds(a)
  {
  }

  lemma YearsAre(md: Metadata, evidence: seq<EvidenceMetric>, a: BorrowerApplication)
    requires AllFacts(evidence) && FormedFrom(md, evidence, a)
    ensures WholeOf(evidence, YearsMetric) == Some(a.profile.yearsOperating)
  {
  }

  lemma TwelveText()
    ensures TWELVE_POINT_NOUGHT.Str() == "12.0" && TWELVE_POINT_NOUGHT.Integral() == Some(12)
  {
    assert Pow10(1) == 10 * Pow10(0);
    assert Digits(12) == Digits(1) + [Digit(2)];
    assert Digits(120) == Digits(12) + [Digit(0)];
  }

  // ---- the whole pipeline ----

  function RetrievalFor(
    c: RetrievalConfig, a: BorrowerApplication, policies: seq<FunderPolicy>, profileHits: seq<Hit>,
    commentHits: seq<Hit>, now: Timestamp)
    : Result<RetrievalResult, RetrievalError>
  {
    var results := EvaluateAll(a, policies);
    match Retrieved(c, EligibleFunders(results), profileHits, commentHits, now)
    case Err(e) => Err(e)
    case Ok(matches) => Ok(RetrievalResult(a.applicationId, results, matches))
  }

  lemma EligibleFunderHasPolicy(a: BorrowerApplication, policies: seq<FunderPolicy>, id: FunderId)
    requires id in EligibleFunders(EvaluateAll(a, policies))
    ensures exists p :: p in policies && p.funderId == id && Evaluate(a, p).eligible
  {
    var results := EvaluateAll(a, policies);
    var e :| e in results && e.eligible && e.funderId == id;
    var i :| 0 <= i < |results| && results[i] == e;
    assert policies[i] in policies && policies[i].funderId == id && Evaluate(a, policies[i]).eligible;
  }

  /**
   * For every valid application and duplicate-free policy set: whenever retrieval
   * answers, assembly succeeds exactly within the claim cap, which 53 policies can never
   * exceed under a valid retrieval configuration.
   */
  lemma PipelineComposes(
    c: RetrievalConfig, hash: Option<string>, a: BorrowerApplication, policies: seq<FunderPolicy>,
    profileHits: seq<Hit>, commentHits: seq<Hit>, now: Timestamp)
    requires Retrieval.ValidConfig(c) && ValidApplication(a) && Distinct(PolicyIds(policies))
    requires RetrievalFor(c, a, policies, profileHits, commentHits, now).Ok?
    ensures var r := RetrievalFor(c, a, policies, profileHits, commentHits, now).value;
            && (Assembled(hash, a, policies, r).Ok? <==> |a.evidence| + 8 * |policies| + |r.matches| <= CLAIM_CAP)
            && (|policies| <= 53 ==> Assembled(hash, a, policies, r).Ok?)
  {
    var r := RetrievalFor(c, a, policies, profileHits, commentHits, now).value;
    var eligible := EligibleFunders(r.eligibility);
    AnswersAreProper(c, eligible, profileHits, commentHits, now);
    forall m | m in r.matches
      ensures exists p :: p in policies && p.funderId == FunderOf(m) && Evaluate(a, p).eligible
    {
      assert Proper(c, eligible, now, m);
      EligibleFunderHasPolicy(a, policies, FunderOf(m));
    }
    EngineAndAssemblerCompose(hash, a, policies, r);
  }
}
