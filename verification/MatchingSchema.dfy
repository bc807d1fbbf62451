/**
 * Borrower applications, funder policies, decided precedents and the advisory bundle.
 * Figures that are cited from documents are decimals with a text of their own; bounds
 * and scores are exact reals.
 */
module MatchingSchema {
  import opened Decimals
  import opened Wrappers

  type AppId = string
  type FunderId = string
  type CaseId = string
  type Timestamp = int

  datatype LoanType =
    | TermLoan | WorkingCapital | EquipmentFinance | InvoiceFinance | LoanAgainstProperty | OtherLoan

  datatype Profile = Profile(
    annualRevenue: Decimal,
    requestedAmount: real,
    ebitdaMargin: Decimal,
    pat: Decimal,
    dscr: Decimal,
    debtToEquity: Decimal,
    debtToEbitda: Decimal,
    collateralCover: Decimal,
    yearsOperating: nat,
    employeeCount: nat)

  datatype BoundingBox = BoundingBox(x0: real, y0: real, x1: real, y1: real)

  datatype Citation = Citation(documentId: string, pageNumber: int, bbox: BoundingBox)

  /** The facts that are extracted from documents. */
  datatype Metric =
    | RevenueMetric | MarginMetric | DscrMetric | PatMetric | EquityMetric | LeverageMetric | CollateralMetric
    | YearsMetric | HeadcountMetric | BorrowerMetric | IndustryMetric | SubIndustryMetric | RegionMetric

  datatype FactValue = Number(number: Decimal) | Text(text: string)

  datatype EvidenceMetric = EvidenceMetric(name: Metric, value: FactValue, citation: Citation)

  datatype BorrowerApplication = BorrowerApplication(
    applicationId: AppId,
    borrowerName: string,
    industry: string,
    subIndustry: string,
    region: string,
    loanType: LoanType,
    profile: Profile,
    evidence: seq<EvidenceMetric>,
    financeContext: string,
    operationsContext: string)

  datatype FunderPolicy = FunderPolicy(
    funderId: FunderId,
    displayName: string,
    allowedIndustries: set<string>,
    allowedRegions: set<string>,
    allowedLoanTypes: set<LoanType>,
    minRequestedAmount: real,
    maxRequestedAmount: real,
    minDscr: real,
    maxDebtToEbitda: real,
    minCollateralCover: real,
    minYearsOperating: nat)

  datatype Criterion =
    | Industry | Region | LoanKind | RequestedAmount
    | Dscr | DebtToEbitda | CollateralCover | OperatingHistory

  datatype RuleCheck = RuleCheck(criterion: Criterion, passed: bool)

  datatype FunderEligibility = FunderEligibility(funderId: FunderId, eligible: bool, checks: seq<RuleCheck>)

  datatype DecisionOutcome = Approved | Rejected | ApprovedWithConditions

  datatype Override = Override(criterion: string, originalResult: string, justification: string)

  datatype HistoricalDecision = HistoricalDecision(
    outcome: DecisionOutcome,
    funderId: FunderId,
    decidedAt: Timestamp,
    rationale: string,
    conditions: seq<string>,
    overrides: seq<Override>)

  datatype PrecedentStatus = Active | Revoked | Superseded

  datatype DecidedLoanCase = DecidedLoanCase(
    caseId: CaseId,
    industry: string,
    subIndustry: string,
    region: string,
    loanType: LoanType,
    profile: Profile,
    evidence: seq<EvidenceMetric>,
    financeComment: string,
    operationsComment: string,
    decision: HistoricalDecision,
    lifecycle: PrecedentStatus,
    policyHash: Option<string>,
    validUntil: Option<Timestamp>)

  datatype PrecedentMatch = PrecedentMatch(
    precedent: DecidedLoanCase,
    score: real,
    profileScore: Option<real>,
    commentsScore: Option<real>)

  datatype RetrievalResult = RetrievalResult(
    applicationId: AppId,
    eligibility: seq<FunderEligibility>,
    matches: seq<PrecedentMatch>)

  datatype AdvisoryCandidate = AdvisoryCandidate(
    funderId: FunderId,
    displayName: string,
    passedChecks: seq<RuleCheck>,
    precedents: seq<PrecedentMatch>,
    noClosePrecedent: bool)

  datatype ExcludedFunder = ExcludedFunder(funderId: FunderId, displayName: string, failedChecks: seq<RuleCheck>)

  /** A claim resolves to exactly one grounding source, so the source is a sum type. */
  datatype ClaimSource =
    | CitedEvidence(citation: Citation)
    | Calculation(funderId: FunderId, check: RuleCheck)
    | CitedPrecedent(caseId: CaseId)

  datatype GroundedClaim = GroundedClaim(applicationId: AppId, source: ClaimSource, policyHash: Option<string>)

  datatype SuggestionBundle = SuggestionBundle(
    application: BorrowerApplication,
    candidates: seq<AdvisoryCandidate>,
    excluded: seq<ExcludedFunder>,
    claims: seq<GroundedClaim>)
}
