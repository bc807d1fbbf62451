/**
 * Deterministic eligibility: eight explicit criteria per funder policy.
 */
module RulesEngine {
  import opened MatchingSchema

  const CRITERIA: seq<Criterion> :=
    [Industry, Region, LoanKind, RequestedAmount, Dscr, DebtToEbitda, CollateralCover, OperatingHistory]

  predicate Meets(application: BorrowerApplication, policy: FunderPolicy, criterion: Criterion) {
    var profile := application.profile;
    match criterion
    case Industry => application.industry in policy.allowedIndustries
    case Region => application.region in policy.allowedRegions
    case LoanKind => application.loanType in policy.allowedLoanTypes
    case RequestedAmount => policy.minRequestedAmount <= profile.requestedAmount <= policy.maxRequestedAmount
    case Dscr => profile.dscr.Value() >= policy.minDscr
    case DebtToEbitda => profile.debtToEbitda.Value() <= policy.maxDebtToEbitda
    case CollateralCover => profile.collateralCover.Value() >= policy.minCollateralCover
    case OperatingHistory => profile.yearsOperating >= policy.minYearsOperating
  }

  function Checks(application: BorrowerApplication, policy: FunderPolicy): (checks: seq<RuleCheck>)
    ensures |checks| == 8
    ensures forall i :: 0 <= i < 8 ==> checks[i].criterion == CRITERIA[i]
  {
    seq(8, i requires 0 <= i < 8 => RuleCheck(CRITERIA[i], Meets(application, policy, CRITERIA[i])))
  }

  predicate AllPassed(checks: seq<RuleCheck>) {
    forall check :: check in checks ==> check.passed
  }

  function Evaluate(application: BorrowerApplication, policy: FunderPolicy): FunderEligibility {
    var checks := Checks(application, policy);
    FunderEligibility(policy.funderId, AllPassed(checks), checks)
  }

  function EvaluateAll(application: BorrowerApplication, policies: seq<FunderPolicy>): (results: seq<FunderEligibility>)
    ensures |results| == |policies|
    ensures forall i :: 0 <= i < |policies| ==> results[i] == Evaluate(application, policies[i])
  {
    seq(|policies|, i requires 0 <= i < |policies| => Evaluate(application, policies[i]))
  }

  /** q accepts whatever p accepts, criterion by criterion. */
  predicate NoStricter(q: FunderPolicy, p: FunderPolicy) {
    && p.allowedIndustries <= q.allowedIndustries
    && p.allowedRegions <= q.allowedRegions
    && p.allowedLoanTypes <= q.allowedLoanTypes
    && q.minRequestedAmount <= p.minRequestedAmount && p.maxRequestedAmount <= q.maxRequestedAmount
    && q.minDscr <= p.minDscr
    && p.maxDebtToEbitda <= q.maxDebtToEbitda
    && q.minCollateralCover <= p.minCollateralCover
    && q.minYearsOperating <= p.minYearsOperating
  }

  lemma EveryCriterionIsListed(c: Criterion)
    ensures exists i :: 0 <= i < |CRITERIA| && CRITERIA[i] == c
  {
    match c
    case Industry => assert CRITERIA[0] == c;
    case Region => assert CRITERIA[1] == c;
    case LoanKind => assert CRITERIA[2] == c;
    case RequestedAmount => assert CRITERIA[3] == c;
    case Dscr => assert CRITERIA[4] == c;
    case DebtToEbitda => assert CRITERIA[5] == c;
    case CollateralCover => assert CRITERIA[6] == c;
    case OperatingHistory => assert CRITERIA[7] == c;
  }

  /** A funder is eligible exactly when every criterion there is is met: no criterion is left unchecked. */
  lemma EligibleExactly(application: BorrowerApplication, policy: FunderPolicy)
    ensures Evaluate(application, policy).eligible <==> forall c: Criterion :: Meets(application, policy, c)
  {
    var checks := Checks(application, policy);
    if AllPassed(checks) {
      forall c: Criterion
        ensures Meets(application, policy, c)
      {
        EveryCriterionIsListed(c);
        var i :| 0 <= i < |CRITERIA| && CRITERIA[i] == c;
        assert checks[i] in checks;
      }
    }
  }

  /** Loosening a policy never excludes an application it accepted. */
  lemma LooserPolicyKeepsEligibility(application: BorrowerApplication, p: FunderPolicy, q: FunderPolicy)
    requires NoStricter(q, p) && Evaluate(application, p).eligible
    ensures Evaluate(application, q).eligible
  {
    EligibleExactly(application, p);
    EligibleExactly(application, q);
    forall c: Criterion
      ensures Meets(application, q, c)
    {
      assert Meets(application, p, c);
    }
  }
}
