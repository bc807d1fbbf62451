/**
 * Building a searchable precedent from a human-decided workflow, and the two stores a
 * write-back touches: the vector collection and the outbox.
 */
module PrecedentStore {
  import opened Collections
  import opened Wrappers
  import opened MatchingSchema
  import opened Facts
  import opened Assembler
  import opened Bundles
  import opened WorkflowSchema

  // ---- texts ----

  /** Unicode white space, which the validators strip. */
  predicate IsSpace(c: char) {
    var n := c as int;
    || 0x9 <= n <= 0xD || n in {0x20, 0x85, 0xA0, 0x1680, 0x2028, 0x2029, 0x202F, 0x205F, 0x3000}
         || 0x2000 <= n <= 0x200A
  }

  function Strip(text: string): (stripped: string)
    ensures |stripped| <= |text|
    decreases |text|
  {
    if text == "" then text
    else if IsSpace(text[0]) then Strip(text[1..])
    else if IsSpace(text[|text| - 1]) then Strip(text[..|text| - 1])
    else text
  }

  type Points = map<PointId, DecidedLoanCase>

  datatype WritebackConfig = WritebackConfig(policyHash: Option<string>, validity: Option<nat>,
    redact: string -> string)

  datatype WriteError =
    | NotPermitted | UnknownCase | NotDecided | StaleVersion | SentBack | NoSuggestion | InvalidSuggestion
    | ForeignSuggestion | NoFunder | UnknownFunder | MissingOverrides | InvalidPrecedent

  // ---- selection ----

  function CriterionText(c: Criterion): string {
    match c
    case Industry => "industry"
    case Region => "region"
    case LoanKind => "loan_type"
    case RequestedAmount => "requested_amount_crore"
    case Dscr => "dscr"
    case DebtToEbitda => "debt_to_ebitda"
    case CollateralCover => "collateral_cover"
    case OperatingHistory => "years_operating"
  }

  /** The dictionary over the excluded funders: a later entry replaces an earlier one. */
  function ExcludedById(excluded: seq<ExcludedFunder>): map<FunderId, ExcludedFunder> {
    if excluded == [] then map[]
    else ExcludedById(excluded[..|excluded| - 1])[excluded[|excluded| - 1].funderId := excluded[|excluded| - 1]]
  }

  predicate IsCandidate(bundle: SuggestionBundle, funder: FunderId) {
    exists c :: c in bundle.candidates && c.funderId == funder
  }

  /** Every failed check of the funder is documented by an override of its criterion. */
  predicate Documented(x: ExcludedFunder, overrides: seq<Override>) {
    forall check :: check in x.failedChecks ==>
      exists o :: o in overrides && o.criterion == CriterionText(check.criterion)
  }

  function SelectionError(
    bundle: SuggestionBundle, funder: Option<FunderId>, overrides: seq<Override>): Option<WriteError>
  {
    var excluded := ExcludedById(bundle.excluded);
    if funder.None? then Some(NoFunder)
    else if IsCandidate(bundle, funder.value) then None
    else if funder.value !in excluded then Some(UnknownFunder)
    else if !Documented(excluded[funder.value], overrides) then Some(MissingOverrides)
    else None
  }

  // ---- the precedent ----

  function Outcome(action: HumanAction): DecisionOutcome
    requires action != SendBack
  {
    match action
    case Approve => Approved
    case Reject => Rejected
    case ApproveConditionally => ApprovedWithConditions
  }

  function RedactAll(cfg: WritebackConfig, texts: seq<string>): seq<string> {
    seq(|texts|, i requires 0 <= i < |texts| => cfg.redact(texts[i]))
  }

  function RedactOverrides(cfg: WritebackConfig, overrides: seq<Override>): seq<Override> {
    seq(|overrides|, i requires 0 <= i < |overrides| =>
      overrides[i].(originalResult := cfg.redact(overrides[i].originalResult),
        justification := cfg.redact(overrides[i].justification)))
  }

  /** Evidence without the borrower's name. */
  function Anonymous(evidence: seq<EvidenceMetric>): seq<EvidenceMetric> {
    if evidence == [] then []
    else
      var last := evidence[|evidence| - 1];
      Anonymous(evidence[..|evidence| - 1]) + (if last.name.BorrowerMetric? then [] else [last])
  }

  /** Strings of a precedent are stripped by its validators, except in overrides, which are taken over as they are. */
  function StripAll(texts: seq<string>): seq<string> {
    seq(|texts|, i requires 0 <= i < |texts| => Strip(texts[i]))
  }

  function BuildCase(cfg: WritebackConfig, a: BorrowerApplication, d: HumanDecisionRecord): DecidedLoanCase
    requires d.action != SendBack && d.funderId.Some?
  {
    DecidedLoanCase(
      a.applicationId, a.industry, a.subIndustry, a.region, a.loanType, a.profile, Anonymous(a.evidence),
      Strip(cfg.redact(a.financeContext)), Strip(cfg.redact(a.operationsContext)),
      HistoricalDecision(Outcome(d.action), Strip(d.funderId.value), d.decidedAt, Strip(cfg.redact(d.reason)),
                         StripAll(RedactAll(cfg, d.conditions)), RedactOverrides(cfg, d.overrides)),
      Active, cfg.policyHash, if cfg.validity.Some? then Some(d.decidedAt + cfg.validity.value) else None)
  }

  // ---- the validators of a precedent ----

  predicate ValidText(text: string) {
    1 <= |text| <= 2000
  }

  predicate IsAlphanumeric(c: char) {
    'A' <= c <= 'Z' || 'a' <= c <= 'z' || '0' <= c <= '9'
  }

  predicate ValidCaseId(id: CaseId) {
    && 3 <= |id| <= 200 && IsAlphanumeric(id[0])
    && forall i :: 0 < i < |id| ==> IsAlphanumeric(id[i]) || id[i] in {'.', '_', '-'}
  }

  predicate ValidHash(hash: string) {
    |hash| == 64 && forall i :: 0 <= i < 64 ==> '0' <= hash[i] <= '9' || 'a' <= hash[i] <= 'f'
  }

  /** The case in the form its evidence is compared with; no evidence of a built case cites the borrower's name. */
  function AsApplication(c: DecidedLoanCase): BorrowerApplication {
    BorrowerApplication(c.caseId, "", c.industry, c.subIndustry, c.region, c.loanType, c.profile, c.evidence,
                        c.financeComment, c.operationsComment)
  }

  predicate ValidHistory(d: HistoricalDecision) {
    && d.funderId != "" && ValidText(d.rationale)
    && (d.conditions != [] <==> d.outcome == ApprovedWithConditions)
  }

  predicate ValidCase(c: DecidedLoanCase) {
    && ValidCaseId(c.caseId) && c.industry != "" && c.subIndustry != "" && c.region != ""
    && ValidProfile(c.profile) && 3 <= |c.evidence| <= 20 && Agrees(AsApplication(c), FactsOf(c.evidence))
    && ValidText(c.financeComment) && ValidText(c.operationsComment) && ValidHistory(c.decision)
    && (c.policyHash.Some? ==> ValidHash(c.policyHash.value))
    && (c.validUntil.Some? ==> c.validUntil.value > c.decision.decidedAt)
  }

  predicate ValidOverride(o: Override) {
    1 <= |Strip(o.criterion)| <= 100 && 1 <= |Strip(o.originalResult)| <= 500 && 1 <= |Strip(o.justification)| <= 1000
  }

  function StripOverrides(overrides: seq<Override>): seq<Override> {
    seq(|overrides|, i requires 0 <= i < |overrides| =>
      Override(Strip(overrides[i].criterion), Strip(overrides[i].originalResult), Strip(overrides[i].justification)))
  }

  /** A stored payload validates again; of a built case only the redacted overrides may not. */
  predicate Readable(c: DecidedLoanCase) {
    forall o :: o in c.decision.overrides ==> ValidOverride(o)
  }

  /** What a stored payload is read back as. */
  function ReadBack(c: DecidedLoanCase): DecidedLoanCase {
    c.(decision := c.decision.(overrides := StripOverrides(c.decision.overrides)))
  }

  /** The point is read back as this case. */
  predicate ReadsAs(points: Points, id: PointId, c: DecidedLoanCase) {
    id in points && Readable(points[id]) && ReadBack(points[id]) == c
  }

  /** What is read back is the case that was stored. */
  predicate ReadsBack(c: DecidedLoanCase) {
    Readable(c) && ReadBack(c) == c
  }

  /** The precedent a decided record determines: it depends on its suggestion and decision only. */
  function Plan(
    cfg: WritebackConfig, app: AppId, suggestion: Option<SuggestionPayload>,
    d: HumanDecisionRecord): Result<DecidedLoanCase, WriteError>
  {
    if d.action == SendBack then Err(SentBack)
    else if suggestion.None? then Err(NoSuggestion)
    else if !suggestion.value.BundlePayload? then Err(InvalidSuggestion)
    else
      var bundle := suggestion.value.bundle;
      var error := SelectionError(bundle, d.funderId, d.overrides);
      if !Parses(bundle) then Err(InvalidSuggestion)
      else if bundle.application.applicationId != app then Err(ForeignSuggestion)
      else if error.Some? then Err(error.value)
      else
        var built := BuildCase(cfg, bundle.application, d);
        if ValidCase(built) then Ok(built) else Err(InvalidPrecedent)
  }

  /**
   * The bundle production stores for a worker-formed application cannot be written back
   * as a precedent, whoever decided what about it, unless the borrower's name is the mask.
   */
  lemma ProductionWriteIsRefused(
    cfg: WritebackConfig, app: AppId, d: HumanDecisionRecord, m: Masking, hash: Option<string>, md: Metadata,
    evidence: seq<EvidenceMetric>, a: BorrowerApplication, policies: seq<FunderPolicy>, r: RetrievalResult)
    requires AllFacts(evidence) && FormApplication(md, evidence) == Some(a) && a.borrowerName != m.name(a.applicationId)
    requires ValidTexts(MaskedApplication(m, a)) && Assembled(hash, a, policies, r).Ok?
    ensures Plan(cfg, app, Some(BundlePayload(Masked(m, Assembled(hash, a, policies, r).value))), d)
         == Err(if d.action == SendBack then SentBack else InvalidSuggestion)
  {
    ProductionBundleParsesExactly(m, hash, md, evidence, a, policies, r);
  }

  /** The checks of a write-back on the record it found in a state other than written. */
  function Prepare(
    cfg: WritebackConfig, app: AppId, record: WorkflowRecord, version: nat): Result<DecidedLoanCase, WriteError>
  {
    if record.state != HumanDecided || record.decision.None? then Err(NotDecided)
    else if record.version != version then Err(StaleVersion)
    else Plan(cfg, app, record.suggestion, record.decision.value)
  }

  /** A planned precedent is filed under its application, is active, and never carries the borrower's name. */
  lemma PlannedCase(cfg: WritebackConfig, app: AppId, suggestion: Option<SuggestionPayload>, d: HumanDecisionRecord)
    requires Plan(cfg, app, suggestion, d).Ok?
    ensures var c := Plan(cfg, app, suggestion, d).value;
            && c.caseId == app && c.lifecycle == Active && d.action != SendBack
            && (c.decision.outcome == Approved <==> d.action == Approve)
            && (c.decision.outcome == ApprovedWithConditions <==> d.action == ApproveConditionally)
            && d.funderId.Some? && c.decision.funderId == Strip(d.funderId.value)
            && ValidCase(c)
            && forall e :: e in c.evidence ==> !e.name.BorrowerMetric?
  {
    AnonymousHasNoName(suggestion.value.bundle.application.evidence);
  }

  lemma {:induction false} AnonymousHasNoName(evidence: seq<EvidenceMetric>)
    ensures forall e :: e in Anonymous(evidence) <==> e in evidence && !e.name.BorrowerMetric?
  {
    if evidence != [] {
      var earlier, last := evidence[..|evidence| - 1], evidence[|evidence| - 1];
      AnonymousHasNoName(earlier);
      assert forall e :: e in evidence <==> e == last || e in earlier;
    }
  }

  // ---- what can make a precedent invalid ----

  lemma {:induction false} AnonymousFacts(evidence: seq<EvidenceMetric>)
    ensures FactsOf(Anonymous(evidence)) == FactsOf(evidence) - {BorrowerMetric}
    ensures |Anonymous(evidence)| <= |evidence|
  {
    if evidence != [] {
      var earlier, last := evidence[..|evidence| - 1], evidence[|evidence| - 1];
      AnonymousFacts(earlier);
      if last.name.BorrowerMetric? {
        assert Anonymous(evidence) == Anonymous(earlier);
        assert FactsOf(earlier)[BorrowerMetric := last.value] - {BorrowerMetric} == FactsOf(earlier) - {BorrowerMetric};
      } else {
        assert Anonymous(evidence)[..|Anonymous(evidence)| - 1] == Anonymous(earlier);
        assert FactsOf(earlier)[last.name := last.value] - {BorrowerMetric}
          == (FactsOf(earlier) - {BorrowerMetric})[last.name := last.value];
      }
    }
  }

  /** There are at most as many facts as pieces of evidence. */
  lemma {:induction false} FactsAreFew(evidence: seq<EvidenceMetric>)
    ensures |FactsOf(evidence).Keys| <= |evidence|
  {
    if evidence != [] {
      var earlier, last := evidence[..|evidence| - 1], evidence[|evidence| - 1];
      FactsAreFew(earlier);
      assert FactsOf(evidence).Keys == FactsOf(earlier).Keys + {last.name};
    }
  }

  lemma ThreeAreNamed(evidence: seq<EvidenceMetric>)
    requires RevenueMetric in FactsOf(evidence) && MarginMetric in FactsOf(evidence) && DscrMetric in FactsOf(evidence)
    ensures |evidence| >= 3
  {
    FactsAreFew(evidence);
    SubsetIsSmaller({RevenueMetric, MarginMetric, DscrMetric}, FactsOf(evidence).Keys);
  }

  lemma AgreesWithoutName(a: BorrowerApplication, b: BorrowerApplication, facts: map<Metric, FactValue>)
    requires Agrees(a, facts) && forall m :: m != BorrowerMetric ==> ExpectedFact(b, m) == ExpectedFact(a, m)
    ensures Agrees(b, facts - {BorrowerMetric})
  {
    var rest := facts - {BorrowerMetric};
    assert RevenueMetric in rest && MarginMetric in rest && DscrMetric in rest;
    forall m | m in rest
      ensures SameFact(ExpectedFact(b, m), rest[m])
    {
      assert SameFact(ExpectedFact(a, m), facts[m]);
    }
  }

  /** Leaving the borrower's name out never invalidates the evidence. */
  lemma AnonymousStaysValid(a: BorrowerApplication, c: DecidedLoanCase)
    requires |a.evidence| <= 20 && Agrees(a, FactsOf(a.evidence)) && c.evidence == Anonymous(a.evidence)
    requires c.profile == a.profile && c.industry == a.industry && c.subIndustry == a.subIndustry
    requires c.region == a.region
    ensures 3 <= |c.evidence| <= 20 && Agrees(AsApplication(c), FactsOf(c.evidence))
  {
    AnonymousFacts(a.evidence);
    AgreesWithoutName(a, AsApplication(c), FactsOf(a.evidence));
    ThreeAreNamed(c.evidence);
  }

  /** The settings a precedent is built under satisfy its validators. */
  predicate ValidSettings(cfg: WritebackConfig) {
    (cfg.policyHash.Some? ==> ValidHash(cfg.policyHash.value)) && (cfg.validity.Some? ==> cfg.validity.value > 0)
  }

  /** What remains of a decision once it is redacted and stripped satisfies the validators. */
  predicate ValidRemains(cfg: WritebackConfig, d: HumanDecisionRecord) {
    && d.funderId.Some? && Strip(d.funderId.value) != "" && ValidText(Strip(cfg.redact(d.reason)))
    && (d.conditions != [] <==> d.action == ApproveConditionally)
  }

  /**
   * The precedent of a valid application is valid exactly when the application's
   * identifier can be a case's, the two contexts and the reason are not blank and not
   * too long once they are redacted, and funder, conditions and settings are in order.
   */
  lemma BuiltIsValidExactly(cfg: WritebackConfig, a: BorrowerApplication, d: HumanDecisionRecord)
    requires ValidApplication(a) && d.action != SendBack && d.funderId.Some?
    ensures ValidCase(BuildCase(cfg, a, d)) <==>
              && ValidCaseId(a.applicationId) && ValidSettings(cfg) && ValidRemains(cfg, d)
              && ValidText(Strip(cfg.redact(a.financeContext))) && ValidText(Strip(cfg.redact(a.operationsContext)))
  {
    AnonymousStaysValid(a, BuildCase(cfg, a, d));
  }

  /** A reason of which nothing remains makes every plan fail, although such a decision is recorded. */
  lemma BlankReasonHasNoPlan(
    cfg: WritebackConfig, app: AppId, suggestion: Option<SuggestionPayload>, d: HumanDecisionRecord)
    requires Strip(cfg.redact(d.reason)) == ""
    ensures Plan(cfg, app, suggestion, d).Err?
  {
  }

  lemma {:induction false} IndexedIsListed(excluded: seq<ExcludedFunder>, funder: FunderId)
    requires funder in ExcludedById(excluded)
    ensures ExcludedById(excluded)[funder] in excluded && ExcludedById(excluded)[funder].funderId == funder
  {
    if excluded != [] && excluded[|excluded| - 1].funderId != funder {
      IndexedIsListed(excluded[..|excluded| - 1], funder);
    }
  }

  lemma {:induction false} ListedIsIndexed(excluded: seq<ExcludedFunder>, x: ExcludedFunder)
    requires x in excluded
    ensures x.funderId in ExcludedById(excluded)
  {
    if excluded[|excluded| - 1] != x {
      ListedIsIndexed(excluded[..|excluded| - 1], x);
    }
  }

  lemma OneEntryPerFunder(excluded: seq<ExcludedFunder>, x: ExcludedFunder, y: ExcludedFunder)
    requires Distinct(ExcludedIds(excluded)) && x in excluded && y in excluded && x.funderId == y.funderId
    ensures x == y
  {
    var i :| 0 <= i < |excluded| && excluded[i] == x;
    var j :| 0 <= j < |excluded| && excluded[j] == y;
    if i != j {
      DistinctAt(ExcludedIds(excluded), i, j);
    }
  }

  /** A funder can be chosen exactly when it is a candidate, or excluded with every failed criterion overridden. */
  lemma SelectionIsValidExactly(bundle: SuggestionBundle, funder: FunderId, overrides: seq<Override>)
    requires ValidPartition(bundle)
    ensures SelectionError(bundle, Some(funder), overrides).None? <==>
              || IsCandidate(bundle, funder)
              || exists x :: x in bundle.excluded && x.funderId == funder && Documented(x, overrides)
  {
    if exists x :: x in bundle.excluded && x.funderId == funder && Documented(x, overrides) {
      var x :| x in bundle.excluded && x.funderId == funder && Documented(x, overrides);
      ListedIsIndexed(bundle.excluded, x);
      IndexedIsListed(bundle.excluded, funder);
      OneEntryPerFunder(bundle.excluded, x, ExcludedById(bundle.excluded)[funder]);
    } else if funder in ExcludedById(bundle.excluded) {
      IndexedIsListed(bundle.excluded, funder);
    }
  }

  function ReceiptFor(c: DecidedLoanCase): PrecedentReceipt {
    PrecedentReceipt(c.caseId, PointId(c.caseId), PayloadHash(c))
  }

  /** The stored case behind a receipt, if it is there, can be read and still hashes to it. */
  predicate Confirms(points: Points, receipt: PrecedentReceipt) {
    && receipt.pointId in points && Readable(points[receipt.pointId])
    && PayloadHash(ReadBack(points[receipt.pointId])) == receipt.payloadHash
  }

  // ---- stores ----

  datatype OutboxStatus = Pending | Completed(receipt: PrecedentReceipt) | Failed

  datatype OutboxRow = OutboxRow(app: AppId, payloadHash: PayloadHash, status: OutboxStatus)

  type Outbox = map<CommandId, OutboxRow>

  /** Insert-or-keep, then compare identity; None when the command belongs to another side effect. */
  function Begin(outbox: Outbox, id: CommandId, app: AppId, hash: PayloadHash): Option<Outbox> {
    if id !in outbox then Some(outbox[id := OutboxRow(app, hash, Pending)])
    else if outbox[id].app == app && outbox[id].payloadHash == hash then Some(outbox)
    else None
  }

  function SetStatus(outbox: Outbox, id: CommandId, status: OutboxStatus): Outbox {
    if id in outbox then outbox[id := outbox[id].(status := status)] else outbox
  }

  /** A case that cannot be read keeps its lifecycle. */
  function WithLifecycle(points: Points, caseId: CaseId, status: PrecedentStatus): Points {
    var id := PointId(caseId);
    if id in points && Readable(points[id]) then points[id := points[id].(lifecycle := status)] else points
  }

  /** Whether the client's calls work; one that breaks may or may not have stored the case. */
  datatype UpsertFate = Works | Breaks(stored: bool)

  /** The collection after an upsert, and a lifecycle change that fell between it and the reading back. */
  function AfterUpsert(points: Points, c: DecidedLoanCase, fate: UpsertFate, between: Option<PrecedentStatus>): Points {
    var written := if fate.Works? || fate.stored then points[PointId(c.caseId) := c] else points;
    if between.Some? then WithLifecycle(written, c.caseId, between.value) else written
  }

  datatype LifecycleAnswer = Changed(current: DecidedLoanCase) | Unknown | Unreadable | ChangedSinceReview

  class QdrantPrecedentStore {
    var points: Points

    constructor (points: Points)
      ensures this.points == points
    {
      this.points := points;
    }

    /** Upsert, read back, compare. */
    method WriteOne(c: DecidedLoanCase, fate: UpsertFate, between: Option<PrecedentStatus>) returns (confirmed: bool)
      modifies this
      ensures points == AfterUpsert(old(points), c, fate, between)
      ensures confirmed <==> fate.Works? && ReadsBack(c) && (between.None? || between.value == c.lifecycle)
    {
      var id := PointId(c.caseId);
      if fate.Works? || fate.stored {
        points := points[id := c];
      }
      if between.Some? {
        points := WithLifecycle(points, c.caseId, between.value);
      }
      confirmed := fate.Works? && ReadsAs(points, id, c);
    }

    /** Repeating a change is harmless, and a change from another status than the reviewed one is refused. */
    method SetLifecycle(
      caseId: CaseId, expected: PrecedentStatus, status: PrecedentStatus) returns (answer: LifecycleAnswer)
      modifies this
      ensures var id := PointId(caseId);
              match answer
              case Unknown => id !in old(points) && points == old(points)
              case Unreadable => id in old(points) && !Readable(old(points)[id]) && points == old(points)
              case ChangedSinceReview =>
                && id in old(points) && Readable(old(points)[id])
                && old(points)[id].lifecycle !in {expected, status} && points == old(points)
              case Changed(current) =>
                && id in old(points) && Readable(old(points)[id]) && old(points)[id].lifecycle in {expected, status}
                && points == WithLifecycle(old(points), caseId, status)
                && id in points && current == ReadBack(points[id]) && current.lifecycle == status
    {
      var id := PointId(caseId);
      if id !in points {
        return Unknown;
      }
      if !Readable(points[id]) {
        return Unreadable;
      }
      if points[id].lifecycle == status {
        assert points[id].(lifecycle := status) == points[id];
        return Changed(ReadBack(points[id]));
      }
      if points[id].lifecycle != expected {
        return ChangedSinceReview;
      }
      points := points[id := points[id].(lifecycle := status)];
      return Changed(ReadBack(points[id]));
    }
  }
}
