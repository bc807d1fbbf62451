/**
 * The thirteen document facts of an application: how each is parsed from an extracted
 * text, what it must agree with, and how the financial worker forms an application
 * from all of them.
 */
module Facts {
  import opened Decimals
  import opened Wrappers
  import opened MatchingSchema

  const EXTRACTED_FACTS: seq<Metric> :=
    [RevenueMetric, MarginMetric, DscrMetric, PatMetric, EquityMetric, LeverageMetric, CollateralMetric,
     YearsMetric, HeadcountMetric, BorrowerMetric, IndustryMetric, SubIndustryMetric, RegionMetric]

  function MetricPlace(m: Metric): nat {
    match m
    case RevenueMetric => 0
    case MarginMetric => 1
    case DscrMetric => 2
    case PatMetric => 3
    case EquityMetric => 4
    case LeverageMetric => 5
    case CollateralMetric => 6
    case YearsMetric => 7
    case HeadcountMetric => 8
    case BorrowerMetric => 9
    case IndustryMetric => 10
    case SubIndustryMetric => 11
    case RegionMetric => 12
  }

  lemma MetricPlaces(m: Metric)
    ensures MetricPlace(m) < |EXTRACTED_FACTS| && EXTRACTED_FACTS[MetricPlace(m)] == m
  {
  }

  lemma PlaceOfListed(i: nat)
    requires i < |EXTRACTED_FACTS|
    ensures MetricPlace(EXTRACTED_FACTS[i]) == i
  {
  }

  predicate IsTextFact(m: Metric) {
    m in {BorrowerMetric, IndustryMetric, SubIndustryMetric, RegionMetric}
  }

  // ---- parsing ----

  /** An extracted figure: its stripped text, and the first number in it. */
  datatype Raw = Raw(text: string, number: Option<Decimal>)

  function ParseFact(m: Metric, raw: Raw): Option<FactValue> {
    if raw.text == "" then None
    else if IsTextFact(m) then Some(Text(raw.text))
    else if raw.number.Some? then Some(Number(raw.number.value))
    else None
  }

  /** Text facts hold a text, the others a number. */
  predicate WellTyped(m: Metric, value: FactValue) {
    if IsTextFact(m) then value.Text? && value.text != "" else value.Number?
  }

  function FactText(value: FactValue): string {
    match value
    case Number(d) => d.Str()
    case Text(text) => text
  }

  // ---- agreement with the profile ----

  function ExpectedFact(a: BorrowerApplication, m: Metric): FactValue {
    match m
    case RevenueMetric => Number(a.profile.annualRevenue)
    case MarginMetric => Number(a.profile.ebitdaMargin)
    case DscrMetric => Number(a.profile.dscr)
    case PatMetric => Number(a.profile.pat)
    case EquityMetric => Number(a.profile.debtToEquity)
    case LeverageMetric => Number(a.profile.debtToEbitda)
    case CollateralMetric => Number(a.profile.collateralCover)
    case YearsMetric => Number(FromInt(a.profile.yearsOperating))
    case HeadcountMetric => Number(FromInt(a.profile.employeeCount))
    case BorrowerMetric => Text(a.borrowerName)
    case IndustryMetric => Text(a.industry)
    case SubIndustryMetric => Text(a.subIndustry)
    case RegionMetric => Text(a.region)
  }

  /** Equality of Python values: decimals by their value, whatever their text. */
  predicate SameFact(x: FactValue, y: FactValue) {
    match (x, y)
    case (Number(d), Number(e)) => d.Value() == e.Value()
    case (Text(s), Text(t)) => s == t
    case _ => false
  }

  /** The dictionary over the evidence: a later metric of the same name replaces an earlier one. */
  function FactsOf(evidence: seq<EvidenceMetric>): map<Metric, FactValue> {
    if evidence == [] then map[]
    else FactsOf(evidence[..|evidence| - 1])[evidence[|evidence| - 1].name := evidence[|evidence| - 1].value]
  }

  predicate ValidProfile(p: Profile) {
    && p.annualRevenue.Value() > 0.0 && p.requestedAmount > 0.0
    && -100.0 <= p.ebitdaMargin.Value() <= 100.0
    && p.dscr.Value() > 0.0
    && p.debtToEquity.Value() >= 0.0 && p.debtToEbitda.Value() >= 0.0 && p.collateralCover.Value() >= 0.0
    && p.employeeCount > 0
  }

  predicate ValidTexts(a: BorrowerApplication) {
    && a.applicationId != "" && a.borrowerName != "" && a.industry != "" && a.subIndustry != "" && a.region != ""
    && 1 <= |a.financeContext| <= 2000 && 1 <= |a.operationsContext| <= 2000
  }

  predicate Agrees(a: BorrowerApplication, facts: map<Metric, FactValue>) {
    && RevenueMetric in facts && MarginMetric in facts && DscrMetric in facts
    && forall m :: m in facts ==> SameFact(ExpectedFact(a, m), facts[m])
  }

  /** The validators of an application: field ranges, and evidence that agrees with the profile. */
  predicate ValidApplication(a: BorrowerApplication) {
    ValidTexts(a) && ValidProfile(a.profile) && 3 <= |a.evidence| <= 20 && Agrees(a, FactsOf(a.evidence))
  }

  // ---- forming an application ----

  /** What the request contributes besides the documents. */
  datatype Metadata = Metadata(applicationId: AppId, loanType: LoanType, requestedAmount: real)

  predicate ValidMetadata(md: Metadata) {
    md.applicationId != "" && md.requestedAmount > 0.0
  }

  const FINANCE_CONTEXT := "Document-extracted financial facts with cited provenance."
  const OPERATIONS_CONTEXT := "Document-extracted operating facts with cited provenance."

  /** What the metric loop yields: the thirteen facts in order, each of its own type. */
  predicate AllFacts(evidence: seq<EvidenceMetric>) {
    && |evidence| == |EXTRACTED_FACTS|
    && forall i :: 0 <= i < |evidence| ==>
         evidence[i].name == EXTRACTED_FACTS[i] && WellTyped(evidence[i].name, evidence[i].value)
  }

  function FactOf(evidence: seq<EvidenceMetric>, m: Metric): (value: FactValue)
    requires AllFacts(evidence)
    ensures WellTyped(m, value)
  {
    MetricPlaces(m);
    evidence[MetricPlace(m)].value
  }

  function NumberOf(evidence: seq<EvidenceMetric>, m: Metric): Decimal
    requires AllFacts(evidence) && !IsTextFact(m)
  {
    FactOf(evidence, m).number
  }

  function TextOf(evidence: seq<EvidenceMetric>, m: Metric): (text: string)
    requires AllFacts(evidence) && IsTextFact(m)
    ensures text != ""
  {
    FactOf(evidence, m).text
  }

  /** A number that is a nonnegative integer. */
  function WholeOf(evidence: seq<EvidenceMetric>, m: Metric): Option<nat>
    requires AllFacts(evidence) && !IsTextFact(m)
  {
    match NumberOf(evidence, m).Integral()
    case Some(n) => if n >= 0 then Some(n) else None
    case None => None
  }

  function ProfileOf(md: Metadata, evidence: seq<EvidenceMetric>): Option<Profile>
    requires AllFacts(evidence)
  {
    var years, headcount := WholeOf(evidence, YearsMetric), WholeOf(evidence, HeadcountMetric);
    if years.None? || headcount.None? then None
    else
      Some(Profile(
        NumberOf(evidence, RevenueMetric), md.requestedAmount, NumberOf(evidence, MarginMetric),
          NumberOf(evidence, PatMetric),
        NumberOf(evidence, DscrMetric), NumberOf(evidence, EquityMetric), NumberOf(evidence, LeverageMetric),
        NumberOf(evidence, CollateralMetric), years.value, headcount.value))
  }

  /** The application the facts determine, if its validators accept it. */
  function FormApplication(md: Metadata, evidence: seq<EvidenceMetric>): (formed: Option<BorrowerApplication>)
    requires AllFacts(evidence)
    ensures formed.Some? ==> FormedFrom(md, evidence, formed.value) && ValidApplication(formed.value)
  {
    var profile := ProfileOf(md, evidence);
    if profile.None? then None
    else
      var a := BorrowerApplication(
        md.applicationId, TextOf(evidence, BorrowerMetric), TextOf(evidence, IndustryMetric),
          TextOf(evidence, SubIndustryMetric),
        TextOf(evidence, RegionMetric), md.loanType, profile.value, evidence, FINANCE_CONTEXT, OPERATIONS_CONTEXT);
      if ValidApplication(a) then Some(a) else None
  }

  /** The facts lie in the ranges of a profile. */
  predicate Formable(evidence: seq<EvidenceMetric>)
    requires AllFacts(evidence)
  {
    && NumberOf(evidence, RevenueMetric).Value() > 0.0
    && -100.0 <= NumberOf(evidence, MarginMetric).Value() <= 100.0
    && NumberOf(evidence, DscrMetric).Value() > 0.0
    && NumberOf(evidence, EquityMetric).Value() >= 0.0
    && NumberOf(evidence, LeverageMetric).Value() >= 0.0
    && NumberOf(evidence, CollateralMetric).Value() >= 0.0
    && WholeOf(evidence, YearsMetric).Some?
    && WholeOf(evidence, HeadcountMetric).Some? && WholeOf(evidence, HeadcountMetric).value > 0
  }

  /** Profile, names and evidence are those the facts determine. */
  predicate FormedFrom(md: Metadata, evidence: seq<EvidenceMetric>, a: BorrowerApplication)
    requires AllFacts(evidence)
  {
    && a.applicationId == md.applicationId && ProfileOf(md, evidence) == Some(a.profile) && a.evidence == evidence
    && a.borrowerName == TextOf(evidence, BorrowerMetric) && a.industry == TextOf(evidence, IndustryMetric)
    && a.subIndustry == TextOf(evidence, SubIndustryMetric) && a.region == TextOf(evidence, RegionMetric)
  }

  lemma WholeAgrees(d: Decimal, n: nat)
    requires d.Integral() == Some(n)
    ensures FromInt(n).Value() == d.Value()
  {
    assert Pow10(0) == 1;
  }

  lemma FactsOfNext(evidence: seq<EvidenceMetric>, k: nat)
    requires k < |evidence|
    ensures FactsOf(evidence[..k + 1]) == FactsOf(evidence[..k])[evidence[k].name := evidence[k].value]
  {
    assert evidence[..k + 1][..k] == evidence[..k];
  }

  /** A fact not named again later is the one looked up. */
  lemma {:induction false} LastFactHolds(evidence: seq<EvidenceMetric>, i: nat, k: nat)
    requires i < k <= |evidence| && forall j :: i < j < |evidence| ==> evidence[j].name != evidence[i].name
    ensures evidence[i].name in FactsOf(evidence[..k]) && FactsOf(evidence[..k])[evidence[i].name] == evidence[i].value
  {
    FactsOfNext(evidence, k - 1);
    if k > i + 1 {
      LastFactHolds(evidence, i, k - 1);
    }
  }

  lemma ExtractedFactsAre(evidence: seq<EvidenceMetric>, m: Metric)
    requires AllFacts(evidence)
    ensures m in FactsOf(evidence) && FactsOf(evidence)[m] == FactOf(evidence, m)
  {
    var i := MetricPlace(m);
    MetricPlaces(m);
    forall j | i < j < |evidence|
      ensures evidence[j].name != evidence[i].name
    {
      PlaceOfListed(i);
      PlaceOfListed(j);
    }
    LastFactHolds(evidence, i, |evidence|);
    assert evidence[..|evidence|] == evidence;
  }

  predicate IsCount(m: Metric) {
    m.YearsMetric? || m.HeadcountMetric?
  }

  lemma TextFactAgrees(md: Metadata, evidence: seq<EvidenceMetric>, a: BorrowerApplication, m: Metric)
    requires AllFacts(evidence) && FormedFrom(md, evidence, a) && IsTextFact(m)
    ensures FactOf(evidence, m) == ExpectedFact(a, m)
  {
    assert ExpectedFact(a, m) == Text(TextOf(evidence, m));
  }

  lemma NumberFactAgrees(md: Metadata, evidence: seq<EvidenceMetric>, p: Profile, a: BorrowerApplication, m: Metric)
    requires AllFacts(evidence) && ProfileOf(md, evidence) == Some(p) && a.profile == p && !IsTextFact(m) && !IsCount(m)
    ensures Number(NumberOf(evidence, m)) == ExpectedFact(a, m)
  {
  }

  /** Every fact but the counts is its profile field itself. */
  lemma OtherFactsAgree(md: Metadata, evidence: seq<EvidenceMetric>, a: BorrowerApplication, m: Metric)
    requires AllFacts(evidence) && FormedFrom(md, evidence, a) && !IsCount(m)
    ensures FactOf(evidence, m) == ExpectedFact(a, m)
  {
    if IsTextFact(m) {
      TextFactAgrees(md, evidence, a, m);
    } else {
      NumberFactAgrees(md, evidence, a.profile, a, m);
    }
  }

  function CountIn(p: Profile, m: Metric): nat
    requires IsCount(m)
  {
    if m.YearsMetric? then p.yearsOperating else p.employeeCount
  }

  lemma ProfileCounts(md: Metadata, evidence: seq<EvidenceMetric>, p: Profile, m: Metric)
    requires AllFacts(evidence) && ProfileOf(md, evidence) == Some(p) && IsCount(m)
    ensures WholeOf(evidence, m) == Some(CountIn(p, m))
  {
  }

  lemma WholeIsNumber(evidence: seq<EvidenceMetric>, m: Metric, n: nat)
    requires AllFacts(evidence) && !IsTextFact(m) && WholeOf(evidence, m) == Some(n)
    ensures FactOf(evidence, m) == Number(NumberOf(evidence, m)) && NumberOf(evidence, m).Integral() == Some(n)
  {
  }

  /** A count is the profile's, as a number. */
  lemma CountFact(md: Metadata, evidence: seq<EvidenceMetric>, a: BorrowerApplication, m: Metric) returns (n: nat)
    requires AllFacts(evidence) && FormedFrom(md, evidence, a) && IsCount(m)
    ensures FactOf(evidence, m) == Number(NumberOf(evidence, m)) && NumberOf(evidence, m).Integral() == Some(n)
    ensures ExpectedFact(a, m) == Number(FromInt(n))
  {
    n := CountIn(a.profile, m);
    ProfileCounts(md, evidence, a.profile, m);
    WholeIsNumber(evidence, m, n);
    ExpectedCount(a, m);
  }

  lemma ExpectedCount(a: BorrowerApplication, m: Metric)
    requires IsCount(m)
    ensures ExpectedFact(a, m) == Number(FromInt(CountIn(a.profile, m)))
  {
  }

  lemma WholesAreSame(d: Decimal, n: nat)
    requires d.Integral() == Some(n)
    ensures SameFact(Number(FromInt(n)), Number(d))
  {
    WholeAgrees(d, n);
  }

  lemma SameFactReflexive(x: FactValue)
    ensures SameFact(x, x)
  {
  }

  lemma FormedAgrees(md: Metadata, evidence: seq<EvidenceMetric>, a: BorrowerApplication, m: Metric)
    requires AllFacts(evidence) && FormedFrom(md, evidence, a)
    ensures SameFact(ExpectedFact(a, m), FactOf(evidence, m))
  {
    if IsCount(m) {
      var n := CountFact(md, evidence, a, m);
      WholesAreSame(NumberOf(evidence, m), n);
    } else {
      OtherFactsAgree(md, evidence, a, m);
      SameFactReflexive(FactOf(evidence, m));
    }
  }

  lemma FormedIsValid(md: Metadata, evidence: seq<EvidenceMetric>, a: BorrowerApplication)
    requires AllFacts(evidence) && FormedFrom(md, evidence, a)
    ensures Agrees(a, FactsOf(evidence))
  {
    forall m: Metric
      ensures m in FactsOf(evidence) && SameFact(ExpectedFact(a, m), FactsOf(evidence)[m])
    {
      ExtractedFactsAre(evidence, m);
      FormedAgrees(md, evidence, a, m);
    }
  }

  /**
   * An application is formed exactly when the facts lie in their ranges: the check of the
   * evidence against the profile, which was built from it, never fails.
   */
  lemma FormedExactly(md: Metadata, evidence: seq<EvidenceMetric>)
    requires ValidMetadata(md) && AllFacts(evidence)
    ensures FormApplication(md, evidence).Some? <==> Formable(evidence)
  {
    var profile := ProfileOf(md, evidence);
    if profile.Some? {
      var a := BorrowerApplication(
        md.applicationId, TextOf(evidence, BorrowerMetric), TextOf(evidence, IndustryMetric),
          TextOf(evidence, SubIndustryMetric),
        TextOf(evidence, RegionMetric), md.loanType, profile.value, evidence, FINANCE_CONTEXT, OPERATIONS_CONTEXT);
      FormedIsValid(md, evidence, a);
      assert ValidTexts(a);
      assert ValidApplication(a) <==> ValidProfile(a.profile);
    }
  }

  // ---- an example ----

  const SAMPLE_CITATION := Citation("doc", 1, BoundingBox(0.0, 0.0, 1.0, 1.0))

  /** A complete set of facts with the given years of operating; every other number is one. */
  function SampleEvidence(years: Decimal): (evidence: seq<EvidenceMetric>)
    ensures AllFacts(evidence) && FactOf(evidence, YearsMetric) == Number(years)
    ensures forall m :: !IsTextFact(m) && !m.YearsMetric? ==> FactOf(evidence, m) == Number(FromInt(1))
    ensures forall e :: e in evidence ==> e.citation == SAMPLE_CITATION
  {
    var evidence := seq(|EXTRACTED_FACTS|, i requires 0 <= i < |EXTRACTED_FACTS| =>
      EvidenceMetric(EXTRACTED_FACTS[i], SampleFact(EXTRACTED_FACTS[i], years), SAMPLE_CITATION));
    assert forall m :: SampleFact(m, years) == evidence[MetricPlace(m)].value by {
      forall m: Metric
        ensures SampleFact(m, years) == evidence[MetricPlace(m)].value
      {
        MetricPlaces(m);
      }
    }
    evidence
  }

  function SampleFact(m: Metric, years: Decimal): (value: FactValue)
    ensures WellTyped(m, value)
  {
    if IsTextFact(m) then Text("x") else Number(if m.YearsMetric? then years else FromInt(1))
  }

  lemma OneIsOne()
    ensures FromInt(1).Value() == 1.0 && FromInt(1).Integral() == Some(1)
  {
    assert Pow10(0) == 1;
  }

  lemma SampleIsFormable(years: Decimal)
    requires years.Integral().Some? && years.Integral().value >= 0
    ensures Formable(SampleEvidence(years))
  {
    OneIsOne();
    var evidence := SampleEvidence(years);
    assert forall m :: !IsTextFact(m) && !m.YearsMetric? ==> NumberOf(evidence, m) == FromInt(1);
    assert NumberOf(evidence, YearsMetric) == years;
  }

  lemma SampleIsFormed(md: Metadata, years: Decimal)
    requires ValidMetadata(md) && years.Integral().Some? && years.Integral().value >= 0
    ensures FormApplication(md, SampleEvidence(years)).Some?
  {
    var evidence := SampleEvidence(years);
    SampleIsFormable(years);
    FormedExactly(md, evidence);
  }
}
