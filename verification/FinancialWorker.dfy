/**
 * The financial worker: one tool call per missing metric, each metric saved as its own
 * artifact, so that a failing run can be resumed where it stopped; then all facts
 * together form the application.
 */
module FinancialWorker {
  import opened Collections
  import opened Wrappers
  import opened MatchingSchema
  import opened AgentSchema
  import opened AgentGraph
  import opened Facts

  /** An extracted figure: what it cites, and its text. */
  datatype Figure = Figure(citation: Citation, raw: Raw)

  /** How the extraction service answers for one metric. */
  datatype Reply = Unavailable | Ambiguous | ForeignReceipt | Found(figure: Figure)

  datatype Environment = Environment(permitted: Option<set<Tool>>, limit: nat, documents: set<string>)

  /** saved are the metric artifacts; tools the calls counted by the context; calls the metrics they were made for. */
  datatype Progress = Progress(saved: map<Metric, Figure>, tools: seq<Tool>, calls: seq<Metric>,
    evidence: seq<EvidenceMetric>)

  const EXTRACT_TOOL: Tool := "findociq_extract"
  const EXTRACT_UNAVAILABLE := WorkerFailure("findociq_extract_unavailable", true, false)
  const FACT_MISSING := WorkerFailure("required_document_fact_missing", false, true)
  const RECEIPT_INVALID := WorkerFailure("production_extract_receipt_invalid", false, false)
  const CROSS_APPLICATION := WorkerFailure("cross_application_evidence", false, false)
  const FACT_INVALID := WorkerFailure("required_document_fact_invalid", false, true)
  const PROFILE_INVALID := WorkerFailure("required_document_profile_invalid", false, true)

  /** The checks every figure passes, whether just extracted or loaded. */
  function FigureFailure(e: Environment, m: Metric, figure: Figure): Option<WorkerFailure> {
    if figure.citation.documentId !in e.documents then Some(CROSS_APPLICATION)
    else if ParseFact(m, figure.raw).None? then Some(FACT_INVALID)
    else None
  }

  function EvidenceFrom(m: Metric, figure: Figure): EvidenceMetric
    requires ParseFact(m, figure.raw).Some?
  {
    EvidenceMetric(m, ParseFact(m, figure.raw).value, figure.citation)
  }

  function UseFigure(e: Environment, p: Progress, m: Metric, figure: Figure): (Progress, Option<WorkerFailure>) {
    var failure := FigureFailure(e, m, figure);
    (if failure.Some? then p else p.(evidence := p.evidence + [EvidenceFrom(m, figure)]), failure)
  }

  /** A refused call is reported like an unavailable service. */
  function ExtractOne(e: Environment, p: Progress, m: Metric, reply: Reply): (Progress, Option<WorkerFailure>) {
    if m in p.saved then UseFigure(e, p, m, p.saved[m])
    else
      var (tools, refusal) := Spend(e.permitted, e.limit, p.tools, [EXTRACT_TOOL]);
      var p' := p.(tools := tools, calls := if refusal.None? then p.calls + [m] else p.calls);
      if refusal.Some? then (p', Some(EXTRACT_UNAVAILABLE))
      else
        match reply
        case Unavailable => (p', Some(EXTRACT_UNAVAILABLE))
        case Ambiguous => (p', Some(FACT_MISSING))
        case ForeignReceipt => (p', Some(RECEIPT_INVALID))
        case Found(figure) => UseFigure(e, p'.(saved := p.saved[m := figure]), m, figure)
  }

  function Extract(
    e: Environment, p: Progress, metrics: seq<Metric>, script: Metric -> Reply): (Progress, Option<WorkerFailure>)
    decreases |metrics|
  {
    if metrics == [] then (p, None)
    else
      var (p', failure) := ExtractOne(e, p, metrics[0], script(metrics[0]));
      if failure.Some? then (p', failure) else Extract(e, p', metrics[1..], script)
  }

  /** The extraction from metric i on is one metric, and then the extraction from the next on unless it failed. */
  lemma ExtractUnrolls(e: Environment, p: Progress, i: nat, script: Metric -> Reply)
    requires i < |EXTRACTED_FACTS|
    ensures var m := EXTRACTED_FACTS[i];
            var (p', failure) := ExtractOne(e, p, m, script(m));
            Extract(e, p, EXTRACTED_FACTS[i..], script) == if failure.Some? then (p', failure)
              else Extract(e, p', EXTRACTED_FACTS[i + 1..], script)
  {
    assert EXTRACTED_FACTS[i..][0] == EXTRACTED_FACTS[i] && EXTRACTED_FACTS[i..][1..] == EXTRACTED_FACTS[i + 1..];
  }

  class MetricExtraction {
    var saved: map<Metric, Figure>

    constructor ()
      ensures saved == map[]
    {
      saved := map[];
    }

    /** One run over all metrics. */
    method Run(context: WorkerContext, documents: set<string>, script: Metric -> Reply)
      returns (evidence: seq<EvidenceMetric>, ghost calls: seq<Metric>, failure: Option<WorkerFailure>)
      requires context.Valid()
      modifies this, context
      ensures context.Valid()
      ensures (Progress(saved, context.tools, calls, evidence), failure)
           == Extract(Environment(context.permitted, context.limit, documents),
                      Progress(old(saved), old(context.tools), [], []), EXTRACTED_FACTS, script)
    {
      evidence := [];
      calls := [];
      failure := None;
      ghost var e := Environment(context.permitted, context.limit, documents);
      ghost var result := Extract(e, Progress(saved, context.tools, [], []), EXTRACTED_FACTS, script);
      var i := 0;
      while i < |EXTRACTED_FACTS|
        invariant 0 <= i <= |EXTRACTED_FACTS| && context.Valid() && failure == None
        invariant Extract(e, Progress(saved, context.tools, calls, evidence), EXTRACTED_FACTS[i..], script) == result
      {
        var m := EXTRACTED_FACTS[i];
        ghost var p := Progress(saved, context.tools, calls, evidence);
        ExtractUnrolls(e, p, i, script);
        var figure;
        if m in saved {
          figure := saved[m];
        } else {
          var refusal := context.ConsumeToolCall(EXTRACT_TOOL);
          if refusal.Some? {
            failure := Some(EXTRACT_UNAVAILABLE);
            return;
          }
          calls := calls + [m];
          match script(m) {
            case Unavailable =>
              failure := Some(EXTRACT_UNAVAILABLE);
              return;
            case Ambiguous =>
              failure := Some(FACT_MISSING);
              return;
            case ForeignReceipt =>
              failure := Some(RECEIPT_INVALID);
              return;
            case Found(found) =>
              saved := saved[m := found];
              figure := found;
          }
        }
        if figure.citation.documentId !in documents {
          failure := Some(CROSS_APPLICATION);
          return;
        }
        var value := ParseFact(m, figure.raw);
        if value.None? {
          failure := Some(FACT_INVALID);
          return;
        }
        evidence := evidence + [EvidenceMetric(m, value.value, figure.citation)];
        assert ExtractOne(e, p, m, script(m)) == (Progress(saved, context.tools, calls, evidence), None);
        i := i + 1;
      }
    }

    /** The whole worker: the metric loop and the application. */
    method Work(context: WorkerContext, documents: set<string>, md: Metadata, script: Metric -> Reply)
      returns (result: Result<BorrowerApplication, WorkerFailure>, ghost calls: seq<Metric>,
        ghost evidence: seq<EvidenceMetric>)
      requires context.Valid()
      modifies this, context
      ensures context.Valid()
      ensures (Progress(saved, context.tools, calls, evidence), result)
           == Worked(Environment(context.permitted, context.limit, documents), md,
                     Progress(old(saved), old(context.tools), [], []), script)
    {
      ghost var e, p := Environment(context.permitted, context.limit, documents), Progress(saved, context.tools, [],
        []);
      var extracted, failure;
      extracted, calls, failure := Run(context, documents, script);
      evidence := extracted;
      if failure.Some? {
        return Err(failure.value), calls, evidence;
      }
      ExtractYieldsAllFacts(e, p, script);
      var application := FormApplication(md, extracted);
      if application.None? {
        return Err(PROFILE_INVALID), calls, evidence;
      }
      return Ok(application.value), calls, evidence;
    }
  }

  // ---- the whole run ----

  /** What each metric yields when it is saved or found in a usable form. */
  predicate Obtainable(e: Environment, saved: map<Metric, Figure>, m: Metric, reply: Reply) {
    if m in saved then FigureFailure(e, m, saved[m]).None?
    else reply.Found? && FigureFailure(e, m, reply.figure).None?
  }

  function Obtained(e: Environment, saved: map<Metric, Figure>, m: Metric, reply: Reply): EvidenceMetric
    requires Obtainable(e, saved, m, reply)
  {
    EvidenceFrom(m, if m in saved then saved[m] else reply.figure)
  }

  predicate AllObtainable(e: Environment, saved: map<Metric, Figure>, metrics: seq<Metric>, script: Metric -> Reply) {
    forall m :: m in metrics ==> Obtainable(e, saved, m, script(m))
  }

  function ObtainedAll(
    e: Environment, saved: map<Metric, Figure>, metrics: seq<Metric>, script: Metric -> Reply): seq<EvidenceMetric>
    requires AllObtainable(e, saved, metrics, script)
  {
    seq(|metrics|, i requires 0 <= i < |metrics| => Obtained(e, saved, metrics[i], script(metrics[i])))
  }

  /** A run that does not fail yields the figure of every metric, saved or new, in order. */
  lemma {:induction false} ExtractYields(e: Environment, p: Progress, metrics: seq<Metric>, script: Metric -> Reply)
    requires Distinct(metrics) && Extract(e, p, metrics, script).1.None?
    ensures AllObtainable(e, p.saved, metrics, script)
    ensures Extract(e, p, metrics, script).0.evidence == p.evidence + ObtainedAll(e, p.saved, metrics, script)
    decreases |metrics|
  {
    if metrics != [] {
      var m := metrics[0];
      var p' := ExtractOne(e, p, m, script(m)).0;
      DistinctTail(metrics);
      ExtractYields(e, p', metrics[1..], script);
      assert p'.evidence == p.evidence + [Obtained(e, p.saved, m, script(m))];
      assert forall v :: v in metrics <==> v == m || v in metrics[1..];
      assert AllObtainable(e, p.saved, metrics, script);
      assert ObtainedAll(e, p.saved, metrics, script)
          == [Obtained(e, p.saved, m, script(m))] + ObtainedAll(e, p'.saved, metrics[1..], script);
    }
  }

  lemma ObtainedAreAllFacts(e: Environment, saved: map<Metric, Figure>, script: Metric -> Reply)
    requires AllObtainable(e, saved, EXTRACTED_FACTS, script)
    ensures AllFacts(ObtainedAll(e, saved, EXTRACTED_FACTS, script))
  {
    var evidence := ObtainedAll(e, saved, EXTRACTED_FACTS, script);
    forall i | 0 <= i < |evidence|
      ensures evidence[i].name == EXTRACTED_FACTS[i] && WellTyped(evidence[i].name, evidence[i].value)
    {
      assert EXTRACTED_FACTS[i] in EXTRACTED_FACTS;
    }
  }

  lemma ExtractYieldsAllFacts(e: Environment, p: Progress, script: Metric -> Reply)
    requires p.evidence == [] && Extract(e, p, EXTRACTED_FACTS, script).1.None?
    ensures AllObtainable(e, p.saved, EXTRACTED_FACTS, script)
    ensures AllFacts(Extract(e, p, EXTRACTED_FACTS, script).0.evidence)
    ensures Extract(e, p, EXTRACTED_FACTS, script).0.evidence == ObtainedAll(e, p.saved, EXTRACTED_FACTS, script)
  {
    FactsAreDistinct();
    ExtractYields(e, p, EXTRACTED_FACTS, script);
    ObtainedAreAllFacts(e, p.saved, script);
  }

  /** The metric loop, and then the application formed from what it yields. */
  function Worked(
    e: Environment, md: Metadata, p: Progress, script: Metric -> Reply): (Progress,
    Result<BorrowerApplication, WorkerFailure>)
    requires p.evidence == []
  {
    var (p', failure) := Extract(e, p, EXTRACTED_FACTS, script);
    if failure.Some? then (p', Err(failure.value))
    else
      ExtractYieldsAllFacts(e, p, script);
      match FormApplication(md, p'.evidence)
      case None => (p', Err(PROFILE_INVALID))
      case Some(application) => (p', Ok(application))
  }

  // ---- saved metrics ----

  function Missing(saved: map<Metric, Figure>, metrics: seq<Metric>): nat {
    if metrics == [] then 0
    else (if metrics[0] in saved then 0 else 1) + Missing(saved, metrics[1..])
  }

  lemma {:induction false} MissingIsBounded(saved: map<Metric, Figure>, metrics: seq<Metric>)
    ensures Missing(saved, metrics) <= |metrics|
  {
    if metrics != [] {
      MissingIsBounded(saved, metrics[1..]);
    }
  }

  lemma {:induction false} MissingDependsOnMembers(a: map<Metric, Figure>, b: map<Metric, Figure>, metrics: seq<Metric>)
    requires forall m :: m in metrics ==> (m in a <==> m in b)
    ensures Missing(a, metrics) == Missing(b, metrics)
  {
    if metrics != [] {
      assert metrics[0] in metrics;
      MissingDependsOnMembers(a, b, metrics[1..]);
    }
  }

  /** A saved metric is never extracted or saved again, and nothing outside the list is saved. */
  lemma {:induction false} SavedMetricsAreKept(
    e: Environment, p: Progress, metrics: seq<Metric>, script: Metric -> Reply, m: Metric)
    ensures m in p.saved ==> m in Extract(e, p, metrics, script).0.saved
    ensures m in p.saved ==> Extract(e, p, metrics, script).0.saved[m] == p.saved[m]
    ensures m in Extract(e, p, metrics, script).0.saved ==> m in p.saved || m in metrics
    decreases |metrics|
  {
    if metrics != [] {
      var (p', failure) := ExtractOne(e, p, metrics[0], script(metrics[0]));
      if failure.None? {
        SavedMetricsAreKept(e, p', metrics[1..], script, m);
      }
    }
  }

  /** Calls are made only for metrics that were missing, each at most once. */
  lemma {:induction false} CallsAreForMissingMetrics(
    e: Environment, p: Progress, metrics: seq<Metric>, script: Metric -> Reply)
    requires Distinct(metrics)
    ensures var r := Extract(e, p, metrics, script).0;
            && p.calls <= r.calls
            && (forall i :: |p.calls| <= i < |r.calls| ==> r.calls[i] in metrics && r.calls[i] !in p.saved)
            && Distinct(r.calls[|p.calls|..])
    decreases |metrics|
  {
    if metrics != [] {
      var (p', failure) := ExtractOne(e, p, metrics[0], script(metrics[0]));
      var r := Extract(e, p, metrics, script).0;
      if failure.None? {
        DistinctTail(metrics);
        CallsAreForMissingMetrics(e, p', metrics[1..], script);
        forall i | |p.calls| <= i < |r.calls|
          ensures r.calls[i] in metrics && r.calls[i] !in p.saved
        {
        }
        forall i, j | 0 <= i < j < |r.calls[|p.calls|..]|
          ensures Differ(r.calls[|p.calls|..], i, j)
        {
          CallsDiffer(p.calls, p'.calls, r.calls, metrics, i, j);
        }
      }
    }
  }

  lemma CallsDiffer(before: seq<Metric>, between: seq<Metric>, after: seq<Metric>, metrics: seq<Metric>, i: nat, j: nat)
    requires metrics != [] && metrics[0] !in metrics[1..]
    requires between == before || between == before + [metrics[0]]
    requires between <= after && Distinct(after[|between|..])
    requires forall k :: |between| <= k < |after| ==> after[k] in metrics[1..]
    requires i < j < |after[|before|..]|
    ensures Differ(after[|before|..], i, j)
  {
    var shift := |between| - |before|;
    if i >= shift {
      assert Differ(after[|between|..], i - shift, j - shift);
    } else {
      assert after[|before|..][0] == metrics[0];
      assert after[|before| + j] in metrics[1..];
    }
  }

  lemma OneCall(permitted: Option<set<Tool>>, limit: nat, used: seq<Tool>, tool: Tool)
    ensures Spend(permitted, limit, used, [tool]).1.None? <==> MayUse(permitted, tool) && |used| + 1 <= limit
    ensures MayUse(permitted, tool) ==> Spend(permitted, limit, used, [tool]).0 == used + [tool]
  {
    assert [tool][1..] == [];
  }

  lemma OneStepCounts(e: Environment, p: Progress, metrics: seq<Metric>, reply: Reply)
    requires metrics != [] && Distinct(metrics)
    ensures var (p', failure) := ExtractOne(e, p, metrics[0], reply);
            var gained := Missing(p.saved, metrics) - Missing(p'.saved, metrics);
            && Missing(p'.saved, metrics[1..]) == Missing(p.saved, metrics[1..])
            && 0 <= gained && |p.calls| + gained <= |p'.calls|
            && |p'.calls| <= |p.calls| + gained + (if failure.Some? then 1 else 0)
            && (failure.None? ==> metrics[0] in p'.saved)
  {
    DistinctTail(metrics);
    OneCall(e.permitted, e.limit, p.tools, EXTRACT_TOOL);
    var p' := ExtractOne(e, p, metrics[0], reply).0;
    MissingDependsOnMembers(p.saved, p'.saved, metrics[1..]);
  }

  /**
   * Accounting of one run: every call but at most the last one, the failing one, saves
   * a missing metric; missing metrics never become more.
   */
  lemma {:induction false} CallsAreAccounted(e: Environment, p: Progress, metrics: seq<Metric>, script: Metric -> Reply)
    requires Distinct(metrics)
    ensures var (r, failure) := Extract(e, p, metrics, script);
            var gained := Missing(p.saved, metrics) - Missing(r.saved, metrics);
            && 0 <= gained && |p.calls| + gained <= |r.calls|
            && |r.calls| <= |p.calls| + gained + (if failure.Some? then 1 else 0)
            && (failure.None? ==> Missing(r.saved, metrics) == 0)
    decreases |metrics|
  {
    if metrics != [] {
      OneStepCounts(e, p, metrics, script(metrics[0]));
      var (p', failure) := ExtractOne(e, p, metrics[0], script(metrics[0]));
      if failure.None? {
        DistinctTail(metrics);
        CallsAreAccounted(e, p', metrics[1..], script);
        SavedMetricsAreKept(e, p', metrics[1..], script, metrics[0]);
      }
    }
  }

  lemma FactsAreDistinct()
    ensures Distinct(EXTRACTED_FACTS) && |EXTRACTED_FACTS| == 13
  {
    forall i, j | 0 <= i < j < |EXTRACTED_FACTS|
      ensures Differ(EXTRACTED_FACTS, i, j)
    {
      assert MetricPlace(EXTRACTED_FACTS[i]) == i && MetricPlace(EXTRACTED_FACTS[j]) == j;
    }
  }

  // ---- the budget ----

  lemma RefusalFree(e: Environment, p: Progress, m: Metric, reply: Reply)
    requires MayUse(e.permitted, EXTRACT_TOOL) && (m in p.saved || |p.tools| + 1 <= e.limit)
    ensures ExtractOne(e, p, m, reply).1.None? <==> Obtainable(e, p.saved, m, reply)
    ensures |ExtractOne(e, p, m, reply).0.tools| == |p.tools| + (if m in p.saved then 0 else 1)
  {
    OneCall(e.permitted, e.limit, p.tools, EXTRACT_TOOL);
  }

  /**
   * With the tool permitted and a budget for the missing metrics, the loop succeeds
   * exactly when every metric is saved or found in a usable form: the budget never
   * stands in the way.
   */
  lemma {:induction false} LoopSucceedsExactly(
    e: Environment, p: Progress, metrics: seq<Metric>, script: Metric -> Reply)
    requires Distinct(metrics) && MayUse(e.permitted, EXTRACT_TOOL) && |p.tools| + Missing(p.saved, metrics) <= e.limit
    ensures Extract(e, p, metrics, script).1.None? <==> AllObtainable(e, p.saved, metrics, script)
    decreases |metrics|
  {
    if metrics != [] {
      var m := metrics[0];
      RefusalFree(e, p, m, script(m));
      DistinctTail(metrics);
      var (p', failure) := ExtractOne(e, p, m, script(m));
      assert forall v :: v in metrics <==> v == m || v in metrics[1..];
      if failure.None? {
        MissingDependsOnMembers(p.saved, p'.saved, metrics[1..]);
        LoopSucceedsExactly(e, p', metrics[1..], script);
      }
    }
  }

  /**
   * The thirteen calls of the budget suffice for every run of the worker: it yields an
   * application exactly when every metric is saved or found in a usable form and the
   * thirteen facts lie in the ranges of a profile, and the application is the one they
   * determine.
   */
  lemma ThirteenCallsSuffice(e: Environment, md: Metadata, saved: map<Metric, Figure>, script: Metric -> Reply)
    requires MayUse(e.permitted, EXTRACT_TOOL) && e.limit >= 13 && ValidMetadata(md)
    ensures AllObtainable(e, saved, EXTRACTED_FACTS, script) ==>
        AllFacts(ObtainedAll(e, saved, EXTRACTED_FACTS, script))
    ensures var result := Worked(e, md, Progress(saved, [], [], []), script).1;
            && (result.Ok? <==>
                  && AllObtainable(e, saved, EXTRACTED_FACTS, script)
                  && Formable(ObtainedAll(e, saved, EXTRACTED_FACTS, script)))
            && (result.Ok? ==>
                  && FormedFrom(md, ObtainedAll(e, saved, EXTRACTED_FACTS, script), result.value)
                  && ValidApplication(result.value))
            && (AllObtainable(e, saved, EXTRACTED_FACTS, script) && result.Err? ==> result.error == PROFILE_INVALID)
  {
    var p := Progress(saved, [], [], []);
    FactsAreDistinct();
    MissingIsBounded(saved, EXTRACTED_FACTS);
    LoopSucceedsExactly(e, p, EXTRACTED_FACTS, script);
    if AllObtainable(e, saved, EXTRACTED_FACTS, script) {
      ExtractYieldsAllFacts(e, p, script);
      FormedExactly(md, ObtainedAll(e, saved, EXTRACTED_FACTS, script));
    }
  }

  lemma EveryFactIsListed(m: Metric)
    ensures m in EXTRACTED_FACTS
  {
    MetricPlaces(m);
  }

  /** A saved metric that is not usable fails every later run, whatever the service answers, until it is invalidated. */
  lemma UnusableSavedMetricIsFinal(
    e: Environment, md: Metadata, saved: map<Metric, Figure>, m: Metric, script: Metric -> Reply)
    requires MayUse(e.permitted, EXTRACT_TOOL) && e.limit >= 13 && ValidMetadata(md)
    requires m in saved && FigureFailure(e, m, saved[m]).Some?
    ensures var (r, result) := Worked(e, md, Progress(saved, [], [], []), script);
            result.Err? && m !in r.calls && m in r.saved && r.saved[m] == saved[m]
  {
    ThirteenCallsSuffice(e, md, saved, script);
    EveryFactIsListed(m);
    assert !Obtainable(e, saved, m, script(m));
    FactsAreDistinct();
    SavedMetricsAreKept(e, Progress(saved, [], [], []), EXTRACTED_FACTS, script, m);
    CallsAreForMissingMetrics(e, Progress(saved, [], [], []), EXTRACTED_FACTS, script);
  }

  /**
   * Thirteen usable facts that form no valid profile fail every later run as well, with
   * no call to the service, until they are invalidated.
   */
  lemma UnformableFactsAreFinal(e: Environment, md: Metadata, saved: map<Metric, Figure>, script: Metric -> Reply)
    requires MayUse(e.permitted, EXTRACT_TOOL) && e.limit >= 13 && ValidMetadata(md)
    requires forall m: Metric :: m in saved && FigureFailure(e, m, saved[m]).None?
    ensures AllObtainable(e, saved, EXTRACTED_FACTS, script) && AllFacts(ObtainedAll(e, saved, EXTRACTED_FACTS, script))
    ensures !Formable(ObtainedAll(e, saved, EXTRACTED_FACTS, script)) ==>
              var (r, result) := Worked(e, md, Progress(saved, [], [], []), script);
              result == Err(PROFILE_INVALID) && r.calls == [] && r.saved == saved
  {
    ThirteenCallsSuffice(e, md, saved, script);
    NothingMissing(e, Progress(saved, [], [], []), EXTRACTED_FACTS, script);
  }

  lemma {:induction false} NothingMissing(e: Environment, p: Progress, metrics: seq<Metric>, script: Metric -> Reply)
    requires forall m :: m in metrics ==> m in p.saved
    ensures Extract(e, p, metrics, script).0.calls == p.calls && Extract(e, p, metrics, script).0.saved == p.saved
    decreases |metrics|
  {
    if metrics != [] {
      var (p', failure) := ExtractOne(e, p, metrics[0], script(metrics[0]));
      if failure.None? {
        NothingMissing(e, p', metrics[1..], script);
      }
    }
  }

  // ---- over many runs ----

  /** Artifacts, calls and failures after a series of runs, each with a fresh budget. */
  function Runs(
    e: Environment, saved: map<Metric, Figure>, scripts: seq<Metric -> Reply>): (map<Metric, Figure>, nat, nat)
  {
    if scripts == [] then (saved, 0, 0)
    else
      var (sofar, calls, failures) := Runs(e, saved, scripts[..|scripts| - 1]);
      var (r, failure) := Extract(e, Progress(sofar, [], [], []), EXTRACTED_FACTS, scripts[|scripts| - 1]);
      (r.saved, calls + |r.calls|, failures + if failure.Some? then 1 else 0)
  }

  /**
   * Over any series of failing and resumed runs, no more calls are made than metrics were
   * missing plus runs that failed.
   */
  lemma {:induction false} TotalCallsAreBounded(
    e: Environment, saved: map<Metric, Figure>, scripts: seq<Metric -> Reply>)
    ensures var (r, calls, failures) := Runs(e, saved, scripts);
            && Missing(r, EXTRACTED_FACTS) <= Missing(saved, EXTRACTED_FACTS)
            && calls + Missing(r, EXTRACTED_FACTS) <= Missing(saved, EXTRACTED_FACTS) + failures
            && calls <= 13 + failures
  {
    FactsAreDistinct();
    MissingIsBounded(saved, EXTRACTED_FACTS);
    if scripts != [] {
      var sofar := Runs(e, saved, scripts[..|scripts| - 1]).0;
      TotalCallsAreBounded(e, saved, scripts[..|scripts| - 1]);
      CallsAreAccounted(e, Progress(sofar, [], [], []), EXTRACTED_FACTS, scripts[|scripts| - 1]);
    }
  }

  /** Once saved, a metric keeps its figure over every later run. */
  lemma {:induction false} SavedOnceForAll(
    e: Environment, saved: map<Metric, Figure>, scripts: seq<Metric -> Reply>, m: Metric)
    requires m in saved
    ensures m in Runs(e, saved, scripts).0 && Runs(e, saved, scripts).0[m] == saved[m]
  {
    if scripts != [] {
      SavedOnceForAll(e, saved, scripts[..|scripts| - 1], m);
      var sofar := Runs(e, saved, scripts[..|scripts| - 1]).0;
      SavedMetricsAreKept(e, Progress(sofar, [], [], []), EXTRACTED_FACTS, scripts[|scripts| - 1], m);
    }
  }
}
