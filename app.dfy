/** The `/analyze` dispatcher: pick the analyzer by the feature flag, count line items per
    risk level, and write exactly one run-log record on the success path or on the failure
    path before the error is re-raised. The log sink is the returned sequence of records. */
module App {
  import opened Errors
  import opened Json
  import opened Schema
  import opened Prompt
  import opened StubAnalyzer
  import opened OpenAIAnalyzer

  /** The runtime settings the dispatcher and the analyzers read. */
  datatype Config = Config(useOpenAI: bool, model: string, apiKey: Option<string>)

  /** One run-log record, without the `event` tag and the logger's own wall-clock stamp. */
  datatype LogRecord = LogRecord(
    requestId: string,
    promptVersion: string,
    model: string,
    latencyMs: int,
    schemaValid: bool,
    numItems: nat,
    riskCounts: map<string, int>,
    uncertainty: map<string, Json>,
    error: Option<string>)

  const ZeroCounts: map<string, int> := map["red" := 0, "yellow" := 0, "green" := 0]

  /** The number of items whose risk level is `level`. */
  function CountLevel(items: seq<LineItem>, level: RiskLevel): (n: nat)
    ensures n <= |items|
  {
    if items == [] then 0
    else CountLevel(items[..|items| - 1], level) + (if items[|items| - 1].riskLevel == level then 1 else 0)
  }

  /** Every item lands in exactly one bucket, so the three counts add up to the item count. */
  lemma {:induction false} CountsSumToLength(items: seq<LineItem>)
    ensures CountLevel(items, Red) + CountLevel(items, Yellow) + CountLevel(items, Green) == |items|
  {
    if items != [] {
      CountsSumToLength(items[..|items| - 1]);
    }
  }

  /** The `risk_counts` loop: start every bucket at zero, then bump the bucket named by each
      item's risk level. */
  method RiskCounts(items: seq<LineItem>) returns (counts: map<string, int>)
    ensures counts.Keys == {"red", "yellow", "green"}
    ensures forall level :: counts[RiskLevelName(level)] == CountLevel(items, level)
  {
    counts := map["red" := 0, "yellow" := 0, "green" := 0];
    for i := 0 to |items|
      invariant counts.Keys == {"red", "yellow", "green"}
      invariant forall level :: counts[RiskLevelName(level)] == CountLevel(items[..i], level)
    {
      assert items[..i + 1][..i] == items[..i];
      var bucket := RiskLevelName(items[i].riskLevel);
      if bucket in counts {
        counts := counts[bucket := counts[bucket] + 1];
      }
    }
    assert items[..|items|] == items;
  }

  /** What the selected analyzer yields: the result and the latency it reports. */
  function AnalyzerOutcome(
    req: AnalyzeRequest, config: Config, requestId: string, createdAt: string,
    stubElapsedMs: nat, reply: ProviderReply, providerElapsedMs: nat)
    : (r: Result<(QuoteCheckResult, int)>)
    ensures config.useOpenAI ==>
      r == OpenAIOutcome(req.quoteText, requestId, config.apiKey, config.model, reply, providerElapsedMs, createdAt)
    ensures !config.useOpenAI ==> (r.Ok? <==> |config.model| >= 1 && |requestId| >= 1)
    ensures !config.useOpenAI && r.Ok? ==>
      r.value.0.lineItems == StubLineItems(req.quoteText) && r.value.1 == stubElapsedMs
    ensures r.Ok? ==> Valid(r.value.0)
    ensures r.Ok? ==>
      && r.value.0.metadata.requestId == requestId
      && r.value.0.metadata.model == config.model
      && r.value.0.metadata.promptVersion == PROMPT_VERSION
      && r.value.0.metadata.latencyMs == r.value.1
  {
    if config.useOpenAI then
      OpenAIOutcome(req.quoteText, requestId, config.apiKey, config.model, reply, providerElapsedMs, createdAt)
    else
      match StubOutcome(req.quoteText, config.model, createdAt, requestId, stubElapsedMs)
      case Ok(result) => Ok((result, stubElapsedMs as int))
      case Err(e) => Err(e)
  }

  /** `analyze`. The clock readings (`stubElapsedMs` before the stub call, `failElapsedMs`
      in the handler), the request id, the provider's reply and the schema text are inputs.
      Exactly one record is logged; the success record describes the returned result, the
      failure record carries the error text, and the error is passed on unchanged. */
  method Analyze(
    req: AnalyzeRequest, config: Config, requestId: string, createdAt: string,
    stubElapsedMs: nat, reply: ProviderReply, providerElapsedMs: nat, schemaJson: string,
    failElapsedMs: nat)
    returns (outcome: Result<QuoteCheckResult>, log: seq<LogRecord>)
    ensures var selected := AnalyzerOutcome(req, config, requestId, createdAt, stubElapsedMs, reply, providerElapsedMs);
      && (selected.Ok? ==> outcome == Ok(selected.value.0))
      && (selected.Err? ==> outcome == Err(selected.error))
    ensures |log| == 1
    ensures outcome.Ok? ==>
      && log[0].requestId == requestId
      && log[0].promptVersion == outcome.value.metadata.promptVersion
      && log[0].model == outcome.value.metadata.model
      && log[0].latencyMs == outcome.value.metadata.latencyMs
      && log[0].schemaValid
      && log[0].numItems == |outcome.value.lineItems|
      && log[0].riskCounts.Keys == {"red", "yellow", "green"}
      && (forall level :: log[0].riskCounts[RiskLevelName(level)] == CountLevel(outcome.value.lineItems, level))
      && log[0].uncertainty == EncodeMarkers(outcome.value.uncertaintyMarkers).fields
      && log[0].error == None
    ensures outcome.Err? ==>
      log[0] == LogRecord(requestId, PROMPT_VERSION, config.model, failElapsedMs, false, 0,
                          ZeroCounts, map[], Some(Describe(outcome.error)))
  {
    var result: QuoteCheckResult;
    var latencyMs: int;
    if config.useOpenAI {
      var r, _ := AnalyzeQuoteOpenAI(req.quoteText, requestId, config.apiKey, config.model, schemaJson,
                                     reply, providerElapsedMs, createdAt);
      if r.Err? {
        outcome := Err(r.error);
        log := [LogRecord(requestId, PROMPT_VERSION, config.model, failElapsedMs, false, 0,
                          ZeroCounts, map[], Some(Describe(r.error)))];
        return;
      }
      result, latencyMs := r.value.0, r.value.1;
    } else {
      latencyMs := stubElapsedMs;
      var r := AnalyzeQuoteStub(req.quoteText, config.model, createdAt, requestId, latencyMs);
      if r.Err? {
        outcome := Err(r.error);
        log := [LogRecord(requestId, PROMPT_VERSION, config.model, failElapsedMs, false, 0,
                          ZeroCounts, map[], Some(Describe(r.error)))];
        return;
      }
      result := r.value;
    }
    var counts := RiskCounts(result.lineItems);
    log := [LogRecord(requestId, result.metadata.promptVersion, result.metadata.model, latencyMs, true,
                      |result.lineItems|, counts, EncodeMarkers(result.uncertaintyMarkers).fields, None)];
    outcome := Ok(result);
  }

  // ---------------------------------------------------------------------------------------
  // Properties of the dispatcher.
  // ---------------------------------------------------------------------------------------

  /** In stub mode, with a configured model name and a generated request id, a request to
      the corrected stub (markers under their declared key) always succeeds and the logged
      counts cover every item. */
  lemma {:induction false} StubModeSucceeds(
    req: AnalyzeRequest, config: Config, requestId: string, createdAt: string,
    stubElapsedMs: nat, reply: ProviderReply, providerElapsedMs: nat)
    requires !config.useOpenAI && |config.model| >= 1 && |requestId| >= 1
    ensures var r := AnalyzerOutcome(req, config, requestId, createdAt, stubElapsedMs, reply, providerElapsedMs);
      && r.Ok?
      && CountLevel(r.value.0.lineItems, Red) + CountLevel(r.value.0.lineItems, Yellow)
         + CountLevel(r.value.0.lineItems, Green) == |r.value.0.lineItems|
      && 1 <= |r.value.0.lineItems| <= 2
  {
    var r := AnalyzerOutcome(req, config, requestId, createdAt, stubElapsedMs, reply, providerElapsedMs);
    CountsSumToLength(r.value.0.lineItems);
  }

  /** In model mode without a credential, the request fails with the configuration error
      (that nothing is then sent to the provider is `AnalyzeQuoteOpenAI`'s `sent == []`). */
  lemma MissingCredentialFails(
    req: AnalyzeRequest, config: Config, requestId: string, createdAt: string,
    stubElapsedMs: nat, reply: ProviderReply, providerElapsedMs: nat)
    requires config.useOpenAI && (config.apiKey.None? || config.apiKey == Some(""))
    ensures AnalyzerOutcome(req, config, requestId, createdAt, stubElapsedMs, reply, providerElapsedMs)
         == Err(ConfigError(MISSING_KEY_MESSAGE))
  {
  }

  /** A quote naming both brakes and tyres is logged as one red and one yellow item. */
  lemma {:induction false} BothRulesCounts()
    ensures var items := StubLineItems("Replace BRAKE pads and front tyres");
      CountLevel(items, Red) == 1 && CountLevel(items, Yellow) == 1 && CountLevel(items, Green) == 0
  {
    ScenarioBoth();
    var items := StubLineItems("Replace BRAKE pads and front tyres");
    assert items == [BrakeItem, TyreItem];
    assert items[..1] == [BrakeItem];
    assert items[..1][..0] == [];
  }
}
