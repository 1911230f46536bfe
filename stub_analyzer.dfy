/** The deterministic heuristic analyzer: case-insensitive keyword rules build the line-item
    list, then fixed boilerplate and the caller's metadata complete the result. */
module StubAnalyzer {
  import opened Errors
  import opened Json
  import opened Text
  import opened Schema
  import Prompt

  const BrakeItem := LineItem(
    "Brake service/ pads (from quote)",
    SafetyCritical, NeedsInspection, Red, 0.70,
    "Braking components are safety-critical. Ask for pad thickness and rotor condition evidence.",
    None,
    ["Pad thickness measurement (mm)", "Rotor condition photo", "Reason for replacement"])

  const TyreItem := LineItem(
    "Tyre replacement (from quote)",
    SafetyCritical, AskForEvidence, Yellow, 0.65,
    "Tyres affect braking and handling. Ask for tread depth and sidewall condition details.",
    Some(Price(0.0, "INR")),
    ["Tread depth (mm)", "Uneven wear explanation", "Sidewall damage photo (if any)"])

  const FallbackItem := LineItem(
    "Unclear item(s) - needs clarification",
    UnknownNeedsClarification, Unknown, Yellow, 0.35,
    "The quote text lacks enough detail to classify items reliably. Ask the service center for an itemized breakdown.",
    None,
    ["Itemized parts + labor list", "Reason for each recommendation"])

  const Summary: seq<string> := [
    "This is a v0 stub response to validate the end-to-end contract.",
    "Safety-critical items (like brakes/tyres) should be verified with evidence before approval.",
    "Ask for measurements, photos, and the specific failure reason for any recommendation."]

  const Questions: seq<string> := [
    "Can you share photos/measurements that justify each recommended item?",
    "Which items are safety-critical vs optional preventive maintenance?",
    "Confirm whether the recommendation is OEM-specified or shop-suggested."]

  const ThingsToVerify: seq<string> := [
    "Request an itemized parts + labour breakdown for each line item.",
    "Ask for measurements (pad thickness, tread depth) where applicable.",
    "Confirm whether the recommendation is OEM-specified or shop-suggested."]

  const Disclaimer: string := "Not safety advice; verify with a certified mechanic."

  /** The braking rule fires when the lower-cased text contains "brake". */
  predicate MentionsBrake(quoteText: string)
  {
    Contains(Lower(quoteText), "brake")
  }

  /** The tyre rule fires when the lower-cased text contains "tyre" or "tire". */
  predicate MentionsTyre(quoteText: string)
  {
    Contains(Lower(quoteText), "tyre") || Contains(Lower(quoteText), "tire")
  }

  /** The line items the rules produce for a quote. Each rule contributes its item exactly
      when it fires, the brake item before the tyre item, and the fallback item appears
      exactly when neither rule fires; so there are always one or two items. */
  function StubLineItems(quoteText: string): (items: seq<LineItem>)
    ensures 1 <= |items| <= 2
    ensures BrakeItem in items <==> MentionsBrake(quoteText)
    ensures TyreItem in items <==> MentionsTyre(quoteText)
    ensures FallbackItem in items <==> !MentionsBrake(quoteText) && !MentionsTyre(quoteText)
    ensures forall i :: 0 <= i < |items| ==> items[i] in {BrakeItem, TyreItem, FallbackItem}
    ensures |items| == 2 ==> items == [BrakeItem, TyreItem]
    ensures forall i, j :: 0 <= i < j < |items| ==> items[i] != items[j]
  {
    var fired := (if MentionsBrake(quoteText) then [BrakeItem] else [])
               + (if MentionsTyre(quoteText) then [TyreItem] else []);
    if fired == [] then [FallbackItem] else fired
  }

  /** The result the stub builds around the caller's metadata. */
  function StubResult(quoteText: string, metadata: MetaData): QuoteCheckResult
  {
    QuoteCheckResult(StubLineItems(quoteText), Summary, Questions, ThingsToVerify,
                     StubMarkers(), [], Disclaimer, metadata)
  }

  /** The metadata the stub attaches: the caller's request id, latency and model, the
      prompt pack's version, and schema_valid set. */
  function StubMetaData(model: string, createdAt: string, requestId: string, latencyMs: int): MetaData
  {
    MetaData(Prompt.PROMPT_VERSION, model, createdAt, requestId, latencyMs, true)
  }

  /** What `analyze_quote_stub` returns or raises, with the markers built under their
      declared key (the source as written always fails there; see `MarkersAsWrittenRejected`).
      The only remaining failure is the metadata's own validation: an empty model or request
      id, or a negative latency. A success carries the rule items, the three fixed summary
      lines, questions and things to verify, no refusals, the disclaimer the developer prompt
      requires, and all three uncertainty markers set. */
  function StubOutcome(quoteText: string, model: string, createdAt: string, requestId: string, latencyMs: int)
    : (r: Result<QuoteCheckResult>)
    ensures r.Ok? <==> |model| >= 1 && |requestId| >= 1 && latencyMs >= 0
    ensures r.Ok? ==> Valid(r.value)
    ensures r.Ok? ==> r.value.metadata == StubMetaData(model, createdAt, requestId, latencyMs)
    ensures r.Err? ==> r.error.ValidationError?
    ensures r.Ok? ==> r.value.lineItems == StubLineItems(quoteText)
    ensures r.Ok? ==>
      && r.value.overallSummary == Summary && |r.value.overallSummary| == 3
      && r.value.verificationQuestions == Questions && |r.value.verificationQuestions| == 3
      && r.value.thingsToVerify == ThingsToVerify && |r.value.thingsToVerify| == 3
    ensures r.Ok? ==> r.value.refusals == []
    ensures r.Ok? ==> r.value.disclaimer == Prompt.REQUIRED_DISCLAIMER
    ensures r.Ok? ==> r.value.uncertaintyMarkers == DefaultMarkers
  {
    var metadata := StubMetaData(model, createdAt, requestId, latencyMs);
    if !MetaDataValid(metadata) then Err(ValidationError("metadata"))
    else
      var result := StubResult(quoteText, metadata);
      if Valid(result) then Ok(result) else Err(ValidationError("QuoteCheckResult"))
  }

  /** `analyze_quote_stub`: the item list grows by conditional appends, the fallback item is
      added when it is still empty, and the records are then validated as they are built. */
  method AnalyzeQuoteStub(quoteText: string, model: string, createdAt: string, requestId: string, latencyMs: int)
    returns (r: Result<QuoteCheckResult>)
    ensures r == StubOutcome(quoteText, model, createdAt, requestId, latencyMs)
    ensures r.Ok? ==> r.value.lineItems == StubLineItems(quoteText)
    ensures r.Ok? ==> Valid(r.value)
  {
    var textLower := Lower(quoteText);
    var items: seq<LineItem> := [];
    if Contains(textLower, "brake") {
      items := items + [BrakeItem];
    }
    if Contains(textLower, "tyre") || Contains(textLower, "tire") {
      items := items + [TyreItem];
    }
    if items == [] {
      items := items + [FallbackItem];
    }
    assert items == StubLineItems(quoteText);
    var metadata := MetaData(Prompt.PROMPT_VERSION, model, createdAt, requestId, latencyMs, true);
    if !MetaDataValid(metadata) {
      return Err(ValidationError("metadata"));
    }
    var result := QuoteCheckResult(items, Summary, Questions, ThingsToVerify, StubMarkers(), [], Disclaimer, metadata);
    if !Valid(result) {
      return Err(ValidationError("QuoteCheckResult"));
    }
    r := Ok(result);
  }

  // ---------------------------------------------------------------------------------------
  // The uncertainty markers. The source passes `ambiguous_items_present`, but the record
  // declares `ambigious_items_present`: the keyword is ignored as an unknown key and the
  // declared field is missing, so the construction raises a ValidationError on every call.
  // ---------------------------------------------------------------------------------------

  /** The keyword arguments the source passes to the markers record, as a dict. */
  const MarkersArgumentsAsWritten: Json := JObj(map[
    "ambiguous_items_present" := JBool(true),
    MISSING_CONTEXT_KEY := JBool(true),
    NEEDS_MECHANIC_KEY := JBool(true)])

  /** The markers construction as written: validation of those arguments. */
  function MarkersAsWritten(): Result<UncertaintyMarkers>
  {
    DecodeMarkers(MarkersArgumentsAsWritten)
  }

  /** As written, the markers construction fails, so `analyze_quote_stub` never returns. */
  lemma MarkersAsWrittenRejected()
    ensures MarkersAsWritten().Err?
  {
  }

  /** The markers as evidently intended: all three flags set, under the declared key. */
  function StubMarkers(): (m: UncertaintyMarkers)
    ensures m == DefaultMarkers
    ensures DecodeMarkers(EncodeMarkers(m)) == Ok(m)
  {
    MarkersRoundTrip(UncertaintyMarkers(true, true, true));
    UncertaintyMarkers(true, true, true)
  }

  // ---------------------------------------------------------------------------------------
  // Properties of the analyzer.
  // ---------------------------------------------------------------------------------------

  /** Apart from its metadata, the stub's result is a function of the quote text alone. */
  lemma StubDependsOnlyOnText(
    quoteText: string,
    model1: string, created1: string, request1: string, latency1: int,
    model2: string, created2: string, request2: string, latency2: int)
    requires StubOutcome(quoteText, model1, created1, request1, latency1).Ok?
    requires StubOutcome(quoteText, model2, created2, request2, latency2).Ok?
    ensures StubOutcome(quoteText, model1, created1, request1, latency1).value.(metadata := StubMetaData(model2, created2, request2, latency2))
         == StubOutcome(quoteText, model2, created2, request2, latency2).value
  {
  }

  /** The disclaimer the stub attaches is the one the provider is told to include. */
  lemma {:induction false} DisclaimerMatchesPrompt()
    ensures Disclaimer == Prompt.REQUIRED_DISCLAIMER
    ensures Contains(Prompt.DEVELOPER_PROMPT, Disclaimer)
  {
    var before := Prompt.DEVELOPER_PROMPT[..|Prompt.DEVELOPER_PROMPT| - |Disclaimer| - 2];
    var after := "\"\n";
    assert Prompt.DEVELOPER_PROMPT == before + Disclaimer + after;
    ContainsAt(Prompt.DEVELOPER_PROMPT, Disclaimer, |before|);
  }

  /** "Need to replace brake pads": exactly one item, red, safety-critical, needs inspection. */
  lemma ScenarioBrake()
    ensures var items := StubLineItems("Need to replace brake pads");
            |items| == 1 && items[0].riskLevel == Red && items[0].category == SafetyCritical
            && items[0].action == NeedsInspection
  {
    var t := Lower("Need to replace brake pads");
    assert t == "need to replace brake pads";
    ContainsAt(t, "brake", 16);
    NotContainsMissing(t, "tyre", 1);
    NotContainsMissing(t, "tire", 1);
  }

  /** "Recommend new tyres": exactly one item, yellow, priced 0.0 INR. */
  lemma ScenarioTyre()
    ensures var items := StubLineItems("Recommend new tyres");
            |items| == 1 && items[0].riskLevel == Yellow && items[0].price == Some(Price(0.0, "INR"))
  {
    var t := Lower("Recommend new tyres");
    assert t == "recommend new tyres";
    ContainsAt(t, "tyre", 14);
    NotContainsMissing(t, "brake", 0);
  }

  /** "General inspection": only the fallback item, with confidence 0.35. */
  lemma ScenarioNoKeyword()
    ensures var items := StubLineItems("General inspection");
            |items| == 1 && items[0].category == UnknownNeedsClarification && items[0].confidence == 0.35
  {
    var t := Lower("General inspection");
    assert t == "general inspection";
    NotContainsMissing(t, "brake", 0);
    NotContainsMissing(t, "tyre", 1);
    NotContainsPair(t, "tire", 2);
  }

  /** A quote mentioning both brakes and tyres: two items, the red one first. */
  lemma ScenarioBoth()
    ensures var items := StubLineItems("Replace BRAKE pads and front tyres");
            |items| == 2 && items[0].riskLevel == Red && items[1].riskLevel == Yellow
  {
    var t := Lower("Replace BRAKE pads and front tyres");
    assert t == "replace brake pads and front tyres";
    ContainsAt(t, "brake", 8);
    ContainsAt(t, "tyre", 29);
  }
}
