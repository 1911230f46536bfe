/** The model-backed analyzer: a credential guard, one provider call with the built
    messages, then the parsed reply's `"metadata"` entry is replaced wholesale by
    server-truth and the whole payload is validated against the result contract. */
module OpenAIAnalyzer {
  import opened Errors
  import opened Json
  import opened Schema
  import opened Prompt

  /** What the provider call and `json.loads` of its text yield. The call itself, the
      client and the JSON parser are outside the model. */
  datatype ProviderReply =
    | CallFailed(typeName: string, message: string)  // the provider call raised
    | NotJson(message: string)                        // the reply text is not JSON
    | Parsed(payload: Json)                           // the parsed reply

  const MISSING_KEY_MESSAGE := "OPENAI_API_KEY is not set. Add it to backend/.env (untracked)."

  /** `if not OPENAI_API_KEY`: an absent or empty key fails the guard. */
  predicate HasCredential(apiKey: Option<string>)
  {
    apiKey.Some? && |apiKey.value| >= 1
  }

  /** The server-truth metadata: the prompt pack's version, the configured model, the
      caller's request id, the latency measured around the provider call. */
  function ServerMetaData(model: string, createdAt: string, requestId: string, latencyMs: nat): MetaData
  {
    MetaData(PROMPT_VERSION, model, createdAt, requestId, latencyMs, true)
  }

  /** `payload["metadata"] = {...}`: the entry is replaced wholesale and nothing else moves. */
  function OverrideMetadata(payload: map<string, Json>, metadata: MetaData): (r: map<string, Json>)
    ensures r.Keys == payload.Keys + {"metadata"}
    ensures r["metadata"] == EncodeMetaData(metadata)
    ensures forall k :: k in payload && k != "metadata" ==> r[k] == payload[k]
  {
    Assign(payload, "metadata", EncodeMetaData(metadata))
  }

  /** What `analyze_quote_openai` returns or raises. */
  function OpenAIOutcome(
    quoteText: string, requestId: string, apiKey: Option<string>, model: string,
    reply: ProviderReply, latencyMs: nat, createdAt: string)
    : (r: Result<(QuoteCheckResult, int)>)
    ensures !HasCredential(apiKey) ==> r == Err(ConfigError(MISSING_KEY_MESSAGE))
    ensures HasCredential(apiKey) && reply.CallFailed? ==> r == Err(ProviderError(reply.typeName, reply.message))
    ensures HasCredential(apiKey) && reply.NotJson? ==> r == Err(ParseError(reply.message))
    ensures HasCredential(apiKey) && reply.Parsed? && !reply.payload.JObj? ==> r.Err? && r.error.PayloadTypeError?
    ensures r.Ok? <==>
      && HasCredential(apiKey) && reply.Parsed? && reply.payload.JObj?
      && DecodeResult(JObj(OverrideMetadata(reply.payload.fields, ServerMetaData(model, createdAt, requestId, latencyMs)))).Ok?
    ensures HasCredential(apiKey) && reply.Parsed? && reply.payload.JObj? ==>
      var validated := DecodeResult(JObj(OverrideMetadata(reply.payload.fields, ServerMetaData(model, createdAt, requestId, latencyMs))));
      if validated.Ok? then r == Ok((validated.value, latencyMs as int)) else r == Err(validated.error)
    ensures HasCredential(apiKey) && reply.Parsed? && reply.payload.JObj? && r.Err? ==> r.error.ValidationError?
    ensures r.Ok? ==> Valid(r.value.0) && r.value.1 == latencyMs
    ensures r.Ok? ==> r.value.0.metadata == ServerMetaData(model, createdAt, requestId, latencyMs)
  {
    if !HasCredential(apiKey) then Err(ConfigError(MISSING_KEY_MESSAGE))
    else match reply
      case CallFailed(name, message) => Err(ProviderError(name, message))
      case NotJson(message) => Err(ParseError(message))
      case Parsed(payload) =>
        if !payload.JObj? then Err(PayloadTypeError("object does not support item assignment"))
        else
          var metadata := ServerMetaData(model, createdAt, requestId, latencyMs);
          var overridden := JObj(OverrideMetadata(payload.fields, metadata));
          var validated := DecodeResult(overridden);
          if validated.Err? then Err(validated.error)
          else
            MetaDataRoundTrip(metadata);
            Ok((validated.value, latencyMs as int))
  }

  /** `analyze_quote_openai`, step by step. `sent` lists the message lists handed to the
      provider: none when the credential guard fails, otherwise exactly the built messages. */
  method AnalyzeQuoteOpenAI(
    quoteText: string, requestId: string, apiKey: Option<string>, model: string, schemaJson: string,
    reply: ProviderReply, elapsedMs: nat, createdAt: string)
    returns (r: Result<(QuoteCheckResult, int)>, sent: seq<seq<Message>>)
    ensures r == OpenAIOutcome(quoteText, requestId, apiKey, model, reply, elapsedMs, createdAt)
    ensures !HasCredential(apiKey) ==> sent == []
    ensures HasCredential(apiKey) ==> sent == [BuildMessages(quoteText, schemaJson)]
    ensures r.Ok? ==> Valid(r.value.0)
  {
    if apiKey.None? || apiKey.value == "" {
      return Err(ConfigError(MISSING_KEY_MESSAGE)), [];
    }
    var messages := BuildMessages(quoteText, schemaJson);
    sent := [messages];
    if reply.CallFailed? {
      return Err(ProviderError(reply.typeName, reply.message)), sent;
    }
    var latencyMs := elapsedMs;
    if reply.NotJson? {
      return Err(ParseError(reply.message)), sent;
    }
    var payload := reply.payload;
    if !payload.JObj? {
      return Err(PayloadTypeError("object does not support item assignment")), sent;
    }
    var fields := payload.fields;
    fields := fields["metadata" := EncodeMetaData(MetaData(PROMPT_VERSION, model, createdAt, requestId, latencyMs, true))];
    var validated := DecodeResult(JObj(fields));
    if validated.Err? {
      return Err(validated.error), sent;
    }
    r := Ok((validated.value, latencyMs as int));
  }

  // ---------------------------------------------------------------------------------------
  // Properties of the analyzer.
  // ---------------------------------------------------------------------------------------

  /** Whatever metadata the provider supplied, the outcome is the same: two replies whose
      payloads agree on every other key give the same result. */
  lemma {:induction false} ProviderMetadataIgnored(
    quoteText: string, requestId: string, apiKey: Option<string>, model: string,
    p1: map<string, Json>, p2: map<string, Json>, latencyMs: nat, createdAt: string)
    requires p1 - {"metadata"} == p2 - {"metadata"}
    ensures OpenAIOutcome(quoteText, requestId, apiKey, model, Parsed(JObj(p1)), latencyMs, createdAt)
         == OpenAIOutcome(quoteText, requestId, apiKey, model, Parsed(JObj(p2)), latencyMs, createdAt)
  {
    var md := ServerMetaData(model, createdAt, requestId, latencyMs);
    var o1 := OverrideMetadata(p1, md);
    var o2 := OverrideMetadata(p2, md);
    forall k | k in o1 ensures k in o2 && o1[k] == o2[k] {
      if k != "metadata" {
        assert k in p1 - {"metadata"};
      }
    }
    forall k | k in o2 ensures k in o1 {
      if k != "metadata" {
        assert k in p2 - {"metadata"};
      }
    }
    assert o1 == o2;
  }

  /** A reply that is the serialisation of a valid result comes back as that result, with
      the provider's metadata replaced by server-truth. */
  lemma {:induction false} ConformingReplyAccepted(
    quoteText: string, requestId: string, apiKey: Option<string>, model: string,
    supplied: QuoteCheckResult, latencyMs: nat, createdAt: string)
    requires HasCredential(apiKey)
    requires Valid(supplied)
    requires |model| >= 1 && |requestId| >= 1
    ensures OpenAIOutcome(quoteText, requestId, apiKey, model, Parsed(EncodeResult(supplied)), latencyMs, createdAt)
         == Ok((supplied.(metadata := ServerMetaData(model, createdAt, requestId, latencyMs)), latencyMs as int))
  {
    var md := ServerMetaData(model, createdAt, requestId, latencyMs);
    var expected := supplied.(metadata := md);
    assert EncodeResult(expected).fields == OverrideMetadata(EncodeResult(supplied).fields, md);
    ResultRoundTrip(expected);
  }

  /** A reply with an empty disclaimer is a validation failure (not a parse or type error),
      never a fallback result. */
  lemma EmptyDisclaimerRejected(
    quoteText: string, requestId: string, apiKey: Option<string>, model: string,
    payload: map<string, Json>, latencyMs: nat, createdAt: string)
    requires HasCredential(apiKey)
    requires "disclaimer" in payload && payload["disclaimer"] == JStr("")
    ensures OpenAIOutcome(quoteText, requestId, apiKey, model, Parsed(JObj(payload)), latencyMs, createdAt).Err?
    ensures OpenAIOutcome(quoteText, requestId, apiKey, model, Parsed(JObj(payload)), latencyMs, createdAt).error.ValidationError?
  {
  }
}
