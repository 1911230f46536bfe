# QuoteCheck v0: the output contract and its analysis pipeline

QuoteCheck takes the free text of a vehicle-service quote and returns a structured review:
classified line items with a risk level, uncertainty markers, verification questions, a
mandatory disclaimer and per-run metadata. This project models the core of the backend:

- the result contract (`backend/core/schema.py`): four closed enumerations, the records
  `Price`, `LineItem`, `UncertaintyMarkers`, `Refusal`, `MetaData`, `QuoteCheckResult` and
  `AnalyzeRequest`, their field constraints as validity predicates, and Pydantic
  validation as decoding of a loosely typed JSON tree into a `Result`, with serialisation
  as its inverse;
- the heuristic analyzer (`backend/core/stub_analyzer.py`): ASCII-lower-cased keyword
  rules for brakes and tyres, the fallback item, the fixed boilerplate and metadata;
- the prompt builder (`backend/core/prompt.py`): the version tag, the fixed instruction
  texts and the three role-tagged messages;
- the model-backed analyzer (`backend/core/openai_analyzer.py`): the credential guard,
  one provider call, the wholesale replacement of the reply's `"metadata"` entry by
  server-truth, and validation of the overridden payload;
- the `/analyze` dispatcher (`backend/app.py`): analyzer selection by the feature flag,
  the `risk_counts` loop, and the single run-log record on the success or failure path.

Modules: `Errors` (exception kinds, `Option`, `Result`), `Json` (the payload tree),
`Text` (lower-casing and substring search), `Schema`, `Prompt`, `StubAnalyzer`,
`OpenAIAnalyzer`, `App`. The analyzers and the dispatcher are imperative methods proved
against specification functions (`StubOutcome`, `OpenAIOutcome`, `AnalyzerOutcome`);
the provider's reply, the clock readings, the request id and the schema text are
parameters. The run logger is modelled as the sequence of records `Analyze` returns.

Where the reply's metadata is replaced, the model follows the code: the replacement is a
map assignment that leaves every other key as the provider sent it, and validation of
the whole payload happens afterwards, so a validation failure is raised, never repaired.

`AnalyzeRequest` accepts its text under `quoteText` (the alias) or `quote_text` (the
field name) and forbids other keys. Pydantic looks the alias up first and marks only
the key it used, so a payload carrying both spellings counts the second one as an extra
key and is rejected; `Schema.ParseAnalyzeRequest` states exactly that.

## Model

| member | source | states |
|---|---|---|
| Schema.ParseCategory | backend/core/schema.py:29-39 | a name parses to the category with that wire name, and a name that no category carries is rejected |
| Schema.ParseAction | backend/core/schema.py:42-54 | a name parses to the action with that wire name; any other name is rejected |
| Schema.ParseRiskLevel | backend/core/schema.py:57-67 | a name parses to the risk level with that wire name; any other name is rejected |
| Schema.ParseRefusalType | backend/core/schema.py:112-117 | a name parses to the refusal type with that wire name; any other name is rejected |
| Schema.EnumerationsAreClosed | backend/core/schema.py:29-67 | the four enumerations have exactly 5, 6, 3 and 4 values, every value is listed, and their wire names are pairwise distinct |
| Schema.Require | backend/core/schema.py:151-166 | a required field succeeds exactly when the key is present, with that key's value |
| Schema.Field | backend/core/schema.py:87-95 | a field validates exactly as its validator validates the value under its key; a missing key fails |
| Schema.DecodeInt | backend/core/schema.py:141 | an int field accepts only an integral number, and the value is that number |
| Schema.DecodeList | backend/core/schema.py:151-154 | a list validates exactly when every element does, keeps its length, and the i-th value is the i-th element's; a rejected list fails with some element's error |
| Schema.DecodePrice | backend/core/schema.py:70-73 | an accepted price has a non-negative amount and a non-empty currency; a rejection is a validation error |
| Schema.DecodeOptionalPrice | backend/core/schema.py:94 | an absent price is no price |
| Schema.DecodeLineItem | backend/core/schema.py:76-95 | an accepted item has non-empty name and rationale, confidence in [0, 1], a valid price if any; absent price means none and absent evidence means the empty list; a rejection is a validation error |
| Schema.DecodeRefusal | backend/core/schema.py:120-123 | an accepted refusal has a non-empty message; a rejection is a validation error |
| Schema.DecodeMetaData | backend/core/schema.py:126-142 | accepted metadata has non-empty prompt version, model and request id and a non-negative latency |
| Schema.DecodeResult | backend/core/schema.py:145-166 | an accepted result satisfies every cardinality bound, a non-empty disclaimer and nested validity; its metadata is the validated metadata entry; omitted markers default to all-true and omitted refusals to none; every rejection is a validation error |
| Schema.EncodeList | backend/core/schema.py:151-154 | serialising a list keeps its length and serialises each element in place |
| Schema.DecodeEncodeList | backend/core/schema.py:151-154 | a serialised list validates back to itself when every element round-trips |
| Schema.StringsRoundTrip | backend/core/schema.py:152-154 | a list of strings round-trips through serialisation |
| Schema.PriceRoundTrip | backend/core/schema.py:70-73 | a serialised price is accepted exactly when it is valid, and then validates back to itself; an invalid price is rejected |
| Schema.EnumRoundTrips | backend/core/schema.py:29-67 | every enumeration value round-trips through its wire name |
| Schema.DecodeLineItemFromFields | backend/core/schema.py:76-95 | a field map carrying an item's serialised fields is accepted exactly when the item is valid, and then validates to that item |
| Schema.LineItemRoundTrip | backend/core/schema.py:76-95 | a serialised line item is accepted exactly when it is valid, and then validates back to itself; an invalid item is rejected |
| Schema.MarkersRoundTrip | backend/core/schema.py:98-109 | the markers round-trip under their declared keys |
| Schema.RefusalRoundTrip | backend/core/schema.py:120-123 | a serialised refusal is accepted exactly when it is valid, and then validates back to itself; an invalid refusal is rejected |
| Schema.MetaDataRoundTrip | backend/core/schema.py:126-142 | serialised metadata validates exactly when it is valid, and then to itself |
| Schema.DecodeResultFromFields | backend/core/schema.py:145-166 | a field map carrying a result's serialised fields is accepted exactly when the result is valid, and then validates to that result |
| Schema.ResultRoundTrip | backend/core/schema.py:145-166 | a serialised result is accepted exactly when it is valid, and then validates back to itself; an out-of-bounds result is rejected, never repaired |
| Schema.ParseAnalyzeRequest | backend/core/schema.py:169-178 | a request is accepted exactly when the payload holds one non-empty string under `quoteText` or under `quote_text` and no other key, and the text is that string |
| Text.Lower | backend/core/stub_analyzer.py:50 | lower-casing keeps the length, maps each character by itself, and leaves no upper-case letter |
| Text.LowerIdempotent | backend/core/stub_analyzer.py:50 | lower-casing twice is lower-casing once |
| Text.ContainsAt | backend/core/stub_analyzer.py:53 | a matching window witnesses the substring test |
| Text.NotContainsMissing | backend/core/stub_analyzer.py:71 | a pattern with a character absent from the text is not a substring |
| Text.NotContainsPair | backend/core/stub_analyzer.py:71 | a pattern whose first character is never followed at the right distance by its k-th is not a substring |
| StubAnalyzer.StubLineItems | backend/core/stub_analyzer.py:51-104 | one or two items; the brake item exactly when "brake" occurs, the tyre item exactly when "tyre" or "tire" occurs, the fallback exactly when neither does; brake before tyre; no duplicates |
| StubAnalyzer.StubOutcome | backend/core/stub_analyzer.py:106-137 | with the markers under their declared key (see Findings), the stub succeeds exactly when model and request id are non-empty and latency non-negative; then the result is valid, holds the rule items, the three fixed summary lines, questions and things to verify, no refusals, the disclaimer the developer prompt requires and all three markers set, and its metadata carries the caller's request id and latency, the prompt version and schema_valid set |
| StubAnalyzer.AnalyzeQuoteStub | backend/core/stub_analyzer.py:32-138 | the conditional appends build exactly the rule items, and the method returns the specified outcome, valid when it succeeds |
| StubAnalyzer.MarkersAsWrittenRejected | backend/core/stub_analyzer.py:123-127 | the markers as constructed in the source (misspelled key) fail validation |
| StubAnalyzer.StubMarkers | backend/core/stub_analyzer.py:123-127 | the intended markers set all three flags and round-trip under the declared keys |
| StubAnalyzer.StubDependsOnlyOnText | backend/core/stub_analyzer.py:32-138 | two successful runs on the same text differ only in metadata |
| StubAnalyzer.DisclaimerMatchesPrompt | backend/core/stub_analyzer.py:129 | the stub's disclaimer is the one the developer prompt requires, and occurs in that prompt |
| StubAnalyzer.ScenarioBrake | backend/core/stub_analyzer.py:53-69 | "Need to replace brake pads" yields one red, safety-critical, needs-inspection item |
| StubAnalyzer.ScenarioTyre | backend/core/stub_analyzer.py:71-87 | "Recommend new tyres" yields one yellow item priced 0.0 INR |
| StubAnalyzer.ScenarioNoKeyword | backend/core/stub_analyzer.py:89-104 | "General inspection" yields only the fallback item, confidence 0.35 |
| StubAnalyzer.ScenarioBoth | backend/core/stub_analyzer.py:53-87 | a text with upper-case BRAKE and tyres yields the red item then the yellow one |
| Prompt.BuildMessages | backend/core/prompt.py:35-62 | three messages, system then developer then user; the first two carry the fixed prompts; the user content opens with the fixed header and closes with the schema label and the schema verbatim, so the schema can be read back from its end |
| Prompt.FixedMessagesIgnoreInputs | backend/core/prompt.py:58-60 | the system and developer messages do not depend on the inputs |
| Json.Assign | backend/core/openai_analyzer.py:43 | item assignment adds or replaces one key and leaves the others |
| OpenAIAnalyzer.OverrideMetadata | backend/core/openai_analyzer.py:42-50 | the override sets `"metadata"` to the server metadata and changes no other key |
| OpenAIAnalyzer.OpenAIOutcome | backend/core/openai_analyzer.py:22-53 | no credential gives the configuration error; a failed call, unparseable text or a non-object reply give their errors; otherwise the result is the validation of the overridden payload, a failure propagated unchanged as a validation error; on success the result is valid, its metadata is the server metadata, and the latency returned is the one written |
| OpenAIAnalyzer.AnalyzeQuoteOpenAI | backend/core/openai_analyzer.py:22-53 | the steps yield the specified outcome; nothing is sent without a credential, otherwise exactly the built messages |
| OpenAIAnalyzer.ProviderMetadataIgnored | backend/core/openai_analyzer.py:42-52 | replies that differ only in their metadata entry give the same outcome |
| OpenAIAnalyzer.ConformingReplyAccepted | backend/core/openai_analyzer.py:40-53 | a reply that serialises a valid result comes back as that result with server metadata |
| OpenAIAnalyzer.EmptyDisclaimerRejected | backend/core/openai_analyzer.py:52 | a reply with an empty disclaimer fails with a validation error |
| App.CountLevel | backend/app.py:123-127 | a bucket never counts more items than there are |
| App.CountsSumToLength | backend/app.py:123-137 | the red, yellow and green counts add up to the number of items logged |
| App.RiskCounts | backend/app.py:123-127 | the counts map has exactly the three buckets, each holding the number of items at that level |
| App.AnalyzerOutcome | backend/app.py:116-120 | model mode is the model-backed outcome; with the corrected stub (see Findings), stub mode succeeds exactly when model and request id are non-empty, with the rule items and the pre-measured latency; a success is valid and carries the request id, configured model and prompt version |
| App.Analyze | backend/app.py:96-158 | one log record per request; on success it describes the returned result (schema_valid set, item count, risk counts, markers, no error); on failure it has the prompt version, configured model, schema_valid unset, zero items and counts, empty markers and the error text, and the error is passed on |
| App.StubModeSucceeds | backend/app.py:116-127 | with the corrected stub (see Findings), in stub mode a request with a model name and request id succeeds with one or two items whose counts sum to the item count |
| App.MissingCredentialFails | backend/app.py:116-117 | in model mode without a credential the request fails with the configuration error |
| App.BothRulesCounts | backend/app.py:123-127 | the stub's items for "Replace BRAKE pads and front tyres" are counted as one red and one yellow |
| Errors.DescribeDeterminesError | backend/app.py:156 | the logged error text tells a missing credential, a non-JSON reply, a non-object reply and a validation failure apart, and within one kind determines the message (provider exceptions excluded: their type name comes from the client library) |

## Left out

- `backend/core/run_logger.py` is not part of this model beyond the record it writes: file
  append, directory creation, JSON serialisation, the `event` tag and the logger's own
  timestamp are I/O.
- `backend/core/config.py` (environment reading) is replaced by the `Config` parameter;
  `backend/core/schema_export.py` (Pydantic's schema dump) is replaced by the `schemaJson`
  text parameter.
- The provider client, `json.loads` of its reply, `time.perf_counter`, `datetime.now`
  and `uuid4` are inputs: the reply is a `ProviderReply`, clock readings are whole
  milliseconds already truncated by `int(...)`, and `created_at` is opaque text.
- FastAPI routing, the CORS middleware, `load_dotenv` and the `/health` endpoint are
  framework plumbing. Request validation happens before `analyze` runs, so a rejected
  request is answered with 422 and writes no log record; `ParseAnalyzeRequest` models
  that validation on its own.
- Pydantic's lax coercions (strings to numbers, numbers to booleans, datetime parsing)
  are not modelled: a field accepts only the JSON kind it declares; an int field accepts
  integral numbers. Floating point is modelled as exact reals.
- `Text.Lower` lower-cases ASCII letters only; Python's full Unicode `str.lower` is not
  modelled.
- Error messages are opaque text; only the exception kind and the dispatcher's
  `Type: message` shape are modelled.
- App.StubModeSucceeds: holds for the corrected stub only. As written, the markers
  construction (backend/core/stub_analyzer.py:123-127) raises a validation error on every
  call, so every stub-mode request takes the failure path of `analyze`, logs a record with
  schema_valid unset and zero items, and re-raises; see Findings.
- App.AnalyzerOutcome: its stub-mode clauses describe the corrected stub; as written,
  stub mode never succeeds.
- StubAnalyzer.StubOutcome: describes the stub with its markers under the declared key; as
  written it never returns a result.
- App.Analyze: if the logger itself raised on the success path, the source would log a
  second, failure record; the logger is modelled as never failing.
- Prompt.BuildMessages: the source's quote line (backend/core/prompt.py:54) uses a
  named-character escape `\N{...}` where a replacement field was meant, which Python
  rejects when compiling the module, so every module importing it fails to load. The
  model fills the line with the evidently intended `QUOTE: <text>`, and its contract
  claims only the header and the schema suffix.

## Findings

| source | as written | input that shows it | evidently intended | confidence | as-written member | corrected member |
|---|---|---|---|---|---|---|
| backend/core/stub_analyzer.py:124 | the markers are built with keyword `ambiguous_items_present`, but the record declares `ambigious_items_present` (backend/core/schema.py:107); the keyword is ignored and the declared field is missing, so validation fails on every call | any quote text in stub mode | all three markers set under the declared key, so the stub returns its result | not executed | StubAnalyzer.MarkersAsWrittenRejected | StubAnalyzer.StubMarkers |
