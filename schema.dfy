/** The QuoteCheck result contract: the closed enumerations, the records with their field
    constraints (one validity predicate per record), the validation that turns a loosely
    typed payload into a record or a ValidationError, the serialisation back to a payload,
    and the parsing of the inbound request. */
module Schema {
  import opened Errors
  import opened Json

  // ---------------------------------------------------------------------------------------
  // Closed enumerations. Each has its wire names, a parser that accepts exactly those names,
  // and the list of all its values.
  // ---------------------------------------------------------------------------------------

  datatype NormalizedCategory =
    SafetyCritical | PreventiveMaintenance | WearAndTear | CosmeticOrUpsell | UnknownNeedsClarification

  function CategoryName(c: NormalizedCategory): string
  {
    match c
    case SafetyCritical => "safety_critical"
    case PreventiveMaintenance => "preventive_maintenance"
    case WearAndTear => "wear_and_tear"
    case CosmeticOrUpsell => "cosmetic_or_upsell"
    case UnknownNeedsClarification => "unknown_needs_clarification"
  }

  /** A category is accepted exactly when the text is the wire name of some category. */
  function ParseCategory(s: string): (r: Option<NormalizedCategory>)
    ensures r.Some? ==> CategoryName(r.value) == s
    ensures r.None? ==> forall c :: CategoryName(c) != s
  {
    if s == "safety_critical" then Some(SafetyCritical)
    else if s == "preventive_maintenance" then Some(PreventiveMaintenance)
    else if s == "wear_and_tear" then Some(WearAndTear)
    else if s == "cosmetic_or_upsell" then Some(CosmeticOrUpsell)
    else if s == "unknown_needs_clarification" then Some(UnknownNeedsClarification)
    else None
  }

  const AllCategories: seq<NormalizedCategory> :=
    [SafetyCritical, PreventiveMaintenance, WearAndTear, CosmeticOrUpsell, UnknownNeedsClarification]

  datatype RecommendedAction = Approve | Consider | Defer | AskForEvidence | NeedsInspection | Unknown

  function ActionName(a: RecommendedAction): string
  {
    match a
    case Approve => "approve"
    case Consider => "consider"
    case Defer => "defer"
    case AskForEvidence => "ask_for_evidence"
    case NeedsInspection => "needs_inspection"
    case Unknown => "unknown"
  }

  function ParseAction(s: string): (r: Option<RecommendedAction>)
    ensures r.Some? ==> ActionName(r.value) == s
    ensures r.None? ==> forall a :: ActionName(a) != s
  {
    if s == "approve" then Some(Approve)
    else if s == "consider" then Some(Consider)
    else if s == "defer" then Some(Defer)
    else if s == "ask_for_evidence" then Some(AskForEvidence)
    else if s == "needs_inspection" then Some(NeedsInspection)
    else if s == "unknown" then Some(Unknown)
    else None
  }

  const AllActions: seq<RecommendedAction> :=
    [Approve, Consider, Defer, AskForEvidence, NeedsInspection, Unknown]

  /** Ordinal severity: green < yellow < red. */
  datatype RiskLevel = Green | Yellow | Red

  function RiskLevelName(l: RiskLevel): string
  {
    match l
    case Green => "green"
    case Yellow => "yellow"
    case Red => "red"
  }

  function ParseRiskLevel(s: string): (r: Option<RiskLevel>)
    ensures r.Some? ==> RiskLevelName(r.value) == s
    ensures r.None? ==> forall l :: RiskLevelName(l) != s
  {
    if s == "green" then Some(Green)
    else if s == "yellow" then Some(Yellow)
    else if s == "red" then Some(Red)
    else None
  }

  const AllRiskLevels: seq<RiskLevel> := [Green, Yellow, Red]

  datatype RefusalType = UnsafeInstruction | Illegal | MedicalLikeAdvice | Other

  function RefusalTypeName(t: RefusalType): string
  {
    match t
    case UnsafeInstruction => "unsafe_instruction"
    case Illegal => "illegal"
    case MedicalLikeAdvice => "medical_like_advice"
    case Other => "other"
  }

  function ParseRefusalType(s: string): (r: Option<RefusalType>)
    ensures r.Some? ==> RefusalTypeName(r.value) == s
    ensures r.None? ==> forall t :: RefusalTypeName(t) != s
  {
    if s == "unsafe_instruction" then Some(UnsafeInstruction)
    else if s == "illegal" then Some(Illegal)
    else if s == "medical_like_advice" then Some(MedicalLikeAdvice)
    else if s == "other" then Some(Other)
    else None
  }

  const AllRefusalTypes: seq<RefusalType> := [UnsafeInstruction, Illegal, MedicalLikeAdvice, Other]

  /** Every enumeration lists each of its values once, under pairwise distinct wire names:
      there are exactly 5 categories, 6 actions, 3 risk levels and 4 refusal types. */
  lemma EnumerationsAreClosed()
    ensures |AllCategories| == 5 && forall c :: c in AllCategories
    ensures forall i, j :: 0 <= i < j < |AllCategories| ==>
              CategoryName(AllCategories[i]) != CategoryName(AllCategories[j])
    ensures |AllActions| == 6 && forall a :: a in AllActions
    ensures forall i, j :: 0 <= i < j < |AllActions| ==>
              ActionName(AllActions[i]) != ActionName(AllActions[j])
    ensures |AllRiskLevels| == 3 && forall l :: l in AllRiskLevels
    ensures forall i, j :: 0 <= i < j < |AllRiskLevels| ==>
              RiskLevelName(AllRiskLevels[i]) != RiskLevelName(AllRiskLevels[j])
    ensures |AllRefusalTypes| == 4 && forall t :: t in AllRefusalTypes
    ensures forall i, j :: 0 <= i < j < |AllRefusalTypes| ==>
              RefusalTypeName(AllRefusalTypes[i]) != RefusalTypeName(AllRefusalTypes[j])
  {
    forall c: NormalizedCategory ensures c in AllCategories {
      match c
      case SafetyCritical => case PreventiveMaintenance => case WearAndTear =>
      case CosmeticOrUpsell => case UnknownNeedsClarification =>
    }
    forall a: RecommendedAction ensures a in AllActions {
      match a
      case Approve => case Consider => case Defer => case AskForEvidence =>
      case NeedsInspection => case Unknown =>
    }
    forall l: RiskLevel ensures l in AllRiskLevels {
      match l
      case Green => case Yellow => case Red =>
    }
    forall t: RefusalType ensures t in AllRefusalTypes {
      match t
      case UnsafeInstruction => case Illegal => case MedicalLikeAdvice => case Other =>
    }
  }

  // ---------------------------------------------------------------------------------------
  // Records and their field constraints.
  // ---------------------------------------------------------------------------------------

  datatype Price = Price(amount: real, currency: string)

  datatype LineItem = LineItem(
    nameRaw: string,
    category: NormalizedCategory,
    action: RecommendedAction,
    riskLevel: RiskLevel,
    confidence: real,
    rationaleShort: string,
    price: Option<Price>,
    evidenceNeeded: seq<string>)

  /** The first flag is declared on the wire as `ambigious_items_present` (sic); the model
      names it once, correctly spelled, and keeps the declared spelling only as the wire
      key AMBIGUOUS_KEY below. */
  datatype UncertaintyMarkers = UncertaintyMarkers(
    ambiguousItemsPresent: bool,
    missingVehicleContext: bool,
    needsMechanicConfirmation: bool)

  datatype Refusal = Refusal(kind: RefusalType, message: string)

  /** `createdAt` is the timestamp as opaque text; `latencyMs` is Python's unbounded int. */
  datatype MetaData = MetaData(
    promptVersion: string,
    model: string,
    createdAt: string,
    requestId: string,
    latencyMs: int,
    schemaValid: bool)

  datatype QuoteCheckResult = QuoteCheckResult(
    lineItems: seq<LineItem>,
    overallSummary: seq<string>,
    verificationQuestions: seq<string>,
    thingsToVerify: seq<string>,
    uncertaintyMarkers: UncertaintyMarkers,
    refusals: seq<Refusal>,
    disclaimer: string,
    metadata: MetaData)

  datatype AnalyzeRequest = AnalyzeRequest(quoteText: string)

  predicate PriceValid(p: Price)
  {
    p.amount >= 0.0 && |p.currency| >= 1
  }

  predicate LineItemValid(li: LineItem)
  {
    && |li.nameRaw| >= 1
    && 0.0 <= li.confidence <= 1.0
    && |li.rationaleShort| >= 1
    && (li.price.Some? ==> PriceValid(li.price.value))
  }

  predicate RefusalValid(r: Refusal)
  {
    |r.message| >= 1
  }

  predicate MetaDataValid(m: MetaData)
  {
    |m.promptVersion| >= 1 && |m.model| >= 1 && |m.requestId| >= 1 && m.latencyMs >= 0
  }

  /** The top-level contract: every cardinality bound and every nested record's constraints. */
  predicate Valid(r: QuoteCheckResult)
  {
    && |r.lineItems| >= 1
    && (forall i :: 0 <= i < |r.lineItems| ==> LineItemValid(r.lineItems[i]))
    && 3 <= |r.overallSummary| <= 5
    && 3 <= |r.verificationQuestions| <= 8
    && |r.thingsToVerify| >= 3
    && (forall i :: 0 <= i < |r.refusals| ==> RefusalValid(r.refusals[i]))
    && |r.disclaimer| >= 1
    && MetaDataValid(r.metadata)
  }

  /** The value used when `uncertainty_markers` is omitted. */
  const DefaultMarkers := UncertaintyMarkers(true, true, true)

  // ---------------------------------------------------------------------------------------
  // Validation of a loosely typed payload (pydantic's model_validate). Keys a record does
  // not declare are ignored; a missing required key, a value of the wrong shape or a
  // violated constraint gives a ValidationError.
  // ---------------------------------------------------------------------------------------

  const AMBIGUOUS_KEY := "ambigious_items_present"
  const MISSING_CONTEXT_KEY := "missing_vehicle_context"
  const NEEDS_MECHANIC_KEY := "needs_mechanic_confirmation"

  function Invalid<T>(where: string): Result<T>
  {
    Err(ValidationError(where))
  }

  function Require(fields: map<string, Json>, key: string): (r: Result<Json>)
    ensures r.Ok? <==> key in fields
    ensures r.Ok? ==> r.value == fields[key]
    ensures r.Err? ==> r.error.ValidationError?
  {
    if key in fields then Ok(fields[key]) else Invalid(key + ": Field required")
  }

  function AsObject(j: Json): (r: Result<map<string, Json>>)
    ensures r.Err? ==> r.error.ValidationError?
  {
    if j.JObj? then Ok(j.fields) else Invalid("Input should be a valid dictionary")
  }

  function AsArray(j: Json): (r: Result<seq<Json>>)
    ensures r.Err? ==> r.error.ValidationError?
  {
    if j.JArr? then Ok(j.elems) else Invalid("Input should be a valid list")
  }

  /** A required key validated with `dec`. */
  function Field<T>(f: map<string, Json>, key: string, dec: Json -> Result<T>): (r: Result<T>)
    ensures r.Ok? ==> key in f && dec(f[key]) == r
    ensures key in f ==> r == dec(f[key])
    ensures key !in f ==> r.Err? && r.error.ValidationError?
  {
    var j :- Require(f, key);
    dec(j)
  }

  function DecodeString(j: Json): (r: Result<string>)
    ensures r.Err? ==> r.error.ValidationError?
  {
    if j.JStr? then Ok(j.s) else Invalid("Input should be a valid string")
  }

  function DecodeBool(j: Json): (r: Result<bool>)
    ensures r.Err? ==> r.error.ValidationError?
  {
    if j.JBool? then Ok(j.b) else Invalid("Input should be a valid boolean")
  }

  function DecodeReal(j: Json): (r: Result<real>)
    ensures r.Err? ==> r.error.ValidationError?
  {
    if j.JNum? then Ok(j.n) else Invalid("Input should be a valid number")
  }

  /** An int field takes a JSON number only when it has no fractional part. */
  function DecodeInt(j: Json): (r: Result<int>)
    ensures r.Ok? ==> j == JNum(r.value as real)
    ensures r.Err? ==> r.error.ValidationError?
  {
    if j.JNum? && j.n == j.n.Floor as real then Ok(j.n.Floor) else Invalid("Input should be a valid integer")
  }

  /** Validates every element with `dec`; the list is accepted exactly when every element is,
      and then the i-th value is the i-th element's. */
  function DecodeList<T>(js: seq<Json>, dec: Json -> Result<T>): (r: Result<seq<T>>)
    ensures r.Ok? <==> forall i :: 0 <= i < |js| ==> dec(js[i]).Ok?
    ensures r.Ok? ==> |r.value| == |js| && forall i :: 0 <= i < |js| ==> dec(js[i]) == Ok(r.value[i])
    ensures r.Err? ==> exists i :: 0 <= i < |js| && dec(js[i]) == Err(r.error)
  {
    if js == [] then Ok([])
    else
      var head :- dec(js[0]);
      var tail := DecodeList(js[1..], dec);
      assert forall i :: 1 <= i < |js| ==> js[i] == js[1..][i - 1];
      if tail.Err? then
        assert exists i :: 1 <= i < |js| && dec(js[i]) == Err(tail.error);
        Err(tail.error)
      else Ok([head] + tail.value)
  }

  function DecodeStrings(j: Json): (r: Result<seq<string>>)
    ensures r.Err? ==> r.error.ValidationError?
  {
    var elems :- AsArray(j);
    DecodeList(elems, DecodeString)
  }

  function DecodePrice(j: Json): (r: Result<Price>)
    ensures r.Ok? ==> PriceValid(r.value)
    ensures r.Err? ==> r.error.ValidationError?
  {
    var f :- AsObject(j);
    var amount :- Field(f, "amount", DecodeReal);
    var currency :- Field(f, "currency", DecodeString);
    var p := Price(amount, currency);
    if PriceValid(p) then Ok(p) else Invalid("price")
  }

  function DecodeEnum<T>(j: Json, parse: string -> Option<T>): (r: Result<T>)
    ensures r.Err? ==> r.error.ValidationError?
  {
    var s :- DecodeString(j);
    var v := parse(s);
    if v.Some? then Ok(v.value) else Invalid("Input should be one of the enumeration's values")
  }

  function DecodeCategory(j: Json): Result<NormalizedCategory> { DecodeEnum(j, ParseCategory) }
  function DecodeAction(j: Json): Result<RecommendedAction> { DecodeEnum(j, ParseAction) }
  function DecodeRiskLevel(j: Json): Result<RiskLevel> { DecodeEnum(j, ParseRiskLevel) }
  function DecodeRefusalType(j: Json): Result<RefusalType> { DecodeEnum(j, ParseRefusalType) }

  /** `Optional[Price] = None`: absent or null means no price. */
  function DecodeOptionalPrice(f: map<string, Json>): (r: Result<Option<Price>>)
    ensures "price" !in f ==> r == Ok(None)
    ensures r.Err? ==> r.error.ValidationError?
  {
    if "price" !in f || f["price"] == JNull then Ok(None)
    else var p :- DecodePrice(f["price"]); Ok(Some(p))
  }

  /** `price` defaults to none and may be null; `evidence_needed` defaults to the empty list. */
  function DecodeLineItem(j: Json): (r: Result<LineItem>)
    ensures r.Ok? ==> LineItemValid(r.value)
    ensures r.Ok? && j.JObj? && "price" !in j.fields ==> r.value.price == None
    ensures r.Ok? && j.JObj? && "evidence_needed" !in j.fields ==> r.value.evidenceNeeded == []
    ensures r.Err? ==> r.error.ValidationError?
  {
    var f :- AsObject(j);
    var name :- Field(f, "name_raw", DecodeString);
    var category :- Field(f, "normalized_category", DecodeCategory);
    var action :- Field(f, "recommended_action", DecodeAction);
    var risk :- Field(f, "risk_level", DecodeRiskLevel);
    var confidence :- Field(f, "confidence", DecodeReal);
    var rationale :- Field(f, "rationale_short", DecodeString);
    var price :- DecodeOptionalPrice(f);
    var evidence :- if "evidence_needed" in f then DecodeStrings(f["evidence_needed"]) else Ok([]);
    var li := LineItem(name, category, action, risk, confidence, rationale, price, evidence);
    if LineItemValid(li) then Ok(li) else Invalid("line_item")
  }

  function DecodeMarkers(j: Json): (r: Result<UncertaintyMarkers>)
    ensures r.Err? ==> r.error.ValidationError?
  {
    var f :- AsObject(j);
    var ambiguous :- Field(f, AMBIGUOUS_KEY, DecodeBool);
    var missing :- Field(f, MISSING_CONTEXT_KEY, DecodeBool);
    var mechanic :- Field(f, NEEDS_MECHANIC_KEY, DecodeBool);
    Ok(UncertaintyMarkers(ambiguous, missing, mechanic))
  }

  function DecodeRefusal(j: Json): (r: Result<Refusal>)
    ensures r.Ok? ==> RefusalValid(r.value)
    ensures r.Err? ==> r.error.ValidationError?
  {
    var f :- AsObject(j);
    var kind :- Field(f, "type", DecodeRefusalType);
    var message :- Field(f, "message", DecodeString);
    var refusal := Refusal(kind, message);
    if RefusalValid(refusal) then Ok(refusal) else Invalid("refusal")
  }

  function DecodeMetaData(j: Json): (r: Result<MetaData>)
    ensures r.Ok? ==> MetaDataValid(r.value)
    ensures r.Err? ==> r.error.ValidationError?
  {
    var f :- AsObject(j);
    var version :- Field(f, "prompt_version", DecodeString);
    var model :- Field(f, "model", DecodeString);
    var created :- Field(f, "created_at", DecodeString);
    var requestId :- Field(f, "request_id", DecodeString);
    var latency :- Field(f, "latency_ms", DecodeInt);
    var schemaValid :- Field(f, "schema_valid", DecodeBool);
    var m := MetaData(version, model, created, requestId, latency, schemaValid);
    if MetaDataValid(m) then Ok(m) else Invalid("metadata")
  }

  function DecodeLineItems(j: Json): (r: Result<seq<LineItem>>)
    ensures r.Err? ==> r.error.ValidationError?
  {
    var elems :- AsArray(j);
    DecodeList(elems, DecodeLineItem)
  }

  function DecodeRefusals(j: Json): (r: Result<seq<Refusal>>)
    ensures r.Err? ==> r.error.ValidationError?
  {
    var elems :- AsArray(j);
    DecodeList(elems, DecodeRefusal)
  }

  /** `QuoteCheckResult.model_validate`: whatever it accepts satisfies the contract, its
      metadata is the validated `"metadata"` entry, and omitted markers or refusals take
      their defaults. */
  function DecodeResult(j: Json): (r: Result<QuoteCheckResult>)
    ensures r.Ok? ==> Valid(r.value)
    ensures r.Ok? ==> j.JObj? && "metadata" in j.fields
                      && DecodeMetaData(j.fields["metadata"]) == Ok(r.value.metadata)
    ensures r.Ok? ==> "disclaimer" in j.fields && j.fields["disclaimer"] == JStr(r.value.disclaimer)
    ensures r.Ok? && "uncertainty_markers" !in j.fields ==> r.value.uncertaintyMarkers == DefaultMarkers
    ensures r.Ok? && "refusals" !in j.fields ==> r.value.refusals == []
    ensures r.Err? ==> r.error.ValidationError?
  {
    var f :- AsObject(j);
    var items :- Field(f, "line_items", DecodeLineItems);
    var summary :- Field(f, "overall_summary", DecodeStrings);
    var questions :- Field(f, "verification_questions", DecodeStrings);
    var things :- Field(f, "things_to_verify", DecodeStrings);
    var markers :- if "uncertainty_markers" in f then DecodeMarkers(f["uncertainty_markers"]) else Ok(DefaultMarkers);
    var refusals :- if "refusals" in f then DecodeRefusals(f["refusals"]) else Ok([]);
    var disclaimer :- Field(f, "disclaimer", DecodeString);
    var metadata :- Field(f, "metadata", DecodeMetaData);
    var result := QuoteCheckResult(items, summary, questions, things, markers, refusals, disclaimer, metadata);
    if Valid(result) then Ok(result) else Invalid("QuoteCheckResult")
  }

  // ---------------------------------------------------------------------------------------
  // Serialisation (model_dump): every declared key is written, an absent price as null.
  // ---------------------------------------------------------------------------------------

  function EncodeList<T>(xs: seq<T>, enc: T -> Json): (r: seq<Json>)
    ensures |r| == |xs| && forall i :: 0 <= i < |xs| ==> r[i] == enc(xs[i])
  {
    seq(|xs|, i requires 0 <= i < |xs| => enc(xs[i]))
  }

  function EncodeStrings(xs: seq<string>): Json
  {
    JArr(EncodeList(xs, (s: string) => JStr(s)))
  }

  function EncodePrice(p: Price): Json
  {
    JObj(map["amount" := JNum(p.amount), "currency" := JStr(p.currency)])
  }

  function EncodeLineItem(li: LineItem): Json
  {
    JObj(map[
      "name_raw" := JStr(li.nameRaw),
      "normalized_category" := JStr(CategoryName(li.category)),
      "recommended_action" := JStr(ActionName(li.action)),
      "risk_level" := JStr(RiskLevelName(li.riskLevel)),
      "confidence" := JNum(li.confidence),
      "rationale_short" := JStr(li.rationaleShort),
      "price" := if li.price.Some? then EncodePrice(li.price.value) else JNull,
      "evidence_needed" := EncodeStrings(li.evidenceNeeded)])
  }

  function EncodeMarkers(m: UncertaintyMarkers): Json
  {
    JObj(map[
      AMBIGUOUS_KEY := JBool(m.ambiguousItemsPresent),
      MISSING_CONTEXT_KEY := JBool(m.missingVehicleContext),
      NEEDS_MECHANIC_KEY := JBool(m.needsMechanicConfirmation)])
  }

  function EncodeRefusal(r: Refusal): Json
  {
    JObj(map["type" := JStr(RefusalTypeName(r.kind)), "message" := JStr(r.message)])
  }

  function EncodeMetaData(m: MetaData): Json
  {
    JObj(map[
      "prompt_version" := JStr(m.promptVersion),
      "model" := JStr(m.model),
      "created_at" := JStr(m.createdAt),
      "request_id" := JStr(m.requestId),
      "latency_ms" := JNum(m.latencyMs as real),
      "schema_valid" := JBool(m.schemaValid)])
  }

  function EncodeResult(r: QuoteCheckResult): Json
  {
    JObj(map[
      "line_items" := JArr(EncodeList(r.lineItems, EncodeLineItem)),
      "overall_summary" := EncodeStrings(r.overallSummary),
      "verification_questions" := EncodeStrings(r.verificationQuestions),
      "things_to_verify" := EncodeStrings(r.thingsToVerify),
      "uncertainty_markers" := EncodeMarkers(r.uncertaintyMarkers),
      "refusals" := JArr(EncodeList(r.refusals, EncodeRefusal)),
      "disclaimer" := JStr(r.disclaimer),
      "metadata" := EncodeMetaData(r.metadata)])
  }

  // ---------------------------------------------------------------------------------------
  // Round trips: a record's serialisation validates back to it exactly when the record
  // satisfies its constraints.
  // ---------------------------------------------------------------------------------------

  lemma {:induction false} DecodeEncodeList<T>(xs: seq<T>, enc: T -> Json, dec: Json -> Result<T>)
    requires forall i :: 0 <= i < |xs| ==> dec(enc(xs[i])) == Ok(xs[i])
    ensures DecodeList(EncodeList(xs, enc), dec) == Ok(xs)
  {
    var js := EncodeList(xs, enc);
    assert forall i :: 0 <= i < |js| ==> dec(js[i]).Ok?;
    var r := DecodeList(js, dec);
    assert r.value == xs;
  }

  lemma StringsRoundTrip(xs: seq<string>)
    ensures DecodeStrings(EncodeStrings(xs)) == Ok(xs)
  {
    DecodeEncodeList(xs, (s: string) => JStr(s), DecodeString);
  }

  lemma PriceRoundTrip(p: Price)
    ensures DecodePrice(EncodePrice(p)).Ok? <==> PriceValid(p)
    ensures PriceValid(p) ==> DecodePrice(EncodePrice(p)) == Ok(p)
  {
  }

  /** Every enumeration value's wire name parses back to that value. */
  lemma EnumRoundTrips(c: NormalizedCategory, a: RecommendedAction, l: RiskLevel, t: RefusalType)
    ensures DecodeCategory(JStr(CategoryName(c))) == Ok(c)
    ensures DecodeAction(JStr(ActionName(a))) == Ok(a)
    ensures DecodeRiskLevel(JStr(RiskLevelName(l))) == Ok(l)
    ensures DecodeRefusalType(JStr(RefusalTypeName(t))) == Ok(t)
  {
  }

  /** A dict carrying a line item's serialised fields (and possibly more keys) is accepted
      exactly when the item is valid, and then validates to that item. */
  lemma DecodeLineItemFromFields(f: map<string, Json>, li: LineItem)
    requires "name_raw" in f && f["name_raw"] == JStr(li.nameRaw)
    requires "normalized_category" in f && f["normalized_category"] == JStr(CategoryName(li.category))
    requires "recommended_action" in f && f["recommended_action"] == JStr(ActionName(li.action))
    requires "risk_level" in f && f["risk_level"] == JStr(RiskLevelName(li.riskLevel))
    requires "confidence" in f && f["confidence"] == JNum(li.confidence)
    requires "rationale_short" in f && f["rationale_short"] == JStr(li.rationaleShort)
    requires "price" in f && f["price"] == if li.price.Some? then EncodePrice(li.price.value) else JNull
    requires "evidence_needed" in f && f["evidence_needed"] == EncodeStrings(li.evidenceNeeded)
    ensures DecodeLineItem(JObj(f)).Ok? <==> LineItemValid(li)
    ensures LineItemValid(li) ==> DecodeLineItem(JObj(f)) == Ok(li)
  {
    EnumRoundTrips(li.category, li.action, li.riskLevel, Other);
    if li.price.Some? {
      PriceRoundTrip(li.price.value);
    }
    if li.price.None? || PriceValid(li.price.value) {
      assert DecodeOptionalPrice(f) == Ok(li.price);
    } else {
      assert DecodeOptionalPrice(f).Err?;
    }
    StringsRoundTrip(li.evidenceNeeded);
  }

  lemma LineItemRoundTrip(li: LineItem)
    ensures DecodeLineItem(EncodeLineItem(li)).Ok? <==> LineItemValid(li)
    ensures LineItemValid(li) ==> DecodeLineItem(EncodeLineItem(li)) == Ok(li)
  {
    DecodeLineItemFromFields(EncodeLineItem(li).fields, li);
  }

  lemma MarkersRoundTrip(m: UncertaintyMarkers)
    ensures DecodeMarkers(EncodeMarkers(m)) == Ok(m)
  {
  }

  lemma RefusalRoundTrip(r: Refusal)
    ensures DecodeRefusal(EncodeRefusal(r)).Ok? <==> RefusalValid(r)
    ensures RefusalValid(r) ==> DecodeRefusal(EncodeRefusal(r)) == Ok(r)
  {
  }

  lemma MetaDataRoundTrip(m: MetaData)
    ensures DecodeMetaData(EncodeMetaData(m)).Ok? <==> MetaDataValid(m)
    ensures MetaDataValid(m) ==> DecodeMetaData(EncodeMetaData(m)) == Ok(m)
  {
  }

  /** A dict carrying a result's serialised fields (and possibly more keys) is accepted
      exactly when the result is valid, and then validates to that result. */
  lemma DecodeResultFromFields(f: map<string, Json>, r: QuoteCheckResult)
    requires "line_items" in f && f["line_items"] == JArr(EncodeList(r.lineItems, EncodeLineItem))
    requires "overall_summary" in f && f["overall_summary"] == EncodeStrings(r.overallSummary)
    requires "verification_questions" in f && f["verification_questions"] == EncodeStrings(r.verificationQuestions)
    requires "things_to_verify" in f && f["things_to_verify"] == EncodeStrings(r.thingsToVerify)
    requires "uncertainty_markers" in f && f["uncertainty_markers"] == EncodeMarkers(r.uncertaintyMarkers)
    requires "refusals" in f && f["refusals"] == JArr(EncodeList(r.refusals, EncodeRefusal))
    requires "disclaimer" in f && f["disclaimer"] == JStr(r.disclaimer)
    requires "metadata" in f && f["metadata"] == EncodeMetaData(r.metadata)
    ensures DecodeResult(JObj(f)).Ok? <==> Valid(r)
    ensures Valid(r) ==> DecodeResult(JObj(f)) == Ok(r)
  {
    forall i | 0 <= i < |r.lineItems|
      ensures DecodeLineItem(EncodeLineItem(r.lineItems[i])).Ok? <==> LineItemValid(r.lineItems[i])
      ensures LineItemValid(r.lineItems[i]) ==> DecodeLineItem(EncodeLineItem(r.lineItems[i])) == Ok(r.lineItems[i])
    {
      LineItemRoundTrip(r.lineItems[i]);
    }
    if forall i :: 0 <= i < |r.lineItems| ==> LineItemValid(r.lineItems[i]) {
      DecodeEncodeList(r.lineItems, EncodeLineItem, DecodeLineItem);
      assert DecodeLineItems(f["line_items"]) == Ok(r.lineItems);
    } else {
      assert DecodeLineItems(f["line_items"]).Err?;
    }
    forall i | 0 <= i < |r.refusals|
      ensures DecodeRefusal(EncodeRefusal(r.refusals[i])).Ok? <==> RefusalValid(r.refusals[i])
      ensures RefusalValid(r.refusals[i]) ==> DecodeRefusal(EncodeRefusal(r.refusals[i])) == Ok(r.refusals[i])
    {
      RefusalRoundTrip(r.refusals[i]);
    }
    if forall i :: 0 <= i < |r.refusals| ==> RefusalValid(r.refusals[i]) {
      DecodeEncodeList(r.refusals, EncodeRefusal, DecodeRefusal);
      assert DecodeRefusals(f["refusals"]) == Ok(r.refusals);
    } else {
      assert DecodeRefusals(f["refusals"]).Err?;
    }
    StringsRoundTrip(r.overallSummary);
    StringsRoundTrip(r.verificationQuestions);
    StringsRoundTrip(r.thingsToVerify);
    MarkersRoundTrip(r.uncertaintyMarkers);
    MetaDataRoundTrip(r.metadata);
  }

  /** A serialised result is accepted exactly when it is valid, and then validates back to
      itself: an out-of-bounds result is rejected, never repaired into another one. */
  lemma ResultRoundTrip(r: QuoteCheckResult)
    ensures DecodeResult(EncodeResult(r)).Ok? <==> Valid(r)
    ensures Valid(r) ==> DecodeResult(EncodeResult(r)) == Ok(r)
  {
    DecodeResultFromFields(EncodeResult(r).fields, r);
  }

  // ---------------------------------------------------------------------------------------
  // The inbound request: one non-empty text under `quoteText` or `quote_text`, nothing else.
  // ---------------------------------------------------------------------------------------

  const QUOTE_TEXT_ALIAS := "quoteText"
  const QUOTE_TEXT_NAME := "quote_text"

  /** The payload holds only `key`, bound to a non-empty string. */
  predicate AcceptedUnder(payload: map<string, Json>, key: string)
  {
    payload.Keys == {key} && payload[key].JStr? && |payload[key].s| >= 1
  }

  /** The alias is looked up first; a key that was not the one used for the field is an
      extra key and is forbidden, so a payload carrying both spellings is rejected. */
  function ParseAnalyzeRequest(payload: map<string, Json>): (r: Result<AnalyzeRequest>)
    ensures r.Ok? <==> AcceptedUnder(payload, QUOTE_TEXT_ALIAS) || AcceptedUnder(payload, QUOTE_TEXT_NAME)
    ensures r.Ok? ==> exists key :: AcceptedUnder(payload, key) && r.value.quoteText == payload[key].s
  {
    var key := if QUOTE_TEXT_ALIAS in payload then QUOTE_TEXT_ALIAS else QUOTE_TEXT_NAME;
    if key !in payload then Invalid("quoteText: Field required")
    else if payload.Keys != {key} then Invalid("Extra inputs are not permitted")
    else
      var text :- DecodeString(payload[key]);
      if |text| >= 1 then Ok(AnalyzeRequest(text)) else Invalid("quoteText: String should have at least 1 character")
  }
}
