/** The prompt pack: the version tag every run reports, the two fixed instruction texts and
    the builder of the three role-tagged messages sent to the provider. */
module Prompt {

  const PROMPT_VERSION: string := "quotecheck_v0.1"

  const SYSTEM_PROMPT: string :=
    "You are QuoteCheck, a service quote review assistant.\n"
    + "Your job is to help users understand a service quote by classifying items, flagging risks, and suggesting verification questions.\n"
    + "Be uncertainty-first: when unclear, ask for evidence and mark unknown_needs_clarification.\n"
    + "Refuse requests that encourage unsafe actions (e.g., skipping brakes). Always include the disclaimer."

  const DEVELOPER_PROMPT: string :=
    "Return ONLY valid JSON that matches the provided schema. Do not include extra keys.\n"
    + "Keep rationale_short to 1-2 sentences.\n"
    + "Use the v0 taxonomy and enums exactly.\n"
    + "If vehicle context is missing (make/model/year/mileage), set missing_vehicle_context=true and ask for it in verification_questions.\n"
    + "Default additives/flushes/coatings to cosmetic_or_upsell unless strong evidence is present.\n"
    + "Always include: \"" + REQUIRED_DISCLAIMER + "\"\n"

  /** The disclaimer the developer instructions require verbatim. */
  const REQUIRED_DISCLAIMER: string := "Not safety advice; verify with a certified mechanic."

  /** The fixed opening of the user message. */
  const USER_HEADER: string :=
    "Here is a service quote. Analyze it and return the structured JSON result. \n\n"

  /** The fixed label that introduces the schema at the end of the user message. */
  const SCHEMA_LABEL: string := "OUTPUT JSON SCHEMA: \n"

  /** One `{"role": ..., "content": ...}` dict. */
  datatype Message = Message(role: string, content: string)

  /** The quote line between the header and the schema label. The source writes it with a
      named-character escape instead of a replacement field, which Python refuses to
      compile; this is the evidently intended line, and no contract below relies on it. */
  function QuoteLine(quoteText: string): string
  {
    "QUOTE: " + quoteText + "\n\n"
  }

  function UserContent(quoteText: string, schemaJson: string): string
  {
    USER_HEADER + QuoteLine(quoteText) + SCHEMA_LABEL + schemaJson
  }

  /** Exactly three messages, in the order system, developer, user; the first two carry the
      fixed instruction texts whatever the inputs are, and the user message opens with the
      fixed header and closes with the schema label followed by the schema verbatim. */
  function BuildMessages(quoteText: string, schemaJson: string): (r: seq<Message>)
    ensures |r| == 3
    ensures r[0] == Message("system", SYSTEM_PROMPT)
    ensures r[1] == Message("developer", DEVELOPER_PROMPT)
    ensures r[2].role == "user"
    ensures |r[2].content| >= |USER_HEADER| + |SCHEMA_LABEL| + |schemaJson|
    ensures r[2].content[..|USER_HEADER|] == USER_HEADER
    ensures r[2].content[|r[2].content| - |SCHEMA_LABEL + schemaJson|..] == SCHEMA_LABEL + schemaJson
    ensures r[2].content[|r[2].content| - |schemaJson|..] == schemaJson
  {
    var user := UserContent(quoteText, schemaJson);
    assert user == USER_HEADER + (QuoteLine(quoteText) + SCHEMA_LABEL + schemaJson);
    assert user == (USER_HEADER + QuoteLine(quoteText)) + (SCHEMA_LABEL + schemaJson);
    assert user == (USER_HEADER + QuoteLine(quoteText) + SCHEMA_LABEL) + schemaJson;
    [Message("system", SYSTEM_PROMPT), Message("developer", DEVELOPER_PROMPT), Message("user", user)]
  }

  /** Two builds differ at most in the user message. */
  lemma FixedMessagesIgnoreInputs(q1: string, s1: string, q2: string, s2: string)
    ensures BuildMessages(q1, s1)[..2] == BuildMessages(q2, s2)[..2]
  {
  }
}
