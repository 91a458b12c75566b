/** The prompt builder (`build_extraction_prompt`): one description line per
    schema field, the first ten keywords of each risk tier, the transcript,
    and the fixed instructions around them. */
module Prompt {
  import opened Text
  import opened Shapes

  const Intro: string :=
    "You are an AI assistant helping counselors document cases of gender-based violence (GBV) and child abuse. \n\n"
    + "You will be given a transcript of a call between a counselor and a survivor. Your task is to extract structured information to fill out a case management form.\n\n"
    + "FORM FIELDS TO EXTRACT:\n"

  const CriticalHeading: string := "\n\nRISK DETECTION KEYWORDS (flag if present):\n- CRITICAL: "
  const HighHeading: string := "\n- HIGH: "
  const MediumHeading: string := "\n- MEDIUM: "

  const Instructions: string :=
    "\n\nINSTRUCTIONS:\n"
    + "1. Extract information for each field from the transcript\n"
    + "2. For each extracted value, provide:\n"
    + "   - The exact quote from the transcript that supports this value\n"
    + "   - A confidence score (0.0-1.0)\n"
    + "   - \"unable_to_determine\" if the information is not present\n"
    + "3. Detect any risk indicators and flag them with severity level\n"
    + "4. Be culturally sensitive and trauma-informed in your analysis\n\n"
    + "TRANSCRIPT:\n"

  /** The requested reply format; its summary numbers are literal text. */
  const ReplyFormat: string :=
    "\n\nRespond ONLY with a valid JSON object in this exact format:\n"
    + "{\n"
    + "  \"extracted_fields\": {\n"
    + "    \"field_id\": {\n"
    + "      \"value\": \"extracted value or null\",\n"
    + "      \"evidence_quote\": \"exact quote from transcript\",\n"
    + "      \"confidence\": 0.95,\n"
    + "      \"reasoning\": \"brief explanation\"\n"
    + "    }\n"
    + "  },\n"
    + "  \"risk_flags\": [\n"
    + "    {\n"
    + "      \"severity\": \"critical|high|medium\",\n"
    + "      \"indicator\": \"description of risk\",\n"
    + "      \"evidence_quote\": \"exact quote\",\n"
    + "      \"suggested_action\": \"what should be done\"\n"
    + "    }\n"
    + "  ],\n"
    + "  \"extraction_summary\": {\n"
    + "    \"total_fields\": 19,\n"
    + "    \"fields_extracted\": 15,\n"
    + "    \"fields_uncertain\": 2,\n"
    + "    \"fields_missing\": 2\n"
    + "  }\n"
    + "}\n\n"
    + "Remember: Every value must be supported by evidence from the transcript. Do not infer information that is not explicitly stated."

  /** How many keywords of each tier the prompt lists. */
  const KeywordLimit: nat := 10

  predicate IsChoice(kind: string) {
    kind == "select" || kind == "multi_select"
  }

  /** `- {field_id} ({field_name}): {description}` */
  function FieldHeader(f: Field): string {
    "- " + f.fieldId + " (" + f.fieldName + "): " + f.description
  }

  /** The options line appended under a choice-typed field. */
  function OptionsLine(f: Field): string {
    "\n  Options: " + Join(", ", f.options)
  }

  /** The description of one field: its header line, followed by an options
      line exactly when the field is a `select` or `multi_select`. */
  function FieldLine(f: Field): (r: string)
    ensures |FieldHeader(f)| <= |r| && r[..|FieldHeader(f)|] == FieldHeader(f)
    ensures |r| > |FieldHeader(f)| <==> IsChoice(f.kind)
    ensures IsChoice(f.kind) ==> r[|FieldHeader(f)|..] == OptionsLine(f)
  {
    if IsChoice(f.kind) then FieldHeader(f) + OptionsLine(f) else FieldHeader(f)
  }

  /** The description lines of all fields, in schema order. */
  function FieldLines(fields: seq<Field>): (r: seq<string>)
    ensures |r| == |fields|
  {
    seq(|fields|, i requires 0 <= i < |fields| => FieldLine(fields[i]))
  }

  /** The part of a keyword tier that the prompt lists. */
  function TopKeywords(tier: seq<string>): (r: seq<string>)
    ensures |r| <= KeywordLimit && |r| <= |tier|
    ensures r == tier[..|r|]
    ensures |r| == KeywordLimit || r == tier
  {
    Take(tier, KeywordLimit)
  }

  /** The pieces of the final f-string, in order. */
  function PromptPieces(lines: seq<string>, kw: RiskKeywords, transcript: string): seq<string> {
    [ Intro, Join("\n", lines),
      CriticalHeading, Join(", ", TopKeywords(kw.critical)),
      HighHeading, Join(", ", TopKeywords(kw.high)),
      MediumHeading, Join(", ", TopKeywords(kw.medium)),
      Instructions, transcript, ReplyFormat ]
  }

  /** The final f-string assembly, from the already built description lines. */
  function AssemblePrompt(lines: seq<string>, kw: RiskKeywords, transcript: string): string {
    Join("", PromptPieces(lines, kw, transcript))
  }

  /** The prompt `build_extraction_prompt` returns. */
  function PromptOf(transcript: string, schema: FormSchema): string {
    AssemblePrompt(FieldLines(schema.fields), schema.riskKeywords, transcript)
  }

  /** Builds the prompt: the loop collects one description per field, then
      the pieces are assembled. */
  method BuildExtractionPrompt(transcript: string, schema: FormSchema) returns (prompt: string)
    ensures prompt == PromptOf(transcript, schema)
  {
    var fieldsDescription: seq<string> := [];
    for i := 0 to |schema.fields|
      invariant |fieldsDescription| == i
      invariant forall k :: 0 <= k < i ==> fieldsDescription[k] == FieldLine(schema.fields[k])
    {
      var f := schema.fields[i];
      var fieldDesc := FieldHeader(f);
      if f.kind == "select" || f.kind == "multi_select" {
        fieldDesc := fieldDesc + OptionsLine(f);
      }
      fieldsDescription := fieldsDescription + [fieldDesc];
    }
    assert fieldsDescription == FieldLines(schema.fields);
    prompt := AssemblePrompt(fieldsDescription, schema.riskKeywords, transcript);
  }

  /** Where piece `k` of the prompt starts. */
  function PieceOffset(transcript: string, schema: FormSchema, k: nat): nat
    requires k < 11
  {
    JoinOffset("", PromptPieces(FieldLines(schema.fields), schema.riskKeywords, transcript), k)
  }

  lemma PieceAt(transcript: string, schema: FormSchema, k: nat)
    requires k < 11
    ensures MatchesAt(PromptOf(transcript, schema),
                      PromptPieces(FieldLines(schema.fields), schema.riskKeywords, transcript)[k],
                      PieceOffset(transcript, schema, k))
  {
    JoinAt("", PromptPieces(FieldLines(schema.fields), schema.riskKeywords, transcript), k);
  }

  /** The transcript appears verbatim, immediately followed by the fixed
      reply-format block. */
  lemma PromptEmbedsTranscript(transcript: string, schema: FormSchema)
    ensures MatchesAt(PromptOf(transcript, schema), transcript, PieceOffset(transcript, schema, 9))
    ensures MatchesAt(PromptOf(transcript, schema), ReplyFormat,
                      PieceOffset(transcript, schema, 9) + |transcript|)
  {
    var pieces := PromptPieces(FieldLines(schema.fields), schema.riskKeywords, transcript);
    JoinAdjacent("", pieces, 9);
  }

  /** The prompt contains the transcript verbatim. */
  lemma PromptContainsTranscript(transcript: string, schema: FormSchema)
    ensures Contains(PromptOf(transcript, schema), transcript)
  {
    PromptEmbedsTranscript(transcript, schema);
    var o := PieceOffset(transcript, schema, 9);
    assert o <= |PromptOf(transcript, schema)| && MatchesAt(PromptOf(transcript, schema), transcript, o);
  }

  /** Where the description of field `i` starts in the prompt. */
  function FieldLineOffset(transcript: string, schema: FormSchema, i: nat): nat
    requires i < |schema.fields|
  {
    PieceOffset(transcript, schema, 1) + JoinOffset("\n", FieldLines(schema.fields), i)
  }

  /** Every field's description line occurs in the prompt. */
  lemma PromptListsField(transcript: string, schema: FormSchema, i: nat)
    requires i < |schema.fields|
    ensures MatchesAt(PromptOf(transcript, schema), FieldLine(schema.fields[i]),
                      FieldLineOffset(transcript, schema, i))
    ensures Contains(PromptOf(transcript, schema), FieldLine(schema.fields[i]))
  {
    var lines := FieldLines(schema.fields);
    PieceAt(transcript, schema, 1);
    JoinAt("\n", lines, i);
    MatchesNested(PromptOf(transcript, schema), Join("\n", lines), lines[i],
                  PieceOffset(transcript, schema, 1), JoinOffset("\n", lines, i));
    assert FieldLineOffset(transcript, schema, i) <= |PromptOf(transcript, schema)|;
  }

  /** The field descriptions appear in schema order, and a line break ends
      every description but the last. */
  lemma PromptFieldsInOrder(transcript: string, schema: FormSchema, i: nat, j: nat)
    requires i < j < |schema.fields|
    ensures FieldLineOffset(transcript, schema, i) + |FieldLine(schema.fields[i])|
            < FieldLineOffset(transcript, schema, j)
    ensures MatchesAt(PromptOf(transcript, schema), "\n",
                      FieldLineOffset(transcript, schema, i) + |FieldLine(schema.fields[i])|)
  {
    var lines := FieldLines(schema.fields);
    JoinOrdered("\n", lines, i, j);
    PieceAt(transcript, schema, 1);
    MatchesNested(PromptOf(transcript, schema), Join("\n", lines), "\n",
                  PieceOffset(transcript, schema, 1), JoinOffset("\n", lines, i) + |lines[i]|);
  }

  /** Keyword `k` of a tier occurs in the prompt when it is among the first ten. */
  lemma TierKeywordListed(transcript: string, schema: FormSchema, piece: nat, tier: seq<string>, k: nat)
    requires piece in {3, 5, 7} && k < |tier| && k < KeywordLimit
    requires PromptPieces(FieldLines(schema.fields), schema.riskKeywords, transcript)[piece]
             == Join(", ", TopKeywords(tier))
    ensures Contains(PromptOf(transcript, schema), tier[k])
  {
    PieceAt(transcript, schema, piece);
    JoinAt(", ", TopKeywords(tier), k);
    MatchesNested(PromptOf(transcript, schema), Join(", ", TopKeywords(tier)), tier[k],
                  PieceOffset(transcript, schema, piece), JoinOffset(", ", TopKeywords(tier), k));
    assert PieceOffset(transcript, schema, piece) + JoinOffset(", ", TopKeywords(tier), k)
           <= |PromptOf(transcript, schema)|;
  }

  /** Each of the first ten keywords of every tier appears in the prompt. */
  lemma PromptListsKeyword(transcript: string, schema: FormSchema, k: nat)
    ensures k < |schema.riskKeywords.critical| && k < KeywordLimit
            ==> Contains(PromptOf(transcript, schema), schema.riskKeywords.critical[k])
    ensures k < |schema.riskKeywords.high| && k < KeywordLimit
            ==> Contains(PromptOf(transcript, schema), schema.riskKeywords.high[k])
    ensures k < |schema.riskKeywords.medium| && k < KeywordLimit
            ==> Contains(PromptOf(transcript, schema), schema.riskKeywords.medium[k])
  {
    var kw := schema.riskKeywords;
    if k < |kw.critical| && k < KeywordLimit {
      TierKeywordListed(transcript, schema, 3, kw.critical, k);
    }
    if k < |kw.high| && k < KeywordLimit {
      TierKeywordListed(transcript, schema, 5, kw.high, k);
    }
    if k < |kw.medium| && k < KeywordLimit {
      TierKeywordListed(transcript, schema, 7, kw.medium, k);
    }
  }
}
