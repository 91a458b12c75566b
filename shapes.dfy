/** The records the backend passes around as JSON-like dictionaries: the form
    schema, the reference samples and the raw and normalised extractions. */
module Shapes {
  import opened Results

  /** A JSON value as it comes out of the sample file or a parsed reply. */
  datatype Value = Null | Bool(b: bool) | Num(x: real) | Str(s: string) | List(items: seq<Value>)

  /** What a Python `for` loop over the value visits: the items of a list or
      the one-character strings of a string; None where Python raises a
      TypeError because the value is not iterable. */
  function Iterate(v: Value): (r: Option<seq<Value>>)
    ensures v.List? ==> r == Some(v.items)
    ensures v.Str? ==> r.Some? && |r.value| == |v.s| && forall i :: 0 <= i < |v.s| ==> r.value[i] == Str([v.s[i]])
    ensures r.None? <==> !(v.List? || v.Str?)
  {
    match v
    case List(items) => Some(items)
    case Str(s) => Some(seq(|s|, i requires 0 <= i < |s| => Str([s[i]])))
    case _ => None
  }

  /** One form field of the schema; `options` is empty when the schema gives none. */
  datatype Field = Field(fieldId: string, fieldName: string, description: string, kind: string, options: seq<string>)

  /** The three tiers of risk detection keywords. */
  datatype RiskKeywords = RiskKeywords(critical: seq<string>, high: seq<string>, medium: seq<string>)

  datatype FormSchema = FormSchema(fields: seq<Field>, riskKeywords: RiskKeywords)

  /** The set of field identifiers the schema declares. */
  function FieldIds(fields: seq<Field>): set<string> {
    set f | f in fields :: f.fieldId
  }

  /** No two fields of the schema share an identifier. */
  predicate UniqueIds(fields: seq<Field>) {
    forall i, j :: 0 <= i < j < |fields| ==> fields[i].fieldId != fields[j].fieldId
  }

  /** A reference sample; `expected` is its `expected_extraction` dictionary,
      which holds field values as well as `risk_level` and `risk_indicators`. */
  datatype Sample = Sample(callId: string, language: string, durationSeconds: int,
                           transcript: string, riskLevelActual: string,
                           expected: map<string, Value>)

  /** One entry of `extracted_fields`; `None` stands for JSON null (for the
      quote) or for an absent key (for the reasoning). */
  datatype FieldExtraction = FieldExtraction(value: Value, evidenceQuote: Option<string>,
                                             confidence: real, reasoning: Option<string>)

  datatype RiskFlag = RiskFlag(severity: string, indicator: Value, evidenceQuote: string,
                               suggestedAction: string)

  datatype ExtractionSummary = ExtractionSummary(totalFields: nat, fieldsExtracted: nat,
                                                 fieldsUncertain: nat, fieldsMissing: nat)

  /** The raw extraction both extractors produce. */
  datatype RawExtraction = RawExtraction(extractedFields: map<string, FieldExtraction>,
                                         riskFlags: seq<RiskFlag>,
                                         summary: ExtractionSummary)
}
