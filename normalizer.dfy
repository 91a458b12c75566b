/** The response normaliser and the extraction pipeline of
    `extract_from_transcript`: pick the extractor, then project
    `extracted_fields` into three parallel maps. */
module Normalizer {
  import opened Results
  import opened Text
  import opened Shapes
  import opened Demo
  import opened Live

  datatype Evidence = Evidence(quote: string, confidence: real, reasoning: string)

  /** The response that crosses the system boundary. */
  datatype NormalizedResponse = NormalizedResponse(
    callId: string,
    extractedData: map<string, Value>,
    evidence: map<string, Evidence>,
    riskFlags: seq<RiskFlag>,
    confidenceScores: map<string, real>,
    processingTimeMs: nat)

  /** `field_data['evidence_quote'] or ""` */
  function QuoteOrEmpty(q: Option<string>): (r: string)
    ensures r == "" <==> q.None? || q.value == ""
    ensures q.Some? ==> r == q.value
  {
    if q.Some? then q.value else ""
  }

  /** The evidence record for one raw entry. */
  function EvidenceOf(e: FieldExtraction): Evidence {
    Evidence(QuoteOrEmpty(e.evidenceQuote), e.confidence, e.reasoning.GetOr(""))
  }

  /** The normalised response for a raw extraction. */
  function NormalizationOf(raw: RawExtraction, callId: string, processingTimeMs: nat): (r: NormalizedResponse)
    ensures r.extractedData.Keys == raw.extractedFields.Keys
    ensures r.evidence.Keys == raw.extractedFields.Keys
    ensures r.confidenceScores.Keys == raw.extractedFields.Keys
    ensures forall k :: k in raw.extractedFields ==>
              && r.extractedData[k] == raw.extractedFields[k].value
              && r.confidenceScores[k] == r.evidence[k].confidence == raw.extractedFields[k].confidence
              && (r.evidence[k].quote == "" <==> raw.extractedFields[k].evidenceQuote in {None, Some("")})
              && (raw.extractedFields[k].evidenceQuote.Some? ==>
                    r.evidence[k].quote == raw.extractedFields[k].evidenceQuote.value)
              && r.evidence[k].reasoning == raw.extractedFields[k].reasoning.GetOr("")
    ensures r.riskFlags == raw.riskFlags
    ensures r.callId == callId && r.processingTimeMs == processingTimeMs
  {
    var fields := raw.extractedFields;
    NormalizedResponse(
      callId,
      map k | k in fields :: fields[k].value,
      map k | k in fields :: EvidenceOf(fields[k]),
      raw.riskFlags,
      map k | k in fields :: fields[k].confidence,
      processingTimeMs)
  }

  /** The normalisation loop over `extracted_fields`. */
  method Normalize(raw: RawExtraction, callId: string, processingTimeMs: nat) returns (resp: NormalizedResponse)
    ensures resp == NormalizationOf(raw, callId, processingTimeMs)
  {
    var fields := raw.extractedFields;
    var extractedData: map<string, Value> := map[];
    var evidence: map<string, Evidence> := map[];
    var confidenceScores: map<string, real> := map[];
    var todo := fields.Keys;
    while todo != {}
      invariant todo <= fields.Keys
      invariant extractedData.Keys == evidence.Keys == confidenceScores.Keys == fields.Keys - todo
      invariant forall k :: k in extractedData ==> extractedData[k] == fields[k].value
      invariant forall k :: k in evidence ==> evidence[k] == EvidenceOf(fields[k])
      invariant forall k :: k in confidenceScores ==> confidenceScores[k] == fields[k].confidence
      decreases todo
    {
      var fieldId :| fieldId in todo;
      var fieldData := fields[fieldId];
      extractedData := extractedData[fieldId := fieldData.value];
      evidence := evidence[fieldId := Evidence(if fieldData.evidenceQuote.Some? then fieldData.evidenceQuote.value else "",
                                               fieldData.confidence,
                                               fieldData.reasoning.GetOr(""))];
      confidenceScores := confidenceScores[fieldId := fieldData.confidence];
      todo := todo - {fieldId};
    }
    resp := NormalizedResponse(callId, extractedData, evidence, raw.riskFlags, confidenceScores, processingTimeMs);
  }

  /** The request body: `transcript` and `call_id` may be absent. */
  datatype ExtractionRequest = ExtractionRequest(transcript: Option<string>, callId: Option<string>)

  /** `request.get('call_id') or f"CALL_{stamp}"`: an absent or empty call id
      is replaced by one made from the request time. */
  function CallIdOf(request: ExtractionRequest, stamp: string): (id: string)
    ensures id != ""
    ensures request.callId.Some? && request.callId.value != "" ==> id == request.callId.value
    ensures request.callId.None? || request.callId.value == "" ==> id == "CALL_" + stamp
  {
    if request.callId.Some? && request.callId.value != "" then request.callId.value else "CALL_" + stamp
  }

  /** The extractor `extract_from_transcript` runs: the live one with its
      fallback when a real API is configured, else the demo one. */
  function ExtractionOf(useRealApi: bool, transcript: string, schema: FormSchema, samples: seq<Sample>,
                        service: string -> ServiceReply, parse: string -> Option<RawExtraction>)
    : Result<TaggedExtraction, DemoError>
  {
    if useRealApi then LiveOrDemoOf(transcript, schema, samples, service, parse)
    else AsDemo(SimulationOf(transcript, schema, samples))
  }

  /** The whole answer to an extraction request; a failure is the HTTP 500. */
  function ResponseOf(request: ExtractionRequest, stamp: string, processingTimeMs: nat, useRealApi: bool,
                      schema: FormSchema, samples: seq<Sample>,
                      service: string -> ServiceReply, parse: string -> Option<RawExtraction>)
    : Result<NormalizedResponse, DemoError>
  {
    match ExtractionOf(useRealApi, request.transcript.GetOr(""), schema, samples, service, parse)
    case Failure(e) => Failure(e)
    case Success(x) => Success(NormalizationOf(x.payload, CallIdOf(request, stamp), processingTimeMs))
  }

  /** `extract_from_transcript`; the clock readings come in as `stamp` and
      `processingTimeMs`. */
  method ExtractFromTranscript(request: ExtractionRequest, stamp: string, processingTimeMs: nat, useRealApi: bool,
                               schema: FormSchema, samples: seq<Sample>,
                               service: string -> ServiceReply, parse: string -> Option<RawExtraction>)
    returns (r: Result<NormalizedResponse, DemoError>)
    ensures r == ResponseOf(request, stamp, processingTimeMs, useRealApi, schema, samples, service, parse)
  {
    var transcript := request.transcript.GetOr("");
    var callId := if request.callId.Some? && request.callId.value != "" then request.callId.value else "CALL_" + stamp;
    var extraction: Result<TaggedExtraction, DemoError>;
    if useRealApi {
      extraction := CallClaudeApi(transcript, schema, samples, service, parse);
    } else {
      var demo := Simulate(transcript, schema, samples);
      extraction := AsDemo(demo);
    }
    if extraction.Failure? {
      return Failure(extraction.error);
    }
    var resp := Normalize(extraction.value.payload, callId, processingTimeMs);
    r := Success(resp);
  }

  /** In demo mode the response covers exactly the schema's fields, a field
      has a value exactly when its confidence is non-zero (and then 0.85 for
      the narrative fields, 0.92 for the others), and it then has a
      non-empty quote. */
  lemma DemoResponseCoversSchema(request: ExtractionRequest, stamp: string, processingTimeMs: nat,
                                 schema: FormSchema, samples: seq<Sample>,
                                 service: string -> ServiceReply, parse: string -> Option<RawExtraction>)
    ensures var r := ResponseOf(request, stamp, processingTimeMs, false, schema, samples, service, parse);
            r.Success? ==>
              && r.value.extractedData.Keys == FieldIds(schema.fields)
              && r.value.evidence.Keys == FieldIds(schema.fields)
              && r.value.confidenceScores.Keys == FieldIds(schema.fields)
              && forall k :: k in r.value.extractedData ==>
                   && (r.value.extractedData[k] == Null <==> r.value.confidenceScores[k] == 0.0)
                   && (r.value.extractedData[k] != Null ==> 0.0 < r.value.confidenceScores[k] <= 1.0)
                   && (r.value.extractedData[k] != Null ==>
                         r.value.confidenceScores[k] == (if k in NarrativeFields then 0.85 else 0.92))
                   && (r.value.extractedData[k] != Null <==> r.value.evidence[k].quote != "")
  {
    var r := ResponseOf(request, stamp, processingTimeMs, false, schema, samples, service, parse);
    if r.Success? {
      var t := request.transcript.GetOr("");
      var raw := SimulationOf(t, schema, samples).value;
      var expected := samples[MatchIndex(t, samples)].expected;
      assert raw.extractedFields == EntriesOf(schema.fields, expected, t);
      forall k | k in r.value.extractedData
        ensures (r.value.extractedData[k] != Null <==> r.value.evidence[k].quote != "")
      {
        var e := FieldEntry(k, expected, t);
        assert raw.extractedFields[k] == e;
        if e.value != Null {
          assert |e.evidenceQuote.value| > 0;
        }
      }
    }
  }

  /** With a service that always errors, the live configuration answers
      exactly as the demo configuration does. */
  lemma ErroringServiceMatchesDemo(request: ExtractionRequest, stamp: string, processingTimeMs: nat,
                                   schema: FormSchema, samples: seq<Sample>,
                                   service: string -> ServiceReply, parse: string -> Option<RawExtraction>)
    requires forall p :: service(p) == ServiceError
    ensures ResponseOf(request, stamp, processingTimeMs, true, schema, samples, service, parse)
            == ResponseOf(request, stamp, processingTimeMs, false, schema, samples, service, parse)
  {
    var t := request.transcript.GetOr("");
    assert service(Prompt.PromptOf(t, schema)) == ServiceError;
  }
}
