/** The demo extractor (`simulate_extraction`): picks a reference sample by
    prefix matching, turns its expected extraction into one entry per schema
    field, tallies the summary and derives risk flags from its risk level. */
module Demo {
  import opened Results
  import opened Text
  import opened Shapes

  /** The ways `simulate_extraction` raises: an empty sample library
      (`samples[0]`) and a `risk_indicators` value that cannot be iterated. */
  datatype DemoError = NoSamples | IndicatorsNotIterable

  /** How many leading characters of the transcripts are compared. */
  const PrefixLength: nat := 100
  /** Characters of context kept on each side of an evidence match. */
  const ContextChars: nat := 20

  const DefaultConfidence: real := 0.92
  const NarrativeConfidence: real := 0.85
  const MissingConfidence: real := 0.0

  /** The free-text fields that get the lower confidence. */
  const NarrativeFields: set<string> := {"counselor_notes", "incident_description"}

  const ExtractedReasoning: string := "Extracted from survivor's statement"
  const MissingReasoning: string := "Information not provided in call"
  const RiskQuote: string := "[Quote showing this risk indicator]"
  const CriticalAction: string := "Immediate intervention required"
  const HighAction: string := "Elevated monitoring needed"

  // ---------------------------------------------------------------- matching

  /** The first 100 characters of the sample occur in the first 100
      characters of the transcript. */
  predicate PrefixMatches(sample: Sample, transcript: string) {
    Contains(Take(transcript, PrefixLength), Take(sample.transcript, PrefixLength))
  }

  function MatchFrom(transcript: string, samples: seq<Sample>, from: nat): (k: nat)
    requires 0 < |samples| && from <= |samples|
    ensures k < |samples|
    ensures forall j :: from <= j < |samples| && j < k ==> !PrefixMatches(samples[j], transcript)
    ensures (from <= k && PrefixMatches(samples[k], transcript))
            || (k == 0 && forall j :: from <= j < |samples| ==> !PrefixMatches(samples[j], transcript))
    decreases |samples| - from
  {
    if from == |samples| then 0
    else if PrefixMatches(samples[from], transcript) then from
    else MatchFrom(transcript, samples, from + 1)
  }

  /** The index of the sample `simulate_extraction` uses: the first one whose
      prefix matches, or the first sample when none does. */
  function MatchIndex(transcript: string, samples: seq<Sample>): (k: nat)
    requires |samples| > 0
    ensures k < |samples|
    ensures forall j :: 0 <= j < k ==> !PrefixMatches(samples[j], transcript)
    ensures PrefixMatches(samples[k], transcript)
            || (k == 0 && forall j :: 0 <= j < |samples| ==> !PrefixMatches(samples[j], transcript))
  {
    MatchFrom(transcript, samples, 0)
  }

  /** The matching loop, with `break` at the first matching sample. */
  method MatchSample(transcript: string, samples: seq<Sample>) returns (r: Result<Sample, DemoError>)
    ensures |samples| == 0 ==> r == Failure(NoSamples)
    ensures |samples| > 0 ==> r == Success(samples[MatchIndex(transcript, samples)])
  {
    if |samples| == 0 {
      return Failure(NoSamples);
    }
    var matched := samples[0];
    var i := 0;
    while i < |samples|
      invariant 0 <= i <= |samples|
      invariant forall j :: 0 <= j < i ==> !PrefixMatches(samples[j], transcript)
    {
      if PrefixMatches(samples[i], transcript) {
        matched := samples[i];
        break;
      }
      i := i + 1;
    }
    r := Success(matched);
    ghost var k := MatchIndex(transcript, samples);
    if i < |samples| {
      assert k == i;
    } else {
      assert k == 0;
    }
  }

  /** A sample whose first 100 characters occur in the transcript's first 100
      (an identical opening, or an empty sample transcript) is matched unless
      an earlier sample already is. */
  lemma MatchedNoLaterThan(transcript: string, samples: seq<Sample>, i: nat)
    requires i < |samples|
    requires Contains(Take(transcript, PrefixLength), Take(samples[i].transcript, PrefixLength))
    ensures MatchIndex(transcript, samples) <= i
    ensures PrefixMatches(samples[MatchIndex(transcript, samples)], transcript)
  {
  }

  /** A sample with an empty transcript matches every transcript. */
  lemma EmptySampleMatches(transcript: string, sample: Sample)
    requires sample.transcript == ""
    ensures PrefixMatches(sample, transcript)
  {
    assert MatchesAt(Take(transcript, PrefixLength), "", 0);
  }

  // ------------------------------------------------------------ field entries

  /** The expected extraction holds a non-null value for the field. */
  predicate HasValue(expected: map<string, Value>, fieldId: string) {
    fieldId in expected && expected[fieldId] != Null
  }

  function Placeholder(fieldId: string): string {
    "[Quote extracted from transcript for " + fieldId + "]"
  }

  /** The evidence quote for an extracted value: a window of the transcript
      around the first case-insensitive occurrence of a non-empty string
      value, else the placeholder. */
  function EvidenceQuote(fieldId: string, value: Value, transcript: string): (q: string)
    ensures |q| > 0
    ensures !(value.Str? && |value.s| > 0 && Contains(Lower(transcript), Lower(value.s)))
            ==> q == Placeholder(fieldId)
  {
    if value.Str? && |value.s| > 0 && Contains(Lower(transcript), Lower(value.s)) then
      var idx := Find(Lower(transcript), Lower(value.s)).value;
      assert MatchesAt(Lower(transcript), Lower(value.s), idx);
      transcript[Max(0, idx - ContextChars)..Min(|transcript|, idx + |value.s| + ContextChars)]
    else
      Placeholder(fieldId)
  }

  /** Where the evidence window starts. */
  function WindowStart(idx: nat): nat {
    Max(0, idx - ContextChars)
  }

  /** The window is a verbatim slice of the transcript that covers the first
      case-insensitive match, keeps up to 20 characters on each side and is
      at most 40 characters longer than the value. */
  lemma EvidenceWindow(fieldId: string, v: string, transcript: string)
    requires |v| > 0 && Contains(Lower(transcript), Lower(v))
    ensures Find(Lower(transcript), Lower(v)).Some?
    ensures var idx := Find(Lower(transcript), Lower(v)).value;
            var q := EvidenceQuote(fieldId, Str(v), transcript);
            var lo := WindowStart(idx);
            && MatchesAt(transcript, q, lo)
            && lo <= idx && idx + |v| <= lo + |q|
            && |q| <= |v| + 2 * ContextChars
            && MatchesAt(Lower(q), Lower(v), idx - lo)
            && (lo == 0 || idx - lo == ContextChars)
            && lo + |q| == Min(|transcript|, idx + |v| + ContextChars)
  {
    var t := transcript;
    var idx := Find(Lower(t), Lower(v)).value;
    var lo := WindowStart(idx);
    var hi := Min(|t|, idx + |v| + ContextChars);
    assert MatchesAt(Lower(t), Lower(v), idx);
    WindowBounds(idx, |v|, |t|);
    var q := EvidenceQuote(fieldId, Str(v), t);
    assert q == t[lo..hi];
    assert MatchesAt(t, q, lo);
    WindowMatch(t, v, idx, lo, hi);
  }

  /** The arithmetic of the window around a match of length `n` at `idx` in
      a text of length `len`. */
  lemma WindowBounds(idx: nat, n: nat, len: nat)
    requires idx + n <= len
    ensures var lo := WindowStart(idx);
            var hi := Min(len, idx + n + ContextChars);
            && lo <= idx && idx + n <= hi <= len
            && hi - lo <= n + 2 * ContextChars
            && (lo == 0 || idx - lo == ContextChars)
  {
  }

  /** The slice `t[lo..hi]` around an occurrence of `Lower(v)` at `idx` in
      `Lower(t)` holds that occurrence at `idx - lo`. */
  lemma WindowMatch(t: string, v: string, idx: nat, lo: nat, hi: nat)
    requires lo <= idx && idx + |v| <= hi <= |t|
    requires MatchesAt(Lower(t), Lower(v), idx)
    ensures MatchesAt(Lower(t[lo..hi]), Lower(v), idx - lo)
  {
    var w := Lower(t[lo..hi]);
    forall i | 0 <= i < |v|
      ensures w[idx - lo + i] == Lower(v)[i]
    {
      assert w[idx - lo + i] == LowerChar(t[idx + i]);
      assert Lower(t)[idx + i] == Lower(v)[i];
    }
    assert w[idx - lo..idx - lo + |v|] == Lower(v);
  }

  /** Confidence of an extracted field. */
  function ConfidenceFor(fieldId: string): real {
    if fieldId in NarrativeFields then NarrativeConfidence else DefaultConfidence
  }

  /** The entry `simulate_extraction` writes for one field id. */
  function FieldEntry(fieldId: string, expected: map<string, Value>, transcript: string): (e: FieldExtraction)
    ensures e.value != Null <==> HasValue(expected, fieldId)
    ensures HasValue(expected, fieldId) ==> e.value == expected[fieldId]
    ensures e.evidenceQuote.None? <==> e.value == Null
    ensures e.evidenceQuote.Some? ==> e.evidenceQuote.value == EvidenceQuote(fieldId, e.value, transcript)
    ensures e.confidence == 0.0 <==> e.value == Null
    ensures e.value != Null ==> 0.0 < e.confidence <= 1.0
    ensures e.value != Null ==> e.confidence == (if fieldId in NarrativeFields then 0.85 else 0.92)
    ensures e.reasoning == Some(if e.value == Null then MissingReasoning else ExtractedReasoning)
  {
    if HasValue(expected, fieldId) then
      var value := expected[fieldId];
      FieldExtraction(value, Some(EvidenceQuote(fieldId, value, transcript)), ConfidenceFor(fieldId), Some(ExtractedReasoning))
    else
      FieldExtraction(Null, None, MissingConfidence, Some(MissingReasoning))
  }

  /** `extracted_fields`: one entry per schema field id. */
  function EntriesOf(fields: seq<Field>, expected: map<string, Value>, transcript: string): (m: map<string, FieldExtraction>)
    ensures m.Keys == FieldIds(fields)
    ensures forall id :: id in m ==> m[id] == FieldEntry(id, expected, transcript)
  {
    map id | id in FieldIds(fields) :: FieldEntry(id, expected, transcript)
  }

  /** How many schema fields the loop counts as extracted. */
  function CountExtracted(fields: seq<Field>, expected: map<string, Value>): (n: nat)
    ensures n <= |fields|
  {
    if |fields| == 0 then 0
    else CountExtracted(fields[..|fields| - 1], expected)
         + (if HasValue(expected, fields[|fields| - 1].fieldId) then 1 else 0)
  }

  lemma FieldIdsSnoc(fields: seq<Field>, i: nat)
    requires i < |fields|
    ensures FieldIds(fields[..i + 1]) == FieldIds(fields[..i]) + {fields[i].fieldId}
  {
    assert fields[..i + 1] == fields[..i] + [fields[i]];
  }

  lemma EntriesSnoc(fields: seq<Field>, expected: map<string, Value>, transcript: string, i: nat)
    requires i < |fields|
    ensures EntriesOf(fields[..i + 1], expected, transcript)
            == EntriesOf(fields[..i], expected, transcript)[fields[i].fieldId := FieldEntry(fields[i].fieldId, expected, transcript)]
  {
    FieldIdsSnoc(fields, i);
    var after := EntriesOf(fields[..i + 1], expected, transcript);
    var before := EntriesOf(fields[..i], expected, transcript);
    var updated := before[fields[i].fieldId := FieldEntry(fields[i].fieldId, expected, transcript)];
    assert after.Keys == updated.Keys;
    forall id | id in after.Keys
      ensures after[id] == updated[id]
    {
    }
  }

  lemma CountSnoc(fields: seq<Field>, expected: map<string, Value>, i: nat)
    requires i < |fields|
    ensures CountExtracted(fields[..i + 1], expected)
            == CountExtracted(fields[..i], expected) + (if HasValue(expected, fields[i].fieldId) then 1 else 0)
  {
    assert fields[..i + 1][..i] == fields[..i];
  }

  /** The field loop: fills `extracted_fields` and counts extracted and
      missing fields. */
  method FillFields(fields: seq<Field>, expected: map<string, Value>, transcript: string)
    returns (entries: map<string, FieldExtraction>, extracted: nat, missing: nat)
    ensures entries == EntriesOf(fields, expected, transcript)
    ensures extracted == CountExtracted(fields, expected)
    ensures extracted + missing == |fields|
  {
    entries, extracted, missing := map[], 0, 0;
    for i := 0 to |fields|
      invariant entries == EntriesOf(fields[..i], expected, transcript)
      invariant extracted == CountExtracted(fields[..i], expected)
      invariant extracted + missing == i
    {
      var fieldId := fields[i].fieldId;
      if fieldId in expected && expected[fieldId] != Null {
        var value := expected[fieldId];
        var quote := Placeholder(fieldId);
        if value.Str? && |value.s| > 0 {
          var transcriptLower := Lower(transcript);
          var valueLower := Lower(value.s);
          if Contains(transcriptLower, valueLower) {
            var idx := Find(transcriptLower, valueLower).value;
            quote := transcript[Max(0, idx - ContextChars)..Min(|transcript|, idx + |value.s| + ContextChars)];
          }
        }
        assert quote == EvidenceQuote(fieldId, value, transcript);
        var confidence := if fieldId !in NarrativeFields then DefaultConfidence else NarrativeConfidence;
        var entry := FieldExtraction(value, Some(quote), confidence, Some(ExtractedReasoning));
        assert entry == FieldEntry(fieldId, expected, transcript);
        entries := entries[fieldId := entry];
        extracted := extracted + 1;
      } else {
        entries := entries[fieldId := FieldExtraction(Null, None, MissingConfidence, Some(MissingReasoning))];
        missing := missing + 1;
      }
      EntriesSnoc(fields, expected, transcript, i);
      CountSnoc(fields, expected, i);
    }
    assert fields[..|fields|] == fields;
  }

  // -------------------------------------------------------------- risk flags

  /** `expected.get('risk_level', 'Low')` */
  function RiskLevel(expected: map<string, Value>): Value {
    if "risk_level" in expected then expected["risk_level"] else Str("Low")
  }

  /** `risk_level in ['Critical', 'High']` */
  predicate RaisesFlags(level: Value) {
    level == Str("Critical") || level == Str("High")
  }

  /** What the loop over `expected.get('risk_indicators', [])` visits. */
  function RiskIndicators(expected: map<string, Value>): Option<seq<Value>> {
    if "risk_indicators" in expected then Iterate(expected["risk_indicators"]) else Some([])
  }

  /** The flag emitted for one indicator. */
  function FlagFor(level: Value, indicator: Value): (f: RiskFlag)
    ensures f.indicator == indicator
    ensures f.severity == "critical" || f.severity == "high"
    ensures f.severity == "critical" <==> level == Str("Critical")
    ensures f.suggestedAction == CriticalAction || f.suggestedAction == HighAction
    ensures f.suggestedAction == CriticalAction <==> f.severity == "critical"
    ensures f.evidenceQuote == RiskQuote
  {
    var severity := if level == Str("Critical") then "critical" else "high";
    RiskFlag(severity, indicator, RiskQuote, if severity == "critical" then CriticalAction else HighAction)
  }

  /** `risk_flags` of the demo extraction. */
  function RiskFlagsOf(expected: map<string, Value>): (r: Result<seq<RiskFlag>, DemoError>)
    ensures r.Failure? <==> RaisesFlags(RiskLevel(expected)) && RiskIndicators(expected).None?
    ensures r.Success? && !RaisesFlags(RiskLevel(expected)) ==> r.value == []
    ensures r.Success? && RaisesFlags(RiskLevel(expected)) ==>
              |r.value| == |RiskIndicators(expected).value|
              && forall i :: 0 <= i < |r.value| ==> r.value[i].indicator == RiskIndicators(expected).value[i]
    ensures r.Success? ==> forall i :: 0 <= i < |r.value| ==>
              (r.value[i].severity == "critical" <==> RiskLevel(expected) == Str("Critical"))
              && (r.value[i].suggestedAction == CriticalAction <==> r.value[i].severity == "critical")
    ensures r.Success? ==> forall i :: 0 <= i < |r.value| ==>
              r.value[i] == FlagFor(RiskLevel(expected), r.value[i].indicator)
    ensures r.Success? && RiskLevel(expected) == Str("High") ==> forall i :: 0 <= i < |r.value| ==>
              r.value[i].severity == "high" && r.value[i].suggestedAction == HighAction
  {
    var level := RiskLevel(expected);
    if !RaisesFlags(level) then Success([])
    else match RiskIndicators(expected)
      case None => Failure(IndicatorsNotIterable)
      case Some(xs) => Success(seq(|xs|, i requires 0 <= i < |xs| => FlagFor(level, xs[i])))
  }

  /** The risk-flag loop. */
  method CollectRiskFlags(expected: map<string, Value>) returns (r: Result<seq<RiskFlag>, DemoError>)
    ensures r == RiskFlagsOf(expected)
  {
    var riskLevel := RiskLevel(expected);
    var flags: seq<RiskFlag> := [];
    if riskLevel == Str("Critical") || riskLevel == Str("High") {
      var indicators := RiskIndicators(expected);
      if indicators.None? {
        return Failure(IndicatorsNotIterable);
      }
      var xs := indicators.value;
      for i := 0 to |xs|
        invariant |flags| == i
        invariant forall k :: 0 <= k < i ==> flags[k] == FlagFor(riskLevel, xs[k])
      {
        var severity := if riskLevel == Str("Critical") then "critical" else "high";
        flags := flags + [RiskFlag(severity, xs[i], RiskQuote,
                                   if severity == "critical" then CriticalAction else HighAction)];
      }
      assert flags == seq(|xs|, i requires 0 <= i < |xs| => FlagFor(riskLevel, xs[i]));
    }
    r := Success(flags);
  }

  // -------------------------------------------------------------- extraction

  /** The whole result of `simulate_extraction`. */
  function SimulationOf(transcript: string, schema: FormSchema, samples: seq<Sample>): Result<RawExtraction, DemoError> {
    if |samples| == 0 then Failure(NoSamples)
    else
      var expected := samples[MatchIndex(transcript, samples)].expected;
      var n := |schema.fields|;
      var extracted := CountExtracted(schema.fields, expected);
      match RiskFlagsOf(expected)
      case Failure(e) => Failure(e)
      case Success(flags) =>
        Success(RawExtraction(EntriesOf(schema.fields, expected, transcript), flags,
                              ExtractionSummary(n, extracted, 0, n - extracted)))
  }

  method Simulate(transcript: string, schema: FormSchema, samples: seq<Sample>)
    returns (r: Result<RawExtraction, DemoError>)
    ensures r == SimulationOf(transcript, schema, samples)
  {
    var matched := MatchSample(transcript, samples);
    if matched.Failure? {
      return Failure(matched.error);
    }
    var expected := matched.value.expected;
    var entries, extracted, missing := FillFields(schema.fields, expected, transcript);
    var summary := ExtractionSummary(|schema.fields|, extracted, 0, missing);
    var flags := CollectRiskFlags(expected);
    if flags.Failure? {
      return Failure(flags.error);
    }
    r := Success(RawExtraction(entries, flags.value, summary));
  }

  // ------------------------------------------------------------- properties

  /** The last field's id does not occur earlier, when ids are unique. */
  lemma LastIdFresh(fields: seq<Field>)
    requires |fields| > 0 && UniqueIds(fields)
    ensures fields[|fields| - 1].fieldId !in FieldIds(fields[..|fields| - 1])
  {
    var n := |fields| - 1;
    var init := fields[..n];
    forall f | f in init
      ensures f.fieldId != fields[n].fieldId
    {
      var j :| 0 <= j < n && init[j] == f;
    }
  }

  /** The ids with a value, among the ids of `fields`. */
  function IdsWithValue(fields: seq<Field>, expected: map<string, Value>): set<string> {
    set id | id in FieldIds(fields) && HasValue(expected, id)
  }

  lemma IdsWithValueSnoc(fields: seq<Field>, expected: map<string, Value>)
    requires |fields| > 0
    ensures var n := |fields| - 1;
            IdsWithValue(fields, expected)
            == IdsWithValue(fields[..n], expected)
               + (if HasValue(expected, fields[n].fieldId) then {fields[n].fieldId} else {})
  {
    var n := |fields| - 1;
    FieldIdsSnoc(fields, n);
    assert fields[..n + 1] == fields;
  }

  /** With unique field ids every field contributes its own id. */
  lemma {:induction false} DistinctIds(fields: seq<Field>)
    requires UniqueIds(fields)
    ensures |FieldIds(fields)| == |fields|
  {
    if |fields| > 0 {
      var n := |fields| - 1;
      var init := fields[..n];
      assert UniqueIds(init);
      DistinctIds(init);
      LastIdFresh(fields);
      FieldIdsSnoc(fields, n);
      assert fields[..n + 1] == fields;
      assert FieldIds(fields) == FieldIds(init) + {fields[n].fieldId};
    }
  }

  /** With unique field ids the extracted count is the number of schema
      fields that have a non-null expected value. */
  lemma {:induction false} CountDistinct(fields: seq<Field>, expected: map<string, Value>)
    requires UniqueIds(fields)
    ensures CountExtracted(fields, expected) == |IdsWithValue(fields, expected)|
  {
    if |fields| > 0 {
      var n := |fields| - 1;
      var init := fields[..n];
      assert UniqueIds(init);
      CountDistinct(init, expected);
      LastIdFresh(fields);
      IdsWithValueSnoc(fields, expected);
      var id := fields[n].fieldId;
      assert id !in IdsWithValue(init, expected);
      if HasValue(expected, id) {
        assert IdsWithValue(fields, expected) == IdsWithValue(init, expected) + {id};
      } else {
        assert IdsWithValue(fields, expected) == IdsWithValue(init, expected);
      }
    }
  }

  /** `extracted_fields` has exactly one entry per schema field. */
  lemma DemoOneEntryPerField(transcript: string, schema: FormSchema, samples: seq<Sample>)
    ensures SimulationOf(transcript, schema, samples).Success? ==>
              SimulationOf(transcript, schema, samples).value.extractedFields.Keys == FieldIds(schema.fields)
    ensures SimulationOf(transcript, schema, samples).Success? && UniqueIds(schema.fields) ==>
              |SimulationOf(transcript, schema, samples).value.extractedFields| == |schema.fields|
  {
    if SimulationOf(transcript, schema, samples).Success? && UniqueIds(schema.fields) {
      DistinctIds(schema.fields);
      var m := SimulationOf(transcript, schema, samples).value.extractedFields;
      assert |m| == |m.Keys|;
    }
  }

  /** The summary adds up: every field is extracted or missing, none is
      uncertain, and with unique ids the extracted count is the number of
      entries that carry a value. */
  lemma DemoSummaryBalanced(transcript: string, schema: FormSchema, samples: seq<Sample>)
    ensures var r := SimulationOf(transcript, schema, samples);
            r.Success? ==>
              && r.value.summary.totalFields == |schema.fields|
              && r.value.summary.fieldsExtracted + r.value.summary.fieldsMissing == r.value.summary.totalFields
              && r.value.summary.fieldsUncertain == 0
    ensures var r := SimulationOf(transcript, schema, samples);
            r.Success? && UniqueIds(schema.fields) ==>
              r.value.summary.fieldsExtracted
              == |set k | k in r.value.extractedFields && r.value.extractedFields[k].value != Null|
  {
    var r := SimulationOf(transcript, schema, samples);
    if r.Success? && UniqueIds(schema.fields) {
      var expected := samples[MatchIndex(transcript, samples)].expected;
      CountDistinct(schema.fields, expected);
      var m := r.value.extractedFields;
      assert (set k | k in m && m[k].value != Null) == IdsWithValue(schema.fields, expected);
    }
  }

  /** The demo extractor fails exactly when there is no sample, or when the
      matched sample raises flags but its indicators cannot be iterated. */
  lemma DemoFailsOnlyWhen(transcript: string, schema: FormSchema, samples: seq<Sample>)
    ensures SimulationOf(transcript, schema, samples).Failure? <==>
              |samples| == 0
              || (var expected := samples[MatchIndex(transcript, samples)].expected;
                  RaisesFlags(RiskLevel(expected)) && RiskIndicators(expected).None?)
  {
  }
}
