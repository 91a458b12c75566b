/** The live extractor (`call_claude_api`): send the prompt to the
    structured-generation service, strip code fences from the reply, parse it,
    and fall back to the demo extractor on any failure. The service and the
    JSON parser are parameters. */
module Live {
  import opened Results
  import opened Text
  import opened Shapes
  import opened Prompt
  import opened Demo

  const JsonFence: string := "```json"
  const Fence: string := "```"

  /** The code-fence handling as written: split on "```json" (or on "```"),
      take the piece after the first marker, and keep what precedes the next
      "```". */
  function StripFences(text: string): string {
    if Contains(text, JsonFence) then Split(Split(text, JsonFence)[1], Fence)[0]
    else if Contains(text, Fence) then Split(Split(text, Fence)[1], Fence)[0]
    else text
  }

  /** The text handed to the JSON parser. */
  function CleanReply(text: string): (r: string)
    ensures var f := StripFences(text);
            exists lo: nat, hi: nat :: lo <= hi <= |f| && r == f[lo..hi]
              && (forall i :: 0 <= i < lo ==> IsSpace(f[i]))
              && (forall i :: hi <= i < |f| ==> IsSpace(f[i]))
    ensures |r| > 0 ==> !IsSpace(r[0]) && !IsSpace(r[|r| - 1])
  {
    Strip(StripFences(text))
  }

  /** `s` cut at its first "```", or all of `s` when it has none. */
  predicate CutAtFirstFence(s: string, r: string) {
    |r| <= |s| && r == s[..|r|]
    && (Find(s, Fence) == Some(|r|) || (Find(s, Fence).None? && r == s))
  }

  lemma FirstPieceIsCut(s: string)
    ensures CutAtFirstFence(s, Split(s, Fence)[0])
  {
  }

  lemma JsonFenceHasFence(text: string, i: nat)
    requires MatchesAt(text, JsonFence, i)
    ensures MatchesAt(text, Fence, i)
  {
    assert text[i..i + 3] == text[i..i + 7][..3];
  }

  /** A reply without any fence is only whitespace-stripped. */
  lemma NoFenceUnchanged(text: string)
    requires !Contains(text, Fence)
    ensures StripFences(text) == text
    ensures CleanReply(text) == Strip(text)
  {
    forall i: nat | i <= |text|
      ensures !MatchesAt(text, JsonFence, i)
    {
      if MatchesAt(text, JsonFence, i) {
        JsonFenceHasFence(text, i);
      }
    }
  }

  /** Without "```json", the result is the text between the first and the
      second "```" (or to the end when there is no second one). */
  lemma BareFenceBody(text: string)
    requires !Contains(text, JsonFence) && Contains(text, Fence)
    ensures var i := Find(text, Fence).value;
            CutAtFirstFence(text[i + |Fence|..], StripFences(text))
  {
    var i := Find(text, Fence).value;
    var rest := text[i + |Fence|..];
    SplitSecond(text, Fence);
    var piece := Split(text, Fence)[1];
    assert piece == Split(rest, Fence)[0];
    SplitPiecesFree(text, Fence, 1);
    assert Split(piece, Fence) == [piece];
    FirstPieceIsCut(rest);
  }

  /** Four backticks in a row. */
  const FourTicks: string := "````"

  /** Two fences that overlap, the second starting 1 or 2 characters after
      the first, form a run of four backticks. */
  lemma OverlappingFences(s: string, e: nat, k: nat)
    requires MatchesAt(s, Fence, e) && MatchesAt(s, Fence, k) && e < k < e + 3
    ensures MatchesAt(s, FourTicks, e)
  {
    assert s[e] == '`' && s[e + 1] == '`' && s[e + 2] == '`' by {
      assert s[e..e + 3][0] == '`' && s[e..e + 3][1] == '`' && s[e..e + 3][2] == '`';
    }
    assert s[e + 3] == '`' by {
      assert s[k..k + 3][e + 3 - k] == '`';
    }
    assert s[e..e + 4] == FourTicks;
  }

  /** Cutting `rest[..k]` at its first fence, when a fence starts at `k` and
      `rest` has no run of four backticks, is cutting `rest` at its first fence. */
  lemma CutBeforeFence(rest: string, k: nat)
    requires MatchesAt(rest, Fence, k) && !Contains(rest, FourTicks)
    ensures CutAtFirstFence(rest, Split(rest[..k], Fence)[0])
  {
    assert k <= |rest|;
    assert Contains(rest, Fence);
    var e := Find(rest, Fence).value;
    var a := rest[..k];
    assert e <= k;
    if e < k && k < e + 3 {
      OverlappingFences(rest, e, k);
    }
    assert e == k || e + 3 <= k;
    forall j: nat | j < e
      ensures !MatchesAt(a, Fence, j)
    {
      MatchesPrefix(rest, Fence, k, j);
    }
    if e + 3 <= k {
      MatchesPrefix(rest, Fence, k, e);
      assert Find(a, Fence) == Some(e);
      assert Split(a, Fence)[0] == a[..e] == rest[..e];
    } else {
      forall j: nat | j <= |a|
        ensures !MatchesAt(a, Fence, j)
      {
        MatchesPrefix(rest, Fence, k, j);
      }
      assert !Contains(a, Fence);
      assert Split(a, Fence)[0] == a;
    }
  }

  /** With "```json", the result is the text after the first "```json" up to
      the next "```" (or to the end), provided no run of four backticks
      follows the marker. */
  lemma JsonFenceBody(text: string)
    requires Contains(text, JsonFence)
    requires !Contains(text[Find(text, JsonFence).value + |JsonFence|..], FourTicks)
    ensures var i := Find(text, JsonFence).value;
            CutAtFirstFence(text[i + |JsonFence|..], StripFences(text))
  {
    var i := Find(text, JsonFence).value;
    var rest := text[i + |JsonFence|..];
    SplitSecond(text, JsonFence);
    var piece := Split(text, JsonFence)[1];
    assert piece == Split(rest, JsonFence)[0];
    var f := Find(rest, JsonFence);
    if f.Some? {
      var k := f.value;
      JsonFenceHasFence(rest, k);
      assert piece == rest[..k];
      CutBeforeFence(rest, k);
    } else {
      assert piece == rest;
      FirstPieceIsCut(rest);
    }
  }

  lemma OverlapFindJson()
    ensures Find("a`````json", JsonFence) == Some(3)
  {
    var rest := "a`````json";
    assert rest[0] != JsonFence[0] && rest[1..1 + 7][4] != JsonFence[4] && rest[2..2 + 7][4] != JsonFence[4];
    assert rest[3..3 + 7] == JsonFence;
    assert FindFrom(rest, JsonFence, 0) == FindFrom(rest, JsonFence, 1);
    assert FindFrom(rest, JsonFence, 1) == FindFrom(rest, JsonFence, 2);
    assert FindFrom(rest, JsonFence, 2) == FindFrom(rest, JsonFence, 3);
  }

  lemma OverlapFindFence()
    ensures Find("a`````json", Fence) == Some(1)
  {
    var rest := "a`````json";
    assert rest[0] != Fence[0];
    assert rest[1..1 + 3] == Fence;
    assert FindFrom(rest, Fence, 0) == FindFrom(rest, Fence, 1);
  }

  /** The proviso of JsonFenceBody is needed: on "```jsona`````json" the
      two-level split keeps "a``", while the text after the marker cut at its
      first "```" is "a". */
  lemma JsonFenceOverlap()
    ensures StripFences("```jsona`````json") == "a``"
    ensures CutAtFirstFence("a`````json", "a")
  {
    OverlapSecondPiece();
    OverlapNoFence();
    OverlapFindFence();
    assert "a`````json"[..1] == "a";
  }

  /** The piece after "```json" in the overlapping reply is "a``". */
  lemma OverlapSecondPiece()
    ensures Contains("```jsona`````json", JsonFence)
    ensures Split("```jsona`````json", JsonFence)[1] == "a``"
  {
    var text := "```jsona`````json";
    var rest := "a`````json";
    assert text[0..7] == JsonFence;
    FindAtStart(text, JsonFence);
    assert text[7..] == rest;
    SplitSecond(text, JsonFence);
    OverlapFindJson();
    SplitHead(rest, JsonFence, 3);
    assert rest[..3] == "a``";
  }

  /** "a``" holds no fence, so splitting it leaves it whole. */
  lemma OverlapNoFence()
    ensures Split("a``", Fence) == ["a``"]
  {
    var s := "a``";
    assert s[0..3] != Fence by { assert s[0] != Fence[0]; }
    assert FindFrom(s, Fence, 1) == None;
    assert Find(s, Fence) == None;
  }

  /** What the service call produces: a reply text, or an error (a network
      failure, a timeout, a reply without text content). */
  datatype ServiceReply = ServiceError | Reply(text: string)

  /** Which path produced an extraction. */
  datatype TaggedExtraction = FromLive(payload: RawExtraction) | FromDemo(payload: RawExtraction)

  function AsDemo(r: Result<RawExtraction, DemoError>): (t: Result<TaggedExtraction, DemoError>)
    ensures t.Success? <==> r.Success?
    ensures t.Success? ==> t.value == FromDemo(r.value)
    ensures t.Failure? ==> t.error == r.error
  {
    match r
    case Success(raw) => Success(FromDemo(raw))
    case Failure(e) => Failure(e)
  }

  /** The result of `call_claude_api` for a given service and parser.
      `parse` stands for `json.loads` followed by reading the reply as an
      extraction record: it returns None exactly where `json.loads` raises,
      which is when the demo fallback applies. A reply that parses but is
      not an object holding `extracted_fields` and `risk_flags` is returned
      by the source without the fallback and fails later, in
      `extract_from_transcript`; that case is not modelled. */
  function LiveOrDemoOf(transcript: string, schema: FormSchema, samples: seq<Sample>,
                        service: string -> ServiceReply, parse: string -> Option<RawExtraction>)
    : Result<TaggedExtraction, DemoError>
  {
    var reply := service(PromptOf(transcript, schema));
    var parsed := if reply.Reply? then parse(CleanReply(reply.text)) else None;
    if parsed.Some? then Success(FromLive(parsed.value))
    else AsDemo(SimulationOf(transcript, schema, samples))
  }

  method CallClaudeApi(transcript: string, schema: FormSchema, samples: seq<Sample>,
                       service: string -> ServiceReply, parse: string -> Option<RawExtraction>)
    returns (r: Result<TaggedExtraction, DemoError>)
    ensures r == LiveOrDemoOf(transcript, schema, samples, service, parse)
  {
    var prompt := BuildExtractionPrompt(transcript, schema);
    var reply := service(prompt);
    if reply.Reply? {
      var responseText := reply.text;
      if Contains(responseText, JsonFence) {
        responseText := Split(Split(responseText, JsonFence)[1], Fence)[0];
      } else if Contains(responseText, Fence) {
        responseText := Split(Split(responseText, Fence)[1], Fence)[0];
      }
      var parsed := parse(Strip(responseText));
      if parsed.Some? {
        return Success(FromLive(parsed.value));
      }
    }
    var demo := Simulate(transcript, schema, samples);
    r := AsDemo(demo);
  }

  /** Fail-open: when the service errors or `json.loads` rejects its reply,
      the answer is exactly the demo extractor's, tagged as such. */
  lemma FailOpen(transcript: string, schema: FormSchema, samples: seq<Sample>,
                 service: string -> ServiceReply, parse: string -> Option<RawExtraction>)
    requires var reply := service(PromptOf(transcript, schema));
             reply.ServiceError? || parse(CleanReply(reply.text)).None?
    ensures LiveOrDemoOf(transcript, schema, samples, service, parse)
            == AsDemo(SimulationOf(transcript, schema, samples))
  {
  }

  /** A reply that parses is returned as the live answer, and the live path
      then never fails. */
  lemma LiveReplyUsed(transcript: string, schema: FormSchema, samples: seq<Sample>,
                      service: string -> ServiceReply, parse: string -> Option<RawExtraction>)
    ensures var reply := service(PromptOf(transcript, schema));
            reply.Reply? && parse(CleanReply(reply.text)).Some?
            ==> LiveOrDemoOf(transcript, schema, samples, service, parse)
                == Success(FromLive(parse(CleanReply(reply.text)).value))
  {
  }
}
