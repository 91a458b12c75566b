# OpenCHS extraction pipeline, modelled in Dafny

This project models the extraction pipeline of the OpenCHS AI Assistant backend
(`backend/main.py`). The pipeline turns a hotline call transcript into a pre-filled case
form. It has these parts:

- **Prompt builder.** It builds the extraction prompt from the form schema.
- **Demo extractor.** It matches the transcript against reference samples and
  synthesises values, evidence quotes, confidences, a summary and risk flags from the
  matched sample's expected extraction.
- **Live extractor.** It sends the prompt to a structured-generation service, strips
  code fences from the reply, parses it, and falls back to the demo extractor on any
  failure.
- **Response normaliser.** It projects `extracted_fields` into the `extracted_data`,
  `evidence` and `confidence_scores` maps.
- **Sample lookup.** It finds a reference sample by call id.

Modules, one per component:

- `Results` (`results.dfy`) holds the Option and Result wrappers.
- `Text` (`text.dfy`) models the Python string operations used: `in`, `find`, `split`,
  `join`, `[:n]`, `lower()` and `strip()`.
- `Shapes` (`shapes.dfy`) holds the JSON-like records: values, fields, schema, samples,
  raw extractions.
- `Prompt` (`prompt.dfy`) models `build_extraction_prompt`.
- `Demo` (`demo.dfy`) models `simulate_extraction`.
- `Live` (`live.dfy`) models `call_claude_api`.
- `Normalizer` (`normalizer.dfy`) models the body of `extract_from_transcript`.
- `Lookup` (`lookup.dfy`) models `get_sample_transcript`.

Each loop of the source is a method with a `while` or `for` loop. Most of these
methods are proved equal to a declarative function: `FieldLines`/`PromptOf`,
`MatchIndex`, `EntriesOf`/`CountExtracted`, `RiskFlagsOf`, `SimulationOf`,
`NormalizationOf`. The properties are lemmas or `ensures` about those functions. The
exception is `Lookup.GetSample`, whose `ensures` state its search property directly. The schema, the sample
library, the service, the JSON parser and the clock are parameters.

Notes on the code's behaviour, as modelled:

- The suggested actions are capitalised: "Immediate intervention required" and "Elevated
  monitoring needed" (main.py:219).
- The evidence search is case-insensitive only. Both the value and the transcript are
  lowered before `find` (main.py:188-191).
- The summary satisfies `fields_extracted + fields_missing == total_fields` exactly
  (main.py:169-208).
- The summary numbers shown in the prompt's reply-format example (19/15/2/2) are fixed
  text (main.py:131-136).

## Model

| member | source | states |
|---|---|---|
| `Text.Find` | backend/main.py:190-191 | `find` gives an index iff the pattern occurs (`in`); that index is an occurrence with none before it |
| `Text.Split` | backend/main.py:246-248 | `split` yields at least one piece; two or more iff the separator occurs; the first piece is the text before the first occurrence, or all of it |
| `Text.SplitJoin` | backend/main.py:246-248 | joining the pieces of `split` with the separator gives the original string back |
| `Text.SplitPiecesFree` | backend/main.py:246-248 | no piece of `split` contains the separator |
| `Text.Strip` | backend/main.py:250 | `strip()` keeps a contiguous middle part; everything removed is whitespace and the result neither starts nor ends with whitespace |
| `Text.Lower` | backend/main.py:188-189 | `lower()` is length-preserving and acts character by character |
| `Text.Take` | backend/main.py:158 | `[:n]` is the prefix of length min(n, len) |
| `Text.JoinAt` | backend/main.py:86 | each item of a `join` occurs in the result at its offset |
| `Text.JoinOrdered` | backend/main.py:94 | items of a `join` appear in order, without overlap, and the separator sits right after each item but the last |
| `Shapes.Iterate` | backend/main.py:213 | a `for` over a list visits its items and over a string its characters; any other value is not iterable (TypeError) |
| `Prompt.FieldLine` | backend/main.py:84-86 | a field description starts with `- id (name): description` and carries the `Options:` line exactly when the type is `select` or `multi_select` |
| `Prompt.TopKeywords` | backend/main.py:97-99 | a risk tier contributes at most its first 10 keywords, in order, and all of them when it has fewer |
| `Prompt.BuildExtractionPrompt` | backend/main.py:79-141 | the loop builds one description per field in schema order and the result equals the prompt assembled from them |
| `Prompt.PromptEmbedsTranscript` | backend/main.py:110-113 | the transcript appears verbatim, immediately followed by the reply-format instructions |
| `Prompt.PromptContainsTranscript` | backend/main.py:110-111 | the prompt contains the transcript |
| `Prompt.PromptListsField` | backend/main.py:93-94 | every field's description line occurs in the prompt |
| `Prompt.PromptFieldsInOrder` | backend/main.py:82-94 | the field descriptions appear in schema order, and a line break directly follows each description but the last |
| `Prompt.PromptListsKeyword` | backend/main.py:96-99 | each of the first ten keywords of every tier occurs in the prompt |
| `Demo.MatchIndex` | backend/main.py:155-160 | the chosen sample is the first whose first 100 characters occur in the transcript's first 100, else sample 0 |
| `Demo.MatchSample` | backend/main.py:155-160 | the matching loop with `break` picks that sample; an empty library fails (IndexError) |
| `Demo.MatchedNoLaterThan` | backend/main.py:156-160 | a sample whose prefix occurs in the transcript's prefix is chosen unless an earlier one is |
| `Demo.EmptySampleMatches` | backend/main.py:158 | a sample with an empty transcript matches every transcript |
| `Demo.EvidenceQuote` | backend/main.py:183-192 | an evidence quote is never empty; a value that is not a non-empty string found case-insensitively in the transcript gets the placeholder `[Quote extracted from transcript for <field_id>]` |
| `Demo.EvidenceWindow` | backend/main.py:186-192 | for a non-empty string found case-insensitively, the quote is a verbatim slice of the transcript around the first match; it starts at max(0, idx - 20) and ends at min(len(transcript), idx + len(value) + 20), covers the match, and is at most 40 longer than the value |
| `Demo.FieldEntry` | backend/main.py:180-208 | a field with a non-null expected value gets that value, a quote and confidence 0.85 (narrative fields) or 0.92; any other field gets null, no quote and 0.0; value is null iff confidence is 0.0 |
| `Demo.EntriesOf` | backend/main.py:177-208 | `extracted_fields` has exactly the schema's field ids as keys, each mapped to that field's `FieldEntry` |
| `Demo.CountExtracted` | backend/main.py:200 | the extracted counter never exceeds the number of fields |
| `Demo.FillFields` | backend/main.py:177-208 | the field loop builds exactly those entries, counts the extracted fields, and extracted plus missing equals the field count |
| `Demo.FlagFor` | backend/main.py:214-219 | severity is `critical` iff the level is "Critical", else `high`; the action is "Immediate intervention required" iff the severity is critical, else "Elevated monitoring needed"; the quote is the fixed risk quote |
| `Demo.RiskFlagsOf` | backend/main.py:211-220 | for level "Critical" or "High" there is exactly one flag per indicator, in order; any other level gives no flags; it fails only when flags are due and the indicators are not iterable; every flag is the one `FlagFor` gives for the level and its indicator, so level "High" gives severity `high` and "Elevated monitoring needed" |
| `Demo.CollectRiskFlags` | backend/main.py:211-220 | the flag loop produces exactly those flags |
| `Demo.Simulate` | backend/main.py:144-222 | `simulate_extraction` with the samples passed in yields the specified extraction |
| `Demo.DistinctIds` | backend/main.py:177-178 | with unique field ids there are as many ids as fields |
| `Demo.CountDistinct` | backend/main.py:180-200 | with unique ids, `fields_extracted` is the number of schema fields whose expected value is non-null |
| `Demo.DemoOneEntryPerField` | backend/main.py:177-208 | the demo result has one entry per schema field id; with unique ids, as many entries as fields |
| `Demo.DemoSummaryBalanced` | backend/main.py:168-208 | `total_fields` is the field count, extracted plus missing equals it, uncertain is 0; with unique ids, extracted equals the number of entries with a value |
| `Demo.DemoFailsOnlyWhen` | backend/main.py:156-213 | the demo extractor fails exactly on an empty library, or on due flags with non-iterable indicators |
| `Live.CleanReply` | backend/main.py:245-250 | the text given to the parser is a slice of the fence-stripped reply with only whitespace outside it, and it neither starts nor ends with whitespace |
| `Live.NoFenceUnchanged` | backend/main.py:245-250 | a reply without a fence is only whitespace-stripped |
| `Live.BareFenceBody` | backend/main.py:247-248 | without "```json", the result is the text after the first fence cut at the next fence, or running to the end |
| `Live.JsonFenceBody` | backend/main.py:245-246 | with "```json", the result is the text after the first "```json" cut at the next fence, or running to the end, provided no run of four backticks follows |
| `Live.JsonFenceOverlap` | backend/main.py:245-246 | on "```jsona`````json" the code keeps "a``" where cutting at the next fence gives "a" |
| `Live.AsDemo` | backend/main.py:253-256 | tags a demo result as such and keeps its failure |
| `Live.CallClaudeApi` | backend/main.py:225-256 | sends the built prompt, strips fences, parses, and otherwise falls back to the demo extractor |
| `Live.FailOpen` | backend/main.py:253-256 | on a service error or an unparsable reply, the answer is exactly the demo extractor's |
| `Live.LiveReplyUsed` | backend/main.py:242-251 | a reply that parses is returned as the live answer |
| `Normalizer.QuoteOrEmpty` | backend/main.py:303 | the quote is `""` exactly when the raw quote is null or empty, otherwise the raw quote |
| `Normalizer.NormalizationOf` | backend/main.py:296-318 | the three maps have exactly the raw keys; value, confidence and the reasoning default are carried over; the score equals the evidence confidence; risk flags are copied unchanged |
| `Normalizer.Normalize` | backend/main.py:296-307 | the normalisation loop produces that response |
| `Normalizer.CallIdOf` | backend/main.py:286 | an absent or empty call id is replaced by `CALL_` plus the time stamp; the id is never empty |
| `Normalizer.ExtractFromTranscript` | backend/main.py:282-318 | picks the live or demo extractor by mode and normalises its result; extractor failures become the request failure |
| `Normalizer.DemoResponseCoversSchema` | backend/main.py:290-318 | in demo mode the response keys are exactly the schema's field ids; a value is null iff its confidence is 0.0; non-null confidences are 0.85 for the narrative fields and 0.92 for the others, and come with a non-empty quote |
| `Normalizer.ErroringServiceMatchesDemo` | backend/main.py:253-256 | with a service that always errors, live mode answers exactly as demo mode |
| `Lookup.GetSample` | backend/main.py:359-363 | returns the first sample with the call id, none exactly when no sample has it |

## Left out

- HTTP layer: the FastAPI app, CORS, routes, static files and `uvicorn` (main.py:27-36, 259-377). The HTTP 500 and 404 responses become `Failure` and `None`.
- File loading of the schema and samples (main.py:43-44, 151-153, 332-334, 355-357). Schema and samples are parameters.
- The Anthropic client and `messages.create`, and `json.loads` (main.py:20-25, 48-54, 232-242, 250). These are the `service` and `parse` function parameters. A reply without text content counts as a service error.
- Clock readings (main.py:282, 286, 309). They are the `stamp` and `processingTimeMs` parameters.
- Logging with `print`/`traceback` (main.py:253-254, 320-324). It has no effect on results.
- The `/samples` preview listing (main.py:336-347). It is file I/O around a `[:200] + "..."` slice.
- The `language` request field. It is never read by the pipeline.
- A live reply that `json.loads` accepts but that is not an object holding both `extracted_fields` and `risk_flags` (for example `[]`, `"ok"` or `{"extracted_fields": {}}`). The source returns it from inside the `try` at main.py:251, so there is no demo fallback. `extract_from_transcript` then raises at main.py:300 or main.py:315 (HTTP 500). This case is not modelled. In the model, `parse` returns None exactly where `json.loads` raises, which is the case that falls back to the demo extractor, and otherwise a complete record.
- A live reply whose `extracted_fields` entries lack `value`, `evidence_quote` or `confidence`, or are not objects, raises in the source (HTTP 500; `AttributeError` when `extracted_fields` is a list). The model's parser returns typed records only, so these failures are not modelled.
- Wrong-typed values in a live reply are not modelled, for the same reason. The source copies a non-number `confidence` or a truthy non-string `evidence_quote` through unchanged.
- `Normalizer.NormalizationOf`: an explicit `"reasoning": null` in a live reply gives `None` in the source, but `""` in the model. The typed record does not tell a null from an absent key.
- `Normalizer.ExtractionRequest`: the request body is an arbitrary JSON object in the source, but the model types `transcript` and `call_id` as optional strings. So two behaviours are not modelled:
  - `"transcript": null`. The model treats it as an absent transcript, the empty string. In the source it depends on the mode:
    - In demo mode, and on the live fallback, it raises `TypeError` at main.py:158 (HTTP 500).
    - In live mode, the prompt is built outside the `try` (main.py:229). Its f-string renders the transcript as the text `None` (main.py:111). A reply that parses is then returned and normalised without error. The model sends a prompt with an empty transcript instead.
  - A truthy non-string `call_id`, which the source echoes back unchanged.
- Dictionary iteration order. Python dicts are ordered; maps are not, so the order of keys in the response is not modelled.
- JSON objects as values. `Value` has no object case, so iterating a dict-valued `risk_indicators` (which would visit its keys) is not modelled.
- JSON numbers are modelled as exact reals. Floating point is not modelled; the confidences are the exact literals 0.92, 0.85 and 0.0.
- `Text.Lower`: lowers ASCII and Latin-1 capital letters only. Python's full Unicode lower-casing, which can also change the string length, is not modelled. The source's window slice relies on equal lengths anyway.
- Schema fields of choice type without an `options` key raise `KeyError` in the source. The model gives every field an options list (empty when absent).
- `Live.JsonFenceBody`: stated only when no run of four backticks follows the "```json" marker. Otherwise the two-level `split` differs from "cut at the next fence", as `Live.JsonFenceOverlap` shows.
