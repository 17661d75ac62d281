/** The request and response bodies of the extraction API, with the field
    constraints and defaults the schema layer enforces before any handler runs. */
module Schemas {
  import opened Wrappers
  import opened PyValues

  const DEFAULT_REQUEST_MODEL_ID: string := "gemini-2.5-flash"
  const DEFAULT_EXTRACTION_PASSES: int := 1
  const DEFAULT_MAX_WORKERS: int := 10
  const DEFAULT_MAX_CHAR_BUFFER: int := 1000
  const DEFAULT_OUTPUT_FORMAT: string := "json"

  /** One few-shot example: its text and its loosely typed extraction dicts. */
  datatype ExtractionExample = ExtractionExample(text: string, extractions: seq<Dict>)

  datatype ExtractRequest = ExtractRequest(
    text: string,
    promptDescription: string,
    examples: seq<ExtractionExample>,
    modelId: string,
    extractionPasses: Option<int>,
    maxWorkers: Option<int>,
    maxCharBuffer: Option<int>,
    languageModelParams: Option<Dict>,
    outputFormat: string)

  datatype ExtractResponse = ExtractResponse(
    requestId: string,
    timingMs: int,
    result: Dict,
    markdown: Option<string>)

  predicate ValidExample(e: ExtractionExample) {
    |e.text| >= 1
  }

  /** An optional integer field: absent (`null`), or within `[lo, hi]`. */
  predicate InBounds(v: Option<int>, lo: int, hi: int) {
    v.None? || lo <= v.value <= hi
  }

  /** Every constraint the request schema declares. */
  predicate ValidRequest(r: ExtractRequest) {
    && |r.text| >= 1
    && |r.promptDescription| >= 1
    && |r.examples| >= 1
    && (forall i :: 0 <= i < |r.examples| ==> ValidExample(r.examples[i]))
    && |r.modelId| >= 1
    && InBounds(r.extractionPasses, 1, 5)
    && InBounds(r.maxWorkers, 1, 20)
    && InBounds(r.maxCharBuffer, 100, 5000)
  }

  /** An example built with only its text given: no extractions. */
  function NewExample(text: string): (e: ExtractionExample)
    ensures e.extractions == []
    ensures ValidExample(e) <==> text != ""
  {
    ExtractionExample(text, [])
  }

  /** A request built with only its required fields given: every other field
      takes its default. */
  function NewRequest(text: string, promptDescription: string, examples: seq<ExtractionExample>): ExtractRequest {
    ExtractRequest(
      text, promptDescription, examples,
      modelId := DEFAULT_REQUEST_MODEL_ID,
      extractionPasses := Some(DEFAULT_EXTRACTION_PASSES),
      maxWorkers := Some(DEFAULT_MAX_WORKERS),
      maxCharBuffer := Some(DEFAULT_MAX_CHAR_BUFFER),
      languageModelParams := None,
      outputFormat := DEFAULT_OUTPUT_FORMAT)
  }

  /** The defaults never violate a constraint: a request built from its
      required fields is valid exactly when those fields are. */
  lemma DefaultsAreValid(text: string, promptDescription: string, examples: seq<ExtractionExample>)
    ensures ValidRequest(NewRequest(text, promptDescription, examples)) <==>
      && text != ""
      && promptDescription != ""
      && examples != []
      && (forall i :: 0 <= i < |examples| ==> ValidExample(examples[i]))
  {
  }

  /** A response as the handlers build it: no markdown. */
  function NewResponse(requestId: string, timingMs: int, result: Dict): (r: ExtractResponse)
    ensures r.markdown == None
  {
    ExtractResponse(requestId, timingMs, result, None)
  }

  /** The `extractions` field of an example read from plain data: absent means
      the empty list; present, it must be a list of dicts. */
  function ExtractionsField(d: Dict): (r: Option<seq<Dict>>)
    ensures "extractions" !in Keys(d) ==> r == Some([])
    ensures r.Some? && "extractions" in Keys(d) ==>
      Get(d, "extractions") == PList(seq(|r.value|, i requires 0 <= i < |r.value| => PDict(r.value[i])))
  {
    if "extractions" !in Keys(d) then Some([])
    else
      var field := Get(d, "extractions");
      if field.PList? && forall i :: 0 <= i < |field.items| ==> field.items[i].PDict? then
        var ds := seq(|field.items|, i requires 0 <= i < |field.items| => field.items[i].entries);
        assert field.items == seq(|ds|, i requires 0 <= i < |ds| => PDict(ds[i]));
        Some(ds)
      else None
  }

  /** `ExtractionExample.model_validate(v)` for a value decoded from JSON:
      `None` where validation raises. */
  function ValidateExample(v: PyValue): (r: Option<ExtractionExample>)
    ensures r.Some? ==> ValidExample(r.value)
    ensures r.Some? ==> v.PDict? && Get(v.entries, "text") == PStr(r.value.text)
  {
    if v.PDict? && Get(v.entries, "text").PStr? && |Get(v.entries, "text").s| >= 1 then
      var extractions := ExtractionsField(v.entries);
      if extractions.Some? then Some(ExtractionExample(Get(v.entries, "text").s, extractions.value))
      else None
    else None
  }

  /** An example as plain data, the way it is written into `examples_json`. */
  function ExampleToPlain(e: ExtractionExample): PyValue {
    PDict([("text", PStr(e.text)),
           ("extractions", PList(seq(|e.extractions|, i requires 0 <= i < |e.extractions| => PDict(e.extractions[i]))))])
  }

  /** Validation gives back any valid example written out as plain data. */
  lemma ValidateExampleRoundTrip(e: ExtractionExample)
    requires ValidExample(e)
    ensures ValidateExample(ExampleToPlain(e)) == Some(e)
  {
    var d := ExampleToPlain(e).entries;
    var items := d[1].1.items;
    assert Get(d, "text") == PStr(e.text);
    assert "text" != "extractions" by { assert "text"[0] != "extractions"[0]; }
    assert Get(d, "extractions") == Get(d[1..], "extractions") == PList(items);
    assert Keys(d)[1] == "extractions";
    assert forall i :: 0 <= i < |items| ==> items[i].PDict? && items[i].entries == e.extractions[i];
    var ds := seq(|items|, i requires 0 <= i < |items| => items[i].entries);
    assert ds == e.extractions;
    assert "extractions" in Keys(d);
    assert ExtractionsField(d) == Some(e.extractions);
  }
}
