/** The example compiler: few-shot examples as callers send them (text plus
    loosely typed extraction dicts) turned into the engine's typed example
    records, or a 400 when an extraction lacks its class or its text. */
module Examples {
  import opened Wrappers
  import opened Http
  import opened PyValues
  import opened Schemas

  const MALFORMED_EXTRACTION_DETAIL: string :=
    "Each extraction in examples must include 'extraction_class' and 'extraction_text'."

  /** The engine's extraction record (`lx.data.Extraction`), holding whatever
      values the caller sent; the engine's own types are not modelled. */
  datatype Extraction = Extraction(
    extractionClass: PyValue,
    extractionText: PyValue,
    attributes: PyValue,
    description: PyValue)

  /** The engine's example record (`lx.data.ExampleData`). */
  datatype ExampleData = ExampleData(text: string, extractions: seq<Extraction>)

  /** Both required fields present and truthy (a missing key reads as `None`). */
  predicate WellFormed(d: Dict) {
    Truthy(Get(d, "extraction_class")) && Truthy(Get(d, "extraction_text"))
  }

  predicate ExampleWellFormed(e: ExtractionExample) {
    forall j :: 0 <= j < |e.extractions| ==> WellFormed(e.extractions[j])
  }

  predicate AllWellFormed(es: seq<ExtractionExample>) {
    forall i :: 0 <= i < |es| ==> ExampleWellFormed(es[i])
  }

  /** One extraction dict as an engine record; optional fields read through
      `get`, so an absent one is `None`, never an empty default. */
  function CompileExtraction(d: Dict): Extraction {
    Extraction(Get(d, "extraction_class"), Get(d, "extraction_text"), Get(d, "attributes"), Get(d, "description"))
  }

  /** Every field the caller set reaches the record unchanged, and the optional
      ones it left out are `None`. */
  lemma CompileExtractionCopiesFields(d: Dict, i: int)
    requires DistinctKeys(d)
    requires 0 <= i < |d|
    ensures d[i].0 == "extraction_class" ==> CompileExtraction(d).extractionClass == d[i].1
    ensures d[i].0 == "extraction_text" ==> CompileExtraction(d).extractionText == d[i].1
    ensures d[i].0 == "attributes" ==> CompileExtraction(d).attributes == d[i].1
    ensures d[i].0 == "description" ==> CompileExtraction(d).description == d[i].1
  {
    GetFindsStoredValue(d, i);
  }

  lemma AbsentOptionalFieldsAreNone(d: Dict)
    ensures "attributes" !in Keys(d) ==> CompileExtraction(d).attributes == PNone
    ensures "description" !in Keys(d) ==> CompileExtraction(d).description == PNone
  {
  }

  function CompileExample(e: ExtractionExample): (r: ExampleData)
    ensures r.text == e.text && |r.extractions| == |e.extractions|
    ensures forall j :: 0 <= j < |e.extractions| ==> r.extractions[j] == CompileExtraction(e.extractions[j])
  {
    ExampleData(e.text, seq(|e.extractions|, j requires 0 <= j < |e.extractions| => CompileExtraction(e.extractions[j])))
  }

  /** What `_build_examples` computes: the compiled examples, in order, each
      with its extractions in order; or the 400, as soon as any extraction of
      any example is malformed, with nothing built. */
  function CompileExamples(es: seq<ExtractionExample>): (r: Result<seq<ExampleData>, HttpError>)
    ensures r.Success? <==> AllWellFormed(es)
    ensures r.Failure? ==> r.error == HttpError(BadRequest, MALFORMED_EXTRACTION_DETAIL)
    ensures r.Success? ==> |r.value| == |es|
    ensures r.Success? ==> forall i :: 0 <= i < |es| ==> r.value[i] == CompileExample(es[i])
  {
    if es == [] then Success([])
    else if !ExampleWellFormed(es[0]) then Failure(HttpError(BadRequest, MALFORMED_EXTRACTION_DETAIL))
    else
      var rest := CompileExamples(es[1..]);
      if rest.Failure? then rest
      else
        assert forall i :: 1 <= i < |es| ==> es[i] == es[1..][i - 1];
        Success([CompileExample(es[0])] + rest.value)
  }

  /** `_build_examples`: the nested loops that append each compiled extraction
      and each compiled example, leaving at the first malformed extraction. */
  method BuildExamples(payloadExamples: seq<ExtractionExample>) returns (r: Result<seq<ExampleData>, HttpError>)
    ensures r == CompileExamples(payloadExamples)
  {
    var builtExamples: seq<ExampleData> := [];
    var i := 0;
    while i < |payloadExamples|
      invariant 0 <= i <= |payloadExamples|
      invariant forall k :: 0 <= k < i ==> ExampleWellFormed(payloadExamples[k])
      invariant |builtExamples| == i
      invariant forall k :: 0 <= k < i ==> builtExamples[k] == CompileExample(payloadExamples[k])
    {
      var example := payloadExamples[i];
      var rawExtractions: seq<Extraction> := [];
      var j := 0;
      while j < |example.extractions|
        invariant 0 <= j <= |example.extractions|
        invariant forall m :: 0 <= m < j ==> WellFormed(example.extractions[m])
        invariant |rawExtractions| == j
        invariant forall m :: 0 <= m < j ==> rawExtractions[m] == CompileExtraction(example.extractions[m])
      {
        var extraction := example.extractions[j];
        var extractionClass := Get(extraction, "extraction_class");
        var extractionText := Get(extraction, "extraction_text");
        if !Truthy(extractionClass) || !Truthy(extractionText) {
          assert !ExampleWellFormed(payloadExamples[i]);
          return Failure(HttpError(BadRequest, MALFORMED_EXTRACTION_DETAIL));
        }
        rawExtractions := rawExtractions + [
          Extraction(extractionClass, extractionText, Get(extraction, "attributes"), Get(extraction, "description"))
        ];
        j := j + 1;
      }
      assert rawExtractions == CompileExample(example).extractions;
      builtExamples := builtExamples + [ExampleData(example.text, rawExtractions)];
      i := i + 1;
    }
    var compiled := CompileExamples(payloadExamples);
    assert compiled.Success?;
    assert builtExamples == compiled.value;
    return Success(builtExamples);
  }
}
