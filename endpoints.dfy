/** The two extraction endpoints up to and around the engine call: the checks
    that run before dispatch, in their fixed order, the arguments the engine is
    called with, and how the way the call ended becomes the HTTP answer.

    The engine itself, the admission semaphore, the worker thread and the
    deadline are outside the model: how the call ended is an input
    (`EngineOutcome`), and so are the request id and the elapsed time. */
module Endpoints {
  import opened Wrappers
  import opened Http
  import opened PyValues
  import Settings
  import opened Schemas
  import opened Examples
  import PyInt
  import Auth
  import ModelParams
  import Normalize

  /** The arguments `lx.extract` receives. */
  datatype EngineCall = EngineCall(
    textOrDocuments: string,
    promptDescription: string,
    examples: seq<ExampleData>,
    modelId: string,
    apiKey: string,
    extractionPasses: Option<int>,
    maxWorkers: Option<int>,
    maxCharBuffer: Option<int>,
    languageModelParams: Option<Dict>)

  datatype EngineException = HttpExc(error: HttpError) | OtherExc(message: string)

  /** How the awaited engine call ended. `TimedOut` stands for any
      `TimeoutError` reaching the handler: the deadline's, and, since
      `asyncio.TimeoutError` is `TimeoutError`, one the engine raises itself. */
  datatype EngineOutcome = Returned(result: PyValue) | TimedOut | Raised(exception: EngineException)

  const TIMED_OUT_PREFIX: string := "Request timed out. request_id="
  const FAILED_PREFIX: string := "Extraction failed. request_id="

  function TextTooLong(cfg: Settings.Config): HttpError {
    HttpError(BadRequest, "text exceeds MAX_TEXT_CHARS=" + PyInt.FormatInt(cfg.maxTextChars))
  }

  function TooManyExamples(cfg: Settings.Config): HttpError {
    HttpError(BadRequest, "examples exceed MAX_EXAMPLES=" + PyInt.FormatInt(cfg.maxExamples))
  }

  function TooManyWorkers(cfg: Settings.Config): HttpError {
    HttpError(BadRequest, "max_workers exceeds MAX_WORKERS=" + PyInt.FormatInt(cfg.maxWorkers))
  }

  /** `model_id or settings.DEFAULT_MODEL_ID`. */
  function ModelOrDefault(cfg: Settings.Config, modelId: string): (m: string)
    ensures modelId != "" ==> m == modelId
    ensures modelId == "" ==> m == cfg.defaultModelId
  {
    if modelId == "" then cfg.defaultModelId else modelId
  }

  // ---------------------------------------------------------------- POST /v1/extract

  /** `payload.max_workers and payload.max_workers > MAX_WORKERS`: `None` and
      `0` are falsy and skip the check. */
  predicate WorkersOverLimit(cfg: Settings.Config, payload: ExtractRequest) {
    payload.maxWorkers.Some? && payload.maxWorkers.value != 0 && payload.maxWorkers.value > cfg.maxWorkers
  }

  /** The body of `extract_endpoint` before dispatch: text length, example
      count, worker count, parameter keys, example shape, in this order; the
      first that fails decides the 400. Otherwise, the engine call. */
  function PrepareExtract(cfg: Settings.Config, payload: ExtractRequest): (r: Result<EngineCall, HttpError>)
    ensures |payload.text| > cfg.maxTextChars ==> r == Failure(TextTooLong(cfg))
    ensures |payload.text| <= cfg.maxTextChars && |payload.examples| > cfg.maxExamples ==>
              r == Failure(TooManyExamples(cfg))
    ensures |payload.text| <= cfg.maxTextChars && |payload.examples| <= cfg.maxExamples
            && WorkersOverLimit(cfg, payload) ==>
              r == Failure(TooManyWorkers(cfg))
    ensures r.Failure? ==> r.error.status == BadRequest
    ensures r.Success? <==>
              && |payload.text| <= cfg.maxTextChars
              && |payload.examples| <= cfg.maxExamples
              && !WorkersOverLimit(cfg, payload)
              && (payload.languageModelParams.None? ||
                  forall i :: 0 <= i < |payload.languageModelParams.value| ==>
                    payload.languageModelParams.value[i].0 in ModelParams.ALLOWED_KEYS)
              && AllWellFormed(payload.examples)
    ensures r.Success? ==>
              && r.value.textOrDocuments == payload.text
              && r.value.promptDescription == payload.promptDescription
              && r.value.examples == CompileExamples(payload.examples).value
              && r.value.modelId == ModelOrDefault(cfg, payload.modelId)
              && r.value.apiKey == cfg.langextractApiKey
              && r.value.extractionPasses == payload.extractionPasses
              && r.value.maxWorkers == payload.maxWorkers
              && r.value.maxCharBuffer == payload.maxCharBuffer
              && r.value.languageModelParams == payload.languageModelParams
  {
    if |payload.text| > cfg.maxTextChars then Failure(TextTooLong(cfg))
    else if |payload.examples| > cfg.maxExamples then Failure(TooManyExamples(cfg))
    else if WorkersOverLimit(cfg, payload) then Failure(TooManyWorkers(cfg))
    else
      var lmParams := ModelParams.ValidateLanguageModelParams(payload.languageModelParams);
      if lmParams.Failure? then Failure(lmParams.error)
      else
        var examples := CompileExamples(payload.examples);
        if examples.Failure? then Failure(examples.error)
        else Success(EngineCall(
          textOrDocuments := payload.text,
          promptDescription := payload.promptDescription,
          examples := examples.value,
          modelId := ModelOrDefault(cfg, payload.modelId),
          apiKey := cfg.langextractApiKey,
          extractionPasses := payload.extractionPasses,
          maxWorkers := payload.maxWorkers,
          maxCharBuffer := payload.maxCharBuffer,
          languageModelParams := lmParams.value))
  }

  /** An unknown parameter key is reported only once text, examples and
      workers have passed, and before the examples are looked at. */
  lemma UnknownKeysCheckedFourth(cfg: Settings.Config, payload: ExtractRequest)
    requires |payload.text| <= cfg.maxTextChars && |payload.examples| <= cfg.maxExamples
    requires !WorkersOverLimit(cfg, payload)
    requires payload.languageModelParams.Some?
    requires ModelParams.UnknownKeys(payload.languageModelParams.value) != []
    ensures PrepareExtract(cfg, payload) ==
      Failure(HttpError(BadRequest, ModelParams.UnsupportedKeysDetail(ModelParams.UnknownKeys(payload.languageModelParams.value))))
  {
  }

  /** A malformed extraction is the last thing checked. */
  lemma MalformedExampleCheckedLast(cfg: Settings.Config, payload: ExtractRequest)
    requires |payload.text| <= cfg.maxTextChars && |payload.examples| <= cfg.maxExamples
    requires !WorkersOverLimit(cfg, payload)
    requires ModelParams.ValidateLanguageModelParams(payload.languageModelParams).Success?
    requires !AllWellFormed(payload.examples)
    ensures PrepareExtract(cfg, payload) == Failure(HttpError(BadRequest, MALFORMED_EXTRACTION_DETAIL))
  {
  }

  /** The `try` around the engine call in `extract_endpoint`. A timeout and any
      other failure give a 500 whose detail holds the request id and nothing of
      the exception; an `HTTPException` passes through unchanged. */
  function ExtractOutcome(requestId: string, timingMs: nat, outcome: EngineOutcome): (r: Result<ExtractResponse, HttpError>)
    ensures outcome.Returned? ==>
              r == Success(NewResponse(requestId, timingMs, Normalize.NormalizeResult(outcome.result)))
    ensures outcome.TimedOut? ==> r == Failure(HttpError(InternalServerError, TIMED_OUT_PREFIX + requestId))
    ensures outcome.Raised? && outcome.exception.HttpExc? ==> r == Failure(outcome.exception.error)
    ensures outcome.Raised? && outcome.exception.OtherExc? ==>
              r == Failure(HttpError(InternalServerError, FAILED_PREFIX + requestId))
  {
    match outcome
    case Returned(result) => Success(NewResponse(requestId, timingMs, Normalize.NormalizeResult(result)))
    case TimedOut => Failure(HttpError(InternalServerError, TIMED_OUT_PREFIX + requestId))
    case Raised(HttpExc(error)) => Failure(error)
    case Raised(OtherExc(_)) => Failure(HttpError(InternalServerError, FAILED_PREFIX + requestId))
  }

  /** What the caller learns of an engine failure does not depend on what the
      exception said. */
  lemma FailureDetailHidesException(requestId: string, timingMs: nat, m1: string, m2: string)
    ensures ExtractOutcome(requestId, timingMs, Raised(OtherExc(m1))) ==
            ExtractOutcome(requestId, timingMs, Raised(OtherExc(m2)))
    ensures ExtractOutcome(requestId, timingMs, Raised(OtherExc(m1))).error.status.Code() == 500
  {
  }

  /** `POST /v1/extract`: the credential gate, then the schema, then the checks,
      then the engine. */
  function ExtractEndpoint(
    cfg: Settings.Config, apiKeyHeader: Option<string>, payload: ExtractRequest, schemaErrors: string,
    requestId: string, timingMs: nat, outcome: EngineOutcome): (r: Result<ExtractResponse, HttpError>)
    ensures Auth.RequireApiKey(cfg.serviceApiKey, apiKeyHeader).Denied? ==>
              r == Failure(Auth.RequireApiKey(cfg.serviceApiKey, apiKeyHeader).error)
    ensures Auth.RequireApiKey(cfg.serviceApiKey, apiKeyHeader).Authorized? && !ValidRequest(payload) ==>
              r == Failure(HttpError(UnprocessableEntity, schemaErrors))
    ensures Auth.RequireApiKey(cfg.serviceApiKey, apiKeyHeader).Authorized? && ValidRequest(payload)
            && PrepareExtract(cfg, payload).Failure? ==>
              r == Failure(PrepareExtract(cfg, payload).error)
    ensures Auth.RequireApiKey(cfg.serviceApiKey, apiKeyHeader).Authorized? && ValidRequest(payload)
            && PrepareExtract(cfg, payload).Success? ==>
              r == ExtractOutcome(requestId, timingMs, outcome)
    ensures r.Success? ==> ValidRequest(payload) && PrepareExtract(cfg, payload).Success? && outcome.Returned?
    ensures r.Success? ==> r.value.requestId == requestId && |r.value.result| == 1
  {
    match Auth.RequireApiKey(cfg.serviceApiKey, apiKeyHeader)
    case Denied(error) => Failure(error)
    case Authorized =>
      if !ValidRequest(payload) then Failure(HttpError(UnprocessableEntity, schemaErrors))
      else
        var call := PrepareExtract(cfg, payload);
        if call.Failure? then Failure(call.error)
        else ExtractOutcome(requestId, timingMs, outcome)
  }

  /** Every check runs before dispatch: a request any check rejects gets the
      same answer whatever the engine would have done, because the engine is
      never reached. */
  lemma ExtractRejectionIgnoresEngine(
    cfg: Settings.Config, apiKeyHeader: Option<string>, payload: ExtractRequest, schemaErrors: string,
    requestId: string, timingMs: nat, o1: EngineOutcome, o2: EngineOutcome)
    requires PrepareExtract(cfg, payload).Failure?
    ensures ExtractEndpoint(cfg, apiKeyHeader, payload, schemaErrors, requestId, timingMs, o1) ==
            ExtractEndpoint(cfg, apiKeyHeader, payload, schemaErrors, requestId, timingMs, o2)
    ensures ExtractEndpoint(cfg, apiKeyHeader, payload, schemaErrors, requestId, timingMs, o1).Failure?
  {
  }

  /** The configuration the service's tests run under. */
  function TestConfig(): (cfg: Settings.Config)
    ensures cfg.serviceApiKey == "test-service-key"
    ensures cfg.defaultModelId == Settings.DEFAULT_MODEL_ID
  {
    Settings.LoadConfig(map["SERVICE_API_KEY" := "test-service-key", "LANGEXTRACT_API_KEY" := "test-langextract-key"])
  }

  /** The request body of the service's tests: one example, one extraction. */
  function TestPayload(): ExtractRequest {
    NewRequest("ROMEO meets JULIET.", "Extract characters.",
      [ExtractionExample("ROMEO says hi.",
        [[("extraction_class", PStr("character")), ("extraction_text", PStr("ROMEO"))]])])
  }

  lemma TestConfigValues()
    ensures TestConfig() == Settings.Config("test-service-key", "test-langextract-key", "gemini-2.5-flash", 120, 4, 100000, 50, 20)
  {
    Settings.OnlySecretsSet("test-service-key", "test-langextract-key");
  }

  /** The tests' body passes the schema and every check before dispatch. */
  lemma TestPayloadPasses()
    ensures ValidRequest(TestPayload())
    ensures PrepareExtract(TestConfig(), TestPayload()).Success?
  {
    TestConfigValues();
    var payload := TestPayload();
    assert WellFormed(payload.examples[0].extractions[0]);
    assert AllWellFormed(payload.examples);
  }

  /** The service's success test: with the right key, the engine is called with
      a model id and its single result object comes back under `document`. */
  lemma ExtractSucceedsAsInTest(requestId: string, timingMs: nat)
    ensures var doc := PObject([("document_id", PStr("doc_123")), ("text", PStr("ROMEO meets JULIET.")), ("extractions", PList([]))]);
      && PrepareExtract(TestConfig(), TestPayload()).Success?
      && PrepareExtract(TestConfig(), TestPayload()).value.modelId != ""
      && ExtractEndpoint(TestConfig(), Some("test-service-key"), TestPayload(), "", requestId, timingMs, Returned(doc))
         == Success(ExtractResponse(requestId, timingMs, [("document", PDict(doc.entries))], None))
  {
    TestPayloadPasses();
    Normalize.NormalizeSingleObject();
  }

  /** The service's allow-list test, end to end: the right key, a valid body,
      and one unknown parameter key give the 400, whatever the engine would do. */
  lemma ExtractRejectsUnknownKeyAsInTest(requestId: string, timingMs: nat, outcome: EngineOutcome)
    ensures ExtractEndpoint(TestConfig(), Some("test-service-key"),
              TestPayload().(languageModelParams := Some([("not_allowed", PBool(true))])), "", requestId, timingMs, outcome)
            == Failure(HttpError(BadRequest, ModelParams.UNSUPPORTED_KEYS_PREFIX + "['not_allowed']"))
  {
    TestConfigValues();
    TestPayloadPasses();
    ModelParams.RejectsUnknownKeyAsInTest();
  }

  // ---------------------------------------------------------------- POST /v1/extract-pdf

  /** The uploaded file: its name (possibly missing) and its bytes. */
  datatype Upload = Upload(filename: Option<string>, content: seq<bv8>)

  /** `json.loads(examples_json)`: the decoded value, or a decoding error. */
  datatype DecodedJson = Decoded(value: PyValue) | NotJson

  /** What the PDF text extractor gives for the uploaded bytes: the stripped
      text of all pages, or one of its two failures. */
  datatype PdfText = Extracted(text: string) | ReaderUnavailable | ReaderFailed

  /** The form fields of the PDF endpoint, already converted to their types. */
  datatype PdfForm = PdfForm(
    promptDescription: string,
    examplesJson: DecodedJson,
    modelId: string,
    extractionPasses: int,
    maxWorkers: int,
    maxCharBuffer: int)

  const ONLY_PDF_DETAIL: string := "Only PDF files are supported."
  const EXAMPLES_NOT_JSON_DETAIL: string := "examples_json must be valid JSON."
  const EXAMPLES_NOT_ARRAY_DETAIL: string := "examples_json must be a non-empty JSON array."
  const INVALID_EXAMPLES_PREFIX: string := "Invalid examples_json format: "
  const EMPTY_UPLOAD_DETAIL: string := "Uploaded file is empty."
  const READER_UNAVAILABLE_DETAIL: string := "PDF support dependency unavailable."
  const NO_TEXT_DETAIL: string := "Could not extract text from PDF."

  /** A form as the endpoint fills it when only the required fields are sent. */
  function NewPdfForm(cfg: Settings.Config, promptDescription: string, examplesJson: DecodedJson): (f: PdfForm)
    ensures f.modelId == cfg.defaultModelId
    ensures f.extractionPasses == 1 && f.maxWorkers == 10 && f.maxCharBuffer == 1000
  {
    PdfForm(promptDescription, examplesJson, cfg.defaultModelId, 1, 10, 1000)
  }

  function AsciiLower(c: char): (l: char)
    ensures 'A' <= c <= 'Z' ==> l != c
    ensures !('A' <= c <= 'Z') ==> l == c
  {
    if 'A' <= c <= 'Z' then (c as int + 32) as char else c
  }

  /** `filename.lower().endswith(".pdf")`: only ASCII letters lower-case to
      `p`, `d` and `f`, so the last four characters decide. */
  predicate HasPdfSuffix(name: string) {
    && |name| >= 4
    && name[|name| - 4] == '.'
    && AsciiLower(name[|name| - 3]) == 'p'
    && AsciiLower(name[|name| - 2]) == 'd'
    && AsciiLower(name[|name| - 1]) == 'f'
  }

  /** `[ExtractionExample.model_validate(x) for x in items]`, which stops at the
      first element that does not validate. */
  function ValidateExamples(items: seq<PyValue>): (r: Option<seq<ExtractionExample>>)
    ensures r.Some? <==> forall i :: 0 <= i < |items| ==> ValidateExample(items[i]).Some?
    ensures r.Some? ==> |r.value| == |items|
    ensures r.Some? ==> forall i :: 0 <= i < |items| ==> Some(r.value[i]) == ValidateExample(items[i])
  {
    if items == [] then Some([])
    else
      var first := ValidateExample(items[0]);
      var rest := ValidateExamples(items[1..]);
      if first.None? then None
      else if rest.None? then
        assert exists i :: 1 <= i < |items| && ValidateExample(items[i]).None? by {
          var j :| 0 <= j < |items[1..]| && ValidateExample(items[1..][j]).None?;
          assert items[j + 1] == items[1..][j];
        }
        None
      else
        assert forall i :: 1 <= i < |items| ==> items[i] == items[1..][i - 1];
        Some([first.value] + rest.value)
  }

  /** `text[:limit]` when the text is longer than `limit`, following Python's
      slicing (a negative limit counts back from the end). */
  function TruncateText(text: string, limit: int): (r: string)
    ensures |r| <= |text| && r == text[..|r|]
    ensures limit >= 0 ==> |r| == if |text| <= limit then |text| else limit
    ensures limit < 0 ==> |r| == if |text| + limit <= 0 then 0 else |text| + limit
  {
    if |text| <= limit then text
    else if limit >= 0 then text[..limit]
    else if |text| + limit <= 0 then []
    else text[..|text| + limit]
  }

  /** The file name is present and ends in `.pdf`, in any letter case. */
  predicate NamePasses(upload: Upload) {
    upload.filename.Some? && upload.filename.value != "" && HasPdfSuffix(upload.filename.value)
  }

  /** The checks of `extract_pdf_endpoint`, each predicate holding when every
      check up to and including its own has passed. */
  predicate WorkersPass(cfg: Settings.Config, upload: Upload, form: PdfForm) {
    NamePasses(upload) && form.maxWorkers <= cfg.maxWorkers
  }

  predicate JsonPasses(cfg: Settings.Config, upload: Upload, form: PdfForm) {
    WorkersPass(cfg, upload, form) && form.examplesJson.Decoded?
  }

  predicate ArrayPasses(cfg: Settings.Config, upload: Upload, form: PdfForm) {
    && JsonPasses(cfg, upload, form)
    && form.examplesJson.value.PList?
    && form.examplesJson.value.items != []
  }

  predicate ExamplesValidate(cfg: Settings.Config, upload: Upload, form: PdfForm) {
    ArrayPasses(cfg, upload, form) && ValidateExamples(form.examplesJson.value.items).Some?
  }

  /** The examples `model_validate` produced, once it has succeeded. */
  function Validated(cfg: Settings.Config, upload: Upload, form: PdfForm): seq<ExtractionExample>
    requires ExamplesValidate(cfg, upload, form)
  {
    ValidateExamples(form.examplesJson.value.items).value
  }

  predicate UploadPasses(cfg: Settings.Config, upload: Upload, form: PdfForm) {
    ExamplesValidate(cfg, upload, form) && upload.content != []
  }

  predicate TextPasses(cfg: Settings.Config, upload: Upload, form: PdfForm, pdf: PdfText) {
    UploadPasses(cfg, upload, form) && pdf.Extracted? && pdf.text != []
  }

  /** The body of `extract_pdf_endpoint` before dispatch: file name, worker
      count (no lower bound), examples JSON (decodes, is a non-empty list, each
      element validates), upload size, text extraction, extracted text, then
      example shape; the first that fails decides the answer. The text is
      truncated, not refused, and the parameter allow-list and the example
      count are not checked on this path. */
  function PreparePdf(cfg: Settings.Config, upload: Upload, form: PdfForm, validationMessage: string, pdf: PdfText): (r: Result<EngineCall, HttpError>)
    ensures !NamePasses(upload) ==> r == Failure(HttpError(BadRequest, ONLY_PDF_DETAIL))
    ensures NamePasses(upload) && !WorkersPass(cfg, upload, form) ==> r == Failure(TooManyWorkers(cfg))
    ensures WorkersPass(cfg, upload, form) && !JsonPasses(cfg, upload, form) ==>
              r == Failure(HttpError(BadRequest, EXAMPLES_NOT_JSON_DETAIL))
    ensures JsonPasses(cfg, upload, form) && !ArrayPasses(cfg, upload, form) ==>
              r == Failure(HttpError(BadRequest, EXAMPLES_NOT_ARRAY_DETAIL))
    ensures ArrayPasses(cfg, upload, form) && !ExamplesValidate(cfg, upload, form) ==>
              r == Failure(HttpError(BadRequest, INVALID_EXAMPLES_PREFIX + validationMessage))
    ensures ExamplesValidate(cfg, upload, form) && !UploadPasses(cfg, upload, form) ==>
              r == Failure(HttpError(BadRequest, EMPTY_UPLOAD_DETAIL))
    ensures UploadPasses(cfg, upload, form) && pdf.ReaderUnavailable? ==>
              r == Failure(HttpError(InternalServerError, READER_UNAVAILABLE_DETAIL))
    ensures UploadPasses(cfg, upload, form) && pdf.ReaderFailed? ==> r == Failure(UNHANDLED_EXCEPTION)
    ensures UploadPasses(cfg, upload, form) && pdf == Extracted([]) ==>
              r == Failure(HttpError(BadRequest, NO_TEXT_DETAIL))
    ensures TextPasses(cfg, upload, form, pdf) && !AllWellFormed(Validated(cfg, upload, form)) ==>
              r == Failure(HttpError(BadRequest, MALFORMED_EXTRACTION_DETAIL))
    ensures r.Success? <==> TextPasses(cfg, upload, form, pdf) && AllWellFormed(Validated(cfg, upload, form))
    ensures r.Success? ==>
              && r.value.textOrDocuments == TruncateText(pdf.text, cfg.maxTextChars)
              && r.value.promptDescription == form.promptDescription
              && r.value.examples == CompileExamples(Validated(cfg, upload, form)).value
              && r.value.modelId == ModelOrDefault(cfg, form.modelId)
              && r.value.apiKey == cfg.langextractApiKey
              && r.value.extractionPasses == Some(form.extractionPasses)
              && r.value.maxWorkers == Some(form.maxWorkers)
              && r.value.maxCharBuffer == Some(form.maxCharBuffer)
              && r.value.languageModelParams == None
  {
    if !NamePasses(upload) then Failure(HttpError(BadRequest, ONLY_PDF_DETAIL))
    else if form.maxWorkers > cfg.maxWorkers then Failure(TooManyWorkers(cfg))
    else if form.examplesJson.NotJson? then Failure(HttpError(BadRequest, EXAMPLES_NOT_JSON_DETAIL))
    else if !form.examplesJson.value.PList? || form.examplesJson.value.items == [] then
      Failure(HttpError(BadRequest, EXAMPLES_NOT_ARRAY_DETAIL))
    else
      var models := ValidateExamples(form.examplesJson.value.items);
      if models.None? then Failure(HttpError(BadRequest, INVALID_EXAMPLES_PREFIX + validationMessage))
      else if upload.content == [] then Failure(HttpError(BadRequest, EMPTY_UPLOAD_DETAIL))
      else match pdf
        case ReaderUnavailable => Failure(HttpError(InternalServerError, READER_UNAVAILABLE_DETAIL))
        case ReaderFailed => Failure(UNHANDLED_EXCEPTION)
        case Extracted(extracted) =>
          if extracted == [] then Failure(HttpError(BadRequest, NO_TEXT_DETAIL))
          else
            var text := TruncateText(extracted, cfg.maxTextChars);
            var examples := CompileExamples(models.value);
            if examples.Failure? then Failure(examples.error)
            else Success(EngineCall(
              textOrDocuments := text,
              promptDescription := form.promptDescription,
              examples := examples.value,
              modelId := ModelOrDefault(cfg, form.modelId),
              apiKey := cfg.langextractApiKey,
              extractionPasses := Some(form.extractionPasses),
              maxWorkers := Some(form.maxWorkers),
              maxCharBuffer := Some(form.maxCharBuffer),
              languageModelParams := None))
  }

  /** A dispatched PDF text is a prefix of the extracted text, never longer
      than the configured limit, and not empty once the limit allows a
      character. */
  lemma PdfDispatchedText(cfg: Settings.Config, upload: Upload, form: PdfForm, validationMessage: string, pdf: PdfText)
    requires PreparePdf(cfg, upload, form, validationMessage, pdf).Success?
    ensures var sent := PreparePdf(cfg, upload, form, validationMessage, pdf).value.textOrDocuments;
      && pdf.Extracted?
      && sent == pdf.text[..|sent|]
      && (cfg.maxTextChars >= 0 ==> |sent| <= cfg.maxTextChars)
      && (cfg.maxTextChars >= 1 ==> sent != [])
  {
  }

  /** The PDF path never consults the example limit and never passes engine
      parameters: changing `MAX_EXAMPLES` changes nothing. */
  lemma PdfIgnoresExampleLimit(cfg: Settings.Config, n: int, upload: Upload, form: PdfForm, validationMessage: string, pdf: PdfText)
    ensures PreparePdf(cfg, upload, form, validationMessage, pdf) ==
            PreparePdf(cfg.(maxExamples := n), upload, form, validationMessage, pdf)
    ensures PreparePdf(cfg, upload, form, validationMessage, pdf).Success? ==>
            PreparePdf(cfg, upload, form, validationMessage, pdf).value.languageModelParams == None
  {
  }

  /** The `try` around the engine call in `extract_pdf_endpoint`: every
      exception, a timeout or an `HTTPException` included, becomes the same
      generic 500. */
  function PdfOutcome(requestId: string, timingMs: nat, outcome: EngineOutcome): (r: Result<ExtractResponse, HttpError>)
    ensures outcome.Returned? ==>
              r == Success(NewResponse(requestId, timingMs, Normalize.NormalizeResult(outcome.result)))
    ensures !outcome.Returned? ==> r == Failure(HttpError(InternalServerError, FAILED_PREFIX + requestId))
  {
    match outcome
    case Returned(result) => Success(NewResponse(requestId, timingMs, Normalize.NormalizeResult(result)))
    case _ => Failure(HttpError(InternalServerError, FAILED_PREFIX + requestId))
  }

  /** The two endpoints differ on a timeout: the JSON one says so, the PDF one
      reports a plain failure. They also differ on an `HTTPException` from the
      engine, which only the JSON endpoint passes through. */
  lemma TimeoutReportedDifferently(requestId: string, timingMs: nat, e: HttpError)
    requires e.status != InternalServerError
    ensures ExtractOutcome(requestId, timingMs, TimedOut) != PdfOutcome(requestId, timingMs, TimedOut)
    ensures ExtractOutcome(requestId, timingMs, Raised(HttpExc(e))) != PdfOutcome(requestId, timingMs, Raised(HttpExc(e)))
  {
    var t := TIMED_OUT_PREFIX + requestId;
    var f := FAILED_PREFIX + requestId;
    assert t[0] != f[0];
  }

  /** `POST /v1/extract-pdf`: the credential gate, then FastAPI's binding of
      the form, then the checks, then the engine. `formErrors` is FastAPI's 422
      detail when it cannot bind the form (no file, a required field absent or
      sent empty, a non-integer in an integer field), `None` when `form` is the
      bound form. FastAPI runs the `Depends` gate before it validates the form
      fields, so the gate's answer comes first. */
  function PdfEndpoint(
    cfg: Settings.Config, apiKeyHeader: Option<string>, formErrors: Option<string>, upload: Upload, form: PdfForm,
    validationMessage: string, pdf: PdfText, requestId: string, timingMs: nat, outcome: EngineOutcome): (r: Result<ExtractResponse, HttpError>)
    ensures Auth.RequireApiKey(cfg.serviceApiKey, apiKeyHeader).Denied? ==>
              r == Failure(Auth.RequireApiKey(cfg.serviceApiKey, apiKeyHeader).error)
    ensures Auth.RequireApiKey(cfg.serviceApiKey, apiKeyHeader).Authorized? && formErrors.Some? ==>
              r == Failure(HttpError(UnprocessableEntity, formErrors.value))
    ensures Auth.RequireApiKey(cfg.serviceApiKey, apiKeyHeader).Authorized? && formErrors.None?
            && PreparePdf(cfg, upload, form, validationMessage, pdf).Failure? ==>
              r == Failure(PreparePdf(cfg, upload, form, validationMessage, pdf).error)
    ensures Auth.RequireApiKey(cfg.serviceApiKey, apiKeyHeader).Authorized? && formErrors.None?
            && PreparePdf(cfg, upload, form, validationMessage, pdf).Success? ==>
              r == PdfOutcome(requestId, timingMs, outcome)
    ensures r.Success? ==>
              formErrors.None? && PreparePdf(cfg, upload, form, validationMessage, pdf).Success? && outcome.Returned?
    ensures r.Success? ==> r.value.requestId == requestId && |r.value.result| == 1
  {
    match Auth.RequireApiKey(cfg.serviceApiKey, apiKeyHeader)
    case Denied(error) => Failure(error)
    case Authorized =>
      if formErrors.Some? then Failure(HttpError(UnprocessableEntity, formErrors.value))
      else
        var call := PreparePdf(cfg, upload, form, validationMessage, pdf);
        if call.Failure? then Failure(call.error)
        else PdfOutcome(requestId, timingMs, outcome)
  }

  /** A PDF request that binding or a check rejects never reaches the engine. */
  lemma PdfRejectionIgnoresEngine(
    cfg: Settings.Config, apiKeyHeader: Option<string>, formErrors: Option<string>, upload: Upload, form: PdfForm,
    validationMessage: string, pdf: PdfText, requestId: string, timingMs: nat, o1: EngineOutcome, o2: EngineOutcome)
    requires formErrors.Some? || PreparePdf(cfg, upload, form, validationMessage, pdf).Failure?
    ensures PdfEndpoint(cfg, apiKeyHeader, formErrors, upload, form, validationMessage, pdf, requestId, timingMs, o1) ==
            PdfEndpoint(cfg, apiKeyHeader, formErrors, upload, form, validationMessage, pdf, requestId, timingMs, o2)
  {
  }
}
