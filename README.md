# LangExtract API gateway, modelled in Dafny

This project models the core of the LangExtract HTTP gateway, `services/langextract-api`.
The gateway is a small FastAPI service in front of the `langextract` engine. It models:

- the configuration read from the environment at start-up: `_int_env`, the two secrets and the limits;
- the credential gate `require_api_key`, which checks the `x-api-key` header against `SERVICE_API_KEY`;
- the request and response schemas, with their constraints and defaults;
- the readiness probe `readyz`;
- the helpers the extraction endpoints are built from:
  - the `language_model_params` allow-list;
  - `_build_examples`, which compiles the few-shot examples;
  - `_to_json` / `_normalize_result`, which turn the engine's result into plain data;
- the two extraction endpoints, `POST /v1/extract` and `POST /v1/extract-pdf`. For each, the model covers:
  - the checks run before dispatch, in their fixed order, with their exact status codes and messages;
  - the arguments the engine is called with;
  - how the way the call ended becomes the HTTP answer.

Python values are the datatype `PyValues.PyValue`. Dicts are association lists, because Python dicts keep insertion order. `dict.get` reads an absent key as `None`, and `Truthy` is Python's `bool()`.

Python's `int()` on strings and `str()` on integers are `PyInt.ParseInt` and `PyInt.FormatInt`. `int()` strips the ASCII whitespace `\t\n\v\f\r` and the space, and every non-ASCII character `str.isspace()` accepts, from both ends (not `\x1c`..`\x1f`, which `str.isspace()` accepts but `int()` does not strip). It then accepts a sign, and underscores between digits. It refuses a string with more than 4300 digits, the default integer string conversion limit (`PyInt.MAX_STR_DIGITS`).

Python's string ordering and `sorted(set(...))` are `StrOrder`.

The engine call is an input to the model (`Endpoints.EngineOutcome`), and so are the request id and the elapsed milliseconds. "The engine is never reached" is stated as: the endpoint's answer is the same whatever the engine would have done.

The files are:

- `wrappers.dfy` and `http.dfy`: `Option`, `Result`, status codes, `HttpError`.
- `pyint.dfy`, `pyvalues.dfy`, `strorder.dfy`: the Python built-ins the core relies on.
- `settings.dfy`: `settings.py`.
- `auth.dfy`: `auth.py`.
- `schemas.dfy`: `schemas.py`.
- From `main.py`:
  - `modelparams.dfy`: the allow-list;
  - `normalize.dfy`: result normalisation;
  - `examples.dfy`: the example compiler;
  - `readiness.dfy`: the probe;
  - `endpoints.dfy`: the two endpoints.

## Model

| member | source | states |
|---|---|---|
| Settings.IntEnv | services/langextract-api/app/settings.py:8-15 | unset or not an integer for `int()` gives the default, otherwise the parsed value |
| Settings.IntEnvReadsFormattedValue | services/langextract-api/app/settings.py:8-15 | a variable holding the decimal form of `n` configures exactly `n` when `n` has at most 4300 digits, and leaves the default otherwise |
| Settings.IntEnvIgnoresNonNumeric | services/langextract-api/app/settings.py:8-15 | a value without any digit leaves the default in place |
| PyInt.ParseFormatRoundTrip | services/langextract-api/app/settings.py:13 | `int(str(n)) == n` for every integer of at most 4300 digits, negative ones included; `int()` refuses the decimal form of a longer one |
| PyInt.NoDigitNoParse | services/langextract-api/app/settings.py:12-15 | `int()` rejects every string without a decimal digit |
| PyInt.ParseIgnoresSurroundingSpace | services/langextract-api/app/settings.py:13 | surrounding whitespace, as `int()` strips it, never changes what `int()` reads |
| PyInt.LeadingJunkNoParse | services/langextract-api/app/settings.py:13 | a first character that `int()` does not strip and that is neither sign nor digit makes `int()` raise, whatever follows |
| PyInt.SeparatorNotStripped | services/langextract-api/app/settings.py:13 | `int("\x1c5")` raises |
| Settings.IntEnvRefusesLeadingSeparator | services/langextract-api/app/settings.py:8-15 | a value starting with `\x1c`..`\x1f` leaves the default |
| Settings.LoadConfig | services/langextract-api/app/settings.py:18-19 | each secret is the variable's value when set, even when empty, and "" when unset |
| Settings.EmptyEnvironmentDefaults | services/langextract-api/app/settings.py:18-26 | with nothing set: empty secrets, model gemini-2.5-flash, timeout 120, concurrency 4, 100000 chars, 50 examples, 20 workers |
| Settings.OnlySecretsSet | services/langextract-api/app/settings.py:18-26 | with only the two secrets set, the secrets are as given and every other setting takes its default |
| Auth.RequireApiKeyAsWritten | services/langextract-api/app/auth.py:14-27 | 503 when unconfigured; a bare 500 exactly when a non-empty header or the key holds a non-ASCII character; authorized exactly on an equal ASCII key; every other answer is 401 "Invalid API key." |
| Auth.NonAsciiKeyIsServerError | services/langextract-api/app/auth.py:21-27 | a wrong Latin-1 key draws a 500, not the 401 |
| Auth.RequireApiKey | services/langextract-api/app/auth.py:14-27 | authorized iff the service key is configured and the header equals it; 503 when unconfigured; otherwise 401 "Invalid API key." |
| Auth.CorrectedAgreesOnAscii | services/langextract-api/app/auth.py:21-27 | the corrected gate decides like the written one whenever the comparison cannot raise |
| Schemas.DefaultsAreValid | services/langextract-api/app/schemas.py:19-28 | with every optional field at its declared default, a request is valid iff text, prompt and examples are non-empty and every example has a text |
| Schemas.NewExample | services/langextract-api/app/schemas.py:14-16 | an example defaults to no extractions and needs a non-empty text |
| Schemas.NewResponse | services/langextract-api/app/schemas.py:31-35 | responses carry no markdown |
| Schemas.ExtractionsField | services/langextract-api/app/schemas.py:16 | absent `extractions` reads as the empty list; a present one is a list of dicts |
| Schemas.ValidateExample | services/langextract-api/app/main.py:281-282 | a validated example has a non-empty text, taken from the value's `text` string |
| Schemas.ValidateExampleRoundTrip | services/langextract-api/app/main.py:281-282 | every valid example written out as JSON data validates back to itself |
| StrOrder.SortedSet | services/langextract-api/app/main.py:63 | `sorted(set)` is strictly sorted with exactly the set's members |
| StrOrder.StrictlySortedUnique | services/langextract-api/app/main.py:63 | two strictly sorted lists with the same members are equal |
| ModelParams.UnknownKeys | services/langextract-api/app/main.py:59 | sorted, and holds exactly the given keys outside the allow-list |
| ModelParams.UnknownKeysIsTheSortedList | services/langextract-api/app/main.py:59-63 | any strictly sorted list of the unknown keys is the one reported |
| ModelParams.ValidateLanguageModelParams | services/langextract-api/app/main.py:43-65 | `None` passes; passes iff every key is allowed, and then unchanged; otherwise a 400 naming every unknown key, sorted |
| ModelParams.RejectsUnknownKeyAsInTest | services/langextract-api/app/main.py:59-64 | `{"not_allowed": true}` gives 400 "Unsupported language_model_params keys: ['not_allowed']" |
| PyValues.Get | services/langextract-api/app/main.py:91-92 | an absent key reads as `None` |
| PyValues.GetFindsStoredValue | services/langextract-api/app/main.py:91-92 | with distinct keys, `get` returns the stored value of a key |
| Normalize.AsDict | services/langextract-api/app/main.py:69-70 | `asdict` converts list elements in order and dict and dataclass values under the same keys in order, and copies scalars and plain objects as they are |
| Normalize.ToJson | services/langextract-api/app/main.py:68-77 | a dataclass goes through `asdict`; lists convert element by element in order; dicts and objects become dicts with the same keys in order, each value converted; scalars are unchanged |
| Normalize.ToJsonKeepsPlainData | services/langextract-api/app/main.py:68-77 | plain data is returned equal |
| Normalize.AsDictYieldsPlain | services/langextract-api/app/main.py:69-70 | `asdict` of a value without plain objects is plain data |
| Normalize.ToJsonYieldsPlain | services/langextract-api/app/main.py:68-77 | the result is plain data whenever no dataclass holds a plain object |
| Normalize.ToJsonIdempotent | services/langextract-api/app/main.py:68-77 | converting twice is converting once, on those values |
| Normalize.ObjectInDataclassSurvives | services/langextract-api/app/main.py:69-70 | an object inside a dataclass field comes back unconverted |
| Normalize.NormalizeResult | services/langextract-api/app/main.py:80-83 | one entry, under "documents" iff the result is a list and "document" otherwise, holding the converted result |
| Normalize.NormalizeKeepsDocumentOrder | services/langextract-api/app/main.py:81-82 | a list of documents keeps its length and order |
| Normalize.NormalizeSingleObject | services/langextract-api/app/main.py:83 | a single result object comes back as its attribute dict under "document" |
| Examples.CompileExtractionCopiesFields | services/langextract-api/app/main.py:101-108 | each of the four fields the caller set reaches the engine record unchanged |
| Examples.AbsentOptionalFieldsAreNone | services/langextract-api/app/main.py:105-106 | a missing `attributes` or `description` becomes `None` |
| Examples.CompileExample | services/langextract-api/app/main.py:109-111 | keeps the text and compiles every extraction, in order |
| Examples.CompileExamples | services/langextract-api/app/main.py:86-112 | succeeds iff every extraction of every example has a truthy class and text; otherwise the 400 malformed-extraction error; on success the examples compile one for one, in order |
| Examples.BuildExamples | services/langextract-api/app/main.py:86-112 | the nested loops compute exactly `CompileExamples` |
| Readiness.MissingSecrets | services/langextract-api/app/main.py:138-142 | names each unconfigured secret exactly once, service key first |
| Readiness.Readyz | services/langextract-api/app/main.py:136-149 | 200 and ready iff both secrets are set; otherwise 503 listing the missing ones |
| Readiness.ReadinessAgreesWithGate | services/langextract-api/app/main.py:139-140 | the probe reports the service key missing iff the credential gate answers every caller 503 |
| Endpoints.ModelOrDefault | services/langextract-api/app/main.py:192 | an empty model id falls back to the configured default |
| Endpoints.PrepareExtract | services/langextract-api/app/main.py:164-197 | text length, then example count, then worker count decide the first 400; dispatch happens iff all five checks pass, with the payload's text, prompt, passes, workers, buffer and parameters, the compiled examples, the model id or its default, and the engine key |
| Endpoints.UnknownKeysCheckedFourth | services/langextract-api/app/main.py:174-180 | an unknown parameter key is reported after the three limits and before the examples are looked at |
| Endpoints.MalformedExampleCheckedLast | services/langextract-api/app/main.py:180-182 | a malformed extraction is reported only once every other check has passed |
| Endpoints.ExtractOutcome | services/langextract-api/app/main.py:202-233 | a result gives the normalised response; a timeout gives 500 "Request timed out"; an `HTTPException` passes through; anything else gives 500 "Extraction failed" with the request id |
| Endpoints.FailureDetailHidesException | services/langextract-api/app/main.py:215-225 | the failure answer does not depend on the exception's text |
| Endpoints.ExtractEndpoint | services/langextract-api/app/main.py:152-233 | the credential gate decides first, then the schema (422), then the checks' 400; a request passing all of them gets the outcome mapping's answer; a success needs every check passed and the engine to return |
| Endpoints.ExtractRejectionIgnoresEngine | services/langextract-api/app/main.py:164-184 | a request the checks reject gets the same answer whatever the engine would do |
| Endpoints.TestConfig | services/langextract-api/tests/conftest.py:15-16 | the tests' environment configures the service key "test-service-key" and the default model |
| Endpoints.TestConfigValues | services/langextract-api/tests/conftest.py:15-16 | the tests' environment gives both secrets and every default limit |
| Endpoints.TestPayloadPasses | services/langextract-api/tests/api_test.py:12-24 | the tests' body is schema-valid and passes every check before dispatch |
| Endpoints.ExtractSucceedsAsInTest | services/langextract-api/tests/api_test.py:39-59 | with the right key the engine gets a non-empty model id, and its result object comes back under `document` with the request id and timing |
| Endpoints.ExtractRejectsUnknownKeyAsInTest | services/langextract-api/tests/api_test.py:62-68 | with the right key and one unknown parameter key the endpoint answers the 400, whatever the engine would do |
| Endpoints.NewPdfForm | services/langextract-api/app/main.py:238-244 | the form defaults: configured model, 1 pass, 10 workers, buffer 1000 |
| Endpoints.ValidateExamples | services/langextract-api/app/main.py:281-287 | succeeds iff every element validates, and then yields each element's example in order |
| Endpoints.TruncateText | services/langextract-api/app/main.py:301-302 | the kept text is a prefix of the input, at most `limit` long with Python's slice rule for negative limits |
| Endpoints.PreparePdf | services/langextract-api/app/main.py:255-321 | file name, workers (no lower bound), JSON, non-empty array, per-element validation, non-empty upload, the reader's two 500s, non-empty text, example shape: the first failing check gives its answer; dispatch iff all pass, with the truncated text, the prompt, the compiled validated examples, the model id or its default, the form's integers and no engine parameters |
| Endpoints.PdfDispatchedText | services/langextract-api/app/main.py:295-302 | the dispatched text is a prefix of the extracted text, within the limit, and non-empty when the limit is positive |
| Endpoints.PdfIgnoresExampleLimit | services/langextract-api/app/main.py:304-321 | this path never consults `MAX_EXAMPLES` and passes no engine parameters |
| Endpoints.PdfOutcome | services/langextract-api/app/main.py:307-334 | a result gives the normalised response; every exception, a timeout included, gives 500 "Extraction failed" with the request id |
| Endpoints.TimeoutReportedDifferently | services/langextract-api/app/main.py:202-225 | the two endpoints answer a timeout differently, and an engine `HTTPException` differently |
| Endpoints.PdfEndpoint | services/langextract-api/app/main.py:236-345 | the credential gate decides first, then FastAPI's 422 when the form cannot be bound, then the checks' answer; a request passing all of them gets the outcome mapping's answer; a success needs every check passed and the engine to return |
| Endpoints.PdfRejectionIgnoresEngine | services/langextract-api/app/main.py:255-307 | a PDF request that form binding or the checks reject gets the same answer whatever the engine would do |

## Left out

- The engine (`lx.extract`) and its data types. The engine call is an input outcome, and `Extraction` / `ExampleData` are records of the values passed.
- Concurrency: the admission semaphore (`MAX_CONCURRENCY`), the worker thread and the deadline (`REQUEST_TIMEOUT_SECONDS`). A timeout is one of the input outcomes; queueing and ordering between requests are not modelled.
- PDF text extraction (`_extract_text_from_pdf_bytes`, pypdf) is an input. It gives the stripped text, or the missing-dependency 500, or a reader failure that escapes as a bare 500.
- `json.loads` of `examples_json`, and the text of pydantic's validation errors (the 422 body, and the message after "Invalid examples_json format: "), are inputs.
- Request ids (`uuid4`), the clock behind `timing_ms`, logging, tracebacks, and HTTP/JSON framing are left out. Ids and timings are inputs.
- Endpoints.ExtractOutcome and Endpoints.PdfOutcome: a returned result is answered with `Success` even when it stays non-plain (`Normalize.ObjectInDataclassSurvives`: an object inside a dataclass field). The service would then fail while serialising the `response_model` in JSON mode and answer a bare 500; that serialisation step is not modelled.
- The extract endpoint's body is taken as already decoded JSON. A body that is not JSON at all gets FastAPI's 422 before the credential gate runs, since FastAPI parses the body before it runs the `Depends` dependency; that case is not modelled. A decoded body that fails the schema gets its 422 after the gate, as `Endpoints.ExtractEndpoint` states.
- Endpoints.PdfEndpoint: FastAPI's binding of the multipart form (a missing file, a required field absent or sent empty, a non-integer in an integer field) is an input, `formErrors`, with its 422 detail. The model states that this 422 follows the gate and precedes every check. It does not derive from the raw form when binding fails, so `form` is taken to be the bound form whenever `formErrors` is `None`.
- Endpoints.EngineOutcome: `TimedOut` stands for any `TimeoutError` that reaches the handler. On Python 3.11 and later `asyncio.TimeoutError` is `TimeoutError`, so a `TimeoutError` the engine raises itself is answered "Request timed out." by the extract endpoint, like the deadline.
- `healthz` is left out: a constant `{"ok": true}`.
- PyInt.ParseInt: reads ASCII digits only. Python's `int()` also accepts other Unicode decimal digits.
- PyInt.MAX_STR_DIGITS: fixed at the default 4300. The limit set through `PYTHONINTMAXSTRDIGITS` or `sys.set_int_max_str_digits` is not modelled.
- PyInt.FormatInt: formats every integer. Python's `str()` raises for an integer of more than 4300 digits. The model applies it only to configured limits, and those come from `PyInt.ParseInt` or small defaults, so they stay within the limit.
- Endpoints.ExtractEndpoint: uses the corrected credential gate `Auth.RequireApiKey`, not `Auth.RequireApiKeyAsWritten`. For a non-ASCII key it answers 401 where the service answers a bare 500 (see Findings). The two gates agree on ASCII keys (`Auth.CorrectedAgreesOnAscii`).
- Endpoints.PdfEndpoint: uses the corrected credential gate in the same way, with the same difference for non-ASCII keys.
- ModelParams.ListRepr: quotes keys with `'` and does not model Python's escaping of quotes and backslashes inside a key.
- PyValues.PyValue: has no tuples, bytes or sets, and floats are reals. The engine's results are taken to be built from lists, dicts, dataclasses, objects with attributes and scalars.
- Normalize.ToJson: covers finite, acyclic values only. A cyclic or very deeply nested result makes `asdict` or `_to_json` raise `RecursionError` outside the `try`, and the service answers a bare 500; `PyValue` cannot express such a value.
- Normalize.ToJson: `dataclasses.asdict` deep-copies the values it does not convert. The model copies them as values, so identity is not modelled.
- Endpoints.HasPdfSuffix: relies on only ASCII `P`, `D`, `F` lower-casing to `p`, `d`, `f`. It checks the last four characters instead of lower-casing the whole name.

## Findings

| source | as written | input that shows it | evidently intended | confidence | as-written member | corrected member |
|---|---|---|---|---|---|---|
| services/langextract-api/app/auth.py:21-27 | `secrets.compare_digest` gets two `str` values and raises `TypeError` when either holds a non-ASCII character; nothing catches it | `SERVICE_API_KEY=test-service-key` and header `x-api-key: clé` (header bytes are decoded as Latin-1) gives a 500 | any wrong key, whatever its alphabet, is refused with 401 "Invalid API key." | medium, not executed | Auth.RequireApiKeyAsWritten | Auth.RequireApiKey |
