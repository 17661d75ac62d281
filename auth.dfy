/** The credential gate in front of both extraction endpoints: the caller's
    `x-api-key` header against the configured service key. */
module Auth {
  import opened Wrappers
  import opened Http

  const UNCONFIGURED_DETAIL: string := "SERVICE_API_KEY is not configured."
  const INVALID_KEY_DETAIL: string := "Invalid API key."

  datatype Decision = Authorized | Denied(error: HttpError)

  predicate IsAscii(s: string) {
    forall i :: 0 <= i < |s| ==> s[i] < '\U{80}'
  }

  /** `secrets.compare_digest(a, b)` on two `str` values: equality, except that
      it raises `TypeError` when either string holds a non-ASCII character. */
  datatype DigestResult = Same | Differ | TypeError

  function CompareDigest(a: string, b: string): (r: DigestResult)
    ensures r == TypeError <==> !IsAscii(a) || !IsAscii(b)
    ensures r == Same <==> IsAscii(a) && IsAscii(b) && a == b
  {
    if !IsAscii(a) || !IsAscii(b) then TypeError
    else if a == b then Same
    else Differ
  }

  /** `require_api_key` exactly as the code runs it. The `TypeError` from the
      comparison is not caught, so the server answers with a bare 500. */
  function RequireApiKeyAsWritten(serviceKey: string, header: Option<string>): (d: Decision)
    ensures serviceKey == "" ==> d == Denied(HttpError(ServiceUnavailable, UNCONFIGURED_DETAIL))
    ensures d == Denied(UNHANDLED_EXCEPTION) <==>
      serviceKey != "" && header.Some? && header.value != "" && (!IsAscii(header.value) || !IsAscii(serviceKey))
    ensures d == Authorized <==> serviceKey != "" && header == Some(serviceKey) && IsAscii(serviceKey)
    ensures serviceKey != "" && d != Authorized && d != Denied(UNHANDLED_EXCEPTION) ==>
      d == Denied(HttpError(Unauthorized, INVALID_KEY_DETAIL))
  {
    if serviceKey == "" then Denied(HttpError(ServiceUnavailable, UNCONFIGURED_DETAIL))
    else if header.None? || header.value == "" then Denied(HttpError(Unauthorized, INVALID_KEY_DETAIL))
    else match CompareDigest(header.value, serviceKey)
      case TypeError => Denied(UNHANDLED_EXCEPTION)
      case Differ => Denied(HttpError(Unauthorized, INVALID_KEY_DETAIL))
      case Same => Authorized
  }

  /** A header value with a Latin-1 character (which the server decodes header
      bytes into) reaches the comparison and turns a wrong key into a 500. */
  lemma NonAsciiKeyIsServerError()
    ensures RequireApiKeyAsWritten("test-service-key", Some("clé")) == Denied(UNHANDLED_EXCEPTION)
  {
    assert !IsAscii("clé") by {
      assert "clé"[2] == 'é';
    }
  }

  /** `require_api_key` as intended: a wrong key of any alphabet is a 401. */
  function RequireApiKey(serviceKey: string, header: Option<string>): (d: Decision)
    ensures d == Authorized <==> serviceKey != "" && header == Some(serviceKey)
    ensures serviceKey == "" ==> d == Denied(HttpError(ServiceUnavailable, UNCONFIGURED_DETAIL))
    ensures serviceKey != "" && d != Authorized ==> d == Denied(HttpError(Unauthorized, INVALID_KEY_DETAIL))
  {
    if serviceKey == "" then Denied(HttpError(ServiceUnavailable, UNCONFIGURED_DETAIL))
    else if header.None? || header.value == "" then Denied(HttpError(Unauthorized, INVALID_KEY_DETAIL))
    else if header.value == serviceKey then Authorized
    else Denied(HttpError(Unauthorized, INVALID_KEY_DETAIL))
  }

  /** Both versions agree wherever the comparison cannot raise. */
  lemma CorrectedAgreesOnAscii(serviceKey: string, header: Option<string>)
    requires IsAscii(serviceKey)
    requires header.Some? ==> IsAscii(header.value)
    ensures RequireApiKeyAsWritten(serviceKey, header) == RequireApiKey(serviceKey, header)
  {
  }
}
