/** The readiness probe: ready once both secrets are configured, otherwise a
    503 naming the missing ones. */
module Readiness {
  import opened Http
  import opened Settings
  import Auth

  datatype ReadyBody = Ready | NotReady(missing: seq<string>)

  /** The unconfigured secrets, by environment variable name, service key first. */
  function MissingSecrets(cfg: Config): (m: seq<string>)
    ensures "SERVICE_API_KEY" in m <==> cfg.serviceApiKey == ""
    ensures "LANGEXTRACT_API_KEY" in m <==> cfg.langextractApiKey == ""
    ensures forall i :: 0 <= i < |m| ==> m[i] == "SERVICE_API_KEY" || m[i] == "LANGEXTRACT_API_KEY"
    ensures forall i, j :: 0 <= i < j < |m| ==> m[i] != m[j]
    ensures cfg.serviceApiKey == "" ==> m[0] == "SERVICE_API_KEY"
  {
    assert "SERVICE_API_KEY"[0] != "LANGEXTRACT_API_KEY"[0];
    (if cfg.serviceApiKey == "" then ["SERVICE_API_KEY"] else [])
      + (if cfg.langextractApiKey == "" then ["LANGEXTRACT_API_KEY"] else [])
  }

  /** `readyz`: appends each missing secret's name in turn, then answers. */
  method Readyz(cfg: Config) returns (status: Status, body: ReadyBody)
    ensures status == OK <==> cfg.serviceApiKey != "" && cfg.langextractApiKey != ""
    ensures status == OK ==> body == Ready
    ensures status != OK ==> status == ServiceUnavailable && body == NotReady(MissingSecrets(cfg))
  {
    var missing: seq<string> := [];
    if cfg.serviceApiKey == "" {
      missing := missing + ["SERVICE_API_KEY"];
    }
    if cfg.langextractApiKey == "" {
      missing := missing + ["LANGEXTRACT_API_KEY"];
    }
    if missing != [] {
      return ServiceUnavailable, NotReady(missing);
    }
    return OK, Ready;
  }

  /** The probe reports the service key missing exactly when the credential
      gate turns every caller away with a 503. */
  lemma ReadinessAgreesWithGate(cfg: Config, header: Wrappers.Option<string>)
    ensures "SERVICE_API_KEY" in MissingSecrets(cfg) <==>
      Auth.RequireApiKey(cfg.serviceApiKey, header) == Auth.Decision.Denied(HttpError(ServiceUnavailable, Auth.UNCONFIGURED_DETAIL))
  {
  }
}
