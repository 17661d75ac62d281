/** The allow-list for `language_model_params`, the engine tuning options a
    caller may pass through. Only the key names are checked, never the values. */
module ModelParams {
  import opened Wrappers
  import opened Http
  import opened PyValues
  import StrOrder

  const ALLOWED_KEYS: set<string> := {
    "temperature",
    "vertexai",
    "batch",
    "http_options",
    "top_p",
    "max_output_tokens",
    "candidate_count",
    "safety_settings"
  }

  const UNSUPPORTED_KEYS_PREFIX: string := "Unsupported language_model_params keys: "

  /** The keys in `ks` that the allow-list does not name, in their order. */
  function NotAllowed(ks: seq<string>): (r: seq<string>)
    ensures forall k :: k in r <==> k in ks && k !in ALLOWED_KEYS
  {
    if ks == [] then []
    else if ks[0] in ALLOWED_KEYS then NotAllowed(ks[1..])
    else [ks[0]] + NotAllowed(ks[1..])
  }

  /** `sorted(set(params.keys()) - allowed_keys)`. */
  function UnknownKeys(params: Dict): (r: seq<string>)
    ensures StrOrder.StrictlySorted(r)
    ensures forall k :: k in r <==> k in Keys(params) && k !in ALLOWED_KEYS
  {
    StrOrder.SortedSet(NotAllowed(Keys(params)))
  }

  /** The list `UnknownKeys` gives is the only sorted list of those keys, so it
      is what Python's `sorted` prints. */
  lemma UnknownKeysIsTheSortedList(params: Dict, listed: seq<string>)
    requires StrOrder.StrictlySorted(listed)
    requires forall k :: k in listed <==> k in Keys(params) && k !in ALLOWED_KEYS
    ensures listed == UnknownKeys(params)
  {
    StrOrder.StrictlySortedUnique(listed, UnknownKeys(params));
  }

  /** The text of a Python list of strings: `['a', 'b']`. */
  function ListRepr(ks: seq<string>): string {
    "[" + JoinQuoted(ks) + "]"
  }

  function JoinQuoted(ks: seq<string>): string {
    if ks == [] then ""
    else if |ks| == 1 then "'" + ks[0] + "'"
    else "'" + ks[0] + "', " + JoinQuoted(ks[1..])
  }

  function UnsupportedKeysDetail(unknown: seq<string>): string {
    UNSUPPORTED_KEYS_PREFIX + ListRepr(unknown)
  }

  /** `_validate_language_model_params`: no params pass as no params; params
      whose keys are all allowed pass unchanged; anything else is a 400 that
      names every unknown key, sorted, and no allowed one. */
  function ValidateLanguageModelParams(params: Option<Dict>): (r: Result<Option<Dict>, HttpError>)
    ensures params.None? ==> r == Success(None)
    ensures r.Success? <==> params.None? || forall i :: 0 <= i < |params.value| ==> params.value[i].0 in ALLOWED_KEYS
    ensures r.Success? ==> r.value == params
    ensures r.Failure? ==>
              && params.Some?
              && UnknownKeys(params.value) != []
              && r.error == HttpError(BadRequest, UnsupportedKeysDetail(UnknownKeys(params.value)))
  {
    match params
    case None => Success(None)
    case Some(d) =>
      var unknown := UnknownKeys(d);
      if unknown == [] then
        assert forall i :: 0 <= i < |d| ==> d[i].0 in ALLOWED_KEYS by {
          forall i | 0 <= i < |d| ensures d[i].0 in ALLOWED_KEYS {
            assert Keys(d)[i] == d[i].0;
          }
        }
        Success(params)
      else
        assert unknown[0] in Keys(d);
        Failure(HttpError(BadRequest, UnsupportedKeysDetail(unknown)))
  }

  /** The service's own test case: one key outside the allow-list. */
  lemma RejectsUnknownKeyAsInTest()
    ensures ValidateLanguageModelParams(Some([("not_allowed", PBool(true))])) ==
      Failure(HttpError(BadRequest, UNSUPPORTED_KEYS_PREFIX + "['not_allowed']"))
  {
    SingleUnknownKey();
    assert ListRepr(["not_allowed"]) == "['not_allowed']";
  }

  /** The test's one key is the one reported. */
  lemma SingleUnknownKey()
    ensures UnknownKeys([("not_allowed", PBool(true))]) == ["not_allowed"]
  {
    var d := [("not_allowed", PBool(true))];
    assert "not_allowed" !in ALLOWED_KEYS;
    assert Keys(d) == ["not_allowed"];
    assert NotAllowed(["not_allowed"]) == ["not_allowed"];
  }
}
