/**
 The `X-API-KEY` header check that guards every non-health route.
 */
module ApiKeyAuth {

  import opened Js
  import opened ErrorHandler

  const FallbackApiKey := "test-api-key"
  const MissingKeyMessage := "API key is required"
  const InvalidKeyMessage := "Invalid API key"

  /** `process.env.API_KEY || 'test-api-key'`: an unset or empty variable selects the fallback. */
  function ExpectedKey(apiKeyEnv: Option<string>): (k: string)
    ensures k != ""
    ensures apiKeyEnv.Some? && apiKeyEnv.value != "" ==> k == apiKeyEnv.value
    ensures apiKeyEnv.None? || apiKeyEnv.value == "" ==> k == FallbackApiKey
  {
    OrElse(apiKeyEnv, FallbackApiKey)
  }

  /**
   `apiKeyAuth(req, res, next)`: the result is the single argument `next`
   is called with, `None` for `next()` and `Some(e)` for `next(e)`. The
   header is `None` when absent; `apiKeyEnv` is the `API_KEY` variable.
   Logging of rejected attempts is not modelled.
   */
  function Authenticate(header: Option<string>, apiKeyEnv: Option<string>): (r: Option<Error>)
    ensures r.None? <==> header == Some(ExpectedKey(apiKeyEnv))
    ensures r.Some? ==> r.value.name == "AppError" && r.value.statusCode == Some(401)
    ensures (header.None? || header.value == "") ==> r.Some? && r.value.message == MissingKeyMessage
    ensures header.Some? && header.value != "" && header.value != ExpectedKey(apiKeyEnv) ==>
              r.Some? && r.value.message == InvalidKeyMessage
  {
    if header.None? || !StrTruthy(header.value) then
      Some(NewAppError(MissingKeyMessage, 401))
    else if header.value != ExpectedKey(apiKeyEnv) then
      Some(NewAppError(InvalidKeyMessage, 401))
    else
      None
  }

  /** At most one header value passes for a given configuration: the key is compared exactly. */
  lemma OnlyTheExpectedKeyPasses(k1: string, k2: string, apiKeyEnv: Option<string>)
    requires Authenticate(Some(k1), apiKeyEnv).None?
    requires Authenticate(Some(k2), apiKeyEnv).None?
    ensures k1 == k2
  {
  }

  /** With no `API_KEY` configured the fallback key passes and a differently-cased copy does not. */
  lemma FallbackKeyIsCaseSensitive()
    ensures Authenticate(Some("test-api-key"), None).None?
    ensures Authenticate(Some("TEST-API-KEY"), None).Some?
    ensures Authenticate(Some("test-api-key"), Some("")).None?
  {
  }

  /** A rejected request reaches the client as a 401 whose message is shown even in production. */
  lemma RejectionIs401(header: Option<string>, apiKeyEnv: Option<string>, production: bool)
    requires Authenticate(header, apiKeyEnv).Some?
    ensures HandleError(Authenticate(header, apiKeyEnv).value, production).status == 401
    ensures HandleError(Authenticate(header, apiKeyEnv).value, production).error.message
            == Authenticate(header, apiKeyEnv).value.message
  {
  }
}
