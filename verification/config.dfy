/** The configuration the client is built from: the API key and base URL read
    from the environment, and the check that a key is present. */
module Config {
  import opened Wrappers

  const ApiKeyVariable := "PARALONCLOUD_API_KEY"
  const ApiBaseVariable := "PARALONCLOUD_API_BASE"
  const DefaultApiBase := "https://paraloncloud.com/v1"
  const MissingKeyMessage := "PARALONCLOUD_API_KEY not found in environment variables"

  /** The key is `None` when the variable is unset; the base URL has a default. */
  datatype Settings = Settings(apiKey: Option<string>, apiBase: string)

  /** Reads both settings from the process environment (`os.getenv`). */
  function FromEnvironment(env: map<string, string>): Settings
  {
    Settings(
      if ApiKeyVariable in env then Some(env[ApiKeyVariable]) else None,
      if ApiBaseVariable in env then env[ApiBaseVariable] else DefaultApiBase)
  }

  /** A key that is unset or empty is refused with a fixed message. */
  function Validate(s: Settings): (o: Outcome<string>)
    ensures o.Pass? <==> s.apiKey.Some? && s.apiKey.value != ""
    ensures o.Fail? ==> o.error == MissingKeyMessage
  {
    if s.apiKey.None? || s.apiKey.value == "" then Fail(MissingKeyMessage) else Pass
  }
}
