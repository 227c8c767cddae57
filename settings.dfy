/**
 * The retry constants and the two format checks of the configuration module.
 * The environment reads, the `.env`/`.gitignore` checks and the warnings that
 * run when the module is imported are not part of this model.
 */
module Settings {
  import opened Wrappers

  /** Number of HTTP attempts one API call may make. */
  const MaxRetries: nat := 3
  /** Seconds slept after a failed request before it is retried. */
  const RetryDelay: nat := 1
  /** Seconds slept after a 429 reply that carries no Retry-After header. */
  const RateLimitDelay: nat := 5

  /** The prefix of an internal-integration token. */
  const TokenPrefix: string := "secret_"

  /** Python's `s.startswith(prefix)`. */
  function StartsWith(s: string, prefix: string): (r: bool)
    ensures r <==> |prefix| <= |s| && s[..|prefix|] == prefix
  {
    if prefix == [] then true
    else s != [] && s[0] == prefix[0] && StartsWith(s[1..], prefix[1..])
  }

  /**
   * `validate_token`: the token is given, non-empty, carries the token prefix
   * and is longer than 50 characters. `None` stands for an unset variable.
   */
  function ValidateToken(token: Option<string>): (ok: bool)
    ensures token.None? || token.value == "" ==> !ok
    ensures token.Some? && |token.value| >= 7 && token.value[..7] == "secret_" ==>
              (ok <==> |token.value| > 50)
    ensures token.Some? && !(|token.value| >= 7 && token.value[..7] == "secret_") ==> !ok
  {
    if token.None? || token.value == "" then false
    else if StartsWith(token.value, TokenPrefix) then |token.value| > 50
    else false
  }

  /** `validate_database_id`: the id is given, non-empty and longer than 30 characters. */
  function ValidateDatabaseId(id: Option<string>): (ok: bool)
    ensures id.None? || id.value == "" ==> !ok
    ensures ok <==> id.Some? && |id.value| > 30
  {
    if id.None? || id.value == "" then false
    else |id.value| > 30
  }
}
