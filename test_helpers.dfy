/** Credential resolution of `loginAndNavigateToPIM`: an explicit argument, else the
    environment value, else the built-in default. The environment is a parameter. */
module TestHelpers {
  import opened Wrappers

  const DefaultUsername := "Admin"
  const DefaultPassword := "admin123"

  /** `given || env || fallback` on optional strings: `undefined` and `''` are falsy. */
  function ResolveCredential(given: Option<string>, env: Option<string>, fallback: string): (r: string)
    ensures given.Some? && given.value != "" ==> r == given.value
    ensures (given.None? || given.value == "") && env.Some? && env.value != "" ==> r == env.value
    ensures (given.None? || given.value == "") && (env.None? || env.value == "") ==> r == fallback
    ensures fallback != "" ==> r != ""
  {
    if given.Some? && given.value != "" then given.value
    else if env.Some? && env.value != "" then env.value
    else fallback
  }

  /** The username `loginAndNavigateToPIM` logs in with, given the value of
      PLAYWRIGHT_USERNAME; it is never empty. */
  function ResolveUsername(username: Option<string>, envUsername: Option<string>): (r: string)
    ensures r != ""
  {
    ResolveCredential(username, envUsername, DefaultUsername)
  }

  /** The password `loginAndNavigateToPIM` logs in with, given the value of
      PLAYWRIGHT_PASSWORD; it is never empty. */
  function ResolvePassword(password: Option<string>, envPassword: Option<string>): (r: string)
    ensures r != ""
  {
    ResolveCredential(password, envPassword, DefaultPassword)
  }

  /** Resolving an already resolved credential again, with any environment and default,
      gives it back: the result is always a value the argument position accepts as is. */
  lemma ResolveIsStable(given: Option<string>, env: Option<string>, fallback: string,
                        env': Option<string>, fallback': string)
    requires fallback != ""
    ensures ResolveCredential(Some(ResolveCredential(given, env, fallback)), env', fallback') ==
            ResolveCredential(given, env, fallback)
  {
  }
}
