/**
 * The process environment as a map from variable names to values, and the
 * env-or-default lookup that both configuration loaders use.
 */
module Environment {

  type Env = map<string, string>

  /** `os.Getenv`: the value when the variable is set, otherwise the empty string. */
  function Getenv(env: Env, key: string): (v: string)
    ensures key in env ==> v == env[key]
    ensures key !in env ==> v == ""
  {
    if key in env then env[key] else ""
  }

  /** `getEnvOrDefault`: a set, non-empty value wins; otherwise the default. */
  function GetEnvOrDefault(env: Env, key: string, default: string): (v: string)
    ensures key in env && env[key] != "" ==> v == env[key]
    ensures key !in env || env[key] == "" ==> v == default
    ensures default != "" ==> v != ""
  {
    var value := Getenv(env, key);
    if value != "" then value else default
  }

  /** A variable set to the empty string reads exactly like an unset one. */
  lemma EmptyIsAbsent(env: Env, key: string, default: string)
    ensures GetEnvOrDefault(env[key := ""], key, default) == GetEnvOrDefault(env - {key}, key, default)
    ensures GetEnvOrDefault(env - {key}, key, default) == default
  {
  }
}
