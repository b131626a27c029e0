/**
 * Reading a setting from the process environment, as both binaries do
 * (`getenv` in internal/agent/config.go and internal/server/config.go).
 * The environment is a map from variable names to values.
 */
module Env {

  /**
   * `getenv(key, fallback)`: a variable that is set wins even when its value
   * is empty; the fallback is used only when the variable is unset.
   */
  function Getenv(env: map<string, string>, key: string, fallback: string): (v: string)
    ensures key in env ==> v == env[key]
    ensures key !in env ==> v == fallback
  {
    if key in env then env[key] else fallback
  }

  /** Setting a variable, even to "", overrides any fallback; other variables do not matter. */
  lemma GetenvSetWins(env: map<string, string>, key: string, value: string, other: string, fallback: string)
    requires other != key
    ensures Getenv(env[key := value], key, fallback) == value
    ensures Getenv(env[other := value], key, fallback) == Getenv(env, key, fallback)
  {
  }
}
