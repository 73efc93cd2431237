/** `env.get(key)` (src/lib/env.ts): the parser over one variable of the process
    environment, which is passed in as a map. */
module Env {
  import opened Common
  import Parser

  /** env.get(key).toString(defaults) */
  function GetString(environment: map<string, string>, key: string, defaults: Option<string>): string
  {
    Parser.ToString(Lookup(environment, key), defaults)
  }

  /** env.get(key).toNumber(defaults) */
  function GetNumber(environment: map<string, string>, key: string, defaults: Option<int>): Parser.Num
  {
    Parser.ToNumber(Lookup(environment, key), defaults)
  }

  /** env.get(key).toBoolean(defaults) */
  function GetBoolean(environment: map<string, string>, key: string, defaults: Option<bool>): bool
  {
    Parser.ToBoolean(Lookup(environment, key), defaults)
  }

  /** A non-empty stored value is what toString returns, whatever the default. */
  lemma StoredValueWins(environment: map<string, string>, key: string, defaults: Option<string>)
    requires key in environment && environment[key] != ""
    ensures GetString(environment, key, defaults) == environment[key]
  {
  }

  /** An unset or empty variable gives the default, or `''` when there is none. */
  lemma UnsetGivesDefault(environment: map<string, string>, key: string, defaults: Option<string>)
    requires key !in environment || environment[key] == ""
    ensures GetString(environment, key, defaults) == defaults.GetOr("")
    ensures defaults.None? ==> GetString(environment, key, defaults) == ""
  {
  }

  /** An unset variable read with a non-zero numeric default gives that default. */
  lemma UnsetNumberGivesDefault(environment: map<string, string>, key: string, d: int)
    requires key !in environment && d != 0
    ensures GetNumber(environment, key, Some(d)) == Parser.Int(d)
  {
  }

  /** The defaults the application reads its settings with: an unset `BASE_URL`
      is `http://localhost:3000`, an unset `NODE_ENV` is `dev`. */
  lemma ApplicationDefaults(environment: map<string, string>)
    requires "BASE_URL" !in environment && "NODE_ENV" !in environment
    ensures GetString(environment, "BASE_URL", Some("http://localhost:3000")) == "http://localhost:3000"
    ensures GetString(environment, "NODE_ENV", Some("dev")) == "dev"
  {
  }
}
