/** Signing and verifying tokens through named signer instances
    (src/lib/jwt.ts). The token library is passed in as two functions: `signer`
    maps a key and a payload to a token, `verifier` maps a key, a token and a
    maximum age to the payload or an error. The duration grammar of the `ms`
    library is passed in too, as `parse`, from a non-empty text to a number of
    milliseconds or `undefined`. */
module Jwt {
  import opened Common
  import Env

  type Payload = map<string, string>

  /** `JwtOption`; `maxAge` is in milliseconds. */
  datatype JwtOption = JwtOption(key: Option<string>, maxAge: Option<int>)

  /** The topic a selection falls back to after each call. */
  const DEFAULT_TOPIC := "default"

  /** The errors of reading `sign` or `verify` of a topic that was never created. */
  const NO_SIGN := "Cannot read properties of undefined (reading 'sign')"
  const NO_VERIFY := "Cannot read properties of undefined (reading 'verify')"

  /** The signing key of an instance: the option's key, else `JWT_SIGNING_KEY`. */
  function SigningKey(environment: map<string, string>, option: Option<JwtOption>): (k: string)
    ensures option.Some? && option.value.key.Some? ==> k == option.value.key.value
    ensures (option.None? || option.value.key.None?) ==> k == Env.GetString(environment, "JWT_SIGNING_KEY", None)
  {
    if option.Some? && option.value.key.Some? then option.value.key.value
    else Env.GetString(environment, "JWT_SIGNING_KEY", None)
  }

  /** What `ms('')` throws. */
  const MS_EMPTY := "val is not a non-empty string or a valid number. val=\"\""

  /** `ms(env.get('JWT_EXPIRATION').toString())`: an unset or empty variable is
      the empty string, which `ms` refuses by throwing; any other text is parsed. */
  function Expiration(environment: map<string, string>, parse: string -> Option<int>): (r: Result<Option<int>>)
    ensures r.Err? <==> ("JWT_EXPIRATION" !in environment || environment["JWT_EXPIRATION"] == "")
    ensures r.Err? ==> r.message == MS_EMPTY
    ensures r.Ok? ==> r.value == parse(environment["JWT_EXPIRATION"])
  {
    var text := Env.GetString(environment, "JWT_EXPIRATION", None);
    if text == "" then Err(MS_EMPTY) else Ok(parse(text))
  }

  /** The maximum age of an instance: the option's, else the parsed `JWT_EXPIRATION`. */
  function MaxAge(expiration: Option<int>, option: Option<JwtOption>): (m: Option<int>)
    ensures option.Some? && option.value.maxAge.Some? ==> m == option.value.maxAge
    ensures (option.None? || option.value.maxAge.None?) ==> m == expiration
  {
    if option.Some? && option.value.maxAge.Some? then option.value.maxAge else expiration
  }

  /** One `FastJwt` instance with its settled option. */
  class FastJwt {
    const key: string
    const maxAge: Option<int>

    /** `new FastJwt(option)` once `ms(JWT_EXPIRATION)` has returned `expiration`. */
    constructor(environment: map<string, string>, expiration: Option<int>, option: Option<JwtOption>)
      ensures key == SigningKey(environment, option) && maxAge == MaxAge(expiration, option)
    {
      key := SigningKey(environment, option);
      maxAge := MaxAge(expiration, option);
    }
  }

  /** `new FastJwt(option)`: the expiration is converted before the option is
      spread over the defaults, so an unusable `JWT_EXPIRATION` throws even when
      the option has its own `maxAge`. */
  method NewFastJwt(environment: map<string, string>, parse: string -> Option<int>, option: Option<JwtOption>)
    returns (r: Result<FastJwt>)
    ensures Expiration(environment, parse).Err? ==> r == Err(MS_EMPTY)
    ensures Expiration(environment, parse).Ok? ==>
      r.Ok? && fresh(r.value) && r.value.key == SigningKey(environment, option)
      && r.value.maxAge == MaxAge(Expiration(environment, parse).value, option)
  {
    var expiration := Expiration(environment, parse);
    if expiration.Err? {
      return Err(expiration.message);
    }
    var j := new FastJwt(environment, expiration.value, option);
    r := Ok(j);
  }

  /** The static side of `FastJwt`: the instances by topic and the selected topic. */
  class JwtRegistry {
    var instances: map<string, FastJwt>
    var key: string

    constructor()
      ensures instances == map[] && key == DEFAULT_TOPIC
    {
      instances := map[];
      key := DEFAULT_TOPIC;
    }

    /** `FastJwt.create(topic, option)`: an instance is made only for a new topic;
        when making it throws, nothing is recorded. */
    method Create(topic: string, environment: map<string, string>, parse: string -> Option<int>, option: Option<JwtOption>)
      returns (r: Result<()>)
      modifies this
      ensures key == old(key)
      ensures topic in old(instances) ==> r == Ok(()) && instances == old(instances)
      ensures topic !in old(instances) && Expiration(environment, parse).Err? ==>
        r == Err(MS_EMPTY) && instances == old(instances)
      ensures topic !in old(instances) && Expiration(environment, parse).Ok? ==>
        r == Ok(()) && topic in instances && fresh(instances[topic])
        && instances[topic].key == SigningKey(environment, option)
        && instances[topic].maxAge == MaxAge(Expiration(environment, parse).value, option)
        && instances == old(instances)[topic := instances[topic]]
    {
      if topic in instances {
        return Ok(());
      }
      var j := NewFastJwt(environment, parse, option);
      if j.Err? {
        return Err(j.message);
      }
      instances := instances[topic := j.value];
      r := Ok(());
    }

    /** `FastJwt.use(topic)`: selects the topic for the next call. */
    method Use(topic: string)
      modifies this
      ensures key == topic && instances == old(instances)
    {
      key := topic;
    }

    /** `FastJwt.sign(payload)`: signs with the selected instance, then falls back
        to the default topic; a missing instance throws before the reset. */
    method Sign(payload: Payload, signer: (string, Payload) -> string) returns (r: Result<string>)
      modifies this
      ensures instances == old(instances)
      ensures old(key) in instances ==> r == Ok(signer(instances[old(key)].key, payload)) && key == DEFAULT_TOPIC
      ensures old(key) !in instances ==> r == Err(NO_SIGN) && key == old(key)
    {
      if key !in instances {
        return Err(NO_SIGN);
      }
      var token := signer(instances[key].key, payload);
      key := DEFAULT_TOPIC;
      r := Ok(token);
    }

    /** `FastJwt.verify(token)`: like sign; a token the verifier rejects throws
        before the reset, so the selection stays. */
    method Verify(token: string, verifier: (string, string, Option<int>) -> Result<Payload>) returns (r: Result<Payload>)
      modifies this
      ensures instances == old(instances)
      ensures old(key) in instances ==>
        r == verifier(instances[old(key)].key, token, instances[old(key)].maxAge)
        && key == (if r.Ok? then DEFAULT_TOPIC else old(key))
      ensures old(key) !in instances ==> r == Err(NO_VERIFY) && key == old(key)
    {
      if key !in instances {
        return Err(NO_VERIFY);
      }
      var j := instances[key];
      r := verifier(j.key, token, j.maxAge);
      if r.Ok? {
        key := DEFAULT_TOPIC;
      }
    }
  }

  /** A token signed under a topic verifies under the same topic, provided the
      library reads back what it signs; both calls leave the default selected. */
  method SignThenVerify(registry: JwtRegistry, topic: string, payload: Payload,
                        signer: (string, Payload) -> string, verifier: (string, string, Option<int>) -> Result<Payload>)
    returns (token: Result<string>, back: Result<Payload>)
    requires topic in registry.instances
    requires forall k, p, m :: verifier(k, signer(k, p), m) == Ok(p)
    modifies registry
    ensures token.Ok? && back == Ok(payload)
    ensures registry.key == DEFAULT_TOPIC && registry.instances == old(registry.instances)
  {
    registry.Use(topic);
    token := registry.Sign(payload, signer);
    registry.Use(topic);
    back := registry.Verify(token.value, verifier);
  }

  /** `use` selects a topic for one call only: the next call signs with the
      default instance again. */
  method UseLastsOneCall(environment: map<string, string>, parse: string -> Option<int>,
                         payload: Payload, signer: (string, Payload) -> string)
    returns (first: Result<string>, second: Result<string>)
    requires "JWT_EXPIRATION" in environment && environment["JWT_EXPIRATION"] != ""
    ensures first == Ok(signer("refresh-key", payload))
    ensures second == Ok(signer(SigningKey(environment, None), payload))
  {
    var registry := new JwtRegistry();
    var made := registry.Create(DEFAULT_TOPIC, environment, parse, None);
    made := registry.Create("refresh", environment, parse, Some(JwtOption(Some("refresh-key"), None)));
    registry.Use("refresh");
    first := registry.Sign(payload, signer);
    second := registry.Sign(payload, signer);
  }

  /** Without `JWT_EXPIRATION` no instance can be made, whatever the option says,
      so signing then fails. */
  method CreateNeedsExpiration(environment: map<string, string>, parse: string -> Option<int>,
                               payload: Payload, signer: (string, Payload) -> string)
    returns (made: Result<()>, token: Result<string>)
    requires "JWT_EXPIRATION" !in environment
    ensures made == Err(MS_EMPTY)
    ensures token == Err(NO_SIGN)
  {
    var registry := new JwtRegistry();
    made := registry.Create(DEFAULT_TOPIC, environment, parse, Some(JwtOption(Some("key"), Some(3600000))));
    token := registry.Sign(payload, signer);
  }
}
