/**
 * Startup configuration of the collateral provider (index.ts:6-28).
 *
 * The process reads three environment variables once at start: NETWORK,
 * PRIVATE_KEY and MAESTRO_KEY. It throws (and the process stops) on the
 * first one that is missing or unacceptable; otherwise it has a network id
 * for the wallet and a network name for the Maestro provider.
 */
module Config {
  import opened Wrappers

  /** The two network ids the wallet knows. */
  datatype NetworkId = Mainnet | Testnet

  /** The process environment as far as the configuration block reads it. */
  datatype Env = Env(network: Option<string>, privateKey: Option<string>, maestroKey: Option<string>)

  /** What the configuration block settles on when it does not throw. */
  datatype Settings = Settings(networkId: NetworkId, providerName: string, privateKey: string, maestroKey: string)

  /** The error thrown by the configuration block, one per `throw`. */
  datatype ConfigError =
    | NetworkUnset                        // line 8
    | NetworkInvalid(network: string)     // line 14
    | NetworkUnsupported(network: string) // line 18
    | PrivateKeyUnset                     // line 22
    | MaestroKeyUnset                     // line 27

  /** Network names the Maestro provider supports (line 17). */
  const ProviderNetworks: seq<string> := ["mainnet", "preview", "preprod"]

  /** JavaScript truthiness of an optional string: undefined and "" are both falsy. */
  predicate IsSet(v: Option<string>)
  {
    v.Some? && v.value != ""
  }

  /** Lower-cases one ASCII letter and leaves every other character alone. */
  function LowerChar(c: char): char
  {
    if 'A' <= c <= 'Z' then (c as int + 32) as char else c
  }

  /** `String.prototype.toLowerCase`, restricted to the ASCII letters. */
  function ToLower(s: string): (r: string)
    ensures |r| == |s|
    ensures forall i :: 0 <= i < |r| ==> !('A' <= r[i] <= 'Z')
    ensures forall i :: 0 <= i < |s| && !('A' <= s[i] <= 'Z') ==> r[i] == s[i]
    ensures forall i :: 0 <= i < |s| && 'A' <= s[i] <= 'Z' ==>
              'a' <= r[i] <= 'z' && r[i] as int - 'a' as int == s[i] as int - 'A' as int
  {
    seq(|s|, i requires 0 <= i < |s| => LowerChar(s[i]))
  }

  /**
   * Reference definition of the environments the process starts with:
   * NETWORK is exactly "Mainnet" and both keys are non-empty.
   */
  predicate Accepts(env: Env)
  {
    env.network == Some("Mainnet") && IsSet(env.privateKey) && IsSet(env.maestroKey)
  }

  /**
   * Reference definition of the error a rejected environment gets: the first
   * check it fails, in the order the block makes them.
   */
  function Rejection(env: Env): ConfigError
    requires !Accepts(env)
  {
    if !IsSet(env.network) then NetworkUnset
    else if env.network.value != "Mainnet" && env.network.value != "Testnet" then NetworkInvalid(env.network.value)
    else if env.network.value == "Testnet" then NetworkUnsupported(env.network.value)
    else if !IsSet(env.privateKey) then PrivateKeyUnset
    else MaestroKeyUnset
  }

  /**
   * The configuration block, check by check, with NETWORK_ID as a local that
   * starts at Testnet and is overwritten for "Mainnet".
   */
  method Load(env: Env) returns (r: Result<Settings, ConfigError>)
    ensures r.Ok? <==> Accepts(env)
    ensures r.Ok? ==> r.value == Settings(Mainnet, "mainnet", env.privateKey.value, env.maestroKey.value)
    ensures r.Err? ==> r.error == Rejection(env)
    ensures !IsSet(env.network) ==> r == Err(NetworkUnset)
    ensures IsSet(env.network) && env.network.value != "Mainnet" && env.network.value != "Testnet" ==>
              r == Err(NetworkInvalid(env.network.value))
    ensures env.network == Some("Testnet") ==> r == Err(NetworkUnsupported("Testnet"))
    ensures env.network == Some("Mainnet") && !IsSet(env.privateKey) ==> r == Err(PrivateKeyUnset)
    ensures env.network == Some("Mainnet") && IsSet(env.privateKey) && !IsSet(env.maestroKey) ==>
              r == Err(MaestroKeyUnset)
  {
    if !IsSet(env.network) {
      return Err(NetworkUnset);
    }
    var network := env.network.value;
    var networkId := Testnet;
    if network == "Mainnet" {
      networkId := Mainnet;
    } else if network != "Testnet" {
      return Err(NetworkInvalid(network));
    }
    var providerName := ToLower(network);
    NetworkNames(network);
    if providerName !in ProviderNetworks {
      return Err(NetworkUnsupported(network));
    }
    if !IsSet(env.privateKey) {
      return Err(PrivateKeyUnset);
    }
    if !IsSet(env.maestroKey) {
      return Err(MaestroKeyUnset);
    }
    r := Ok(Settings(networkId, providerName, env.privateKey.value, env.maestroKey.value));
  }

  /**
   * The provider-name check on the two values that pass the first check:
   * "Mainnet" lower-cases to a supported name, "Testnet" to "testnet", which is
   * not one, so "preview" and "preprod" are never reached.
   */
  lemma NetworkNames(network: string)
    requires network == "Mainnet" || network == "Testnet"
    ensures ToLower(network) in ProviderNetworks <==> network == "Mainnet"
    ensures network == "Mainnet" ==> ToLower(network) == "mainnet"
    ensures ToLower(network) != "preview" && ToLower(network) != "preprod"
  {
    var lower := ToLower(network);
    if network == "Mainnet" {
      assert lower == "mainnet";
    } else {
      assert lower == "testnet";
      assert lower != ProviderNetworks[0] && lower != ProviderNetworks[1] && lower != ProviderNetworks[2];
    }
  }
}
