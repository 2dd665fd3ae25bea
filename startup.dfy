/**
 * The whole startup of the service (index.ts:6-50): configuration first,
 * then collateral discovery against the provider; only after both does the
 * handler start serving.
 */
module Startup {
  import opened Wrappers
  import opened Config
  import opened Collateral

  /** Where startup stands once the given provider answers are used up. */
  datatype Phase =
    | ConfigFailed(error: ConfigError)
    | AwaitingDeposit(answers: nat)
    | Serving(settings: Settings, collateral: Utxo, counter: nat)

  /**
   * Runs the configuration block and, when it passes, the discovery loop on
   * `feed`. The service serves only on mainnet, and only with an output of at
   * least 5 ada as its collateral.
   */
  method Start(env: Env, feed: seq<seq<Utxo>>) returns (r: Phase)
    ensures r.ConfigFailed? <==> !Accepts(env)
    ensures r.Serving? <==> Accepts(env) && FirstQualifyingPoll(feed).Some?
    ensures r.ConfigFailed? ==> r.error == Rejection(env)
    ensures r.AwaitingDeposit? ==> r.answers == |feed|
    ensures r.Serving? ==> r.settings == Settings(Mainnet, "mainnet", env.privateKey.value, env.maestroKey.value)
    ensures r.Serving? ==> r.counter == FirstQualifyingPoll(feed).value
    ensures r.Serving? ==> r.collateral == feed[r.counter][FindIndex(feed[r.counter]).value]
    ensures r.Serving? ==> IsCollateral(r.collateral)
  {
    var settings := Load(env);
    if settings.Err? {
      return ConfigFailed(settings.error);
    }
    var found := Discover(feed);
    match found
    case Waiting(answers) =>
      r := AwaitingDeposit(answers);
    case Found(collateral, counter) =>
      r := Serving(settings.value, collateral, counter);
  }
}
