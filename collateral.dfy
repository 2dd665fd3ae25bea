/**
 * Collateral discovery (index.ts:36-50).
 *
 * At startup the service asks the provider for the unspent outputs of its
 * wallet address and keeps asking until one of them holds at least 5 ada;
 * the first such output, in the order the provider returned them, becomes the
 * collateral for the rest of the process lifetime.
 */
module Collateral {
  import opened Wrappers

  /** The reference of an unspent output: the transaction that made it and its output index. */
  datatype TxIn = TxIn(transactionId: string, index: nat)

  /** An unspent output, reduced to its reference and its lovelace amount. */
  datatype Utxo = Utxo(input: TxIn, coin: nat)

  /** The collateral threshold: 5 ada in lovelace (line 41). */
  const MinCollateral: nat := 5 * 1_000_000

  /** `collateral_finder` (lines 40-41): at least 5 ada, not exactly 5 ada. */
  predicate IsCollateral(u: Utxo)
  {
    u.coin >= MinCollateral
  }

  /** `utxos.some(collateral_finder)` (line 42). */
  predicate AnyCollateral(utxos: seq<Utxo>)
  {
    exists i :: 0 <= i < |utxos| && IsCollateral(utxos[i])
  }

  /**
   * The position `utxos.find(collateral_finder)` (line 50) picks: the first
   * output that qualifies, or none when no output does.
   */
  function FindIndex(utxos: seq<Utxo>): (r: Option<nat>)
    ensures r.Some? <==> AnyCollateral(utxos)
    ensures r.Some? ==> r.value < |utxos| && IsCollateral(utxos[r.value])
    ensures r.Some? ==> forall j :: 0 <= j < r.value ==> !IsCollateral(utxos[j])
  {
    if |utxos| == 0 then None
    else if IsCollateral(utxos[0]) then Some(0)
    else
      match FindIndex(utxos[1..])
      case None => None
      case Some(k) => Some(k + 1)
  }

  /**
   * Reference definition of the poll discovery stops at: the first answer of
   * the provider that holds a qualifying output.
   */
  function FirstQualifyingPoll(feed: seq<seq<Utxo>>): (r: Option<nat>)
    ensures r.Some? <==> exists k :: 0 <= k < |feed| && AnyCollateral(feed[k])
    ensures r.Some? ==> r.value < |feed| && AnyCollateral(feed[r.value])
    ensures r.Some? ==> forall j :: 0 <= j < r.value ==> !AnyCollateral(feed[j])
  {
    if |feed| == 0 then None
    else if AnyCollateral(feed[0]) then Some(0)
    else
      match FirstQualifyingPoll(feed[1..])
      case None => None
      case Some(k) => Some(k + 1)
  }

  /**
   * How far discovery got on a finite prefix of the provider's answers:
   * it found its collateral, with `counter` re-polls behind it, or it was still
   * waiting for a deposit when the answers ran out.
   */
  datatype Discovery = Found(collateral: Utxo, counter: nat) | Waiting(answers: nat)

  /**
   * The discovery loop. `feed[0]` is the answer to the query at line 36 and
   * `feed[k + 1]` the answer to the re-query of the k-th iteration (line 43).
   * Each iteration re-polls, logs, increments `counter` and sleeps; the log line
   * and the sleep are not modelled.
   */
  method Discover(feed: seq<seq<Utxo>>) returns (r: Discovery)
    ensures r.Found? <==> FirstQualifyingPoll(feed).Some?
    ensures r.Found? ==> r.counter == FirstQualifyingPoll(feed).value
    ensures r.Found? ==> r.collateral == feed[r.counter][FindIndex(feed[r.counter]).value]
    ensures r.Waiting? ==> r.answers == |feed|
  {
    if |feed| == 0 {
      return Waiting(0);
    }
    var utxos := feed[0];
    var counter := 0;
    while !AnyCollateral(utxos)
      invariant 0 <= counter < |feed|
      invariant utxos == feed[counter]
      invariant forall j :: 0 <= j < counter ==> !AnyCollateral(feed[j])
      decreases |feed| - counter
    {
      if counter + 1 == |feed| {
        return Waiting(|feed|);
      }
      utxos := feed[counter + 1];
      counter := counter + 1;
    }
    var i := FindIndex(utxos);
    r := Found(utxos[i.value], counter);
  }

  /**
   * The collateral discovery settles on is eligible, and no output before it
   * in the answer it came from is.
   */
  lemma FoundIsFirstEligible(feed: seq<seq<Utxo>>, k: nat, u: Utxo)
    requires FirstQualifyingPoll(feed) == Some(k)
    requires u == feed[k][FindIndex(feed[k]).value]
    ensures IsCollateral(u)
    ensures exists i :: 0 <= i < |feed[k]| && feed[k][i] == u &&
              forall j :: 0 <= j < i ==> !IsCollateral(feed[k][j])
  {
  }

  /**
   * A provider that answers N times without a qualifying output and then
   * with one makes discovery stop at counter N, on that answer.
   */
  lemma StopsAfterMisses(feed: seq<seq<Utxo>>, n: nat)
    requires n < |feed|
    requires forall j :: 0 <= j < n ==> !AnyCollateral(feed[j])
    requires AnyCollateral(feed[n])
    ensures FirstQualifyingPoll(feed) == Some(n)
  {
  }

  /** The threshold is inclusive: 5 ada exactly qualifies, one lovelace less does not. */
  lemma ThresholdIsInclusive(input: TxIn, coin: nat)
    ensures IsCollateral(Utxo(input, 5_000_000))
    ensures !IsCollateral(Utxo(input, 4_999_999))
    ensures IsCollateral(Utxo(input, coin)) <==> coin >= 5_000_000
  {
  }
}
