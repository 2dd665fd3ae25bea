# collateral-provider, modelled in Dafny

The collateral provider is a small Bun service that holds one Cardano UTxO
of at least 5 ada as script collateral and lends it to clients: it tells them
which output it is, and it countersigns their transactions with the wallet key
so that they can use it. This project models the decision logic of its single
source file, `index.ts`, with every SDK, provider and HTTP call abstracted:

- `config.dfy` (module `Config`): the startup check of the `NETWORK`,
  `PRIVATE_KEY` and `MAESTRO_KEY` environment variables, as a method that
  follows the source check by check. The two network checks combine so that
  `"Mainnet"` is the only value that starts the service: `"Testnet"` passes
  the first check and fails the provider-name check, because `"testnet"` is
  not among `mainnet`, `preview`, `preprod`.
- `collateral.dfy` (module `Collateral`): the eligibility predicate (at
  least 5,000,000 lovelace), `find` over one provider answer, and the
  discovery loop. The provider is a finite sequence of its successive
  answers; when that runs out before an eligible output appears, the model
  reports that discovery is still waiting, where the service would poll on.
- `server.dfy` (module `Server`): the dispatch of a request on its path and
  its `tx` query parameter. CBOR decoding and signing are function
  parameters returning an option; each outcome carries the trace of the SDK
  calls made, so that "no signing before a successful decode" can be stated.
- `startup.dfy` (module `Startup`): configuration followed by discovery.
- `wrappers.dfy` (module `Wrappers`): `Option` and `Result`.

What `/signCollateral` does not do is as much a part of the model as what
it does. It reads `tx` from the query string and signs whatever decodes. The
checks a countersigning service would make first are only a TODO at
`index.ts:75-80`: that the collateral is not among the transaction's inputs,
and that no other output of the wallet is spent. The
`RequestSignCollateral { txCbor, additionalUTxOs }` schema in
`types.ts:20-23` is never used. No route looks at the HTTP method, and an
unknown path gets a plain `Invalid path` body. `Server.SigningIgnoresCollateral`
states that signing does not depend on the collateral at all.

## Model

| member | source | states |
|---|---|---|
| `Config.Load` | index.ts:6-28 | configuration succeeds iff `NETWORK` is exactly `"Mainnet"` and both keys are non-empty, with network id Mainnet and provider name `"mainnet"`; an unset or empty `NETWORK` is rejected first, any other value than `"Mainnet"`/`"Testnet"` at the first network check, `"Testnet"` at the provider-name check, then a missing private key, then a missing Maestro key |
| `Config.ToLower` | index.ts:16-17 | `toLowerCase` on ASCII: same length, each upper-case ASCII letter becomes the same letter in lower case, every other character unchanged |
| `Config.NetworkNames` | index.ts:10-19 | of the two values that pass the first check, only `"Mainnet"` lower-cases to a provider-supported name (`"mainnet"`); `"preview"` and `"preprod"` are unreachable |
| `Collateral.ThresholdIsInclusive` | index.ts:40-41 | an output is eligible iff its coin is at least 5,000,000 lovelace: exactly 5 ada qualifies, 4,999,999 lovelace does not |
| `Collateral.IsCollateral` | index.ts:40-41 | `collateral_finder`: coin at least 5,000,000 lovelace (its boundary is stated by `ThresholdIsInclusive`) |
| `Collateral.AnyCollateral` | index.ts:42 | `utxos.some(collateral_finder)`: some output of the answer is eligible (`FindIndex` finds a position exactly when it holds) |
| `Collateral.FindIndex` | index.ts:50 | `find` yields a position iff some output is eligible; the output there is eligible and none before it is |
| `Collateral.FirstQualifyingPoll` | index.ts:36-49 | the poll discovery stops at holds an eligible output and no earlier poll does; there is one iff some poll holds an eligible output |
| `Collateral.Discover` | index.ts:36-50 | the loop ends exactly on the first provider answer with an eligible output, with `counter` equal to the number of re-polls (0 when the first answer qualifies), and selects the first eligible output of that answer; otherwise it is still waiting after all answers |
| `Collateral.FoundIsFirstEligible` | index.ts:50 | the selected collateral is eligible and no output before it in its poll is |
| `Collateral.StopsAfterMisses` | index.ts:39-49 | N answers without an eligible output followed by one with it make discovery stop at counter N (with N = 0 the loop body never runs) |
| `Server.Handle` | index.ts:53-88 | `fetch`: at most two SDK calls, and any call sequence starts with the decode of this request's `tx` on `/signCollateral`; witnesses come only after a decode and a sign call; a collateral reply comes only on `/getCollateral` and is always the collateral's own reference (the route lemmas below give the rest) |
| `Server.CollateralRouteIsConstant` | index.ts:55-62 | `/getCollateral` answers with the collateral's transaction id and index whatever the request carries, without any SDK call |
| `Server.CollateralRouteIdempotent` | index.ts:55-62 | any two `/getCollateral` requests get the same answer |
| `Server.MissingTxRejected` | index.ts:64-67 | `/signCollateral` with no or an empty `tx` throws the missing-tx error before any SDK call |
| `Server.UndecodableTxRejected` | index.ts:68-73 | a `tx` that does not decode throws the parse error after the decode attempt and with no signing call |
| `Server.SigningFailureThrown` | index.ts:68-82 | a transaction that decodes but that the signer rejects makes the handler throw after the decode and the one signing call |
| `Server.WitnessesIffSigned` | index.ts:63-86 | the handler returns witnesses iff the path is `/signCollateral`, `tx` is present and decodes, and the signer signs it, and the witnesses are the signer's |
| `Server.SignOnlyAfterDecode` | index.ts:68-82 | the signer is called at most once, second, right after the decode of this request's `tx`, and on exactly the decoded transaction |
| `Server.SigningIgnoresCollateral` | index.ts:63-88 | outside `/getCollateral` the outcome does not depend on the collateral: the TODO at lines 75-80 leaves a transaction spending it signable |
| `Server.OtherPathsInvalid` | index.ts:88 | a request gets `Invalid path` iff its path is neither route, and then no SDK call is made |
| `Startup.Start` | index.ts:6-50 | startup fails on configuration iff the environment is not accepted, with the first failing check's error; it serves iff the environment is accepted and some provider answer holds an eligible output, and then serves on mainnet with the environment's keys and the first eligible output of the first such answer, `counter` being that answer's re-poll number; otherwise it is still waiting after all answers |

## Left out

- Reading the environment, the `Maestro` provider and the `HotWallet` (index.ts:30-34): the environment is an input value, the provider's answers a sequence.
- `Core.Ed25519PrivateNormalKeyHex` (index.ts:24): key-format handling inside the SDK; any non-empty `PRIVATE_KEY` is accepted by the model.
- `toLowerCase` is modelled on ASCII letters only; only `"Mainnet"` and `"Testnet"` ever reach it, so the outcome is the same.
- A provider query that fails (the top-level `await` at lines 36 and 43 would reject and end the process) is not modelled; every answer is a list of outputs.
- Collateral.Discover: polling forever is represented by a finite answer sequence; when it runs out the model reports `Waiting` instead of looping on.
- The operator log line and the 10-second `Bun.sleep` in the loop (index.ts:44-48) and the startup log line (index.ts:93): timing and logging only; the counter is kept.
- HTTP serving (`serve`, `URL` parsing, `Response`, `JSON.stringify`, port 80): a request is its path and its `tx` parameter, an outcome is a reply or a thrown error.
- CBOR decoding (`Core.Transaction.fromCbor`, `TxCBOR`) and signing (`wallet.signTransaction`, `toCbor`): function parameters, their internals foreign.
- `Number(...)` on the output index (index.ts:59): exact for every index below 2^53, so the index is a natural number.
- types.ts: zod schemas that the service never uses to validate anything; only the response shapes appear, as `Server.Reply`.
