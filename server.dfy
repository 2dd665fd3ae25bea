/**
 * Request dispatch of the HTTP handler (index.ts:53-88).
 *
 * The handler looks only at the request's path and at its `tx` query
 * parameter. Decoding the transaction's CBOR and signing it are calls into
 * the Cardano SDK; here they are function parameters, and every outcome
 * carries the trace of those calls so that what is called, and in which
 * order, can be stated.
 */
module Server {
  import opened Wrappers
  import opened Collateral

  /** What the handler reads of a request: the URL path and `searchParams.get('tx')`. */
  datatype Request = Request(path: string, tx: Option<string>)

  /** A call into the SDK made while handling one request. */
  datatype Call<Tx> = Decode(cbor: string) | Sign(tx: Tx)

  /** A response body the handler returns. */
  datatype Reply =
    | CollateralRef(transactionId: string, index: nat)  // lines 56-62
    | Witnesses(cbor: string)                          // lines 83-86
    | InvalidPath                                      // line 88

  /** The error a request makes the handler throw. */
  datatype Fault =
    | MissingTx       // line 66
    | UndecodableTx   // line 72
    | SigningFailed   // a rejected `signTransaction` at line 82

  datatype Outcome = Respond(reply: Reply) | Throw(fault: Fault)

  /** The outcome of one request together with the SDK calls made for it, in order. */
  datatype Handled<Tx> = Handled(outcome: Outcome, calls: seq<Call<Tx>>)

  const GetCollateralPath: string := "/getCollateral"
  const SignCollateralPath: string := "/signCollateral"

  /**
   * `fetch`: `decode` stands for `Core.Transaction.fromCbor(TxCBOR(..))`, failing
   * with None where it throws; `sign` for `wallet.signTransaction` followed by
   * `toCbor`, failing with None where the signer rejects.
   */
  function Handle<Tx>(collateral: TxIn, decode: string -> Option<Tx>, sign: Tx -> Option<string>, req: Request): (h: Handled<Tx>)
    ensures |h.calls| <= 2
    ensures h.calls != [] ==> req.path == SignCollateralPath && req.tx.Some? && h.calls[0] == Decode(req.tx.value)
    ensures h.outcome.Respond? && h.outcome.reply.Witnesses? ==> |h.calls| == 2 && h.calls[1].Sign?
    ensures h.outcome.Respond? && h.outcome.reply.CollateralRef? ==>
              req.path == GetCollateralPath && h.outcome.reply == CollateralRef(collateral.transactionId, collateral.index)
  {
    if req.path == GetCollateralPath then
      Handled(Respond(CollateralRef(collateral.transactionId, collateral.index)), [])
    else if req.path == SignCollateralPath then
      if req.tx.None? || req.tx.value == "" then
        Handled(Throw(MissingTx), [])
      else
        match decode(req.tx.value)
        case None => Handled(Throw(UndecodableTx), [Decode(req.tx.value)])
        case Some(tx) =>
          var calls := [Decode(req.tx.value), Sign(tx)];
          match sign(tx)
          case None => Handled(Throw(SigningFailed), calls)
          case Some(w) => Handled(Respond(Witnesses(w)), calls)
    else
      Handled(Respond(InvalidPath), [])
  }

  /**
   * `/getCollateral` always answers with the collateral's reference, whatever
   * else the request carries, and calls nothing.
   */
  lemma CollateralRouteIsConstant<Tx>(collateral: TxIn, decode: string -> Option<Tx>, sign: Tx -> Option<string>, req: Request)
    requires req.path == GetCollateralPath
    ensures Handle(collateral, decode, sign, req) ==
            Handled(Respond(CollateralRef(collateral.transactionId, collateral.index)), [])
  {
  }

  /** Two calls to `/getCollateral` get the same answer. */
  lemma CollateralRouteIdempotent<Tx>(collateral: TxIn, decode: string -> Option<Tx>, sign: Tx -> Option<string>, req1: Request, req2: Request)
    requires req1.path == GetCollateralPath && req2.path == GetCollateralPath
    ensures Handle(collateral, decode, sign, req1).outcome == Handle(collateral, decode, sign, req2).outcome
  {
  }

  /** `/signCollateral` without a (non-empty) `tx` parameter throws before any SDK call. */
  lemma MissingTxRejected<Tx>(collateral: TxIn, decode: string -> Option<Tx>, sign: Tx -> Option<string>, req: Request)
    requires req.path == SignCollateralPath
    requires req.tx.None? || req.tx.value == ""
    ensures Handle(collateral, decode, sign, req) == Handled(Throw(MissingTx), [])
  {
  }

  /** A `tx` that does not decode is rejected after the decode attempt and before any signing. */
  lemma UndecodableTxRejected<Tx>(collateral: TxIn, decode: string -> Option<Tx>, sign: Tx -> Option<string>, req: Request)
    requires req.path == SignCollateralPath
    requires req.tx.Some? && req.tx.value != "" && decode(req.tx.value).None?
    ensures Handle(collateral, decode, sign, req) == Handled(Throw(UndecodableTx), [Decode(req.tx.value)])
  {
  }

  /**
   * A decoded transaction the signer rejects makes the handler throw, after
   * the decode and the one signing call.
   */
  lemma SigningFailureThrown<Tx>(collateral: TxIn, decode: string -> Option<Tx>, sign: Tx -> Option<string>, req: Request, tx: Tx)
    requires req.path == SignCollateralPath
    requires req.tx.Some? && req.tx.value != "" && decode(req.tx.value) == Some(tx)
    requires sign(tx).None?
    ensures Handle(collateral, decode, sign, req) == Handled(Throw(SigningFailed), [Decode(req.tx.value), Sign(tx)])
  {
  }

  /**
   * The handler answers with witnesses exactly when the path is
   * `/signCollateral`, `tx` is present and decodes, and the signer signs the
   * decoded transaction; the witnesses are the signer's.
   */
  lemma WitnessesIffSigned<Tx>(collateral: TxIn, decode: string -> Option<Tx>, sign: Tx -> Option<string>, req: Request, w: string)
    ensures Handle(collateral, decode, sign, req).outcome == Respond(Witnesses(w)) <==>
            req.path == SignCollateralPath && req.tx.Some? && req.tx.value != "" &&
            decode(req.tx.value).Some? && sign(decode(req.tx.value).value) == Some(w)
  {
  }

  /**
   * The signer is only ever handed a transaction decoded from this request's
   * `tx`, after that decode, and at most once.
   */
  lemma SignOnlyAfterDecode<Tx>(collateral: TxIn, decode: string -> Option<Tx>, sign: Tx -> Option<string>, req: Request, i: nat)
    requires i < |Handle(collateral, decode, sign, req).calls|
    requires Handle(collateral, decode, sign, req).calls[i].Sign?
    ensures req.path == SignCollateralPath && req.tx.Some?
    ensures i == 1 && Handle(collateral, decode, sign, req).calls[0] == Decode(req.tx.value)
    ensures decode(req.tx.value) == Some(Handle(collateral, decode, sign, req).calls[i].tx)
  {
  }

  /**
   * Signing does not look at the collateral: nothing keeps a transaction that
   * spends the collateral output from being signed.
   */
  lemma SigningIgnoresCollateral<Tx>(c1: TxIn, c2: TxIn, decode: string -> Option<Tx>, sign: Tx -> Option<string>, req: Request)
    requires req.path != GetCollateralPath
    ensures Handle(c1, decode, sign, req) == Handle(c2, decode, sign, req)
  {
  }

  /** Every path other than the two routes gets `Invalid path`, and only those paths do. */
  lemma OtherPathsInvalid<Tx>(collateral: TxIn, decode: string -> Option<Tx>, sign: Tx -> Option<string>, req: Request)
    ensures Handle(collateral, decode, sign, req).outcome == Respond(InvalidPath) <==>
            req.path != GetCollateralPath && req.path != SignCollateralPath
    ensures req.path != GetCollateralPath && req.path != SignCollateralPath ==>
            Handle(collateral, decode, sign, req).calls == []
  {
  }
}
