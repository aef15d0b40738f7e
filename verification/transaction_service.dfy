/**
 The transaction service: receipt lookup, the derived transaction status,
 and gas estimation, each on the provider for the requested chain. Every
 failure is logged and rethrown unchanged; logging is not modelled.
 */
module TransactionService {

  import opened Js
  import opened ErrorHandler
  import opened ProviderService
  import opened Upstream
  import Decimal

  function NotFound(txHash: string): (e: Error)
    ensures e.statusCode == Some(404)
  {
    NewAppError("Transaction " + txHash + " not found", 404)
  }

  /**
   `getTransactionReceipt(txHash, chainId)`. `receiptAnswer` is the node's
   answer to the receipt lookup: a receipt, `null`, or a thrown error.
   */
  function GetTransactionReceipt(cache: Cache, urls: UrlTable, txHash: string, chainId: ChainId,
                                 fault: Option<Error>, receiptAnswer: Result<Option<Receipt>, Error>): (o: Outcome<Receipt>)
    ensures o.cache == GetProvider(cache, urls, chainId, fault).cache
    ensures o.calls == [] <==> GetProvider(cache, urls, chainId, fault).result.Err?
    // the one lookup goes to the provider acquired for the chain
    ensures o.calls != [] ==> o.calls == [Call(GetProvider(cache, urls, chainId, fault).result.value, ReceiptLookup(txHash))]
    // the receipt is returned unchanged exactly when the node has one
    ensures o.result.Ok? <==> o.calls != [] && receiptAnswer.Ok? && receiptAnswer.value.Some?
    ensures o.result.Ok? ==> o.result.value == receiptAnswer.value.value
    // a missing receipt is a 404; every other failure is the upstream error itself
    ensures o.calls != [] && receiptAnswer == Ok(None) ==> o.result == Err(NotFound(txHash))
    ensures o.calls != [] && receiptAnswer.Err? ==> o.result == Err(receiptAnswer.error)
    ensures o.calls == [] ==> o.result == Err(fault.value)
  {
    var a := GetProvider(cache, urls, chainId, fault);
    if a.result.Err? then Outcome(a.cache, [], Err(a.result.error))
    else
      var calls := [Call(a.result.value, ReceiptLookup(txHash))];
      match receiptAnswer
      case Err(e) => Outcome(a.cache, calls, Err(e))
      case Ok(None) => Outcome(a.cache, calls, Err(NotFound(txHash)))
      case Ok(Some(receipt)) => Outcome(a.cache, calls, Ok(receipt))
  }

  datatype Status = Pending | Success | Failed

  /** The object `getTransactionStatus` resolves to; `null` gas fields are `None`. */
  datatype StatusView = StatusView(
    hash: string,
    status: Status,
    blockNumber: Option<int>,
    confirmations: int,
    from: string,
    to: Option<string>,
    value: string,
    gasUsed: Option<string>,
    effectiveGasPrice: Option<string>)

  /** `if (tx.blockNumber)`: a block number of `null` or 0 counts as not mined. */
  predicate Mined(tx: Tx) {
    tx.blockNumber.Some? && tx.blockNumber.value != 0
  }

  /** A receipt's `status` is truthy when present and non-zero. */
  predicate Succeeded(receipt: Receipt) {
    receipt.status.Some? && receipt.status.value != 0
  }

  /** The full call sequence of a status lookup for a mined transaction, all on one provider. */
  function StatusCalls(provider: Provider, txHash: string): seq<Call> {
    [Call(provider, TransactionLookup(txHash)), Call(provider, ReceiptLookup(txHash)), Call(provider, BlockNumberQuery)]
  }

  /**
   The error reading `receipt.effectiveGasPrice.toString()` throws when the
   receipt has no such property: a plain `TypeError`, with no status code.
   */
  const GasPriceUndefined := Error("TypeError", "Cannot read properties of undefined (reading 'toString')", None,
                                   "TypeError: Cannot read properties of undefined (reading 'toString')")

  predicate IsPrefix<T(==)>(p: seq<T>, s: seq<T>) {
    |p| <= |s| && p == s[..|p|]
  }

  /** The receipt, if any, carries every field the status view reads. */
  predicate Complete(receipt: Option<Receipt>) {
    receipt.Some? ==> receipt.value.effectiveGasPrice.Some?
  }

  /** The view of a transaction, given the receipt (if any) and, for a mined one, the current block. */
  function Derive(txHash: string, tx: Tx, receipt: Option<Receipt>, currentBlock: int): StatusView
    requires Complete(receipt)
  {
    StatusView(
      txHash,
      if receipt.Some? then (if Succeeded(receipt.value) then Success else Failed) else Pending,
      tx.blockNumber,
      if Mined(tx) then currentBlock - tx.blockNumber.value + 1 else 0,
      tx.from,
      tx.to,
      Decimal.NatToString(tx.value),
      if receipt.Some? then Some(Decimal.NatToString(receipt.value.gasUsed)) else None,
      if receipt.Some? then Some(Decimal.NatToString(receipt.value.effectiveGasPrice.value)) else None)
  }

  /**
   `getTransactionStatus(txHash, chainId)`. The three answers are what the
   node replies to the transaction lookup, the receipt lookup and the block
   number query, should each be issued.
   */
  function GetTransactionStatus(cache: Cache, urls: UrlTable, txHash: string, chainId: ChainId, fault: Option<Error>,
                                txAnswer: Result<Option<Tx>, Error>,
                                receiptAnswer: Result<Option<Receipt>, Error>,
                                blockAnswer: Result<int, Error>): (o: Outcome<StatusView>)
    ensures o.cache == GetProvider(cache, urls, chainId, fault).cache
    ensures o.calls == [] <==> GetProvider(cache, urls, chainId, fault).result.Err?
    // calls are issued in the fixed order on the acquired provider, each only after the previous one succeeded
    ensures o.calls != [] ==> IsPrefix(o.calls, StatusCalls(GetProvider(cache, urls, chainId, fault).result.value, txHash))
    ensures |o.calls| >= 2 <==> |o.calls| >= 1 && txAnswer.Ok? && txAnswer.value.Some? && Mined(txAnswer.value.value)
    ensures |o.calls| == 3 <==> |o.calls| >= 2 && receiptAnswer.Ok?
    // a missing transaction is a 404 and nothing else is asked
    ensures |o.calls| >= 1 && txAnswer == Ok(None) ==> |o.calls| == 1 && o.result == Err(NotFound(txHash))
    // failures are the upstream errors themselves
    ensures o.calls == [] ==> o.result == Err(fault.value)
    ensures |o.calls| >= 1 && txAnswer.Err? ==> o.result == Err(txAnswer.error)
    ensures |o.calls| == 2 ==> o.result == Err(receiptAnswer.error)
    ensures |o.calls| == 3 && blockAnswer.Err? ==> o.result == Err(blockAnswer.error)
    // a receipt without `effectiveGasPrice` fails once the view is built
    ensures |o.calls| == 3 && blockAnswer.Ok? && !Complete(receiptAnswer.value) ==> o.result == Err(GasPriceUndefined)
    // the lookup succeeds exactly when every answer it needs was a usable one
    ensures o.result.Ok? <==>
              && GetProvider(cache, urls, chainId, fault).result.Ok?
              && txAnswer.Ok? && txAnswer.value.Some?
              && (Mined(txAnswer.value.value) ==> receiptAnswer.Ok? && blockAnswer.Ok? && Complete(receiptAnswer.value))
    ensures o.result.Ok? ==>
              var v := o.result.value;
              var tx := txAnswer.value.value;
              && v.hash == txHash && v.from == tx.from && v.to == tx.to && v.blockNumber == tx.blockNumber
              && Decimal.ParseNat(v.value) == Some(tx.value)
              // pending exactly when there is no receipt, and then no gas figures
              && (v.status == Pending <==> !Mined(tx) || receiptAnswer.value.None?)
              && (v.status == Pending <==> v.gasUsed.None?)
              && (v.status == Pending <==> v.effectiveGasPrice.None?)
              && (v.status == Success <==> Mined(tx) && receiptAnswer.value.Some? && Succeeded(receiptAnswer.value.value))
              // the gas figures read back as the receipt's own
              && (v.gasUsed.Some? ==>
                    && Mined(tx) && receiptAnswer.value.Some?
                    && Decimal.ParseNat(v.gasUsed.value) == Some(receiptAnswer.value.value.gasUsed))
              && (v.effectiveGasPrice.Some? ==>
                    && Mined(tx) && receiptAnswer.value.Some?
                    && Decimal.ParseNat(v.effectiveGasPrice.value) == receiptAnswer.value.value.effectiveGasPrice)
              // confirmations count the blocks from the transaction's block to the head, unclamped
              && (!Mined(tx) ==> v.confirmations == 0 && |o.calls| == 1)
              && (Mined(tx) ==> v.confirmations == blockAnswer.value - tx.blockNumber.value + 1)
              && (v.confirmations >= 1 <==> Mined(tx) && blockAnswer.value >= tx.blockNumber.value)
  {
    var a := GetProvider(cache, urls, chainId, fault);
    if a.result.Err? then Outcome(a.cache, [], Err(a.result.error))
    else
      var calls := StatusCalls(a.result.value, txHash);
      match txAnswer
      case Err(e) => Outcome(a.cache, calls[..1], Err(e))
      case Ok(None) => Outcome(a.cache, calls[..1], Err(NotFound(txHash)))
      case Ok(Some(tx)) =>
        if !Mined(tx) then
          Decimal.NatRoundTrip(tx.value);
          Outcome(a.cache, calls[..1], Ok(Derive(txHash, tx, None, 0)))
        else
          match receiptAnswer
          case Err(e) => Outcome(a.cache, calls[..2], Err(e))
          case Ok(receipt) =>
            match blockAnswer
            case Err(e) => Outcome(a.cache, calls, Err(e))
            case Ok(currentBlock) =>
              if !Complete(receipt) then Outcome(a.cache, calls, Err(GasPriceUndefined))
              else
                Decimal.NatRoundTrip(tx.value);
                GasFiguresRoundTrip(receipt);
                Outcome(a.cache, calls, Ok(Derive(txHash, tx, receipt, currentBlock)))
  }

  /** The decimal gas figures of a complete receipt parse back to its own numbers. */
  lemma GasFiguresRoundTrip(receipt: Option<Receipt>)
    requires Complete(receipt)
    ensures receipt.Some? ==> Decimal.ParseNat(Decimal.NatToString(receipt.value.gasUsed)) == Some(receipt.value.gasUsed)
    ensures receipt.Some? ==>
              Decimal.ParseNat(Decimal.NatToString(receipt.value.effectiveGasPrice.value)) == receipt.value.effectiveGasPrice
  {
    if receipt.Some? {
      Decimal.NatRoundTrip(receipt.value.gasUsed);
      Decimal.NatRoundTrip(receipt.value.effectiveGasPrice.value);
    }
  }

  /**
   The answers to calls an operation never issues cannot change its outcome:
   a pending transaction's status does not depend on the receipt or the
   block number the node would have reported.
   */
  lemma PendingIgnoresLaterAnswers(cache: Cache, urls: UrlTable, txHash: string, chainId: ChainId, fault: Option<Error>,
                                   tx: Tx, r1: Result<Option<Receipt>, Error>, r2: Result<Option<Receipt>, Error>,
                                   b1: Result<int, Error>, b2: Result<int, Error>)
    requires !Mined(tx)
    ensures GetTransactionStatus(cache, urls, txHash, chainId, fault, Ok(Some(tx)), r1, b1)
         == GetTransactionStatus(cache, urls, txHash, chainId, fault, Ok(Some(tx)), r2, b2)
  {
  }

  /**
   A transaction in block 0 is treated as pending: no receipt lookup, status
   pending, zero confirmations, even though the node reports a block.
   */
  lemma BlockZeroIsPending(cache: Cache, urls: UrlTable, txHash: string, chainId: ChainId,
                           tx: Tx, receiptAnswer: Result<Option<Receipt>, Error>, blockAnswer: Result<int, Error>)
    requires tx.blockNumber == Some(0)
    ensures var o := GetTransactionStatus(cache, urls, txHash, chainId, None, Ok(Some(tx)), receiptAnswer, blockAnswer);
            && o.result.Ok?
            && o.result.value.status == Pending
            && o.result.value.confirmations == 0
            && |o.calls| == 1
  {
  }

  /**
   A mined transaction whose receipt succeeded, observed at a head at or past
   its block, is reported as a success with at least one confirmation.
   */
  lemma MinedSuccessConfirmed(cache: Cache, urls: UrlTable, txHash: string, chainId: ChainId,
                              tx: Tx, receipt: Receipt, head: int)
    requires Mined(tx) && Succeeded(receipt) && receipt.effectiveGasPrice.Some?
    requires head >= tx.blockNumber.value
    ensures var o := GetTransactionStatus(cache, urls, txHash, chainId, None, Ok(Some(tx)), Ok(Some(receipt)), Ok(head));
            && o.result.Ok?
            && o.result.value.status == Success
            && o.result.value.confirmations >= 1
            && o.result.value.gasUsed == Some(Decimal.NatToString(receipt.gasUsed))
            && o.calls == StatusCalls(GetProvider(cache, urls, chainId, None).result.value, txHash)
  {
  }

  /**
   A mined transaction whose receipt the node has not yet indexed is still
   reported as pending, but with the confirmations computed from its block.
   */
  lemma MinedWithoutReceiptIsPending(cache: Cache, urls: UrlTable, txHash: string, chainId: ChainId, tx: Tx, head: int)
    requires Mined(tx)
    ensures var o := GetTransactionStatus(cache, urls, txHash, chainId, None, Ok(Some(tx)), Ok(None), Ok(head));
            && o.result.Ok?
            && o.result.value.status == Pending
            && o.result.value.gasUsed.None?
            && o.result.value.confirmations == head - tx.blockNumber.value + 1
  {
  }

  /**
   For a mined transaction the two lookups agree on the same receipt answer:
   the status is pending exactly when the receipt lookup is the 404, and a
   success exactly when that lookup returns a receipt with a truthy status.
   */
  lemma StatusAgreesWithReceipt(cache: Cache, urls: UrlTable, txHash: string, chainId: ChainId, fault: Option<Error>,
                                tx: Tx, receiptAnswer: Result<Option<Receipt>, Error>, head: int)
    requires GetProvider(cache, urls, chainId, fault).result.Ok?
    requires Mined(tx) && receiptAnswer.Ok? && Complete(receiptAnswer.value)
    ensures var s := GetTransactionStatus(cache, urls, txHash, chainId, fault, Ok(Some(tx)), receiptAnswer, Ok(head));
            var r := GetTransactionReceipt(cache, urls, txHash, chainId, fault, receiptAnswer);
            && s.result.Ok? && s.cache == r.cache
            && (s.result.value.status == Pending <==> r.result == Err(NotFound(txHash)))
            && (s.result.value.status == Success <==> r.result.Ok? && Succeeded(r.result.value))
            && (r.result.Ok? ==> s.result.value.gasUsed == Some(Decimal.NatToString(r.result.value.gasUsed)))
  {
  }

  /**
   `estimateGas(txParams, chainId)`: the node's estimate, rendered in
   decimal; the parameters are passed to the node untouched.
   */
  function EstimateGas(cache: Cache, urls: UrlTable, params: TxParams, chainId: ChainId, fault: Option<Error>,
                       answer: Result<nat, Error>): (o: Outcome<string>)
    ensures o.cache == GetProvider(cache, urls, chainId, fault).cache
    ensures o.calls == [] <==> GetProvider(cache, urls, chainId, fault).result.Err?
    ensures o.calls != [] ==> o.calls == [Call(GetProvider(cache, urls, chainId, fault).result.value, GasEstimate(params))]
    ensures o.calls == [] ==> o.result == Err(fault.value)
    ensures o.calls != [] && answer.Err? ==> o.result == Err(answer.error)
    ensures o.result.Ok? <==> o.calls != [] && answer.Ok?
    ensures o.result.Ok? ==> Decimal.ParseNat(o.result.value) == Some(answer.value)
  {
    var a := GetProvider(cache, urls, chainId, fault);
    if a.result.Err? then Outcome(a.cache, [], Err(a.result.error))
    else
      match answer
      case Err(e) => Outcome(a.cache, [Call(a.result.value, GasEstimate(params))], Err(e))
      case Ok(gas) =>
        Decimal.NatRoundTrip(gas);
        Outcome(a.cache, [Call(a.result.value, GasEstimate(params))], Ok(Decimal.NatToString(gas)))
  }
}
