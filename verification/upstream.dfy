/**
 What the services see of an upstream JSON-RPC node: the records it returns,
 the calls issued to it (recorded in order as a trace), and the shape shared
 by every service operation — the provider cache afterwards, the calls made,
 and the value returned or the error thrown.

 The node itself is not modelled: each operation receives the node's answer
 to every call it might make as a parameter, and only the answers to the
 calls it actually makes can influence its outcome.
 */
module Upstream {

  import opened Js
  import opened ErrorHandler
  import opened ProviderService

  /** A transaction as `provider.getTransaction` returns it; `blockNumber` is `null` while pending. */
  datatype Tx = Tx(blockNumber: Option<int>, from: string, to: Option<string>, value: nat)

  /**
   A receipt as `provider.getTransactionReceipt` returns it; `status` is 1, 0
   or `null`. `effectiveGasPrice` is `None` when the receipt object has no
   property of that name.
   */
  datatype Receipt = Receipt(hash: string, blockNumber: int, status: Option<int>, gasUsed: nat, effectiveGasPrice: Option<nat>)

  /** The transaction request handed to `provider.estimateGas`, passed through untouched. */
  datatype TxParams = TxParams(to: Option<string>, data: Option<string>, value: Option<string>, from: Option<string>)

  /** What is asked of the node; each request is commented with the provider method that asks it. */
  datatype Request =
    | TransactionLookup(txHash: string)                                 // provider.getTransaction
    | ReceiptLookup(txHash: string)                                     // provider.getTransactionReceipt
    | BlockNumberQuery                                                  // provider.getBlockNumber
    | GasEstimate(params: TxParams)                                     // provider.estimateGas
    | ContractCall(address: string, functionName: string, args: seq<string>)  // contract[functionName](...args)

  /** One request, together with the provider instance it was issued on. */
  datatype Call = Call(provider: Provider, request: Request)

  /** The cache after an operation, the calls it made in order, and its value or error. */
  datatype Outcome<+T> = Outcome(cache: Cache, calls: seq<Call>, result: Result<T, Error>)
}
