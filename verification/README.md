# evm-mcp-server: a verified model of the provider cache, services, middleware and contract routes

This project models in Dafny the stateful and decision-making core of the
evm-mcp-server Express backend:

- the **provider cache** (`providerService.js`): the `rpcUrls` endpoint table,
  the normalisation of chain identifiers, the memoising `getProvider` factory
  and `clearProviderCache`;
- the **transaction service** (`transactionService.js`): the receipt lookup
  and its not-found rule, the derived transaction status (pending, success,
  failed; confirmations; nullable gas figures) with the order of its upstream
  calls, and gas estimation;
- the **contract service** (`contractService.js`): address validation, the
  fixed ERC-20 interface, the `chainId || 'default'` echo, and the
  unknown-function check before a read-only call;
- the **error envelope** and **API-key check** (`errorHandler.js`,
  `apiKeyAuth.js`);
- the **contract routes** (`routes/contracts.js`): the required-parameter
  checks, the ABI route's echo, the call route's argument handling, and the
  prepare-tx mock encoder, which writes `0x` followed by the lowercase hex of
  the UTF-8 bytes of `functionName(arg1,arg2,...)`.

The model is functional. The module-level `providerCache` is an explicit
`Cache` value threaded through every service call and returned with its
result. A provider is identified by the serial number of its construction;
the cache keeps count of constructions across clears, so "a fresh instance"
is a provable statement. Everything outside the process is a parameter:

- the environment (endpoint URLs, `API_KEY`, production mode);
- the outcome of constructing a `JsonRpcProvider` (`fault`);
- the node's answer to each JSON-RPC request;
- `ethers.isAddress` and the contract object's members (`isAddress`, `hasMember`);
- the result of `JSON.parse` on the call route's `args` query.

Each service operation returns an `Outcome`: the cache afterwards, the trace
of requests it sent to the node in order, each paired with the provider
instance it went through, and its value or thrown error.

Files:

- `js.dfy`: option and result types, the loosely typed chain identifier, and JavaScript truthiness.
- `decimal.dfy`: decimal rendering of integers (`toString`) and its parser, proved inverse.
- `error_handler.dfy`: `AppError` and the error envelope.
- `api_key_auth.dfy`: the API-key middleware.
- `provider_service.dfy`: the endpoint table, key normalisation, the cache and its invariant.
- `upstream.dfy`: node records, the request trace, the `Outcome` shape.
- `transaction_service.dfy`: receipt, status and gas estimate.
- `contract_service.dfy`: contract lookup and function calls.
- `utf8.dfy`: UTF-8 encoding (RFC 3629) and a strict decoder, proved inverse.
- `hex.dfy`: lowercase hex encoding and its strict decoder, proved inverse.
- `contract_routes.dfy`: the four contract route handlers and the mock transaction encoder.

The model keeps these quirks of the code:

- A mined transaction whose receipt is still `null` is reported as pending
  (with confirmations computed from its block), not as failed.
- Confirmations are not clamped: they are at least 1 only when the current
  block is at or past the transaction's block.
- A transaction in block 0 counts as unmined, because the code tests the
  block number for truthiness.
- The prepare-tx route defaults the chain to `'1'`, while the contract routes
  echo `'default'`.
- A receipt object without an `effectiveGasPrice` property makes the status
  lookup throw a `TypeError` (a 500), after all three requests were sent.

## Model

| member | source | states |
|---|---|---|
| ErrorHandler.NewAppError | server/src/middleware/errorHandler.js:39-46 | An `AppError` carries the given message and status code, and its name is `AppError`. |
| ErrorHandler.HandleError | server/src/middleware/errorHandler.js:8-34 | The body never reports success. The status (`ErrorHandler.StatusOf`) is the error's code when that is truthy, otherwise 500, and never 0. A stack appears exactly outside production, and there the body is the error's own message and stack. In production the message is the internal-error text exactly when the status is 500 (or the message already was that text). The message differs from the error's only in production with status 500. |
| ErrorHandler.AppErrorReachesClient | server/src/middleware/errorHandler.js:20-31 | An `AppError` with a code other than 0 and 500 reaches the client with that code and its own message, in either mode. |
| ErrorHandler.ZeroCodeFallsBackTo500 | server/src/middleware/errorHandler.js:20-31 | An `AppError` with the falsy code 0 is sent as 500; in production its message is hidden and no stack is sent. |
| ErrorHandler.ProductionHidesInternalErrors | server/src/middleware/errorHandler.js:20-31 | In production an error without a status code becomes exactly a 500 with the internal-error message and no stack. |
| ApiKeyAuth.ExpectedKey | server/src/middleware/apiKeyAuth.js:21 | The expected key is the `API_KEY` value when set and non-empty, and exactly `test-api-key` when unset or empty; it is never empty. |
| ApiKeyAuth.Authenticate | server/src/middleware/apiKeyAuth.js:10-39 | `next` gets no error exactly when the header equals the expected key. Every rejection is an `AppError` with 401. A missing or empty header gets the "required" message; any other mismatch gets the "invalid" message. |
| ApiKeyAuth.OnlyTheExpectedKeyPasses | server/src/middleware/apiKeyAuth.js:23-35 | Two header values that both pass are equal: the comparison is exact string equality. |
| ApiKeyAuth.FallbackKeyIsCaseSensitive | server/src/middleware/apiKeyAuth.js:21-32 | With `API_KEY` unset or empty the fallback key passes, and an upper-cased copy of it does not. |
| ApiKeyAuth.RejectionIs401 | server/src/middleware/apiKeyAuth.js:15-38 | A rejection reaches the client as a 401 with its message shown, in either mode. |
| Decimal.NatToString | server/src/services/transactionService.js:67-69 | The decimal rendering of a natural number is canonical: digits only, no leading zero. |
| Decimal.ParseNat | server/src/services/transactionService.js:67-69 | The parser accepts exactly the canonical decimal strings. |
| Decimal.NatRoundTrip | server/src/services/transactionService.js:67-69 | Parsing the rendering of a natural number gives it back. |
| Decimal.CanonicalRoundTrip | server/src/services/transactionService.js:67-69 | Rendering the value of a canonical decimal string gives the string back. |
| Decimal.NatToStringInjective | server/src/services/transactionService.js:67-69 | Distinct natural numbers render to distinct strings. |
| Decimal.IntRoundTrip | server/src/services/providerService.js:43 | Parsing the rendering of an integer, with its minus sign, gives it back. |
| Decimal.IntToStringInjective | server/src/services/providerService.js:43 | Distinct integers render to distinct strings. |
| ProviderService.EnvOr | server/src/services/providerService.js:14-32 | An environment lookup with a non-empty fallback never yields the empty string. |
| ProviderService.KeyCount | server/src/services/providerService.js:12-33 | Settings with distinct keys give as many keys as lines. |
| ProviderService.ChainSettingsDistinct | server/src/services/providerService.js:12-33 | The ten configured keys are pairwise distinct. |
| ProviderService.ChainSettingsFallbacks | server/src/services/providerService.js:12-33 | Every built-in URL is non-empty. |
| ProviderService.ConfiguredChainsShape | server/src/services/providerService.js:12-33 | There are exactly ten configured keys, and `default` is one of them. |
| ProviderService.RpcUrls | server/src/services/providerService.js:12-33 | The endpoint table, built by `ProviderService.TableOf`, has exactly the ten configured keys, `default` among them. Each key maps to its environment variable when that is set and non-empty, otherwise to the built-in URL. No URL is empty. |
| ProviderService.NormalizeChainId | server/src/services/providerService.js:40-43 | Absent, null and `''` become `default`. Any other string is kept. A number becomes a decimal string that parses back to it. The key is never empty. |
| ProviderService.NumberAndStringShareKey | server/src/services/providerService.js:40-43 | A number and its decimal string normalise to the same key, so `1` and `'1'` share a provider. |
| ProviderService.NumericKeysAreDistinct | server/src/services/providerService.js:40-43 | Distinct numbers get distinct keys, and no number gets `default`. |
| ProviderService.ResolvedUrlIsConfigured | server/src/services/providerService.js:12-51 | `ProviderService.ResolveUrl` picks the key's URL when configured and non-empty, else the default URL. Whatever the key, the URL it picks, which is the URL a provider is built for, is one of the endpoint table's URLs and is never empty. |
| ProviderService.UnknownChainFallsBackToDefault | server/src/services/providerService.js:51-54 | Every unconfigured identifier resolves to the default URL of the endpoint table, without raising. |
| ProviderService.GetProvider | server/src/services/providerService.js:40-64 | A hit returns the cached instance and changes nothing. A miss that constructs successfully returns a new instance for the resolved URL, caches it under the key and counts one construction. A miss whose construction fails rethrows that error and leaves the cache as it was, and every failure is such a miss. Every other key is untouched, at most one entry is added, and the cache invariant is preserved. |
| ProviderService.ClearProviderCache | server/src/services/providerService.js:70-72 | Clearing leaves no entry, keeps the construction count and preserves the invariant. |
| ProviderService.SecondGetIsCached | server/src/services/providerService.js:46-48 | After a successful acquisition, a second one under the same key returns the same instance and leaves the cache unchanged, whatever its construction would do. |
| ProviderService.Run | server/src/services/providerService.js:40-72 | A run of acquisitions and clears yields one result per operation (`ProviderService.Yield`), none exactly at each clear; a run ending in a clear leaves the cache empty; it preserves the invariant and never lowers the construction count. |
| ProviderService.RunStep | server/src/services/providerService.js:40-72 | Every acquisition inside a run returns exactly what `getProvider` returns on the cache the operations before it left (`ProviderService.RunUnfold` peels one operation off a run). |
| ProviderService.RunSnoc | server/src/services/providerService.js:40-72 | The cache after a run is what its last operation does to the cache the earlier operations left (`ProviderService.After`): an acquisition updates it as `getProvider` does and a clear empties it, wherever it stands in the run. |
| ProviderService.CachedUntilClear | server/src/services/providerService.js:46-57 | Once a key is cached, each later acquisition for that key returns the identical instance for as long as no clear intervenes, and it stays cached. |
| ProviderService.ClearForcesFreshInstance | server/src/services/providerService.js:54-72 | After a clear, the next acquisition for any key constructs an instance for the resolved URL that differs from every instance cached before. |
| ProviderService.DistinctKeysDistinctProviders | server/src/services/providerService.js:46-57 | Acquisitions under two different keys return two different instances, each bound to its own key's URL. |
| ProviderService.UnknownChainHasOwnInstance | server/src/services/providerService.js:51-57 | An identifier missing from the table is cached under its own key. It shares the default URL with `getProvider('default')` but gets a different instance. |
| ProviderService.StringNumberAbsentScenario | server/src/services/providerService.js:40-57 | From an empty cache, `'1'` then `1` share one instance, and an absent identifier then gets a different instance bound to the default URL. |
| TransactionService.GetTransactionReceipt | server/src/services/transactionService.js:13-34 | A receipt lookup is issued exactly when the provider was obtained, once, on the provider `getProvider` returned for the chain. The receipt is returned unchanged exactly when the node has one. A null receipt is a 404, and every other failure is the upstream error itself. |
| TransactionService.GetTransactionStatus | server/src/services/transactionService.js:42-79 | Requests go out on the provider `getProvider` returned, in the order transaction, receipt, block number, each only after the previous one succeeded; the last two only for a mined transaction. A missing transaction is a 404 with no further request. Failures are the upstream errors unchanged, and a receipt without `effectiveGasPrice` is a `TypeError`. The lookup succeeds exactly when the provider, the transaction and, for a mined one, the receipt and block answers were usable. On success the view (`TransactionService.Derive`) copies the hash, sender, recipient and block number, and the value string parses back to the transaction's value. The status is pending exactly when there is no receipt, and then both gas figures are null; it is success exactly when the receipt's status is truthy. Gas figures, when present, parse back to the receipt's `gasUsed` and `effectiveGasPrice`. Confirmations are 0 when not mined, otherwise head − block + 1 unclamped, so at least 1 exactly when the head is at or past the block. |
| TransactionService.PendingIgnoresLaterAnswers | server/src/services/transactionService.js:55-64 | For an unmined transaction, the receipt and block-number answers cannot change the outcome. |
| TransactionService.BlockZeroIsPending | server/src/services/transactionService.js:55-64 | A transaction in block 0 counts as unmined: pending, zero confirmations, and no receipt or block-number request. |
| TransactionService.MinedSuccessConfirmed | server/src/services/transactionService.js:55-69 | A mined transaction with a successful receipt that carries `effectiveGasPrice`, and a head at or past its block is a success with at least one confirmation, and its gas used is reported. |
| TransactionService.MinedWithoutReceiptIsPending | server/src/services/transactionService.js:55-69 | A mined transaction whose receipt is null is pending with no gas figures, but its confirmations are still computed from its block. |
| TransactionService.GasFiguresRoundTrip | server/src/services/transactionService.js:68-69 | The decimal gas figures of a receipt that has both fields parse back to its `gasUsed` and `effectiveGasPrice`. |
| TransactionService.StatusAgreesWithReceipt | server/src/services/transactionService.js:13-69 | For a mined transaction and the same receipt answer, where a returned receipt carries `effectiveGasPrice`, the status lookup is pending exactly when the receipt lookup is the 404, and a success exactly when the receipt lookup returns a receipt with a truthy status; the reported gas used is that receipt's. |
| TransactionService.EstimateGas | server/src/services/transactionService.js:87-105 | The parameters are sent to the node unchanged, once, on the provider `getProvider` returned, and only if one was obtained. The estimate comes back as a decimal string that parses to the node's value. Failures are rethrown unchanged. |
| ContractService.MockAbiShape | server/src/services/contractService.js:30-42 | The fixed interface has eleven fragments: nine functions, then two events. |
| ContractService.GetContract | server/src/services/contractService.js:14-57 | An invalid address is a 400 before the provider cache is consulted. The contract is obtained exactly when the address is valid and the provider was obtained. A provider failure is rethrown. No request reaches the node. On success the result carries the address unchanged, the given chain when truthy, else `'default'`, the fixed ABI texts (`ContractService.AbiTexts`, one per fragment in order), and a contract bound to the address, the fixed interface and the acquired provider. |
| ContractService.AbiIndependentOfAddressAndChain | server/src/services/contractService.js:30-50 | Any two successful lookups return the same ABI, whatever their addresses and chains. |
| ContractService.ZeroChainIdEchoesDefault | server/src/services/contractService.js:22-49 | For the number 0 the echoed chain is `default`, yet the provider is cached under `'0'` and not under `default`. |
| ContractService.GetContractFunction | server/src/services/contractService.js:67-91 | The lookup goes through `getContract` first, so an invalid address is a 400 with no call. The call is issued exactly when the contract was obtained and has the member. Then it is issued once, on the provider `getProvider` returned, with the given arguments (none by default), and its result or error is returned unchanged. A missing member is a 400; a lookup failure is rethrown. |
| ContractService.MintIsNotFound | server/src/services/contractService.js:73-75 | When the contract's members are the interface's functions, `mint` is a 400 and no call is made. |
| ContractService.CallIssuedIffDeclared | server/src/services/contractService.js:67-91 | When the contract's members are the interface's functions, a valid address with a working provider gets a call exactly when the name is one of the interface's functions; any other name is a 400. |
| ContractRoutes.ContractInfoRoute | server/src/routes/contracts.js:13-31 | An empty address is a 400 with no service call and the cache untouched; otherwise the route returns what `getContract` returns. |
| ContractRoutes.AbiRoute | server/src/routes/contracts.js:37-59 | An empty address is a 400 with no service call. On success the route echoes the address, the given chain when truthy, else `'default'` and the fixed ABI. Otherwise it fails exactly when `getContract` does, with the same cache and the same error. |
| ContractRoutes.CallRoute | server/src/routes/contracts.js:65-90 | A non-empty `args` query that does not parse fails first, even before the parameter check. A missing address or function name is then a 400 with no call. Otherwise the route has the cache, calls, failure and error of `getContractFunction` with the parsed arguments (or none), except that a result `JSON.stringify` rejects (a `bigint`) is a `TypeError`; on success it echoes the result with the address and function name; exactly one call then went out, on the acquired provider. |
| ContractRoutes.UnserialisableResultIs500 | server/src/routes/contracts.js:64-89 | A call whose answer `res.json` cannot serialise still goes out once, but the client gets a 500 rather than the result. |
| ContractRoutes.EncodeData | server/src/routes/contracts.js:116 | The data starts with `0x` and is two characters per UTF-8 byte longer than that. |
| ContractRoutes.DataRoundTrip | server/src/routes/contracts.js:116 | Stripping `0x`, decoding the hex and decoding the UTF-8 gives back the encoded text. |
| ContractRoutes.DataCanonical | server/src/routes/contracts.js:116 | Any data the decoder accepts is the encoding of what it decodes to. |
| ContractRoutes.PrepareTx | server/src/routes/contracts.js:96-132 | A missing address or function name is a 400. Missing body `args` is a `TypeError`, reported as a 500. Otherwise `to` is the address and `data` decodes back to `ContractRoutes.Signature`, the text `functionName(args joined by commas)` built with `ContractRoutes.Join`, with length 2 + 2 × its UTF-8 byte count (`Utf8.Encode`). `value` is the given value when truthy, else `0x0` (`Js.OrElse`); `chainId` is the given chain when truthy, else `'1'` (`Js.ChainIdOr`). The function name and arguments are echoed. |
| ContractRoutes.CommaArgumentsCollide | server/src/routes/contracts.js:116 | One argument `a,b` gives the same transaction data as the two arguments `a` and `b`: the encoding does not keep arguments apart. |
| ContractRoutes.DefaultChainDiffers | server/src/routes/contracts.js:53-118 | Without a chain, prepare-tx reports chain `'1'` while the ABI route reports `'default'`. |
| Utf8.EncodeChar | server/src/routes/contracts.js:116 | A character takes one to four bytes, according to its code point. |
| Utf8.DecodeEncode | server/src/routes/contracts.js:116 | Decoding the UTF-8 encoding (`Utf8.Encode`, as `Buffer.from(text, 'utf8')`) of a string gives the string back. |
| Utf8.EncodeDecode | server/src/routes/contracts.js:116 | Any byte string the strict decoder accepts is the encoding of what it decodes to. |
| Utf8.EncodeInjective | server/src/routes/contracts.js:116 | Distinct strings have distinct UTF-8 encodings. |
| Hex.Encode | server/src/routes/contracts.js:116 | The hex rendering has two lowercase hex digits per byte. |
| Hex.DecodeEncode | server/src/routes/contracts.js:116 | Decoding the hex rendering of bytes gives the bytes back. |
| Hex.EncodeDecode | server/src/routes/contracts.js:116 | Any string the strict decoder accepts is the lowercase rendering of what it decodes to. |

## Left out

- Logging (`logger.error`, `logger.warn`, `logger.info` and the winston setup) is not modelled. No logged value influences a result.
- `index.js`, `routes/index.js`, `utils/logger.js` and `routes/transactions.js` are not part of this model. They hold Express wiring, rate limiting, helmet and CORS, the health route, and the transaction routes, which copy request fields into the services modelled here.
- Environment reads are parameters: the endpoint variables (`Env`), `API_KEY` and `NODE_ENV === 'production'`. The table is built once from the environment and is never changed afterwards. The model gives it to each call as the same `UrlTable` value and never returns a changed one.
- ethers is abstracted. `ethers.isAddress` (with its EIP-55 checksum over Keccak-256) is the parameter `isAddress`. `contract[functionName]` existence is `hasMember`. `JsonRpcProvider` construction is the `fault` oracle. Each JSON-RPC request's answer is a parameter. ABI encoding and proxy dispatch are not modelled.
- Concurrency is not modelled. `getProvider` is synchronous, and JavaScript's run-to-completion already rules out interleaving between the cache check and the insert.
- `rpcUrls[key]` is a lookup in a finite map. JavaScript prototype keys such as `constructor` do not resolve to inherited properties in the model.
- ProviderService.NormalizeChainId: numeric identifiers are integers, and `toString` is their decimal rendering. Non-integer numbers, `NaN`, infinities, exponent notation for very large magnitudes, and other value types (objects, booleans) are not modelled.
- TransactionService.GetTransactionStatus: a receipt's `effectiveGasPrice` is present or absent; a present value that is not a BigInt is not modelled. BigInt `toString` of `value`, `gasUsed` and `effectiveGasPrice` is exact decimal rendering of a natural number. Block numbers are integers. An `await provider.getBlockNumber()` that throws is modelled as the block-number answer's error.
- ContractRoutes.CallRoute: whether `JSON.stringify` accepts a call's result is the parameter `serialisable`; which ethers results are `bigint` is not modelled. `JSON.parse` of the `args` query is an oracle that yields a list of strings or a thrown error. Non-array JSON values and non-string elements are not modelled.
- ContractRoutes.PrepareTx: body `value` is absent or a string; numeric values (where `0` is falsy and becomes `0x0`, and other numbers pass through as numbers) are not modelled. Body `args` is absent or a list of strings. Other JSON values, whose `join` behaves differently or is missing, are not modelled beyond the absent case. The `TypeError` message is the one V8 produces for `undefined.join`.
- ErrorHandler.NewAppError: the stack is only its first line, `AppError: <message>`. The call-site frames that follow are not modelled.
- ContractService.MockAbiShape: the interface is modelled as a list of fragments (keyword, name, parameters, suffix) whose texts are the eleven strings of the source. The model does not state the eleven texts as literal string equalities.
- Utf8.DecodeEncode: Dafny characters are Unicode scalar values, so a JavaScript string holding a lone surrogate cannot be represented. `Buffer.from` would replace one with U+FFFD.
