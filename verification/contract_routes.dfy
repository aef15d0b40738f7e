/**
 The contract routes: the required-parameter checks each handler makes
 before calling a service, the shapes of their `data` payloads, and the
 mock transaction encoder of the prepare-tx handler. A handler's thrown
 error goes to `next`, and from there to the error handler.
 */
module ContractRoutes {

  import opened Js
  import opened ErrorHandler
  import opened ProviderService
  import opened Upstream
  import opened ContractService
  import Utf8
  import Hex

  const AddressRequired := "Contract address is required"
  const AddressAndFunctionRequired := "Contract address and function name are required"

  function MissingParameter(message: string): (e: Error)
    ensures e.statusCode == Some(400)
  {
    NewAppError(message, 400)
  }

  /** `GET /api/contracts/:address`: the contract information as `getContract` returns it. */
  function ContractInfoRoute(cache: Cache, urls: UrlTable, address: string, chainId: ChainId, fault: Option<Error>,
                             isAddress: string -> bool): (o: Outcome<ContractInfo>)
    ensures address == "" ==> o == Outcome(cache, [], Err(MissingParameter(AddressRequired)))
    ensures address != "" ==> o == GetContract(cache, urls, address, chainId, fault, isAddress)
  {
    if !StrTruthy(address) then Outcome(cache, [], Err(MissingParameter(AddressRequired)))
    else GetContract(cache, urls, address, chainId, fault, isAddress)
  }

  datatype AbiView = AbiView(address: string, chainId: ChainId, abi: seq<string>)

  /** `GET /api/contracts/:address/abi`: the address and identifier echoed, with the ABI `getContract` returned. */
  function AbiRoute(cache: Cache, urls: UrlTable, address: string, chainId: ChainId, fault: Option<Error>,
                    isAddress: string -> bool): (o: Outcome<AbiView>)
    ensures o.calls == []
    ensures address == "" ==> o == Outcome(cache, [], Err(MissingParameter(AddressRequired)))
    ensures o.result.Ok? ==>
              && address != "" && isAddress(address)
              && o.result.value == AbiView(address, ChainIdOr(chainId, "default"), AbiTexts(MockAbi))
    ensures address != "" ==>
              && o.cache == GetContract(cache, urls, address, chainId, fault, isAddress).cache
              && (o.result.Err? <==> GetContract(cache, urls, address, chainId, fault, isAddress).result.Err?)
    ensures address != "" && o.result.Err? ==> o.result.error == GetContract(cache, urls, address, chainId, fault, isAddress).result.error
  {
    if !StrTruthy(address) then Outcome(cache, [], Err(MissingParameter(AddressRequired)))
    else
      var g := GetContract(cache, urls, address, chainId, fault, isAddress);
      match g.result
      case Err(e) => Outcome(g.cache, [], Err(e))
      case Ok(info) => Outcome(g.cache, [], Ok(AbiView(address, ChainIdOr(chainId, "default"), info.abi)))
  }

  datatype CallView<+V> = CallView(address: string, functionName: string, result: V)

  /**
   The error `res.json` throws, inside the handler's `try`, when the response
   cannot be serialised (a `bigint` result): a plain `TypeError`, with no
   status code.
   */
  const NotSerialisable := Error("TypeError", "Do not know how to serialize a BigInt", None,
                                 "TypeError: Do not know how to serialize a BigInt")

  /**
   `GET /api/contracts/:address/call/:functionName`. The `args` query, when
   present and non-empty, is parsed first (`parsed` is what `JSON.parse`
   returns or throws), before the parameters are checked. `serialisable`
   says whether `JSON.stringify` accepts a result; the response is written
   inside the handler's `try`, so a result it rejects becomes an error.
   */
  function CallRoute<V>(cache: Cache, urls: UrlTable, address: string, functionName: string,
                        argsQuery: Option<string>, parsed: Result<seq<string>, Error>,
                        chainId: ChainId, fault: Option<Error>,
                        isAddress: string -> bool, hasMember: string -> bool, serialisable: V -> bool,
                        answer: Result<V, Error>): (o: Outcome<CallView<V>>)
    // a malformed `args` query fails before anything else, even a missing parameter
    ensures argsQuery.Some? && argsQuery.value != "" && parsed.Err? ==> o == Outcome(cache, [], Err(parsed.error))
    ensures (argsQuery.None? || argsQuery.value == "" || parsed.Ok?) && (address == "" || functionName == "") ==>
              o == Outcome(cache, [], Err(MissingParameter(AddressAndFunctionRequired)))
    // otherwise the route is the service call, with the parsed arguments or none, wrapped in a view
    ensures (argsQuery.None? || argsQuery.value == "" || parsed.Ok?) && address != "" && functionName != "" ==>
              var f := GetContractFunction(cache, urls, address, functionName, Some(ArgsOf(argsQuery, parsed)), chainId, fault,
                                           isAddress, hasMember, answer);
              && o.cache == f.cache && o.calls == f.calls
              && (o.result.Err? <==> f.result.Err? || !serialisable(f.result.value))
              && (f.result.Err? ==> o.result.error == f.result.error)
              && (f.result.Ok? && !serialisable(f.result.value) ==> o.result == Err(NotSerialisable))
              && (o.result.Ok? ==> o.result.value == CallView(address, functionName, f.result.value))
    ensures o.result.Ok? ==>
              && address != "" && functionName != ""
              && GetProvider(cache, urls, chainId, fault).result.Ok?
              && o.calls == [Call(GetProvider(cache, urls, chainId, fault).result.value,
                                  ContractCall(address, functionName, ArgsOf(argsQuery, parsed)))]
              && answer.Ok? && serialisable(answer.value)
              && o.result.value == CallView(address, functionName, answer.value)
  {
    if argsQuery.Some? && StrTruthy(argsQuery.value) && parsed.Err? then Outcome(cache, [], Err(parsed.error))
    else
      var args := ArgsOf(argsQuery, parsed);
      if !StrTruthy(address) || !StrTruthy(functionName) then
        Outcome(cache, [], Err(MissingParameter(AddressAndFunctionRequired)))
      else
        var o := GetContractFunction(cache, urls, address, functionName, Some(args), chainId, fault, isAddress, hasMember, answer);
        match o.result
        case Err(e) => Outcome(o.cache, o.calls, Err(e))
        case Ok(v) =>
          if !serialisable(v) then Outcome(o.cache, o.calls, Err(NotSerialisable))
          else Outcome(o.cache, o.calls, Ok(CallView(address, functionName, v)))
  }

  /**
   A call the node answers with a value `res.json` rejects (a `bigint` from
   `decimals`, `totalSupply`, `balanceOf` or `allowance`) still goes out,
   but the client gets a 500 rather than the result.
   */
  lemma UnserialisableResultIs500<V>(cache: Cache, urls: UrlTable, address: string, functionName: string, chainId: ChainId,
                                     isAddress: string -> bool, hasMember: string -> bool, serialisable: V -> bool,
                                     v: V, production: bool)
    requires address != "" && functionName != ""
    requires isAddress(address) && hasMember(functionName) && !serialisable(v)
    ensures var o := CallRoute(cache, urls, address, functionName, None, Ok([]), chainId, None,
                               isAddress, hasMember, serialisable, Ok(v));
            && |o.calls| == 1
            && o.result.Err?
            && HandleError(o.result.error, production).status == 500
  {
  }

  /** The arguments a call is made with: the parsed `args` query when one was given, otherwise none. */
  function ArgsOf(argsQuery: Option<string>, parsed: Result<seq<string>, Error>): seq<string>
    requires argsQuery.None? || argsQuery.value == "" || parsed.Ok?
  {
    if argsQuery.Some? && StrTruthy(argsQuery.value) then parsed.value else []
  }

  /** `args.join(',')` over the arguments' string forms. */
  function Join(args: seq<string>, sep: string): string {
    if |args| == 0 then ""
    else if |args| == 1 then args[0]
    else args[0] + sep + Join(args[1..], sep)
  }

  /** The text the mock encoder hex-encodes: `functionName(arg1,arg2,...)`. */
  function Signature(functionName: string, args: seq<string>): string {
    functionName + "(" + Join(args, ",") + ")"
  }

  /** `'0x' + Buffer.from(text, 'utf8').toString('hex')`. */
  function EncodeData(text: string): (data: string)
    ensures |data| == 2 + 2 * |Utf8.Encode(text)|
    ensures data[..2] == "0x"
  {
    "0x" + Hex.Encode(Utf8.Encode(text))
  }

  /** Reads back the text from mock transaction data: strip `0x`, decode hex, decode UTF-8. */
  function DecodeData(data: string): Option<string> {
    if |data| < 2 || data[..2] != "0x" then None
    else
      match Hex.Decode(data[2..])
      case None => None
      case Some(bytes) => Utf8.Decode(bytes)
  }

  /** Decoding mock transaction data gives back the text that was encoded. */
  lemma DataRoundTrip(text: string)
    ensures DecodeData(EncodeData(text)) == Some(text)
  {
    var data := EncodeData(text);
    assert data[2..] == Hex.Encode(Utf8.Encode(text));
    Hex.DecodeEncode(Utf8.Encode(text));
    Utf8.DecodeEncode(text);
  }

  /** Any data the decoder accepts is the encoding of what it decodes to: the encoder is onto its decoder's domain. */
  lemma DataCanonical(data: string)
    requires DecodeData(data).Some?
    ensures EncodeData(DecodeData(data).value) == data
  {
    var bytes := Hex.Decode(data[2..]).value;
    Hex.EncodeDecode(data[2..]);
    Utf8.EncodeDecode(bytes);
    assert data == data[..2] + data[2..];
  }

  datatype TxData = TxData(to: string, data: string, value: string, chainId: ChainId)

  datatype PreparedTx = PreparedTx(txData: TxData, functionName: string, args: seq<string>)

  /** The error `args.join` throws when the body has no `args`: a plain `TypeError`, with no status code. */
  const ArgsUndefined := Error("TypeError", "Cannot read properties of undefined (reading 'join')", None,
                               "TypeError: Cannot read properties of undefined (reading 'join')")

  /**
   `POST /api/contracts/:address/prepare-tx/:functionName` with body
   `{ args, value }`. No service is called and the provider cache is not
   involved.
   */
  function PrepareTx(address: string, functionName: string, chainId: ChainId,
                     args: Option<seq<string>>, value: Option<string>): (r: Result<PreparedTx, Error>)
    ensures (address == "" || functionName == "") ==> r == Err(MissingParameter(AddressAndFunctionRequired))
    ensures address != "" && functionName != "" && args.None? ==> r == Err(ArgsUndefined)
    ensures r.Ok? <==> address != "" && functionName != "" && args.Some?
    ensures r.Ok? ==>
              var tx := r.value.txData;
              && tx.to == address
              && DecodeData(tx.data) == Some(Signature(functionName, args.value))
              && |tx.data| == 2 + 2 * |Utf8.Encode(Signature(functionName, args.value))|
              && (value.Some? && value.value != "" ==> tx.value == value.value)
              && (value.None? || value.value == "" ==> tx.value == "0x0")
              && tx.chainId == ChainIdOr(chainId, "1")
              && r.value.functionName == functionName && r.value.args == args.value
  {
    if !StrTruthy(address) || !StrTruthy(functionName) then Err(MissingParameter(AddressAndFunctionRequired))
    else
      match args
      case None => Err(ArgsUndefined)
      case Some(list) =>
        var text := Signature(functionName, list);
        DataRoundTrip(text);
        Ok(PreparedTx(TxData(address, EncodeData(text), OrElse(value, "0x0"), ChainIdOr(chainId, "1")), functionName, list))
  }

  /**
   The mock encoding does not keep arguments apart: one argument containing
   a comma gives the same data as the two arguments around it.
   */
  lemma CommaArgumentsCollide(address: string, functionName: string, chainId: ChainId, a: string, b: string)
    requires address != "" && functionName != ""
    ensures PrepareTx(address, functionName, chainId, Some([a + "," + b]), None).value.txData
         == PrepareTx(address, functionName, chainId, Some([a, b]), None).value.txData
  {
    assert Join([a, b], ",") == a + "," + Join([b], ",");
    assert Join([a, b], ",") == Join([a + "," + b], ",");
  }

  /**
   Without an explicit chain the prepared transaction names chain `'1'`,
   while the ABI route reports `'default'` for the same request.
   */
  lemma DefaultChainDiffers(cache: Cache, urls: UrlTable, address: string, functionName: string,
                            isAddress: string -> bool)
    requires address != "" && functionName != "" && isAddress(address)
    ensures PrepareTx(address, functionName, Undefined, Some([]), None).value.txData.chainId == Str("1")
    ensures AbiRoute(cache, urls, address, Undefined, None, isAddress).result.value.chainId == Str("default")
  {
  }
}
