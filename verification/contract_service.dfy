/**
 The contract service: the address check, the fixed ERC-20 interface every
 contract is given, and read-only function calls through the contract
 object. Every failure is logged and rethrown unchanged; logging is not
 modelled.

 `ethers.isAddress` (which includes the EIP-55 checksum test) and the
 property lookup `contract[functionName]` on an ethers `Contract` are taken
 as given predicates `isAddress` and `hasMember`.
 */
module ContractService {

  import opened Js
  import opened ErrorHandler
  import opened ProviderService
  import opened Upstream

  datatype FragmentKind = FunctionKind | EventKind

  /**
   One human-readable ABI fragment, kept in parts: its text is
   `<keyword> <name>(<params>)<suffix>`.
   */
  datatype Fragment = Fragment(kind: FragmentKind, name: string, params: string, suffix: string) {
    function Text(): string {
      (if kind == FunctionKind then "function " else "event ") + name + "(" + params + ")" + suffix
    }
  }

  /** The interface every contract is given, whatever its address or chain. */
  const MockAbi: seq<Fragment> := [
    Fragment(FunctionKind, "name", "", " view returns (string)"),
    Fragment(FunctionKind, "symbol", "", " view returns (string)"),
    Fragment(FunctionKind, "decimals", "", " view returns (uint8)"),
    Fragment(FunctionKind, "totalSupply", "", " view returns (uint256)"),
    Fragment(FunctionKind, "balanceOf", "address", " view returns (uint256)"),
    Fragment(FunctionKind, "transfer", "address to, uint256 amount", " returns (bool)"),
    Fragment(FunctionKind, "allowance", "address owner, address spender", " view returns (uint256)"),
    Fragment(FunctionKind, "approve", "address spender, uint256 amount", " returns (bool)"),
    Fragment(FunctionKind, "transferFrom", "address from, address to, uint256 amount", " returns (bool)"),
    Fragment(EventKind, "Transfer", "address indexed from, address indexed to, uint256 value", ""),
    Fragment(EventKind, "Approval", "address indexed owner, address indexed spender, uint256 value", "")
  ]

  /** The ABI as it appears in responses: the list of fragment texts. */
  function AbiTexts(abi: seq<Fragment>): (texts: seq<string>)
    ensures |texts| == |abi|
    ensures forall i :: 0 <= i < |abi| ==> texts[i] == abi[i].Text()
  {
    seq(|abi|, i requires 0 <= i < |abi| => abi[i].Text())
  }

  /** The names of the functions an interface declares. */
  function FunctionNames(abi: seq<Fragment>): set<string> {
    set i | 0 <= i < |abi| && abi[i].kind == FunctionKind :: abi[i].name
  }

  /** The fixed interface has eleven fragments: nine functions followed by two events. */
  lemma MockAbiShape()
    ensures |MockAbi| == 11
    ensures forall i :: 0 <= i < 9 ==> MockAbi[i].kind == FunctionKind
    ensures forall i :: 9 <= i < 11 ==> MockAbi[i].kind == EventKind
  {
  }

  /** The ethers `Contract` object: an address bound to the interface and a provider. */
  datatype ContractHandle = ContractHandle(address: string, abi: seq<Fragment>, provider: Provider)

  /** What `getContract` resolves to. `chainId` is the caller's identifier echoed back. */
  datatype ContractInfo = ContractInfo(address: string, chainId: ChainId, abi: seq<string>, contract: ContractHandle)

  function InvalidAddress(address: string): (e: Error)
    ensures e.statusCode == Some(400)
  {
    NewAppError("Invalid contract address: " + address, 400)
  }

  function FunctionNotFound(functionName: string): (e: Error)
    ensures e.statusCode == Some(400)
  {
    NewAppError("Function " + functionName + " not found in contract", 400)
  }

  /**
   `getContract(address, chainId)`: validate the address, acquire the
   provider, and bind the fixed interface. No request reaches the node.
   */
  function GetContract(cache: Cache, urls: UrlTable, address: string, chainId: ChainId, fault: Option<Error>,
                       isAddress: string -> bool): (o: Outcome<ContractInfo>)
    ensures o.calls == []
    // an invalid address is refused before the provider cache is consulted
    ensures !isAddress(address) ==> o == Outcome(cache, [], Err(InvalidAddress(address)))
    ensures isAddress(address) ==> o.cache == GetProvider(cache, urls, chainId, fault).cache
    ensures o.result.Ok? <==> isAddress(address) && GetProvider(cache, urls, chainId, fault).result.Ok?
    ensures isAddress(address) && o.result.Err? ==> o.result.error == fault.value
    ensures o.result.Ok? ==>
              var info := o.result.value;
              && info.address == address
              && info.chainId == ChainIdOr(chainId, "default")
              && info.abi == AbiTexts(MockAbi)
              && info.contract == ContractHandle(address, MockAbi, GetProvider(cache, urls, chainId, fault).result.value)
  {
    if !isAddress(address) then Outcome(cache, [], Err(InvalidAddress(address)))
    else
      var a := GetProvider(cache, urls, chainId, fault);
      match a.result
      case Err(e) => Outcome(a.cache, [], Err(e))
      case Ok(provider) =>
        var contract := ContractHandle(address, MockAbi, provider);
        Outcome(a.cache, [], Ok(ContractInfo(address, ChainIdOr(chainId, "default"), AbiTexts(MockAbi), contract)))
  }

  /**
   The interface returned does not depend on the address or the chain: any
   two successful lookups return the same ABI.
   */
  lemma AbiIndependentOfAddressAndChain(c1: Cache, c2: Cache, urls: UrlTable, a1: string, a2: string,
                                        id1: ChainId, id2: ChainId, isAddress: string -> bool)
    requires GetContract(c1, urls, a1, id1, None, isAddress).result.Ok?
    requires GetContract(c2, urls, a2, id2, None, isAddress).result.Ok?
    ensures GetContract(c1, urls, a1, id1, None, isAddress).result.value.abi
         == GetContract(c2, urls, a2, id2, None, isAddress).result.value.abi
  {
  }

  /**
   The echoed identifier and the cache key can disagree: for the number 0 the
   response says `'default'`, but the provider is cached under `'0'` and is
   not the default instance.
   */
  lemma ZeroChainIdEchoesDefault(urls: UrlTable, address: string, isAddress: string -> bool)
    requires isAddress(address)
    ensures var o := GetContract(EmptyCache, urls, address, Num(0), None, isAddress);
            && o.result.Ok?
            && o.result.value.chainId == Str("default")
            && "0" in o.cache.entries && "default" !in o.cache.entries
  {
    assert Decimal.IntToString(0) == "0";
  }

  /**
   `getContractFunction(address, functionName, args = [], chainId)`: look up
   the contract, refuse a name the contract object does not have, otherwise
   issue the call and return its result unchanged. `answer` is what the node
   replies to that call.
   */
  function GetContractFunction<V>(cache: Cache, urls: UrlTable, address: string, functionName: string,
                                  args: Option<seq<string>>, chainId: ChainId, fault: Option<Error>,
                                  isAddress: string -> bool, hasMember: string -> bool,
                                  answer: Result<V, Error>): (o: Outcome<V>)
    ensures o.cache == GetContract(cache, urls, address, chainId, fault, isAddress).cache
    // an invalid address is a 400, and nothing is looked up or called
    ensures !isAddress(address) ==> o == Outcome(cache, [], Err(InvalidAddress(address)))
    // the call is issued exactly when the contract was obtained and has the member
    ensures o.calls != [] <==> GetContract(cache, urls, address, chainId, fault, isAddress).result.Ok? && hasMember(functionName)
    // the call goes to the contract bound to the provider acquired for the chain, and its answer is returned as is
    ensures o.calls != [] ==>
              && GetProvider(cache, urls, chainId, fault).result.Ok?
              && o.calls == [Call(GetProvider(cache, urls, chainId, fault).result.value, ContractCall(address, functionName, args.GetOr([])))]
              && o.result == answer
    ensures GetContract(cache, urls, address, chainId, fault, isAddress).result.Ok? && !hasMember(functionName) ==>
              o.result == Err(FunctionNotFound(functionName))
    ensures GetContract(cache, urls, address, chainId, fault, isAddress).result.Err? ==>
              o.result == Err(GetContract(cache, urls, address, chainId, fault, isAddress).result.error)
  {
    var g := GetContract(cache, urls, address, chainId, fault, isAddress);
    match g.result
    case Err(e) => Outcome(g.cache, [], Err(e))
    case Ok(info) =>
      if !hasMember(functionName) then Outcome(g.cache, [], Err(FunctionNotFound(functionName)))
      else Outcome(g.cache, [Call(info.contract.provider, ContractCall(address, functionName, args.GetOr([])))], answer)
  }

  /**
   When the contract object's members are the interface's functions, asking
   for `mint` on the fixed ERC-20 interface is a 400 and no call is made.
   */
  lemma MintIsNotFound<V>(cache: Cache, urls: UrlTable, address: string, chainId: ChainId,
                          isAddress: string -> bool, hasMember: string -> bool, answer: Result<V, Error>)
    requires isAddress(address)
    requires forall n :: hasMember(n) <==> n in FunctionNames(MockAbi)
    ensures var o := GetContractFunction(cache, urls, address, "mint", None, chainId, None, isAddress, hasMember, answer);
            o.calls == [] && o.result == Err(FunctionNotFound("mint")) && o.result.error.statusCode == Some(400)
  {
    assert "mint" !in FunctionNames(MockAbi) by {
      forall i | 0 <= i < |MockAbi| ensures MockAbi[i].name != "mint" {
      }
    }
  }

  /**
   When the contract object's members are the interface's functions, a call
   with a valid address and a working provider is issued exactly when the
   name is one of the nine functions of the fixed interface; any other name
   is a 400 and nothing is called.
   */
  lemma CallIssuedIffDeclared<V>(cache: Cache, urls: UrlTable, address: string, functionName: string,
                                 args: Option<seq<string>>, chainId: ChainId,
                                 isAddress: string -> bool, hasMember: string -> bool, answer: Result<V, Error>)
    requires isAddress(address)
    requires forall n :: hasMember(n) <==> n in FunctionNames(MockAbi)
    ensures var o := GetContractFunction(cache, urls, address, functionName, args, chainId, None, isAddress, hasMember, answer);
            && (o.calls != [] <==> functionName in FunctionNames(MockAbi))
            && (o.calls == [] ==> o.result == Err(FunctionNotFound(functionName)))
  {
    assert hasMember(functionName) <==> functionName in FunctionNames(MockAbi);
  }
}
