/**
 The provider cache: the table of RPC endpoints per chain, the
 normalisation of chain identifiers, and the memoising factory that hands out
 one JSON-RPC provider per normalised identifier until the cache is cleared.

 A provider is identified by the serial number of its construction, so two
 providers are "the same instance" exactly when they are equal values. The
 cache counts the providers it has constructed; clearing empties the map but
 keeps the count, which is what makes later instances provably new.
 */
module ProviderService {

  import opened Js
  import opened ErrorHandler
  import Decimal

  /** The environment variables the endpoint table reads, each mapped to its value. */
  type Env = map<string, string>

  /** `process.env[name] || fallback`. */
  function EnvOr(env: Env, name: string, fallback: string): (r: string)
    ensures fallback != "" ==> r != ""
  {
    if name in env && env[name] != "" then env[name] else fallback
  }

  /** An endpoint table always carries the `'default'` entry that unknown identifiers fall back to. */
  type UrlTable = m: map<string, string> | "default" in m witness map["default" := ""]

  const DefaultMainnetUrl := "https://eth-mainnet.alchemyapi.io/v2/demo"


  /** The keys of the `rpcUrls` table. */
  const ConfiguredChains: set<string> := KeysOf(ChainSettings)

  /** One line of the `rpcUrls` literal: the chain key, its environment variable and its built-in URL. */
  datatype ChainSetting = ChainSetting(key: string, envVar: string, fallback: string)

  const ChainSettings: seq<ChainSetting> := [
    ChainSetting("1", "MAINNET_RPC_URL", DefaultMainnetUrl),
    ChainSetting("5", "GOERLI_RPC_URL", "https://eth-goerli.alchemyapi.io/v2/demo"),
    ChainSetting("11155111", "SEPOLIA_RPC_URL", "https://eth-sepolia.alchemyapi.io/v2/demo"),
    ChainSetting("42161", "ARBITRUM_RPC_URL", "https://arb-mainnet.g.alchemy.com/v2/demo"),
    ChainSetting("10", "OPTIMISM_RPC_URL", "https://opt-mainnet.g.alchemy.com/v2/demo"),
    ChainSetting("137", "POLYGON_RPC_URL", "https://polygon-mainnet.g.alchemy.com/v2/demo"),
    ChainSetting("56", "BSC_RPC_URL", "https://bsc-dataseed.binance.org"),
    ChainSetting("43114", "AVALANCHE_RPC_URL", "https://api.avax.network/ext/bc/C/rpc"),
    ChainSetting("31337", "LOCAL_RPC_URL", "http://127.0.0.1:8545"),
    ChainSetting("default", "DEFAULT_RPC_URL", DefaultMainnetUrl)
  ]

  /** The keys of the settings, each listed once. */
  predicate DistinctKeys(settings: seq<ChainSetting>) {
    forall i, j :: 0 <= i < j < |settings| ==> settings[i].key != settings[j].key
  }

  /** Every built-in URL of the settings is non-empty. */
  predicate FallbacksNonEmpty(settings: seq<ChainSetting>) {
    forall i :: 0 <= i < |settings| ==> settings[i].fallback != ""
  }

  function KeysOf(settings: seq<ChainSetting>): set<string> {
    set i | 0 <= i < |settings| :: settings[i].key
  }

  /** The table the settings describe, one entry per line. */
  function TableOf(env: Env, settings: seq<ChainSetting>): (t: map<string, string>)
    requires DistinctKeys(settings)
    ensures t.Keys == KeysOf(settings)
    ensures forall i :: 0 <= i < |settings| ==>
              t[settings[i].key] == EnvOr(env, settings[i].envVar, settings[i].fallback)
  {
    map i | 0 <= i < |settings| :: settings[i].key := EnvOr(env, settings[i].envVar, settings[i].fallback)
  }

  /** With non-empty built-in URLs, no entry of the table is empty. */
  lemma TableValuesNonEmpty(env: Env, settings: seq<ChainSetting>)
    requires DistinctKeys(settings)
    requires FallbacksNonEmpty(settings)
    ensures forall k :: k in TableOf(env, settings) ==> TableOf(env, settings)[k] != ""
  {
    var t := TableOf(env, settings);
    forall k | k in t ensures t[k] != "" {
      var i :| 0 <= i < |settings| && settings[i].key == k;
    }
  }

  /** The keys of a non-empty list of settings: those of all but the last line, and the last line's. */
  lemma KeysOfSnoc(settings: seq<ChainSetting>)
    requires |settings| > 0
    ensures KeysOf(settings) == KeysOf(settings[..|settings| - 1]) + {settings[|settings| - 1].key}
  {
    var init := settings[..|settings| - 1];
    forall k | k in KeysOf(settings) ensures k in KeysOf(init) + {settings[|settings| - 1].key} {
      var i :| 0 <= i < |settings| && settings[i].key == k;
      if i < |init| {
        assert init[i] == settings[i];
      }
    }
    forall k | k in KeysOf(init) ensures k in KeysOf(settings) {
      var i :| 0 <= i < |init| && init[i].key == k;
      assert settings[i] == init[i];
    }
  }

  /** With distinct keys, the last line's key is not among the others, which are themselves distinct. */
  lemma LastKeyIsNew(settings: seq<ChainSetting>)
    requires |settings| > 0 && DistinctKeys(settings)
    ensures DistinctKeys(settings[..|settings| - 1])
    ensures settings[|settings| - 1].key !in KeysOf(settings[..|settings| - 1])
  {
    var init := settings[..|settings| - 1];
    forall i, j | 0 <= i < j < |init| ensures init[i].key != init[j].key {
      assert init[i] == settings[i] && init[j] == settings[j];
    }
    forall i | 0 <= i < |init| ensures init[i].key != settings[|settings| - 1].key {
      assert init[i] == settings[i];
    }
  }

  /** Distinct keys: as many keys as lines. */
  lemma {:induction false} KeyCount(settings: seq<ChainSetting>)
    requires DistinctKeys(settings)
    ensures |KeysOf(settings)| == |settings|
  {
    if |settings| > 0 {
      var init := settings[..|settings| - 1];
      LastKeyIsNew(settings);
      KeyCount(init);
      KeysOfSnoc(settings);
    }
  }

  /** Each configured key is listed once. */
  lemma ChainSettingsDistinct()
    ensures DistinctKeys(ChainSettings)
  {
    assert "1" != "5" && "42161" != "43114" && "43114" != "31337" && "42161" != "31337";
    assert "10" != "56";
  }

  /** Every built-in URL is non-empty. */
  lemma ChainSettingsFallbacks()
    ensures FallbacksNonEmpty(ChainSettings)
  {
  }

  /** There are ten configured keys, `'default'` among them. */
  lemma ConfiguredChainsShape()
    ensures "default" in ConfiguredChains
    ensures |ConfiguredChains| == 10
  {
    assert |ChainSettings| == 10 && ChainSettings[9].key == "default";
    ChainSettingsDistinct();
    KeyCount(ChainSettings);
  }

  /** Whatever the environment, no configured URL is empty. */
  lemma ConfiguredUrlsNonEmpty(env: Env)
    ensures DistinctKeys(ChainSettings)
    ensures forall k :: k in TableOf(env, ChainSettings) ==> TableOf(env, ChainSettings)[k] != ""
  {
    ChainSettingsDistinct();
    ChainSettingsFallbacks();
    TableValuesNonEmpty(env, ChainSettings);
  }

  /**
   The `rpcUrls` table, evaluated once at module load: exactly the ten
   configured keys, each taken from its environment variable when that is set
   and non-empty, otherwise from the built-in URL; no URL is empty.
   */
  function RpcUrls(env: Env): (t: UrlTable)
    ensures t.Keys == ConfiguredChains
    ensures |t| == 10
    ensures forall k :: k in t ==> t[k] != ""
    ensures forall i :: 0 <= i < |ChainSettings| ==>
              t[ChainSettings[i].key] == EnvOr(env, ChainSettings[i].envVar, ChainSettings[i].fallback)
  {
    ConfiguredChainsShape();
    ConfiguredUrlsNonEmpty(env);
    TableOf(env, ChainSettings)
  }

  /**
   `chainId?.toString() || 'default'` under the parameter default
   `chainId = 'default'`: absent, `null` and `''` become `'default'`;
   strings are kept; numbers are rendered in decimal.
   */
  function NormalizeChainId(c: ChainId): (key: string)
    ensures key != ""
    ensures c.Undefined? || c.Null? || c == Str("") ==> key == "default"
    ensures c.Str? && c.s != "" ==> key == c.s
    ensures c.Num? ==> Decimal.ParseInt(key) == Some(c.n)
  {
    match c
    case Undefined => "default"
    case Null => "default"
    case Str(s) => if StrTruthy(s) then s else "default"
    case Num(n) => Decimal.IntRoundTrip(n); Decimal.IntToString(n)
  }

  /** `rpcUrls[key] || rpcUrls.default`. */
  function ResolveUrl(urls: UrlTable, key: string): (url: string)
    ensures key in urls && urls[key] != "" ==> url == urls[key]
    ensures key !in urls ==> url == urls["default"]
    ensures !(key in urls && urls[key] != "") ==> url == urls["default"]
  {
    if key in urls && urls[key] != "" then urls[key] else urls["default"]
  }

  /** A `JsonRpcProvider`, identified by the serial number of its construction. */
  datatype Provider = Provider(serial: nat, url: string)

  /** The module-level `providerCache` together with the count of providers ever constructed. */
  datatype Cache = Cache(entries: map<string, Provider>, constructed: nat)

  const EmptyCache := Cache(map[], 0)

  /**
   Every cached provider was constructed by this cache, for the URL its key
   resolves to, and no instance is shared between two keys.
   */
  ghost predicate Valid(cache: Cache, urls: UrlTable) {
    && (forall k :: k in cache.entries ==> cache.entries[k].serial < cache.constructed)
    && (forall k :: k in cache.entries ==> cache.entries[k].url == ResolveUrl(urls, k))
    && (forall k1, k2 :: k1 in cache.entries && k2 in cache.entries && k1 != k2 ==>
          cache.entries[k1] != cache.entries[k2])
  }

  /** The cache after a `getProvider` call, and what the call returned or threw. */
  datatype Acquired = Acquired(cache: Cache, result: Result<Provider, Error>)

  /**
   `getProvider(chainId)`. `fault` is what `new ethers.JsonRpcProvider(url)`
   does if it is reached: `None` when it returns, `Some(e)` when it throws `e`.
   */
  function GetProvider(cache: Cache, urls: UrlTable, chainId: ChainId, fault: Option<Error>): (r: Acquired)
    // a hit returns the cached instance and constructs nothing
    ensures NormalizeChainId(chainId) in cache.entries ==>
              r == Acquired(cache, Ok(cache.entries[NormalizeChainId(chainId)]))
    // a successful miss constructs one new instance for the resolved URL and caches it under the key
    ensures NormalizeChainId(chainId) !in cache.entries && fault.None? ==>
              && r.result.Ok?
              && r.result.value == Provider(cache.constructed, ResolveUrl(urls, NormalizeChainId(chainId)))
              && r.cache == Cache(cache.entries[NormalizeChainId(chainId) := r.result.value], cache.constructed + 1)
    // a failed construction is rethrown and leaves the cache as it was
    ensures NormalizeChainId(chainId) !in cache.entries && fault.Some? ==> r == Acquired(cache, Err(fault.value))
    ensures r.result.Err? ==> fault.Some? && r.result.error == fault.value && r.cache == cache
    // a success always leaves the returned instance cached under the normalised key
    ensures r.result.Ok? ==>
              NormalizeChainId(chainId) in r.cache.entries &&
              r.cache.entries[NormalizeChainId(chainId)] == r.result.value
    // no other key is touched
    ensures forall k :: k != NormalizeChainId(chainId) ==>
              (k in r.cache.entries <==> k in cache.entries) &&
              (k in cache.entries ==> r.cache.entries[k] == cache.entries[k])
    ensures |r.cache.entries| <= |cache.entries| + 1
    ensures Valid(cache, urls) ==> Valid(r.cache, urls)
  {
    var key := NormalizeChainId(chainId);
    if key in cache.entries then
      Acquired(cache, Ok(cache.entries[key]))
    else
      var url := ResolveUrl(urls, key);
      match fault
      case Some(e) => Acquired(cache, Err(e))
      case None =>
        var p := Provider(cache.constructed, url);
        Acquired(Cache(cache.entries[key := p], cache.constructed + 1), Ok(p))
  }

  /** `clearProviderCache()`: every entry is dropped; the construction count is kept. */
  function ClearProviderCache(cache: Cache): (r: Cache)
    ensures r.entries == map[]
    ensures r.constructed == cache.constructed
    ensures forall urls: UrlTable :: Valid(cache, urls) ==> Valid(r, urls)
  {
    Cache(map[], cache.constructed)
  }

  /** A numeric identifier and its decimal string share one cache key, so `1` and `'1'` share a provider. */
  lemma NumberAndStringShareKey(n: int)
    ensures NormalizeChainId(Num(n)) == NormalizeChainId(Str(Decimal.IntToString(n)))
  {
  }

  /** Distinct numeric identifiers get distinct keys, none of which is `'default'`. */
  lemma NumericKeysAreDistinct(m: int, n: int)
    ensures NormalizeChainId(Num(m)) == NormalizeChainId(Num(n)) ==> m == n
    ensures NormalizeChainId(Num(n)) != "default"
  {
    if NormalizeChainId(Num(m)) == NormalizeChainId(Num(n)) {
      Decimal.IntToStringInjective(m, n);
    }
    var s := NormalizeChainId(Num(n));
    assert s[|s| - 1] != 't';
  }

  /** Every identifier resolves to some configured URL without raising. */
  lemma UnknownChainFallsBackToDefault(env: Env, chainId: ChainId)
    requires NormalizeChainId(chainId) !in ConfiguredChains
    ensures ResolveUrl(RpcUrls(env), NormalizeChainId(chainId)) == RpcUrls(env)["default"]
  {
  }

  /**
   Whatever the key, the URL a provider is built for is one of the configured
   URLs, and never empty.
   */
  lemma ResolvedUrlIsConfigured(env: Env, key: string)
    ensures ResolveUrl(RpcUrls(env), key) in RpcUrls(env).Values
    ensures ResolveUrl(RpcUrls(env), key) != ""
  {
    var t := RpcUrls(env);
    if key in t && t[key] != "" {
      assert t[key] in t.Values;
    } else {
      assert "default" in t;
      assert t["default"] in t.Values;
    }
  }

  /** Two acquisitions under the same key return the identical instance, and the second changes nothing. */
  lemma SecondGetIsCached(cache: Cache, urls: UrlTable, c1: ChainId, c2: ChainId, f1: Option<Error>, f2: Option<Error>)
    requires NormalizeChainId(c1) == NormalizeChainId(c2)
    requires GetProvider(cache, urls, c1, f1).result.Ok?
    ensures var first := GetProvider(cache, urls, c1, f1);
            GetProvider(first.cache, urls, c2, f2) == first
  {
  }

  /** The operations that act on the cache. */
  datatype Op = Get(chainId: ChainId, fault: Option<Error>) | Clear

  /** The cache after one operation. */
  function After(cache: Cache, urls: UrlTable, op: Op): (r: Cache)
    ensures Valid(cache, urls) ==> Valid(r, urls)
    ensures r.constructed >= cache.constructed
    ensures op.Clear? ==> r.entries == map[]
  {
    match op
    case Clear => ClearProviderCache(cache)
    case Get(c, f) => GetProvider(cache, urls, c, f).cache
  }

  /** What one operation yields: a `Get` its `getProvider` result, a `Clear` nothing. */
  function Yield(cache: Cache, urls: UrlTable, op: Op): (y: Option<Result<Provider, Error>>)
    ensures y.None? <==> op.Clear?
  {
    match op
    case Clear => None
    case Get(c, f) => Some(GetProvider(cache, urls, c, f).result)
  }

  /** The cache after running `ops` in order, and the result of every `Get` (a `Clear` yields `None`). */
  function Run(cache: Cache, urls: UrlTable, ops: seq<Op>): (r: (Cache, seq<Option<Result<Provider, Error>>>))
    ensures |r.1| == |ops|
    ensures Valid(cache, urls) ==> Valid(r.0, urls)
    ensures r.0.constructed >= cache.constructed
    // a `Clear` yields no result and a `Get` yields its own, position by position
    ensures forall i :: 0 <= i < |ops| ==> (r.1[i].None? <==> ops[i].Clear?)
    // a run that ends in a `Clear` leaves nothing cached
    ensures ops != [] && ops[|ops| - 1].Clear? ==> r.0.entries == map[]
    decreases |ops|
  {
    if |ops| == 0 then (cache, [])
    else
      var rest := Run(After(cache, urls, ops[0]), urls, ops[1..]);
      assert forall i :: 1 <= i < |ops| ==> ops[i] == ops[1..][i - 1];
      (rest.0, [Yield(cache, urls, ops[0])] + rest.1)
  }

  /** A run is its first operation followed by the run of the rest from the cache that operation leaves. */
  lemma RunUnfold(cache: Cache, urls: UrlTable, ops: seq<Op>)
    requires |ops| > 0
    ensures Run(cache, urls, ops).0 == Run(After(cache, urls, ops[0]), urls, ops[1..]).0
    ensures Run(cache, urls, ops).1[1..] == Run(After(cache, urls, ops[0]), urls, ops[1..]).1
    ensures ops[0].Get? ==> Run(cache, urls, ops).1[0] == Some(GetProvider(cache, urls, ops[0].chainId, ops[0].fault).result)
  {
  }

  /**
   Every `Get` in a run returns what `getProvider` returns on the cache that
   the operations before it left.
   */
  lemma {:induction false} RunStep(cache: Cache, urls: UrlTable, ops: seq<Op>, i: nat)
    requires i < |ops| && ops[i].Get?
    ensures Run(cache, urls, ops).1[i] == Some(GetProvider(Run(cache, urls, ops[..i]).0, urls, ops[i].chainId, ops[i].fault).result)
    decreases i
  {
    RunUnfold(cache, urls, ops);
    if i > 0 {
      var next := After(cache, urls, ops[0]);
      assert ops[1..][i - 1] == ops[i];
      RunStep(next, urls, ops[1..], i - 1);
      assert ops[..i][0] == ops[0];
      assert ops[..i][1..] == ops[1..][..i - 1];
      RunUnfold(cache, urls, ops[..i]);
    } else {
      assert ops[..0] == [];
    }
  }

  /**
   The cache after a run is the cache its last operation leaves, from the
   cache the operations before it left: a `Clear` anywhere empties the cache
   at that point.
   */
  lemma {:induction false} RunSnoc(cache: Cache, urls: UrlTable, ops: seq<Op>)
    requires |ops| > 0
    ensures Run(cache, urls, ops).0 == After(Run(cache, urls, ops[..|ops| - 1]).0, urls, ops[|ops| - 1])
    decreases |ops|
  {
    RunUnfold(cache, urls, ops);
    var next := After(cache, urls, ops[0]);
    var last := ops[|ops| - 1];
    var init := ops[..|ops| - 1];
    if |ops| == 1 {
      assert init == [];
      assert ops[1..] == [];
      assert Run(cache, urls, init).0 == cache;
      assert Run(next, urls, ops[1..]).0 == next;
    } else {
      var rest := ops[1..];
      RunSnoc(next, urls, rest);
      assert rest[|rest| - 1] == last;
      assert Run(cache, urls, ops).0 == After(Run(next, urls, rest[..|rest| - 1]).0, urls, last);
      assert init[0] == ops[0];
      assert init[1..] == rest[..|rest| - 1];
      RunUnfold(cache, urls, init);
      assert Run(cache, urls, init).0 == Run(next, urls, rest[..|rest| - 1]).0;
    }
  }

  predicate NoClear(ops: seq<Op>) {
    forall i :: 0 <= i < |ops| ==> ops[i].Get?
  }

  /**
   Once a key is cached, every later `Get` for it returns the identical
   instance, whatever faults the other calls meet, for as long as no `Clear`
   intervenes; and the instance is still cached at the end.
   */
  lemma {:induction false} CachedUntilClear(cache: Cache, urls: UrlTable, ops: seq<Op>, key: string)
    requires key in cache.entries
    requires NoClear(ops)
    decreases |ops|
    ensures key in Run(cache, urls, ops).0.entries
    ensures Run(cache, urls, ops).0.entries[key] == cache.entries[key]
    ensures forall i :: 0 <= i < |ops| && NormalizeChainId(ops[i].chainId) == key ==>
              Run(cache, urls, ops).1[i] == Some(Ok(cache.entries[key]))
  {
    if |ops| > 0 {
      var a := GetProvider(cache, urls, ops[0].chainId, ops[0].fault);
      assert NoClear(ops[1..]) by {
        forall i | 0 <= i < |ops[1..]| ensures ops[1..][i].Get? {
          assert ops[1..][i] == ops[i + 1];
        }
      }
      CachedUntilClear(a.cache, urls, ops[1..], key);
      var r := Run(cache, urls, ops);
      var rest := Run(a.cache, urls, ops[1..]);
      assert r.1 == [Some(a.result)] + rest.1;
      forall i | 0 <= i < |ops| && NormalizeChainId(ops[i].chainId) == key
        ensures r.1[i] == Some(Ok(cache.entries[key]))
      {
        if i > 0 {
          assert ops[i] == ops[1..][i - 1];
          assert r.1[i] == rest.1[i - 1];
        }
      }
    }
  }

  /**
   After a clear, the next acquisition for any key constructs an instance
   that differs from every instance the cache held before.
   */
  lemma ClearForcesFreshInstance(cache: Cache, urls: UrlTable, chainId: ChainId, fault: Option<Error>)
    requires Valid(cache, urls)
    requires fault.None?
    ensures var a := GetProvider(ClearProviderCache(cache), urls, chainId, fault);
            && a.result.Ok?
            && a.result.value.url == ResolveUrl(urls, NormalizeChainId(chainId))
            && forall k :: k in cache.entries ==> cache.entries[k] != a.result.value
  {
  }

  /**
   Acquisitions under different keys return different instances, each bound
   to the URL of its own key.
   */
  lemma DistinctKeysDistinctProviders(cache: Cache, urls: UrlTable, c1: ChainId, c2: ChainId, f1: Option<Error>, f2: Option<Error>)
    requires Valid(cache, urls)
    requires NormalizeChainId(c1) != NormalizeChainId(c2)
    requires GetProvider(cache, urls, c1, f1).result.Ok?
    requires GetProvider(GetProvider(cache, urls, c1, f1).cache, urls, c2, f2).result.Ok?
    ensures var a1 := GetProvider(cache, urls, c1, f1);
            var a2 := GetProvider(a1.cache, urls, c2, f2);
            && a1.result.value != a2.result.value
            && a1.result.value.url == ResolveUrl(urls, NormalizeChainId(c1))
            && a2.result.value.url == ResolveUrl(urls, NormalizeChainId(c2))
  {
    var a1 := GetProvider(cache, urls, c1, f1);
    var a2 := GetProvider(a1.cache, urls, c2, f2);
    assert Valid(a2.cache, urls);
    var k1, k2 := NormalizeChainId(c1), NormalizeChainId(c2);
    assert a2.cache.entries[k1] == a1.result.value;
  }

  /**
   An unknown identifier is cached under its own key: it shares the default
   URL but not the default instance.
   */
  lemma UnknownChainHasOwnInstance(urls: UrlTable, cache: Cache, unknown: string)
    requires Valid(cache, urls)
    requires unknown != "" && unknown !in urls
    ensures var a1 := GetProvider(cache, urls, Str(unknown), None);
            var a2 := GetProvider(a1.cache, urls, Str("default"), None);
            && a1.result.value != a2.result.value
            && a1.result.value.url == a2.result.value.url == urls["default"]
            && unknown in a2.cache.entries
  {
    DistinctKeysDistinctProviders(cache, urls, Str(unknown), Str("default"), None, None);
  }

  /**
   From an empty cache: `getProvider('1')` then `getProvider(1)` return the
   same instance; `getProvider(undefined)` then returns a different one, bound
   to the default URL.
   */
  lemma StringNumberAbsentScenario(urls: UrlTable)
    ensures var a1 := GetProvider(EmptyCache, urls, Str("1"), None);
            var a2 := GetProvider(a1.cache, urls, Num(1), None);
            var a3 := GetProvider(a2.cache, urls, Undefined, None);
            && a1.result.Ok? && a2.result.Ok? && a3.result.Ok?
            && a1.result.value == a2.result.value
            && a3.result.value != a1.result.value
            && a1.result.value.url == ResolveUrl(urls, "1")
            && a3.result.value.url == urls["default"]
  {
    assert Decimal.IntToString(1) == "1";
    var a1 := GetProvider(EmptyCache, urls, Str("1"), None);
    assert Valid(a1.cache, urls);
    DistinctKeysDistinctProviders(a1.cache, urls, Num(1), Undefined, None, None);
  }
}
