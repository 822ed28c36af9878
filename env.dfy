/**
 * Build-time configuration (frontend/src/env.ts): normalisation of the raw
 * `VITE_*` variables into an `AppEnv`, memoised in a module-level cache, and
 * the list of missing settings reported by `validateEnv`.
 */
module Env {
  import opened Common
  import opened Text
  import StellarConfig

  /** The raw `import.meta.env` variables; `None` is an unset variable. */
  datatype RawEnv = RawEnv(
    contractId: Option<string>,      // VITE_CONTRACT_ID
    sorobanRpcUrl: Option<string>,   // VITE_SOROBAN_RPC_URL
    stellarNetwork: Option<string>,  // VITE_STELLAR_NETWORK
    horizonUrl: Option<string>,      // VITE_HORIZON_URL
    network: Option<string>,         // VITE_NETWORK
    txTimeoutSecs: Option<string>)   // VITE_TX_TIMEOUT_SECS

  /** The normalised configuration `AppEnv`. */
  datatype AppEnv = AppEnv(
    contractId: string,
    sorobanRpcUrl: string,
    stellarNetwork: StellarConfig.Network,
    horizonUrl: string,
    txTimeoutSecs: int)

  const DefaultRpcUrl: string := "https://soroban-testnet.stellar.org"
  const PublicHorizonUrl: string := "https://horizon.stellar.org"
  const TestnetHorizonUrl: string := "https://horizon-testnet.stellar.org"
  const DefaultTimeoutSecs: int := 120
  const MinTimeoutSecs: int := 30
  const MaxTimeoutSecs: int := 300

  // ------------------------------------------------------------ parseInt

  /** The longest prefix of `s` made of decimal digits. */
  function LeadingDigits(s: string): (d: string)
    ensures |d| <= |s| && d == s[..|d|]
    ensures forall i :: 0 <= i < |d| ==> IsDigit(d[i])
    ensures |d| == |s| || !IsDigit(s[|d|])
  {
    if s != [] && IsDigit(s[0]) then [s[0]] + LeadingDigits(s[1..]) else []
  }

  /**
   * `parseInt(s, 10)`: leading white space is skipped, one optional sign is
   * read, then as many decimal digits as follow; with no digit the result is
   * NaN, here `None`.
   */
  function ParseInt(s: string): (r: Option<int>)
    ensures r.None? <==> LeadingDigits(UnsignedPart(TrimStart(s))) == []
  {
    var t := TrimStart(s);
    var d := LeadingDigits(UnsignedPart(t));
    if d == [] then None
    else
      var v: int := DigitsValue(d);
      if t[0] == '-' then Some(-v) else Some(v)
  }

  /** What follows an optional leading `+` or `-`. */
  function UnsignedPart(t: string): (u: string)
    ensures t != [] && (t[0] == '+' || t[0] == '-') ==> u == t[1..]
    ensures !(t != [] && (t[0] == '+' || t[0] == '-')) ==> u == t
  {
    if t != [] && (t[0] == '+' || t[0] == '-') then t[1..] else t
  }

  /** `parseInt` reads back the decimal form of every natural number. */
  lemma ParseIntRoundTrip(n: nat)
    ensures ParseInt(NatToString(n)) == Some(n)
  {
    var s := NatToString(n);
    assert TrimStart(s) == s;
    assert UnsignedPart(s) == s;
    AllDigitsLeading(s);
    NatToStringRoundTrip(n);
  }

  lemma {:induction false} AllDigitsLeading(s: string)
    requires forall i :: 0 <= i < |s| ==> IsDigit(s[i])
    ensures LeadingDigits(s) == s
  {
    if s != [] {
      AllDigitsLeading(s[1..]);
    }
  }

  // ------------------------------------------------------------ getEnv rules

  /** `VITE_STELLAR_NETWORK ?? VITE_NETWORK ?? 'TESTNET'` (`??` skips only unset values). */
  function NetworkInput(raw: RawEnv): (s: string)
    ensures raw.stellarNetwork.Some? ==> s == raw.stellarNetwork.value
    ensures raw.stellarNetwork.None? && raw.network.Some? ==> s == raw.network.value
    ensures raw.stellarNetwork.None? && raw.network.None? ==> s == "TESTNET"
  {
    raw.stellarNetwork.GetOr(raw.network.GetOr("TESTNET"))
  }

  /** The network rule of getEnv: trimmed, upper-cased `PUBLIC` or `PUBNET` selects PUBLIC. */
  function NormaliseNetwork(input: string): (n: StellarConfig.Network)
    ensures n == StellarConfig.Public <==> ToUpper(Trim(input)) in {"PUBLIC", "PUBNET"}
  {
    var net := ToUpper(Trim(input));
    if net == "PUBLIC" || net == "PUBNET" then StellarConfig.Public else StellarConfig.Testnet
  }

  /** The timeout rule of getEnv: a parsed value in [30, 300] is kept, anything else becomes 120. */
  function TimeoutSecs(raw: Option<string>): (t: int)
    ensures MinTimeoutSecs <= t <= MaxTimeoutSecs
    ensures ParseInt(raw.GetOr("120")).Some? && MinTimeoutSecs <= ParseInt(raw.GetOr("120")).value <= MaxTimeoutSecs
            ==> t == ParseInt(raw.GetOr("120")).value
    ensures !(ParseInt(raw.GetOr("120")).Some? && MinTimeoutSecs <= ParseInt(raw.GetOr("120")).value <= MaxTimeoutSecs)
            ==> t == DefaultTimeoutSecs
  {
    var parsed := ParseInt(raw.GetOr("120"));
    if parsed.None? || parsed.value < MinTimeoutSecs || parsed.value > MaxTimeoutSecs then DefaultTimeoutSecs
    else parsed.value
  }

  /** An in-range timeout written in decimal is used as is; an unset one gives the default 120. */
  lemma TimeoutSecsReadsDecimal(n: nat)
    requires MinTimeoutSecs <= n <= MaxTimeoutSecs
    ensures TimeoutSecs(Some(NatToString(n))) == n
  {
    ParseIntRoundTrip(n);
  }

  /** An unset timeout reads the raw default `'120'` and keeps it. */
  lemma TimeoutSecsDefault()
    ensures TimeoutSecs(None) == DefaultTimeoutSecs
  {
    var s := "120";
    assert TrimStart(s) == s && UnsignedPart(s) == s;
    AllDigitsLeading(s);
    assert s[..2] == "12" && s[..2][..1] == "1";
    assert DigitsValue("1") == 1;
    assert DigitsValue("12") == 12;
    assert DigitsValue(s) == 120;
  }

  /** The default URLs have no surrounding white space, so trimming keeps them. */
  lemma TrimUrl(url: string)
    requires url in {DefaultRpcUrl, PublicHorizonUrl, TestnetHorizonUrl}
    ensures Trim(url) == url
  {
    assert url[0] == 'h' && url[|url| - 1] == 'g';
    TrimKeepsUnpadded(url);
  }

  /** Trimming keeps a string that neither starts nor ends with white space. */
  lemma TrimKeepsUnpadded(s: string)
    requires s != [] && !IsJsWhitespace(s[0]) && !IsJsWhitespace(s[|s| - 1])
    ensures Trim(s) == s
  {
    assert TrimStart(s) == s;
  }

  /** The body of getEnv once the cache is empty. */
  function BuildEnv(raw: RawEnv): (env: AppEnv)
    ensures env.contractId == Trim(raw.contractId.GetOr(""))
    ensures raw.sorobanRpcUrl.None? ==> env.sorobanRpcUrl == DefaultRpcUrl
    ensures raw.sorobanRpcUrl.Some? ==> env.sorobanRpcUrl == Trim(raw.sorobanRpcUrl.value)
    ensures env.stellarNetwork == NormaliseNetwork(NetworkInput(raw))
    ensures raw.horizonUrl.None? ==> env.horizonUrl == StellarConfig.Config(env.stellarNetwork).horizonUrl
    ensures raw.horizonUrl.Some? ==> env.horizonUrl == Trim(raw.horizonUrl.value)
    ensures env.txTimeoutSecs == TimeoutSecs(raw.txTimeoutSecs)
    ensures MinTimeoutSecs <= env.txTimeoutSecs <= MaxTimeoutSecs
  {
    var network := NormaliseNetwork(NetworkInput(raw));
    var defaultHorizon := if network == StellarConfig.Public then PublicHorizonUrl else TestnetHorizonUrl;
    TrimUrl(DefaultRpcUrl);
    TrimUrl(PublicHorizonUrl);
    TrimUrl(TestnetHorizonUrl);
    AppEnv(
      Trim(raw.contractId.GetOr("")),
      TrimmedOr(raw.sorobanRpcUrl, DefaultRpcUrl),
      network,
      Trim(raw.horizonUrl.GetOr(defaultHorizon)),
      TimeoutSecs(raw.txTimeoutSecs))
  }

  /** `(value ?? fallback).trim()` for a fallback that has nothing to trim. */
  function TrimmedOr(value: Option<string>, fallback: string): (r: string)
    requires Trim(fallback) == fallback
    ensures value.None? ==> r == fallback
    ensures value.Some? ==> r == Trim(value.value)
  {
    Trim(value.GetOr(fallback))
  }

  // ------------------------------------------------------------ validateEnv

  const MissingContractId: string := "VITE_CONTRACT_ID is missing"
  const MissingRpcUrl: string := "VITE_SOROBAN_RPC_URL is missing"
  const MissingHorizonUrl: string := "VITE_HORIZON_URL is missing"

  /** Where a message stands in `validateEnv`'s order: contract id, RPC URL, Horizon URL. */
  function MessageRank(message: string): nat {
    if message == MissingContractId then 0
    else if message == MissingRpcUrl then 1
    else if message == MissingHorizonUrl then 2
    else 3
  }

  /** The number of empty settings among the three `validateEnv` checks. */
  function EmptySettings(env: AppEnv): nat {
    (if env.contractId == [] then 1 else 0) + (if env.sorobanRpcUrl == [] then 1 else 0)
    + (if env.horizonUrl == [] then 1 else 0)
  }

  /** The messages `validateEnv` collects: one per empty setting, each once, in a fixed order. */
  function EnvErrors(env: AppEnv): (errors: seq<string>)
    ensures MissingContractId in errors <==> env.contractId == []
    ensures MissingRpcUrl in errors <==> env.sorobanRpcUrl == []
    ensures MissingHorizonUrl in errors <==> env.horizonUrl == []
    ensures forall i :: 0 <= i < |errors| ==> MessageRank(errors[i]) < 3
    ensures forall i, j :: 0 <= i < j < |errors| ==> MessageRank(errors[i]) < MessageRank(errors[j])
    ensures |errors| == EmptySettings(env)
  {
    MissingIf(env.contractId == [], MissingContractId)
    + MissingIf(env.sorobanRpcUrl == [], MissingRpcUrl)
    + MissingIf(env.horizonUrl == [], MissingHorizonUrl)
  }

  function MissingIf(empty: bool, message: string): seq<string> {
    if empty then [message] else []
  }

  /** The pushes of `validateEnv` onto its local `errors` list. */
  method CollectMissing(env: AppEnv) returns (errors: seq<string>)
    ensures errors == EnvErrors(env)
  {
    errors := [];
    if env.contractId == [] { errors := errors + [MissingContractId]; }
    if env.sorobanRpcUrl == [] { errors := errors + [MissingRpcUrl]; }
    if env.horizonUrl == [] { errors := errors + [MissingHorizonUrl]; }
  }

  /** The module-level memo `cached` of env.ts. */
  class EnvCache {
    var cached: Option<AppEnv>

    constructor ()
      ensures cached == None
    {
      cached := None;
    }

    /** `getEnv()`: the first call builds and stores the configuration; later calls return it unchanged. */
    method GetEnv(raw: RawEnv) returns (env: AppEnv)
      modifies this
      ensures old(cached).Some? ==> env == old(cached).value && cached == old(cached)
      ensures old(cached).None? ==> env == BuildEnv(raw) && cached == Some(env)
      ensures MinTimeoutSecs <= env.txTimeoutSecs <= MaxTimeoutSecs || old(cached).Some?
    {
      if cached.Some? {
        return cached.value;
      }
      env := BuildEnv(raw);
      cached := Some(env);
    }

    /** `validateEnv()`: reads the memoised configuration and lists its empty settings. */
    method ValidateEnv(raw: RawEnv) returns (errors: seq<string>)
      modifies this
      ensures cached.Some?
      ensures old(cached).Some? ==> cached == old(cached)
      ensures old(cached).None? ==> cached == Some(BuildEnv(raw))
      ensures errors == EnvErrors(cached.value)
    {
      var env := GetEnv(raw);
      errors := CollectMissing(env);
    }
  }

  /** Two calls of getEnv with any raw inputs return the same object as the first. */
  method GetEnvTwice(raw1: RawEnv, raw2: RawEnv) returns (first: AppEnv, second: AppEnv)
    ensures first == second
    ensures first == BuildEnv(raw1)
  {
    var cache := new EnvCache();
    first := cache.GetEnv(raw1);
    second := cache.GetEnv(raw2);
  }
}
