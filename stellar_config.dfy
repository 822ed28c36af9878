/**
 * Network endpoint tables and explorer links (frontend/src/config/stellar.ts).
 * The module-level `CURRENT_NETWORK` is computed from the build-time variable
 * `VITE_STELLAR_NETWORK`; here that variable is a parameter.
 */
module StellarConfig {
  import opened Common

  datatype Network = Testnet | Public

  /** One row of `STELLAR_CONFIG`. */
  datatype NetworkConfig = NetworkConfig(
    horizonUrl: string,
    sorobanRpcUrl: string,
    networkPassphrase: string,
    explorerBase: string)

  const TestnetConfig: NetworkConfig := NetworkConfig(
    "https://horizon-testnet.stellar.org",
    "https://soroban-testnet.stellar.org",
    "Test SDF Network ; September 2015",
    "https://stellar.expert/explorer/testnet")

  const PublicConfig: NetworkConfig := NetworkConfig(
    "https://horizon.stellar.org",
    "https://soroban-mainnet.stellar.org",
    "Public Global Stellar Network ; September 2015",
    "https://stellar.expert/explorer/public")

  /** `STELLAR_CONFIG[network]`. */
  function Config(n: Network): NetworkConfig {
    match n
    case Testnet => TestnetConfig
    case Public => PublicConfig
  }

  /**
   * `CURRENT_NETWORK`: PUBLIC only for the exact, case-sensitive value
   * "PUBLIC"; anything else, including an unset variable, selects TESTNET.
   */
  function CurrentNetwork(viteStellarNetwork: Option<string>): (n: Network)
    ensures n == Public <==> viteStellarNetwork == Some("PUBLIC")
  {
    if viteStellarNetwork == Some("PUBLIC") then Public else Testnet
  }

  /** `STELLAR_EXPLORER.BASE`. */
  function ExplorerBase(n: Network): string {
    Config(n).explorerBase
  }

  /** `getTxUrl(txHash)`: `STELLAR_EXPLORER.TX + '/' + txHash`. */
  function TxUrl(n: Network, txHash: string): (url: string)
    ensures url == ExplorerBase(n) + "/tx/" + txHash
    ensures url[..|ExplorerBase(n)|] == ExplorerBase(n) && url[|url| - |txHash|..] == txHash
  {
    (ExplorerBase(n) + "/tx") + "/" + txHash
  }

  /** `getAccountUrl(address)`. */
  function AccountUrl(n: Network, address: string): (url: string)
    ensures url == ExplorerBase(n) + "/account/" + address
  {
    (ExplorerBase(n) + "/account") + "/" + address
  }

  /** `getContractUrl(contractId)`. */
  function ContractUrl(n: Network, contractId: string): (url: string)
    ensures url == ExplorerBase(n) + "/contract/" + contractId
  {
    (ExplorerBase(n) + "/contract") + "/" + contractId
  }

  /** `getNetworkConfig()`. */
  function GetNetworkConfig(viteStellarNetwork: Option<string>): (c: NetworkConfig)
    ensures viteStellarNetwork == Some("PUBLIC") ==> c == PublicConfig
    ensures viteStellarNetwork != Some("PUBLIC") ==> c == TestnetConfig
  {
    Config(CurrentNetwork(viteStellarNetwork))
  }

  /** The explorer link of a transaction is never empty and recovers the hash it was built from. */
  lemma TxUrlInjective(n: Network, h1: string, h2: string)
    ensures TxUrl(n, h1) != []
    ensures TxUrl(n, h1) == TxUrl(n, h2) ==> h1 == h2
  {
    if TxUrl(n, h1) == TxUrl(n, h2) {
      var p := ExplorerBase(n) + "/tx/";
      assert h1 == TxUrl(n, h1)[|p|..];
      assert h2 == TxUrl(n, h2)[|p|..];
    }
  }

  /** The two networks have different explorer bases, so the same hash links differently. */
  lemma TxUrlSeparatesNetworks(h: string)
    ensures TxUrl(Testnet, h) != TxUrl(Public, h)
  {
    assert ExplorerBase(Testnet)[32] == 't' && TxUrl(Testnet, h)[32] == 't';
    assert ExplorerBase(Public)[32] == 'p' && TxUrl(Public, h)[32] == 'p';
  }

  /** Transaction, account and contract links never coincide on one network. */
  lemma LinkKindsDistinct(n: Network, a: string, b: string)
    ensures TxUrl(n, a) != AccountUrl(n, b)
    ensures TxUrl(n, a) != ContractUrl(n, b)
    ensures AccountUrl(n, a) != ContractUrl(n, b)
  {
    var k := |ExplorerBase(n)| + 1;
    assert TxUrl(n, a)[k] == 't';
    assert AccountUrl(n, b)[k] == 'a';
    assert AccountUrl(n, a)[k] == 'a';
    assert ContractUrl(n, b)[k] == 'c';
  }
}
