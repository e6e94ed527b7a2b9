/**
 * The networks the application knows (blockchain/config.ts), reduced to what
 * wallet connection reads: the chain id, the network's name and its RPC url.
 */
module Networks {

  datatype NetworkConfig = NetworkConfig(id: int, name: string, infuraUrl: string)

  /** The chain ids of main, kovan, hardhat, velas and velastestnet. */
  const SupportedChainIds: set<int> := {1, 42, 2137, 106, 111}

  const DappName: string := "Oasis"

  /** Milliseconds between polls of the RPC endpoint. */
  const PollingInterval: nat := 12000

  /**
   * networksById; the Infura project id is read from the environment by the
   * application and is a parameter here.
   */
  function NetworksById(infuraProjectId: string): (m: map<int, NetworkConfig>)
    ensures m.Keys == SupportedChainIds
    ensures forall id :: id in m ==> m[id].id == id && m[id].infuraUrl != ""
  {
    map[
      1 := NetworkConfig(1, "main", "https://mainnet.infura.io/v3/" + infuraProjectId),
      106 := NetworkConfig(106, "velas", "https://evmexplorer.velas.com/rpc"),
      111 := NetworkConfig(111, "velastestnet", "https://evmexplorer.testnet.velas.com/rpc"),
      42 := NetworkConfig(42, "kovan", "https://kovan.infura.io/v3/" + infuraProjectId),
      2137 := NetworkConfig(2137, "hardhat", "http://localhost:8545")
    ]
  }

  /** The RPC url of every known network, keyed by chain id. */
  function RpcUrls(infuraProjectId: string): (m: map<int, string>)
    ensures m.Keys == SupportedChainIds
    ensures forall id :: id in m ==> m[id] != ""
  {
    var networks := NetworksById(infuraProjectId);
    map id | id in networks :: networks[id].infuraUrl
  }
}
