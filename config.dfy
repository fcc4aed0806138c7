/**
 * The bot's fixed configuration: the chains it polls (in declaration order),
 * the known DEX router addresses, the token block-list and the price
 * provider's platform identifiers.
 */
module Config {

  /** A polled network: its key in `CHAINS` and its display name. */
  datatype Chain = Chain(key: string, name: string)

  /** `CHAINS`, in the order `Object.entries` yields them. */
  const Chains: seq<Chain> := [
    Chain("eth", "Ethereum"),
    Chain("arb", "Arbitrum"),
    Chain("polygon", "Polygon"),
    Chain("bsc", "BSC")
  ]

  /** `DEX_ROUTER_ADDRESSES`, lower-case. */
  const DexRouters: set<string> := {
    "0x5c69bee701ef814a2b6a3edd4b1652cb9cc5aa6f",
    "0xe592427a0aece92de3edee1f18e0157c05861564",
    "0x10ed43c718714eb63d5aa57b78b54704e256024e",
    "0xcde540d7eafe93ac5fe6233bee57e1270d3e330f"
  }

  /** `BLACKLIST`: stablecoins, wrapped and staked assets, two meme tokens; lower-case. */
  const Blacklist: set<string> := {
    "0xaf88d065e77c8cc2239327c5edb3a432268e5831", // USDC.e
    "0xfd086bc7cd5c481dcc9c85ebe478a1c0b69fcbb9", // USDT
    "0x82af49447d8a07e3bd95bd0d56f35241523fbab1", // WETH Arbitrum
    "0xc02aaa39b223fe8d0a0e5c4f27ead9083c756cc2", // WETH Mainnet
    "0x6b175474e89094c44da98b954eedeac495271d0f", // DAI
    "0x2260fac5e5542a773aa44fbcfedf7c193bc2c599", // WBTC
    "0xae7ab96520de3a18e5e111b5eaab095312d7fe84", // stETH
    "0x7f39c581f595b53c5cb5afef0c4b921e9d88207c", // wstETH
    "0xae78736cd615f374d3085123a210448e74fc6393", // rETH
    "0x853d955acef822db058eb8505911ed77f175b99e", // FRAX
    "0x5f98805a4e8be255a32880fdec7f6728c6568ba0", // LUSD
    "0x6982508145454ce325ddbe47a25d4ec3d2311933", // PEPE
    "0xc36442b4a4522e871399cd717abdd847ab11fe88"  // SPX
  }

  /** `COINGECKO_CHAIN_ID_MAP`: chain display name to the price provider's platform identifier. */
  const PlatformIds: map<string, string> := map[
    "Ethereum" := "ethereum",
    "Arbitrum" := "arbitrum-one",
    "Polygon" := "polygon-pos",
    "BSC" := "binance-smart-chain"
  ]

  const FallbackPlatform: string := "ethereum"

  /** The platform identifier for a chain name, falling back to "ethereum" for an unmapped name. */
  function PlatformId(chainName: string): (p: string)
    ensures chainName in PlatformIds ==> p == PlatformIds[chainName]
    ensures chainName !in PlatformIds ==> p == FallbackPlatform
    ensures p in PlatformIds.Values
  {
    if chainName in PlatformIds then PlatformIds[chainName]
    else
      assert PlatformIds["Ethereum"] == FallbackPlatform;
      FallbackPlatform
  }

  /** Every polled chain has its own platform identifier, and the four are distinct. */
  lemma ChainPlatforms()
    ensures forall i :: 0 <= i < |Chains| ==> Chains[i].name in PlatformIds
    ensures forall i, j :: 0 <= i < j < |Chains| ==> PlatformId(Chains[i].name) != PlatformId(Chains[j].name)
  {
  }

  /** The chains are polled in the order eth, arb, polygon, bsc. */
  lemma ChainOrder()
    ensures |Chains| == 4
    ensures Chains[0].key == "eth" && Chains[1].key == "arb"
    ensures Chains[2].key == "polygon" && Chains[3].key == "bsc"
  {
  }
}
