/** Records the indexer persists, and the message shape that the updater and
    its mint rules read back from the store. updater.rs and mint.rs are written
    against an earlier shape of the message than message.rs: a single
    `tx_type` that is a transfer, a contract creation or a contract call. */
module Records {
  import opened Wrappers
  import opened Chain

  /** An asset is named by the text of the BlockTx that created it. */
  type AssetId = string

  /** `AssetList.list`: amount held per asset. */
  type AssetList = map<AssetId, nat>

  /** Free-mint terms of an asset contract. */
  datatype AssetContractFreeMint = AssetContractFreeMint(supplyCap: Option<nat>, amountPerMint: nat, liveTime: nat)

  /** Where a purchase/burn/swap mint expects the paid input to go. */
  datatype TransferScheme = PurchaseScheme(address: string) | BurnScheme

  /** The oracle setting of an oracle-priced mint. */
  datatype MintOracleSetting = MintOracleSetting(assetId: Option<string>)

  /** How the minted amount follows from the amount received. */
  datatype TransferRatioType = Fixed(ratio: Fraction) | Oracle(pubkey: seq<byte>, setting: MintOracleSetting)

  datatype AssetContractPurchaseBurnSwap =
    AssetContractPurchaseBurnSwap(inputAsset: InputAsset, transferScheme: TransferScheme, transferRatioType: TransferRatioType)

  datatype AssetContract =
    | FreeMint(freeMint: AssetContractFreeMint)
    | PurchaseBurnSwap(pbs: AssetContractPurchaseBurnSwap)
    | Preallocated

  datatype TxContractType = Asset(asset: AssetContract)

  /** The oracle's signed valuation, as mint.rs reads it. */
  datatype MintOracleMessage = MintOracleMessage(inputOutpoint: Outpoint, minInValue: nat, outValue: nat, assetId: Option<string>)

  datatype MintOracleMessageSigned = MintOracleMessageSigned(signature: seq<byte>, message: MintOracleMessage)

  datatype MintOption = MintOption(pointer: nat, oracleMessage: Option<MintOracleMessageSigned>)

  datatype TxCallType = MintCall(option: MintOption) | BurnCall | SwapCall

  datatype TxType =
    | TransferTx(transfers: seq<TxTypeTransfer>)
    | ContractCreationTx(contractType: TxContractType)
    | ContractCallTx(contract: BlockTx, callType: TxCallType)

  datatype TxTypeMessage = TxTypeMessage(txType: TxType)

  /** What `index` records for every transaction it looks at. */
  datatype MessageDataOutcome = MessageDataOutcome(message: Option<TxTypeMessage>, flaw: Option<Flaw>)

  /** `AssetContractDataFreeMint`: how many free mints have happened. */
  datatype FreeMintData = FreeMintData(minted: nat)

  /** Per-contract mint state, as mint.rs reads it. */
  datatype AssetContractData = FreeMintRecord(freeMint: FreeMintData)

  const DEFAULT_CONTRACT_DATA: AssetContractData := FreeMintRecord(FreeMintData(0))

  /** A collateral pool: amount per pooled asset and the supply of pool shares. */
  datatype CollateralizedAssetData = CollateralizedAssetData(amounts: map<AssetId, nat>, totalSupply: nat)

  /** A collateral account as burn.rs updates it: the oracle overwrites its
      loan-to-value and outstanding amount; its other terms are kept as given. */
  datatype CollateralAccount = CollateralAccount(ltv: Fraction, amountOutstanding: nat, terms: string)
}
