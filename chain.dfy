/** Chain-level values the indexer reads: block/transaction references,
    outpoints, already-decoded output scripts, transactions, and the flaws
    the rules report. */
module Chain {
  import opened Wrappers
  import opened Text

  type byte = x: int | 0 <= x < 256

  /** The reasons a message is flawed. The last variant stands for flaws that
      are raised only inside helpers outside this model. */
  datatype Flaw =
    | OutputOverflow(positions: seq<nat>)
    | ReferencingFlawedBlockTx
    | FailedDeserialization
    | MessageInvalid
    | ContractNotFound
    | AssetContractDataNotFound
    | LiveTimeNotReached
    | SupplyCapExceeded
    | PointerOverflow
    | OracleMintFailed
    | NotImplemented
    | ContractNotMatch
    | InsufficientInputAmount
    | InsufficientOutputAmount
    | PoolNotFound
    | CollateralAccountNotFound
    | LtvMustBeUpdated
    | OutstandingMustBeUpdated
    | BurnValueIncorrect
    | OutValueNotFound
    | PointerKeyNotFound
    | InvalidContractType
    | InvalidInstruction(opcode: nat)
    | InvalidScript
    | NonGlittrMessage
    | OtherFlaw(name: string)

  /** `BlockTxTuple`: a (block height, transaction index) pair naming a message. */
  datatype BlockTx = BlockTx(block: nat, tx: nat)

  /** `BlockTx::to_string`: "block:tx". */
  function BlockTxKey(b: BlockTx): string {
    Decimal(b.block) + ":" + Decimal(b.tx)
  }

  datatype Outpoint = Outpoint(txid: string, vout: nat)

  /** `Outpoint::to_string`: "txid:vout". */
  function OutpointKey(o: Outpoint): string {
    o.txid + ":" + Decimal(o.vout)
  }

  /** Outpoints of one transaction have distinct keys. */
  lemma OutpointKeyInjective(txid: string, v: nat, w: nat)
    requires OutpointKey(Outpoint(txid, v)) == OutpointKey(Outpoint(txid, w))
    ensures v == w
  {
    CancelHead(txid + ":", Decimal(v), Decimal(w));
    DecimalInjective(v, w);
  }

  /** One decoded script instruction: an opcode, a data push, or a decoding error. */
  datatype ScriptItem = Op(code: nat) | Push(data: seq<byte>) | Undecodable

  const OP_RETURN: nat := 0x6a

  datatype TxOut = TxOut(value: nat, script: seq<ScriptItem>)

  /** A transaction: its id (computed elsewhere), the outpoints it spends, its outputs. */
  datatype Tx = Tx(txid: string, inputs: seq<Outpoint>, outputs: seq<TxOut>)

  /** The output's first instruction is OP_RETURN. */
  predicate IsOpReturn(out: TxOut) {
    |out.script| > 0 && out.script[0] == Op(OP_RETURN)
  }

  /** `r` is the position of the first output not starting with OP_RETURN,
      or None when every output starts with it. */
  predicate IsFirstNonOpReturn(outs: seq<TxOut>, r: Option<nat>)
  {
    match r
    case None => forall j :: 0 <= j < |outs| ==> IsOpReturn(outs[j])
    case Some(i) => i < |outs| && !IsOpReturn(outs[i]) && forall j :: 0 <= j < i ==> IsOpReturn(outs[j])
  }

  /** Where an asset paid into a contract comes from. */
  datatype InputAsset = RawBtc | GlittrAsset(id: BlockTx) | Metaprotocol

  /** One transfer instruction: move up to `amount` of `asset` to output `output`. */
  datatype TxTypeTransfer = TxTypeTransfer(asset: BlockTx, output: nat, amount: nat)

  /** A numerator/denominator pair. */
  datatype Fraction = Fraction(num: nat, den: nat)
}
