/** `Updater::index` of src/updater.rs: one transaction's message run against
    the ledger, and its outcome recorded in the store. */
module Indexing {
  import opened Wrappers
  import opened Text
  import opened Chain
  import opened Records
  import opened Store
  import opened Ledger
  import opened Mint

  /** The contract creation branch of `index`: a purchase contract whose input
      is a Glittr asset has that asset's message looked up, which panics when
      the message is missing; its verdict is not used, so the branch reports
      no flaw. */
  function CreationEffect(entries: map<string, Raw>, ct: TxContractType): (r: Exit<Option<Flaw>>)
    ensures r == Return(None) || r == Panic
    ensures r.Panic? <==> (ct.asset.PurchaseBurnSwap? && ct.asset.pbs.inputAsset.GlittrAsset? &&
      MessageTxTypeAt(entries, ct.asset.pbs.inputAsset.id).Panic?)
  {
    match ct.asset
    case PurchaseBurnSwap(pbs) =>
      if pbs.inputAsset.GlittrAsset? && MessageTxTypeAt(entries, pbs.inputAsset.id).Panic? then Panic
      else Return(None)
    case _ => Return(None)
  }

  /** The dispatch of a valid message: transfers move allocations, a mint call
      runs `mint`, the other calls and contract creations report no flaw. */
  function DispatchEffect(s: LedgerState, entries: map<string, Raw>, readOnly: bool, tx: Tx, block: BlockTx,
                          txType: TxType, hooks: MintHooks): Exit<(Option<Flaw>, LedgerState, map<string, Raw>)>
  {
    match txType
    case TransferTx(ts) => Return((TransfersFlaw(ts, |tx.outputs|), ApplyTransfers(s, ts, |tx.outputs|), entries))
    case ContractCreationTx(ct) =>
      (match CreationEffect(entries, ct)
       case Panic => Panic
       case Return(f) => Return((f, s, entries)))
    case ContractCallTx(contract, MintCall(option)) =>
      (match MintEffect(entries, readOnly, tx, block, contract, option, hooks)
       case (Panic, _) => Panic
       case (Return(f), e) => Return((f, s, e)))
    case ContractCallTx(_, _) => Return((None, s, entries))
  }

  /** The store key of the outcome recorded for `block`. */
  function OutcomeKey(block: BlockTx): string {
    ComposeKey(MESSAGE_PREFIX, BlockTxKey(block))
  }

  /** The store key of the transaction-id index entry for `txid`. */
  function TxIndexKey(txid: string): string {
    ComposeKey(TRANSACTION_TO_BLOCK_TX_PREFIX, txid)
  }

  /** The outcome of `index` before it is recorded: a parse flaw with no
      message; otherwise the message with the flaw of its validation or, when
      it validates, the flaw of its dispatch. */
  function Run(s: LedgerState, entries: map<string, Raw>, readOnly: bool, tx: Tx, block: BlockTx,
               messageResult: Result<TxTypeMessage, Flaw>, validate: TxTypeMessage -> Option<Flaw>,
               hooks: MintHooks): Exit<(MessageDataOutcome, LedgerState, map<string, Raw>)>
  {
    match messageResult
    case Failure(f) => Return((MessageDataOutcome(None, Some(f)), s, entries))
    case Success(m) =>
      match validate(m)
      case Some(f) => Return((MessageDataOutcome(Some(m), Some(f)), s, entries))
      case None =>
        match DispatchEffect(s, entries, readOnly, tx, block, m.txType, hooks)
        case Panic => Panic
        case Return((f, s', e)) => Return((MessageDataOutcome(Some(m), f), s', e))
  }

  /** `index`: the outcome of the run, recorded under the transaction's
      BlockTx together with the txid's BlockTx, unless read-only. */
  function IndexEffect(s: LedgerState, entries: map<string, Raw>, readOnly: bool, blockHeight: nat, txIndex: nat, tx: Tx,
                       messageResult: Result<TxTypeMessage, Flaw>, validate: TxTypeMessage -> Option<Flaw>,
                       hooks: MintHooks): Exit<(MessageDataOutcome, LedgerState, map<string, Raw>)>
  {
    var block := BlockTx(blockHeight, txIndex);
    match Run(s, entries, readOnly, tx, block, messageResult, validate, hooks)
    case Panic => Panic
    case Return((o, s', e)) =>
      if readOnly then Return((o, s', e))
      else Return((o, s', e[OutcomeKey(block) := Json(OutcomeValue(o))][TxIndexKey(tx.txid) := Json(BlockTxValue(block))]))
  }

  /** The two keys `index` writes never coincide. */
  lemma OutcomeAndTxIndexKeysDiffer(block: BlockTx, txid: string)
    ensures OutcomeKey(block) != TxIndexKey(txid)
  {
    assert OutcomeKey(block)[0] == 'm';
    assert TxIndexKey(txid)[0] == 't';
  }

  /** A message that failed to parse is recorded with no message and the
      parse flaw, and leaves the ledger as it was. */
  lemma IndexParseFailure(s: LedgerState, entries: map<string, Raw>, readOnly: bool, blockHeight: nat, txIndex: nat, tx: Tx,
                          f: Flaw, validate: TxTypeMessage -> Option<Flaw>, hooks: MintHooks)
    ensures var r := IndexEffect(s, entries, readOnly, blockHeight, txIndex, tx, Failure(f), validate, hooks);
      r.Return? && r.value.0 == MessageDataOutcome(None, Some(f)) && r.value.1 == s &&
      (readOnly ==> r.value.2 == entries)
  {
  }

  /** Unless read-only, what `index` records is what `get_message` then reads
      back for that BlockTx (the flaw, or the message when there is none), and
      the txid maps to the BlockTx. */
  lemma IndexRecordsOutcome(s: LedgerState, entries: map<string, Raw>, blockHeight: nat, txIndex: nat, tx: Tx,
                            messageResult: Result<TxTypeMessage, Flaw>, validate: TxTypeMessage -> Option<Flaw>,
                            hooks: MintHooks)
    requires IndexEffect(s, entries, false, blockHeight, txIndex, tx, messageResult, validate, hooks).Return?
    ensures var r := IndexEffect(s, entries, false, blockHeight, txIndex, tx, messageResult, validate, hooks).value;
      var block := BlockTx(blockHeight, txIndex);
      (r.0.flaw.Some? ==> MessageAt(r.2, block) == Failure(r.0.flaw.value)) &&
      (r.0.flaw.None? ==> r.0.message.Some? && MessageAt(r.2, block) == Success(r.0.message.value)) &&
      Lookup(r.2, TxIndexKey(tx.txid), BlockTxKind) == Success(BlockTxValue(block))
  {
    var block := BlockTx(blockHeight, txIndex);
    OutcomeAndTxIndexKeysDiffer(block, tx.txid);
    var r := IndexEffect(s, entries, false, blockHeight, txIndex, tx, messageResult, validate, hooks).value;
    assert r.2[OutcomeKey(block)] == Json(OutcomeValue(r.0));
  }

  /** A read-only `index` writes nothing: no outcome, and no mint write. */
  lemma IndexReadOnlyRecordsNothing(s: LedgerState, entries: map<string, Raw>, blockHeight: nat, txIndex: nat, tx: Tx,
                                    messageResult: Result<TxTypeMessage, Flaw>, validate: TxTypeMessage -> Option<Flaw>,
                                    hooks: MintHooks)
    ensures var r := IndexEffect(s, entries, true, blockHeight, txIndex, tx, messageResult, validate, hooks);
      var run := Run(s, entries, true, tx, BlockTx(blockHeight, txIndex), messageResult, validate, hooks);
      r.Return? <==> run.Return?
    ensures var r := IndexEffect(s, entries, true, blockHeight, txIndex, tx, messageResult, validate, hooks);
      r.Return? ==> r.value.2 == entries
  {
    if messageResult.Success? && messageResult.value.txType.ContractCallTx? &&
       messageResult.value.txType.callType.MintCall? {
      var t := messageResult.value.txType;
      MintReadOnlyWritesNothing(entries, tx, BlockTx(blockHeight, txIndex), t.contract, t.callType.option, hooks);
    }
  }

  /** The contract creation branch of `index`. */
  method ProcessCreation(u: Updater, ct: TxContractType) returns (r: Exit<Option<Flaw>>)
    ensures r == CreationEffect(u.database.entries, ct)
  {
    if ct.asset.PurchaseBurnSwap? && ct.asset.pbs.inputAsset.GlittrAsset? {
      var txType := u.GetMessageTxType(ct.asset.pbs.inputAsset.id);
      if txType.Panic? {
        return Panic;
      }
    }
    r := Return(None);
  }

  /** `index` */
  method Index(u: Updater, blockHeight: nat, txIndex: nat, tx: Tx, messageResult: Result<TxTypeMessage, Flaw>,
               validate: TxTypeMessage -> Option<Flaw>, hooks: MintHooks) returns (r: Exit<MessageDataOutcome>)
    modifies u, u.database
    ensures var e := IndexEffect(old(u.State()), old(u.database.entries), u.isReadOnly, blockHeight, txIndex, tx,
                                 messageResult, validate, hooks);
      (r.Panic? <==> e.Panic?) &&
      (e.Return? ==> r == Return(e.value.0) && u.State() == e.value.1 && u.database.entries == e.value.2)
  {
    var block := BlockTx(blockHeight, txIndex);
    var outcome := MessageDataOutcome(None, None);
    if messageResult.Success? {
      var message := messageResult.value;
      outcome := outcome.(message := Some(message));
      var invalid := validate(message);
      if invalid.Some? {
        outcome := outcome.(flaw := invalid);
      } else {
        var flaw: Option<Flaw>;
        match message.txType {
          case TransferTx(ts) =>
            flaw := u.Transfers(tx, ts);
          case ContractCreationTx(ct) =>
            var created := ProcessCreation(u, ct);
            if created.Panic? {
              return Panic;
            }
            flaw := created.value;
          case ContractCallTx(contract, callType) =>
            if callType.MintCall? {
              var minted := CallMint(u, tx, block, contract, callType.option, hooks);
              if minted.Panic? {
                return Panic;
              }
              flaw := minted.value;
            } else {
              flaw := None;
            }
        }
        outcome := outcome.(flaw := flaw);
      }
    } else {
      outcome := outcome.(flaw := Some(messageResult.error));
    }
    if !u.isReadOnly {
      u.database.Put(MESSAGE_PREFIX, BlockTxKey(block), OutcomeValue(outcome));
      u.database.Put(TRANSACTION_TO_BLOCK_TX_PREFIX, tx.txid, BlockTxValue(block));
    }
    r := Return(outcome);
  }
}
