/** The mint rules of src/updater/mint.rs: free mints, purchase/burn/swap mints,
    and the dispatch between them. They read the message that created the
    contract (in the `tx_type` shape of src/updater.rs) and write the minted
    amount into the asset list of one output of the minting transaction. */
module Mint {
  import opened Wrappers
  import opened Arith
  import opened Chain
  import opened Records
  import opened Store
  import opened Ledger

  /** The checks that mint.rs delegates to the bitcoin and secp256k1 libraries,
      as predicates: whether an address text parses, whether a script pays to
      an address (on regtest), whether a public key or a signature parses, and
      whether a signature over the oracle message verifies. */
  datatype MintHooks = MintHooks(
    addressValid: string -> bool,
    paysTo: (string, seq<ScriptItem>) -> bool,
    pubkeyValid: seq<byte> -> bool,
    signatureValid: seq<byte> -> bool,
    verifies: (seq<byte>, seq<byte>, MintOracleMessage) -> bool)

  /** `get_free_mint_data`: missing contract data is a contract that has not
      been minted yet; any other flaw is passed on. */
  function FreeMintDataOf(data: Result<AssetContractData, Flaw>): (r: Result<FreeMintData, Flaw>)
    ensures data == Failure(AssetContractDataNotFound) ==> r == Success(FreeMintData(0))
    ensures data.Failure? && data.error != AssetContractDataNotFound ==> r == Failure(data.error)
    ensures data.Success? ==> r.Success? && FreeMintRecord(r.value) == data.value
  {
    match data
    case Success(FreeMintRecord(m)) => Success(m)
    case Failure(AssetContractDataNotFound) => Success(FreeMintData(0))
    case Failure(f) => Failure(f)
  }

  /** The free-mint data of a contract nobody has minted yet. */
  const NOT_MINTED := FreeMintData(0)

  /** `get_free_mint_data` */
  method GetFreeMintData(u: Updater, contract: BlockTx) returns (r: Result<FreeMintData, Flaw>)
    ensures r == FreeMintDataOf(ContractDataAt(u.database.entries, contract))
  {
    var data := u.GetAssetContractData(contract);
    if data.Failure? {
      if data.error == AssetContractDataNotFound {
        return Success(NOT_MINTED);
      }
      return Failure(data.error);
    }
    r := Success(data.value.freeMint);
  }

  /** `update_asset_list_for_mint`, on the store: the flaw it reports and the
      entries it leaves. */
  function ListCredited(entries: map<string, Raw>, readOnly: bool, contract: BlockTx, o: Outpoint, amount: nat): (Option<Flaw>, map<string, Raw>) {
    match AssetListAt(entries, o)
    case Failure(f) => (Some(f), entries)
    case Success(l) =>
      (None, if readOnly then entries else entries[AssetListKey(o) := Json(AssetListValue(Credit(l, BlockTxKey(contract), amount)))])
  }

  /** After a successful update the outpoint's list holds `amount` more of the
      contract's asset, saturating, and every other asset of that list is as it was. */
  lemma MintCreditsOutpoint(entries: map<string, Raw>, contract: BlockTx, o: Outpoint, amount: nat)
    requires AssetListAt(entries, o).Success?
    ensures var after := ListCredited(entries, false, contract, o, amount);
      var l := AssetListAt(entries, o).value;
      after.0 == None && AssetListAt(after.1, o).Success? &&
      Amount(AssetListAt(after.1, o).value, BlockTxKey(contract)) == SatAdd128(Amount(l, BlockTxKey(contract)), amount) &&
      forall b :: b != BlockTxKey(contract) ==> Amount(AssetListAt(after.1, o).value, b) == Amount(l, b)
  {
    var l := AssetListAt(entries, o).value;
    var after := ListCredited(entries, false, contract, o, amount);
    assert after.1[AssetListKey(o)] == Json(AssetListValue(Credit(l, BlockTxKey(contract), amount)));
    assert AssetListAt(after.1, o) == Success(Credit(l, BlockTxKey(contract), amount));
  }

  /** `update_asset_list_for_mint` */
  method UpdateAssetListForMint(u: Updater, contract: BlockTx, o: Outpoint, amount: nat) returns (r: Option<Flaw>)
    modifies u.database
    ensures (r, u.database.entries) == ListCredited(old(u.database.entries), u.isReadOnly, contract, o, amount)
  {
    var got := u.GetAssetList(o);
    if got.Failure? {
      return Some(got.error);
    }
    var list := got.value;
    var key := BlockTxKey(contract);
    var previous: nat := if key in list then list[key] else 0;
    list := list[key := SatAdd128(previous, amount)];
    u.SetAssetList(o, list);
    r := None;
  }

  /** The supply a free mint would reach: minted*amount_per_mint + amount_per_mint, in saturating u32. */
  function NextSupply(minted: nat, amountPerMint: nat): nat {
    SatAdd32(SatMul32(minted, amountPerMint), amountPerMint)
  }

  /** Below the u32 maximum the saturating supply is the exact one. */
  lemma NextSupplyBelowMax(minted: nat, amountPerMint: nat)
    ensures NextSupply(minted, amountPerMint) < U32_MAX ==>
      NextSupply(minted, amountPerMint) == minted * amountPerMint + amountPerMint
  {
  }

  /** `mint_free_mint`, on the store: the checks in their order (live time,
      contract data, supply cap, pointer, the output's list), then the credit
      to output `pointer` and, last, the minted counter raised by one. */
  function FreeMintEffect(entries: map<string, Raw>, readOnly: bool, asset: AssetContractFreeMint, tx: Tx,
                          block: BlockTx, contract: BlockTx, option: MintOption): (Option<Flaw>, map<string, Raw>)
  {
    if asset.liveTime > block.block then (Some(LiveTimeNotReached), entries)
    else
      match FreeMintDataOf(ContractDataAt(entries, contract))
      case Failure(f) => (Some(f), entries)
      case Success(data) =>
        if asset.supplyCap.Some? && NextSupply(data.minted, asset.amountPerMint) > asset.supplyCap.value then
          (Some(SupplyCapExceeded), entries)
        else if option.pointer >= |tx.outputs| then (Some(PointerOverflow), entries)
        else
          var credited := ListCredited(entries, readOnly, contract, Outpoint(tx.txid, option.pointer), asset.amountPerMint);
          if credited.0.Some? then credited
          else
            var counted := FreeMintRecord(FreeMintData(SatAdd32(data.minted, 1)));
            (None, if readOnly then credited.1 else credited.1[ContractDataKey(contract) := Json(ContractDataValue(counted))])
  }

  /** The checks of a free mint come in a fixed order: a mint before its live
      time fails with LiveTimeNotReached whatever else holds; past that, an
      exceeded cap fails with SupplyCapExceeded whatever the pointer; past
      that, a pointer at or beyond the output count fails with PointerOverflow;
      past all of these, a readable list at the pointer means the mint succeeds. */
  lemma FreeMintOrder(entries: map<string, Raw>, readOnly: bool, asset: AssetContractFreeMint, tx: Tx,
                      block: BlockTx, contract: BlockTx, option: MintOption)
    ensures var r := FreeMintEffect(entries, readOnly, asset, tx, block, contract, option).0;
      var data := FreeMintDataOf(ContractDataAt(entries, contract));
      (asset.liveTime > block.block ==> r == Some(LiveTimeNotReached)) &&
      (asset.liveTime <= block.block && data.Failure? ==> r == Some(data.error)) &&
      ((asset.liveTime <= block.block && data.Success? && asset.supplyCap.Some? &&
         NextSupply(data.value.minted, asset.amountPerMint) > asset.supplyCap.value) ==> r == Some(SupplyCapExceeded)) &&
      ((asset.liveTime <= block.block && data.Success? &&
         !(asset.supplyCap.Some? && NextSupply(data.value.minted, asset.amountPerMint) > asset.supplyCap.value) &&
         option.pointer >= |tx.outputs|) ==> r == Some(PointerOverflow)) &&
      ((asset.liveTime <= block.block && data.Success? &&
         !(asset.supplyCap.Some? && NextSupply(data.value.minted, asset.amountPerMint) > asset.supplyCap.value) &&
         option.pointer < |tx.outputs| && AssetListAt(entries, Outpoint(tx.txid, option.pointer)).Success?) ==> r == None)
  {
  }

  /** A free mint that fails writes nothing: the counter is stored last. */
  lemma FreeMintFailureWritesNothing(entries: map<string, Raw>, readOnly: bool, asset: AssetContractFreeMint, tx: Tx,
                                     block: BlockTx, contract: BlockTx, option: MintOption)
    ensures var e := FreeMintEffect(entries, readOnly, asset, tx, block, contract, option);
      e.0.Some? ==> e.1 == entries
  {
  }

  /** The asset-list and contract-data keys never coincide. */
  lemma ListAndDataKeysDiffer(o: Outpoint, contract: BlockTx)
    ensures AssetListKey(o) != ContractDataKey(contract)
  {
    assert AssetListKey(o)[6] == 'l';
    assert ContractDataKey(contract)[6] == 'c';
  }

  /** A free mint that succeeds stores the counter raised by one, saturating at 2^32−1, and
      credits amount_per_mint of the contract's asset to output `pointer`. */
  lemma FreeMintSuccess(entries: map<string, Raw>, asset: AssetContractFreeMint, tx: Tx,
                        block: BlockTx, contract: BlockTx, option: MintOption)
    requires FreeMintEffect(entries, false, asset, tx, block, contract, option).0 == None
    ensures var after := FreeMintEffect(entries, false, asset, tx, block, contract, option).1;
      var o := Outpoint(tx.txid, option.pointer);
      var data := FreeMintDataOf(ContractDataAt(entries, contract));
      data.Success? && option.pointer < |tx.outputs| &&
      ContractDataAt(after, contract) == Success(FreeMintRecord(FreeMintData(SatAdd32(data.value.minted, 1)))) &&
      AssetListAt(entries, o).Success? && AssetListAt(after, o).Success? &&
      Amount(AssetListAt(after, o).value, BlockTxKey(contract)) ==
        SatAdd128(Amount(AssetListAt(entries, o).value, BlockTxKey(contract)), asset.amountPerMint) &&
      forall b :: b != BlockTxKey(contract) ==> Amount(AssetListAt(after, o).value, b) == Amount(AssetListAt(entries, o).value, b)
  {
    var o := Outpoint(tx.txid, option.pointer);
    var data := FreeMintDataOf(ContractDataAt(entries, contract)).value;
    var credited := ListCredited(entries, false, contract, o, asset.amountPerMint);
    MintCreditsOutpoint(entries, contract, o, asset.amountPerMint);
    ListAndDataKeysDiffer(o, contract);
    var counted := FreeMintRecord(FreeMintData(SatAdd32(data.minted, 1)));
    var after := credited.1[ContractDataKey(contract) := Json(ContractDataValue(counted))];
    assert AssetListAt(after, o) == AssetListAt(credited.1, o);
  }

  /** A capped free mint that succeeds keeps the minted supply, counting this
      mint, within the cap (for a cap below the u32 maximum, where the
      saturating check cannot hide an overflow). */
  lemma FreeMintRespectsCap(entries: map<string, Raw>, readOnly: bool, asset: AssetContractFreeMint, tx: Tx,
                            block: BlockTx, contract: BlockTx, option: MintOption)
    requires FreeMintEffect(entries, readOnly, asset, tx, block, contract, option).0 == None
    requires asset.supplyCap.Some? && asset.supplyCap.value < U32_MAX
    ensures var data := FreeMintDataOf(ContractDataAt(entries, contract));
      data.Success? && (data.value.minted + 1) * asset.amountPerMint <= asset.supplyCap.value
  {
    var m := FreeMintDataOf(ContractDataAt(entries, contract)).value.minted;
    var apm := asset.amountPerMint;
    var cap := asset.supplyCap.value;
    NextSupplyBelowMax(m, apm);
    assert (m + 1) * apm == m * apm + apm;
  }

  /** `mint_free_mint` */
  method MintFreeMint(u: Updater, asset: AssetContractFreeMint, tx: Tx, block: BlockTx, contract: BlockTx, option: MintOption)
    returns (r: Option<Flaw>)
    modifies u.database
    ensures (r, u.database.entries) == FreeMintEffect(old(u.database.entries), u.isReadOnly, asset, tx, block, contract, option)
  {
    if asset.liveTime > block.block {
      return Some(LiveTimeNotReached);
    }
    var got := GetFreeMintData(u, contract);
    if got.Failure? {
      return Some(got.error);
    }
    var data := got.value;
    if asset.supplyCap.Some? {
      var next := SatAdd32(SatMul32(data.minted, asset.amountPerMint), asset.amountPerMint);
      if next > asset.supplyCap.value {
        return Some(SupplyCapExceeded);
      }
    }
    data := FreeMintData(SatAdd32(data.minted, 1));
    if option.pointer >= |tx.outputs| {
      return Some(PointerOverflow);
    }
    var o := Outpoint(tx.txid, option.pointer);
    r := UpdateAssetListForMint(u, contract, o, asset.amountPerMint);
    if r.Some? {
      return;
    }
    u.SetAssetContractData(contract, FreeMintRecord(data));
  }

  /** The Glittr-asset input total as mint.rs computes it: each input whose
      list is readable overwrites the total with its amount of the asset, so
      the last readable input's amount is what counts (a missing list reads as
      empty, so as 0). */
  function GlittrInputTotal(entries: map<string, Raw>, inputs: seq<Outpoint>, id: BlockTx): nat {
    if inputs == [] then 0
    else
      match AssetListAt(entries, inputs[|inputs| - 1])
      case Success(l) => Amount(l, BlockTxKey(id))
      case Failure(_) => GlittrInputTotal(entries, inputs[..|inputs| - 1], id)
  }

  /** With no readable input list the total is 0. */
  lemma {:induction false} GlittrInputTotalNoneReadable(entries: map<string, Raw>, inputs: seq<Outpoint>, id: BlockTx)
    requires forall i :: 0 <= i < |inputs| ==> AssetListAt(entries, inputs[i]).Failure?
    ensures GlittrInputTotal(entries, inputs, id) == 0
  {
    if inputs != [] {
      var n := |inputs| - 1;
      assert AssetListAt(entries, inputs[n]).Failure?;
      GlittrInputTotalNoneReadable(entries, inputs[..n], id);
    }
  }

  /** The total is the amount held at the last input whose list is readable. */
  lemma {:induction false} GlittrInputTotalLastReadable(entries: map<string, Raw>, inputs: seq<Outpoint>, id: BlockTx, i: nat)
    requires i < |inputs| && AssetListAt(entries, inputs[i]).Success?
    requires forall j :: i < j < |inputs| ==> AssetListAt(entries, inputs[j]).Failure?
    ensures GlittrInputTotal(entries, inputs, id) == Amount(AssetListAt(entries, inputs[i]).value, BlockTxKey(id))
  {
    var n := |inputs| - 1;
    if i < n {
      var init := inputs[..n];
      assert AssetListAt(entries, inputs[n]).Failure?;
      assert init[i] == inputs[i];
      assert forall j :: i < j < |init| ==> init[j] == inputs[j];
      GlittrInputTotalLastReadable(entries, init, id, i);
    }
  }

  /** What an output at which value is received brings in: its bitcoin value
      for RawBTC, the Glittr input total for a Glittr asset, and nothing new
      for a metaprotocol asset. */
  function ReceivedAt(asset: InputAsset, out: TxOut, totalIn: nat, received: nat): nat {
    match asset
    case RawBtc => out.value
    case GlittrAsset(_) => totalIn
    case Metaprotocol => received
  }

  /** The burn-scheme scan over outputs `outs`, which start at position `pos`:
      the value received and the chosen output so far. */
  function BurnScan(outs: seq<TxOut>, pos: nat, pointer: nat, asset: InputAsset, totalIn: nat,
                    received: nat, vout: Option<nat>): (nat, Option<nat>)
    decreases |outs|
  {
    if outs == [] then (received, vout)
    else if IsOpReturn(outs[0]) then
      var rec := ReceivedAt(asset, outs[0], totalIn, received);
      if pointer != pos then (rec, Some(pointer))
      else BurnScan(outs[1..], pos + 1, pointer, asset, totalIn, rec, vout)
    else BurnScan(outs[1..], pos + 1, pointer, asset, totalIn, received, if vout.None? then Some(pos) else vout)
  }

  /** Some OP_RETURN output of `outs` (which start at position `pos`) sits at a position other than `pointer`. */
  predicate BurnsElsewhere(outs: seq<TxOut>, pos: nat, pointer: nat) {
    exists j :: 0 <= j < |outs| && IsOpReturn(outs[j]) && pos + j != pointer
  }

  /** Shifts an output position by `pos`. */
  function Shift(r: Option<nat>, pos: nat): Option<nat> {
    match r
    case None => None
    case Some(i) => Some(pos + i)
  }

  /** Some OP_RETURN output off the pointer: the head, or one in the tail. */
  lemma BurnsElsewhereStep(outs: seq<TxOut>, pos: nat, pointer: nat)
    requires outs != []
    ensures BurnsElsewhere(outs, pos, pointer) <==>
      (IsOpReturn(outs[0]) && pos != pointer) || BurnsElsewhere(outs[1..], pos + 1, pointer)
  {
    var rest := outs[1..];
    if BurnsElsewhere(outs, pos, pointer) && !(IsOpReturn(outs[0]) && pos != pointer) {
      var j :| 0 <= j < |outs| && IsOpReturn(outs[j]) && pos + j != pointer;
      assert rest[j - 1] == outs[j];
    }
    if BurnsElsewhere(rest, pos + 1, pointer) {
      var j :| 0 <= j < |rest| && IsOpReturn(rest[j]) && pos + 1 + j != pointer;
      assert outs[j + 1] == rest[j];
    }
  }

  lemma {:induction false} BurnScanVoutFrom(outs: seq<TxOut>, pos: nat, pointer: nat, asset: InputAsset, totalIn: nat,
                                           received: nat, vout: Option<nat>)
    ensures BurnScan(outs, pos, pointer, asset, totalIn, received, vout).1 ==
      if BurnsElsewhere(outs, pos, pointer) then Some(pointer)
      else if vout.Some? then vout
      else Shift(FirstNonOpReturn(outs), pos)
    decreases |outs|
  {
    if outs != [] {
      BurnsElsewhereStep(outs, pos, pointer);
      if IsOpReturn(outs[0]) {
        if pointer == pos {
          var rec := ReceivedAt(asset, outs[0], totalIn, received);
          BurnScanVoutFrom(outs[1..], pos + 1, pointer, asset, totalIn, rec, vout);
        }
      } else {
        BurnScanVoutFrom(outs[1..], pos + 1, pointer, asset, totalIn, received, if vout.None? then Some(pos) else vout);
      }
    }
  }

  /** For the burn scheme the minted amount goes to the pointer when some
      OP_RETURN output sits at another position than the pointer, and
      otherwise to the first output that is not an OP_RETURN (none when there
      is no such output). */
  lemma BurnSchemeVout(outs: seq<TxOut>, pointer: nat, asset: InputAsset, totalIn: nat)
    ensures BurnScan(outs, 0, pointer, asset, totalIn, 0, None).1 ==
      if BurnsElsewhere(outs, 0, pointer) then Some(pointer) else FirstNonOpReturn(outs)
  {
    BurnScanVoutFrom(outs, 0, pointer, asset, totalIn, 0, None);
    match FirstNonOpReturn(outs)
    case None =>
    case Some(i) => assert Shift(Some(i), 0) == Some(i);
  }

  /** The purchase-scheme scan: the last output that pays to the contract's
      address decides the value received. */
  function PurchaseReceived(outs: seq<TxOut>, address: string, asset: InputAsset, totalIn: nat, received: nat,
                            paysTo: (string, seq<ScriptItem>) -> bool): nat
    decreases |outs|
  {
    if outs == [] then received
    else
      var rec := if paysTo(address, outs[0].script) then ReceivedAt(asset, outs[0], totalIn, received) else received;
      PurchaseReceived(outs[1..], address, asset, totalIn, rec, paysTo)
  }

  /** The fixed-ratio amount: received*num/den, the product wrapping as u128
      multiplication does in a release build. */
  function FixedRatioOut(received: nat, ratio: Fraction): (r: nat)
    requires ratio.den > 0
    ensures received * ratio.num <= U128_MAX ==> r * ratio.den <= received * ratio.num < (r + 1) * ratio.den
  {
    WrapMul128(received, ratio.num) / ratio.den
  }

  /** The oracle check of a purchase/burn/swap mint: Some(out value) when the
      signed message is for the contract's asset, its signature parses and
      verifies, its input outpoint is spent by the transaction and the value
      received is not below its minimum; None when any of these fails; a panic
      when the contract's public key does not parse. */
  function OracleOut(pubkey: seq<byte>, setting: MintOracleSetting, option: MintOption, tx: Tx, received: nat,
                     hooks: MintHooks): (r: Exit<Option<nat>>)
    ensures r == Return(None) || r == Panic ||
      (option.oracleMessage.Some? && r == Return(Some(option.oracleMessage.value.message.outValue)))
    ensures (r.Return? && r.value.Some?) <==> (option.oracleMessage.Some? && (
      var om := option.oracleMessage.value;
      setting.assetId == om.message.assetId && hooks.pubkeyValid(pubkey) && hooks.signatureValid(om.signature) &&
      received >= om.message.minInValue && om.message.inputOutpoint in tx.inputs &&
      hooks.verifies(pubkey, om.signature, om.message)))
    ensures r == Panic <==> (option.oracleMessage.Some? &&
      setting.assetId == option.oracleMessage.value.message.assetId && !hooks.pubkeyValid(pubkey))
  {
    match option.oracleMessage
    case None => Return(None)
    case Some(om) =>
      if setting.assetId != om.message.assetId then Return(None)
      else if !hooks.pubkeyValid(pubkey) then Panic
      else if !hooks.signatureValid(om.signature) then Return(None)
      else if received >= om.message.minInValue && om.message.inputOutpoint in tx.inputs &&
              hooks.verifies(pubkey, om.signature, om.message) then
        Return(Some(om.message.outValue))
      else Return(None)
  }

  /** The output scan of `mint_purchase_burn_swap`: the value received and the
      output chosen, or a panic when a purchase address does not parse. */
  function PbsScan(pbs: AssetContractPurchaseBurnSwap, tx: Tx, option: MintOption, totalIn: nat,
                   hooks: MintHooks): Exit<(nat, Option<nat>)>
  {
    match pbs.transferScheme
    case BurnScheme => Return(BurnScan(tx.outputs, 0, option.pointer, pbs.inputAsset, totalIn, 0, None))
    case PurchaseScheme(address) =>
      if |tx.outputs| > 0 && !hooks.addressValid(address) then Panic
      else Return((PurchaseReceived(tx.outputs, address, pbs.inputAsset, totalIn, 0, hooks.paysTo), Some(option.pointer)))
  }

  /** The ratio step of `mint_purchase_burn_swap`: the amount to mint for the
      value received, OracleMintFailed, or a panic. */
  function PbsOut(pbs: AssetContractPurchaseBurnSwap, tx: Tx, option: MintOption, received: nat,
                  hooks: MintHooks): Exit<Result<nat, Flaw>>
  {
    match pbs.transferRatioType
    case Fixed(ratio) => if ratio.den == 0 then Panic else Return(Success(FixedRatioOut(received, ratio)))
    case Oracle(pubkey, setting) =>
      match OracleOut(pubkey, setting, option, tx, received, hooks)
      case Panic => Panic
      case Return(None) => Return(Failure(OracleMintFailed))
      case Return(Some(v)) => Return(Success(v))
  }

  /** `mint_purchase_burn_swap` up to the write: the output and amount to
      mint, a flaw, or a panic (a zero ratio denominator, an unparsable
      address or public key, or no output chosen). */
  function PbsPlan(pbs: AssetContractPurchaseBurnSwap, tx: Tx, option: MintOption, entries: map<string, Raw>,
                   hooks: MintHooks): Exit<Result<(nat, nat), Flaw>>
  {
    var totalIn := if pbs.inputAsset.GlittrAsset? then GlittrInputTotal(entries, tx.inputs, pbs.inputAsset.id) else 0;
    match PbsScan(pbs, tx, option, totalIn, hooks)
    case Panic => Panic
    case Return((received, vout)) =>
      match PbsOut(pbs, tx, option, received, hooks)
      case Panic => Panic
      case Return(Failure(f)) => Return(Failure(f))
      case Return(Success(v)) =>
        if vout.None? then Panic
        else if vout.value > |tx.outputs| then Return(Failure(PointerOverflow))
        else Return(Success((vout.value, v)))
  }

  /** `mint_purchase_burn_swap`, on the store: the outcome and the entries it leaves. */
  function PbsEffect(pbs: AssetContractPurchaseBurnSwap, tx: Tx, contract: BlockTx, option: MintOption,
                     entries: map<string, Raw>, readOnly: bool, hooks: MintHooks): (Exit<Option<Flaw>>, map<string, Raw>)
  {
    match PbsPlan(pbs, tx, option, entries, hooks)
    case Panic => (Panic, entries)
    case Return(Failure(f)) => (Return(Some(f)), entries)
    case Return(Success((vout, v))) =>
      var credited := ListCredited(entries, readOnly, contract, Outpoint(tx.txid, vout), AsU32(v));
      (Return(credited.0), credited.1)
  }

  /** The pointer check of a purchase/burn/swap mint lets through any output
      position up to and including the output count. */
  lemma PbsPointerBound(pbs: AssetContractPurchaseBurnSwap, tx: Tx, option: MintOption, entries: map<string, Raw>, hooks: MintHooks)
    ensures var p := PbsPlan(pbs, tx, option, entries, hooks);
      p.Return? && p.value.Success? ==> p.value.value.0 <= |tx.outputs|
  {
  }

  /** A burn of raw bitcoin at output 0 of a one-output transaction, pointed at
      output 1, is accepted and credits the outpoint (txid, 1), although the
      transaction has no output 1. */
  lemma PbsAcceptsPointerAtOutputCount(hooks: MintHooks, entries: map<string, Raw>)
    ensures var tx := Tx("t", [], [TxOut(5, [Op(OP_RETURN)])]);
      var pbs := AssetContractPurchaseBurnSwap(RawBtc, BurnScheme, Fixed(Fraction(1, 1)));
      PbsPlan(pbs, tx, MintOption(1, None), entries, hooks) == Return(Success((1, 5)))
  {
    var outs := [TxOut(5, [Op(OP_RETURN)])];
    assert IsOpReturn(outs[0]);
    assert BurnScan(outs, 0, 1, RawBtc, 0, 0, None) == (5, Some(1));
  }

  /** Whether `o` is spent by the transaction. */
  method InputFound(tx: Tx, o: Outpoint) returns (found: bool)
    ensures found <==> o in tx.inputs
  {
    found := false;
    var i := 0;
    while i < |tx.inputs|
      invariant 0 <= i <= |tx.inputs|
      invariant found <==> o in tx.inputs[..i]
    {
      if tx.inputs[i] == o {
        found := true;
      }
      assert tx.inputs[..i + 1] == tx.inputs[..i] + [tx.inputs[i]];
      i := i + 1;
    }
    assert tx.inputs[..i] == tx.inputs;
  }

  /** The Glittr-asset input loop of `mint_purchase_burn_swap`. */
  method ReadGlittrInputTotal(u: Updater, tx: Tx, id: BlockTx) returns (total: nat)
    ensures total == GlittrInputTotal(u.database.entries, tx.inputs, id)
  {
    total := 0;
    var i := 0;
    while i < |tx.inputs|
      invariant 0 <= i <= |tx.inputs|
      invariant total == GlittrInputTotal(u.database.entries, tx.inputs[..i], id)
    {
      var got := u.GetAssetList(tx.inputs[i]);
      assert tx.inputs[..i + 1][..i] == tx.inputs[..i];
      if got.Success? {
        var key := BlockTxKey(id);
        total := if key in got.value then got.value[key] else 0;
      }
      i := i + 1;
    }
    assert tx.inputs[..i] == tx.inputs;
  }

  /** The burn-scheme output loop of `mint_purchase_burn_swap`. */
  method ScanBurnOutputs(tx: Tx, pointer: nat, asset: InputAsset, totalIn: nat) returns (received: nat, vout: Option<nat>)
    ensures (received, vout) == BurnScan(tx.outputs, 0, pointer, asset, totalIn, 0, None)
  {
    received := 0;
    vout := None;
    var pos := 0;
    while pos < |tx.outputs|
      invariant 0 <= pos <= |tx.outputs|
      invariant BurnScan(tx.outputs, 0, pointer, asset, totalIn, 0, None) ==
        BurnScan(tx.outputs[pos..], pos, pointer, asset, totalIn, received, vout)
    {
      var out := tx.outputs[pos];
      assert tx.outputs[pos..][0] == out && tx.outputs[pos..][1..] == tx.outputs[pos + 1..];
      if |out.script| > 0 && out.script[0] == Op(OP_RETURN) {
        received := ReceivedAt(asset, out, totalIn, received);
        if pointer != pos {
          vout := Some(pointer);
          return;
        }
      } else if vout.None? {
        vout := Some(pos);
      }
      pos := pos + 1;
    }
  }

  /** The purchase-scheme output loop of `mint_purchase_burn_swap`; a panic when the address does not parse. */
  method ScanPurchaseOutputs(tx: Tx, address: string, asset: InputAsset, totalIn: nat, hooks: MintHooks)
    returns (r: Exit<nat>)
    ensures |tx.outputs| > 0 && !hooks.addressValid(address) ==> r == Panic
    ensures !(|tx.outputs| > 0 && !hooks.addressValid(address)) ==>
      r == Return(PurchaseReceived(tx.outputs, address, asset, totalIn, 0, hooks.paysTo))
  {
    var received := 0;
    var pos := 0;
    while pos < |tx.outputs|
      invariant 0 <= pos <= |tx.outputs|
      invariant pos > 0 ==> hooks.addressValid(address)
      invariant PurchaseReceived(tx.outputs, address, asset, totalIn, 0, hooks.paysTo) ==
        PurchaseReceived(tx.outputs[pos..], address, asset, totalIn, received, hooks.paysTo)
    {
      if !hooks.addressValid(address) {
        return Panic;
      }
      var out := tx.outputs[pos];
      assert tx.outputs[pos..][0] == out && tx.outputs[pos..][1..] == tx.outputs[pos + 1..];
      if hooks.paysTo(address, out.script) {
        received := ReceivedAt(asset, out, totalIn, received);
      }
      pos := pos + 1;
    }
    r := Return(received);
  }

  /** The oracle branch of `mint_purchase_burn_swap`. */
  method CheckOracle(pubkey: seq<byte>, setting: MintOracleSetting, option: MintOption, tx: Tx, received: nat,
                     hooks: MintHooks) returns (r: Exit<Option<nat>>)
    ensures r == OracleOut(pubkey, setting, option, tx, received, hooks)
  {
    if option.oracleMessage.None? {
      return Return(None);
    }
    var om := option.oracleMessage.value;
    if setting.assetId != om.message.assetId {
      return Return(None);
    }
    if !hooks.pubkeyValid(pubkey) {
      return Panic;
    }
    if !hooks.signatureValid(om.signature) {
      return Return(None);
    }
    var found := InputFound(tx, om.message.inputOutpoint);
    var belowMin := received < om.message.minInValue;
    if !belowMin && found && hooks.verifies(pubkey, om.signature, om.message) {
      r := Return(Some(om.message.outValue));
    } else {
      r := Return(None);
    }
  }

  /** The output scan of `mint_purchase_burn_swap`. */
  method ScanOutputs(pbs: AssetContractPurchaseBurnSwap, tx: Tx, option: MintOption, totalIn: nat, hooks: MintHooks)
    returns (r: Exit<(nat, Option<nat>)>)
    ensures r == PbsScan(pbs, tx, option, totalIn, hooks)
  {
    match pbs.transferScheme {
      case BurnScheme =>
        var received, vout := ScanBurnOutputs(tx, option.pointer, pbs.inputAsset, totalIn);
        r := Return((received, vout));
      case PurchaseScheme(address) =>
        var scanned := ScanPurchaseOutputs(tx, address, pbs.inputAsset, totalIn, hooks);
        if scanned.Panic? {
          return Panic;
        }
        r := Return((scanned.value, Some(option.pointer)));
    }
  }

  /** The ratio step of `mint_purchase_burn_swap`. */
  method ComputeOut(pbs: AssetContractPurchaseBurnSwap, tx: Tx, option: MintOption, received: nat, hooks: MintHooks)
    returns (r: Exit<Result<nat, Flaw>>)
    ensures r == PbsOut(pbs, tx, option, received, hooks)
  {
    match pbs.transferRatioType {
      case Fixed(ratio) =>
        if ratio.den == 0 {
          return Panic;
        }
        r := Return(Success(WrapMul128(received, ratio.num) / ratio.den));
      case Oracle(pubkey, setting) =>
        var checked := CheckOracle(pubkey, setting, option, tx, received, hooks);
        if checked.Panic? {
          return Panic;
        }
        if checked.value.None? {
          return Return(Failure(OracleMintFailed));
        }
        r := Return(Success(checked.value.value));
    }
  }

  /** `mint_purchase_burn_swap` up to the write. */
  method PlanPurchaseBurnSwap(u: Updater, pbs: AssetContractPurchaseBurnSwap, tx: Tx, option: MintOption, hooks: MintHooks)
    returns (r: Exit<Result<(nat, nat), Flaw>>)
    ensures r == PbsPlan(pbs, tx, option, u.database.entries, hooks)
  {
    var totalIn := 0;
    if pbs.inputAsset.GlittrAsset? {
      totalIn := ReadGlittrInputTotal(u, tx, pbs.inputAsset.id);
    }
    var scan := ScanOutputs(pbs, tx, option, totalIn, hooks);
    if scan.Panic? {
      return Panic;
    }
    var (received, vout) := scan.value;
    var out := ComputeOut(pbs, tx, option, received, hooks);
    if out.Panic? {
      return Panic;
    }
    if out.value.Failure? {
      return Return(Failure(out.value.error));
    }
    if vout.None? {
      return Panic;
    }
    if vout.value > |tx.outputs| {
      return Return(Failure(PointerOverflow));
    }
    r := Return(Success((vout.value, out.value.value)));
  }

  /** `mint_purchase_burn_swap` */
  method MintPurchaseBurnSwap(u: Updater, pbs: AssetContractPurchaseBurnSwap, tx: Tx, contract: BlockTx,
                              option: MintOption, hooks: MintHooks) returns (r: Exit<Option<Flaw>>)
    modifies u.database
    ensures (r, u.database.entries) == PbsEffect(pbs, tx, contract, option, old(u.database.entries), u.isReadOnly, hooks)
  {
    var plan := PlanPurchaseBurnSwap(u, pbs, tx, option, hooks);
    if plan.Panic? {
      return Panic;
    }
    if plan.value.Failure? {
      return Return(Some(plan.value.error));
    }
    var (vout, outValue) := plan.value.value;
    var flaw := UpdateAssetListForMint(u, contract, Outpoint(tx.txid, vout), AsU32(outValue));
    r := Return(flaw);
  }

  /** Where `mint` sends a call, from the creating contract's message. */
  datatype MintRoute = MintDone(flaw: Option<Flaw>) | ToFreeMint(freeMint: AssetContractFreeMint) | ToPurchaseBurnSwap(pbs: AssetContractPurchaseBurnSwap)

  /** `mint` as a dispatch: a flawed or missing contract message passes its flaw
      on, a message that is not a contract creation is ContractNotMatch, and a
      preallocated contract is NotImplemented. */
  function RouteMint(message: Result<TxTypeMessage, Flaw>): (r: MintRoute)
    ensures message.Failure? ==> r == MintDone(Some(message.error))
    ensures message.Success? && !message.value.txType.ContractCreationTx? ==> r == MintDone(Some(ContractNotMatch))
    ensures message == Success(TxTypeMessage(ContractCreationTx(Asset(Preallocated)))) ==> r == MintDone(Some(NotImplemented))
    ensures r.ToFreeMint? ==> message == Success(TxTypeMessage(ContractCreationTx(Asset(FreeMint(r.freeMint)))))
    ensures r.ToPurchaseBurnSwap? ==> message == Success(TxTypeMessage(ContractCreationTx(Asset(PurchaseBurnSwap(r.pbs)))))
    ensures forall a :: message == Success(TxTypeMessage(ContractCreationTx(Asset(FreeMint(a))))) ==> r == ToFreeMint(a)
    ensures forall p :: message == Success(TxTypeMessage(ContractCreationTx(Asset(PurchaseBurnSwap(p))))) ==> r == ToPurchaseBurnSwap(p)
  {
    match message
    case Failure(f) => MintDone(Some(f))
    case Success(m) =>
      match m.txType
      case ContractCreationTx(Asset(FreeMint(a))) => ToFreeMint(a)
      case ContractCreationTx(Asset(PurchaseBurnSwap(p))) => ToPurchaseBurnSwap(p)
      case ContractCreationTx(Asset(Preallocated)) => MintDone(Some(NotImplemented))
      case _ => MintDone(Some(ContractNotMatch))
  }

  /** `mint`, on the store. */
  function MintEffect(entries: map<string, Raw>, readOnly: bool, tx: Tx, block: BlockTx, contract: BlockTx,
                      option: MintOption, hooks: MintHooks): (Exit<Option<Flaw>>, map<string, Raw>)
  {
    match RouteMint(MessageAt(entries, contract))
    case MintDone(f) => (Return(f), entries)
    case ToFreeMint(a) =>
      var e := FreeMintEffect(entries, readOnly, a, tx, block, contract, option);
      (Return(e.0), e.1)
    case ToPurchaseBurnSwap(p) => PbsEffect(p, tx, contract, option, entries, readOnly, hooks)
  }

  /** A read-only `mint` writes nothing, whichever rule the contract routes to. */
  lemma MintReadOnlyWritesNothing(entries: map<string, Raw>, tx: Tx, block: BlockTx, contract: BlockTx,
                                  option: MintOption, hooks: MintHooks)
    ensures MintEffect(entries, true, tx, block, contract, option, hooks).1 == entries
  {
  }

  /** `mint` */
  method CallMint(u: Updater, tx: Tx, block: BlockTx, contract: BlockTx, option: MintOption, hooks: MintHooks)
    returns (r: Exit<Option<Flaw>>)
    modifies u.database
    ensures (r, u.database.entries) == MintEffect(old(u.database.entries), u.isReadOnly, tx, block, contract, option, hooks)
  {
    var message := u.GetMessage(contract);
    match RouteMint(message) {
      case MintDone(f) =>
        r := Return(f);
      case ToFreeMint(a) =>
        var flaw := MintFreeMint(u, a, tx, block, contract, option);
        r := Return(flaw);
      case ToPurchaseBurnSwap(p) =>
        r := MintPurchaseBurnSwap(u, p, tx, contract, option, hooks);
    }
  }
}
