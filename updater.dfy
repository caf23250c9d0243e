/** The per-transaction asset ledger of src/updater.rs. While a transaction is
    indexed, the amounts its inputs carried sit in an unallocated list; moves
    send them to outputs; at the end the leftovers go to the first output that
    is not an OP_RETURN and every output's list is written to the store. */
module Ledger {
  import opened Wrappers
  import opened Arith
  import opened Text
  import opened Chain
  import opened Records
  import opened Store

  /** The amount of `a` in `l`; an asset the list does not name holds nothing. */
  function Amount(l: AssetList, a: AssetId): nat {
    if a in l then l[a] else 0
  }

  /** The list allocated to output `vout`; an output without a list holds nothing. */
  function ListAt(al: map<nat, AssetList>, vout: nat): AssetList {
    if vout in al then al[vout] else map[]
  }

  /** The two maps of the ledger. */
  datatype LedgerState = LedgerState(unallocated: AssetList, allocatedLists: map<nat, AssetList>)

  /** `l` with `amount` more of `a`, saturating at the u128 maximum. */
  function Credit(l: AssetList, a: AssetId, amount: nat): (r: AssetList)
    ensures r.Keys == l.Keys + {a}
    ensures Amount(r, a) == SatAdd128(Amount(l, a), amount)
    ensures forall b :: b != a ==> Amount(r, b) == Amount(l, b)
  {
    l[a := SatAdd128(Amount(l, a), amount)]
  }

  /** `l` and `m` added asset by asset, saturating. */
  function AddAll(l: AssetList, m: AssetList): (r: AssetList)
    ensures r.Keys == l.Keys + m.Keys
    ensures forall a :: a in m ==> Amount(r, a) == SatAdd128(Amount(l, a), m[a])
    ensures forall a :: a !in m ==> Amount(r, a) == Amount(l, a)
  {
    map a | a in l.Keys + m.Keys :: if a in m then SatAdd128(Amount(l, a), m[a]) else l[a]
  }

  /** `allocate_new_asset`: output `vout` gets `amount` more of `a`; the output's
      list and the asset's entry are created when missing; every other
      (output, asset) entry is unchanged. */
  function Allocate(al: map<nat, AssetList>, vout: nat, a: AssetId, amount: nat): (r: map<nat, AssetList>)
    ensures r.Keys == al.Keys + {vout}
    ensures r[vout].Keys == ListAt(al, vout).Keys + {a}
    ensures Amount(r[vout], a) == SatAdd128(Amount(ListAt(al, vout), a), amount)
    ensures forall b :: b != a ==> Amount(r[vout], b) == Amount(ListAt(al, vout), b)
    ensures forall v :: v in al && v != vout ==> r[v] == al[v]
  {
    al[vout := Credit(ListAt(al, vout), a, amount)]
  }

  /** `move_allocation`: moves min(maxAmount, unallocated amount) of `a` to output
      `vout`. Nothing happens when `a` is not unallocated or that amount is 0;
      an unallocated entry that drops to 0 is removed. */
  function Move(s: LedgerState, vout: nat, a: AssetId, maxAmount: nat): LedgerState {
    if a !in s.unallocated then s
    else
      var amount := Min(maxAmount, s.unallocated[a]);
      if amount == 0 then s
      else
        var rest := SatSub(s.unallocated[a], amount);
        var u := if rest == 0 then s.unallocated - {a} else s.unallocated[a := rest];
        LedgerState(u, Allocate(s.allocatedLists, vout, a, amount))
  }

  /** How much a move takes: min(maxAmount, unallocated amount). */
  function Moved(s: LedgerState, a: AssetId, maxAmount: nat): nat {
    Min(maxAmount, Amount(s.unallocated, a))
  }

  /** A move takes exactly `Moved` of `a` from the unallocated list and adds it
      to output `vout`; no other entry of either map changes; the asset's total
      across both maps is kept when the addition does not saturate. */
  lemma MoveExact(s: LedgerState, vout: nat, a: AssetId, maxAmount: nat)
    ensures var t := Move(s, vout, a, maxAmount);
      var m := Moved(s, a, maxAmount);
      Amount(t.unallocated, a) == Amount(s.unallocated, a) - m &&
      (m > 0 ==> Amount(ListAt(t.allocatedLists, vout), a) == SatAdd128(Amount(ListAt(s.allocatedLists, vout), a), m)) &&
      (m == 0 ==> t == s) &&
      (Amount(s.unallocated, a) + Amount(ListAt(s.allocatedLists, vout), a) <= U128_MAX ==>
         Amount(t.unallocated, a) + Amount(ListAt(t.allocatedLists, vout), a) ==
         Amount(s.unallocated, a) + Amount(ListAt(s.allocatedLists, vout), a))
    ensures var t := Move(s, vout, a, maxAmount);
      (forall b :: b != a ==> Amount(t.unallocated, b) == Amount(s.unallocated, b)) &&
      (forall b :: b != a ==> Amount(ListAt(t.allocatedLists, vout), b) == Amount(ListAt(s.allocatedLists, vout), b)) &&
      (forall v :: v != vout ==> ListAt(t.allocatedLists, v) == ListAt(s.allocatedLists, v))
  {
    var t := Move(s, vout, a, maxAmount);
    var m := Moved(s, a, maxAmount);
    if a in s.unallocated && m > 0 {
      assert t.allocatedLists == Allocate(s.allocatedLists, vout, a, m);
      assert Amount(t.unallocated, a) == SatSub(s.unallocated[a], m);
      assert forall v :: v != vout ==> ListAt(t.allocatedLists, v) == ListAt(s.allocatedLists, v);
    }
  }

  /** A move changes the ledger exactly when the asset is unallocated and the
      amount to move is not 0. */
  lemma MoveNoOpIff(s: LedgerState, vout: nat, a: AssetId, maxAmount: nat)
    ensures Move(s, vout, a, maxAmount) == s <==> a !in s.unallocated || Moved(s, a, maxAmount) == 0
  {
    if a in s.unallocated && Moved(s, a, maxAmount) > 0 {
      MoveExact(s, vout, a, maxAmount);
      assert Amount(Move(s, vout, a, maxAmount).unallocated, a) < Amount(s.unallocated, a);
    }
  }

  /** After a move the asset keeps an unallocated entry exactly when it had one
      and either nothing was moved or some of it stayed behind. */
  lemma MoveRemovesDrained(s: LedgerState, vout: nat, a: AssetId, maxAmount: nat)
    ensures a in Move(s, vout, a, maxAmount).unallocated <==>
      a in s.unallocated && (Moved(s, a, maxAmount) == 0 || maxAmount < s.unallocated[a])
  {
  }

  /** The key under which the asset list of an outpoint is stored. */
  function AssetListKey(o: Outpoint): string {
    ComposeKey(ASSET_LIST_PREFIX, OutpointKey(o))
  }

  /** The outputs of one transaction have distinct asset-list keys. */
  lemma AssetListKeyInjective(txid: string, v: nat, w: nat)
    requires AssetListKey(Outpoint(txid, v)) == AssetListKey(Outpoint(txid, w))
    ensures v == w
  {
    CancelHead(ASSET_LIST_PREFIX + ":", OutpointKey(Outpoint(txid, v)), OutpointKey(Outpoint(txid, w)));
    OutpointKeyInjective(txid, v, w);
  }

  /** `get_asset_list`: a missing list reads as empty, an unreadable one is
      `FailedDeserialization`. */
  function AssetListAt(entries: map<string, Raw>, o: Outpoint): (r: Result<AssetList, Flaw>)
    ensures AssetListKey(o) !in entries ==> r == Success(map[])
    ensures r.Failure? <==> Lookup(entries, AssetListKey(o), AssetListKind) == Failure(DeserializeFailed)
    ensures r.Failure? ==> r.error == FailedDeserialization
    ensures r.Success? && AssetListKey(o) in entries ==> entries[AssetListKey(o)] == Json(AssetListValue(r.value))
  {
    match Lookup(entries, AssetListKey(o), AssetListKind)
    case Success(v) => Success(v.list)
    case Failure(NotFound) => Success(map[])
    case Failure(DeserializeFailed) => Failure(FailedDeserialization)
  }

  /** `unallocate_asset`: each input's stored list, when readable, is added into
      the unallocated list, and each input's stored list is deleted unless the
      updater is read-only. Gives the new unallocated list and store entries. */
  function Unallocate(entries: map<string, Raw>, u: AssetList, inputs: seq<Outpoint>, readOnly: bool): (AssetList, map<string, Raw>)
    decreases |inputs|
  {
    if inputs == [] then (u, entries)
    else
      var o := inputs[0];
      var u' := match AssetListAt(entries, o) case Success(l) => AddAll(u, l) case Failure(_) => u;
      var e' := if readOnly then entries else entries - {AssetListKey(o)};
      Unallocate(e', u', inputs[1..], readOnly)
  }

  /** Unallocating deletes the stored list of every input and touches no other key. */
  lemma {:induction false} UnallocateDeletesInputs(entries: map<string, Raw>, u: AssetList, inputs: seq<Outpoint>)
    ensures var e := Unallocate(entries, u, inputs, false).1;
      (forall i :: 0 <= i < |inputs| ==> AssetListKey(inputs[i]) !in e) &&
      (forall k :: k in entries && (forall i :: 0 <= i < |inputs| ==> k != AssetListKey(inputs[i])) ==>
         k in e && e[k] == entries[k]) &&
      e.Keys <= entries.Keys
    decreases |inputs|
  {
    if inputs != [] {
      var o := inputs[0];
      var u' := match AssetListAt(entries, o) case Success(l) => AddAll(u, l) case Failure(_) => u;
      var e' := entries - {AssetListKey(o)};
      UnallocateDeletesInputs(e', u', inputs[1..]);
      var e := Unallocate(entries, u, inputs, false).1;
      assert e == Unallocate(e', u', inputs[1..], false).1;
      forall i | 0 <= i < |inputs|
        ensures AssetListKey(inputs[i]) !in e
      {
        if i > 0 {
          assert inputs[i] == inputs[1..][i - 1];
        }
      }
      forall k | k in entries && (forall i :: 0 <= i < |inputs| ==> k != AssetListKey(inputs[i]))
        ensures k in e && e[k] == entries[k]
      {
        assert k != AssetListKey(inputs[0]);
        forall i | 0 <= i < |inputs[1..]|
          ensures k != AssetListKey(inputs[1..][i])
        {
          assert inputs[1..][i] == inputs[i + 1];
        }
      }
    }
  }

  /** A read-only updater leaves the store as it was. */
  lemma {:induction false} UnallocateReadOnly(entries: map<string, Raw>, u: AssetList, inputs: seq<Outpoint>)
    ensures Unallocate(entries, u, inputs, true).1 == entries
    decreases |inputs|
  {
    if inputs != [] {
      var u' := match AssetListAt(entries, inputs[0]) case Success(l) => AddAll(u, l) case Failure(_) => u;
      UnallocateReadOnly(entries, u', inputs[1..]);
    }
  }

  /** Unallocating never lowers an unallocated amount. */
  lemma {:induction false} UnallocateGrows(entries: map<string, Raw>, u: AssetList, inputs: seq<Outpoint>, readOnly: bool, a: AssetId)
    ensures Amount(u, a) <= U128_MAX ==> Amount(u, a) <= Amount(Unallocate(entries, u, inputs, readOnly).0, a)
    decreases |inputs|
  {
    if inputs != [] {
      var o := inputs[0];
      var u' := match AssetListAt(entries, o) case Success(l) => AddAll(u, l) case Failure(_) => u;
      var e' := if readOnly then entries else entries - {AssetListKey(o)};
      UnallocateGrows(e', u', inputs[1..], readOnly, a);
    }
  }

  /** `first_non_op_return_index`, as a definition. */
  function FirstNonOpReturn(outs: seq<TxOut>): (r: Option<nat>)
    ensures IsFirstNonOpReturn(outs, r)
  {
    if outs == [] then None
    else if !IsOpReturn(outs[0]) then Some(0)
    else
      match FirstNonOpReturn(outs[1..])
      case None => None
      case Some(i) => Some(i + 1)
  }

  /** There is only one first output that is not an OP_RETURN. */
  lemma {:induction false} FirstNonOpReturnUnique(outs: seq<TxOut>, r: Option<nat>)
    requires IsFirstNonOpReturn(outs, r)
    ensures r == FirstNonOpReturn(outs)
  {
    if outs != [] && IsOpReturn(outs[0]) {
      var r': Option<nat> := if r.Some? then Some(r.value - 1) else None;
      forall j | 0 <= j < |outs| - 1
        ensures outs[1..][j] == outs[j + 1]
      {
      }
      assert IsFirstNonOpReturn(outs[1..], r');
      FirstNonOpReturnUnique(outs[1..], r');
    }
  }

  /** `first_non_op_return_index` */
  method FirstNonOpReturnIndex(outs: seq<TxOut>) returns (r: Option<nat>)
    ensures IsFirstNonOpReturn(outs, r)
  {
    var i := 0;
    while i < |outs|
      invariant 0 <= i <= |outs|
      invariant forall j :: 0 <= j < i ==> IsOpReturn(outs[j])
    {
      if !IsOpReturn(outs[i]) {
        return Some(i);
      }
      i := i + 1;
    }
    return None;
  }

  /** The nonzero entries of `u`. */
  function Positive(u: AssetList): (r: AssetList)
    ensures forall a :: a in r <==> a in u && u[a] > 0
    ensures forall a :: a in r ==> r[a] == u[a]
  {
    map a | a in u && u[a] > 0 :: u[a]
  }

  /** The fallback of `commit_asset`: every nonzero unallocated amount goes to
      output `target`; with no such output the leftovers are dropped. */
  function Sweep(s: LedgerState, target: Option<nat>): map<nat, AssetList> {
    if target.None? || Positive(s.unallocated) == map[] then s.allocatedLists
    else s.allocatedLists[target.value := AddAll(ListAt(s.allocatedLists, target.value), Positive(s.unallocated))]
  }

  /** What the sweep adds to the target output: each leftover asset, added in. */
  lemma SweepTarget(s: LedgerState, v: nat, a: AssetId)
    ensures Amount(ListAt(Sweep(s, Some(v)), v), a) ==
      if Amount(s.unallocated, a) > 0 then SatAdd128(Amount(ListAt(s.allocatedLists, v), a), s.unallocated[a])
      else Amount(ListAt(s.allocatedLists, v), a)
    ensures forall w :: w != v ==> ListAt(Sweep(s, Some(v)), w) == ListAt(s.allocatedLists, w)
  {
    var p := Positive(s.unallocated);
    if Amount(s.unallocated, a) > 0 {
      assert a in p;
    }
  }

  /** The transfers of `transfers` whose output the transaction does not have, by position. */
  function OverflowPositions(ts: seq<TxTypeTransfer>, outputCount: nat): seq<nat> {
    if ts == [] then []
    else
      var n := |ts| - 1;
      var prior := OverflowPositions(ts[..n], outputCount);
      if ts[n].output >= outputCount then prior + [n] else prior
  }

  /** The positions listed are exactly those of the transfers to a missing
      output, in increasing order. */
  lemma {:induction false} OverflowPositionsExact(ts: seq<TxTypeTransfer>, outputCount: nat)
    ensures var r := OverflowPositions(ts, outputCount);
      (forall i :: 0 <= i < |ts| ==> (i in r <==> ts[i].output >= outputCount)) &&
      (forall j :: 0 <= j < |r| ==> r[j] < |ts|) &&
      (forall j, k :: 0 <= j < k < |r| ==> r[j] < r[k])
  {
    if ts != [] {
      var n := |ts| - 1;
      OverflowPositionsExact(ts[..n], outputCount);
      assert forall i :: 0 <= i < n ==> ts[..n][i] == ts[i];
    }
  }

  /** The ledger after the moves of `transfers`, skipping those whose output
      the transaction does not have. */
  function ApplyTransfers(s: LedgerState, ts: seq<TxTypeTransfer>, outputCount: nat): LedgerState {
    if ts == [] then s
    else
      var t := ts[|ts| - 1];
      var prior := ApplyTransfers(s, ts[..|ts| - 1], outputCount);
      if t.output >= outputCount then prior else Move(prior, t.output, BlockTxKey(t.asset), t.amount)
  }

  /** The transfers that name an existing output. */
  function Kept(ts: seq<TxTypeTransfer>, outputCount: nat): (r: seq<TxTypeTransfer>)
    ensures forall t :: t in r ==> t in ts && t.output < outputCount
  {
    if ts == [] then []
    else
      var t := ts[|ts| - 1];
      var prior := Kept(ts[..|ts| - 1], outputCount);
      if t.output >= outputCount then prior else prior + [t]
  }

  /** A transfer to a missing output moves nothing: the ledger is as if only
      the other transfers had been given. */
  lemma {:induction false} OverflowingTransfersIgnored(s: LedgerState, ts: seq<TxTypeTransfer>, outputCount: nat)
    ensures ApplyTransfers(s, ts, outputCount) == ApplyTransfers(s, Kept(ts, outputCount), outputCount)
  {
    if ts != [] {
      var n := |ts| - 1;
      var t := ts[n];
      OverflowingTransfersIgnored(s, ts[..n], outputCount);
      var k := Kept(ts[..n], outputCount);
      if t.output < outputCount {
        assert (k + [t])[..|k + [t]| - 1] == k;
      }
    }
  }

  /** One more transfer: skipped and listed when its output is missing, moved otherwise. */
  lemma TransferStep(s: LedgerState, ts: seq<TxTypeTransfer>, outputCount: nat, i: nat)
    requires i < |ts|
    ensures ApplyTransfers(s, ts[..i + 1], outputCount) ==
      if ts[i].output >= outputCount then ApplyTransfers(s, ts[..i], outputCount)
      else Move(ApplyTransfers(s, ts[..i], outputCount), ts[i].output, BlockTxKey(ts[i].asset), ts[i].amount)
    ensures OverflowPositions(ts[..i + 1], outputCount) ==
      if ts[i].output >= outputCount then OverflowPositions(ts[..i], outputCount) + [i]
      else OverflowPositions(ts[..i], outputCount)
  {
    assert ts[..i + 1][..i] == ts[..i];
  }

  /** The state `transfers` leaves behind: the flaw it reports. */
  function TransfersFlaw(ts: seq<TxTypeTransfer>, outputCount: nat): Option<Flaw> {
    var over := OverflowPositions(ts, outputCount);
    if over == [] then None else Some(OutputOverflow(over))
  }

  /** `get_message`: the stored outcome's message, or the reason there is none. */
  function MessageAt(entries: map<string, Raw>, contract: BlockTx): (r: Result<TxTypeMessage, Flaw>)
    ensures var l := Lookup(entries, ComposeKey(MESSAGE_PREFIX, BlockTxKey(contract)), OutcomeKind);
      (l == Failure(NotFound) ==> r == Failure(ContractNotFound)) &&
      (l == Failure(DeserializeFailed) ==> r == Failure(FailedDeserialization)) &&
      (l.Success? && l.value.outcome.flaw.Some? ==> r == Failure(l.value.outcome.flaw.value)) &&
      (l.Success? && l.value.outcome.flaw.None? && l.value.outcome.message.None? ==> r == Failure(MessageInvalid)) &&
      (r.Success? ==> l.Success? && l.value.outcome.flaw.None? && l.value.outcome.message == Some(r.value)) &&
      (l.Success? && l.value.outcome.flaw.None? && l.value.outcome.message.Some? ==> r == Success(l.value.outcome.message.value))
  {
    match Lookup(entries, ComposeKey(MESSAGE_PREFIX, BlockTxKey(contract)), OutcomeKind)
    case Success(v) =>
      if v.outcome.flaw.Some? then Failure(v.outcome.flaw.value)
      else if v.outcome.message.None? then Failure(MessageInvalid)
      else Success(v.outcome.message.value)
    case Failure(NotFound) => Failure(ContractNotFound)
    case Failure(DeserializeFailed) => Failure(FailedDeserialization)
  }

  /** `get_message_txtype`: panics when the outcome is missing or unreadable, or
      when an unflawed outcome carries no message; a flawed outcome is
      `ReferencingFlawedBlockTx`. */
  function MessageTxTypeAt(entries: map<string, Raw>, b: BlockTx): (r: Exit<Result<TxType, Flaw>>)
    ensures var l := Lookup(entries, ComposeKey(MESSAGE_PREFIX, BlockTxKey(b)), OutcomeKind);
      (r == Panic <==> l.Failure? || (l.value.outcome.flaw.None? && l.value.outcome.message.None?)) &&
      (r == Return(Failure(ReferencingFlawedBlockTx)) <==> l.Success? && l.value.outcome.flaw.Some?) &&
      (l.Success? && l.value.outcome.flaw.None? && l.value.outcome.message.Some? ==>
        r == Return(Success(l.value.outcome.message.value.txType)))
  {
    match Lookup(entries, ComposeKey(MESSAGE_PREFIX, BlockTxKey(b)), OutcomeKind)
    case Failure(_) => Panic
    case Success(v) =>
      if v.outcome.flaw.Some? then Return(Failure(ReferencingFlawedBlockTx))
      else if v.outcome.message.None? then Panic
      else Return(Success(v.outcome.message.value.txType))
  }

  /** The key under which a contract's mint data is stored. */
  function ContractDataKey(contract: BlockTx): string {
    ComposeKey(ASSET_CONTRACT_DATA_PREFIX, BlockTxKey(contract))
  }

  /** `get_asset_contract_data`: missing data reads as the default record. */
  function ContractDataAt(entries: map<string, Raw>, contract: BlockTx): (r: Result<AssetContractData, Flaw>)
    ensures var l := Lookup(entries, ContractDataKey(contract), ContractDataKind);
      (l == Failure(NotFound) ==> r == Success(DEFAULT_CONTRACT_DATA)) &&
      (r.Failure? <==> l == Failure(DeserializeFailed)) &&
      (r.Failure? ==> r.error == FailedDeserialization) &&
      (l.Success? ==> r == Success(l.value.data))
  {
    match Lookup(entries, ContractDataKey(contract), ContractDataKind)
    case Success(v) => Success(v.data)
    case Failure(NotFound) => Success(DEFAULT_CONTRACT_DATA)
    case Failure(DeserializeFailed) => Failure(FailedDeserialization)
  }

  /** `Updater`: the store, whether writes are suppressed, and the ledger of the
      transaction being indexed. The last two maps are the collateral accounts
      the transaction's inputs carried, read by the burn rules. */
  class Updater {
    const database: Database
    const isReadOnly: bool
    var unallocated: AssetList
    var allocatedLists: map<nat, AssetList>
    var collateralAccounts: map<AssetId, CollateralAccount>
    var helperOutpoints: map<CollateralAccount, Outpoint>

    ghost function State(): LedgerState
      reads this
    {
      LedgerState(unallocated, allocatedLists)
    }

    /** `Updater::new`: an empty ledger over `database`. */
    constructor (database: Database, isReadOnly: bool)
      ensures this.database == database && this.isReadOnly == isReadOnly
      ensures unallocated == map[] && allocatedLists == map[]
      ensures collateralAccounts == map[] && helperOutpoints == map[]
    {
      this.database := database;
      this.isReadOnly := isReadOnly;
      unallocated := map[];
      allocatedLists := map[];
      collateralAccounts := map[];
      helperOutpoints := map[];
    }

    /** `allocate_new_asset`, for the asset named `a` (the text of its contract's BlockTx). */
    method AllocateNewAsset(vout: nat, a: AssetId, amount: nat)
      modifies this
      ensures allocatedLists == Allocate(old(allocatedLists), vout, a, amount)
      ensures unallocated == old(unallocated)
      ensures collateralAccounts == old(collateralAccounts) && helperOutpoints == old(helperOutpoints)
    {
      var list: AssetList := if vout in allocatedLists then allocatedLists[vout] else map[];
      var previous: nat := if a in list then list[a] else 0;
      allocatedLists := allocatedLists[vout := list[a := SatAdd128(previous, amount)]];
    }

    /** `move_allocation` */
    method MoveAllocation(vout: nat, a: AssetId, maxAmount: nat)
      modifies this
      ensures State() == Move(old(State()), vout, a, maxAmount)
      ensures collateralAccounts == old(collateralAccounts) && helperOutpoints == old(helperOutpoints)
    {
      if a !in unallocated {
        return;
      }
      var amount := Min(maxAmount, unallocated[a]);
      if amount == 0 {
        return;
      }
      var rest := SatSub(unallocated[a], amount);
      unallocated := unallocated[a := rest];
      if rest == 0 {
        unallocated := unallocated - {a};
      }
      AllocateNewAsset(vout, a, amount);
    }

    /** `get_asset_list` */
    method GetAssetList(o: Outpoint) returns (r: Result<AssetList, Flaw>)
      ensures r == AssetListAt(database.entries, o)
    {
      var got := database.Get(ASSET_LIST_PREFIX, OutpointKey(o), AssetListKind);
      match got
      case Success(v) => r := Success(v.list);
      case Failure(NotFound) => r := Success(map[]);
      case Failure(DeserializeFailed) => r := Failure(FailedDeserialization);
    }

    /** `set_asset_list`: a no-op when read-only. */
    method SetAssetList(o: Outpoint, list: AssetList)
      modifies database
      ensures isReadOnly ==> database.entries == old(database.entries)
      ensures !isReadOnly ==> database.entries == old(database.entries)[AssetListKey(o) := Json(AssetListValue(list))]
    {
      if !isReadOnly {
        database.Put(ASSET_LIST_PREFIX, OutpointKey(o), AssetListValue(list));
      }
    }

    /** `delete_asset`: a no-op when read-only. */
    method DeleteAsset(o: Outpoint)
      modifies database
      ensures isReadOnly ==> database.entries == old(database.entries)
      ensures !isReadOnly ==> database.entries == old(database.entries) - {AssetListKey(o)}
    {
      if !isReadOnly {
        database.Delete(ASSET_LIST_PREFIX, OutpointKey(o));
      }
    }

    /** `get_message` */
    method GetMessage(contract: BlockTx) returns (r: Result<TxTypeMessage, Flaw>)
      ensures r == MessageAt(database.entries, contract)
    {
      var got := database.Get(MESSAGE_PREFIX, BlockTxKey(contract), OutcomeKind);
      match got
      case Success(v) =>
        if v.outcome.flaw.Some? {
          r := Failure(v.outcome.flaw.value);
        } else if v.outcome.message.None? {
          r := Failure(MessageInvalid);
        } else {
          r := Success(v.outcome.message.value);
        }
      case Failure(NotFound) => r := Failure(ContractNotFound);
      case Failure(DeserializeFailed) => r := Failure(FailedDeserialization);
    }

    /** `get_message_txtype` */
    method GetMessageTxType(b: BlockTx) returns (r: Exit<Result<TxType, Flaw>>)
      ensures r == MessageTxTypeAt(database.entries, b)
    {
      var got := database.Get(MESSAGE_PREFIX, BlockTxKey(b), OutcomeKind);
      if got.Failure? {
        return Panic;
      }
      var outcome := got.value.outcome;
      if outcome.flaw.Some? {
        r := Return(Failure(ReferencingFlawedBlockTx));
      } else if outcome.message.None? {
        r := Panic;
      } else {
        r := Return(Success(outcome.message.value.txType));
      }
    }

    /** `get_asset_contract_data` */
    method GetAssetContractData(contract: BlockTx) returns (r: Result<AssetContractData, Flaw>)
      ensures r == ContractDataAt(database.entries, contract)
    {
      var got := database.Get(ASSET_CONTRACT_DATA_PREFIX, BlockTxKey(contract), ContractDataKind);
      match got
      case Success(v) => r := Success(v.data);
      case Failure(NotFound) => r := Success(DEFAULT_CONTRACT_DATA);
      case Failure(DeserializeFailed) => r := Failure(FailedDeserialization);
    }

    /** `set_asset_contract_data`: a no-op when read-only. */
    method SetAssetContractData(contract: BlockTx, data: AssetContractData)
      modifies database
      ensures isReadOnly ==> database.entries == old(database.entries)
      ensures !isReadOnly ==> database.entries == old(database.entries)[ContractDataKey(contract) := Json(ContractDataValue(data))]
    {
      if !isReadOnly {
        database.Put(ASSET_CONTRACT_DATA_PREFIX, BlockTxKey(contract), ContractDataValue(data));
      }
    }

    /** Adds every amount of `list` into the unallocated list. */
    method AddToUnallocated(list: AssetList)
      modifies this
      ensures unallocated == AddAll(old(unallocated), list)
      ensures allocatedLists == old(allocatedLists)
      ensures collateralAccounts == old(collateralAccounts) && helperOutpoints == old(helperOutpoints)
    {
      ghost var u0 := unallocated;
      var todo := list.Keys;
      ghost var added: AssetList := map[];
      AddAllNothing(u0);
      while todo != {}
        invariant todo <= list.Keys
        invariant forall a :: a in added <==> a in list && a !in todo
        invariant forall a :: a in added ==> added[a] == list[a]
        invariant unallocated == AddAll(u0, added)
        invariant allocatedLists == old(allocatedLists)
        invariant collateralAccounts == old(collateralAccounts) && helperOutpoints == old(helperOutpoints)
        decreases |todo|
      {
        var a :| a in todo;
        var previous: nat := if a in unallocated then unallocated[a] else 0;
        CreditAddAll(u0, added, a, list[a]);
        unallocated := unallocated[a := SatAdd128(previous, list[a])];
        added := added[a := list[a]];
        todo := todo - {a};
      }
      assert added == list;
    }

    /** `unallocate_asset` */
    method UnallocateAsset(tx: Tx)
      modifies this, database
      ensures (unallocated, database.entries) == Unallocate(old(database.entries), old(unallocated), tx.inputs, isReadOnly)
      ensures allocatedLists == old(allocatedLists)
      ensures collateralAccounts == old(collateralAccounts) && helperOutpoints == old(helperOutpoints)
    {
      var i := 0;
      while i < |tx.inputs|
        invariant 0 <= i <= |tx.inputs|
        invariant Unallocate(old(database.entries), old(unallocated), tx.inputs, isReadOnly) ==
          Unallocate(database.entries, unallocated, tx.inputs[i..], isReadOnly)
        invariant allocatedLists == old(allocatedLists)
        invariant collateralAccounts == old(collateralAccounts) && helperOutpoints == old(helperOutpoints)
      {
        var o := tx.inputs[i];
        var got := GetAssetList(o);
        if got.Success? {
          AddToUnallocated(got.value);
        }
        DeleteAsset(o);
        assert tx.inputs[i..][1..] == tx.inputs[i + 1..];
        i := i + 1;
      }
    }

    /** `transfers`: moves each transfer to its output, skipping (and reporting,
        by position) those whose output the transaction does not have. */
    method Transfers(tx: Tx, transfers: seq<TxTypeTransfer>) returns (r: Option<Flaw>)
      modifies this
      ensures State() == ApplyTransfers(old(State()), transfers, |tx.outputs|)
      ensures r == TransfersFlaw(transfers, |tx.outputs|)
      ensures collateralAccounts == old(collateralAccounts) && helperOutpoints == old(helperOutpoints)
    {
      ghost var s0 := State();
      var overflow: seq<nat> := [];
      var i := 0;
      while i < |transfers|
        invariant 0 <= i <= |transfers|
        invariant State() == ApplyTransfers(s0, transfers[..i], |tx.outputs|)
        invariant overflow == OverflowPositions(transfers[..i], |tx.outputs|)
        invariant collateralAccounts == old(collateralAccounts) && helperOutpoints == old(helperOutpoints)
      {
        var t := transfers[i];
        TransferStep(s0, transfers, |tx.outputs|, i);
        if t.output >= |tx.outputs| {
          overflow := overflow + [i];
        } else {
          MoveAllocation(t.output, BlockTxKey(t.asset), t.amount);
        }
        i := i + 1;
      }
      assert transfers[..i] == transfers;
      if |overflow| > 0 {
        return Some(OutputOverflow(overflow));
      }
      return None;
    }

    /** `commit_asset`: sends the leftovers to the first output that is not an
        OP_RETURN (or drops them when there is none), writes the list of every
        output under (txid, output) unless read-only, and empties the ledger. */
    method CommitAsset(tx: Tx)
      modifies this, database
      ensures unallocated == map[] && allocatedLists == map[]
      ensures collateralAccounts == old(collateralAccounts) && helperOutpoints == old(helperOutpoints)
      ensures isReadOnly ==> database.entries == old(database.entries)
      ensures !isReadOnly ==> Written(old(database.entries), database.entries, OutputKeys(tx.txid), Sweep(old(State()), FirstNonOpReturn(tx.outputs)))
    {
      SweepLeftovers(tx);
      WriteAllocated(tx.txid);
      unallocated := map[];
      allocatedLists := map[];
    }

    /** The second half of `commit_asset`: every output's list is stored under
        (txid, output), unless read-only. */
    method WriteAllocated(txid: string)
      modifies database
      ensures isReadOnly ==> database.entries == old(database.entries)
      ensures !isReadOnly ==> Written(old(database.entries), database.entries, OutputKeys(txid), allocatedLists)
    {
      var todo := allocatedLists.Keys;
      ghost var written: map<nat, AssetList> := map[];
      while todo != {}
        invariant todo <= allocatedLists.Keys
        invariant forall w :: w in written <==> w in allocatedLists && w !in todo
        invariant forall w :: w in written ==> written[w] == allocatedLists[w]
        invariant isReadOnly ==> database.entries == old(database.entries)
        invariant !isReadOnly ==> Written(old(database.entries), database.entries, OutputKeys(txid), written)
        decreases |todo|
      {
        var v :| v in todo;
        ghost var before := database.entries;
        SetAssetList(Outpoint(txid, v), allocatedLists[v]);
        if !isReadOnly {
          OutputKeysDistinct(txid, written.Keys, v);
          WrittenStep(old(database.entries), before, OutputKeys(txid), written, v, allocatedLists[v]);
        }
        written := written[v := allocatedLists[v]];
        todo := todo - {v};
      }
      assert written == allocatedLists;
    }

    /** The first half of `commit_asset`: every unallocated entry is moved, in
        full, to the first output that is not an OP_RETURN. */
    method SweepLeftovers(tx: Tx)
      modifies this
      ensures allocatedLists == Sweep(old(State()), FirstNonOpReturn(tx.outputs))
      ensures FirstNonOpReturn(tx.outputs).None? ==> unallocated == old(unallocated)
      ensures FirstNonOpReturn(tx.outputs).Some? ==> forall a ::
        (a in unallocated <==> a in old(unallocated) && old(unallocated)[a] == 0) && (a in unallocated ==> unallocated[a] == 0)
      ensures collateralAccounts == old(collateralAccounts) && helperOutpoints == old(helperOutpoints)
    {
      var list := unallocated;
      ghost var al0 := allocatedLists;
      ghost var target := FirstNonOpReturn(tx.outputs);
      var todo := list.Keys;
      ghost var moved: AssetList := map[];
      while todo != {}
        invariant list == old(unallocated)
        invariant todo <= list.Keys
        invariant forall a :: a in todo ==> a in unallocated && unallocated[a] == list[a]
        invariant target.None? ==> unallocated == list
        invariant target.Some? ==> forall b :: b in unallocated <==> b in list && (b in todo || list[b] == 0)
        invariant forall b :: b in unallocated ==> unallocated[b] == list[b]
        invariant forall a :: a in moved <==> a in list && a !in todo && list[a] > 0
        invariant forall a :: a in moved ==> moved[a] == list[a]
        invariant target.None? ==> allocatedLists == al0
        invariant target.Some? ==> allocatedLists == SweepTo(al0, target.value, moved)
        invariant collateralAccounts == old(collateralAccounts) && helperOutpoints == old(helperOutpoints)
        decreases |todo|
      {
        var a :| a in todo;
        var vout := FirstNonOpReturnIndex(tx.outputs);
        FirstNonOpReturnUnique(tx.outputs, vout);
        if vout.Some? {
          MoveInFull(State(), vout.value, a);
          MoveAllocation(vout.value, a, list[a]);
          if list[a] > 0 {
            SweepToStep(al0, vout.value, moved, a, list[a]);
            moved := moved[a := list[a]];
          }
        } else if list[a] > 0 {
          moved := moved[a := list[a]];
        }
        todo := todo - {a};
      }
      assert moved == Positive(list);
    }
  }

  /** Moving an asset's whole unallocated amount removes its entry and credits all of it. */
  lemma MoveInFull(s: LedgerState, vout: nat, a: AssetId)
    requires a in s.unallocated
    ensures Move(s, vout, a, s.unallocated[a]) ==
      if s.unallocated[a] == 0 then s
      else LedgerState(s.unallocated - {a}, Allocate(s.allocatedLists, vout, a, s.unallocated[a]))
  {
  }

  /** `after` is `before` with the list of every output in `lists` stored
      under the key `key` gives that output, and no other key changed. */
  ghost predicate Written(before: map<string, Raw>, after: map<string, Raw>, key: nat -> string, lists: map<nat, AssetList>) {
    (forall v :: v in lists ==> key(v) in after && after[key(v)] == Json(AssetListValue(lists[v]))) &&
    (forall k :: (forall v :: v in lists ==> k != key(v)) ==>
       (k in after <==> k in before) && (k in after ==> after[k] == before[k]))
  }

  /** The keys of the outputs of transaction `txid`. */
  function OutputKeys(txid: string): nat -> string {
    (v: nat) => AssetListKey(Outpoint(txid, v))
  }

  /** Storing one more output's list, under a key no written output has,
      extends what has been written. */
  lemma WrittenStep(e0: map<string, Raw>, e: map<string, Raw>, key: nat -> string, lists: map<nat, AssetList>, v: nat, list: AssetList)
    requires Written(e0, e, key, lists) && v !in lists
    requires forall w :: w in lists ==> key(w) != key(v)
    ensures Written(e0, e[key(v) := Json(AssetListValue(list))], key, lists[v := list])
  {
    var e' := e[key(v) := Json(AssetListValue(list))];
    var lists' := lists[v := list];
    forall w | w in lists'
      ensures key(w) in e' && e'[key(w)] == Json(AssetListValue(lists'[w]))
    {
      if w != v {
        assert key(w) != key(v);
      }
    }
    forall k | (forall w :: w in lists' ==> k != key(w))
      ensures (k in e' <==> k in e0) && (k in e' ==> e'[k] == e0[k])
    {
      assert k != key(v);
      assert forall w :: w in lists ==> k != key(w);
    }
  }

  /** Different outputs of one transaction have different keys. */
  lemma OutputKeysDistinct(txid: string, vs: set<nat>, v: nat)
    requires v !in vs
    ensures forall w :: w in vs ==> OutputKeys(txid)(w) != OutputKeys(txid)(v)
  {
    forall w | w in vs
      ensures OutputKeys(txid)(w) != OutputKeys(txid)(v)
    {
      if AssetListKey(Outpoint(txid, w)) == AssetListKey(Outpoint(txid, v)) {
        AssetListKeyInjective(txid, w, v);
      }
    }
  }

  /** `al` with the amounts of `moved` added to output `v` (no change when nothing moved). */
  function SweepTo(al: map<nat, AssetList>, v: nat, moved: AssetList): map<nat, AssetList> {
    if moved == map[] then al else al[v := AddAll(ListAt(al, v), moved)]
  }

  /** Moving one more asset in full extends the sweep by that asset. */
  lemma SweepToStep(al: map<nat, AssetList>, v: nat, moved: AssetList, a: AssetId, amount: nat)
    requires a !in moved && amount > 0
    ensures Allocate(SweepTo(al, v, moved), v, a, amount) == SweepTo(al, v, moved[a := amount])
  {
    var l := ListAt(al, v);
    if moved == map[] {
      AddAllNothing(l);
    }
    assert ListAt(SweepTo(al, v, moved), v) == AddAll(l, moved);
    CreditAddAll(l, moved, a, amount);
  }

  /** Adding nothing leaves a list as it was. */
  lemma AddAllNothing(l: AssetList)
    ensures AddAll(l, map[]) == l
  {
    var r := AddAll(l, map[]);
    forall b | b in r
      ensures r[b] == l[b]
    {
      assert Amount(r, b) == Amount(l, b);
    }
  }

  /** Crediting one more asset after adding a list is adding the longer list. */
  lemma CreditAddAll(l: AssetList, m: AssetList, a: AssetId, amount: nat)
    requires a !in m
    ensures Credit(AddAll(l, m), a, amount) == AddAll(l, m[a := amount])
  {
    var r1 := Credit(AddAll(l, m), a, amount);
    var r2 := AddAll(l, m[a := amount]);
    assert m[a := amount].Keys == m.Keys + {a};
    assert r1.Keys == r2.Keys;
    forall b | b in r2
      ensures r1[b] == r2[b]
    {
      assert Amount(r1, b) == r1[b] && Amount(r2, b) == r2[b];
      if b != a {
        assert Amount(r1, b) == Amount(AddAll(l, m), b);
      }
    }
  }
}
