/** The burn rules of src/updater/burn.rs: returning the collateral of a
    mint/burn asset when it is burned (by a ratio, from a proportional pool, or
    by settling a collateral account) and the `burn` dispatch. They read the
    contract message in the three-optional-field shape of message.rs. */
module Burn {
  import opened Wrappers
  import opened Arith
  import opened Chain
  import opened Records
  import opened Store
  import opened Ledger
  import opened Messages

  /** The helpers burn.rs calls whose bodies are not part of this model:
      `validate_and_calculate_ratio_type`, `validate_pointer`,
      `validate_oracle_message`, the flaw of `validate_and_update_supply_cap`
      and `check_live_time`. */
  datatype BurnHooks = BurnHooks(
    ratioOutValue: (RatioType, nat, MintBurnOption, Tx, BlockTx) -> Result<nat, Flaw>,
    validatePointer: (nat, Tx) -> Option<Flaw>,
    validateOracleMessage: (OracleMessageSigned, OracleSetting, BlockTx) -> Option<Flaw>,
    supplyCapFlaw: (BlockTx, nat) -> Option<Flaw>,
    liveTimeFlaw: (nat, Option<nat>, nat, nat) -> Option<Flaw>)

  /** The per-transaction ledger a burn works on: the unallocated assets, the
      allocated lists, and the unallocated collateral accounts with the
      outpoints that carried them. */
  datatype Books = Books(
    unallocated: AssetList,
    allocatedLists: map<nat, AssetList>,
    collateralAccounts: map<AssetId, CollateralAccount>,
    helperOutpoints: map<CollateralAccount, Outpoint>)

  /** The ledger and the store together. */
  datatype BurnState = BurnState(books: Books, entries: map<string, Raw>)

  /** How a step of a burn ends: it goes on with a new state, it stops with a
      flaw (keeping what it changed so far), or the program panics. */
  datatype Outcome<S> = Proceed(state: S) | Stop(flaw: Flaw, state: S) | Crash

  ghost function BooksOf(u: Updater): Books
    reads u
  {
    Books(u.unallocated, u.allocatedLists, u.collateralAccounts, u.helperOutpoints)
  }

  ghost function StateOf(u: Updater): BurnState
    reads u, u.database
  {
    BurnState(BooksOf(u), u.database.entries)
  }

  /** The store key of a contract's pool record. */
  function PoolKey(contract: BlockTx): string {
    ComposeKey(COLLATERALIZED_CONTRACT_DATA, BlockTxKey(contract))
  }

  /** The contract's pool record, when one is stored and readable. */
  function PoolAt(entries: map<string, Raw>, contract: BlockTx): (r: Option<CollateralizedAssetData>)
    ensures r.Some? <==> (PoolKey(contract) in entries && entries[PoolKey(contract)].Json? &&
      entries[PoolKey(contract)].value.PoolValue?)
    ensures r.Some? ==> entries[PoolKey(contract)] == Json(PoolValue(r.value))
  {
    match Lookup(entries, PoolKey(contract), PoolKind)
    case Success(v) => if v.PoolValue? then Some(v.pool) else None
    case Failure(_) => None
  }

  /** The scale of a pool share. */
  const SHARE_SCALE: nat := 1_000_000

  /** A pool withdrawal: the pool after it, the share of the pool burned (in
      millionths) and the amounts of its two assets returned. */
  datatype Withdrawal = Withdrawal(pool: CollateralizedAssetData, share: nat, return0: nat, return1: nat)

  /** The proportional withdrawal of `burned` pool tokens, identical in the
      constant-product and constant-sum branches: share = burned*10^6/total
      supply and return_i = amount_i*share/10^6, the products saturating;
      a zero total supply panics in `saturating_div`. */
  function PoolWithdrawal(pool: CollateralizedAssetData, burned: nat, a0: AssetId, a1: AssetId): (r: Exit<Result<Withdrawal, Flaw>>)
    ensures (a0 !in pool.amounts || a1 !in pool.amounts) ==> r == Return(Failure(PoolNotFound))
    ensures (a0 in pool.amounts && a1 in pool.amounts) ==> (r.Panic? <==> pool.totalSupply == 0)
    ensures (a0 in pool.amounts && a1 in pool.amounts && pool.totalSupply > 0) ==>
      r.Return? && (r.value.Failure? ==> r.value.error == InsufficientOutputAmount)
    ensures (a0 in pool.amounts && a1 in pool.amounts && pool.totalSupply > 0) ==>
      var share := SatMul128(burned, SHARE_SCALE) / pool.totalSupply;
      (r == Return(Failure(InsufficientOutputAmount)) <==>
        SatMul128(pool.amounts[a0], share) / SHARE_SCALE == 0 || SatMul128(pool.amounts[a1], share) / SHARE_SCALE == 0)
    ensures r.Return? && r.value.Success? ==>
      var w := r.value.value;
      a0 in pool.amounts && a1 in pool.amounts && w.return0 > 0 && w.return1 > 0 &&
      w.share * pool.totalSupply <= SatMul128(burned, SHARE_SCALE) < (w.share + 1) * pool.totalSupply &&
      w.return0 * SHARE_SCALE <= SatMul128(pool.amounts[a0], w.share) < (w.return0 + 1) * SHARE_SCALE &&
      w.return1 * SHARE_SCALE <= SatMul128(pool.amounts[a1], w.share) < (w.return1 + 1) * SHARE_SCALE &&
      w.pool.amounts.Keys == pool.amounts.Keys &&
      w.pool.amounts[a1] == SatSub(pool.amounts[a1], w.return1) &&
      (a0 != a1 ==> w.pool.amounts[a0] == SatSub(pool.amounts[a0], w.return0)) &&
      (forall b :: b in pool.amounts && b != a0 && b != a1 ==> w.pool.amounts[b] == pool.amounts[b]) &&
      w.pool.totalSupply == SatSub(pool.totalSupply, burned)
  {
    if a0 !in pool.amounts || a1 !in pool.amounts then Return(Failure(PoolNotFound))
    else if pool.totalSupply == 0 then Panic
    else
      var share := SatMul128(burned, SHARE_SCALE) / pool.totalSupply;
      var r0 := SatMul128(pool.amounts[a0], share) / SHARE_SCALE;
      var r1 := SatMul128(pool.amounts[a1], share) / SHARE_SCALE;
      if r0 == 0 || r1 == 0 then Return(Failure(InsufficientOutputAmount))
      else
        var amounts := pool.amounts[a0 := SatSub(pool.amounts[a0], r0)][a1 := SatSub(pool.amounts[a1], r1)];
        Return(Success(Withdrawal(CollateralizedAssetData(amounts, SatSub(pool.totalSupply, burned)), share, r0, r1)))
  }

  /** x/d <= q when x <= q*d. */
  lemma DivAtMost(x: nat, d: nat, q: nat)
    requires d > 0 && x <= q * d
    ensures x / d <= q
  {
    assert (x / d) * d <= x;
    assert (x / d - q) * d <= 0;
  }

  /** Burning no more than the total supply takes a share of at most 10^6,
      so each asset returned is at most what the pool holds, and the pool
      keeps exactly the rest. */
  lemma WithdrawalWithinPool(pool: CollateralizedAssetData, burned: nat, a0: AssetId, a1: AssetId)
    requires a0 in pool.amounts && a1 in pool.amounts && a0 != a1
    requires 0 < pool.totalSupply && burned <= pool.totalSupply
    ensures var r := PoolWithdrawal(pool, burned, a0, a1);
      r.Return? && (r.value.Success? ==>
        var w := r.value.value;
        w.return0 <= pool.amounts[a0] && w.return1 <= pool.amounts[a1] &&
        w.pool.amounts[a0] + w.return0 == pool.amounts[a0] &&
        w.pool.amounts[a1] + w.return1 == pool.amounts[a1] &&
        w.pool.totalSupply + burned == pool.totalSupply)
  {
    var share := SatMul128(burned, SHARE_SCALE) / pool.totalSupply;
    assert burned * SHARE_SCALE <= pool.totalSupply * SHARE_SCALE;
    DivAtMost(SatMul128(burned, SHARE_SCALE), pool.totalSupply, SHARE_SCALE);
    ReturnAtMost(pool.amounts[a0], share);
    ReturnAtMost(pool.amounts[a1], share);
  }

  /** amount*share/10^6 <= amount when share <= 10^6. */
  lemma ReturnAtMost(amount: nat, share: nat)
    requires share <= SHARE_SCALE
    ensures SatMul128(amount, share) / SHARE_SCALE <= amount
  {
    assert amount * share <= amount * SHARE_SCALE;
    DivAtMost(SatMul128(amount, share), SHARE_SCALE, amount);
  }

  /** The proportional branch of `burn_return_collateral` on the store: the
      first two input assets name the pool's assets, the pool record is read,
      withdrawn from and (unless read-only) written back; the two returned
      amounts go on to be allocated. Every flaw comes before the write. */
  function ProportionalBurn(entries: map<string, Raw>, readOnly: bool, assets: seq<InputAsset>, contract: BlockTx,
                            burned: nat): Exit<Result<(map<string, Raw>, seq<nat>), Flaw>>
  {
    if |assets| == 0 then Panic
    else if !assets[0].GlittrAsset? then Return(Failure(PoolNotFound))
    else if |assets| == 1 then Panic
    else if !assets[1].GlittrAsset? then Return(Failure(PoolNotFound))
    else
      match PoolAt(entries, contract)
      case None => Return(Failure(PoolNotFound))
      case Some(pool) =>
        match PoolWithdrawal(pool, burned, BlockTxKey(assets[0].id), BlockTxKey(assets[1].id))
        case Panic => Panic
        case Return(Failure(f)) => Return(Failure(f))
        case Return(Success(w)) =>
          var written := if readOnly then entries else entries[PoolKey(contract) := Json(PoolValue(w.pool))];
          Return(Success((written, [w.return0, w.return1])))
  }

  /** A proportional burn that succeeds stores the withdrawn pool (unless
      read-only, when the store is unchanged) and returns the two amounts of
      that withdrawal; a missing pool record is PoolNotFound. */
  lemma ProportionalBurnStores(entries: map<string, Raw>, readOnly: bool, assets: seq<InputAsset>, contract: BlockTx, burned: nat)
    ensures var r := ProportionalBurn(entries, readOnly, assets, contract, burned);
      (|assets| >= 2 && assets[0].GlittrAsset? && assets[1].GlittrAsset? && PoolAt(entries, contract).None? ==>
        r == Return(Failure(PoolNotFound))) &&
      ((|assets| >= 1 && !assets[0].GlittrAsset?) || (|assets| >= 2 && !assets[1].GlittrAsset?) ==>
        r.Return? && r.value == Failure(PoolNotFound)) &&
      (r.Return? && r.value.Success? ==>
        |assets| >= 2 && assets[0].GlittrAsset? && assets[1].GlittrAsset? && PoolAt(entries, contract).Some? &&
        var w := PoolWithdrawal(PoolAt(entries, contract).value, burned, BlockTxKey(assets[0].id), BlockTxKey(assets[1].id));
        w.Return? && w.value.Success? &&
        r.value.value.1 == [w.value.value.return0, w.value.value.return1] &&
        (readOnly ==> r.value.value.0 == entries) &&
        (!readOnly ==> (PoolAt(r.value.value.0, contract) == Some(w.value.value.pool) &&
           forall k :: k != PoolKey(contract) ==> ((k in r.value.value.0 <==> k in entries) &&
             (k in entries ==> r.value.value.0[k] == entries[k])))))
  {
  }

  /** The oracle settlement of a collateral-account burn (the part that runs
      when the burn carries an oracle message naming an input outpoint): the
      oracle check when the contract names an oracle, the required ltv,
      outstanding amount and out value, and the remainder of the burned
      amount over the out value, sent to the pointer or back to unallocated. */
  function OracleSettlement(b: Books, key: AssetId, tx: Tx, burned: nat, rc: ReturnCollateral, option: MintBurnOption,
                            block: BlockTx, helper: Option<Outpoint>, hooks: BurnHooks): (r: Outcome<Books>)
    ensures (option.oracleMessage.None? || option.oracleMessage.value.message.inputOutpoint.None?) ==> r == Proceed(b)
    ensures r.Crash? <==> (option.oracleMessage.Some? && option.oracleMessage.value.message.inputOutpoint.Some? &&
      rc.oracleSetting.Some? && helper.None?)
    ensures r.Proceed? && option.oracleMessage.Some? && option.oracleMessage.value.message.inputOutpoint.Some? ==>
      var m := option.oracleMessage.value.message;
      m.ltv.Some? && m.outstanding.Some? && m.outValue.Some? && m.outValue.value <= burned &&
      (rc.oracleSetting.Some? ==> (helper == m.inputOutpoint &&
        hooks.validateOracleMessage(option.oracleMessage.value, rc.oracleSetting.value, block).None?)) &&
      (burned > m.outValue.value && option.pointer.Some? ==> hooks.validatePointer(option.pointer.value, tx).None?) &&
      r.state.collateralAccounts == b.collateralAccounts && r.state.helperOutpoints == b.helperOutpoints &&
      (burned == m.outValue.value ==> r.state == b) &&
      (burned > m.outValue.value && option.pointer.None? ==>
        r.state == b.(unallocated := b.unallocated[key := burned - m.outValue.value])) &&
      (burned > m.outValue.value && option.pointer.Some? ==>
        r.state == b.(allocatedLists := Allocate(b.allocatedLists, option.pointer.value, key, burned - m.outValue.value)))
    ensures r.Stop? ==> r.state == b
    ensures option.oracleMessage.Some? && option.oracleMessage.value.message.inputOutpoint.Some? ==>
      var om := option.oracleMessage.value;
      var m := om.message;
      ((rc.oracleSetting.None? ||
         (helper == m.inputOutpoint && hooks.validateOracleMessage(om, rc.oracleSetting.value, block).None?)) &&
       m.ltv.Some? && m.outstanding.Some? && m.outValue.Some? && m.outValue.value <= burned &&
       (burned > m.outValue.value && option.pointer.Some? ==> hooks.validatePointer(option.pointer.value, tx).None?)) ==>
        r.Proceed?
  {
    if option.oracleMessage.None? || option.oracleMessage.value.message.inputOutpoint.None? then Proceed(b)
    else
      var om := option.oracleMessage.value;
      var m := om.message;
      var check: Outcome<Books> :=
        if rc.oracleSetting.None? then Proceed(b)
        else if helper.None? then Crash
        else if m.inputOutpoint.value != helper.value then Stop(OracleMintFailed, b)
        else match hooks.validateOracleMessage(om, rc.oracleSetting.value, block)
          case Some(f) => Stop(f, b)
          case None => Proceed(b);
      if !check.Proceed? then check
      else if m.ltv.None? then Stop(LtvMustBeUpdated, b)
      else if m.outstanding.None? then Stop(OutstandingMustBeUpdated, b)
      else if m.outValue.None? then Stop(OutValueNotFound, b)
      else if burned < m.outValue.value then Stop(BurnValueIncorrect, b)
      else
        var remainder := burned - m.outValue.value;
        if remainder == 0 then Proceed(b)
        else
          match option.pointer
          case Some(p) =>
            (match hooks.validatePointer(p, tx)
             case Some(f) => Stop(f, b)
             case None => Proceed(b.(allocatedLists := Allocate(b.allocatedLists, p, key, remainder))))
          case None => Proceed(b.(unallocated := b.unallocated[key := remainder]))
  }

  /** The flaws of the oracle settlement, in their order: with an oracle
      setting, a missing account outpoint panics, an oracle outpoint that is
      not the account's is OracleMintFailed and a rejected oracle message gives
      its own flaw; then a missing ltv, outstanding amount or out value, and an
      out value above the burned amount, each give their own flaw; last, a
      pointer for the remainder that fails validation gives its flaw. When
      every check passes the settlement goes on. */
  lemma OracleSettlementFlaws(b: Books, key: AssetId, tx: Tx, burned: nat, rc: ReturnCollateral, option: MintBurnOption,
                              block: BlockTx, helper: Option<Outpoint>, hooks: BurnHooks)
    requires option.oracleMessage.Some? && option.oracleMessage.value.message.inputOutpoint.Some?
    ensures var m := option.oracleMessage.value.message;
      var r := OracleSettlement(b, key, tx, burned, rc, option, block, helper, hooks);
      var checked := rc.oracleSetting.None? ||
        (helper == m.inputOutpoint && hooks.validateOracleMessage(option.oracleMessage.value, rc.oracleSetting.value, block).None?);
      (rc.oracleSetting.Some? && helper.Some? && helper != m.inputOutpoint ==> r == Stop(OracleMintFailed, b)) &&
      (checked && m.ltv.None? ==> r == Stop(LtvMustBeUpdated, b)) &&
      (checked && m.ltv.Some? && m.outstanding.None? ==> r == Stop(OutstandingMustBeUpdated, b)) &&
      (checked && m.ltv.Some? && m.outstanding.Some? && m.outValue.None? ==> r == Stop(OutValueNotFound, b)) &&
      (checked && m.ltv.Some? && m.outstanding.Some? && m.outValue.Some? && burned < m.outValue.value ==>
        r == Stop(BurnValueIncorrect, b)) &&
      (checked && m.ltv.Some? && m.outstanding.Some? && m.outValue.Some? && burned > m.outValue.value &&
        option.pointer.Some? && hooks.validatePointer(option.pointer.value, tx).Some? ==>
        r == Stop(hooks.validatePointer(option.pointer.value, tx).value, b)) &&
      (checked && m.ltv.Some? && m.outstanding.Some? && m.outValue.Some? && m.outValue.value <= burned &&
        (burned > m.outValue.value && option.pointer.Some? ==> hooks.validatePointer(option.pointer.value, tx).None?) ==>
        r.Proceed?)
    ensures var om := option.oracleMessage.value;
      var r := OracleSettlement(b, key, tx, burned, rc, option, block, helper, hooks);
      (r.Crash? <==> rc.oracleSetting.Some? && helper.None?) &&
      (rc.oracleSetting.Some? && helper == om.message.inputOutpoint &&
        hooks.validateOracleMessage(om, rc.oracleSetting.value, block).Some? ==>
        r == Stop(hooks.validateOracleMessage(om, rc.oracleSetting.value, block).value, b))
  {
  }

  /** The collateral-account branch of `burn_return_collateral`: the
      contract's account and the outpoint that carried it are taken out of the
      unallocated ledger, the oracle settlement runs, and a pointer to the key
      output is required. */
  function AccountBurn(b: Books, key: AssetId, tx: Tx, burned: nat, rc: ReturnCollateral, option: MintBurnOption,
                       block: BlockTx, hooks: BurnHooks): (r: Outcome<Books>)
    ensures key !in b.collateralAccounts ==> r == Stop(CollateralAccountNotFound, b)
    ensures !r.Crash? && key in b.collateralAccounts ==>
      r.state.collateralAccounts == b.collateralAccounts - {key} &&
      r.state.helperOutpoints == b.helperOutpoints - {b.collateralAccounts[key]}
    ensures r.Proceed? ==> option.pointerToKey.Some? && hooks.validatePointer(option.pointerToKey.value, tx).None?
    ensures key in b.collateralAccounts ==>
      var account := b.collateralAccounts[key];
      var helper := if account in b.helperOutpoints then Some(b.helperOutpoints[account]) else None;
      var b1 := b.(collateralAccounts := b.collateralAccounts - {key}, helperOutpoints := b.helperOutpoints - {account});
      var o := OracleSettlement(b1, key, tx, burned, rc, option, block, helper, hooks);
      (r.Crash? <==> o.Crash?) &&
      (o.Stop? ==> r == o) &&
      (o.Proceed? ==> (!r.Crash? && r.state == o.state &&
         (option.pointerToKey.None? ==> r == Stop(PointerKeyNotFound, o.state)) &&
         (option.pointerToKey.Some? ==> (r.Proceed? <==> hooks.validatePointer(option.pointerToKey.value, tx).None?))))
  {
    if key !in b.collateralAccounts then Stop(CollateralAccountNotFound, b)
    else
      var account := b.collateralAccounts[key];
      var helper := if account in b.helperOutpoints then Some(b.helperOutpoints[account]) else None;
      var b1 := b.(collateralAccounts := b.collateralAccounts - {key}, helperOutpoints := b.helperOutpoints - {account});
      match OracleSettlement(b1, key, tx, burned, rc, option, block, helper, hooks)
      case Crash => Crash
      case Stop(f, b2) => Stop(f, b2)
      case Proceed(b2) =>
        match option.pointerToKey
        case None => Stop(PointerKeyNotFound, b2)
        case Some(k) =>
          match hooks.validatePointer(k, tx)
          case Some(f) => Stop(f, b2)
          case None => Proceed(b2)
  }

  /** The branch of `burn_return_collateral` chosen by the mint structure: the
      state after it and the amounts to return, one per input asset. */
  function StructureStep(s: BurnState, readOnly: bool, c: Collateralized, rc: ReturnCollateral, tx: Tx, block: BlockTx,
                         contract: BlockTx, option: MintBurnOption, burned: nat, hooks: BurnHooks): Outcome<(BurnState, seq<nat>)>
  {
    match c.mintStructure
    case Ratio(rt) =>
      (match hooks.ratioOutValue(rt, burned, option, tx, block)
       case Failure(f) => Stop(f, (s, []))
       case Success(v) => Proceed((s, [v])))
    case Proportional(_) =>
      (match ProportionalBurn(s.entries, readOnly, c.inputAssets, contract, burned)
       case Panic => Crash
       case Return(Failure(f)) => Stop(f, (s, []))
       case Return(Success((e, outs))) => Proceed((s.(entries := e), outs)))
    case AccountStructure =>
      match AccountBurn(s.books, BlockTxKey(contract), tx, burned, rc, option, block, hooks)
      case Crash => Crash
      case Stop(f, b) => Stop(f, (s.(books := b), []))
      case Proceed(b) => Proceed((s.(books := b), []))
  }

  /** The final allocation loop: the amount at position i goes to output
      `pointer` as the i-th input asset, when that asset is a Glittr asset. */
  function AllocateReturns(al: map<nat, AssetList>, pointer: nat, assets: seq<InputAsset>, outs: seq<nat>): map<nat, AssetList>
    requires |outs| <= |assets|
  {
    if outs == [] then al
    else
      var n := |outs| - 1;
      var before := AllocateReturns(al, pointer, assets, outs[..n]);
      if assets[n].GlittrAsset? then Allocate(before, pointer, BlockTxKey(assets[n].id), outs[n]) else before
  }

  /** The total of the amounts in `outs` whose input asset is the Glittr asset named `a`. */
  function ReturnedOf(assets: seq<InputAsset>, outs: seq<nat>, a: AssetId): nat
    requires |outs| <= |assets|
  {
    if outs == [] then 0
    else
      var n := |outs| - 1;
      ReturnedOf(assets, outs[..n], a) + (if assets[n].GlittrAsset? && BlockTxKey(assets[n].id) == a then outs[n] else 0)
  }

  /** The final allocation credits output `pointer` with every amount returned
      for each asset (when the sums do not saturate) and leaves every other
      output as it was. */
  lemma {:induction false} AllocateReturnsCredits(al: map<nat, AssetList>, pointer: nat, assets: seq<InputAsset>, outs: seq<nat>, a: AssetId)
    requires |outs| <= |assets|
    ensures var r := AllocateReturns(al, pointer, assets, outs);
      forall v :: v in al && v != pointer ==> v in r && r[v] == al[v]
    ensures var r := AllocateReturns(al, pointer, assets, outs);
      Amount(ListAt(al, pointer), a) + ReturnedOf(assets, outs, a) <= U128_MAX ==>
        Amount(ListAt(r, pointer), a) == Amount(ListAt(al, pointer), a) + ReturnedOf(assets, outs, a)
  {
    if outs != [] {
      var n := |outs| - 1;
      AllocateReturnsCredits(al, pointer, assets, outs[..n], a);
    }
  }

  /** `burn_return_collateral` after the branch: the supply-cap update, then,
      when the burn names a pointer, the returned amounts allocated to it. */
  function Settle(s: BurnState, assets: seq<InputAsset>, outs: seq<nat>, tx: Tx, contract: BlockTx,
                  option: MintBurnOption, burned: nat, hooks: BurnHooks): Exit<(Option<Flaw>, BurnState)>
  {
    match hooks.supplyCapFlaw(contract, burned)
    case Some(f) => Return((Some(f), s))
    case None =>
      match option.pointer
      case None => Return((None, s))
      case Some(p) =>
        match hooks.validatePointer(p, tx)
        case Some(f) => Return((Some(f), s))
        case None =>
          if |outs| > |assets| then Panic
          else Return((None, s.(books := s.books.(allocatedLists := AllocateReturns(s.books.allocatedLists, p, assets, outs)))))
  }

  /** `burn_return_collateral`: the burned amount is the contract's own
      unallocated entry, which is taken out first. */
  function BurnCollateralEffect(st: BurnState, readOnly: bool, mba: MintBurnAssetContract, rc: ReturnCollateral, tx: Tx,
                                block: BlockTx, contract: BlockTx, option: MintBurnOption, hooks: BurnHooks): Exit<(Option<Flaw>, BurnState)>
  {
    var key := BlockTxKey(contract);
    var burned := Amount(st.books.unallocated, key);
    var s1 := st.(books := st.books.(unallocated := st.books.unallocated - {key}));
    if burned == 0 then Return((Some(InsufficientInputAmount), s1))
    else
      match mba.mintMechanism.collateralized
      case None => Return((Some(InvalidContractType), s1))
      case Some(c) =>
        match StructureStep(s1, readOnly, c, rc, tx, block, contract, option, burned, hooks)
        case Crash => Panic
        case Stop(f, (s2, _)) => Return((Some(f), s2))
        case Proceed((s2, outs)) => Settle(s2, c.inputAssets, outs, tx, contract, option, burned, hooks)
  }

  /** A burn with nothing of the contract's asset unallocated is
      InsufficientInputAmount, and one whose contract has no collateralized
      mint mechanism is InvalidContractType; both leave only the contract's
      unallocated entry removed. */
  lemma BurnNeedsInputAndCollateral(st: BurnState, readOnly: bool, mba: MintBurnAssetContract, rc: ReturnCollateral, tx: Tx,
                                    block: BlockTx, contract: BlockTx, option: MintBurnOption, hooks: BurnHooks)
    ensures var key := BlockTxKey(contract);
      var s1 := st.(books := st.books.(unallocated := st.books.unallocated - {key}));
      var r := BurnCollateralEffect(st, readOnly, mba, rc, tx, block, contract, option, hooks);
      (Amount(st.books.unallocated, key) == 0 ==> r == Return((Some(InsufficientInputAmount), s1))) &&
      (Amount(st.books.unallocated, key) > 0 && mba.mintMechanism.collateralized.None? ==>
        r == Return((Some(InvalidContractType), s1)))
  {
  }

  /** Where `burn` sends a call, from the contract's creation message. */
  datatype BurnRoute = BurnDone(flaw: Option<Flaw>) | ToMintBurnAsset(mba: MintBurnAssetContract)

  /** `burn` as a dispatch: a parse flaw passes on, a mint-only asset burns to
      no effect, a mint/burn asset goes on, anything else is ContractNotMatch. */
  function RouteBurn(message: Result<OpReturnMessage, Flaw>): (r: BurnRoute)
    ensures message.Failure? ==> r == BurnDone(Some(message.error))
    ensures message.Success? && message.value.contractCreation.None? ==> r == BurnDone(Some(ContractNotMatch))
    ensures message.Success? && message.value.contractCreation.Some? ==>
      var t := message.value.contractCreation.value.contractType;
      (t.Moa? ==> r == BurnDone(None)) && (t.Mba? ==> r == ToMintBurnAsset(t.mba)) &&
      (t.Spec? || t.Nft? ==> r == BurnDone(Some(ContractNotMatch)))
  {
    match message
    case Failure(f) => BurnDone(Some(f))
    case Success(m) =>
      match m.contractCreation
      case None => BurnDone(Some(ContractNotMatch))
      case Some(cc) =>
        match cc.contractType
        case Moa(_) => BurnDone(None)
        case Mba(mba) => ToMintBurnAsset(mba)
        case _ => BurnDone(Some(ContractNotMatch))
  }

  /** `burn`, on the ledger and the store. */
  function BurnEffect(st: BurnState, readOnly: bool, tx: Tx, block: BlockTx, contract: BlockTx, option: MintBurnOption,
                      message: Result<OpReturnMessage, Flaw>, hooks: BurnHooks): Exit<(Option<Flaw>, BurnState)>
  {
    match RouteBurn(message)
    case BurnDone(f) => Return((f, st))
    case ToMintBurnAsset(mba) =>
      match hooks.liveTimeFlaw(mba.liveTime, mba.endTime, contract.block, block.block)
      case Some(f) => Return((Some(f), st))
      case None =>
        match mba.burnMechanism.returnCollateral
        case None => Return((Some(NotImplemented), st))
        case Some(rc) => BurnCollateralEffect(st, readOnly, mba, rc, tx, block, contract, option, hooks)
  }

  /** A mint/burn asset without a return-collateral mechanism is
      NotImplemented once its live time passes, and changes nothing. */
  lemma BurnWithoutReturnCollateral(st: BurnState, readOnly: bool, tx: Tx, block: BlockTx, contract: BlockTx,
                                    option: MintBurnOption, message: Result<OpReturnMessage, Flaw>, hooks: BurnHooks)
    requires RouteBurn(message).ToMintBurnAsset?
    ensures var mba := RouteBurn(message).mba;
      hooks.liveTimeFlaw(mba.liveTime, mba.endTime, contract.block, block.block).None? &&
      mba.burnMechanism.returnCollateral.None? ==>
        BurnEffect(st, readOnly, tx, block, contract, option, message, hooks) == Return((Some(NotImplemented), st))
  {
  }

  /** The proportional branch of `burn_return_collateral`, on the store. */
  method WithdrawFromPool(u: Updater, assets: seq<InputAsset>, contract: BlockTx, burned: nat)
    returns (r: Exit<Result<seq<nat>, Flaw>>)
    modifies u.database
    ensures match ProportionalBurn(old(u.database.entries), u.isReadOnly, assets, contract, burned)
      case Panic => r.Panic?
      case Return(Failure(f)) => r == Return(Failure(f)) && u.database.entries == old(u.database.entries)
      case Return(Success((e, outs))) => r == Return(Success(outs)) && u.database.entries == e
  {
    if |assets| == 0 {
      return Panic;
    }
    if !assets[0].GlittrAsset? {
      return Return(Failure(PoolNotFound));
    }
    if |assets| == 1 {
      return Panic;
    }
    if !assets[1].GlittrAsset? {
      return Return(Failure(PoolNotFound));
    }
    var a0 := BlockTxKey(assets[0].id);
    var a1 := BlockTxKey(assets[1].id);
    var got := u.database.Get(COLLATERALIZED_CONTRACT_DATA, BlockTxKey(contract), PoolKind);
    if got.Failure? || !got.value.PoolValue? {
      return Return(Failure(PoolNotFound));
    }
    var pool := got.value.pool;
    if a0 !in pool.amounts || a1 !in pool.amounts {
      return Return(Failure(PoolNotFound));
    }
    var amount0 := pool.amounts[a0];
    var amount1 := pool.amounts[a1];
    if pool.totalSupply == 0 {
      return Panic;
    }
    var share := SatMul128(burned, SHARE_SCALE) / pool.totalSupply;
    var return0 := SatMul128(amount0, share) / SHARE_SCALE;
    var return1 := SatMul128(amount1, share) / SHARE_SCALE;
    if return0 == 0 || return1 == 0 {
      return Return(Failure(InsufficientOutputAmount));
    }
    var amounts := pool.amounts[a0 := SatSub(amount0, return0)];
    amounts := amounts[a1 := SatSub(amount1, return1)];
    pool := CollateralizedAssetData(amounts, SatSub(pool.totalSupply, burned));
    if !u.isReadOnly {
      u.database.Put(COLLATERALIZED_CONTRACT_DATA, BlockTxKey(contract), PoolValue(pool));
    }
    r := Return(Success([return0, return1]));
  }

  /** The oracle settlement of a collateral-account burn, on the ledger. */
  method SettleWithOracle(u: Updater, key: AssetId, tx: Tx, burned: nat, rc: ReturnCollateral, option: MintBurnOption,
                          block: BlockTx, helper: Option<Outpoint>, hooks: BurnHooks) returns (r: Exit<Option<Flaw>>)
    modifies u
    ensures match OracleSettlement(old(BooksOf(u)), key, tx, burned, rc, option, block, helper, hooks)
      case Crash => r.Panic?
      case Stop(f, b) => r == Return(Some(f)) && BooksOf(u) == b
      case Proceed(b) => r == Return(None) && BooksOf(u) == b
  {
    if option.oracleMessage.None? || option.oracleMessage.value.message.inputOutpoint.None? {
      return Return(None);
    }
    var om := option.oracleMessage.value;
    var expected := om.message.inputOutpoint.value;
    if rc.oracleSetting.Some? {
      if helper.None? {
        return Panic;
      }
      if expected != helper.value {
        return Return(Some(OracleMintFailed));
      }
      var flaw := hooks.validateOracleMessage(om, rc.oracleSetting.value, block);
      if flaw.Some? {
        return Return(flaw);
      }
    }
    if om.message.ltv.None? {
      return Return(Some(LtvMustBeUpdated));
    }
    if om.message.outstanding.None? {
      return Return(Some(OutstandingMustBeUpdated));
    }
    if om.message.outValue.None? {
      return Return(Some(OutValueNotFound));
    }
    var outValue := om.message.outValue.value;
    if burned < outValue {
      return Return(Some(BurnValueIncorrect));
    }
    var remainder := burned - outValue;
    if remainder > 0 {
      if option.pointer.Some? {
        var flaw := hooks.validatePointer(option.pointer.value, tx);
        if flaw.Some? {
          return Return(flaw);
        }
        u.AllocateNewAsset(option.pointer.value, key, remainder);
      } else {
        u.unallocated := u.unallocated[key := remainder];
      }
    }
    r := Return(None);
  }

  /** The collateral-account branch of `burn_return_collateral`, on the ledger. */
  method SettleAccount(u: Updater, key: AssetId, tx: Tx, burned: nat, rc: ReturnCollateral, option: MintBurnOption,
                       block: BlockTx, hooks: BurnHooks) returns (r: Exit<Option<Flaw>>)
    modifies u
    ensures match AccountBurn(old(BooksOf(u)), key, tx, burned, rc, option, block, hooks)
      case Crash => r.Panic?
      case Stop(f, b) => r == Return(Some(f)) && BooksOf(u) == b
      case Proceed(b) => r == Return(None) && BooksOf(u) == b
  {
    if key !in u.collateralAccounts {
      return Return(Some(CollateralAccountNotFound));
    }
    var account := u.collateralAccounts[key];
    u.collateralAccounts := u.collateralAccounts - {key};
    var helper := if account in u.helperOutpoints then Some(u.helperOutpoints[account]) else None;
    u.helperOutpoints := u.helperOutpoints - {account};
    r := SettleWithOracle(u, key, tx, burned, rc, option, block, helper, hooks);
    if r != Return(None) {
      return;
    }
    if option.pointerToKey.None? {
      return Return(Some(PointerKeyNotFound));
    }
    var flaw := hooks.validatePointer(option.pointerToKey.value, tx);
    if flaw.Some? {
      return Return(flaw);
    }
  }

  /** The final allocation loop of `burn_return_collateral`; it panics at the
      first amount with no input asset at its position. */
  method AllocateReturned(u: Updater, pointer: nat, assets: seq<InputAsset>, outs: seq<nat>) returns (r: Exit<()>)
    modifies u
    ensures |outs| > |assets| ==> r.Panic?
    ensures |outs| <= |assets| ==> (r.Return? &&
      BooksOf(u) == old(BooksOf(u)).(allocatedLists := AllocateReturns(old(u.allocatedLists), pointer, assets, outs)))
  {
    var pos := 0;
    while pos < |outs|
      invariant 0 <= pos <= |outs| && pos <= |assets|
      invariant BooksOf(u) == old(BooksOf(u)).(allocatedLists := AllocateReturns(old(u.allocatedLists), pointer, assets, outs[..pos]))
    {
      if pos >= |assets| {
        return Panic;
      }
      assert outs[..pos + 1][..pos] == outs[..pos];
      if assets[pos].GlittrAsset? {
        u.AllocateNewAsset(pointer, BlockTxKey(assets[pos].id), outs[pos]);
      }
      pos := pos + 1;
    }
    assert outs[..pos] == outs;
    r := Return(());
  }

  /** `burn_return_collateral` after the branch. */
  method SettleBurn(u: Updater, assets: seq<InputAsset>, outs: seq<nat>, tx: Tx, contract: BlockTx,
                    option: MintBurnOption, burned: nat, hooks: BurnHooks) returns (r: Exit<Option<Flaw>>)
    modifies u
    ensures var e := Settle(old(StateOf(u)), assets, outs, tx, contract, option, burned, hooks);
      (r.Panic? <==> e.Panic?) && (e.Return? ==> r == Return(e.value.0) && StateOf(u) == e.value.1)
  {
    var flaw := hooks.supplyCapFlaw(contract, burned);
    if flaw.Some? {
      return Return(flaw);
    }
    if option.pointer.Some? {
      flaw := hooks.validatePointer(option.pointer.value, tx);
      if flaw.Some? {
        return Return(flaw);
      }
      var done := AllocateReturned(u, option.pointer.value, assets, outs);
      if done.Panic? {
        return Panic;
      }
    }
    r := Return(None);
  }

  /** The branch of `burn_return_collateral` chosen by the mint structure. */
  method RunStructure(u: Updater, c: Collateralized, rc: ReturnCollateral, tx: Tx, block: BlockTx, contract: BlockTx,
                      option: MintBurnOption, burned: nat, hooks: BurnHooks) returns (r: Exit<Result<seq<nat>, Flaw>>)
    modifies u, u.database
    ensures match StructureStep(old(StateOf(u)), u.isReadOnly, c, rc, tx, block, contract, option, burned, hooks)
      case Crash => r.Panic?
      case Stop(f, (s, _)) => r == Return(Failure(f)) && StateOf(u) == s
      case Proceed((s, outs)) => r == Return(Success(outs)) && StateOf(u) == s
  {
    match c.mintStructure {
      case Ratio(rt) =>
        var out := hooks.ratioOutValue(rt, burned, option, tx, block);
        if out.Failure? {
          return Return(Failure(out.error));
        }
        r := Return(Success([out.value]));
      case Proportional(_) =>
        r := WithdrawFromPool(u, c.inputAssets, contract, burned);
      case AccountStructure =>
        var flaw := SettleAccount(u, BlockTxKey(contract), tx, burned, rc, option, block, hooks);
        if flaw.Panic? {
          return Panic;
        }
        if flaw.value.Some? {
          return Return(Failure(flaw.value.value));
        }
        r := Return(Success([]));
    }
  }

  /** `burn_return_collateral` */
  method BurnReturnCollateral(u: Updater, mba: MintBurnAssetContract, rc: ReturnCollateral, tx: Tx, block: BlockTx,
                              contract: BlockTx, option: MintBurnOption, hooks: BurnHooks) returns (r: Exit<Option<Flaw>>)
    modifies u, u.database
    ensures var e := BurnCollateralEffect(old(StateOf(u)), u.isReadOnly, mba, rc, tx, block, contract, option, hooks);
      (r.Panic? <==> e.Panic?) && (e.Return? ==> r == Return(e.value.0) && StateOf(u) == e.value.1)
  {
    var key := BlockTxKey(contract);
    var burned: nat := if key in u.unallocated then u.unallocated[key] else 0;
    u.unallocated := u.unallocated - {key};
    if burned == 0 {
      return Return(Some(InsufficientInputAmount));
    }
    if mba.mintMechanism.collateralized.None? {
      return Return(Some(InvalidContractType));
    }
    var c := mba.mintMechanism.collateralized.value;
    var outs := RunStructure(u, c, rc, tx, block, contract, option, burned, hooks);
    if outs.Panic? {
      return Panic;
    }
    if outs.value.Failure? {
      return Return(Some(outs.value.error));
    }
    r := SettleBurn(u, c.inputAssets, outs.value.value, tx, contract, option, burned, hooks);
  }

  /** `burn` */
  method CallBurn(u: Updater, tx: Tx, block: BlockTx, contract: BlockTx, option: MintBurnOption,
                  message: Result<OpReturnMessage, Flaw>, hooks: BurnHooks) returns (r: Exit<Option<Flaw>>)
    modifies u, u.database
    ensures var e := BurnEffect(old(StateOf(u)), u.isReadOnly, tx, block, contract, option, message, hooks);
      (r.Panic? <==> e.Panic?) && (e.Return? ==> r == Return(e.value.0) && StateOf(u) == e.value.1)
  {
    match RouteBurn(message) {
      case BurnDone(f) =>
        r := Return(f);
      case ToMintBurnAsset(mba) =>
        var flaw := hooks.liveTimeFlaw(mba.liveTime, mba.endTime, contract.block, block.block);
        if flaw.Some? {
          return Return(flaw);
        }
        if mba.burnMechanism.returnCollateral.None? {
          return Return(Some(NotImplemented));
        }
        r := BurnReturnCollateral(u, mba, mba.burnMechanism.returnCollateral.value, tx, block, contract, option, hooks);
    }
  }
}
