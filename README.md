# Glittr indexer core, modelled in Dafny

This project models the part of the Glittr indexer that turns one Bitcoin
transaction into ledger changes:

- **The asset ledger of the `Updater`** (`Ledger`, updater.dfy). While a
  transaction is indexed, the amounts its inputs carried sit in an
  *unallocated* list. Transfers move amounts to outputs. At commit, the
  leftovers go to the first output that is not an OP_RETURN. Then every
  output's list is written to the store under its outpoint.
- **`index`** (`Indexing`, indexing.dfy). It takes one transaction's parsed
  message and either records the parse flaw or validates and dispatches the
  message. It stores the outcome under the transaction's BlockTx, together
  with the txid → BlockTx index entry.
- **The mint rules** (`Mint`, mint.dfy):
  - free mints, with their live-time, supply-cap and pointer checks and the
    minted counter;
  - purchase/burn/swap mints, with their input total, output scan, fixed
    or oracle ratio, and pointer check;
  - the `mint` dispatch.
- **The burn rules** (`Burn`, burn.dfy). `burn_return_collateral` pays a
  burn back by a ratio, from a proportional pool, or by settling a
  collateral account. `burn` is the dispatch.
- **The OP_RETURN message codec** (`Messages`, messages.dfy). `parse_tx`
  finds the first output tagged with the magic prefix `GLITTR` and gathers
  its pushes. `into_script` writes a message back. `validate` dispatches to
  the validators.
- **The prefixed key-value store** (`Store`, store.dfy). This is an ordered
  map from `prefix:key` text to the JSON of a record. It has `put`, `get`,
  `delete` and the forward prefix scan `expensive_find_by_prefix`.

## How the model is built

**Shared modules.**
- wrappers.dfy: `Option`, `Result`, and `Exit` (a call either returns or
  panics).
- arith.dfy: u32/u128 saturating, wrapping and truncating arithmetic on
  `nat`.
- text.dfy: decimal rendering and lexicographic order of keys.
- chain.dfy: BlockTx, outpoints, decoded scripts, transactions, flaws.
- records.dfy: the stored records.

**Imperative code.** Each imperative Rust function is a Dafny `method`.
- The `Updater`'s fields and the `Database`'s map are fields of classes.
- Each method is proved equal to a specification function of the old state,
  for example `Move`, `ApplyTransfers`, `Unallocate`, `FreeMintEffect`,
  `PbsEffect`, `BurnCollateralEffect` or `IndexEffect`.
- The properties of those functions are proved as lemmas.

**Panics are modelled, not excluded.** An `unwrap` on nothing, a division
by zero or an index out of range becomes `Panic`; no precondition rules it
out. An early `return Some(flaw)` keeps the ledger changes made before it,
as the Rust code does.

**Source revisions disagree.** The core files come from different
revisions; each is modelled against its own text.
- updater.rs and mint.rs read the stored message as a single `tx_type`
  (transfer, contract creation or contract call). burn.rs and message.rs use
  three optional fields. Both shapes are modelled: `Records.TxTypeMessage`
  and `Messages.OpReturnMessage`.
- mint.rs reads the contract data as `AssetContractData::FreeMint`.
  updater.rs declares minted/burned supply fields. The model follows mint.rs.
- mint.rs treats `AssetContractDataNotFound` as "not minted yet", but
  updater.rs's `get_asset_contract_data` already maps a missing record to
  the default record. Both are kept: the default is one free mint counter
  at 0.
- burn.rs keeps the unallocated list, the collateral accounts and their
  outpoints under `unallocated_inputs`. The model uses the one unallocated
  list of updater.rs and adds the two collateral maps as fields of the
  `Updater`.
- mint.rs passes u32 amounts into the u128 asset lists. The model credits
  them with the u128 saturating addition. The free-mint supply arithmetic
  saturates at 2^32−1, and `out_value as u32` keeps the low 32 bits.
- mint.rs declares the Glittr input total as u32 (mint.rs:121) but assigns
  it a u128 list amount (mint.rs:137). The model keeps that amount
  unnarrowed, as a `nat`.
- `index`'s contract-creation branch looks up `distribution_schemes.purchase`,
  which the record shape of mint.rs does not have. The model reads the
  purchase/burn/swap contract in its place. The flaw that branch computes is
  discarded by the source, so the branch reports none; only its panic
  (a missing or unreadable referenced message) shows.

## Model

| member | source | states |
|---|---|---|
| Store.Decode | src/store/database.rs:72-79 | stored text decodes as a record type exactly when it is the JSON of a record of that type, and then yields that record |
| Store.Lookup | src/store/database.rs:62-81 | `get` is NotFound exactly for an absent key, DeserializeFailed exactly for a present key whose text does not decode, and otherwise the stored record |
| Store.Database.constructor | src/store/database.rs:41-51 | a new store holds no entries |
| Store.Database.Put | src/store/database.rs:53-60 | the JSON of the value is stored under `prefix:key`; every other key is unchanged |
| Store.Database.Get | src/store/database.rs:62-81 | returns what `Lookup` defines for `prefix:key` |
| Store.Database.Delete | src/store/database.rs:113-117 | only `prefix:key` is removed |
| Store.Database.ExpensiveFindByPrefix | src/store/database.rs:83-111 | succeeds exactly when every key under the prefix decodes; the result is then exactly the entries under the prefix, with full keys and stored values, in strictly ascending key order; a failure is DeserializeFailed |
| Store.Least | src/store/database.rs:88-93 | the forward iterator's next key is the least key not yet visited |
| Store.PastPrefix | src/store/database.rs:97-99 | once the least remaining key does not start with the prefix, no remaining key does, so the early `break` loses nothing |
| Store.AppendStep | src/store/database.rs:101-102 | appending the least pending key keeps the results stored, under the prefix and ascending |
| Store.GetAfterPut | src/store/database.rs:53-81 | a `get` of what `put` stored returns it |
| Store.GetAfterDelete | src/store/database.rs:62-81 | after `delete`, `get` of that key is NotFound |
| Store.ComposeKeyInjective | src/store/database.rs:56 | with prefixes free of ':', a composed key determines its prefix and key |
| Messages.Gather | src/transaction/message.rs:198-210 | gathering the instructions after the prefix succeeds exactly when all of them are pushes |
| Messages.GatherFirstFailure | src/transaction/message.rs:203-208 | the first non-push decides the flaw: an opcode gives InvalidInstruction with that opcode, an undecodable item gives InvalidScript |
| Messages.GatherPrefixFailure | src/transaction/message.rs:198-210 | a failure among the first instructions is the failure of the whole gather (the early return) |
| Messages.ParseTx | src/transaction/message.rs:179-233 | the loop returns what `Parse` defines: the first tagged output's concatenated pushes, NonGlittrMessage for an empty payload, FailedDeserialization for undecodable JSON or a message with no field set |
| Messages.UntaggedSkipped | src/transaction/message.rs:183-196 | outputs not starting with OP_RETURN followed by a push of the magic prefix play no part in the payload |
| Messages.FirstTaggedOnly | src/transaction/message.rs:198-211 | only the first tagged output is read; outputs after it are ignored |
| Messages.PrefixOnlyIsNonGlittr | src/transaction/message.rs:211-216 | a first tagged output that carries only the prefix gives NonGlittrMessage, whatever later outputs carry |
| Messages.IntoScript | src/transaction/message.rs:252-262 | the script is exactly OP_RETURN, a push of the magic prefix, and a push of the message's JSON |
| Messages.ParseIntoScript | src/transaction/message.rs:179-262 | parsing a transaction whose first tagged output is `into_script(m)` gives back `m`, for a message with a field set and a JSON codec that round-trips |
| Messages.ValidateCallType | src/transaction/message.rs:172-176 | a contract call never flaws by its own shape |
| Messages.Validate | src/transaction/message.rs:235-250 | a contract creation is judged by its contract's validator, first; any other message is not flawed |
| Ledger.Credit | src/updater.rs:69-75 | the asset gets the amount added, saturating at the u128 maximum; every other asset is unchanged |
| Ledger.AddAll | src/updater.rs:68-77 | each asset of the added list is added in, saturating; assets it does not name are unchanged |
| Ledger.Allocate | src/updater.rs:86-95 | output `vout` gets `amount` more of the asset, saturating; the output's list and the asset's entry appear if absent; every other (output, asset) entry is unchanged |
| Ledger.MoveExact | src/updater.rs:97-114 | a move takes exactly min(max, unallocated) of the asset from the unallocated list and adds it to the output; no other entry changes; the asset's total across both maps is kept when nothing saturates |
| Ledger.MoveNoOpIff | src/updater.rs:99-106 | a move changes the ledger exactly when the asset is unallocated and the amount to move is not 0 |
| Ledger.MoveRemovesDrained | src/updater.rs:108-111 | after a move, the asset keeps an unallocated entry exactly when it had one that was not drained |
| Ledger.AssetListKeyInjective | src/updater.rs:130-136 | different outputs of one transaction are written under different keys |
| Ledger.OutputKeysDistinct | src/updater.rs:130-136 | an output not yet written has a key different from every written output's |
| Ledger.AssetListAt | src/updater.rs:303-315 | a missing list reads as empty; an unreadable one is FailedDeserialization, and only then is there a failure; a read list is the stored one |
| Ledger.UnallocateDeletesInputs | src/updater.rs:61-84 | unallocating deletes the stored list of every input and changes no other key |
| Ledger.UnallocateReadOnly | src/updater.rs:294-301 | a read-only updater deletes nothing |
| Ledger.UnallocateGrows | src/updater.rs:68-77 | unallocating never lowers an unallocated amount |
| Ledger.FirstNonOpReturn | src/updater.rs:146-163 | the result is the first output whose script does not start with OP_RETURN, or None when every output starts with it |
| Ledger.FirstNonOpReturnUnique | src/updater.rs:155-163 | only one result meets that description |
| Ledger.FirstNonOpReturnIndex | src/updater.rs:155-163 | the loop returns the first output not starting with OP_RETURN, or None |
| Ledger.Positive | src/updater.rs:104-106 | exactly the unallocated entries with a nonzero amount, which are the ones a full move acts on |
| Ledger.SweepTarget | src/updater.rs:117-127 | the commit fallback adds each leftover asset's amount to the first non-OP_RETURN output and leaves every other output as it was |
| Ledger.OverflowPositionsExact | src/updater.rs:253-265 | the reported positions are exactly those of the transfers to a missing output, strictly increasing and in range |
| Ledger.OverflowingTransfersIgnored | src/updater.rs:255-260 | a transfer to a missing output moves nothing: the ledger is as if only the others were given |
| Ledger.Kept | src/updater.rs:255-260 | the transfers kept are among those given and name existing outputs |
| Ledger.MessageAt | src/updater.rs:326-345 | `get_message` is ContractNotFound for a missing outcome, FailedDeserialization for an unreadable one, the stored flaw for a flawed one, MessageInvalid when no message is stored, and otherwise the stored message |
| Ledger.MessageTxTypeAt | src/updater.rs:271-292 | panics exactly when the outcome is missing or unreadable, or is unflawed with no message; a flawed outcome is ReferencingFlawedBlockTx; otherwise the result is the stored message's tx_type |
| Ledger.ContractDataAt | src/updater.rs:347-363 | missing data reads as the default record; only unreadable data fails, as FailedDeserialization |
| Ledger.MoveInFull | src/updater.rs:119-123 | moving an asset's whole unallocated amount removes its entry and credits all of it |
| Ledger.Updater.constructor | src/updater.rs:51-59 | a new updater has an empty ledger over the given store |
| Ledger.Updater.AllocateNewAsset | src/updater.rs:86-95 | the allocated lists become `Allocate` of the old ones; nothing else changes |
| Ledger.Updater.MoveAllocation | src/updater.rs:97-114 | the ledger becomes `Move` of the old ledger |
| Ledger.Updater.GetAssetList | src/updater.rs:303-315 | returns `AssetListAt` of the store |
| Ledger.Updater.SetAssetList | src/updater.rs:317-324 | stores the list under the outpoint's key unless read-only |
| Ledger.Updater.DeleteAsset | src/updater.rs:294-301 | removes the outpoint's list unless read-only |
| Ledger.Updater.GetMessage | src/updater.rs:326-345 | returns `MessageAt` of the store |
| Ledger.Updater.GetMessageTxType | src/updater.rs:271-292 | returns `MessageTxTypeAt` of the store |
| Ledger.Updater.GetAssetContractData | src/updater.rs:347-363 | returns `ContractDataAt` of the store |
| Ledger.Updater.SetAssetContractData | src/updater.rs:365-378 | stores the record under the contract's key unless read-only |
| Ledger.Updater.AddToUnallocated | src/updater.rs:69-76 | the unallocated list becomes the old one with every amount of the input's list added in |
| Ledger.Updater.UnallocateAsset | src/updater.rs:61-84 | the unallocated list and the store become `Unallocate` of the old ones |
| Ledger.Updater.Transfers | src/updater.rs:248-268 | the ledger becomes `ApplyTransfers` of the old one, and the flaw lists the overflowing positions, or is None when there are none |
| Ledger.Updater.CommitAsset | src/updater.rs:116-144 | both ledger maps end empty; unless read-only, every output's list after the fallback sweep is stored under (txid, output) and no other key changes; read-only leaves the store as it was |
| Ledger.Updater.WriteAllocated | src/updater.rs:129-137 | every output's list is stored under (txid, output), unless read-only, and no other key changes |
| Ledger.Updater.SweepLeftovers | src/updater.rs:117-127 | the allocated lists become the old ones with every nonzero leftover added to the first non-OP_RETURN output; with such an output only the zero entries stay unallocated, and with none the unallocated list and the allocated lists are unchanged |
| Indexing.CreationEffect | src/updater.rs:190-209 | a contract creation reports no flaw; it panics exactly when a purchase contract's Glittr input names a message whose lookup panics |
| Indexing.OutcomeAndTxIndexKeysDiffer | src/updater.rs:232-243 | the outcome key and the txid index key never coincide |
| Indexing.IndexParseFailure | src/updater.rs:228-230 | a parse failure is recorded with no message and that flaw, and the ledger is unchanged |
| Indexing.IndexRecordsOutcome | src/updater.rs:232-243 | unless read-only, `get_message` for the BlockTx reads back the recorded flaw, or the message when there is no flaw, and the txid maps to the BlockTx |
| Indexing.IndexReadOnlyRecordsNothing | src/updater.rs:232-243 | a read-only `index` leaves the store unchanged for every message: it writes no outcome, and a mint call under it writes nothing |
| Indexing.ProcessCreation | src/updater.rs:190-209 | returns `CreationEffect` |
| Indexing.Index | src/updater.rs:166-246 | the outcome, the ledger and the store become those of `IndexEffect`, and it panics exactly when that does |
| Mint.FreeMintDataOf | src/updater/mint.rs:7-23 | missing contract data is a not-yet-minted record (counter 0); any other flaw is passed on; a stored record is returned |
| Mint.GetFreeMintData | src/updater/mint.rs:7-23 | returns `FreeMintDataOf` of the stored contract data |
| Mint.MintCreditsOutpoint | src/updater/mint.rs:25-44 | after a successful update, the outpoint's list holds `amount` more of the contract's asset, saturating, and its other assets are unchanged |
| Mint.UpdateAssetListForMint | src/updater/mint.rs:25-44 | the flaw and the store are those of `ListCredited`: an unreadable list is passed on as a flaw, otherwise the credited list is stored unless read-only |
| Mint.NextSupplyBelowMax | src/updater/mint.rs:77-81 | below the u32 maximum, the saturating next supply is exactly minted*amount_per_mint + amount_per_mint |
| Mint.FreeMintOrder | src/updater/mint.rs:66-110 | the checks come in order: LiveTimeNotReached before anything, then a contract-data flaw, then SupplyCapExceeded, then PointerOverflow for a pointer at or past the output count; once all pass and the list at the pointer is readable, the mint succeeds |
| Mint.FreeMintFailureWritesNothing | src/updater/mint.rs:87-108 | a free mint that fails leaves the store unchanged, because the counter is written last |
| Mint.ListAndDataKeysDiffer | src/updater/mint.rs:98-108 | the output's list and the contract's data are stored under different keys |
| Mint.FreeMintSuccess | src/updater/mint.rs:87-110 | a successful free mint stores the counter raised by one, saturating at 2^32−1, and credits amount_per_mint to (txid, pointer), leaving the list's other assets unchanged |
| Mint.FreeMintRespectsCap | src/updater/mint.rs:76-86 | a successful capped free mint keeps (minted + 1) * amount_per_mint within the cap |
| Mint.MintFreeMint | src/updater/mint.rs:58-111 | the flaw and the store are those of `FreeMintEffect` |
| Mint.GlittrInputTotalNoneReadable | src/updater/mint.rs:128-139 | with no readable input list the Glittr input total is 0 |
| Mint.GlittrInputTotalLastReadable | src/updater/mint.rs:128-139 | the Glittr input total is the amount at the last input whose list is readable, not a sum |
| Mint.ReadGlittrInputTotal | src/updater/mint.rs:128-139 | the loop computes `GlittrInputTotal` |
| Mint.BurnsElsewhereStep | src/updater/mint.rs:151-174 | an OP_RETURN output off the pointer is the first output or one among the rest |
| Mint.BurnScanVoutFrom | src/updater/mint.rs:150-178 | from any position, the scan's output is the pointer when an OP_RETURN sits elsewhere, else the output already chosen, else the first non-OP_RETURN |
| Mint.BurnSchemeVout | src/updater/mint.rs:150-178 | for the burn scheme the minted amount goes to the pointer when some OP_RETURN output sits at another position, and otherwise to the first non-OP_RETURN output (None when there is none) |
| Mint.ScanBurnOutputs | src/updater/mint.rs:150-178 | the loop computes `BurnScan` |
| Mint.ScanPurchaseOutputs | src/updater/mint.rs:180-211 | panics when there is an output and the address does not parse; otherwise the value at the last output paying to the address |
| Mint.FixedRatioOut | src/updater/mint.rs:215-216 | when the product does not wrap, the amount is the floor of received*num/den |
| Mint.OracleOut | src/updater/mint.rs:217-267 | a value is produced exactly when there is a message of the contract's asset, the public key and signature parse, its input outpoint is spent, its minimum is met and the signature verifies, and it is the message's out value; a panic exactly when a message of the contract's asset meets an unparsable public key |
| Mint.InputFound | src/updater/mint.rs:240-246 | true exactly when the outpoint is spent by the transaction |
| Mint.CheckOracle | src/updater/mint.rs:217-267 | returns `OracleOut` |
| Mint.ScanOutputs | src/updater/mint.rs:147-212 | returns `PbsScan` |
| Mint.ComputeOut | src/updater/mint.rs:214-267 | returns `PbsOut` |
| Mint.PlanPurchaseBurnSwap | src/updater/mint.rs:121-276 | returns `PbsPlan` |
| Mint.PbsPointerBound | src/updater/mint.rs:269-271 | a chosen output is at most the output count, one past the last output |
| Mint.PbsAcceptsPointerAtOutputCount | src/updater/mint.rs:269-276 | the pointer check lets through a pointer equal to the output count: a raw-bitcoin burn in a one-output transaction pointed at output 1 is planned to credit output 1, which the transaction does not have |
| Mint.MintPurchaseBurnSwap | src/updater/mint.rs:113-291 | the outcome and the store are those of `PbsEffect` |
| Mint.RouteMint | src/updater/mint.rs:300-323 | a message lookup flaw is passed on, a non-creation message is ContractNotMatch, a preallocated contract is NotImplemented, and free-mint and purchase/burn/swap contracts go to their rules, in both directions |
| Mint.MintReadOnlyWritesNothing | src/updater/mint.rs:293-324 | a read-only `mint` leaves the store unchanged, whichever rule the contract routes to, since every write goes through the read-only-guarded setters |
| Mint.CallMint | src/updater/mint.rs:293-324 | the outcome and the store are those of `MintEffect` |
| Burn.PoolAt | src/updater/burn.rs:68-75 | a pool is read exactly when a readable pool record is stored under the contract's key |
| Burn.PoolWithdrawal | src/updater/burn.rs:79-120 | a missing asset amount is PoolNotFound; with both amounts present a zero total supply panics, and otherwise the result is InsufficientOutputAmount exactly when one of the floored returns is 0, and no other flaw; the share is the floor of burned*10^6/total supply and each return the floor of amount*share/10^6, products saturating; on success both returns are positive, the two pool amounts drop by them (floored at 0), other amounts are kept and the supply drops by the burned amount |
| Burn.ReturnAtMost | src/updater/burn.rs:101-106 | with a share of at most 10^6, a return is at most the pool amount |
| Burn.WithdrawalWithinPool | src/updater/burn.rs:96-120 | burning at most the total supply gives returns within the pool amounts, and the pool keeps exactly the rest |
| Burn.ProportionalBurnStores | src/updater/burn.rs:50-131 | a non-Glittr input asset or a missing pool is PoolNotFound; a successful burn stores the withdrawn pool unless read-only, changes no other key, and returns the two amounts |
| Burn.OracleSettlement | src/updater/burn.rs:225-291 | without an oracle input outpoint nothing changes; with an oracle input outpoint the settlement goes on exactly when the oracle check passes, ltv, outstanding and out value are present with out value ≤ burned, and any remainder's pointer validates; the remainder then goes to the pointer or back to unallocated; a flaw changes nothing; a panic exactly when an oracle message with an input outpoint meets an oracle setting and the account has no outpoint |
| Burn.OracleSettlementFlaws | src/updater/burn.rs:225-289 | the checks come in order: with an oracle setting, a missing account outpoint panics, a different outpoint is OracleMintFailed and a rejected oracle message passes on its flaw; then LtvMustBeUpdated, OutstandingMustBeUpdated, OutValueNotFound and BurnValueIncorrect; last, a remainder whose pointer fails validation passes on that flaw; when every check passes (and any remainder's pointer validates) the settlement goes on |
| Burn.AccountBurn | src/updater/burn.rs:208-307 | a missing account is CollateralAccountNotFound; otherwise the account and its outpoint are taken out of the unallocated maps and the oracle settlement runs on what is left: it panics exactly when the settlement does, a settlement flaw is passed on, and after a settlement the ledger is the settlement's, a missing pointer to the key is PointerKeyNotFound and success comes exactly when that pointer validates |
| Burn.AllocateReturnsCredits | src/updater/burn.rs:326-338 | the final allocation credits the pointer with every amount returned per Glittr asset (when nothing saturates) and leaves other outputs as they were |
| Burn.BurnNeedsInputAndCollateral | src/updater/burn.rs:21-32 | nothing unallocated of the contract's asset is InsufficientInputAmount; no collateralized mechanism is InvalidContractType; both only remove the contract's unallocated entry |
| Burn.RouteBurn | src/updater/burn.rs:354-384 | a parse flaw is passed on, no contract creation is ContractNotMatch, a mint-only asset burns to no effect, a mint/burn asset goes on, any other contract is ContractNotMatch |
| Burn.BurnWithoutReturnCollateral | src/updater/burn.rs:358-377 | a live mint/burn asset without a return-collateral mechanism is NotImplemented and changes nothing |
| Burn.WithdrawFromPool | src/updater/burn.rs:50-205 | the returns and the store are those of `ProportionalBurn`; a flaw leaves the store unchanged |
| Burn.SettleWithOracle | src/updater/burn.rs:225-291 | the flaw and the ledger are those of `OracleSettlement` |
| Burn.SettleAccount | src/updater/burn.rs:208-307 | the flaw and the ledger are those of `AccountBurn` |
| Burn.AllocateReturned | src/updater/burn.rs:332-337 | panics when there are more returns than input assets; otherwise the allocated lists become `AllocateReturns` of the old ones |
| Burn.SettleBurn | src/updater/burn.rs:310-338 | the flaw and the state are those of `Settle` |
| Burn.RunStructure | src/updater/burn.rs:32-307 | the returns and the state are those of `StructureStep` |
| Burn.BurnReturnCollateral | src/updater/burn.rs:10-344 | the flaw and the state are those of `BurnCollateralEffect` |
| Burn.CallBurn | src/updater/burn.rs:346-385 | the flaw and the state are those of `BurnEffect` |

## Left out

- JSON: serde encoding and decoding of messages and records is not
  modelled. The message codec is a parameter (`Messages.JsonCodec`). Stored
  text is either the JSON of a record or unreadable text.
- Script bytes: scripts are given as already-decoded instructions (opcode,
  push, or decoding error). Byte-level script parsing is not modelled.
- RocksDB: its options, the write-ahead log, compression, the
  `Arc<Mutex<…>>` locking and async/await are not modelled. The store is one
  map, used by one thread.
- The transaction id hash: `compute_txid` is given as the transaction's
  `txid` text.
- Logging: it has no effect on state.
- The oracle and address library calls: signature parsing and verification,
  public-key parsing and address parsing/matching in mint.rs are predicates
  in `Mint.MintHooks`, with no assumed properties.
- Helpers whose bodies are not part of this model:
  - `validate_and_calculate_ratio_type`, `validate_pointer`,
    `validate_oracle_message`, `check_live_time`, and the flaw of
    `validate_and_update_supply_cap` are functions in `Burn.BurnHooks`.
  - The per-contract `validate()` of message.rs is a parameter of
    `Messages.Validate` and of `Indexing.Index`.
- Write effects of helpers not in this model: the supply-cap record that
  `validate_and_update_supply_cap` writes, and the key output that
  `allocate_new_collateral_accounts` writes.
- Burn.AccountBurn: the oracle's new ltv and outstanding amount are set on
  the local account value, which reaches the store only through
  `allocate_new_collateral_accounts`. That write is left out, so the model
  drops the updated values with it.
- Asset keys: assets are keyed by `BlockTx::to_str()` in some places
  (updater.rs:93, mint.rs:36, 40 and 136) and by `to_string()` in others
  (updater.rs:99 and 110, burn.rs:213). Neither body is part of this model.
  Both are taken to give the same "block:tx" text, so a minted credit and a
  later move meet on one key.
- Asset names: BlockTx text is taken to parse back to the same BlockTx.
  `commit_asset` rebuilds the BlockTx from its text, and the model uses the
  text as given.
- Iteration order: the source iterates HashMap entries in an unspecified
  order. The model's loops pick entries in any order, and their results do
  not depend on it.
- Other call types: `index` reports no flaw for burn and swap calls, as the
  source does. The burn rules are reached through `Burn.CallBurn` only.
- The `api.rs` query layer and the block loop that calls `index` and
  `commit_asset` are not part of this model.
- Mint.FreeMintRespectsCap is stated only for caps below the u32 maximum.
  At the maximum, the saturating supply check cannot tell an overflow from
  the cap.
- Mint.FixedRatioOut: the quotient bound is stated only when the u128
  product does not wrap. The model takes mint.rs:215's unchecked
  `total_received_value * ratio.0` as a release build computes it, wrapping
  modulo 2^128. A debug build panics on that overflow instead, and the model
  does not capture that.
- Burn.WithdrawalWithinPool is stated only for a burn of at most the total
  supply and two distinct pool assets.
- Burn.AllocateReturnsCredits and Ledger.MoveExact: the totals are stated
  only when the saturating additions do not saturate.
- Ledger.UnallocateGrows is stated only for starting amounts within the
  u128 range.
