/** The prefixed key-value store (src/store/database.rs): an ordered map from
    text keys to the JSON text of records. A key is written as "prefix:key". */
module Store {
  import opened Wrappers
  import opened Chain
  import opened Text
  import opened Records

  const INDEXER_LAST_BLOCK_PREFIX: string := "last_block"
  const MESSAGE_PREFIX: string := "message"
  const TRANSACTION_TO_BLOCK_TX_PREFIX: string := "tx_to_blocktx"
  const TICKER_TO_BLOCK_TX_PREFIX: string := "ticker_to_blocktx"
  const ASSET_LIST_PREFIX: string := "asset_list"
  const ASSET_CONTRACT_DATA_PREFIX: string := "asset_contract_data"
  const VESTING_CONTRACT_DATA_PREFIX: string := "vesting_contract_data"
  const COLLATERAL_ACCOUNTS_PREFIX: string := "collateral_account"
  const COLLATERALIZED_CONTRACT_DATA: string := "pool_data"
  const STATE_KEYS_PREFIX: string := "state_key"
  const SPEC_CONTRACT_OWNED_PREFIX: string := "spec_contract_owned"

  datatype DatabaseError = NotFound | DeserializeFailed

  /** The record type a reader asks the stored text to be decoded as. */
  datatype Kind = AssetListKind | OutcomeKind | BlockTxKind | ContractDataKind | PoolKind

  /** Every record the indexer stores. */
  datatype Value =
    | AssetListValue(list: AssetList)
    | OutcomeValue(outcome: MessageDataOutcome)
    | BlockTxValue(blockTx: BlockTx)
    | ContractDataValue(data: AssetContractData)
    | PoolValue(pool: CollateralizedAssetData)

  function KindOf(v: Value): Kind {
    match v
    case AssetListValue(_) => AssetListKind
    case OutcomeValue(_) => OutcomeKind
    case BlockTxValue(_) => BlockTxKind
    case ContractDataValue(_) => ContractDataKind
    case PoolValue(_) => PoolKind
  }

  /** Stored text: the JSON of a record, or text that no record decodes from. */
  datatype Raw = Json(value: Value) | Unreadable

  /** Decoding stored text as a record type: it succeeds exactly when the text
      is the JSON of a record of that type, and then gives that record. */
  function Decode(raw: Raw, kind: Kind): (r: Option<Value>)
    ensures r.Some? <==> raw.Json? && KindOf(raw.value) == kind
    ensures r.Some? ==> r.value == raw.value
  {
    if raw.Json? && KindOf(raw.value) == kind then Some(raw.value) else None
  }

  /** The stored key of `key` under `prefix`. */
  function ComposeKey(prefix: string, key: string): string {
    prefix + ":" + key
  }

  /** What `get` returns for a stored key. */
  function Lookup(entries: map<string, Raw>, key: string, kind: Kind): (r: Result<Value, DatabaseError>)
    ensures r == Failure(NotFound) <==> key !in entries
    ensures r == Failure(DeserializeFailed) <==> key in entries && Decode(entries[key], kind).None?
    ensures r.Success? ==> key in entries && entries[key] == Json(r.value) && KindOf(r.value) == kind
  {
    if key !in entries then Failure(NotFound)
    else
      match Decode(entries[key], kind)
      case None => Failure(DeserializeFailed)
      case Some(v) => Success(v)
  }

  /** The keys of `rs` are strictly ascending. */
  predicate Ascending(rs: seq<(string, Value)>) {
    forall i, j :: 0 <= i < j < |rs| ==> Below(rs[i].0, rs[j].0)
  }

  class Database {
    var entries: map<string, Raw>

    constructor ()
      ensures entries == map[]
    {
      entries := map[];
    }

    /** `put`: stores the JSON of `value` under "prefix:key"; every other key is unchanged. */
    method Put(prefix: string, key: string, value: Value)
      modifies this
      ensures entries == old(entries)[ComposeKey(prefix, key) := Json(value)]
    {
      entries := entries[ComposeKey(prefix, key) := Json(value)];
    }

    /** `get` */
    method Get(prefix: string, key: string, kind: Kind) returns (r: Result<Value, DatabaseError>)
      ensures r == Lookup(entries, ComposeKey(prefix, key), kind)
    {
      var k := ComposeKey(prefix, key);
      if k !in entries {
        return Failure(NotFound);
      }
      var raw := entries[k];
      if raw.Json? && KindOf(raw.value) == kind {
        r := Success(raw.value);
      } else {
        r := Failure(DeserializeFailed);
      }
    }

    /** `delete`: removes "prefix:key"; every other key is unchanged. */
    method Delete(prefix: string, key: string)
      modifies this
      ensures entries == old(entries) - {ComposeKey(prefix, key)}
    {
      entries := entries - {ComposeKey(prefix, key)};
    }

    /** `expensive_find_by_prefix`: walks the keys in ascending order from `prefix`,
        stopping at the first key that does not start with it. The result lists
        exactly the entries whose key starts with `prefix`, in ascending key
        order and with their full keys; one entry that does not decode fails the
        whole scan. */
    method ExpensiveFindByPrefix(prefix: string, kind: Kind) returns (r: Result<seq<(string, Value)>, DatabaseError>)
      ensures r.Success? <==> forall k :: k in entries && StartsWith(k, prefix) ==> Decode(entries[k], kind).Some?
      ensures r.Failure? ==> r.error == DeserializeFailed
      ensures r.Success? ==> Ascending(r.value)
      ensures r.Success? ==> forall i :: 0 <= i < |r.value| ==>
        r.value[i].0 in entries && StartsWith(r.value[i].0, prefix) && entries[r.value[i].0] == Json(r.value[i].1)
      ensures r.Success? ==> forall k :: k in entries && StartsWith(k, prefix) ==>
        exists i :: 0 <= i < |r.value| && r.value[i].0 == k
    {
      var results: seq<(string, Value)> := [];
      // the iterator: keys from `prefix` onwards, consumed least first
      var pending := set k | k in entries && !Below(k, prefix);
      while pending != {}
        invariant pending <= entries.Keys
        invariant forall k :: k in pending ==> !Below(k, prefix)
        invariant forall k :: k in entries && !Below(k, prefix) && k !in pending ==> k in KeysOf(results)
        invariant Found(entries, prefix, kind, results)
        invariant forall i, k :: 0 <= i < |results| && k in pending ==> Below(results[i].0, k)
        invariant Ascending(results)
        decreases |pending|
      {
        var key := Least(pending);
        if !StartsWith(key, prefix) {
          PastPrefix(prefix, key, pending);
          break;
        }
        var raw := entries[key];
        if !(raw.Json? && KindOf(raw.value) == kind) {
          return Failure(DeserializeFailed);
        }
        AppendStep(entries, prefix, kind, results, key, pending);
        results := results + [(key, raw.value)];
        pending := pending - {key};
      }
      forall k | k in entries && StartsWith(k, prefix)
        ensures exists i :: 0 <= i < |results| && results[i].0 == k
      {
        PrefixedNotBelow(k, prefix);
        assert k in KeysOf(results);
      }
      r := Success(results);
    }
  }

  /** The keys of a scan's results. */
  function KeysOf(rs: seq<(string, Value)>): set<string> {
    set i | 0 <= i < |rs| :: rs[i].0
  }

  /** Every result is a stored entry under `prefix`, decoded as `kind`. */
  predicate Found(entries: map<string, Raw>, prefix: string, kind: Kind, rs: seq<(string, Value)>) {
    forall i :: 0 <= i < |rs| ==>
      rs[i].0 in entries && StartsWith(rs[i].0, prefix) && entries[rs[i].0] == Json(rs[i].1) && KindOf(rs[i].1) == kind
  }

  /** Appending the least pending key keeps the scan's invariants. */
  lemma AppendStep(entries: map<string, Raw>, prefix: string, kind: Kind, rs: seq<(string, Value)>,
                   key: string, pending: set<string>)
    requires Found(entries, prefix, kind, rs) && Ascending(rs)
    requires forall i, k :: 0 <= i < |rs| && k in pending ==> Below(rs[i].0, k)
    requires key in pending && key in entries && StartsWith(key, prefix)
    requires entries[key].Json? && KindOf(entries[key].value) == kind
    requires forall x :: x in pending && x != key ==> Below(key, x)
    ensures Found(entries, prefix, kind, rs + [(key, entries[key].value)])
    ensures Ascending(rs + [(key, entries[key].value)])
    ensures KeysOf(rs + [(key, entries[key].value)]) == KeysOf(rs) + {key}
    ensures forall i, k :: 0 <= i < |rs| + 1 && k in pending - {key} ==> Below((rs + [(key, entries[key].value)])[i].0, k)
  {
    var rs' := rs + [(key, entries[key].value)];
    forall i, k | 0 <= i < |rs'| && k in pending - {key}
      ensures Below(rs'[i].0, k)
    {
      if i < |rs| {
        BelowTransitive(rs[i].0, key, k);
      }
    }
    assert KeysOf(rs') == KeysOf(rs) + {key} by {
      forall x | x in KeysOf(rs') ensures x in KeysOf(rs) + {key} {
        var i :| 0 <= i < |rs'| && rs'[i].0 == x;
        if i < |rs| { assert rs[i].0 == x; }
      }
      forall x | x in KeysOf(rs) ensures x in KeysOf(rs') {
        var i :| 0 <= i < |rs| && rs[i].0 == x;
        assert rs'[i].0 == x;
      }
      assert rs'[|rs|].0 == key;
    }
  }

  /** The iterator's next key: the least one not yet consumed. */
  method Least(pending: set<string>) returns (key: string)
    requires pending != {}
    ensures key in pending && forall x :: x in pending && x != key ==> Below(key, x)
  {
    LeastExists(pending);
    key :| IsLeast(key, pending);
  }

  /** When the least key at or after `prefix` does not start with it, no remaining key does. */
  lemma PastPrefix(prefix: string, key: string, pending: set<string>)
    requires key in pending && !Below(key, prefix) && !StartsWith(key, prefix)
    requires forall x :: x in pending && x != key ==> Below(key, x)
    ensures forall k :: k in pending ==> !StartsWith(k, prefix)
  {
    forall k | k in pending
      ensures !StartsWith(k, prefix)
    {
      if k != key {
        LeavingPrefix(prefix, key, k);
      }
    }
  }

  /** A `get` of what `put` stored returns it. */
  lemma GetAfterPut(entries: map<string, Raw>, prefix: string, key: string, v: Value)
    ensures Lookup(entries[ComposeKey(prefix, key) := Json(v)], ComposeKey(prefix, key), KindOf(v)) == Success(v)
  {
  }

  /** After `delete`, a `get` of that key finds nothing. */
  lemma GetAfterDelete(entries: map<string, Raw>, prefix: string, key: string, kind: Kind)
    ensures Lookup(entries - {ComposeKey(prefix, key)}, ComposeKey(prefix, key), kind) == Failure(NotFound)
  {
  }

  /** The parts of a composed key. */
  lemma ComposedParts(p: string, k: string)
    ensures |ComposeKey(p, k)| > |p| && ComposeKey(p, k)[|p|] == ':'
    ensures ComposeKey(p, k)[..|p|] == p && ComposeKey(p, k)[|p| + 1..] == k
  {
  }

  lemma ColonAfterShorter(p: string, k: string, q: string, l: string)
    requires ComposeKey(p, k) == ComposeKey(q, l)
    ensures |p| < |q| ==> q[|p|] == ':'
  {
    ComposedParts(p, k);
    ComposedParts(q, l);
    if |p| < |q| {
      assert q[|p|] == ComposeKey(q, l)[..|q|][|p|];
    }
  }

  /** No prefix of this store's contains ':', so a stored key names its
      prefix and key unambiguously. */
  lemma {:induction false} ComposeKeyInjective(p: string, k: string, q: string, l: string)
    requires forall i :: 0 <= i < |p| ==> p[i] != ':'
    requires forall i :: 0 <= i < |q| ==> q[i] != ':'
    requires ComposeKey(p, k) == ComposeKey(q, l)
    ensures p == q && k == l
  {
    ColonAfterShorter(p, k, q, l);
    ColonAfterShorter(q, l, p, k);
    ComposedParts(p, k);
    ComposedParts(q, l);
    assert |p| == |q|;
  }
}
