/** The OP_RETURN message (src/transaction/message.rs): its shape, how it is
    found in and written into a transaction's outputs, and how it is validated. */
module Messages {
  import opened Wrappers
  import opened Chain

  datatype MintOnlyAssetContract = MintOnlyAssetContract(supplyCap: Option<nat>, divisibility: nat, liveTime: nat)

  /** A ratio mint structure; its terms are read only by a helper outside this model. */
  datatype RatioType = RatioType(terms: string)

  datatype RatioModel = ConstantProduct | ConstantSum

  datatype MintStructure = Ratio(ratioType: RatioType) | Proportional(ratioModel: RatioModel) | AccountStructure

  datatype Collateralized = Collateralized(inputAssets: seq<InputAsset>, mintStructure: MintStructure)

  datatype MbaMintMechanisms = MbaMintMechanisms(collateralized: Option<Collateralized>)

  datatype OracleSetting = OracleSetting(pubkey: seq<byte>, assetId: Option<string>)

  datatype ReturnCollateral = ReturnCollateral(oracleSetting: Option<OracleSetting>)

  datatype BurnMechanisms = BurnMechanisms(returnCollateral: Option<ReturnCollateral>)

  datatype MintBurnAssetContract =
    MintBurnAssetContract(liveTime: nat, endTime: Option<nat>, mintMechanism: MbaMintMechanisms, burnMechanism: BurnMechanisms)

  datatype SpecContract = SpecContract(terms: string)

  datatype NftAssetContract = NftAssetContract(terms: string)

  datatype ContractType =
    | Moa(moa: MintOnlyAssetContract)
    | Mba(mba: MintBurnAssetContract)
    | Spec(spec: SpecContract)
    | Nft(nft: NftAssetContract)

  datatype OracleMessage = OracleMessage(
    inputOutpoint: Option<Outpoint>,
    minInValue: Option<nat>,
    outValue: Option<nat>,
    assetId: Option<string>,
    ratio: Option<Fraction>,
    ltv: Option<Fraction>,
    outstanding: Option<nat>,
    blockHeight: nat)

  datatype OracleMessageSigned = OracleMessageSigned(signature: seq<byte>, message: OracleMessage)

  datatype MintBurnOption = MintBurnOption(pointer: Option<nat>, oracleMessage: Option<OracleMessageSigned>, pointerToKey: Option<nat>)

  datatype CallType =
    | Mint(mintOption: MintBurnOption)
    | Burn(burnOption: MintBurnOption)
    | Swap(swapPointer: nat)
    | OpenAccount(pointerToKey: nat, shareAmount: nat)
    | CloseAccount(closePointer: nat)
    | UpdateNft(accessKeyPointer: Option<nat>)

  datatype Transfer = Transfer(transfers: seq<TxTypeTransfer>)

  datatype ContractCreation = ContractCreation(contractType: ContractType, spec: Option<BlockTx>)

  datatype ContractCall = ContractCall(contract: Option<BlockTx>, callType: CallType)

  datatype OpReturnMessage =
    OpReturnMessage(transfer: Option<Transfer>, contractCreation: Option<ContractCreation>, contractCall: Option<ContractCall>)

  predicate HasSomeField(m: OpReturnMessage) {
    m.transfer.Some? || m.contractCreation.Some? || m.contractCall.Some?
  }

  /** The JSON text of messages, as a pair of functions. */
  datatype JsonCodec = JsonCodec(encode: OpReturnMessage -> seq<byte>, decode: seq<byte> -> Option<OpReturnMessage>)

  /** Decoding the JSON of a message gives the message back, and that JSON is
      never empty (an object is at least "{}"). */
  ghost predicate Faithful(c: JsonCodec) {
    forall m :: c.decode(c.encode(m)) == Some(m) && |c.encode(m)| > 0
  }

  /** `OP_RETURN_MAGIC_PREFIX`: the ASCII text "GLITTR". */
  const MAGIC_PREFIX: seq<byte> := [0x47, 0x4c, 0x49, 0x54, 0x54, 0x52]

  /** The output starts with OP_RETURN followed by a push of the magic prefix. */
  predicate Tagged(out: TxOut) {
    |out.script| >= 2 && out.script[0] == Op(OP_RETURN) && out.script[1] == Push(MAGIC_PREFIX)
  }

  /** The pushes of `items`, concatenated in order; the first non-push decides the flaw. */
  function Gather(items: seq<ScriptItem>): (r: Result<seq<byte>, Flaw>)
    ensures r.Success? <==> forall j :: 0 <= j < |items| ==> items[j].Push?
  {
    if items == [] then Success([])
    else
      var last := items[|items| - 1];
      match Gather(items[..|items| - 1])
      case Failure(f) => Failure(f)
      case Success(p) =>
        match last
        case Push(d) => Success(p + d)
        case Op(c) => Failure(InvalidInstruction(c))
        case Undecodable => Failure(InvalidScript)
  }

  /** The first item that is not a push decides the flaw: an opcode is
      InvalidInstruction, an undecodable item InvalidScript. */
  lemma {:induction false} GatherFirstFailure(items: seq<ScriptItem>, j: nat)
    requires j < |items| && !items[j].Push?
    requires forall i :: 0 <= i < j ==> items[i].Push?
    ensures Gather(items) == Failure(if items[j].Op? then InvalidInstruction(items[j].code) else InvalidScript)
  {
    var n := |items| - 1;
    var init := items[..n];
    if j < n {
      assert init[j] == items[j];
      assert forall i :: 0 <= i < j ==> init[i] == items[i];
      GatherFirstFailure(init, j);
    } else {
      assert forall i :: 0 <= i < |init| ==> init[i] == items[i];
    }
  }

  /** The payload carried by the first tagged output, or nothing when no output is tagged. */
  function Payload(outs: seq<TxOut>): Result<seq<byte>, Flaw> {
    if outs == [] then Success([])
    else if Tagged(outs[0]) then Gather(outs[0].script[2..])
    else Payload(outs[1..])
  }

  /** What `parse_tx` returns for a transaction with these outputs. */
  function Parse(outs: seq<TxOut>, codec: JsonCodec): Result<OpReturnMessage, Flaw> {
    match Payload(outs)
    case Failure(f) => Failure(f)
    case Success(p) =>
      if p == [] then Failure(NonGlittrMessage)
      else
        match codec.decode(p)
        case None => Failure(FailedDeserialization)
        case Some(m) => if HasSomeField(m) then Success(m) else Failure(FailedDeserialization)
  }

  /** `OpReturnMessage::parse_tx` */
  method ParseTx(tx: Tx, codec: JsonCodec) returns (r: Result<OpReturnMessage, Flaw>)
    ensures r == Parse(tx.outputs, codec)
  {
    var payload: seq<byte> := [];
    var i := 0;
    while i < |tx.outputs|
      invariant 0 <= i <= |tx.outputs|
      invariant Payload(tx.outputs) == Payload(tx.outputs[i..])
    {
      var script := tx.outputs[i].script;
      if |script| == 0 || script[0] != Op(OP_RETURN) {
        i := i + 1;
        continue;
      }
      if |script| < 2 || !script[1].Push? || script[1].data != MAGIC_PREFIX {
        i := i + 1;
        continue;
      }
      assert Tagged(tx.outputs[i..][0]);
      var items := script[2..];
      var j := 0;
      while j < |items|
        invariant 0 <= j <= |items|
        invariant Gather(items[..j]) == Success(payload)
      {
        assert items[..j + 1][..j] == items[..j];
        if items[j].Op? {
          r := Failure(InvalidInstruction(items[j].code));
          GatherPrefixFailure(items, j + 1);
          return;
        } else if items[j].Undecodable? {
          r := Failure(InvalidScript);
          GatherPrefixFailure(items, j + 1);
          return;
        }
        payload := payload + items[j].data;
        j := j + 1;
      }
      assert items[..j] == items;
      break;
    }
    if payload == [] {
      return Failure(NonGlittrMessage);
    }
    match codec.decode(payload)
    case None =>
      r := Failure(FailedDeserialization);
    case Some(m) =>
      if m.contractCall.None? && m.contractCreation.None? && m.transfer.None? {
        r := Failure(FailedDeserialization);
      } else {
        r := Success(m);
      }
  }

  /** A failure in a prefix of the instructions is the failure of them all. */
  lemma {:induction false} GatherPrefixFailure(items: seq<ScriptItem>, k: nat)
    requires k <= |items| && Gather(items[..k]).Failure?
    ensures Gather(items) == Gather(items[..k])
    decreases |items| - k
  {
    if k < |items| {
      assert items[..k + 1][..k] == items[..k];
      GatherPrefixFailure(items, k + 1);
    } else {
      assert items[..k] == items;
    }
  }

  /** `OpReturnMessage::into_script`: OP_RETURN, the magic prefix, the message's JSON. */
  function IntoScript(m: OpReturnMessage, codec: JsonCodec): (s: seq<ScriptItem>)
    ensures |s| == 3 && s[0] == Op(OP_RETURN) && s[1] == Push(MAGIC_PREFIX) && s[2] == Push(codec.encode(m))
  {
    [Op(OP_RETURN), Push(MAGIC_PREFIX), Push(codec.encode(m))]
  }

  /** Outputs before the first tagged one play no part in the payload. */
  lemma {:induction false} UntaggedSkipped(before: seq<TxOut>, rest: seq<TxOut>)
    requires forall i :: 0 <= i < |before| ==> !Tagged(before[i])
    ensures Payload(before + rest) == Payload(rest)
  {
    if before != [] {
      var all := before + rest;
      assert all[0] == before[0] && !Tagged(all[0]);
      assert all[1..] == before[1..] + rest;
      assert Payload(all) == Payload(all[1..]);
      UntaggedSkipped(before[1..], rest);
    } else {
      assert before + rest == rest;
    }
  }

  /** Only the first tagged output is read: what follows it is ignored. */
  lemma {:induction false} FirstTaggedOnly(before: seq<TxOut>, out: TxOut, after: seq<TxOut>)
    requires forall i :: 0 <= i < |before| ==> !Tagged(before[i])
    requires Tagged(out)
    ensures Payload(before + [out] + after) == Gather(out.script[2..])
  {
    assert before + [out] + after == before + ([out] + after);
    UntaggedSkipped(before, [out] + after);
  }

  /** A tagged output that carries nothing after the prefix makes the parse
      fail with NonGlittrMessage, whatever later outputs carry. */
  lemma PrefixOnlyIsNonGlittr(before: seq<TxOut>, value: nat, after: seq<TxOut>, codec: JsonCodec)
    requires forall i :: 0 <= i < |before| ==> !Tagged(before[i])
    ensures Parse(before + [TxOut(value, [Op(OP_RETURN), Push(MAGIC_PREFIX)])] + after, codec) == Failure(NonGlittrMessage)
  {
    var out := TxOut(value, [Op(OP_RETURN), Push(MAGIC_PREFIX)]);
    FirstTaggedOnly(before, out, after);
    assert out.script[2..] == [];
  }

  /** Writing a message with `into_script` and parsing it back gives the message. */
  lemma ParseIntoScript(m: OpReturnMessage, codec: JsonCodec, before: seq<TxOut>, value: nat, after: seq<TxOut>)
    requires Faithful(codec) && HasSomeField(m)
    requires forall i :: 0 <= i < |before| ==> !Tagged(before[i])
    ensures Parse(before + [TxOut(value, IntoScript(m, codec))] + after, codec) == Success(m)
  {
    var out := TxOut(value, IntoScript(m, codec));
    FirstTaggedOnly(before, out, after);
    var items := out.script[2..];
    assert items == [Push(codec.encode(m))];
    assert items[..0] == [];
    assert Gather(items) == Success([] + codec.encode(m));
    assert [] + codec.encode(m) == codec.encode(m);
  }

  /** `ContractValidator for CallType`: a call is never rejected by its own shape. */
  function ValidateCallType(c: CallType): (r: Option<Flaw>)
    ensures r == None
  {
    None
  }

  /** `OpReturnMessage::validate`: a contract creation is judged by its contract's
      validator (given here as `validators`); otherwise nothing is flawed. */
  function Validate(m: OpReturnMessage, validators: ContractType -> Option<Flaw>): (r: Option<Flaw>)
    ensures m.contractCreation.Some? ==> r == validators(m.contractCreation.value.contractType)
    ensures m.contractCreation.None? ==> r == None
  {
    if m.contractCreation.Some? then validators(m.contractCreation.value.contractType)
    else if m.contractCall.Some? then ValidateCallType(m.contractCall.value.callType)
    else None
  }
}
