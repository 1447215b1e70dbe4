/**
 The stored form of a breach retribution: sign descriptors, breached outputs and
 the record itself. A record is read back exactly when its scripts and tweaks
 are within the limits the reader enforces.
 */
module RetributionCodec {
  import opened Primitives
  import opened ByteOrder
  import opened WireCodec

  // ---- Sign descriptors ----

  datatype KeyDesc = KeyDesc(family: uint32, index: uint32, pubKey: Option<VarBytes>)

  datatype TxOut = TxOut(value: int64, pkScript: VarBytes)

  datatype SignDesc = SignDesc(keyDesc: KeyDesc, singleTweak: Option<VarBytes>, doubleTweak: Option<VarBytes>,
                               witnessScript: VarBytes, output: TxOut, hashType: uint32)

  /** The form of a compressed public key; that it is on the curve is not modelled. */
  predicate IsPubKey(bs: Bytes) {
    |bs| == 33 && (bs[0] == 2 || bs[0] == 3)
  }

  ghost predicate TypedSignDesc(sd: SignDesc) {
    && (sd.keyDesc.pubKey.Some? ==> IsPubKey(sd.keyDesc.pubKey.value))
    && (sd.doubleTweak.Some? ==> |sd.doubleTweak.value| == 32)
  }

  function OrEmpty(bs: Option<VarBytes>): VarBytes {
    if bs.Some? then bs.value else []
  }

  function PutTxOut(o: TxOut, rest: Bytes): Bytes {
    PutInt64(o.value, PutVarBytes(o.pkScript, rest))
  }

  function PutPubKey(key: Option<VarBytes>, rest: Bytes): Bytes {
    if key.Some? then [1] + PutVarBytes(key.value, rest) else [0] + rest
  }

  function PutSignDesc(sd: SignDesc, rest: Bytes): Bytes {
    PutUint32(sd.keyDesc.family,
              PutUint32(sd.keyDesc.index,
                        PutPubKey(sd.keyDesc.pubKey, PutScripts(sd, rest))))
  }

  /** The tweaks, the witness script, the output and the hash type. */
  function PutScripts(sd: SignDesc, rest: Bytes): Bytes {
    PutVarBytes(OrEmpty(sd.singleTweak),
                PutVarBytes(OrEmpty(sd.doubleTweak),
                            PutVarBytes(sd.witnessScript, PutTxOut(sd.output, PutUint32(sd.hashType, rest)))))
  }

  function GetTxOut(r: Bytes): Parsed<TxOut> {
    match GetInt64(r)
    case Malformed => Malformed
    case Parsed(value, r1) =>
      match GetVarBytes(r1, 80)
      case Malformed => Malformed
      case Parsed(pkScript, rest) => Parsed(TxOut(value, pkScript), rest)
  }

  function GetPubKey(r: Bytes): Parsed<Option<VarBytes>> {
    if r == [] then Malformed
    else if r[0] == 0 then Parsed(None, r[1..])
    else match GetVarBytes(r[1..], 34)
      case Malformed => Malformed
      case Parsed(key, rest) => if IsPubKey(key) then Parsed(Some(key), rest) else Malformed
  }

  /** A tweak of length zero stands for none. */
  function Tweak(bs: VarBytes): Option<VarBytes> {
    if |bs| == 0 then None else Some(bs)
  }

  function GetSignDesc(r: Bytes): Parsed<SignDesc> {
    match GetUint32(r)
    case Malformed => Malformed
    case Parsed(family, r1) =>
      match GetUint32(r1)
      case Malformed => Malformed
      case Parsed(index, r2) =>
        match GetPubKey(r2)
        case Malformed => Malformed
        case Parsed(key, r3) => GetScripts(KeyDesc(family, index, key), r3)
  }

  function GetScripts(keyDesc: KeyDesc, r: Bytes): Parsed<SignDesc> {
    match GetVarBytes(r, 32)
    case Malformed => Malformed
    case Parsed(single, r1) =>
      match GetVarBytes(r1, 32)
      case Malformed => Malformed
      case Parsed(double, r2) =>
        if Tweak(single).Some? && Tweak(double).Some? then Malformed
        else match GetVarBytes(r2, 500)
          case Malformed => Malformed
          case Parsed(script, r3) =>
            match GetTxOut(r3)
            case Malformed => Malformed
            case Parsed(output, r4) =>
              match GetUint32(r4)
              case Malformed => Malformed
              case Parsed(hashType, rest) =>
                Parsed(SignDesc(keyDesc, Tweak(single), Tweak(double), script, output, hashType), rest)
  }

  /** What the reader of a sign descriptor accepts. */
  predicate FitsSignDesc(sd: SignDesc) {
    && (sd.singleTweak.Some? ==> 1 <= |sd.singleTweak.value| <= 32 && sd.doubleTweak.None?)
    && |sd.witnessScript| <= 500
    && |sd.output.pkScript| <= 80
  }

  lemma TxOutBack(o: TxOut, rest: Bytes)
    ensures GetTxOut(PutTxOut(o, rest)) == if |o.pkScript| <= 80 then Parsed(o, rest) else Malformed
  {
    Int64Back(o.value, PutVarBytes(o.pkScript, rest));
    VarBytesBack(o.pkScript, 80, rest);
  }

  lemma PubKeyBack(key: Option<VarBytes>, rest: Bytes)
    requires key.Some? ==> IsPubKey(key.value)
    ensures GetPubKey(PutPubKey(key, rest)) == Parsed(key, rest)
  {
    var bytes := PutPubKey(key, rest);
    if key.Some? {
      VarBytesBack(key.value, 34, rest);
      assert bytes[1..] == PutVarBytes(key.value, rest);
    } else {
      assert bytes[1..] == rest;
    }
  }

  lemma ScriptsBack(sd: SignDesc, rest: Bytes)
    requires TypedSignDesc(sd)
    ensures ReadsBack(GetScripts(sd.keyDesc, PutScripts(sd, rest)), sd, rest, FitsSignDesc(sd))
  {
    var r4 := PutUint32(sd.hashType, rest);
    var r3 := PutTxOut(sd.output, r4);
    var r2 := PutVarBytes(sd.witnessScript, r3);
    var r1 := PutVarBytes(OrEmpty(sd.doubleTweak), r2);
    VarBytesBack(OrEmpty(sd.singleTweak), 32, r1);
    VarBytesBack(OrEmpty(sd.doubleTweak), 32, r2);
    VarBytesBack(sd.witnessScript, 500, r3);
    TxOutBack(sd.output, r4);
    Uint32Back(sd.hashType, rest);
  }

  lemma SignDescBack(sd: SignDesc, rest: Bytes)
    requires TypedSignDesc(sd)
    ensures ReadsBack(GetSignDesc(PutSignDesc(sd, rest)), sd, rest, FitsSignDesc(sd))
  {
    var r3 := PutScripts(sd, rest);
    var r2 := PutPubKey(sd.keyDesc.pubKey, r3);
    Uint32Back(sd.keyDesc.family, PutUint32(sd.keyDesc.index, r2));
    Uint32Back(sd.keyDesc.index, r2);
    PubKeyBack(sd.keyDesc.pubKey, r3);
    ScriptsBack(sd, rest);
  }

  // ---- Breached outputs ----

  datatype BreachedOutput = BreachedOutput(amt: int64, outpoint: OutPoint, witnessType: uint16,
                                           signDesc: SignDesc, secondLevelScript: VarBytes)

  /** What the reader accepts. */
  predicate FitsOutput(o: BreachedOutput) {
    FitsSignDesc(o.signDesc) && |o.secondLevelScript| <= 1000
  }

  function PutOutput(o: BreachedOutput, rest: Bytes): Bytes {
    PutInt64(o.amt,
             PutOutPoint(o.outpoint,
                         PutSignDesc(o.signDesc, PutWitness(o, rest))))
  }

  function PutWitness(o: BreachedOutput, rest: Bytes): Bytes {
    PutVarBytes(o.secondLevelScript, PutUint16(o.witnessType, rest))
  }

  function GetWitness(r: Bytes): Parsed<(VarBytes, uint16)> {
    match GetVarBytes(r, 1000)
    case Malformed => Malformed
    case Parsed(script, r1) =>
      match GetUint16(r1)
      case Malformed => Malformed
      case Parsed(witnessType, rest) => Parsed((script, witnessType), rest)
  }

  function GetOutput(r: Bytes): Parsed<BreachedOutput> {
    match GetInt64(r)
    case Malformed => Malformed
    case Parsed(amt, r1) =>
      match GetOutPoint(r1)
      case Malformed => Malformed
      case Parsed(outpoint, r2) =>
        match GetSignDesc(r2)
        case Malformed => Malformed
        case Parsed(signDesc, r3) =>
          match GetWitness(r3)
          case Malformed => Malformed
          case Parsed((script, witnessType), rest) =>
            Parsed(BreachedOutput(amt, outpoint, witnessType, signDesc, script), rest)
  }

  lemma WitnessBack(o: BreachedOutput, rest: Bytes)
    ensures GetWitness(PutWitness(o, rest))
            == if |o.secondLevelScript| <= 1000 then Parsed((o.secondLevelScript, o.witnessType), rest) else Malformed
  {
    VarBytesBack(o.secondLevelScript, 1000, PutUint16(o.witnessType, rest));
    Uint16Back(o.witnessType, rest);
  }

  lemma OutputBack(o: BreachedOutput, rest: Bytes)
    requires TypedSignDesc(o.signDesc)
    ensures ReadsBack(GetOutput(PutOutput(o, rest)), o, rest, FitsOutput(o))
  {
    var r3 := PutWitness(o, rest);
    var r2 := PutSignDesc(o.signDesc, r3);
    Int64Back(o.amt, PutOutPoint(o.outpoint, r2));
    OutPointBack(o.outpoint, r2);
    SignDescBack(o.signDesc, r3);
    WitnessBack(o, rest);
  }

  // ---- Retribution records ----

  datatype Retribution = Retribution(commitHash: Hash, chanPoint: OutPoint, chainHash: Hash,
                                     breachHeight: uint32, outputs: seq<BreachedOutput>)

  ghost predicate TypedRetribution(ret: Retribution) {
    && |ret.outputs| < 0x1_0000_0000_0000_0000
    && (forall o :: o in ret.outputs ==> TypedSignDesc(o.signDesc))
  }

  function PutOutputs(outputs: seq<BreachedOutput>, rest: Bytes): Bytes {
    PutMany(PutOutput, outputs, rest)
  }

  function PutRetribution(ret: Retribution, rest: Bytes): Bytes
    requires |ret.outputs| < 0x1_0000_0000_0000_0000
  {
    ret.commitHash + PutOutPoint(ret.chanPoint, ret.chainHash + PutBreach(ret.breachHeight, ret.outputs, rest))
  }

  /** The height of the breach and the breached outputs, preceded by their number. */
  function PutBreach(height: uint32, outputs: seq<BreachedOutput>, rest: Bytes): Bytes
    requires |outputs| < 0x1_0000_0000_0000_0000
  {
    PutUint32(height, PutVarInt(|outputs|, PutOutputs(outputs, rest)))
  }

  function GetBreach(r: Bytes): Parsed<(uint32, seq<BreachedOutput>)> {
    match GetUint32(r)
    case Malformed => Malformed
    case Parsed(height, r1) =>
      match GetVarInt(r1)
      case Malformed => Malformed
      case Parsed(n, r2) =>
        match GetMany(GetOutput, r2, n)
        case Malformed => Malformed
        case Parsed(outputs, rest) => Parsed((height, outputs), rest)
  }

  function GetRetribution(r: Bytes): Parsed<Retribution> {
    match Take(r, 32)
    case Malformed => Malformed
    case Parsed(commitHash, r1) =>
      match GetOutPoint(r1)
      case Malformed => Malformed
      case Parsed(chanPoint, r2) =>
        match Take(r2, 32)
        case Malformed => Malformed
        case Parsed(chainHash, r3) =>
          match GetBreach(r3)
          case Malformed => Malformed
          case Parsed((height, outputs), rest) =>
            Parsed(Retribution(commitHash, chanPoint, chainHash, height, outputs), rest)
  }

  lemma OutputsBack(outputs: seq<BreachedOutput>, rest: Bytes)
    requires forall o :: o in outputs ==> TypedSignDesc(o.signDesc)
    ensures ReadsBack(GetMany(GetOutput, PutOutputs(outputs, rest), |outputs|), outputs, rest, AllFit(FitsOutput, outputs))
  {
    forall o, r | o in outputs
      ensures ReadsBack(GetOutput(PutOutput(o, r)), o, r, FitsOutput(o))
    {
      OutputBack(o, r);
    }
    ManyBack(PutOutput, GetOutput, FitsOutput, outputs, rest);
  }

  lemma BreachBack(height: uint32, outputs: seq<BreachedOutput>, rest: Bytes)
    requires |outputs| < 0x1_0000_0000_0000_0000
    requires forall o :: o in outputs ==> TypedSignDesc(o.signDesc)
    ensures ReadsBack(GetBreach(PutBreach(height, outputs, rest)), (height, outputs), rest, AllFit(FitsOutput, outputs))
  {
    var r2 := PutOutputs(outputs, rest);
    Uint32Back(height, PutVarInt(|outputs|, r2));
    VarIntBack(|outputs|, r2);
    OutputsBack(outputs, rest);
  }

  /**
   A stored record is read back as it was written, leaving exactly the bytes
   after it, if and only if it is within the reader's limits.
   */
  lemma RetributionBack(ret: Retribution, rest: Bytes)
    requires TypedRetribution(ret)
    ensures ReadsBack(GetRetribution(PutRetribution(ret, rest)), ret, rest, AllFit(FitsOutput, ret.outputs))
  {
    var r3 := PutBreach(ret.breachHeight, ret.outputs, rest);
    var r2 := ret.chainHash + r3;
    TakeBack(ret.commitHash, PutOutPoint(ret.chanPoint, r2));
    OutPointBack(ret.chanPoint, r2);
    TakeBack(ret.chainHash, r3);
    BreachBack(ret.breachHeight, ret.outputs, rest);
  }

  // ---- Streams ----

  lemma PubKeyAppend(key: Option<VarBytes>, a: Bytes, b: Bytes)
    ensures PutPubKey(key, a + b) == PutPubKey(key, a) + b
  {
    if key.Some? {
      VarBytesAppend(key.value, a, b);
      assert [1] + (PutVarBytes(key.value, a) + b) == ([1] + PutVarBytes(key.value, a)) + b;
    } else {
      assert [0] + (a + b) == ([0] + a) + b;
    }
  }

  lemma SignDescAppend(sd: SignDesc, a: Bytes, b: Bytes)
    ensures PutSignDesc(sd, a + b) == PutSignDesc(sd, a) + b
  {
    var r3 := PutScripts(sd, a);
    var r2 := PutPubKey(sd.keyDesc.pubKey, r3);
    ScriptsAppend(sd, a, b);
    PubKeyAppend(sd.keyDesc.pubKey, r3, b);
    Uint32Append(sd.keyDesc.index, r2, b);
    Uint32Append(sd.keyDesc.family, PutUint32(sd.keyDesc.index, r2), b);
  }

  lemma ScriptsAppend(sd: SignDesc, a: Bytes, b: Bytes)
    ensures PutScripts(sd, a + b) == PutScripts(sd, a) + b
  {
    var r4 := PutUint32(sd.hashType, a);
    var r3 := PutTxOut(sd.output, r4);
    var r2 := PutVarBytes(sd.witnessScript, r3);
    Uint32Append(sd.hashType, a, b);
    VarBytesAppend(sd.output.pkScript, r4, b);
    Int64Append(sd.output.value, PutVarBytes(sd.output.pkScript, r4), b);
    VarBytesAppend(sd.witnessScript, r3, b);
    VarBytesAppend(OrEmpty(sd.doubleTweak), r2, b);
    VarBytesAppend(OrEmpty(sd.singleTweak), PutVarBytes(OrEmpty(sd.doubleTweak), r2), b);
  }

  lemma OutputAppend(o: BreachedOutput, a: Bytes, b: Bytes)
    ensures PutOutput(o, a + b) == PutOutput(o, a) + b
  {
    var r4 := PutUint16(o.witnessType, a);
    var r3 := PutWitness(o, a);
    var r2 := PutSignDesc(o.signDesc, r3);
    Uint16Append(o.witnessType, a, b);
    VarBytesAppend(o.secondLevelScript, r4, b);
    SignDescAppend(o.signDesc, r3, b);
    OutPointAppend(o.outpoint, r2, b);
    Int64Append(o.amt, PutOutPoint(o.outpoint, r2), b);
  }

  lemma OutputsAppend(outputs: seq<BreachedOutput>, a: Bytes, b: Bytes)
    ensures PutOutputs(outputs, a + b) == PutOutputs(outputs, a) + b
  {
    OutputsOnlyAppend();
    ManyAppend(PutOutput, outputs, a, b);
  }

  lemma OutputsOnlyAppend()
    ensures forall o: BreachedOutput, r, r' :: PutOutput(o, r + r') == PutOutput(o, r) + r'
  {
    forall o: BreachedOutput, r, r'
      ensures PutOutput(o, r + r') == PutOutput(o, r) + r'
    {
      OutputAppend(o, r, r');
    }
  }

  function Encoded(ret: Retribution): Bytes
    requires |ret.outputs| < 0x1_0000_0000_0000_0000
  {
    PutRetribution(ret, [])
  }

  lemma BreachAppend(height: uint32, outputs: seq<BreachedOutput>, a: Bytes, b: Bytes)
    requires |outputs| < 0x1_0000_0000_0000_0000
    ensures PutBreach(height, outputs, a + b) == PutBreach(height, outputs, a) + b
  {
    var r2 := PutOutputs(outputs, a);
    OutputsAppend(outputs, a, b);
    VarIntAppend(|outputs|, r2, b);
    Uint32Append(height, PutVarInt(|outputs|, r2), b);
  }

  lemma RetributionAppend(ret: Retribution, a: Bytes, b: Bytes)
    requires |ret.outputs| < 0x1_0000_0000_0000_0000
    ensures PutRetribution(ret, a + b) == PutRetribution(ret, a) + b
  {
    var r3 := PutBreach(ret.breachHeight, ret.outputs, a);
    BreachAppend(ret.breachHeight, ret.outputs, a, b);
    assert ret.chainHash + (r3 + b) == (ret.chainHash + r3) + b;
    OutPointAppend(ret.chanPoint, ret.chainHash + r3, b);
    var r1 := PutOutPoint(ret.chanPoint, ret.chainHash + r3);
    assert ret.commitHash + (r1 + b) == (ret.commitHash + r1) + b;
  }

  /** Decoding a stream that starts with an encoded record yields it and leaves exactly the rest. */
  lemma DecodeUndoesEncode(ret: Retribution, rest: Bytes)
    requires TypedRetribution(ret)
    ensures GetRetribution(Encoded(ret) + rest) == Parsed(ret, rest) <==> AllFit(FitsOutput, ret.outputs)
  {
    RetributionAppend(ret, [], rest);
    assert [] + rest == rest;
    RetributionBack(ret, rest);
  }

  /** Writes a record to a stream, field by field. */
  method Encode(ret: Retribution, w: Bytes) returns (r: Bytes)
    requires TypedRetribution(ret)
    ensures r == w + Encoded(ret)
  {
    r := w + ret.commitHash;
    r := r + PutOutPoint(ret.chanPoint, []);
    r := r + ret.chainHash;
    r := r + PutUint32(ret.breachHeight, []);
    r := r + PutVarInt(|ret.outputs|, []);
    OutputsOnlyAppend();
    r := EncodeMany(PutOutput, ret.outputs, r);
    FieldsConcatenate(ret, PutOutputs(ret.outputs, []), w);
  }

  lemma FieldsConcatenate(ret: Retribution, body: Bytes, w: Bytes)
    requires TypedRetribution(ret) && body == PutOutputs(ret.outputs, [])
    ensures w + ret.commitHash + PutOutPoint(ret.chanPoint, []) + ret.chainHash + PutUint32(ret.breachHeight, [])
            + PutVarInt(|ret.outputs|, []) + body
            == w + Encoded(ret)
  {
    var n := PutVarInt(|ret.outputs|, []);
    var h := PutUint32(ret.breachHeight, []);
    var p := PutOutPoint(ret.chanPoint, []);
    VarIntAppend(|ret.outputs|, [], body);
    Uint32Append(ret.breachHeight, [], n + body);
    OutPointAppend(ret.chanPoint, [], ret.chainHash + (h + (n + body)));
    assert [] + body == body && [] + (n + body) == n + body;
    assert [] + (ret.chainHash + (h + (n + body))) == ret.chainHash + (h + (n + body));
    Reassociate(w, ret.commitHash, p, ret.chainHash, h, n, body);
  }

  lemma Reassociate(a: Bytes, b: Bytes, c: Bytes, d: Bytes, e: Bytes, f: Bytes, g: Bytes)
    ensures a + b + c + d + e + f + g == a + (b + (c + (d + (e + (f + g)))))
  {
  }

  /** Reads a record from a stream, field by field. */
  method Decode(r: Bytes) returns (p: Parsed<Retribution>)
    ensures p == GetRetribution(r)
  {
    var commitHash := Take(r, 32);
    if commitHash.Malformed? {
      return Malformed;
    }
    var chanPoint := GetOutPoint(commitHash.rest);
    if chanPoint.Malformed? {
      return Malformed;
    }
    var chainHash := Take(chanPoint.rest, 32);
    if chainHash.Malformed? {
      return Malformed;
    }
    var breach := DecodeBreach(chainHash.rest);
    if breach.Malformed? {
      return Malformed;
    }
    return Parsed(Retribution(commitHash.value, chanPoint.value, chainHash.value, breach.value.0, breach.value.1),
                  breach.rest);
  }

  method DecodeBreach(r: Bytes) returns (p: Parsed<(uint32, seq<BreachedOutput>)>)
    ensures p == GetBreach(r)
  {
    var height := GetUint32(r);
    if height.Malformed? {
      return Malformed;
    }
    var n := GetVarInt(height.rest);
    if n.Malformed? {
      return Malformed;
    }
    var outputs := DecodeMany(GetOutput, n.rest, n.value);
    if outputs.Malformed? {
      return Malformed;
    }
    return Parsed((height.value, outputs.value), outputs.rest);
  }
}
