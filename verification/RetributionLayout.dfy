/**
 Where each field of a stored retribution is found, and how many bytes the whole
 record takes.
 */
module RetributionLayout {
  import opened Primitives
  import opened ByteOrder
  import opened WireCodec
  import opened RetributionCodec
  import opened Justice
  import opened JusticeWeight

  /** Numbers have the most significant byte first; negative amounts are in two's complement. */
  function Int64Bytes(n: int64): Bytes {
    Pow256Values();
    BigEndian(if n >= 0 then n else n + 0x1_0000_0000_0000_0000, 8)
  }

  function Uint32Bytes(n: uint32): Bytes {
    Pow256Values();
    BigEndian(n, 4)
  }

  /** An outpoint is the length of its hash, the hash and the index. */
  function OutPointBytes(o: OutPoint): Bytes {
    [32] + o.hash + Uint32Bytes(o.index)
  }

  lemma Int64Layout(n: int64, rest: Bytes)
    ensures PutInt64(n, rest) == Int64Bytes(n) + rest
  {
    Pow256Values();
  }

  lemma Uint32Layout(n: uint32, rest: Bytes)
    ensures PutUint32(n, rest) == Uint32Bytes(n) + rest
  {
  }

  lemma OutPointLayout(o: OutPoint, rest: Bytes)
    ensures PutOutPoint(o, rest) == OutPointBytes(o) + rest && |OutPointBytes(o)| == 37
  {
    Uint32Layout(o.index, rest);
    assert PutOutPoint(o, rest) == [32] + (o.hash + (Uint32Bytes(o.index) + rest));
  }

  lemma Grouped(a: Bytes, b: Bytes, c: Bytes, d: Bytes, e: Bytes)
    ensures a + (b + (c + (d + e))) == a + b + c + d + e
  {
  }

  /** The commitment's hash, the channel point, the chain's hash, the height, and then the outputs after their number. */
  lemma RecordLayout(ret: Retribution, rest: Bytes)
    requires |ret.outputs| < 0x1_0000_0000_0000_0000
    ensures PutRetribution(ret, rest)
            == ret.commitHash + OutPointBytes(ret.chanPoint) + ret.chainHash + Uint32Bytes(ret.breachHeight)
               + PutVarInt(|ret.outputs|, PutOutputs(ret.outputs, rest))
  {
    var tail := PutVarInt(|ret.outputs|, PutOutputs(ret.outputs, rest));
    Uint32Layout(ret.breachHeight, tail);
    OutPointLayout(ret.chanPoint, ret.chainHash + (Uint32Bytes(ret.breachHeight) + tail));
    Grouped(ret.commitHash, OutPointBytes(ret.chanPoint), ret.chainHash, Uint32Bytes(ret.breachHeight), tail);
  }

  /** The key's family and index, and what can vary in length. */
  lemma SignDescLayout(sd: SignDesc, rest: Bytes)
    ensures PutSignDesc(sd, rest)
            == Uint32Bytes(sd.keyDesc.family) + (Uint32Bytes(sd.keyDesc.index)
                                                 + PutPubKey(sd.keyDesc.pubKey, PutScripts(sd, rest)))
    ensures PutPubKey(sd.keyDesc.pubKey, PutScripts(sd, rest))[0] == if sd.keyDesc.pubKey.Some? then 1 else 0
  {
    var keys := PutPubKey(sd.keyDesc.pubKey, PutScripts(sd, rest));
    Uint32Layout(sd.keyDesc.index, keys);
    Uint32Layout(sd.keyDesc.family, Uint32Bytes(sd.keyDesc.index) + keys);
  }

  /** The amount, the outpoint, the sign descriptor, the second-level script after its length, and the witness type. */
  lemma OutputLayout(o: BreachedOutput, rest: Bytes)
    ensures PutOutput(o, rest)
            == Int64Bytes(o.amt) + (OutPointBytes(o.outpoint)
                                    + PutSignDesc(o.signDesc, PutVarBytes(o.secondLevelScript, PutUint16(o.witnessType, rest))))
  {
    var desc := PutSignDesc(o.signDesc, PutWitness(o, rest));
    OutPointLayout(o.outpoint, desc);
    Int64Layout(o.amt, OutPointBytes(o.outpoint) + desc);
  }

  lemma VarBytesLayout(bs: VarBytes, rest: Bytes)
    ensures PutVarBytes(bs, rest) == PutVarBytes(bs, []) + rest
  {
    VarBytesAppend(bs, [], rest);
    assert [] + rest == rest;
  }

  /** The output of a sign descriptor, its value before its script, and the hash type. */
  lemma TxOutLayout(sd: SignDesc, rest: Bytes)
    ensures PutTxOut(sd.output, PutUint32(sd.hashType, rest))
            == Int64Bytes(sd.output.value) + (PutVarBytes(sd.output.pkScript, []) + (Uint32Bytes(sd.hashType) + rest))
  {
    Uint32Layout(sd.hashType, rest);
    var hash := Uint32Bytes(sd.hashType) + rest;
    VarBytesLayout(sd.output.pkScript, hash);
    Int64Layout(sd.output.value, PutVarBytes(sd.output.pkScript, []) + hash);
  }

  lemma ThreeLayouts(a: VarBytes, b: VarBytes, c: VarBytes, rest: Bytes)
    ensures PutVarBytes(a, PutVarBytes(b, PutVarBytes(c, rest)))
            == PutVarBytes(a, []) + (PutVarBytes(b, []) + (PutVarBytes(c, []) + rest))
  {
    VarBytesLayout(c, rest);
    VarBytesLayout(b, PutVarBytes(c, []) + rest);
    VarBytesLayout(a, PutVarBytes(b, []) + (PutVarBytes(c, []) + rest));
  }

  /** The single tweak, the double tweak and the witness script, each after its length, and the output. */
  lemma ScriptsLayout(sd: SignDesc, rest: Bytes)
    ensures PutScripts(sd, rest)
            == PutVarBytes(OrEmpty(sd.singleTweak), [])
               + (PutVarBytes(OrEmpty(sd.doubleTweak), [])
                  + (PutVarBytes(sd.witnessScript, []) + PutTxOut(sd.output, PutUint32(sd.hashType, rest))))
  {
    ThreeLayouts(OrEmpty(sd.singleTweak), OrEmpty(sd.doubleTweak), sd.witnessScript,
                 PutTxOut(sd.output, PutUint32(sd.hashType, rest)));
  }

  // ---- Size ----

  function VarBytesSize(bs: VarBytes): nat {
    VarIntSize(|bs|) + |bs|
  }

  function SignDescSize(sd: SignDesc): nat {
    4 + 4 + 1 + (if sd.keyDesc.pubKey.Some? then VarBytesSize(sd.keyDesc.pubKey.value) else 0)
    + VarBytesSize(OrEmpty(sd.singleTweak)) + VarBytesSize(OrEmpty(sd.doubleTweak)) + VarBytesSize(sd.witnessScript)
    + 8 + VarBytesSize(sd.output.pkScript) + 4
  }

  function OutputSize(o: BreachedOutput): nat {
    8 + 37 + SignDescSize(o.signDesc) + VarBytesSize(o.secondLevelScript) + 2
  }

  function OutputsSize(os: seq<BreachedOutput>): nat {
    if os == [] then 0 else OutputSize(os[0]) + OutputsSize(os[1..])
  }

  lemma VarIntLength(n: uint64, rest: Bytes)
    ensures |PutVarInt(n, rest)| == VarIntSize(n) + |rest|
  {
    Pow256Values();
  }

  lemma VarBytesLength(bs: VarBytes, rest: Bytes)
    ensures |PutVarBytes(bs, rest)| == VarBytesSize(bs) + |rest|
  {
    VarIntLength(|bs|, bs + rest);
  }

  lemma ScriptsLength(sd: SignDesc, rest: Bytes)
    ensures |PutScripts(sd, rest)|
            == VarBytesSize(OrEmpty(sd.singleTweak)) + VarBytesSize(OrEmpty(sd.doubleTweak))
               + VarBytesSize(sd.witnessScript) + 8 + VarBytesSize(sd.output.pkScript) + 4 + |rest|
  {
    Pow256Values();
    var hash := PutUint32(sd.hashType, rest);
    VarBytesLength(sd.output.pkScript, hash);
    var out := PutTxOut(sd.output, hash);
    VarBytesLength(sd.witnessScript, out);
    VarBytesLength(OrEmpty(sd.doubleTweak), PutVarBytes(sd.witnessScript, out));
    VarBytesLength(OrEmpty(sd.singleTweak), PutVarBytes(OrEmpty(sd.doubleTweak), PutVarBytes(sd.witnessScript, out)));
  }

  lemma SignDescLength(sd: SignDesc, rest: Bytes)
    ensures |PutSignDesc(sd, rest)| == SignDescSize(sd) + |rest|
  {
    Pow256Values();
    ScriptsLength(sd, rest);
    if sd.keyDesc.pubKey.Some? {
      VarBytesLength(sd.keyDesc.pubKey.value, PutScripts(sd, rest));
    }
  }

  lemma OutputLength(o: BreachedOutput, rest: Bytes)
    ensures |PutOutput(o, rest)| == OutputSize(o) + |rest|
  {
    Pow256Values();
    var end := PutUint16(o.witnessType, rest);
    VarBytesLength(o.secondLevelScript, end);
    SignDescLength(o.signDesc, PutWitness(o, rest));
    OutPointLayout(o.outpoint, PutSignDesc(o.signDesc, PutWitness(o, rest)));
  }

  lemma {:induction false} OutputsLength(os: seq<BreachedOutput>, rest: Bytes)
    ensures |PutOutputs(os, rest)| == OutputsSize(os) + |rest|
    decreases |os|
  {
    if os != [] {
      OutputsLength(os[1..], rest);
      OutputLength(os[0], PutOutputs(os[1..], rest));
    }
  }

  /** A record takes 105 bytes, the number of outputs, and for each output 47 bytes, its sign descriptor and its script. */
  lemma RecordSize(ret: Retribution)
    requires |ret.outputs| < 0x1_0000_0000_0000_0000
    ensures |Encoded(ret)| == 105 + VarIntSize(|ret.outputs|) + OutputsSize(ret.outputs)
  {
    RecordLayout(ret, []);
    OutputsLength(ret.outputs, []);
    VarIntLength(|ret.outputs|, PutOutputs(ret.outputs, []));
    OutPointLayout(ret.chanPoint, []);
  }
}
