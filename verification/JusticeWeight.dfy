/**
 The weight on which the fee of the justice transaction is computed, against the
 serialized transaction: three times its size without witnesses plus its whole size.
 */
module JusticeWeight {
  import opened Primitives
  import opened ByteOrder
  import opened WireCodec
  import opened RetributionCodec
  import opened Justice

  /** An input without its witness: the outpoint, an empty script and the sequence number. */
  function Input(o: OutPoint): Bytes {
    Pow256Values();
    o.hash + LittleEndian(o.index, 4) + PutVarInt(0, []) + LittleEndian(0xffff_ffff, 4)
  }

  function Inputs(os: seq<OutPoint>): Bytes {
    if os == [] then [] else Inputs(os[..|os| - 1]) + Input(os[|os| - 1])
  }

  /** The transaction without witnesses: version, inputs, the one output, and lock time. */
  function Stripped(inputs: seq<OutPoint>, value: uint64, script: VarBytes): Bytes
    requires |inputs| < 0x1_0000_0000_0000_0000
  {
    Pow256Values();
    LittleEndian(2, 4) + PutVarInt(|inputs|, []) + Inputs(inputs)
    + PutVarInt(1, []) + LittleEndian(value, 8) + PutVarBytes(script, []) + LittleEndian(0, 4)
  }

  /** Weight as the network counts it, for a transaction whose witnesses take `witnessBytes` after the two-byte header. */
  function NetworkWeight(stripped: Bytes, witnessBytes: nat): nat {
    3 * |stripped| + (|stripped| + 2 + witnessBytes)
  }

  /** The size computed for a count is that of its encoding. */
  lemma VarIntSizeIsLength(n: uint64)
    ensures |PutVarInt(n, [])| == VarIntSize(n)
  {
    Pow256Values();
  }

  lemma {:induction false} InputsSize(os: seq<OutPoint>)
    ensures |Inputs(os)| == 41 * |os|
  {
    Pow256Values();
    if os != [] {
      InputsSize(os[..|os| - 1]);
    }
  }

  lemma ScriptSize(script: VarBytes)
    requires |script| == 22
    ensures |PutVarBytes(script, [])| == 23
  {
    Pow256Values();
  }

  /**
   For any inputs, value and script paying to a public key hash, the estimate is
   the weight of the serialized transaction with witnesses of the estimated size.
   */
  lemma WeightIsExact(inputs: seq<OutPoint>, value: uint64, script: VarBytes, witnessBytes: nat)
    requires 0 < |inputs| < 0x1_0000_0000_0000_0000 && |script| == 22
    ensures TxWeight(|inputs|, witnessBytes) == NetworkWeight(Stripped(inputs, value, script), witnessBytes)
  {
    Pow256Values();
    VarIntSizeIsLength(|inputs|);
    InputsSize(inputs);
    ScriptSize(script);
  }

  ghost predicate PaysFor(fee: int, feePerKw: nat, weight: nat) {
    1000 * fee <= feePerKw * weight < 1000 * fee + 1000
  }

  lemma RatePaid(feePerKw: nat, weight: nat)
    ensures PaysFor(FeeForWeight(feePerKw, weight), feePerKw, weight)
  {
    FeeRoundsDown(feePerKw, weight);
  }

  lemma PaidForItsWeight(inputs: seq<OutPoint>, value: uint64, script: VarBytes, witnessBytes: nat, feePerKw: nat, fee: int)
    requires 0 < |inputs| < 0x1_0000_0000_0000_0000 && |script| == 22
    requires fee == FeeForWeight(feePerKw, TxWeight(|inputs|, witnessBytes))
    ensures PaysFor(fee, feePerKw, NetworkWeight(Stripped(inputs, value, script), witnessBytes))
  {
    WeightIsExact(inputs, value, script, witnessBytes);
    RatePaid(feePerKw, TxWeight(|inputs|, witnessBytes));
  }

  /** What a sane sweep pays in fees is the rate for its own weight, once serialized and signed, rounded down. */
  lemma SweepPaysForItsWeight(os: seq<BreachedOutput>, feePerKw: nat, script: VarBytes)
    requires |script| == 22 && |os| < 0x1_0000_0000_0000_0000 && Sane(SweepOf(os, feePerKw, script))
    ensures var tx := SweepOf(os, feePerKw, script);
            PaysFor(SignedTotal(os) - tx.value, feePerKw,
                    NetworkWeight(Stripped(tx.inputs, tx.value, script), WitnessBytes(os)))
  {
    var tx := SweepOf(os, feePerKw, script);
    PaidForItsWeight(tx.inputs, tx.value, script, WitnessBytes(os), feePerKw, SignedTotal(os) - tx.value);
  }
}
