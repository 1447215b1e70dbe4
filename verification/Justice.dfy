/**
 From a detected breach to the justice transaction: which outputs are swept, for
 what amount, and how often the broadcast is retried when the counterparty takes
 HTLC outputs to the second level.
 */
module Justice {
  import opened Primitives
  import opened WireCodec
  import opened RetributionCodec

  const COMMITMENT_NO_DELAY: uint16 := 1
  const COMMITMENT_REVOKE: uint16 := 2
  const HTLC_OFFERED_REVOKE: uint16 := 3
  const HTLC_ACCEPTED_REVOKE: uint16 := 4
  const HTLC_SECOND_LEVEL_REVOKE: uint16 := 9

  // ---- The outputs of a breach ----

  datatype CommitOutput = CommitOutput(outpoint: OutPoint, signDesc: SignDesc)

  datatype HtlcOutput = HtlcOutput(outpoint: OutPoint, signDesc: SignDesc, isIncoming: bool,
                                   secondLevelScript: VarBytes)

  /** What the wallet reports; a commitment output that is dust is absent. */
  datatype Breach = Breach(commitHash: Hash, chainHash: Hash, height: uint32,
                           local: Option<CommitOutput>, remote: Option<CommitOutput>, htlcs: seq<HtlcOutput>)

  function MakeOutput(outpoint: OutPoint, witnessType: uint16, script: VarBytes, sd: SignDesc): BreachedOutput {
    BreachedOutput(sd.output.value, outpoint, witnessType, sd, script)
  }

  function FromCommit(o: Option<CommitOutput>, witnessType: uint16): seq<BreachedOutput> {
    if o.Some? then [MakeOutput(o.value.outpoint, witnessType, [], o.value.signDesc)] else []
  }

  function FromHtlc(h: HtlcOutput): BreachedOutput {
    MakeOutput(h.outpoint, if h.isIncoming then HTLC_ACCEPTED_REVOKE else HTLC_OFFERED_REVOKE,
               h.secondLevelScript, h.signDesc)
  }

  /** An HTLC output still on the commitment transaction. */
  predicate IsHtlc(o: BreachedOutput) {
    o.witnessType == HTLC_ACCEPTED_REVOKE || o.witnessType == HTLC_OFFERED_REVOKE
  }

  /** The output is one the justice transaction sweeps, and its amount is the one it signs for. */
  predicate Sound(o: BreachedOutput) {
    WitnessSize(o.witnessType).Some? && o.amt == o.signDesc.output.value
  }

  ghost predicate AllSound(os: seq<BreachedOutput>) {
    forall i :: 0 <= i < |os| ==> Sound(os[i])
  }

  function FromHtlcs(htlcs: seq<HtlcOutput>): seq<BreachedOutput> {
    seq(|htlcs|, i requires 0 <= i < |htlcs| => FromHtlc(htlcs[i]))
  }

  lemma AllAreSound(b: Breach)
    ensures AllSound(FromCommit(b.local, COMMITMENT_NO_DELAY) + FromCommit(b.remote, COMMITMENT_REVOKE) + FromHtlcs(b.htlcs))
  {
    assert AllSound(FromCommit(b.local, COMMITMENT_NO_DELAY)) && AllSound(FromCommit(b.remote, COMMITMENT_REVOKE));
    assert AllSound(FromHtlcs(b.htlcs));
  }

  method AddHtlcs(outputs: seq<BreachedOutput>, htlcs: seq<HtlcOutput>) returns (r: seq<BreachedOutput>)
    ensures r == outputs + FromHtlcs(htlcs)
  {
    r := outputs;
    for i := 0 to |htlcs|
      invariant r == outputs + FromHtlcs(htlcs[..i])
    {
      var h := htlcs[i];
      var witnessType := if h.isIncoming then HTLC_ACCEPTED_REVOKE else HTLC_OFFERED_REVOKE;
      r := r + [MakeOutput(h.outpoint, witnessType, h.secondLevelScript, h.signDesc)];
      assert FromHtlcs(htlcs[..i + 1]) == FromHtlcs(htlcs[..i]) + [FromHtlc(h)];
    }
    assert htlcs[..|htlcs|] == htlcs;
  }

  method NewRetributionInfo(chanPoint: OutPoint, b: Breach) returns (ret: Retribution)
    ensures ret.chanPoint == chanPoint && ret.commitHash == b.commitHash && ret.chainHash == b.chainHash
    ensures ret.breachHeight == b.height
    ensures ret.outputs == FromCommit(b.local, COMMITMENT_NO_DELAY) + FromCommit(b.remote, COMMITMENT_REVOKE)
                           + FromHtlcs(b.htlcs)
    ensures AllSound(ret.outputs)
  {
    var outputs: seq<BreachedOutput> := [];
    if b.local.Some? {
      outputs := outputs + [MakeOutput(b.local.value.outpoint, COMMITMENT_NO_DELAY, [], b.local.value.signDesc)];
    }
    if b.remote.Some? {
      outputs := outputs + [MakeOutput(b.remote.value.outpoint, COMMITMENT_REVOKE, [], b.remote.value.signDesc)];
    }
    assert outputs == FromCommit(b.local, COMMITMENT_NO_DELAY) + FromCommit(b.remote, COMMITMENT_REVOKE);
    outputs := AddHtlcs(outputs, b.htlcs);
    AllAreSound(b);
    ret := Retribution(b.commitHash, chanPoint, b.chainHash, b.height, outputs);
  }

  /**
   Which output stands where, and how it is spent: our own as a plain key output,
   the peer's by revocation, an HTLC we were offered as accepted and one we
   offered as offered, each with its own amount, descriptor and second-level script.
   */
  lemma OutputsOfBreach(b: Breach, i: nat)
    requires i < |b.htlcs|
    ensures var local, remote := FromCommit(b.local, COMMITMENT_NO_DELAY), FromCommit(b.remote, COMMITMENT_REVOKE);
            && (b.local.Some? ==> |local| == 1 && local[0].witnessType == 1 && local[0].outpoint == b.local.value.outpoint
                                  && local[0].signDesc == b.local.value.signDesc)
            && (b.remote.Some? ==> |remote| == 1 && remote[0].witnessType == 2 && remote[0].outpoint == b.remote.value.outpoint
                                   && remote[0].signDesc == b.remote.value.signDesc)
            && (b.local.None? ==> local == []) && (b.remote.None? ==> remote == [])
    ensures var o, h := FromHtlcs(b.htlcs)[i], b.htlcs[i];
            && o.witnessType == (if h.isIncoming then 4 else 3)
            && o.outpoint == h.outpoint && o.signDesc == h.signDesc && o.amt == h.signDesc.output.value
            && o.secondLevelScript == h.secondLevelScript
  {
  }

  // ---- The justice transaction ----

  datatype JusticeTx = JusticeTx(inputs: seq<OutPoint>, value: int, pkScript: Bytes)

  datatype JusticeError = NoInputs | BadValue | DuplicateInput

  /** The witness size assumed for an input; other witness types are left out of the transaction. */
  function WitnessSize(witnessType: uint16): Option<nat> {
    if witnessType == COMMITMENT_NO_DELAY then Some(109)
    else if witnessType == COMMITMENT_REVOKE then Some(156)
    else if witnessType == HTLC_OFFERED_REVOKE then Some(243)
    else if witnessType == HTLC_ACCEPTED_REVOKE then Some(249)
    else if witnessType == HTLC_SECOND_LEVEL_REVOKE then Some(156)
    else None
  }

  function VarIntSize(n: nat): nat {
    if n < 0xfd then 1 else if n <= 0xffff then 3 else if n <= 0xffff_ffff then 5 else 9
  }

  /** Weight of a transaction with one P2WKH output. */
  function TxWeight(inputs: nat, witnessBytes: nat): nat {
    4 * (8 + VarIntSize(inputs) + 41 * inputs + 1 + 31) + if inputs > 0 then 2 + witnessBytes else 0
  }

  function FeeForWeight(feePerKw: nat, weight: nat): nat {
    feePerKw * weight / 1000
  }

  /** The fee is the rate per thousand weight units, rounded down. */
  lemma FeeRoundsDown(feePerKw: nat, weight: nat)
    ensures var fee := FeeForWeight(feePerKw, weight); 1000 * fee <= feePerKw * weight < 1000 * fee + 1000
  {
  }

  /** The witnesses, as signature, revocation key or zero byte, and script with their length bytes and count. */
  lemma WitnessesAddUp()
    ensures var sig, key := 1 + 73, 1 + 33;
            var toLocalScript, acceptedScript, offeredScript := 1 + 79, 1 + 139, 1 + 133;
            && WitnessSize(1) == Some(1 + sig + key)
            && WitnessSize(2) == WitnessSize(9) == Some(1 + sig + 1 + toLocalScript)
            && WitnessSize(3) == Some(1 + sig + key + offeredScript)
            && WitnessSize(4) == Some(1 + sig + key + acceptedScript)
    ensures forall w: uint16 :: w !in {1, 2, 3, 4, 9} ==> WitnessSize(w) == None
  {
  }

  /** The value of the outputs according to their sign descriptors. */
  function SignedTotal(os: seq<BreachedOutput>): int {
    if os == [] then 0 else SignedTotal(os[..|os| - 1]) + os[|os| - 1].signDesc.output.value
  }

  /** The amounts recorded for the outputs. */
  function Total(os: seq<BreachedOutput>): int {
    if os == [] then 0 else Total(os[..|os| - 1]) + os[|os| - 1].amt
  }

  function Recognized(os: seq<BreachedOutput>): seq<BreachedOutput> {
    if os == [] then []
    else Recognized(os[..|os| - 1]) + if WitnessSize(os[|os| - 1].witnessType).Some? then [os[|os| - 1]] else []
  }

  function WitnessBytes(os: seq<BreachedOutput>): nat {
    if os == [] then 0
    else
      var size := WitnessSize(os[|os| - 1].witnessType);
      WitnessBytes(os[..|os| - 1]) + if size.Some? then size.value else 0
  }

  function OutPoints(os: seq<BreachedOutput>): seq<OutPoint> {
    seq(|os|, i requires 0 <= i < |os| => os[i].outpoint)
  }

  ghost predicate Distinct<T>(xs: seq<T>) {
    forall i, j :: 0 <= i < j < |xs| ==> xs[i] != xs[j]
  }

  const MAX_SATOSHI: int := 2_100_000_000_000_000

  /** The transaction that spends every one of `os` into a single output. */
  function SweepOf(os: seq<BreachedOutput>, feePerKw: nat, pkScript: Bytes): JusticeTx {
    JusticeTx(OutPoints(os), SignedTotal(os) - FeeForWeight(feePerKw, TxWeight(|os|, WitnessBytes(os))), pkScript)
  }

  /** For sound outputs nothing is left out, and the amount swept is the sum of theirs less the fee. */
  lemma {:induction false} SweepIsComplete(os: seq<BreachedOutput>)
    requires AllSound(os)
    ensures Recognized(os) == os && SignedTotal(os) == Total(os)
  {
    if os != [] {
      SweepIsComplete(os[..|os| - 1]);
      assert os == os[..|os| - 1] + [os[|os| - 1]];
    }
  }

  /** The checks every transaction has to pass before it is signed. */
  ghost predicate Sane(tx: JusticeTx) {
    tx.inputs != [] && 0 <= tx.value <= MAX_SATOSHI && Distinct(tx.inputs)
  }

  /** A sweep is sane exactly if it spends something, nothing twice, and pays out at most the 21 million coins there are. */
  lemma SaneIff(tx: JusticeTx)
    ensures Sane(tx) <==> && |tx.inputs| > 0 && 0 <= tx.value <= 21_000_000 * 100_000_000
                          && |multiset(tx.inputs)| == |set o | o in tx.inputs|
  {
    DistinctIff(tx.inputs);
  }

  /** Nothing occurs twice exactly if there are as many elements as places. */
  lemma {:induction false} DistinctIff<T>(xs: seq<T>)
    ensures Distinct(xs) <==> |multiset(xs)| == |set x | x in xs|
    ensures |set x | x in xs| <= |xs|
  {
    if xs != [] {
      var init, last := xs[..|xs| - 1], xs[|xs| - 1];
      DistinctIff(init);
      assert xs == init + [last];
      assert (set x | x in xs) == (set x | x in init) + {last};
      if last in init {
        assert (set x | x in xs) == (set x | x in init);
        var i :| 0 <= i < |init| && init[i] == last;
        assert xs[i] == xs[|init|];
      } else {
        assert forall i :: 0 <= i < |init| ==> xs[i] == init[i];
        assert Distinct(xs) <==> Distinct(init);
      }
    }
  }

  method CheckDistinct(xs: seq<OutPoint>) returns (ok: bool)
    ensures ok <==> Distinct(xs)
  {
    var seen: set<OutPoint> := {};
    for i := 0 to |xs|
      invariant forall x :: x in seen <==> x in xs[..i]
      invariant Distinct(xs[..i])
    {
      if xs[i] in seen {
        var j :| 0 <= j < i && xs[j] == xs[i];
        return false;
      }
      seen := seen + {xs[i]};
      assert xs[..i + 1] == xs[..i] + [xs[i]];
    }
    assert xs[..|xs|] == xs;
    return true;
  }

  /** Sweeps every output whose witness type is recognized into a single output. */
  method CreateJusticeTx(os: seq<BreachedOutput>, feePerKw: nat, pkScript: Bytes)
    returns (r: Result<JusticeTx, JusticeError>)
    ensures r.Ok? <==> Sane(SweepOf(Recognized(os), feePerKw, pkScript))
    ensures r.Ok? ==> r.value == SweepOf(Recognized(os), feePerKw, pkScript)
  {
    var inputs: seq<BreachedOutput> := [];
    var witnessBytes := 0;
    for i := 0 to |os|
      invariant inputs == Recognized(os[..i])
      invariant witnessBytes == WitnessBytes(inputs)
    {
      assert os[..i + 1][..i] == os[..i];
      var size := WitnessSize(os[i].witnessType);
      if size.Some? {
        witnessBytes := witnessBytes + size.value;
        assert (inputs + [os[i]])[..|inputs|] == inputs;
        inputs := inputs + [os[i]];
      }
    }
    assert os[..|os|] == os;
    r := SweepSpendableOutputs(TxWeight(|inputs|, witnessBytes), inputs, feePerKw, pkScript);
  }

  method SweepSpendableOutputs(weight: nat, inputs: seq<BreachedOutput>, feePerKw: nat, pkScript: Bytes)
    returns (r: Result<JusticeTx, JusticeError>)
    ensures var tx := JusticeTx(OutPoints(inputs), SignedTotal(inputs) - FeeForWeight(feePerKw, weight), pkScript);
            (r.Ok? <==> Sane(tx)) && (r.Ok? ==> r.value == tx)
  {
    var total: int := 0;
    for i := 0 to |inputs|
      invariant total == SignedTotal(inputs[..i])
    {
      assert inputs[..i + 1][..i] == inputs[..i];
      total := total + inputs[i].signDesc.output.value;
    }
    assert inputs[..|inputs|] == inputs;
    var tx := JusticeTx(OutPoints(inputs), total - FeeForWeight(feePerKw, weight), pkScript);
    if |inputs| == 0 {
      return Err(NoInputs);
    }
    if !(0 <= tx.value <= MAX_SATOSHI) {
      return Err(BadValue);
    }
    var distinct := CheckDistinct(tx.inputs);
    if !distinct {
      return Err(DuplicateInput);
    }
    return Ok(tx);
  }

  // ---- The weight of the justice transaction ----

  lemma {:induction false} WitnessBytesBound(os: seq<BreachedOutput>)
    requires AllSound(os)
    ensures WitnessBytes(os) <= 249 * |os|
  {
    if os != [] {
      WitnessBytesBound(os[..|os| - 1]);
    }
  }

  lemma {:induction false} WitnessBytesOfAll(os: seq<BreachedOutput>, more: seq<BreachedOutput>)
    ensures WitnessBytes(os + more) == WitnessBytes(os) + WitnessBytes(more)
    decreases |more|
  {
    if more == [] {
      assert os + more == os;
    } else {
      assert (os + more)[..|os + more| - 1] == os + more[..|more| - 1];
      WitnessBytesOfAll(os, more[..|more| - 1]);
    }
  }

  const MAX_HTLCS: nat := 966
  const STANDARD_WEIGHT: nat := 400_000

  /**
   A channel has at most 966 HTLCs so that the justice transaction for any breach
   of it stays within the standard weight, also after second-level conversions.
   */
  lemma JusticeIsStandard(ours: seq<BreachedOutput>, theirs: seq<BreachedOutput>, htlcs: seq<BreachedOutput>)
    requires |ours| <= 1 && |theirs| <= 1 && |htlcs| <= MAX_HTLCS
    requires AllSound(ours) && AllSound(theirs) && AllSound(htlcs)
    requires forall i :: 0 <= i < |ours| ==> ours[i].witnessType == COMMITMENT_NO_DELAY
    requires forall i :: 0 <= i < |theirs| ==> theirs[i].witnessType == COMMITMENT_REVOKE
    ensures var os := ours + theirs + htlcs; TxWeight(|os|, WitnessBytes(os)) <= STANDARD_WEIGHT
  {
    WitnessBytesOfAll(ours, theirs);
    WitnessBytesOfAll(ours + theirs, htlcs);
    WitnessBytesBound(htlcs);
    OneWitness(ours);
    OneWitness(theirs);
    var os := ours + theirs + htlcs;
    WeightBound(|os|, WitnessBytes(os));
  }

  lemma OneWitness(os: seq<BreachedOutput>)
    requires |os| <= 1
    ensures WitnessBytes(os) == if os == [] || WitnessSize(os[0].witnessType).None? then 0
                                else WitnessSize(os[0].witnessType).value
  {
    if os != [] {
      assert os[..0] == [];
    }
  }

  lemma WeightBound(inputs: nat, witnessBytes: nat)
    requires inputs <= 968 && witnessBytes <= 109 + 156 + 249 * 966
    ensures TxWeight(inputs, witnessBytes) <= STANDARD_WEIGHT
  {
  }

  lemma {:induction false} AcceptedBytes(os: seq<BreachedOutput>)
    requires forall i :: 0 <= i < |os| ==> os[i].witnessType == HTLC_ACCEPTED_REVOKE
    ensures WitnessBytes(os) == 249 * |os|
  {
    if os != [] {
      AcceptedBytes(os[..|os| - 1]);
    }
  }

  /** The limit is exact: with both commitment outputs and one accepted HTLC more it is exceeded. */
  lemma OneMoreIsTooMany(our: BreachedOutput, their: BreachedOutput, htlcs: seq<BreachedOutput>)
    requires our.witnessType == COMMITMENT_NO_DELAY && their.witnessType == COMMITMENT_REVOKE
    requires forall i :: 0 <= i < |htlcs| ==> htlcs[i].witnessType == HTLC_ACCEPTED_REVOKE
    ensures var os := [our] + [their] + htlcs;
            TxWeight(|os|, WitnessBytes(os)) <= STANDARD_WEIGHT <==> |htlcs| <= MAX_HTLCS
  {
    WitnessBytesOfAll([our], [their]);
    WitnessBytesOfAll([our] + [their], htlcs);
    AcceptedBytes(htlcs);
    OneWitness([our]);
    OneWitness([their]);
  }

  // ---- Second-level spends ----

  /** A transaction that spends an HTLC output, with its first output. */
  datatype Spend = Spend(txid: Hash, output: TxOut)

  /**
   Redirects a breached HTLC to the second-level output that spends it: that
   output is signed for with the second-level script and the same key.
   */
  function SecondLevel(o: BreachedOutput, s: Spend): (r: BreachedOutput)
    ensures Sound(r) && !IsHtlc(r) && r.witnessType == 9
    ensures r.outpoint.hash == s.txid && r.outpoint.index == 0
    ensures r.amt == r.signDesc.output.value == s.output.value && r.signDesc.output.pkScript == s.output.pkScript
    ensures r.signDesc.witnessScript == o.secondLevelScript && r.secondLevelScript == o.secondLevelScript
    ensures r.signDesc.keyDesc == o.signDesc.keyDesc && r.signDesc.singleTweak == o.signDesc.singleTweak
            && r.signDesc.doubleTweak == o.signDesc.doubleTweak && r.signDesc.hashType == o.signDesc.hashType
  {
    o.(witnessType := HTLC_SECOND_LEVEL_REVOKE,
       outpoint := OutPoint(s.txid, 0),
       amt := s.output.value,
       signDesc := o.signDesc.(output := s.output, witnessScript := o.secondLevelScript))
  }

  /** How many HTLC outputs are still watched for a second-level spend. */
  function HtlcCount(os: seq<BreachedOutput>): nat {
    if os == [] then 0 else HtlcCount(os[..|os| - 1]) + if IsHtlc(os[|os| - 1]) then 1 else 0
  }

  lemma {:induction false} HtlcCountUpdate(os: seq<BreachedOutput>, i: nat, o: BreachedOutput)
    requires i < |os| && IsHtlc(os[i]) && !IsHtlc(o)
    ensures HtlcCount(os[i := o]) == HtlcCount(os) - 1
    decreases |os|
  {
    var init := os[..|os| - 1];
    if i == |os| - 1 {
      assert os[i := o][..|os| - 1] == init;
    } else {
      HtlcCountUpdate(init, i, o);
      assert os[i := o][..|os| - 1] == init[i := o];
    }
  }

  datatype Detected = Detected(index: nat, spend: Spend)

  /** What one round of watching yields: spends of distinct watched outputs, at least one. */
  ghost predicate Drainable(os: seq<BreachedOutput>, spends: seq<Detected>) {
    && spends != []
    && (forall k :: 0 <= k < |spends| ==> spends[k].index < |os| && IsHtlc(os[spends[k].index]))
    && (forall j, k :: 0 <= j < k < |spends| ==> spends[j].index != spends[k].index)
  }

  function Converted(os: seq<BreachedOutput>, spends: seq<Detected>): seq<BreachedOutput>
    requires forall k :: 0 <= k < |spends| ==> spends[k].index < |os|
    ensures |Converted(os, spends)| == |os|
    decreases |spends|
  {
    if spends == [] then os
    else
      var d := spends[|spends| - 1];
      var init := Converted(os, spends[..|spends| - 1]);
      init[d.index := SecondLevel(init[d.index], d.spend)]
  }

  lemma {:induction false} ConvertedElsewhere(os: seq<BreachedOutput>, spends: seq<Detected>, i: nat)
    requires forall k :: 0 <= k < |spends| ==> spends[k].index < |os|
    requires i < |os| && forall k :: 0 <= k < |spends| ==> spends[k].index != i
    ensures Converted(os, spends)[i] == os[i]
    decreases |spends|
  {
    if spends != [] {
      ConvertedElsewhere(os, spends[..|spends| - 1], i);
    }
  }

  /** Each handled spend takes one output off the watch list, and soundness is kept. */
  lemma {:induction false} ConversionShrinks(os: seq<BreachedOutput>, spends: seq<Detected>)
    requires AllSound(os)
    requires spends == [] || Drainable(os, spends)
    ensures AllSound(Converted(os, spends))
    ensures HtlcCount(Converted(os, spends)) == HtlcCount(os) - |spends|
    decreases |spends|
  {
    if spends != [] {
      var init := spends[..|spends| - 1];
      var d := spends[|spends| - 1];
      ConversionShrinks(os, init);
      ConvertedElsewhere(os, init, d.index);
      HtlcCountUpdate(Converted(os, init), d.index, SecondLevel(os[d.index], d.spend));
    }
  }

  /** Handles the spends found in one round, in place. */
  method DrainSpends(os: array<BreachedOutput>, spends: seq<Detected>)
    requires AllSound(os[..]) && Drainable(os[..], spends)
    modifies os
    ensures os[..] == Converted(old(os[..]), spends)
    ensures AllSound(os[..])
    ensures HtlcCount(os[..]) == HtlcCount(old(os[..])) - |spends|
  {
    ghost var start := os[..];
    ConversionShrinks(start, spends);
    for k := 0 to |spends|
      invariant os[..] == Converted(start, spends[..k])
    {
      assert spends[..k + 1][..k] == spends[..k];
      var i := spends[k].index;
      os[i] := SecondLevel(os[i], spends[k].spend);
    }
    assert spends[..|spends|] == spends;
  }

  // ---- The broadcast loop ----

  /** How publishing ends; a conflict is followed by a round of watching, which yields spends or never ends. */
  datatype Outcome = Published | Refused | Conflict(round: Option<seq<Detected>>)

  /** One attempt, with the fee rate and the sweep script a new transaction would use. */
  datatype Attempt = Attempt(feePerKw: nat, pkScript: Bytes, outcome: Outcome)

  /** The rounds of a run can occur: each one that ends finds spends of outputs still watched. */
  ghost predicate Possible(os: seq<BreachedOutput>, attempts: seq<Attempt>)
    decreases |attempts|
  {
    attempts == [] || (attempts[0].outcome.Conflict? && attempts[0].outcome.round.Some? ==>
      var spends := attempts[0].outcome.round.value;
      Drainable(os, spends) && Possible(Converted(os, spends), attempts[1..]))
  }

  lemma {:induction false} SomeHtlc(os: seq<BreachedOutput>, i: nat)
    requires i < |os| && IsHtlc(os[i])
    ensures HtlcCount(os) > 0
    decreases |os|
  {
    if i < |os| - 1 {
      SomeHtlc(os[..|os| - 1], i);
    }
  }

  lemma {:induction false} FindHtlc(os: seq<BreachedOutput>) returns (i: nat)
    requires HtlcCount(os) > 0
    ensures i < |os| && IsHtlc(os[i])
    decreases |os|
  {
    i := |os| - 1;
    if !IsHtlc(os[i]) {
      i := FindHtlc(os[..|os| - 1]);
    }
  }

  /** A round can find something if and only if an HTLC output is left to watch. */
  lemma DrainableIff(os: seq<BreachedOutput>)
    ensures (exists spends :: Drainable(os, spends)) <==> HtlcCount(os) > 0
  {
    if spends: seq<Detected> :| Drainable(os, spends) {
      SomeHtlc(os, spends[0].index);
    }
    if HtlcCount(os) > 0 {
      var i := FindHtlc(os);
      var spend := Spend(os[i].outpoint.hash, os[i].signDesc.output);
      assert Drainable(os, [Detected(i, spend)]);
    }
  }

  datatype Effect = Finalize(tx: JusticeTx) | Publish(tx: JusticeTx)

  /** The justice transaction on record after `log`. */
  function OnRecord(stored: Option<JusticeTx>, log: seq<Effect>): Option<JusticeTx>
    decreases |log|
  {
    if log == [] then stored
    else if log[|log| - 1].Finalize? then Some(log[|log| - 1].tx)
    else OnRecord(stored, log[..|log| - 1])
  }

  /** Whatever is published is on record at that moment. */
  ghost predicate RecordedFirst(stored: Option<JusticeTx>, log: seq<Effect>) {
    forall k :: 0 <= k < |log| && log[k].Publish? ==> OnRecord(stored, log[..k]) == Some(log[k].tx)
  }

  lemma LogGrows(stored: Option<JusticeTx>, log: seq<Effect>, e: Effect)
    requires RecordedFirst(stored, log)
    requires e.Publish? ==> OnRecord(stored, log) == Some(e.tx)
    ensures RecordedFirst(stored, log + [e])
    ensures OnRecord(stored, log + [e]) == if e.Finalize? then Some(e.tx) else OnRecord(stored, log)
  {
    var r := log + [e];
    assert r[..|log|] == log;
    forall k | 0 <= k < |r| && r[k].Publish?
      ensures OnRecord(stored, r[..k]) == Some(r[k].tx)
    {
      assert k < |log| ==> r[..k] == log[..k];
    }
  }

  /** Builds a transaction that sweeps every output and puts it on record, or fails to build one. */
  method BuildAndRecord(os: seq<BreachedOutput>, attempt: Attempt, ghost stored: Option<JusticeTx>, log: seq<Effect>)
    returns (tx: Option<JusticeTx>, r: seq<Effect>)
    requires AllSound(os) && RecordedFirst(stored, log)
    ensures RecordedFirst(stored, r)
    ensures tx.Some? ==> OnRecord(stored, r) == tx && tx.value.inputs == OutPoints(os)
    ensures tx.None? <==> !Sane(SweepOf(os, attempt.feePerKw, attempt.pkScript))
  {
    SweepIsComplete(os);
    var built := CreateJusticeTx(os, attempt.feePerKw, attempt.pkScript);
    if built.Err? {
      return None, log;
    }
    LogGrows(stored, log, Finalize(built.value));
    return Some(built.value), log + [Finalize(built.value)];
  }

  /**
   Builds, records and publishes the justice transaction, and starts over
   whenever it conflicts with a second-level spend. There are at most as many
   retries as HTLC outputs. `settled` says that the last attempt did not
   conflict; it published the transaction of an earlier start, or one that
   sweeps all outputs as they then are. `waiting` says that the last attempt
   conflicted and nothing was ever seen to spend a watched output.
   */
  method ExactJustice(os: array<BreachedOutput>, stored: Option<JusticeTx>, attempts: seq<Attempt>)
    returns (log: seq<Effect>, rounds: nat, settled: bool, waiting: bool)
    requires AllSound(os[..]) && Possible(os[..], attempts)
    modifies os
    ensures AllSound(os[..])
    ensures RecordedFirst(stored, log)
    ensures rounds <= HtlcCount(old(os[..])) + 1
    ensures rounds + HtlcCount(os[..]) <= HtlcCount(old(os[..])) + if settled || waiting then 1 else 0
    ensures settled ==> log != [] && log[|log| - 1].Publish?
                        && (stored == Some(log[|log| - 1].tx) || log[|log| - 1].tx.inputs == OutPoints(os[..]))
  {
    log, rounds, settled, waiting := [], 0, false, false;
    var finalTx := stored;
    ghost var left := attempts;
    while rounds < |attempts|
      invariant 0 <= rounds <= |attempts| && left == attempts[rounds..]
      invariant AllSound(os[..]) && Possible(os[..], left)
      invariant RecordedFirst(stored, log)
      invariant finalTx.Some? ==> finalTx == stored && OnRecord(stored, log) == finalTx
      invariant rounds + HtlcCount(os[..]) <= HtlcCount(old(os[..]))
      decreases |attempts| - rounds
    {
      var attempt := attempts[rounds];
      if finalTx.None? {
        finalTx, log := BuildAndRecord(os[..], attempt, stored, log);
        if finalTx.None? {
          return;
        }
      }
      LogGrows(stored, log, Publish(finalTx.value));
      log := log + [Publish(finalTx.value)];
      rounds := rounds + 1;
      if !attempt.outcome.Conflict? {
        settled := true;
        return;
      }
      if attempt.outcome.round.None? {
        waiting := true;
        return;
      }
      finalTx := None;
      NextRound(os[..], left);
      left := left[1..];
      DrainSpends(os, attempt.outcome.round.value);
    }
  }

  lemma NextRound(os: seq<BreachedOutput>, attempts: seq<Attempt>)
    requires attempts != [] && Possible(os, attempts)
    requires attempts[0].outcome.Conflict? && attempts[0].outcome.round.Some?
    ensures var spends := attempts[0].outcome.round.value;
            Drainable(os, spends) && Possible(Converted(os, spends), attempts[1..])
  {
  }
}
