/**
 The store of pending retributions: encoded records and finalized justice
 transactions in two buckets, both keyed by the encoded channel point.
 */
module RetributionStore {
  import opened Primitives
  import opened WireCodec
  import opened RetributionCodec
  import opened Justice
  import opened KeyedBucket

  lemma KeyIsInjective()
    ensures Injective(Key)
  {
    forall p, q | Key(p) == Key(q)
      ensures p == q
    {
      KeysDiffer(p, q);
    }
  }

  function RecordBytes(ret: Retribution): Bytes {
    if |ret.outputs| < 0x1_0000_0000_0000_0000 then Encoded(ret) else []
  }

  /** Bytes after the record are ignored. */
  function ReadRecord(bytes: Bytes): Option<Retribution> {
    match GetRetribution(bytes)
    case Malformed => None
    case Parsed(ret, _) => Some(ret)
  }

  lemma RecordReadsBack(ret: Retribution)
    requires TypedRetribution(ret) && AllFit(FitsOutput, ret.outputs)
    ensures ReadRecord(RecordBytes(ret)) == Some(ret)
  {
    DecodeUndoesEncode(ret, []);
    assert Encoded(ret) + [] == Encoded(ret);
  }

  function Identity(tx: JusticeTx): JusticeTx {
    tx
  }

  function Bucket<V>(b: Option<map<Bytes, V>>): map<Bytes, V> {
    if b.Some? then b.value else map[]
  }

  datatype StoreError = NoBucket | CannotDecode

  /** Every record is within the reader's limits. */
  ghost predicate AllReadable(contents: map<OutPoint, Retribution>) {
    forall p :: p in contents ==> AllFit(FitsOutput, contents[p].outputs)
  }

  ghost predicate WellTyped(contents: map<OutPoint, Retribution>) {
    forall p :: p in contents ==> TypedRetribution(contents[p]) && contents[p].chanPoint == p
  }

  lemma WellTypedWithout(contents: map<OutPoint, Retribution>, p: OutPoint)
    requires WellTyped(contents)
    ensures WellTyped(contents - {p})
  {
  }

  class Store {
    const key: OutPoint -> Bytes
    const encode: Retribution -> Bytes
    const decode: Bytes -> Option<Retribution>
    var records: Option<map<Bytes, Bytes>>
    var justice: Option<map<Bytes, JusticeTx>>
    ghost var contents: map<OutPoint, Retribution>
    ghost var finalized: map<OutPoint, JusticeTx>

    ghost predicate Valid()
      reads this
    {
      && Injective(key)
      && WellTyped(contents)
      && Mirrors(key, encode, Bucket(records), contents)
      && Mirrors(key, Identity, Bucket(justice), finalized)
    }

    /** The codecs are those of outpoints and retribution records. */
    ghost predicate Wired() {
      key == Key && encode == RecordBytes && decode == ReadRecord
    }

    constructor ()
      ensures Valid() && Wired() && contents == map[] && finalized == map[]
    {
      key, encode, decode := Key, RecordBytes, ReadRecord;
      records, justice := None, None;
      contents, finalized := map[], map[];
      KeyIsInjective();
    }

    method Add(ret: Retribution)
      requires Valid() && TypedRetribution(ret)
      modifies this
      ensures Valid() && contents == old(contents)[ret.chanPoint := ret] && finalized == old(finalized)
    {
      PutMirrors(key, encode, Bucket(records), contents, ret.chanPoint, ret);
      records := Some(Bucket(records)[key(ret.chanPoint) := encode(ret)]);
      contents := contents[ret.chanPoint := ret];
    }

    method Finalize(p: OutPoint, tx: JusticeTx)
      requires Valid()
      modifies this
      ensures Valid() && contents == old(contents) && finalized == old(finalized)[p := tx]
    {
      PutMirrors(key, Identity, Bucket(justice), finalized, p, tx);
      justice := Some(Bucket(justice)[key(p) := tx]);
      finalized := finalized[p := tx];
    }

    method GetFinalizedTxn(p: OutPoint) returns (tx: Option<JusticeTx>)
      requires Valid()
      ensures tx == if p in finalized then Some(finalized[p]) else None
    {
      if justice.None? || key(p) !in justice.value {
        return None;
      }
      return Some(justice.value[key(p)]);
    }

    method IsBreached(p: OutPoint) returns (found: bool)
      requires Valid()
      ensures found <==> p in contents
    {
      return records.Some? && key(p) in records.value;
    }

    /** Removes both records of a channel; an error, and no change, if nothing was ever stored. */
    method Remove(p: OutPoint) returns (error: Option<StoreError>)
      requires Valid()
      modifies this
      ensures Valid() && error == if old(records).None? then Some(NoBucket) else None
      ensures error.None? ==> contents == old(contents) - {p} && finalized == old(finalized) - {p}
      ensures error.Some? ==> contents == old(contents) && finalized == old(finalized)
    {
      if records.None? {
        return Some(NoBucket);
      }
      RemoveRecord(p);
      RemoveFinalized(p);
      return None;
    }

    method RemoveRecord(p: OutPoint)
      requires Valid() && records.Some?
      modifies this`records, this`contents
      ensures Valid() && contents == old(contents) - {p}
    {
      DeleteMirrors(key, encode, records.value, contents, p);
      WellTypedWithout(contents, p);
      records := Some(records.value - {key(p)});
      contents := contents - {p};
    }

    method RemoveFinalized(p: OutPoint)
      requires Valid()
      modifies this`justice, this`finalized
      ensures Valid() && finalized == old(finalized) - {p}
    {
      if justice.Some? {
        DeleteMirrors(key, Identity, justice.value, finalized, p);
        justice := Some(justice.value - {key(p)});
        finalized := finalized - {p};
      } else {
        assert p !in finalized;
      }
    }

    /**
     Visits every record once, fails if and only if one cannot be decoded, and
     yields them as they were added if decoding undoes encoding for all.
     */
    method ForAll() returns (r: Result<seq<Retribution>, StoreError>, ghost points: seq<OutPoint>)
      requires Valid()
      ensures r.Err? <==> Undecodable(encode, decode, contents)
      ensures r.Ok? ==> Enumerates(encode, decode, r.value, points, contents)
      ensures Recovered(encode, decode, contents) ==>
                r.Ok? && forall i :: 0 <= i < |r.value| ==> r.value[i] == contents[points[i]]
    {
      var values: Option<seq<Retribution>>;
      values, points := ReadAll(key, encode, decode, Bucket(records), contents);
      if values.None? {
        return Err(CannotDecode), points;
      }
      return Ok(values.value), points;
    }
  }

  /** In a store of retributions decoding undoes encoding when every record is within the reader's limits. */
  lemma ReadableIsRecovered(enc: Retribution -> Bytes, dec: Bytes -> Option<Retribution>, contents: map<OutPoint, Retribution>)
    requires enc == RecordBytes && dec == ReadRecord && WellTyped(contents) && AllReadable(contents)
    ensures Recovered(enc, dec, contents)
  {
    forall p | p in contents
      ensures dec(enc(contents[p])) == Some(contents[p])
    {
      RecordReadsBack(contents[p]);
    }
  }
}
