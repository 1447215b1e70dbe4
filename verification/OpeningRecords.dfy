/**
 The persisted record of how far opening a channel has come: a two-byte state and
 an eight-byte compact channel id, keyed by the channel's funding outpoint.
 */
module OpeningRecords {
  import opened Primitives
  import opened ByteOrder
  import opened WireCodec
  import opened KeyedBucket

  datatype ShortChannelId = ShortChannelId(blockHeight: bv32, txIndex: bv32, txPosition: bv16)

  datatype Opening = MarkedOpen | FundingLockedSent | AddedToRouterGraph

  datatype Record = Record(state: Opening, id: ShortChannelId)

  function ToUint64(c: ShortChannelId): bv64 {
    ((c.blockHeight as bv64) << 40) | ((c.txIndex as bv64) << 16) | (c.txPosition as bv64)
  }

  function FromUint64(x: bv64): ShortChannelId {
    ShortChannelId((x >> 40) as bv32, ((x >> 16) & 0xFF_FFFF) as bv32, (x & 0xFFFF) as bv16)
  }

  /** Three bytes hold the block height and three the transaction index. */
  predicate Fits(c: ShortChannelId) {
    c.blockHeight < 0x100_0000 && c.txIndex < 0x100_0000
  }

  lemma FieldsApart(h: bv64, t: bv64, p: bv64)
    requires h < 0x100_0000 && t < 0x100_0000 && p < 0x1_0000
    ensures ((h << 40) | (t << 16) | p) >> 40 == h
    ensures (((h << 40) | (t << 16) | p) >> 16) & 0xFF_FFFF == t
    ensures ((h << 40) | (t << 16) | p) & 0xFFFF == p
  {
  }

  lemma Widened(x: bv32, y: bv16)
    ensures (x as bv64) as bv32 == x && (y as bv64) as bv16 == y
    ensures (x as bv64) < 0x100_0000 <==> x < 0x100_0000
    ensures (y as bv64) < 0x1_0000
  {
  }

  /** What is read back has at most three bytes in each of the two fields. */
  lemma ReadBackFits(x: bv64)
    ensures Fits(FromUint64(x))
  {
  }

  /** The compact form gives an id back exactly when its two three-byte fields fit. */
  lemma CompactIdIff(c: ShortChannelId)
    ensures FromUint64(ToUint64(c)) == c <==> Fits(c)
  {
    ReadBackFits(ToUint64(c));
    if Fits(c) {
      Widened(c.blockHeight, c.txPosition);
      Widened(c.txIndex, c.txPosition);
      FieldsApart(c.blockHeight as bv64, c.txIndex as bv64, c.txPosition as bv64);
    }
  }

  /** What is written is always a fitting id, so storing it again changes nothing. */
  lemma CompactIdStable(x: bv64)
    ensures Fits(FromUint64(x)) && ToUint64(FromUint64(x)) == x
  {
  }

  function StateCode(o: Opening): nat {
    match o
    case MarkedOpen => 0
    case FundingLockedSent => 1
    case AddedToRouterGraph => 2
  }

  /** The state is the low byte of the two that are stored. */
  function StateOf(code: nat): Option<Opening> {
    match code % 256
    case 0 => Some(MarkedOpen)
    case 1 => Some(FundingLockedSent)
    case 2 => Some(AddedToRouterGraph)
    case _ => None
  }

  function Encode(state: Opening, id: ShortChannelId): Bytes {
    Pow256Values();
    BigEndian(StateCode(state), 2) + BigEndian(ToUint64(id) as nat, 8)
  }

  function DecodeState(r: Bytes): Option<Opening>
    requires |r| == 10
  {
    StateOf(FromBigEndian(r[..2]))
  }

  function DecodeId(r: Bytes): ShortChannelId
    requires |r| == 10
  {
    Pow256Values();
    FromUint64(FromBigEndian(r[2..]) as bv64)
  }

  /** The id a record holds after it has been written. */
  function Stored(id: ShortChannelId): ShortChannelId {
    FromUint64(ToUint64(id))
  }

  lemma NumberBack(x: bv64)
    ensures x as nat < Pow256(8) && FromBigEndian(BigEndian(x as nat, 8)) as bv64 == x
  {
    Pow256Values();
    BigEndianRoundTrip(x as nat, 8);
  }

  lemma StateBack(state: Opening)
    ensures StateCode(state) < Pow256(2) && StateOf(FromBigEndian(BigEndian(StateCode(state), 2))) == Some(state)
  {
    Pow256Values();
    BigEndianRoundTrip(StateCode(state), 2);
  }

  lemma Halves(a: Bytes, b: Bytes)
    requires |a| == 2 && |b| == 8
    ensures |a + b| == 10 && (a + b)[..2] == a && (a + b)[2..] == b
  {
  }

  lemma RecordBack(state: Opening, id: ShortChannelId)
    ensures |Encode(state, id)| == 10
    ensures DecodeState(Encode(state, id)) == Some(state)
    ensures DecodeId(Encode(state, id)) == Stored(id)
  {
    StateBack(state);
    NumberBack(ToUint64(id));
    Halves(BigEndian(StateCode(state), 2), BigEndian(ToUint64(id) as nat, 8));
  }

  /** Of the two bytes of the state the second decides, whatever the first: 0, 1 and 2 are the states, all others unknown. */
  lemma StateByte(r: Bytes)
    requires |r| == 10
    ensures DecodeState(r) == (if r[1] == 0 then Some(MarkedOpen)
                               else if r[1] == 1 then Some(FundingLockedSent)
                               else if r[1] == 2 then Some(AddedToRouterGraph) else None)
    ensures forall state, id :: Encode(state, id)[..2] == [0, StateCode(state) as byte]
  {
    Pow256Values();
    assert r[..2][1..] == [r[1]] && [r[1]][1..] == [];
    assert FromBigEndian([r[1]]) == r[1] as nat;
    assert FromBigEndian(r[..2]) == r[0] as nat * 256 + r[1] as nat;
    forall state, id
      ensures Encode(state, id)[..2] == [0, StateCode(state) as byte]
    {
      assert BigEndian(StateCode(state), 1) == [StateCode(state) as byte] + BigEndian(0, 0);
      assert BigEndian(StateCode(state), 2) == [0, StateCode(state) as byte];
    }
  }

  function RecordBytes(r: Record): Bytes {
    Encode(r.state, r.id)
  }

  /** Whether the record is given the id or its stored form makes no difference to its bytes. */
  lemma SameBytes(state: Opening, id: ShortChannelId)
    ensures RecordBytes(Record(state, Stored(id))) == Encode(state, id)
  {
    CompactIdStable(ToUint64(id));
  }

  datatype StoreError = ChannelNotFound | BucketNotFound

  class OpeningStore {
    const key: OutPoint -> Bytes
    /** Absent until the first record is saved. */
    var bucket: Option<map<Bytes, Bytes>>
    ghost var contents: map<OutPoint, Record>

    ghost predicate Valid()
      reads this
    {
      && Injective(key)
      && Mirrors(key, RecordBytes, if bucket.Some? then bucket.value else map[], contents)
      && (forall p :: p in contents ==> contents[p].id == Stored(contents[p].id))
    }

    constructor ()
      ensures Valid() && key == Key && contents == map[]
    {
      key := Key;
      bucket := None;
      contents := map[];
      forall p, q | Key(p) == Key(q)
        ensures p == q
      {
        KeysDiffer(p, q);
      }
    }

    method Save(p: OutPoint, state: Opening, id: ShortChannelId)
      requires Valid()
      modifies this
      ensures Valid() && bucket.Some? && contents == old(contents)[p := Record(state, Stored(id))]
    {
      var m := if bucket.Some? then bucket.value else map[];
      SameBytes(state, id);
      CompactIdStable(ToUint64(id));
      PutMirrors(key, RecordBytes, m, contents, p, Record(state, Stored(id)));
      bucket := Some(m[key(p) := Encode(state, id)]);
      contents := contents[p := Record(state, Stored(id))];
    }

    method Get(p: OutPoint) returns (r: Result<Record, StoreError>)
      requires Valid()
      ensures r == if p in contents then Ok(contents[p]) else Err(ChannelNotFound)
    {
      if bucket.None? || key(p) !in bucket.value {
        return Err(ChannelNotFound);
      }
      var raw := bucket.value[key(p)];
      RecordBack(contents[p].state, contents[p].id);
      return Ok(Record(DecodeState(raw).value, DecodeId(raw)));
    }

    /** Deleting an absent record succeeds; deleting before any was saved does not. */
    method Delete(p: OutPoint) returns (error: Option<StoreError>)
      requires Valid()
      modifies this
      ensures Valid() && contents == old(contents) - {p}
      ensures error == if old(bucket).None? then Some(BucketNotFound) else None
    {
      if bucket.None? {
        assert p !in contents;
        return Some(BucketNotFound);
      }
      DeleteMirrors(key, RecordBytes, bucket.value, contents, p);
      bucket := Some(bucket.value - {key(p)});
      contents := contents - {p};
      return None;
    }
  }
}
