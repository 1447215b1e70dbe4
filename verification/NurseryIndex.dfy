/**
 The nursery store's two on-disk indexes as nested maps, what it means that they
 agree with a ledger, and the bucket updates they are changed by.
 */
module NurseryIndex {
  import opened Primitives
  import opened NurseryLedger

  /** A stage prefix followed by an outpoint. */
  datatype Key = Key(stage: Stage, outpoint: OutPoint)

  type ChannelBucket = map<Key, Stored>
  type ChannelIndex = map<OutPoint, ChannelBucket>

  /** `chans` holds the height-channel buckets, `sweep` the finalized kindergarten transaction. */
  datatype HeightBucket = HeightBucket(chans: map<OutPoint, set<Key>>, sweep: Option<Tx>)

  type HeightIndex = map<uint32, HeightBucket>

  datatype Db = Db(chanIndex: ChannelIndex, chanIndexCreated: bool, heightIndex: HeightIndex,
                   lastGraduated: uint32, lastFinalized: uint32)

  const Empty := Db(map[], false, map[], 0, 0)

  // ---- Agreement of the indexes with a ledger ----

  ghost predicate Holds(ci: ChannelIndex, chan: OutPoint, key: Key) {
    chan in ci && key in ci[chan]
  }

  ghost predicate Scheduled(hi: HeightIndex, height: uint32, chan: OutPoint, key: Key) {
    height in hi && chan in hi[height].chans && key in hi[height].chans[chan]
  }

  ghost predicate InStage(entries: Entries, chan: OutPoint, key: Key) {
    var slot := Slot(chan, key.outpoint);
    slot in entries && entries[slot].stage == key.stage
  }

  ghost predicate ChannelsMatch(ci: ChannelIndex, entries: Entries) {
    && (forall chan, key :: Holds(ci, chan, key) <==> InStage(entries, chan, key))
    && (forall chan, key :: Holds(ci, chan, key) ==> ci[chan][key] == entries[Slot(chan, key.outpoint)].out)
    && (forall chan :: chan in ci ==> ci[chan] != map[])
  }

  ghost predicate HeightsMatch(hi: HeightIndex, entries: Entries) {
    forall height, chan, key ::
      Scheduled(hi, height, chan, key)
      <==> InStage(entries, chan, key) && DueAt(entries, Slot(chan, key.outpoint), height)
  }

  /** No empty height bucket and no empty height-channel bucket is kept. */
  ghost predicate Pruned(hi: HeightIndex) {
    && (forall height :: height in hi ==> hi[height].chans != map[])
    && (forall height, chan :: height in hi && chan in hi[height].chans ==> hi[height].chans[chan] != {})
  }

  function SweepAt(hi: HeightIndex, height: uint32): Option<Tx> {
    if height in hi then hi[height].sweep else None
  }

  ghost predicate SweepsMatch(hi: HeightIndex, sweeps: map<uint32, Tx>) {
    forall height ::
      SweepAt(hi, height) == if height in sweeps then Some(sweeps[height]) else None
  }

  /** The two indexes together are exactly the ledger. */
  ghost predicate Represents(db: Db, l: Ledger) {
    && WellFormed(l)
    && ChannelsMatch(db.chanIndex, l.entries)
    && HeightsMatch(db.heightIndex, l.entries)
    && Pruned(db.heightIndex)
    && SweepsMatch(db.heightIndex, l.sweeps)
    && (db.chanIndex != map[] ==> db.chanIndexCreated)
    && db.lastGraduated == l.lastGraduated
    && db.lastFinalized == l.lastFinalized
  }

  ghost predicate Agrees(db: Db) {
    exists l :: Represents(db, l)
  }

  // ---- Bucket primitives ----

  function BucketOf(ci: ChannelIndex, chan: OutPoint): ChannelBucket {
    if chan in ci then ci[chan] else map[]
  }

  function PutOutput(ci: ChannelIndex, chan: OutPoint, key: Key, out: Stored): ChannelIndex {
    ci[chan := BucketOf(ci, chan)[key := out]]
  }

  function DeleteOutput(ci: ChannelIndex, chan: OutPoint, key: Key): ChannelIndex {
    ci[chan := BucketOf(ci, chan) - {key}]
  }

  function Schedule(hi: HeightIndex, height: uint32, chan: OutPoint, key: Key): HeightIndex {
    var bucket := if height in hi then hi[height] else HeightBucket(map[], None);
    var keys := if chan in bucket.chans then bucket.chans[chan] else {};
    hi[height := bucket.(chans := bucket.chans[chan := keys + {key}])]
  }

  /** The height bucket may go: all its height-channel buckets are empty. */
  predicate AllEmpty(bucket: HeightBucket) {
    forall chan :: chan in bucket.chans ==> bucket.chans[chan] == {}
  }

  /** Removes `key`, then the height-channel bucket and the height bucket if that emptied them. */
  function Unschedule(hi: HeightIndex, height: uint32, chan: OutPoint, key: Key): HeightIndex {
    if height !in hi || chan !in hi[height].chans then hi
    else
      var bucket := hi[height];
      var keys := bucket.chans[chan] - {key};
      if keys != {} then hi[height := bucket.(chans := bucket.chans[chan := keys])]
      else
        var left := bucket.(chans := bucket.chans - {chan});
        if AllEmpty(left) then hi - {height} else hi[height := left]
  }

  lemma ScheduleEffect(hi: HeightIndex, height: uint32, chan: OutPoint, key: Key)
    ensures var r := Schedule(hi, height, chan, key);
            && (forall h, c, k :: Scheduled(r, h, c, k)
                                  <==> Scheduled(hi, h, c, k) || (h == height && c == chan && k == key))
            && (Pruned(hi) ==> Pruned(r))
            && (forall h :: SweepAt(r, h) == SweepAt(hi, h))
  {
  }

  lemma UnscheduleEffect(hi: HeightIndex, height: uint32, chan: OutPoint, key: Key)
    requires Pruned(hi)
    ensures var r := Unschedule(hi, height, chan, key);
            && (forall h, c, k :: Scheduled(r, h, c, k)
                                  <==> Scheduled(hi, h, c, k) && !(h == height && c == chan && k == key))
            && Pruned(r)
            && (forall h :: SweepAt(r, h) == if h in r then SweepAt(hi, h) else None)
            && (forall h :: h in r ==> h in hi)
            && (forall h :: h in hi && h != height ==> h in r)
  {
    if height in hi && chan in hi[height].chans {
      var keys := hi[height].chans[chan] - {key};
      var left := hi[height].(chans := hi[height].chans - {chan});
      assert keys == {} ==> forall k :: k in hi[height].chans[chan] ==> k in keys || k == key;
      assert forall c :: c in hi[height].chans && c != chan ==> c in left.chans;
      if AllEmpty(left) {
        assert left.chans == map[];
      } else {
        var c :| c in left.chans && left.chans[c] != {};
        assert left.chans != map[];
      }
    }
  }

  // ---- Facts about agreeing indexes ----

  /** A height bucket exists if and only if some output is due at that height. */
  lemma BucketIffOccupied(hi: HeightIndex, entries: Entries, height: uint32)
    requires HeightsMatch(hi, entries) && Pruned(hi)
    ensures height in hi <==> Occupied(entries, height)
    // (stored keys carry a stage, so the witness is the entry's own key)
  {
    if height in hi {
      var chan :| chan in hi[height].chans;
      var key :| key in hi[height].chans[chan];
      assert Scheduled(hi, height, chan, key);
      assert DueAt(entries, Slot(chan, key.outpoint), height);
    }
    if Occupied(entries, height) {
      var slot :| DueAt(entries, slot, height);
      var key := Key(entries[slot].stage, slot.outpoint);
      assert slot == Slot(slot.chanPoint, key.outpoint);
      assert InStage(entries, slot.chanPoint, key);
      assert Scheduled(hi, height, slot.chanPoint, key);
    }
  }

  /** A ledger is determined by the indexes it agrees with. */
  lemma LedgerIsUnique(db: Db, l: Ledger, m: Ledger)
    requires Represents(db, l) && Represents(db, m)
    ensures l == m
  {
    forall slot
      ensures slot in l.entries <==> slot in m.entries
      ensures slot in l.entries ==> l.entries[slot] == m.entries[slot]
    {
      if slot in l.entries {
        SlotAgrees(db, l, m, slot);
      }
      if slot in m.entries {
        SlotAgrees(db, m, l, slot);
      }
    }
    assert l.entries == m.entries;
    forall height
      ensures height in l.sweeps <==> height in m.sweeps
      ensures height in l.sweeps ==> l.sweeps[height] == m.sweeps[height]
    {
      assert SweepAt(db.heightIndex, height) == SweepAt(db.heightIndex, height);
    }
    assert l.sweeps == m.sweeps;
  }

  lemma SlotAgrees(db: Db, l: Ledger, m: Ledger, slot: Slot)
    requires Represents(db, l) && Represents(db, m)
    requires slot in l.entries
    ensures slot in m.entries && l.entries[slot] == m.entries[slot]
  {
    var e := l.entries[slot];
    var key := Key(e.stage, slot.outpoint);
    assert slot == Slot(slot.chanPoint, key.outpoint);
    assert InStage(l.entries, slot.chanPoint, key);
    assert Holds(db.chanIndex, slot.chanPoint, key);
    assert InStage(m.entries, slot.chanPoint, key);
    if e.due.Some? {
      assert Scheduled(db.heightIndex, e.due.value, slot.chanPoint, key);
    }
    if m.entries[slot].due.Some? {
      assert Scheduled(db.heightIndex, m.entries[slot].due.value, slot.chanPoint, key);
    }
  }
}
