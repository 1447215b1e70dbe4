/**
 The nursery store itself. Every transaction works on its own copy of the
 indexes and replaces the stored ones when it commits. `ledger` is the plain map
 the two indexes stand for; `Valid` says that they agree with it.
 */
module NurseryStore {
  import opened Primitives
  import opened NurseryLedger
  import opened NurseryIndex
  import opened NurseryTransitions
  import opened NurseryScan

  datatype StoreError = ContractNotFound | ImmatureChannel

  function KidOutputs(kids: seq<Kid>): seq<Stored> {
    seq(|kids|, i requires 0 <= i < |kids| => StoredKid(kids[i]))
  }

  function BabyOutputs(babies: seq<Baby>): seq<Stored> {
    seq(|babies|, i requires 0 <= i < |babies| => StoredBaby(babies[i]))
  }

  // ---- Enumerations ----

  /** `outs` holds the stored value of every slot in `slots`, once each, and nothing else. */
  ghost predicate Lists(outs: seq<Stored>, entries: Entries, slots: set<Slot>) {
    && slots <= entries.Keys
    && (forall i, j :: 0 <= i < j < |outs| ==> outs[i].Slot() != outs[j].Slot())
    && (forall i :: 0 <= i < |outs| ==> outs[i].Slot() in slots && outs[i] == entries[outs[i].Slot()].out)
    && (forall slot :: slot in slots ==> entries[slot].out in outs)
  }

  lemma ListsBoth(outs: seq<Stored>, more: seq<Stored>, entries: Entries, slots: set<Slot>, others: set<Slot>)
    requires Lists(outs, entries, slots) && Lists(more, entries, others) && slots !! others
    ensures Lists(outs + more, entries, slots + others)
  {
  }

  /** A list has as many outputs as there are slots. */
  lemma {:induction false} ListsCount(outs: seq<Stored>, entries: Entries, slots: set<Slot>)
    requires Lists(outs, entries, slots) && forall slot :: slot in slots ==> entries[slot].out.Slot() == slot
    ensures |outs| == |slots|
    decreases |outs|
  {
    if outs == [] {
      assert slots == {};
    } else {
      var init, last := outs[..|outs| - 1], outs[|outs| - 1];
      assert outs == init + [last];
      ListsCount(init, entries, slots - {last.Slot()});
    }
  }

  ghost function InChannels(slots: set<Slot>, chans: set<OutPoint>): set<Slot> {
    set slot | slot in slots && slot.chanPoint in chans
  }

  ghost function KeySlots(chan: OutPoint, keys: set<Key>): set<Slot> {
    set key | key in keys :: Slot(chan, key.outpoint)
  }

  /** Keys of one stage name distinct slots, so visiting one more key adds one slot. */
  lemma KeySlotsStep(chan: OutPoint, keys: set<Key>, todo: set<Key>, key: Key)
    requires key in todo && todo <= keys
    requires forall k :: k in keys ==> k.stage == key.stage
    ensures Slot(chan, key.outpoint) in KeySlots(chan, keys)
    ensures Slot(chan, key.outpoint) !in KeySlots(chan, keys - todo)
    ensures KeySlots(chan, keys - (todo - {key})) == KeySlots(chan, keys - todo) + {Slot(chan, key.outpoint)}
  {
    assert keys - (todo - {key}) == keys - todo + {key};
  }

  /** A prefix scan of one channel visits the class members of that channel. */
  lemma ScanStart(slots: set<Slot>, stage: Stage, chans: set<OutPoint>, chan: OutPoint, keys: set<Key>)
    requires chan in chans
    requires forall key :: key in keys <==> key.stage == stage && Slot(chan, key.outpoint) in slots
    ensures slots - InChannels(slots, chans - {chan}) == slots - InChannels(slots, chans) + KeySlots(chan, keys)
    ensures slots - InChannels(slots, chans) !! KeySlots(chan, keys)
  {
    forall slot | slot in InChannels(slots, chans) && slot.chanPoint == chan
      ensures slot in KeySlots(chan, keys)
    {
      assert slot == Slot(chan, slot.outpoint);
      assert Key(stage, slot.outpoint) in keys;
    }
  }

  lemma ScheduledInClass(db: Db, l: Ledger, height: uint32, chan: OutPoint, key: Key)
    requires Represents(db, l)
    ensures Scheduled(db.heightIndex, height, chan, key)
            <==> Slot(chan, key.outpoint) in Class(l.entries, key.stage, Some(height))
  {
    assert Scheduled(db.heightIndex, height, chan, key)
           <==> InStage(l.entries, chan, key) && DueAt(l.entries, Slot(chan, key.outpoint), height);
  }

  /** Only channels with a bucket at the height have outputs due there. */
  lemma ClassChannels(db: Db, l: Ledger, stage: Stage, height: uint32)
    requires Represents(db, l)
    ensures height in db.heightIndex
            ==> InChannels(Class(l.entries, stage, Some(height)), db.heightIndex[height].chans.Keys)
                == Class(l.entries, stage, Some(height))
    ensures height !in db.heightIndex ==> Class(l.entries, stage, Some(height)) == {}
  {
    forall slot | slot in Class(l.entries, stage, Some(height))
      ensures height in db.heightIndex && slot.chanPoint in db.heightIndex[height].chans
    {
      assert slot == Slot(slot.chanPoint, slot.outpoint);
      ScheduledInClass(db, l, height, slot.chanPoint, Key(stage, slot.outpoint));
    }
  }

  // ---- Graduating one output at a time ----

  ghost function GraduateSome(l: Ledger, done: set<Slot>): Ledger {
    l.(entries := Graduated(l.entries, done))
  }

  lemma GraduateOneInLedger(l: Ledger, height: uint32, done: set<Slot>, slot: Slot)
    requires height !in l.sweeps
    requires WellFormed(GraduateSome(l, done))
    requires slot in Class(l.entries, Kinder, Some(height)) && slot !in done
    ensures Restage(GraduateSome(l, done), slot, Kinder, Entry(Grad, l.entries[slot].out, None))
            == GraduateSome(l, done + {slot})
  {
    var m := GraduateSome(l, done);
    assert m.entries[slot := Entry(Grad, l.entries[slot].out, None)] == Graduated(l.entries, done + {slot});
    forall h | h in l.sweeps
      ensures Occupied(Rest(m.entries, slot, Kinder), h)
    {
      var other :| DueAt(m.entries, other, h);
      assert DueAt(Rest(m.entries, slot, Kinder), other, h);
    }
    assert OccupiedSweeps(l.sweeps, Rest(m.entries, slot, Kinder)) == l.sweeps;
  }

  lemma GraduateOne(db: Db, l: Ledger, height: uint32, done: set<Slot>, slot: Slot)
    requires height !in l.sweeps
    requires Represents(db, GraduateSome(l, done))
    requires slot in Class(l.entries, Kinder, Some(height)) && slot !in done
    ensures Represents(MoveTx(db, slot, Kinder, Some(height), Entry(Grad, l.entries[slot].out, None)),
                       GraduateSome(l, done + {slot}))
  {
    var m := GraduateSome(l, done);
    assert WellFormedEntry(slot, m.entries[slot]);
    GraduateOneInLedger(l, height, done, slot);
    MoveImplementsRestage(db, m, slot, Kinder, Some(height), Entry(Grad, l.entries[slot].out, None));
  }

  /** Writing or deleting the finalized transaction of a height touches nothing else. */
  lemma SweepRecorded(db: Db, l: Ledger, height: uint32, sweep: Option<Tx>)
    requires Represents(db, l) && height in db.heightIndex
    ensures Represents(db.(heightIndex := db.heightIndex[height := db.heightIndex[height].(sweep := sweep)]),
                       l.(sweeps := if sweep.Some? then l.sweeps[height := sweep.value] else l.sweeps - {height}))
  {
    SweepKeepsSchedule(db.heightIndex, l.entries, height, sweep);
    SweepMatches(db.heightIndex, l.sweeps, height, sweep);
    BucketIffOccupied(db.heightIndex, l.entries, height);
  }

  lemma SweepKeepsSchedule(hi: HeightIndex, entries: Entries, height: uint32, sweep: Option<Tx>)
    requires HeightsMatch(hi, entries) && Pruned(hi) && height in hi
    ensures HeightsMatch(hi[height := hi[height].(sweep := sweep)], entries)
    ensures Pruned(hi[height := hi[height].(sweep := sweep)])
  {
    var r := hi[height := hi[height].(sweep := sweep)];
    assert forall h, chan, key :: Scheduled(r, h, chan, key) <==> Scheduled(hi, h, chan, key);
  }

  lemma SweepMatches(hi: HeightIndex, sweeps: map<uint32, Tx>, height: uint32, sweep: Option<Tx>)
    requires SweepsMatch(hi, sweeps) && height in hi
    ensures SweepsMatch(hi[height := hi[height].(sweep := sweep)],
                        if sweep.Some? then sweeps[height := sweep.value] else sweeps - {height})
  {
    var r := hi[height := hi[height].(sweep := sweep)];
    forall h
      ensures h != height ==> SweepAt(r, h) == SweepAt(hi, h)
    {
    }
  }

  lemma NothingToGraduate(db: Db, l: Ledger, height: uint32)
    requires Represents(db, l) && height !in db.heightIndex
    ensures GraduateKinder(l, height) == l
  {
    assert SweepAt(db.heightIndex, height) == None;
    assert l.sweeps - {height} == l.sweeps;
    ClassChannels(db, l, Kinder, height);
    assert Graduated(l.entries, {}) == l.entries;
  }

  // ---- Removing a channel ----

  /** A channel all of whose outputs have graduated is in no height bucket. */
  lemma MatureIsUnscheduled(db: Db, l: Ledger, chan: OutPoint, height: uint32)
    requires Represents(db, l) && Mature(l.entries, chan)
    requires height in db.heightIndex
    ensures chan !in db.heightIndex[height].chans
  {
    if chan in db.heightIndex[height].chans {
      var key :| key in db.heightIndex[height].chans[chan];
      assert Scheduled(db.heightIndex, height, chan, key);
      assert false;
    }
  }

  lemma RemovedChannelsMatch(ci: ChannelIndex, l: Ledger, chan: OutPoint)
    requires ChannelsMatch(ci, l.entries)
    ensures ChannelsMatch(ci - {chan}, WithoutChannel(l, chan).entries)
  {
    var m := WithoutChannel(l, chan);
    forall c, key
      ensures Holds(ci - {chan}, c, key) <==> InStage(m.entries, c, key)
    {
      assert Holds(ci, c, key) <==> InStage(l.entries, c, key);
    }
  }

  lemma RemovedHeightsMatch(hi: HeightIndex, l: Ledger, chan: OutPoint)
    requires WellFormed(l) && HeightsMatch(hi, l.entries) && Mature(l.entries, chan)
    ensures HeightsMatch(hi, WithoutChannel(l, chan).entries)
  {
    var m := WithoutChannel(l, chan);
    forall h, c, key
      ensures Scheduled(hi, h, c, key)
              <==> InStage(m.entries, c, key) && DueAt(m.entries, Slot(c, key.outpoint), h)
    {
      assert Scheduled(hi, h, c, key)
             <==> InStage(l.entries, c, key) && DueAt(l.entries, Slot(c, key.outpoint), h);
    }
  }

  lemma RemovalWellFormed(l: Ledger, chan: OutPoint)
    requires WellFormed(l) && Mature(l.entries, chan)
    ensures WellFormed(WithoutChannel(l, chan))
  {
    var m := WithoutChannel(l, chan);
    forall h | h in m.sweeps
      ensures Occupied(m.entries, h)
    {
      var slot :| DueAt(l.entries, slot, h);
      assert DueAt(m.entries, slot, h);
    }
  }

  lemma RemovalRepresents(db: Db, l: Ledger, chan: OutPoint)
    requires Represents(db, l) && Mature(l.entries, chan)
    ensures Represents(db.(chanIndex := db.chanIndex - {chan}), WithoutChannel(l, chan))
  {
    RemovedChannelsMatch(db.chanIndex, l, chan);
    RemovedHeightsMatch(db.heightIndex, l, chan);
    RemovalWellFormed(l, chan);
  }

  lemma TrackedIffBucket(db: Db, l: Ledger, chan: OutPoint)
    requires Represents(db, l)
    ensures chan in db.chanIndex <==> Tracked(l.entries, chan)
  {
    if chan in db.chanIndex {
      var key :| key in db.chanIndex[chan];
      assert Holds(db.chanIndex, chan, key);
      assert Slot(chan, key.outpoint) in l.entries;
    }
    if Tracked(l.entries, chan) {
      var slot :| slot in l.entries && slot.chanPoint == chan;
      assert slot == Slot(chan, slot.outpoint);
      assert InStage(l.entries, chan, Key(l.entries[slot].stage, slot.outpoint));
      assert Holds(db.chanIndex, chan, Key(l.entries[slot].stage, slot.outpoint));
    }
  }

  lemma BucketEntry(db: Db, l: Ledger, chan: OutPoint, key: Key)
    requires Represents(db, l) && Holds(db.chanIndex, chan, key)
    ensures var slot := Slot(chan, key.outpoint);
            && slot in l.entries && l.entries[slot].stage == key.stage
            && db.chanIndex[chan][key] == l.entries[slot].out
            && WellFormedEntry(slot, l.entries[slot])
  {
    assert InStage(l.entries, chan, key);
  }

  /** Every key is in the bucket and names the ledger entry stored under it. */
  ghost predicate Loadable(bucket: ChannelBucket, chan: OutPoint, keys: set<Key>, entries: Entries) {
    forall key :: key in keys ==>
      && key in bucket
      && Slot(chan, key.outpoint) in entries
      && var e := entries[Slot(chan, key.outpoint)];
         e.stage == key.stage && e.out == bucket[key] && e.out.Slot() == Slot(chan, key.outpoint)
  }

  /** The channel index has a bucket for every channel that has one at some height. */
  lemma HeightChannelIsIndexed(db: Db, l: Ledger, height: uint32, chan: OutPoint)
    requires Represents(db, l)
    requires height in db.heightIndex && chan in db.heightIndex[height].chans
    ensures chan in db.chanIndex
  {
    var key :| key in db.heightIndex[height].chans[chan];
    assert Scheduled(db.heightIndex, height, chan, key);
    assert Holds(db.chanIndex, chan, key);
  }

  lemma KeysAreLoadable(db: Db, l: Ledger, chan: OutPoint, keys: set<Key>)
    requires Represents(db, l) && chan in db.chanIndex
    requires forall key :: key in keys ==> InStage(l.entries, chan, key)
    ensures Loadable(db.chanIndex[chan], chan, keys, l.entries)
  {
    forall key | key in keys
      ensures key in db.chanIndex[chan]
      ensures db.chanIndex[chan][key] == l.entries[Slot(chan, key.outpoint)].out
    {
      assert Holds(db.chanIndex, chan, key);
    }
  }

  /** Reads the stored outputs named by `keys` from a channel bucket. */
  method LoadOutputs(bucket: ChannelBucket, chan: OutPoint, keys: set<Key>, ghost entries: Entries)
    returns (outs: seq<Stored>)
    requires Loadable(bucket, chan, keys, entries)
    requires forall k, k' :: k in keys && k' in keys ==> k.stage == k'.stage
    ensures Lists(outs, entries, KeySlots(chan, keys))
  {
    outs := [];
    var todo := keys;
    while todo != {}
      invariant todo <= keys
      invariant Lists(outs, entries, KeySlots(chan, keys - todo))
      decreases |todo|
    {
      var key :| key in todo;
      var slot := Slot(chan, key.outpoint);
      KeySlotsStep(chan, keys, todo, key);
      assert Lists([bucket[key]], entries, {slot});
      ListsBoth(outs, [bucket[key]], entries, KeySlots(chan, keys - todo), {slot});
      outs := outs + [bucket[key]];
      todo := todo - {key};
    }
    assert keys - {} == keys;
  }

  method EnterEach(db: Db, outs: seq<Stored>) returns (r: Db)
    ensures r == EnterTx(db, outs)
  {
    r := db;
    for i := 0 to |outs|
      invariant r == EnterTx(db, outs[..i])
    {
      assert outs[..i + 1][..i] == outs[..i];
      r := EnrollTx(r, outs[i]);
    }
    assert outs[..|outs|] == outs;
  }

  // ---- Helpers shared by the transactions ----

  /** Removes the height bucket if and only if every height-channel bucket in it is empty. */
  method PruneHeight(hi: HeightIndex, height: uint32) returns (r: HeightIndex, pruned: bool)
    ensures pruned <==> height in hi && AllEmpty(hi[height])
    ensures r == if pruned then hi - {height} else hi
  {
    if height !in hi {
      return hi, false;
    }
    var bucket := hi[height];
    var chans := bucket.chans.Keys;
    while chans != {}
      invariant chans <= bucket.chans.Keys
      invariant forall chan :: chan in bucket.chans && chan !in chans ==> bucket.chans[chan] == {}
      decreases |chans|
    {
      var chan :| chan in chans;
      if bucket.chans[chan] != {} {
        return hi, false;
      }
      chans := chans - {chan};
    }
    return hi - {height}, true;
  }

  method RemoveOutputFromHeight(hi: HeightIndex, height: uint32, chan: OutPoint, key: Key)
    returns (r: HeightIndex)
    ensures r == Unschedule(hi, height, chan, key)
  {
    r := hi;
    if height !in hi || chan !in hi[height].chans {
      return;
    }
    var bucket := hi[height];
    bucket := bucket.(chans := bucket.chans[chan := bucket.chans[chan] - {key}]);
    r := r[height := bucket];
    if bucket.chans[chan] != {} {
      return;
    }
    bucket := bucket.(chans := bucket.chans - {chan});
    r := r[height := bucket];
    assert bucket.chans == hi[height].chans - {chan};
    var pruned;
    r, pruned := PruneHeight(r, height);
    assert r == Unschedule(hi, height, chan, key);
  }

  /** Moves the named kindergarten outputs of one channel to graduated, in any order. */
  method GraduateChannel(db: Db, ghost l: Ledger, height: uint32, chan: OutPoint, keys: set<Key>, ghost done: set<Slot>)
    returns (r: Db)
    requires height !in l.sweeps
    requires Represents(db, GraduateSome(l, done))
    requires forall key :: key in keys ==> key.stage == Kinder
    requires KeySlots(chan, keys) <= Class(l.entries, Kinder, Some(height)) - done
    ensures Represents(r, GraduateSome(l, done + KeySlots(chan, keys)))
  {
    r := db;
    var todo := keys;
    ghost var graduated := done;
    while todo != {}
      invariant todo <= keys
      invariant graduated == done + KeySlots(chan, keys - todo)
      invariant Represents(r, GraduateSome(l, graduated))
      decreases |todo|
    {
      var key :| key in todo;
      ghost var slot := Slot(chan, key.outpoint);
      KeySlotsStep(chan, keys, todo, key);
      KeyIsStored(r, l, height, graduated, chan, key);
      var kid := r.chanIndex[chan][key].kid;
      GraduateOne(r, l, height, graduated, slot);
      r := GraduateKid(r, height, kid);
      graduated := graduated + {slot};
      todo := todo - {key};
    }
    assert keys - {} == keys;
  }

  lemma KeyIsStored(db: Db, l: Ledger, height: uint32, done: set<Slot>, chan: OutPoint, key: Key)
    requires Represents(db, GraduateSome(l, done)) && key.stage == Kinder
    requires Slot(chan, key.outpoint) in Class(l.entries, Kinder, Some(height)) - done
    ensures Holds(db.chanIndex, chan, key)
    ensures db.chanIndex[chan][key] == l.entries[Slot(chan, key.outpoint)].out
    ensures db.chanIndex[chan][key].StoredKid? && SlotOf(db.chanIndex[chan][key].kid) == Slot(chan, key.outpoint)
  {
    var m := GraduateSome(l, done);
    assert m.entries[Slot(chan, key.outpoint)] == l.entries[Slot(chan, key.outpoint)];
    assert InStage(m.entries, chan, key);
    assert WellFormedEntry(Slot(chan, key.outpoint), m.entries[Slot(chan, key.outpoint)]);
  }

  /** Moves one kindergarten output to graduated. */
  method GraduateKid(db: Db, height: uint32, kid: Kid) returns (r: Db)
    requires kid.chanPoint in db.chanIndex
    ensures r == MoveTx(db, SlotOf(kid), Kinder, Some(height), Entry(Grad, StoredKid(kid), None)).(chanIndexCreated := db.chanIndexCreated)
  {
    var key := Key(Kinder, kid.outpoint);
    var hi := RemoveOutputFromHeight(db.heightIndex, height, kid.chanPoint, key);
    var ci := DeleteOutput(db.chanIndex, kid.chanPoint, key);
    key := key.(stage := Grad);
    ci := PutOutput(ci, kid.chanPoint, key, StoredKid(kid));
    r := db.(heightIndex := hi, chanIndex := ci);
  }

  /** Graduating other channels' outputs leaves a channel's bucket at the height as it was. */
  lemma UnvisitedChannel(start: Db, db: Db, l: Ledger, height: uint32, done: set<Slot>, chan: OutPoint)
    requires Represents(start, l) && Represents(db, GraduateSome(l, done))
    requires height in start.heightIndex && chan in start.heightIndex[height].chans
    requires forall slot :: slot in done ==> slot.chanPoint != chan
    ensures height in db.heightIndex && chan in db.heightIndex[height].chans
    ensures forall key :: key in db.heightIndex[height].chans[chan]
                          <==> Slot(chan, key.outpoint) in Class(l.entries, key.stage, Some(height))
  {
    forall key
      ensures Scheduled(db.heightIndex, height, chan, key)
              <==> Slot(chan, key.outpoint) in Class(l.entries, key.stage, Some(height))
    {
      ScheduledInClass(db, GraduateSome(l, done), height, chan, key);
    }
    var key :| key in start.heightIndex[height].chans[chan];
    ScheduledInClass(start, l, height, chan, key);
    assert Scheduled(start.heightIndex, height, chan, key);
    assert Scheduled(db.heightIndex, height, chan, key);
    forall key
      ensures key in db.heightIndex[height].chans[chan] <==> Scheduled(db.heightIndex, height, chan, key)
    {
    }
  }

  /** Visits the channels at a height one after another and graduates their kindergarten outputs. */
  method GraduateClass(db: Db, ghost l: Ledger, height: uint32) returns (tx: Db)
    requires Represents(db, l) && height in db.heightIndex && height !in l.sweeps
    ensures Represents(tx, GraduateSome(l, Class(l.entries, Kinder, Some(height))))
  {
    tx := db;
    ghost var cls := Class(l.entries, Kinder, Some(height));
    ClassChannels(db, l, Kinder, height);
    assert Graduated(l.entries, {}) == l.entries;
    var chans := db.heightIndex[height].chans.Keys;
    assert cls - InChannels(cls, chans) == {};
    while chans != {}
      invariant chans <= db.heightIndex[height].chans.Keys
      invariant Represents(tx, GraduateSome(l, cls - InChannels(cls, chans)))
      decreases |chans|
    {
      var chan :| chan in chans;
      UnvisitedChannel(db, tx, l, height, cls - InChannels(cls, chans), chan);
      var keys := set key | key in tx.heightIndex[height].chans[chan] && key.stage == Kinder;
      ScanStart(cls, Kinder, chans, chan, keys);
      tx := GraduateChannel(tx, l, height, chan, keys, cls - InChannels(cls, chans));
      chans := chans - {chan};
    }
    assert cls - InChannels(cls, {}) == cls;
  }

  function RemoveHeightChannel(hi: HeightIndex, height: uint32, chan: OutPoint): (r: HeightIndex)
    requires height in hi
    ensures chan !in hi[height].chans ==> r == hi
  {
    if chan in hi[height].chans then hi[height := hi[height].(chans := hi[height].chans - {chan})] else hi
  }

  lemma MatureIffAllGrad(db: Db, l: Ledger, chan: OutPoint)
    requires Represents(db, l) && chan in db.chanIndex
    ensures Mature(l.entries, chan) <==> forall key :: key in db.chanIndex[chan] ==> key.stage == Grad
  {
    if forall key :: key in db.chanIndex[chan] ==> key.stage == Grad {
      forall slot | slot in l.entries && slot.chanPoint == chan
        ensures l.entries[slot].stage == Grad
      {
        assert slot == Slot(chan, slot.outpoint);
        assert InStage(l.entries, chan, Key(l.entries[slot].stage, slot.outpoint));
        assert Holds(db.chanIndex, chan, Key(l.entries[slot].stage, slot.outpoint));
      }
    }
    if Mature(l.entries, chan) {
      forall key | key in db.chanIndex[chan]
        ensures key.stage == Grad
      {
        assert Holds(db.chanIndex, chan, key);
      }
    }
  }

  /** What is listed for a stage has the type stored in that stage. */
  lemma ListedKinds(l: Ledger, outs: seq<Stored>, stage: Stage, due: Option<uint32>)
    requires WellFormed(l) && Lists(outs, l.entries, Class(l.entries, stage, due))
    ensures forall i :: 0 <= i < |outs| ==> (outs[i].StoredBaby? <==> stage == Crib)
  {
    forall i | 0 <= i < |outs|
      ensures outs[i].StoredBaby? <==> stage == Crib
    {
      assert WellFormedEntry(outs[i].Slot(), l.entries[outs[i].Slot()]);
    }
  }

  method DecodeKids(outs: seq<Stored>) returns (kids: seq<Kid>)
    requires forall i :: 0 <= i < |outs| ==> outs[i].StoredKid?
    ensures KidOutputs(kids) == outs
  {
    kids := [];
    for i := 0 to |outs|
      invariant KidOutputs(kids) == outs[..i]
    {
      kids := kids + [outs[i].kid];
    }
  }

  lemma PreschoolChannels(db: Db, l: Ledger)
    requires Represents(db, l)
    ensures InChannels(Class(l.entries, Preschool, None), db.chanIndex.Keys) == Class(l.entries, Preschool, None)
  {
    forall slot | slot in Class(l.entries, Preschool, None)
      ensures slot.chanPoint in db.chanIndex
    {
      assert slot == Slot(slot.chanPoint, slot.outpoint);
      assert InStage(l.entries, slot.chanPoint, Key(Preschool, slot.outpoint));
      assert Holds(db.chanIndex, slot.chanPoint, Key(Preschool, slot.outpoint));
    }
  }

  lemma PreschoolKeys(db: Db, l: Ledger, chan: OutPoint, keys: set<Key>)
    requires Represents(db, l) && chan in db.chanIndex
    requires forall key :: key in keys <==> key in db.chanIndex[chan] && key.stage == Preschool
    ensures Loadable(db.chanIndex[chan], chan, keys, l.entries)
    ensures forall key :: key in keys <==> key.stage == Preschool && Slot(chan, key.outpoint) in Class(l.entries, Preschool, None)
  {
    forall key
      ensures key in keys <==> key.stage == Preschool && Slot(chan, key.outpoint) in Class(l.entries, Preschool, None)
    {
      assert Holds(db.chanIndex, chan, key) <==> InStage(l.entries, chan, key);
    }
    KeysAreLoadable(db, l, chan, keys);
  }

  class NurseryStore {
    var db: Db
    ghost var ledger: Ledger

    ghost predicate Valid()
      reads this
    {
      Represents(db, ledger)
    }

    constructor ()
      ensures Valid()
      ensures ledger == Fresh && db == Empty
    {
      db := Empty;
      ledger := Fresh;
    }

    /**
     Outputs already stored in the stage they would enter are ignored. An outpoint
     stored in another stage leaves indexes that no ledger fits.
     */
    method Incubate(kids: seq<Kid>, babies: seq<Baby>)
      requires Valid()
      modifies this
      ensures db == EnterTx(EnterTx(old(db), KidOutputs(kids)), BabyOutputs(babies))
      ensures Agrees(db) <==> IncubateCallFits(old(ledger), KidOutputs(kids), BabyOutputs(babies))
      ensures Agrees(db) ==>
                Valid() && ledger == EnrollAll(EnrollAll(old(ledger), KidOutputs(kids)), BabyOutputs(babies))
    {
      var tx := EnterEach(db, KidOutputs(kids));
      tx := EnterEach(tx, BabyOutputs(babies));
      IncubateRefines(db, ledger, KidOutputs(kids), BabyOutputs(babies));
      db := tx;
      ledger := EnrollAll(EnrollAll(ledger, KidOutputs(kids)), BabyOutputs(babies));
    }

    method CribToKinder(baby: Baby)
      requires Valid()
      modifies this
      ensures db == CribToKinderTx(old(db), baby)
      ensures Agrees(db) <==> CribCallFits(old(ledger), baby)
      ensures Agrees(db) ==> Valid() && ledger == NurseryLedger.CribToKinder(old(ledger), baby)
    {
      var chan, outpoint := baby.kid.chanPoint, baby.kid.outpoint;
      var key := Key(Crib, outpoint);
      var tx := db.(chanIndexCreated := true);
      tx := tx.(chanIndex := DeleteOutput(tx.chanIndex, chan, key));
      var hi := RemoveOutputFromHeight(tx.heightIndex, baby.expiry, chan, key);
      key := key.(stage := Kinder);
      tx := tx.(chanIndex := PutOutput(tx.chanIndex, chan, key, StoredKid(baby.kid)));
      var maturity := Add32(baby.kid.confHeight, baby.kid.blocksToMaturity);
      tx := tx.(heightIndex := Schedule(hi, maturity, chan, key));
      CribToKinderRefines(db, ledger, baby);
      db := tx;
      ledger := NurseryLedger.CribToKinder(ledger, baby);
    }

    method PreschoolToKinder(kid: Kid)
      requires Valid()
      modifies this
      ensures db == PreschoolToKinderTx(old(db), kid)
      ensures Agrees(db) <==> PreschoolCallFits(old(ledger), kid)
      ensures Agrees(db) ==> Valid() && ledger == NurseryLedger.PreschoolToKinder(old(ledger), kid)
    {
      var key := Key(Preschool, kid.outpoint);
      var tx := db.(chanIndexCreated := true);
      tx := tx.(chanIndex := DeleteOutput(tx.chanIndex, kid.chanPoint, key));
      key := key.(stage := Kinder);
      tx := tx.(chanIndex := PutOutput(tx.chanIndex, kid.chanPoint, key, StoredKid(kid)));
      var maturity;
      if kid.blocksToMaturity == 0 {
        maturity := kid.absoluteMaturity;
      } else {
        maturity := Add32(kid.confHeight, kid.blocksToMaturity);
      }
      if maturity <= tx.lastGraduated {
        maturity := Add32(tx.lastGraduated, 1);
      }
      tx := tx.(heightIndex := Schedule(tx.heightIndex, maturity, kid.chanPoint, key));
      PreschoolToKinderRefines(db, ledger, kid);
      db := tx;
      ledger := NurseryLedger.PreschoolToKinder(ledger, kid);
    }

    method FinalizeKinder(height: uint32, sweep: Option<Tx>)
      requires Valid()
      modifies this
      ensures Valid()
      ensures ledger == NurseryLedger.FinalizeKinder(old(ledger), height, sweep)
    {
      BucketIffOccupied(db.heightIndex, ledger.entries, height);
      var tx := db.(lastFinalized := height);
      if sweep.Some? && height in tx.heightIndex {
        SweepRecorded(db, ledger, height, sweep);
        tx := tx.(heightIndex := tx.heightIndex[height := tx.heightIndex[height].(sweep := sweep)]);
      }
      db := tx;
      ledger := NurseryLedger.FinalizeKinder(ledger, height, sweep);
    }

    method GraduateHeight(height: uint32)
      requires Valid()
      modifies this
      ensures Valid()
      ensures ledger == NurseryLedger.GraduateHeight(old(ledger), height)
    {
      db := db.(lastGraduated := height);
      ledger := NurseryLedger.GraduateHeight(ledger, height);
    }

    /** The outputs with the given prefix at a height. Every lookup in the channel index succeeds. */
    method ForEachHeightPrefix(stage: Stage, height: uint32) returns (outs: seq<Stored>)
      requires Valid()
      ensures Lists(outs, ledger.entries, Class(ledger.entries, stage, Some(height)))
    {
      outs := [];
      ghost var cls := Class(ledger.entries, stage, Some(height));
      ClassChannels(db, ledger, stage, height);
      if height !in db.heightIndex {
        return;
      }
      var bucket := db.heightIndex[height];
      var chans := bucket.chans.Keys;
      while chans != {}
        invariant chans <= bucket.chans.Keys
        invariant Lists(outs, ledger.entries, cls - InChannels(cls, chans))
        decreases |chans|
      {
        var chan :| chan in chans;
        var keys := set key | key in bucket.chans[chan] && key.stage == stage;
        forall key
          ensures key in keys <==> key.stage == stage && Slot(chan, key.outpoint) in cls
        {
          ScheduledInClass(db, ledger, height, chan, key);
        }
        assert forall key :: key in keys ==> InStage(ledger.entries, chan, key);
        ScanStart(cls, stage, chans, chan, keys);
        HeightChannelIsIndexed(db, ledger, height, chan);
        KeysAreLoadable(db, ledger, chan, keys);
        var more := LoadOutputs(db.chanIndex[chan], chan, keys, ledger.entries);
        ListsBoth(outs, more, ledger.entries, cls - InChannels(cls, chans), KeySlots(chan, keys));
        outs := outs + more;
        chans := chans - {chan};
      }
      assert cls - InChannels(cls, {}) == cls;
    }

    method GraduateKinder(height: uint32)
      requires Valid()
      modifies this
      ensures Valid()
      ensures ledger == NurseryLedger.GraduateKinder(old(ledger), height)
    {
      if height !in db.heightIndex {
        NothingToGraduate(db, ledger, height);
        return;
      }
      var tx := db.(heightIndex := db.heightIndex[height := db.heightIndex[height].(sweep := None)]);
      SweepRecorded(db, ledger, height, None);
      db := GraduateClass(tx, ledger.(sweeps := ledger.sweeps - {height}), height);
      ledger := NurseryLedger.GraduateKinder(ledger, height);
    }

    /** The kindergarten and crib outputs due at a height, and the sweep transaction recorded for it. */
    method FetchClass(height: uint32) returns (sweep: Option<Tx>, kids: seq<Kid>, babies: seq<Baby>)
      requires Valid()
      ensures sweep == if height in ledger.sweeps then Some(ledger.sweeps[height]) else None
      ensures Lists(KidOutputs(kids), ledger.entries, Class(ledger.entries, Kinder, Some(height)))
      ensures Lists(BabyOutputs(babies), ledger.entries, Class(ledger.entries, Crib, Some(height)))
    {
      sweep := if height in db.heightIndex then db.heightIndex[height].sweep else None;
      assert sweep == SweepAt(db.heightIndex, height);
      var cribs := ForEachHeightPrefix(Crib, height);
      ListedKinds(ledger, cribs, Crib, Some(height));
      babies := [];
      for i := 0 to |cribs|
        invariant BabyOutputs(babies) == cribs[..i]
      {
        babies := babies + [cribs[i].baby];
      }
      var outs := ForEachHeightPrefix(Kinder, height);
      ListedKinds(ledger, outs, Kinder, Some(height));
      kids := DecodeKids(outs);
    }

    method FetchPreschools() returns (kids: seq<Kid>)
      requires Valid()
      ensures Lists(KidOutputs(kids), ledger.entries, Class(ledger.entries, Preschool, None))
    {
      ghost var cls := Class(ledger.entries, Preschool, None);
      var outs: seq<Stored> := [];
      var chans := db.chanIndex.Keys;
      PreschoolChannels(db, ledger);
      while chans != {}
        invariant chans <= db.chanIndex.Keys
        invariant Lists(outs, ledger.entries, cls - InChannels(cls, chans))
        decreases |chans|
      {
        var chan :| chan in chans;
        var keys := set key | key in db.chanIndex[chan] && key.stage == Preschool;
        PreschoolKeys(db, ledger, chan, keys);
        ScanStart(cls, Preschool, chans, chan, keys);
        var more := LoadOutputs(db.chanIndex[chan], chan, keys, ledger.entries);
        ListsBoth(outs, more, ledger.entries, cls - InChannels(cls, chans), KeySlots(chan, keys));
        outs := outs + more;
        chans := chans - {chan};
      }
      assert cls - InChannels(cls, {}) == cls;
      ListedKinds(ledger, outs, Preschool, None);
      kids := DecodeKids(outs);
    }

    method IsMatureChannel(chan: OutPoint) returns (r: Result<bool, StoreError>)
      requires Valid()
      ensures r == if Tracked(ledger.entries, chan) then Ok(Mature(ledger.entries, chan))
                   else Err(ContractNotFound)
    {
      TrackedIffBucket(db, ledger, chan);
      if chan !in db.chanIndex {
        return Err(ContractNotFound);
      }
      MatureIffAllGrad(db, ledger, chan);
      var keys := db.chanIndex[chan].Keys;
      while keys != {}
        invariant keys <= db.chanIndex[chan].Keys
        invariant forall key :: key in db.chanIndex[chan] && key !in keys ==> key.stage == Grad
        decreases |keys|
      {
        var key :| key in keys;
        if key.stage != Grad {
          return Ok(false);
        }
        keys := keys - {key};
      }
      return Ok(true);
    }

    /**
     Succeeds exactly for a mature channel, or before any channel was ever stored.
     It never changes the height index.
     */
    method RemoveChannel(chan: OutPoint) returns (r: Result<(), StoreError>)
      requires Valid()
      modifies this
      ensures Valid()
      ensures r == if !old(db.chanIndexCreated) then Ok(())
                   else if !Tracked(old(ledger.entries), chan) then Err(ContractNotFound)
                   else if !Mature(old(ledger.entries), chan) then Err(ImmatureChannel)
                   else Ok(())
      ensures ledger == if r.Ok? then WithoutChannel(old(ledger), chan) else old(ledger)
      ensures db.heightIndex == old(db.heightIndex)
    {
      TrackedIffBucket(db, ledger, chan);
      if !db.chanIndexCreated {
        assert WithoutChannel(ledger, chan).entries == ledger.entries;
        return Ok(());
      }
      if chan !in db.chanIndex {
        return Err(ContractNotFound);
      }
      MatureIffAllGrad(db, ledger, chan);
      var hi := db.heightIndex;
      var keys := db.chanIndex[chan].Keys;
      while keys != {}
        invariant db == old(db) && ledger == old(ledger)
        invariant keys <= db.chanIndex[chan].Keys
        invariant forall key :: key in db.chanIndex[chan] && key !in keys ==> key.stage == Grad
        invariant Mature(ledger.entries, chan) ==> hi == db.heightIndex
        decreases |keys|
      {
        var key :| key in keys;
        if key.stage != Grad {
          return Err(ImmatureChannel);
        }
        BucketEntry(db, ledger, chan, key);
        var kid := db.chanIndex[chan][key].kid;
        var maturity := Add32(kid.confHeight, kid.blocksToMaturity);
        if maturity in hi {
          if Mature(ledger.entries, chan) {
            MatureIsUnscheduled(db, ledger, chan, maturity);
          }
          hi := RemoveHeightChannel(hi, maturity, chan);
        }
        keys := keys - {key};
      }
      RemovalRepresents(db, ledger, chan);
      db := db.(chanIndex := db.chanIndex - {chan}, heightIndex := hi);
      ledger := WithoutChannel(ledger, chan);
      return Ok(());
    }

    /** The heights at which something is due, up to `height`, in increasing order. */
    method HeightsBelowOrEqual(height: uint32) returns (heights: seq<uint32>)
      requires Valid()
      ensures forall h: uint32 :: h in heights <==> h <= height && Occupied(ledger.entries, h)
      ensures forall i, j :: 0 <= i < j < |heights| ==> heights[i] < heights[j]
    {
      heights := ScanHeights(db.heightIndex, height);
      forall h: uint32
        ensures h in db.heightIndex <==> Occupied(ledger.entries, h)
      {
        BucketIffOccupied(db.heightIndex, ledger.entries, h);
      }
    }
  }
}
