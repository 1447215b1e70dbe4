/**
 The nursery store's transactions on single outputs, as bucket updates, and the
 exact conditions under which each keeps the two indexes in agreement.
 */
module NurseryTransitions {
  import opened Primitives
  import opened NurseryLedger
  import opened NurseryIndex

  // ---- Transactions ----

  /** enterCrib and enterPreschool: an output already stored in that stage is ignored. */
  function EnrollTx(db: Db, out: Stored): Db {
    var slot := out.Slot();
    var e := Arrival(out);
    var key := Key(e.stage, slot.outpoint);
    if key in BucketOf(db.chanIndex, slot.chanPoint) then db.(chanIndexCreated := true)
    else
      db.(chanIndex := PutOutput(db.chanIndex, slot.chanPoint, key, out),
          chanIndexCreated := true,
          heightIndex := if e.due.Some? then Schedule(db.heightIndex, e.due.value, slot.chanPoint, key)
                         else db.heightIndex)
  }

  /** The old key leaves the channel bucket, the new one enters it. */
  function MovedChannels(ci: ChannelIndex, slot: Slot, from: Stage, e: Entry): ChannelIndex {
    PutOutput(DeleteOutput(ci, slot.chanPoint, Key(from, slot.outpoint)),
              slot.chanPoint, Key(e.stage, slot.outpoint), e.out)
  }

  /** The old key leaves the height `off`, if there is one. */
  function TakenOff(hi: HeightIndex, slot: Slot, from: Stage, off: Option<uint32>): HeightIndex {
    if off.Some? then Unschedule(hi, off.value, slot.chanPoint, Key(from, slot.outpoint)) else hi
  }

  /** The new key enters the height the entry is due at, if there is one. */
  function PutOn(hi: HeightIndex, slot: Slot, e: Entry): HeightIndex {
    if e.due.Some? then Schedule(hi, e.due.value, slot.chanPoint, Key(e.stage, slot.outpoint)) else hi
  }

  /** Moves an output from stage `from` to the entry `e` in both indexes. */
  function MoveTx(db: Db, slot: Slot, from: Stage, off: Option<uint32>, e: Entry): Db {
    db.(chanIndex := MovedChannels(db.chanIndex, slot, from, e),
        chanIndexCreated := true,
        heightIndex := PutOn(TakenOff(db.heightIndex, slot, from, off), slot, e))
  }

  function CribToKinderTx(db: Db, baby: Baby): Db {
    MoveTx(db, SlotOf(baby.kid), Crib, Some(baby.expiry),
           Entry(Kinder, StoredKid(baby.kid), Some(CribMaturity(baby))))
  }

  function PreschoolToKinderTx(db: Db, kid: Kid): Db {
    MoveTx(db, SlotOf(kid), Preschool, None,
           Entry(Kinder, StoredKid(kid), Some(PreschoolMaturity(kid, db.lastGraduated))))
  }

  // ---- When a transaction keeps the indexes in agreement ----

  /** The slot is new, is where the transaction takes it from, or already is where it is taken to. */
  ghost predicate CanMove(l: Ledger, slot: Slot, from: Stage, off: Option<uint32>, e: Entry) {
    slot in l.entries ==>
      || (l.entries[slot].stage == from && l.entries[slot].due == off)
      || (l.entries[slot].stage == e.stage && l.entries[slot].due == e.due)
  }

  ghost predicate CanEnroll(l: Ledger, out: Stored) {
    out.Slot() in l.entries ==> l.entries[out.Slot()].stage == Arrival(out).stage
  }

  lemma MovedChannelsMatch(ci: ChannelIndex, entries: Entries, slot: Slot, from: Stage, e: Entry)
    requires ChannelsMatch(ci, entries) && from != e.stage
    requires slot in entries ==> entries[slot].stage == from || entries[slot].stage == e.stage
    ensures ChannelsMatch(MovedChannels(ci, slot, from, e), entries[slot := e])
  {
    var r := MovedChannels(ci, slot, from, e);
    assert slot == Slot(slot.chanPoint, slot.outpoint);
    forall chan, key
      ensures Holds(r, chan, key) <==> InStage(entries[slot := e], chan, key)
      ensures Holds(r, chan, key) ==> r[chan][key] == entries[slot := e][Slot(chan, key.outpoint)].out
    {
      assert Holds(ci, chan, key) <==> InStage(entries, chan, key);
    }
    assert Key(e.stage, slot.outpoint) in r[slot.chanPoint];
  }

  lemma TakenOffMatches(hi: HeightIndex, entries: Entries, slot: Slot, from: Stage, off: Option<uint32>)
    requires HeightsMatch(hi, entries) && Pruned(hi)
    requires slot in entries && entries[slot].stage == from ==> entries[slot].due == off
    ensures HeightsMatch(TakenOff(hi, slot, from, off), Rest(entries, slot, from))
    ensures Pruned(TakenOff(hi, slot, from, off))
  {
    var r := TakenOff(hi, slot, from, off);
    var rest := Rest(entries, slot, from);
    if off.Some? {
      UnscheduleEffect(hi, off.value, slot.chanPoint, Key(from, slot.outpoint));
    }
    assert slot == Slot(slot.chanPoint, slot.outpoint);
    forall height, chan, key
      ensures Scheduled(r, height, chan, key)
              <==> InStage(rest, chan, key) && DueAt(rest, Slot(chan, key.outpoint), height)
    {
      assert Scheduled(hi, height, chan, key)
             <==> InStage(entries, chan, key) && DueAt(entries, Slot(chan, key.outpoint), height);
    }
  }

  /** Pruning a height bucket drops its sweep transaction, and nothing else does. */
  lemma TakenOffSweeps(hi: HeightIndex, sweeps: map<uint32, Tx>, rest: Entries,
                       slot: Slot, from: Stage, off: Option<uint32>)
    requires Pruned(hi) && SweepsMatch(hi, sweeps)
    requires HeightsMatch(TakenOff(hi, slot, from, off), rest)
    ensures SweepsMatch(TakenOff(hi, slot, from, off), OccupiedSweeps(sweeps, rest))
  {
    var r := TakenOff(hi, slot, from, off);
    if off.Some? {
      UnscheduleEffect(hi, off.value, slot.chanPoint, Key(from, slot.outpoint));
    }
    var left := OccupiedSweeps(sweeps, rest);
    forall h
      ensures SweepAt(r, h) == if h in left then Some(left[h]) else None
    {
      BucketIffOccupied(r, rest, h);
      assert SweepAt(hi, h) == if h in sweeps then Some(sweeps[h]) else None;
    }
  }

  lemma PutOnMatches(hi: HeightIndex, rest: Entries, sweeps: map<uint32, Tx>, slot: Slot, e: Entry)
    requires HeightsMatch(hi, rest) && Pruned(hi) && SweepsMatch(hi, sweeps)
    requires slot in rest ==> rest[slot].stage == e.stage && rest[slot].due == e.due
    ensures HeightsMatch(PutOn(hi, slot, e), rest[slot := e])
    ensures Pruned(PutOn(hi, slot, e))
    ensures SweepsMatch(PutOn(hi, slot, e), sweeps)
  {
    var r := PutOn(hi, slot, e);
    if e.due.Some? {
      ScheduleEffect(hi, e.due.value, slot.chanPoint, Key(e.stage, slot.outpoint));
    }
    assert slot == Slot(slot.chanPoint, slot.outpoint);
    forall height, chan, key
      ensures Scheduled(r, height, chan, key)
              <==> InStage(rest[slot := e], chan, key) && DueAt(rest[slot := e], Slot(chan, key.outpoint), height)
    {
      assert Scheduled(hi, height, chan, key)
             <==> InStage(rest, chan, key) && DueAt(rest, Slot(chan, key.outpoint), height);
    }
  }

  lemma RestageWellFormed(l: Ledger, slot: Slot, from: Stage, e: Entry)
    requires WellFormed(l) && WellFormedEntry(slot, e)
    requires slot in l.entries ==> l.entries[slot].stage == from || l.entries[slot].due == e.due
    ensures WellFormed(Restage(l, slot, from, e))
  {
    var r := Restage(l, slot, from, e);
    forall h | h in r.sweeps
      ensures Occupied(r.entries, h)
    {
      var other :| DueAt(Rest(l.entries, slot, from), other, h);
      assert DueAt(r.entries, other, h);
    }
  }

  lemma MovedHeightsMatch(hi: HeightIndex, l: Ledger, slot: Slot, from: Stage, off: Option<uint32>, e: Entry)
    requires HeightsMatch(hi, l.entries) && Pruned(hi) && SweepsMatch(hi, l.sweeps)
    requires from != e.stage && CanMove(l, slot, from, off, e)
    ensures var r := PutOn(TakenOff(hi, slot, from, off), slot, e);
            && HeightsMatch(r, l.entries[slot := e])
            && Pruned(r)
            && SweepsMatch(r, OccupiedSweeps(l.sweeps, Rest(l.entries, slot, from)))
  {
    var rest := Rest(l.entries, slot, from);
    TakenOffMatches(hi, l.entries, slot, from, off);
    TakenOffSweeps(hi, l.sweeps, rest, slot, from, off);
    PutOnMatches(TakenOff(hi, slot, from, off), rest, OccupiedSweeps(l.sweeps, rest), slot, e);
    assert rest[slot := e] == l.entries[slot := e];
  }

  /** A permitted move implements the ledger's restaging. */
  lemma MoveImplementsRestage(db: Db, l: Ledger, slot: Slot, from: Stage, off: Option<uint32>, e: Entry)
    requires Represents(db, l)
    requires WellFormedEntry(slot, e) && from != e.stage
    requires CanMove(l, slot, from, off, e)
    ensures Represents(MoveTx(db, slot, from, off, e), Restage(l, slot, from, e))
  {
    MovedChannelsMatch(db.chanIndex, l.entries, slot, from, e);
    MovedHeightsMatch(db.heightIndex, l, slot, from, off, e);
    RestageWellFormed(l, slot, from, e);
  }

  // ---- Transactions outside their contract ----

  lemma MovedKeys(db: Db, slot: Slot, from: Stage, off: Option<uint32>, e: Entry, chan: OutPoint, key: Key)
    requires from != e.stage
    ensures Holds(MovedChannels(db.chanIndex, slot, from, e), chan, key)
            <==> if chan == slot.chanPoint && key == Key(e.stage, slot.outpoint) then true
                 else if chan == slot.chanPoint && key == Key(from, slot.outpoint) then false
                 else Holds(db.chanIndex, chan, key)
  {
  }

  lemma MovedSchedule(db: Db, slot: Slot, from: Stage, off: Option<uint32>, e: Entry, height: uint32, key: Key)
    requires Pruned(db.heightIndex)
    requires Scheduled(db.heightIndex, height, slot.chanPoint, key)
    requires key != Key(from, slot.outpoint) || off != Some(height)
    ensures Scheduled(MoveTx(db, slot, from, off, e).heightIndex, height, slot.chanPoint, key)
  {
    if off.Some? {
      UnscheduleEffect(db.heightIndex, off.value, slot.chanPoint, Key(from, slot.outpoint));
    }
    if e.due.Some? {
      ScheduleEffect(TakenOff(db.heightIndex, slot, from, off), e.due.value, slot.chanPoint, Key(e.stage, slot.outpoint));
    }
  }

  /** A move that is not permitted leaves the indexes in agreement with no ledger at all. */
  lemma MoveBreaksAgreement(db: Db, l: Ledger, slot: Slot, from: Stage, off: Option<uint32>, e: Entry)
    requires Represents(db, l) && from != e.stage
    requires WellFormedEntry(slot, e)
    requires !CanMove(l, slot, from, off, e)
    requires l.entries[slot].stage == from ==> l.entries[slot].due.Some?
    ensures !Agrees(MoveTx(db, slot, from, off, e))
  {
    var r := MoveTx(db, slot, from, off, e);
    var was := l.entries[slot];
    var key := Key(was.stage, slot.outpoint);
    assert InStage(l.entries, slot.chanPoint, key) by {
      assert slot == Slot(slot.chanPoint, slot.outpoint);
    }
    MovedKeys(db, slot, from, off, e, slot.chanPoint, key);
    MovedKeys(db, slot, from, off, e, slot.chanPoint, Key(e.stage, slot.outpoint));
    if was.due.Some? {
      assert Scheduled(db.heightIndex, was.due.value, slot.chanPoint, key);
      MovedSchedule(db, slot, from, off, e, was.due.value, key);
    }
    forall m: Ledger
      ensures !Represents(r, m)
    {
      NoLedgerFits(r, m, slot, from, e, was);
    }
  }

  /**
   The three ways to disagree: two keys for one outpoint, a height that names a
   key the channel bucket lacks, or one key at two heights.
   */
  lemma NoLedgerFits(r: Db, m: Ledger, slot: Slot, from: Stage, e: Entry, was: Entry)
    requires WellFormedEntry(slot, was) && WellFormedEntry(slot, e) && from != e.stage
    requires Holds(r.chanIndex, slot.chanPoint, Key(e.stage, slot.outpoint))
    requires e.due.Some? ==> Scheduled(r.heightIndex, e.due.value, slot.chanPoint, Key(e.stage, slot.outpoint))
    requires || (was.stage != from && was.stage != e.stage && Holds(r.chanIndex, slot.chanPoint, Key(was.stage, slot.outpoint)))
             || (was.stage == from && was.due.Some?
                 && Scheduled(r.heightIndex, was.due.value, slot.chanPoint, Key(was.stage, slot.outpoint))
                 && !Holds(r.chanIndex, slot.chanPoint, Key(was.stage, slot.outpoint)))
             || (was.stage == e.stage && was.due.Some? && was.due != e.due
                 && Scheduled(r.heightIndex, was.due.value, slot.chanPoint, Key(was.stage, slot.outpoint)))
    ensures !Represents(r, m)
  {
  }

  // ---- What each transaction of the store does to agreeing indexes ----

  /** CribToKinder keeps the indexes in agreement under exactly this condition. */
  ghost predicate CribCallFits(l: Ledger, baby: Baby) {
    var slot := SlotOf(baby.kid);
    slot in l.entries ==>
      || (l.entries[slot].stage == Crib && l.entries[slot].out.Expiry() == baby.expiry)
      || (l.entries[slot].stage == Kinder && l.entries[slot].due == Some(CribMaturity(baby)))
  }

  ghost predicate PreschoolCallFits(l: Ledger, kid: Kid) {
    var slot := SlotOf(kid);
    slot in l.entries ==>
      || l.entries[slot].stage == Preschool
      || (l.entries[slot].stage == Kinder
          && l.entries[slot].due == Some(PreschoolMaturity(kid, l.lastGraduated)))
  }

  lemma CribToKinderRefines(db: Db, l: Ledger, baby: Baby)
    requires Represents(db, l)
    ensures CribCallFits(l, baby) ==> Represents(CribToKinderTx(db, baby), CribToKinder(l, baby))
    ensures Agrees(CribToKinderTx(db, baby)) <==> CribCallFits(l, baby)
  {
    var e := Entry(Kinder, StoredKid(baby.kid), Some(CribMaturity(baby)));
    if CribCallFits(l, baby) {
      MoveImplementsRestage(db, l, SlotOf(baby.kid), Crib, Some(baby.expiry), e);
    } else {
      MoveBreaksAgreement(db, l, SlotOf(baby.kid), Crib, Some(baby.expiry), e);
    }
  }

  lemma PreschoolToKinderRefines(db: Db, l: Ledger, kid: Kid)
    requires Represents(db, l)
    ensures PreschoolCallFits(l, kid) ==> Represents(PreschoolToKinderTx(db, kid), PreschoolToKinder(l, kid))
    ensures Agrees(PreschoolToKinderTx(db, kid)) <==> PreschoolCallFits(l, kid)
  {
    var e := Entry(Kinder, StoredKid(kid), Some(PreschoolMaturity(kid, l.lastGraduated)));
    if PreschoolCallFits(l, kid) {
      MoveImplementsRestage(db, l, SlotOf(kid), Preschool, None, e);
    } else {
      MoveBreaksAgreement(db, l, SlotOf(kid), Preschool, None, e);
    }
  }

  /** Writing a key that was not stored is a move from any stage the slot is not in. */
  lemma EnrollIsMove(db: Db, out: Stored, other: Stage)
    requires other != Arrival(out).stage
    requires Key(other, out.Slot().outpoint) !in BucketOf(db.chanIndex, out.Slot().chanPoint)
    requires Key(Arrival(out).stage, out.Slot().outpoint) !in BucketOf(db.chanIndex, out.Slot().chanPoint)
    ensures EnrollTx(db, out) == MoveTx(db, out.Slot(), other, None, Arrival(out))
  {
    var slot := out.Slot();
    assert BucketOf(db.chanIndex, slot.chanPoint) - {Key(other, slot.outpoint)} == BucketOf(db.chanIndex, slot.chanPoint);
  }

  lemma KeyNotStored(ci: ChannelIndex, entries: Entries, slot: Slot, stage: Stage)
    requires ChannelsMatch(ci, entries)
    requires slot in entries ==> entries[slot].stage != stage
    ensures Key(stage, slot.outpoint) !in BucketOf(ci, slot.chanPoint)
  {
    assert slot == Slot(slot.chanPoint, slot.outpoint);
    assert !Holds(ci, slot.chanPoint, Key(stage, slot.outpoint));
  }

  lemma EnrollNew(db: Db, l: Ledger, out: Stored)
    requires Represents(db, l) && out.Slot() !in l.entries
    ensures Represents(EnrollTx(db, out), Enroll(l, out))
  {
    var slot := out.Slot();
    var e := Arrival(out);
    KeyNotStored(db.chanIndex, l.entries, slot, Grad);
    KeyNotStored(db.chanIndex, l.entries, slot, e.stage);
    EnrollIsMove(db, out, Grad);
    MoveImplementsRestage(db, l, slot, Grad, None, e);
    assert OccupiedSweeps(l.sweeps, l.entries) == l.sweeps;
    assert Restage(l, slot, Grad, e) == Enroll(l, out);
  }

  lemma EnrollAgain(db: Db, l: Ledger, out: Stored)
    requires Represents(db, l) && out.Slot() in l.entries && l.entries[out.Slot()].stage == Arrival(out).stage
    ensures Represents(EnrollTx(db, out), Enroll(l, out))
  {
    var slot, stage := out.Slot(), Arrival(out).stage;
    assert InStage(l.entries, slot.chanPoint, Key(stage, slot.outpoint));
    assert Holds(db.chanIndex, slot.chanPoint, Key(stage, slot.outpoint));
  }

  lemma EnrollRefines(db: Db, l: Ledger, out: Stored)
    requires Represents(db, l)
    ensures CanEnroll(l, out) ==> Represents(EnrollTx(db, out), Enroll(l, out))
    ensures Agrees(EnrollTx(db, out)) <==> CanEnroll(l, out)
  {
    if out.Slot() !in l.entries {
      EnrollNew(db, l, out);
    } else if l.entries[out.Slot()].stage == Arrival(out).stage {
      EnrollAgain(db, l, out);
    } else {
      EnrollForeign(db, l, out);
    }
  }

  /** Incubating an outpoint that is already in a different stage breaks the agreement. */
  lemma EnrollForeign(db: Db, l: Ledger, out: Stored)
    requires Represents(db, l)
    requires out.Slot() in l.entries && l.entries[out.Slot()].stage != Arrival(out).stage
    ensures !Agrees(EnrollTx(db, out))
  {
    var slot := out.Slot();
    var e := Arrival(out);
    var other := if l.entries[slot].stage != Grad then Grad else Kinder;
    KeyNotStored(db.chanIndex, l.entries, slot, other);
    KeyNotStored(db.chanIndex, l.entries, slot, e.stage);
    EnrollIsMove(db, out, other);
    MoveBreaksAgreement(db, l, slot, other, None, e);
  }

  // ---- Batches ----

  /** The outputs enter one after another. */
  function EnterTx(db: Db, outs: seq<Stored>): Db
    decreases |outs|
  {
    if outs == [] then db else EnrollTx(EnterTx(db, outs[..|outs| - 1]), outs[|outs| - 1])
  }

  /** None of the outputs is already in a stage other than the one it enters. */
  ghost predicate CanEnrollAll(l: Ledger, outs: seq<Stored>)
    decreases |outs|
  {
    outs == [] ||
    (CanEnrollAll(l, outs[..|outs| - 1]) && CanEnroll(EnrollAll(l, outs[..|outs| - 1]), outs[|outs| - 1]))
  }

  /** A channel bucket holds one outpoint in two stages. */
  ghost predicate Clash(ci: ChannelIndex) {
    exists chan, k, m :: Holds(ci, chan, k) && Holds(ci, chan, m) && k.outpoint == m.outpoint && k.stage != m.stage
  }

  lemma ClashDisagrees(db: Db)
    requires Clash(db.chanIndex)
    ensures !Agrees(db)
  {
    var chan, k, m :| Holds(db.chanIndex, chan, k) && Holds(db.chanIndex, chan, m)
                      && k.outpoint == m.outpoint && k.stage != m.stage;
    forall l: Ledger
      ensures !Represents(db, l)
    {
      assert !(InStage(l.entries, chan, k) && InStage(l.entries, chan, m));
    }
  }

  lemma EnrollKeepsKeys(db: Db, out: Stored, chan: OutPoint, key: Key)
    requires Holds(db.chanIndex, chan, key)
    ensures Holds(EnrollTx(db, out).chanIndex, chan, key)
  {
  }

  lemma EnrollKeepsClash(db: Db, out: Stored)
    requires Clash(db.chanIndex)
    ensures Clash(EnrollTx(db, out).chanIndex)
  {
    var chan, k, m :| Holds(db.chanIndex, chan, k) && Holds(db.chanIndex, chan, m)
                      && k.outpoint == m.outpoint && k.stage != m.stage;
    EnrollKeepsKeys(db, out, chan, k);
    EnrollKeepsKeys(db, out, chan, m);
  }

  lemma {:induction false} EnterKeepsClash(db: Db, outs: seq<Stored>)
    requires Clash(db.chanIndex)
    ensures Clash(EnterTx(db, outs).chanIndex)
    decreases |outs|
  {
    if outs != [] {
      EnterKeepsClash(db, outs[..|outs| - 1]);
      EnrollKeepsClash(EnterTx(db, outs[..|outs| - 1]), outs[|outs| - 1]);
    }
  }

  lemma ForeignClashes(db: Db, l: Ledger, out: Stored)
    requires Represents(db, l) && !CanEnroll(l, out)
    ensures Clash(EnrollTx(db, out).chanIndex)
  {
    var slot := out.Slot();
    var was, now := Key(l.entries[slot].stage, slot.outpoint), Key(Arrival(out).stage, slot.outpoint);
    assert InStage(l.entries, slot.chanPoint, was);
    assert Holds(db.chanIndex, slot.chanPoint, was);
    EnrollKeepsKeys(db, out, slot.chanPoint, was);
    assert Holds(EnrollTx(db, out).chanIndex, slot.chanPoint, now);
  }

  lemma EnrollsOrClashes(db: Db, l: Ledger, out: Stored)
    requires Represents(db, l)
    ensures if CanEnroll(l, out) then Represents(EnrollTx(db, out), Enroll(l, out))
            else Clash(EnrollTx(db, out).chanIndex)
  {
    if CanEnroll(l, out) {
      EnrollRefines(db, l, out);
    } else {
      ForeignClashes(db, l, out);
    }
  }

  /** A batch does what its outputs do one after another, or leaves an outpoint in two stages for good. */
  lemma {:induction false} EnterRefines(db: Db, l: Ledger, outs: seq<Stored>)
    requires Represents(db, l)
    ensures if CanEnrollAll(l, outs) then Represents(EnterTx(db, outs), EnrollAll(l, outs))
            else Clash(EnterTx(db, outs).chanIndex)
    decreases |outs|
  {
    if outs != [] {
      var init, last := outs[..|outs| - 1], outs[|outs| - 1];
      EnterRefines(db, l, init);
      if CanEnrollAll(l, init) {
        EnrollsOrClashes(EnterTx(db, init), EnrollAll(l, init), last);
      } else {
        EnrollKeepsClash(EnterTx(db, init), last);
      }
    }
  }

  /** Incubating kids and then babies keeps the indexes in agreement under exactly this condition. */
  ghost predicate IncubateCallFits(l: Ledger, kids: seq<Stored>, babies: seq<Stored>) {
    CanEnrollAll(l, kids) && CanEnrollAll(EnrollAll(l, kids), babies)
  }

  lemma IncubateRefines(db: Db, l: Ledger, kids: seq<Stored>, babies: seq<Stored>)
    requires Represents(db, l)
    ensures IncubateCallFits(l, kids, babies) ==>
              Represents(EnterTx(EnterTx(db, kids), babies), EnrollAll(EnrollAll(l, kids), babies))
    ensures Agrees(EnterTx(EnterTx(db, kids), babies)) <==> IncubateCallFits(l, kids, babies)
  {
    var r := EnterTx(EnterTx(db, kids), babies);
    EnterRefines(db, l, kids);
    if CanEnrollAll(l, kids) {
      EnterRefines(EnterTx(db, kids), EnrollAll(l, kids), babies);
    } else {
      EnterKeepsClash(EnterTx(db, kids), babies);
    }
    if Clash(r.chanIndex) {
      ClashDisagrees(r);
    }
  }
}
