/**
 What every sequence of nursery operations keeps. The operations are those of
 the plain ledger, which the store's transactions implement one for one.
 */
module NurseryRuns {
  import opened Primitives
  import L = NurseryLedger
  import opened NurseryLedger
  import opened NurseryStore
  import opened NurseryTransitions

  datatype Op =
    | Incubate(kids: seq<Kid>, babies: seq<Baby>)
    | CribToKinder(baby: Baby)
    | PreschoolToKinder(kid: Kid)
    | GraduateKinder(height: uint32)
    | FinalizeKinder(height: uint32, sweep: Option<Tx>)
    | GraduateHeight(height: uint32)
    | RemoveChannel(chanPoint: OutPoint)

  ghost function Apply(l: Ledger, op: Op): Ledger {
    match op
    case Incubate(kids, babies) => EnrollAll(EnrollAll(l, KidOutputs(kids)), BabyOutputs(babies))
    case CribToKinder(baby) => L.CribToKinder(l, baby)
    case PreschoolToKinder(kid) => L.PreschoolToKinder(l, kid)
    case GraduateKinder(height) => L.GraduateKinder(l, height)
    case FinalizeKinder(height, sweep) => L.FinalizeKinder(l, height, sweep)
    case GraduateHeight(height) => L.GraduateHeight(l, height)
    case RemoveChannel(chan) => if Mature(l.entries, chan) then WithoutChannel(l, chan) else l
  }

  ghost function Run(l: Ledger, ops: seq<Op>): Ledger
    decreases |ops|
  {
    if ops == [] then l else Apply(Run(l, ops[..|ops| - 1]), ops[|ops| - 1])
  }

  /** What the store asks of its callers: a transition starts from the stage it names. */
  ghost predicate Called(l: Ledger, op: Op) {
    match op
    case Incubate(kids, babies) =>
      IncubateCallFits(l, KidOutputs(kids), BabyOutputs(babies))
    case CribToKinder(baby) =>
      var slot := SlotOf(baby.kid);
      slot in l.entries && l.entries[slot].stage == Crib && l.entries[slot].out.Expiry() == baby.expiry
    case PreschoolToKinder(kid) => SlotOf(kid) in l.entries && l.entries[SlotOf(kid)].stage == Preschool
    case _ => true
  }

  ghost predicate AllCalled(l: Ledger, ops: seq<Op>) {
    forall i :: 0 <= i < |ops| ==> Called(Run(l, ops[..i]), ops[i])
  }

  // ---- One operation ----

  lemma EnrolledOne(l: Ledger, out: Stored)
    requires WellFormed(l)
    ensures WellFormed(Enroll(l, out))
  {
    var r := Enroll(l, out);
    forall h | h in r.sweeps
      ensures Occupied(r.entries, h)
    {
      var slot :| DueAt(l.entries, slot, h);
      assert DueAt(r.entries, slot, h);
    }
  }

  /** What a batch leaves in place. */
  lemma {:induction false} EnrolledEntries(l: Ledger, outs: seq<Stored>)
    requires WellFormed(l)
    ensures WellFormed(EnrollAll(l, outs))
    ensures EnrollAll(l, outs).sweeps == l.sweeps
    ensures forall slot :: slot in l.entries ==>
              slot in EnrollAll(l, outs).entries && EnrollAll(l, outs).entries[slot] == l.entries[slot]
    decreases |outs|
  {
    if outs != [] {
      var init := outs[..|outs| - 1];
      EnrolledEntries(l, init);
      EnrolledOne(EnrollAll(l, init), outs[|outs| - 1]);
    }
  }

  /** What a batch brings in. */
  lemma {:induction false} EnrolledSlots(l: Ledger, outs: seq<Stored>, slot: Slot)
    requires slot in EnrollAll(l, outs).entries && slot !in l.entries
    ensures exists i :: 0 <= i < |outs| && outs[i].Slot() == slot
    decreases |outs|
  {
    if outs != [] {
      var init, last := outs[..|outs| - 1], outs[|outs| - 1];
      if slot in EnrollAll(l, init).entries {
        EnrolledSlots(l, init, slot);
        var i :| 0 <= i < |init| && init[i].Slot() == slot;
        assert outs[i].Slot() == slot;
      } else {
        assert outs[|outs| - 1].Slot() == slot;
      }
    }
  }

  lemma GraduationWellFormed(l: Ledger, height: uint32)
    requires WellFormed(l)
    ensures WellFormed(L.GraduateKinder(l, height))
  {
    var r := L.GraduateKinder(l, height);
    forall h | h in r.sweeps
      ensures Occupied(r.entries, h)
    {
      var slot :| DueAt(l.entries, slot, h);
      assert DueAt(r.entries, slot, h);
    }
  }

  lemma ApplyWellFormed(l: Ledger, op: Op)
    requires WellFormed(l) && Called(l, op)
    ensures WellFormed(Apply(l, op))
  {
    match op
    case Incubate(kids, babies) =>
      EnrolledEntries(l, KidOutputs(kids));
      EnrolledEntries(EnrollAll(l, KidOutputs(kids)), BabyOutputs(babies));
    case CribToKinder(baby) =>
      RestageWellFormed(l, SlotOf(baby.kid), Crib, Entry(Kinder, StoredKid(baby.kid), Some(CribMaturity(baby))));
    case PreschoolToKinder(kid) =>
      RestageWellFormed(l, SlotOf(kid), Preschool,
                        Entry(Kinder, StoredKid(kid), Some(PreschoolMaturity(kid, l.lastGraduated))));
    case GraduateKinder(height) => GraduationWellFormed(l, height);
    case RemoveChannel(chan) =>
      if Mature(l.entries, chan) {
        RemovalWellFormed(l, chan);
      }
    case FinalizeKinder(_, _) =>
    case GraduateHeight(_) =>
  }

  /** Stages move from crib or preschool to kindergarten to graduated. */
  predicate Advances(from: Stage, to: Stage) {
    from == to || to == Grad || (to == Kinder && from != Grad)
  }

  /** An operation other than removal keeps every output and never moves one back. */
  lemma ApplyAdvances(l: Ledger, op: Op, slot: Slot)
    requires WellFormed(l) && Called(l, op) && slot in l.entries
    requires op != RemoveChannel(slot.chanPoint)
    ensures slot in Apply(l, op).entries
    ensures Advances(l.entries[slot].stage, Apply(l, op).entries[slot].stage)
  {
    if op.Incubate? {
      EnrolledEntries(l, KidOutputs(op.kids));
      EnrolledEntries(EnrollAll(l, KidOutputs(op.kids)), BabyOutputs(op.babies));
    }
  }

  /** The outputs an operation may bring in. */
  ghost predicate Brings(op: Op, slot: Slot) {
    && op.Incubate?
    && ((exists i :: 0 <= i < |op.kids| && SlotOf(op.kids[i]) == slot)
        || (exists i :: 0 <= i < |op.babies| && SlotOf(op.babies[i].kid) == slot))
  }

  lemma OnlyIncubateBrings(l: Ledger, op: Op, slot: Slot)
    requires WellFormed(l) && Called(l, op)
    requires slot !in l.entries && slot in Apply(l, op).entries
    ensures Brings(op, slot)
  {
    if op.Incubate? {
      var kids, babies := KidOutputs(op.kids), BabyOutputs(op.babies);
      if slot in EnrollAll(l, kids).entries {
        EnrolledSlots(l, kids, slot);
        var i :| 0 <= i < |kids| && kids[i].Slot() == slot;
        assert SlotOf(op.kids[i]) == slot;
      } else {
        EnrolledSlots(EnrollAll(l, kids), babies, slot);
        var i :| 0 <= i < |babies| && babies[i].Slot() == slot;
        assert SlotOf(op.babies[i].kid) == slot;
      }
    }
  }

  /** While a kindergarten output is due at `height`, its sweep transaction stays. */
  ghost predicate Swept(l: Ledger, height: uint32, slot: Slot, tx: Tx) {
    && slot in Class(l.entries, Kinder, Some(height))
    && height in l.sweeps && l.sweeps[height] == tx
  }

  lemma ApplyKeepsSweep(l: Ledger, op: Op, height: uint32, slot: Slot, tx: Tx)
    requires WellFormed(l) && Called(l, op) && Swept(l, height, slot, tx)
    requires op != GraduateKinder(height)
    requires !(op.FinalizeKinder? && op.height == height && op.sweep.Some?)
    ensures Swept(Apply(l, op), height, slot, tx)
  {
    match op
    case Incubate(kids, babies) =>
      EnrolledEntries(l, KidOutputs(kids));
      EnrolledEntries(EnrollAll(l, KidOutputs(kids)), BabyOutputs(babies));
    case CribToKinder(baby) =>
      assert DueAt(Rest(l.entries, SlotOf(baby.kid), Crib), slot, height);
    case PreschoolToKinder(kid) =>
      assert DueAt(Rest(l.entries, SlotOf(kid), Preschool), slot, height);
    case _ =>
  }

  // ---- Whole runs ----

  lemma {:induction false} RunWellFormed(l: Ledger, ops: seq<Op>)
    requires WellFormed(l) && AllCalled(l, ops)
    ensures WellFormed(Run(l, ops))
    decreases |ops|
  {
    if ops != [] {
      Prefix(l, ops);
      RunWellFormed(l, ops[..|ops| - 1]);
      ApplyWellFormed(Run(l, ops[..|ops| - 1]), ops[|ops| - 1]);
    }
  }

  /** Removing a channel without outputs changes nothing. */
  lemma NothingRemoved(l: Ledger, chan: OutPoint)
    requires !Tracked(l.entries, chan)
    ensures WithoutChannel(l, chan) == l
  {
    forall slot | slot in l.entries
      ensures slot.chanPoint != chan
    {
    }
    assert WithoutChannel(l, chan).entries == l.entries;
  }

  /** One call on the store does to its ledger what the operation does. */
  method Perform(store: NurseryStore, op: Op)
    requires store.Valid() && Called(store.ledger, op)
    modifies store
    ensures store.Valid() && store.ledger == Apply(old(store.ledger), op)
  {
    match op {
      case Incubate(kids, babies) => store.Incubate(kids, babies);
      case CribToKinder(baby) => store.CribToKinder(baby);
      case PreschoolToKinder(kid) => store.PreschoolToKinder(kid);
      case GraduateKinder(height) => store.GraduateKinder(height);
      case FinalizeKinder(height, sweep) => store.FinalizeKinder(height, sweep);
      case GraduateHeight(height) => store.GraduateHeight(height);
      case RemoveChannel(chan) =>
        ghost var l := store.ledger;
        TrackedIffBucket(store.db, l, chan);
        var r := store.RemoveChannel(chan);
        if !Tracked(l.entries, chan) {
          NothingRemoved(l, chan);
        }
    }
  }

  /** After any sequence of calls the two indexes agree with the ledger of that run. */
  method Replay(ops: seq<Op>) returns (store: NurseryStore)
    requires AllCalled(Fresh, ops)
    ensures store.Valid() && store.ledger == Run(Fresh, ops)
  {
    store := new NurseryStore();
    for i := 0 to |ops|
      invariant fresh(store)
      invariant store.Valid() && store.ledger == Run(Fresh, ops[..i])
    {
      assert ops[..i + 1][..i] == ops[..i];
      Perform(store, ops[i]);
    }
    assert ops[..|ops|] == ops;
  }

  lemma Prefix(l: Ledger, ops: seq<Op>)
    requires ops != [] && AllCalled(l, ops)
    ensures AllCalled(l, ops[..|ops| - 1])
    ensures Called(Run(l, ops[..|ops| - 1]), ops[|ops| - 1])
  {
    var init := ops[..|ops| - 1];
    forall i | 0 <= i < |init|
      ensures Called(Run(l, init[..i]), init[i])
    {
      assert init[..i] == ops[..i];
      assert Called(Run(l, ops[..i]), ops[i]);
    }
  }

  /** An output is lost only by removing its channel, and its stage only ever advances. */
  lemma {:induction false} StagesOnlyAdvance(l: Ledger, ops: seq<Op>, slot: Slot)
    requires WellFormed(l) && AllCalled(l, ops) && slot in l.entries
    requires RemoveChannel(slot.chanPoint) !in ops
    ensures slot in Run(l, ops).entries
    ensures Advances(l.entries[slot].stage, Run(l, ops).entries[slot].stage)
    decreases |ops|
  {
    if ops != [] {
      var init := ops[..|ops| - 1];
      Prefix(l, ops);
      StagesOnlyAdvance(l, init, slot);
      RunWellFormed(l, init);
      ApplyAdvances(Run(l, init), ops[|ops| - 1], slot);
    }
  }

  /** Every output in the store was brought in by some Incubate call. */
  lemma {:induction false} OutputsWereIncubated(l: Ledger, ops: seq<Op>, slot: Slot)
    requires WellFormed(l) && AllCalled(l, ops)
    requires slot !in l.entries && slot in Run(l, ops).entries
    ensures exists i :: 0 <= i < |ops| && Brings(ops[i], slot)
    decreases |ops|
  {
    var init := ops[..|ops| - 1];
    Prefix(l, ops);
    if slot in Run(l, init).entries {
      OutputsWereIncubated(l, init, slot);
      var i :| 0 <= i < |init| && Brings(init[i], slot);
      assert Brings(ops[i], slot);
    } else {
      RunWellFormed(l, init);
      OnlyIncubateBrings(Run(l, init), ops[|ops| - 1], slot);
    }
  }

  /** A recorded sweep transaction is kept until its height is finalized anew or graduated. */
  lemma {:induction false} SweepIsDurable(l: Ledger, ops: seq<Op>, height: uint32, slot: Slot, tx: Tx)
    requires WellFormed(l) && AllCalled(l, ops) && Swept(l, height, slot, tx)
    requires GraduateKinder(height) !in ops
    requires forall i :: 0 <= i < |ops| && ops[i].FinalizeKinder? && ops[i].sweep.Some? ==> ops[i].height != height
    ensures Swept(Run(l, ops), height, slot, tx)
    decreases |ops|
  {
    if ops != [] {
      var init := ops[..|ops| - 1];
      Prefix(l, ops);
      SweepIsDurable(l, init, height, slot, tx);
      RunWellFormed(l, init);
      ApplyKeepsSweep(Run(l, init), ops[|ops| - 1], height, slot, tx);
    }
  }

  /** A preschool output lands after the last graduated height, unless that height is the greatest one. */
  lemma LateRegistration(l: Ledger, kid: Kid)
    ensures var r := L.PreschoolToKinder(l, kid);
            var due := r.entries[SlotOf(kid)].due.value;
            (due > l.lastGraduated <==> l.lastGraduated < TWO_32 - 1)
  {
  }

  // ---- Enumeration ----

  ghost function DueWithin(entries: Entries, heights: seq<uint32>): set<Slot> {
    set slot | slot in entries && entries[slot].due.Some? && entries[slot].due.value in heights
  }

  lemma OneMoreHeight(l: Ledger, init: seq<uint32>, h: uint32)
    requires WellFormed(l) && h !in init
    ensures DueWithin(l.entries, init + [h])
            == DueWithin(l.entries, init) + Class(l.entries, Crib, Some(h)) + Class(l.entries, Kinder, Some(h))
    ensures DueWithin(l.entries, init) !! Class(l.entries, Crib, Some(h))
    ensures DueWithin(l.entries, init) + Class(l.entries, Crib, Some(h)) !! Class(l.entries, Kinder, Some(h))
  {
    forall slot | slot in l.entries
      ensures l.entries[slot].due == Some(h) ==> l.entries[slot].stage == Crib || l.entries[slot].stage == Kinder
    {
      assert WellFormedEntry(slot, l.entries[slot]);
    }
  }

  lemma Partition(l: Ledger, heights: seq<uint32>)
    requires WellFormed(l)
    requires forall h: uint32 :: h in heights <==> Occupied(l.entries, h)
    ensures l.entries.Keys
            == DueWithin(l.entries, heights) + Class(l.entries, Preschool, None) + Class(l.entries, Grad, None)
    ensures DueWithin(l.entries, heights) !! Class(l.entries, Preschool, None)
    ensures DueWithin(l.entries, heights) + Class(l.entries, Preschool, None) !! Class(l.entries, Grad, None)
  {
    forall slot | slot in l.entries
      ensures l.entries[slot].due.Some? ==> l.entries[slot].due.value in heights
      ensures l.entries[slot].due.None? ==> l.entries[slot].stage == Preschool || l.entries[slot].stage == Grad
    {
      assert WellFormedEntry(slot, l.entries[slot]);
      if l.entries[slot].due.Some? {
        assert DueAt(l.entries, slot, l.entries[slot].due.value);
      }
    }
  }

  /** The class at one more height joins what has been fetched so far. */
  lemma ClassJoins(l: Ledger, outs: seq<Stored>, kids: seq<Kid>, babies: seq<Baby>, heights: seq<uint32>, h: uint32)
    requires WellFormed(l) && h !in heights && Lists(outs, l.entries, DueWithin(l.entries, heights))
    requires Lists(KidOutputs(kids), l.entries, Class(l.entries, Kinder, Some(h)))
    requires Lists(BabyOutputs(babies), l.entries, Class(l.entries, Crib, Some(h)))
    ensures Lists(outs + BabyOutputs(babies) + KidOutputs(kids), l.entries, DueWithin(l.entries, heights + [h]))
  {
    OneMoreHeight(l, heights, h);
    var due, cribs, kinder := DueWithin(l.entries, heights), Class(l.entries, Crib, Some(h)), Class(l.entries, Kinder, Some(h));
    ListsBoth(outs, BabyOutputs(babies), l.entries, due, cribs);
    ListsBoth(outs + BabyOutputs(babies), KidOutputs(kids), l.entries, due + cribs, kinder);
  }

  /**
   Fetching the class of every height that HeightsBelowOrEqual reports, and the
   preschools, returns every output that has not graduated, once each.
   */
  method FetchEverything(store: NurseryStore) returns (outs: seq<Stored>)
    requires store.Valid()
    ensures Lists(outs, store.ledger.entries, store.ledger.entries.Keys - Class(store.ledger.entries, Grad, None))
    ensures |outs| + |Class(store.ledger.entries, Grad, None)| == |store.ledger.entries|
  {
    ghost var l := store.ledger;
    var heights := store.HeightsBelowOrEqual(0xFFFF_FFFF);
    outs := [];
    for i := 0 to |heights|
      invariant Lists(outs, l.entries, DueWithin(l.entries, heights[..i]))
    {
      var sweep, kids, babies := store.FetchClass(heights[i]);
      ClassJoins(l, outs, kids, babies, heights[..i], heights[i]);
      outs := outs + BabyOutputs(babies) + KidOutputs(kids);
      assert heights[..i + 1] == heights[..i] + [heights[i]];
    }
    assert heights[..|heights|] == heights;
    var preschools := store.FetchPreschools();
    Partition(l, heights);
    ListsBoth(outs, KidOutputs(preschools), l.entries, DueWithin(l.entries, heights), Class(l.entries, Preschool, None));
    outs := outs + KidOutputs(preschools);
    EverythingCounted(l, heights, outs);
  }

  lemma EverythingCounted(l: Ledger, heights: seq<uint32>, outs: seq<Stored>)
    requires WellFormed(l) && forall h: uint32 :: h in heights <==> Occupied(l.entries, h)
    requires Lists(outs, l.entries, DueWithin(l.entries, heights) + Class(l.entries, Preschool, None))
    ensures Lists(outs, l.entries, l.entries.Keys - Class(l.entries, Grad, None))
    ensures |outs| + |Class(l.entries, Grad, None)| == |l.entries|
  {
    Partition(l, heights);
    var fetched, grads := DueWithin(l.entries, heights) + Class(l.entries, Preschool, None), Class(l.entries, Grad, None);
    assert fetched == l.entries.Keys - grads && fetched + grads == l.entries.Keys;
    forall slot | slot in fetched
      ensures l.entries[slot].out.Slot() == slot
    {
      assert WellFormedEntry(slot, l.entries[slot]);
    }
    ListsCount(outs, l.entries, fetched);
  }

  /** A store that has never held anything reports the removal of any channel as a success. */
  method RemoveFromNewStore(chan: OutPoint) returns (r: Result<(), StoreError>)
    ensures r == Ok(())
  {
    var store := new NurseryStore();
    r := store.RemoveChannel(chan);
  }
}
