/**
 Time locks in the nursery: when an output may be swept at the earliest, and what
 each operation does to every single output.
 */
module NurseryLocks {
  import opened Primitives
  import L = NurseryLedger
  import opened NurseryLedger
  import opened NurseryStore
  import opened NurseryTransitions
  import opened NurseryRuns

  /** The height at which the output's time lock expires: absolute, or relative to its confirmation. */
  function Lock(kid: Kid): nat {
    if kid.blocksToMaturity == 0 then kid.absoluteMaturity else kid.confHeight + kid.blocksToMaturity
  }

  // ---- When a transition keeps the lock ----

  /** Heights fit 32 bits, and some height is left after the last graduated one. */
  predicate PreschoolOnTime(kid: Kid, lastGraduated: uint32) {
    Lock(kid) == 0 || (Lock(kid) < 0x1_0000_0000 && lastGraduated < 0xFFFF_FFFF)
  }

  /** The heights fit 32 bits, and the lock is the relative one or has expired at confirmation. */
  predicate CribOnTime(kid: Kid) {
    if kid.blocksToMaturity == 0 then kid.absoluteMaturity <= kid.confHeight
    else kid.confHeight + kid.blocksToMaturity < 0x1_0000_0000
  }

  /**
   A preschool output becomes due when its lock expires or, if that height has
   already graduated, at the next one; it is due before its lock exactly when a
   height does not fit.
   */
  lemma PreschoolDue(l: Ledger, kid: Kid)
    ensures var due := L.PreschoolToKinder(l, kid).entries[SlotOf(kid)].due.value;
            && (Lock(kid) < 0x1_0000_0000 && l.lastGraduated < 0xFFFF_FFFF ==>
                  due == if Lock(kid) > l.lastGraduated then Lock(kid) else l.lastGraduated + 1)
            && (Lock(kid) <= due <==> PreschoolOnTime(kid, l.lastGraduated))
  {
  }

  /** A crib output becomes due its delay after confirmation, whatever has graduated. */
  lemma CribDue(l: Ledger, baby: Baby)
    ensures var due := L.CribToKinder(l, baby).entries[SlotOf(baby.kid)].due.value;
            && (baby.kid.confHeight + baby.kid.blocksToMaturity < 0x1_0000_0000 ==>
                  due == baby.kid.confHeight + baby.kid.blocksToMaturity)
            && (Lock(baby.kid) <= due <==> CribOnTime(baby.kid))
  {
  }

  // ---- Over every run ----

  predicate OnTime(l: Ledger, op: Op) {
    match op
    case CribToKinder(baby) => CribOnTime(baby.kid)
    case PreschoolToKinder(kid) => PreschoolOnTime(kid, l.lastGraduated)
    case _ => true
  }

  ghost predicate AllOnTime(l: Ledger, ops: seq<Op>) {
    forall i :: 0 <= i < |ops| ==> OnTime(Run(l, ops[..i]), ops[i])
  }

  ghost predicate KeepsLock(e: Entry) {
    e.stage == Kinder && e.out.StoredKid? && e.due.Some? ==> Lock(e.out.kid) <= e.due.value
  }

  ghost predicate Locked(l: Ledger) {
    forall slot :: slot in l.entries ==> KeepsLock(l.entries[slot])
  }

  /** What an operation other than incubation does to each output, without reference to the rest of the ledger. */
  ghost predicate EntryAfter(l: Ledger, op: Op, r: Ledger, slot: Slot) {
    if op.CribToKinder? && slot == Slot(op.baby.kid.chanPoint, op.baby.kid.outpoint) then
      && slot in r.entries && r.entries[slot].stage == Kinder && r.entries[slot].out == StoredKid(op.baby.kid)
    else if op.PreschoolToKinder? && slot == Slot(op.kid.chanPoint, op.kid.outpoint) then
      && slot in r.entries && r.entries[slot].stage == Kinder && r.entries[slot].out == StoredKid(op.kid)
    else if op.GraduateKinder? && slot in l.entries && l.entries[slot].stage == Kinder
            && l.entries[slot].due == Some(op.height) then
      slot in r.entries && r.entries[slot] == Entry(Grad, l.entries[slot].out, None)
    else if op.RemoveChannel? && slot.chanPoint == op.chanPoint
            && (forall s :: s in l.entries && s.chanPoint == op.chanPoint ==> l.entries[s].stage == Grad) then
      slot !in r.entries
    else
      (slot in r.entries <==> slot in l.entries) && (slot in l.entries ==> r.entries[slot] == l.entries[slot])
  }

  /** Each operation moves exactly the outputs it is for and leaves every other as it was. */
  lemma OnlyTheNamedMove(l: Ledger, op: Op, slot: Slot)
    requires !op.Incubate?
    ensures EntryAfter(l, op, Apply(l, op), slot)
  {
  }

  lemma {:induction false} BatchArrives(l: Ledger, outs: seq<Stored>, i: nat)
    requires CanEnrollAll(l, outs) && i < |outs|
    ensures outs[i].Slot() in EnrollAll(l, outs).entries
    ensures EnrollAll(l, outs).entries[outs[i].Slot()].stage == if outs[i].StoredBaby? then Crib else Preschool
    decreases |outs|
  {
    if i < |outs| - 1 {
      BatchArrives(l, outs[..|outs| - 1], i);
    }
  }

  lemma {:induction false} BatchKeeps(l: Ledger, outs: seq<Stored>, slot: Slot)
    ensures slot in l.entries ==> slot in EnrollAll(l, outs).entries && EnrollAll(l, outs).entries[slot] == l.entries[slot]
    ensures slot in EnrollAll(l, outs).entries && slot !in l.entries ==>
              var e := EnrollAll(l, outs).entries[slot];
              exists i :: 0 <= i < |outs| && outs[i].Slot() == slot && e.out == outs[i]
                          && if outs[i].StoredBaby? then e.stage == Crib && e.due == Some(outs[i].baby.expiry)
                             else e.stage == Preschool && e.due == None
    decreases |outs|
  {
    if outs != [] {
      var init, last := outs[..|outs| - 1], outs[|outs| - 1];
      BatchKeeps(l, init, slot);
      if slot !in l.entries && slot in EnrollAll(l, outs).entries {
        if slot in EnrollAll(l, init).entries {
          var e := EnrollAll(l, init).entries[slot];
          var i :| 0 <= i < |init| && init[i].Slot() == slot && e.out == init[i]
                   && if init[i].StoredBaby? then e.stage == Crib && e.due == Some(init[i].baby.expiry)
                      else e.stage == Preschool && e.due == None;
          assert outs[i] == init[i];
        } else {
          assert outs[|outs| - 1] == last;
        }
      }
    }
  }

  lemma BatchKeepsLocks(l: Ledger, outs: seq<Stored>)
    requires Locked(l)
    ensures Locked(EnrollAll(l, outs))
  {
    forall slot | slot in EnrollAll(l, outs).entries
      ensures KeepsLock(EnrollAll(l, outs).entries[slot])
    {
      BatchKeeps(l, outs, slot);
    }
  }

  /** After an incubation every kid in it is in preschool and every baby in the crib. */
  lemma IncubateArrives(l: Ledger, kids: seq<Kid>, babies: seq<Baby>)
    requires Called(l, Incubate(kids, babies))
    ensures var r := Apply(l, Incubate(kids, babies));
            && (forall i :: 0 <= i < |kids| ==> SlotOf(kids[i]) in r.entries && r.entries[SlotOf(kids[i])].stage == Preschool)
            && (forall i :: 0 <= i < |babies| ==>
                  SlotOf(babies[i].kid) in r.entries && r.entries[SlotOf(babies[i].kid)].stage == Crib)
  {
    var m := EnrollAll(l, KidOutputs(kids));
    forall i | 0 <= i < |kids|
      ensures var r := Apply(l, Incubate(kids, babies));
              SlotOf(kids[i]) in r.entries && r.entries[SlotOf(kids[i])].stage == Preschool
    {
      BatchArrives(l, KidOutputs(kids), i);
      BatchKeeps(m, BabyOutputs(babies), KidOutputs(kids)[i].Slot());
    }
    forall i | 0 <= i < |babies|
      ensures var r := Apply(l, Incubate(kids, babies));
              SlotOf(babies[i].kid) in r.entries && r.entries[SlotOf(babies[i].kid)].stage == Crib
    {
      BatchArrives(m, BabyOutputs(babies), i);
      assert BabyOutputs(babies)[i] == StoredBaby(babies[i]);
    }
  }

  lemma ApplyKeepsLocks(l: Ledger, op: Op)
    requires OnTime(l, op) && Locked(l)
    ensures Locked(Apply(l, op))
  {
    if op.Incubate? {
      BatchKeepsLocks(l, KidOutputs(op.kids));
      BatchKeepsLocks(EnrollAll(l, KidOutputs(op.kids)), BabyOutputs(op.babies));
    } else {
      var r := Apply(l, op);
      forall slot | slot in r.entries
        ensures KeepsLock(r.entries[slot])
      {
        OnlyTheNamedMove(l, op, slot);
        if op.CribToKinder? {
          CribDue(l, op.baby);
        } else if op.PreschoolToKinder? {
          PreschoolDue(l, op.kid);
        }
      }
    }
  }

  lemma {:induction false} RunKeepsLocks(l: Ledger, ops: seq<Op>)
    requires Locked(l) && AllOnTime(l, ops)
    ensures Locked(Run(l, ops))
    decreases |ops|
  {
    if ops != [] {
      var init := ops[..|ops| - 1];
      assert forall i :: 0 <= i < |init| ==> init[..i] == ops[..i];
      RunKeepsLocks(l, init);
      ApplyKeepsLocks(Run(l, init), ops[|ops| - 1]);
    }
  }

  /**
   In every run whose heights fit, no kindergarten output is ever due before its
   lock expires, so the class that graduates at a height has expired by then.
   */
  lemma NothingIsSweptEarly(ops: seq<Op>, height: uint32, slot: Slot)
    requires AllCalled(Fresh, ops) && AllOnTime(Fresh, ops)
    requires slot in Class(Run(Fresh, ops).entries, Kinder, Some(height))
    ensures var e := Run(Fresh, ops).entries[slot]; e.out.StoredKid? && Lock(e.out.kid) <= height
  {
    RunKeepsLocks(Fresh, ops);
    RunWellFormed(Fresh, ops);
    var l := Run(Fresh, ops);
    assert WellFormedEntry(slot, l.entries[slot]);
    assert KeepsLock(l.entries[slot]);
  }

  /** The sweep transactions an operation writes and deletes; another height's survives while it is in use. */
  lemma SweepAfter(l: Ledger, op: Op, height: uint32)
    requires WellFormed(l) && Called(l, op)
    ensures var r := Apply(l, op);
            && (op.FinalizeKinder? && op.height == height && op.sweep.Some? && Occupied(l.entries, height) ==>
                  height in r.sweeps && r.sweeps[height] == op.sweep.value)
            && (op.GraduateKinder? && op.height == height ==> height !in r.sweeps)
            && (height in r.sweeps && !(op.FinalizeKinder? && op.height == height) ==>
                  height in l.sweeps && r.sweeps[height] == l.sweeps[height])
  {
    if op.Incubate? {
      EnrolledEntries(l, KidOutputs(op.kids));
      EnrolledEntries(EnrollAll(l, KidOutputs(op.kids)), BabyOutputs(op.babies));
    }
  }

  /** The two heights the store remembers are those it was last told. */
  lemma HeightsAfter(l: Ledger, op: Op)
    requires !op.Incubate?
    ensures var r := Apply(l, op);
            && r.lastGraduated == (if op.GraduateHeight? then op.height else l.lastGraduated)
            && r.lastFinalized == (if op.FinalizeKinder? then op.height else l.lastFinalized)
  {
  }
}
