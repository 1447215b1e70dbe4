/**
 The nursery store seen as one plain map: every incubating output, its stage
 and the height at which it is due. `NurseryIndex` shows that the two on-disk
 indexes are an implementation of it.
 */
module NurseryLedger {
  import opened Primitives

  datatype Stage = Crib | Preschool | Kinder | Grad

  /** An output waiting out a relative or absolute time lock. */
  datatype Kid = Kid(outpoint: OutPoint, chanPoint: OutPoint, amount: int,
                     blocksToMaturity: uint32, absoluteMaturity: uint32, confHeight: uint32)

  /** A two-stage HTLC output; `kid` is what its timeout transaction creates. */
  datatype Baby = Baby(expiry: uint32, timeoutTx: Tx, kid: Kid)

  /** The value stored in a channel bucket under a stage-prefixed outpoint. */
  datatype Stored = StoredBaby(baby: Baby) | StoredKid(kid: Kid) {
    function Slot(): Slot {
      match this
      case StoredBaby(baby) => SlotOf(baby.kid)
      case StoredKid(kid) => SlotOf(kid)
    }

    function Expiry(): uint32 {
      if StoredBaby? then baby.expiry else 0
    }
  }

  datatype Slot = Slot(chanPoint: OutPoint, outpoint: OutPoint)

  function SlotOf(kid: Kid): Slot {
    Slot(kid.chanPoint, kid.outpoint)
  }

  datatype Entry = Entry(stage: Stage, out: Stored, due: Option<uint32>)

  type Entries = map<Slot, Entry>

  datatype Ledger = Ledger(entries: Entries, sweeps: map<uint32, Tx>,
                           lastGraduated: uint32, lastFinalized: uint32)

  const Fresh := Ledger(map[], map[], 0, 0)

  // ---- Well-formedness ----

  /** A stage determines the stored type, and whether the output is due at a height. */
  ghost predicate WellFormedEntry(slot: Slot, e: Entry) {
    && e.out.Slot() == slot
    && match e.stage {
         case Crib => e.out.StoredBaby? && e.due == Some(e.out.baby.expiry)
         case Kinder => e.out.StoredKid? && e.due.Some?
         case Preschool => e.out.StoredKid? && e.due.None?
         case Grad => e.out.StoredKid? && e.due.None?
       }
  }

  ghost predicate DueAt(entries: Entries, slot: Slot, height: uint32) {
    slot in entries && entries[slot].due == Some(height)
  }

  /** Some output is due at `height`. */
  ghost predicate Occupied(entries: Entries, height: uint32) {
    exists slot :: DueAt(entries, slot, height)
  }

  ghost predicate WellFormed(l: Ledger) {
    && (forall slot :: slot in l.entries ==> WellFormedEntry(slot, l.entries[slot]))
    && (forall height :: height in l.sweeps ==> Occupied(l.entries, height))
  }

  // ---- Operations ----

  /** The sweep transactions that survive pruning of the heights nothing is due at. */
  ghost function OccupiedSweeps(sweeps: map<uint32, Tx>, entries: Entries): (r: map<uint32, Tx>) {
    map height | height in sweeps && Occupied(entries, height) :: sweeps[height]
  }

  function CribMaturity(baby: Baby): uint32 {
    Add32(baby.kid.confHeight, baby.kid.blocksToMaturity)
  }

  /** A kid destined for an already graduated class is moved to the next height. */
  function PreschoolMaturity(kid: Kid, lastGraduated: uint32): uint32 {
    var height := if kid.blocksToMaturity == 0 then kid.absoluteMaturity
                  else Add32(kid.confHeight, kid.blocksToMaturity);
    if height <= lastGraduated then Add32(lastGraduated, 1) else height
  }

  /** The entry written for `out` when it enters the nursery. */
  function Arrival(out: Stored): Entry {
    match out
    case StoredBaby(baby) => Entry(Crib, out, Some(baby.expiry))
    case StoredKid(_) => Entry(Preschool, out, None)
  }

  ghost function Enroll(l: Ledger, out: Stored): Ledger {
    if out.Slot() in l.entries then l
    else l.(entries := l.entries[out.Slot() := Arrival(out)])
  }

  ghost function EnrollAll(l: Ledger, outs: seq<Stored>): Ledger
    decreases |outs|
  {
    if outs == [] then l
    else Enroll(EnrollAll(l, outs[..|outs| - 1]), outs[|outs| - 1])
  }

  /**
   Gives `slot` the entry `e`. If it was in stage `from` it is first taken off
   its height, and heights left with nothing due lose their sweep transaction.
   */
  ghost function Restage(l: Ledger, slot: Slot, from: Stage, e: Entry): Ledger {
    l.(entries := l.entries[slot := e], sweeps := OccupiedSweeps(l.sweeps, Rest(l.entries, slot, from)))
  }

  /** The entries without `slot`, if it is in stage `from`. */
  ghost function Rest(entries: Entries, slot: Slot, from: Stage): Entries {
    if slot in entries && entries[slot].stage == from then entries - {slot} else entries
  }

  ghost function CribToKinder(l: Ledger, baby: Baby): Ledger {
    Restage(l, SlotOf(baby.kid), Crib, Entry(Kinder, StoredKid(baby.kid), Some(CribMaturity(baby))))
  }

  ghost function PreschoolToKinder(l: Ledger, kid: Kid): Ledger {
    Restage(l, SlotOf(kid), Preschool,
            Entry(Kinder, StoredKid(kid), Some(PreschoolMaturity(kid, l.lastGraduated))))
  }

  /** The outputs in `stage` that are due at `due`. */
  ghost function Class(entries: Entries, stage: Stage, due: Option<uint32>): set<Slot> {
    set slot | slot in entries && entries[slot].stage == stage && entries[slot].due == due
  }

  ghost function Graduated(entries: Entries, slots: set<Slot>): Entries {
    map slot | slot in entries ::
      if slot in slots then Entry(Grad, entries[slot].out, None) else entries[slot]
  }

  ghost function GraduateKinder(l: Ledger, height: uint32): Ledger {
    l.(entries := Graduated(l.entries, Class(l.entries, Kinder, Some(height))), sweeps := l.sweeps - {height})
  }

  ghost function FinalizeKinder(l: Ledger, height: uint32, tx: Option<Tx>): Ledger {
    l.(lastFinalized := height,
       sweeps := if tx.Some? && Occupied(l.entries, height) then l.sweeps[height := tx.value]
                 else l.sweeps)
  }

  ghost function GraduateHeight(l: Ledger, height: uint32): Ledger {
    l.(lastGraduated := height)
  }

  ghost predicate Tracked(entries: Entries, chanPoint: OutPoint) {
    exists slot :: slot in entries && slot.chanPoint == chanPoint
  }

  /** Every output of the channel has graduated. */
  ghost predicate Mature(entries: Entries, chanPoint: OutPoint) {
    forall slot :: slot in entries && slot.chanPoint == chanPoint ==> entries[slot].stage == Grad
  }

  ghost function WithoutChannel(l: Ledger, chanPoint: OutPoint): Ledger {
    l.(entries := map slot | slot in l.entries && slot.chanPoint != chanPoint :: l.entries[slot])
  }
}
