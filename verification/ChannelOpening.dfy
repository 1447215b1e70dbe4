/**
 Opening one channel after its funding transaction is broadcast, with the
 persisted state that survives crashes and the worker that restarts resume.
 The lemmas hold for every run with crashes and failures at any step.
 */
module ChannelOpening {
  import opened Primitives
  import opened OpeningRecords

  /** Where the worker goroutine is. */
  datatype Pc =
    | MarkOpen | SaveOpen
    | SendLocked | SaveLocked
    | SendChanAnn | SendChanUpdate | SaveGraph
    | Announce | Delete

  datatype Worker =
    | Down                              // the node is not running
    | Idle                              // running, no worker for this channel
    | Awaiting                          // waiting for the funding confirmation
    | At(pc: Pc, id: ShortChannelId)

  /** `Announced` goes to the network, or only to the peer if the channel is private. */
  datatype Event =
    | Locked(confs: nat)
    | ChanAnn(id: ShortChannelId)
    | ChanUpdate(id: ShortChannelId)
    | Announced(id: ShortChannelId, confs: nat)

  /**
   `marked` is the id the channel database was given, absent while the channel is
   pending. `record` is the opening record. `log` and `done` record what left the
   node and whether the record was deleted.
   */
  datatype State = State(required: nat, public: bool, confs: nat,
                         marked: Option<ShortChannelId>, record: Option<Record>, worker: Worker,
                         log: seq<Event>, done: bool)

  datatype Step =
    | Block
    | Confirm(id: ShortChannelId)
    | Work
    | Fail       // an error return ends the worker
    | Crash
    | Start

  function Fresh(required: nat, public: bool): State {
    State(required, public, 0, None, None, Awaiting, [], false)
  }

  /** Public channels are announced after six confirmations, or more if more were required to open. */
  function AnnounceDepth(required: nat): nat {
    if required < 6 then 6 else required
  }

  predicate Enabled(s: State, step: Step) {
    match step
    case Block => true
    case Confirm(_) => s.worker.Awaiting? && s.confs >= s.required
    case Work => s.worker.At? && (s.worker.pc.Announce? && s.public ==> s.confs >= AnnounceDepth(s.required))
    case Fail => s.worker.Awaiting? || s.worker.At?
    case Crash => !s.worker.Down?
    case Start => s.worker.Down?
  }

  /** What a restarting node does about this channel. */
  function Resume(marked: Option<ShortChannelId>, record: Option<Record>): Worker {
    if marked.None? then Awaiting
    else match record
      case None => Idle
      case Some(Record(MarkedOpen, id)) => At(SendLocked, id)
      case Some(Record(FundingLockedSent, id)) => At(SendChanAnn, id)
      case Some(Record(AddedToRouterGraph, id)) => At(Announce, id)
  }

  function NextPc(pc: Pc): Pc
    requires !pc.Delete?
  {
    match pc
    case MarkOpen => SaveOpen
    case SaveOpen => SendLocked
    case SendLocked => SaveLocked
    case SaveLocked => SendChanAnn
    case SendChanAnn => SendChanUpdate
    case SendChanUpdate => SaveGraph
    case SaveGraph => Announce
    case Announce => Delete
  }

  function Saved(pc: Pc, id: ShortChannelId, record: Option<Record>): Option<Record> {
    match pc
    case SaveOpen => Some(Record(MarkedOpen, Stored(id)))
    case SaveLocked => Some(Record(FundingLockedSent, Stored(id)))
    case SaveGraph => Some(Record(AddedToRouterGraph, Stored(id)))
    case Delete => None
    case _ => record
  }

  function SentBy(pc: Pc, id: ShortChannelId, confs: nat): seq<Event> {
    match pc
    case SendLocked => [Locked(confs)]
    case SendChanAnn => [ChanAnn(id)]
    case SendChanUpdate => [ChanUpdate(id)]
    case Announce => [Announced(id, confs)]
    case _ => []
  }

  function Next(s: State, step: Step): State
    requires Enabled(s, step)
  {
    match step
    case Block => s.(confs := s.confs + 1)
    case Confirm(id) => s.(worker := At(MarkOpen, id))
    case Work =>
      var At(pc, id) := s.worker;
      s.(marked := if pc.MarkOpen? then Some(id) else s.marked,
         record := Saved(pc, id, s.record),
         log := s.log + SentBy(pc, id, s.confs),
         done := s.done || pc.Delete?,
         worker := if pc.Delete? then Idle else At(NextPc(pc), id))
    case Fail => s.(worker := Idle)
    case Crash => s.(worker := Down)
    case Start => s.(worker := Resume(s.marked, s.record))
  }

  function Run(s: State, steps: seq<Step>): State
    decreases |steps|
  {
    if steps == [] then s
    else Run(if Enabled(s, steps[0]) then Next(s, steps[0]) else s, steps[1..])
  }

  // ---- What every run keeps ----

  predicate Holds(log: seq<Event>, k: nat) {
    match k
    case 0 => exists i :: 0 <= i < |log| && log[i].Locked?
    case 1 => exists i :: 0 <= i < |log| && log[i].ChanAnn?
    case 2 => exists i :: 0 <= i < |log| && log[i].ChanUpdate?
    case _ => exists i :: 0 <= i < |log| && log[i].Announced?
  }

  function Place(e: Event): nat {
    match e
    case Locked(_) => 0
    case ChanAnn(_) => 1
    case ChanUpdate(_) => 2
    case Announced(_, _) => 3
  }

  /**
   Funding locked, not before the channel's own depth, then the graph, then the
   announcement, which for a public channel waits for six confirmations too.
   */
  ghost predicate Ordered(log: seq<Event>, public: bool, required: nat) {
    forall i :: 0 <= i < |log| ==>
      && (forall k: nat :: k < Place(log[i]) ==> Holds(log[..i], k))
      && (log[i].Locked? || log[i].Announced? ==> log[i].confs >= required)
      && (log[i].Announced? && public ==> log[i].confs >= 6)
  }

  /** How many kinds of event have certainly been sent when the record is in this state. */
  function SentAt(o: Opening): nat {
    match o
    case MarkedOpen => 0
    case FundingLockedSent => 1
    case AddedToRouterGraph => 3
  }

  /** The same for a worker that has reached `pc`. */
  function SentBefore(pc: Pc): nat {
    match pc
    case MarkOpen => 0 case SaveOpen => 0 case SendLocked => 0
    case SaveLocked => 1 case SendChanAnn => 1
    case SendChanUpdate => 2
    case SaveGraph => 3 case Announce => 3
    case Delete => 4
  }

  ghost predicate AllSent(log: seq<Event>, n: nat) {
    forall k: nat :: k < n ==> Holds(log, k)
  }

  /** The record a worker at `pc` finds. */
  predicate RecordFits(pc: Pc, record: Option<Record>) {
    match pc
    case MarkOpen => record.None?
    case SaveOpen => record.None?
    case SendLocked => record.Some? && record.value.state.MarkedOpen?
    case SaveLocked => record.Some? && record.value.state.MarkedOpen?
    case Announce => record.Some? && record.value.state.AddedToRouterGraph?
    case Delete => record.Some? && record.value.state.AddedToRouterGraph?
    case _ => record.Some? && record.value.state.FundingLockedSent?
  }

  ghost predicate PersistedFits(s: State) {
    && (s.marked.None? ==> s.record.None? && s.log == [] && !s.done)
    && (s.record.Some? ==> !s.done && s.record.value.id == Stored(s.marked.value)
                           && AllSent(s.log, SentAt(s.record.value.state)))
    && (s.marked.Some? && s.record.None? && !s.done ==> s.log == [])
    && (s.done ==> AllSent(s.log, 4))
  }

  ghost predicate WorkerFits(s: State) {
    && (s.marked.Some? || s.worker.At? ==> s.confs >= s.required)
    && (s.worker.Awaiting? ==> s.marked.None?)
    && (s.worker.At? ==>
          && !s.done
          && RecordFits(s.worker.pc, s.record)
          && AllSent(s.log, SentBefore(s.worker.pc))
          && (s.worker.pc.MarkOpen? <==> s.marked.None?)
          && (s.marked.Some? ==> s.worker.id == s.marked.value || s.worker.id == Stored(s.marked.value)))
  }

  /** Every message about the channel carries its id as confirmed or as stored. */
  ghost predicate IdsFit(s: State) {
    forall i :: 0 <= i < |s.log| && !s.log[i].Locked? ==>
      s.marked.Some? && (s.log[i].id == s.marked.value || s.log[i].id == Stored(s.marked.value))
  }

  ghost predicate Inv(s: State) {
    PersistedFits(s) && WorkerFits(s) && IdsFit(s) && Ordered(s.log, s.public, s.required)
  }

  lemma HoldsMore(log: seq<Event>, more: seq<Event>, k: nat)
    requires Holds(log, k)
    ensures Holds(log + more, k)
  {
    var i :| 0 <= i < |log| && (k == 0 ==> log[i].Locked?) && (k == 1 ==> log[i].ChanAnn?)
             && (k == 2 ==> log[i].ChanUpdate?) && (k > 2 ==> log[i].Announced?);
    assert (log + more)[i] == log[i];
  }

  lemma AllSentMore(log: seq<Event>, more: seq<Event>, n: nat)
    requires AllSent(log, n)
    ensures AllSent(log + more, n)
  {
    forall k: nat | k < n ensures Holds(log + more, k) {
      HoldsMore(log, more, k);
    }
  }

  /** A worker's message is one more kind that has certainly been sent. */
  lemma WorkSends(log: seq<Event>, pc: Pc, id: ShortChannelId, confs: nat)
    requires AllSent(log, SentBefore(pc)) && !pc.Delete?
    ensures AllSent(log + SentBy(pc, id, confs), SentBefore(NextPc(pc)))
  {
    var more := SentBy(pc, id, confs);
    AllSentMore(log, more, SentBefore(pc));
    if more != [] {
      assert (log + more)[|log|] == more[0];
      assert Holds(log + more, Place(more[0]));
    }
  }

  lemma WorkKeepsOrder(log: seq<Event>, public: bool, required: nat, pc: Pc, id: ShortChannelId, confs: nat)
    requires Ordered(log, public, required) && AllSent(log, SentBefore(pc)) && confs >= required
    requires pc.Announce? && public ==> confs >= AnnounceDepth(required)
    ensures Ordered(log + SentBy(pc, id, confs), public, required)
  {
    var more := SentBy(pc, id, confs);
    forall i | 0 <= i < |log + more|
      ensures forall k: nat :: k < Place((log + more)[i]) ==> Holds((log + more)[..i], k)
      ensures (log + more)[i].Locked? || (log + more)[i].Announced? ==> (log + more)[i].confs >= required
      ensures (log + more)[i].Announced? && public ==> (log + more)[i].confs >= 6
    {
      if i < |log| {
        assert (log + more)[..i] == log[..i] && (log + more)[i] == log[i];
      } else {
        assert (log + more)[..i] == log;
      }
    }
  }

  lemma StepKeepsPersisted(s: State, step: Step)
    requires Inv(s) && Enabled(s, step)
    ensures PersistedFits(Next(s, step))
  {
    if step.Work? {
      var At(pc, id) := s.worker;
      StoredTwice(s.marked, id);
      if pc.Delete? {
        AllSentMore(s.log, [], 4);
      } else {
        WorkSends(s.log, pc, id, s.confs);
      }
      if s.record.Some? {
        AllSentMore(s.log, SentBy(pc, id, s.confs), SentAt(s.record.value.state));
      }
    }
  }

  lemma StoredTwice(marked: Option<ShortChannelId>, id: ShortChannelId)
    requires marked.Some? ==> id == marked.value || id == Stored(marked.value)
    ensures marked.Some? ==> Stored(id) == Stored(marked.value)
  {
    if marked.Some? {
      CompactIdStable(ToUint64(marked.value));
    }
  }

  lemma StepKeepsWorker(s: State, step: Step)
    requires Inv(s) && Enabled(s, step)
    ensures WorkerFits(Next(s, step))
  {
    if step.Work? && !s.worker.pc.Delete? {
      WorkSends(s.log, s.worker.pc, s.worker.id, s.confs);
    }
  }

  lemma StepKeepsIds(s: State, step: Step)
    requires Inv(s) && Enabled(s, step)
    ensures IdsFit(Next(s, step))
  {
  }

  lemma StepKeepsInv(s: State, step: Step)
    requires Inv(s) && Enabled(s, step)
    ensures Inv(Next(s, step))
  {
    StepKeepsPersisted(s, step);
    StepKeepsWorker(s, step);
    StepKeepsIds(s, step);
    if step.Work? {
      WorkKeepsOrder(s.log, s.public, s.required, s.worker.pc, s.worker.id, s.confs);
    }
  }

  // ---- The persisted state never goes back ----

  /** How far the persisted state has come, from pending to announced. */
  function Rank(s: State): nat {
    if s.done then 5
    else if s.marked.None? then 0
    else match s.record
      case None => 1
      case Some(Record(MarkedOpen, _)) => 2
      case Some(Record(FundingLockedSent, _)) => 3
      case Some(Record(AddedToRouterGraph, _)) => 4
  }

  lemma RankAdvances(s: State, step: Step)
    requires Inv(s) && Enabled(s, step)
    ensures Rank(s) <= Rank(Next(s, step)) <= Rank(s) + 1
  {
  }

  lemma {:induction false} RunKeepsInv(s: State, steps: seq<Step>)
    requires Inv(s)
    ensures Inv(Run(s, steps)) && Rank(s) <= Rank(Run(s, steps))
    ensures Run(s, steps).required == s.required && Run(s, steps).public == s.public
    decreases |steps|
  {
    if steps != [] {
      if Enabled(s, steps[0]) {
        StepKeepsInv(s, steps[0]);
        RankAdvances(s, steps[0]);
        RunKeepsInv(Next(s, steps[0]), steps[1..]);
      } else {
        RunKeepsInv(s, steps[1..]);
      }
    }
  }

  /**
   In every run, with crashes and failures anywhere: events leave in order,
   a public announcement waits for its depth, and the record is deleted only after all four.
   */
  lemma OpeningIsOrdered(required: nat, public: bool, steps: seq<Step>)
    ensures var s := Run(Fresh(required, public), steps);
            Ordered(s.log, public, required) && (s.done ==> AllSent(s.log, 4))
  {
    RunKeepsInv(Fresh(required, public), steps);
  }

  /**
   In plain numbers: in every run funding locked is never sent before the required
   depth, and a public channel is never announced before that depth or before six
   confirmations.
   */
  lemma DepthIsAwaited(required: nat, public: bool, steps: seq<Step>, i: nat)
    requires i < |Run(Fresh(required, public), steps).log|
    ensures var e := Run(Fresh(required, public), steps).log[i];
            && (e.Locked? ==> e.confs >= required)
            && (e.Announced? ==> e.confs >= required && (public ==> e.confs >= 6))
  {
    OpeningIsOrdered(required, public, steps);
  }

  /** An announcement can be made as soon as both depths are reached, and a private one at once. */
  lemma AnnounceIff(s: State)
    requires s.worker.At? && s.worker.pc.Announce?
    ensures Enabled(s, Work) <==> !s.public || (s.confs >= 6 && s.confs >= s.required)
  {
  }

  /** After the channel is open every message carries the confirmed id, provided the record can hold it. */
  lemma OneChannelId(required: nat, public: bool, steps: seq<Step>, i: nat)
    requires i < |Run(Fresh(required, public), steps).log|
    ensures var s := Run(Fresh(required, public), steps);
            !s.log[i].Locked? ==> s.marked.Some? && (Fits(s.marked.value) ==> s.log[i].id == s.marked.value)
  {
    RunKeepsInv(Fresh(required, public), steps);
    var s := Run(Fresh(required, public), steps);
    if !s.log[i].Locked? {
      CompactIdIff(s.marked.value);
    }
  }

  // ---- Recovery ----

  /** Open in the database, without an opening record and with nobody about to write one. */
  predicate Lost(s: State) {
    s.marked.Some? && s.record.None? && !s.done && !(s.worker.At? && s.worker.pc.SaveOpen?)
  }

  /** A channel is lost only by stopping between the two writes that open it. */
  lemma LossIsTheGap(s: State, step: Step)
    requires Inv(s) && Enabled(s, step)
    ensures !Lost(s) && Lost(Next(s, step))
            <==> s.worker.At? && s.worker.pc.SaveOpen? && (step.Crash? || step.Fail?)
  {
  }

  /** A lost channel stays lost: funding locked is never sent. */
  lemma {:induction false} LostForever(s: State, steps: seq<Step>)
    requires Inv(s) && Lost(s)
    ensures Lost(Run(s, steps)) && Run(s, steps).log == []
    decreases |steps|
  {
    if steps != [] {
      if Enabled(s, steps[0]) {
        StepKeepsInv(s, steps[0]);
        LostForever(Next(s, steps[0]), steps[1..]);
      } else {
        LostForever(s, steps[1..]);
      }
    }
  }

  function Left(w: Worker): nat {
    match w
    case Awaiting => 10
    case At(MarkOpen, _) => 9
    case At(SaveOpen, _) => 8
    case At(SendLocked, _) => 7
    case At(SaveLocked, _) => 6
    case At(SendChanAnn, _) => 5
    case At(SendChanUpdate, _) => 4
    case At(SaveGraph, _) => 3
    case At(Announce, _) => 2
    case At(Delete, _) => 1
    case _ => 0
  }

  function Missing(s: State): nat {
    var depth := AnnounceDepth(s.required);
    if s.confs < depth then depth - s.confs else 0
  }

  /** A running worker needs only blocks to finish. */
  lemma {:induction false} WorkerFinishes(s: State, id: ShortChannelId) returns (steps: seq<Step>)
    requires Inv(s) && (s.worker.At? || s.worker.Awaiting?)
    ensures Run(s, steps).done
    decreases Left(s.worker), Missing(s)
  {
    var step := if Missing(s) > 0 then Block else if s.worker.Awaiting? then Confirm(id) else Work;
    var r := Next(s, step);
    StepKeepsInv(s, step);
    if r.done {
      steps := [step];
      assert Run(r, []) == r;
    } else {
      var rest := WorkerFinishes(r, id);
      steps := [step] + rest;
      assert steps[1..] == rest;
    }
  }

  /** The steps neither fail nor crash, and each can be taken when its turn comes. */
  predicate Undisturbed(s: State, steps: seq<Step>)
    decreases |steps|
  {
    steps == [] ||
    (Enabled(s, steps[0]) && (steps[0].Block? || steps[0].Confirm? || steps[0].Work?)
     && Undisturbed(Next(s, steps[0]), steps[1..]))
  }

  /** How many of the steps are the worker's. */
  function Taken(steps: seq<Step>): nat
    decreases |steps|
  {
    if steps == [] then 0 else (if steps[0].Block? then 0 else 1) + Taken(steps[1..])
  }

  /**
   However blocks and the worker's steps alternate, an undisturbed worker takes at
   most `Left` steps; until it is done it can take one as soon as the chain is
   deep enough, and it stops only when it is done.
   */
  lemma {:induction false} UndisturbedFinishes(s: State, steps: seq<Step>, id: ShortChannelId)
    requires Inv(s) && (s.worker.At? || s.worker.Awaiting?) && Undisturbed(s, steps)
    ensures var r := Run(s, steps);
            && Taken(steps) + Left(r.worker) == Left(s.worker)
            && (r.done <==> Left(r.worker) == 0)
            && (!r.done && Missing(r) == 0 ==> Enabled(r, if r.worker.Awaiting? then Confirm(id) else Work))
    decreases |steps|
  {
    if steps != [] {
      var m := Next(s, steps[0]);
      StepKeepsInv(s, steps[0]);
      if m.done {
        NothingAfterDone(m, steps[1..]);
      } else {
        UndisturbedFinishes(m, steps[1..], id);
      }
    }
  }

  lemma {:induction false} NothingAfterDone(s: State, steps: seq<Step>)
    requires s.done && s.worker.Idle? && Undisturbed(s, steps)
    ensures Taken(steps) == 0 && Run(s, steps).done && Run(s, steps).worker.Idle?
    decreases |steps|
  {
    if steps != [] {
      NothingAfterDone(Next(s, steps[0]), steps[1..]);
    }
  }

  lemma RunStep(s: State, step: Step, rest: seq<Step>)
    requires Enabled(s, step)
    ensures Run(s, [step] + rest) == Run(Next(s, step), rest)
  {
    assert ([step] + rest)[1..] == rest;
  }

  /** A stopped channel that is neither finished nor lost can be restarted and run to the end. */
  lemma RestartFinishes(s: State, id: ShortChannelId) returns (steps: seq<Step>)
    requires Inv(s) && s.worker.Down? && !s.done && !Lost(s)
    ensures Run(s, steps).done
  {
    var r := Next(s, Start);
    StepKeepsInv(s, Start);
    var rest := WorkerFinishes(r, id);
    steps := [Start] + rest;
    RunStep(s, Start, rest);
  }

  lemma Recovers(s: State, id: ShortChannelId) returns (steps: seq<Step>)
    requires Inv(s) && !Lost(s)
    ensures Run(s, steps).done
  {
    if s.done {
      steps := [];
    } else if s.worker.At? || s.worker.Awaiting? {
      steps := WorkerFinishes(s, id);
    } else if s.worker.Down? {
      steps := RestartFinishes(s, id);
    } else {
      StepKeepsInv(s, Crash);
      var rest := RestartFinishes(Next(s, Crash), id);
      steps := [Crash] + rest;
      RunStep(s, Crash, rest);
    }
  }

  /**
   In every reachable state the opening can still be completed, exactly when the
   channel was not stopped between being marked open and having its record saved.
   */
  lemma RecoverableIff(required: nat, public: bool, before: seq<Step>, id: ShortChannelId)
    ensures var s := Run(Fresh(required, public), before);
            (exists steps :: Run(s, steps).done) <==> !Lost(s)
  {
    RunKeepsInv(Fresh(required, public), before);
    var s := Run(Fresh(required, public), before);
    if Lost(s) {
      forall steps ensures !Run(s, steps).done {
        LostForever(s, steps);
      }
    } else {
      var steps := Recovers(s, id);
      assert Run(s, steps).done;
    }
  }
}
