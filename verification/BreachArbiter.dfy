/**
 The breach arbiter as a crash-recoverable protocol. Goroutines take one
 database transaction or external action per step, in any interleaving; a crash
 may come between any two steps and loses everything but the database.
 */
module BreachArbiter {
  import opened Primitives
  import opened RetributionCodec
  import opened Justice

  /**
   Where a goroutine is. The first three handle a breach event that they do not
   own; the others own the retribution of their channel.
   */
  datatype Pc =
    | New(ret: Retribution)     // breach event received
    | Failed                    // could not be stored; will answer with an error
    | Duplicate                 // found in the store; will acknowledge
    | Stored                    // stored; will acknowledge
    | Acked                     // acknowledged; will register for the breach confirmation
    | AwaitBreach               // exactRetribution starts here
    | Load
    | Build
    | Ready(tx: JusticeTx)      // recorded; will publish
    | WatchSpends
    | AwaitJustice(tx: JusticeTx)
    | MarkClosed
    | Remove

  datatype Thread = Thread(chan: OutPoint, pc: Pc)

  /** What the channel database knows about a closed channel. */
  datatype Summary = Summary(chan: OutPoint, isPending: bool)

  /**
   The arbiter's own life cycle. Start reads the store (`found`), then the closed
   channels (`todo`), drops what is fully closed from the store and from its own
   copy (`infos`), and resumes what is left.
   */
  datatype Phase =
    | Down
    | Reading(found: set<OutPoint>)
    | Reconciling(found: set<OutPoint>, infos: set<OutPoint>, todo: set<Summary>)
    | Spawning(left: set<OutPoint>)
    | Running

  /**
   The first three fields are on disk. `acked` records the acknowledged breaches,
   `loaded` what Start last read from the store and `spawned` the retribution
   goroutines started since the last boot.
   */
  datatype State = State(store: map<OutPoint, Retribution>, justice: map<OutPoint, JusticeTx>,
                         closed: set<OutPoint>,
                         phase: Phase, threads: map<nat, Thread>,
                         acked: set<OutPoint>, spawned: multiset<OutPoint>, loaded: set<OutPoint>)

  const Fresh := State(map[], map[], {}, Down, map[], {}, multiset{}, {})

  /** How an external action or transaction ends. */
  datatype Outcome = Ok | Fail | Conflict | Signed(tx: JusticeTx)

  datatype Event =
    | Breach(t: nat, chan: OutPoint, ret: Retribution)
    | Advance(t: nat, outcome: Outcome)
    | Crash
    | Boot
    | ReadClosed(summaries: set<Summary>)
    | Visit(summary: Summary)
    | StartSpawning
    | Spawn(t: nat, chan: OutPoint)
    | Started

  /** Where a goroutine goes next; `None` is its end. */
  function NextPc(s: State, th: Thread, o: Outcome): Option<Pc> {
    match th.pc
    case New(ret) => Some(if th.chan in s.store then Duplicate else if o.Fail? then Failed else Stored)
    case Failed => None
    case Duplicate => None
    case Stored => Some(Acked)
    case Acked => if o.Fail? then None else Some(AwaitBreach)
    case AwaitBreach => if o.Fail? then None else Some(Load)
    case Load =>
      if o.Fail? then None else Some(if th.chan in s.justice then Ready(s.justice[th.chan]) else Build)
    case Build => if o.Signed? then Some(Ready(o.tx)) else None
    case Ready(tx) => Some(if o.Conflict? then WatchSpends else AwaitJustice(tx))
    case WatchSpends => if o.Fail? then None else Some(Build)
    case AwaitJustice(tx) => if o.Fail? then None else Some(MarkClosed)
    case MarkClosed => if o.Fail? then None else Some(Remove)
    case Remove => None
  }

  /** What its step records, on disk and towards the sender of the breach event. */
  function Recorded(s: State, th: Thread, o: Outcome): State {
    var c := th.chan;
    match th.pc
    case New(ret) => if c !in s.store && !o.Fail? then s.(store := s.store[c := ret]) else s
    case Duplicate => s.(acked := s.acked + {c})
    case Stored => s.(acked := s.acked + {c})
    case Acked => if o.Fail? then s else s.(spawned := s.spawned + multiset{c})
    case Build => if o.Signed? then s.(justice := s.justice[c := o.tx]) else s
    case MarkClosed => if o.Fail? then s else s.(closed := s.closed + {c})
    case Remove => if o.Fail? then s else s.(store := s.store - {c}, justice := s.justice - {c})
    case _ => s
  }

  /** One step of goroutine `t`. */
  function Step(s: State, t: nat, o: Outcome): (r: State)
    requires t in s.threads
  {
    var th := s.threads[t];
    var next := NextPc(s, th, o);
    Recorded(s, th, o).(threads := if next.None? then s.threads - {t} else s.threads[t := th.(pc := next.value)])
  }

  function FullyClosed(summaries: set<Summary>): set<OutPoint> {
    set summary | summary in summaries && !summary.isPending :: summary.chan
  }

  /** One iteration of Start's loop over the closed channels. */
  function Reconcile(s: State, summary: Summary): State
    requires s.phase.Reconciling?
  {
    var r := s.(phase := s.phase.(todo := s.phase.todo - {summary}));
    if summary.isPending || summary.chan !in r.phase.infos then r
    else
      r.(store := r.store - {summary.chan}, justice := r.justice - {summary.chan},
         phase := r.phase.(infos := r.phase.infos - {summary.chan}))
  }

  predicate Enabled(s: State, e: Event) {
    match e
    case Breach(t, _, _) => s.phase == Running && t !in s.threads
    case Advance(t, _) => t in s.threads
    case Crash => true
    case Boot => s.phase == Down
    case ReadClosed(summaries) => s.phase.Reading? && s.closed == FullyClosed(summaries)
    case Visit(summary) => s.phase.Reconciling? && summary in s.phase.todo
    case StartSpawning => s.phase.Reconciling? && s.phase.todo == {}
    case Spawn(t, chan) => s.phase.Spawning? && chan in s.phase.left && t !in s.threads
    case Started => s.phase == Spawning({})
  }

  function Next(s: State, e: Event): State
    requires Enabled(s, e)
  {
    match e
    case Breach(t, chan, ret) => s.(threads := s.threads[t := Thread(chan, New(ret))])
    case Advance(t, o) => Step(s, t, o)
    case Crash => s.(threads := map[], phase := Down)
    case Boot => s.(phase := Reading(s.store.Keys), spawned := multiset{}, loaded := {})
    case ReadClosed(summaries) => s.(phase := Reconciling(s.phase.found, s.phase.found, summaries))
    case Visit(summary) => Reconcile(s, summary)
    case StartSpawning => s.(phase := Spawning(s.phase.infos), loaded := s.phase.infos)
    case Spawn(t, chan) =>
      s.(phase := Spawning(s.phase.left - {chan}), threads := s.threads[t := Thread(chan, AwaitBreach)],
         spawned := s.spawned + multiset{chan})
    case Started => s.(phase := Running)
  }

  /** A run; events that are not enabled when their turn comes are skipped. */
  function Run(s: State, events: seq<Event>): State
    decreases |events|
  {
    if events == [] then s
    else
      var m := Run(s, events[..|events| - 1]);
      var e := events[|events| - 1];
      if Enabled(m, e) then Next(m, e) else m
  }

  // ---- Invariant ----

  predicate Owns(pc: Pc) {
    !(pc.New? || pc.Failed? || pc.Duplicate?)
  }

  /** The goroutine is in exactRetribution. */
  predicate Retributes(pc: Pc) {
    Owns(pc) && !pc.Stored? && !pc.Acked?
  }

  /** What a goroutine's position says about the database. */
  ghost predicate Placed(s: State, th: Thread) {
    && (Owns(th.pc) ==> th.chan in s.store)
    && match th.pc {
         case Duplicate => th.chan in s.store || th.chan in s.closed
         case Ready(tx) => th.chan in s.justice && s.justice[th.chan] == tx
         case AwaitJustice(tx) => th.chan in s.justice && s.justice[th.chan] == tx
         case Remove => th.chan in s.closed
         case _ => true
       }
  }

  ghost predicate OneOwner(s: State) {
    forall t, u :: t in s.threads && u in s.threads && t != u
                   && Owns(s.threads[t].pc) && Owns(s.threads[u].pc)
                   ==> s.threads[t].chan != s.threads[u].chan
  }

  ghost predicate PhaseFits(s: State) {
    match s.phase
    case Down => s.threads == map[]
    case Reading(found) => s.threads == map[] && s.spawned == multiset{} && found == s.store.Keys
    case Reconciling(found, infos, todo) =>
      && s.threads == map[] && s.spawned == multiset{} && infos == s.store.Keys
      && FullyClosed(todo) <= s.closed && infos == found - (s.closed - FullyClosed(todo))
    case Spawning(left) =>
      && left <= s.loaded && left <= s.store.Keys
      && s.spawned == multiset(s.loaded - left)
      && (forall t :: t in s.threads ==> Retributes(s.threads[t].pc) && s.threads[t].chan !in left)
    case Running => multiset(s.loaded) <= s.spawned
  }

  ghost predicate Inv(s: State) {
    && s.justice.Keys <= s.store.Keys
    && (forall c :: c in s.acked ==> c in s.store || c in s.closed)
    && (forall t :: t in s.threads ==> Placed(s, s.threads[t]))
    && OneOwner(s)
    && PhaseFits(s)
  }

  /**
   What one goroutine may do to the database: only its own channel's records
   change, a non-owner only adds, and a record goes only once the channel is closed.
   */
  ghost predicate DbStep(s: State, r: State, c: OutPoint, owner: bool) {
    && s.closed <= r.closed
    && (forall d :: d != c ==> (d in r.store <==> d in s.store))
    && (forall d :: d != c ==> (d in r.justice <==> d in s.justice))
    && (forall d :: d != c && d in s.justice ==> r.justice[d] == s.justice[d])
    && (!owner ==> r.justice == s.justice)
    && (c in s.store && c !in r.store ==> owner && c in r.closed)
  }

  /** The effect of a step on the records. */
  lemma OwnRecords(s: State, th: Thread, o: Outcome)
    requires Placed(s, th) && s.justice.Keys <= s.store.Keys
    ensures var r := Recorded(s, th, o);
            && DbStep(s, r, th.chan, Owns(th.pc))
            && r.justice.Keys <= r.store.Keys
            && r.acked <= s.acked + {th.chan}
            && (th.chan in r.acked && th.chan !in s.acked ==> th.chan in r.store || th.chan in r.closed)
  {
  }

  /** Where a goroutine goes fits what it recorded, and it becomes an owner only of a channel without one. */
  lemma OwnPlace(s: State, th: Thread, o: Outcome)
    requires Placed(s, th)
    ensures var next := NextPc(s, th, o);
            next.Some? ==>
              && Placed(Recorded(s, th, o), th.(pc := next.value))
              && (Owns(next.value) ==> Owns(th.pc) || th.chan !in s.store)
              && (Retributes(th.pc) ==> Retributes(next.value))
  {
  }

  lemma OwnSpawns(s: State, th: Thread, o: Outcome)
    ensures var r := Recorded(s, th, o);
            && r.phase == s.phase && r.loaded == s.loaded
            && (r.spawned == s.spawned || (th.pc.Acked? && s.spawned <= r.spawned))
  {
  }

  /** No step disturbs what another goroutine relies on. */
  lemma OthersStayPlaced(s: State, r: State, th: Thread, other: Thread)
    requires DbStep(s, r, th.chan, Owns(th.pc)) && Placed(s, other)
    requires Owns(th.pc) && Owns(other.pc) ==> th.chan != other.chan
    ensures Placed(r, other)
  {
  }

  lemma StepKeepsPlaces(s: State, t: nat, o: Outcome)
    requires Inv(s) && t in s.threads
    ensures var r := Step(s, t, o);
            forall u :: u in r.threads ==> Placed(r, r.threads[u])
  {
    var r := Step(s, t, o);
    OwnRecords(s, s.threads[t], o);
    OwnPlace(s, s.threads[t], o);
    forall u | u in r.threads && u != t
      ensures Placed(r, r.threads[u])
    {
      OthersStayPlaced(s, r, s.threads[t], s.threads[u]);
    }
  }

  lemma StepKeepsOwner(s: State, t: nat, o: Outcome)
    requires Inv(s) && t in s.threads
    ensures OneOwner(Step(s, t, o))
  {
    OwnPlace(s, s.threads[t], o);
    forall u | u in s.threads && u != t && Owns(s.threads[u].pc)
      ensures s.threads[u].chan in s.store
    {
      assert Placed(s, s.threads[u]);
    }
  }

  lemma StepKeepsPhase(s: State, t: nat, o: Outcome)
    requires Inv(s) && t in s.threads
    ensures PhaseFits(Step(s, t, o))
  {
    OwnRecords(s, s.threads[t], o);
    OwnPlace(s, s.threads[t], o);
    OwnSpawns(s, s.threads[t], o);
  }

  lemma StepKeepsInv(s: State, t: nat, o: Outcome)
    requires Inv(s) && t in s.threads
    ensures Inv(Step(s, t, o))
  {
    OwnRecords(s, s.threads[t], o);
    StepKeepsPlaces(s, t, o);
    StepKeepsOwner(s, t, o);
    StepKeepsPhase(s, t, o);
  }

  /** A new goroutine that owns nothing yet, or the records of a channel nobody owns. */
  lemma ThreadAdded(s: State, r: State, t: nat, th: Thread)
    requires Inv(s) && t !in s.threads && r.threads == s.threads[t := th]
    requires r.store == s.store && r.justice == s.justice && r.closed == s.closed
    requires Placed(s, th)
    requires Owns(th.pc) ==> forall u :: u in s.threads ==> s.threads[u].chan != th.chan
    ensures OneOwner(r) && forall u :: u in r.threads ==> Placed(r, r.threads[u])
  {
    forall u | u in r.threads
      ensures Placed(r, r.threads[u])
    {
      if u != t {
        assert Placed(s, s.threads[u]);
      }
    }
  }

  lemma BreachKeepsInv(s: State, e: Event)
    requires Inv(s) && e.Breach? && Enabled(s, e)
    ensures Inv(Next(s, e))
  {
    ThreadAdded(s, Next(s, e), e.t, Thread(e.chan, New(e.ret)));
  }

  lemma SpawnKeepsInv(s: State, e: Event)
    requires Inv(s) && e.Spawn? && Enabled(s, e)
    ensures Inv(Next(s, e))
  {
    ThreadAdded(s, Next(s, e), e.t, Thread(e.chan, AwaitBreach));
    assert s.loaded - (s.phase.left - {e.chan}) == s.loaded - s.phase.left + {e.chan};
  }

  lemma VisitKeepsInv(s: State, summary: Summary)
    requires Inv(s) && Enabled(s, Visit(summary))
    ensures Inv(Reconcile(s, summary))
  {
    var todo := s.phase.todo - {summary};
    assert FullyClosed(s.phase.todo) == FullyClosed(todo) + if summary.isPending then {} else {summary.chan};
    assert (s.store - {summary.chan}).Keys == s.store.Keys - {summary.chan};
    assert (s.justice - {summary.chan}).Keys == s.justice.Keys - {summary.chan};
  }

  lemma LifecycleKeepsInv(s: State, e: Event)
    requires Inv(s) && Enabled(s, e) && !e.Advance? && !e.Breach? && !e.Spawn?
    ensures Inv(Next(s, e))
  {
    if e.StartSpawning? {
      assert s.phase.infos - s.phase.infos == {};
    } else if e.ReadClosed? {
      assert s.closed - FullyClosed(e.summaries) == {};
    } else if e.Visit? {
      VisitKeepsInv(s, e.summary);
    } else if e.Started? {
      assert s.loaded - {} == s.loaded;
    }
  }

  lemma EventKeepsInv(s: State, e: Event)
    requires Inv(s) && Enabled(s, e)
    ensures Inv(Next(s, e))
  {
    match e
    case Advance(t, o) => StepKeepsInv(s, t, o);
    case Breach(_, _, _) => BreachKeepsInv(s, e);
    case Spawn(_, _) => SpawnKeepsInv(s, e);
    case _ => LifecycleKeepsInv(s, e);
  }

  lemma {:induction false} RunKeepsInv(events: seq<Event>)
    ensures Inv(Run(Fresh, events))
    decreases |events|
  {
    if events != [] {
      var init, e := events[..|events| - 1], events[|events| - 1];
      RunKeepsInv(init);
      if Enabled(Run(Fresh, init), e) {
        EventKeepsInv(Run(Fresh, init), e);
      }
    }
  }

  // ---- What every run guarantees ----

  /**
   In every run, with crashes anywhere: an acknowledged breach is stored or its
   channel fully closed, and no justice transaction outlives its retribution.
   */
  lemma CrashSafety(events: seq<Event>)
    ensures var s := Run(Fresh, events);
            && (forall c :: c in s.acked ==> c in s.store || c in s.closed)
            && s.justice.Keys <= s.store.Keys
  {
    RunKeepsInv(events);
  }

  /** A goroutine about to publish finds exactly that transaction on record, and is alone in its channel. */
  lemma PublishIsRecorded(events: seq<Event>, t: nat)
    requires t in Run(Fresh, events).threads && Run(Fresh, events).threads[t].pc.Ready?
    ensures var s := Run(Fresh, events);
            var c := s.threads[t].chan;
            && c in s.store && c in s.justice && s.justice[c] == s.threads[t].pc.tx
            && (forall u :: u in s.threads && u != t && Owns(s.threads[u].pc) ==> s.threads[u].chan != c)
  {
    RunKeepsInv(events);
    assert Placed(Run(Fresh, events), Run(Fresh, events).threads[t]);
  }

  /**
   When Start completes it has launched exactly one retribution for every stored
   breach whose channel was not fully closed when Start read the database.
   */
  lemma StartResumesEach(events: seq<Event>)
    requires Enabled(Run(Fresh, events), Started)
    ensures var s := Run(Fresh, events);
            forall c :: s.spawned[c] == if c in s.loaded then 1 else 0
  {
    RunKeepsInv(events);
    var s := Run(Fresh, events);
    assert s.loaded - {} == s.loaded;
  }

  /**
   When Start has been through the closed channels, what it is about to resume is
   exactly what it found stored and is not fully closed, and the store holds the same.
   */
  lemma StartLoadsOpenBreaches(events: seq<Event>)
    requires Enabled(Run(Fresh, events), StartSpawning)
    ensures var s := Run(Fresh, events);
            s.phase.infos == s.phase.found - s.closed && s.store.Keys == s.phase.infos
  {
    RunKeepsInv(events);
    var s := Run(Fresh, events);
    assert s.closed - FullyClosed({}) == s.closed;
  }
}
