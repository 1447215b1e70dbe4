/**
 What has to have happened before a breached channel is closed: over every run
 with crashes, each step of the retribution has its cause in an earlier event,
 and a goroutine that is not disturbed gets to the end.
 */
module BreachHistory {
  import opened Primitives
  import Justice
  import RetributionCodec
  import opened BreachArbiter

  /** What a goroutine learns or does that cannot be undone by a crash. */
  datatype Act =
    | Confirmed                    // the breach transaction is in a block
    | Built(tx: Justice.JusticeTx)         // signed and put on record
    | Published(tx: Justice.JusticeTx)     // handed to the network without a conflict
    | Conflicted(tx: Justice.JusticeTx)    // refused because an input is spent
    | Served(tx: Justice.JusticeTx)        // the justice transaction is in a block

  function ActOf(pc: Pc, o: Outcome): Option<Act> {
    match pc
    case AwaitBreach => if o.Fail? then None else Some(Confirmed)
    case Build => if o.Signed? then Some(Built(o.tx)) else None
    case Ready(tx) => Some(if o.Conflict? then Conflicted(tx) else Published(tx))
    case AwaitJustice(tx) => if o.Fail? then None else Some(Served(tx))
    case _ => None
  }

  type Acts = set<(OutPoint, Act)>

  /** What the event adds to the history. */
  function ActsOf(s: State, e: Event): Acts {
    if e.Advance? && e.t in s.threads then
      var act := ActOf(s.threads[e.t].pc, e.outcome);
      if act.Some? then {(s.threads[e.t].chan, act.value)} else {}
    else {}
  }

  /** All that has been done up to the end of a run, before or after any crash. */
  function History(events: seq<Event>): Acts
    decreases |events|
  {
    if events == [] then {}
    else
      var init := events[..|events| - 1];
      History(init) + ActsOf(Run(Fresh, init), events[|events| - 1])
  }

  // ---- Causes ----

  /** Everything in the history has its cause there. */
  ghost predicate Caused(acts: Acts) {
    && (forall c, tx :: (c, Served(tx)) in acts ==> (c, Published(tx)) in acts)
    && (forall c, tx :: (c, Published(tx)) in acts ==> (c, Built(tx)) in acts)
    && (forall c, tx :: (c, Built(tx)) in acts ==> (c, Confirmed) in acts)
  }

  ghost predicate WasServed(acts: Acts, c: OutPoint) {
    exists tx :: (c, Served(tx)) in acts
  }

  /** What a goroutine's position says about the past. */
  ghost predicate Justified(acts: Acts, justice: map<OutPoint, Justice.JusticeTx>, th: Thread) {
    var c := th.chan;
    match th.pc
    case Load => (c, Confirmed) in acts
    case Build => (c, Confirmed) in acts && (c in justice ==> (c, Conflicted(justice[c])) in acts)
    case WatchSpends => (c, Confirmed) in acts && (c in justice ==> (c, Conflicted(justice[c])) in acts)
    case Ready(tx) => (c, Built(tx)) in acts
    case AwaitJustice(tx) => (c, Published(tx)) in acts
    case MarkClosed => WasServed(acts, c)
    case Remove => WasServed(acts, c)
    case _ => true
  }

  ghost predicate HistoryFits(s: State, acts: Acts) {
    && Caused(acts)
    && (forall t :: t in s.threads ==> Justified(acts, s.justice, s.threads[t]))
    && (forall c :: c in s.justice ==> (c, Built(s.justice[c])) in acts)
    && (forall c :: c in s.closed ==> WasServed(acts, c))
  }

  lemma JustifiedLater(acts: Acts, more: Acts, justice: map<OutPoint, Justice.JusticeTx>, th: Thread)
    requires Justified(acts, justice, th)
    ensures Justified(acts + more, justice, th)
  {
    if WasServed(acts, th.chan) {
      var tx :| (th.chan, Served(tx)) in acts;
      assert (th.chan, Served(tx)) in acts + more;
    }
  }

  lemma CausesStay(acts: Acts, th: Thread, o: Outcome, justice: map<OutPoint, Justice.JusticeTx>)
    requires Caused(acts) && Justified(acts, justice, th)
    ensures var act := ActOf(th.pc, o); Caused(acts + if act.Some? then {(th.chan, act.value)} else {})
  {
  }

  /** A step leaves its goroutine where the history, with what it just did, justifies it to be. */
  lemma OwnStepJustified(s: State, th: Thread, o: Outcome, acts: Acts)
    requires Placed(s, th) && Justified(acts, s.justice, th) && Caused(acts)
    requires th.chan in s.justice ==> (th.chan, Built(s.justice[th.chan])) in acts
    ensures var act := ActOf(th.pc, o);
            var more := acts + if act.Some? then {(th.chan, act.value)} else {};
            var next := NextPc(s, th, o);
            && (next.Some? ==> Justified(more, Recorded(s, th, o).justice, th.(pc := next.value)))
  {
    var act := ActOf(th.pc, o);
    var more := acts + if act.Some? then {(th.chan, act.value)} else {};
    if WasServed(acts, th.chan) {
      var tx :| (th.chan, Served(tx)) in acts;
      assert (th.chan, Served(tx)) in more;
    }
    if act.Some? && act.value.Served? {
      assert (th.chan, Served(act.value.tx)) in more;
    }
  }

  lemma OwnRecordJustified(s: State, th: Thread, o: Outcome, acts: Acts, c: OutPoint)
    requires Placed(s, th) && Justified(acts, s.justice, th)
    requires forall d :: d in s.justice ==> (d, Built(s.justice[d])) in acts
    requires forall d :: d in s.closed ==> WasServed(acts, d)
    ensures var act := ActOf(th.pc, o);
            var more := acts + if act.Some? then {(th.chan, act.value)} else {};
            var r := Recorded(s, th, o);
            (c in r.justice ==> (c, Built(r.justice[c])) in more) && (c in r.closed ==> WasServed(more, c))
  {
    var act := ActOf(th.pc, o);
    var more := acts + if act.Some? then {(th.chan, act.value)} else {};
    if WasServed(acts, c) {
      var tx :| (c, Served(tx)) in acts;
      assert (c, Served(tx)) in more;
    }
  }

  /** Another goroutine's justification is about its own channel, which the step leaves alone. */
  lemma OtherJustified(s: State, r: State, th: Thread, other: Thread, acts: Acts, more: Acts)
    requires DbStep(s, r, th.chan, Owns(th.pc)) && Justified(acts, s.justice, other)
    requires Owns(th.pc) && Owns(other.pc) ==> th.chan != other.chan
    ensures Justified(acts + more, r.justice, other)
  {
    JustifiedLater(acts, more, s.justice, other);
  }

  lemma AdvanceKeepsHistory(s: State, t: nat, o: Outcome, acts: Acts)
    requires Inv(s) && t in s.threads && HistoryFits(s, acts)
    ensures HistoryFits(Step(s, t, o), acts + ActsOf(s, Advance(t, o)))
  {
    var th, r := s.threads[t], Step(s, t, o);
    var more := ActsOf(s, Advance(t, o));
    CausesStay(acts, th, o, s.justice);
    OwnStepJustified(s, th, o, acts);
    OwnRecords(s, th, o);
    forall u | u in r.threads && u != t
      ensures Justified(acts + more, r.justice, r.threads[u])
    {
      OtherJustified(s, r, th, s.threads[u], acts, more);
    }
    forall c
      ensures c in r.justice ==> (c, Built(r.justice[c])) in acts + more
      ensures c in r.closed ==> WasServed(acts + more, c)
    {
      OwnRecordJustified(s, th, o, acts, c);
    }
  }

  lemma OtherEventKeepsHistory(s: State, e: Event, acts: Acts)
    requires Inv(s) && Enabled(s, e) && !e.Advance? && HistoryFits(s, acts)
    ensures HistoryFits(Next(s, e), acts)
  {
    var r := Next(s, e);
    assert forall t :: t in r.threads && t in s.threads ==> r.threads[t] == s.threads[t];
    if e.Visit? {
      assert s.threads == map[];
    }
  }

  lemma {:induction false} RunKeepsHistory(events: seq<Event>)
    ensures HistoryFits(Run(Fresh, events), History(events))
    decreases |events|
  {
    if events != [] {
      var init, e := events[..|events| - 1], events[|events| - 1];
      RunKeepsHistory(init);
      RunKeepsInv(init);
      var s := Run(Fresh, init);
      if e.Advance? && e.t in s.threads {
        AdvanceKeepsHistory(s, e.t, e.outcome, History(init));
      } else {
        assert History(events) == History(init);
        if Enabled(s, e) {
          OtherEventKeepsHistory(s, e, History(init));
        }
      }
    }
  }

  /**
   In every run, with crashes anywhere: a channel is fully closed, or about to be,
   only after its breach was confirmed and a justice transaction for it was
   built and recorded, published, and confirmed itself.
   */
  lemma ClosedIsServed(events: seq<Event>, c: OutPoint)
    requires var s := Run(Fresh, events);
             c in s.closed
             || exists t :: t in s.threads && s.threads[t].chan == c && (s.threads[t].pc.MarkClosed? || s.threads[t].pc.Remove?)
    ensures exists tx :: && (c, Served(tx)) in History(events) && (c, Published(tx)) in History(events)
                         && (c, Built(tx)) in History(events) && (c, Confirmed) in History(events)
  {
    RunKeepsHistory(events);
    var s := Run(Fresh, events);
    if c !in s.closed {
      var t :| t in s.threads && s.threads[t].chan == c && (s.threads[t].pc.MarkClosed? || s.threads[t].pc.Remove?);
      assert Justified(History(events), s.justice, s.threads[t]);
    }
    var tx :| (c, Served(tx)) in History(events);
    assert (c, Published(tx)) in History(events);
  }

  /** Each act comes after its cause: what a single event adds rests on the history before it. */
  lemma CauseComesFirst(events: seq<Event>, c: OutPoint, act: Act)
    requires events != [] && (c, act) in History(events) && (c, act) !in History(events[..|events| - 1])
    ensures var before := History(events[..|events| - 1]);
            match act
            case Served(tx) => (c, Published(tx)) in before
            case Published(tx) => (c, Built(tx)) in before
            case Built(_) => (c, Confirmed) in before
            case _ => true
  {
    RunKeepsHistory(events);
  }

  /** A justice transaction on record is replaced only after it has met a conflict; a restart publishes it again. */
  lemma ReplacedAfterConflict(events: seq<Event>, t: nat)
    requires t in Run(Fresh, events).threads && Run(Fresh, events).threads[t].pc.Build?
    ensures var s := Run(Fresh, events);
            var c := s.threads[t].chan;
            c in s.justice ==> (c, Conflicted(s.justice[c])) in History(events)
  {
    RunKeepsHistory(events);
    var s := Run(Fresh, events);
    assert Justified(History(events), s.justice, s.threads[t]);
  }

  /** One event leaves a stored retribution as it is, or removes it once its channel is closed. */
  ghost predicate Kept(s: State, r: State, c: OutPoint) {
    c in s.store ==> if c in r.store then r.store[c] == s.store[c] else c in r.closed
  }

  lemma StepKeeps(s: State, t: nat, o: Outcome, c: OutPoint)
    requires Inv(s) && t in s.threads
    ensures Kept(s, Step(s, t, o), c)
  {
    OwnRecords(s, s.threads[t], o);
  }

  lemma VisitKeeps(s: State, summary: Summary, c: OutPoint)
    requires Inv(s) && Enabled(s, Visit(summary))
    ensures Kept(s, Reconcile(s, summary), c)
  {
    assert !summary.isPending ==> summary.chan in FullyClosed(s.phase.todo);
  }

  /**
   In every run: whatever happens next, a stored retribution is not changed, also by
   another event for the same breach, and is removed only when its channel is fully closed.
   */
  lemma StoredIsKept(events: seq<Event>, e: Event, c: OutPoint)
    ensures Kept(Run(Fresh, events), Run(Fresh, events + [e]), c)
  {
    RunKeepsInv(events);
    var s := Run(Fresh, events);
    assert (events + [e])[..|events|] == events;
    if Enabled(s, e) {
      match e
      case Advance(t, o) => StepKeeps(s, t, o, c);
      case Visit(summary) => VisitKeeps(s, summary, c);
      case _ =>
    }
  }

  /** Some breach event brought the retribution. */
  ghost predicate WasReported(events: seq<Event>, c: OutPoint, ret: RetributionCodec.Retribution) {
    exists i :: 0 <= i < |events| && events[i].Breach? && events[i].chan == c && events[i].ret == ret
  }

  ghost predicate AllReported(events: seq<Event>, s: State) {
    && (forall c :: c in s.store ==> WasReported(events, c, s.store[c]))
    && (forall t :: t in s.threads && s.threads[t].pc.New? ==> WasReported(events, s.threads[t].chan, s.threads[t].pc.ret))
  }

  lemma ReportedLater(events: seq<Event>, e: Event, c: OutPoint, ret: RetributionCodec.Retribution)
    requires WasReported(events, c, ret)
    ensures WasReported(events + [e], c, ret)
  {
    var i :| 0 <= i < |events| && events[i].Breach? && events[i].chan == c && events[i].ret == ret;
    assert (events + [e])[i] == events[i];
  }

  lemma OneMoreReported(events: seq<Event>, e: Event, s: State)
    requires AllReported(events, s) && Enabled(s, e)
    ensures AllReported(events + [e], Next(s, e))
  {
    var r := Next(s, e);
    forall c | c in r.store
      ensures WasReported(events + [e], c, r.store[c])
    {
      if c in s.store && r.store[c] == s.store[c] {
        ReportedLater(events, e, c, s.store[c]);
      } else {
        ReportedLater(events, e, c, s.threads[e.t].pc.ret);
      }
    }
    forall t | t in r.threads && r.threads[t].pc.New?
      ensures WasReported(events + [e], r.threads[t].chan, r.threads[t].pc.ret)
    {
      if t in s.threads && s.threads[t] == r.threads[t] {
        ReportedLater(events, e, s.threads[t].chan, s.threads[t].pc.ret);
      } else {
        assert (events + [e])[|events|] == e;
      }
    }
  }

  /** In every run each stored retribution is one that a breach event of its channel brought. */
  lemma {:induction false} StoredWasReported(events: seq<Event>)
    ensures AllReported(events, Run(Fresh, events))
    decreases |events|
  {
    if events != [] {
      var init, e := events[..|events| - 1], events[|events| - 1];
      StoredWasReported(init);
      assert events == init + [e];
      if Enabled(Run(Fresh, init), e) {
        OneMoreReported(init, e, Run(Fresh, init));
      } else {
        NothingReported(init, e, Run(Fresh, init));
      }
    }
  }

  lemma NothingReported(events: seq<Event>, e: Event, s: State)
    requires AllReported(events, s)
    ensures AllReported(events + [e], s)
  {
    forall c | c in s.store
      ensures WasReported(events + [e], c, s.store[c])
    {
      ReportedLater(events, e, c, s.store[c]);
    }
    forall t | t in s.threads && s.threads[t].pc.New?
      ensures WasReported(events + [e], s.threads[t].chan, s.threads[t].pc.ret)
    {
      ReportedLater(events, e, s.threads[t].chan, s.threads[t].pc.ret);
    }
  }

  ghost predicate Counted(s: State) {
    forall t :: t in s.threads && Retributes(s.threads[t].pc) ==> s.threads[t].chan in s.spawned
  }

  lemma OwnIsCounted(s: State, th: Thread, o: Outcome)
    requires Retributes(th.pc) ==> th.chan in s.spawned
    ensures var r, next := Recorded(s, th, o), NextPc(s, th, o);
            s.spawned <= r.spawned && (next.Some? && Retributes(next.value) ==> th.chan in r.spawned)
  {
  }

  lemma StepIsCounted(s: State, t: nat, o: Outcome)
    requires t in s.threads && Counted(s)
    ensures Counted(Step(s, t, o))
  {
    var r := Step(s, t, o);
    OwnIsCounted(s, s.threads[t], o);
    forall u | u in r.threads && Retributes(r.threads[u].pc)
      ensures r.threads[u].chan in r.spawned
    {
      assert u != t ==> r.threads[u] == s.threads[u];
    }
  }

  lemma OtherIsCounted(s: State, e: Event)
    requires Enabled(s, e) && !e.Advance? && Counted(s) && (e.Boot? ==> s.threads == map[])
    ensures Counted(Next(s, e))
  {
    var r := Next(s, e);
    forall u | u in r.threads && Retributes(r.threads[u].pc)
      ensures r.threads[u].chan in r.spawned
    {
      assert u in s.threads ==> s.threads[u].chan in s.spawned || !Retributes(s.threads[u].pc);
    }
  }

  /** Every goroutine in a retribution was counted when it started, whether Start launched it or a breach event did. */
  lemma {:induction false} RetributionsAreCounted(events: seq<Event>)
    ensures Counted(Run(Fresh, events))
    decreases |events|
  {
    if events != [] {
      var init, e := events[..|events| - 1], events[|events| - 1];
      RetributionsAreCounted(init);
      RunKeepsInv(init);
      var s := Run(Fresh, init);
      if !Enabled(s, e) {
      } else if e.Advance? {
        StepIsCounted(s, e.t, e.outcome);
      } else {
        OtherIsCounted(s, e);
      }
    }
  }

  // ---- Progress ----

  /** Steps to the end of a goroutine that meets no conflict. */
  function ToGo(pc: Pc): nat {
    match pc
    case New(_) => 10
    case Failed => 1
    case Duplicate => 1
    case Stored => 9
    case Acked => 8
    case AwaitBreach => 7
    case Load => 6
    case WatchSpends => 6
    case Build => 5
    case Ready(_) => 4
    case AwaitJustice(_) => 3
    case MarkClosed => 2
    case Remove => 1
  }

  /** Nothing the goroutine waits for fails, and signing succeeds. */
  predicate Helpful(pc: Pc, o: Outcome) {
    !o.Fail? && (pc.Build? ==> o.Signed?)
  }

  /** There is no crash, no other goroutine takes the name, and all goes well for `t`. */
  ghost predicate Undisturbed(s: State, events: seq<Event>, t: nat)
    decreases |events|
  {
    events == [] ||
    var m, e := Run(s, events[..|events| - 1]), events[|events| - 1];
    && Undisturbed(s, events[..|events| - 1], t)
    && !e.Crash? && (e.Breach? || e.Spawn? ==> e.t != t)
    && (e.Advance? && e.t == t && t in m.threads ==> Helpful(m.threads[t].pc, e.outcome))
  }

  predicate Steps(s: State, e: Event, t: nat) {
    e.Advance? && e.t == t && t in s.threads
  }

  /** How many steps `t` takes, and how many of them meet a conflict. */
  function Taken(s: State, events: seq<Event>, t: nat): nat
    decreases |events|
  {
    if events == [] then 0
    else
      Taken(s, events[..|events| - 1], t)
      + if Steps(Run(s, events[..|events| - 1]), events[|events| - 1], t) then 1 else 0
  }

  function Conflicts(s: State, events: seq<Event>, t: nat): nat
    decreases |events|
  {
    if events == [] then 0
    else
      var m, e := Run(s, events[..|events| - 1]), events[|events| - 1];
      Conflicts(s, events[..|events| - 1], t)
      + if Steps(m, e, t) && m.threads[t].pc.Ready? && e.outcome.Conflict? then 1 else 0
  }

  predicate Answers(pc: Pc) {
    pc.New? || pc.Duplicate? || pc.Stored?
  }

  /** Where goroutine `t`, which started as `th`, has got to. */
  ghost predicate OnItsWay(s: State, t: nat, th: Thread, taken: nat, conflicts: nat) {
    if t in s.threads then
      && s.threads[t].chan == th.chan && !s.threads[t].pc.Failed?
      && taken + ToGo(s.threads[t].pc) <= ToGo(th.pc) + 3 * conflicts
      && (Owns(th.pc) ==> Owns(s.threads[t].pc))
      && (Answers(th.pc) ==> Answers(s.threads[t].pc) || th.chan in s.acked)
    else
      && taken <= ToGo(th.pc) + 3 * conflicts
      && (Owns(th.pc) ==> th.chan in s.closed)
      && (Answers(th.pc) ==> th.chan in s.acked)
  }

  lemma RecordsGrow(s: State, th: Thread, o: Outcome)
    ensures s.acked <= Recorded(s, th, o).acked && s.closed <= Recorded(s, th, o).closed
  {
  }

  /** A step that goes well brings its goroutine nearer to the end. */
  lemma StepShortens(s: State, th: Thread, o: Outcome)
    requires !th.pc.Failed? && Helpful(th.pc, o) && NextPc(s, th, o).Some?
    ensures var next := NextPc(s, th, o).value;
            && !next.Failed? && (Owns(th.pc) ==> Owns(next))
            && ToGo(next) + 1 <= ToGo(th.pc) + if th.pc.Ready? && o.Conflict? then 3 else 0
  {
  }

  /** A breach event is acknowledged, or still to be, until its goroutine ends. */
  lemma StepAnswers(s: State, th: Thread, o: Outcome)
    requires !th.pc.Failed? && Helpful(th.pc, o) && Answers(th.pc)
    ensures var next := NextPc(s, th, o);
            th.chan in Recorded(s, th, o).acked || (next.Some? && Answers(next.value))
  {
  }

  /** An owner ends only when its channel is closed. */
  lemma StepEnds(s: State, th: Thread, o: Outcome)
    requires Placed(s, th) && Helpful(th.pc, o) && NextPc(s, th, o).None? && Owns(th.pc)
    ensures th.chan in Recorded(s, th, o).closed
  {
  }

  lemma OwnStepAdvances(s: State, t: nat, o: Outcome, th: Thread, taken: nat, conflicts: nat)
    requires Inv(s) && t in s.threads && OnItsWay(s, t, th, taken, conflicts) && Helpful(s.threads[t].pc, o)
    ensures OnItsWay(Step(s, t, o), t, th, taken + 1,
                     conflicts + if s.threads[t].pc.Ready? && o.Conflict? then 1 else 0)
  {
    var now := s.threads[t];
    assert Placed(s, now);
    RecordsGrow(s, now, o);
    if Answers(now.pc) {
      StepAnswers(s, now, o);
    }
    if NextPc(s, now, o).Some? {
      StepShortens(s, now, o);
    } else if Owns(now.pc) {
      StepEnds(s, now, o);
    }
  }

  lemma EventKeepsRest(s: State, e: Event, t: nat)
    requires Enabled(s, e) && !e.Crash? && (e.Breach? || e.Spawn? ==> e.t != t) && !Steps(s, e, t)
    ensures var r := Next(s, e);
            && s.acked <= r.acked && s.closed <= r.closed
            && (t in r.threads <==> t in s.threads) && (t in s.threads ==> r.threads[t] == s.threads[t])
  {
  }

  lemma OthersLeaveItAlone(s: State, e: Event, t: nat, th: Thread, taken: nat, conflicts: nat)
    requires Enabled(s, e) && !e.Crash? && (e.Breach? || e.Spawn? ==> e.t != t) && !Steps(s, e, t)
    requires OnItsWay(s, t, th, taken, conflicts)
    ensures OnItsWay(Next(s, e), t, th, taken, conflicts)
  {
    EventKeepsRest(s, e, t);
  }

  lemma {:induction false} RunFromKeepsInv(s: State, events: seq<Event>)
    requires Inv(s)
    ensures Inv(Run(s, events))
    decreases |events|
  {
    if events != [] {
      var init, e := events[..|events| - 1], events[|events| - 1];
      RunFromKeepsInv(s, init);
      if Enabled(Run(s, init), e) {
        EventKeepsInv(Run(s, init), e);
      }
    }
  }

  /**
   However it is interleaved with others, a goroutine that is not disturbed takes
   at most `ToGo` steps and three more for each conflict. When it has ended, the
   channel it owned is fully closed, and the breach event it handled is acknowledged.
   */
  lemma {:induction false} UndisturbedServes(s: State, events: seq<Event>, t: nat)
    requires Inv(s) && t in s.threads && !s.threads[t].pc.Failed? && Undisturbed(s, events, t)
    ensures OnItsWay(Run(s, events), t, s.threads[t], Taken(s, events, t), Conflicts(s, events, t))
    decreases |events|
  {
    if events != [] {
      var init, e := events[..|events| - 1], events[|events| - 1];
      UndisturbedServes(s, init, t);
      RunFromKeepsInv(s, init);
      var m := Run(s, init);
      if Steps(m, e, t) {
        OwnStepAdvances(m, t, e.outcome, s.threads[t], Taken(s, init, t), Conflicts(s, init, t));
      } else if Enabled(m, e) {
        OthersLeaveItAlone(m, e, t, s.threads[t], Taken(s, init, t), Conflicts(s, init, t));
      }
    }
  }

  /**
   In plain numbers: three undisturbed steps after the arbiter has resumed a
   retribution, its justice transaction is on record and ready to be published, or has been.
   */
  lemma ThreeStepsToReady(before: seq<Event>, events: seq<Event>, t: nat)
    requires var s := Run(Fresh, before);
             && t in s.threads && s.threads[t].pc.AwaitBreach? && Undisturbed(s, events, t)
             && Taken(s, events, t) >= 3 && Conflicts(s, events, t) == 0
    ensures var r := Run(Run(Fresh, before), events);
            t in r.threads ==> var pc := r.threads[t].pc; pc.Ready? || pc.AwaitJustice? || pc.MarkClosed? || pc.Remove?
  {
    RunKeepsInv(before);
    UndisturbedServes(Run(Fresh, before), events, t);
  }
}
