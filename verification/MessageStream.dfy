/**
 The bounded, in-order message stream of a peer: any number of producers call
 `AddMsg`, one consumer applies the messages. A semaphore of `size` tokens bounds
 the queue and a condition variable wakes the consumer.
 */
module MessageStream {
  import opened Primitives

  type Message = nat

  /** A message together with the producer that sent it. */
  datatype Entry = Entry(from: nat, msg: Message)

  /** Where a producer is inside `AddMsg`; an absent producer is not in a call. */
  datatype Producer =
    | Wants(msg: Message)      // waiting for a token
    | Reserved(msg: Message)   // holds a token
    | Appended                 // has queued its message, has yet to signal

  datatype Consumer =
    | Checking                 // about to look at the queue
    | Waiting                  // asleep on the condition variable
    | Applying(entry: Entry)
    | Returning                // about to give a token back

  /** The last three fields record the calls made, and the messages queued and applied. */
  datatype State = State(size: nat, free: nat, producers: map<nat, Producer>, msgs: seq<Entry>, consumer: Consumer,
                         called: seq<Entry>, appended: seq<Entry>, applied: seq<Entry>)

  datatype Step =
    | Call(p: nat, msg: Message)
    | Acquire(p: nat)
    | Append(p: nat)
    | Signal(p: nat)
    | Take
    | Sleep
    | Apply
    | Release

  function Fresh(size: nat): State {
    State(size, size, map[], [], Checking, [], [], [])
  }

  predicate Enabled(s: State, step: Step) {
    match step
    case Call(p, _) => p !in s.producers
    case Acquire(p) => p in s.producers && s.producers[p].Wants? && s.free > 0
    case Append(p) => p in s.producers && s.producers[p].Reserved?
    case Signal(p) => p in s.producers && s.producers[p].Appended?
    case Take => s.consumer.Checking? && s.msgs != []
    case Sleep => s.consumer.Checking? && s.msgs == []
    case Apply => s.consumer.Applying?
    case Release => s.consumer.Returning? && s.free < s.size
  }

  function Next(s: State, step: Step): State
    requires Enabled(s, step)
  {
    match step
    case Call(p, m) => s.(producers := s.producers[p := Wants(m)], called := s.called + [Entry(p, m)])
    case Acquire(p) => s.(free := s.free - 1, producers := s.producers[p := Reserved(s.producers[p].msg)])
    case Append(p) =>
      var e := Entry(p, s.producers[p].msg);
      s.(producers := s.producers[p := Appended], msgs := s.msgs + [e], appended := s.appended + [e])
    case Signal(p) =>
      s.(producers := s.producers - {p}, consumer := if s.consumer.Waiting? then Checking else s.consumer)
    case Take => s.(consumer := Applying(s.msgs[0]), msgs := s.msgs[1..])
    case Sleep => s.(consumer := Waiting)
    case Apply => s.(consumer := Returning, applied := s.applied + [s.consumer.entry])
    case Release => s.(consumer := Checking, free := s.free + 1)
  }

  function Run(s: State, steps: seq<Step>): State
    decreases |steps|
  {
    if steps == [] then s
    else
      var m := Run(s, steps[..|steps| - 1]);
      var step := steps[|steps| - 1];
      if Enabled(m, step) then Next(m, step) else m
  }

  // ---- Producers, counted by where they are ----

  ghost function AtWants(ps: map<nat, Producer>): set<nat> {
    set p | p in ps && ps[p].Wants?
  }

  ghost function AtReserved(ps: map<nat, Producer>): set<nat> {
    set p | p in ps && ps[p].Reserved?
  }

  ghost function AtAppended(ps: map<nat, Producer>): set<nat> {
    set p | p in ps && ps[p].Appended?
  }

  function One(b: bool): nat {
    if b then 1 else 0
  }

  lemma SetMoves(before: set<nat>, after: set<nat>, p: nat)
    requires forall q :: q != p ==> (q in before <==> q in after)
    ensures |after| + One(p in before) == |before| + One(p in after)
  {
    assert before - {p} == after - {p};
    assert |before - {p}| == |before| - One(p in before);
    assert |after - {p}| == |after| - One(p in after);
  }

  /** Moving one producer changes the counts by that producer alone. */
  lemma ProducerMoves(ps: map<nat, Producer>, rs: map<nat, Producer>, p: nat)
    requires forall q :: q != p ==> (q in ps <==> q in rs) && (q in ps ==> ps[q] == rs[q])
    ensures |AtWants(rs)| + One(p in ps && ps[p].Wants?) == |AtWants(ps)| + One(p in rs && rs[p].Wants?)
    ensures |AtReserved(rs)| + One(p in ps && ps[p].Reserved?) == |AtReserved(ps)| + One(p in rs && rs[p].Reserved?)
    ensures |AtAppended(rs)| + One(p in ps && ps[p].Appended?) == |AtAppended(ps)| + One(p in rs && rs[p].Appended?)
  {
    SetMoves(AtWants(ps), AtWants(rs), p);
    SetMoves(AtReserved(ps), AtReserved(rs), p);
    SetMoves(AtAppended(ps), AtAppended(rs), p);
  }

  /** The producers change only at the one taking the step, if any. */
  lemma StepMoves(s: State, step: Step)
    requires Enabled(s, step) && (step.Call? || step.Acquire? || step.Append? || step.Signal?)
    ensures var r := Next(s, step);
            forall q :: q != step.p ==> (q in s.producers <==> q in r.producers)
                                        && (q in s.producers ==> s.producers[q] == r.producers[q])
  {
  }

  // ---- What every interleaving keeps ----

  /** The slot of the message being applied is free again only once its token is returned. */
  function Busy(c: Consumer): nat {
    if c.Applying? || c.Returning? then 1 else 0
  }

  ghost predicate TokensAddUp(s: State) {
    s.free + |AtReserved(s.producers)| + |s.msgs| + Busy(s.consumer) == s.size
  }

  function Current(c: Consumer): seq<Entry> {
    if c.Applying? then [c.entry] else []
  }

  ghost predicate InOrder(s: State) {
    s.appended == s.applied + Current(s.consumer) + s.msgs
  }

  /** A sleeping consumer with work queued has a signal coming. */
  ghost predicate NoLostWakeup(s: State) {
    s.consumer.Waiting? && s.msgs != [] ==> AtAppended(s.producers) != {}
  }

  /** The messages of one producer, in order. */
  function From(entries: seq<Entry>, p: nat): seq<Message> {
    if entries == [] then []
    else
      var e := entries[|entries| - 1];
      From(entries[..|entries| - 1], p) + if e.from == p then [e.msg] else []
  }

  function Outstanding(ps: map<nat, Producer>, p: nat): seq<Message> {
    if p in ps && !ps[p].Appended? then [ps[p].msg] else []
  }

  ghost predicate CallsInOrder(s: State, p: nat) {
    From(s.called, p) == From(s.appended, p) + Outstanding(s.producers, p)
  }

  ghost predicate Inv(s: State) {
    TokensAddUp(s) && InOrder(s) && NoLostWakeup(s) && forall p :: CallsInOrder(s, p)
  }

  lemma StepKeepsTokens(s: State, step: Step)
    requires TokensAddUp(s) && Enabled(s, step)
    ensures TokensAddUp(Next(s, step))
  {
    if step.Call? || step.Acquire? || step.Append? || step.Signal? {
      StepMoves(s, step);
      ProducerMoves(s.producers, Next(s, step).producers, step.p);
    }
  }

  lemma StepKeepsOrder(s: State, step: Step)
    requires InOrder(s) && Enabled(s, step)
    ensures InOrder(Next(s, step))
  {
  }

  lemma StepKeepsWakeup(s: State, step: Step)
    requires NoLostWakeup(s) && Enabled(s, step)
    ensures NoLostWakeup(Next(s, step))
  {
    var r := Next(s, step);
    if step.Append? {
      assert step.p in AtAppended(r.producers);
    } else if AtAppended(s.producers) != {} && !step.Signal? {
      var p :| p in AtAppended(s.producers);
      assert p in AtAppended(r.producers);
    }
  }

  lemma FromAppend(entries: seq<Entry>, e: Entry, p: nat)
    ensures From(entries + [e], p) == From(entries, p) + if e.from == p then [e.msg] else []
  {
    assert (entries + [e])[..|entries|] == entries;
  }

  lemma StepKeepsCalls(s: State, step: Step, p: nat)
    requires CallsInOrder(s, p) && Enabled(s, step)
    ensures CallsInOrder(Next(s, step), p)
  {
    match step
    case Call(q, m) => FromAppend(s.called, Entry(q, m), p);
    case Append(q) => FromAppend(s.appended, Entry(q, s.producers[q].msg), p);
    case _ =>
  }

  lemma StepKeepsInv(s: State, step: Step)
    requires Inv(s) && Enabled(s, step)
    ensures Inv(Next(s, step))
  {
    StepKeepsTokens(s, step);
    StepKeepsOrder(s, step);
    StepKeepsWakeup(s, step);
    forall p ensures CallsInOrder(Next(s, step), p) {
      StepKeepsCalls(s, step, p);
    }
  }

  lemma {:induction false} RunKeepsInv(s: State, steps: seq<Step>)
    requires Inv(s)
    ensures Inv(Run(s, steps)) && Run(s, steps).size == s.size
    decreases |steps|
  {
    if steps != [] {
      var init, step := steps[..|steps| - 1], steps[|steps| - 1];
      RunKeepsInv(s, init);
      if Enabled(Run(s, init), step) {
        StepKeepsInv(Run(s, init), step);
      }
    }
  }

  lemma FreshInv(size: nat)
    ensures Inv(Fresh(size))
  {
    assert AtReserved(map[]) == {};
  }

  /**
   In every interleaving the queue stays within `size`, giving a token back never
   blocks, and the messages applied so far are the first ones queued, in order.
   */
  lemma BoundedAndInOrder(size: nat, steps: seq<Step>)
    ensures var s := Run(Fresh(size), steps);
            && |s.msgs| <= size
            && (s.consumer.Returning? ==> Enabled(s, Release))
            && s.applied <= s.appended
  {
    FreshInv(size);
    RunKeepsInv(Fresh(size), steps);
  }

  lemma {:induction false} FromTogether(a: seq<Entry>, b: seq<Entry>, p: nat)
    ensures From(a + b, p) == From(a, p) + From(b, p)
    decreases |b|
  {
    if b == [] {
      assert a + b == a;
    } else {
      var init, e := b[..|b| - 1], b[|b| - 1];
      FromTogether(a, init, p);
      assert a + b == (a + init) + [e];
      FromAppend(a + init, e, p);
    }
  }

  /** Each producer's messages are applied in the order of its calls. */
  lemma CallOrderIsKept(size: nat, steps: seq<Step>, p: nat)
    ensures var s := Run(Fresh(size), steps); From(s.applied, p) <= From(s.called, p)
  {
    FreshInv(size);
    RunKeepsInv(Fresh(size), steps);
    var s := Run(Fresh(size), steps);
    var rest := Current(s.consumer) + s.msgs;
    assert s.appended == s.applied + rest;
    FromTogether(s.applied, rest, p);
    assert CallsInOrder(s, p);
  }

  // ---- Every message gets applied ----

  function Effort(c: Consumer): nat {
    match c
    case Waiting => 0
    case Checking => 1
    case Returning => 2
    case Applying(_) => 3
  }

  /** The steps that can still be taken without a new call. */
  ghost function Work(s: State): nat {
    7 * |AtWants(s.producers)| + 6 * |AtReserved(s.producers)| + 2 * |AtAppended(s.producers)|
    + 3 * |s.msgs| + Effort(s.consumer)
  }

  lemma StepIsWork(s: State, step: Step)
    requires Enabled(s, step) && !step.Call?
    ensures Work(Next(s, step)) < Work(s)
  {
    if step.Acquire? || step.Append? || step.Signal? {
      StepMoves(s, step);
      ProducerMoves(s.producers, Next(s, step).producers, step.p);
    }
  }

  ghost predicate Stuck(s: State) {
    forall step: Step :: !step.Call? ==> !Enabled(s, step)
  }

  ghost predicate Settled(s: State) {
    s.producers == map[] && s.msgs == [] && s.consumer.Waiting? && s.applied == s.appended
  }

  /** With room for a message, the stream comes to rest only when all is applied and the consumer sleeps. */
  lemma StuckMeansDone(s: State)
    requires Inv(s) && s.size > 0
    ensures Stuck(s) <==> Settled(s)
  {
    if Stuck(s) {
      assert !Enabled(s, Take) && !Enabled(s, Sleep) && !Enabled(s, Apply) && !Enabled(s, Release);
      assert AtReserved(s.producers) == {} by {
        forall p | p in s.producers ensures !s.producers[p].Reserved? {
          assert !Enabled(s, Append(p));
        }
      }
      assert AtAppended(s.producers) == {} by {
        forall p | p in s.producers ensures !s.producers[p].Appended? {
          assert !Enabled(s, Signal(p));
        }
      }
      NoneWaiting(s);
    }
  }

  lemma NoneWaiting(s: State)
    requires Inv(s) && s.size > 0 && Stuck(s)
    requires s.consumer.Waiting? && AtReserved(s.producers) == {} && AtAppended(s.producers) == {}
    ensures s.producers == map[]
  {
    forall p: nat ensures p !in s.producers {
      assert !Enabled(s, Acquire(p));
      assert p !in AtReserved(s.producers) && p !in AtAppended(s.producers);
    }
  }

  predicate EachEnabled(s: State, steps: seq<Step>)
    decreases |steps|
  {
    steps == []
    || (EachEnabled(s, steps[..|steps| - 1])
        && Enabled(Run(s, steps[..|steps| - 1]), steps[|steps| - 1])
        && !steps[|steps| - 1].Call?)
  }

  lemma {:induction false} RunIsWork(s: State, steps: seq<Step>)
    requires EachEnabled(s, steps)
    ensures Work(Run(s, steps)) + |steps| <= Work(s)
    decreases |steps|
  {
    if steps != [] {
      var init, step := steps[..|steps| - 1], steps[|steps| - 1];
      RunIsWork(s, init);
      StepIsWork(Run(s, init), step);
    }
  }

  /**
   However the goroutines are scheduled after the last call, the stream stops
   within `Work` steps, and when it can go no further every message called in
   has been applied.
   */
  lemma EveryMessageIsApplied(size: nat, before: seq<Step>, after: seq<Step>, p: nat)
    requires size > 0
    requires EachEnabled(Run(Fresh(size), before), after)
    ensures var s := Run(Fresh(size), before);
            var r := Run(s, after);
            && |after| <= Work(s)
            && (Stuck(r) ==> From(r.applied, p) == From(r.called, p))
  {
    FreshInv(size);
    RunKeepsInv(Fresh(size), before);
    var s := Run(Fresh(size), before);
    RunIsWork(s, after);
    RunKeepsInv(s, after);
    var r := Run(s, after);
    StuckMeansDone(r);
    assert CallsInOrder(r, p);
  }

  /** A stream without room never lets a producer past its semaphore. */
  lemma {:induction false} NoRoomNoProgress(steps: seq<Step>)
    ensures Run(Fresh(0), steps).applied == Run(Fresh(0), steps).appended == []
    ensures AtReserved(Run(Fresh(0), steps).producers) == {}
    decreases |steps|
  {
    FreshInv(0);
    RunKeepsInv(Fresh(0), steps);
    if steps == [] {
      assert AtReserved(map[]) == {};
    } else {
      var init, step := steps[..|steps| - 1], steps[|steps| - 1];
      NoRoomNoProgress(init);
      RunKeepsInv(Fresh(0), init);
      var m := Run(Fresh(0), init);
      if step.Append? {
        assert step.p !in AtReserved(m.producers);
      }
    }
  }

  // ---- The stream object ----

  class MsgStream {
    const size: nat
    var free: nat
    var msgs: seq<Entry>
    ghost var state: State

    ghost predicate Valid()
      reads this
    {
      Inv(state) && state.size == size && state.free == free && state.msgs == msgs
    }

    constructor (size: nat)
      ensures Valid() && this.size == size && state == Fresh(size)
    {
      this.size := size;
      free := 0;
      msgs := [];
      state := Fresh(size);
      new;
      while free < size
        invariant free <= size && this.size == size && msgs == [] && state == Fresh(size)
      {
        free := free + 1;
      }
      FreshInv(size);
    }

    /** A step that leaves the queue and the semaphore alone: a call, a signal, or applying a message. */
    ghost method Proceed(step: Step)
      requires Valid() && Enabled(state, step) && (step.Call? || step.Signal? || step.Apply?)
      modifies this`state
      ensures Valid() && state == Next(old(state), step)
    {
      StepKeepsInv(state, step);
      state := Next(state, step);
    }

    /** Takes a token for `p`, if there is one. */
    method Acquire(p: nat) returns (ok: bool)
      requires Valid() && p in state.producers && state.producers[p].Wants?
      modifies this
      ensures Valid() && ok == Enabled(old(state), Step.Acquire(p))
      ensures state == if ok then Next(old(state), Step.Acquire(p)) else old(state)
    {
      ok := free > 0;
      if ok {
        free := free - 1;
        StepKeepsInv(state, Step.Acquire(p));
        state := Next(state, Step.Acquire(p));
      }
    }

    /** Queues the message of a producer that holds a token; the queue has room for it. */
    method Append(p: nat, msg: Message)
      requires Valid() && p in state.producers && state.producers[p] == Reserved(msg)
      modifies this
      ensures Valid() && state == Next(old(state), Step.Append(p))
      ensures |msgs| <= size
    {
      msgs := msgs + [Entry(p, msg)];
      StepKeepsInv(state, Step.Append(p));
      state := Next(state, Step.Append(p));
    }

    /** Removes the oldest message, or tells the consumer to sleep. */
    method Take() returns (entry: Option<Entry>)
      requires Valid() && state.consumer.Checking?
      modifies this
      ensures Valid()
      ensures entry.Some? <==> old(msgs) != []
      ensures state == Next(old(state), if old(msgs) != [] then Step.Take else Sleep)
      ensures entry.Some? ==> state.consumer == Applying(entry.value)
    {
      if msgs == [] {
        entry := None;
        StepKeepsInv(state, Sleep);
        state := Next(state, Sleep);
      } else {
        entry := Some(msgs[0]);
        msgs := msgs[1..];
        StepKeepsInv(state, Step.Take);
        state := Next(state, Step.Take);
      }
    }

    /** Returns the token of an applied message; its semaphore has room for it. */
    method Release()
      requires Valid() && state.consumer.Returning?
      modifies this
      ensures Valid() && Enabled(old(state), Step.Release) && state == Next(old(state), Step.Release)
    {
      free := free + 1;
      StepKeepsInv(state, Step.Release);
      state := Next(state, Step.Release);
    }
  }
}
