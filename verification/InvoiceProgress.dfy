/**
 Progress of the invoice notifications: the event queue is bounded, the writer and
 the notifier never wait for each other for ever, and what they leave undone is counted.
 */
module InvoiceProgress {
  import opened Primitives
  import opened InvoiceEvents

  /** The steps the goroutines take on their own, without a new invoice or request. */
  predicate Internal(step: Step) {
    step.Enqueue? || step.FinishSubscribe? || step.Dispatch?
  }

  /** How many such steps are left. */
  function Left(s: State): nat {
    (if s.pending.Some? then 2 else 0) + |s.queue| + if s.joining.Some? then 1 else 0
  }

  ghost predicate AtRest(s: State) {
    s.pending.None? && s.queue == [] && s.joining.None?
  }

  lemma InternalLowers(s: State, step: Step)
    requires Enabled(s, step) && Internal(step)
    ensures Left(Next(s, step)) + 1 == Left(s)
  {
  }

  /** No goroutine can move if and only if every event has been dispatched and every client registered. */
  lemma StuckIff(s: State)
    ensures (forall step :: Internal(step) ==> !Enabled(s, step)) <==> AtRest(s)
  {
    if s.joining.Some? {
      assert Enabled(s, FinishSubscribe) && Internal(FinishSubscribe);
    } else if s.queue != [] {
      assert Enabled(s, Dispatch) && Internal(Dispatch);
    } else if s.pending.Some? {
      assert Enabled(s, Enqueue) && Internal(Enqueue);
    }
  }

  /** How many of `more` are internal steps that can be taken when their turn comes. */
  function Taken(s: State, more: seq<Step>): nat
    decreases |more|
  {
    if more == [] then 0
    else
      var m, step := Run(s, more[..|more| - 1]), more[|more| - 1];
      Taken(s, more[..|more| - 1]) + if Internal(step) && Enabled(m, step) then 1 else 0
  }

  lemma {:induction false} TakenAreLeft(s: State, more: seq<Step>)
    requires forall i :: 0 <= i < |more| ==> Internal(more[i])
    ensures Taken(s, more) + Left(Run(s, more)) == Left(s)
    decreases |more|
  {
    if more != [] {
      var init, step := more[..|more| - 1], more[|more| - 1];
      TakenAreLeft(s, init);
      if Enabled(Run(s, init), step) {
        InternalLowers(Run(s, init), step);
      }
    }
  }

  lemma {:induction false} RunJoins(s: State, steps: seq<Step>, more: seq<Step>)
    ensures Run(s, steps + more) == Run(Run(s, steps), more)
    decreases |more|
  {
    if more == [] {
      assert steps + more == steps;
    } else {
      var init := more[..|more| - 1];
      assert (steps + more)[..|steps + more| - 1] == steps + init;
      RunJoins(s, steps, init);
    }
  }

  function Written(s: State, k: Kind): nat {
    if k == Add then s.adds else s.settles
  }

  /**
   However the goroutines are scheduled, they take exactly as many steps as were
   left and then stop; by then every event has been dispatched.
   */
  lemma EveryEventIsDispatched(steps: seq<Step>, more: seq<Step>, k: Kind)
    requires forall i :: 0 <= i < |more| ==> Internal(more[i])
    ensures var s := Run(Fresh, steps);
            && Taken(s, more) <= Left(s)
            && ((forall step :: Internal(step) ==> !Enabled(Run(s, more), step)) <==> Taken(s, more) == Left(s))
            && (Taken(s, more) == Left(s) ==>
                  var r := Run(s, more); r.Done(k) == Written(r, k) == Written(s, k))
  {
    var s := Run(Fresh, steps);
    TakenAreLeft(s, more);
    StuckIff(Run(s, more));
    WritesNothing(s, more, k);
    if Taken(s, more) == Left(s) {
      RunJoins(Fresh, steps, more);
      AtRestIsDone(steps + more, k);
    }
  }

  lemma {:induction false} WritesNothing(s: State, more: seq<Step>, k: Kind)
    requires forall i :: 0 <= i < |more| ==> Internal(more[i])
    ensures Written(Run(s, more), k) == Written(s, k)
    decreases |more|
  {
    if more != [] {
      WritesNothing(s, more[..|more| - 1], k);
    }
  }

  lemma AtRestIsDone(steps: seq<Step>, k: Kind)
    requires AtRest(Run(Fresh, steps))
    ensures Run(Fresh, steps).Done(k) == Written(Run(Fresh, steps), k)
  {
    RunKeepsInv(steps, true);
    assert Run(Fresh, steps).Events() == [];
  }

  /** At rest a client has received every event above its cursor that was written since it joined or is in its backlog. */
  lemma NothingOutstanding(steps: seq<Step>, id: nat, k: Kind, i: nat)
    requires AtRest(Run(Fresh, steps)) && id in Run(Fresh, steps).clients
    requires var t := Run(Fresh, steps).clients[id].Of(k);
             t.start < i <= Written(Run(Fresh, steps), k) && (t.joined < i || InBacklog(t, i))
    ensures Times(Run(Fresh, steps).clients[id], k, i) >= 1
  {
    AtRestIsDone(steps, k);
    OnceOrTwice(steps, id, k, i);
  }

  // ---- The queue ----

  lemma {:induction false} QueueIsBounded(steps: seq<Step>)
    ensures |Run(Fresh, steps).queue| <= 100
    decreases |steps|
  {
    if steps != [] {
      QueueIsBounded(steps[..|steps| - 1]);
    }
  }

  lemma {:induction false} QueueFills(n: nat) returns (steps: seq<Step>)
    requires n <= 100
    ensures |Run(Fresh, steps).queue| == n && Run(Fresh, steps).pending.None?
  {
    if n == 0 {
      steps := [];
    } else {
      var init := QueueFills(n - 1);
      var written := init + [AddInvoice];
      assert written[..|init|] == init;
      steps := written + [Enqueue];
      assert steps[..|written|] == written;
    }
  }

  /** A writer gets ahead of the notifier by up to a hundred events and no more. */
  lemma QueueHoldsAHundred(n: nat)
    ensures (exists steps :: |Run(Fresh, steps).queue| == n) <==> n <= 100
  {
    if n <= 100 {
      var steps := QueueFills(n);
      assert |Run(Fresh, steps).queue| == n;
    } else {
      forall steps
        ensures |Run(Fresh, steps).queue| != n
      {
        QueueIsBounded(steps);
      }
    }
  }

  /** Any settled invoice can be settled again while no event is pending, and then its event comes again. */
  lemma SettlesAgain(steps: seq<Step>, i: nat)
    requires Run(Fresh, steps).pending.None? && 1 <= i <= Run(Fresh, steps).settles
    ensures Run(Fresh, steps + [SettleAgain(i)]) == Run(Fresh, steps).(pending := Some(Ev(Settle, i)))
  {
    assert (steps + [SettleAgain(i)])[..|steps|] == steps;
  }

  // ---- Clients ----

  /** What stays of a client: where it started, how far its backlog reached, and what it was sent. */
  ghost predicate Continues(c: Client, d: Client) {
    && c.delivered <= d.delivered
    && forall k :: && d.Of(k).start == c.Of(k).start && d.Of(k).joined == c.Of(k).joined
                   && d.Of(k).backlog == c.Of(k).backlog && c.Of(k).offered <= d.Of(k).offered
  }

  ghost predicate NewId(s: State) {
    s.joining.Some? ==> s.joining.value.id !in s.clients
  }

  /** A step keeps every client but the one that leaves, and a subscription until it is complete. */
  lemma StepKeepsClients(s: State, step: Step, id: nat)
    requires Enabled(s, step) && NewId(s)
    ensures var r := Next(s, step);
            && NewId(r)
            && (id in s.clients && step != Cancel(id) ==> id in r.clients && Continues(s.clients[id], r.clients[id]))
            && (s.joining.Some? && step != FinishSubscribe ==> r.joining == s.joining)
            && (step == Cancel(id) ==> id !in r.clients)
  {
  }

  lemma {:induction false} IdsAreNew(steps: seq<Step>)
    ensures NewId(Run(Fresh, steps))
    decreases |steps|
  {
    if steps != [] {
      var init, step := steps[..|steps| - 1], steps[|steps| - 1];
      IdsAreNew(init);
      if Enabled(Run(Fresh, init), step) {
        StepKeepsClients(Run(Fresh, init), step, 0);
      }
    }
  }

  /** Until it leaves, a registered client stays registered and nothing it was sent is taken back. */
  lemma {:induction false} ClientsStay(steps: seq<Step>, more: seq<Step>, id: nat)
    requires id in Run(Fresh, steps).clients && forall i :: 0 <= i < |more| ==> more[i] != Cancel(id)
    ensures var s, r := Run(Fresh, steps), Run(Fresh, steps + more);
            id in r.clients && Continues(s.clients[id], r.clients[id])
    decreases |more|
  {
    if more == [] {
      assert steps + more == steps;
    } else {
      var init, step := more[..|more| - 1], more[|more| - 1];
      assert (steps + more)[..|steps + more| - 1] == steps + init;
      ClientsStay(steps, init, id);
      IdsAreNew(steps + init);
      if Enabled(Run(Fresh, steps + init), step) {
        StepKeepsClients(Run(Fresh, steps + init), step, id);
      }
    }
  }

  /** A subscription that has begun is registered by the notifier before it does anything else. */
  lemma {:induction false} SubscribersAreRegistered(steps: seq<Step>, more: seq<Step>)
    requires Run(Fresh, steps).joining.Some? && forall i :: 0 <= i < |more| ==> !more[i].Cancel?
    ensures var j, r := Run(Fresh, steps).joining.value, Run(Fresh, steps + more);
            if FinishSubscribe in more then j.id in r.clients else r.joining == Some(j)
    decreases |more|
  {
    if more == [] {
      assert steps + more == steps;
    } else {
      var init, step := more[..|more| - 1], more[|more| - 1];
      assert more == init + [step];
      assert (steps + more)[..|steps + more| - 1] == steps + init;
      SubscribersAreRegistered(steps, init);
      IdsAreNew(steps + init);
      if Enabled(Run(Fresh, steps + init), step) {
        StepKeepsClients(Run(Fresh, steps + init), step, Run(Fresh, steps).joining.value.id);
      }
    }
  }

  /** A client can always leave: the notifier takes its request at once, or after the subscription in progress. */
  lemma CanLeave(steps: seq<Step>, id: nat)
    ensures var s := Run(Fresh, steps);
            id !in Run(s, if s.joining.Some? then [FinishSubscribe, Cancel(id)] else [Cancel(id)]).clients
  {
    var s := Run(Fresh, steps);
    assert Run(s, []) == s;
    if s.joining.Some? {
      assert [FinishSubscribe, Cancel(id)][..1] == [FinishSubscribe];
      assert Run(s, [FinishSubscribe]) == Next(s, FinishSubscribe);
    }
  }
}
