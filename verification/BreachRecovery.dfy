/**
 Recovery of the breach arbiter: from every state that a run with crashes can
 reach, a restart resumes each open breach, and each can still be brought to justice.
 */
module BreachRecovery {
  import opened Primitives
  import Justice
  import opened BreachArbiter

  lemma Then(events: seq<Event>, e: Event) returns (all: seq<Event>)
    requires Enabled(Run(Fresh, events), e)
    ensures all == events + [e] && Run(Fresh, all) == Next(Run(Fresh, events), e)
  {
    all := events + [e];
    assert all[..|events|] == events;
  }

  // ---- Start can always be completed ----

  /** Once Start has been through the closed channels, the store holds what it found and is not fully closed. */
  lemma AllVisited(events: seq<Event>)
    requires var m := Run(Fresh, events); m.phase.Reconciling? && m.phase.todo == {}
    ensures var m := Run(Fresh, events); m.store.Keys == m.phase.infos == m.phase.found - m.closed
  {
    StartLoadsOpenBreaches(events);
  }

  lemma VisitEffect(s: State, summary: Summary)
    requires s.phase.Reconciling? && summary in s.phase.todo
    ensures var r := Reconcile(s, summary);
            && r.phase.Reconciling? && r.phase.todo == s.phase.todo - {summary} && r.phase.found == s.phase.found
            && r.closed == s.closed && r.threads == s.threads
            && (forall c :: c in r.store ==> c in s.store && r.store[c] == s.store[c])
  {
  }

  /** Start's loop over the closed channels can be completed; it drops the fully closed breaches and no others. */
  lemma {:induction false} VisitRest(events: seq<Event>) returns (all: seq<Event>)
    requires Run(Fresh, events).phase.Reconciling?
    ensures events <= all
    ensures var m, r := Run(Fresh, events), Run(Fresh, all);
            && r.phase.Reconciling? && r.phase.todo == {} && r.phase.found == m.phase.found
            && r.closed == m.closed && r.threads == m.threads
            && (forall c :: c in r.store ==> c in m.store && r.store[c] == m.store[c])
    decreases |Run(Fresh, events).phase.todo|
  {
    var m := Run(Fresh, events);
    if m.phase.todo == {} {
      all := events;
    } else {
      var summary :| summary in m.phase.todo;
      VisitEffect(m, summary);
      var more := Then(events, Visit(summary));
      all := VisitRest(more);
    }
  }

  /** A goroutine works on the retribution of `c` and is at its beginning. */
  ghost predicate Resumed(s: State, c: OutPoint) {
    exists t :: t in s.threads && s.threads[t] == Thread(c, AwaitBreach)
  }

  /** Start can launch every retribution that is left. */
  lemma {:induction false} SpawnRest(events: seq<Event>, n: nat) returns (all: seq<Event>)
    requires Run(Fresh, events).phase.Spawning? && forall t :: t in Run(Fresh, events).threads ==> t < n
    ensures events <= all
    ensures var m, r := Run(Fresh, events), Run(Fresh, all);
            && r.phase == Spawning({}) && r.closed == m.closed && r.store == m.store
            && (forall t :: t in m.threads ==> t in r.threads && r.threads[t] == m.threads[t])
            && (forall c :: c in m.phase.left ==> Resumed(r, c))
    decreases |Run(Fresh, events).phase.left|
  {
    var m := Run(Fresh, events);
    if m.phase.left == {} {
      all := events;
    } else {
      var c :| c in m.phase.left;
      var more := Then(events, Spawn(n, c));
      assert Run(Fresh, more).threads[n] == Thread(c, AwaitBreach);
      all := SpawnRest(more, n + 1);
      assert Run(Fresh, all).threads[n] == Thread(c, AwaitBreach);
    }
  }

  function PlainSummaries(closed: set<OutPoint>): set<Summary> {
    set c | c in closed :: Summary(c, false)
  }

  lemma AllFullyClosed(closed: set<OutPoint>)
    ensures FullyClosed(PlainSummaries(closed)) == closed
  {
    forall c | c in closed
      ensures c in FullyClosed(PlainSummaries(closed))
    {
      assert Summary(c, false) in PlainSummaries(closed);
    }
  }

  /** A crash, a boot and the reading of the two databases: the arbiter is about to compare them. */
  lemma CanRead(events: seq<Event>) returns (all: seq<Event>)
    ensures events <= all
    ensures var s, r := Run(Fresh, events), Run(Fresh, all);
            && r.phase.Reconciling? && r.phase.found == s.store.Keys
            && r.closed == s.closed && r.threads == map[] && r.store == s.store
  {
    var closed := Run(Fresh, events).closed;
    AllFullyClosed(closed);
    all := Then(events, Crash);
    all := Then(all, Boot);
    all := Then(all, ReadClosed(PlainSummaries(closed)));
  }

  /**
   However a run went, the arbiter can crash and start again. It then runs with a
   goroutine for each stored breach that is not fully closed, and with its record as it was.
   */
  lemma RestartResumes(events: seq<Event>) returns (all: seq<Event>)
    ensures events <= all
    ensures var s, r := Run(Fresh, events), Run(Fresh, all);
            && r.phase == Running && r.closed == s.closed && r.store.Keys == s.store.Keys - s.closed
            && (forall c :: c in r.store ==> r.store[c] == s.store[c] && Resumed(r, c))
  {
    var read := CanRead(events);
    var visited := VisitRest(read);
    AllVisited(visited);
    var spawning := Then(visited, StartSpawning);
    var spawned := SpawnRest(spawning, 0);
    all := Then(spawned, Started);
    assert forall c :: c in Run(Fresh, all).store ==> Resumed(Run(Fresh, spawned), c);
  }

  // ---- Every breach can be brought to justice ----

  /** Goroutine `t` works for `c` and is at `pc`. */
  ghost predicate At(events: seq<Event>, t: nat, c: OutPoint, pc: Pc) {
    t in Run(Fresh, events).threads && Run(Fresh, events).threads[t] == Thread(c, pc)
  }

  /** One step of goroutine `t`, which goes on to `next`. */
  lemma Onward(events: seq<Event>, t: nat, c: OutPoint, pc: Pc, o: Outcome, next: Pc) returns (all: seq<Event>)
    requires At(events, t, c, pc) && NextPc(Run(Fresh, events), Thread(c, pc), o) == Some(next)
    ensures events <= all && At(all, t, c, next)
    ensures var s, r, now := Run(Fresh, events), Run(Fresh, all), Recorded(Run(Fresh, events), Thread(c, pc), o);
            r.store == now.store && r.justice == now.justice && r.closed == now.closed
  {
    all := Then(events, Advance(t, o));
  }

  /** A resumed retribution reaches a justice transaction: the one on record, or else a newly signed one. */
  lemma CanGetReady(events: seq<Event>, t: nat, c: OutPoint, tx: Justice.JusticeTx)
    returns (all: seq<Event>, ready: Justice.JusticeTx)
    requires At(events, t, c, AwaitBreach)
    ensures events <= all && At(all, t, c, Ready(ready))
    ensures var s := Run(Fresh, events); ready == if c in s.justice then s.justice[c] else tx
  {
    var s := Run(Fresh, events);
    all := Onward(events, t, c, AwaitBreach, Outcome.Ok, Load);
    if c in s.justice {
      ready := s.justice[c];
      all := Onward(all, t, c, Load, Outcome.Ok, Ready(ready));
    } else {
      ready := tx;
      all := Onward(all, t, c, Load, Outcome.Ok, Build);
      all := Onward(all, t, c, Build, Signed(tx), Ready(tx));
    }
  }

  lemma CanRemove(events: seq<Event>, t: nat, c: OutPoint) returns (all: seq<Event>)
    requires At(events, t, c, Remove) && c in Run(Fresh, events).closed
    ensures events <= all && AtRest(Run(Fresh, all), c)
  {
    all := Then(events, Advance(t, Outcome.Ok));
  }

  lemma CanClose(events: seq<Event>, t: nat, c: OutPoint) returns (all: seq<Event>)
    requires At(events, t, c, MarkClosed)
    ensures events <= all && AtRest(Run(Fresh, all), c)
  {
    var closed := Onward(events, t, c, MarkClosed, Outcome.Ok, Remove);
    all := CanRemove(closed, t, c);
  }

  lemma CanBeServed(events: seq<Event>, t: nat, c: OutPoint, tx: Justice.JusticeTx) returns (all: seq<Event>)
    requires At(events, t, c, AwaitJustice(tx))
    ensures events <= all && AtRest(Run(Fresh, all), c)
  {
    var served := Onward(events, t, c, AwaitJustice(tx), Outcome.Ok, MarkClosed);
    all := CanClose(served, t, c);
  }

  lemma CanPublish(events: seq<Event>, t: nat, c: OutPoint, tx: Justice.JusticeTx) returns (all: seq<Event>)
    requires At(events, t, c, Ready(tx))
    ensures events <= all && AtRest(Run(Fresh, all), c)
  {
    var published := Onward(events, t, c, Ready(tx), Outcome.Ok, AwaitJustice(tx));
    all := CanBeServed(published, t, c, tx);
  }

  /** The channel is fully closed, and the arbiter keeps nothing about it. */
  ghost predicate AtRest(s: State, c: OutPoint) {
    c in s.closed && c !in s.store && c !in s.justice
  }

  /**
   From every state of every run, a stored breach can still be completed: it is
   never in a position from which a restart does not lead to justice.
   */
  lemma StoredCanBeServed(events: seq<Event>, c: OutPoint)
    requires c in Run(Fresh, events).store
    ensures exists all :: events <= all && AtRest(Run(Fresh, all), c)
  {
    var all := RestartResumes(events);
    if c in Run(Fresh, all).store {
      var t :| t in Run(Fresh, all).threads && Run(Fresh, all).threads[t] == Thread(c, AwaitBreach);
      var tx: Justice.JusticeTx :| true;
      var ready;
      all, ready := CanGetReady(all, t, c, tx);
      all := CanPublish(all, t, c, ready);
    } else {
      RunKeepsInv(all);
    }
    assert events <= all && AtRest(Run(Fresh, all), c);
  }

  /** So can an acknowledged one, unless that has happened already. */
  lemma AcknowledgedIsServed(events: seq<Event>, c: OutPoint)
    requires c in Run(Fresh, events).acked
    ensures exists all :: events <= all && c in Run(Fresh, all).closed
  {
    CrashSafety(events);
    if c in Run(Fresh, events).closed {
      assert events <= events;
    } else {
      StoredCanBeServed(events, c);
      var all :| events <= all && AtRest(Run(Fresh, all), c);
      assert c in Run(Fresh, all).closed;
    }
  }
}
