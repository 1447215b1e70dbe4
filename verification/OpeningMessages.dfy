/**
 How often the messages of a channel opening are sent, and what a worker that
 failed leaves behind.
 */
module OpeningMessages {
  import opened Primitives
  import opened OpeningRecords
  import opened ChannelOpening

  /** How many messages of kind `k` were sent: funding locked, the two graph messages and the announcement. */
  function Count(log: seq<Event>, k: nat): nat {
    if log == [] then 0 else Count(log[..|log| - 1], k) + if Place(log[|log| - 1]) == k then 1 else 0
  }

  /** The worker has yet to send that message. */
  predicate MaySend(worker: Worker, k: nat) {
    worker.Awaiting? || (worker.At? && SentBefore(worker.pc) <= k)
  }

  function One(b: bool): nat {
    if b then 1 else 0
  }

  function Starts(steps: seq<Step>): nat {
    if steps == [] then 0 else One(steps[0].Start?) + Starts(steps[1..])
  }

  lemma CountMore(log: seq<Event>, sent: seq<Event>, k: nat)
    requires |sent| <= 1
    ensures Count(log + sent, k) == Count(log, k) + One(sent != [] && Place(sent[0]) == k)
  {
    if sent == [] {
      assert log + sent == log;
    } else {
      assert (log + sent)[..|log|] == log;
    }
  }

  /** A worker sends a message only if it had yet to, and has not after that. */
  lemma WorkResends(pc: Pc, id: ShortChannelId, confs: nat, k: nat)
    requires k < 4
    ensures var sent := SentBy(pc, id, confs);
            && |sent| <= 1
            && One(sent != [] && Place(sent[0]) == k) + One(!pc.Delete? && SentBefore(NextPc(pc)) <= k)
               <= One(SentBefore(pc) <= k)
  {
  }

  ghost predicate Resends(s: State, r: State, k: nat, starts: nat) {
    Count(r.log, k) + One(MaySend(r.worker, k)) <= Count(s.log, k) + One(MaySend(s.worker, k)) + starts
  }

  lemma WorkStepResends(s: State, k: nat)
    requires Enabled(s, Work) && k < 4
    ensures Resends(s, Next(s, Work), k, 0)
  {
    var At(pc, id) := s.worker;
    WorkResends(pc, id, s.confs, k);
    CountMore(s.log, SentBy(pc, id, s.confs), k);
  }

  /** Only a start brings a worker that may send again what was sent. */
  lemma StepResends(s: State, step: Step, k: nat)
    requires Enabled(s, step) && k < 4
    ensures Resends(s, Next(s, step), k, One(step.Start?))
  {
    if step.Work? {
      WorkStepResends(s, k);
    } else {
      assert Next(s, step).log == s.log;
    }
  }

  lemma {:induction false} RunResends(s: State, steps: seq<Step>, k: nat)
    requires k < 4
    ensures Resends(s, Run(s, steps), k, Starts(steps))
    decreases |steps|
  {
    if steps != [] {
      if Enabled(s, steps[0]) {
        StepResends(s, steps[0], k);
        RunResends(Next(s, steps[0]), steps[1..], k);
      } else {
        RunResends(s, steps[1..], k);
      }
    }
  }

  /** In every run each message is sent at most once, and once more for each restart. */
  lemma OncePerStart(required: nat, public: bool, steps: seq<Step>, k: nat)
    requires k < 4
    ensures Count(Run(Fresh(required, public), steps).log, k) <= 1 + Starts(steps)
  {
    RunResends(Fresh(required, public), steps, k);
  }

  lemma {:induction false} HeldIsCounted(log: seq<Event>, i: nat)
    requires i < |log|
    ensures Count(log, Place(log[i])) >= 1
    decreases |log|
  {
    if i < |log| - 1 {
      HeldIsCounted(log[..|log| - 1], i);
    }
  }

  lemma HoldsIsCounted(log: seq<Event>, k: nat)
    requires k < 4 && Holds(log, k)
    ensures Count(log, k) >= 1
  {
    var i :| 0 <= i < |log| && Place(log[i]) == k;
    HeldIsCounted(log, i);
  }

  /** Without a restart a completed opening has sent each of its four messages exactly once. */
  lemma ExactlyOnce(required: nat, public: bool, steps: seq<Step>, k: nat)
    requires k < 4 && Starts(steps) == 0 && Run(Fresh(required, public), steps).done
    ensures Count(Run(Fresh(required, public), steps).log, k) == 1
  {
    OncePerStart(required, public, steps, k);
    OpeningIsOrdered(required, public, steps);
    HoldsIsCounted(Run(Fresh(required, public), steps).log, k);
  }

  function Blocks(steps: seq<Step>): nat {
    if steps == [] then 0 else One(steps[0].Block?) + Blocks(steps[1..])
  }

  /** The depth a message records is the number of blocks since the funding transaction was first included. */
  lemma {:induction false} DepthIsBlocks(s: State, steps: seq<Step>)
    ensures Run(s, steps).confs == s.confs + Blocks(steps)
    decreases |steps|
  {
    if steps != [] {
      DepthIsBlocks(if Enabled(s, steps[0]) then Next(s, steps[0]) else s, steps[1..]);
    }
  }

  // ---- Failures ----

  predicate NoCrash(steps: seq<Step>) {
    forall i :: 0 <= i < |steps| ==> !steps[i].Crash?
  }

  lemma {:induction false} IdleStays(s: State, steps: seq<Step>)
    requires s.worker.Idle? && NoCrash(steps)
    ensures Run(s, steps) == s.(confs := Run(s, steps).confs)
    decreases |steps|
  {
    if steps != [] {
      IdleStays(if Enabled(s, steps[0]) then Next(s, steps[0]) else s, steps[1..]);
    }
  }

  /**
   A worker can fail at any point. It leaves the records and the messages as they
   are, and nothing more happens to the channel until the node has gone down.
   */
  lemma FailureWaitsForRestart(s: State, steps: seq<Step>)
    requires (s.worker.Awaiting? || s.worker.At?) && NoCrash(steps)
    ensures var r := Run(s, [Fail] + steps);
            r.marked == s.marked && r.record == s.record && r.log == s.log && r.done == s.done && r.worker.Idle?
  {
    RunStep(s, Fail, steps);
    IdleStays(Next(s, Fail), steps);
  }
}
