/**
 One round of watching breached HTLC outputs for second-level spends: one
 goroutine per output, two buffered channels, and a main goroutine that waits
 for the first signal, stops the others and collects what they found. The
 lemmas hold for every interleaving.
 */
module SpendWatch {
  import opened Primitives
  import opened RetributionCodec
  import opened Justice

  /** Where a goroutine is: waiting, holding a spend, after the first send, after the second, or gone. */
  datatype Pc = Watching | Got(spend: Spend) | Sent | Signalled | Left

  datatype Main = Waiting | Joining | Drained

  /**
   `pending` holds the event buffered in an output's cached subscription, and
   `fired` every event that was ever delivered to one.
   */
  datatype Watch = Watch(pcs: map<nat, Pc>, pending: map<nat, Spend>, fired: map<nat, Spend>,
                         allSpends: seq<Detected>, anySpend: nat, main: Main, capacity: nat)

  datatype Step = Arrives(i: nat, spend: Spend) | Detect(i: nat) | SendSpend(i: nat) | Signal(i: nat)
                | Leave(i: nat) | Wake | Join

  predicate Finished(pc: Pc) {
    pc == Signalled || pc == Left
  }

  predicate Enabled(w: Watch, s: Step) {
    match s
    case Arrives(i, _) => i in w.pcs && i !in w.fired
    case Detect(i) => i in w.pcs && w.pcs[i] == Watching && i in w.pending
    case SendSpend(i) => i in w.pcs && w.pcs[i].Got? && |w.allSpends| < w.capacity
    case Signal(i) => i in w.pcs && w.pcs[i] == Sent && w.anySpend < w.capacity
    case Leave(i) => i in w.pcs && w.pcs[i] == Watching
    case Wake => w.main == Waiting && w.anySpend > 0
    case Join => w.main == Joining && forall i :: i in w.pcs ==> Finished(w.pcs[i])
  }

  function Next(w: Watch, s: Step): Watch
    requires Enabled(w, s)
  {
    match s
    case Arrives(i, spend) => w.(pending := w.pending[i := spend], fired := w.fired[i := spend])
    case Detect(i) => w.(pcs := w.pcs[i := Got(w.pending[i])], pending := w.pending - {i})
    case SendSpend(i) =>
      w.(pcs := w.pcs[i := Sent], allSpends := w.allSpends + [Detected(i, w.pcs[i].spend)])
    case Signal(i) => w.(pcs := w.pcs[i := Signalled], anySpend := w.anySpend + 1)
    case Leave(i) => w.(pcs := w.pcs[i := Left])
    case Wake => w.(anySpend := w.anySpend - 1, main := Joining)
    case Join => w.(main := Drained)
  }

  /** A round starts with a goroutine per registered HTLC output and the events its subscriptions hold. */
  ghost predicate Initial(w: Watch, os: seq<BreachedOutput>) {
    && (forall i :: i in w.pcs ==> i < |os| && IsHtlc(os[i]) && w.pcs[i] == Watching)
    && w.pending.Keys <= w.pcs.Keys && w.fired == w.pending
    && w.allSpends == [] && w.anySpend == 0 && w.main == Waiting
    && w.capacity == |os|
  }

  /** A run; steps that are not enabled when their turn comes are skipped. */
  function Run(w: Watch, steps: seq<Step>): Watch
    decreases |steps|
  {
    if steps == [] then w
    else
      var m := Run(w, steps[..|steps| - 1]);
      var s := steps[|steps| - 1];
      if Enabled(m, s) then Next(m, s) else m
  }

  // ---- Invariant ----

  ghost function SignalledSet(w: Watch): set<nat> {
    set i | i in w.pcs && w.pcs[i] == Signalled
  }

  ghost function SenderSet(w: Watch): set<nat> {
    set i | i in w.pcs && (w.pcs[i] == Sent || w.pcs[i] == Signalled)
  }

  /** Each delivered event is in exactly one place: its subscription, a goroutine, or the result. */
  ghost predicate Located(w: Watch, i: nat)
    requires i in w.pcs
  {
    match w.pcs[i]
    case Watching => i in w.fired ==> i in w.pending && w.pending[i] == w.fired[i]
    case Left => i in w.fired ==> i in w.pending && w.pending[i] == w.fired[i]
    case Got(spend) => i in w.fired && spend == w.fired[i] && i !in w.pending
    case Sent => i in w.fired && i !in w.pending && Detected(i, w.fired[i]) in w.allSpends
    case Signalled => i in w.fired && i !in w.pending && Detected(i, w.fired[i]) in w.allSpends
  }

  ghost predicate AllLocated(w: Watch) {
    && (forall i :: i in w.pcs ==> Located(w, i))
    && w.pending.Keys <= w.fired.Keys <= w.pcs.Keys
  }

  /** The results come from goroutines past their first send, one each. */
  ghost predicate ResultsDistinct(w: Watch) {
    && (forall k :: 0 <= k < |w.allSpends| ==> w.allSpends[k].index in SenderSet(w))
    && (forall j, k :: 0 <= j < k < |w.allSpends| ==> w.allSpends[j].index != w.allSpends[k].index)
  }

  /** The main goroutine takes one signal; the others stay in the channel. */
  ghost predicate SignalsCounted(w: Watch) {
    |SignalledSet(w)| == w.anySpend + (if w.main == Waiting then 0 else 1)
  }

  ghost predicate Shape(w: Watch, os: seq<BreachedOutput>) {
    && (forall i :: i in w.pcs ==> i < |os| && IsHtlc(os[i]))
    && w.capacity == |os|
    && (w.main == Drained ==> forall i :: i in w.pcs ==> Finished(w.pcs[i]))
  }

  ghost predicate Inv(w: Watch, os: seq<BreachedOutput>) {
    Shape(w, os) && AllLocated(w) && ResultsDistinct(w) && SignalsCounted(w)
  }

  lemma InitialInv(w: Watch, os: seq<BreachedOutput>)
    requires Initial(w, os)
    ensures Inv(w, os)
  {
    assert SignalledSet(w) == {};
  }

  lemma StepKeepsShape(w: Watch, s: Step, os: seq<BreachedOutput>)
    requires Shape(w, os) && Enabled(w, s)
    ensures Shape(Next(w, s), os)
  {
  }

  lemma StepKeepsLocated(w: Watch, s: Step)
    requires AllLocated(w) && Enabled(w, s)
    ensures AllLocated(Next(w, s))
  {
    var r := Next(w, s);
    forall i | i in r.pcs
      ensures Located(r, i)
    {
      assert Located(w, i);
      if s.SendSpend? {
        assert r.allSpends[|w.allSpends|] == Detected(s.i, w.pcs[s.i].spend);
        assert forall d :: d in w.allSpends ==> d in r.allSpends;
      }
    }
  }

  lemma StepKeepsResults(w: Watch, s: Step)
    requires ResultsDistinct(w) && Enabled(w, s)
    ensures ResultsDistinct(Next(w, s))
  {
  }

  function PcAfter(pc: Pc, s: Step, pending: map<nat, Spend>, i: nat): Pc {
    match s
    case Detect(j) => if i == j && j in pending then Got(pending[j]) else pc
    case SendSpend(j) => if i == j then Sent else pc
    case Signal(j) => if i == j then Signalled else pc
    case Leave(j) => if i == j then Left else pc
    case _ => pc
  }

  lemma StepMovesOne(w: Watch, s: Step)
    requires Enabled(w, s)
    ensures Next(w, s).pcs.Keys == w.pcs.Keys
    ensures forall i :: i in w.pcs ==> Next(w, s).pcs[i] == PcAfter(w.pcs[i], s, w.pending, i)
  {
  }

  lemma SignalledAfter(w: Watch, s: Step)
    requires Enabled(w, s)
    ensures SignalledSet(Next(w, s)) == if s.Signal? then SignalledSet(w) + {s.i} else SignalledSet(w)
    ensures s.Signal? ==> s.i !in SignalledSet(w)
  {
    StepMovesOne(w, s);
  }

  lemma StepKeepsCount(w: Watch, s: Step)
    requires SignalsCounted(w) && Enabled(w, s)
    ensures SignalsCounted(Next(w, s))
  {
    SignalledAfter(w, s);
  }

  lemma {:induction false} RunKeepsInv(w: Watch, steps: seq<Step>, os: seq<BreachedOutput>)
    requires Initial(w, os)
    ensures Inv(Run(w, steps), os)
    decreases |steps|
  {
    if steps == [] {
      InitialInv(w, os);
    } else {
      var m, s := Run(w, steps[..|steps| - 1]), steps[|steps| - 1];
      RunKeepsInv(w, steps[..|steps| - 1], os);
      if Enabled(m, s) {
        StepKeepsShape(m, s, os);
        StepKeepsLocated(m, s);
        StepKeepsResults(m, s);
        StepKeepsCount(m, s);
      }
    }
  }

  // ---- What a round guarantees ----

  lemma {:induction false} SubsetBound(n: nat, s: set<nat>)
    requires forall i :: i in s ==> i < n
    ensures |s| <= n
  {
    if n > 0 {
      SubsetBound(n - 1, s - {n - 1});
    } else {
      assert s == {};
    }
  }

  lemma {:induction false} DistinctBound(ds: seq<Detected>, s: set<nat>)
    requires forall k :: 0 <= k < |ds| ==> ds[k].index in s
    requires forall j, k :: 0 <= j < k < |ds| ==> ds[j].index != ds[k].index
    ensures |ds| <= |s|
    decreases |ds|
  {
    if ds != [] {
      var last := ds[|ds| - 1].index;
      DistinctBound(ds[..|ds| - 1], s - {last});
      assert |s - {last}| == |s| - 1;
    }
  }

  /** The channels' buffers always have room for a goroutine that wants to send. */
  lemma SendersNeverBlock(w0: Watch, steps: seq<Step>, os: seq<BreachedOutput>, i: nat)
    requires Initial(w0, os) && i in Run(w0, steps).pcs
    ensures var w := Run(w0, steps);
            && (w.pcs[i].Got? ==> Enabled(w, SendSpend(i)))
            && (w.pcs[i] == Sent ==> Enabled(w, Signal(i)))
  {
    var w := Run(w0, steps);
    RunKeepsInv(w0, steps, os);
    if w.pcs[i].Got? {
      DistinctBound(w.allSpends, SenderSet(w));
      SubsetBound(|os|, SenderSet(w) + {i});
    } else if w.pcs[i] == Sent {
      SubsetBound(|os|, SignalledSet(w) + {i});
    }
  }

  /**
   When the main goroutine has collected the results, it holds at least one
   spend, each of a different watched output, and every event it does not hold
   is still in the cached subscription of its output.
   */
  lemma DrainedRound(w0: Watch, steps: seq<Step>, os: seq<BreachedOutput>)
    requires Initial(w0, os) && Run(w0, steps).main == Drained
    ensures var w := Run(w0, steps);
            && Drainable(os, w.allSpends)
            && (forall i :: i in w.fired ==> Detected(i, w.fired[i]) in w.allSpends
                                             || (i in w.pending && w.pending[i] == w.fired[i]))
  {
    var w := Run(w0, steps);
    RunKeepsInv(w0, steps, os);
    var first :| first in SignalledSet(w);
    assert Located(w, first);
    forall i | i in w.fired
      ensures Detected(i, w.fired[i]) in w.allSpends || (i in w.pending && w.pending[i] == w.fired[i])
    {
      assert Located(w, i);
    }
  }

  // ---- Which rounds end, and with what ----

  lemma {:induction false} RunKeepsWatched(w: Watch, steps: seq<Step>)
    ensures Run(w, steps).pcs.Keys == w.pcs.Keys
    decreases |steps|
  {
    if steps != [] {
      RunKeepsWatched(w, steps[..|steps| - 1]);
    }
  }

  /** Without a watched HTLC output the main goroutine waits for ever. */
  lemma NothingToWaitFor(w0: Watch, steps: seq<Step>, os: seq<BreachedOutput>)
    requires Initial(w0, os) && w0.pcs == map[]
    ensures Run(w0, steps).main == Waiting
  {
    RunKeepsInv(w0, steps, os);
    RunKeepsWatched(w0, steps);
    assert SignalledSet(Run(w0, steps)) == {};
  }

  lemma RunMore(w: Watch, steps: seq<Step>, s: Step)
    ensures Run(w, steps + [s]) == if Enabled(Run(w, steps), s) then Next(Run(w, steps), s) else Run(w, steps)
  {
    assert (steps + [s])[..|steps|] == steps;
  }

  /** What a watching goroutine's subscription holds, or would hold if `spend` came. */
  function Seen(w: Watch, i: nat, spend: Spend): Spend {
    if i in w.fired then w.fired[i] else spend
  }

  function AfterDelivery(w: Watch, i: nat, spend: Spend): Watch {
    w.(pcs := w.pcs[i := Signalled], pending := w.pending - {i}, fired := w.fired[i := Seen(w, i, spend)],
       allSpends := w.allSpends + [Detected(i, Seen(w, i, spend))], anySpend := w.anySpend + 1)
  }

  /** A watching goroutine can see its output spent and pass that on. */
  lemma Deliver(w: Watch, steps: seq<Step>, i: nat, spend: Spend) returns (more: seq<Step>)
    requires var m := Run(w, steps);
             && i in m.pcs && m.pcs[i] == Watching && |m.allSpends| < m.capacity && m.anySpend < m.capacity
             && Located(m, i) && (i in m.pending ==> i in m.fired)
    ensures Run(w, more) == AfterDelivery(Run(w, steps), i, spend)
  {
    var m := Run(w, steps);
    var s1 := steps + [Arrives(i, spend)];
    var s2 := s1 + [Detect(i)];
    var s3 := s2 + [SendSpend(i)];
    more := s3 + [Signal(i)];
    RunMore(w, steps, Arrives(i, spend));
    RunMore(w, s1, Detect(i));
    RunMore(w, s2, SendSpend(i));
    RunMore(w, s3, Signal(i));
    assert m.pcs[i := Got(Seen(m, i, spend))][i := Sent][i := Signalled] == m.pcs[i := Signalled];
    assert i in m.fired ==> m.fired[i := m.fired[i]] == m.fired;
    assert m.pending[i := spend] - {i} == m.pending - {i};
  }

  /** Once woken, the main goroutine sees the others leave and collects what was found. */
  lemma {:induction false} Collect(w: Watch, steps: seq<Step>, left: set<nat>) returns (more: seq<Step>)
    requires var m := Run(w, steps);
             && m.main == Joining && left <= m.pcs.Keys
             && (forall i :: i in m.pcs ==> if i in left then m.pcs[i] == Watching else Finished(m.pcs[i]))
    ensures Run(w, more).main == Drained && Run(w, more).allSpends == Run(w, steps).allSpends
    decreases |left|
  {
    if left == {} {
      RunMore(w, steps, Join);
      more := steps + [Join];
    } else {
      var i :| i in left;
      RunMore(w, steps, Leave(i));
      more := Collect(w, steps + [Leave(i)], left - {i});
    }
  }

  /** From any state in which some goroutine has signalled and no other has begun to, the round can end. */
  lemma WakeAndCollect(w: Watch, steps: seq<Step>) returns (more: seq<Step>)
    requires var m := Run(w, steps);
             && m.main == Waiting && m.anySpend > 0
             && (forall i :: i in m.pcs ==> m.pcs[i] == Watching || m.pcs[i] == Signalled)
    ensures Run(w, more).main == Drained && Run(w, more).allSpends == Run(w, steps).allSpends
  {
    var m := Run(w, steps);
    RunMore(w, steps, Wake);
    more := Collect(w, steps + [Wake], set i | i in m.pcs && m.pcs[i] == Watching);
  }

  /** A round can end if and only if it watches some output. */
  lemma RoundCanEndIff(w0: Watch, os: seq<BreachedOutput>)
    requires Initial(w0, os)
    ensures (exists steps :: Run(w0, steps).main == Drained) <==> w0.pcs != map[]
  {
    if w0.pcs == map[] {
      forall steps ensures Run(w0, steps).main != Drained {
        NothingToWaitFor(w0, steps, os);
      }
    } else {
      var i :| i in w0.pcs;
      InitialInv(w0, os);
      var spend := Spend(os[i].outpoint.hash, os[i].signDesc.output);
      assert Run(w0, []) == w0;
      var steps := Deliver(w0, [], i, spend);
      steps := WakeAndCollect(w0, steps);
      assert Run(w0, steps).main == Drained;
    }
  }

  /** The round of a justice attempt: every HTLC output is watched and nothing has been seen yet. */
  function StartRound(os: seq<BreachedOutput>): Watch {
    Watch(map i: nat | i < |os| && IsHtlc(os[i]) :: Watching, map[], map[], [], 0, Waiting, |os|)
  }

  /** After the first `k` of `spends` have been passed on. */
  ghost predicate Passed(m: Watch, os: seq<BreachedOutput>, spends: seq<Detected>, k: nat)
    requires k <= |spends|
  {
    && m.pcs.Keys == StartRound(os).pcs.Keys && m.main == Waiting && m.capacity == |os|
    && m.allSpends == spends[..k] && m.anySpend == k && m.pending == map[]
    && (forall i :: i in m.pcs ==>
          if i in Indices(spends[..k]) then m.pcs[i] == Signalled else m.pcs[i] == Watching && i !in m.fired)
  }

  ghost function Indices(spends: seq<Detected>): set<nat> {
    set d | d in spends :: d.index
  }

  lemma OneMoreIndex(spends: seq<Detected>, k: nat)
    requires k < |spends| && forall i, j :: 0 <= i < j < |spends| ==> spends[i].index != spends[j].index
    ensures Indices(spends[..k + 1]) == Indices(spends[..k]) + {spends[k].index}
    ensures spends[k].index !in Indices(spends[..k])
  {
    assert spends[..k + 1] == spends[..k] + [spends[k]];
  }

  lemma SpendsFit(os: seq<BreachedOutput>, spends: seq<Detected>)
    requires Drainable(os, spends)
    ensures |spends| <= |os|
  {
    var s := Indices(spends);
    assert forall k :: 0 <= k < |spends| ==> spends[k] in spends;
    SubsetBound(|os|, s);
    DistinctBound(spends, s);
  }

  lemma PassOne(m: Watch, os: seq<BreachedOutput>, spends: seq<Detected>, k: nat)
    requires Drainable(os, spends) && k < |spends| && Passed(m, os, spends, k)
    ensures var d := spends[k];
            && d.index in m.pcs && m.pcs[d.index] == Watching && d.index !in m.fired
            && Passed(AfterDelivery(m, d.index, d.spend), os, spends, k + 1)
  {
    OneMoreIndex(spends, k);
    assert spends[..k + 1] == spends[..k] + [spends[k]];
    assert m.pending - {spends[k].index} == map[];
  }

  lemma {:induction false} PassAll(os: seq<BreachedOutput>, spends: seq<Detected>, k: nat) returns (steps: seq<Step>)
    requires Drainable(os, spends) && k <= |spends|
    ensures Passed(Run(StartRound(os), steps), os, spends, k)
  {
    if k == 0 {
      steps := [];
    } else {
      var init := PassAll(os, spends, k - 1);
      SpendsFit(os, spends);
      PassOne(Run(StartRound(os), init), os, spends, k - 1);
      steps := Deliver(StartRound(os), init, spends[k - 1].index, spends[k - 1].spend);
    }
  }

  /**
   The rounds that the retry loop of the justice transaction allows for are
   exactly the ones that occur.
   */
  lemma RoundsAreDrainable(os: seq<BreachedOutput>, spends: seq<Detected>)
    ensures (exists steps :: Run(StartRound(os), steps).main == Drained && Run(StartRound(os), steps).allSpends == spends)
            <==> Drainable(os, spends)
  {
    assert Initial(StartRound(os), os);
    if steps :| Run(StartRound(os), steps).main == Drained && Run(StartRound(os), steps).allSpends == spends {
      DrainedRound(StartRound(os), steps, os);
    }
    if Drainable(os, spends) {
      var steps := PassAll(os, spends, |spends|);
      assert spends[..|spends|] == spends;
      steps := WakeAndCollect(StartRound(os), steps);
      assert Run(StartRound(os), steps).main == Drained && Run(StartRound(os), steps).allSpends == spends;
    }
  }
}
