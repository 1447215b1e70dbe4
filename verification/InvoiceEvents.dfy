/**
 Invoice notifications: writers add and settle invoices under the registry's
 lock and queue an event for each; one notifier goroutine registers subscribers,
 sends them their backlog from the database and dispatches queued events. The
 lemmas hold for every interleaving of the two.
 */
module InvoiceEvents {
  import opened Primitives

  datatype Kind = Add | Settle

  /** An invoice with add (or settle) index `index` was added (or settled). */
  datatype Ev = Ev(kind: Kind, index: nat)

  /** A notification sent to a client, from the backlog or as the event was dispatched. */
  datatype Delivery = Delivery(kind: Kind, index: nat, live: bool)

  /**
   A client's cursor for one kind of event. The last three fields record how many
   events had been dispatched when it joined, how far its backlog reached, and
   the indices dispatched since.
   */
  datatype Track = Track(start: nat, cursor: nat, joined: nat, backlog: Option<nat>, offered: seq<nat>)

  datatype Client = Client(adds: Track, settles: Track, delivered: seq<Delivery>) {
    function Of(k: Kind): Track {
      if k == Add then adds else settles
    }
  }

  /** A subscription whose add backlog has been read but not its settle backlog. */
  datatype Joining = Joining(id: nat, add: nat, settle: nat, addsRead: nat)

  /**
   `adds` and `settles` count the database's entries. `pending` is an event whose
   writer still holds the lock. `addsDone` and `settlesDone` count the entries
   whose first event has been dispatched.
   */
  datatype State = State(adds: nat, settles: nat, pending: Option<Ev>, queue: seq<Ev>,
                         addsDone: nat, settlesDone: nat,
                         joining: Option<Joining>, clients: map<nat, Client>)
  {
    function Done(k: Kind): nat {
      if k == Add then addsDone else settlesDone
    }

    function Events(): seq<Ev> {
      queue + if pending.Some? then [pending.value] else []
    }
  }

  const Fresh := State(0, 0, None, [], 0, 0, None, map[])

  const QUEUE_SIZE: nat := 100

  datatype Step =
    | AddInvoice
    | SettleInvoice
    | SettleAgain(index: nat)   // settling a settled invoice repeats its event
    | Enqueue
    | Subscribe(id: nat, add: nat, settle: nat)
    | FinishSubscribe
    | Dispatch
    | Cancel(id: nat)

  predicate Enabled(s: State, step: Step) {
    match step
    case AddInvoice => s.pending.None?
    case SettleInvoice => s.pending.None?
    case SettleAgain(i) => s.pending.None? && 1 <= i <= s.settles
    case Enqueue => s.pending.Some? && |s.queue| < QUEUE_SIZE
    case Subscribe(id, _, _) => s.joining.None? && id !in s.clients
    case FinishSubscribe => s.joining.Some?
    case Dispatch => s.joining.None? && s.queue != []
    case Cancel(id) => s.joining.None?
  }

  /** The backlog for a cursor: none for 0, otherwise every entry above it. */
  function BacklogTo(start: nat, count: nat): Option<nat> {
    if start == 0 then None else Some(if start <= count then count else start)
  }

  function Backlog(k: Kind, low: nat, high: nat): seq<Delivery>
    requires low <= high
  {
    if low == high then [] else Backlog(k, low, high - 1) + [Delivery(k, high, false)]
  }

  /** The settle index is unreadable before anything was settled, unless no backlog is asked for. */
  predicate BacklogFails(settle: nat, settles: nat) {
    settle != 0 && settles == 0
  }

  /** Reading the settle backlog completes a subscription; if that fails nothing is sent. */
  function Joined(s: State, j: Joining): Client {
    var failed := BacklogFails(j.settle, s.settles);
    var addTo: Option<nat> := if failed then None else BacklogTo(j.add, j.addsRead);
    var settleTo: Option<nat> := if failed then None else BacklogTo(j.settle, s.settles);
    Client(Track(j.add, j.add, s.addsDone, addTo, []), Track(j.settle, j.settle, s.settlesDone, settleTo, []),
           (if addTo.Some? then Backlog(Add, j.add, addTo.value) else [])
           + (if settleTo.Some? then Backlog(Settle, j.settle, settleTo.value) else []))
  }

  function Offer(t: Track, i: nat): Track {
    t.(offered := t.offered + [i], cursor := if t.cursor < i then i else t.cursor)
  }

  /** A client is sent an event unless its cursor is already at or past it. */
  function Notify(c: Client, e: Ev): Client {
    var t := c.Of(e.kind);
    var sent := c.(delivered := c.delivered + if t.cursor < e.index then [Delivery(e.kind, e.index, true)] else []);
    if e.kind == Add then sent.(adds := Offer(t, e.index)) else sent.(settles := Offer(t, e.index))
  }

  function Notified(clients: map<nat, Client>, e: Ev): map<nat, Client> {
    map id | id in clients :: Notify(clients[id], e)
  }

  function Next(s: State, step: Step): State
    requires Enabled(s, step)
  {
    match step
    case AddInvoice => s.(adds := s.adds + 1, pending := Some(Ev(Add, s.adds + 1)))
    case SettleInvoice => s.(settles := s.settles + 1, pending := Some(Ev(Settle, s.settles + 1)))
    case SettleAgain(i) => s.(pending := Some(Ev(Settle, i)))
    case Enqueue => s.(queue := s.queue + [s.pending.value], pending := None)
    case Subscribe(id, add, settle) => s.(joining := Some(Joining(id, add, settle, s.adds)))
    case FinishSubscribe =>
      s.(joining := None, clients := s.clients[s.joining.value.id := Joined(s, s.joining.value)])
    case Dispatch =>
      var e := s.queue[0];
      s.(queue := s.queue[1..],
         addsDone := if e == Ev(Add, s.addsDone + 1) then e.index else s.addsDone,
         settlesDone := if e == Ev(Settle, s.settlesDone + 1) then e.index else s.settlesDone,
         clients := Notified(s.clients, e))
    case Cancel(id) => s.(clients := s.clients - {id})
  }

  function Run(s: State, steps: seq<Step>): State
    decreases |steps|
  {
    if steps == [] then s
    else
      var m := Run(s, steps[..|steps| - 1]);
      var step := steps[|steps| - 1];
      if Enabled(m, step) then Next(m, step) else m
  }

  // ---- The queue ----

  /** Events of kind `k` come in index order from `done` to `count`; earlier ones may come again if `repeats`. */
  ghost predicate InSequence(events: seq<Ev>, k: Kind, repeats: bool, done: nat, count: nat)
    decreases |events|
  {
    if events == [] then done == count
    else if events[0].kind != k then InSequence(events[1..], k, repeats, done, count)
    else if events[0].index == done + 1 then InSequence(events[1..], k, repeats, done + 1, count)
    else repeats && 1 <= events[0].index <= done && InSequence(events[1..], k, repeats, done, count)
  }

  lemma {:induction false} SequenceBound(events: seq<Ev>, k: Kind, repeats: bool, done: nat, count: nat)
    requires InSequence(events, k, repeats, done, count)
    ensures done <= count
    decreases |events|
  {
    if events != [] {
      SequenceBound(events[1..], k, repeats, if events[0] == Ev(k, done + 1) then done + 1 else done, count);
    }
  }

  lemma {:induction false} SequenceAppend(events: seq<Ev>, e: Ev, k: Kind, repeats: bool, done: nat, count: nat)
    requires InSequence(events, k, repeats, done, count)
    ensures e.kind != k ==> InSequence(events + [e], k, repeats, done, count)
    ensures e == Ev(k, count + 1) ==> InSequence(events + [e], k, repeats, done, count + 1)
    ensures e.kind == k && repeats && 1 <= e.index <= count ==> InSequence(events + [e], k, repeats, done, count)
    decreases |events|
  {
    if events == [] {
      assert (events + [e])[1..] == [];
    } else {
      assert (events + [e])[1..] == events[1..] + [e];
      SequenceAppend(events[1..], e, k, repeats, if events[0] == Ev(k, done + 1) then done + 1 else done, count);
    }
  }

  // ---- What a client has been sent ----

  /** The indices of kind `k` sent live, and those sent from the backlog, in order. */
  function Sent(ds: seq<Delivery>, k: Kind, live: bool): seq<nat>
    decreases |ds|
  {
    if ds == [] then []
    else
      var d := ds[|ds| - 1];
      Sent(ds[..|ds| - 1], k, live) + if d.kind == k && d.live == live then [d.index] else []
  }

  ghost predicate Increasing(xs: seq<nat>) {
    forall i, j :: 0 <= i < j < |xs| ==> xs[i] < xs[j]
  }

  /** The numbers above `low` up to `high`, in order. */
  function Range(low: nat, high: nat): seq<nat>
    requires low <= high
  {
    seq(high - low, i requires 0 <= i < high - low => low + 1 + i)
  }

  function Larger(x: nat, y: nat): nat {
    if x < y then y else x
  }

  /** When `i` was offered it was above the cursor the client came with and everything offered before. */
  predicate Leads(offered: seq<nat>, start: nat, i: nat)
    decreases |offered|
  {
    offered != [] &&
    var init, last := offered[..|offered| - 1], offered[|offered| - 1];
    Leads(init, start, i) || (last == i && start < i && forall j :: 0 <= j < |init| ==> init[j] < i)
  }

  /** Live deliveries go up from the cursor the client came with, and are what led when it was offered. */
  ghost predicate LiveFits(t: Track, live: seq<nat>, done: nat) {
    && t.joined <= done
    && Increasing(live)
    && (forall i :: 0 <= i < |live| ==> t.start < live[i] <= done)
    && t.cursor == (if live == [] then t.start else live[|live| - 1])
    && (forall i :: Larger(t.start, t.joined) < i <= done ==> i in live)
    && (forall i :: i in live <==> Leads(t.offered, t.start, i))
  }

  /** The cursor is the highest of what was offered and where it started. */
  ghost predicate CursorFits(t: Track, repeats: bool) {
    && (forall j :: 0 <= j < |t.offered| ==> t.offered[j] <= t.cursor)
    && t.start <= t.cursor && (t.cursor == t.start || t.cursor in t.offered)
    && (!repeats ==> forall j :: 0 <= j < |t.offered| ==> t.joined < t.offered[j])
  }

  /** The backlog is every index from the client's cursor to the database's count at the time. */
  ghost predicate BacklogFits(t: Track, sent: seq<nat>) {
    match t.backlog
    case None => sent == []
    case Some(high) => t.start <= high && t.joined <= high && sent == Range(t.start, high)
  }

  /** What fits a track, in terms of the track and what was sent. */
  ghost predicate Fits(t: Track, live: seq<nat>, backlog: seq<nat>, repeats: bool, done: nat) {
    LiveFits(t, live, done) && CursorFits(t, repeats) && BacklogFits(t, backlog)
  }

  ghost predicate TrackFits(c: Client, k: Kind, repeats: bool, done: nat) {
    Fits(c.Of(k), Sent(c.delivered, k, true), Sent(c.delivered, k, false), repeats, done)
  }

  /** `repeats` says whether settled invoices may have been settled again. */
  ghost predicate Inv(s: State, repeats: bool) {
    && InSequence(s.Events(), Add, false, s.addsDone, s.adds)
    && InSequence(s.Events(), Settle, repeats, s.settlesDone, s.settles)
    && (s.joining.Some? ==> s.addsDone <= s.joining.value.addsRead <= s.adds)
    && ClientsFit(s.clients, repeats, s.addsDone, s.settlesDone)
  }

  ghost predicate ClientsFit(clients: map<nat, Client>, repeats: bool, addsDone: nat, settlesDone: nat) {
    forall id :: id in clients ==> ClientFits(clients[id], repeats, addsDone, settlesDone)
  }

  ghost predicate ClientFits(c: Client, repeats: bool, addsDone: nat, settlesDone: nat) {
    TrackFits(c, Add, false, addsDone) && TrackFits(c, Settle, repeats, settlesDone)
  }

  // ---- One client ----

  /** The next event of a kind either advances the number dispatched or repeats an older one. */
  function DoneAfter(done: nat, k: Kind, e: Ev): nat {
    if e == Ev(k, done + 1) then done + 1 else done
  }

  /** The next event of a kind, or one that was dispatched before. */
  predicate Due(i: nat, repeats: bool, done: nat) {
    i == done + 1 || (repeats && 1 <= i <= done)
  }

  lemma LeadsNext(t: Track, i: nat, j: nat, repeats: bool)
    requires CursorFits(t, repeats)
    ensures Leads(Offer(t, i).offered, t.start, j) <==> Leads(t.offered, t.start, j) || (j == i && t.cursor < i)
  {
    var offered := Offer(t, i).offered;
    assert offered[..|offered| - 1] == t.offered;
  }

  lemma CursorMoves(t: Track, i: nat, repeats: bool, done: nat)
    requires CursorFits(t, repeats) && Due(i, repeats, done) && t.joined <= done
    ensures CursorFits(Offer(t, i), repeats)
  {
    var r := Offer(t, i);
    assert forall x :: x in t.offered ==> x in r.offered;
    assert r.offered[|t.offered|] == i;
  }

  /** What is live after an offer is what leads after it. */
  lemma LiveIsWhatLeads(t: Track, live: seq<nat>, repeats: bool, done: nat, i: nat, j: nat)
    requires LiveFits(t, live, done) && CursorFits(t, repeats)
    ensures j in live + (if t.cursor < i then [i] else []) <==> Leads(Offer(t, i).offered, t.start, j)
  {
    LeadsNext(t, i, j, repeats);
    assert j in live <==> Leads(t.offered, t.start, j);
  }

  /** A new event above the cursor is the next live delivery; whatever was due before has been delivered. */
  lemma LiveMissesNothing(t: Track, live: seq<nat>, done: nat, i: nat, j: nat)
    requires LiveFits(t, live, done)
    requires Larger(t.start, t.joined) < j <= (if i == done + 1 then i else done)
    ensures j in live + if t.cursor < i then [i] else []
  {
    var r := live + if t.cursor < i then [i] else [];
    if j <= done {
      assert j in live;
    } else {
      assert live != [] ==> live[|live| - 1] <= done;
      assert r[|live|] == j;
    }
  }

  lemma LiveAppends(t: Track, live: seq<nat>, done: nat, i: nat)
    requires LiveFits(t, live, done) && t.cursor < i
    ensures Increasing(live + [i])
    ensures forall k :: 0 <= k < |live + [i]| ==> t.start < (live + [i])[k] <= Larger(done, i)
  {
    assert forall k :: 0 <= k < |live| ==> live[k] <= t.cursor;
  }

  /** A client's live deliveries after an event of their kind has been offered to it. */
  lemma LiveGrows(t: Track, live: seq<nat>, repeats: bool, done: nat, i: nat)
    requires LiveFits(t, live, done) && CursorFits(t, repeats) && Due(i, repeats, done)
    ensures LiveFits(Offer(t, i), live + (if t.cursor < i then [i] else []), if i == done + 1 then i else done)
  {
    var r := live + if t.cursor < i then [i] else [];
    var after := if i == done + 1 then i else done;
    forall j ensures j in r <==> Leads(Offer(t, i).offered, t.start, j) {
      LiveIsWhatLeads(t, live, repeats, done, i, j);
    }
    forall j | Larger(t.start, t.joined) < j <= after ensures j in r {
      LiveMissesNothing(t, live, done, i, j);
    }
    if t.cursor < i {
      LiveAppends(t, live, done, i);
    } else {
      assert r == live;
    }
  }

  lemma NotifySends(c: Client, e: Ev, k: Kind, live: bool)
    ensures Sent(Notify(c, e).delivered, k, live)
            == Sent(c.delivered, k, live)
               + if c.Of(e.kind).cursor < e.index && e.kind == k && live then [e.index] else []
  {
    var n := Notify(c, e);
    if c.Of(e.kind).cursor < e.index {
      assert n.delivered[..|c.delivered|] == c.delivered;
    } else {
      assert n.delivered == c.delivered;
    }
  }

  lemma NotifyMoves(c: Client, e: Ev, k: Kind)
    ensures Notify(c, e).Of(k) == if e.kind == k then Offer(c.Of(k), e.index) else c.Of(k)
  {
  }

  lemma OfferKeepsFit(t: Track, live: seq<nat>, backlog: seq<nat>, repeats: bool, done: nat, i: nat)
    requires Fits(t, live, backlog, repeats, done) && Due(i, repeats, done)
    ensures Fits(Offer(t, i), live + (if t.cursor < i then [i] else []), backlog, repeats, if i == done + 1 then i else done)
  {
    LiveGrows(t, live, repeats, done, i);
    CursorMoves(t, i, repeats, done);
  }

  /** Offering an event to a client keeps its deliveries in order and complete. */
  lemma NotifyKeepsTrack(c: Client, e: Ev, k: Kind, repeats: bool, done: nat)
    requires TrackFits(c, k, repeats, done)
    requires e.kind == k ==> Due(e.index, repeats, done)
    ensures TrackFits(Notify(c, e), k, repeats, DoneAfter(done, k, e))
  {
    NotifyMoves(c, e, k);
    NotifySends(c, e, k, true);
    NotifySends(c, e, k, false);
    var live, backlog := Sent(c.delivered, k, true), Sent(c.delivered, k, false);
    assert backlog + [] == backlog && live + [] == live;
    if e.kind == k {
      OfferKeepsFit(c.Of(k), live, backlog, repeats, done, e.index);
    }
  }

  lemma SentMore(ds: seq<Delivery>, d: Delivery, k: Kind, live: bool)
    ensures Sent(ds + [d], k, live) == Sent(ds, k, live) + if d.kind == k && d.live == live then [d.index] else []
  {
    assert (ds + [d])[..|ds|] == ds;
  }

  lemma RangeMore(low: nat, high: nat)
    requires low < high
    ensures Range(low, high) == Range(low, high - 1) + [high]
  {
  }

  lemma {:induction false} SentFromBacklog(of: Kind, low: nat, high: nat, k: Kind, live: bool)
    requires low <= high
    ensures Sent(Backlog(of, low, high), k, live) == if of == k && !live then Range(low, high) else []
    decreases high
  {
    if low < high {
      SentFromBacklog(of, low, high - 1, k, live);
      SentMore(Backlog(of, low, high - 1), Delivery(of, high, false), k, live);
      RangeMore(low, high);
    }
  }

  lemma {:induction false} SentTogether(ds: seq<Delivery>, es: seq<Delivery>, k: Kind, live: bool)
    ensures Sent(ds + es, k, live) == Sent(ds, k, live) + Sent(es, k, live)
    decreases |es|
  {
    if es == [] {
      assert ds + es == ds;
    } else {
      var init := es[..|es| - 1];
      SentTogether(ds, init, k, live);
      assert (ds + es)[..|ds + es| - 1] == ds + init;
    }
  }

  /** What a new client has been sent. */
  lemma JoinedSent(s: State, j: Joining, k: Kind)
    ensures var c := Joined(s, j);
            var t := c.Of(k);
            && Sent(c.delivered, k, true) == []
            && Sent(c.delivered, k, false)
               == if t.backlog.Some? then Range(t.start, t.backlog.value) else []
  {
    var c := Joined(s, j);
    var adds := if c.adds.backlog.Some? then Backlog(Add, j.add, c.adds.backlog.value) else [];
    var settles := if c.settles.backlog.Some? then Backlog(Settle, j.settle, c.settles.backlog.value) else [];
    if c.adds.backlog.Some? {
      SentFromBacklog(Add, j.add, c.adds.backlog.value, k, true);
      SentFromBacklog(Add, j.add, c.adds.backlog.value, k, false);
    }
    if c.settles.backlog.Some? {
      SentFromBacklog(Settle, j.settle, c.settles.backlog.value, k, true);
      SentFromBacklog(Settle, j.settle, c.settles.backlog.value, k, false);
    }
    SentTogether(adds, settles, k, true);
    SentTogether(adds, settles, k, false);
  }

  lemma JoinedFits(s: State, j: Joining, repeats: bool)
    requires s.addsDone <= j.addsRead && s.settlesDone <= s.settles
    ensures ClientFits(Joined(s, j), repeats, s.addsDone, s.settlesDone)
  {
    JoinedSent(s, j, Add);
    JoinedSent(s, j, Settle);
    var c := Joined(s, j);
    NothingSentFits(c.adds, s.addsDone);
    NothingSentFits(c.settles, s.settlesDone);
  }

  lemma NothingSentFits(t: Track, done: nat)
    requires t.cursor == t.start && t.joined == done && t.offered == []
    ensures LiveFits(t, [], done)
  {
  }

  // ---- Every interleaving ----

  lemma WritesKeepInv(s: State, step: Step, repeats: bool)
    requires Inv(s, repeats) && Enabled(s, step)
    requires step.AddInvoice? || step.SettleInvoice? || (step.SettleAgain? && repeats)
    ensures Inv(Next(s, step), repeats)
  {
    var r := Next(s, step);
    var e := r.pending.value;
    assert s.Events() == s.queue && r.Events() == s.queue + [e];
    SequenceAppend(s.queue, e, Add, false, s.addsDone, s.adds);
    SequenceAppend(s.queue, e, Settle, repeats, s.settlesDone, s.settles);
  }

  /** The front of the queue is the next event of its kind or a repeated one. */
  lemma FrontFits(events: seq<Ev>, k: Kind, repeats: bool, done: nat, count: nat)
    requires events != [] && InSequence(events, k, repeats, done, count)
    ensures InSequence(events[1..], k, repeats, DoneAfter(done, k, events[0]), count)
    ensures events[0].kind == k ==> Due(events[0].index, repeats, done)
  {
  }

  lemma NotifyKeepsClient(c: Client, e: Ev, repeats: bool, addsDone: nat, settlesDone: nat)
    requires ClientFits(c, repeats, addsDone, settlesDone)
    requires e.kind == Add ==> Due(e.index, false, addsDone)
    requires e.kind == Settle ==> Due(e.index, repeats, settlesDone)
    ensures ClientFits(Notify(c, e), repeats, DoneAfter(addsDone, Add, e), DoneAfter(settlesDone, Settle, e))
  {
    NotifyKeepsTrack(c, e, Add, false, addsDone);
    NotifyKeepsTrack(c, e, Settle, repeats, settlesDone);
  }

  lemma NotifyKeepsClients(clients: map<nat, Client>, e: Ev, repeats: bool, addsDone: nat, settlesDone: nat)
    requires ClientsFit(clients, repeats, addsDone, settlesDone)
    requires e.kind == Add ==> Due(e.index, false, addsDone)
    requires e.kind == Settle ==> Due(e.index, repeats, settlesDone)
    ensures ClientsFit(Notified(clients, e), repeats, DoneAfter(addsDone, Add, e), DoneAfter(settlesDone, Settle, e))
  {
    forall id | id in clients
      ensures ClientFits(Notify(clients[id], e), repeats, DoneAfter(addsDone, Add, e), DoneAfter(settlesDone, Settle, e))
    {
      NotifyKeepsClient(clients[id], e, repeats, addsDone, settlesDone);
    }
  }

  lemma DispatchKeepsInv(s: State, repeats: bool)
    requires Inv(s, repeats) && Enabled(s, Dispatch)
    ensures Inv(Next(s, Dispatch), repeats)
  {
    var e := s.queue[0];
    assert s.Events()[0] == e && Next(s, Dispatch).Events() == s.Events()[1..];
    FrontFits(s.Events(), Add, false, s.addsDone, s.adds);
    FrontFits(s.Events(), Settle, repeats, s.settlesDone, s.settles);
    NotifyKeepsClients(s.clients, e, repeats, s.addsDone, s.settlesDone);
  }

  lemma FinishKeepsInv(s: State, repeats: bool)
    requires Inv(s, repeats) && Enabled(s, FinishSubscribe)
    ensures Inv(Next(s, FinishSubscribe), repeats)
  {
    SequenceBound(s.Events(), Settle, repeats, s.settlesDone, s.settles);
    JoinedFits(s, s.joining.value, repeats);
  }

  lemma StepKeepsInv(s: State, step: Step, repeats: bool)
    requires Inv(s, repeats) && Enabled(s, step) && (step.SettleAgain? ==> repeats)
    ensures Inv(Next(s, step), repeats)
  {
    match step
    case Dispatch => DispatchKeepsInv(s, repeats);
    case FinishSubscribe => FinishKeepsInv(s, repeats);
    case Enqueue => assert Next(s, step).Events() == s.Events();
    case Subscribe(_, _, _) => SequenceBound(s.Events(), Add, false, s.addsDone, s.adds);
    case Cancel(_) =>
    case _ => WritesKeepInv(s, step, repeats);
  }

  ghost predicate NoRepeats(steps: seq<Step>) {
    forall i :: 0 <= i < |steps| ==> !steps[i].SettleAgain?
  }

  lemma {:induction false} RunKeepsInv(steps: seq<Step>, repeats: bool)
    requires repeats || NoRepeats(steps)
    ensures Inv(Run(Fresh, steps), repeats)
    decreases |steps|
  {
    if steps != [] {
      var init, step := steps[..|steps| - 1], steps[|steps| - 1];
      RunKeepsInv(init, repeats);
      if Enabled(Run(Fresh, init), step) {
        StepKeepsInv(Run(Fresh, init), step, repeats);
      }
    }
  }

  // ---- How often an event reaches a client ----

  /** How often `i` occurs in `xs`. */
  function Occurrences(xs: seq<nat>, i: nat): nat {
    if xs == [] then 0 else Occurrences(xs[..|xs| - 1], i) + if xs[|xs| - 1] == i then 1 else 0
  }

  function Times(c: Client, k: Kind, i: nat): nat {
    Occurrences(Sent(c.delivered, k, true), i) + Occurrences(Sent(c.delivered, k, false), i)
  }

  lemma {:induction false} OnceIfIncreasing(xs: seq<nat>, i: nat)
    requires Increasing(xs)
    ensures Occurrences(xs, i) == if i in xs then 1 else 0
    decreases |xs|
  {
    if xs != [] {
      var init := xs[..|xs| - 1];
      OnceIfIncreasing(init, i);
      assert xs == init + [xs[|xs| - 1]];
    }
  }

  lemma InRange(low: nat, high: nat, i: nat)
    requires low <= high
    ensures Increasing(Range(low, high))
    ensures i in Range(low, high) <==> low < i <= high
  {
    if low < i <= high {
      assert Range(low, high)[i - low - 1] == i;
    }
  }

  predicate InBacklog(t: Track, i: nat) {
    t.backlog.Some? && t.start < i <= t.backlog.value
  }

  function One(b: bool): nat {
    if b then 1 else 0
  }

  /** In a run that settles nothing twice no kind of event repeats; add events never do. */
  ghost predicate Repeats(steps: seq<Step>, k: Kind) {
    k == Settle && !NoRepeats(steps)
  }

  lemma RunTrack(steps: seq<Step>, id: nat, k: Kind)
    requires id in Run(Fresh, steps).clients
    ensures TrackFits(Run(Fresh, steps).clients[id], k, Repeats(steps, k), Run(Fresh, steps).Done(k))
  {
    RunKeepsInv(steps, !NoRepeats(steps));
    var s := Run(Fresh, steps);
    assert ClientFits(s.clients[id], !NoRepeats(steps), s.addsDone, s.settlesDone);
  }

  /** The backlog contributes at most one delivery, and live dispatch at most one more. */
  lemma DeliveryCount(c: Client, k: Kind, repeats: bool, done: nat, i: nat)
    requires TrackFits(c, k, repeats, done)
    ensures Times(c, k, i) == One(InBacklog(c.Of(k), i)) + One(i in Sent(c.delivered, k, true))
  {
    var t := c.Of(k);
    if t.backlog.Some? {
      InRange(t.start, t.backlog.value, i);
    }
    OnceIfIncreasing(Sent(c.delivered, k, true), i);
    OnceIfIncreasing(Sent(c.delivered, k, false), i);
  }

  /** The event came up again, above everything the client had been offered, after it was dispatched for the first time. */
  predicate CameAgain(t: Track, i: nat) {
    i <= t.joined && Leads(t.offered, t.start, i)
  }

  /** What was sent live: all that was dispatched first after the client joined, and what came again. */
  lemma SentLive(t: Track, live: seq<nat>, done: nat, i: nat)
    requires LiveFits(t, live, done)
    ensures i in live <==> (Larger(t.start, t.joined) < i <= done) || CameAgain(t, i)
    ensures CameAgain(t, i) ==> t.start < i <= done
  {
    if i in live {
      var j :| 0 <= j < |live| && live[j] == i;
    }
  }

  lemma {:induction false} LedIsOffered(offered: seq<nat>, start: nat, i: nat)
    requires Leads(offered, start, i)
    ensures i in offered
    decreases |offered|
  {
    if Leads(offered[..|offered| - 1], start, i) {
      LedIsOffered(offered[..|offered| - 1], start, i);
    }
  }

  /** Where nothing repeats, nothing that was dispatched before the client joined comes again. */
  lemma NothingCameAgain(t: Track, i: nat)
    requires CursorFits(t, false)
    ensures !CameAgain(t, i)
  {
    if Leads(t.offered, t.start, i) {
      LedIsOffered(t.offered, t.start, i);
    }
  }

  /**
   In every interleaving, for both kinds: an event reaches a client once if it was
   in its backlog, once more if it was first dispatched after the client joined
   or came again since, and not at all if its index is not above the cursor the
   client came with.
   */
  lemma DeliveryIsExact(steps: seq<Step>, id: nat, k: Kind, i: nat)
    requires id in Run(Fresh, steps).clients
    ensures var s := Run(Fresh, steps);
            var c := s.clients[id];
            var t := c.Of(k);
            && Increasing(Sent(c.delivered, k, true))
            && Times(c, k, i) == One(InBacklog(t, i)) + One(Larger(t.start, t.joined) < i <= s.Done(k)) + One(CameAgain(t, i))
            && (CameAgain(t, i) ==> Repeats(steps, k) && t.start < i <= t.joined)
            && (t.backlog.Some? ==> t.joined <= t.backlog.value)
  {
    RunTrack(steps, id, k);
    var s := Run(Fresh, steps);
    var c := s.clients[id];
    DeliveryCount(c, k, Repeats(steps, k), s.Done(k), i);
    SentLive(c.Of(k), Sent(c.delivered, k, true), s.Done(k), i);
    if !Repeats(steps, k) {
      NothingCameAgain(c.Of(k), i);
    }
  }

  /** An event above the cursor that was dispatched since, or is in a backlog that was sent, arrives once or twice. */
  lemma OnceOrTwice(steps: seq<Step>, id: nat, k: Kind, i: nat)
    requires id in Run(Fresh, steps).clients
    ensures var s := Run(Fresh, steps);
            var c := s.clients[id];
            var t := c.Of(k);
            && Times(c, k, i) <= 2
            && (t.start < i <= s.Done(k) && (t.joined < i || t.backlog.Some?) ==> 1 <= Times(c, k, i))
            && (i <= t.start ==> Times(c, k, i) == 0)
  {
    DeliveryIsExact(steps, id, k, i);
  }

  /** An event is sent twice if and only if it was in the backlog and was dispatched, or came again, after the client joined. */
  lemma SentTwiceIff(steps: seq<Step>, id: nat, k: Kind, i: nat)
    requires id in Run(Fresh, steps).clients
    ensures var s := Run(Fresh, steps);
            var c := s.clients[id];
            Times(c, k, i) == 2
            <==> InBacklog(c.Of(k), i) && (c.Of(k).joined < i <= s.Done(k) || CameAgain(c.Of(k), i))
  {
    DeliveryIsExact(steps, id, k, i);
  }

  /** A dispatched event above the cursor is missed if and only if it came before the client, which got no backlog, and not again. */
  lemma MissedIff(steps: seq<Step>, id: nat, k: Kind, i: nat)
    requires id in Run(Fresh, steps).clients
    requires Run(Fresh, steps).clients[id].Of(k).start < i <= Run(Fresh, steps).Done(k)
    ensures var c := Run(Fresh, steps).clients[id];
            Times(c, k, i) == 0 <==> c.Of(k).backlog.None? && i <= c.Of(k).joined && !CameAgain(c.Of(k), i)
  {
    DeliveryIsExact(steps, id, k, i);
  }

  /**
   For add events, and in runs that settle nothing twice for settle events too,
   the count is decided when the client joins: twice for one in the backlog and
   still undispatched, never for one dispatched before if no backlog was sent,
   and once otherwise.
   */
  lemma DecidedOnJoining(steps: seq<Step>, id: nat, k: Kind, i: nat)
    requires id in Run(Fresh, steps).clients && !Repeats(steps, k)
    ensures var s := Run(Fresh, steps);
            var c := s.clients[id];
            var t := c.Of(k);
            && (t.start < i <= s.Done(k) ==> Times(c, k, i) == One(InBacklog(t, i)) + One(t.joined < i))
  {
    DeliveryIsExact(steps, id, k, i);
  }

  /** Nothing is missed exactly when a backlog was sent or everything before the client, if anything, came again. */
  lemma NothingMissedIff(steps: seq<Step>, id: nat, k: Kind)
    requires id in Run(Fresh, steps).clients
    ensures var s := Run(Fresh, steps);
            var c := s.clients[id];
            var t := c.Of(k);
            (forall i: nat :: t.start < i <= s.Done(k) ==> Times(c, k, i) >= 1)
            <==> t.backlog.Some? || forall i: nat :: t.start < i <= t.joined ==> CameAgain(t, i)
  {
    RunTrack(steps, id, k);
    var s := Run(Fresh, steps);
    var c := s.clients[id];
    var t := c.Of(k);
    forall i: nat | t.start < i <= s.Done(k)
      ensures Times(c, k, i) == 0 <==> t.backlog.None? && i <= t.joined && !CameAgain(t, i)
    {
      MissedIff(steps, id, k, i);
    }
  }

  /** Without repeats, that is when a backlog was sent or nothing past the cursor had been dispatched. */
  lemma NothingMissedOnJoining(steps: seq<Step>, id: nat, k: Kind)
    requires id in Run(Fresh, steps).clients && !Repeats(steps, k)
    ensures var s := Run(Fresh, steps);
            var c := s.clients[id];
            var t := c.Of(k);
            (forall i: nat :: t.start < i <= s.Done(k) ==> Times(c, k, i) >= 1)
            <==> t.backlog.Some? || t.joined <= t.start
  {
    NothingMissedIff(steps, id, k);
    var t := Run(Fresh, steps).clients[id].Of(k);
    RunTrack(steps, id, k);
    if t.start < t.joined {
      NothingCameAgain(t, t.start + 1);
    }
  }

  /** A backlog is sent if the client has a cursor and the settle index can be read. */
  lemma BacklogIff(s: State)
    requires Enabled(s, FinishSubscribe)
    ensures var j := s.joining.value;
            var c := Next(s, FinishSubscribe).clients[j.id];
            && (c.adds.backlog.Some? <==> j.add != 0 && (j.settle == 0 || s.settles > 0))
            && (c.settles.backlog.Some? <==> j.settle != 0 && s.settles > 0)
  {
  }
}
