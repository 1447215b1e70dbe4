/**
 The connections to one remote node, as a small automaton: at most one live
 peer, at most one connection scheduled to replace it, and the peers whose
 disconnection is still being waited for. `PeerRegistry` implements it for all
 nodes at once with five maps.
 */
module PeerConnections {
  import opened Primitives
  import opened ByteOrder

  type PubKey = Bytes

  /** A connection, and the peer built from it. `req` is the request an outbound one answers. */
  datatype Conn = Conn(id: nat, pub: PubKey, inbound: bool, req: Option<nat>)

  /** The connection of the node with the smaller key is kept. */
  predicate ShouldDropLocal(local: PubKey, remote: PubKey) {
    Before(remote, local)
  }

  /** Exactly one of two nodes gives way to the other. */
  lemma OneSideGivesWay(a: PubKey, b: PubKey)
    requires a != b
    ensures ShouldDropLocal(a, b) <==> !ShouldDropLocal(b, a)
  {
    BeforeIsTotal(a, b);
  }

  /** Keys have one length, and the node with the numerically larger one drops its own connection. */
  lemma LargerKeyGivesWay(local: PubKey, remote: PubKey)
    requires |local| == |remote|
    ensures ShouldDropLocal(local, remote) <==> FromBigEndian(local) > FromBigEndian(remote)
  {
    BytesOrder(remote, local);
  }

  /**
   `leaving` are the peers whose termination the server has decided to ignore and
   `watchers` those whose termination watcher has been started and has yet to run;
   `closed` and `lost` collect the connections that were closed, and those for
   which no peer could be created.
   */
  datatype Node = Node(live: Option<Conn>, scheduled: Option<Conn>, leaving: set<Conn>, watchers: set<Conn>,
                       closed: set<Conn>, lost: set<Conn>)

  const Unknown := Node(None, None, {}, {}, {}, {})

  function Close(n: Node, c: Conn): Node {
    n.(closed := n.closed + {c})
  }

  /** Makes `c` the live peer and starts its watcher, unless creating the peer fails. */
  function Connect(n: Node, c: Conn, ok: bool): Node {
    if ok then n.(live := Some(c), watchers := n.watchers + {c}) else n.(lost := n.lost + {c})
  }

  /** Disconnects the live peer, to be replaced by `c` once it is gone. */
  function Replace(n: Node, c: Conn): Node
    requires n.live.Some?
  {
    var p := n.live.value;
    Close(n, p).(live := None, leaving := n.leaving + {p}, scheduled := Some(c))
  }

  function Inbound(n: Node, c: Conn, dropLocal: bool, ok: bool): Node {
    if n.live.Some? && !n.live.value.inbound then Close(n, c)
    else if n.scheduled.Some? then Close(n, c)
    else if n.live.None? then Connect(n, c, ok)
    else if !dropLocal then Close(n, c)
    else Replace(n, c)
  }

  /** `stale` says that the request this connection answers has been cancelled. */
  function Outbound(n: Node, c: Conn, stale: bool, dropLocal: bool, ok: bool): Node {
    if n.live.Some? && n.live.value.inbound then Close(n, c)
    else if stale then Close(n, c)
    else if n.scheduled.Some? then Close(n, c)
    else if n.live.None? then Connect(n, c, ok)
    else if dropLocal then Close(n, c)
    else Replace(n, c)
  }

  function Disconnect(n: Node): Node {
    if n.live.None? then n
    else Close(n, n.live.value).(live := None, leaving := n.leaving + {n.live.value})
  }

  /** The watcher of `p` runs; if it is not to be ignored it forgets whichever peer is live. */
  function Terminated(n: Node, p: Conn, ok: bool): Node {
    var m := n.(watchers := n.watchers - {p});
    if p in m.leaving then
      var r := m.(leaving := m.leaving - {p});
      if r.scheduled.None? then r else Connect(r.(scheduled := None), r.scheduled.value, ok)
    else Close(m, p).(live := None)
  }

  datatype Event =
    | In(conn: Conn, dropLocal: bool, ok: bool)
    | Out(conn: Conn, stale: bool, dropLocal: bool, ok: bool)
    | Disconnects
    | Terminates(peer: Conn, ok: bool)
    | Asks                     // a request for a connection, which changes nothing yet

  function Next(n: Node, e: Event): Node {
    match e
    case In(c, dropLocal, ok) => Inbound(n, c, dropLocal, ok)
    case Out(c, stale, dropLocal, ok) => Outbound(n, c, stale, dropLocal, ok)
    case Disconnects => Disconnect(n)
    case Terminates(p, ok) => Terminated(n, p, ok)
    case Asks => n
  }

  function Run(n: Node, events: seq<Event>): Node
    decreases |events|
  {
    if events == [] then n else Next(Run(n, events[..|events| - 1]), events[|events| - 1])
  }

  /** The connections that have arrived so far. */
  function Arrived(events: seq<Event>): set<Conn>
    decreases |events|
  {
    if events == [] then {}
    else
      var e := events[|events| - 1];
      Arrived(events[..|events| - 1]) + if e.In? || e.Out? then {e.conn} else {}
  }

  /** Every connection arrives once and is what the event says it is, and a watcher runs once. */
  ghost predicate Plausible(events: seq<Event>)
    decreases |events|
  {
    events == [] ||
    var init, e := events[..|events| - 1], events[|events| - 1];
    && Plausible(init)
    && (e.In? ==> e.conn !in Arrived(init) && e.conn.inbound)
    && (e.Out? ==> e.conn !in Arrived(init) && !e.conn.inbound)
    && (e.Terminates? ==> e.peer in Run(Unknown, init).watchers)
  }

  ghost function Held(c: Option<Conn>): set<Conn> {
    if c.Some? then {c.value} else {}
  }

  /**
   A scheduled connection has no live rival but a departing peer to wait for,
   the watchers yet to run are those of the live and the departing peers, and
   every connection that ever arrived is live, scheduled, closed or lost.
   */
  ghost predicate Inv(n: Node, arrived: set<Conn>) {
    && (n.scheduled.Some? ==> n.live.None? && n.leaving != {})
    && n.leaving <= n.closed
    && n.watchers == n.leaving + Held(n.live)
    && arrived == Held(n.live) + Held(n.scheduled) + n.closed + n.lost
    && Held(n.live) + Held(n.scheduled) !! n.closed && Held(n.live) + Held(n.scheduled) + n.closed !! n.lost
  }

  lemma StepKeepsInv(n: Node, e: Event, arrived: set<Conn>)
    requires Inv(n, arrived)
    requires e.In? || e.Out? ==> e.conn !in arrived
    requires e.Terminates? ==> e.peer in n.watchers
    ensures Inv(Next(n, e), arrived + if e.In? || e.Out? then {e.conn} else {})
  {
  }

  /** In every interleaving: one connection at most, and none is forgotten. */
  lemma {:induction false} RunKeepsInv(events: seq<Event>)
    requires Plausible(events)
    ensures Inv(Run(Unknown, events), Arrived(events))
    decreases |events|
  {
    if events != [] {
      var init, e := events[..|events| - 1], events[|events| - 1];
      RunKeepsInv(init);
      StepKeepsInv(Run(Unknown, init), e, Arrived(init));
    }
  }

  /** In every interleaving a watcher takes down its own peer or none; another peer stays live. */
  lemma WatcherSparesOthers(events: seq<Event>, p: Conn, q: Conn, ok: bool)
    requires Plausible(events) && p in Run(Unknown, events).watchers
    requires Run(Unknown, events).live == Some(q) && p != q
    ensures Terminated(Run(Unknown, events), p, ok).live == Some(q)
  {
    RunKeepsInv(events);
  }

  /** The key comparison matters only between two connections of the same direction. */
  lemma TieBreakIsSameDirection(n: Node, arrived: set<Conn>, c: Conn, ok: bool)
    requires Inv(n, arrived) && c !in arrived
    ensures Inbound(n, c, true, ok) != Inbound(n, c, false, ok) <==> n.live.Some? && n.live.value.inbound
    ensures Outbound(n, c, false, true, ok) != Outbound(n, c, false, false, ok)
            <==> n.live.Some? && !n.live.value.inbound
  {
  }

  /**
   When node `a` connects to node `b` a second time, the two decide alike: `a` keeps
   its outbound connection exactly when `b` keeps its inbound one, namely when
   the key of `a` is the larger; otherwise both replace it by the new one.
   */
  lemma BothSidesDecideAlike(a: PubKey, b: PubKey, atA: Node, atB: Node, toB: Conn, fromA: Conn, ok: bool)
    requires |a| == |b| && a != b
    requires atA.live.Some? && !atA.live.value.inbound && atA.scheduled.None?
    requires atB.live.Some? && atB.live.value.inbound && atB.scheduled.None?
    ensures var n, m := Outbound(atA, toB, false, ShouldDropLocal(a, b), ok), Inbound(atB, fromA, ShouldDropLocal(b, a), ok);
            if FromBigEndian(a) > FromBigEndian(b)
            then && n.live == atA.live && n.scheduled.None? && toB in n.closed
                 && m.live == atB.live && m.scheduled.None? && fromA in m.closed
            else && n.live.None? && n.scheduled == Some(toB) && atA.live.value in n.leaving
                 && m.live.None? && m.scheduled == Some(fromA) && atB.live.value in m.leaving
  {
    LargerKeyGivesWay(a, b);
    OneSideGivesWay(a, b);
  }

  /** While a connection is scheduled some watcher is pending, and whichever runs next makes it live. */
  lemma ScheduledIsTakenUp(events: seq<Event>)
    requires Plausible(events) && Run(Unknown, events).scheduled.Some?
    ensures var n := Run(Unknown, events);
            && n.watchers != {}
            && forall p :: p in n.watchers ==> Terminated(n, p, true).live == n.scheduled
  {
    RunKeepsInv(events);
  }

  // ---- Does a replacement wait for the peer it replaces? ----

  /** The last event makes the server drop its live peer and schedule the new connection. */
  ghost predicate Replaces(before: seq<Event>, e: Event, p: Conn) {
    var n := Run(Unknown, before);
    && (e.In? || e.Out?) && Plausible(before + [e])
    && n.live == Some(p) && Run(Unknown, before + [e]).scheduled == Some(e.conn)
  }

  /** The replaced peer's watcher has run by the time the new connection is live. */
  ghost predicate Waits(events: seq<Event>, c: Conn, p: Conn) {
    Run(Unknown, events).live == Some(c) ==> p !in Run(Unknown, events).watchers
  }

  lemma ScheduledBy(before: seq<Event>, e: Event, p: Conn)
    requires Replaces(before, e, p)
    ensures Plausible(before) && Run(Unknown, before + [e]) == Replace(Run(Unknown, before), e.conn)
  {
    assert (before + [e])[..|before|] == before;
    RunKeepsInv(before);
  }

  /** As long as only `p` is leaving, `c` waits for it; once its watcher has run, `p` is gone for good. */
  ghost predicate WaitingFor(n: Node, c: Conn, p: Conn) {
    || (n.live.None? && n.scheduled == Some(c) && n.leaving == {p})
    || (p in n.closed && p !in n.leaving)
  }

  lemma StepKeepsWaiting(n: Node, e: Event, arrived: set<Conn>, c: Conn, p: Conn)
    requires Inv(n, arrived) && WaitingFor(n, c, p) && p in n.closed
    requires e.In? || e.Out? ==> e.conn !in arrived
    requires e.Terminates? ==> e.peer in n.watchers
    ensures WaitingFor(Next(n, e), c, p) && p in Next(n, e).closed
  {
  }

  lemma {:induction false} RunKeepsWaiting(before: seq<Event>, after: seq<Event>, c: Conn, p: Conn)
    requires Plausible(before + after)
    requires WaitingFor(Run(Unknown, before), c, p) && p in Run(Unknown, before).closed
    ensures WaitingFor(Run(Unknown, before + after), c, p) && p in Run(Unknown, before + after).closed
    decreases |after|
  {
    if after == [] {
      assert before + after == before;
    } else {
      var init, e := after[..|after| - 1], after[|after| - 1];
      assert (before + after)[..|before + after| - 1] == before + init;
      RunKeepsWaiting(before, init, c, p);
      RunKeepsInv(before + init);
      StepKeepsWaiting(Run(Unknown, before + init), e, Arrived(before + init), c, p);
    }
  }

  /** With nobody else leaving, every continuation waits. */
  lemma AloneWaits(before: seq<Event>, e: Event, p: Conn, after: seq<Event>)
    requires Replaces(before, e, p) && Run(Unknown, before).leaving == {}
    requires Plausible(before + [e] + after)
    ensures Waits(before + [e] + after, e.conn, p)
  {
    ScheduledBy(before, e, p);
    RunKeepsWaiting(before + [e], after, e.conn, p);
    RunKeepsInv(before + [e] + after);
  }

  /** With another peer leaving, its watcher takes up the connection too early. */
  lemma AnotherDoesNotWait(before: seq<Event>, e: Event, p: Conn, q: Conn)
    requires Replaces(before, e, p) && q in Run(Unknown, before).leaving
    ensures Plausible(before + [e] + [Terminates(q, true)])
    ensures !Waits(before + [e] + [Terminates(q, true)], e.conn, p)
  {
    ScheduledBy(before, e, p);
    RunKeepsInv(before);
    var events := before + [e] + [Terminates(q, true)];
    assert events[..|events| - 1] == before + [e];
  }

  /**
   A scheduled connection goes live only after the watcher of the peer it
   replaces has run, in every continuation, if and only if no other peer of that
   key was leaving when it was scheduled.
   */
  lemma ReplacementWaitsIff(before: seq<Event>, e: Event, p: Conn)
    requires Replaces(before, e, p)
    ensures (forall after :: Plausible(before + [e] + after) ==> Waits(before + [e] + after, e.conn, p))
            <==> Run(Unknown, before).leaving == {}
  {
    var n := Run(Unknown, before);
    if n.leaving == {} {
      forall after | Plausible(before + [e] + after)
        ensures Waits(before + [e] + after, e.conn, p)
      {
        AloneWaits(before, e, p, after);
      }
    } else {
      var q :| q in n.leaving;
      AnotherDoesNotWait(before, e, p, q);
    }
  }
}
