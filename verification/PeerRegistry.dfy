/**
 The server's peer bookkeeping: five maps (and the persistent-connection
 requests), changed under one mutex by inbound and outbound connections,
 disconnect requests and termination watchers. The maps are the projection of
 one `PeerConnections` automaton per remote node, and every handler moves
 exactly one of them.
 */
module PeerRegistry {
  import opened Primitives
  import opened PeerConnections

  /**
   The server's maps, as one value. `watchers` are the peers whose termination
   watcher goroutine has been started and has yet to take the mutex.
   */
  datatype Maps = Maps(byPub: map<PubKey, Conn>, inb: map<PubKey, Conn>, outb: map<PubKey, Conn>,
                       scheduled: map<PubKey, Conn>, ignore: set<Conn>,
                       persistent: set<PubKey>, requests: set<PubKey>, watchers: set<Conn>)

  const NoPeers := Maps(map[], map[], map[], map[], {}, {}, {}, {})

  // ---- Handlers ----

  /** Forgets whichever peer is filed under the key and direction of `p`. */
  function RemovePeer(m: Maps, p: Conn): Maps {
    m.(byPub := m.byPub - {p.pub},
       inb := if p.inbound then m.inb - {p.pub} else m.inb,
       outb := if p.inbound then m.outb else m.outb - {p.pub})
  }

  function AddPeer(m: Maps, p: Conn): Maps {
    m.(byPub := m.byPub[p.pub := p],
       inb := if p.inbound then m.inb[p.pub := p] else m.inb,
       outb := if p.inbound then m.outb else m.outb[p.pub := p])
  }

  /** Files the new peer and starts its watcher, if the peer could be created. */
  function PeerConnected(m: Maps, c: Conn, ok: bool): Maps {
    if ok then AddPeer(m, c).(watchers := m.watchers + {c}) else m
  }

  function CancelRequests(m: Maps, pub: PubKey): Maps {
    m.(requests := m.requests - {pub})
  }

  /** Disconnects `p` on purpose: its watcher is told to skip the cleanup. */
  function Dismiss(m: Maps, p: Conn): Maps {
    var r := RemovePeer(m, p);
    r.(ignore := r.ignore + {p})
  }

  function InboundPeerConnected(m: Maps, local: PubKey, c: Conn, ok: bool): Maps {
    if c.pub in m.outb || c.pub in m.scheduled then m
    else if c.pub !in m.byPub then PeerConnected(CancelRequests(m, c.pub), c, ok)
    else if !ShouldDropLocal(local, c.pub) then m
    else
      var r := Dismiss(CancelRequests(m, c.pub), m.byPub[c.pub]);
      r.(scheduled := r.scheduled[c.pub := c])
  }

  predicate Stale(m: Maps, c: Conn) {
    c.req.Some? && c.pub !in m.requests
  }

  function OutboundPeerConnected(m: Maps, local: PubKey, c: Conn, ok: bool): Maps {
    if c.pub in m.inb || Stale(m, c) || c.pub in m.scheduled then m
    else
      var r := CancelRequests(m, c.pub);
      if c.pub !in m.byPub then PeerConnected(r, c, ok)
      else if ShouldDropLocal(local, c.pub) then r
      else
        var d := Dismiss(r, m.byPub[c.pub]);
        d.(scheduled := d.scheduled[c.pub := c])
  }

  function DisconnectPeer(m: Maps, pub: PubKey): Maps {
    if pub !in m.byPub then m
    else Dismiss(CancelRequests(m, pub).(persistent := m.persistent - {pub}), m.byPub[pub])
  }

  /** Asking for a persistent connection leaves a request outstanding until it is answered. */
  function ConnectToPeer(m: Maps, pub: PubKey, perm: bool): Maps {
    if pub in m.byPub || !perm then m
    else m.(persistent := m.persistent + {pub}, requests := m.requests + {pub})
  }

  /** The watcher of `p` runs; a persistent peer lost unexpectedly is asked for again. */
  function PeerTerminated(m: Maps, p: Conn, ok: bool): Maps {
    if p in m.ignore then
      var r := m.(ignore := m.ignore - {p}, watchers := m.watchers - {p});
      if p.pub in r.scheduled then
        PeerConnected(r.(scheduled := r.scheduled - {p.pub}), r.scheduled[p.pub], ok)
      else r
    else
      var r := RemovePeer(m, p).(watchers := m.watchers - {p});
      if p.pub in r.persistent then r.(requests := r.requests + {p.pub}) else r
  }

  // ---- The maps as projections of the automata ----

  type Nodes = map<PubKey, Node>

  function NodeAt(nodes: Nodes, pub: PubKey): Node {
    if pub in nodes then nodes[pub] else Unknown
  }

  function Live(n: Node): Option<Conn> {
    n.live
  }

  function LiveInbound(n: Node): Option<Conn> {
    if n.live.Some? && n.live.value.inbound then n.live else None
  }

  function LiveOutbound(n: Node): Option<Conn> {
    if n.live.Some? && !n.live.value.inbound then n.live else None
  }

  function Scheduled(n: Node): Option<Conn> {
    n.scheduled
  }

  function Lookup(m: map<PubKey, Conn>, pub: PubKey): Option<Conn> {
    if pub in m then Some(m[pub]) else None
  }

  /** `m` holds exactly what `f` yields for each node. */
  ghost predicate Projects(m: map<PubKey, Conn>, nodes: Nodes, f: Node -> Option<Conn>) {
    forall pub :: Lookup(m, pub) == f(NodeAt(nodes, pub))
  }

  ghost predicate MapsFit(m: Maps, nodes: Nodes) {
    && Projects(m.byPub, nodes, Live)
    && Projects(m.inb, nodes, LiveInbound)
    && Projects(m.outb, nodes, LiveOutbound)
    && Projects(m.scheduled, nodes, Scheduled)
    && (forall c :: c in m.ignore <==> c in NodeAt(nodes, c.pub).leaving)
    && (forall c :: c in m.watchers <==> c in NodeAt(nodes, c.pub).watchers)
  }

  ghost function ArrivedFrom(arrived: set<Conn>, pub: PubKey): set<Conn> {
    set c | c in arrived && c.pub == pub
  }

  ghost predicate NodesFit(nodes: Nodes, arrived: set<Conn>) {
    forall pub :: Inv(NodeAt(nodes, pub), ArrivedFrom(arrived, pub))
  }

  /** The registry is in order: its maps project nodes that are each in a reachable state. */
  ghost predicate InOrder(m: Maps, nodes: Nodes, arrived: set<Conn>) {
    MapsFit(m, nodes) && NodesFit(nodes, arrived)
  }

  // ---- One node moves ----

  /** `r` differs from `m` only under `pub`, where it holds `v`. */
  ghost predicate Differs(m: map<PubKey, Conn>, r: map<PubKey, Conn>, pub: PubKey, v: Option<Conn>) {
    forall q :: Lookup(r, q) == if q == pub then v else Lookup(m, q)
  }

  /** The maps have followed node `pub` to the state `n`. */
  ghost predicate Follows(m: Maps, r: Maps, pub: PubKey, n: Node) {
    && Differs(m.byPub, r.byPub, pub, Live(n))
    && Differs(m.inb, r.inb, pub, LiveInbound(n))
    && Differs(m.outb, r.outb, pub, LiveOutbound(n))
    && Differs(m.scheduled, r.scheduled, pub, Scheduled(n))
    && (forall c :: c in r.ignore <==> if c.pub == pub then c in n.leaving else c in m.ignore)
    && (forall c :: c in r.watchers <==> if c.pub == pub then c in n.watchers else c in m.watchers)
  }

  lemma ProjectsDiffering(m: map<PubKey, Conn>, r: map<PubKey, Conn>, nodes: Nodes, f: Node -> Option<Conn>, pub: PubKey, n: Node)
    requires Projects(m, nodes, f) && Differs(m, r, pub, f(n))
    ensures Projects(r, nodes[pub := n], f)
  {
    forall q
      ensures Lookup(r, q) == f(NodeAt(nodes[pub := n], q))
    {
      assert Lookup(m, q) == f(NodeAt(nodes, q));
    }
  }

  lemma FollowingFits(m: Maps, r: Maps, nodes: Nodes, pub: PubKey, n: Node)
    requires MapsFit(m, nodes) && Follows(m, r, pub, n)
    ensures MapsFit(r, nodes[pub := n])
  {
    ProjectsDiffering(m.byPub, r.byPub, nodes, Live, pub, n);
    ProjectsDiffering(m.inb, r.inb, nodes, LiveInbound, pub, n);
    ProjectsDiffering(m.outb, r.outb, nodes, LiveOutbound, pub, n);
    ProjectsDiffering(m.scheduled, r.scheduled, nodes, Scheduled, pub, n);
  }

  lemma NodeMoves(nodes: Nodes, arrived: set<Conn>, pub: PubKey, e: Event)
    requires NodesFit(nodes, arrived)
    requires e.In? || e.Out? ==> e.conn !in arrived && e.conn.pub == pub
    requires e.Terminates? ==> e.peer in NodeAt(nodes, pub).watchers
    ensures NodesFit(nodes[pub := Next(NodeAt(nodes, pub), e)], arrived + if e.In? || e.Out? then {e.conn} else {})
  {
    var more := if e.In? || e.Out? then {e.conn} else {};
    var moved := nodes[pub := Next(NodeAt(nodes, pub), e)];
    forall q
      ensures Inv(NodeAt(moved, q), ArrivedFrom(arrived + more, q))
    {
      assert Inv(NodeAt(nodes, q), ArrivedFrom(arrived, q));
      if q == pub {
        StepKeepsInv(NodeAt(nodes, pub), e, ArrivedFrom(arrived, pub));
        assert ArrivedFrom(arrived + more, pub) == ArrivedFrom(arrived, pub) + more;
      } else {
        assert ArrivedFrom(arrived + more, q) == ArrivedFrom(arrived, q);
      }
    }
  }

  /** What the maps hold under a key, in terms of the node's state. */
  ghost predicate Shows(m: Maps, pub: PubKey, n: Node) {
    && Lookup(m.byPub, pub) == n.live && Lookup(m.inb, pub) == LiveInbound(n)
    && Lookup(m.outb, pub) == LiveOutbound(n) && Lookup(m.scheduled, pub) == n.scheduled
    && (n.live.Some? ==> n.live.value.pub == pub)
    && (n.scheduled.Some? ==> n.scheduled.value.pub == pub)
    && (forall c :: c in n.leaving <==> c.pub == pub && c in m.ignore)
    && (forall c :: c in n.watchers <==> c.pub == pub && c in m.watchers)
    && n.watchers == n.leaving + Held(n.live)
    && (n.scheduled.Some? ==> n.live.None?)
  }

  lemma ShowsNode(m: Maps, nodes: Nodes, arrived: set<Conn>, pub: PubKey)
    requires InOrder(m, nodes, arrived)
    ensures Shows(m, pub, NodeAt(nodes, pub))
  {
    var n := NodeAt(nodes, pub);
    assert Inv(n, ArrivedFrom(arrived, pub));
    assert forall c :: c in Held(n.live) + Held(n.scheduled) + n.closed + n.lost ==> c.pub == pub;
    assert Live(n) == n.live && Scheduled(n) == n.scheduled;
    assert n.live.Some? ==> n.live.value in Held(n.live);
    assert n.scheduled.Some? ==> n.scheduled.value in Held(n.scheduled);
  }

  // ---- Each handler moves one node as its automaton does ----

  lemma NothingFollows(m: Maps, r: Maps, c: Conn, n: Node)
    requires Shows(m, c.pub, n) && r == m.(requests := r.requests)
    ensures Follows(m, r, c.pub, n) && Follows(m, r, c.pub, Close(n, c))
  {
  }

  lemma ConnectFollows(m: Maps, c: Conn, ok: bool, n: Node)
    requires Shows(m, c.pub, n) && n.live.None?
    ensures Follows(m, PeerConnected(CancelRequests(m, c.pub), c, ok), c.pub, Connect(n, c, ok))
  {
  }

  lemma ReplaceFollows(m: Maps, c: Conn, n: Node)
    requires Shows(m, c.pub, n) && n.live.Some?
    ensures var r := Dismiss(CancelRequests(m, c.pub), m.byPub[c.pub]);
            Follows(m, r.(scheduled := r.scheduled[c.pub := c]), c.pub, Replace(n, c))
  {
  }

  lemma InboundFollows(m: Maps, local: PubKey, c: Conn, ok: bool, n: Node)
    requires Shows(m, c.pub, n)
    ensures Follows(m, InboundPeerConnected(m, local, c, ok), c.pub,
                    Inbound(n, c, ShouldDropLocal(local, c.pub), ok))
  {
    if c.pub in m.outb || c.pub in m.scheduled {
      NothingFollows(m, m, c, n);
    } else if c.pub !in m.byPub {
      ConnectFollows(m, c, ok, n);
    } else if !ShouldDropLocal(local, c.pub) {
      NothingFollows(m, m, c, n);
    } else {
      ReplaceFollows(m, c, n);
    }
  }

  lemma OutboundFollows(m: Maps, local: PubKey, c: Conn, ok: bool, n: Node)
    requires Shows(m, c.pub, n)
    ensures Follows(m, OutboundPeerConnected(m, local, c, ok), c.pub,
                    Outbound(n, c, Stale(m, c), ShouldDropLocal(local, c.pub), ok))
  {
    if c.pub in m.inb || Stale(m, c) || c.pub in m.scheduled {
      NothingFollows(m, m, c, n);
    } else if c.pub !in m.byPub {
      ConnectFollows(m, c, ok, n);
    } else if ShouldDropLocal(local, c.pub) {
      NothingFollows(m, CancelRequests(m, c.pub), c, n);
    } else {
      ReplaceFollows(m, c, n);
    }
  }

  lemma DisconnectFollows(m: Maps, pub: PubKey, n: Node)
    requires Shows(m, pub, n)
    ensures Follows(m, DisconnectPeer(m, pub), pub, Disconnect(n))
  {
  }

  lemma AskingFollows(m: Maps, pub: PubKey, perm: bool, n: Node)
    requires Shows(m, pub, n)
    ensures Follows(m, ConnectToPeer(m, pub, perm), pub, n)
  {
  }

  lemma IgnoredFollows(m: Maps, p: Conn, n: Node)
    requires Shows(m, p.pub, n) && p in m.ignore && p.pub !in m.scheduled
    ensures Follows(m, PeerTerminated(m, p, true), p.pub, Terminated(n, p, true))
    ensures Follows(m, PeerTerminated(m, p, false), p.pub, Terminated(n, p, false))
  {
  }

  lemma CallbackFollows(m: Maps, p: Conn, ok: bool, n: Node)
    requires Shows(m, p.pub, n) && p in m.ignore && p.pub in m.scheduled
    ensures Follows(m, PeerTerminated(m, p, ok), p.pub, Terminated(n, p, ok))
  {
    var c := m.scheduled[p.pub];
    var r := m.(ignore := m.ignore - {p}, watchers := m.watchers - {p}, scheduled := m.scheduled - {p.pub});
    assert PeerTerminated(m, p, ok) == PeerConnected(r, c, ok);
  }

  lemma CleanupFollows(m: Maps, p: Conn, ok: bool, n: Node)
    requires Shows(m, p.pub, n) && p in m.watchers && p !in m.ignore
    ensures Follows(m, PeerTerminated(m, p, ok), p.pub, Terminated(n, p, ok))
  {
    assert n.live == Some(p);
  }

  /** A watcher that runs finds its peer departing or live, whatever the handlers did since it started. */
  lemma TerminationFollows(m: Maps, p: Conn, ok: bool, n: Node)
    requires Shows(m, p.pub, n) && p in m.watchers
    ensures Follows(m, PeerTerminated(m, p, ok), p.pub, Terminated(n, p, ok))
  {
    if p !in m.ignore {
      CleanupFollows(m, p, ok, n);
    } else if p.pub in m.scheduled {
      CallbackFollows(m, p, ok, n);
    } else {
      IgnoredFollows(m, p, n);
    }
  }

  datatype Call =
    | InboundCall(conn: Conn, ok: bool)
    | OutboundCall(conn: Conn, ok: bool)
    | DisconnectCall(pub: PubKey)
    | TerminatedCall(peer: Conn, ok: bool)
    | ConnectCall(pub: PubKey, perm: bool)

  function Handle(m: Maps, local: PubKey, call: Call): Maps {
    match call
    case InboundCall(c, ok) => InboundPeerConnected(m, local, c, ok)
    case OutboundCall(c, ok) => OutboundPeerConnected(m, local, c, ok)
    case DisconnectCall(pub) => DisconnectPeer(m, pub)
    case TerminatedCall(p, ok) => PeerTerminated(m, p, ok)
    case ConnectCall(pub, perm) => ConnectToPeer(m, pub, perm)
  }

  function KeyOf(call: Call): PubKey {
    match call
    case InboundCall(c, _) => c.pub
    case OutboundCall(c, _) => c.pub
    case DisconnectCall(pub) => pub
    case TerminatedCall(p, _) => p.pub
    case ConnectCall(pub, _) => pub
  }

  /** The automaton event a call amounts to. */
  function EventOf(m: Maps, local: PubKey, call: Call): Event {
    match call
    case InboundCall(c, ok) => In(c, ShouldDropLocal(local, c.pub), ok)
    case OutboundCall(c, ok) => Out(c, Stale(m, c), ShouldDropLocal(local, c.pub), ok)
    case DisconnectCall(_) => Disconnects
    case TerminatedCall(p, ok) => Terminates(p, ok)
    case ConnectCall(_, _) => Asks
  }

  /** Connections arrive once, with the direction the handler is for; a watcher runs once. */
  ghost predicate CanHappen(m: Maps, arrived: set<Conn>, call: Call) {
    match call
    case InboundCall(c, _) => c !in arrived && c.inbound
    case OutboundCall(c, _) => c !in arrived && !c.inbound
    case DisconnectCall(_) => true
    case TerminatedCall(p, _) => p in m.watchers
    case ConnectCall(_, _) => true
  }

  /** Every handler moves one node as its automaton prescribes, and no other. */
  lemma HandlerRefines(m: Maps, local: PubKey, nodes: Nodes, arrived: set<Conn>, call: Call)
    requires InOrder(m, nodes, arrived) && CanHappen(m, arrived, call)
    ensures var e := EventOf(m, local, call);
            InOrder(Handle(m, local, call), nodes[KeyOf(call) := Next(NodeAt(nodes, KeyOf(call)), e)],
                    arrived + if e.In? || e.Out? then {e.conn} else {})
  {
    var pub := KeyOf(call);
    var n := NodeAt(nodes, pub);
    var e := EventOf(m, local, call);
    ShowsNode(m, nodes, arrived, pub);
    NodeMoves(nodes, arrived, pub, e);
    match call {
      case InboundCall(c, ok) => InboundFollows(m, local, c, ok, n);
      case OutboundCall(c, ok) => OutboundFollows(m, local, c, ok, n);
      case DisconnectCall(_) => DisconnectFollows(m, pub, n);
      case TerminatedCall(p, ok) => TerminationFollows(m, p, ok, n);
      case ConnectCall(_, perm) => AskingFollows(m, pub, perm, n);
    }
    FollowingFits(m, Handle(m, local, call), nodes, pub, Next(n, e));
  }

  function Run(local: PubKey, calls: seq<Call>): Maps
    decreases |calls|
  {
    if calls == [] then NoPeers else Handle(Run(local, calls[..|calls| - 1]), local, calls[|calls| - 1])
  }

  function ArrivedIn(calls: seq<Call>): set<Conn>
    decreases |calls|
  {
    if calls == [] then {}
    else
      var call := calls[|calls| - 1];
      ArrivedIn(calls[..|calls| - 1]) + if call.InboundCall? || call.OutboundCall? then {call.conn} else {}
  }

  ghost predicate AllCanHappen(local: PubKey, calls: seq<Call>)
    decreases |calls|
  {
    calls == [] ||
    var init := calls[..|calls| - 1];
    AllCanHappen(local, init) && CanHappen(Run(local, init), ArrivedIn(init), calls[|calls| - 1])
  }

  lemma {:induction false} RunInOrder(local: PubKey, calls: seq<Call>) returns (nodes: Nodes)
    requires AllCanHappen(local, calls)
    ensures InOrder(Run(local, calls), nodes, ArrivedIn(calls))
    decreases |calls|
  {
    if calls == [] {
      nodes := map[];
    } else {
      var init, call := calls[..|calls| - 1], calls[|calls| - 1];
      var before := RunInOrder(local, init);
      var m := Run(local, init);
      HandlerRefines(m, local, before, ArrivedIn(init), call);
      nodes := before[KeyOf(call) := Next(NodeAt(before, KeyOf(call)), EventOf(m, local, call))];
    }
  }

  /**
   In every interleaving, for every key: a live peer is filed once, under its own
   key and its own direction; a scheduled connection has no live rival and some
   departing peer of that key whose watcher is still to run.
   */
  lemma SingleConnection(local: PubKey, calls: seq<Call>, pub: PubKey)
    requires AllCanHappen(local, calls)
    ensures var m := Run(local, calls);
            && (pub in m.byPub <==> pub in m.inb || pub in m.outb)
            && !(pub in m.inb && pub in m.outb)
            && (pub in m.inb ==> m.inb[pub] == m.byPub[pub] && m.inb[pub].inbound && m.inb[pub].pub == pub)
            && (pub in m.outb ==> m.outb[pub] == m.byPub[pub] && !m.outb[pub].inbound && m.outb[pub].pub == pub)
            && (pub in m.scheduled ==> pub !in m.byPub
                                       && exists p :: p in m.ignore && p.pub == pub && p in m.watchers)
  {
    var nodes := RunInOrder(local, calls);
    var m := Run(local, calls);
    ShowsNode(m, nodes, ArrivedIn(calls), pub);
    var n := NodeAt(nodes, pub);
    assert Inv(n, ArrivedFrom(ArrivedIn(calls), pub));
    if pub in m.scheduled {
      var p :| p in n.leaving;
      assert p in m.ignore && p.pub == pub && p in m.watchers;
    }
  }

  /**
   In every interleaving the watchers yet to run are those of the ignored and of
   the live peers, and no peer is both.
   */
  lemma WatchersAreAccountedFor(local: PubKey, calls: seq<Call>, c: Conn)
    requires AllCanHappen(local, calls)
    ensures var m := Run(local, calls);
            && (c in m.watchers <==> c in m.ignore || Lookup(m.byPub, c.pub) == Some(c))
            && !(c in m.ignore && Lookup(m.byPub, c.pub) == Some(c))
  {
    var nodes := RunInOrder(local, calls);
    ShowsNode(Run(local, calls), nodes, ArrivedIn(calls), c.pub);
    assert Inv(NodeAt(nodes, c.pub), ArrivedFrom(ArrivedIn(calls), c.pub));
  }

  /** A watcher that runs its cleanup removes the very peer it watched, and one that is ignored removes none. */
  lemma WatcherRemovesItsOwnPeer(local: PubKey, calls: seq<Call>, p: Conn, ok: bool)
    requires AllCanHappen(local, calls) && p in Run(local, calls).watchers
    ensures var m := Run(local, calls);
            var r := PeerTerminated(m, p, ok);
            if p in m.ignore
            then Lookup(m.byPub, p.pub) != Some(p) && m.byPub.Keys <= r.byPub.Keys
            else && Lookup(m.byPub, p.pub) == Some(p)
                 && r.byPub == m.byPub - {p.pub} && r.inb == m.inb - {p.pub} && r.outb == m.outb - {p.pub}
  {
    WatchersAreAccountedFor(local, calls, p);
    SingleConnection(local, calls, p.pub);
    TerminationRemoves(Run(local, calls), p, ok);
  }

  lemma TerminationRemoves(m: Maps, p: Conn, ok: bool)
    requires p.pub in m.inb ==> m.inb[p.pub].inbound && Lookup(m.byPub, p.pub) == Some(m.inb[p.pub])
    requires p.pub in m.outb ==> !m.outb[p.pub].inbound && Lookup(m.byPub, p.pub) == Some(m.outb[p.pub])
    requires p !in m.ignore ==> Lookup(m.byPub, p.pub) == Some(p)
    ensures var r := PeerTerminated(m, p, ok);
            if p in m.ignore then m.byPub.Keys <= r.byPub.Keys
            else r.byPub == m.byPub - {p.pub} && r.inb == m.inb - {p.pub} && r.outb == m.outb - {p.pub}
  {
  }

  // ---- Connection requests ----

  lemma HandlerKeepsRequests(m: Maps, local: PubKey, call: Call)
    requires m.requests <= m.persistent
    ensures Handle(m, local, call).requests <= Handle(m, local, call).persistent
  {
  }

  /** Requests are outstanding only for persistent peers. */
  lemma {:induction false} RequestsArePersistent(local: PubKey, calls: seq<Call>)
    ensures Run(local, calls).requests <= Run(local, calls).persistent
    decreases |calls|
  {
    if calls != [] {
      var init := calls[..|calls| - 1];
      RequestsArePersistent(local, init);
      HandlerKeepsRequests(Run(local, init), local, calls[|calls| - 1]);
    }
  }

  lemma HandlerKeepsPersistent(m: Maps, local: PubKey, call: Call, pub: PubKey)
    requires call != ConnectCall(pub, true) && pub !in m.persistent
    ensures pub !in Handle(m, local, call).persistent
  {
  }

  lemma {:induction false} StaysForgotten(local: PubKey, before: seq<Call>, after: seq<Call>, pub: PubKey)
    requires pub !in Run(local, before).persistent
    requires ConnectCall(pub, true) !in after
    ensures pub !in Run(local, before + after).persistent
    decreases |after|
  {
    if after == [] {
      assert before + after == before;
    } else {
      var init, call := after[..|after| - 1], after[|after| - 1];
      StaysForgotten(local, before, init, pub);
      assert (before + after)[..|before + after| - 1] == before + init;
      HandlerKeepsPersistent(Run(local, before + init), local, call, pub);
    }
  }

  /**
   After a peer has been disconnected on request, and until a persistent
   connection to it is asked for again, no request for it is outstanding, and a
   connection that answers an earlier one is closed on arrival.
   */
  lemma DisconnectSticks(local: PubKey, before: seq<Call>, after: seq<Call>, pub: PubKey, c: Conn, ok: bool)
    requires pub in Run(local, before).byPub
    requires ConnectCall(pub, true) !in after
    requires c.pub == pub && c.req.Some?
    ensures var m := Run(local, before + [DisconnectCall(pub)] + after);
            && pub !in m.persistent && pub !in m.requests
            && OutboundPeerConnected(m, local, c, ok) == m
  {
    var cut := before + [DisconnectCall(pub)];
    assert cut[..|cut| - 1] == before;
    StaysForgotten(local, cut, after, pub);
    RequestsArePersistent(local, cut + after);
  }

  // ---- The server object ----

  datatype PeerError = NotConnected | AlreadyConnected

  class Server {
    const localPub: PubKey
    var peersByPub: map<PubKey, Conn>
    var inboundPeers: map<PubKey, Conn>
    var outboundPeers: map<PubKey, Conn>
    var scheduledPeerConnection: map<PubKey, Conn>
    var ignorePeerTermination: set<Conn>
    var persistentPeers: set<PubKey>
    var persistentConnReqs: set<PubKey>
    ghost var watchers: set<Conn>

    ghost function View(): Maps
      reads this
    {
      Maps(peersByPub, inboundPeers, outboundPeers, scheduledPeerConnection, ignorePeerTermination,
           persistentPeers, persistentConnReqs, watchers)
    }

    constructor (localPub: PubKey)
      ensures View() == NoPeers && this.localPub == localPub
    {
      this.localPub := localPub;
      peersByPub, inboundPeers, outboundPeers := map[], map[], map[];
      scheduledPeerConnection, ignorePeerTermination := map[], {};
      persistentPeers, persistentConnReqs, watchers := {}, {}, {};
    }

    method Connected(conn: Conn, ok: bool)
      modifies this
      ensures View() == PeerConnected(old(View()), conn, ok)
    {
      if !ok {
        return;
      }
      watchers := watchers + {conn};
      peersByPub := peersByPub[conn.pub := conn];
      if conn.inbound {
        inboundPeers := inboundPeers[conn.pub := conn];
      } else {
        outboundPeers := outboundPeers[conn.pub := conn];
      }
    }

    method Remove(p: Conn)
      modifies this
      ensures View() == RemovePeer(old(View()), p)
    {
      peersByPub := peersByPub - {p.pub};
      if p.inbound {
        inboundPeers := inboundPeers - {p.pub};
      } else {
        outboundPeers := outboundPeers - {p.pub};
      }
    }

    method Inbound(conn: Conn, ok: bool)
      modifies this
      ensures View() == InboundPeerConnected(old(View()), localPub, conn, ok)
    {
      if conn.pub in outboundPeers {
        return;
      }
      if conn.pub in scheduledPeerConnection {
        return;
      }
      if conn.pub !in peersByPub {
        persistentConnReqs := persistentConnReqs - {conn.pub};
        Connected(conn, ok);
        return;
      }
      var connected := peersByPub[conn.pub];
      if !ShouldDropLocal(localPub, conn.pub) {
        return;
      }
      persistentConnReqs := persistentConnReqs - {conn.pub};
      Remove(connected);
      ignorePeerTermination := ignorePeerTermination + {connected};
      scheduledPeerConnection := scheduledPeerConnection[conn.pub := conn];
    }

    method Outbound(conn: Conn, ok: bool)
      modifies this
      ensures View() == OutboundPeerConnected(old(View()), localPub, conn, ok)
    {
      if conn.pub in inboundPeers {
        return;
      }
      if conn.pub !in persistentConnReqs && conn.req.Some? {
        return;
      }
      if conn.pub in scheduledPeerConnection {
        return;
      }
      persistentConnReqs := persistentConnReqs - {conn.pub};
      if conn.pub !in peersByPub {
        Connected(conn, ok);
        return;
      }
      var connected := peersByPub[conn.pub];
      if ShouldDropLocal(localPub, conn.pub) {
        return;
      }
      Remove(connected);
      ignorePeerTermination := ignorePeerTermination + {connected};
      scheduledPeerConnection := scheduledPeerConnection[conn.pub := conn];
    }

    method Disconnect(pub: PubKey) returns (r: Result<(), PeerError>)
      modifies this
      ensures View() == DisconnectPeer(old(View()), pub)
      ensures r == if pub in old(peersByPub) then Ok(()) else Err(NotConnected)
    {
      if pub !in peersByPub {
        return Err(NotConnected);
      }
      var peer := peersByPub[pub];
      persistentConnReqs := persistentConnReqs - {pub};
      persistentPeers := persistentPeers - {pub};
      Remove(peer);
      ignorePeerTermination := ignorePeerTermination + {peer};
      return Ok(());
    }

    /** Leaves a request for a persistent connection; any other is dialled at once, as an outbound call. */
    method Connect(pub: PubKey, perm: bool) returns (r: Result<(), PeerError>)
      modifies this
      ensures View() == ConnectToPeer(old(View()), pub, perm)
      ensures r == if pub in old(peersByPub) then Err(AlreadyConnected) else Ok(())
    {
      if pub in peersByPub {
        return Err(AlreadyConnected);
      }
      if perm {
        persistentPeers := persistentPeers + {pub};
        persistentConnReqs := persistentConnReqs + {pub};
      }
      return Ok(());
    }

    method TerminationWatcher(p: Conn, ok: bool)
      modifies this
      ensures View() == PeerTerminated(old(View()), p, ok)
    {
      watchers := watchers - {p};
      if p in ignorePeerTermination {
        ignorePeerTermination := ignorePeerTermination - {p};
        if p.pub in scheduledPeerConnection {
          var conn := scheduledPeerConnection[p.pub];
          scheduledPeerConnection := scheduledPeerConnection - {p.pub};
          Connected(conn, ok);
        }
        return;
      }
      Remove(p);
      if p.pub in persistentPeers {
        if p.pub in persistentConnReqs {
          return;
        }
        persistentConnReqs := persistentConnReqs + {p.pub};
      }
    }
  }
}
