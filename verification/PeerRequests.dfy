/**
 Persistent peers: which keys are wanted, when a connection request for one is
 outstanding, and exactly when a wanted peer is no longer pursued.
 */
module PeerRequests {
  import opened Primitives
  import opened ByteOrder
  import opened PeerConnections
  import R = PeerRegistry
  import opened PeerRegistry

  // ---- Which peers are wanted ----

  /** A persistent connection was asked for while there was none, and not ended on request since. */
  predicate Wanted(local: PubKey, calls: seq<Call>, k: PubKey)
    decreases |calls|
  {
    calls != [] &&
    var init, call := calls[..|calls| - 1], calls[|calls| - 1];
    var connected := k in R.Run(local, init).byPub;
    if call == ConnectCall(k, true) && !connected then true
    else Wanted(local, init, k) && !(call == DisconnectCall(k) && connected)
  }

  lemma {:induction false} PersistentIff(local: PubKey, calls: seq<Call>, k: PubKey)
    ensures k in R.Run(local, calls).persistent <==> Wanted(local, calls, k)
    decreases |calls|
  {
    if calls != [] {
      PersistentIff(local, calls[..|calls| - 1], k);
      PersistentStep(R.Run(local, calls[..|calls| - 1]), local, calls[|calls| - 1], k);
    }
  }

  lemma PersistentStep(m: Maps, local: PubKey, call: Call, k: PubKey)
    ensures k in Handle(m, local, call).persistent
            <==> if call == ConnectCall(k, true) && k !in m.byPub then true
                 else k in m.persistent && !(call == DisconnectCall(k) && k in m.byPub)
  {
  }

  /**
   A connection that is taken up, live or scheduled, cancels every request for its
   key, and so does an outbound one that loses the tie-break; one that is ignored
   for another reason changes nothing.
   */
  lemma ConnectionCancelsRequests(m: Maps, local: PubKey, c: Conn, ok: bool)
    ensures var r := InboundPeerConnected(m, local, c, ok);
            if c.pub in m.outb || c.pub in m.scheduled || (c.pub in m.byPub && !Before(c.pub, local)) then r == m
            else c.pub !in r.requests && r.persistent == m.persistent
    ensures var r := OutboundPeerConnected(m, local, c, ok);
            if c.pub in m.inb || c.pub in m.scheduled || (c.req.Some? && c.pub !in m.requests) then r == m
            else c.pub !in r.requests && r.persistent == m.persistent
  {
  }

  // ---- Is every wanted peer pursued? ----

  /** A wanted peer is connected, about to be, or asked for. */
  predicate Pursued(m: Maps, k: PubKey) {
    k in m.persistent ==> k in m.byPub || k in m.scheduled || k in m.requests
  }

  /** The call tries to create a peer for `k` and fails, and no request is left. */
  predicate FailsToCreate(m: Maps, local: PubKey, call: Call, k: PubKey) {
    match call
    case InboundCall(c, ok) =>
      !ok && c.pub == k && k !in m.outb && k !in m.scheduled && k !in m.byPub
    case OutboundCall(c, ok) =>
      !ok && c.pub == k && k !in m.inb && !(c.req.Some? && k !in m.requests) && k !in m.scheduled && k !in m.byPub
    case TerminatedCall(p, ok) =>
      !ok && p.pub == k && p in m.ignore && k in m.scheduled && k !in m.requests
    case _ => false
  }

  /** The call asks for `k` again, or makes it live. */
  predicate TakesUpAgain(call: Call, k: PubKey) {
    match call
    case InboundCall(c, ok) => ok && c.pub == k
    case OutboundCall(c, ok) => ok && c.pub == k && c.req.None?
    case ConnectCall(pub, perm) => pub == k && perm
    case _ => false
  }

  /** What the registry holds under a key in every run. */
  ghost predicate KeyFits(m: Maps, k: PubKey) {
    && (k in m.inb || k in m.outb ==> k in m.byPub)
    && (k in m.byPub ==> m.byPub[k].pub == k)
    && (k in m.scheduled ==> k !in m.byPub && m.scheduled[k].pub == k)
  }

  ghost predicate Consistent(m: Maps) {
    forall k :: KeyFits(m, k)
  }

  lemma StepPursues(m: Maps, local: PubKey, call: Call, k: PubKey)
    requires Consistent(m) && Pursued(m, k)
    ensures Pursued(Handle(m, local, call), k)
            <==> !(FailsToCreate(m, local, call, k) && k in Handle(m, local, call).persistent)
  {
    assert KeyFits(m, k) && KeyFits(m, KeyOf(call));
  }

  lemma StepTakesUp(m: Maps, local: PubKey, call: Call, k: PubKey)
    requires Consistent(m) && !Pursued(m, k)
    requires call.TerminatedCall? && call.peer.pub == k ==> call.peer in m.ignore
    ensures Pursued(Handle(m, local, call), k) <==> TakesUpAgain(call, k)
  {
    assert KeyFits(m, k) && KeyFits(m, KeyOf(call));
  }

  /** Some creation of a wanted peer failed without a request left, and nothing has taken it up since. */
  predicate Abandoned(local: PubKey, calls: seq<Call>, k: PubKey)
    decreases |calls|
  {
    calls != [] &&
    var init, call := calls[..|calls| - 1], calls[|calls| - 1];
    if Abandoned(local, init, k) then !TakesUpAgain(call, k)
    else FailsToCreate(R.Run(local, init), local, call, k) && Wanted(local, calls, k)
  }

  lemma RunIsConsistent(local: PubKey, calls: seq<Call>)
    requires AllCanHappen(local, calls)
    ensures Consistent(R.Run(local, calls))
  {
    var nodes := RunInOrder(local, calls);
    forall k
      ensures KeyFits(R.Run(local, calls), k)
    {
      ShowsNode(R.Run(local, calls), nodes, ArrivedIn(calls), k);
    }
  }

  /**
   In every interleaving a wanted peer is connected, scheduled or asked for, if and
   only if it has not been abandoned.
   */
  lemma {:induction false} PursuedIff(local: PubKey, calls: seq<Call>, k: PubKey)
    requires AllCanHappen(local, calls)
    ensures Pursued(R.Run(local, calls), k) <==> !Abandoned(local, calls, k)
    decreases |calls|
  {
    if calls != [] {
      var init, call := calls[..|calls| - 1], calls[|calls| - 1];
      PursuedIff(local, init, k);
      RunIsConsistent(local, init);
      PersistentIff(local, calls, k);
      var m := R.Run(local, init);
      if Pursued(m, k) {
        StepPursues(m, local, call, k);
      } else {
        if call.TerminatedCall? && call.peer.pub == k {
          WatchersAreAccountedFor(local, init, call.peer);
        }
        StepTakesUp(m, local, call, k);
      }
    }
  }

  /** Every peer in the run could be created. */
  predicate AllCreated(calls: seq<Call>) {
    forall i :: 0 <= i < |calls| ==>
      match calls[i]
      case InboundCall(_, ok) => ok
      case OutboundCall(_, ok) => ok
      case TerminatedCall(_, ok) => ok
      case _ => true
  }

  lemma {:induction false} NothingAbandoned(local: PubKey, calls: seq<Call>, k: PubKey)
    requires AllCreated(calls)
    ensures !Abandoned(local, calls, k)
    decreases |calls|
  {
    if calls != [] {
      NothingAbandoned(local, calls[..|calls| - 1], k);
    }
  }

  /** In every interleaving in which each peer could be created, a wanted peer is connected, scheduled or asked for. */
  lemma WantedIsPursued(local: PubKey, calls: seq<Call>, k: PubKey)
    requires AllCanHappen(local, calls) && AllCreated(calls) && Wanted(local, calls, k)
    ensures var m := R.Run(local, calls); k in m.byPub || k in m.scheduled || k in m.requests
  {
    NothingAbandoned(local, calls, k);
    PursuedIff(local, calls, k);
    PersistentIff(local, calls, k);
  }

  /** A wanted peer that is lost without having been replaced or disconnected is asked for at once. */
  lemma LostIsAskedFor(local: PubKey, calls: seq<Call>, p: Conn, ok: bool)
    requires AllCanHappen(local, calls) && Wanted(local, calls, p.pub)
    requires p in R.Run(local, calls).watchers && p !in R.Run(local, calls).ignore
    ensures p.pub in PeerTerminated(R.Run(local, calls), p, ok).requests
  {
    PersistentIff(local, calls, p.pub);
  }
}
