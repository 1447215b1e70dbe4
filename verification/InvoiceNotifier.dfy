/**
 The notifier goroutine's own code: the loops that send a backlog and dispatch
 one event to every client, proved to take the steps of `InvoiceEvents`.
 */
module InvoiceNotifier {
  import opened Primitives
  import opened InvoiceEvents

  /** The entries above `since`; a zero cursor asks for none. */
  method EntriesSince(k: Kind, since: nat, count: nat) returns (entries: seq<Ev>)
    ensures |entries| == if since == 0 || count <= since then 0 else count - since
    ensures forall i :: 0 <= i < |entries| ==> entries[i] == Ev(k, since + 1 + i)
  {
    entries := [];
    if since == 0 {
      return;
    }
    var next := since + 1;
    while next <= count
      invariant next == since + 1 + |entries|
      invariant next <= count + 1 || entries == []
      invariant forall i :: 0 <= i < |entries| ==> entries[i] == Ev(k, since + 1 + i)
    {
      entries := entries + [Ev(k, next)];
      next := next + 1;
    }
  }

  /** Queueing consecutive entries for a client appends exactly the backlog up to the last of them. */
  method SendBacklog(k: Kind, since: nat, entries: seq<Ev>, sent: seq<Delivery>) returns (r: seq<Delivery>)
    requires forall i :: 0 <= i < |entries| ==> entries[i] == Ev(k, since + 1 + i)
    ensures r == sent + Backlog(k, since, since + |entries|)
  {
    r := sent;
    for i := 0 to |entries|
      invariant r == sent + Backlog(k, since, since + i)
    {
      r := r + [Delivery(entries[i].kind, entries[i].index, false)];
    }
  }

  /** The cursor moves only if the event was sent; that it was offered is kept as history. */
  function Record(t: Track, i: nat, sent: bool): Track {
    var r := t.(offered := t.offered + [i]);
    if sent then r.(cursor := i) else r
  }

  /** Sends an event to one client unless it has been sent it, or a later one, already. */
  method SendEvent(client: Client, e: Ev) returns (c: Client)
    ensures c == Notify(client, e)
  {
    c := client;
    var sent := true;
    if e.kind == Settle && c.settles.cursor >= e.index {
      sent := false;
    } else if e.kind == Add && c.adds.cursor >= e.index {
      sent := false;
    }
    if sent {
      c := c.(delivered := c.delivered + [Delivery(e.kind, e.index, true)]);
    }
    if e.kind == Settle {
      c := c.(settles := Record(c.settles, e.index, sent));
    } else {
      c := c.(adds := Record(c.adds, e.index, sent));
    }
  }

  class Notifier {
    var clients: map<nat, Client>

    constructor ()
      ensures clients == map[]
    {
      clients := map[];
    }

    /**
     Registers a subscription: both backlogs are read, then sent, and the client
     is added whether or not that failed.
     */
    method Subscribe(s: State)
      requires s.joining.Some? && clients == s.clients
      modifies this
      ensures clients == Next(s, FinishSubscribe).clients
    {
      var j := s.joining.value;
      var addTo: Option<nat>, settleTo: Option<nat> := None, None;
      var sent: seq<Delivery> := [];
      var adds := EntriesSince(Add, j.add, j.addsRead);
      if j.settle == 0 || s.settles != 0 {
        var settles := EntriesSince(Settle, j.settle, s.settles);
        sent := SendBacklog(Add, j.add, adds, sent);
        sent := SendBacklog(Settle, j.settle, settles, sent);
        addTo, settleTo := BacklogTo(j.add, j.addsRead), BacklogTo(j.settle, s.settles);
      }
      var client := Client(Track(j.add, j.add, s.addsDone, addTo, []),
                           Track(j.settle, j.settle, s.settlesDone, settleTo, []), sent);
      assert client == Joined(s, j);
      clients := clients[j.id := client];
    }

    /** Offers one event to every client, in whatever order the map yields them. */
    method Dispatch(e: Ev)
      modifies this
      ensures clients == Notified(old(clients), e)
    {
      var left := clients.Keys;
      while left != {}
        invariant left <= clients.Keys == old(clients).Keys
        invariant forall id :: id in left ==> clients[id] == old(clients)[id]
        invariant forall id :: id in clients.Keys - left ==> clients[id] == Notify(old(clients)[id], e)
        decreases |left|
      {
        var id :| id in left;
        left := left - {id};
        var c := SendEvent(clients[id], e);
        clients := clients[id := c];
      }
    }

    method Cancel(id: nat)
      modifies this
      ensures clients == old(clients) - {id}
    {
      clients := clients - {id};
    }
  }
}
