/**
 Inputs at which the code falls short of what its comments say. The general
 conditions are proved in the modules of the components; here is one concrete
 run or value for each.
 */
module Shortfalls {
  import opened Primitives
  import opened WireCodec
  import opened RetributionCodec
  import opened Justice
  import opened FeeNegotiation
  import opened ChannelCloser
  import opened NurseryLedger
  import NurseryIndex
  import NurseryTransitions
  import Close = CloseProtocol
  import Watch = SpendWatch
  import NurseryLocks
  import Peers = PeerConnections
  import Registry = PeerRegistry
  import PeerRequests
  import Invoices = InvoiceEvents
  import Records = OpeningRecords
  import Opening = ChannelOpening

  const ZERO_HASH: Hash := [0, 0, 0, 0, 0, 0, 0, 0, 0, 0, 0, 0, 0, 0, 0, 0, 0, 0, 0, 0, 0, 0, 0, 0, 0, 0, 0, 0, 0, 0, 0, 0]

  // ---- Fee negotiation ----

  /** Two closers with ideal fees 5 and 9 repeat their offers: two deliveries bring back the same state. */
  lemma FiveAndNineNeverMeet()
    ensures !Converges(5, 9)
    ensures var events := [] + [Close.FunderShuts] + [Close.ToAcceptor] + [Close.ToFunder] + [Close.ToAcceptor];
            var n := Close.Run(Close.Start(5, 9, 100, [], []), events);
            && n.f.last == 5 && n.a.last == 9 && n.toA == [] && n.toF == [Offer(n.a, 9)]
            && Close.Next(Close.Next(n, Close.ToFunder), Close.ToAcceptor) == n
  {
    var s := Close.Start(5, 9, 100, [], []);
    var n1 := FeeStep(s, [], Close.FunderShuts, s);
    var n2 := FeeStep(s, [] + [Close.FunderShuts], Close.ToAcceptor, n1);
    var n3 := FeeStep(s, [] + [Close.FunderShuts] + [Close.ToAcceptor], Close.ToFunder, n2);
    var n := FeeStep(s, [] + [Close.FunderShuts] + [Close.ToAcceptor] + [Close.ToFunder], Close.ToAcceptor, n3);
    assert n.a.offers == map[9 := Offer(n.a, 9)] && n.f.offers == map[5 := Offer(n.f, 5)];
    var m := Close.Next(n, Close.ToFunder);
    assert m.f.offers == n.f.offers;
    assert Close.Next(m, Close.ToAcceptor).a.offers == n.a.offers;
  }

  lemma FeeStep(s: Close.Net, events: seq<Close.Event>, e: Close.Event, before: Close.Net) returns (after: Close.Net)
    requires Close.Run(s, events) == before
    ensures after == Close.Next(before, e) && Close.Run(s, events + [e]) == after
  {
    assert (events + [e])[..|events|] == events;
    after := Close.Next(before, e);
  }

  // ---- Nursery ----

  /** A crib call on an output that is already in kindergarten leaves it scheduled at two heights. */
  lemma CribCallOnKindergarten()
    ensures var kid := Kid(OutPoint(ZERO_HASH, 1), OutPoint(ZERO_HASH, 0), 1000, 10, 0, 100);
            var baby := Baby(50, Tx(ZERO_HASH), kid.(blocksToMaturity := 20));
            var db := NurseryTransitions.PreschoolToKinderTx(
                        NurseryTransitions.EnrollTx(NurseryIndex.Empty, StoredKid(kid)), kid);
            NurseryIndex.Agrees(db) && !NurseryIndex.Agrees(NurseryTransitions.CribToKinderTx(db, baby))
  {
    var kid := Kid(OutPoint(ZERO_HASH, 1), OutPoint(ZERO_HASH, 0), 1000, 10, 0, 100);
    var baby := Baby(50, Tx(ZERO_HASH), kid.(blocksToMaturity := 20));
    NurseryTransitions.EnrollRefines(NurseryIndex.Empty, Fresh, StoredKid(kid));
    var db1, l1 := NurseryTransitions.EnrollTx(NurseryIndex.Empty, StoredKid(kid)), Enroll(Fresh, StoredKid(kid));
    NurseryTransitions.PreschoolToKinderRefines(db1, l1, kid);
    var db2, l2 := NurseryTransitions.PreschoolToKinderTx(db1, kid), PreschoolToKinder(l1, kid);
    assert l2.entries[SlotOf(kid)].due == Some(110);
    NurseryTransitions.CribToKinderRefines(db2, l2, baby);
  }

  /** A delay of one block from the last 32-bit height wraps round, and the output is due at once. */
  lemma WrappedHeightIsEarly()
    ensures var kid := Kid(OutPoint(ZERO_HASH, 1), OutPoint(ZERO_HASH, 0), 1000, 1, 0, 0xFFFF_FFFF);
            && NurseryLocks.Lock(kid) == 0x1_0000_0000
            && PreschoolToKinder(Fresh, kid).entries[SlotOf(kid)].due == Some(1)
  {
  }

  // ---- Breach arbiter ----

  const TWEAK: VarBytes := [1]

  function Output(script: VarBytes): BreachedOutput {
    BreachedOutput(0, OutPoint(ZERO_HASH, 0), COMMITMENT_REVOKE,
                   SignDesc(KeyDesc(0, 0, None), Some(TWEAK), None, [], TxOut(0, []), 0), script)
  }

  /** A second-level script of 1001 bytes is written but not read back. */
  lemma LongScriptIsLost()
    ensures var script: VarBytes := seq(1001, _ => 0 as byte);
            var ret := Retribution(ZERO_HASH, OutPoint(ZERO_HASH, 0), ZERO_HASH, 0, [Output(script)]);
            GetRetribution(Encoded(ret) + []) != Parsed(ret, [])
  {
    var script: VarBytes := seq(1001, _ => 0 as byte);
    var ret := Retribution(ZERO_HASH, OutPoint(ZERO_HASH, 0), ZERO_HASH, 0, [Output(script)]);
    DecodeUndoesEncode(ret, []);
    assert !FitsOutput(ret.outputs[0]);
  }

  /** A conflict over the commitment output alone is waited on for ever. */
  lemma NoHtlcNoEnd(steps: seq<Watch.Step>)
    ensures Watch.Run(Watch.StartRound([Output([])]), steps).main == Watch.Waiting
  {
    var os := [Output([])];
    assert Watch.StartRound(os).pcs == map[];
    Watch.NothingToWaitFor(Watch.StartRound(os), steps, os);
  }

  // ---- Peers ----

  /** The watcher of a peer that was disconnected earlier connects the third peer while the second is still leaving. */
  lemma EarlierWatcherTakesOver()
    ensures var c1, c2, c3 := Peers.Conn(1, [], true, None), Peers.Conn(2, [], true, None), Peers.Conn(3, [], true, None);
            var events := [Peers.In(c1, false, true)] + [Peers.Disconnects] + [Peers.In(c2, false, true)]
                          + [Peers.In(c3, true, true)] + [Peers.Terminates(c1, true)];
            var n := Peers.Run(Peers.Unknown, events);
            Peers.Plausible(events) && n.live == Some(c3) && c2 in n.leaving && c2 in n.watchers
  {
    var c1, c2, c3 := Peers.Conn(1, [], true, None), Peers.Conn(2, [], true, None), Peers.Conn(3, [], true, None);
    var e1, e2, e3, e4 := Peers.In(c1, false, true), Peers.Disconnects, Peers.In(c2, false, true), Peers.In(c3, true, true);
    assert [] + [e1] == [e1];
    var n1 := PeerStep([], e1, Peers.Unknown, {});
    var n2 := PeerStep([e1], e2, n1, {c1});
    assert n2 == Peers.Node(None, None, {c1}, {c1}, {c1}, {});
    var n3 := PeerStep([e1] + [e2], e3, n2, {c1});
    assert n3 == Peers.Node(Some(c2), None, {c1}, {c1, c2}, {c1}, {});
    var n4 := PeerStep([e1] + [e2] + [e3], e4, n3, {c1, c2});
    var n5 := PeerStep([e1] + [e2] + [e3] + [e4], Peers.Terminates(c1, true), n4, {c1, c2, c3});
  }

  lemma PeerStep(events: seq<Peers.Event>, e: Peers.Event, before: Peers.Node, arrived: set<Peers.Conn>)
    returns (after: Peers.Node)
    requires Peers.Plausible(events) && Peers.Run(Peers.Unknown, events) == before && Peers.Arrived(events) == arrived
    requires e.In? ==> e.conn !in arrived && e.conn.inbound
    requires e.Out? ==> e.conn !in arrived && !e.conn.inbound
    requires e.Terminates? ==> e.peer in before.watchers
    ensures after == Peers.Next(before, e) && Peers.Run(Peers.Unknown, events + [e]) == after
    ensures Peers.Plausible(events + [e])
    ensures Peers.Arrived(events + [e]) == arrived + if e.In? || e.Out? then {e.conn} else {}
  {
    assert (events + [e])[..|events|] == events;
    after := Peers.Next(before, e);
  }

  /** The answer to the only request for a persistent peer fails to create it: nothing asks for it again. */
  lemma FailedCreationAbandons()
    ensures var local, k: Peers.PubKey := [2], [1];
            var calls := [Registry.ConnectCall(k, true), Registry.OutboundCall(Peers.Conn(1, k, false, Some(0)), false)];
            var m := Registry.Run(local, calls);
            && Registry.AllCanHappen(local, calls) && PeerRequests.Wanted(local, calls, k)
            && k !in m.byPub && k !in m.scheduled && k !in m.requests
  {
    var local, k: Peers.PubKey := [2], [1];
    var c := Peers.Conn(1, k, false, Some(0));
    var first, calls := [Registry.ConnectCall(k, true)], [Registry.ConnectCall(k, true), Registry.OutboundCall(c, false)];
    assert first[..0] == [] && calls[..1] == first;
    assert Registry.Run(local, []) == Registry.NoPeers && Registry.ArrivedIn([]) == {};
    assert Registry.Run(local, first) == Registry.ConnectToPeer(Registry.NoPeers, k, true);
    assert PeerRequests.Wanted(local, first, k);
  }

  // ---- Invoices ----

  lemma InvoiceStep(steps: seq<Invoices.Step>, step: Invoices.Step, before: Invoices.State) returns (after: Invoices.State)
    requires Invoices.Run(Invoices.Fresh, steps) == before && Invoices.Enabled(before, step)
    ensures after == Invoices.Next(before, step) && Invoices.Run(Invoices.Fresh, steps + [step]) == after
  {
    assert (steps + [step])[..|steps|] == steps;
    after := Invoices.Next(before, step);
  }

  const Added := [Invoices.AddInvoice, Invoices.Enqueue, Invoices.Dispatch]
  const Settled := [Invoices.SettleInvoice, Invoices.Enqueue, Invoices.Dispatch]

  lemma AfterAdded() returns (s: Invoices.State)
    ensures s == Invoices.Run(Invoices.Fresh, Added)
    ensures s == Invoices.State(1, 0, None, [], 1, 0, None, map[])
  {
    var s1 := InvoiceStep([], Invoices.AddInvoice, Invoices.Fresh);
    var s2 := InvoiceStep([Invoices.AddInvoice], Invoices.Enqueue, s1);
    s := InvoiceStep([Invoices.AddInvoice, Invoices.Enqueue], Invoices.Dispatch, s2);
  }

  lemma AfterSettledTwice() returns (s: Invoices.State)
    ensures s == Invoices.Run(Invoices.Fresh, Settled + Settled)
    ensures s == Invoices.State(0, 2, None, [], 0, 2, None, map[])
  {
    var s1 := InvoiceStep([], Invoices.SettleInvoice, Invoices.Fresh);
    var s2 := InvoiceStep([Invoices.SettleInvoice], Invoices.Enqueue, s1);
    var s3 := InvoiceStep([Invoices.SettleInvoice, Invoices.Enqueue], Invoices.Dispatch, s2);
    var s4 := InvoiceStep(Settled, Invoices.SettleInvoice, s3);
    var s5 := InvoiceStep(Settled + [Invoices.SettleInvoice], Invoices.Enqueue, s4);
    s := InvoiceStep(Settled + [Invoices.SettleInvoice] + [Invoices.Enqueue], Invoices.Dispatch, s5);
    assert Settled + [Invoices.SettleInvoice] + [Invoices.Enqueue] + [Invoices.Dispatch] == Settled + Settled;
  }

  /** An add event that is in the database and still queued when a client joins is sent to it twice. */
  lemma QueuedAddIsSentTwice()
    ensures var steps := Added + [Invoices.AddInvoice] + [Invoices.Enqueue] + [Invoices.Subscribe(0, 1, 0)]
                         + [Invoices.FinishSubscribe] + [Invoices.Dispatch];
            var s := Invoices.Run(Invoices.Fresh, steps);
            0 in s.clients && Invoices.Times(s.clients[0], Invoices.Add, 2) == 2
  {
    var s0 := AfterAdded();
    var p1 := Added + [Invoices.AddInvoice];
    var s1 := InvoiceStep(Added, Invoices.AddInvoice, s0);
    var p2 := p1 + [Invoices.Enqueue];
    var s2 := InvoiceStep(p1, Invoices.Enqueue, s1);
    var p3 := p2 + [Invoices.Subscribe(0, 1, 0)];
    var s3 := InvoiceStep(p2, Invoices.Subscribe(0, 1, 0), s2);
    var p4 := p3 + [Invoices.FinishSubscribe];
    var s4 := InvoiceStep(p3, Invoices.FinishSubscribe, s3);
    var s5 := InvoiceStep(p4, Invoices.Dispatch, s4);
    Invoices.SentTwiceIff(p4 + [Invoices.Dispatch], 0, Invoices.Add, 2);
  }

  lemma AfterRejoining() returns (s: Invoices.State)
    ensures s == Invoices.Run(Invoices.Fresh, Settled + Settled + [Invoices.Subscribe(0, 0, 1)] + [Invoices.FinishSubscribe])
    ensures s.pending == None && s.queue == [] && s.joining == None && s.settles == s.settlesDone == 2
    ensures 0 in s.clients && s.clients[0].settles == Invoices.Track(1, 1, 2, Some(2), [])
  {
    var s0 := AfterSettledTwice();
    var p0 := Settled + Settled;
    var s1 := InvoiceStep(p0, Invoices.Subscribe(0, 0, 1), s0);
    s := InvoiceStep(p0 + [Invoices.Subscribe(0, 0, 1)], Invoices.FinishSubscribe, s1);
  }

  /** Settling a settled invoice again sends its event a second time to a client that had it in its backlog. */
  lemma SettledAgainIsSentTwice()
    ensures var steps := Settled + Settled + [Invoices.Subscribe(0, 0, 1)] + [Invoices.FinishSubscribe]
                         + [Invoices.SettleAgain(2)] + [Invoices.Enqueue] + [Invoices.Dispatch];
            var s := Invoices.Run(Invoices.Fresh, steps);
            0 in s.clients && Invoices.Times(s.clients[0], Invoices.Settle, 2) == 2
  {
    var s2 := AfterRejoining();
    var p2 := Settled + Settled + [Invoices.Subscribe(0, 0, 1)] + [Invoices.FinishSubscribe];
    var p3 := p2 + [Invoices.SettleAgain(2)];
    var s3 := InvoiceStep(p2, Invoices.SettleAgain(2), s2);
    var p4 := p3 + [Invoices.Enqueue];
    var s4 := InvoiceStep(p3, Invoices.Enqueue, s3);
    var s5 := InvoiceStep(p4, Invoices.Dispatch, s4);
    assert s5.clients[0].settles == Invoices.Track(1, 2, 2, Some(2), [2]);
    assert [2][..0] == [];
    Invoices.SentTwiceIff(p4 + [Invoices.Dispatch], 0, Invoices.Settle, 2);
  }

  /** A client that subscribes with a zero cursor never sees what was dispatched before. */
  lemma ZeroCursorMisses()
    ensures var s := Invoices.Run(Invoices.Fresh, Added + [Invoices.Subscribe(0, 0, 0)] + [Invoices.FinishSubscribe]);
            0 in s.clients && s.addsDone == 1 && Invoices.Times(s.clients[0], Invoices.Add, 1) == 0
  {
    var s0 := AfterAdded();
    var p1 := Added + [Invoices.Subscribe(0, 0, 0)];
    var s1 := InvoiceStep(Added, Invoices.Subscribe(0, 0, 0), s0);
    var s2 := InvoiceStep(p1, Invoices.FinishSubscribe, s1);
    Invoices.MissedIff(p1 + [Invoices.FinishSubscribe], 0, Invoices.Add, 1);
  }

  /** A settle cursor while nothing has been settled costs the client its add backlog. */
  lemma SettleCursorLosesAdds()
    ensures var before := Added + [Invoices.AddInvoice] + [Invoices.Enqueue] + [Invoices.Dispatch];
            var s := Invoices.Run(Invoices.Fresh, before + [Invoices.Subscribe(0, 1, 1)] + [Invoices.FinishSubscribe]);
            0 in s.clients && s.addsDone == 2 && Invoices.Times(s.clients[0], Invoices.Add, 2) == 0
  {
    var s0 := AfterAdded();
    var p1 := Added + [Invoices.AddInvoice];
    var s1 := InvoiceStep(Added, Invoices.AddInvoice, s0);
    var p2 := p1 + [Invoices.Enqueue];
    var s2 := InvoiceStep(p1, Invoices.Enqueue, s1);
    var p3 := p2 + [Invoices.Dispatch];
    var s3 := InvoiceStep(p2, Invoices.Dispatch, s2);
    var p4 := p3 + [Invoices.Subscribe(0, 1, 1)];
    var s4 := InvoiceStep(p3, Invoices.Subscribe(0, 1, 1), s3);
    var s5 := InvoiceStep(p4, Invoices.FinishSubscribe, s4);
    Invoices.MissedIff(p4 + [Invoices.FinishSubscribe], 0, Invoices.Add, 2);
  }

  // ---- Channel opening ----

  /** A block height of 2^24 is shifted out of the compact form and read back as zero. */
  lemma LargeHeightIsLost()
    ensures var c := Records.ShortChannelId(0x100_0000, 0, 0);
            Records.FromUint64(Records.ToUint64(c)) != c
  {
    Records.CompactIdIff(Records.ShortChannelId(0x100_0000, 0, 0));
  }

  /** A crash between the two writes that open a channel, and a restart: nobody works on it any more. */
  lemma CrashInTheGap()
    ensures var id := Records.ShortChannelId(100, 1, 0);
            var s := Opening.Run(Opening.Fresh(1, true),
                                 [Opening.Block] + ([Opening.Confirm(id)] + ([Opening.Work] + ([Opening.Crash] + ([Opening.Start] + [])))));
            Opening.Lost(s) && s.worker == Opening.Idle && s.log == []
  {
    var id := Records.ShortChannelId(100, 1, 0);
    var p5 := [Opening.Start] + [];
    var p4 := [Opening.Crash] + p5;
    var p3 := [Opening.Work] + p4;
    var p2 := [Opening.Confirm(id)] + p3;
    var s1 := OpeningStep(Opening.Fresh(1, true), Opening.Block, p2);
    var s2 := OpeningStep(s1, Opening.Confirm(id), p3);
    var s3 := OpeningStep(s2, Opening.Work, p4);
    var s4 := OpeningStep(s3, Opening.Crash, p5);
    var s5 := OpeningStep(s4, Opening.Start, []);
  }

  lemma OpeningStep(before: Opening.State, step: Opening.Step, rest: seq<Opening.Step>) returns (after: Opening.State)
    requires Opening.Enabled(before, step)
    ensures after == Opening.Next(before, step) && Opening.Run(before, [step] + rest) == Opening.Run(after, rest)
  {
    Opening.RunStep(before, step, rest);
    after := Opening.Next(before, step);
  }
}
