/**
 Two channel closers joined by two in-order message queues. Either side may
 start the shutdown at any time and messages arrive after any delay; the lemmas
 hold for every such interleaving.
 */
module CloseProtocol {
  import opened Primitives
  import opened FeeNegotiation
  import opened ChannelCloser

  datatype Net = Net(f: Closer, a: Closer, toF: seq<Message>, toA: seq<Message>, failed: bool)

  datatype Event = FunderShuts | AcceptorShuts | ToFunder | ToAcceptor

  function Start(idealF: nat, idealA: nat, commitFee: nat, scriptF: Script, scriptA: Script): Net {
    Net(NewCloser(Funder, idealF, commitFee, scriptF), NewCloser(Acceptor, idealA, commitFee, scriptA),
        [], [], false)
  }

  /** A shutdown request on a closer that is already closing is refused and changes nothing. */
  function Next(n: Net, e: Event): Net {
    match e
    case FunderShuts =>
      var r := ShutdownChan(n.f);
      n.(f := r.closer, toA := n.toA + r.send)
    case AcceptorShuts =>
      var r := ShutdownChan(n.a);
      n.(a := r.closer, toF := n.toF + r.send)
    case ToFunder =>
      if n.toF == [] then n
      else
        var r := ProcessCloseMsg(n.f, n.toF[0]);
        n.(f := r.closer, toF := n.toF[1..], toA := n.toA + r.send, failed := n.failed || r.error.Some?)
    case ToAcceptor =>
      if n.toA == [] then n
      else
        var r := ProcessCloseMsg(n.a, n.toA[0]);
        n.(a := r.closer, toA := n.toA[1..], toF := n.toF + r.send, failed := n.failed || r.error.Some?)
  }

  function Run(n: Net, events: seq<Event>): Net
    decreases |events|
  {
    if events == [] then n else Next(Run(n, events[..|events| - 1]), events[|events| - 1])
  }

  predicate Delivers(n: Net, e: Event) {
    (e == ToFunder && n.toF != []) || (e == ToAcceptor && n.toA != [])
  }

  /** How many messages a run delivers. */
  function Deliveries(n: Net, events: seq<Event>): nat
    decreases |events|
  {
    if events == [] then 0
    else
      var init := events[..|events| - 1];
      Deliveries(n, init) + if Delivers(Run(n, init), events[|events| - 1]) then 1 else 0
  }

  // ---- The phases of a close ----

  /** Every recorded offer is the one signed for that fee. */
  ghost predicate OffersSigned(c: Closer) {
    forall fee :: fee in c.offers ==> c.offers[fee] == Offer(c, fee)
  }

  ghost predicate Untouched(c: Closer) {
    c.last == 0 && c.offers == map[]
  }

  /** All offers so far lie between the ideal fee and the last one. */
  ghost predicate Ranged(c: Closer) {
    && c.last in c.offers
    && (forall fee :: fee in c.offers ==> c.ideal <= fee <= c.last || c.last <= fee <= c.ideal)
  }

  /** The two sides approach each other from their ideal fees and have not met. */
  ghost predicate Approaching(r: Closer, s: Closer) {
    || r.ideal <= r.last < s.last <= s.ideal
    || s.ideal <= s.last < r.last <= r.ideal
  }

  ghost predicate Connected(r: Closer, s: Closer) {
    r.me == Peer(s.me) && r.remote == s.local && s.remote == r.local
  }

  /** Both negotiate, and the last offer of `s` is on its way to `r`. */
  ghost predicate Talks(r: Closer, s: Closer) {
    && r.state == Negotiating && s.state == Negotiating
    && Connected(r, s) && OffersSigned(r) && OffersSigned(s) && Ranged(s)
    && if r.offers == map[] then r.last == 0 && s.last == s.ideal && s.offers.Keys == {s.ideal}
       else Ranged(r) && Approaching(r, s)
  }

  function TxFor(c: Closer, fee: nat): ClosingTx {
    if c.me == Funder then ClosingTx(fee, c.local, c.remote) else ClosingTx(fee, c.remote, c.local)
  }

  ghost predicate FeeBetween(fee: nat, x: nat, y: nat) {
    x <= fee <= y || y <= fee <= x
  }

  /** `d` has accepted `fee` and told `w`, which has offered that fee itself. */
  ghost predicate Settling(w: Closer, d: Closer, fee: nat) {
    && w.state == Negotiating && d.state == Finished
    && Connected(w, d) && OffersSigned(w)
    && fee in w.offers && FeeBetween(fee, w.ideal, d.ideal)
    && d.closingTx == Some(TxFor(d, fee))
  }

  ghost predicate Closed(x: Closer, y: Closer) {
    && x.state == Finished && y.state == Finished
    && Connected(x, y)
    && x.closingTx.Some? && x.closingTx == y.closingTx
    && FeeBetween(x.closingTx.value.fee, x.ideal, y.ideal)
  }

  ghost predicate Opening(n: Net) {
    && n.f.me == Funder && n.a.me == Acceptor
    && (n.f.state != Negotiating ==> Untouched(n.f)) && Untouched(n.a)
    && match (n.f.state, n.a.state) {
         case (Idle, Idle) => n.toF == [] && n.toA == []
         case (ShutdownInitiated, Idle) => n.toF == [] && n.toA == [Shutdown(n.f.local)]
         case (Idle, ShutdownInitiated) => n.toF == [Shutdown(n.a.local)] && n.toA == []
         case (ShutdownInitiated, ShutdownInitiated) =>
           n.toF == [Shutdown(n.a.local)] && n.toA == [Shutdown(n.f.local)]
         case (ShutdownInitiated, Negotiating) =>
           n.toF == [Shutdown(n.a.local)] && n.toA == [] && n.a.remote == n.f.local
         case (Negotiating, ShutdownInitiated) =>
           && n.toF == [] && n.toA == [Shutdown(n.f.local), Offer(n.f, n.f.ideal)]
           && n.f.remote == n.a.local && n.f.last == n.f.ideal
           && n.f.offers == map[n.f.ideal := Offer(n.f, n.f.ideal)]
         case _ => false
       }
  }

  ghost predicate Talking(n: Net) {
    || (Talks(n.a, n.f) && n.toF == [] && n.toA == [Offer(n.f, n.f.last)])
    || (Talks(n.f, n.a) && n.toA == [] && n.toF == [Offer(n.a, n.a.last)])
  }

  ghost predicate HalfDone(n: Net) {
    || (exists fee :: Settling(n.a, n.f, fee) && n.toF == [] && n.toA == [Offer(n.f, fee)])
    || (exists fee :: Settling(n.f, n.a, fee) && n.toA == [] && n.toF == [Offer(n.a, fee)])
  }

  /** Both are done; the one that accepted first may still have an echo to read. */
  ghost predicate Done(n: Net) {
    && Closed(n.f, n.a)
    && |n.toF| + |n.toA| <= 1
    && (n.toF != [] ==> n.toF[0].ClosingSigned?) && (n.toA != [] ==> n.toA[0].ClosingSigned?)
  }

  ghost predicate Inv(n: Net) {
    !n.failed && (Opening(n) || Talking(n) || HalfDone(n) || Done(n))
  }

  // ---- Every step keeps the phases ----

  /** An offer in flight is answered by a closer offer, or accepted. */
  lemma OfferArrives(r: Closer, s: Closer)
    requires Talks(r, s)
    ensures var reply := ProcessCloseMsg(r, Offer(s, s.last));
            && reply.error.None? && reply.closer.ideal == r.ideal && reply.closer.me == r.me
            && reply.closer.local == r.local && reply.closer.remote == r.remote
            && if reply.closer.state == Negotiating
               then Talks(s, reply.closer) && reply.send == [Offer(reply.closer, reply.closer.last)]
               else Settling(s, reply.closer, s.last) && reply.send == [Offer(reply.closer, s.last)]
  {
    var fee := Compromise(r.ideal, r.last, s.last);
    if r.offers != map[] && fee != s.last {
      RatchetIsStrictlyBetween(r.last, s.last);
    }
  }

  lemma AcceptanceArrives(w: Closer, d: Closer, fee: nat)
    requires Settling(w, d, fee)
    ensures var reply := ProcessCloseMsg(w, Offer(d, fee));
            && reply.error.None? && Closed(reply.closer, d)
            && |reply.send| == 1 && reply.send[0].ClosingSigned?
  {
  }

  lemma OpeningShuts(n: Net, e: Event)
    requires Opening(n) && (e == FunderShuts || e == AcceptorShuts)
    ensures Opening(Next(n, e)) && Next(n, e).failed == n.failed
  {
  }

  lemma OpeningToFunder(n: Net)
    requires Opening(n) && !n.failed
    ensures !Next(n, ToFunder).failed
    ensures if n.a.state == Negotiating then Talking(Next(n, ToFunder)) else Opening(Next(n, ToFunder))
  {
  }

  lemma OpeningToAcceptor(n: Net)
    requires Opening(n) && !n.failed
    ensures !Next(n, ToAcceptor).failed
    ensures if n.f.state == Negotiating then Talking(Next(n, ToAcceptor)) else Opening(Next(n, ToAcceptor))
  {
  }

  lemma OpeningStep(n: Net, e: Event)
    requires Opening(n) && !n.failed
    ensures Inv(Next(n, e))
  {
    match e
    case FunderShuts => OpeningShuts(n, e);
    case AcceptorShuts => OpeningShuts(n, e);
    case ToFunder => OpeningToFunder(n);
    case ToAcceptor => OpeningToAcceptor(n);
  }

  lemma TalkingStep(n: Net, e: Event)
    requires Talking(n) && !n.failed
    ensures Inv(Next(n, e))
  {
    if Talks(n.a, n.f) && n.toF == [] && n.toA == [Offer(n.f, n.f.last)] {
      OfferArrives(n.a, n.f);
    } else {
      OfferArrives(n.f, n.a);
    }
  }

  lemma HalfDoneStep(n: Net, e: Event)
    requires HalfDone(n) && !n.failed
    ensures Inv(Next(n, e))
  {
    if fee :| Settling(n.a, n.f, fee) && n.toF == [] && n.toA == [Offer(n.f, fee)] {
      AcceptanceArrives(n.a, n.f, fee);
    } else {
      var fee :| Settling(n.f, n.a, fee) && n.toA == [] && n.toF == [Offer(n.a, fee)];
      AcceptanceArrives(n.f, n.a, fee);
    }
  }

  lemma StepKeepsInv(n: Net, e: Event)
    requires Inv(n)
    ensures Inv(Next(n, e))
  {
    if Opening(n) {
      OpeningStep(n, e);
    } else if Talking(n) {
      TalkingStep(n, e);
    } else if HalfDone(n) {
      HalfDoneStep(n, e);
    }
  }

  /** Ideal fees never change. */
  lemma StepKeepsIdeals(n: Net, e: Event)
    ensures Next(n, e).f.ideal == n.f.ideal && Next(n, e).a.ideal == n.a.ideal
  {
  }

  lemma {:induction false} RunKeepsIdeals(n: Net, events: seq<Event>)
    ensures Run(n, events).f.ideal == n.f.ideal && Run(n, events).a.ideal == n.a.ideal
    decreases |events|
  {
    if events != [] {
      RunKeepsIdeals(n, events[..|events| - 1]);
      StepKeepsIdeals(Run(n, events[..|events| - 1]), events[|events| - 1]);
    }
  }

  lemma {:induction false} RunKeepsInv(n: Net, events: seq<Event>)
    requires Inv(n)
    ensures Inv(Run(n, events))
    decreases |events|
  {
    if events != [] {
      RunKeepsInv(n, events[..|events| - 1]);
      StepKeepsInv(Run(n, events[..|events| - 1]), events[|events| - 1]);
    }
  }

  // ---- Agreement ----

  /**
   In every run no message is ever refused, and two sides that have both
   finished hold the same closing transaction, at a fee between their ideals,
   each capped by the commitment fee, and never above that fee.
   */
  lemma Agreement(idealF: nat, idealA: nat, commitFee: nat, scriptF: Script, scriptA: Script, events: seq<Event>)
    ensures var r := Run(Start(idealF, idealA, commitFee, scriptF, scriptA), events);
            && !r.failed
            && (r.f.state == Finished && r.a.state == Finished ==>
                  && r.f.closingTx.Some? && r.f.closingTx == r.a.closingTx
                  && FeeBetween(r.f.closingTx.value.fee, Clamp(idealF, commitFee), Clamp(idealA, commitFee))
                  && r.f.closingTx.value.fee <= commitFee
                  && (r.f.closingTx.value.fee <= idealF || r.f.closingTx.value.fee <= idealA)
                  && (r.f.closingTx.value.fee >= idealF || r.f.closingTx.value.fee >= idealA || r.f.closingTx.value.fee == commitFee))
  {
    var n := Start(idealF, idealA, commitFee, scriptF, scriptA);
    assert Opening(n);
    RunKeepsInv(n, events);
    RunKeepsIdeals(n, events);
  }

  /** Once a shutdown has been sent, the exchange stops only when both sides have finished. */
  lemma QuietMeansClosed(n: Net)
    requires Inv(n)
    ensures n.toF == [] && n.toA == [] ==> (n.f.state == Idle && n.a.state == Idle) || Closed(n.f, n.a)
  {
  }

  // ---- Termination ----

  /** An upper bound on the offers still to be exchanged, `x` being the receiver's last offer. */
  function Turns(x: nat, y: nat): nat {
    if Acceptable(x, y) then 0
    else if Acceptable(y, x) then 1
    else if x >= 10 && y >= 10 then Gap(x, y) + 1
    else 2 * Gap(x, y) + if x < 10 then 2 else 1
  }

  /** A ratchet that is not accepted brings the end nearer, and keeps it in reach. */
  lemma RatchetMakesProgress(x: nat, y: nat)
    requires x != y && !Acceptable(x, y) && Converges(x, y)
    ensures var x' := Ratchet(x, x < y);
            Converges(x', y) && Turns(y, x') < Turns(x, y)
  {
    RatchetIsStrictlyBetween(x, y);
    var x' := Ratchet(x, x < y);
    if Acceptable(y, x) {
      CloserIsAcceptable(y, x, x');
    } else if x < 10 && y < 10 {
      assert false;
    }
  }

  lemma CloserIsAcceptable(local: nat, remote: nat, nearer: nat)
    requires Acceptable(local, remote)
    requires remote <= nearer <= local || local <= nearer <= remote
    ensures Acceptable(local, nearer)
  {
  }

  /** The negotiating pair can still meet. */
  ghost predicate InReach(r: Closer, s: Closer) {
    if r.offers == map[] then Converges(r.ideal, s.ideal) else Converges(r.last, s.last)
  }

  function OffersLeft(r: Closer, s: Closer): nat {
    if r.offers == map[] then 1 + Turns(s.last, r.ideal) else Turns(r.last, s.last)
  }

  /** A bound on the deliveries still possible. */
  function Rank(n: Net): nat {
    match (n.f.state, n.a.state)
    case (Finished, Finished) => |n.toF| + |n.toA|
    case (Negotiating, Negotiating) => 3 + if n.toA != [] then OffersLeft(n.a, n.f) else OffersLeft(n.f, n.a)
    case (Finished, _) => 2
    case (_, Finished) => 2
    case (Negotiating, _) => 5 + Turns(n.f.ideal, n.a.ideal)
    case (_, Negotiating) => 5 + Turns(n.f.ideal, n.a.ideal)
    case _ => 6 + Turns(n.f.ideal, n.a.ideal)
  }

  ghost predicate Hopeful(n: Net) {
    && Converges(n.f.ideal, n.a.ideal)
    && (n.f.state == Negotiating && n.a.state == Negotiating ==>
          if n.toA != [] then InReach(n.a, n.f) else InReach(n.f, n.a))
  }

  lemma OfferMakesProgress(r: Closer, s: Closer)
    requires Talks(r, s) && InReach(r, s) && Converges(r.ideal, s.ideal)
    ensures var c := ProcessCloseMsg(r, Offer(s, s.last)).closer;
            c.state == Negotiating ==> InReach(s, c) && OffersLeft(s, c) < OffersLeft(r, s)
  {
    OfferArrives(r, s);
    if r.offers != map[] && r.last != 0 && !Acceptable(r.last, s.last) {
      RatchetMakesProgress(r.last, s.last);
    }
  }

  ghost predicate Progress(n: Net, e: Event) {
    Hopeful(Next(n, e)) && Rank(Next(n, e)) + (if Delivers(n, e) then 1 else 0) <= Rank(n)
  }

  lemma OpeningProgress(n: Net, e: Event)
    requires Opening(n) && !n.failed && Hopeful(n)
    ensures Progress(n, e)
  {
    StepKeepsIdeals(n, e);
  }

  lemma AcceptorProgress(n: Net, e: Event)
    requires !n.failed && Hopeful(n)
    requires Talks(n.a, n.f) && n.toF == [] && n.toA == [Offer(n.f, n.f.last)]
    ensures Progress(n, e)
  {
    StepKeepsIdeals(n, e);
    OfferArrives(n.a, n.f);
    OfferMakesProgress(n.a, n.f);
  }

  lemma FunderProgress(n: Net, e: Event)
    requires !n.failed && Hopeful(n)
    requires Talks(n.f, n.a) && n.toA == [] && n.toF == [Offer(n.a, n.a.last)]
    ensures Progress(n, e)
  {
    StepKeepsIdeals(n, e);
    OfferArrives(n.f, n.a);
    OfferMakesProgress(n.f, n.a);
  }

  lemma TalkingProgress(n: Net, e: Event)
    requires Talking(n) && !n.failed && Hopeful(n)
    ensures Progress(n, e)
  {
    if Talks(n.a, n.f) && n.toF == [] && n.toA == [Offer(n.f, n.f.last)] {
      AcceptorProgress(n, e);
    } else {
      FunderProgress(n, e);
    }
  }

  lemma HalfDoneProgress(n: Net, e: Event)
    requires HalfDone(n) && !n.failed && Hopeful(n)
    ensures Progress(n, e)
  {
    StepKeepsIdeals(n, e);
    if fee :| Settling(n.a, n.f, fee) && n.toF == [] && n.toA == [Offer(n.f, fee)] {
      AcceptanceArrives(n.a, n.f, fee);
    } else {
      var fee :| Settling(n.f, n.a, fee) && n.toA == [] && n.toF == [Offer(n.a, fee)];
      AcceptanceArrives(n.f, n.a, fee);
    }
  }

  lemma StepMakesProgress(n: Net, e: Event)
    requires Inv(n) && Hopeful(n)
    ensures Progress(n, e)
  {
    if Opening(n) {
      OpeningProgress(n, e);
    } else if Talking(n) {
      TalkingProgress(n, e);
    } else if HalfDone(n) {
      HalfDoneProgress(n, e);
    } else {
      StepKeepsIdeals(n, e);
    }
  }

  lemma {:induction false} RunMakesProgress(n: Net, events: seq<Event>)
    requires Inv(n) && Hopeful(n)
    ensures Hopeful(Run(n, events))
    ensures Deliveries(n, events) + Rank(Run(n, events)) <= Rank(n)
    decreases |events|
  {
    if events != [] {
      var init := events[..|events| - 1];
      RunMakesProgress(n, init);
      RunKeepsInv(n, init);
      StepMakesProgress(Run(n, init), events[|events| - 1]);
    }
  }

  /**
   If the ideal fees are in reach of each other, every run delivers a bounded
   number of messages, and when nothing is left to deliver both sides have
   finished. With both ideals at least 10 the bound is their distance plus 7.
   */
  lemma CloseTerminates(idealF: nat, idealA: nat, commitFee: nat, scriptF: Script, scriptA: Script, events: seq<Event>)
    requires Converges(Clamp(idealF, commitFee), Clamp(idealA, commitFee))
    ensures var x, y := Clamp(idealF, commitFee), Clamp(idealA, commitFee);
            var n := Start(idealF, idealA, commitFee, scriptF, scriptA);
            var r := Run(n, events);
            && Deliveries(n, events) <= 6 + Turns(x, y)
            && (x >= 10 && y >= 10 ==> Deliveries(n, events) <= Gap(x, y) + 7)
            && (r.toF == [] && r.toA == [] ==>
                  (r.f.state == Idle && r.a.state == Idle) || Closed(r.f, r.a))
  {
    var n := Start(idealF, idealA, commitFee, scriptF, scriptA);
    assert Opening(n);
    RunKeepsInv(n, events);
    RunMakesProgress(n, events);
    QuietMeansClosed(Run(n, events));
  }

  // ---- Ideal fees that never meet ----

  /** The lower side is stuck at its ideal of at most 6; the other is at its ideal or has come down to no less than 9. */
  predicate Frozen(low: Closer, high: Closer) {
    && low.ideal <= 6 && low.ideal < high.ideal
    && (low.offers != map[] ==> low.last == low.ideal)
    && (high.offers != map[] ==> high.last == high.ideal || high.last >= 9)
  }

  ghost predicate Hopeless(n: Net) {
    && !Converges(n.f.ideal, n.a.ideal)
    && (Opening(n) || (Talking(n) && (Frozen(n.f, n.a) || Frozen(n.a, n.f))))
  }

  lemma OfferIsFutile(r: Closer, s: Closer)
    requires Talks(r, s) && !Converges(r.ideal, s.ideal)
    requires Frozen(r, s) || Frozen(s, r)
    ensures var c := ProcessCloseMsg(r, Offer(s, s.last)).closer;
            c.state == Negotiating && (if r.ideal < s.ideal then Frozen(c, s) else Frozen(s, c))
  {
    OfferArrives(r, s);
    if r.offers != map[] {
      assert !Acceptable(r.last, s.last);
    }
  }

  lemma HopelessStep(n: Net, e: Event)
    requires Inv(n) && Hopeless(n)
    ensures Hopeless(Next(n, e))
  {
    StepKeepsIdeals(n, e);
    if Opening(n) {
      match e
      case FunderShuts => OpeningShuts(n, e);
      case AcceptorShuts => OpeningShuts(n, e);
      case ToFunder => OpeningToFunder(n);
      case ToAcceptor => OpeningToAcceptor(n);
    } else {
      HopelessTalking(n, e);
    }
  }

  lemma HopelessTalking(n: Net, e: Event)
    requires Talking(n) && !n.failed && !Converges(n.f.ideal, n.a.ideal)
    requires Frozen(n.f, n.a) || Frozen(n.a, n.f)
    ensures Talking(Next(n, e)) && (Frozen(Next(n, e).f, Next(n, e).a) || Frozen(Next(n, e).a, Next(n, e).f))
  {
    if Talks(n.a, n.f) && n.toF == [] && n.toA == [Offer(n.f, n.f.last)] {
      OfferArrives(n.a, n.f);
      OfferIsFutile(n.a, n.f);
    } else {
      OfferArrives(n.f, n.a);
      OfferIsFutile(n.f, n.a);
    }
  }

  lemma {:induction false} RunStaysHopeless(n: Net, events: seq<Event>)
    requires Inv(n) && Hopeless(n)
    ensures Hopeless(Run(n, events))
    decreases |events|
  {
    if events != [] {
      var init := events[..|events| - 1];
      RunStaysHopeless(n, init);
      RunKeepsInv(n, init);
      HopelessStep(Run(n, init), events[|events| - 1]);
    }
  }

  /** For all other ideal fees no run ever finishes on either side, and messages keep flowing. */
  lemma CloseNeverTerminates(idealF: nat, idealA: nat, commitFee: nat, scriptF: Script, scriptA: Script, events: seq<Event>)
    requires !Converges(Clamp(idealF, commitFee), Clamp(idealA, commitFee))
    ensures var r := Run(Start(idealF, idealA, commitFee, scriptF, scriptA), events);
            && r.f.state != Finished && r.a.state != Finished
            && ((r.f.state == Idle && r.a.state == Idle) || r.toF != [] || r.toA != [])
  {
    var n := Start(idealF, idealA, commitFee, scriptF, scriptA);
    assert Opening(n);
    RunStaysHopeless(n, events);
  }
}
