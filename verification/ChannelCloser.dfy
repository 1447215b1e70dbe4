/**
 The channel closer: the four-state machine each side of a channel runs to shut
 it down and negotiate the fee of the closing transaction.
 */
module ChannelCloser {
  import opened Primitives
  import opened FeeNegotiation

  /** `Funder` opened the channel and sends the first fee offer. */
  datatype Party = Funder | Acceptor

  type Script = Bytes

  /** A signature over the closing transaction with a given fee and the two delivery scripts. */
  datatype Sig = Sig(signer: Party, fee: nat, own: Script, other: Script)

  datatype Message =
    | Shutdown(script: Script)
    | ClosingSigned(fee: nat, sig: Sig)

  datatype CloseState = Idle | ShutdownInitiated | Negotiating | Finished

  datatype CloseError = AlreadyClosing | UnexpectedMessage | InvalidSignature

  datatype ClosingTx = ClosingTx(fee: nat, funderScript: Script, acceptorScript: Script)

  datatype Closer = Closer(me: Party, state: CloseState, ideal: nat, last: nat,
                           offers: map<nat, Message>, local: Script, remote: Script,
                           closingTx: Option<ClosingTx>)

  datatype Reply = Reply(closer: Closer, send: seq<Message>, done: bool, error: Option<CloseError>)

  /** The ideal fee is capped by the fee of the current commitment transaction. */
  function Clamp(idealFee: nat, commitFee: nat): nat {
    if idealFee > commitFee then commitFee else idealFee
  }

  function NewCloser(me: Party, idealFee: nat, commitFee: nat, script: Script): Closer {
    Closer(me, Idle, Clamp(idealFee, commitFee), 0, map[], script, [], None)
  }

  function Peer(p: Party): Party {
    if p == Funder then Acceptor else Funder
  }

  function Offer(c: Closer, fee: nat): Message {
    ClosingSigned(fee, Sig(c.me, fee, c.local, c.remote))
  }

  function Propose(c: Closer, fee: nat): Closer {
    c.(last := fee, offers := c.offers[fee := Offer(c, fee)])
  }

  /** Assembles the closing transaction; both signatures must be over exactly it. */
  function CompleteClose(c: Closer, local: Message, remote: Message, fee: nat): Option<ClosingTx> {
    if local == Offer(c, fee) && remote == ClosingSigned(fee, Sig(Peer(c.me), fee, c.remote, c.local)) then
      Some(if c.me == Funder then ClosingTx(fee, c.local, c.remote) else ClosingTx(fee, c.remote, c.local))
    else None
  }

  function ShutdownChan(c: Closer): Reply {
    if c.state != Idle then Reply(c, [], false, Some(AlreadyClosing))
    else Reply(c.(state := ShutdownInitiated), [Shutdown(c.local)], false, None)
  }

  /** The peer's shutdown starts the negotiation; only the funder makes the first offer. */
  function StartNegotiation(c: Closer, script: Script, send: seq<Message>): Reply {
    var n := c.(remote := script, state := Negotiating);
    if n.me == Funder then Reply(Propose(n, n.ideal), send + [Offer(n, n.ideal)], false, None)
    else Reply(n, send, false, None)
  }

  function Negotiate(c: Closer, msg: Message): Reply
    requires msg.ClosingSigned?
  {
    if msg.fee in c.offers then Accept(c, msg)
    else
      var fee := Compromise(c.ideal, c.last, msg.fee);
      var n := Propose(c, fee);
      if fee != msg.fee then Reply(n, [Offer(c, fee)], false, None) else Accept(n, msg)
  }

  function Accept(c: Closer, msg: Message): Reply
    requires msg.ClosingSigned? && msg.fee in c.offers
  {
    var tx := CompleteClose(c, c.offers[msg.fee], msg, msg.fee);
    if tx.None? then Reply(c, [], false, Some(InvalidSignature))
    else Reply(c.(state := Finished, closingTx := tx), [c.offers[msg.fee]], true, None)
  }

  function ProcessCloseMsg(c: Closer, msg: Message): Reply {
    match c.state
    case Idle =>
      if msg.Shutdown? then StartNegotiation(c, msg.script, [Shutdown(c.local)])
      else Reply(c, [], false, Some(UnexpectedMessage))
    case ShutdownInitiated =>
      if msg.Shutdown? then StartNegotiation(c, msg.script, [])
      else Reply(c, [], false, Some(UnexpectedMessage))
    case Negotiating =>
      if msg.ClosingSigned? then Negotiate(c, msg) else Reply(c, [], false, Some(UnexpectedMessage))
    case Finished =>
      if msg.ClosingSigned? then Reply(c, [], true, None) else Reply(c, [], false, Some(UnexpectedMessage))
  }

  /** The messages a state is waiting for. */
  predicate Expected(state: CloseState, msg: Message) {
    if state == Negotiating || state == Finished then msg.ClosingSigned? else msg.Shutdown?
  }

  /**
   What a reply means: it is an error of its own kind exactly for a message of the
   wrong kind, which changes nothing; an error sends nothing; and it reports the
   close as done exactly when the closer has finished.
   */
  lemma ReplyMeans(c: Closer, msg: Message)
    ensures var r := ProcessCloseMsg(c, msg);
            && (r.error == Some(UnexpectedMessage) <==> !Expected(c.state, msg))
            && (r.error == Some(UnexpectedMessage) ==> r.closer == c)
            && (r.error.Some? ==> r.send == [] && r.closer.state == c.state && r.closer.closingTx == c.closingTx)
            && (r.done <==> r.error.None? && r.closer.state == Finished)
            && r.closer.me == c.me && r.closer.ideal == c.ideal && r.closer.local == c.local
  {
  }

  /**
   A closer finishes only on the peer's signature over the transaction it signed
   itself, holds that transaction from then on, and sends its own signature back.
   */
  lemma FinishMeans(c: Closer, msg: Message)
    requires c.state == Negotiating && ProcessCloseMsg(c, msg).closer.state == Finished
    ensures var r := ProcessCloseMsg(c, msg);
            && msg.ClosingSigned? && msg.sig == Sig(Peer(c.me), msg.fee, c.remote, c.local)
            && r.send == [ClosingSigned(msg.fee, Sig(c.me, msg.fee, c.local, c.remote))]
            && r.closer.closingTx == Some(if c.me == Funder then ClosingTx(msg.fee, c.local, c.remote)
                                          else ClosingTx(msg.fee, c.remote, c.local))
            && (msg.fee in c.offers || msg.fee == Compromise(c.ideal, c.last, msg.fee))
  {
  }

  /** The peer's shutdown is answered by ours unless that was sent before, and by the funder's ideal fee. */
  lemma ShutdownMeans(c: Closer, script: Script)
    requires c.state == Idle || c.state == ShutdownInitiated
    ensures var r := ProcessCloseMsg(c, Shutdown(script));
            && r.closer.state == Negotiating && r.closer.remote == script
            && (Shutdown(c.local) in r.send <==> c.state == Idle)
            && ((exists m :: m in r.send && m.ClosingSigned?) <==> c.me == Funder)
            && (c.me == Funder ==>
                  && r.closer.last == c.ideal && c.ideal in r.closer.offers
                  && r.send[|r.send| - 1] == ClosingSigned(c.ideal, Sig(Funder, c.ideal, c.local, script)))
  {
    var r := ProcessCloseMsg(c, Shutdown(script));
    if c.me == Funder {
      assert r.send[|r.send| - 1] in r.send;
    }
  }

  /** Asking for the close sends our shutdown once; asking again, or after the peer has, is refused without effect. */
  lemma ShutdownOnce(c: Closer, msg: Message)
    ensures var r := ShutdownChan(c);
            && !r.done && (r.error.None? <==> c.state == Idle)
            && r.send == (if c.state == Idle then [Shutdown(c.local)] else [])
            && (c.state != Idle ==> r.error == Some(AlreadyClosing) && r.closer == c)
            && (c.state == Idle ==> r.closer == c.(state := ShutdownInitiated))
            && ShutdownChan(r.closer).error.Some?
    ensures ShutdownChan(ProcessCloseMsg(c, msg).closer).error.Some? || !Expected(c.state, msg)
  {
  }

  /** The closer as the object whose fields its methods update. */
  class ChannelCloser {
    const me: Party
    const idealFeeSat: nat
    const localDeliveryScript: Script
    var state: CloseState
    var lastFeeProposal: nat
    var priorFeeOffers: map<nat, Message>
    var remoteDeliveryScript: Script
    var closingTx: Option<ClosingTx>

    ghost function View(): Closer
      reads this
    {
      Closer(me, state, idealFeeSat, lastFeeProposal, priorFeeOffers, localDeliveryScript,
             remoteDeliveryScript, closingTx)
    }

    constructor (me: Party, idealFee: nat, commitFee: nat, script: Script)
      ensures View() == NewCloser(me, idealFee, commitFee, script)
    {
      this.me := me;
      if idealFee > commitFee {
        idealFeeSat := commitFee;
      } else {
        idealFeeSat := idealFee;
      }
      localDeliveryScript := script;
      state := Idle;
      lastFeeProposal := 0;
      priorFeeOffers := map[];
      remoteDeliveryScript := [];
      closingTx := None;
    }

    method Shutdown() returns (send: seq<Message>, error: Option<CloseError>)
      modifies this
      ensures Reply(View(), send, false, error) == ShutdownChan(old(View()))
    {
      if state != Idle {
        return [], Some(AlreadyClosing);
      }
      state := ShutdownInitiated;
      return [Message.Shutdown(localDeliveryScript)], None;
    }

    method ProposeCloseSigned(fee: nat) returns (msg: Message)
      modifies this`lastFeeProposal, this`priorFeeOffers
      ensures msg == Offer(old(View()), fee)
      ensures View() == Propose(old(View()), fee)
    {
      msg := ClosingSigned(fee, Sig(me, fee, localDeliveryScript, remoteDeliveryScript));
      lastFeeProposal := fee;
      priorFeeOffers := priorFeeOffers[fee := msg];
    }

    method Process(msg: Message) returns (send: seq<Message>, done: bool, error: Option<CloseError>)
      modifies this
      ensures Reply(View(), send, done, error) == ProcessCloseMsg(old(View()), msg)
    {
      match state
      case Idle =>
        if !msg.Shutdown? {
          return [], false, Some(UnexpectedMessage);
        }
        remoteDeliveryScript := msg.script;
        send := [Message.Shutdown(localDeliveryScript)];
        state := Negotiating;
        if me == Funder {
          var offer := ProposeCloseSigned(idealFeeSat);
          send := send + [offer];
        }
        return send, false, None;
      case ShutdownInitiated =>
        if !msg.Shutdown? {
          return [], false, Some(UnexpectedMessage);
        }
        remoteDeliveryScript := msg.script;
        state := Negotiating;
        send := [];
        if me == Funder {
          var offer := ProposeCloseSigned(idealFeeSat);
          send := send + [offer];
        }
        return send, false, None;
      case Negotiating =>
        if !msg.ClosingSigned? {
          return [], false, Some(UnexpectedMessage);
        }
        if msg.fee !in priorFeeOffers {
          var fee := Compromise(idealFeeSat, lastFeeProposal, msg.fee);
          var offer := ProposeCloseSigned(fee);
          if fee != msg.fee {
            return [offer], false, None;
          }
        }
        var matching := priorFeeOffers[msg.fee];
        var self := Closer(me, state, idealFeeSat, lastFeeProposal, priorFeeOffers,
                           localDeliveryScript, remoteDeliveryScript, closingTx);
        var tx := CompleteClose(self, matching, msg, msg.fee);
        if tx.None? {
          return [], false, Some(InvalidSignature);
        }
        closingTx := tx;
        state := Finished;
        return [matching], true, None;
      case Finished =>
        if !msg.ClosingSigned? {
          return [], false, Some(UnexpectedMessage);
        }
        return [], true, None;
    }
  }
}
