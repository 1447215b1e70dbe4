/**
 The arithmetic of cooperative-close fee negotiation: which remote fees are
 acceptable, how an offer is ratcheted, and for which pairs of ideal fees the
 two sides ever meet.
 */
module FeeNegotiation {

  /** A remote fee is acceptable if it is within 30% of ours. */
  predicate Acceptable(local: nat, remote: nat) {
    if local < remote then remote <= local + local * 3 / 10
    else local - local * 3 / 10 <= remote
  }

  /** Moves an offer by 10%, up or down. */
  function Ratchet(fee: nat, up: bool): nat {
    if up then fee + fee / 10 else fee - fee / 10
  }

  /** The next offer, given our ideal fee, the last fee we sent (0 if none) and the peer's offer. */
  function Compromise(ideal: nat, last: nat, remote: nat): nat {
    if ideal == remote || last == 0 then ideal
    else if remote == last then last
    else if Acceptable(last, remote) then remote
    else Ratchet(last, last < remote)
  }

  function Gap(x: nat, y: nat): nat {
    if x <= y then y - x else x - y
  }

  /** A fee is acceptable exactly when it differs from ours by at most three tenths of ours. */
  lemma AcceptableMeans(local: nat, remote: nat)
    ensures Acceptable(local, remote) <==> 10 * Gap(local, remote) <= 3 * local
  {
  }

  /** A ratchet moves by a tenth of the fee, rounded down, in the direction asked for. */
  lemma RatchetStep(fee: nat, up: bool)
    ensures var s := Gap(Ratchet(fee, up), fee);
            && 10 * s <= fee < 10 * s + 10
            && Ratchet(fee, up) == if up then fee + s else fee - s
  {
  }

  /** The first offer is the ideal fee; a later one meets the peer's exactly if that is our ideal or within three tenths. */
  lemma CompromiseAgreesIff(ideal: nat, last: nat, remote: nat)
    ensures last == 0 ==> Compromise(ideal, last, remote) == ideal
    ensures last != 0 ==> (Compromise(ideal, last, remote) == remote
                           <==> remote == ideal || 10 * Gap(last, remote) <= 3 * last)
    ensures last != 0 && Compromise(ideal, last, remote) != remote ==>
              var next := Compromise(ideal, last, remote);
              var s := Gap(next, last);
              10 * s <= last < 10 * s + 10 && next == if last < remote then last + s else last - s
  {
    AcceptableMeans(last, remote);
    RatchetStep(last, last < remote);
  }

  ghost predicate StrictlyBetween(x: nat, low: nat, high: nat) {
    low < x < high || high < x < low
  }

  /** An offer that has to be ratcheted moves strictly towards the peer's exactly when it is at least 10. */
  lemma RatchetIsStrictlyBetween(last: nat, remote: nat)
    requires last != remote && !Acceptable(last, remote)
    ensures StrictlyBetween(Ratchet(last, last < remote), last, remote) <==> last >= 10
    ensures last < 10 ==> Ratchet(last, last < remote) == last
  {
  }

  /**
   Unless it can agree at once, a closer that has made an offer next offers a fee
   strictly between that offer and the peer's exactly when its offer was at least 10.
   */
  lemma CompromiseIsStrictlyBetween(ideal: nat, last: nat, remote: nat)
    requires last != 0 && remote != ideal && remote != last && !Acceptable(last, remote)
    ensures StrictlyBetween(Compromise(ideal, last, remote), last, remote) <==> last >= 10
    ensures last < 10 ==> Compromise(ideal, last, remote) == last
  {
    RatchetIsStrictlyBetween(last, remote);
  }

  /** The pairs of ideal fees between which two closers reach agreement. */
  predicate Converges(x: nat, y: nat) {
    x == y || (x >= 7 && y >= 7) || Acceptable(x, y) || Acceptable(y, x)
  }
}
