/**
 How often the two closers of a channel have to ratchet their offers before they
 agree.
 */
module CloseRatchets {
  import opened Primitives
  import opened FeeNegotiation
  import opened ChannelCloser
  import opened CloseProtocol

  /** The message makes a closer that has already made an offer make another one. */
  predicate Again(c: Closer, msg: Message) {
    c.state == Negotiating && c.offers != map[] && ProcessCloseMsg(c, msg).closer.state == Negotiating
  }

  predicate Ratchets(n: Net, e: Event) {
    (e == ToFunder && n.toF != [] && Again(n.f, n.toF[0])) || (e == ToAcceptor && n.toA != [] && Again(n.a, n.toA[0]))
  }

  /** How many ratcheted offers a run makes. */
  function Ratcheted(n: Net, events: seq<Event>): nat
    decreases |events|
  {
    if events == [] then 0
    else
      var init := events[..|events| - 1];
      Ratcheted(n, init) + if Ratchets(Run(n, init), events[|events| - 1]) then 1 else 0
  }

  /** How far apart the two sides are. */
  function Distance(n: Net): nat {
    if n.f.state == Finished || n.a.state == Finished then 0
    else if n.f.offers != map[] && n.a.offers != map[] then Gap(n.f.last, n.a.last)
    else Gap(n.f.ideal, n.a.ideal)
  }

  lemma OfferRatchets(r: Closer, s: Closer)
    requires Talks(r, s) && r.ideal >= 10 && s.ideal >= 10
    ensures var c := ProcessCloseMsg(r, Offer(s, s.last)).closer;
            c.state == Negotiating ==>
              && c.offers != map[]
              && (r.offers == map[] ==> c.last == r.ideal && s.last == s.ideal)
              && (r.offers != map[] ==> Gap(c.last, s.last) < Gap(r.last, s.last))
  {
    if r.offers != map[] && s.last !in r.offers && Compromise(r.ideal, r.last, s.last) != s.last {
      CompromiseIsStrictlyBetween(r.ideal, r.last, s.last);
    }
  }

  ghost predicate Nearer(n: Net, e: Event) {
    Distance(Next(n, e)) + (if Ratchets(n, e) then 1 else 0) <= Distance(n)
  }

  lemma OpeningNearer(n: Net, e: Event)
    requires Opening(n) && !n.failed
    ensures Nearer(n, e)
  {
  }

  lemma AcceptorNearer(n: Net, e: Event)
    requires !n.failed && n.f.ideal >= 10 && n.a.ideal >= 10
    requires Talks(n.a, n.f) && n.toF == [] && n.toA == [Offer(n.f, n.f.last)]
    ensures Nearer(n, e)
  {
    OfferRatchets(n.a, n.f);
  }

  lemma FunderNearer(n: Net, e: Event)
    requires !n.failed && n.f.ideal >= 10 && n.a.ideal >= 10
    requires Talks(n.f, n.a) && n.toA == [] && n.toF == [Offer(n.a, n.a.last)]
    ensures Nearer(n, e)
  {
    OfferRatchets(n.f, n.a);
  }

  lemma TalkingNearer(n: Net, e: Event)
    requires Talking(n) && !n.failed && n.f.ideal >= 10 && n.a.ideal >= 10
    ensures Nearer(n, e)
  {
    if Talks(n.a, n.f) && n.toF == [] && n.toA == [Offer(n.f, n.f.last)] {
      AcceptorNearer(n, e);
    } else {
      FunderNearer(n, e);
    }
  }

  lemma SettledNearer(n: Net, e: Event)
    requires (HalfDone(n) || Done(n)) && !n.failed
    ensures Nearer(n, e)
  {
  }

  lemma StepNearer(n: Net, e: Event)
    requires Inv(n) && n.f.ideal >= 10 && n.a.ideal >= 10
    ensures Nearer(n, e)
  {
    if Opening(n) {
      OpeningNearer(n, e);
    } else if Talking(n) {
      TalkingNearer(n, e);
    } else {
      SettledNearer(n, e);
    }
  }

  lemma {:induction false} RunNearer(n: Net, events: seq<Event>)
    requires Inv(n) && n.f.ideal >= 10 && n.a.ideal >= 10
    ensures Ratcheted(n, events) + Distance(Run(n, events)) <= Distance(n)
    decreases |events|
  {
    if events != [] {
      var init := events[..|events| - 1];
      RunNearer(n, init);
      RunKeepsInv(n, init);
      RunKeepsIdeals(n, init);
      StepNearer(Run(n, init), events[|events| - 1]);
    }
  }

  /**
   With both ideal fees at least 10, no run makes more ratcheted offers than the
   ideals are apart.
   */
  lemma RatchetsAreBounded(idealF: nat, idealA: nat, commitFee: nat, scriptF: Script, scriptA: Script, events: seq<Event>)
    requires Clamp(idealF, commitFee) >= 10 && Clamp(idealA, commitFee) >= 10
    ensures Ratcheted(Start(idealF, idealA, commitFee, scriptF, scriptA), events)
            <= Gap(Clamp(idealF, commitFee), Clamp(idealA, commitFee))
  {
    var n := Start(idealF, idealA, commitFee, scriptF, scriptA);
    assert Opening(n);
    RunNearer(n, events);
  }

  // ---- A bound by ratio ----

  function Power(base: nat, n: nat): nat {
    if n == 0 then 1 else base * Power(base, n - 1)
  }

  function Lower(x: nat, y: nat): nat {
    if x <= y then x else y
  }

  function Upper(x: nat, y: nat): nat {
    if x <= y then y else x
  }

  /** Each ratchet brings the offer nearer by at least a twentieth of what it was, without reaching the peer's. */
  lemma OfferNarrows(r: Closer, s: Closer)
    requires Talks(r, s) && r.ideal >= 10 && s.ideal >= 10 && r.offers != map[]
    ensures var c := ProcessCloseMsg(r, Offer(s, s.last)).closer;
            c.state == Negotiating ==>
              if r.last < s.last then 20 * r.last <= 19 * c.last && c.last < s.last
              else 20 * c.last <= 19 * r.last && s.last < c.last
  {
    if s.last !in r.offers && Compromise(r.ideal, r.last, s.last) != s.last {
      CompromiseIsStrictlyBetween(r.ideal, r.last, s.last);
      RatchetStep(r.last, r.last < s.last);
    }
  }

  /** How far `k` ratchets have narrowed the ratio from `lo : hi` to `x : y`. */
  ghost predicate Narrowed(k: nat, lo: nat, hi: nat, x: nat, y: nat) {
    Power(20, k) * lo * y <= Power(19, k) * hi * x
  }

  lemma NarrowsFromBelow(k: nat, lo: nat, hi: nat, x: nat, y: nat, nearer: nat)
    requires Narrowed(k, lo, hi, x, y) && 20 * x <= 19 * nearer
    ensures Narrowed(k + 1, lo, hi, nearer, y)
  {
    var a, b := Power(20, k) * lo * y, Power(19, k) * hi;
    assert Power(20, k + 1) * lo * y == 20 * a;
    assert Power(19, k + 1) * hi * nearer == b * (19 * nearer);
    assert b * (20 * x) == 20 * (b * x);
    Scaled(b, 20 * x, 19 * nearer);
  }

  lemma NarrowsFromAbove(k: nat, lo: nat, hi: nat, x: nat, y: nat, nearer: nat)
    requires Narrowed(k, lo, hi, x, y) && 20 * nearer <= 19 * y
    ensures Narrowed(k + 1, lo, hi, x, nearer)
  {
    var a, b := Power(20, k) * lo, Power(19, k) * hi * x;
    assert Power(20, k + 1) * lo * nearer == a * (20 * nearer);
    assert Power(19, k + 1) * hi * x == 19 * b;
    assert a * (19 * y) == 19 * (a * y);
    Scaled(a, 20 * nearer, 19 * y);
  }

  lemma Scaled(a: nat, x: nat, y: nat)
    requires x <= y
    ensures a * x <= a * y
  {
  }

  /** The offers on the table, or the ideals as long as only one side has made one. */
  function LowOffer(n: Net): nat {
    if n.f.offers != map[] && n.a.offers != map[] then Lower(n.f.last, n.a.last) else Lower(n.f.ideal, n.a.ideal)
  }

  function HighOffer(n: Net): nat {
    if n.f.offers != map[] && n.a.offers != map[] then Upper(n.f.last, n.a.last) else Upper(n.f.ideal, n.a.ideal)
  }

  predicate Open(n: Net) {
    n.f.state != Finished && n.a.state != Finished
  }

  lemma OpeningRatio(n: Net, e: Event)
    requires Opening(n) && !n.failed
    ensures !Ratchets(n, e)
    ensures LowOffer(Next(n, e)) == LowOffer(n) && HighOffer(Next(n, e)) == HighOffer(n)
    ensures LowOffer(n) == Lower(n.f.ideal, n.a.ideal) && HighOffer(n) == Upper(n.f.ideal, n.a.ideal)
  {
  }

  /** A step that leaves the negotiation open moves one of the two offers, if it is a ratchet. */
  ghost predicate Moves(n: Net, e: Event) {
    var r := Next(n, e);
    if !Ratchets(n, e) then LowOffer(r) == LowOffer(n) && HighOffer(r) == HighOffer(n)
    else || (20 * LowOffer(n) <= 19 * LowOffer(r) && HighOffer(r) == HighOffer(n))
         || (20 * HighOffer(r) <= 19 * HighOffer(n) && LowOffer(r) == LowOffer(n))
  }

  lemma AcceptorMoves(n: Net, e: Event)
    requires !n.failed && n.f.ideal >= 10 && n.a.ideal >= 10
    requires Talks(n.a, n.f) && n.toF == [] && n.toA == [Offer(n.f, n.f.last)]
    ensures Open(Next(n, e)) ==> Moves(n, e)
    ensures !Open(Next(n, e)) ==> !Ratchets(n, e)
  {
    OfferRatchets(n.a, n.f);
    if n.a.offers != map[] {
      OfferNarrows(n.a, n.f);
    }
  }

  lemma FunderMoves(n: Net, e: Event)
    requires !n.failed && n.f.ideal >= 10 && n.a.ideal >= 10
    requires Talks(n.f, n.a) && n.toA == [] && n.toF == [Offer(n.a, n.a.last)]
    ensures Open(Next(n, e)) ==> Moves(n, e)
    ensures !Open(Next(n, e)) ==> !Ratchets(n, e)
  {
    OfferRatchets(n.f, n.a);
    if n.f.offers != map[] {
      OfferNarrows(n.f, n.a);
    }
  }

  lemma SettledStays(n: Net, e: Event)
    requires (HalfDone(n) || Done(n)) && !n.failed
    ensures !Ratchets(n, e) && !Open(Next(n, e)) && !Open(n)
  {
  }

  ghost predicate RatioFits(n: Net, k: nat) {
    var lo, hi := Lower(n.f.ideal, n.a.ideal), Upper(n.f.ideal, n.a.ideal);
    && Power(20, k) * lo <= Power(19, k) * hi
    && (Open(n) ==> Narrowed(k, lo, hi, LowOffer(n), HighOffer(n)) && 1 <= LowOffer(n) <= HighOffer(n))
  }

  /** While the lower offer stays below the higher one, the narrowing is limited by the ratio of the ideals. */
  lemma RatioLimits(k: nat, lo: nat, hi: nat, x: nat, y: nat)
    requires Narrowed(k, lo, hi, x, y) && 1 <= x <= y
    ensures Power(20, k) * lo <= Power(19, k) * hi
  {
    var a, b := Power(20, k) * lo, Power(19, k) * hi;
    Scaled(b, x, y);
    ScaledStrictly(b, a, y);
  }

  lemma ScaledStrictly(x: nat, y: nat, a: nat)
    ensures x < y && 1 <= a ==> x * a < y * a
  {
    if x < y {
      assert y * a == x * a + (y - x) * a;
      Scaled(a, 1, y - x);
    }
  }

  lemma StepKeepsRatio(n: Net, e: Event, k: nat)
    requires Inv(n) && n.f.ideal >= 10 && n.a.ideal >= 10 && RatioFits(n, k)
    ensures RatioFits(Next(n, e), if Ratchets(n, e) then k + 1 else k)
  {
    StepKeepsIdeals(n, e);
    StepKeepsInv(n, e);
    var r := Next(n, e);
    var lo, hi := Lower(n.f.ideal, n.a.ideal), Upper(n.f.ideal, n.a.ideal);
    StepMoves(n, e);
    if Open(r) {
      OpenOffers(r);
      if Ratchets(n, e) {
        if 20 * LowOffer(n) <= 19 * LowOffer(r) && HighOffer(r) == HighOffer(n) {
          NarrowsFromBelow(k, lo, hi, LowOffer(n), HighOffer(n), LowOffer(r));
        } else {
          NarrowsFromAbove(k, lo, hi, LowOffer(n), HighOffer(n), HighOffer(r));
        }
        RatioLimits(k + 1, lo, hi, LowOffer(r), HighOffer(r));
      }
    }
  }

  lemma StepMoves(n: Net, e: Event)
    requires Inv(n) && n.f.ideal >= 10 && n.a.ideal >= 10
    ensures Open(Next(n, e)) ==> Open(n) && Moves(n, e)
    ensures !Open(Next(n, e)) ==> !Ratchets(n, e)
  {
    if Opening(n) {
      OpeningRatio(n, e);
    } else if Talks(n.a, n.f) && n.toF == [] && n.toA == [Offer(n.f, n.f.last)] {
      AcceptorMoves(n, e);
    } else if Talking(n) {
      FunderMoves(n, e);
    } else {
      SettledStays(n, e);
    }
  }

  lemma OpenOffers(n: Net)
    requires Inv(n) && Open(n) && n.f.ideal >= 10 && n.a.ideal >= 10
    ensures 1 <= LowOffer(n) <= HighOffer(n)
  {
    if Opening(n) {
      OpeningRatio(n, ToFunder);
    }
  }

  /** What every step keeps, given the number of ratchets so far, every run keeps. */
  lemma {:induction false} RunKeeps(n: Net, events: seq<Event>, keeps: (Net, nat) -> bool)
    requires Inv(n) && n.f.ideal >= 10 && n.a.ideal >= 10 && keeps(n, 0)
    requires forall m: Net, e: Event, k: nat :: Inv(m) && m.f.ideal >= 10 && m.a.ideal >= 10 && keeps(m, k) ==>
               keeps(Next(m, e), if Ratchets(m, e) then k + 1 else k)
    ensures keeps(Run(n, events), Ratcheted(n, events))
    decreases |events|
  {
    if events != [] {
      var init, e := events[..|events| - 1], events[|events| - 1];
      RunKeeps(n, init, keeps);
      RunKeepsInv(n, init);
      RunKeepsIdeals(n, init);
      assert keeps(Next(Run(n, init), e), if Ratchets(Run(n, init), e) then Ratcheted(n, init) + 1 else Ratcheted(n, init));
    }
  }

  lemma RunKeepsRatio(n: Net, events: seq<Event>)
    requires Inv(n) && n.f.ideal >= 10 && n.a.ideal >= 10 && RatioFits(n, 0)
    ensures RatioFits(Run(n, events), Ratcheted(n, events))
  {
    var keeps := (m: Net, k: nat) => RatioFits(m, k);
    forall m: Net, e: Event, k: nat | Inv(m) && m.f.ideal >= 10 && m.a.ideal >= 10 && keeps(m, k)
      ensures keeps(Next(m, e), if Ratchets(m, e) then k + 1 else k)
    {
      StepKeepsRatio(m, e, k);
    }
    RunKeeps(n, events, keeps);
  }

  /**
   With both ideal fees at least 10, the number `k` of ratcheted offers of any run is
   logarithmic in their ratio: (20/19)^k is at most the larger over the smaller.
   */
  lemma RatchetsAreLogarithmic(idealF: nat, idealA: nat, commitFee: nat, scriptF: Script, scriptA: Script, events: seq<Event>)
    requires Clamp(idealF, commitFee) >= 10 && Clamp(idealA, commitFee) >= 10
    ensures var x, y := Clamp(idealF, commitFee), Clamp(idealA, commitFee);
            var k := Ratcheted(Start(idealF, idealA, commitFee, scriptF, scriptA), events);
            Power(20, k) * Lower(x, y) <= Power(19, k) * Upper(x, y)
  {
    var n := Start(idealF, idealA, commitFee, scriptF, scriptA);
    assert Opening(n);
    var lo, hi := Lower(n.f.ideal, n.a.ideal), Upper(n.f.ideal, n.a.ideal);
    assert Power(20, 0) * lo * hi == lo * hi && Power(19, 0) * hi * lo == hi * lo;
    assert LowOffer(n) == lo && HighOffer(n) == hi;
    RunKeepsRatio(n, events);
    RunKeepsIdeals(n, events);
  }

  lemma {:induction false} PowerSum(base: nat, m: nat, n: nat)
    ensures Power(base, m + n) == Power(base, m) * Power(base, n)
    decreases m
  {
    if m > 0 {
      PowerSum(base, m - 1, n);
      assert base * (Power(base, m - 1) * Power(base, n)) == (base * Power(base, m - 1)) * Power(base, n);
    }
  }

  lemma FourteenDouble()
    ensures 2 * Power(19, 14) <= Power(20, 14)
  {
    assert Power(19, 3) == 6859 && Power(20, 3) == 8000;
    PowerSum(19, 3, 3);
    PowerSum(20, 3, 3);
    PowerSum(19, 6, 1);
    PowerSum(20, 6, 1);
    assert Power(19, 1) == 19 && Power(20, 1) == 20;
    PowerSum(19, 7, 7);
    PowerSum(20, 7, 7);
  }

  lemma {:induction false} PowerGrows(n: nat)
    ensures Power(19, n) <= Power(20, n)
  {
    if n > 0 {
      PowerGrows(n - 1);
    }
  }

  /** Fourteen steps of 20/19 more than double. */
  lemma {:induction false} Doubles(k: nat, m: nat)
    requires k >= 14 * m
    ensures Power(2, m) * Power(19, k) <= Power(20, k)
    decreases m
  {
    if m == 0 {
      PowerGrows(k);
    } else {
      Doubles(k - 14, m - 1);
      FourteenMore(k, Power(2, m - 1), 14);
    }
  }

  lemma FourteenMore(k: nat, q: nat, step: nat)
    requires step == 14 && k >= step && q * Power(19, k - step) <= Power(20, k - step)
    ensures (2 * q) * Power(19, k) <= Power(20, k)
  {
    FourteenDouble();
    PowerSum(19, step, k - step);
    PowerSum(20, step, k - step);
    StepDoubles(Power(19, step), Power(20, step), q, Power(19, k - step), Power(20, k - step));
  }

  lemma StepDoubles(a: nat, b: nat, q: nat, c: nat, d: nat)
    requires 2 * a <= b && q * c <= d
    ensures (2 * q) * (a * c) <= b * d
  {
    Products(2 * a, b, q * c, d);
    Regrouped(a, q, c);
  }

  lemma Regrouped(a: nat, b: nat, c: nat)
    ensures (2 * a) * (b * c) == (2 * b) * (a * c)
  {
    assert a * (b * c) == b * (a * c);
  }

  lemma Products(a: nat, b: nat, c: nat, d: nat)
    requires a <= b && c <= d
    ensures a * c <= b * d
  {
    Scaled(a, c, d);
    Scaled(d, a, b);
  }

  lemma {:induction false} PowerIsPositive(base: nat, n: nat)
    requires base > 0
    ensures Power(base, n) > 0
  {
    if n > 0 {
      PowerIsPositive(base, n - 1);
      Products(1, base, 1, Power(base, n - 1));
    }
  }

  lemma Exceeds(big: nat, p: nat, q: nat, lo: nat, hi: nat)
    requires (2 * q) * p <= big && hi <= q * lo && p > 0 && q > 0 && lo > 0
    ensures big * lo > p * hi
  {
    var t := p * (q * lo);
    Scaled(lo, (2 * q) * p, big);
    Scaled(p, hi, q * lo);
    Products(1, q, 1, lo);
    Products(1, p, 1, q * lo);
    Reordered(lo, q, p);
  }

  lemma Reordered(lo: nat, q: nat, p: nat)
    ensures lo * ((2 * q) * p) == 2 * (p * (q * lo))
  {
    assert lo * ((2 * q) * p) == (2 * lo) * (q * p);
    assert lo * (q * p) == p * (q * lo);
  }

  lemma TooMany(k: nat, m: nat, lo: nat, hi: nat)
    requires k >= 14 * (m + 1) && lo > 0 && hi <= Power(2, m) * lo
    ensures Power(20, k) * lo > Power(19, k) * hi
  {
    Doubles(k, m + 1);
    PowerIsPositive(19, k);
    PowerIsPositive(2, m);
    Exceeds(Power(20, k), Power(19, k), Power(2, m), lo, hi);
  }

  /**
   In plain numbers: if one ideal is at most 2^m times the other, fewer than
   14 * (m + 1) offers are ratcheted.
   */
  lemma FourteenPerDoubling(idealF: nat, idealA: nat, commitFee: nat, scriptF: Script, scriptA: Script, events: seq<Event>, m: nat)
    requires Clamp(idealF, commitFee) >= 10 && Clamp(idealA, commitFee) >= 10
    requires Upper(Clamp(idealF, commitFee), Clamp(idealA, commitFee))
             <= Power(2, m) * Lower(Clamp(idealF, commitFee), Clamp(idealA, commitFee))
    ensures Ratcheted(Start(idealF, idealA, commitFee, scriptF, scriptA), events) < 14 * (m + 1)
  {
    var x, y := Clamp(idealF, commitFee), Clamp(idealA, commitFee);
    var k := Ratcheted(Start(idealF, idealA, commitFee, scriptF, scriptA), events);
    RatchetsAreLogarithmic(idealF, idealA, commitFee, scriptF, scriptA, events);
    if k >= 14 * (m + 1) {
      TooMany(k, m, Lower(x, y), Upper(x, y));
    }
  }
}
