/** A routed payment is all or nothing, and pays everybody what is due. */
module ChannelRouteLaw {
  import opened Basics
  import opened Symbols
  import opened Channel
  import opened ChannelRoute

  // ---------------------------------------------------------------- one hop and its end

  /** A channel that has just offered an HTLC. */
  predicate JustOffered(p: Pair, payerA: bool, amount: nat, ph: Digest, expiry: nat) {
    Synced(p) && Bal(p.a.cur, payerA) >= amount && ValidateNext(p.a, Offered(p.a.cur, payerA, amount, ph, expiry)).Ok?
  }

  lemma OfferedFacts(p: Pair, payerA: bool, amount: nat, ph: Digest, expiry: nat)
    requires JustOffered(p, payerA, amount, ph, expiry)
    ensures var s := Offered(p.a.cur, payerA, amount, ph, expiry);
            && s.balA >= p.a.cfg.info.fee && |p.a.cur.htlcs| <= MAX_HTLCS
            && (forall h :: h in p.a.cur.htlcs ==> !BadHtlcEntry(h) && h.id < p.a.cur.nextHtlcId)
            && s.htlcs == p.a.cur.htlcs + [Htlc(p.a.cur.nextHtlcId, payerA, amount, ph, expiry)]
  {
    hide BadHtlcEntry, HtlcSum, EndsMatch;
    var s := Offered(p.a.cur, payerA, amount, ph, expiry);
    forall h | h in p.a.cur.htlcs ensures !BadHtlcEntry(h) {
      var i :| 0 <= i < |p.a.cur.htlcs| && p.a.cur.htlcs[i] == h;
      assert s.htlcs[i] == h;
    }
  }

  /** Undoing a hop puts its channel back, whatever its counters have become. */
  lemma FailBack(p: Pair, y: Pair, payerA: bool, amount: nat, ph: Digest, expiry: nat)
    requires JustOffered(p, payerA, amount, ph, expiry) && Synced(y) && y.a.cfg == p.a.cfg && y.b.cfg == p.b.cfg
    requires CoreOf(y.a.cur) == CoreOf(Offered(p.a.cur, payerA, amount, ph, expiry))
    ensures var r := FailHtlc(y, payerA, p.a.cur.nextHtlcId);
            Synced(r.0) && r.0.a.cfg == p.a.cfg && r.0.b.cfg == p.b.cfg && CoreOf(r.0.a.cur) == CoreOf(p.a.cur)
  {
    hide Synced, RemoveHtlc, BadHtlcEntry, JustOffered;
    OfferedFacts(p, payerA, amount, ph, expiry);
    RemoveLast(y, !payerA, false, p.a.cur.htlcs, Htlc(p.a.cur.nextHtlcId, payerA, amount, ph, expiry));
  }

  /** Settling a hop moves its amount to the payee and removes its HTLC. */
  lemma PayForward(p: Pair, y: Pair, payerA: bool, amount: nat, preimage: Preimage, expiry: nat)
    requires JustOffered(p, payerA, amount, HashPreimage(preimage), expiry) && Synced(y) && y.a.cfg == p.a.cfg &&
             y.b.cfg == p.b.cfg
    requires y.a.cur.htlcs == Offered(p.a.cur, payerA, amount, HashPreimage(preimage), expiry).htlcs &&
             y.a.cur.balA >= p.a.cfg.info.fee
    ensures var r := SettleHtlc(y, payerA, p.a.cur.nextHtlcId, preimage);
            && r.1 && Synced(r.0) && r.0.a.cfg == p.a.cfg && r.0.b.cfg == p.b.cfg
            && CoreOf(r.0.a.cur) == CoreOf(SetBal(y.a.cur, !payerA,
                 Bal(y.a.cur, !payerA) + amount).(htlcs := p.a.cur.htlcs))
  {
    hide RemoveHtlc, BadHtlcEntry, JustOffered, HashPreimage, HtlcSum, Knows;
    var h := Htlc(p.a.cur.nextHtlcId, payerA, amount, HashPreimage(preimage), expiry);
    OfferedFacts(p, payerA, amount, HashPreimage(preimage), expiry);
    LastFound(p.a.cur, h, h.id);
    assert y.b.cur == y.a.cur;
    assert y.a.cur.htlcs[|p.a.cur.htlcs|] == h;
    RemoveLast(y, !payerA, true, p.a.cur.htlcs, h);
  }

  // ----------------------------------------------------------------------- network level

  lemma OfferStep(net: Network, route: seq<Hop>, i: nat, pay: Payment)
    requires i < |route| && RouteOk(net, route) && AllSynced(net)
    ensures var o, x := Offer(net, route, i, pay), route[i].pair;
            var net1 := net[x := o.0];
            && AllSynced(net1) && SameEnds(net, net1) && (o.1.None? ==> net1 == net)
            && (o.1.Some? ==>
                  && o.1.value == net[x].a.cur.nextHtlcId
                  && JustOffered(net[x], route[i].payerA, HopAmount(pay, |route|, i), HashPreimage(pay.preimage),
                       HopExpiry(pay, |route|, i))
                  && o.0.a.cur == Offered(net[x].a.cur, route[i].payerA, HopAmount(pay, |route|, i),
                       HashPreimage(pay.preimage), HopExpiry(pay, |route|, i)))
  {
    hide AddHtlc, Synced, ValidateNext, HopAmount, HopExpiry, HashPreimage;
    var hop := route[i];
    assert Synced(net[hop.pair]);
    AddHtlcFacts(net[hop.pair], hop.payerA, HopAmount(pay, |route|, i), HashPreimage(pay.preimage),
        HopExpiry(pay, |route|, i));
  }

  lemma ConcludeRefused(net: Network, net2: Network, route: seq<Hop>, i: nat, pay: Payment)
    requires i < |route| && RouteOk(net, route) && AllSynced(net) && Offer(net, route, i, pay).1.Some?
    requires var o := Offer(net, route, i, pay);
             AllSynced(net2) && SameEnds(net, net2) && SameCores(net[route[i].pair := o.0], net2)
    ensures var r := Conclude((net2, Refused), route[i], Offer(net, route, i, pay).1.value, pay);
            r.1 == Refused && AllSynced(r.0) && SameEnds(net, r.0) && SameCores(net, r.0)
  {
    hide Offer, Synced, FailHtlc, CoreOf, JustOffered, HopAmount, HopExpiry, HashPreimage;
    OfferStep(net, route, i, pay);
    var hop := route[i];
    var x := hop.pair;
    assert Synced(net2[x]);
    FailBack(net[x], net2[x], hop.payerA, HopAmount(pay, |route|, i), HashPreimage(pay.preimage),
        HopExpiry(pay, |route|, i));
  }

  lemma ConcludePaid(net: Network, net2: Network, route: seq<Hop>, i: nat, pay: Payment)
    requires i < |route| && RouteOk(net, route) && AllSynced(net) && Offer(net, route, i, pay).1.Some?
    requires var o := Offer(net, route, i, pay);
             AllSynced(net2) && SameEnds(net, net2) && NetRelated(net[route[i].pair := o.0], net2)
    ensures var r := Conclude((net2, Paid), route[i], Offer(net, route, i, pay).1.value, pay);
            var x := route[i].pair;
            && r.1 == Paid && AllSynced(r.0) && SameEnds(net, r.0) && NetRelated(net, r.0) && r.0 == net2[x := r.0[x]]
            && CoreOf(r.0[x].a.cur) == CoreOf(SetBal(net2[x].a.cur, !route[i].payerA,
                 Bal(net2[x].a.cur, !route[i].payerA) + HopAmount(pay, |route|, i)).(htlcs := net[x].a.cur.htlcs))
  {
    hide Offer, Synced, SettleHtlc, JustOffered, HopAmount, HopExpiry, HashPreimage, BadHtlcEntry;
    OfferStep(net, route, i, pay);
    var hop := route[i];
    var x := hop.pair;
    assert Synced(net2[x]);
    OfferedFacts(net[x], hop.payerA, HopAmount(pay, |route|, i), HashPreimage(pay.preimage),
        HopExpiry(pay, |route|, i));
    assert Related(net[x := Offer(net, route, i, pay).0][x], net2[x]);
    PayForward(net[x], net2[x], hop.payerA, HopAmount(pay, |route|, i), pay.preimage, HopExpiry(pay, |route|, i));
    var r := Conclude((net2, Paid), hop, Offer(net, route, i, pay).1.value, pay);
    forall j | 0 <= j < |net| ensures Related(net[j],
        r.0[j]) { if j != x { assert Related(net[x := Offer(net, route, i, pay).0][j], net2[j]); } }
  }

  lemma OfferShare(net: Network, route: seq<Hop>, i: nat, pay: Payment, x: string)
    requires i < |route| && RouteOk(net, route) && AllSynced(net) && Offer(net, route, i, pay).1.Some?
    ensures Holdings(net[route[i].pair := Offer(net, route, i, pay).0], x) ==
            Holdings(net, x) - if PayerOf(net, route[i]) == x then HopAmount(pay, |route|, i) else 0
  {
    hide Offer, Synced, JustOffered, HopAmount, HopExpiry, HashPreimage, Holdings;
    OfferStep(net, route, i, pay);
    HoldingsUpdate(net, route[i].pair, Offer(net, route, i, pay).0, x);
    OfferedBal(net[route[i].pair], route[i].payerA, HopAmount(pay, |route|, i), HashPreimage(pay.preimage),
        HopExpiry(pay, |route|, i));
  }

  lemma OfferedBal(p: Pair, payerA: bool, amount: nat, ph: Digest, expiry: nat)
    requires JustOffered(p, payerA, amount, ph, expiry)
    ensures Bal(p.a.cur, payerA) >= amount
  {
    hide Synced, ValidateNext;
  }

  lemma ConcludeShare(net: Network, net2: Network, route: seq<Hop>, i: nat, pay: Payment, x: string)
    requires i < |route| && RouteOk(net, route) && AllSynced(net) && Offer(net, route, i, pay).1.Some?
    requires var o := Offer(net, route, i, pay);
             AllSynced(net2) && SameEnds(net, net2) && NetRelated(net[route[i].pair := o.0], net2)
    ensures Holdings(Conclude((net2, Paid), route[i], Offer(net, route, i, pay).1.value, pay).0, x) ==
            Holdings(net2, x) + if PayeeOf(net, route[i]) == x then HopAmount(pay, |route|, i) else 0
  {
    hide Offer, AllSynced, Conclude, HopAmount, Holdings, NetRelated;
    ConcludePaid(net, net2, route, i, pay);
    var r := Conclude((net2, Paid), route[i], Offer(net, route, i, pay).1.value, pay);
    HoldingsUpdate(net2, route[i].pair, r.0[route[i].pair], x);
  }

  // --------------------------------------------------------------- every state between

  /** All networks the payment passes through from hop `i` on, in order. */
  function Trail(net: Network, route: seq<Hop>, i: nat, pay: Payment): seq<Network>
    requires i <= |route| && RouteOk(net, route)
    decreases |route| - i
  {
    if i == |route| then [net]
    else
      var o := Offer(net, route, i, pay);
      var net1 := net[route[i].pair := o.0];
      if o.1.None? then [net, net1] else [net] + Trail(net1, route, i + 1, pay) + [RouteFrom(net, route, i, pay).0]
  }

  /** The same channels, each with both ends adding up to its capacity. */
  predicate Conserves(net: Network, t: Network) {
    && SameEnds(net, t)
    && forall j :: 0 <= j < |t| ==> FullCapacity(t[j].a) && FullCapacity(t[j].b)
  }

  predicate FullCapacity(c: Chan) { c.cur.balA + c.cur.balB + HtlcSum(c.cur.htlcs) == c.cfg.info.capacity }

  lemma SyncedConserves(net: Network, t: Network)
    requires AllSynced(t) && SameEnds(net, t)
    ensures Conserves(net, t)
  {
    hide HtlcSum, Knows;
    forall j | 0 <= j < |t| ensures FullCapacity(t[j].a) && FullCapacity(t[j].b) { assert Synced(t[j]); }
  }

  lemma ConcludeSynced(r: (Network, Result), hop: Hop, id: nat, pay: Payment)
    requires AllSynced(r.0) && hop.pair < |r.0|
    ensures AllSynced(Conclude(r, hop, id, pay).0) && SameEnds(r.0, Conclude(r, hop, id, pay).0)
  {
    hide Synced, RemoveHtlc;
    var p := r.0[hop.pair];
    assert Synced(p);
    RemoveSynced(p, !hop.payerA, id, false);
    RemoveSynced(p, !hop.payerA, id, true);
  }

  lemma {:induction false} TrailConserves(net: Network, route: seq<Hop>, i: nat, pay: Payment)
    requires i <= |route| && RouteOk(net, route) && AllSynced(net)
    ensures forall t :: t in Trail(net, route, i, pay) ==> AllSynced(t) && Conserves(net, t)
    ensures AllSynced(RouteFrom(net, route, i, pay).0) && SameEnds(net, RouteFrom(net, route, i, pay).0)
    ensures Trail(net, route, i, pay)[0] == net
    ensures var tr := Trail(net, route, i, pay); tr[|tr| - 1] == RouteFrom(net, route, i, pay).0
    decreases |route| - i
  {
    hide Offer, AllSynced, Conclude, FullCapacity;
    Unmoved(net);
    SyncedConserves(net, net);
    if i < |route| {
      var o := Offer(net, route, i, pay);
      var net1 := net[route[i].pair := o.0];
      OfferStep(net, route, i, pay);
      SyncedConserves(net, net1);
      if o.1.Some? {
        TrailConserves(net1, route, i + 1, pay);
        ConcludeSynced(RouteFrom(net1, route, i + 1, pay), route[i], o.1.value, pay);
        SyncedConserves(net, RouteFrom(net, route, i, pay).0);
      }
    }
  }

  /** The law of a routed payment, from any hop on. */
  lemma {:induction false} RouteLaw(net: Network, route: seq<Hop>, i: nat, pay: Payment, x: string)
    requires i <= |route| && RouteOk(net, route) && AllSynced(net)
    ensures var r := RouteFrom(net, route, i, pay);
            && AllSynced(r.0) && SameEnds(net, r.0) && r.1 != Stuck
            && (r.1 == Refused ==> SameCores(net, r.0))
            && (r.1 == Paid ==>
                  && NetRelated(net, r.0)
                  && Holdings(r.0, x) == Holdings(net, x) + Gain(net, route, i, pay, x))
    decreases |route| - i
  {
    hide Offer, AllSynced, Conclude, HopAmount, Holdings, Related, EndAddr, CoreOf;
    if i == |route| {
      Unmoved(net);
    } else {
      var o := Offer(net, route, i, pay);
      var net1 := net[route[i].pair := o.0];
      OfferStep(net, route, i, pay);
      if o.1.Some? {
        RouteLaw(net1, route, i + 1, pay, x);
        var r := RouteFrom(net1, route, i + 1, pay);
        if r.1 == Refused {
          ConcludeRefused(net, r.0, route, i, pay);
        } else {
          ConcludePaid(net, r.0, route, i, pay);
          OfferShare(net, route, i, pay, x);
          ConcludeShare(net, r.0, route, i, pay, x);
          GainFrame(net, net1, route, i + 1, pay, x);
        }
      } else {
        Unmoved(net);
      }
    }
  }

  lemma Unmoved(net: Network)
    ensures SameCores(net, net) && NetRelated(net, net) && SameEnds(net, net)
  {
  }

  // ------------------------------------------------------------------- who gets what

  /** Each hop is paid by whoever the hop before it paid. */
  predicate Connected(net: Network, route: seq<Hop>)
    requires RouteOk(net, route)
  {
    forall i {:trigger route[i]} :: 0 <= i < |route| - 1 ==> PayeeOf(net, route[i]) == PayerOf(net, route[i + 1])
  }

  /** How many of the hops from `i` on, the last excepted, pay to `x`. */
  function Forwards(net: Network, route: seq<Hop>, i: nat, x: string): nat
    requires RouteOk(net, route)
    decreases |route| - i
  {
    if i + 1 >= |route| then 0 else (if PayeeOf(net, route[i]) == x then 1 else 0) + Forwards(net, route, i + 1, x)
  }

  lemma {:induction false} GainTelescopes(net: Network, route: seq<Hop>, i: nat, pay: Payment, x: string)
    requires i < |route| && RouteOk(net, route) && Connected(net, route)
    ensures Gain(net, route, i, pay, x) ==
            (if PayeeOf(net, route[|route| - 1]) == x then pay.amount else 0)
            - (if PayerOf(net, route[i]) == x then HopAmount(pay, |route|, i) else 0)
            + pay.fee * Forwards(net, route, i, x)
    decreases |route| - i
  {
    hide HopAmount, PayeeOf, PayerOf;
    if i + 1 == |route| {
      LastAmount(pay, |route|);
      NoGain(net, route, pay, x);
    } else {
      GainTelescopes(net, route, i + 1, pay, x);
      NextAmount(pay, |route|, i);
      OneMoreFee(pay.fee, Forwards(net, route, i + 1, x));
      assert PayeeOf(net, route[i]) == PayerOf(net, route[i + 1]);
    }
  }

  lemma NoGain(net: Network, route: seq<Hop>, pay: Payment, x: string)
    requires RouteOk(net, route)
    ensures Gain(net, route, |route|, pay, x) == 0
  {
  }

  lemma OneMoreFee(fee: nat, f: nat)
    ensures fee * (f + 1) == fee * f + fee
  {
  }

  lemma LastAmount(pay: Payment, k: nat)
    requires k > 0
    ensures HopAmount(pay, k, k - 1) == pay.amount
  {
  }

  lemma NextAmount(pay: Payment, k: nat, i: nat)
    requires i + 1 < k
    ensures HopAmount(pay, k, i) == HopAmount(pay, k, i + 1) + pay.fee
  {
    assert pay.fee * (k - 1 - i) == pay.fee * (k - 2 - i) + pay.fee;
  }

  function RoutePayment(net: Network, route: seq<Hop>, pay: Payment): (Network, Result)
    requires RouteOk(net, route)
  {
    if pay.preimage.NotHex? then (net, Refused) else RouteFrom(net, route, 0, pay)
  }

  /** A routed payment over synchronised channels, however long its route and even if it
      passes a channel twice: refused, every channel's balances and HTLCs are as before;
      paid, every HTLC is gone, the first payer is down the amount and a fee per forwarder,
      each forwarder is up one fee for each time it forwards, and the last payee is up the
      amount. Either way every channel stays synchronised and its capacity is conserved at
      both ends in every state on the way. */
  lemma RouteAllOrNothing(net: Network, route: seq<Hop>, pay: Payment, x: string)
    requires RouteOk(net, route) && AllSynced(net) && route != [] && Connected(net, route)
    ensures var r := RoutePayment(net, route, pay);
            && AllSynced(r.0) && r.1 != Stuck
            && (forall t :: t in Trail(net, route, 0, pay) ==> Conserves(net, t))
            && (r.1 == Refused ==> SameCores(net, r.0))
            && (r.1 == Paid ==>
                  && NetRelated(net, r.0)
                  && Holdings(r.0, x) == Holdings(net, x)
                       + (if PayeeOf(net, route[|route| - 1]) == x then pay.amount else 0)
                       - (if PayerOf(net, route[0]) == x then pay.amount + pay.fee * (|route| - 1) else 0)
                       + pay.fee * Forwards(net, route, 0, x))
  {
    hide RouteFrom, AllSynced, Holdings, EndAddr, CoreOf, Related, Connected, Forwards;
    hide Trail, Conserves;
    Unmoved(net);
    TrailConserves(net, route, 0, pay);
    RouteLaw(net, route, 0, pay, x);
    GainTelescopes(net, route, 0, pay, x);
  }

  // --------------------------------------------------------------- the program's loops

  /** What is left to do on the way back for the hops before `i`. */
  function Back(r: (Network, Result), route: seq<Hop>, ids: seq<nat>, i: nat, pay: Payment): (Network, Result)
    requires i <= |ids| && i <= |route| && RouteOk(r.0, route)
    decreases i
  {
    if i == 0 then r else Back(Conclude(r, route[i - 1], ids[i - 1], pay), route, ids, i - 1, pay)
  }

  lemma {:induction false} BackStuck(net: Network, route: seq<Hop>, ids: seq<nat>, i: nat, pay: Payment)
    requires i <= |ids| && i <= |route| && RouteOk(net, route)
    ensures Back((net, Stuck), route, ids, i, pay) == (net, Stuck)
  {
    if i > 0 { BackStuck(net, route, ids, i - 1, pay); }
  }

  /** The loops of the program: offer hop by hop; on a refusal undo what was offered, last
      first; once all is offered settle, last first. */
  method Route(net0: Network, route: seq<Hop>, pay: Payment) returns (net: Network, result: Result)
    requires RouteOk(net0, route)
    ensures (net, result) == RoutePayment(net0, route, pay)
    ensures AllSynced(net0) ==> AllSynced(net) && Conserves(net0, net)
  {
    hide Offer, FailHtlc, SettleHtlc, AllSynced, SameEnds, Conserves;
    Unmoved(net0);
    if AllSynced(net0) { TrailConserves(net0, route, 0, pay); SyncedConserves(net0, net0); }
    net := net0;
    if pay.preimage.NotHex? { return net, Refused; }
    var ids: seq<nat> := [];
    var i := 0;
    while i < |route|
      invariant i <= |route| && |ids| == i && |net| == |net0|
      invariant AllSynced(net0) ==> AllSynced(net)
      invariant Back(RouteFrom(net, route, i, pay), route, ids, i, pay) == RouteFrom(net0, route, 0, pay)
    {
      if AllSynced(net) { OfferStep(net, route, i, pay); }
      var o := Offer(net, route, i, pay);
      net := net[route[i].pair := o.0];
      if o.1.None? {
        net := Undo(net, route, ids, i, pay);
        return net, Refused;
      }
      BackSnoc(RouteFrom(net, route, i + 1, pay), route, ids, i, o.1.value, pay);
      ids := ids + [o.1.value];
      i := i + 1;
    }
    while i > 0
      invariant i <= |route| && |net| == |net0| && |ids| == |route|
      invariant AllSynced(net0) ==> AllSynced(net)
      invariant Back((net, Paid), route, ids, i, pay) == RouteFrom(net0, route, 0, pay)
    {
      i := i - 1;
      if AllSynced(net) { ConcludeSynced((net, Paid), route[i], ids[i], pay); }
      var s := SettleHtlc(net[route[i].pair], route[i].payerA, ids[i], pay.preimage);
      net := net[route[i].pair := s.0];
      if !s.1 {
        BackStuck(net, route, ids, i, pay);
        return net, Stuck;
      }
    }
    result := Paid;
  }

  method Undo(net0: Network, route: seq<Hop>, ids: seq<nat>, n: nat, pay: Payment) returns (net: Network)
    requires n <= |ids| && n <= |route| && RouteOk(net0, route)
    ensures (net, Refused) == Back((net0, Refused), route, ids, n, pay)
    ensures AllSynced(net0) ==> AllSynced(net)
  {
    hide FailHtlc, SettleHtlc, AllSynced;
    net := net0;
    var j := n;
    while j > 0
      invariant 0 <= j <= n && |net| == |net0|
      invariant AllSynced(net0) ==> AllSynced(net)
      invariant Back((net, Refused), route, ids, j, pay) == Back((net0, Refused), route, ids, n, pay)
    {
      j := j - 1;
      if AllSynced(net) { ConcludeSynced((net, Refused), route[j], ids[j], pay); }
      net := net[route[j].pair := FailHtlc(net[route[j].pair], route[j].payerA, ids[j]).0];
    }
  }

  lemma BackSnoc(r: (Network, Result), route: seq<Hop>, ids: seq<nat>, i: nat, id: nat, pay: Payment)
    requires i == |ids| < |route| && RouteOk(r.0, route)
    ensures Back(Conclude(r, route[i], id, pay), route, ids, i, pay) == Back(r, route, ids + [id], i + 1, pay)
  {
    hide FailHtlc, SettleHtlc;
    BackPrefix(Conclude(r, route[i], id, pay), route, ids, [id], i, pay);
  }

  lemma {:induction false} BackPrefix(r: (Network, Result), route: seq<Hop>, ids: seq<nat>, more: seq<nat>, i: nat,
      pay: Payment)
    requires i <= |ids| && i <= |route| && RouteOk(r.0, route)
    ensures Back(r, route, ids + more, i, pay) == Back(r, route, ids, i, pay)
    decreases i
  {
    if i > 0 { BackPrefix(Conclude(r, route[i - 1], ids[i - 1], pay), route, ids, more, i - 1, pay); }
  }
}
