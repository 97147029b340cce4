/** Exactly when an HTLC can be offered, settled and refunded on a synchronised channel. */
module ChannelRouteRules {
  import opened Basics
  import opened Symbols
  import opened Channel
  import opened ChannelRoute
  import opened ChannelUpdates

  /** An HTLC can be offered if and only if it has an amount that the payer can spare (the funder
      besides the fee) and the state with it is acceptable; the channel then has that state on
      both ends, and otherwise does not change. */
  lemma OfferIff(p: Pair, payerA: bool, amount: nat, ph: Digest, expiry: nat)
    requires Synced(p)
    ensures var r := AddHtlc(p, payerA, amount, ph, expiry);
            var s, fee := p.a.cur, p.a.cfg.info.fee;
            && (r.1.Some? <==>
                 && amount > 0 && (if payerA then s.balA >= amount + fee else s.balB >= amount)
                 && Acceptable(p.a, Offered(s, payerA, amount, ph, expiry)))
            && (r.1.None? ==> r.0 == p)
            && (r.1.Some? ==>
                  r.0.a.cur == r.0.b.cur == Offered(s, payerA, amount, ph, expiry) && r.1.value == s.nextHtlcId)
  {
    hide UpdatePair, ValidateNext, Knows, Acceptable;
    var s := p.a.cur;
    AddHtlcFacts(p, payerA, amount, ph, expiry);
    if Bal(s, payerA) >= amount {
      var next := Offered(s, payerA, amount, ph, expiry);
      ValidateIff(p.a, next);
      forall h | h in next.htlcs ensures h.id < next.nextHtlcId { assert h in s.htlcs || h == next.htlcs[|s.htlcs|]; }
      UpdatePairSynced(p, payerA, next);
    }
  }

  /** The state without HTLC `i`, its amount with side A or side B. */
  function Without(s: State, i: nat, toA: bool): State
    requires i < |s.htlcs|
  {
    var x := s.htlcs[i].amount;
    State(s.n + 1, if toA then s.balA + x else s.balA, if toA then s.balB else s.balB + x,
          s.htlcs[..i] + s.htlcs[i + 1..], s.nextHtlcId)
  }

  predicate FirstWith(hs: seq<Htlc>, id: nat, i: nat) {
    i < |hs| && hs[i].id == id && forall j :: 0 <= j < i ==> hs[j].id != id
  }

  lemma RemoveIs(p: Pair, proposerA: bool, id: nat, toReceiver: bool, i: nat)
    requires Synced(p) && FirstWith(p.a.cur.htlcs, id, i)
    ensures var r := RemoveHtlc(p, proposerA, id, toReceiver);
            var next := Without(p.a.cur, i, p.a.cur.htlcs[i].offeredByA != toReceiver);
            && (r.1 <==> Acceptable(p.a, next)) && (!r.1 ==> r.0 == p) && (r.1 ==> r.0.a.cur == r.0.b.cur == next)
  {
    hide UpdatePair, ValidateNext, Knows, Acceptable, StateOk;
    var s := p.a.cur;
    assert Find(s.htlcs, id) == i;
    var next := Removed(s, i, toReceiver);
    assert next == Without(s, i, s.htlcs[i].offeredByA != toReceiver);
    ValidateIff(p.a, next);
    FewerIds(p, i);
    UpdatePairSynced(p, proposerA, next);
  }

  lemma FewerIds(p: Pair, i: nat)
    requires Synced(p) && i < |p.a.cur.htlcs|
    ensures forall h :: h in p.a.cur.htlcs[..i] + p.a.cur.htlcs[i + 1..] ==> h.id < p.a.cur.nextHtlcId
  {
    hide EndsMatch, HtlcSum;
  }

  /** An open HTLC is settled if and only if the preimage is that of its hash and the state
      without it, its amount with the side that did not offer it, is acceptable; without an
      HTLC of that id nothing changes. */
  lemma SettleIff(p: Pair, payerA: bool, id: nat, preimage: Preimage, i: nat)
    requires Synced(p)
    ensures var r := SettleHtlc(p, payerA, id, preimage);
            && (!r.1 ==> r.0 == p) && ((forall h :: h in p.a.cur.htlcs ==> h.id != id) ==> !r.1)
            && (FirstWith(p.a.cur.htlcs, id, i) ==>
                  var h, next := p.a.cur.htlcs[i], Without(p.a.cur, i, !p.a.cur.htlcs[i].offeredByA);
                  && (r.1 <==> HashPreimage(preimage) == h.paymentHash && Acceptable(p.a, next))
                  && (r.1 ==> r.0.a.cur == r.0.b.cur == next))
  {
    hide RemoveHtlc, Acceptable, HashPreimage;
    var j := Find(p.a.cur.htlcs, id);
    if j < |p.a.cur.htlcs| { RemoveIs(p, !payerA, id, true, j); }
  }

  /** ... and refunded if and only if the state without it, its amount back with the side that
      offered it, is acceptable. */
  lemma RefundIff(p: Pair, payerA: bool, id: nat, i: nat)
    requires Synced(p)
    ensures var r := FailHtlc(p, payerA, id);
            && (!r.1 ==> r.0 == p) && ((forall h :: h in p.a.cur.htlcs ==> h.id != id) ==> !r.1)
            && (FirstWith(p.a.cur.htlcs, id, i) ==>
                  var next := Without(p.a.cur, i, p.a.cur.htlcs[i].offeredByA);
                  (r.1 <==> Acceptable(p.a, next)) && (r.1 ==> r.0.a.cur == r.0.b.cur == next))
  {
    hide UpdatePair, Acceptable;
    var j := Find(p.a.cur.htlcs, id);
    if j < |p.a.cur.htlcs| { RemoveIs(p, !payerA, id, false, j); }
  }

  // ------------------------------------------------------------------------- routes

  /** The HTLC that hop `i` of a route offers. */
  function HopHtlc(net: Network, route: seq<Hop>, i: nat, pay: Payment): Htlc
    requires i < |route| && RouteOk(net, route) && Offer(net, route, i, pay).0.a.cur.htlcs != []
  {
    var hs := Offer(net, route, i, pay).0.a.cur.htlcs;
    hs[|hs| - 1]
  }

  /** Every hop offers under the same hash; the last one the amount and expiry of the payment,
      every other one the forwarding fee and the delta more than the hop after it. */
  lemma HopTerms(net: Network, net': Network, route: seq<Hop>, i: nat, pay: Payment)
    requires i < |route| && RouteOk(net, route) && AllSynced(net) && Offer(net, route, i, pay).1.Some?
    ensures Offer(net, route, i, pay).0.a.cur.htlcs != []
    ensures var h := HopHtlc(net, route, i, pay);
            && h.paymentHash == HashPreimage(pay.preimage) && h.offeredByA == route[i].payerA
            && (i == |route| - 1 ==> h.amount == pay.amount && h.expiry == pay.finalExpiry)
            && (i < |route| - 1 && RouteOk(net', route) && AllSynced(net') && Offer(net', route, i + 1, pay).1.Some? ==>
                  && Offer(net', route, i + 1, pay).0.a.cur.htlcs != []
                  && var g := HopHtlc(net', route, i + 1, pay);
                     h.amount == g.amount + pay.fee && h.expiry == g.expiry + pay.delta)
  {
    hide AddHtlc, HashPreimage, Synced, HopAmount, HopExpiry;
    HopOffers(net, route, i, pay);
    HopLess(pay, |route|, i);
    if i < |route| - 1 && RouteOk(net', route) && AllSynced(net') && Offer(net', route, i + 1, pay).1.Some? {
      HopOffers(net', route, i + 1, pay);
    }
  }

  lemma HopOffers(net: Network, route: seq<Hop>, i: nat, pay: Payment)
    requires i < |route| && RouteOk(net, route) && AllSynced(net) && Offer(net, route, i, pay).1.Some?
    ensures Offer(net, route, i, pay).0.a.cur.htlcs != []
    ensures var h := HopHtlc(net, route, i, pay);
            && h.paymentHash == HashPreimage(pay.preimage) && h.offeredByA == route[i].payerA
            && h.amount == HopAmount(pay, |route|, i) && h.expiry == HopExpiry(pay, |route|, i)
  {
    hide AddHtlc, HashPreimage, HopAmount, HopExpiry, Synced, Acceptable;
    OfferIff(net[route[i].pair], route[i].payerA, HopAmount(pay, |route|, i), HashPreimage(pay.preimage),
        HopExpiry(pay, |route|, i));
  }

  lemma HopLess(pay: Payment, k: nat, i: nat)
    requires i < k
    ensures i == k - 1 ==> HopAmount(pay, k, i) == pay.amount && HopExpiry(pay, k, i) == pay.finalExpiry
    ensures i < k - 1 ==> HopAmount(pay, k, i) == HopAmount(pay, k, i + 1) + pay.fee &&
                          HopExpiry(pay, k, i) == HopExpiry(pay, k, i + 1) + pay.delta
  {
    assert pay.fee * (k - 1 - i) == pay.fee * (k - 2 - i) + pay.fee;
    assert pay.delta * (k - 1 - i) == pay.delta * (k - 2 - i) + pay.delta;
  }
}
