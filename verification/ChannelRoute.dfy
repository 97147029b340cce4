/** In-process payments over synchronised channels: one update, and a payment routed over
    any number of hops. */
module ChannelRoute {
  import opened Basics
  import opened Symbols
  import opened Channel

  // --------------------------------------------------------------------- one update

  /** The two ends of a channel. */
  datatype Pair = Pair(a: Chan, b: Chan)

  /** The update exchange: both validate, both sign, both revoke. A refusal part-way leaves
      what was done so far. */
  function Update(p: Chan, q: Chan, next: State): (Chan, Chan, bool) {
    if ValidateNext(p, next).Err? || ValidateNext(q, next).Err? then (p, q, false)
    else
      var r1 := ReceiveCommitSig(q, next, next.n, SignRemoteCommitment(p, next));
      if r1.1.Err? || r1.0.pending.None? then (p, r1.0, false)
      else
        var r2 := ReceiveCommitSig(p, next, next.n, SignRemoteCommitment(r1.0, next));
        if r2.1.Err? || r2.0.pending.None? then (r2.0, r1.0, false)
        else
          var p1 := RevokeAndAdvance(r2.0);
          var r3 := ReceiveRevoke(r1.0, p1.1);
          if r3.1.Err? || r3.0.pending.None? then (p1.0, r3.0, false)
          else
            var q1 := RevokeAndAdvance(r3.0);
            var r4 := ReceiveRevoke(p1.0, q1.1);
            (r4.0, q1.0, r4.1.Ok?)
  }

  /** Everything adds up to the capacity, and ids are handed out in order. */
  predicate StateOk(info: Info, s: State) {
    && s.balA + s.balB + HtlcSum(s.htlcs) == info.capacity
    && forall h :: h in s.htlcs ==> h.id < s.nextHtlcId
  }

  /** Both ends agree, nothing is in flight, and each knows the other's next two hashes. */
  predicate EndsMatch(p: Chan, q: Chan) {
    && p.cfg.info == q.cfg.info && p.cfg.isA != q.cfg.isA && p.cfg.remoteKey == q.cfg.key &&
         q.cfg.remoteKey == p.cfg.key
    && p.cur == q.cur && p.pending.None? && q.pending.None?
    && Knows(p, q) && Knows(q, p)
  }

  predicate Knows(p: Chan, q: Chan) {
    var n := q.cur.n;
    n in p.hashes && n + 1 in p.hashes && p.hashes[n] == q.cfg.RevHash(n) && p.hashes[n + 1] == q.cfg.RevHash(n + 1)
  }

  predicate Synced(p: Pair) { p.a.cfg.isA && EndsMatch(p.a, p.b) && StateOk(p.a.cfg.info, p.a.cur) }

  lemma SigAccepted(p: Chan, q: Chan, next: State)
    requires p.cfg.info == q.cfg.info && p.cfg.isA != q.cfg.isA && q.cfg.remoteKey == p.cfg.key
    requires next.n in p.hashes && p.hashes[next.n] == q.cfg.RevHash(next.n)
    ensures Verifies(q.cfg.remoteKey, OwnCommitment(q.cfg, next), SignRemoteCommitment(p, next))
  {
    hide CommitmentTx;
  }

  /** On matching ends an update either is refused with nothing changed or takes both ends
      to the next state. */
  lemma UpdateMatches(p: Chan, q: Chan, next: State)
    requires EndsMatch(p, q)
    ensures var u := Update(p, q, next);
            && (u.2 <==> ValidateNext(p, next).Ok?) && (!u.2 ==> u == (p, q, false))
            && u.0.cfg == p.cfg && u.1.cfg == q.cfg
            && (u.2 ==> EndsMatch(u.0, u.1) && u.0.cur == next)
  {
    hide CommitmentTx, HtlcSum, BadHtlcEntry, SignRemoteCommitment, OwnCommitment, Verifies;
    assert ValidateNext(p, next) == ValidateNext(q, next) by { SameVerdict(p, q, next); }
    if ValidateNext(p, next).Ok? {
      ValidNext(p, next);
      SigAccepted(p, q, next);
      var r1 := ReceiveCommitSig(q, next, next.n, SignRemoteCommitment(p, next));
      SigAccepted(r1.0, p, next);
      HashSizes(p.cfg, next.n + 1);
      HashSizes(q.cfg, next.n + 1);
    }
  }

  lemma SameVerdict(p: Chan, q: Chan, next: State)
    requires EndsMatch(p, q)
    ensures ValidateNext(p, next) == ValidateNext(q, next)
  {
    hide BadHtlcEntry;
  }

  lemma ValidNext(c: Chan, next: State)
    requires ValidateNext(c, next).Ok?
    ensures next.n == c.cur.n + 1 && next.n in c.hashes &&
            next.balA + next.balB + HtlcSum(next.htlcs) == c.cfg.info.capacity
  {
  }

  lemma HashSizes(cfg: Config, n: nat)
    ensures cfg.RevHash(n).Size() == 128
  {
  }

  // ---------------------------------------------------------------- HTLCs on one channel

  function SetBal(s: State, isA: bool, v: nat): State { if isA then s.(balA := v) else s.(balB := v) }

  /** The state that offers an HTLC of `amount` from the side `payerA`. */
  function Offered(s: State, payerA: bool, amount: nat, ph: Digest, expiry: nat): State
    requires Bal(s, payerA) >= amount
  {
    SetBal(s, payerA, Bal(s, payerA) - amount).(n := s.n + 1, nextHtlcId := s.nextHtlcId + 1,
      htlcs := s.htlcs + [Htlc(s.nextHtlcId, payerA, amount, ph, expiry)])
  }

  /** Update a pair, the side `proposerA` proposing. */
  function UpdatePair(p: Pair, proposerA: bool, next: State): (Pair, bool) {
    if proposerA then var u := Update(p.a, p.b, next); (Pair(u.0, u.1), u.2)
    else var u := Update(p.b, p.a, next); (Pair(u.1, u.0), u.2)
  }

  function AddHtlc(p: Pair, payerA: bool, amount: nat, ph: Digest, expiry: nat): (Pair, Option<nat>) {
    var payer := if payerA then p.a else p.b;
    var s := payer.cur;
    var reserve := if payerA then payer.cfg.info.fee else 0;
    if amount == 0 || Bal(s, payerA) < amount + reserve then (p, None)
    else
      var u := UpdatePair(p, payerA, Offered(s, payerA, amount, ph, expiry));
      (u.0, if u.1 then Some(s.nextHtlcId) else None)
  }

  /** The position of the first HTLC with this id, or the length. */
  function Find(hs: seq<Htlc>, id: nat): (i: nat)
    ensures i <= |hs| && (i < |hs| ==> hs[i].id == id) && forall j :: 0 <= j < i ==> hs[j].id != id
  {
    if hs == [] || hs[0].id == id then 0 else 1 + Find(hs[1..], id)
  }

  function Removed(s: State, i: nat, toReceiver: bool): State
    requires i < |s.htlcs|
  {
    var h := s.htlcs[i];
    var creditA := if toReceiver then !h.offeredByA else h.offeredByA;
    SetBal(s, creditA, Bal(s, creditA) + h.amount).(n := s.n + 1, htlcs := s.htlcs[..i] + s.htlcs[i + 1..])
  }

  function RemoveHtlc(p: Pair, proposerA: bool, id: nat, toReceiver: bool): (Pair, bool) {
    var s := if proposerA then p.a.cur else p.b.cur;
    var i := Find(s.htlcs, id);
    if i == |s.htlcs| then (p, false) else UpdatePair(p, proposerA, Removed(s, i, toReceiver))
  }

  /** The payee settles against a preimage that the payer checks. */
  function SettleHtlc(p: Pair, payerA: bool, id: nat, preimage: Preimage): (Pair, bool) {
    var s := if payerA then p.a.cur else p.b.cur;
    var i := Find(s.htlcs, id);
    if i == |s.htlcs| || HashPreimage(preimage) != s.htlcs[i].paymentHash then (p, false)
        else RemoveHtlc(p, !payerA, id, true)
  }

  function FailHtlc(p: Pair, payerA: bool, id: nat): (Pair, bool) { RemoveHtlc(p, !payerA, id, false) }

  lemma UpdatePairSynced(p: Pair, proposerA: bool, next: State)
    requires Synced(p) && forall h :: h in next.htlcs ==> h.id < next.nextHtlcId
    ensures var u := UpdatePair(p, proposerA, next);
            && (u.1 <==> ValidateNext(p.a, next).Ok?) && (!u.1 ==> u.0 == p) && Synced(u.0)
            && (u.1 ==> u.0.a.cur == next) && u.0.a.cfg == p.a.cfg && u.0.b.cfg == p.b.cfg
  {
    hide Update, ValidateNext, Knows;
    SameVerdict(p.a, p.b, next);
    assert EndsMatch(p.b, p.a);
    if proposerA { UpdateMatches(p.a, p.b, next); } else { UpdateMatches(p.b, p.a, next); }
    if ValidateNext(p.a, next).Ok? { ValidNext(p.a, next); }
  }

  lemma {:induction false} SumAppend(hs: seq<Htlc>, h: Htlc)
    ensures HtlcSum(hs + [h]) == HtlcSum(hs) + h.amount
  {
    if hs == [] { assert hs + [h] == [h] && [h][1..] == []; }
    else { SumAppend(hs[1..], h); assert (hs + [h])[1..] == hs[1..] + [h]; }
  }

  /** The last HTLC is the one just offered. */
  lemma LastFound(s: State, h: Htlc, id: nat)
    requires (forall g :: g in s.htlcs ==> g.id < id) && h.id == id
    ensures Find(s.htlcs + [h], id) == |s.htlcs|
  {
    var hs := s.htlcs + [h];
    var i := Find(hs, id);
    assert hs[|s.htlcs|] == h;
  }

  /** What one channel looks like: balances and HTLCs, without its counters. */
  datatype Core = Core(balA: nat, balB: nat, htlcs: seq<Htlc>)

  function CoreOf(s: State): Core { Core(s.balA, s.balB, s.htlcs) }

  /** Offering succeeds or changes nothing, and leaves a state with one HTLC more. */
  lemma AddHtlcFacts(p: Pair, payerA: bool, amount: nat, ph: Digest, expiry: nat)
    requires Synced(p)
    ensures var r := AddHtlc(p, payerA, amount, ph, expiry);
            && Synced(r.0) && r.0.a.cfg == p.a.cfg && r.0.b.cfg == p.b.cfg && (r.1.None? ==> r.0 == p)
            && (r.1.Some? ==>
                  && r.1.value == p.a.cur.nextHtlcId && amount > 0 && Bal(p.a.cur, payerA) >= amount
                  && r.0.a.cur == Offered(p.a.cur, payerA, amount, ph, expiry)
                  && ValidateNext(p.a, Offered(p.a.cur, payerA, amount, ph, expiry)).Ok?)
  {
    hide UpdatePair, ValidateNext, Knows;
    var s := p.a.cur;
    if Bal(s, payerA) >= amount {
      var next := Offered(s, payerA, amount, ph, expiry);
      forall h | h in next.htlcs ensures h.id < next.nextHtlcId { assert h in s.htlcs || h == next.htlcs[|s.htlcs|]; }
      UpdatePairSynced(p, payerA, next);
    }
  }

  /** Removing an HTLC, possible or not, leaves the ends synchronised. */
  lemma RemoveSynced(p: Pair, proposerA: bool, id: nat, toReceiver: bool)
    requires Synced(p)
    ensures var r := RemoveHtlc(p, proposerA, id, toReceiver).0;
            Synced(r) && r.a.cfg == p.a.cfg && r.b.cfg == p.b.cfg
  {
    hide UpdatePair, Knows, HtlcSum;
    var s := p.a.cur;
    var i := Find(s.htlcs, id);
    if i < |s.htlcs| {
      var next := Removed(s, i, toReceiver);
      forall h | h in next.htlcs ensures h.id < next.nextHtlcId { assert h in s.htlcs; }
      UpdatePairSynced(p, proposerA, next);
    }
  }

  /** A state whose last HTLC was validly offered can lose it again, either way. */
  lemma RemoveLast(p: Pair, proposerA: bool, toReceiver: bool, hs: seq<Htlc>, h: Htlc)
    requires Synced(p) && p.a.cur.htlcs == hs + [h] && (forall g :: g in hs ==> g.id < h.id)
    requires p.a.cur.balA >= p.a.cfg.info.fee && |hs| <= MAX_HTLCS && forall g :: g in hs ==> !BadHtlcEntry(g)
    ensures var r := RemoveHtlc(p, proposerA, h.id, toReceiver);
            var creditA := if toReceiver then !h.offeredByA else h.offeredByA;
            && r.1 && Synced(r.0) && r.0.a.cfg == p.a.cfg && r.0.b.cfg == p.b.cfg
            && CoreOf(r.0.a.cur) == CoreOf(SetBal(p.a.cur, creditA, Bal(p.a.cur, creditA) + h.amount).(htlcs := hs))
  {
    hide UpdatePair, BadHtlcEntry;
    var s := p.a.cur;
    LastFound(s.(htlcs := hs), h, h.id);
    var next := Removed(s, |hs|, toReceiver);
    assert next.htlcs == hs;
    SumAppend(hs, h);
    forall g | g in next.htlcs ensures g.id < next.nextHtlcId { assert g in s.htlcs; }
    UpdatePairSynced(p, proposerA, next);
    assert ValidateNext(p.a, next).Ok?;
  }

  // ---------------------------------------------------------------------------- routes

  /** A hop over channel `pair` of the network, paid by its A or its B end. */
  datatype Hop = Hop(pair: nat, payerA: bool)

  datatype Payment = Payment(amount: nat, preimage: Preimage, finalExpiry: nat, delta: nat, fee: nat)

  datatype Result = Paid | Refused | Stuck

  type Network = seq<Pair>

  predicate RouteOk(net: Network, route: seq<Hop>) { forall i :: 0 <= i < |route| ==> route[i].pair < |net| }

  /** What hop `i` carries: the amount and one fee for each forwarder after it. */
  function HopAmount(pay: Payment, k: nat, i: nat): nat
    requires i < k
  {
    pay.amount + pay.fee * (k - 1 - i)
  }

  function HopExpiry(pay: Payment, k: nat, i: nat): nat
    requires i < k
  {
    pay.finalExpiry + pay.delta * (k - 1 - i)
  }

  function Offer(net: Network, route: seq<Hop>, i: nat, pay: Payment): (Pair, Option<nat>)
    requires i < |route| && RouteOk(net, route)
  {
    AddHtlc(net[route[i].pair], route[i].payerA, HopAmount(pay, |route|, i), HashPreimage(pay.preimage),
        HopExpiry(pay, |route|, i))
  }

  /** Undo or settle hop `i` once the hops after it are done. */
  function Conclude(r: (Network, Result), hop: Hop, id: nat, pay: Payment): (Network, Result)
    requires hop.pair < |r.0|
  {
    match r.1
    case Stuck => r
    case Refused => (r.0[hop.pair := FailHtlc(r.0[hop.pair], hop.payerA, id).0], Refused)
    case Paid =>
      var s := SettleHtlc(r.0[hop.pair], hop.payerA, id, pay.preimage);
      (r.0[hop.pair := s.0], if s.1 then Paid else Stuck)
  }

  /** The payment from hop `i` on: offer, go on, then settle or undo on the way back. */
  function RouteFrom(net: Network, route: seq<Hop>, i: nat, pay: Payment): (r: (Network, Result))
    requires i <= |route| && RouteOk(net, route)
    ensures |r.0| == |net|
    decreases |route| - i
  {
    if i == |route| then (net, Paid)
    else
      var o := Offer(net, route, i, pay);
      var net1 := net[route[i].pair := o.0];
      if o.1.None? then (net1, Refused) else Conclude(RouteFrom(net1, route, i + 1, pay), route[i], o.1.value, pay)
  }

  predicate AllSynced(net: Network) { forall j :: 0 <= j < |net| ==> Synced(net[j]) }

  /** Same channels and same HTLCs; funders that could pay their fee still can. */
  predicate Related(x: Pair, y: Pair) {
    && y.a.cfg == x.a.cfg && y.b.cfg == x.b.cfg && y.a.cur.htlcs == x.a.cur.htlcs
    && (x.a.cur.balA >= x.a.cfg.info.fee ==> y.a.cur.balA >= x.a.cfg.info.fee)
  }

  predicate NetRelated(net: Network, net2: Network) {
    |net2| == |net| && forall j :: 0 <= j < |net| ==> Related(net[j], net2[j])
  }

  predicate SameCores(net: Network, net2: Network) {
    |net2| == |net| && forall j :: 0 <= j < |net| ==> CoreOf(net2[j].a.cur) == CoreOf(net[j].a.cur)
  }

  // ------------------------------------------------------------------------- holdings

  /** What address `x` owns of one channel, HTLCs aside. */
  function Share(p: Pair, x: string): nat {
    (if p.a.cfg.info.addrA == x then p.a.cur.balA else 0) + (if p.a.cfg.info.addrB == x then p.a.cur.balB else 0)
  }

  function Holdings(net: Network, x: string): nat {
    if net == [] then 0 else Holdings(net[..|net| - 1], x) + Share(net[|net| - 1], x)
  }

  lemma {:induction false} HoldingsUpdate(net: Network, j: nat, p: Pair, x: string)
    requires j < |net|
    ensures Holdings(net[j := p], x) == Holdings(net, x) - Share(net[j], x) + Share(p, x)
  {
    hide Share;
    var n := |net| - 1;
    if j == n { assert net[j := p][..n] == net[..n]; }
    else {
      HoldingsUpdate(net[..n], j, p, x);
      assert net[j := p][..n] == net[..n][j := p];
    }
  }

  function EndAddr(p: Pair, isA: bool): string { if isA then p.a.cfg.info.addrA else p.a.cfg.info.addrB }

  function PayerOf(net: Network, h: Hop): string
    requires h.pair < |net|
  {
    EndAddr(net[h.pair], h.payerA)
  }

  function PayeeOf(net: Network, h: Hop): string
    requires h.pair < |net|
  {
    EndAddr(net[h.pair], !h.payerA)
  }

  /** What address `x` gains from the hops from `i` on. */
  function Gain(net: Network, route: seq<Hop>, i: nat, pay: Payment, x: string): int
    requires i <= |route| && RouteOk(net, route)
    decreases |route| - i
  {
    if i == |route| then 0
    else
      (if PayeeOf(net, route[i]) == x then HopAmount(pay, |route|, i) else 0)
      - (if PayerOf(net, route[i]) == x then HopAmount(pay, |route|, i) else 0)
      + Gain(net, route, i + 1, pay, x)
  }

  predicate SameEnds(net: Network, net2: Network) {
    |net2| == |net| && forall j :: 0 <= j < |net| ==> net2[j].a.cfg == net[j].a.cfg && net2[j].b.cfg == net[j].b.cfg
  }

  lemma {:induction false} GainFrame(net: Network, net2: Network, route: seq<Hop>, i: nat, pay: Payment, x: string)
    requires i <= |route| && RouteOk(net, route) && RouteOk(net2, route) && SameEnds(net, net2)
    ensures Gain(net2, route, i, pay, x) == Gain(net, route, i, pay, x)
    decreases |route| - i
  {
    hide HopAmount;
    if i < |route| { GainFrame(net, net2, route, i + 1, pay, x); }
  }
}
