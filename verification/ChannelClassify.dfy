/** What an update proposed by the peer can do to this side once it is accepted. */
module ChannelClassify {
  import opened Basics
  import opened Symbols
  import opened Channel
  import opened ChannelNode

  lemma {:induction false} ByIdKeys(hs: seq<Htlc>)
    ensures forall id :: id in ById(hs) ==> ById(hs)[id].id == id && ById(hs)[id] in hs
  {
    if hs != [] { ByIdKeys(hs[..|hs| - 1]); assert forall h :: h in hs[..|hs| - 1] ==> h in hs; }
  }

  /** The entry found is that of the only id there is. */
  lemma {:induction false} SoleIs(hs: seq<Htlc>, m: map<nat, Htlc>)
    requires Sole(hs, m).Some?
    ensures exists id :: id in m && m[id] == Sole(hs, m).value
  {
    if hs[0].id !in m { SoleIs(hs[1..], m); }
  }

  lemma OnlyOne(m: map<nat, Htlc>, a: nat, b: nat)
    requires |m| == 1 && a in m && b in m
    ensures a == b
  {
    if a != b {
      assert {a, b} <= m.Keys;
      Subset({a, b}, m.Keys);
    }
  }

  lemma Subset(a: set<nat>, b: set<nat>)
    requires a <= b
    ensures |a| <= |b|
  {
    assert b == a + (b - a);
  }

  lemma SoleOnly(hs: seq<Htlc>, m: map<nat, Htlc>, id: nat)
    requires Sole(hs, m).Some? && |m| == 1 && id in m
    ensures m[id] == Sole(hs, m).value
  {
    SoleIs(hs, m);
    var j :| j in m && m[j] == Sole(hs, m).value;
    OnlyOne(m, id, j);
  }

  /** An HTLC of ours was given back, or claimed with its preimage. */
  predicate OursClosed(c: Chan, next: State, preimage: Preimage, h: Htlc) {
    var me := c.cfg.isA;
    && h.offeredByA == me
    && (Bal(next, me) == Bal(c.cur, me) + h.amount ||
        (HashPreimage(preimage) == h.paymentHash && Bal(next, me) == Bal(c.cur, me)))
  }

  /** An HTLC that was kept, or one of ours given back or claimed. */
  predicate Accounted(c: Chan, next: State, preimage: Preimage, h: Htlc) {
    (h.id in ById(next.htlcs) && SameTerms(h, ById(next.htlcs)[h.id])) || OursClosed(c, next, preimage, h)
  }

  /** A new HTLC must be the peer's, paid for by the peer, and not about to expire. */
  predicate PaidByPeer(c: Chan, next: State, height: nat, h: Htlc) {
    var me := c.cfg.isA;
    && h.offeredByA != me && h.id == c.cur.nextHtlcId && h.expiry > height + 1
    && Bal(next, me) == Bal(c.cur, me) && Bal(next, !me) + h.amount == Bal(c.cur, !me)
  }

  /** An accepted update never lowers this side's balance and, by id, adds or removes at
      most one HTLC; every HTLC stays on its terms, except one this side offered, which is
      either refunded in full or claimed with its preimage; and a new HTLC is offered and
      funded by the peer. */
  lemma PeerCannotTake(c: Chan, next: State, preimage: Preimage, height: nat)
    requires !Classify(c, next, preimage, height).Reject?
    ensures Bal(next, c.cfg.isA) >= Bal(c.cur, c.cfg.isA)
    ensures |Missing(next.htlcs, ById(c.cur.htlcs))| + |Missing(c.cur.htlcs, ById(next.htlcs))| <= 1
    ensures forall id :: id in ById(c.cur.htlcs) ==> Accounted(c, next, preimage, ById(c.cur.htlcs)[id])
    ensures forall id :: id in ById(next.htlcs) && id !in ById(c.cur.htlcs) ==>
            PaidByPeer(c, next, height, ById(next.htlcs)[id])
  {
    hide ById, Sole, HashPreimage;
    var before, after := ById(c.cur.htlcs), ById(next.htlcs);
    var added, removed := Missing(next.htlcs, before), Missing(c.cur.htlcs, after);
    ByIdKeys(c.cur.htlcs);
    forall id | id in before ensures Accounted(c, next, preimage, before[id]) {
      if id !in after {
        assert id in removed;
        SoleOnly(c.cur.htlcs, removed, id);
      }
    }
    forall id | id in after && id !in before ensures PaidByPeer(c, next, height, after[id]) {
      assert id in added;
      SoleOnly(next.htlcs, added, id);
    }
  }
}
