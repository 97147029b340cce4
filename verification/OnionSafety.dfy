/** What opens as an onion packet and what does not, and which routes can be wrapped. */
module OnionSafety {
  import opened Basics
  import opened Onion
  import opened OnionRoute

  // ------------------------------------------------------------------------- peeling

  /** Byte `i` of the decrypted routing block, which is one entry longer than the block. */
  function PlainAt(s: Suite, ss: Bytes, packet: Bytes, i: nat): Byte
    requires Lawful(s) && |packet| == PACKET && i < ROUTING + ENTRY
  {
    (if i < ROUTING then packet[KEM_CT + i] else 0) ^ s.stream(s.kdf(ss, RHO, 32), ROUTING + ENTRY)[i]
  }

  function PlainOf(s: Suite, ss: Bytes, packet: Bytes): (b: Bytes)
    requires Lawful(s) && |packet| == PACKET
    ensures |b| == ROUTING + ENTRY
  {
    seq(ROUTING + ENTRY, i requires 0 <= i < ROUTING + ENTRY => PlainAt(s, ss, packet, i))
  }

  /** The packet ends with the MAC of its routing block and the bound data, under a key
      derived from the shared secret. */
  predicate Authentic(s: Suite, ss: Bytes, packet: Bytes, assoc: string)
    requires |packet| == PACKET
  {
    packet[KEM_CT + ROUTING..] == s.mac(s.kdf(ss, MU, 32), packet[KEM_CT..KEM_CT + ROUTING], assoc)
  }

  lemma PlainIs(s: Suite, ss: Bytes, packet: Bytes)
    requires Lawful(s) && |packet| == PACKET
    ensures Mask(packet[KEM_CT..KEM_CT + ROUTING] + Zeros(ENTRY), LayerOf(s, packet[..KEM_CT], ss).ks, 0) ==
            PlainOf(s, ss, packet)
  {
    var r, ks := packet[KEM_CT..KEM_CT + ROUTING], LayerOf(s, packet[..KEM_CT], ss).ks;
    var m, p := Mask(r + Zeros(ENTRY), ks, 0), PlainOf(s, ss, packet);
    forall i | 0 <= i < ROUTING + ENTRY ensures m[i] == p[i] {
      assert (r + Zeros(ENTRY))[i] == if i < ROUTING then packet[KEM_CT + i] else 0;
    }
  }

  /** When each error is returned. */
  lemma PeelErrors(s: Suite, sk: Bytes, packet: Bytes, assoc: string)
    requires Lawful(s)
    ensures var res := Peel(s, sk, packet, assoc);
            && (res == Err(BadSize) <==> |packet| != PACKET)
            && (|packet| == PACKET ==>
                  var ss := s.decaps(sk, packet[..KEM_CT]);
                  && (res == Err(BadKey) <==> ss.None?)
                  && (ss.Some? ==>
                        var ok, b := Authentic(s, ss.value, packet, assoc), PlainOf(s, ss.value, packet);
                        && (res == Err(BadMac) <==> !ok)
                        && (res == Err(BadHeader) <==> ok && b[0] > 1)
                        && (res == Err(MissingNext) <==> ok && b[0] == 0 && b[1] == 0)
                        && (res.Ok? <==> ok && (b[0] == 1 || (b[0] == 0 && b[1] != 0)))))
  {
    hide Mask, Get64, PlainOf, Lawful;
    if |packet| == PACKET {
      assert packet[PACKET - MAC..] == packet[KEM_CT + ROUTING..];
      var ss := s.decaps(sk, packet[..KEM_CT]);
      if ss.Some? {
        PlainIs(s, ss.value, packet);
        EmptyName(PlainOf(s, ss.value, packet));
      }
    }
  }

  lemma EmptyName(b: Bytes)
    requires |b| == ROUTING + ENTRY
    ensures CString(b[1..33]) == [] <==> b[1] == 0
  {
    assert b[1..33][0] == b[1];
  }

  /** What is read: the flag, the name up to its first zero byte, amount and expiry; the next
      packet is the ciphertext of the entry, the block that follows it, and the entry's tag. */
  lemma PeelReads(s: Suite, sk: Bytes, packet: Bytes, assoc: string)
    requires Lawful(s) && Peel(s, sk, packet, assoc).Ok?
    ensures |packet| == PACKET && s.decaps(sk, packet[..KEM_CT]).Some?
    ensures var ss := s.decaps(sk, packet[..KEM_CT]).value;
            var b, p := PlainOf(s, ss, packet), Peel(s, sk, packet, assoc).value;
            && p.final == (b[0] == 1) && p.nextChan == CString(b[1..33]) && p.amount == Get64(b[33..41])
            && p.expiry == Get64(b[41..49]) && p.replayTag == s.kdf(ss, REPLAY, 16)
            && (if p.final then p.nextPacket == []
                else p.nextPacket == b[96..1664] + b[1664..] + b[64..96] && |p.nextPacket| == PACKET)
  {
    hide Mask, Get64, PlainOf, CString, Lawful;
    var ss := s.decaps(sk, packet[..KEM_CT]).value;
    PlainIs(s, ss, packet);
  }

  /** No other block or bound data has this tag under this key. */
  ghost predicate Unforged(s: Suite, mu: Bytes, block: Bytes, assoc: string) {
    forall b, a :: s.mac(mu, b, a) == s.mac(mu, block, assoc) ==> b == block && a == assoc
  }

  /** At hop `k` the packet made for it is the only one with its ciphertext and tag that
      opens, and it opens under no other bound data. */
  lemma OnlyAsBuilt(r: Route, k: nat, sk: Bytes, ss: Bytes, packet: Bytes, assoc: string)
    requires r.Valid() && k < |r.hops| && Unforged(r.s, r.layers[k].mu, r.Block(k), r.assoc)
    requires r.s.decaps(sk, r.layers[k].ct) == Some(ss) && r.layers[k] == LayerOf(r.s, r.layers[k].ct, ss)
    requires |packet| == PACKET && packet[..KEM_CT] == r.layers[k].ct && packet[KEM_CT + ROUTING..] == r.Tag(k)
    ensures Peel(r.s, sk, packet, assoc).Ok? ==> packet == r.Packet(k) && assoc == r.assoc
    ensures packet != r.Packet(k) || assoc != r.assoc ==> Peel(r.s, sk, packet, assoc) == Err(BadMac)
  {
    hide Mask, Header, Lawful, Route.Block, Route.Entry, Peel, PlainOf;
    PeelErrors(r.s, sk, packet, assoc);
    TagIs(r, k);
    var block := packet[KEM_CT..KEM_CT + ROUTING];
    assert packet == packet[..KEM_CT] + block + packet[KEM_CT + ROUTING..];
    if Authentic(r.s, ss, packet, assoc) { assert block == r.Block(k) && assoc == r.assoc; }
  }

  lemma TagIs(r: Route, k: nat)
    requires r.Valid() && k < |r.hops|
    ensures r.Tag(k) == r.s.mac(r.layers[k].mu, r.Block(k), r.assoc)
  {
    hide Lawful, Route.Block;
  }

  // ------------------------------------------------------------------------ wrapping

  /** A key that can be encapsulated to, and a name of at most 32 bytes, which exactly the
      last hop does without. */
  predicate HopFine(s: Suite, hops: seq<Hop>, coins: seq<Coins>, i: nat)
    requires i < |hops| <= |coins|
  {
    && s.encaps(hops[i].pubkey, coins[i]).Some? && |hops[i].nextChan| <= 32
    && (hops[i].nextChan == [] <==> i == |hops| - 1)
  }

  /** A route can be wrapped if and only if it has one to four hops and each is fine. */
  lemma WrappableIff(s: Suite, hops: seq<Hop>, coins: seq<Coins>)
    requires |hops| <= |coins|
    ensures Wrappable(s, hops, coins) <==>
            1 <= |hops| <= 4 && forall i :: 0 <= i < |hops| ==> HopFine(s, hops, coins, i)
  {
    if Wrappable(s, hops, coins) {
      forall i | 0 <= i < |hops| ensures HopFine(s, hops, coins, i) { assert HopError(s, hops, coins, i).None?; }
    }
    if 1 <= |hops| <= 4 && forall i :: 0 <= i < |hops| ==> HopFine(s, hops, coins, i) {
      forall i | 0 <= i < |hops| ensures HopError(s, hops, coins, i).None? { assert HopFine(s, hops, coins, i); }
    }
  }

  /** Otherwise the first hop that is not fine is reported. */
  lemma {:induction false} FirstErrorIs(s: Suite, hops: seq<Hop>, coins: seq<Coins>, from: nat, i: nat)
    requires from <= i < |hops| <= |coins| && !HopFine(s, hops, coins, i)
    requires forall j :: from <= j < i ==> HopFine(s, hops, coins, j)
    ensures FirstError(s, hops, coins, from) ==
            Some(if s.encaps(hops[i].pubkey, coins[i]).None? then BadRouteKey(i) else BadHopChannel)
    decreases i - from
  {
    if from < i {
      assert HopFine(s, hops, coins, from);
      FirstErrorIs(s, hops, coins, from + 1, i);
    }
  }
}
