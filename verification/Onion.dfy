/** Fixed-size layered routing packets: `Build` wraps a route, `Peel` removes one layer.

    The primitives (KEM, key derivation, key stream, MAC) are a parameter; all that is
    used of them is that decapsulation inverts encapsulation and that outputs have
    their stated lengths. */
module Onion {
  import opened Basics

  type Byte = bv8
  type Bytes = seq<Byte>

  const MAX_HOPS: nat := 4
  const KEM_CT: nat := 1568
  const HDR: nat := 64
  const MAC: nat := 32
  const ENTRY: nat := HDR + MAC + KEM_CT
  const ROUTING: nat := MAX_HOPS * ENTRY
  const PACKET: nat := KEM_CT + ROUTING + MAC
  const CHAN_MAX: nat := 32

  const RHO := "ADD-ONION rho"
  const MU := "ADD-ONION mu"
  const REPLAY := "ADD-ONION replay"

  type Coins = nat

  /** `encaps` yields a ciphertext and a shared secret, or fails on a malformed key;
      `pub` is the public key of a secret key. */
  datatype Suite = Suite(
    pub: Bytes -> Bytes,
    encaps: (Bytes, Coins) -> Option<(Bytes, Bytes)>,
    decaps: (Bytes, Bytes) -> Option<Bytes>,
    kdf: (Bytes, string, nat) -> Bytes,
    stream: (Bytes, nat) -> Bytes,
    mac: (Bytes, Bytes, string) -> Bytes)

  ghost predicate Lawful(s: Suite) {
    && (forall pk, coins :: var e := s.encaps(pk, coins); e.Some? ==> |e.value.0| == KEM_CT)
    && (forall sk, coins :: var e := s.encaps(s.pub(sk), coins); e.Some? ==> s.decaps(sk, e.value.0) == Some(e.value.1))
    && (forall key, n :: |s.stream(key, n)| == n)
    && (forall key, r, assoc :: |s.mac(key, r, assoc)| == MAC)
  }

  datatype Hop = Hop(pubkey: Bytes, nextChan: Bytes, amount: bv64, expiry: bv64)

  /** What a hop's shared secret yields. */
  datatype Layer = Layer(ct: Bytes, mu: Bytes, ks: Bytes)

  datatype OnionError =
    | HopCount | BadRouteKey(hop: nat) | BadHopChannel | BadSize | BadKey | BadMac | BadHeader | MissingNext

  datatype Result<+T> = Ok(value: T) | Err(error: OnionError)

  datatype Peeled = Peeled(final: bool, nextChan: Bytes, amount: bv64, expiry: bv64, nextPacket: Bytes,
      replayTag: Bytes)

  // ------------------------------------------------------------------- bytes

  function Zeros(n: nat): (r: Bytes)
    ensures |r| == n
  {
    seq(n, _ => 0)
  }

  /** `a` with the key stream from `off` on. */
  function Mask(a: Bytes, ks: Bytes, off: nat): (r: Bytes)
    requires off + |a| <= |ks|
    ensures |r| == |a| && forall j :: 0 <= j < |a| ==> r[j] == a[j] ^ ks[off + j]
  {
    seq(|a|, j requires 0 <= j < |a| => a[j] ^ ks[off + j])
  }

  function Put64(v: bv64): (r: Bytes)
    ensures |r| == 8
  {
    [((v >> 56) & 0xff) as bv8, ((v >> 48) & 0xff) as bv8, ((v >> 40) & 0xff) as bv8, ((v >> 32) & 0xff) as bv8,
     ((v >> 24) & 0xff) as bv8, ((v >> 16) & 0xff) as bv8, ((v >> 8) & 0xff) as bv8, (v & 0xff) as bv8]
  }

  function Get64(b: Bytes): bv64
    requires |b| == 8
  {
    ((b[0] as bv64) << 56) | ((b[1] as bv64) << 48) | ((b[2] as bv64) << 40) | ((b[3] as bv64) << 32) |
    ((b[4] as bv64) << 24) | ((b[5] as bv64) << 16) | ((b[6] as bv64) << 8) | (b[7] as bv64)
  }

  /** The first byte is the most significant one. */
  lemma BigEndian(b: Bytes)
    requires |b| == 8
    ensures var v := Get64(b);
            && (v >> 56) & 0xff == b[0] as bv64 && (v >> 48) & 0xff == b[1] as bv64
            && (v >> 40) & 0xff == b[2] as bv64 && (v >> 32) & 0xff == b[3] as bv64
            && (v >> 24) & 0xff == b[4] as bv64 && (v >> 16) & 0xff == b[5] as bv64
            && (v >> 8) & 0xff == b[6] as bv64 && v & 0xff == b[7] as bv64
  {
  }

  lemma Get64Put64(v: bv64)
    ensures Get64(Put64(v)) == v
  {
  }

  /** The text before the first zero byte. */
  function CString(b: Bytes): (r: Bytes)
    ensures r <= b && 0 !in r && (|r| < |b| ==> b[|r|] == 0)
  {
    if b == [] || b[0] == 0 then [] else [b[0]] + CString(b[1..])
  }

  // ------------------------------------------------------------------ layout

  /** final flag, channel in 32 bytes, amount, expiry, zeros. */
  function Header(hop: Hop, final: bool): (h: Bytes)
    requires |hop.nextChan| <= CHAN_MAX
    ensures |h| == HDR
  {
    [if final then 1 else 0] + (hop.nextChan + Zeros(CHAN_MAX - |hop.nextChan|)) +
    Put64(hop.amount) + Put64(hop.expiry) + Zeros(HDR - 49)
  }

  predicate Sized(layers: seq<Layer>) {
    |layers| <= MAX_HOPS && forall i :: 0 <= i < |layers| ==>
        |layers[i].ct| == KEM_CT && |layers[i].ks| == ROUTING + ENTRY
  }

  predicate Named(hops: seq<Hop>) {
    forall i :: 0 <= i < |hops| ==> |hops[i].nextChan| <= CHAN_MAX && (i + 1 < |hops| <==> hops[i].nextChan != [])
  }

  /** The bytes the first `m` hops' shifts leave at the end of the block. */
  function Filler(layers: seq<Layer>, m: nat): (f: Bytes)
    requires Sized(layers) && m <= |layers|
    ensures |f| == m * ENTRY
  {
    if m == 0 then []
    else
      var f := Filler(layers, m - 1);
      Mask(f + Zeros(ENTRY), layers[m - 1].ks, ROUTING - |f|)
  }

  /** A route being wrapped: hops, layers, padding of the last block, bound data. */
  datatype Route = Route(s: Suite, hops: seq<Hop>, layers: seq<Layer>, pad: Bytes, assoc: string) {
    ghost predicate Valid() {
      && Lawful(s) && Sized(layers) && Named(hops) && 0 < |hops| == |layers|
      && |pad| == ROUTING - (|hops| - 1) * ENTRY - ENTRY
    }

    /** The routing block hop `k` receives. */
    ghost function Block(k: nat): (r: Bytes)
      requires Valid() && k < |hops|
      ensures |r| == ROUTING
      decreases |hops| - k, 1
    {
      if k + 1 == |hops| then
        var plain := Header(hops[k], true) + Zeros(ENTRY - HDR) + pad;
        Mask(plain, layers[k].ks, 0) + Filler(layers, k)
      else
        Mask((Entry(k) + Block(k + 1))[..ROUTING], layers[k].ks, 0)
    }

    /** Hop `k`'s entry: its header, then the MAC and ciphertext of the next packet. */
    ghost function Entry(k: nat): (e: Bytes)
      requires Valid() && k + 1 < |hops|
      ensures |e| == ENTRY
      decreases |hops| - k, 0
    {
      Header(hops[k], false) + Tag(k + 1) + layers[k + 1].ct
    }

    ghost function Tag(k: nat): (m: Bytes)
      requires Valid() && k < |hops|
      ensures |m| == MAC
      decreases |hops| - k, 2
    {
      s.mac(layers[k].mu, Block(k), assoc)
    }

    /** The packet hop `k` receives. */
    ghost function Packet(k: nat): (p: Bytes)
      requires Valid() && k < |hops|
      ensures |p| == PACKET
    {
      layers[k].ct + Block(k) + Tag(k)
    }
  }

  // --------------------------------------------------- peeling undoes wrapping

  lemma XorTwice(x: bv8, y: bv8)
    ensures (x ^ y) ^ y == x && 0 ^ y == y
  {
  }

  lemma MaskTwice(a: Bytes, ks: Bytes, off: nat)
    requires off + |a| <= |ks|
    ensures Mask(Mask(a, ks, off), ks, off) == a
  {
    forall j | 0 <= j < |a| ensures Mask(Mask(a, ks, off), ks, off)[j] == a[j] { XorTwice(a[j], ks[off + j]); }
  }

  lemma MaskSplit(a: Bytes, b: Bytes, ks: Bytes, off: nat)
    requires off + |a| + |b| <= |ks|
    ensures Mask(a + b, ks, off) == Mask(a, ks, off) + Mask(b, ks, off + |a|)
  {
  }

  lemma MaskZeros(n: nat, ks: Bytes, off: nat)
    requires off + n <= |ks|
    ensures Mask(Zeros(n), ks, off) == ks[off..off + n]
  {
    forall j | 0 <= j < n ensures Mask(Zeros(n), ks, off)[j] == ks[off + j] { XorTwice(0, ks[off + j]); }
  }

  /** One shift: if the next block ends with the filler extended under this hop's key
      stream, then this hop's block ends with the filler ... */
  lemma {:induction false} ShiftTail(e: Bytes, next: Bytes, f: Bytes, ks: Bytes)
    requires |f| + |e| <= |next| && |ks| == |next| + |e|
    requires next[|next| - |f| - |e|..] == Mask(f + Zeros(|e|), ks, |next| - |f|)
    ensures Mask((e + next)[..|next|], ks, 0)[|next| - |f|..] == f
  {
    var n, l := |next|, |f|;
    var block := Mask((e + next)[..n], ks, 0);
    forall j | 0 <= j < l ensures block[n - l..][j] == f[j] {
      assert next[n - l - |e|..][j] == f[j] ^ ks[n - l + j];
      XorTwice(f[j], ks[n - l + j]);
    }
  }

  /** ... and the key stream past the block restores what the shift cut off. */
  lemma {:induction false} ShiftPlain(e: Bytes, next: Bytes, f: Bytes, ks: Bytes)
    requires |f| + |e| <= |next| && |ks| == |next| + |e|
    requires next[|next| - |f| - |e|..] == Mask(f + Zeros(|e|), ks, |next| - |f|)
    ensures Mask(Mask((e + next)[..|next|], ks, 0) + Zeros(|e|), ks, 0) == e + next
  {
    var n, whole := |next|, e + next;
    MaskSplit(Mask(whole[..n], ks, 0), Zeros(|e|), ks, 0);
    MaskTwice(whole[..n], ks, 0);
    MaskZeros(|e|, ks, n);
    forall j | 0 <= j < |e| ensures whole[n..][j] == ks[n + j] {
      assert whole[n + j] == next[n - |f| - |e|..][|f| + j];
      XorTwice(0, ks[n + j]);
    }
    assert whole == whole[..n] + whole[n..];
  }

  /** The filler is what the block of hop `k` ends with, for every hop. */
  lemma {:induction false} FillerTail(r: Route, k: nat)
    requires r.Valid() && k < |r.hops|
    ensures r.Block(k)[ROUTING - k * ENTRY..] == Filler(r.layers, k)
    decreases |r.hops| - k
  {
    hide Lawful, Named, Mask, Filler, Route.Block, Route.Entry, Route.Tag;
    if k + 1 < |r.hops| {
      FillerTail(r, k + 1);
      FillerStep(r.layers, k);
      BlockStep(r, k);
      ShiftTail(r.Entry(k), r.Block(k + 1), Filler(r.layers, k), r.layers[k].ks);
    } else {
      LastTail(r);
    }
  }

  lemma FillerStep(layers: seq<Layer>, k: nat)
    requires Sized(layers) && k < |layers|
    ensures var f := Filler(layers, k);
            && |f| == k * ENTRY
            && Filler(layers, k + 1) == Mask(f + Zeros(ENTRY), layers[k].ks, ROUTING - |f|)
  {
    hide Mask;
  }

  lemma BlockStep(r: Route, k: nat)
    requires r.Valid() && k + 1 < |r.hops|
    ensures r.Block(k) == Mask((r.Entry(k) + r.Block(k + 1))[..ROUTING], r.layers[k].ks, 0)
  {
    hide Lawful, Named, Mask, Route.Entry, Route.Tag;
  }

  lemma LastTail(r: Route)
    requires r.Valid()
    ensures var k := |r.hops| - 1; r.Block(k)[ROUTING - k * ENTRY..] == Filler(r.layers, k)
  {
    hide Lawful, Mask, Filler, Route.Entry, Route.Tag;
  }

  /** Decrypting the block of an inner hop, extended by one entry of zeros, yields its
      entry followed by the whole block of the next hop. */
  lemma {:induction false} InnerPlain(r: Route, k: nat)
    requires r.Valid() && k + 1 < |r.hops|
    ensures Mask(r.Block(k) + Zeros(ENTRY), r.layers[k].ks, 0) == r.Entry(k) + r.Block(k + 1)
  {
    hide Lawful, Named, Mask, Route.Entry, Route.Tag;
    FillerTail(r, k + 1);
    ShiftPlain(r.Entry(k), r.Block(k + 1), Filler(r.layers, k), r.layers[k].ks);
  }

  /** The last hop's block decrypts to its entry and the padding. */
  lemma {:induction false} LastPlain(r: Route)
    requires r.Valid()
    ensures var k := |r.hops| - 1;
            Header(r.hops[k], true) <= Mask(r.Block(k) + Zeros(ENTRY), r.layers[k].ks, 0)
  {
    var k := |r.hops| - 1;
    var ks := r.layers[k].ks;
    var plain := Header(r.hops[k], true) + Zeros(ENTRY - HDR) + r.pad;
    MaskSplit(Mask(plain, ks, 0), Filler(r.layers, k) + Zeros(ENTRY), ks, 0);
    assert r.Block(k) + Zeros(ENTRY) == Mask(plain, ks, 0) + (Filler(r.layers, k) + Zeros(ENTRY));
    MaskTwice(plain, ks, 0);
  }

  // ----------------------------------------------------------------- peeling

  function LayerOf(s: Suite, ct: Bytes, ss: Bytes): Layer {
    Layer(ct, s.kdf(ss, MU, 32), s.stream(s.kdf(ss, RHO, 32), ROUTING + ENTRY))
  }

  /** What a decrypted block says, once its MAC was checked. */
  function ReadPlain(buf: Bytes, tag: Bytes): Result<Peeled>
    requires |buf| == ROUTING + ENTRY
  {
    var final := buf[0] == 1;
    var chan := CString(buf[1..33]);
    if buf[0] > 1 then Err(BadHeader)
    else if !final && chan == [] then Err(MissingNext)
    else Ok(Peeled(final, chan, Get64(buf[33..41]), Get64(buf[41..49]),
                   if final then [] else buf[HDR + MAC..ENTRY] + buf[ENTRY..] + buf[HDR..HDR + MAC], tag))
  }

  function Peel(s: Suite, sk: Bytes, packet: Bytes, assoc: string): Result<Peeled>
    requires Lawful(s)
  {
    if |packet| != PACKET then Err(BadSize)
    else
      var ss := s.decaps(sk, packet[..KEM_CT]);
      if ss.None? then Err(BadKey)
      else
        var layer := LayerOf(s, packet[..KEM_CT], ss.value);
        var r := packet[KEM_CT..KEM_CT + ROUTING];
        if s.mac(layer.mu, r, assoc) != packet[PACKET - MAC..] then Err(BadMac)
        else ReadPlain(Mask(r + Zeros(ENTRY), layer.ks, 0), s.kdf(ss.value, REPLAY, 16))
  }

  lemma HeaderParts(hop: Hop, final: bool, rest: Bytes)
    requires |hop.nextChan| <= CHAN_MAX
    ensures var b := Header(hop, final) + rest;
            && b[0] == (if final then 1 else 0) && b[1..33] == hop.nextChan + Zeros(CHAN_MAX - |hop.nextChan|)
            && b[33..41] == Put64(hop.amount) && b[41..49] == Put64(hop.expiry)
  {
    hide Put64, Zeros;
  }

  lemma HeaderReads(hop: Hop, final: bool, rest: Bytes)
    requires |hop.nextChan| <= CHAN_MAX
    ensures var b := Header(hop, final) + rest;
            && b[0] == (if final then 1 else 0) && CString(b[1..33]) == CString(hop.nextChan)
            && Get64(b[33..41]) == hop.amount && Get64(b[41..49]) == hop.expiry
  {
    hide Put64, Get64, Header, CString;
    HeaderParts(hop, final, rest);
    Get64Put64(hop.amount);
    Get64Put64(hop.expiry);
    CStringPadded(hop.nextChan, CHAN_MAX - |hop.nextChan|);
  }

  lemma {:induction false} CStringPadded(c: Bytes, n: nat)
    ensures CString(c + Zeros(n)) == CString(c)
  {
    if c == [] {
      assert c + Zeros(n) == Zeros(n);
    } else {
      assert (c + Zeros(n))[1..] == c[1..] + Zeros(n);
      CStringPadded(c[1..], n);
    }
  }

  /** A channel name survives the header exactly when it has no zero byte. */
  lemma CStringExact(c: Bytes)
    ensures CString(c) == c <==> 0 !in c
  {
  }

  /** What hop `k` must get: its own data, and the next hop's packet unless last. */
  ghost function Expected(r: Route, k: nat, tag: Bytes): Result<Peeled>
    requires r.Valid() && k < |r.hops|
  {
    var h, last := r.hops[k], k + 1 == |r.hops|;
    if !last && CString(h.nextChan) == [] then Err(MissingNext)
    else Ok(Peeled(last, CString(h.nextChan), h.amount, h.expiry, if last then [] else r.Packet(k + 1), tag))
  }

  lemma {:induction false} PacketParts(r: Route, k: nat)
    requires r.Valid() && k < |r.hops|
    ensures var p := r.Packet(k);
            p[..KEM_CT] == r.layers[k].ct && p[KEM_CT..KEM_CT + ROUTING] == r.Block(k) && p[PACKET - MAC..] == r.Tag(k)
  {
    hide Lawful, Named, Route.Block, Route.Tag;
  }

  lemma {:induction false} InnerReads(r: Route, k: nat, tag: Bytes)
    requires r.Valid() && k + 1 < |r.hops|
    ensures ReadPlain(r.Entry(k) + r.Block(k + 1), tag) == Expected(r, k, tag)
  {
    hide Lawful, Header, Route.Block, Route.Tag, CString, Get64;
    var next, h := r.Block(k + 1), Header(r.hops[k], false);
    var rest := r.Tag(k + 1) + r.layers[k + 1].ct + next;
    var buf := r.Entry(k) + next;
    assert buf == h + rest;
    HeaderReads(r.hops[k], false, rest);
    assert buf[HDR + MAC..ENTRY] == r.layers[k + 1].ct && buf[ENTRY..] == next && buf[HDR..HDR + MAC] == r.Tag(k + 1);
  }

  lemma {:induction false} LastReads(r: Route, buf: Bytes, tag: Bytes)
    requires r.Valid() && |buf| == ROUTING + ENTRY && Header(r.hops[|r.hops| - 1], true) <= buf
    ensures ReadPlain(buf, tag) == Expected(r, |r.hops| - 1, tag)
  {
    hide Lawful, Header, Route.Packet, CString, Get64;
    HeaderReads(r.hops[|r.hops| - 1], true, buf[HDR..]);
    assert buf == Header(r.hops[|r.hops| - 1], true) + buf[HDR..];
  }

  /** Hop `k`, holding the key its layer was made for, peels exactly its own layer. */
  lemma {:induction false} PeelHop(r: Route, k: nat, sk: Bytes, ss: Bytes)
    requires r.Valid() && k < |r.hops|
    requires r.s.decaps(sk, r.layers[k].ct) == Some(ss) && r.layers[k] == LayerOf(r.s, r.layers[k].ct, ss)
    ensures Peel(r.s, sk, r.Packet(k), r.assoc) == Expected(r, k, r.s.kdf(ss, REPLAY, 16))
  {
    hide Mask, Header, Lawful, Route.Block, Route.Entry, Route.Packet, ReadPlain, Expected;
    PacketParts(r, k);
    var tag := r.s.kdf(ss, REPLAY, 16);
    if k + 1 < |r.hops| {
      InnerPlain(r, k);
      InnerReads(r, k, tag);
    } else {
      LastPlain(r);
      LastReads(r, Mask(r.Block(k) + Zeros(ENTRY), r.layers[k].ks, 0), tag);
    }
  }
}
