/** `Build` and `Peel` as the byte-buffer loops the program runs, and a packet's whole
    journey along its route. */
module OnionRoute {
  import opened Basics
  import opened Onion

  // ------------------------------------------------------------ specification

  /** Why hop `i` cannot be wrapped, if so. */
  function HopError(s: Suite, hops: seq<Hop>, coins: seq<Coins>, i: nat): Option<OnionError>
    requires i < |hops| <= |coins|
  {
    if s.encaps(hops[i].pubkey, coins[i]).None? then Some(BadRouteKey(i))
    else if |hops[i].nextChan| > CHAN_MAX || ((i + 1 < |hops|) == (hops[i].nextChan == [])) then Some(BadHopChannel)
    else None
  }

  function FirstError(s: Suite, hops: seq<Hop>, coins: seq<Coins>, i: nat): Option<OnionError>
    requires i <= |hops| <= |coins|
    decreases |hops| - i
  {
    if i == |hops| then None
    else if HopError(s, hops, coins, i).Some? then HopError(s, hops, coins, i)
    else FirstError(s, hops, coins, i + 1)
  }

  function LayerAt(s: Suite, hops: seq<Hop>, coins: seq<Coins>, i: nat): Layer
    requires i < |hops| <= |coins|
  {
    var e := s.encaps(hops[i].pubkey, coins[i]);
    if e.None? then Layer([], [], []) else LayerOf(s, e.value.0, e.value.1)
  }

  predicate Wrappable(s: Suite, hops: seq<Hop>, coins: seq<Coins>) {
    0 < |hops| <= MAX_HOPS && |hops| <= |coins| && forall i :: 0 <= i < |hops| ==> HopError(s, hops, coins, i).None?
  }

  /** The route `Build` wraps; the padding is what it takes of the random bytes. */
  ghost function RouteOf(s: Suite, hops: seq<Hop>, assoc: string, coins: seq<Coins>, noise: Bytes): (r: Route)
    requires Lawful(s) && Wrappable(s, hops, coins) && |noise| == ROUTING
    ensures r.Valid() && r.s == s && r.hops == hops && r.assoc == assoc
    ensures forall i :: 0 <= i < |hops| ==> r.layers[i] == LayerAt(s, hops, coins, i)
  {
    var layers := seq(|hops|, i requires 0 <= i < |hops| => LayerAt(s, hops, coins, i));
    assert Sized(layers) && Named(hops) by {
      forall i | 0 <= i < |hops|
        ensures |layers[i].ct| == KEM_CT && |layers[i].ks| == ROUTING + ENTRY
        ensures |hops[i].nextChan| <= CHAN_MAX && (i + 1 < |hops| <==> hops[i].nextChan != [])
      {
        assert HopError(s, hops, coins, i).None?;
      }
    }
    Route(s, hops, layers, noise[..ROUTING - (|hops| - 1) * ENTRY - ENTRY], assoc)
  }

  lemma NoErrorIsWrappable(s: Suite, hops: seq<Hop>, coins: seq<Coins>, i: nat)
    requires i <= |hops| <= |coins|
    ensures FirstError(s, hops, coins, i).None? <==> forall j :: i <= j < |hops| ==> HopError(s, hops, coins, j).None?
    decreases |hops| - i
  {
    if i < |hops| { NoErrorIsWrappable(s, hops, coins, i + 1); }
  }

  // ------------------------------------------------------------------ buffers

  /** `a[j] ^= ks[off + j]` for every byte. */
  method XorInPlace(a: array<Byte>, ks: Bytes, off: nat)
    requires off + a.Length <= |ks|
    modifies a
    ensures a[..] == Mask(old(a[..]), ks, off)
  {
    for j := 0 to a.Length
      invariant forall i :: 0 <= i < j ==> a[i] == old(a[i]) ^ ks[off + i]
      invariant forall i :: j <= i < a.Length ==> a[i] == old(a[i])
    {
      a[j] := a[j] ^ ks[off + j];
    }
  }

  method Masked(b: Bytes, ks: Bytes, off: nat) returns (r: Bytes)
    requires off + |b| <= |ks|
    ensures r == Mask(b, ks, off)
  {
    var a := new Byte[|b|](i requires 0 <= i < |b| => b[i]);
    assert a[..] == b;
    XorInPlace(a, ks, off);
    r := a[..];
  }

  method MakeLayers(s: Suite, hops: seq<Hop>, coins: seq<Coins>) returns (layers: seq<Layer>, err: Option<OnionError>)
    requires |hops| <= |coins|
    ensures err == FirstError(s, hops, coins, 0)
    ensures err.None? ==> |layers| == |hops| && forall i :: 0 <= i < |hops| ==>
                            HopError(s, hops, coins, i).None? && layers[i] == LayerAt(s, hops, coins, i)
  {
    layers := [];
    for i := 0 to |hops|
      invariant FirstError(s, hops, coins, 0) == FirstError(s, hops, coins, i)
      invariant |layers| == i
      invariant forall j :: 0 <= j < i ==> HopError(s, hops, coins, j).None? && layers[j] == LayerAt(s, hops, coins, j)
    {
      var e := s.encaps(hops[i].pubkey, coins[i]);
      if e.None? { return layers, Some(BadRouteKey(i)); }
      if |hops[i].nextChan| > CHAN_MAX || ((i + 1 < |hops|) == (hops[i].nextChan == [])) {
        return layers, Some(BadHopChannel);
      }
      layers := layers + [LayerOf(s, e.value.0, e.value.1)];
    }
    err := None;
  }

  method MakeFiller(layers: seq<Layer>) returns (filler: Bytes)
    requires Sized(layers) && 0 < |layers|
    ensures filler == Filler(layers, |layers| - 1)
  {
    hide Mask;
    filler := [];
    for i := 0 to |layers| - 1
      invariant filler == Filler(layers, i)
    {
      var l := |filler|;
      filler := filler + Zeros(ENTRY);
      filler := Masked(filler, layers[i].ks, ROUTING - l);
    }
  }

  /** The packet for a route, or the first reason it cannot be built. `coins` are the
      encapsulations' randomness, `noise` the random padding. */
  method Build(s: Suite, hops: seq<Hop>, assoc: string, coins: seq<Coins>, noise: Bytes) returns (res: Result<Bytes>)
    requires Lawful(s) && |hops| <= |coins| && |noise| == ROUTING
    ensures if !(0 < |hops| <= MAX_HOPS) then res == Err(HopCount)
            else if Wrappable(s, hops, coins) then res == Ok(RouteOf(s, hops, assoc, coins, noise).Packet(0))
            else FirstError(s, hops, coins, 0).Some? && res == Err(FirstError(s, hops, coins, 0).value)
  {
    hide Mask, Header, Lawful, HopError, Route.Block, Filler;
    var n := |hops|;
    if n == 0 || n > MAX_HOPS { return Err(HopCount); }
    var layers, err := MakeLayers(s, hops, coins);
    NoErrorIsWrappable(s, hops, coins, 0);
    if err.Some? { return Err(err.value); }
    ghost var route := RouteOf(s, hops, assoc, coins, noise);
    assert layers == route.layers;
    var filler := MakeFiller(layers);
    var block := LastBlock(route, hops[n - 1], layers[n - 1], filler, noise[..ROUTING - |filler| - ENTRY]);
    var m := s.mac(layers[n - 1].mu, block, assoc);
    var k := n - 1;
    while k > 0
      invariant 0 <= k < n
      invariant block == route.Block(k) && m == route.Tag(k)
    {
      k := k - 1;
      block := InnerBlock(route, k, Header(hops[k], false), m, layers[k + 1].ct, layers[k].ks, block);
      m := s.mac(layers[k].mu, block, assoc);
    }
    res := Ok(layers[0].ct + block + m);
  }

  method LastBlock(ghost r: Route, hop: Hop, layer: Layer, filler: Bytes, pad: Bytes) returns (block: Bytes)
    requires r.Valid() && hop == r.hops[|r.hops| - 1] && layer == r.layers[|r.hops| - 1]
    requires filler == Filler(r.layers, |r.hops| - 1) && pad == r.pad
    ensures block == r.Block(|r.hops| - 1)
  {
    hide Mask, Header, Lawful, Filler;
    var plain := Header(hop, true) + Zeros(ENTRY - HDR) + pad;
    block := Masked(plain, layer.ks, 0);
    block := block + filler;
  }

  method InnerBlock(ghost r: Route, k: nat, header: Bytes, m: Bytes, ct: Bytes, ks: Bytes,
      next: Bytes) returns (block: Bytes)
    requires r.Valid() && k + 1 < |r.hops|
    requires header == Header(r.hops[k], false) && m == r.Tag(k + 1) && ct == r.layers[k + 1].ct
    requires ks == r.layers[k].ks && next == r.Block(k + 1)
    ensures block == r.Block(k)
  {
    hide Mask, Header, Lawful, Filler, Route.Tag;
    var buf := header + m + ct + next;
    assert buf == r.Entry(k) + next;
    block := Masked(buf[..ROUTING], ks, 0);
  }

  method PeelLayer(s: Suite, sk: Bytes, packet: Bytes, assoc: string) returns (res: Result<Peeled>)
    requires Lawful(s)
    ensures res == Peel(s, sk, packet, assoc)
  {
    hide Mask, Get64, CString;
    if |packet| != PACKET { return Err(BadSize); }
    var ss := s.decaps(sk, packet[..KEM_CT]);
    if ss.None? { return Err(BadKey); }
    var rho, mu := s.kdf(ss.value, RHO, 32), s.kdf(ss.value, MU, 32);
    var r := packet[KEM_CT..KEM_CT + ROUTING];
    if s.mac(mu, r, assoc) != packet[PACKET - MAC..] { return Err(BadMac); }
    var ks := s.stream(rho, ROUTING + ENTRY);
    var buf := Masked(r + Zeros(ENTRY), ks, 0);
    if buf[0] > 1 { return Err(BadHeader); }
    var chan := CString(buf[1..33]);
    var nextPacket := [];
    if buf[0] != 1 {
      if chan == [] { return Err(MissingNext); }
      nextPacket := buf[HDR + MAC..ENTRY];
      nextPacket := nextPacket + buf[ENTRY..];
      nextPacket := nextPacket + buf[HDR..HDR + MAC];
    }
    res := Ok(Peeled(buf[0] == 1, chan, Get64(buf[33..41]), Get64(buf[41..49]), nextPacket,
        s.kdf(ss.value, REPLAY, 16)));
  }

  // ------------------------------------------------------------------ journey

  /** The packet hop `k` holds after the hops before it peeled and forwarded in turn. */
  function Travel(s: Suite, sks: seq<Bytes>, packet: Bytes, assoc: string, k: nat): Option<Bytes>
    requires Lawful(s) && k <= |sks|
  {
    if k == 0 then Some(packet)
    else
      var before := Travel(s, sks, packet, assoc, k - 1);
      if before.None? then None
      else
        var p := Peel(s, sks[k - 1], before.value, assoc);
        if p.Err? || p.value.final then None else Some(p.value.nextPacket)
  }

  /** Hop `k` gets the packet, its own channel, amount and expiry, and the final mark
      exactly if it is the last. */
  predicate Served(s: Suite, sks: seq<Bytes>, packet: Bytes, assoc: string, hops: seq<Hop>, k: nat)
    requires Lawful(s) && k < |hops| == |sks|
  {
    var at := Travel(s, sks, packet, assoc, k);
    && at.Some?
    && var p := Peel(s, sks[k], at.value, assoc);
       p.Ok? && p.value.final == (k + 1 == |hops|) && p.value.nextChan == hops[k].nextChan
       && p.value.amount == hops[k].amount && p.value.expiry == hops[k].expiry
  }

  lemma {:induction false} TravelsAlong(r: Route, coins: seq<Coins>, sks: seq<Bytes>, k: nat)
    requires r.Valid() && Wrappable(r.s, r.hops, coins) && |sks| == |r.hops| && k < |r.hops|
    requires forall i :: 0 <= i < |r.hops| ==>
             r.layers[i] == LayerAt(r.s, r.hops, coins, i) && r.hops[i].pubkey == r.s.pub(sks[i])
    requires forall i :: 0 <= i < k ==> CString(r.hops[i].nextChan) != []
    ensures Travel(r.s, sks, r.Packet(0), r.assoc, k) == Some(r.Packet(k))
  {
    hide Peel, Route.Packet, Lawful, HopError;
    if k > 0 {
      TravelsAlong(r, coins, sks, k - 1);
      OwnLayer(r, coins, sks, k - 1);
    }
  }

  lemma OwnLayer(r: Route, coins: seq<Coins>, sks: seq<Bytes>, k: nat)
    requires r.Valid() && Wrappable(r.s, r.hops, coins) && |sks| == |r.hops| && k < |r.hops|
    requires r.layers[k] == LayerAt(r.s, r.hops, coins, k) && r.hops[k].pubkey == r.s.pub(sks[k])
    ensures exists tag :: Peel(r.s, sks[k], r.Packet(k), r.assoc) == Expected(r, k, tag)
  {
    hide Peel, Expected, Route.Packet;
    assert HopError(r.s, r.hops, coins, k).None?;
    var e := r.s.encaps(r.hops[k].pubkey, coins[k]).value;
    PeelHop(r, k, sks[k], e.1);
  }

  /** For every route of 1 to MAX_HOPS hops that can be built, peeling the packet with
      each hop's key in turn serves every hop, if and only if no channel name contains
      a zero byte. */
  lemma RouteServed(s: Suite, hops: seq<Hop>, assoc: string, coins: seq<Coins>, noise: Bytes, sks: seq<Bytes>)
    requires Lawful(s) && Wrappable(s, hops, coins) && |noise| == ROUTING && |sks| == |hops|
    requires forall i :: 0 <= i < |hops| ==> hops[i].pubkey == s.pub(sks[i])
    ensures var packet := RouteOf(s, hops, assoc, coins, noise).Packet(0);
            (forall k :: 0 <= k < |hops| ==> Served(s, sks, packet, assoc, hops, k)) <==>
            (forall i :: 0 <= i < |hops| ==> 0 !in hops[i].nextChan)
  {
    hide Peel, Travel, Lawful, HopError, Route.Packet;
    var r := RouteOf(s, hops, assoc, coins, noise);
    var packet := r.Packet(0);
    if forall i :: 0 <= i < |hops| ==> 0 !in hops[i].nextChan {
      forall k | 0 <= k < |hops| ensures Served(s, sks, packet, assoc, hops, k) {
        forall i | 0 <= i < |hops| { CStringExact(hops[i].nextChan); }
        TravelsAlong(r, coins, sks, k);
        OwnLayer(r, coins, sks, k);
      }
    } else {
      var i := FirstZero(hops, 0);
      forall j | 0 <= j <= i { CStringExact(hops[j].nextChan); }
      TravelsAlong(r, coins, sks, i);
      OwnLayer(r, coins, sks, i);
      assert !Served(s, sks, packet, assoc, hops, i);
    }
  }

  lemma FirstZero(hops: seq<Hop>, from: nat) returns (i: nat)
    requires from < |hops| && exists j :: from <= j < |hops| && 0 in hops[j].nextChan
    ensures from <= i < |hops| && 0 in hops[i].nextChan && forall j :: from <= j < i ==> 0 !in hops[j].nextChan
    decreases |hops| - from
  {
    if 0 in hops[from].nextChan { i := from; } else { i := FirstZero(hops, from + 1); }
  }
}
