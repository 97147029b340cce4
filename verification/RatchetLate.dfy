/** Frames that arrive after later ones. */
module RatchetLate {
  import opened Basics
  import opened Ratchet
  import opened RatchetRun

  /** In every run, a frame whose key was put aside opens to the text sent, and its key is then
      gone; nothing else of the session changes. */
  lemma LateOpens(events: seq<(bool, Event)>, isA: bool, f: Frame, kept1: set<SkipKey>, kept2: set<SkipKey>)
    requires f in Me(Run(events), !isA).sent && (f.hdr.rkPub, f.hdr.n) in Me(Run(events), isA).s.skipped
    ensures var s, k := Me(Run(events), isA).s, (f.hdr.rkPub, f.hdr.n);
            Decrypt(s, f, kept1, kept2) == (s.(skipped := s.skipped - {k}), Text(f.ct.text))
  {
    hide Run, RootAt, ChainAt, Chain, SendSide, ReceiveSide, LogInv, LogFrom;
    RunInv(events);
    var t := Run(events);
    assert FrameOk(f, if isA then 1 else 0, t.eps);
  }

  /** The keys of the messages passed over, by number. */
  function Passed(p: Pub, ckr: Key, from: nat, until: nat): map<SkipKey, Key> {
    map k: SkipKey | k in (set i | from <= i < until :: (p, i)) :: Message(Chain(ckr, k.1 - from))
  }

  lemma {:induction false} ChainSteps(k: Key, n: nat)
    ensures Chain(NextChain(k), n) == Chain(k, n + 1)
  {
    if n > 0 { ChainSteps(k, n - 1); }
  }

  lemma PassedStep(p: Pub, ckr: Key, from: nat, until: nat)
    requires from < until
    ensures Passed(p, ckr, from, until) == map[(p, from) := Message(ckr)] + Passed(p, NextChain(ckr), from + 1, until)
  {
    var a := Passed(p, ckr, from, until);
    var b := map[(p, from) := Message(ckr)] + Passed(p, NextChain(ckr), from + 1, until);
    assert Chain(ckr, 0) == ckr;
    assert a.Keys == b.Keys;
    forall k | k in a ensures a[k] == b[k] { if k.1 > from { ChainSteps(ckr, k.1 - from - 1); } }
  }

  lemma {:induction false} StoreAll(s: Session, until: nat)
    requires s.peerRk.Some?
    ensures var t := Store(s, until);
            && t.skipped == s.skipped + Passed(s.peerRk.value, s.ckr, s.nr, until)
            && t.nr == (if s.nr < until then until else s.nr)
            && t.ckr == Chain(s.ckr, if s.nr < until then until - s.nr else 0)
    decreases until - s.nr
  {
    hide Passed;
    if s.nr < until {
      var p := s.peerRk.value;
      var u := s.(skipped := s.skipped[(p, s.nr) := Message(s.ckr)], ckr := NextChain(s.ckr), nr := s.nr + 1);
      StoreAll(u, until);
      PassedStep(p, s.ckr, s.nr, until);
      ChainSteps(s.ckr, until - s.nr - 1);
      assert Store(s, until) == Store(u, until);
      Reassociate(s.skipped, (p, s.nr), Message(s.ckr), Passed(p, u.ckr, u.nr, until));
    } else {
      NonePassed(s.peerRk.value, s.ckr, s.nr, until);
    }
  }

  lemma Reassociate(m: map<SkipKey, Key>, k: SkipKey, v: Key, n: map<SkipKey, Key>)
    ensures m[k := v] + n == m + (map[k := v] + n)
  {
  }

  lemma NonePassed(p: Pub, ckr: Key, from: nat, until: nat)
    requires until <= from
    ensures Passed(p, ckr, from, until) == map[]
  {
  }

  lemma {:induction false} PassedSize(p: Pub, ckr: Key, from: nat, until: nat)
    requires from <= until
    ensures |Passed(p, ckr, from, until)| == until - from
    decreases until - from
  {
    hide Passed;
    if from == until {
      NonePassed(p, ckr, from, until);
    } else {
      PassedStep(p, ckr, from, until);
      PassedSize(p, NextChain(ckr), from + 1, until);
      var m := Passed(p, NextChain(ckr), from + 1, until);
      assert (p, from) !in m by { PassedKeys(p, NextChain(ckr), from + 1, until); }
      assert (map[(p, from) := Message(ckr)] + m).Keys == {(p, from)} + m.Keys;
    }
  }

  lemma PassedKeys(p: Pub, ckr: Key, from: nat, until: nat)
    ensures forall k: SkipKey :: k in Passed(p, ckr, from, until) <==> k.0 == p && from <= k.1 < until
  {
  }

  lemma UnionSize(a: map<SkipKey, Key>, b: map<SkipKey, Key>)
    ensures |a + b| <= |a| + |b|
  {
    assert (a + b).Keys == a.Keys + b.Keys;
    assert |a.Keys + b.Keys| <= |a.Keys| + |b.Keys|;
  }

  /** Skipping ahead within the limit stores the key of every message passed over and loses
      none stored before, as long as at most 256 are stored in all. */
  lemma SkipStores(s: Session, until: nat, kept: set<SkipKey>)
    requires s.peerRk.Some? && s.ckr != NoKey && s.nr <= until <= s.nr + 512
    requires |s.skipped| + (until - s.nr) <= 256
    ensures var t := SkipTo(s, until, kept);
            && t.Some? && t.value.skipped == s.skipped + Passed(s.peerRk.value, s.ckr, s.nr, until)
            && t.value.nr == until && t.value.ckr == Chain(s.ckr, until - s.nr)
  {
    hide Passed, Store;
    StoreAll(s, until);
    PassedSize(s.peerRk.value, s.ckr, s.nr, until);
    UnionSize(s.skipped, Passed(s.peerRk.value, s.ckr, s.nr, until));
  }

  /** In every run, of two frames of the peer's current chain the later may come first: both
      open to the texts sent, as long as the later is within the skip limit and the keys in
      between find room. */
  lemma LaterFirst(events: seq<(bool, Event)>, isA: bool, f: Frame, g: Frame, kept: seq<set<SkipKey>>)
    requires |kept| == 4
    requires f in Me(Run(events), !isA).sent && g in Me(Run(events), !isA).sent
    requires var s := Me(Run(events), isA).s;
             && Some(f.hdr.rkPub) == s.peerRk == Some(g.hdr.rkPub) && s.nr <= f.hdr.n < g.hdr.n <= s.nr + 512
             && (g.hdr.rkPub, g.hdr.n) !in s.skipped && |s.skipped| + (g.hdr.n - s.nr) <= 256
    ensures var s := Me(Run(events), isA).s;
            var (t, r) := Decrypt(s, g, kept[0], kept[1]);
            r == Text(g.ct.text) && Decrypt(t, f, kept[2], kept[3]).1 == Text(f.ct.text)
  {
    hide Run, RootAt, ChainAt, Chain, LogInv, LogFrom, SkippedOk, SendSide, Decrypt, MessageAt, EpochsOk;
    RunInv(events);
    var t := Run(events);
    var par := if isA then 1 else 0;
    assert FrameOk(f, par, t.eps) && FrameOk(g, par, t.eps);
    ChainStart(t.eps, f.hdr.rkPub.id);
    MessageIs(t.eps, f.hdr.rkPub.id, f.hdr.n);
    MessageIs(t.eps, g.hdr.rkPub.id, g.hdr.n);
    BothOpen(Me(t, isA).s, ChainAt(t.eps, f.hdr.rkPub.id), f, g, kept);
  }

  lemma MessageIs(eps: seq<Epoch>, e: nat, n: nat)
    requires e < |eps|
    ensures MessageAt(eps, e, n) == Message(Chain(ChainAt(eps, e), n))
  {
  }

  /** `f` is sealed with the key of its number on the chain from `c`. */
  predicate SealedOn(f: Frame, c: Key) { f.ct == Sealed(Message(Chain(c, f.hdr.n)), f.iv, f.hdr, f.ct.text) }

  lemma BothOpen(s: Session, c: Key, f: Frame, g: Frame, kept: seq<set<SkipKey>>)
    requires |kept| == 4 && c != NoKey && s.ckr == Chain(c, s.nr) && SealedOn(f, c) && SealedOn(g, c)
    requires Some(f.hdr.rkPub) == s.peerRk == Some(g.hdr.rkPub) && s.nr <= f.hdr.n < g.hdr.n <= s.nr + 512
    requires (g.hdr.rkPub, g.hdr.n) !in s.skipped && |s.skipped| + (g.hdr.n - s.nr) <= 256
    ensures var (t, r) := Decrypt(s, g, kept[0], kept[1]);
            r == Text(g.ct.text) && Decrypt(t, f, kept[2], kept[3]).1 == Text(f.ct.text)
  {
    hide *;
    LaterOpens(s, c, g, kept[0], kept[1]);
    PassedKey(s, c, f, g.hdr.n);
    StoredOpens(Decrypt(s, g, kept[0], kept[1]).0, f, kept[2], kept[3]);
  }

  lemma LaterOpens(s: Session, c: Key, g: Frame, kept1: set<SkipKey>, kept2: set<SkipKey>)
    requires c != NoKey && s.ckr == Chain(c, s.nr) && SealedOn(g, c)
    requires s.peerRk == Some(g.hdr.rkPub) && s.nr <= g.hdr.n <= s.nr + 512
    requires (g.hdr.rkPub, g.hdr.n) !in s.skipped && |s.skipped| + (g.hdr.n - s.nr) <= 256
    ensures var (t, r) := Decrypt(s, g, kept1, kept2);
            r == Text(g.ct.text) && t.skipped == s.skipped + Passed(g.hdr.rkPub, s.ckr, s.nr, g.hdr.n)
  {
    hide Chain, Passed, Derive;
    ChainIsKey(c, s.nr);
    ChainAdds(c, s.nr, g.hdr.n - s.nr);
    LaterDerives(s, g.hdr, kept1, kept2);
  }

  /** The key for a later message of the current chain. */
  lemma LaterDerives(s: Session, h: Header, kept1: set<SkipKey>, kept2: set<SkipKey>)
    requires s.ckr != NoKey && s.peerRk == Some(h.rkPub) && s.nr <= h.n <= s.nr + 512
    requires (h.rkPub, h.n) !in s.skipped && |s.skipped| + (h.n - s.nr) <= 256
    ensures var d := Derive(s, h, kept1, kept2);
            && d.Derived? && d.mk == Message(Chain(s.ckr, h.n - s.nr))
            && d.s.skipped == s.skipped + Passed(h.rkPub, s.ckr, s.nr, h.n)
  {
    hide Chain, SkipTo, Passed;
    SkipStores(s, h.n, kept2);
  }

  lemma PassedKey(s: Session, c: Key, f: Frame, until: nat)
    requires s.ckr == Chain(c, s.nr) && SealedOn(f, c) && s.nr <= f.hdr.n < until
    ensures var m, k := s.skipped + Passed(f.hdr.rkPub, s.ckr, s.nr, until), (f.hdr.rkPub, f.hdr.n);
            k in m && f.ct == Sealed(m[k], f.iv, f.hdr, f.ct.text)
  {
    hide Chain, Passed;
    ChainAdds(c, s.nr, f.hdr.n - s.nr);
    PassedAt(f.hdr.rkPub, s.ckr, s.nr, until, f.hdr.n);
  }

  lemma StoredOpens(s: Session, f: Frame, kept1: set<SkipKey>, kept2: set<SkipKey>)
    requires (f.hdr.rkPub, f.hdr.n) in s.skipped
    requires f.ct == Sealed(s.skipped[(f.hdr.rkPub, f.hdr.n)], f.iv, f.hdr, f.ct.text)
    ensures Decrypt(s, f, kept1, kept2).1 == Text(f.ct.text)
  {
  }

  lemma PassedAt(p: Pub, ckr: Key, from: nat, until: nat, n: nat)
    requires from <= n < until
    ensures var m := Passed(p, ckr, from, until); (p, n) in m && m[(p, n)] == Message(Chain(ckr, n - from))
  {
  }

  lemma {:induction false} ChainAdds(k: Key, m: nat, n: nat)
    ensures Chain(Chain(k, m), n) == Chain(k, m + n)
  {
    if n > 0 { ChainAdds(k, m, n - 1); }
  }

  // ---------------------------------------------------------------------------- refusals

  /** The receiving chain cannot be skipped this far. */
  predicate TooFar(s: Session, until: nat) { s.peerRk.Some? && s.ckr != NoKey && until > s.nr + 512 }

  /** A frame that starts a new receiving chain. */
  predicate NewChain(s: Session, h: Header) { (h.rkPub, h.n) !in s.skipped && Some(h.rkPub) != s.peerRk }

  /** The header names one of the last two ratchet keys of this side. */
  predicate NamesOwn(s: Session, h: Header) { h.to.Some? && (h.to == s.myPub || h.to == s.prevPub) }

  lemma SkipIff(s: Session, until: nat, kept: set<SkipKey>)
    ensures SkipTo(s, until, kept).Some? <==> !TooFar(s, until)
  {
  }

  lemma OwnKeyIff(s: Session, to: Option<Pub>)
    ensures OwnKey(s, to) == if to.Some? && (to == s.myPub || to == s.prevPub) then to else None
  {
  }

  /** When a key cannot be derived, and why; otherwise only the tag decides. */
  lemma RefusedWhen(s: Session, f: Frame, kept1: set<SkipKey>, kept2: set<SkipKey>)
    ensures var r, h := Decrypt(s, f, kept1, kept2).1, f.hdr;
            var stored, new_ := (h.rkPub, h.n) in s.skipped, NewChain(s, h);
            && (r == Failed(Duplicate) <==> !stored && !new_ && h.n < s.nr)
            && (r == Failed(OutOfOrder) <==> new_ && h.stepCt.None?)
            && (r == Failed(UnknownRatchetKey) <==> new_ && h.stepCt.Some? && !TooFar(s, h.pn) && !NamesOwn(s, h))
            && (r == Failed(TooManySkipped) <==>
                 || (!stored && !new_ && h.n >= s.nr && TooFar(s, h.n))
                 || (new_ && h.stepCt.Some? && (TooFar(s, h.pn) || (NamesOwn(s, h) && h.n > 512))))
            && r != Failed(NotReady)
  {
    hide SkipTo, OwnKey;
    var h := f.hdr;
    if NewChain(s, h) && h.stepCt.Some? {
      SkipIff(s, h.pn, kept1);
      var t := SkipTo(s, h.pn, kept1);
      if t.Some? {
        SkipFrame(s, h.pn, kept1);
        OwnKeyIff(t.value, h.to);
        if NamesOwn(s, h) {
          SkipIff(ReceiveStep(t.value, h.rkPub, Decaps(OwnKey(t.value, h.to).value, h.stepCt.value)), h.n, kept2);
        }
      }
    } else {
      SkipIff(s, h.n, kept2);
    }
  }

  /** A session can send unless it must answer a peer it has no key of, or has no chain. */
  lemma SendsWhen(s: Session, text: string, newPub: Pub, coin: nat, iv: nat)
    ensures Encrypt(s, text, newPub, coin, iv).1.Some? <==>
            if s.needStep then s.peerRk.Some? else s.cks != NoKey && s.myPub.Some?
    ensures Encrypt(s, text, newPub, coin, iv).1.None? ==> Encrypt(s, text, newPub, coin, iv).0 == s
  {
  }
}
