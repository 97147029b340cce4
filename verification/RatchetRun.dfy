/** Two sessions and a network that loses, reorders, repeats and forges frames at will:
    what holds in every run. */
module RatchetRun {
  import opened Basics
  import opened Ratchet

  // -------------------------------------------------------------------- runs

  /** A session with its history: the frames it sent, the root keys it has sent under,
      and what it accepted, in order. */
  datatype Party = Party(s: Session, sent: set<Frame>, roots: set<Key>, log: seq<(SkipKey, string)>)

  /** One ratchet step: the encapsulation that opened it and how many messages were
      sent in it so far. Epoch `e` uses key pair `Pub(e)`; even epochs are the
      initiator's. */
  datatype Epoch = Epoch(kem: Kem, count: nat)

  datatype Sys = Sys(a: Party, b: Party, eps: seq<Epoch>)

  datatype Event =
    | Send(text: string, coin: nat, iv: nat)
    | Receive(f: Frame, kept1: set<SkipKey>, kept2: set<SkipKey>)

  function SendEpochs(p: Party, eps: seq<Epoch>, coin: nat): seq<Epoch> {
    if p.s.needStep && p.s.peerRk.Some? then eps + [Epoch(Kem(p.s.peerRk.value, coin), 0)] else eps
  }

  function Counted(eps: seq<Epoch>, e: nat): seq<Epoch> {
    if e < |eps| then eps[e := eps[e].(count := eps[e].count + 1)] else eps
  }

  function DoSend(p: Party, eps: seq<Epoch>, text: string, coin: nat, iv: nat): (Party, seq<Epoch>) {
    var (s, f) := Encrypt(p.s, text, Pub(|eps|), coin, iv);
    if f.None? then (p, eps)
    else (p.(s := s, sent := p.sent + {f.value}, roots := p.roots + {s.rk}),
          Counted(SendEpochs(p, eps, coin), f.value.hdr.rkPub.id))
  }

  /** Whether the handshake secret went into a key. */
  predicate Rooted(k: Key) {
    match k
    case NoKey => false
    case Root0 => true
    case Chain0 => true
    case RootOf(prev, _) => Rooted(prev)
    case ChainOf(prev, _) => Rooted(prev)
    case NextChain(chain) => Rooted(chain)
    case Message(chain) => Rooted(chain)
  }

  /** What the network can deliver: any frame around a ciphertext that either side made,
      or around one made without the handshake secret. */
  predicate Arises(p: Party, q: Party, f: Frame) {
    !Rooted(f.ct.key) || exists g :: g in p.sent + q.sent && f.ct == g.ct
  }

  function DoReceive(p: Party, q: Party, f: Frame, kept1: set<SkipKey>, kept2: set<SkipKey>): Party {
    if !Arises(p, q, f) then p
    else
      var (s, r) := Decrypt(p.s, f, kept1, kept2);
      if r.Failed? then p else p.(s := s, log := p.log + [((f.hdr.rkPub, f.hdr.n), r.text)])
  }

  function Step(p: Party, q: Party, eps: seq<Epoch>, e: Event): (Party, seq<Epoch>) {
    match e
    case Send(text, coin, iv) => DoSend(p, eps, text, coin, iv)
    case Receive(f, kept1, kept2) => (DoReceive(p, q, f, kept1, kept2), eps)
  }

  function Run(events: seq<(bool, Event)>): Sys {
    if events == [] then
      Sys(Party(Initiator(Pub(0)), {}, {Root0}, []), Party(Responder(Pub(0)), {}, {}, []), [Epoch(Kem(Pub(0), 0), 1)])
    else
      var t := Run(events[..|events| - 1]);
      var (byA, e) := events[|events| - 1];
      if byA then var (p, eps) := Step(t.a, t.b, t.eps, e); t.(a := p, eps := eps)
      else var (p, eps) := Step(t.b, t.a, t.eps, e); t.(b := p, eps := eps)
  }

  // --------------------------------------------------------------- invariant

  function RootAt(eps: seq<Epoch>, e: nat): Key
    requires e < |eps|
  {
    if e == 0 then Root0 else RootOf(RootAt(eps, e - 1), Shared(eps[e].kem))
  }

  function ChainAt(eps: seq<Epoch>, e: nat): Key
    requires e < |eps|
  {
    if e == 0 then Chain0 else ChainOf(RootAt(eps, e - 1), Shared(eps[e].kem))
  }

  function MessageAt(eps: seq<Epoch>, e: nat, n: nat): Key
    requires e < |eps|
  {
    Message(Chain(ChainAt(eps, e), n))
  }

  /** The epoch a session sends in and the one it receives in; -1 before the first. */
  function SendEpoch(s: Session): int { if s.myPub.Some? then s.myPub.value.id else -1 }

  function ReceiveEpoch(s: Session): int { if s.peerRk.Some? then s.peerRk.value.id else -1 }

  function Top(s: Session): int { if SendEpoch(s) < ReceiveEpoch(s) then ReceiveEpoch(s) else SendEpoch(s) }

  function CountAt(eps: seq<Epoch>, e: int): nat
    requires e < |eps|
  {
    if e < 0 then 0 else eps[e].count
  }

  function StepCt(eps: seq<Epoch>, e: nat): Option<Kem>
    requires e < |eps|
  {
    if e == 0 then None else Some(eps[e].kem)
  }

  function StepTo(e: nat): Option<Pub> { if e == 0 then None else Some(Pub(e - 1)) }

  predicate EpochsOk(eps: seq<Epoch>) {
    0 < |eps| && forall e :: 1 <= e < |eps| ==> eps[e].kem.to == Pub(e - 1)
  }

  predicate SendSide(s: Session, par: nat, eps: seq<Epoch>) {
    var se := SendEpoch(s);
    && se < |eps| && se % 2 == par
    && s.prevPub == (if se >= 2 then Some(Pub(se - 2)) else None)
    && (if se < 0 then s.cks == NoKey && s.ns == 0
        else && s.cks == Chain(ChainAt(eps, se), s.ns) && s.ns == eps[se].count
             && s.stepCt == StepCt(eps, se) && s.stepTo == StepTo(se) && s.pn == CountAt(eps, se - 2))
  }

  predicate ReceiveSide(s: Session, par: nat, eps: seq<Epoch>) {
    var re := ReceiveEpoch(s);
    && re < |eps| && re % 2 != par
    && (if re < 0 then s.ckr == NoKey && s.nr == 0
        else s.ckr == Chain(ChainAt(eps, re), s.nr) && s.nr <= eps[re].count)
  }

  predicate SkippedOk(s: Session, par: nat, eps: seq<Epoch>) {
    forall k: SkipKey :: k in s.skipped ==>
      && k.0.id < |eps| && k.0.id % 2 != par && k.0.id <= ReceiveEpoch(s)
      && s.skipped[k] == MessageAt(eps, k.0.id, k.1)
      && (k.0.id == ReceiveEpoch(s) ==> k.1 < s.nr)
  }

  predicate SessionInv(s: Session, par: nat, eps: seq<Epoch>) {
    && (if s.needStep then ReceiveEpoch(s) == SendEpoch(s) + 1 else ReceiveEpoch(s) == SendEpoch(s) - 1)
    && SendSide(s, par, eps) && ReceiveSide(s, par, eps) && SkippedOk(s, par, eps)
    && s.rk == RootAt(eps, Top(s))
  }

  /** What is accepted never becomes acceptable again. */
  predicate LogInv(p: Party) {
    && (forall i :: 0 <= i < |p.log| ==> Used(p.s, p.log[i].0))
    && (forall i, j :: 0 <= i < j < |p.log| ==> p.log[i].0 != p.log[j].0)
  }

  predicate Used(s: Session, k: SkipKey) {
    k !in s.skipped && k.0.id <= ReceiveEpoch(s) && (k.0.id == ReceiveEpoch(s) ==> k.1 < s.nr)
  }

  predicate FrameOk(f: Frame, par: nat, eps: seq<Epoch>) {
    var e := f.hdr.rkPub.id;
    && e < |eps| && e % 2 == par && f.hdr.n < eps[e].count
    && f.hdr.stepCt == StepCt(eps, e) && f.hdr.to == StepTo(e) && f.hdr.pn == CountAt(eps, e - 2)
    && f.ct == Sealed(MessageAt(eps, e, f.hdr.n), f.iv, f.hdr, f.ct.text)
  }

  predicate SentOk(p: Party, par: nat, eps: seq<Epoch>) {
    && (forall f :: f in p.sent ==> FrameOk(f, par, eps))
    && (forall f, g :: f in p.sent && g in p.sent && f.hdr.rkPub == g.hdr.rkPub && f.hdr.n == g.hdr.n ==> f == g)
    && (forall e: nat :: e < |eps| && e % 2 == par ==> RootAt(eps, e) in p.roots)
  }

  predicate PartyInv(p: Party, par: nat, eps: seq<Epoch>) {
    SessionInv(p.s, par, eps) && LogInv(p) && SentOk(p, par, eps)
  }

  /** Every entry of `p`'s log is a message `q` sent. */
  ghost predicate LogFrom(p: Party, q: Party) {
    forall i :: 0 <= i < |p.log| ==> SentAs(q, p.log[i])
  }

  function Entry(f: Frame): (SkipKey, string) { ((f.hdr.rkPub, f.hdr.n), f.ct.text) }

  ghost predicate SentAs(q: Party, x: (SkipKey, string)) { exists f :: f in q.sent && x == Entry(f) }

  ghost predicate Inv(p: Party, q: Party, par: nat, eps: seq<Epoch>) {
    && par < 2 && EpochsOk(eps)
    && PartyInv(p, par, eps) && PartyInv(q, 1 - par, eps)
    && ReceiveEpoch(p.s) <= SendEpoch(q.s) && ReceiveEpoch(q.s) <= SendEpoch(p.s)
    && |eps| - 1 == (if SendEpoch(p.s) < SendEpoch(q.s) then SendEpoch(q.s) else SendEpoch(p.s))
    && LogFrom(p, q) && LogFrom(q, p)
  }

  // ------------------------------------------------------------------ key terms

  lemma {:induction false} ChainInjective(x: Key, y: Key, n: nat)
    requires Chain(x, n) == Chain(y, n)
    ensures x == y
  {
    if n > 0 { ChainInjective(x, y, n - 1); }
  }

  lemma {:induction false} ChainIsKey(x: Key, n: nat)
    requires x != NoKey
    ensures Chain(x, n) != NoKey
  {
  }

  lemma {:induction false} RootInjective(eps: seq<Epoch>, d: nat, e: nat)
    requires d < |eps| && e < |eps| && RootAt(eps, d) == RootAt(eps, e)
    ensures d == e
  {
    if d > 0 && e > 0 { RootInjective(eps, d - 1, e - 1); }
  }

  /** Counting messages and opening later epochs leaves earlier keys alone. */
  lemma {:induction false} RootStable(eps: seq<Epoch>, eps': seq<Epoch>, e: nat)
    requires e < |eps| <= |eps'| && forall k :: 0 <= k < |eps| ==> eps'[k].kem == eps[k].kem
    ensures RootAt(eps', e) == RootAt(eps, e) && ChainAt(eps', e) == ChainAt(eps, e)
  {
    if e > 0 { RootStable(eps, eps', e - 1); }
  }

  lemma {:induction false} ChainRooted(k: Key, n: nat)
    ensures Rooted(Chain(k, n)) <==> Rooted(k)
  {
    if n > 0 { ChainRooted(k, n - 1); }
  }

  lemma {:induction false} RootRooted(eps: seq<Epoch>, e: nat)
    requires e < |eps|
    ensures Rooted(RootAt(eps, e)) && Rooted(ChainAt(eps, e))
  {
    if e > 0 { RootRooted(eps, e - 1); }
  }

  lemma MessageRooted(eps: seq<Epoch>, e: nat, n: nat)
    requires e < |eps|
    ensures Rooted(MessageAt(eps, e, n))
  {
    hide ChainAt;
    RootRooted(eps, e);
    ChainRooted(ChainAt(eps, e), n);
  }

  // ------------------------------------------------------------------- skipping

  /** `t` is `s` advanced to `until` on the chain from `start`, with nothing stored but
      what was stored before and the keys passed over. */
  predicate Skipped(s: Session, t: Session, start: Key, until: nat) {
    var nr := if s.nr < until then until else s.nr;
    && t == s.(nr := nr, ckr := Chain(start, nr), skipped := t.skipped)
    && forall k: SkipKey :: k in t.skipped ==>
         || (k in s.skipped && t.skipped[k] == s.skipped[k])
         || (Some(k.0) == s.peerRk && s.nr <= k.1 < until && t.skipped[k] == Message(Chain(start, k.1)))
  }

  lemma {:induction false} StoreEffect(s: Session, until: nat, start: Key)
    requires s.peerRk.Some? && s.ckr == Chain(start, s.nr)
    ensures Skipped(s, Store(s, until), start, until)
    decreases until - s.nr
  {
    if s.nr < until {
      var t := s.(skipped := s.skipped[(s.peerRk.value, s.nr) := Message(s.ckr)], ckr := NextChain(s.ckr),
          nr := s.nr + 1);
      StoreEffect(t, until, start);
    }
  }

  lemma SkipEffect(s: Session, until: nat, start: Key, kept: set<SkipKey>)
    requires s.peerRk.Some? && s.ckr == Chain(start, s.nr) && start != NoKey
    ensures var t := SkipTo(s, until, kept);
            (t.Some? <==> until <= s.nr + MAX_SKIP) && (t.Some? ==> Skipped(s, t.value, start, until))
  {
    ChainIsKey(start, s.nr);
    StoreEffect(s, until, start);
  }

  ghost predicate KeepsUsed(s: Session, t: Session) { forall k: SkipKey :: Used(s, k) ==> Used(t, k) }

  /** Skipping ahead on the receiving chain keeps everything the session knows. */
  lemma SkipKeeps(s: Session, t: Session, par: nat, eps: seq<Epoch>, until: nat)
    requires SessionInv(s, par, eps) && ReceiveEpoch(s) >= 0 && until <= eps[ReceiveEpoch(s)].count
    requires Skipped(s, t, ChainAt(eps, ReceiveEpoch(s)), until)
    ensures SessionInv(t, par, eps) && KeepsUsed(s, t)
  {
    hide RootAt, ChainAt, Chain;
  }

  /** A frame of the current receiving epoch: the key is the sender's, and the session
      moves just past it. */
  lemma CurrentKeeps(s: Session, par: nat, eps: seq<Epoch>, n: nat, kept: set<SkipKey>)
    requires SessionInv(s, par, eps) && ReceiveEpoch(s) >= 0 && n < eps[ReceiveEpoch(s)].count
    ensures var re, d := ReceiveEpoch(s), CurrentChain(s, n, kept);
            && (d.Derived? <==> s.nr <= n <= s.nr + MAX_SKIP)
            && (d.Derived? ==>
                  && d.mk == MessageAt(eps, re, n) && SessionInv(d.s, par, eps) && KeepsUsed(s, d.s)
                  && Used(d.s, (Pub(re), n)) && !Used(s, (Pub(re), n))
                  && ReceiveEpoch(d.s) == re && SendEpoch(d.s) == SendEpoch(s))
  {
    hide RootAt, ChainAt, SendSide, SkippedOk, Store, Chain;
    var re := ReceiveEpoch(s);
    var start := ChainAt(eps, re);
    ChainStart(eps, re);
    SkipEffect(s, n, start, kept);
    if s.nr <= n <= s.nr + MAX_SKIP {
      var t := SkipTo(s, n, kept).value;
      SkipKeeps(s, t, par, eps, n);
      TakeNext(t, par, eps);
    }
  }

  /** Taking the next message of the receiving chain. */
  lemma TakeNext(t: Session, par: nat, eps: seq<Epoch>)
    requires SessionInv(t, par, eps) && ReceiveEpoch(t) >= 0 && t.nr < eps[ReceiveEpoch(t)].count
    ensures var u, re := t.(ckr := NextChain(t.ckr), nr := t.nr + 1), ReceiveEpoch(t);
            && SessionInv(u, par, eps) && KeepsUsed(t, u) && Message(t.ckr) == MessageAt(eps, re, t.nr)
            && Used(u, (Pub(re), t.nr)) && !Used(t, (Pub(re), t.nr)) && ReceiveEpoch(u) == re &&
                 SendEpoch(u) == SendEpoch(t)
  {
    hide RootAt, ChainAt;
  }

  lemma ChainStart(eps: seq<Epoch>, e: nat)
    requires e < |eps|
    ensures ChainAt(eps, e) != NoKey
  {
  }

  // ------------------------------------------------------------------ new epochs

  /** The session after skipping to the end of the old chain. */
  lemma SkipOldKeeps(s: Session, par: nat, eps: seq<Epoch>, pn: nat, kept: set<SkipKey>)
    requires SessionInv(s, par, eps) && pn == CountAt(eps, ReceiveEpoch(s))
    ensures var t := SkipTo(s, pn, kept);
            && (t.Some? <==> ReceiveEpoch(s) < 0 || pn <= s.nr + MAX_SKIP)
            && (t.Some? ==> SessionInv(t.value, par, eps) && KeepsUsed(s, t.value) &&
                            t.value == s.(ckr := t.value.ckr, nr := t.value.nr, skipped := t.value.skipped))
  {
    hide RootAt, ChainAt, SendSide;
    var re := ReceiveEpoch(s);
    if re >= 0 {
      ChainStart(eps, re);
      SkipEffect(s, pn, ChainAt(eps, re), kept);
      if pn <= s.nr + MAX_SKIP { SkipKeeps(s, SkipTo(s, pn, kept).value, par, eps, pn); }
    }
  }

  /** Moving to epoch `e` with the right secret. */
  lemma ReceiveStepKeeps(s: Session, par: nat, eps: seq<Epoch>, e: nat)
    requires SessionInv(s, par, eps) && !s.needStep && e == ReceiveEpoch(s) + 2 && e < |eps|
    ensures var u := ReceiveStep(s, Pub(e), Shared(eps[e].kem));
            SessionInv(u, par, eps) && KeepsUsed(s, u) && ReceiveEpoch(u) == e && SendEpoch(u) == SendEpoch(s) &&
                u.nr == 0
  {
  }

  /** The key derived on a new chain is the frame's only if the session's root is the
      one the frame's epoch was opened from. */
  lemma NewChainKey(s: Session, t: Session, h: Header, secret: Secret, kept: set<SkipKey>)
    requires t == s.(ckr := t.ckr, nr := t.nr, skipped := t.skipped)
    ensures var d := CurrentChain(ReceiveStep(t, h.rkPub, secret), h.n, kept);
            d.Derived? ==> d.mk == Message(Chain(ChainOf(s.rk, secret), h.n))
  {
    SkipEffect(ReceiveStep(t, h.rkPub, secret), h.n, ChainOf(s.rk, secret), kept);
  }

  lemma SkipFrame(s: Session, until: nat, kept: set<SkipKey>)
    ensures var t := SkipTo(s, until, kept);
            t.Some? ==> t.value == s.(ckr := t.value.ckr, nr := t.value.nr, skipped := t.value.skipped)
  {
    if s.peerRk.Some? { StoreFrame(s, until); }
  }

  lemma {:induction false} StoreFrame(s: Session, until: nat)
    requires s.peerRk.Some?
    ensures var t := Store(s, until); t == s.(ckr := t.ckr, nr := t.nr, skipped := t.skipped)
    decreases until - s.nr
  {
    if s.nr < until {
      StoreFrame(s.(skipped := s.skipped[(s.peerRk.value, s.nr) := Message(s.ckr)], ckr := NextChain(s.ckr),
          nr := s.nr + 1), until);
    }
  }

  /** A session whose root opened epoch `e` is the one waiting for it. */
  lemma RootDecides(s: Session, par: nat, eps: seq<Epoch>, e: nat)
    requires par < 2 && SessionInv(s, par, eps) && 1 <= e < |eps| && e % 2 != par && s.rk == RootAt(eps, e - 1)
    ensures !s.needStep && e == ReceiveEpoch(s) + 2 && SendEpoch(s) == e - 1
  {
    hide SkippedOk;
    RootInjective(eps, Top(s), e - 1);
  }

  /** Whatever a session commits on a new chain, it is the next epoch of the peer. */
  lemma NewEpochKeeps(s: Session, par: nat, eps: seq<Epoch>, f: Frame, kept1: set<SkipKey>, kept2: set<SkipKey>)
    requires par < 2 && SessionInv(s, par, eps) && EpochsOk(eps) && FrameOk(f, 1 - par, eps)
    requires (f.hdr.rkPub, f.hdr.n) !in s.skipped && Some(f.hdr.rkPub) != s.peerRk
    requires var d := Derive(s, f.hdr, kept1, kept2); d.Derived? && d.mk == f.ct.key
    ensures var e, d := f.hdr.rkPub.id, Derive(s, f.hdr, kept1, kept2);
            && e == ReceiveEpoch(s) + 2
            && SessionInv(d.s, par, eps) && KeepsUsed(s, d.s) && Used(d.s, (Pub(e), f.hdr.n)) &&
                 !Used(s, (Pub(e), f.hdr.n))
            && ReceiveEpoch(d.s) == e && SendEpoch(d.s) == SendEpoch(s)
  {
    hide SessionInv, CurrentChain, SkipTo, RootAt, Used;
    var h, e := f.hdr, f.hdr.rkPub.id;
    SkipFrame(s, h.pn, kept1);
    var t := SkipTo(s, h.pn, kept1).value;
    var own := OwnKey(t, h.to).value;
    var secret := Decaps(own, h.stepCt.value);
    NewChainKey(s, t, h, secret, kept2);
    ChainInjective(ChainOf(s.rk, secret), ChainAt(eps, e), h.n);
    RootDecides(s, par, eps, e);
    SkipOldKeeps(s, par, eps, h.pn, kept1);
    ReceiveStepKeeps(t, par, eps, e);
    CurrentKeeps(ReceiveStep(t, Pub(e), secret), par, eps, h.n, kept2);
    UsedNotFuture(s, e, h.n);
  }

  lemma UsedNotFuture(s: Session, e: nat, n: nat)
    requires e > ReceiveEpoch(s)
    ensures !Used(s, (Pub(e), n))
  {
  }

  /** Every accepted frame: the session stays consistent, the frame was not accepted
      before and never will be again, and the text is the sender's. */
  lemma AcceptKeeps(s: Session, par: nat, eps: seq<Epoch>, f: Frame, kept1: set<SkipKey>, kept2: set<SkipKey>)
    requires par < 2 && SessionInv(s, par, eps) && EpochsOk(eps) && FrameOk(f, 1 - par, eps)
    requires Decrypt(s, f, kept1, kept2).1.Text?
    ensures var (t, r) := Decrypt(s, f, kept1, kept2);
            var k := (f.hdr.rkPub, f.hdr.n);
            && r.text == f.ct.text && f.ct.key == Derive(s, f.hdr, kept1, kept2).mk
            && SessionInv(t, par, eps) && KeepsUsed(s, t) && Used(t, k) && !Used(s, k)
            && SendEpoch(t) == SendEpoch(s)
            && (ReceiveEpoch(t) == ReceiveEpoch(s) || ReceiveEpoch(t) == f.hdr.rkPub.id)
  {
    hide SessionInv, CurrentChain, SkipTo;
    var h, e := f.hdr, f.hdr.rkPub.id;
    if (h.rkPub, h.n) in s.skipped {
      TakeStored(s, par, eps, (h.rkPub, h.n));
    } else if Some(h.rkPub) == s.peerRk {
      CurrentKeeps(s, par, eps, h.n, kept2);
    } else {
      NewEpochKeeps(s, par, eps, f, kept1, kept2);
    }
  }

  lemma TakeStored(s: Session, par: nat, eps: seq<Epoch>, k: SkipKey)
    requires SessionInv(s, par, eps) && k in s.skipped
    ensures var t := s.(skipped := s.skipped - {k});
            SessionInv(t, par, eps) && KeepsUsed(s, t) && Used(t, k) && !Used(s, k)
  {
    hide RootAt, ChainAt, Chain;
  }

  // ------------------------------------------------------------------- forged frames

  lemma SkipRooted(s: Session, until: nat, start: Key, kept: set<SkipKey>)
    requires s.peerRk.Some? && s.ckr == Chain(start, s.nr) && start != NoKey && Rooted(start)
    ensures var t := SkipTo(s, until, kept); t.Some? ==> Rooted(t.value.ckr) && t.value.peerRk == s.peerRk
  {
    hide Chain, SkipTo, Rooted;
    SkipEffect(s, until, start, kept);
    var t := SkipTo(s, until, kept);
    if t.Some? { ChainRooted(start, t.value.nr); }
  }

  /** Every message key a session derives, for whatever header, has the handshake secret
      in it. */
  lemma DeriveRooted(s: Session, par: nat, eps: seq<Epoch>, h: Header, kept1: set<SkipKey>, kept2: set<SkipKey>)
    requires SessionInv(s, par, eps) && |eps| > 0
    ensures var d := Derive(s, h, kept1, kept2); d.Derived? ==> Rooted(d.mk)
  {
    hide SkipTo, RootAt, ChainAt, Chain;
    var k := (h.rkPub, h.n);
    if k in s.skipped {
      MessageRooted(eps, k.0.id, k.1);
    } else if Some(h.rkPub) == s.peerRk {
      var e := ReceiveEpoch(s);
      ChainStart(eps, e);
      RootRooted(eps, e);
      SkipRooted(s, h.n, ChainAt(eps, e), kept2);
    } else if h.stepCt.Some? {
      var t := SkipTo(s, h.pn, kept1);
      if t.Some? && OwnKey(t.value, h.to).Some? {
        var secret := Decaps(OwnKey(t.value, h.to).value, h.stepCt.value);
        SkipFrame(s, h.pn, kept1);
        NewChainKey(s, t.value, h, secret, kept2);
        RootRooted(eps, Top(s));
        ChainRooted(ChainOf(s.rk, secret), h.n);
      }
    }
  }

  /** A session refuses its own frames. */
  lemma OwnRefused(p: Party, q: Party, par: nat, eps: seq<Epoch>, f: Frame, kept1: set<SkipKey>, kept2: set<SkipKey>)
    requires Inv(p, q, par, eps) && FrameOk(f, par, eps)
    ensures Decrypt(p.s, f, kept1, kept2).1.Failed?
  {
    hide SentOk, LogInv, LogFrom, RootAt, Chain, SkipTo, CurrentChain;
    var s, h, e := p.s, f.hdr, f.hdr.rkPub.id;
    Alternation(p, q, par, eps);
    Parity(s, par, eps);
    var d := Derive(s, h, kept1, kept2);
    if d.Derived? && d.mk == f.ct.key {
      SkipFrame(s, h.pn, kept1);
      var t := SkipTo(s, h.pn, kept1).value;
      var secret := Decaps(OwnKey(t, h.to).value, h.stepCt.value);
      NewChainKey(s, t, h, secret, kept2);
      ChainInjective(ChainOf(s.rk, secret), ChainAt(eps, e), h.n);
      RootInjective(eps, Top(s), e - 1);
      assert false;
    }
  }

  /** Of all that can arise, a session opens only frames that the other side sent, exactly
      as they were sent. */
  lemma OnlySent(p: Party, q: Party, par: nat, eps: seq<Epoch>, f: Frame, kept1: set<SkipKey>, kept2: set<SkipKey>)
    requires Inv(p, q, par, eps) && Arises(p, q, f) && Decrypt(p.s, f, kept1, kept2).1.Text?
    ensures f in q.sent
  {
    hide SessionInv, LogInv, LogFrom, RootAt, ChainAt, Chain, Derive, Rooted;
    DeriveRooted(p.s, par, eps, f.hdr, kept1, kept2);
    var g :| g in p.sent + q.sent && f.ct == g.ct;
    assert FrameOk(g, if g in q.sent then 1 - par else par, eps);
    assert f == g;
    if g !in q.sent { OwnRefused(p, q, par, eps, f, kept1, kept2); }
  }

  // --------------------------------------------------------------------- sending

  /** What only grows: the key material of existing epochs and the counts of epochs
      other than `live` stay. */
  predicate Extends(eps: seq<Epoch>, eps': seq<Epoch>, live: nat) {
    && |eps| <= |eps'|
    && (forall k :: 0 <= k < |eps| ==> eps'[k].kem == eps[k].kem && eps[k].count <= eps'[k].count)
    && (forall k :: 0 <= k < |eps| && k != live ==> eps'[k].count == eps[k].count)
  }

  /** A session that is not sending in `live` does not notice. */
  lemma SessionStable(s: Session, par: nat, eps: seq<Epoch>, eps': seq<Epoch>, live: nat)
    requires SessionInv(s, par, eps) && Extends(eps, eps', live) && SendEpoch(s) != live && SendEpoch(s) != live + 2
    ensures SessionInv(s, par, eps')
  {
    hide SendSide, ReceiveSide, SkippedOk, RootAt;
    SidesBounded(s, par, eps);
    RootStable(eps, eps', Top(s));
    SidesStable(s, par, eps, eps', live);
    SkippedStable(s, par, eps, eps');
  }

  lemma SidesBounded(s: Session, par: nat, eps: seq<Epoch>)
    requires SendSide(s, par, eps) && ReceiveSide(s, par, eps)
    ensures SendEpoch(s) < |eps| && ReceiveEpoch(s) < |eps|
  {
  }

  lemma SidesStable(s: Session, par: nat, eps: seq<Epoch>, eps': seq<Epoch>, live: nat)
    requires SendSide(s, par, eps) && ReceiveSide(s, par, eps) && Extends(eps, eps', live) && SendEpoch(s) != live &&
             SendEpoch(s) != live + 2
    ensures SendSide(s, par, eps') && ReceiveSide(s, par, eps')
  {
    hide Chain, RootAt, ChainAt;
    if SendEpoch(s) >= 0 { RootStable(eps, eps', SendEpoch(s)); }
    if ReceiveEpoch(s) >= 0 { RootStable(eps, eps', ReceiveEpoch(s)); }
  }

  lemma SkippedStable(s: Session, par: nat, eps: seq<Epoch>, eps': seq<Epoch>)
    requires SkippedOk(s, par, eps) && |eps| <= |eps'| && forall k :: 0 <= k < |eps| ==> eps'[k].kem == eps[k].kem
    ensures SkippedOk(s, par, eps')
  {
    hide Chain, RootAt, ChainAt;
    forall e | 0 <= e < |eps| ensures ChainAt(eps', e) == ChainAt(eps, e) { RootStable(eps, eps', e); }
  }

  lemma FramesStable(p: Party, par: nat, eps: seq<Epoch>, eps': seq<Epoch>, live: nat)
    requires SentOk(p, par, eps) && Extends(eps, eps', live) && (forall f :: f in p.sent ==> f.hdr.rkPub.id != live + 2)
    requires forall e: nat :: |eps| <= e < |eps'| && e % 2 == par ==> RootAt(eps', e) in p.roots
    ensures SentOk(p, par, eps')
  {
    hide Chain;
    forall e | 0 <= e < |eps| { RootStable(eps, eps', e); }
  }

  /** The parity of the epochs keeps the two sides apart, and nobody sends beyond the
      last one. */
  lemma Alternation(p: Party, q: Party, par: nat, eps: seq<Epoch>)
    requires Inv(p, q, par, eps)
    ensures SendEpoch(p.s) <= |eps| - 1 <= SendEpoch(p.s) + 1
    ensures p.s.needStep ==> |eps| - 1 == ReceiveEpoch(p.s) == SendEpoch(q.s)
  {
    hide SkippedOk, SentOk, LogInv, LogFrom;
  }

  /** Sending without a step. */
  lemma PlainSendKeeps(s: Session, par: nat, eps: seq<Epoch>)
    requires par < 2 && SessionInv(s, par, eps) && !s.needStep && SendEpoch(s) >= 0
    ensures var eps' := Counted(eps, SendEpoch(s));
            Extends(eps, eps', SendEpoch(s)) && SessionInv(s.(ns := s.ns + 1, cks := NextChain(s.cks)), par, eps')
  {
    hide RootAt, ChainAt;
    var eps' := Counted(eps, SendEpoch(s));
    forall e | 0 <= e < |eps| { RootStable(eps, eps', e); }
  }

  lemma PlainSendFrame(s: Session, par: nat, eps: seq<Epoch>, f: Frame, text: string, iv: nat)
    requires par < 2 && SessionInv(s, par, eps) && !s.needStep && SendEpoch(s) >= 0
    requires var hdr := Header(s.myPub.value, s.stepCt, s.stepTo, s.pn, s.ns);
             f == Frame(hdr, iv, Sealed(Message(s.cks), iv, hdr, text))
    ensures FrameOk(f, par, Counted(eps, SendEpoch(s)))
  {
    hide RootAt, ChainAt, Chain, ReceiveSide, SkippedOk;
    RootStable(eps, Counted(eps, SendEpoch(s)), SendEpoch(s));
  }

  lemma EpochAdds(eps: seq<Epoch>, e: nat)
    requires 0 < e < |eps|
    ensures RootAt(eps, e) == RootOf(RootAt(eps, e - 1), Shared(eps[e].kem))
    ensures ChainAt(eps, e) == ChainOf(RootAt(eps, e - 1), Shared(eps[e].kem))
  {
  }

  /** A ratchet step opens the next epoch. */
  lemma StepSendKeeps(s: Session, par: nat, eps: seq<Epoch>, coin: nat)
    requires par < 2 && SessionInv(s, par, eps) && EpochsOk(eps) && s.needStep && |eps| - 1 == ReceiveEpoch(s)
    ensures var eps' := eps + [Epoch(Kem(s.peerRk.value, coin), 0)];
            var t := SendStep(s, Pub(|eps|), coin);
            && Extends(eps, eps', |eps|) && EpochsOk(eps')
            && SessionInv(t, par, eps') && !t.needStep && SendEpoch(t) == |eps| && ReceiveEpoch(t) == ReceiveEpoch(s)
            && t.rk == RootAt(eps', |eps|) && KeepsUsed(s, t)
  {
    hide Chain, RootAt, ChainAt;
    var eps' := eps + [Epoch(Kem(s.peerRk.value, coin), 0)];
    SessionStable(s, par, eps, eps', |eps|);
    EpochAdds(eps', |eps|);
    ChainZero(ChainAt(eps', |eps|));
  }

  lemma ChainZero(k: Key)
    ensures Chain(k, 0) == k
  {
  }

  /** The session and epochs from which `p` sends: after its step, if one is due. */
  function ReadyParty(p: Party, eps: seq<Epoch>, coin: nat): Party {
    if p.s.needStep && p.s.peerRk.Some? then
      var t := SendStep(p.s, Pub(|eps|), coin); p.(s := t, roots := p.roots + {t.rk})
    else p
  }

  lemma ReadyKeeps(p: Party, q: Party, par: nat, eps: seq<Epoch>, coin: nat)
    requires Inv(p, q, par, eps)
    ensures var p' := ReadyParty(p, eps, coin);
            Inv(p', q, par, SendEpochs(p, eps, coin)) && !p'.s.needStep && SendEpoch(p'.s) >= 0
  {
    hide RootAt, ChainAt, Chain, SendSide, ReceiveSide, SkippedOk, FrameOk, EpochsOk, SentAs;
    Alternation(p, q, par, eps);
    Parity(p.s, par, eps);
    if p.s.needStep {
      var eps' := SendEpochs(p, eps, coin);
      StepSendKeeps(p.s, par, eps, coin);
      SessionStable(q.s, 1 - par, eps, eps', |eps|);
      FrameEpochs(p, par, eps);
      FrameEpochs(q, 1 - par, eps);
      FramesStable(ReadyParty(p, eps, coin), par, eps, eps', |eps|);
      FramesStable(q, 1 - par, eps, eps', |eps|);
      LogFromMore(q, p, ReadyParty(p, eps, coin));
    }
  }

  lemma FrameEpochs(p: Party, par: nat, eps: seq<Epoch>)
    requires SentOk(p, par, eps)
    ensures forall f :: f in p.sent ==>
            f.hdr.rkPub.id < |eps| && f.hdr.rkPub.id % 2 == par && f.hdr.n < eps[f.hdr.rkPub.id].count
  {
  }

  /** The plain send of a ready party. */
  function PlainSend(p: Party, f: Frame): Party {
    p.(s := p.s.(ns := p.s.ns + 1, cks := NextChain(p.s.cks)), sent := p.sent + {f})
  }

  lemma PlainKeeps(p: Party, q: Party, par: nat, eps: seq<Epoch>, f: Frame, text: string, iv: nat)
    requires Inv(p, q, par, eps) && !p.s.needStep && SendEpoch(p.s) >= 0
    requires var hdr := Header(p.s.myPub.value, p.s.stepCt, p.s.stepTo, p.s.pn, p.s.ns);
             f == Frame(hdr, iv, Sealed(Message(p.s.cks), iv, hdr, text))
    ensures Inv(PlainSend(p, f), q, par, Counted(eps, SendEpoch(p.s)))
  {
    hide RootAt, ChainAt, Chain, SendSide, ReceiveSide, SkippedOk, FrameOk;
    var live, p' := SendEpoch(p.s), PlainSend(p, f);
    var eps' := Counted(eps, live);
    Alternation(p, q, par, eps);
    Parity(p.s, par, eps);
    Parity(q.s, 1 - par, eps);
    PlainSendKeeps(p.s, par, eps);
    PlainSendFrame(p.s, par, eps, f, text, iv);
    SessionStable(q.s, 1 - par, eps, eps', live);
    FrameEpochs(p, par, eps);
    FrameEpochs(q, 1 - par, eps);
    FramesStable(p, par, eps, eps', live);
    FramesStable(q, 1 - par, eps, eps', live);
    LogFromMore(q, p, p');
    NewestFrame(p.s, par, eps);
  }

  lemma Parity(s: Session, par: nat, eps: seq<Epoch>)
    requires SessionInv(s, par, eps)
    ensures SendEpoch(s) % 2 == par && ReceiveEpoch(s) % 2 != par
  {
  }

  /** The next message number has not been used in this epoch. */
  lemma NewestFrame(s: Session, par: nat, eps: seq<Epoch>)
    requires SessionInv(s, par, eps) && SendEpoch(s) >= 0
    ensures s.ns == eps[SendEpoch(s)].count
  {
  }

  lemma LogFromMore(p: Party, q: Party, q': Party)
    requires LogFrom(p, q) && q.sent <= q'.sent
    ensures LogFrom(p, q')
  {
    forall i | 0 <= i < |p.log| ensures SentAs(q', p.log[i]) {
      assert SentAs(q, p.log[i]);
      var f :| f in q.sent && p.log[i] == Entry(f);
      assert f in q'.sent;
    }
  }

  lemma SendKeeps(p: Party, q: Party, par: nat, eps: seq<Epoch>, text: string, coin: nat, iv: nat)
    requires Inv(p, q, par, eps)
    ensures var (p', eps') := DoSend(p, eps, text, coin, iv); Inv(p', q, par, eps')
    ensures Encrypt(p.s, text, Pub(|eps|), coin, iv).1.Some?
  {
    hide Inv, RootAt;
    var r, eps1 := ReadyParty(p, eps, coin), SendEpochs(p, eps, coin);
    ReadyKeeps(p, q, par, eps, coin);
    CanSend(p, q, par, eps);
    CanSend(r, q, par, eps1);
    var f := Encrypt(p.s, text, Pub(|eps|), coin, iv).1.value;
    PlainKeeps(r, q, par, eps1, f, text, iv);
    assert DoSend(p, eps, text, coin, iv) == (PlainSend(r, f), Counted(eps1, SendEpoch(r.s)));
  }

  /** A session is always ready to send, and has already recorded its own root. */
  lemma CanSend(p: Party, q: Party, par: nat, eps: seq<Epoch>)
    requires Inv(p, q, par, eps)
    ensures p.s.needStep ==> p.s.peerRk.Some?
    ensures !p.s.needStep ==> p.s.cks != NoKey && p.s.myPub.Some? && p.s.rk in p.roots && p.roots + {p.s.rk} == p.roots
  {
    hide SkippedOk, LogInv, LogFrom, FrameOk;
    if !p.s.needStep {
      ChainStart(eps, SendEpoch(p.s));
      ChainIsKey(ChainAt(eps, SendEpoch(p.s)), p.s.ns);
    }
  }

  // ----------------------------------------------------------------------- runs

  lemma ReceiveKeeps(p: Party, q: Party, par: nat, eps: seq<Epoch>, f: Frame, kept1: set<SkipKey>, kept2: set<SkipKey>)
    requires Inv(p, q, par, eps)
    ensures Inv(DoReceive(p, q, f, kept1, kept2), q, par, eps)
  {
    hide RootAt, ChainAt, Chain, SendSide, ReceiveSide, SkippedOk, FrameOk, Decrypt, EpochsOk;
    var p' := DoReceive(p, q, f, kept1, kept2);
    if Arises(p, q, f) && Decrypt(p.s, f, kept1, kept2).1.Text? {
      OnlySent(p, q, par, eps, f, kept1, kept2);
      AcceptKeeps(p.s, par, eps, f, kept1, kept2);
      SentSoFar(q, p, par, eps, f);
      var k := (f.hdr.rkPub, f.hdr.n);
      assert forall i :: 0 <= i < |p.log| ==> Used(p.s, p.log[i].0) && p'.log[i] == p.log[i];
      assert p'.log[|p.log|] == Entry(f) && SentAs(q, Entry(f));
      LogFromMore(q, p, p');
    }
  }

  lemma SentSoFar(q: Party, p: Party, par: nat, eps: seq<Epoch>, f: Frame)
    requires Inv(p, q, par, eps) && f in q.sent
    ensures f.hdr.rkPub.id <= SendEpoch(q.s)
  {
    hide RootAt, ChainAt, Chain, SkippedOk, EpochsOk, LogFrom;
    FrameEpochs(q, 1 - par, eps);
  }

  lemma Symmetric(p: Party, q: Party, par: nat, eps: seq<Epoch>)
    requires Inv(p, q, par, eps)
    ensures Inv(q, p, 1 - par, eps)
  {
    hide PartyInv, EpochsOk, LogFrom;
  }

  lemma StepKeeps(p: Party, q: Party, par: nat, eps: seq<Epoch>, e: Event)
    requires Inv(p, q, par, eps)
    ensures var (p', eps') := Step(p, q, eps, e); Inv(p', q, par, eps')
  {
    hide Inv, DoSend, DoReceive;
    match e
    case Send(text, coin, iv) => SendKeeps(p, q, par, eps, text, coin, iv);
    case Receive(f, kept1, kept2) => ReceiveKeeps(p, q, par, eps, f, kept1, kept2);
  }

  lemma {:induction false} RunInv(events: seq<(bool, Event)>)
    ensures var t := Run(events); Inv(t.a, t.b, 0, t.eps)
  {
    hide Inv, Step;
    if events == [] {
      StartInv();
    } else {
      RunInv(events[..|events| - 1]);
      var t := Run(events[..|events| - 1]);
      var (byA, e) := events[|events| - 1];
      if byA {
        StepKeeps(t.a, t.b, 0, t.eps, e);
      } else {
        Symmetric(t.a, t.b, 0, t.eps);
        StepKeeps(t.b, t.a, 1, t.eps, e);
        var (p, eps) := Step(t.b, t.a, t.eps, e);
        Symmetric(p, t.a, 1, eps);
      }
    }
  }

  lemma StartInv()
    ensures var t := Run([]); Inv(t.a, t.b, 0, t.eps)
  {
    hide SessionInv, SentOk, LogInv, RootAt;
    var t := Run([]);
    FirstKeys(t.eps);
    StartSessions(t.eps);
    StartSent(t.a, t.b, t.eps);
    NothingLogged(t.a);
    NothingLogged(t.b);
  }

  lemma StartSessions(eps: seq<Epoch>)
    requires |eps| == 1 && eps[0].count == 1
    ensures SessionInv(Initiator(Pub(0)), 0, eps) && SessionInv(Responder(Pub(0)), 1, eps)
  {
    hide RootAt, ChainAt, Chain;
    FirstKeys(eps);
  }

  lemma StartSent(p: Party, q: Party, eps: seq<Epoch>)
    requires |eps| == 1 && p.sent == {} && q.sent == {} && Root0 in p.roots
    ensures SentOk(p, 0, eps) && SentOk(q, 1, eps)
  {
    hide RootAt, ChainAt;
    FirstKeys(eps);
  }

  lemma NothingLogged(p: Party)
    requires p.log == []
    ensures LogInv(p)
  {
  }

  lemma FirstKeys(eps: seq<Epoch>)
    requires |eps| == 1
    ensures RootAt(eps, 0) == Root0 && ChainAt(eps, 0) == Chain0
  {
  }

  // ------------------------------------------------------------------- theorems

  predicate NoRepeats(log: seq<(SkipKey, string)>) {
    forall i, j :: 0 <= i < j < |log| ==> log[i].0 != log[j].0
  }

  /** In every run each side accepts only messages the other sent, each ratchet key and
      index at most once, and every root key it holds is one that it or the other side
      derived when sending. */
  lemma SafeDelivery(events: seq<(bool, Event)>)
    ensures var t := Run(events);
            && LogFrom(t.a, t.b) && NoRepeats(t.a.log) && t.a.s.rk in t.a.roots + t.b.roots
            && LogFrom(t.b, t.a) && NoRepeats(t.b.log) && t.b.s.rk in t.a.roots + t.b.roots
  {
    RunInv(events);
    var t := Run(events);
    RootHeld(t.a, t.b, 0, t.eps);
    Symmetric(t.a, t.b, 0, t.eps);
    RootHeld(t.b, t.a, 1, t.eps);
  }

  lemma RootHeld(p: Party, q: Party, par: nat, eps: seq<Epoch>)
    requires Inv(p, q, par, eps)
    ensures p.s.rk in p.roots + q.roots
  {
    hide RootAt, ChainAt, Chain, SkippedOk, FrameOk, EpochsOk, LogFrom;
    assert RootAt(eps, Top(p.s)) in p.roots || RootAt(eps, Top(p.s)) in q.roots;
  }

  /** The party's side of a run. */
  function Me(t: Sys, isA: bool): Party { if isA then t.a else t.b }

  /** Whatever frame arises in a reachable state: it is accepted only if the other side
      sent it, and is then opened with the sender's own key for its ratchet key and index
      and yields the text sent; a frame that is not accepted changes nothing. */
  lemma AcceptedKey(events: seq<(bool, Event)>, isA: bool, f: Frame, kept1: set<SkipKey>, kept2: set<SkipKey>)
    requires Arises(Me(Run(events), isA), Me(Run(events), !isA), f)
    ensures var s, eps, e := Me(Run(events), isA).s, Run(events).eps, f.hdr.rkPub.id;
            var (s', r) := Decrypt(s, f, kept1, kept2);
            if r.Text? then
              && f in Me(Run(events), !isA).sent && r.text == f.ct.text
              && e < |eps| && Derive(s, f.hdr, kept1, kept2).mk == MessageAt(eps, e, f.hdr.n)
            else s' == s
  {
    hide Run, SessionInv, LogInv, LogFrom, RootAt, ChainAt, Chain, Derive;
    RunInv(events);
    var t := Run(events);
    if !isA { Symmetric(t.a, t.b, 0, t.eps); }
    var p, q, par := Me(t, isA), Me(t, !isA), if isA then 0 else 1;
    if Decrypt(p.s, f, kept1, kept2).1.Text? {
      OnlySent(p, q, par, t.eps, f, kept1, kept2);
      assert FrameOk(f, 1 - par, t.eps);
    }
  }

  /** In every reachable state: whatever one side sends next, the other opens at once
      and reads the same text, if and only if it need not skip more than MAX_SKIP
      messages on a chain. */
  lemma RoundTrip(events: seq<(bool, Event)>, byA: bool, text: string, coin: nat, iv: nat,
                  kept1: set<SkipKey>, kept2: set<SkipKey>)
    ensures var t := Run(events);
            var p, q := Me(t, byA), Me(t, !byA);
            var f := Encrypt(p.s, text, Pub(|t.eps|), coin, iv).1;
            && f.Some?
            && (Decrypt(q.s, f.value, kept1, kept2).1 == Text(text) <==> WithinReach(q.s, f.value.hdr))
  {
    hide Inv;
    RunInv(events);
    var t := Run(events);
    if !byA { Symmetric(t.a, t.b, 0, t.eps); }
    var p, q, par := Me(t, byA), Me(t, !byA), if byA then 0 else 1;
    SendKeeps(p, q, par, t.eps, text, coin, iv);
    var f := Encrypt(p.s, text, Pub(|t.eps|), coin, iv).1.value;
    var (p', eps') := DoSend(p, t.eps, text, coin, iv);
    NewestUnused(p, q, par, t.eps, text, coin, iv);
    Symmetric(p', q, par, eps');
    OpensNext(q, p', 1 - par, eps', f, kept1, kept2);
  }

  /** How far the receiver must skip for this header: to the end of its current chain
      when the header opens a new one, and then to the header's own index. */
  predicate WithinReach(s: Session, h: Header) {
    if Some(h.rkPub) == s.peerRk then h.n <= s.nr + MAX_SKIP
    else (s.peerRk.None? || h.pn <= s.nr + MAX_SKIP) && h.n <= MAX_SKIP
  }

  /** The frame just sent is the newest of its epoch and is not stored anywhere. */
  lemma NewestUnused(p: Party, q: Party, par: nat, eps: seq<Epoch>, text: string, coin: nat, iv: nat)
    requires Inv(p, q, par, eps) && Encrypt(p.s, text, Pub(|eps|), coin, iv).1.Some?
    ensures var f := Encrypt(p.s, text, Pub(|eps|), coin, iv).1.value;
            && (f.hdr.rkPub, f.hdr.n) !in q.s.skipped && f.hdr.rkPub.id >= ReceiveEpoch(q.s) && f.ct.text == text
            && (f.hdr.rkPub.id == ReceiveEpoch(q.s) ==> f.hdr.n >= q.s.nr)
            && f in DoSend(p, eps, text, coin, iv).0.sent
            && SendEpoch(DoSend(p, eps, text, coin, iv).0.s) == f.hdr.rkPub.id
  {
    hide RootAt, ChainAt, Chain, LogFrom, SentOk, LogInv;
    Alternation(p, q, par, eps);
  }

  lemma OpensNext(q: Party, p: Party, par: nat, eps: seq<Epoch>, f: Frame, kept1: set<SkipKey>, kept2: set<SkipKey>)
    requires Inv(q, p, par, eps) && f in p.sent && f.hdr.rkPub.id == SendEpoch(p.s) >= ReceiveEpoch(q.s)
    requires (f.hdr.rkPub, f.hdr.n) !in q.s.skipped
    requires f.hdr.rkPub.id == ReceiveEpoch(q.s) ==> f.hdr.n >= q.s.nr
    ensures Decrypt(q.s, f, kept1, kept2).1 == Text(f.ct.text) <==> WithinReach(q.s, f.hdr)
  {
    hide RootAt, ChainAt, Chain, LogFrom, LogInv, CurrentChain, SkipTo, SkippedOk;
    var s, h, e := q.s, f.hdr, f.hdr.rkPub.id;
    assert FrameOk(f, 1 - par, eps);
    if Some(h.rkPub) == s.peerRk {
      CurrentKeeps(s, par, eps, h.n, kept2);
    } else {
      Alternation(q, p, par, eps);
      assert !s.needStep && e == ReceiveEpoch(s) + 2 && SendEpoch(s) == e - 1;
      SkipOldKeeps(s, par, eps, h.pn, kept1);
      var t := SkipTo(s, h.pn, kept1);
      if t.Some? {
        assert OwnKey(t.value, h.to) == Some(Pub(e - 1));
        ReceiveStepKeeps(t.value, par, eps, e);
        CurrentKeeps(ReceiveStep(t.value, Pub(e), Shared(eps[e].kem)), par, eps, h.n, kept2);
      }
    }
  }
}
