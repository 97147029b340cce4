/** The KEM double ratchet of a messaging session, with symbolic keys. */
module Ratchet {
  import opened Basics

  const MAX_SKIP: nat := 512
  const MAX_STORED: nat := 256

  /** A KEM key pair, by number; generating a pair takes a number never used before. */
  datatype Pub = Pub(id: nat)

  /** A ciphertext made for `to`. */
  datatype Kem = Kem(to: Pub, coin: nat)

  /** Decapsulating with any other key yields an unrelated secret, never an error. */
  datatype Secret = Shared(kem: Kem) | Unrelated(holder: Pub, kem: Kem)

  function Decaps(holder: Pub, kem: Kem): Secret { if kem.to == holder then Shared(kem) else Unrelated(holder, kem) }

  /** Keys as terms: the handshake root, what `kdf_rk` and `kdf_ck` make of a key, or
      no key at all. */
  datatype Key =
    | NoKey
    | Root0
    | Chain0
    | RootOf(prev: Key, secret: Secret)
    | ChainOf(prev: Key, secret: Secret)
    | NextChain(chain: Key)
    | Message(chain: Key)

  /** The chain key after `i` messages. */
  function Chain(start: Key, i: nat): Key { if i == 0 then start else NextChain(Chain(start, i - 1)) }

  datatype Header = Header(rkPub: Pub, stepCt: Option<Kem>, to: Option<Pub>, pn: nat, n: nat)

  /** A frame: the header is bound to the ciphertext as associated data. */
  datatype Sealed = Sealed(key: Key, iv: nat, aad: Header, text: string)

  datatype Frame = Frame(hdr: Header, iv: nat, ct: Sealed)

  function Open(key: Key, iv: nat, aad: Header, ct: Sealed): Option<string> {
    if ct.key == key && ct.iv == iv && ct.aad == aad then Some(ct.text) else None
  }

  type SkipKey = (Pub, nat)

  datatype Session = Session(
    rk: Key, cks: Key, ckr: Key, ns: nat, nr: nat, pn: nat,
    myPub: Option<Pub>, prevPub: Option<Pub>, peerRk: Option<Pub>,
    stepCt: Option<Kem>, stepTo: Option<Pub>, needStep: bool,
    skipped: map<SkipKey, Key>)

  datatype Failure = NotReady | OutOfOrder | TooManySkipped | UnknownRatchetKey | Duplicate | BadTag

  datatype Opened = Text(text: string) | Failed(why: Failure)

  // ------------------------------------------------------------------- sending

  /** A ratchet step: encapsulate to the peer's latest key and rotate our own. */
  function SendStep(s: Session, newPub: Pub, coin: nat): Session
    requires s.peerRk.Some?
  {
    var ct := Kem(s.peerRk.value, coin);
    s.(stepCt := Some(ct), stepTo := s.peerRk, prevPub := s.myPub, myPub := Some(newPub),
       rk := RootOf(s.rk, Shared(ct)), cks := ChainOf(s.rk, Shared(ct)), pn := s.ns, ns := 0, needStep := false)
  }

  /** The session the frame is sent from: after a ratchet step if one is due. */
  function Stepped(s: Session, newPub: Pub, coin: nat): Option<Session> {
    if !s.needStep then Some(s)
    else if s.peerRk.None? then None
    else Some(SendStep(s, newPub, coin))
  }

  /** The frame for `text` and the session after it; `newPub`, `coin` and `iv` are the
      random choices made on the way. A failed attempt is not saved. */
  function Encrypt(s0: Session, text: string, newPub: Pub, coin: nat, iv: nat): (Session, Option<Frame>) {
    var t := Stepped(s0, newPub, coin);
    if t.None? || t.value.cks == NoKey || t.value.myPub.None? then (s0, None)
    else
      var s := t.value;
      var hdr := Header(s.myPub.value, s.stepCt, s.stepTo, s.pn, s.ns);
      (s.(ns := s.ns + 1, cks := NextChain(s.cks)), Some(Frame(hdr, iv, Sealed(Message(s.cks), iv, hdr, text))))
  }

  // ----------------------------------------------------------------- receiving

  /** Store the keys of the messages up to `until`. */
  function Store(s: Session, until: nat): Session
    requires s.peerRk.Some?
    decreases until - s.nr
  {
    if until <= s.nr then s
    else Store(s.(skipped := s.skipped[(s.peerRk.value, s.nr) := Message(s.ckr)], ckr := NextChain(s.ckr),
        nr := s.nr + 1), until)
  }

  /** When too many keys are stored, only those in `kept` remain; which ones is decided
      by the order of hashed names, so any choice is allowed for. */
  function Evict(m: map<SkipKey, Key>, kept: set<SkipKey>): map<SkipKey, Key> {
    if |m| <= MAX_STORED then m else map k | k in m && k in kept :: m[k]
  }

  function SkipTo(s: Session, until: nat, kept: set<SkipKey>): Option<Session> {
    if s.ckr == NoKey || s.peerRk.None? then Some(s)
    else if until > s.nr + MAX_SKIP then None
    else
      var t := Store(s, until);
      Some(t.(skipped := Evict(t.skipped, kept)))
  }

  /** The secret key the header asks for: the current or the previous one. */
  function OwnKey(s: Session, to: Option<Pub>): Option<Pub> {
    if s.myPub.Some? && to == s.myPub then s.myPub
    else if s.prevPub.Some? && to == s.prevPub then s.prevPub
    else None
  }

  function ReceiveStep(s: Session, rkPub: Pub, secret: Secret): Session {
    s.(rk := RootOf(s.rk, secret), ckr := ChainOf(s.rk, secret), peerRk := Some(rkPub), nr := 0, needStep := true)
  }

  datatype Derived = Derived(s: Session, mk: Key) | Underivable(why: Failure)

  /** The message key on the current receiving chain. */
  function CurrentChain(s: Session, n: nat, kept: set<SkipKey>): Derived {
    if n < s.nr then Underivable(Duplicate)
    else
      var t := SkipTo(s, n, kept);
      if t.None? then Underivable(TooManySkipped)
      else Derived(t.value.(ckr := NextChain(t.value.ckr), nr := t.value.nr + 1), Message(t.value.ckr))
  }

  /** The message key for a header, and the session that results if it opens. */
  function Derive(s: Session, h: Header, kept1: set<SkipKey>, kept2: set<SkipKey>): Derived {
    if (h.rkPub, h.n) in s.skipped then Derived(s.(skipped := s.skipped - {(h.rkPub, h.n)}), s.skipped[(h.rkPub, h.n)])
    else if Some(h.rkPub) == s.peerRk then CurrentChain(s, h.n, kept2)
    else if h.stepCt.None? then Underivable(OutOfOrder)
    else
      var t := SkipTo(s, h.pn, kept1);
      if t.None? then Underivable(TooManySkipped)
      else
        var own := OwnKey(t.value, h.to);
        if own.None? then Underivable(UnknownRatchetKey)
        else CurrentChain(ReceiveStep(t.value, h.rkPub, Decaps(own.value, h.stepCt.value)), h.n, kept2)
  }

  /** Decryption works on a copy and commits it only if the tag verifies. */
  function Decrypt(s: Session, f: Frame, kept1: set<SkipKey>, kept2: set<SkipKey>): (Session, Opened) {
    match Derive(s, f.hdr, kept1, kept2)
    case Underivable(why) => (s, Failed(why))
    case Derived(t, mk) =>
      var text := Open(mk, f.iv, f.hdr, f.ct);
      if text.None? then (s, Failed(BadTag)) else (t, Text(text.value))
  }

  // ------------------------------------------------------------------- opening

  /** The initiator after its INIT frame, whose ratchet key is `q0`. */
  function Initiator(q0: Pub): Session {
    Session(Root0, Chain(Chain0, 1), NoKey, 1, 0, 0, Some(q0), None, None, None, None, false, map[])
  }

  /** The responder after opening that frame. */
  function Responder(q0: Pub): Session {
    Session(Root0, NoKey, Chain(Chain0, 1), 0, 1, 0, None, None, Some(q0), None, None, true, map[])
  }

  // -------------------------------------------------------------------- object

  /** The loops of skipping: store the keys in between, then evict while too many. */
  method SkipLoop(s0: Session, until: nat) returns (r: Option<Session>, ghost kept: set<SkipKey>)
    ensures r == SkipTo(s0, until, kept)
  {
    kept := {};
    var s := s0;
    if s.ckr == NoKey || s.peerRk.None? { return Some(s), {}; }
    if until > s.nr + MAX_SKIP { return None, {}; }
    while s.nr < until
      invariant s.peerRk.Some? && Store(s0, until) == Store(s, until)
      decreases until - s.nr
    {
      s := s.(skipped := s.skipped[(s.peerRk.value, s.nr) := Message(s.ckr)], ckr := NextChain(s.ckr), nr := s.nr + 1);
    }
    ghost var full := s;
    var m := s.skipped;
    while |m| > MAX_STORED
      invariant m.Keys <= full.skipped.Keys && forall k :: k in m ==> m[k] == full.skipped[k]
      invariant |full.skipped| <= MAX_STORED ==> m == full.skipped
      decreases |m|
    {
      var k :| k in m;
      assert (m - {k}).Keys == m.Keys - {k};
      m := m - {k};
    }
    kept := m.Keys;
    r := Some(s.(skipped := m));
    assert m == Evict(full.skipped, kept);
  }

  /** The session as the mutable record the program keeps. */
  class SessionObj {
    var s: Session

    constructor (s: Session)
      ensures this.s == s
    {
      this.s := s;
    }

    method SendText(text: string, newPub: Pub, coin: nat, iv: nat) returns (f: Option<Frame>)
      modifies this
      ensures (s, f) == Encrypt(old(s), text, newPub, coin, iv)
    {
      var t := s;
      if t.needStep {
        if t.peerRk.None? { return None; }
        var ct := Kem(t.peerRk.value, coin);
        t := t.(stepCt := Some(ct), stepTo := t.peerRk);
        t := t.(prevPub := t.myPub);
        t := t.(myPub := Some(newPub));
        t := t.(rk := RootOf(t.rk, Shared(ct)), cks := ChainOf(t.rk, Shared(ct)));
        t := t.(pn := t.ns);
        t := t.(ns := 0, needStep := false);
      }
      if t.cks == NoKey || t.myPub.None? { return None; }
      var n, mk := t.ns, Message(t.cks);
      t := t.(ns := t.ns + 1, cks := NextChain(t.cks));
      var hdr := Header(t.myPub.value, t.stepCt, t.stepTo, t.pn, n);
      f := Some(Frame(hdr, iv, Sealed(mk, iv, hdr, text)));
      s := t;
    }

    /** A frame either opens and commits the copy, or leaves the session as it was. */
    method ReceiveFrame(f: Frame) returns (r: Opened, ghost kept1: set<SkipKey>, ghost kept2: set<SkipKey>)
      modifies this
      ensures (s, r) == Decrypt(old(s), f, kept1, kept2)
      ensures r.Failed? ==> s == old(s)
    {
      kept1, kept2 := {}, {};
      var t, h := s, f.hdr;
      var mk: Key;
      if (h.rkPub, h.n) in t.skipped {
        mk := t.skipped[(h.rkPub, h.n)];
        t := t.(skipped := t.skipped - {(h.rkPub, h.n)});
      } else {
        var skip: Option<Session>;
        if Some(h.rkPub) != t.peerRk {
          if h.stepCt.None? { return Failed(OutOfOrder), {}, {}; }
          skip, kept1 := SkipLoop(t, h.pn);
          if skip.None? { return Failed(TooManySkipped), kept1, {}; }
          t := skip.value;
          var own := OwnKey(t, h.to);
          if own.None? { return Failed(UnknownRatchetKey), kept1, {}; }
          t := ReceiveStep(t, h.rkPub, Decaps(own.value, h.stepCt.value));
        }
        if h.n < t.nr { return Failed(Duplicate), kept1, {}; }
        skip, kept2 := SkipLoop(t, h.n);
        if skip.None? { return Failed(TooManySkipped), kept1, kept2; }
        t := skip.value;
        mk := Message(t.ckr);
        t := t.(ckr := NextChain(t.ckr), nr := t.nr + 1);
      }
      var text := Open(mk, f.iv, h, f.ct);
      if text.None? { return Failed(BadTag), kept1, kept2; }
      s := t;
      r := Text(text.value);
    }
  }
}
