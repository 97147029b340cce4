/** What a stolen session can read: exactly which messages of a run, before the theft
    (forward secrecy) and after it (post-compromise security). */
module RatchetSecrecy {
  import opened Basics
  import opened Ratchet
  import opened RatchetRun

  // ------------------------------------------------------------------------ deriving

  /** The keys a session holds. */
  function KeysOf(s: Session): set<Key> { {s.rk, s.cks, s.ckr} + s.skipped.Values }

  /** What the key derivations make of the keys `known` and the KEM secrets that `opens`
      allows: both only go forward. */
  predicate Knows(k: Key, known: set<Key>, opens: Secret -> bool) {
    || k in known
    || match k
       case NoKey => false
       case Root0 => false
       case Chain0 => false
       case RootOf(prev, secret) => Knows(prev, known, opens) && opens(secret)
       case ChainOf(prev, secret) => Knows(prev, known, opens) && opens(secret)
       case NextChain(chain) => Knows(chain, known, opens)
       case Message(chain) => Knows(chain, known, opens)
  }

  /** The secrets that the KEM keys of a session open: its current and its previous one. */
  predicate OwnSecret(s: Session, secret: Secret) {
    secret.Shared? && (Some(secret.kem.to) == s.myPub || Some(secret.kem.to) == s.prevPub)
  }

  /** The keys of a session in terms of the epochs. */
  predicate Keyed(s: Session, eps: seq<Epoch>) {
    var se, re := SendEpoch(s), ReceiveEpoch(s);
    && -1 <= se < |eps| && -1 <= re < |eps| && (re == se + 1 || re == se - 1)
    && s.rk == RootAt(eps, Top(s))
    && s.cks == (if se < 0 then NoKey else Chain(ChainAt(eps, se), s.ns))
    && s.ckr == (if re < 0 then NoKey else Chain(ChainAt(eps, re), s.nr))
    && forall k: SkipKey :: k in s.skipped ==> k.0.id < |eps| && s.skipped[k] == MessageAt(eps, k.0.id, k.1)
  }

  // ----------------------------------------------------------------------- key terms

  lemma ChainAtInjective(eps: seq<Epoch>, d: nat, e: nat)
    requires d < |eps| && e < |eps| && ChainAt(eps, d) == ChainAt(eps, e)
    ensures d == e
  {
    hide RootAt;
    if d > 0 && e > 0 { RootInjective(eps, d - 1, e - 1); }
  }

  lemma {:induction false} ChainPlaces(x: Key, y: Key, i: nat, j: nat)
    requires !x.NextChain? && !y.NextChain? && Chain(x, i) == Chain(y, j)
    ensures x == y && i == j
  {
    if i > 0 && j > 0 { ChainPlaces(x, y, i - 1, j - 1); }
  }

  lemma {:induction false} ChainKind(x: Key, i: nat)
    requires x.Chain0? || x.ChainOf?
    ensures var c := Chain(x, i); c.Chain0? || c.ChainOf? || c.NextChain?
  {
  }

  lemma ChainStartKind(eps: seq<Epoch>, e: nat)
    requires e < |eps|
    ensures ChainAt(eps, e).Chain0? || ChainAt(eps, e).ChainOf?
    ensures RootAt(eps, e).Root0? || RootAt(eps, e).RootOf?
  {
  }

  /** Two chain keys of a run are the same only in the same place. */
  lemma SamePlace(eps: seq<Epoch>, d: nat, i: nat, e: nat, j: nat)
    requires d < |eps| && e < |eps| && Chain(ChainAt(eps, d), i) == Chain(ChainAt(eps, e), j)
    ensures d == e && i == j
  {
    hide ChainAt, Chain;
    ChainStartKind(eps, d);
    ChainStartKind(eps, e);
    ChainPlaces(ChainAt(eps, d), ChainAt(eps, e), i, j);
    ChainAtInjective(eps, d, e);
  }

  // ----------------------------------------------------------------- what is in a session

  lemma RootsIn(s: Session, eps: seq<Epoch>, e: nat)
    requires Keyed(s, eps) && e < |eps|
    ensures RootAt(eps, e) in KeysOf(s) <==> e == Top(s)
  {
    hide ChainAt, RootAt, Chain;
    var se, re := SendEpoch(s), ReceiveEpoch(s);
    ChainStartKind(eps, e);
    if se >= 0 { ChainStartKind(eps, se); ChainKind(ChainAt(eps, se), s.ns); }
    if re >= 0 { ChainStartKind(eps, re); ChainKind(ChainAt(eps, re), s.nr); }
    if RootAt(eps, e) == s.rk { RootInjective(eps, e, Top(s)); }
  }

  lemma ChainsIn(s: Session, eps: seq<Epoch>, e: nat, i: nat)
    requires Keyed(s, eps) && e < |eps|
    ensures Chain(ChainAt(eps, e), i) in KeysOf(s) <==>
            (e == SendEpoch(s) && i == s.ns) || (e == ReceiveEpoch(s) && i == s.nr)
  {
    hide ChainAt, RootAt, Chain;
    var se, re := SendEpoch(s), ReceiveEpoch(s);
    var c := Chain(ChainAt(eps, e), i);
    ChainStartKind(eps, e);
    ChainKind(ChainAt(eps, e), i);
    ChainStartKind(eps, Top(s));
    if se >= 0 && c == s.cks { SamePlace(eps, e, i, se, s.ns); }
    if re >= 0 && c == s.ckr { SamePlace(eps, e, i, re, s.nr); }
  }

  lemma MessagesIn(s: Session, eps: seq<Epoch>, e: nat, n: nat)
    requires Keyed(s, eps) && e < |eps|
    ensures MessageAt(eps, e, n) in KeysOf(s) <==> (Pub(e), n) in s.skipped
  {
    hide ChainAt, RootAt, Chain;
    var se, re := SendEpoch(s), ReceiveEpoch(s);
    var m := MessageAt(eps, e, n);
    ChainStartKind(eps, Top(s));
    if se >= 0 { ChainStartKind(eps, se); ChainKind(ChainAt(eps, se), s.ns); }
    if re >= 0 { ChainStartKind(eps, re); ChainKind(ChainAt(eps, re), s.nr); }
    if m in s.skipped.Values {
      var k: SkipKey :| k in s.skipped && s.skipped[k] == m;
      SamePlace(eps, k.0.id, k.1, e, n);
      assert k == (Pub(e), n);
    }
  }

  // -------------------------------------------------------------------- what it can read

  /** Every step after the newest root of the session is open to the thief, up to epoch `e`. */
  predicate Reaches(s: Session, eps: seq<Epoch>, e: nat, opens: Secret -> bool)
    requires e < |eps|
  {
    e > Top(s) && forall k :: 1 <= k <= e && k > Top(s) ==> opens(Shared(eps[k].kem))
  }

  lemma {:induction false} KnowsRoot(s: Session, eps: seq<Epoch>, e: nat, opens: Secret -> bool)
    requires Keyed(s, eps) && e < |eps|
    ensures Knows(RootAt(eps, e), KeysOf(s), opens) <==> e == Top(s) || Reaches(s, eps, e, opens)
  {
    hide KeysOf, Keyed;
    RootsIn(s, eps, e);
    TopNonNegative(s, eps);
    if e > 0 {
      KnowsRoot(s, eps, e - 1, opens);
    }
  }

  lemma TopNonNegative(s: Session, eps: seq<Epoch>)
    requires Keyed(s, eps)
    ensures 0 <= Top(s) < |eps| && SendEpoch(s) <= Top(s) && ReceiveEpoch(s) <= Top(s)
  {
    hide RootAt, ChainAt, Chain;
  }

  predicate OnChain(s: Session, e: nat, i: nat) {
    (e == SendEpoch(s) && i >= s.ns) || (e == ReceiveEpoch(s) && i >= s.nr)
  }

  lemma {:induction false} KnowsChain(s: Session, eps: seq<Epoch>, e: nat, i: nat, opens: Secret -> bool)
    requires Keyed(s, eps) && e < |eps|
    ensures Knows(Chain(ChainAt(eps, e), i), KeysOf(s), opens) <==> OnChain(s, e, i) || Reaches(s, eps, e, opens)
  {
    hide KeysOf, Keyed, RootAt;
    ChainsIn(s, eps, e, i);
    TopNonNegative(s, eps);
    if i > 0 {
      KnowsChain(s, eps, e, i - 1, opens);
    } else if e > 0 {
      KnowsRoot(s, eps, e - 1, opens);
    }
  }

  /** Exactly what a session and some KEM secrets give away: the keys put aside, the rest of
      the two chains it stands on, and the epochs that can be reached from its root. */
  lemma ReadableIff(s: Session, eps: seq<Epoch>, e: nat, n: nat, opens: Secret -> bool)
    requires Keyed(s, eps) && e < |eps|
    ensures Knows(MessageAt(eps, e, n), KeysOf(s), opens) <==>
            (Pub(e), n) in s.skipped || OnChain(s, e, n) || Reaches(s, eps, e, opens)
  {
    hide KeysOf, Keyed, RootAt, ChainAt, Chain, OnChain, Reaches;
    MessagesIn(s, eps, e, n);
    KnowsChain(s, eps, e, n, opens);
  }

  // ------------------------------------------------------------------------- over a run

  predicate SameKems(eps: seq<Epoch>, eps': seq<Epoch>) {
    |eps| <= |eps'| && forall k :: 0 <= k < |eps| ==> eps'[k].kem == eps[k].kem
  }

  /** The keys of a session stay what they are as the run goes on. */
  lemma KeyedLater(s: Session, par: nat, eps: seq<Epoch>, eps': seq<Epoch>)
    requires par < 2 && SessionInv(s, par, eps) && SameKems(eps, eps')
    ensures Keyed(s, eps')
  {
    hide RootAt, ChainAt, Chain;
    var se, re := SendEpoch(s), ReceiveEpoch(s);
    RootStable(eps, eps', Top(s));
    if se >= 0 { RootStable(eps, eps', se); }
    if re >= 0 { RootStable(eps, eps', re); }
    forall k: SkipKey | k in s.skipped ensures k.0.id < |eps'| && s.skipped[k] == MessageAt(eps', k.0.id, k.1) {
      RootStable(eps, eps', k.0.id);
    }
  }

  lemma {:induction false} RunGrows(events: seq<(bool, Event)>, more: seq<(bool, Event)>)
    ensures SameKems(Run(events).eps, Run(events + more).eps)
    decreases |more|
  {
    hide Step;
    if more == [] {
      assert events + more == events;
    } else {
      var n := |more| - 1;
      RunGrows(events, more[..n]);
      var all := events + more;
      assert all[..|all| - 1] == events + more[..n];
      var t, e := Run(events + more[..n]), more[n].1;
      StepGrows(t.a, t.b, t.eps, e);
      StepGrows(t.b, t.a, t.eps, e);
    }
  }

  lemma StepGrows(p: Party, q: Party, eps: seq<Epoch>, e: Event)
    ensures SameKems(eps, Step(p, q, eps, e).1)
  {
    hide Encrypt, DoReceive;
  }

  /** Forward secrecy: in every run, what a side holds does not give the key of any message
      that it has read or sent, not even with every KEM secret there ever was. */
  lemma ForwardSecrecy(events: seq<(bool, Event)>, isA: bool, opens: Secret -> bool)
    ensures var t := Run(events);
            var p, q := Me(t, isA), Me(t, !isA);
            && (forall f :: f in p.sent ==> !Knows(f.ct.key, KeysOf(p.s), opens))
            && (forall f :: f in q.sent && Entry(f) in p.log ==> !Knows(f.ct.key, KeysOf(p.s), opens))
  {
    hide Run, Knows, KeysOf, RootAt, ChainAt, Chain, LogFrom;
    RunInv(events);
    var t := Run(events);
    if !isA { Symmetric(t.a, t.b, 0, t.eps); }
    var p, q, par := Me(t, isA), Me(t, !isA), if isA then 0 else 1;
    KeyedLater(p.s, par, t.eps, t.eps);
    TopNonNegative(p.s, t.eps);
    forall f | f in p.sent ensures !Knows(f.ct.key, KeysOf(p.s), opens) {
      assert FrameOk(f, par, t.eps);
      ReadableIff(p.s, t.eps, f.hdr.rkPub.id, f.hdr.n, opens);
    }
    forall f | f in q.sent && Entry(f) in p.log ensures !Knows(f.ct.key, KeysOf(p.s), opens) {
      assert FrameOk(f, 1 - par, t.eps);
      assert Used(p.s, Entry(f).0);
      ReadableIff(p.s, t.eps, f.hdr.rkPub.id, f.hdr.n, opens);
    }
  }

  /** Post-compromise security: whoever copies a session with its KEM keys, at any point of any
      run, reads of all that is ever sent exactly the messages whose keys were put aside, the
      rest of the two chains the session stands on, and the peer's next chain if that is still
      to come; nothing from the session's own next step on. */
  lemma Heals(events: seq<(bool, Event)>, more: seq<(bool, Event)>, isA: bool, f: Frame)
    requires f in Run(events + more).a.sent + Run(events + more).b.sent
    ensures var s := Me(Run(events), isA).s;
            var e, n := f.hdr.rkPub.id, f.hdr.n;
            Knows(f.ct.key, KeysOf(s), x => OwnSecret(s, x)) <==>
            || (f.hdr.rkPub, n) in s.skipped
            || (s.myPub == Some(f.hdr.rkPub) && n >= s.ns) || (s.peerRk == Some(f.hdr.rkPub) && n >= s.nr)
            || (s.myPub.Some? && !s.needStep && e == s.myPub.value.id + 1)
  {
    hide Run, Knows, KeysOf, RootAt, ChainAt, Chain, LogFrom;
    RunInv(events);
    RunInv(events + more);
    RunGrows(events, more);
    var t, u := Run(events), Run(events + more);
    if !isA { Symmetric(t.a, t.b, 0, t.eps); }
    var s, par := Me(t, isA).s, if isA then 0 else 1;
    KeyedLater(s, par, t.eps, u.eps);
    TopNonNegative(s, u.eps);
    var e := f.hdr.rkPub.id;
    assert exists r: nat :: r < 2 && FrameOk(f, r, u.eps);
    ReadableIff(s, u.eps, e, f.hdr.n, x => OwnSecret(s, x));
    NextOnly(s, par, t.eps, u.eps, e);
  }

  /** The keys of a session open the one step made to its current key, and no later one. */
  lemma NextOnly(s: Session, par: nat, eps: seq<Epoch>, eps': seq<Epoch>, e: nat)
    requires par < 2 && SessionInv(s, par, eps) && SameKems(eps, eps') && EpochsOk(eps') && e < |eps'|
    ensures Reaches(s, eps', e, x => OwnSecret(s, x)) <==> s.myPub.Some? && !s.needStep && e == s.myPub.value.id + 1
  {
    hide RootAt, ChainAt, Chain, SkippedOk;
    var top := Top(s);
    if e > top {
      assert eps'[top + 1].kem.to == Pub(top);
      assert OwnSecret(s, Shared(eps'[top + 1].kem)) <==> !s.needStep;
    }
    if e > top + 1 {
      assert eps'[top + 2].kem.to == Pub(top + 1);
      assert !OwnSecret(s, Shared(eps'[top + 2].kem));
    }
  }
}
