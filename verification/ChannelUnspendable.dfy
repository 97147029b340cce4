/** A run that ends with a revoked commitment whose penalty the chain refuses. */
module ChannelUnspendable {
  import opened Basics
  import opened Symbols
  import opened Channel
  import opened ChannelNode
  import opened ChannelPenalty
  import opened ChannelProtocol
  import opened ChannelRace
  import opened ChannelEnforce
  import X = ScriptExact
  import E = ScriptPenalty

  // ------------------------------------------------------------------ one update

  /** A node at rest in state `x`, with the peer's hashes for this state and the next. */
  predicate Rests(v: Node, mine: Config, theirs: Config, x: State) {
    && v == Node(v.ch, Idle, None, NotHex(""), None, 0, None)
    && v.ch.cfg == mine && v.ch.cur == x && v.ch.pending.None? && v.ch.sigCur.Some?
    && x.n in v.ch.hashes && v.ch.hashes[x.n] == theirs.RevHash(x.n)
    && x.n + 1 in v.ch.hashes && v.ch.hashes[x.n + 1] == theirs.RevHash(x.n + 1)
  }

  /** A proposes and is driven. */
  function Asking(v: Node, y: State): Node { StartDrive(Propose(v, y, NotHex(""))) }

  lemma AskStep(v: Node, mine: Config, theirs: Config, x: State, y: State)
    requires Rests(v, mine, theirs, x) && ValidateNext(v.ch, y).Ok? && y.n == x.n + 1
    ensures Asking(v, y) == v.(phase := Upd, out := Some(y),
                wait := Some(Wait(UpdSent(y), ReqUpd(y, SigFor(mine, theirs, y), NotHex("")), None)))
  {
    hide CommitmentTx, ValidateNext;
  }

  /** B answers: it takes the signature and gives its own. */
  lemma AnswerStep(w: Node, mine: Config, theirs: Config, x: State, y: State, env: Env)
    requires Paired(mine, theirs) && Rests(w, theirs, mine, x) && ValidateNext(w.ch, y).Ok? && y.n == x.n + 1
    requires !Classify(w.ch, y, NotHex(""), env.height).Reject? && env.routeOk
    ensures Handle(w, ReqUpd(y, SigFor(mine, theirs, y), NotHex("")), env) ==
            (w.(ch := w.ch.(pending := Some(y), sigPending := Some(SigFor(mine, theirs, y)))),
             OkSig(SigFor(theirs, mine, y)))
  {
    hide CommitmentTx, ValidateNext, Classify;
    assert OwnCommitment(theirs, y) == SigFor(mine, theirs, y).body;
  }

  /** The node whose request has been handled. */
  function Answered(v: Node, r: Reply): Node {
    if v.wait.None? then v else v.(wait := Some(v.wait.value.(got := Some(r))))
  }

  /** A's channel once it has advanced. */
  function Advanced(c: Chan, y: State, sig: Sig): Chan {
    c.(history := c.history[c.cur.n := c.cur], cur := y, sigCur := Some(sig), pending := None, sigPending := None)
  }

  lemma AdvanceStep(v: Node, mine: Config, theirs: Config, x: State, y: State)
    requires Paired(mine, theirs) && Rests(v, mine, theirs, x) && ValidateNext(v.ch, y).Ok? && y.n == x.n + 1
    ensures var sig := SigFor(theirs, mine, y);
            var rev := Revoke(x.n, mine.RevSecretAt(x.n), mine.RevHash(x.n + 2));
            Resume(Answered(Asking(v, y), OkSig(sig)), Some(OkSig(sig))) ==
                v.(ch := Advanced(v.ch, y, sig), phase := Rev, out := Some(y),
                   wait := Some(Wait(RevSent, ReqRev(rev), None)))
  {
    hide CommitmentTx, ValidateNext;
    AskStep(v, mine, theirs, x, y);
    assert OwnCommitment(mine, y) == SigFor(theirs, mine, y).body;
  }

  /** A channel that learnt the peer's secret for the state left and its next hash. */
  function Learnt(c: Chan, theirs: Config, n: nat): Chan {
    c.(secrets := c.secrets[n := theirs.RevSecretAt(n)], hashes := c.hashes[n + 2 := theirs.RevHash(n + 2)])
  }

  lemma RevokeStep(w: Node, mine: Config, theirs: Config, x: State, y: State, sig: Sig, env: Env)
    requires Rests(w, theirs, mine, x) && y.n == x.n + 1
    ensures var w1 := w.(ch := w.ch.(pending := Some(y), sigPending := Some(sig)));
            Handle(w1, ReqRev(Revoke(x.n, mine.RevSecretAt(x.n), mine.RevHash(x.n + 2))), env) ==
                (w.(ch := Advanced(Learnt(w.ch, mine, x.n), y, sig)),
                 OkRev(Revoke(x.n, theirs.RevSecretAt(x.n), theirs.RevHash(x.n + 2))))
  {
  }

  lemma FinishStep(v: Node, mine: Config, theirs: Config, x: State, y: State, sig: Sig, wait: Wait)
    requires Rests(v, mine, theirs, x) && y.n == x.n + 1 && wait.stage.RevSent?
    ensures var v1 := v.(ch := Advanced(v.ch, y, sig), phase := Rev, out := Some(y), wait := Some(wait));
            Resume(v1, Some(OkRev(Revoke(x.n, theirs.RevSecretAt(x.n), theirs.RevHash(x.n + 2))))) ==
                v.(ch := Learnt(Advanced(v.ch, y, sig), theirs, x.n))
  {
  }

  /** The events of one update by A. */
  function Update(y: State): seq<(bool, Event)> {
    [(true, Start(y, NotHex(""))), (true, Drive), (true, Deliver(Env(0, true))), (true, Return(false)),
     (true, Deliver(Env(0, true))), (true, Return(false))]
  }

  lemma RunUpdate(s: Sys, ev: seq<(bool, Event)>, y: State)
    ensures Run(s, ev + Update(y)) ==
            ByA(ByA(ByA(ByA(ByA(ByA(Run(s, ev), Start(y, NotHex(""))), Drive), Deliver(Env(0, true))), Return(false)),
                Deliver(Env(0, true))), Return(false))
  {
    hide ByA, Run;
    var u := Update(y);
    assert ev + u[..1] == ev + [u[0]] && ev + u[..2] == ev + u[..1] + [u[1]] && ev + u[..3] == ev + u[..2] + [u[2]];
    assert ev + u[..4] == ev + u[..3] + [u[3]] && ev + u[..5] == ev + u[..4] + [u[4]] && ev + u == ev + u[..5] + [u[5]];
    RunSnoc(s, ev, u[0].1);
    RunSnoc(s, ev + u[..1], u[1].1);
    RunSnoc(s, ev + u[..2], u[2].1);
    RunSnoc(s, ev + u[..3], u[3].1);
    RunSnoc(s, ev + u[..4], u[4].1);
    RunSnoc(s, ev + u[..5], u[5].1);
  }

  /** Both ends accept the update. */
  predicate Agreed(v: Node, w: Node, a: Config, b: Config, x: State, y: State) {
    && Paired(a, b) && Rests(v, a, b, x) && Rests(w, b, a, x) && y.n == x.n + 1
    && ValidateNext(v.ch, y).Ok? && ValidateNext(w.ch, y).Ok? && !Classify(w.ch, y, NotHex(""), 0).Reject?
  }

  /** The first half: A asks, B signs. */
  lemma HalfWay(s: Sys, a: Config, b: Config, x: State, y: State)
    requires Agreed(s.a.node, s.b.node, a, b, x, y)
    ensures var t := ByA(ByA(ByA(s, Start(y, NotHex(""))), Drive), Deliver(Env(0, true)));
            && t.a.node == Answered(Asking(s.a.node, y), OkSig(SigFor(b, a, y)))
            && t.b.node == s.b.node.(ch := s.b.Ch().(pending := Some(y), sigPending := Some(SigFor(a, b, y))))
            && t.a.signed == s.a.signed + {SigFor(a, b, y)}
  {
    hide Propose, StartDrive, Handle, ValidateNext, Classify, SigFor, Rests;
    AskStep(s.a.node, a, b, x, y);
    AnswerStep(s.b.node, a, b, x, y, Env(0, true));
    ProposeWaits(s.a.node, a, b, x, y);
  }

  lemma ProposeWaits(v: Node, mine: Config, theirs: Config, x: State, y: State)
    requires Rests(v, mine, theirs, x)
    ensures Propose(v, y, NotHex("")).wait.None?
  {
    hide ValidateNext;
  }

  /** The second half: A advances and reveals, B does the same. */
  lemma OtherHalf(s: Sys, r: Sys, a: Config, b: Config, x: State, y: State)
    requires Agreed(s.a.node, s.b.node, a, b, x, y)
    requires r.a.node == Answered(Asking(s.a.node, y), OkSig(SigFor(b, a, y)))
    requires r.b.node == s.b.node.(ch := s.b.Ch().(pending := Some(y), sigPending := Some(SigFor(a, b, y))))
    ensures var t := ByA(ByA(ByA(r, Return(false)), Deliver(Env(0, true))), Return(false));
            && t.a.node == s.a.node.(ch := Learnt(Advanced(s.a.Ch(), y, SigFor(b, a, y)), b, x.n))
            && t.b.node == s.b.node.(ch := Advanced(Learnt(s.b.Ch(), a, x.n), y, SigFor(a, b, y)))
            && r.a.signed <= t.a.signed
  {
    hide Asking, Resume, Handle, ValidateNext, Classify, SigFor, Rests;
    AskWaits(s.a.node, a, b, x, y);
    AdvanceStep(s.a.node, a, b, x, y);
    RevokeStep(s.b.node, a, b, x, y, SigFor(a, b, y), Env(0, true));
    var rev := Revoke(x.n, b.RevSecretAt(x.n), b.RevHash(x.n + 2));
    var wait := Wait(RevSent, ReqRev(Revoke(x.n, a.RevSecretAt(x.n), a.RevHash(x.n + 2))), Some(OkRev(rev)));
    FinishStep(s.a.node, a, b, x, y, SigFor(b, a, y), wait);
  }

  lemma AskWaits(v: Node, mine: Config, theirs: Config, x: State, y: State)
    requires Rests(v, mine, theirs, x) && ValidateNext(v.ch, y).Ok? && y.n == x.n + 1
    ensures Asking(v, y).wait.Some?
  {
    hide ValidateNext, Asking;
    AskStep(v, mine, theirs, x, y);
  }

  lemma UpdateDone(s: Sys, ev: seq<(bool, Event)>, a: Config, b: Config, x: State, y: State)
    requires var r := Run(s, ev); Agreed(r.a.node, r.b.node, a, b, x, y)
    ensures var r, t := Run(s, ev), Run(s, ev + Update(y));
            && t.a.Ch() == Learnt(Advanced(r.a.Ch(), y, SigFor(b, a, y)), b, x.n)
            && Rests(t.a.node, a, b, y) && Rests(t.b.node, b, a, y)
            && r.a.signed + {SigFor(a, b, y)} <= t.a.signed
  {
    hide Run, ByA, Asking, ValidateNext, Classify, SigFor;
    var r := Run(s, ev);
    RunUpdate(s, ev, y);
    HalfWay(r, a, b, x, y);
    OtherHalf(r, ByA(ByA(ByA(r, Start(y, NotHex(""))), Drive), Deliver(Env(0, true))), a, b, x, y);
  }

  // -------------------------------------------------------------------------- the run

  /** A offers `h`, then pays one unit while the HTLC is open, which revokes the state with
      the HTLC. */
  function Paid(y: State): State
    requires y.balA > 0
  {
    State(y.n + 1, y.balA - 1, y.balB + 1, y.htlcs, y.nextHtlcId)
  }

  /** The funder can pay the HTLC and one unit more; hash and expiry are anything. */
  predicate CanOffer(info: Info, s0: State, h: Htlc) {
    && h.offeredByA && h.id == s0.nextHtlcId && h.amount > info.fee && s0.balA > h.amount + info.fee
    && h.paymentHash.Size() == 128 && h.expiry > 1
  }

  lemma OpensAtRest(mine: Config, theirs: Config, s0: State)
    requires s0.n == 0 && Paired(mine, theirs)
    ensures Rests(OpenSide(mine, theirs, s0).node, mine, theirs, s0)
  {
    hide CommitmentTx;
    assert SignRemoteCommitment(Fresh(theirs, mine), s0) == Sig(theirs.key, OwnCommitment(mine, s0));
  }

  lemma SameVerdict(c: Chan, d: Chan, next: State)
    requires c.pending.None? && d.pending.None? && c.cur == d.cur && c.cfg.info == d.cfg.info
    requires next.n in c.hashes && next.n in d.hashes
    ensures ValidateNext(c, next) == ValidateNext(d, next)
  {
    hide HtlcSum, BadHtlcEntry;
  }

  lemma FirstAgreed(v: Node, w: Node, a: Config, b: Config, s0: State, h: Htlc)
    requires Terms(a, b, s0) && Rests(v, a, b, s0) && Rests(w, b, a, s0) && CanOffer(a.info, s0, h)
    ensures Agreed(v, w, a, b, s0, Offered(s0, h))
  {
    hide ValidateNext, Classify;
    var y := Offered(s0, h);
    assert HtlcSum([]) == 0;
    assert MayOffer(w.ch, h, 0);
    OfferValid(w.ch, h, 0);
    OfferClassified(w.ch, h, NotHex(""), 0);
    SameVerdict(v.ch, w.ch, y);
  }

  lemma SecondAgreed(v: Node, w: Node, a: Config, b: Config, s0: State, h: Htlc)
    requires Terms(a, b, s0) && CanOffer(a.info, s0, h)
    requires var y := Offered(s0, h); Rests(v, a, b, y) && Rests(w, b, a, y)
    ensures var y := Offered(s0, h); Agreed(v, w, a, b, y, Paid(y))
  {
    var y := Offered(s0, h);
    var z := Paid(y);
    assert y.htlcs == [h] && [h][1..] == [] && HtlcSum([]) == 0 && HtlcSum([h]) == h.amount;
    assert !BadHtlcEntry(h);
    assert ValidateNext(w.ch, z).Ok? && ValidateNext(v.ch, z).Ok?;
    SameListPays(w.ch, z);
  }

  lemma SameListPays(c: Chan, z: State)
    requires z.htlcs == c.cur.htlcs && z.nextHtlcId == c.cur.nextHtlcId && Bal(z, c.cfg.isA) >= Bal(c.cur, c.cfg.isA)
    ensures Classify(c, z, NotHex(""), 0).Pay?
  {
    hide ById, Sole;
    assert Missing(z.htlcs, ById(c.cur.htlcs)) == map[];
  }

  lemma {:induction false} TotalAtLeast(outs: seq<Output>, local: string, rh: Digest, k: nat)
    requires k < |outs| && Revocable(outs[k], local, rh)
    ensures RevocableTotal(outs, local, rh) >= outs[k].amount
  {
    hide Revocable;
    if k < |outs| - 1 { TotalAtLeast(outs[..|outs| - 1], local, rh, k); }
  }

  /** The HTLC's output alone is worth a penalty. */
  lemma WorthPenalty(cfg: Config, x: State, rh: Digest, h: Htlc)
    requires x.htlcs == [h] && h.amount > cfg.info.fee
    ensures RevocableTotal(CommitmentTx(cfg.info, !cfg.isA, x, rh).outputs, cfg.Local(), rh) > cfg.info.fee
  {
    hide CommitmentTx, RevocableTotal, Revocable;
    var k := |ToLocalOutputs(cfg.info, !cfg.isA, x, rh)| + |ToRemoteOutputs(cfg.info, !cfg.isA, x)|;
    CommitmentHtlc(cfg.info, !cfg.isA, x, rh, 0);
    RevocableAt(cfg, x, rh, k);
    TotalAtLeast(CommitmentTx(cfg.info, !cfg.isA, x, rh).outputs, cfg.Local(), rh, k);
  }

  /** What A's channel knows after the two updates. */
  predicate Knows(c: Chan, a: Config, b: Config, y: State) {
    && c.cfg == a && y.n in c.secrets && c.secrets[y.n] == b.RevSecretAt(y.n)
    && y.n in c.hashes && c.hashes[y.n] == b.RevHash(y.n) && y.n in c.history && c.history[y.n] == y
  }

  lemma TwoUpdates(a: Config, b: Config, s0: State, h: Htlc)
    requires Terms(a, b, s0) && CanOffer(a.info, s0, h)
    ensures var y := Offered(s0, h);
            var s := Run(Open(a, b, s0), Update(y) + Update(Paid(y)));
            SigFor(a, b, y) in s.a.signed && Knows(s.a.Ch(), a, b, y)
  {
    hide Run, OpenSide, Update, SigFor, Agreed;
    var y, s := Offered(s0, h), Open(a, b, s0);
    OpensAtRest(a, b, s0);
    OpensAtRest(b, a, s0);
    RunNone(s);
    FirstAgreed(s.a.node, s.b.node, a, b, s0, h);
    assert [] + Update(y) == Update(y);
    UpdateDone(s, [], a, b, s0, y);
    var r := Run(s, Update(y));
    SecondAgreed(r.a.node, r.b.node, a, b, s0, h);
    UpdateDone(s, Update(y), a, b, y, Paid(y));
  }

  /** Whatever hash and expiry the HTLC has, both nodes agree to it and revoke the state with
      it; the penalty for that state exists, and the chain lets it through, at whatever
      height, if and only if the hash is a hash and expiry and delay are below the limit. */
  lemma PenaltyRefused(a: Config, b: Config, s0: State, h: Htlc, f: E.Form, spendHeight: nat, utxoHeight: nat)
    requires Terms(a, b, s0) && CanOffer(a.info, s0, h) && Written(f, a, b)
    requires E.Unshared(f, SigFor(a, b, Offered(s0, h)).body)
    ensures var y := Offered(s0, h);
            var s := Run(Open(a, b, s0), Update(y) + Update(Paid(y)));
            var g := SigFor(a, b, y);
            var t := PenaltyFor(s.a.Ch(), g.body);
            && g in s.a.signed && g.body.nonce in s.a.Ch().secrets && t.Some?
            && (E.AllPass(f, g.body, t.value, spendHeight, utxoHeight) <==>
                  E.HtlcEnforceable(f, h) && (s0.balB != 0 ==> a.info.toSelfDelay < X.NUMBER_LIMIT))
  {
    hide Run, Update, E.Proper, E.AllPass, E.Unshared, E.HtlcEnforceable, CommitmentTx, PenaltyFor, RevocableTotal,
        Open, E.Addresses, E.SecretOk;
    var y := Offered(s0, h);
    var c := Run(Open(a, b, s0), Update(y) + Update(Paid(y))).a.Ch();
    TwoUpdates(a, b, s0, h);
    CommitmentNonce(a, y, b.RevHash(1));
    assert y in Candidates(c, 1);
    PenaltyIsExact(c, y);
    WorthPenalty(a, y, b.RevHash(1), h);
    SecretFits(f, b, 1);
    assert h in y.htlcs;
    E.PenaltyPasses(f, c, y, spendHeight, utxoHeight);
  }

  lemma SecretFits(f: E.Form, b: Config, n: nat)
    requires E.Proper(f)
    ensures E.SecretOk(f, b.RevSecretAt(n))
  {
  }
}
