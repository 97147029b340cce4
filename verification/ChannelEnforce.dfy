/** Which penalties of a channel the chain lets through, over every run, and how an HTLC
    that nobody can spend gets into one. */
module ChannelEnforce {
  import opened Basics
  import opened Symbols
  import opened Channel
  import opened ChannelNode
  import opened ChannelPenalty
  import opened ChannelProtocol
  import E = ScriptPenalty

  // --------------------------------------------------------- lengths, over every run

  /** Every state a node knows of has payment hashes of the right length. */
  predicate AllSized(v: Node) {
    && E.Lengths(v.ch.cur) && (v.ch.pending.Some? ==> E.Lengths(v.ch.pending.value))
    && (forall k :: k in v.ch.history ==> E.Lengths(v.ch.history[k]))
    && (forall s :: s in v.ch.abandoned ==> E.Lengths(s))
    && (v.out.Some? ==> E.Lengths(v.out.value))
    && (v.wait.Some? && v.wait.value.stage.UpdSent? ==> E.Lengths(v.wait.value.stage.x))
    && (v.wait.Some? && v.wait.value.req.ReqUpd? ==> E.Lengths(v.wait.value.req.next))
  }

  predicate SizedFrom(v: Node, w: Node) { AllSized(w) && w.ch.cfg == v.ch.cfg }

  lemma ValidSized(c: Chan, next: State)
    requires ValidateNext(c, next).Ok?
    ensures E.Lengths(next)
  {
    hide HtlcSum;
    forall h | h in next.htlcs ensures h.paymentHash.Size() == 128 {
      var i :| 0 <= i < |next.htlcs| && next.htlcs[i] == h;
      assert !BadHtlcEntry(next.htlcs[i]);
    }
  }

  lemma AbandonSized(v: Node)
    requires AllSized(v)
    ensures SizedFrom(v, AbandonOut(v)) && SizedFrom(v, v.(ch := DropPending(v.ch)))
  {
    hide E.Lengths;
  }

  lemma AdvanceSized(v: Node)
    requires AllSized(v) && v.ch.pending.Some?
    ensures SizedFrom(v, AdvanceOut(v))
  {
    hide E.Lengths;
  }

  lemma RevokeSized(v: Node, r: Revoke)
    requires AllSized(v)
    ensures SizedFrom(v, v.(ch := ReceiveRevoke(v.ch, r).0)) && SizedFrom(v, FinishOut(v, r))
  {
    hide E.Lengths;
  }

  lemma SigSized(v: Node, next: State, n: nat, sig: Sig)
    requires AllSized(v) && E.Lengths(next)
    ensures SizedFrom(v, v.(ch := ReceiveCommitSig(v.ch, next, n, sig).0))
  {
    hide E.Lengths, ValidateNext, CommitmentTx, Verifies;
  }

  lemma ProposeSized(v: Node, next: State, settle: Preimage)
    requires AllSized(v)
    ensures SizedFrom(v, Propose(v, next, settle))
  {
    hide E.Lengths, ValidateNext;
    if ValidateNext(v.ch, next).Ok? { ValidSized(v.ch, next); }
  }

  lemma DriveSized(v: Node)
    requires AllSized(v)
    ensures SizedFrom(v, StartDrive(v))
  {
    hide E.Lengths, SignRemoteCommitment, AdvanceOut, AbandonOut;
    AbandonSized(v);
    if v.ch.pending.Some? { AdvanceSized(v); }
  }

  lemma ResumeSized(v: Node, reply: Option<Reply>)
    requires AllSized(v) && v.wait.Some?
    ensures SizedFrom(v, Resume(v, reply))
  {
    hide E.Lengths, SignRemoteCommitment, AdvanceOut, AbandonOut, ReceiveCommitSig, FinishOut;
    AbandonSized(v);
    if reply.Some? && reply.value.OkRev? { RevokeSized(v, reply.value.revoke); }
    if v.wait.value.stage.UpdSent? && reply.Some? && reply.value.OkSig? {
      var x := v.wait.value.stage.x;
      SigSized(v, x, x.n, reply.value.sig);
      var w := v.(ch := ReceiveCommitSig(v.ch, x, x.n, reply.value.sig).0);
      if w.ch.pending.Some? { AdvanceSized(w); }
    }
  }

  lemma RollbackSized(v: Node)
    requires AllSized(v)
    ensures SizedFrom(v, Rollback(v))
  {
    hide E.Lengths, AbandonOut, DropPending, AllSized;
    AbandonSized(v);
    AbandonSized(AbandonOut(v));
  }

  lemma MovedSized(v: Node, e: Event)
    requires AllSized(v)
    ensures SizedFrom(v, Moved(v, e))
  {
    hide E.Lengths, Propose, StartDrive, Resume, Rollback, DropPending;
    match e
    case Start(next, settle) => ProposeSized(v, next, settle);
    case Drive => DriveSized(v);
    case Return(lost) => if v.wait.Some? { ResumeSized(v, if lost then None else v.wait.value.got); }
    case AskRollback => RollbackSized(v);
    case EndRollback => RollbackSized(v);
    case SyncReturn => AbandonSized(v);
    case _ =>
  }

  lemma AcceptSized(v: Node, m: Request, env: Env)
    requires AllSized(v) && m.ReqUpd? && E.Lengths(m.next)
    ensures SizedFrom(v, AcceptUpd(v, m, env).0)
  {
    hide E.Lengths, AllSized, Classify, ReceiveCommitSig, SignRemoteCommitment;
    SigSized(v, m.next, m.next.n, m.sig);
  }

  lemma HandleSized(v: Node, m: Request, env: Env)
    requires AllSized(v) && (m.ReqUpd? ==> E.Lengths(m.next))
    ensures SizedFrom(v, Handle(v, m, env).0)
  {
    hide E.Lengths, AllSized, AcceptUpd, AbandonOut, DropPending, SignRemoteCommitment;
    AbandonSized(v);
    if m.ReqUpd? {
      var w := v.(ch := DropPending(v.ch));
      AbandonSized(w);
      AcceptSized(AbandonOut(v), m, env);
      AcceptSized(AbandonOut(w), m, env);
    } else if m.ReqRev? {
      HandleRevSized(v, m.revoke);
    }
  }

  lemma HandleRevSized(v: Node, r: Revoke)
    requires AllSized(v)
    ensures SizedFrom(v, HandleRev(v, r).0)
  {
    hide E.Lengths;
    RevokeSized(v, r);
  }

  lemma StepSized(p: Party, q: Party, e: Event)
    requires AllSized(p.node) && AllSized(q.node)
    ensures var (p', q') := Step(p, q, e); SizedFrom(p.node, p'.node) && SizedFrom(q.node, q'.node)
  {
    hide E.Lengths, Moved, Handle, HandleAbort;
    MovedSized(p.node, e);
    if p.node.wait.Some? && e.Deliver? { HandleSized(q.node, p.node.wait.value.req, e.env); }
    if e.AbortArrives? && q.node.wait.None? { AbortSized(q.node, e.n); }
  }

  lemma AbortSized(v: Node, n: nat)
    requires AllSized(v)
    ensures SizedFrom(v, HandleAbort(v, n).0)
  {
    hide E.Lengths, DropPending;
    AbandonSized(v);
  }

  lemma {:induction false} RunSized(a: Config, b: Config, s0: State, events: seq<(bool, Event)>)
    requires s0.htlcs == []
    ensures var s := Run(Open(a, b, s0), events);
            AllSized(s.a.node) && AllSized(s.b.node) && s.a.Ch().cfg == a && s.b.Ch().cfg == b
    decreases |events|
  {
    hide AllSized, Step, OpenSide;
    if events == [] {
      OpenSized(a, b, s0);
      OpenSized(b, a, s0);
    } else {
      RunSized(a, b, s0, events[..|events| - 1]);
      var s, e := Run(Open(a, b, s0), events[..|events| - 1]), events[|events| - 1];
      if e.0 { StepSized(s.a, s.b, e.1); } else { StepSized(s.b, s.a, e.1); }
    }
  }

  lemma OpenSized(mine: Config, theirs: Config, s0: State)
    requires s0.htlcs == []
    ensures AllSized(OpenSide(mine, theirs, s0).node) && OpenSide(mine, theirs, s0).Ch().cfg == mine
  {
    hide CommitmentTx;
  }

  // ---------------------------------------------------------------- every run's penalties

  /** What the form of the texts must give both sides. */
  ghost predicate Written(f: E.Form, a: Config, b: Config) {
    && E.Proper(f) && E.Addresses(a)
    && f.cr.binds(a.Local(), f.pub(a.key)) && f.cr.binds(b.Local(), f.pub(b.key))
  }

  /** The signature is for some state's commitment; once that is revoked, the chain's check of
      inputs lets the penalty through, at any height, if and only if the state's figures are
      in order. */
  ghost predicate PassesIff(f: E.Form, p: Party, peer: Config, g: Sig, spendHeight: nat, utxoHeight: nat) {
    exists x :: g == SigFor(p.Ch().cfg, peer, x) && PassesFor(f, p, g, x, spendHeight, utxoHeight)
  }

  ghost predicate PassesFor(f: E.Form, p: Party, g: Sig, x: State, spendHeight: nat, utxoHeight: nat)
    requires g.Sig?
  {
    var t := PenaltyFor(p.Ch(), g.body);
    x.n in p.Ch().secrets && t.Some? ==>
      (E.AllPass(f, g.body, t.value, spendHeight, utxoHeight) <==> E.Enforceable(f, p.Ch().cfg, x))
  }

  lemma PenaltyOf(f: E.Form, p: Party, peer: Config, g: Sig, spendHeight: nat, utxoHeight: nat)
    requires NodeInv(p, peer) && AllSized(p.node) && g in p.signed && g.Sig? && E.Unshared(f, g.body)
    requires E.Proper(f) && E.Addresses(p.Ch().cfg) && f.cr.binds(p.Ch().cfg.Local(), f.pub(p.Ch().cfg.key))
    ensures PassesIff(f, p, peer, g, spendHeight, utxoHeight)
  {
    hide SoundState, HoldsSig, CommitmentTx, PenaltyFor, E.AllPass, E.Enforceable, E.Proper, E.Unshared, E.Addresses,
        E.Lengths, OutboxInv, WaitInv, Candidates;
    var x :| Remembers(p.node, x) && g == SigFor(p.Ch().cfg, peer, x);
    assert E.Lengths(x);
    if x.n in p.Ch().secrets {
      RememberedCandidate(p, peer, x);
      RevealedOk(f, p.Ch(), peer, x.n);
      E.PenaltyPasses(f, p.Ch(), x, spendHeight, utxoHeight);
    }
    assert PassesFor(f, p, g, x, spendHeight, utxoHeight);
  }

  lemma RememberedCandidate(p: Party, peer: Config, x: State)
    requires NodeInv(p, peer) && Remembers(p.node, x) && x.n in p.Ch().secrets
    ensures x in Candidates(p.Ch(), x.n)
  {
    hide SoundState, HoldsSig, WaitInv, LogInv;
  }

  lemma RevealedOk(f: E.Form, c: Chan, peer: Config, n: nat)
    requires E.Proper(f) && ChanInv(c, peer) && n in c.secrets
    ensures n in c.hashes && c.hashes[n] == peer.RevHash(n) && HashPreimage(c.secrets[n]) == c.hashes[n]
    ensures E.SecretOk(f, c.secrets[n])
  {
    hide SoundState, HoldsSig, KeepsHistory;
  }

  /** In every run, for every commitment either side ever signed: once its number is revoked
      and the penalty is worth its fee, all inputs of the penalty pass the chain's check if
      and only if every payment hash of the punished state is a hash and every expiry has at
      most twelve digits. */
  lemma PenaltyEnforced(f: E.Form, a: Config, b: Config, s0: State, events: seq<(bool, Event)>, spendHeight: nat,
      utxoHeight: nat)
    requires Terms(a, b, s0) && Written(f, a, b)
    requires var s := Run(Open(a, b, s0), events);
             forall g :: g in s.a.signed + s.b.signed && g.Sig? ==> E.Unshared(f, g.body)
    ensures var s := Run(Open(a, b, s0), events);
            && (forall g :: g in s.a.signed ==> PassesIff(f, s.a, b, g, spendHeight, utxoHeight))
            && (forall g :: g in s.b.signed ==> PassesIff(f, s.b, a, g, spendHeight, utxoHeight))
  {
    hide NodeInv, Run, PassesIff, AllSized, E.Proper, E.Unshared, Punishes;
    RunInv(a, b, s0, events);
    RunSized(a, b, s0, events);
    PenaltySafe(a, b, s0, events);
    var s := Run(Open(a, b, s0), events);
    forall g | g in s.a.signed ensures PassesIff(f, s.a, b, g, spendHeight, utxoHeight) {
      SignedBody(s.a, g);
      PenaltyOf(f, s.a, b, g, spendHeight, utxoHeight);
    }
    forall g | g in s.b.signed ensures PassesIff(f, s.b, a, g, spendHeight, utxoHeight) {
      SignedBody(s.b, g);
      PenaltyOf(f, s.b, a, g, spendHeight, utxoHeight);
    }
  }

  lemma SignedBody(p: Party, g: Sig)
    requires Punishes(p, g)
    ensures g.Sig?
  {
    hide PenaltyExact;
  }

  // --------------------------------------------------------- an HTLC nobody can spend

  /** The peer's next state with one more HTLC. */
  function Offered(x: State, h: Htlc): State
    requires Bal(x, h.offeredByA) >= h.amount
  {
    State(x.n + 1, if h.offeredByA then x.balA - h.amount else x.balA, if h.offeredByA then x.balB else
        x.balB - h.amount, x.htlcs + [h], x.nextHtlcId + 1)
  }

  /** A channel at rest to which the peer may offer `h`: the next id, an amount it can pay,
      a hash of the right length, an expiry ahead. Nothing else is asked of hash and expiry. */
  predicate MayOffer(c: Chan, h: Htlc, height: nat) {
    && c.pending.None? && !Awaiting(c) && SoundState(c.cfg.info, c.cur) && |c.cur.htlcs| < MAX_HTLCS
    && h.offeredByA != c.cfg.isA && h.id == c.cur.nextHtlcId && (forall g :: g in c.cur.htlcs ==> g.id != h.id)
    && h.amount > 0 && h.paymentHash.Size() == 128 && h.expiry > height + 1
    && Bal(c.cur, h.offeredByA) >= h.amount + if h.offeredByA then c.cfg.info.fee else 0
  }

  lemma {:induction false} SumMore(hs: seq<Htlc>, h: Htlc)
    ensures HtlcSum(hs + [h]) == HtlcSum(hs) + h.amount
  {
    if hs == [] {
      assert hs + [h] == [h] && [h][1..] == [] && HtlcSum([]) == 0;
    } else {
      SumMore(hs[1..], h);
      assert (hs + [h])[1..] == hs[1..] + [h];
    }
  }

  lemma OfferValid(c: Chan, h: Htlc, height: nat)
    requires MayOffer(c, h, height)
    ensures ValidateNext(c, Offered(c.cur, h)).Ok?
  {
    hide HtlcSum;
    SumMore(c.cur.htlcs, h);
  }

  lemma {:induction false} OldIds(hs: seq<Htlc>, id: nat)
    requires forall g :: g in hs ==> g.id != id
    ensures id !in ById(hs)
  {
    if hs != [] { OldIds(hs[..|hs| - 1], id); }
  }

  lemma {:induction false} SoleLast(hs: seq<Htlc>, h: Htlc)
    requires forall g :: g in hs ==> g.id != h.id
    ensures Sole(hs + [h], map[h.id := h]) == Some(h)
  {
    if hs == [] {
      assert hs + [h] == [h];
    } else {
      assert hs[0] in hs;
      SoleLast(hs[1..], h);
      assert (hs + [h])[1..] == hs[1..] + [h];
    }
  }

  lemma OfferClassified(c: Chan, h: Htlc, preimage: Preimage, height: nat)
    requires MayOffer(c, h, height)
    ensures Classify(c, Offered(c.cur, h), preimage, height) == AddHtlc(h)
  {
    hide Sole, HashPreimage, SoundState;
    var hs := c.cur.htlcs;
    assert (hs + [h])[..|hs|] == hs;
    var before, after := ById(hs), ById(hs + [h]);
    assert after == before[h.id := h];
    OldIds(hs, h.id);
    SoleLast(hs, h);
    assert Missing(hs + [h], before) == map[h.id := h] && Missing(hs, after) == map[];
  }

  /** Whatever the text of its hash and whatever its expiry, such an offer is accepted: the
      node signs the peer's commitment to it. */
  lemma AnyHtlcAccepted(v: Node, h: Htlc, preimage: Preimage, env: Env)
    requires v.wait.None? && v.phase == Idle && MayOffer(v.ch, h, env.height) && env.routeOk && v.ch.sigCur.Some?
    ensures var next := Offered(v.ch.cur, h);
            var sig := Sig(v.ch.cfg.remoteKey, OwnCommitment(v.ch.cfg, next));
            var w := v.(ch := v.ch.(pending := Some(next), sigPending := Some(sig)));
            Handle(v, ReqUpd(next, sig, preimage), env) == (w, OkSig(SignRemoteCommitment(w.ch, next)))
  {
    hide Classify, ValidateNext, CommitmentTx, MayOffer;
    OfferValid(v.ch, h, env.height);
    OfferClassified(v.ch, h, preimage, env.height);
    OfferRests(v.ch, h, env.height);
  }

  lemma OfferRests(c: Chan, h: Htlc, height: nat)
    requires MayOffer(c, h, height)
    ensures c.pending.None?
  {
  }
}
