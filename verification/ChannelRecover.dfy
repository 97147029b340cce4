/** How a channel that fell out of step comes back: what the driver does when a reply was lost
    or the other side gave up the pending state. */
module ChannelRecover {
  import opened Basics
  import opened Symbols
  import opened Channel
  import opened ChannelNode
  import opened ChannelProtocol
  import opened ChannelRace
  import opened ChannelUnspendable

  /** `p` has advanced to `y` and revealed its secret for `x`, but not heard back. */
  predicate Leads(v: Node, mine: Config, theirs: Config, x: State, y: State) {
    && v == Node(v.ch, Rev, Some(y), v.settle, None, 0, None)
    && v.ch.cfg == mine && v.ch.cur == y && v.ch.pending.None? && y.n == x.n + 1
    && x.n in v.ch.hashes && v.ch.hashes[x.n] == theirs.RevHash(x.n)
    && y.n in v.ch.hashes && v.ch.hashes[y.n] == theirs.RevHash(y.n)
  }

  function Settled(v: Node, theirs: Config, n: nat): Node {
    v.(ch := Learnt(v.ch, theirs, n), phase := Idle, out := None, settle := NotHex(""), wait := None)
  }

  function RevOf(cfg: Config, n: nat): Revoke { Revoke(n, cfg.RevSecretAt(n), cfg.RevHash(n + 2)) }

  lemma DriveSendsRev(v: Node, mine: Config, theirs: Config, x: State, y: State)
    requires Leads(v, mine, theirs, x, y)
    ensures StartDrive(v) == v.(wait := Some(Wait(RevSent, ReqRev(RevOf(mine, x.n)), None)))
  {
  }

  lemma RevFinishes(v: Node, mine: Config, theirs: Config, x: State, y: State, wait: Wait)
    requires Leads(v, mine, theirs, x, y) && (wait.stage.RevSent? || wait.stage.RevAgain?)
    ensures Resume(v.(wait := Some(wait)), Some(OkRev(RevOf(theirs, x.n)))) == Settled(v, theirs, x.n)
  {
  }

  /** The peer has advanced too, and knows the secret. */
  predicate Follows(w: Node, mine: Config, theirs: Config, x: State, y: State) {
    && w.wait.None? && w.ch.cfg == theirs && w.ch.cur == y && w.ch.pending.None? && y.n == x.n + 1
    && HasRemoteSecret(w.ch, x.n, mine.RevSecretAt(x.n))
  }

  /** If only the reply was lost, one more exchange settles the update: the peer answers as
      before and does not change. */
  lemma LostReply(s: Sys, a: Config, b: Config, x: State, y: State, env: Env)
    requires Leads(s.a.node, a, b, x, y) && Follows(s.b.node, a, b, x, y)
    ensures var t := ByA(ByA(ByA(s, Drive), Deliver(env)), Return(false));
            t.a.node == Settled(s.a.node, b, x.n) && t.b.node == s.b.node
  {
    hide StartDrive, Resume, Handle;
    DriveSendsRev(s.a.node, a, b, x, y);
    AnswersAgain(s.b.node, a, b, x, y, env);
    RevFinishes(s.a.node, a, b, x, y,
        Wait(RevSent, ReqRev(RevOf(a, x.n)), Some(OkRev(RevOf(b, x.n)))));
  }

  lemma AnswersAgain(w: Node, mine: Config, theirs: Config, x: State, y: State, env: Env)
    requires Follows(w, mine, theirs, x, y)
    ensures Handle(w, ReqRev(RevOf(mine, x.n)), env) == (w, OkRev(RevOf(theirs, x.n)))
  {
  }

  /** The peer is still at `x` and has given up what was pending. */
  predicate Behind(w: Node, mine: Config, theirs: Config, x: State, y: State, settle: Preimage, env: Env) {
    && Paired(mine, theirs) && Rests(w, theirs, mine, x) && ValidateNext(w.ch, y).Ok?
    && !Classify(w.ch, y, settle, env.height).Reject? && env.routeOk
  }

  lemma NothingPending(w: Node, mine: Config, theirs: Config, x: State, env: Env)
    requires Rests(w, theirs, mine, x)
    ensures Handle(w, ReqRev(RevOf(mine, x.n)), env) == (w, Refused(NoPending))
  {
  }

  lemma SendsAgain(v: Node, mine: Config, theirs: Config, x: State, y: State, wait: Wait)
    requires Leads(v, mine, theirs, x, y) && wait.stage.RevSent?
    ensures Resume(v.(wait := Some(wait)), Some(Refused(NoPending))) ==
            v.(wait := Some(Wait(ReUpdSent, ReqUpd(y, SigFor(mine, theirs, y), v.settle), None)))
  {
    hide CommitmentTx;
  }

  lemma TakesAgain(w: Node, mine: Config, theirs: Config, x: State, y: State, settle: Preimage, env: Env)
    requires Behind(w, mine, theirs, x, y, settle, env) && y.n == x.n + 1
    ensures Handle(w, ReqUpd(y, SigFor(mine, theirs, y), settle), env) ==
            (w.(ch := w.ch.(pending := Some(y), sigPending := Some(SigFor(mine, theirs, y)))),
             OkSig(SigFor(theirs, mine, y)))
  {
    hide CommitmentTx, ValidateNext, Classify;
    assert OwnCommitment(theirs, y) == SigFor(mine, theirs, y).body;
  }

  lemma RevealsAgain(v: Node, mine: Config, theirs: Config, x: State, y: State, wait: Wait, sig: Sig)
    requires Leads(v, mine, theirs, x, y) && wait.stage.ReUpdSent?
    ensures Resume(v.(wait := Some(wait)), Some(OkSig(sig))) ==
            v.(wait := Some(Wait(RevAgain, ReqRev(RevOf(mine, x.n)), None)))
  {
  }

  /** If the peer has given up the pending state, the driver finds out, proposes it again,
      reveals again, and the update is settled on both sides. */
  lemma LostPending(s: Sys, a: Config, b: Config, x: State, y: State, env: Env)
    requires Leads(s.a.node, a, b, x, y) && Behind(s.b.node, a, b, x, y, s.a.node.settle, env)
    ensures var r := ByA(ByA(ByA(s, Drive), Deliver(env)), Return(false));
            var t := ByA(ByA(ByA(ByA(r, Deliver(env)), Return(false)), Deliver(env)), Return(false));
            && t.a.node == Settled(s.a.node, b, x.n)
            && t.b.node == s.b.node.(ch := Advanced(Learnt(s.b.Ch(), a, x.n), y, SigFor(a, b, y)))
  {
    hide ByA;
    var r := ByA(ByA(ByA(s, Drive), Deliver(env)), Return(false));
    FirstHalf(s, a, b, x, y, env);
    SecondHalf(s, r, a, b, x, y, env);
  }

  lemma FirstHalf(s: Sys, a: Config, b: Config, x: State, y: State, env: Env)
    requires Leads(s.a.node, a, b, x, y) && Behind(s.b.node, a, b, x, y, s.a.node.settle, env)
    ensures var r := ByA(ByA(ByA(s, Drive), Deliver(env)), Return(false));
            && r.b.node == s.b.node
            && r.a.node ==
                 s.a.node.(wait := Some(Wait(ReUpdSent, ReqUpd(y, SigFor(a, b, y), s.a.node.settle), None)))
  {
    hide StartDrive, Resume, Handle, SigFor, Rests, ValidateNext, Classify;
    DriveSendsRev(s.a.node, a, b, x, y);
    NothingPending(s.b.node, a, b, x, env);
    SendsAgain(s.a.node, a, b, x, y, Wait(RevSent, ReqRev(RevOf(a, x.n)), Some(Refused(NoPending))));
  }

  lemma SecondHalf(s: Sys, r: Sys, a: Config, b: Config, x: State, y: State, env: Env)
    requires Leads(s.a.node, a, b, x, y) && Behind(s.b.node, a, b, x, y, s.a.node.settle, env)
    requires r.b.node == s.b.node
    requires r.a.node == s.a.node.(wait := Some(Wait(ReUpdSent, ReqUpd(y, SigFor(a, b, y), s.a.node.settle), None)))
    ensures var t := ByA(ByA(ByA(ByA(r, Deliver(env)), Return(false)), Deliver(env)), Return(false));
            && t.a.node == Settled(s.a.node, b, x.n)
            && t.b.node == s.b.node.(ch := Advanced(Learnt(s.b.Ch(), a, x.n), y, SigFor(a, b, y)))
  {
    hide Resume, Handle, SigFor, Rests, ValidateNext, Classify;
    var v := s.a.node;
    TakesAgain(s.b.node, a, b, x, y, v.settle, env);
    RevealsAgain(v, a, b, x, y,
        Wait(ReUpdSent, ReqUpd(y, SigFor(a, b, y), v.settle), Some(OkSig(SigFor(b, a, y)))), SigFor(b, a, y));
    RevokeStep(s.b.node, a, b, x, y, SigFor(a, b, y), env);
    RevFinishes(v, a, b, x, y, Wait(RevAgain, ReqRev(RevOf(a, x.n)), Some(OkRev(RevOf(b, x.n)))));
  }

  /** When both sides proposed at once, A asks B to give way and B gives its proposal up, which
      stays known. */
  lemma ConflictYields(v: Node, x: State, req: Request, got: Option<Reply>)
    ensures var w := v.(wait := Some(Wait(UpdSent(x), req, got)));
            var r := Resume(w, Some(Refused(ConflictingPending)));
            if v.ch.cfg.isA then r == w.(wait := Some(Wait(AbortSent, ReqAbort(x.n), None)))
            else
              && r.wait.None? && r.ch.cur == v.ch.cur && r.ch.pending == v.ch.pending
              && (v.phase == Upd ==> r.phase == Idle && r.out.None?)
              && (v.phase == Upd && v.out.Some? ==> v.out.value in r.ch.abandoned)
  {
  }

  /** What the driver does with its proposal `x`: it gives it up, known, if the channel has
      moved on or if it is B's and another state is pending; it drops another pending state
      if it is A's; it moves on to `x` if the peer has signed it, revealing its secret; and
      it sends it otherwise, signed. */
  lemma DriveRule(v: Node, x: State)
    requires v.wait.None? && v.phase == Upd && v.out == Some(x)
    ensures var w := StartDrive(v);
            var other := v.ch.pending.Some? && v.ch.pending.value != x;
            var sent := Wait(UpdSent(x), ReqUpd(x, SignRemoteCommitment(v.ch, x), v.settle), None);
            if x.n != v.ch.cur.n + 1 || (other && !v.ch.cfg.isA) then
              w == v.(phase := Idle, out := None, settle := NotHex(""),
                      ch := v.ch.(abandoned := v.ch.abandoned + [x]))
            else if other then
              w == v.(ch := v.ch.(pending := None, sigPending := None,
                                  abandoned := v.ch.abandoned + [v.ch.pending.value]), wait := Some(sent))
            else if v.ch.pending == Some(x) then
              && w.ch.cur == x && w.phase == Rev && w.ch.pending.None? && w.ch.sigCur == v.ch.sigPending
              && w.wait == Some(Wait(RevSent, ReqRev(RevOf(v.ch.cfg, v.ch.cur.n)), None))
            else w == v.(wait := Some(sent))
  {
    hide CommitmentTx;
  }

  /** Whatever else goes wrong with a request, a lost reply, a refusal, a secret that does not
      open the hash, leaves the node as it was, free to try again. */
  lemma FailureStops(v: Node, reply: Option<Reply>)
    requires v.wait.Some?
    requires reply.None? || reply.value.Refused? || (reply.value.OkRev? && !Opens(v.ch, reply.value.revoke))
    requires !(v.wait.value.stage.UpdSent? && reply == Some(Refused(ConflictingPending)))
    requires !(v.wait.value.stage.RevSent? && reply == Some(Refused(NoPending)))
    requires !(v.wait.value.stage.ReUpdSent? && reply.Some? && reply.value.OkRev?)
    ensures Resume(v, reply) == v.(wait := None)
  {
  }

  /** The secret opens the hash known for its number, and a hash comes with it. */
  predicate Opens(c: Chan, r: Revoke) {
    r.revokedN in c.hashes && HashPreimage(r.secret) == c.hashes[r.revokedN] && r.nextHash.Size() == 128
  }
}
