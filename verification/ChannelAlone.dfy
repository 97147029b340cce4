/** One side of a channel against a peer that may send anything at any time: what it keeps
    whatever it hears. */
module ChannelAlone {
  import opened Basics
  import opened Symbols
  import opened Channel
  import opened ChannelNode
  import opened ChannelPayout
  import opened ChannelProtocol
  import opened ChannelUpdates

  // --------------------------------------------------------------------------- runs

  /** The node acts by itself, hears any request, gets any reply (or none) to its own, or is
      told anything by a SYNC answer. */
  datatype Happening =
    | Acts(e: Event)
    | Hears(m: Request, env: Env)
    | Gets(reply: Option<Reply>)
    | Told(n: nat, idle: bool)

  /** The node, the numbers whose secrets it ever sent, and the states it ever proposed. */
  datatype Solo = Solo(node: Node, revealed: set<nat>, mine: set<State>) {
    function Ch(): Chan { node.ch }
    function Cur(): State { node.ch.cur }
  }

  function Happens(p: Solo, h: Happening): Solo {
    match h
    case Acts(e) =>
      var v := Moved(p.node, e);
      Solo(v, p.revealed + RequestReveals(v), if e.Start? then p.mine + {e.next} else p.mine)
    case Hears(m, env) =>
      var (w, r) := Handle(p.node, m, env);
      Solo(w, p.revealed + ReplyReveals(r), p.mine)
    case Gets(reply) =>
      if p.node.wait.None? then p
      else var v := Resume(p.node, reply); Solo(v, p.revealed + RequestReveals(v), p.mine)
    case Told(n, idle) => p.(node := p.node.(sync := Some((n, idle))))
  }

  function Lives(p: Solo, hs: seq<Happening>): Solo {
    if hs == [] then p else Happens(Lives(p, hs[..|hs| - 1]), hs[|hs| - 1])
  }

  function Opened(mine: Config, theirs: Config, s0: State): Solo {
    Solo(OpenSide(mine, theirs, s0).node, {}, {})
  }

  // ---------------------------------------------------------------------- invariant

  /** The peer's move from `cur` to `next` is one of the four that it may make. */
  ghost predicate Agreed(cur: State, next: State, me: bool) {
    || Pays(cur, next, me)
    || (exists h, height :: Adds(cur, next, me, height, h))
    || (exists h :: Fails(cur, next, me, h))
    || (exists h, preimage :: Settles(cur, next, me, preimage, h))
  }

  /** `next` may follow `cur`: this side proposed it, or the peer may make the move. */
  ghost predicate Follows(c: Chan, next: State, mine: set<State>) {
    next.n == c.cur.n + 1 && (next in mine || Agreed(c.cur, next, c.cfg.isA))
  }

  /** A sound state whose commitment the peer has signed. */
  predicate Held(cfg: Config, s: State, sig: Option<Sig>) { SoundState(cfg.info, s) && HoldsSig(cfg, s, sig) }

  predicate Revealing(v: Node) {
    v.phase == Rev || (v.wait.Some? && !v.wait.value.stage.UpdSent? && !v.wait.value.stage.AbortSent?)
  }

  ghost predicate Safe(v: Node, mine: set<State>) {
    && Held(v.ch.cfg, v.ch.cur, v.ch.sigCur)
    && (v.ch.pending.Some? ==>
          Held(v.ch.cfg, v.ch.pending.value, v.ch.sigPending) && Follows(v.ch, v.ch.pending.value, mine))
    && (v.out.Some? ==> v.out.value in mine)
    && (v.wait.Some? && v.wait.value.stage.UpdSent? ==> v.wait.value.stage.x in mine)
    && (Revealing(v) ==> v.ch.cur.n > 0)
    && (v.wait.Some? && v.wait.value.req.ReqRev? ==> v.wait.value.req.revoke.revokedN < v.ch.cur.n)
  }

  /** `w` may come after `v`. */
  ghost predicate SafeFrom(v: Node, w: Node, mine: set<State>) {
    && Safe(w, mine) && w.ch.cfg == v.ch.cfg
    && (w.ch.cur == v.ch.cur || Follows(v.ch, w.ch.cur, mine))
  }

  lemma AbandonSafe(v: Node, mine: set<State>)
    requires Safe(v, mine)
    ensures SafeFrom(v, AbandonOut(v), mine) && SafeFrom(v, v.(ch := DropPending(v.ch)), mine)
    ensures AbandonOut(v).ch.cur == v.ch.cur && DropPending(v.ch).cur == v.ch.cur && DropPending(v.ch).pending.None?
  {
    hide Held, Agreed;
  }

  lemma AdvanceSafe(v: Node, mine: set<State>)
    requires Safe(v, mine) && v.ch.pending.Some?
    ensures SafeFrom(v, AdvanceOut(v), mine)
  {
    hide Held, Agreed;
  }

  lemma FinishSafe(v: Node, r: Revoke, mine: set<State>)
    requires Safe(v, mine)
    ensures SafeFrom(v, FinishOut(v, r), mine)
  {
    hide Held, Agreed;
  }

  lemma ValidSound(c: Chan, next: State)
    requires ValidateNext(c, next).Ok?
    ensures SoundState(c.cfg.info, next) && next.n == c.cur.n + 1
  {
    hide HtlcSum, BadHtlcEntry;
  }

  /** A signature is only taken for a sound state, and only if it is the peer's on our own
      commitment. */
  lemma SigSafe(v: Node, next: State, n: nat, sig: Sig, mine: set<State>)
    requires Safe(v, mine) && (next in mine || Agreed(v.ch.cur, next, v.ch.cfg.isA))
    ensures var ch := ReceiveCommitSig(v.ch, next, n, sig).0; SafeFrom(v, v.(ch := ch), mine) && ch.cur == v.ch.cur
  {
    hide ValidateNext, OwnCommitment, SoundState, Agreed;
    if ValidateNext(v.ch, next).Ok? { ValidSound(v.ch, next); }
  }

  lemma DriveSafe(v: Node, mine: set<State>)
    requires Safe(v, mine)
    ensures SafeFrom(v, StartDrive(v), mine)
  {
    hide Held, Agreed, SignRemoteCommitment, AdvanceOut, AbandonOut, DropPending;
    AbandonSafe(v, mine);
    if v.ch.pending.Some? { AdvanceSafe(v, mine); }
  }

  lemma ResumeSafe(v: Node, reply: Option<Reply>, mine: set<State>)
    requires Safe(v, mine) && v.wait.Some?
    ensures SafeFrom(v, Resume(v, reply), mine)
  {
    hide Held, Agreed, SignRemoteCommitment, AdvanceOut, AbandonOut, ReceiveCommitSig, FinishOut;
    AbandonSafe(v, mine);
    if reply.Some? && reply.value.OkRev? { FinishSafe(v, reply.value.revoke, mine); }
    if v.wait.value.stage.UpdSent? && reply.Some? && reply.value.OkSig? {
      var x := v.wait.value.stage.x;
      SigSafe(v, x, x.n, reply.value.sig, mine);
      var w := v.(ch := ReceiveCommitSig(v.ch, x, x.n, reply.value.sig).0);
      if w.ch.pending.Some? { AdvanceSafe(w, mine); }
    }
  }

  lemma RollbackSafe(v: Node, mine: set<State>)
    requires Safe(v, mine)
    ensures SafeFrom(v, Rollback(v), mine)
  {
    hide AbandonOut, DropPending, Safe, Follows;
    AbandonSafe(v, mine);
    AbandonSafe(AbandonOut(v), mine);
  }

  lemma ProposeSafe(v: Node, next: State, settle: Preimage, mine: set<State>)
    requires Safe(v, mine)
    ensures SafeFrom(v, Propose(v, next, settle), mine + {next})
  {
    hide Held, Agreed, ValidateNext;
  }

  lemma SyncSafe(v: Node, mine: set<State>)
    requires Safe(v, mine)
    ensures SafeFrom(v, SyncAnswer(v), mine)
  {
    hide Held, Agreed;
  }

  lemma MovedSafe(v: Node, e: Event, mine: set<State>)
    requires Safe(v, mine)
    ensures SafeFrom(v, Moved(v, e), if e.Start? then mine + {e.next} else mine)
  {
    hide Held, Agreed, Propose, StartDrive, Resume, Rollback, SyncAnswer;
    match e
    case Start(next, settle) => ProposeSafe(v, next, settle, mine);
    case Drive => DriveSafe(v, mine);
    case Return(lost) => if v.wait.Some? { ResumeSafe(v, if lost then None else v.wait.value.got, mine); }
    case AskRollback => RollbackSafe(v, mine);
    case EndRollback => RollbackSafe(v, mine);
    case SyncReturn => SyncSafe(v, mine);
    case _ =>
  }

  // ----------------------------------------------------------------------- requests

  lemma AcceptedAgreed(c: Chan, next: State, preimage: Preimage, height: nat)
    requires !Classify(c, next, preimage, height).Reject?
    ensures Agreed(c.cur, next, c.cfg.isA)
  {
    hide Classify, Pays, Adds, Fails, Settles;
    AnswerMeans(c, next, preimage, height);
  }

  lemma AcceptSafe(v: Node, m: Request, env: Env, mine: set<State>)
    requires Safe(v, mine) && m.ReqUpd?
    ensures SafeFrom(v, AcceptUpd(v, m, env).0, mine) && !AcceptUpd(v, m, env).1.OkRev?
  {
    hide Held, Agreed, Classify, ReceiveCommitSig, SignRemoteCommitment;
    if !Classify(v.ch, m.next, m.preimage, env.height).Reject? {
      AcceptedAgreed(v.ch, m.next, m.preimage, env.height);
      SigSafe(v, m.next, m.next.n, m.sig, mine);
    }
  }

  lemma UpdSafe(v: Node, m: Request, env: Env, mine: set<State>)
    requires Safe(v, mine) && m.ReqUpd?
    ensures SafeFrom(v, HandleUpd(v, m, env).0, mine) && !HandleUpd(v, m, env).1.OkRev?
  {
    hide Held, Agreed, AcceptUpd, AbandonOut, DropPending, SignRemoteCommitment;
    var w := v.(ch := DropPending(v.ch));
    AbandonSafe(v, mine);
    AbandonSafe(w, mine);
    AcceptSafe(AbandonOut(v), m, env, mine);
    AcceptSafe(AbandonOut(w), m, env, mine);
  }

  /** A REV is answered with the secret of a number we have left. */
  lemma RevSafe(v: Node, r: Revoke, mine: set<State>)
    requires Safe(v, mine) && v.wait.None?
    ensures var (w, reply) := HandleRev(v, r);
            SafeFrom(v, w, mine) && (reply.OkRev? ==> reply.revoke.revokedN < w.ch.cur.n)
  {
    hide Held, Agreed;
  }

  lemma HandleSafe(v: Node, m: Request, env: Env, mine: set<State>)
    requires Safe(v, mine)
    ensures var (w, reply) := Handle(v, m, env);
            SafeFrom(v, w, mine) && (reply.OkRev? ==> reply.revoke.revokedN < w.ch.cur.n)
  {
    hide Held, Agreed, HandleUpd, HandleRev, DropPending;
    if v.wait.None? {
      match m
      case ReqUpd(_, _, _) => UpdSafe(v, m, env, mine);
      case ReqRev(r) => RevSafe(v, r, mine);
      case ReqAbort(_) => AbandonSafe(v, mine);
    }
  }

  // ---------------------------------------------------------------------- every run

  ghost predicate SoloInv(p: Solo) { Safe(p.node, p.mine) && forall n :: n in p.revealed ==> n < p.Cur().n }

  lemma HappensKeeps(p: Solo, h: Happening)
    requires SoloInv(p)
    ensures SoloInv(Happens(p, h)) && SafeFrom(p.node, Happens(p, h).node, Happens(p, h).mine)
  {
    hide Held, Agreed, Moved, Handle, Resume;
    match h
    case Acts(e) => MovedSafe(p.node, e, p.mine);
    case Hears(m, env) => HandleSafe(p.node, m, env, p.mine);
    case Gets(reply) => if p.node.wait.Some? { ResumeSafe(p.node, reply, p.mine); }
    case Told(_, _) =>
  }

  lemma OpenedSafe(a: Config, b: Config, s0: State)
    requires Paired(a, b) && SoundState(a.info, s0) && s0.n == 0
    ensures SoloInv(Opened(a, b, s0)) && Opened(a, b, s0).Ch().cfg == a
  {
    hide CommitmentTx, SoundState;
    assert OwnCommitment(a, s0) == SignRemoteCommitment(Fresh(b, a), s0).body;
  }

  lemma {:induction false} LivesSafe(a: Config, b: Config, s0: State, hs: seq<Happening>)
    requires Paired(a, b) && SoundState(a.info, s0) && s0.n == 0
    ensures var p := Lives(Opened(a, b, s0), hs); SoloInv(p) && p.Ch().cfg == a
  {
    hide Happens, Opened, SoloInv, Safe, Follows;
    if hs == [] {
      OpenedSafe(a, b, s0);
    } else {
      LivesSafe(a, b, s0, hs[..|hs| - 1]);
      HappensKeeps(Lives(Opened(a, b, s0), hs[..|hs| - 1]), hs[|hs| - 1]);
    }
  }

  /** Whatever the peer sends, this side can publish its current state: it holds the peer's
      signature on a transaction that pays both sides what the state gives them, and it has
      never sent the secret that would forfeit it. */
  lemma AlwaysCloses(a: Config, b: Config, s0: State, hs: seq<Happening>)
    requires Paired(a, b) && SoundState(a.info, s0) && s0.n == 0
    ensures var p := Lives(Opened(a, b, s0), hs);
            && p.Ch().sigCur.Some? && SpendsFunding(SignedLocalCommitment(p.Ch()), a) && SoundState(a.info, p.Cur())
            && PaysOut(a.info, a.isA, p.Cur(), a.RevHash(p.Cur().n), SignedLocalCommitment(p.Ch()).body)
            && forall n :: n in p.revealed ==> n < p.Cur().n
  {
    hide Lives, Opened, CommitmentTx, PaysOut, HtlcSum, Follows, BadHtlcEntry;
    LivesSafe(a, b, s0, hs);
    var p := Lives(Opened(a, b, s0), hs);
    CommitmentPays(a.info, a.isA, p.Cur(), a.RevHash(p.Cur().n));
  }

  /** Whatever the peer sends, the current state only ever gives way to the next one, and only
      to one that this side proposed itself or that leaves it no less: its balance does not
      fall, and an HTLC it offered only goes back to it or to the preimage of its hash. */
  lemma OnlyAgreedMoves(a: Config, b: Config, s0: State, hs: seq<Happening>, h: Happening)
    requires Paired(a, b) && SoundState(a.info, s0) && s0.n == 0
    ensures var p := Lives(Opened(a, b, s0), hs);
            var q := Happens(p, h);
            q.Cur() == p.Cur() ||
            (q.Cur().n == p.Cur().n + 1 &&
             (q.Cur() in q.mine || (Agreed(p.Cur(), q.Cur(), a.isA) && Bal(q.Cur(), a.isA) >= Bal(p.Cur(), a.isA))))
  {
    hide Lives, Opened, Happens, Safe, TermsKept, Stands;
    LivesSafe(a, b, s0, hs);
    HappensKeeps(Lives(Opened(a, b, s0), hs), h);
  }
}
