/** Two nodes joined by a request/reply transport that may lose any request or any
    reply: every run of the protocol, and what holds in all of them. */
module ChannelProtocol {
  import opened Basics
  import opened Symbols
  import opened Channel
  import opened ChannelNode
  import opened ChannelPayout
  import opened ChannelPenalty

  // -------------------------------------------------------------------- runs

  /** A node with the history the properties speak about: every signature it ever sent,
      every revocation secret it ever sent (by number); `undercut`, that an operator
      rollback resumed during the latest wait for the reply to an UPD and no proposal
      entered after it; and `droveEmpty`, that the driver was started on an empty outbox
      since the node last advanced. */
  datatype Party = Party(node: Node, signed: set<Sig>, revealed: set<nat>, undercut: bool, droveEmpty: bool) {
    function Ch(): Chan { node.ch }
    function Cur(): State { node.ch.cur }
  }

  datatype Sys = Sys(a: Party, b: Party)

  /** One step of one node (`Deliver`, `AbortArrives` and `SyncAsk` also run a handler
      of the other). A request is delivered at most once and only while its sender
      still waits for it; `Return(true)` is a lost reply, and a return before any
      delivery is a lost request. Between delivery and return both nodes may step. */
  datatype Event =
    | Start(next: State, settle: Preimage)
    | Drive
    | Deliver(env: Env)
    | Return(lost: bool)
    | AskRollback
    | AbortArrives(n: nat)
    | EndRollback
    | SyncAsk
    | SyncReturn

  function RequestSigs(v: Node): set<Sig> {
    if v.wait.Some? && v.wait.value.req.ReqUpd? then {v.wait.value.req.sig} else {}
  }

  function RequestReveals(v: Node): set<nat> {
    if v.wait.Some? && v.wait.value.req.ReqRev? then {v.wait.value.req.revoke.revokedN} else {}
  }

  function ReplySigs(r: Reply): set<Sig> { if r.OkSig? then {r.sig} else {} }

  function ReplyReveals(r: Reply): set<nat> { if r.OkRev? then {r.revoke.revokedN} else {} }

  /** The node becomes `v`; whatever request `v` has out is recorded as sent. */
  function Became(p: Party, v: Node): Party {
    p.(node := v, signed := p.signed + RequestSigs(v), revealed := p.revealed + RequestReveals(v))
  }

  predicate WaitsForSig(p: Party) { p.node.wait.Some? && p.node.wait.value.stage.UpdSent? }

  /** What the node itself does in a step of its own. */
  function Moved(v: Node, e: Event): Node {
    match e
    case Start(next, settle) => Propose(v, next, settle)
    case Drive => StartDrive(v)
    case Return(lost) => if v.wait.None? then v else Resume(v, if lost then None else v.wait.value.got)
    case AskRollback => RollbackAsk(v)
    case EndRollback => RollbackDone(v)
    case SyncReturn => SyncAnswer(v)
    case _ => v
  }

  /** The driver starts on an empty outbox. */
  predicate DrivesEmpty(v: Node, e: Event) { e.Drive? && v.wait.None? && v.out.None? }

  /** A rollback resumes under a driver that waits for the peer's signature. */
  predicate Undercuts(p: Party, e: Event) { e.EndRollback? && p.node.rollbacks > 0 && WaitsForSig(p) }

  /** A new wait for a signature begins, or a proposal enters the outbox. */
  predicate Begins(p: Party, v: Node) {
    (!WaitsForSig(p) && v.wait.Some? && v.wait.value.stage.UpdSent?) || (p.node.phase == Idle && v.phase == Upd)
  }

  function Local(p: Party, e: Event): Party {
    var v := Moved(p.node, e);
    Became(p, v).(undercut := Undercuts(p, e) || (p.undercut && !Begins(p, v)),
                  droveEmpty := v.ch.cur.n <= p.Cur().n && (p.droveEmpty || DrivesEmpty(p.node, e)))
  }

  /** The node becomes `w` and sends `reply`. */
  function Answered(q: Party, w: Node, reply: Reply): Party {
    q.(node := w, signed := q.signed + ReplySigs(reply), revealed := q.revealed + ReplyReveals(reply),
       droveEmpty := w.ch.cur.n <= q.Cur().n && q.droveEmpty)
  }

  function Arrive(p: Party, q: Party, env: Env): (Party, Party) {
    if p.node.wait.None? || p.node.wait.value.got.Some? then (p, q)
    else
      var (w, reply) := Handle(q.node, p.node.wait.value.req, env);
      (p.(node := p.node.(wait := Some(p.node.wait.value.(got := Some(reply))))), Answered(q, w, reply))
  }

  /** `p` takes step `e`; `q` is the other side. */
  function Step(p: Party, q: Party, e: Event): (Party, Party) {
    match e
    case Deliver(env) => Arrive(p, q, env)
    case AbortArrives(n) =>
      if p.node.rollbacks == 0 || q.node.wait.Some? then (p, q)
      else (p, q.(node := HandleAbort(q.node, n).0))
    case SyncAsk =>
      if p.node.ch.pending.None? || p.node.phase != Idle || q.node.wait.Some? then (p, q)
      else (p.(node := p.node.(sync := Some((q.Cur().n, q.node.phase == Idle)))), q)
    case _ => (Local(p, e), q)
  }

  /** Side A (`byA`) or B takes step `e`. */
  function Next(s: Sys, byA: bool, e: Event): Sys {
    if byA then var (p, q) := Step(s.a, s.b, e); Sys(p, q)
    else var (p, q) := Step(s.b, s.a, e); Sys(q, p)
  }

  function Run(s: Sys, events: seq<(bool, Event)>): Sys {
    if events == [] then s
    else Next(Run(s, events[..|events| - 1]), events[|events| - 1].0, events[|events| - 1].1)
  }

  // ----------------------------------------------------------------- opening

  /** The two sides agree on the terms, and the funder can pay the fee. */
  predicate Terms(a: Config, b: Config, s0: State) {
    && Paired(a, b) && a.isA
    && s0.n == 0 && s0.htlcs == [] && s0.balA + s0.balB == a.info.capacity && a.info.fee <= s0.balA
  }

  predicate Paired(a: Config, b: Config) {
    a.info == b.info && a.isA != b.isA && a.remoteKey == b.key && b.remoteKey == a.key
  }

  /** A channel that knows the peer's first two revocation hashes and nothing else. */
  function Fresh(mine: Config, theirs: Config): Chan {
    Chan(mine, State(0, 0, 0, [], 0), None, None, None,
         map[0 := theirs.RevHash(0), 1 := theirs.RevHash(1)], map[], map[], [])
  }

  function OpenSide(mine: Config, theirs: Config, s0: State): Party {
    var sent := SignRemoteCommitment(Fresh(mine, theirs), s0);
    var received := SignRemoteCommitment(Fresh(theirs, mine), s0);
    var ch := ReceiveCommitSig(Fresh(mine, theirs), s0, 0, received).0;
    Party(Node(ch, Idle, None, NotHex(""), None, 0, None), {sent}, {}, false, false)
  }

  function Open(a: Config, b: Config, s0: State): Sys { Sys(OpenSide(a, b, s0), OpenSide(b, a, s0)) }

  // --------------------------------------------------------------- invariant

  predicate SoundState(info: Info, s: State) {
    && info.fee <= s.balA
    && s.balA + s.balB + HtlcSum(s.htlcs) == info.capacity
    && |s.htlcs| <= MAX_HTLCS
    && forall i :: 0 <= i < |s.htlcs| ==> !BadHtlcEntry(s.htlcs[i])
  }

  predicate HoldsSig(cfg: Config, s: State, sig: Option<Sig>) {
    sig == Some(Sig(cfg.remoteKey, OwnCommitment(cfg, s)))
  }

  /** The largest number whose revocation hash the peer has handed over. */
  function Top(c: Chan): nat { if Awaiting(c) then c.cur.n else c.cur.n + 1 }

  ghost predicate KnowsPeer(hashes: map<nat, Digest>, secrets: map<nat, Preimage>, peer: Config, top: nat) {
    && (forall k: nat :: k in hashes <==> k <= top)
    && (forall k: nat :: k in hashes ==> hashes[k] == peer.RevHash(k))
    && (forall k: nat :: k in secrets <==> k + 1 < top)
    && (forall k: nat :: k in secrets ==> secrets[k] == peer.RevSecretAt(k))
  }

  ghost predicate KeepsHistory(history: map<nat, State>, n: nat) {
    && (forall k: nat :: k in history <==> k < n)
    && (forall k: nat :: k in history ==> history[k].n == k)
  }

  ghost predicate ChanInv(c: Chan, peer: Config) {
    && Paired(c.cfg, peer)
    && KnowsPeer(c.hashes, c.secrets, peer, Top(c))
    && KeepsHistory(c.history, c.cur.n)
    && (Awaiting(c) ==> c.cur.n >= 1 && c.pending.None?)
    && SoundState(c.cfg.info, c.cur) && HoldsSig(c.cfg, c.cur, c.sigCur)
    && (if c.pending.None? then c.sigPending.None?
        else && c.pending.value.n == c.cur.n + 1
             && SoundState(c.cfg.info, c.pending.value) && HoldsSig(c.cfg, c.pending.value, c.sigPending))
  }

  /** `x` is the proposal being made; one that entered while the driver was waiting for a
      signature on another has not been signed yet. */
  predicate InOutbox(v: Node, x: State) {
    && v.phase == Upd && v.out == Some(x)
    && (v.wait.Some? && v.wait.value.stage.UpdSent? ==> v.wait.value.stage.x == x)
  }

  /** The node can still reconstruct `x`. */
  predicate Remembers(v: Node, x: State) {
    || x == v.ch.cur
    || (x.n in v.ch.history && v.ch.history[x.n] == x)
    || x in v.ch.abandoned
    || v.ch.pending == Some(x)
    || InOutbox(v, x)
  }

  /** What this side signs when it accepts `x` as the peer's next commitment. */
  function SigFor(cfg: Config, peer: Config, x: State): Sig {
    Sig(cfg.key, CommitmentTx(cfg.info, !cfg.isA, x, peer.RevHash(x.n)))
  }

  ghost predicate Accounted(v: Node, peer: Config, g: Sig) {
    exists x :: Remembers(v, x) && g == SigFor(v.ch.cfg, peer, x)
  }

  ghost predicate LogInv(p: Party, peer: Config) {
    && (forall g :: g in p.signed ==> Accounted(p.node, peer, g))
    && (forall k :: k in p.revealed ==> k < p.Cur().n)
    && RequestSigs(p.node) <= p.signed && RequestReveals(p.node) <= p.revealed
  }

  ghost predicate OutboxInv(p: Party) {
    var v := p.node;
    && (v.phase == Upd ==>
          && v.out.Some? && v.out.value.n == v.ch.cur.n + 1 && v.ch.pending.None? && !Awaiting(v.ch))
    && (v.phase == Idle ==> v.out.None?)
    && (v.phase == Rev ==> Awaiting(v.ch))
    && (Awaiting(v.ch) ==> (v.phase == Rev <==> !p.droveEmpty) && (v.out.None? <==> p.undercut))
  }

  ghost predicate WaitInv(p: Party) {
    var v := p.node;
    v.wait.Some? ==>
      match v.wait.value.stage
      case UpdSent(x) =>
        && !Awaiting(v.ch) && v.ch.pending.None? && x.n == v.ch.cur.n + 1
        && v.wait.value.req.ReqUpd? && v.wait.value.req.next == x
        && (v.out == Some(x) || x in v.ch.abandoned) && (v.out.None? <==> p.undercut)
      case AbortSent => v.wait.value.req.ReqAbort?
      case ReUpdSent => v.phase == Rev && v.wait.value.req.ReqUpd? && v.wait.value.req.next == v.ch.cur
      case _ => v.phase == Rev && v.wait.value.req == ReqRev(LastRevoke(v.ch))
  }

  ghost predicate NodeInv(p: Party, peer: Config) {
    ChanInv(p.Ch(), peer) && OutboxInv(p) && WaitInv(p) && LogInv(p, peer)
  }

  /** A signature for the driver's proposal is on its way to `p`. */
  predicate SigInFlight(p: Party) {
    WaitsForSig(p) && p.node.wait.value.got.Some? && p.node.wait.value.got.value.OkSig?
  }

  predicate RevInFlight(p: Party) {
    && p.node.wait.Some? && (p.node.wait.value.stage.RevSent? || p.node.wait.value.stage.RevAgain?)
    && p.node.wait.value.got.Some? && p.node.wait.value.got.value.OkRev?
  }

  ghost predicate Link(p: Party, q: Party) {
    var c, d := p.Ch(), q.Ch();
    && c.cur.n <= d.cur.n + 1
    && (c.cur.n == d.cur.n ==> c.cur == d.cur)
    && (c.cur.n == d.cur.n + 1 ==> Awaiting(c) && (d.pending.None? || d.pending == Some(c.cur)))
    && (Awaiting(c) ==> !Awaiting(d) && d.cur.n <= c.cur.n && (c.cur.n == d.cur.n ==> d.pending.None?))
    && (SigInFlight(p) ==>
          && c.cur.n == d.cur.n && !Awaiting(d) && !SigInFlight(q)
          && (d.pending.None? || d.pending == Some(p.node.wait.value.stage.x)))
    && (RevInFlight(p) ==> c.cur.n == d.cur.n && p.node.wait.value.got.value.revoke == LastRevoke(d))
  }

  ghost predicate Inv(p: Party, q: Party) {
    NodeInv(p, q.Ch().cfg) && NodeInv(q, p.Ch().cfg) && Link(p, q) && Link(q, p)
  }

  // ------------------------------------------------------- channel operations

  lemma ValidNextIsSound(c: Chan, next: State)
    requires ValidateNext(c, next).Ok?
    ensures SoundState(c.cfg.info, next) && c.pending.None? && next.n == c.cur.n + 1 && !Awaiting(c)
  {
  }

  lemma DropKeeps(c: Chan, peer: Config)
    requires ChanInv(c, peer)
    ensures ChanInv(DropPending(c), peer)
  {
    hide KnowsPeer, KeepsHistory, SoundState, HoldsSig;
  }

  lemma ReceiveSigKeeps(c: Chan, peer: Config, next: State, sigN: nat, sig: Sig)
    requires ChanInv(c, peer)
    ensures var (c', o) := ReceiveCommitSig(c, next, sigN, sig);
            && ChanInv(c', peer)
            && (o.Err? ==> c' == c)
            && (o.Ok? ==> ValidateNext(c, next).Ok? && !Awaiting(c) &&
                          c' == c.(pending := Some(next), sigPending := Some(sig)) && next.n == c.cur.n + 1)
  {
    if ValidateNext(c, next).Ok? { ValidNextIsSound(c, next); }
  }

  /** Advancing a proposer: it now waits for the peer's revocation. */
  lemma AdvanceKeeps(c: Chan, peer: Config)
    requires ChanInv(c, peer) && c.pending.Some?
    ensures var c' := RevokeAndAdvance(c).0;
            ChanInv(c', peer) && Awaiting(c') && c'.cur == c.pending.value && c'.pending.None? && c'.cfg == c.cfg
  {
    var c' := RevokeAndAdvance(c).0;
    assert c'.cur.n + 1 !in c'.hashes;
  }

  /** Any genuine revocation extends what is known of the peer by one number. */
  lemma LearnRevoke(c: Chan, peer: Config, n: nat)
    requires KnowsPeer(c.hashes, c.secrets, peer, n + 1)
    ensures var (c', o) := ReceiveRevoke(c, Revoke(n, peer.RevSecretAt(n), peer.RevHash(n + 2)));
            && o.Ok? && KnowsPeer(c'.hashes, c'.secrets, peer, n + 2)
            && c' == c.(secrets := c'.secrets, hashes := c'.hashes)
  {
  }

  /** The proposer gets the peer's revocation of the state both have left. */
  lemma ReceiveRevokeKeeps(c: Chan, peer: Config)
    requires ChanInv(c, peer) && Awaiting(c)
    ensures var (c', o) := ReceiveRevoke(c,
            Revoke(c.cur.n - 1, peer.RevSecretAt(c.cur.n - 1), peer.RevHash(c.cur.n + 1)));
            && o.Ok? && ChanInv(c', peer) && !Awaiting(c')
            && c' == c.(secrets := c'.secrets, hashes := c'.hashes)
  {
    LearnRevoke(c, peer, c.cur.n - 1);
  }

  lemma KnownUpTo(c: Chan, peer: Config, top: nat)
    requires KnowsPeer(c.hashes, c.secrets, peer, top)
    ensures forall k: nat :: k in c.hashes <==> k <= top
  {
  }

  lemma HistoryGrows(history: map<nat, State>, s: State)
    requires KeepsHistory(history, s.n)
    ensures KeepsHistory(history[s.n := s], s.n + 1)
  {
  }

  /** The receiver takes the proposer's revocation and advances in one handler. */
  lemma RevokeInKeeps(c: Chan, peer: Config)
    requires ChanInv(c, peer) && c.pending.Some?
    ensures var (c1, o) := ReceiveRevoke(c, Revoke(c.cur.n, peer.RevSecretAt(c.cur.n), peer.RevHash(c.cur.n + 2)));
            && o.Ok? && c1.pending.Some?
            && var c' := RevokeAndAdvance(c1).0;
               && ChanInv(c', peer) && !Awaiting(c') && c'.cur == c.pending.value && c'.pending.None?
               && c'.cfg == c.cfg && c'.abandoned == c.abandoned && c'.history == c.history[c.cur.n := c.cur]
               && LastRevoke(c') == RevokeAndAdvance(c1).1
  {
    hide KnowsPeer, KeepsHistory, SoundState, HoldsSig, ReceiveRevoke;
    LearnRevoke(c, peer, c.cur.n);
    var c1 := ReceiveRevoke(c, Revoke(c.cur.n, peer.RevSecretAt(c.cur.n), peer.RevHash(c.cur.n + 2))).0;
    KnownUpTo(c1, peer, c.cur.n + 2);
    HistoryGrows(c.history, c.cur);
  }

  // ------------------------------------------------------- one node's own steps

  ghost predicate RemembersAll(v: Node, v': Node) {
    v'.ch.cfg == v.ch.cfg && forall x :: Remembers(v, x) ==> Remembers(v', x)
  }

  /** `p` with its node become `v`, whatever its other history says. */
  predicate Turned(p: Party, v: Node, p': Party) {
    p' == Became(p, v).(undercut := p'.undercut, droveEmpty := p'.droveEmpty)
  }

  lemma LogKeeps(p: Party, v: Node, p': Party, peer: Config)
    requires LogInv(p, peer) && RemembersAll(p.node, v) && p.Cur().n <= v.ch.cur.n && Turned(p, v, p')
    requires v.wait != p.node.wait ==>
               && (forall g :: g in RequestSigs(v) ==> Accounted(v, peer, g))
               && (forall k :: k in RequestReveals(v) ==> k < v.ch.cur.n)
    ensures LogInv(p', peer)
  {
    forall g | g in p.signed ensures Accounted(v, peer, g) {
      var x :| Remembers(p.node, x) && g == SigFor(p.Ch().cfg, peer, x);
      assert Remembers(v, x);
    }
  }

  /** A step the other side cannot notice: same current state and knowledge of the
      peer, at most a pending state given up, nothing new in flight. */
  predicate Quiet(p: Party, p': Party) {
    var c, c' := p.Ch(), p'.Ch();
    && c'.cfg == c.cfg && c'.cur == c.cur && c'.hashes == c.hashes
    && (c'.pending == c.pending || c'.pending.None?)
    && (SigInFlight(p') ==> SigInFlight(p) && p'.node.wait == p.node.wait)
    && (RevInFlight(p') ==> RevInFlight(p) && p'.node.wait == p.node.wait)
  }

  lemma QuietLink(p: Party, p': Party, q: Party)
    requires Link(p, q) && Link(q, p) && Quiet(p, p')
    ensures Link(p', q) && Link(q, p')
  {
  }

  lemma StartKeeps(p: Party, peer: Config, next: State, settle: Preimage)
    requires NodeInv(p, peer)
    ensures var p' := Local(p, Start(next, settle)); NodeInv(p', peer) && Quiet(p, p')
  {
    hide KnowsPeer, KeepsHistory, HoldsSig;
    LogKeeps(p, Propose(p.node, next, settle), Local(p, Start(next, settle)), peer);
    if ValidateNext(p.Ch(), next).Ok? { ValidNextIsSound(p.Ch(), next); }
  }

  /** Giving up the outbox, the pending state, or both, is always safe. */
  lemma RollbackKeeps(p: Party, peer: Config)
    requires NodeInv(p, peer)
    ensures var v := Rollback(p.node);
            var p' := Became(p, v).(undercut := p.undercut || WaitsForSig(p));
            NodeInv(p', peer) && Quiet(p, p')
  {
    hide KnowsPeer, KeepsHistory, SoundState, HoldsSig;
    DropKeeps(AbandonOut(p.node).ch, peer);
    LogKeeps(p, Rollback(p.node), Became(p, Rollback(p.node)).(undercut := p.undercut || WaitsForSig(p)), peer);
  }

  lemma RollbackShape(v: Node)
    ensures var w := Rollback(v);
            && w.phase != Upd && w.wait == v.wait && w.ch.cur == v.ch.cur && (v.phase != Rev ==> w.phase == Idle)
            && w.ch.cfg == v.ch.cfg && w.ch.hashes == v.ch.hashes && w.ch.pending.None?
  {
  }

  lemma DropNodeKeeps(p: Party, v: Node, peer: Config)
    requires NodeInv(p, peer)
    requires v == p.node.(ch := v.ch, sync := v.sync) && (v.ch == p.Ch() || v.ch == DropPending(p.Ch()))
    ensures NodeInv(Became(p, v), peer) && Quiet(p, Became(p, v))
  {
    hide KnowsPeer, KeepsHistory, SoundState, HoldsSig;
    DropKeeps(p.Ch(), peer);
    LogKeeps(p, v, Became(p, v), peer);
  }

  /** Signing a state the node remembers, under a hash it knows, is accounted for. */
  lemma SignIsAccounted(v: Node, peer: Config, x: State)
    requires ChanInv(v.ch, peer) && Remembers(v, x) && x.n <= Top(v.ch)
    ensures Accounted(v, peer, SignRemoteCommitment(v.ch, x))
  {
    assert SignRemoteCommitment(v.ch, x) == SigFor(v.ch.cfg, peer, x);
  }

  lemma SendKeeps(p: Party, v: Node, p': Party, peer: Config)
    requires NodeInv(p, peer) && v == p.node.(wait := v.wait) && v.wait.Some? && v.wait.value.got.None?
    requires Turned(p, v, p') && WaitInv(p') && OutboxInv(p')
    requires v.wait.value.stage.UpdSent? ==> v.out == Some(v.wait.value.stage.x)
    requires match v.wait.value.req
             case ReqUpd(x, sig, _) => sig == SignRemoteCommitment(v.ch, x) && Remembers(p.node, x) && x.n <= Top(v.ch)
             case ReqRev(r) => r.revokedN < v.ch.cur.n
             case ReqAbort(_) => true
    ensures NodeInv(p', peer) && Quiet(p, p')
  {
    hide KnowsPeer, KeepsHistory, SoundState, HoldsSig;
    var req := v.wait.value.req;
    if req.ReqUpd? { SignIsAccounted(v, peer, req.next); }
    LogKeeps(p, v, p', peer);
  }

  lemma StopKeeps(p: Party, v: Node, peer: Config)
    requires NodeInv(p, peer) && v == Stop(p.node)
    ensures NodeInv(Became(p, v), peer) && Quiet(p, Became(p, v))
  {
    hide KnowsPeer, KeepsHistory, SoundState, HoldsSig;
    LogKeeps(p, v, Became(p, v), peer);
  }

  /** The parts of the driver that assume a pending state beside an outbox, or an
      outbox that has fallen behind, are never reached. */
  lemma DriveKeeps(p: Party, peer: Config)
    requires NodeInv(p, peer)
    ensures var p' := Local(p, Drive); NodeInv(p', peer) && Quiet(p, p')
  {
    hide KnowsPeer, KeepsHistory, SoundState, HoldsSig, SignRemoteCommitment, CommitmentTx;
    var v := StartDrive(p.node);
    if p.node.wait.None? && p.node.out.Some? && p.node.phase != Idle {
      SendKeeps(p, v, Local(p, Drive), peer);
    } else {
      LogKeeps(p, v, Local(p, Drive), peer);
    }
  }

  lemma GiveUpKeeps(p: Party, peer: Config)
    requires NodeInv(p, peer)
    ensures var p' := Became(p, Stop(AbandonOut(p.node))); NodeInv(p', peer) && Quiet(p, p')
  {
    hide KnowsPeer, KeepsHistory, SoundState, HoldsSig;
    LogKeeps(p, Stop(AbandonOut(p.node)), Became(p, Stop(AbandonOut(p.node))), peer);
  }

  /** The proposer receives the peer's signature, revokes, and is one state ahead. */
  lemma AdvanceOutKeeps(p: Party, q: Party, sig: Sig)
    requires Inv(p, q) && SigInFlight(p)
    requires var x := p.node.wait.value.stage.x; ReceiveCommitSig(p.Ch(), x, x.n, sig).1.Ok?
    ensures var x := p.node.wait.value.stage.x;
            var ch := ReceiveCommitSig(p.Ch(), x, x.n, sig).0;
            ch.pending.Some? && Inv(Became(p, AdvanceOut(p.node.(ch := ch))).(droveEmpty := false), q)
  {
    hide KnowsPeer, KeepsHistory, SoundState, HoldsSig, CommitmentTx, SignRemoteCommitment;
    var peer, x := q.Ch().cfg, p.node.wait.value.stage.x;
    ReceiveSigKeeps(p.Ch(), peer, x, x.n, sig);
    var ch := ReceiveCommitSig(p.Ch(), x, x.n, sig).0;
    AdvanceKeeps(ch, peer);
    var v := AdvanceOut(p.node.(ch := ch));
    assert RemembersAll(p.node, v) by { AdvanceRemembers(p, v, peer, x); }
    LogKeeps(p, v, Became(p, v).(droveEmpty := false), peer);
  }

  lemma AdvanceRemembers(p: Party, v: Node, peer: Config, x: State)
    requires NodeInv(p, peer) && p.node.wait.Some? && p.node.wait.value.stage == UpdSent(x)
    requires v.ch.cfg == p.Ch().cfg && v.ch.cur == x && v.ch.history == p.Ch().history[p.Cur().n := p.Cur()]
    requires v.ch.abandoned == p.Ch().abandoned
    ensures RemembersAll(p.node, v)
  {
  }

  /** The proposer receives the peer's revocation and both are level again. */
  lemma FinishKeeps(p: Party, q: Party)
    requires Inv(p, q) && RevInFlight(p)
    ensures Inv(Became(p, FinishOut(p.node, p.node.wait.value.got.value.revoke)), q)
  {
    hide KnowsPeer, KeepsHistory, SoundState, HoldsSig, CommitmentTx, SignRemoteCommitment;
    ReceiveRevokeKeeps(p.Ch(), q.Ch().cfg);
    var v := FinishOut(p.node, p.node.wait.value.got.value.revoke);
    LogKeeps(p, v, Became(p, v), q.Ch().cfg);
  }

  predicate Advances(p: Party, reply: Option<Reply>) {
    && WaitsForSig(p) && reply.Some? && reply.value.OkSig?
    && var x := p.node.wait.value.stage.x; ReceiveCommitSig(p.Ch(), x, x.n, reply.value.sig).1.Ok?
  }

  predicate Finishes(p: Party, reply: Option<Reply>) {
    && p.node.wait.Some? && (p.node.wait.value.stage.RevSent? || p.node.wait.value.stage.RevAgain?)
    && reply.Some? && reply.value.OkRev?
  }

  /** Every other way a request can return. */
  lemma QuietReturn(p: Party, peer: Config, reply: Option<Reply>)
    requires NodeInv(p, peer) && p.node.wait.Some? && !Advances(p, reply) && !Finishes(p, reply)
    ensures var p' := Became(p, Resume(p.node, reply)); NodeInv(p', peer) && Quiet(p, p')
  {
    hide KnowsPeer, KeepsHistory, SoundState, HoldsSig, CommitmentTx, SignRemoteCommitment, LogInv, Quiet;
    var v := Resume(p.node, reply);
    if WaitsForSig(p) && reply == Some(Refused(ConflictingPending)) && !p.Ch().cfg.isA {
      GiveUpKeeps(p, peer);
    } else if v.wait.Some? {
      SendKeeps(p, v, Became(p, v), peer);
    } else {
      StopKeeps(p, v, peer);
    }
  }

  /** A return never refills the outbox nor starts a new wait for a signature. */
  lemma ReturnHistory(p: Party, lost: bool)
    requires p.node.wait.Some?
    ensures var v := Resume(p.node, if lost then None else p.node.wait.value.got);
            Local(p, Return(lost)) == Became(p, v).(droveEmpty := v.ch.cur.n <= p.Cur().n && p.droveEmpty)
  {
    hide ReceiveCommitSig, ReceiveRevoke, RevokeAndAdvance, SignRemoteCommitment, NoteAbandoned;
  }

  lemma SameNumber(p: Party, reply: Option<Reply>)
    requires p.node.wait.Some?
    ensures Finishes(p, reply) ==> Resume(p.node, reply).ch.cur == p.Cur()
    ensures Advances(p, reply) ==> Resume(p.node, reply).ch.cur.n == p.Cur().n + 1 || p.node.wait.value.stage.x.n == 0
  {
    hide CommitmentTx, SignRemoteCommitment, HtlcSum, BadHtlcEntry;
  }

  lemma ReturnKeeps(p: Party, q: Party, lost: bool)
    requires Inv(p, q)
    ensures Inv(Local(p, Return(lost)), q)
  {
    hide NodeInv, Link, Quiet, ReceiveCommitSig, FinishOut, AdvanceOut, Local;
    if p.node.wait.Some? {
      var reply := if lost then None else p.node.wait.value.got;
      ReturnHistory(p, lost);
      SameNumber(p, reply);
      if Advances(p, reply) {
        WaitedNumber(p, q.Ch().cfg);
        AdvanceOutKeeps(p, q, reply.value.sig);
      } else if Finishes(p, reply) {
        FinishKeeps(p, q);
      } else {
        QuietReturn(p, q.Ch().cfg, reply);
        QuietLink(p, Became(p, Resume(p.node, reply)), q);
        SameConfig(p, Became(p, Resume(p.node, reply)));
      }
    } else {
      NoReturn(p, lost);
    }
  }

  lemma WaitedNumber(p: Party, peer: Config)
    requires NodeInv(p, peer) && WaitsForSig(p)
    ensures p.node.wait.value.stage.x.n == p.Cur().n + 1
  {
  }

  lemma NoReturn(p: Party, lost: bool)
    requires p.node.wait.None?
    ensures Local(p, Return(lost)) == p
  {
  }

  lemma SameConfig(p: Party, p': Party)
    requires Quiet(p, p')
    ensures p'.Ch().cfg == p.Ch().cfg && p'.Cur() == p.Cur()
  {
  }

  // ---------------------------------------------------------- inbound handlers

  lemma AnsweredLog(q: Party, w: Node, reply: Reply, peer: Config)
    requires LogInv(q, peer) && RemembersAll(q.node, w) && q.Cur().n <= w.ch.cur.n && w.wait == q.node.wait
    requires reply.OkSig? ==> Accounted(w, peer, reply.sig)
    requires reply.OkRev? ==> reply.revoke.revokedN < w.ch.cur.n
    ensures LogInv(Answered(q, w, reply), peer)
  {
    forall g | g in q.signed ensures Accounted(w, peer, g) {
      var x :| Remembers(q.node, x) && g == SigFor(q.Ch().cfg, peer, x);
      assert Remembers(w, x);
    }
  }

  /** What an UPD can do to its receiver: hold the proposal as pending and sign it, or
      refuse it, possibly giving up its own pending state or outbox on the way. */
  predicate UpdEffect(v: Node, w: Node, next: State, reply: Reply) {
    && w.ch.cfg == v.ch.cfg && w.ch.cur == v.ch.cur && w.ch.hashes == v.ch.hashes && w.wait.None?
    && (if reply.OkSig? then w.ch.pending == Some(next) && next.n == v.ch.cur.n + 1 && !Awaiting(v.ch)
        else reply.Refused? && (w.ch.pending == v.ch.pending || w.ch.pending.None?))
  }

  lemma AcceptKeeps(q: Party, m: Request, env: Env, peer: Config)
    requires NodeInv(q, peer) && q.node.wait.None? && m.ReqUpd? && q.node.phase == Idle
    ensures var (w, reply) := AcceptUpd(q.node, m, env);
            NodeInv(Answered(q, w, reply), peer) && UpdEffect(q.node, w, m.next, reply)
  {
    hide KnowsPeer, KeepsHistory, SoundState, HoldsSig, CommitmentTx, SignRemoteCommitment, Classify;
    var (w, reply) := AcceptUpd(q.node, m, env);
    ReceiveSigKeeps(q.Ch(), peer, m.next, m.next.n, m.sig);
    if reply.OkSig? { SignIsAccounted(w, peer, m.next); }
    AnsweredLog(q, w, reply, peer);
  }

  /** An UPD that is neither a repeat nor refused outright meets a node that has given up
      its outbox and its pending state. */
  lemma UpdMeetsCleared(v: Node, m: Request, env: Env)
    requires m.ReqUpd? && (v.phase == Upd ==> v.ch.pending.None?) && (v.ch.pending.None? ==> v.ch.sigPending.None?)
    ensures var r := HandleUpd(v, m, env);
            || (v.ch.pending == Some(m.next) && r == (v, OkSig(SignRemoteCommitment(v.ch, m.next))))
            || (r.0 == v && r.1.Refused?)
            || (r.0 == v.(ch := DropPending(v.ch)) && r.1.Refused?)
            || (v.phase != Rev && r == AcceptUpd(Rollback(v), m, env))
  {
    hide AcceptUpd, SignRemoteCommitment;
  }

  lemma AcceptClearedKeeps(q: Party, m: Request, env: Env, peer: Config)
    requires NodeInv(q, peer) && q.node.wait.None? && m.ReqUpd? && q.node.phase != Rev
    ensures var (w, reply) := AcceptUpd(Rollback(q.node), m, env);
            NodeInv(Answered(q, w, reply), peer) && UpdEffect(q.node, w, m.next, reply)
  {
    hide NodeInv, AcceptUpd, Rollback;
    RollbackKeeps(q, peer);
    RollbackShape(q.node);
    var cleared := Became(q, Rollback(q.node));
    assert cleared == q.(node := Rollback(q.node));
    AcceptKeeps(cleared, m, env, peer);
  }

  lemma HandleUpdKeeps(q: Party, m: Request, env: Env, peer: Config)
    requires NodeInv(q, peer) && q.node.wait.None? && m.ReqUpd?
    ensures var (w, reply) := HandleUpd(q.node, m, env);
            NodeInv(Answered(q, w, reply), peer) && UpdEffect(q.node, w, m.next, reply)
  {
    hide KnowsPeer, KeepsHistory, SoundState, HoldsSig, CommitmentTx, SignRemoteCommitment, AcceptUpd, HandleUpd,
        Rollback;
    var (w, reply) := HandleUpd(q.node, m, env);
    UpdMeetsCleared(q.node, m, env);
    if q.Ch().pending == Some(m.next) && (w, reply) == (q.node, OkSig(SignRemoteCommitment(q.Ch(), m.next))) {
      SignIsAccounted(q.node, peer, m.next);
      AnsweredLog(q, w, reply, peer);
    } else if reply.Refused? && w == q.node {
      AnsweredLog(q, w, reply, peer);
    } else if reply.Refused? && w == q.node.(ch := DropPending(q.Ch())) {
      DropNodeKeeps(q, w, peer);
    } else {
      AcceptClearedKeeps(q, m, env, peer);
    }
  }

  /** Delivering an UPD. */
  lemma UpdArrives(p: Party, q: Party, env: Env)
    requires Inv(p, q) && p.node.wait.Some? && p.node.wait.value.got.None? && p.node.wait.value.req.ReqUpd?
    requires q.node.wait.None?
    ensures var (p', q') := Arrive(p, q, env); Inv(p', q')
  {
    hide KnowsPeer, KeepsHistory, SoundState, HoldsSig, CommitmentTx, HandleUpd, LogInv;
    var m := p.node.wait.value.req;
    HandleUpdKeeps(q, m, env, p.Ch().cfg);
    GotKeeps(p, q.Ch().cfg, Handle(q.node, m, env).1);
  }

  /** Holding a reply changes nothing else about the waiting node. */
  lemma GotKeeps(p: Party, peer: Config, reply: Reply)
    requires NodeInv(p, peer) && p.node.wait.Some?
    ensures NodeInv(p.(node := p.node.(wait := Some(p.node.wait.value.(got := Some(reply))))), peer)
  {
    hide KnowsPeer, KeepsHistory, SoundState, HoldsSig, CommitmentTx;
    var v := p.node.(wait := Some(p.node.wait.value.(got := Some(reply))));
    AnsweredLog(p.(node := v), v, Refused(Busy), peer) by {
      forall g | g in p.signed ensures Accounted(v, peer, g) {
        var x :| Remembers(p.node, x) && g == SigFor(p.Ch().cfg, peer, x);
        assert Remembers(v, x);
      }
    }
  }

  /** A repeated REV is answered from the current state alone. */
  lemma HandleRevAgain(q: Party, r: Revoke, peer: Config)
    requires NodeInv(q, peer) && q.Ch().pending.None?
    ensures var (w, reply) := HandleRev(q.node, r); NodeInv(Answered(q, w, reply), peer) && w == q.node
  {
    hide KnowsPeer, KeepsHistory, SoundState, HoldsSig, CommitmentTx;
    var (w, reply) := HandleRev(q.node, r);
    AnsweredLog(q, w, reply, peer);
  }

  lemma HandleRevAdvances(q: Party, r: Revoke, peer: Config)
    requires NodeInv(q, peer) && q.node.wait.None? && q.Ch().pending.Some?
    requires r == Revoke(q.Cur().n, peer.RevSecretAt(q.Cur().n), peer.RevHash(q.Cur().n + 2))
    ensures var (w, reply) := HandleRev(q.node, r);
            && NodeInv(Answered(q, w, reply), peer) && w.ch.cfg == q.Ch().cfg && w.wait.None?
            && w.ch.cur == q.Ch().pending.value && w.ch.pending.None? && !Awaiting(w.ch)
            && reply == OkRev(LastRevoke(w.ch))
  {
    hide KnowsPeer, SoundState, HoldsSig, CommitmentTx, ReceiveRevoke;
    RevokeInKeeps(q.Ch(), peer);
    var (w, reply) := HandleRev(q.node, r);
    AnsweredLog(q, w, reply, peer);
  }

  /** Delivering a REV: a receiver that still holds a pending state holds exactly the
      state the sender moved to. */
  lemma RevArrives(p: Party, q: Party, env: Env)
    requires Inv(p, q) && p.node.wait.Some? && p.node.wait.value.got.None? && p.node.wait.value.req.ReqRev?
    requires q.node.wait.None?
    ensures var (p', q') := Arrive(p, q, env); Inv(p', q')
  {
    hide KnowsPeer, KeepsHistory, SoundState, HoldsSig, CommitmentTx, LogInv, ReceiveRevoke, RevokeAndAdvance;
    var m := p.node.wait.value.req;
    GotKeeps(p, q.Ch().cfg, Handle(q.node, m, env).1);
    if q.Ch().pending.Some? {
      HandleRevAdvances(q, m.revoke, p.Ch().cfg);
    } else {
      HandleRevAgain(q, m.revoke, p.Ch().cfg);
    }
  }

  lemma AbortKeeps(q: Party, n: nat, peer: Config)
    requires NodeInv(q, peer) && q.node.wait.None?
    ensures var q' := q.(node := HandleAbort(q.node, n).0);
            NodeInv(q', peer) && Quiet(q, q') && Answered(q, q'.node, HandleAbort(q.node, n).1) == q'
  {
    hide KnowsPeer, KeepsHistory, SoundState, HoldsSig, CommitmentTx;
    DropNodeKeeps(q, HandleAbort(q.node, n).0, peer);
  }

  lemma ArriveKeeps(p: Party, q: Party, env: Env)
    requires Inv(p, q)
    ensures var (p', q') := Arrive(p, q, env); Inv(p', q')
  {
    hide KnowsPeer, KeepsHistory, SoundState, HoldsSig, CommitmentTx, HandleUpd, HandleRev, HandleAbort, LogInv;
    if p.node.wait.Some? && p.node.wait.value.got.None? {
      var m := p.node.wait.value.req;
      if q.node.wait.Some? {
        assert Answered(q, q.node, Refused(Busy)) == q;
        GotKeeps(p, q.Ch().cfg, Refused(Busy));
      } else if m.ReqUpd? {
        UpdArrives(p, q, env);
      } else if m.ReqRev? {
        RevArrives(p, q, env);
      } else {
        AbortKeeps(q, m.n, p.Ch().cfg);
        GotKeeps(p, q.Ch().cfg, HandleAbort(q.node, m.n).1);
      }
    }
  }

  // ------------------------------------------------------------------ all runs

  lemma StepKeeps(p: Party, q: Party, e: Event)
    requires Inv(p, q)
    ensures var (p', q') := Step(p, q, e); Inv(p', q')
  {
    hide NodeInv, Link, Quiet, Arrive, Propose, StartDrive, Resume, RollbackAsk, RollbackDone, SyncAnswer, HandleAbort;
    var peer := q.Ch().cfg;
    match e
    case Start(next, settle) => StartKeeps(p, peer, next, settle); QuietStep(p, Local(p, e), q);
    case Drive => DriveKeeps(p, peer); QuietStep(p, Local(p, e), q);
    case Deliver(env) => ArriveKeeps(p, q, env);
    case Return(lost) => ReturnKeeps(p, q, lost);
    case AskRollback => AskKeeps(p, peer); QuietStep(p, Local(p, e), q);
    case EndRollback => EndKeeps(p, peer); QuietStep(p, Local(p, e), q);
    case SyncReturn => SyncKeeps(p, peer); QuietStep(p, Local(p, e), q);
    case AbortArrives(n) =>
      if p.node.rollbacks != 0 && q.node.wait.None? {
        AbortKeeps(q, n, p.Ch().cfg);
        QuietStep(q, q.(node := HandleAbort(q.node, n).0), p);
      }
    case SyncAsk =>
      AskSyncKeeps(p, q, peer);
  }

  lemma QuietStep(p: Party, p': Party, q: Party)
    requires Inv(p, q) && NodeInv(p', q.Ch().cfg) && Quiet(p, p')
    ensures Inv(p', q) && Inv(q, p')
  {
    hide NodeInv;
    QuietLink(p, p', q);
  }

  lemma AskKeeps(p: Party, peer: Config)
    requires NodeInv(p, peer)
    ensures var p' := Local(p, AskRollback); NodeInv(p', peer) && Quiet(p, p')
  {
    hide KnowsPeer, KeepsHistory, SoundState, HoldsSig, Rollback;
    RollbackShape(p.node);
    if p.node.wait.None? && p.node.phase == Idle { RollbackKeeps(p, peer); }
    else { LogKeeps(p, RollbackAsk(p.node), Local(p, AskRollback), peer); }
  }

  lemma EndKeeps(p: Party, peer: Config)
    requires NodeInv(p, peer)
    ensures var p' := Local(p, EndRollback); NodeInv(p', peer) && Quiet(p, p')
  {
    hide KnowsPeer, KeepsHistory, SoundState, HoldsSig, Rollback;
    if p.node.rollbacks == 0 {
      LogKeeps(p, p.node, p, peer);
    } else {
      RollbackShape(p.node);
      RollbackKeeps(p, peer);
      var r := Became(p, Rollback(p.node)).(undercut := p.undercut || WaitsForSig(p));
      var r' := r.(node := r.node.(rollbacks := p.node.rollbacks - 1));
      FewerRollbacks(r, r', peer);
      assert Local(p, EndRollback) == r';
    }
  }

  lemma FewerRollbacks(p: Party, p': Party, peer: Config)
    requires NodeInv(p, peer) && p' == p.(node := p.node.(rollbacks := p'.node.rollbacks))
    ensures NodeInv(p', peer)
  {
    hide KnowsPeer, KeepsHistory, SoundState, HoldsSig;
    LogKeeps(p, p'.node, p', peer);
  }

  lemma SyncKeeps(p: Party, peer: Config)
    requires NodeInv(p, peer)
    ensures var p' := Local(p, SyncReturn); NodeInv(p', peer) && Quiet(p, p')
  {
    hide KnowsPeer, KeepsHistory, SoundState, HoldsSig, DropPending;
    DropNodeKeeps(p, SyncAnswer(p.node), peer);
  }

  lemma AskSyncKeeps(p: Party, q: Party, peer: Config)
    requires Inv(p, q) && peer == q.Ch().cfg
    ensures var (p', q') := Step(p, q, SyncAsk); Inv(p', q')
  {
    hide NodeInv, Link, Quiet;
    var p' := Step(p, q, SyncAsk).0;
    DropNodeKeeps(p, p'.node, peer);
    SilentlyBecame(p, p', peer);
    QuietLink(p, p', q);
  }

  lemma SilentlyBecame(p: Party, p': Party, peer: Config)
    requires NodeInv(p, peer) && p' == p.(node := p'.node) && p'.node == p.node.(sync := p'.node.sync)
    ensures Became(p, p'.node) == p'
  {
    hide KnowsPeer, KeepsHistory, SoundState, HoldsSig, OutboxInv, WaitInv;
  }

  lemma OpenInv(a: Config, b: Config, s0: State)
    requires Terms(a, b, s0)
    ensures Inv(OpenSide(a, b, s0), OpenSide(b, a, s0))
  {
    OpenSideInv(a, b, s0);
    OpenSideInv(b, a, s0);
  }

  lemma OpenSideInv(mine: Config, theirs: Config, s0: State)
    requires Paired(mine, theirs)
    requires s0.n == 0 && s0.htlcs == [] && s0.balA + s0.balB == mine.info.capacity && mine.info.fee <= s0.balA
    ensures var p := OpenSide(mine, theirs, s0);
            && NodeInv(p, theirs) && p.Ch().cfg == mine && p.Cur() == s0 && !Awaiting(p.Ch()) && p.node.wait.None?
            && p.Ch().pending.None?
  {
    var p := OpenSide(mine, theirs, s0);
    var sent := SignRemoteCommitment(Fresh(mine, theirs), s0);
    assert Remembers(p.node, s0) && sent == SigFor(mine, theirs, s0);
  }

  lemma {:induction false} RunInv(a: Config, b: Config, s0: State, events: seq<(bool, Event)>)
    requires Terms(a, b, s0)
    ensures var s := Run(Open(a, b, s0), events);
            Inv(s.a, s.b)
  {
    hide Inv, Step;
    if events == [] {
      OpenInv(a, b, s0);
    } else {
      RunInv(a, b, s0, events[..|events| - 1]);
      var t := Run(Open(a, b, s0), events[..|events| - 1]);
      var (byA, e) := events[|events| - 1];
      InvSymmetric(t.a, t.b);
      if byA { StepKeeps(t.a, t.b, e); } else { StepKeeps(t.b, t.a, e); }
      var s := Run(Open(a, b, s0), events);
      if !byA { InvSymmetric(s.b, s.a); }
    }
  }

  lemma InvSymmetric(p: Party, q: Party)
    requires Inv(p, q)
    ensures Inv(q, p)
  {
    hide NodeInv, Link;
  }

  // ------------------------------------------------------------------ theorems

  predicate Ahead(p: Party, q: Party) { q.Cur().n < p.Cur().n }

  /** The two sides agree as far as they must: numbers at most one apart, one state per
      number, and the side behind holds nothing pending but the leader's state. */
  ghost predicate Agrees(p: Party, q: Party) {
    && p.Cur().n <= q.Cur().n + 1
    && (p.Cur().n == q.Cur().n ==> p.Cur() == q.Cur())
    && (Ahead(p, q) ==> q.Ch().pending.None? || q.Ch().pending == Some(p.Cur()))
    && SoundState(p.Ch().cfg.info, p.Cur())
  }

  /** Where the leader stands: in phase Rev exactly until its driver is started on an empty
      outbox, and its outbox is empty exactly if a rollback resumed under the wait for the
      signature it advanced on, with no proposal after it. */
  predicate LeaderPhase(p: Party) {
    && (p.node.phase == Rev <==> !p.droveEmpty)
    && (p.node.out.None? <==> p.undercut)
    && (p.droveEmpty ==> p.undercut)
  }

  /** In every run the two current states never differ by more than one number, states
      with the same number are the same state, and when one side is ahead the other
      side's pending state is absent or is the state the leader already holds. Both
      current states always add up to the funded capacity. The leader is in phase Rev if
      and only if its driver was not started on an empty outbox since it advanced, and
      only a rollback that resumed during that very update can have emptied it. */
  lemma Agreement(a: Config, b: Config, s0: State, events: seq<(bool, Event)>)
    requires Terms(a, b, s0)
    ensures var s := Run(Open(a, b, s0), events);
            && Agrees(s.a, s.b) && Agrees(s.b, s.a)
            && (Ahead(s.a, s.b) ==> LeaderPhase(s.a))
            && (Ahead(s.b, s.a) ==> LeaderPhase(s.b))
  {
    hide Run, Open, KnowsPeer, KeepsHistory, HoldsSig, SoundState, LogInv;
    RunInv(a, b, s0, events);
  }

  /** Step by step, the exact guard: a leader in phase Rev that is still ahead after its own
      step left the phase if and only if that step started the driver on an empty outbox. */
  lemma LeaderStep(p: Party, q: Party, e: Event)
    requires Inv(p, q) && Ahead(p, q) && p.node.phase == Rev
    ensures var (p', q') := Step(p, q, e);
            Ahead(p', q') ==> (p'.node.phase == Rev <==> !DrivesEmpty(p.node, e))
  {
    hide KnowsPeer, KeepsHistory, HoldsSig, SoundState, LogInv, CommitmentTx, SignRemoteCommitment;
  }

  /** No step of the other side moves a leader out of its phase. */
  lemma PeerStep(p: Party, q: Party, e: Event)
    requires Inv(p, q) && Ahead(p, q)
    ensures Step(q, p, e).1.node.phase == p.node.phase
  {
    hide KnowsPeer, KeepsHistory, HoldsSig, SoundState, LogInv, CommitmentTx, SignRemoteCommitment;
  }

  /** A node's own step never lowers its number. */
  lemma MovedForward(p: Party, peer: Config, e: Event)
    requires NodeInv(p, peer)
    ensures Moved(p.node, e).ch.cur.n >= p.Cur().n
  {
    hide KnowsPeer, KeepsHistory, HoldsSig, SoundState, LogInv, CommitmentTx, SignRemoteCommitment, HtlcSum,
        BadHtlcEntry;
  }

  /** A handler never lowers its node's number, and reaches at most a number the sender of
      the request already has. */
  lemma HandledForward(p: Party, q: Party, env: Env)
    requires Inv(p, q)
    ensures var (p', q') := Arrive(p, q, env);
            p'.Cur() == p.Cur() && q.Cur().n <= q'.Cur().n && (Ahead(q', p') ==> Ahead(q, p))
  {
    hide KnowsPeer, KeepsHistory, HoldsSig, SoundState, LogInv, CommitmentTx, HandleUpd, HandleRev;
    if p.node.wait.Some? && p.node.wait.value.got.None? && q.node.wait.None? {
      var m, peer := p.node.wait.value.req, p.Ch().cfg;
      if m.ReqUpd? { HandleUpdKeeps(q, m, env, peer); }
      if m.ReqRev? && q.Ch().pending.None? { HandleRevAgain(q, m.revoke, peer); }
      if m.ReqRev? && q.Ch().pending.Some? { HandleRevAdvances(q, m.revoke, peer); }
    }
  }

  /** Whoever becomes the leader is in phase Rev. */
  lemma NewLeader(p: Party, q: Party, e: Event)
    requires Inv(p, q) && !Ahead(p, q)
    ensures var (p', q') := Step(p, q, e); Ahead(p', q') ==> p'.node.phase == Rev
    ensures var (q', p') := Step(q, p, e); !Ahead(p', q')
  {
    hide NodeInv, Link, Moved, Arrive;
    MovedForward(p, q.Ch().cfg, e);
    MovedForward(q, p.Ch().cfg, e);
    StepKeeps(p, q, e);
    if e.Deliver? {
      HandledForward(p, q, e.env);
      InvSymmetric(p, q);
      HandledForward(q, p, e.env);
    }
    var (p', q') := Step(p, q, e);
    if Ahead(p', q') { LeaderAwaits(p', q'); }
  }

  lemma LeaderAwaits(p: Party, q: Party)
    requires Inv(p, q) && Ahead(p, q)
    ensures p.node.phase == Rev <==> !p.droveEmpty
  {
    hide KnowsPeer, KeepsHistory, HoldsSig, SoundState, LogInv, WaitInv;
  }

  /** A force close of `p` is possible now: its current commitment carries the valid
      signatures of both sides and pays both their current balances, and nothing at or above
      its number has been revoked. */
  ghost predicate CanForceClose(p: Party) {
    && p.Ch().sigCur.Some?
    && SpendsFunding(SignedLocalCommitment(p.Ch()), p.Ch().cfg)
    && p.Ch().cfg.info.fee <= p.Cur().balA
    && PaysOut(p.Ch().cfg.info, p.Ch().cfg.isA, p.Cur(), p.Ch().cfg.RevHash(p.Cur().n),
               SignedLocalCommitment(p.Ch()).body)
    && (forall k :: k in p.revealed ==> k < p.Cur().n)
  }

  /** One witness for the script that asks for both keys, with a verifying signature by A's key
      and then one by B's. */
  predicate SpendsFunding(tx: Tx, cfg: Config) {
    var keyA, keyB := if cfg.isA then cfg.key else cfg.remoteKey, if cfg.isA then cfg.remoteKey else cfg.key;
    && |tx.witnesses| == 1 && |tx.witnesses[0].sigs| == 2 && tx.witnesses[0].preimages == []
    && tx.witnesses[0].script == And(Pk(cfg.info.addrA), Pk(cfg.info.addrB))
    && tx.witnesses[0].sigs[0].0 == keyA && Verifies(keyA, tx.body, tx.witnesses[0].sigs[0].1)
    && tx.witnesses[0].sigs[1].0 == keyB && Verifies(keyB, tx.body, tx.witnesses[0].sigs[1].1)
  }

  lemma ForceCloseOf(p: Party, peer: Config)
    requires NodeInv(p, peer)
    ensures CanForceClose(p) && (p.node.phase == Rev ==> p.Cur().n >= 1)
  {
    hide KnowsPeer, KeepsHistory, CommitmentTx, PaysOut, HtlcSum;
    CommitmentPays(p.Ch().cfg.info, p.Ch().cfg.isA, p.Cur(), p.Ch().cfg.RevHash(p.Cur().n));
  }

  /** In every run both sides can force close, have revealed secrets only for numbers
      below their current one, and are past state 0 whenever a revocation is due. */
  lemma ForceCloseSafe(a: Config, b: Config, s0: State, events: seq<(bool, Event)>)
    requires Terms(a, b, s0)
    ensures var s := Run(Open(a, b, s0), events);
            && CanForceClose(s.a) && CanForceClose(s.b)
            && (s.a.node.phase == Rev ==> s.a.Cur().n >= 1) && (s.b.node.phase == Rev ==> s.b.Cur().n >= 1)
  {
    hide NodeInv, CanForceClose, Run;
    RunInv(a, b, s0, events);
    var s := Run(Open(a, b, s0), events);
    ForceCloseOf(s.a, s.b.Ch().cfg);
    ForceCloseOf(s.b, s.a.Ch().cfg);
  }

  // ------------------------------------------------------------------- penalty

  /** Every signature `p` ever sent is for a commitment whose number is still open, or
      was just left by `p` alone, or is punished in full. */
  ghost predicate Punishes(p: Party, g: Sig) {
    && g.Sig?
    && var n := g.body.nonce;
       if n in p.Ch().secrets then
         n in p.Ch().hashes && PenaltyExact(p.Ch().cfg, g.body, p.Ch().hashes[n], p.Ch().secrets[n],
             PenaltyFor(p.Ch(), g.body))
       else n >= p.Cur().n || (n + 1 == p.Cur().n && Awaiting(p.Ch()))
  }

  lemma PunishesAll(p: Party, peer: Config, g: Sig)
    requires NodeInv(p, peer) && g in p.signed
    ensures Punishes(p, g)
  {
    hide SoundState, HoldsSig, CommitmentTx, PenaltyFor, PenaltyExact;
    var x :| Remembers(p.node, x) && g == SigFor(p.Ch().cfg, peer, x);
    assert g.body.nonce == x.n by { CommitmentNonce(p.Ch().cfg, x, peer.RevHash(x.n)); }
    if x.n in p.Ch().secrets {
      assert x in Candidates(p.Ch(), x.n);
      PenaltyIsExact(p.Ch(), x);
    }
  }

  /** In every run, once a number is revoked, every commitment of that number this side
      ever signed (agreed, abandoned, superseded or rolled back) is met by a penalty
      that claims exactly its revocable outputs. */
  lemma PenaltySafe(a: Config, b: Config, s0: State, events: seq<(bool, Event)>)
    requires Terms(a, b, s0)
    ensures var s := Run(Open(a, b, s0), events);
            && (forall g :: g in s.a.signed ==> Punishes(s.a, g))
            && (forall g :: g in s.b.signed ==> Punishes(s.b, g))
  {
    hide NodeInv, Punishes, Run;
    RunInv(a, b, s0, events);
    var s := Run(Open(a, b, s0), events);
    forall g | g in s.a.signed { PunishesAll(s.a, s.b.Ch().cfg, g); }
    forall g | g in s.b.signed { PunishesAll(s.b, s.a.Ch().cfg, g); }
  }
}
