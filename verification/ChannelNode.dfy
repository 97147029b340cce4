/** One node's side of the cross-node protocol: the update classifier, the inbound
    handlers, and the outbound driver cut at each request it waits on. */
module ChannelNode {
  import opened Basics
  import opened Symbols
  import opened Channel

  // ------------------------------------------------------------- classifier

  datatype PeerUpdate = Reject | Pay | AddHtlc(htlc: Htlc) | SettleHtlc(htlc: Htlc) | FailHtlc(htlc: Htlc)

  /** HTLCs by id; a later entry replaces an earlier one with the same id. */
  function ById(hs: seq<Htlc>): map<nat, Htlc> {
    if hs == [] then map[] else ById(hs[..|hs| - 1])[hs[|hs| - 1].id := hs[|hs| - 1]]
  }

  predicate SameTerms(a: Htlc, b: Htlc) {
    a.offeredByA == b.offeredByA && a.amount == b.amount && a.paymentHash == b.paymentHash && a.expiry == b.expiry
  }

  /** The entries of `hs` whose id is not a key of `known`, one per id. */
  function Missing(hs: seq<Htlc>, known: map<nat, Htlc>): map<nat, Htlc> {
    var m := ById(hs);
    map id | id in m && id !in known :: m[id]
  }

  function Sole(hs: seq<Htlc>, m: map<nat, Htlc>): Option<Htlc> {
    if hs == [] then None
    else if hs[0].id in m then Some(m[hs[0].id])
    else Sole(hs[1..], m)
  }

  function Classify(c: Chan, next: State, preimage: Preimage, height: nat): PeerUpdate {
    var cur, me := c.cur, c.cfg.isA;
    var before, after := ById(cur.htlcs), ById(next.htlcs);
    var added, removed := Missing(next.htlcs, before), Missing(cur.htlcs, after);
    if exists id :: id in after && id in before && !SameTerms(before[id], after[id]) then Reject
    else if |added| == 0 && |removed| == 0 then
      if next.nextHtlcId != cur.nextHtlcId || Bal(next, me) < Bal(cur, me) then Reject else Pay
    else if |added| == 1 && |removed| == 0 then
      var sole := Sole(next.htlcs, added);
      if sole.None? then Reject
      else
        var h := sole.value;
        if h.offeredByA == me then Reject
        else if h.id != cur.nextHtlcId || next.nextHtlcId != cur.nextHtlcId + 1 then Reject
        else if Bal(next, me) != Bal(cur, me) || Bal(next, !me) + h.amount != Bal(cur, !me) then Reject
        else if h.expiry <= height + 1 then Reject
        else AddHtlc(h)
    else if |removed| == 1 && |added| == 0 then
      var sole := Sole(cur.htlcs, removed);
      if sole.None? then Reject
      else
        var h := sole.value;
        if next.nextHtlcId != cur.nextHtlcId || h.offeredByA != me then Reject
        else if Bal(next, me) == Bal(cur, me) + h.amount && Bal(next, !me) == Bal(cur, !me) then FailHtlc(h)
        else if Bal(next, !me) == Bal(cur, !me) + h.amount && Bal(next, me) == Bal(cur, me) then
          if HashPreimage(preimage) != h.paymentHash then Reject else SettleHtlc(h)
        else Reject
    else Reject
  }

  // --------------------------------------------------------------- messages

  datatype Request =
    | ReqUpd(next: State, sig: Sig, preimage: Preimage)
    | ReqRev(revoke: Revoke)
    | ReqAbort(n: nat)

  datatype NodeError =
    | Busy | ConflictingPending | AwaitingRevocation | NoPending | Rejected | BadRoute | ChannelError(e: ChanError)

  /** What a handler sees besides its own channel: the chain height, and whether the
      onion sent with an added HTLC is a well-formed token. */
  datatype Env = Env(height: nat, routeOk: bool)

  datatype Reply = OkSig(sig: Sig) | OkRev(revoke: Revoke) | OkNumber(n: nat) | Refused(why: NodeError)

  // ------------------------------------------------------------------- node

  datatype Phase = Idle | Upd | Rev

  /** Where the driver is waiting for the peer. */
  datatype Stage = UpdSent(x: State) | AbortSent | RevSent | ReUpdSent | RevAgain

  /** An outstanding request of the driver, and the peer's reply once it was handled. */
  datatype Wait = Wait(stage: Stage, req: Request, got: Option<Reply>)

  /** `wait` present means the channel is busy. `out` is the proposal in the outbox;
      absent, it does not decode. `settle` is the preimage sent with a settling
      proposal. `rollbacks` counts operator rollbacks waiting for their ABORT round
      trip, `sync` holds an undelivered SYNC reply (the peer's number, and whether its
      outbox was empty); neither wait makes the channel busy. */
  datatype Node = Node(ch: Chan, phase: Phase, out: Option<State>, settle: Preimage, wait: Option<Wait>,
                       rollbacks: nat, sync: Option<(nat, bool)>)

  function AbandonOut(v: Node): Node {
    if v.phase != Upd then v
    else v.(ch := if v.out.Some? then NoteAbandoned(v.ch, v.out.value) else v.ch,
            phase := Idle, out := None, settle := NotHex(""))
  }

  // --------------------------------------------------------------- handlers

  function AcceptUpd(v: Node, m: Request, env: Env): (Node, Reply)
    requires m.ReqUpd?
  {
    var kind := Classify(v.ch, m.next, m.preimage, env.height);
    if kind.Reject? then (v, Refused(Rejected))
    else if kind.AddHtlc? && !env.routeOk then (v, Refused(BadRoute))
    else
      var (ch, o) := ReceiveCommitSig(v.ch, m.next, m.next.n, m.sig);
      if o.Err? then (v, Refused(ChannelError(o.error)))
      else (v.(ch := ch), OkSig(SignRemoteCommitment(ch, m.next)))
  }

  /** An UPD once no conflicting pending state is left. */
  function UpdAgainstOutbox(v: Node, m: Request, env: Env): (Node, Reply)
    requires m.ReqUpd?
  {
    if v.phase == Rev then (v, Refused(AwaitingRevocation))
    else if v.phase == Upd && v.ch.cfg.isA then (v, Refused(ConflictingPending))
    else AcceptUpd(AbandonOut(v), m, env)
  }

  function HandleUpd(v: Node, m: Request, env: Env): (Node, Reply)
    requires m.ReqUpd?
  {
    if v.ch.pending.Some? && v.ch.pending.value == m.next then (v, OkSig(SignRemoteCommitment(v.ch, m.next)))
    else if v.ch.pending.Some? && v.ch.cfg.isA then (v, Refused(ConflictingPending))
    else if v.ch.pending.Some? then UpdAgainstOutbox(v.(ch := DropPending(v.ch)), m, env)
    else UpdAgainstOutbox(v, m, env)
  }

  function HandleRev(v: Node, r: Revoke): (Node, Reply) {
    if v.ch.pending.None? then
      if r.revokedN + 1 == v.ch.cur.n && HasRemoteSecret(v.ch, r.revokedN, r.secret)
      then (v, OkRev(LastRevoke(v.ch)))
      else (v, Refused(NoPending))
    else
      var (ch, o) := ReceiveRevoke(v.ch, r);
      if o.Err? then (v, Refused(ChannelError(o.error)))
      else
        var (ch', mine) := RevokeAndAdvance(ch);
        (v.(ch := ch'), OkRev(mine))
  }

  function HandleAbort(v: Node, n: nat): (Node, Reply) {
    var v' := if v.ch.pending.Some? && v.ch.pending.value.n == n then v.(ch := DropPending(v.ch)) else v;
    (v', OkNumber(v'.ch.cur.n))
  }

  function Handle(v: Node, m: Request, env: Env): (Node, Reply) {
    if v.wait.Some? then (v, Refused(Busy))
    else match m
      case ReqUpd(_, _, _) => HandleUpd(v, m, env)
      case ReqRev(r) => HandleRev(v, r)
      case ReqAbort(n) => HandleAbort(v, n)
  }

  // ----------------------------------------------------------------- driver

  function Send(v: Node, stage: Stage, req: Request): Node { v.(wait := Some(Wait(stage, req, None))) }

  function Stop(v: Node): Node { v.(wait := None) }

  function SendUpd(v: Node, stage: Stage, x: State): Node {
    Send(v, stage, ReqUpd(x, SignRemoteCommitment(v.ch, x), v.settle))
  }

  function SendRev(v: Node, stage: Stage): Node { Send(v, stage, ReqRev(LastRevoke(v.ch))) }

  /** Our commitment moves to the pending state; from here on we owe a REV. */
  function AdvanceOut(v: Node): Node
    requires v.ch.pending.Some?
  {
    SendRev(v.(ch := RevokeAndAdvance(v.ch).0, phase := Rev), RevSent)
  }

  /** A proposal enters an empty outbox. Nothing stops it while the driver is waiting: an
      HTLC payment checks for a busy channel before it fetches the peer's route key. */
  function Propose(v: Node, next: State, settle: Preimage): Node {
    if v.phase != Idle || ValidateNext(v.ch, next).Err? then v
    else v.(phase := Upd, out := Some(next), settle := settle)
  }

  /** The driver up to its first request (or to the point where it gives up). */
  function StartDrive(v: Node): Node {
    if v.wait.Some? then v
    else if v.out.None? then v.(phase := Idle)
    else match v.phase
      case Idle => v
      case Rev => SendRev(v, RevSent)
      case Upd =>
        var x := v.out.value;
        if x.n != v.ch.cur.n + 1 then AbandonOut(v)
        else if v.ch.pending.Some? && v.ch.pending.value != x && !v.ch.cfg.isA then AbandonOut(v)
        else if v.ch.pending.Some? && v.ch.pending.value != x then SendUpd(v.(ch := DropPending(v.ch)), UpdSent(x), x)
        else if v.ch.pending.Some? then AdvanceOut(v)
        else SendUpd(v, UpdSent(x), x)
  }

  function FinishOut(v: Node, r: Revoke): Node {
    var (ch, o) := ReceiveRevoke(v.ch, r);
    if o.Err? then Stop(v)
    else v.(ch := ch, phase := Idle, out := None, settle := NotHex(""), wait := None)
  }

  /** The driver from the return of its current request to the next one; `reply` is
      absent when the request or its reply was lost. */
  function Resume(v: Node, reply: Option<Reply>): Node
    requires v.wait.Some?
  {
    match v.wait.value.stage
    case UpdSent(x) =>
      (match reply
       case Some(Refused(ConflictingPending)) =>
         if v.ch.cfg.isA then Send(v, AbortSent, ReqAbort(x.n)) else Stop(AbandonOut(v))
       case Some(OkSig(sig)) =>
         var (ch, o) := ReceiveCommitSig(v.ch, x, x.n, sig);
         if o.Err? || ch.pending.None? then Stop(v.(ch := ch)) else AdvanceOut(v.(ch := ch))
       case _ => Stop(v))
    case AbortSent => Stop(v)
    case RevSent =>
      (match reply
       case Some(Refused(NoPending)) => SendUpd(v, ReUpdSent, v.ch.cur)
       case Some(OkRev(r)) => FinishOut(v, r)
       case _ => Stop(v))
    case ReUpdSent =>
      if reply.Some? && !reply.value.Refused? then SendRev(v, RevAgain) else Stop(v)
    case RevAgain =>
      if reply.Some? && reply.value.OkRev? then FinishOut(v, reply.value.revoke) else Stop(v)
  }

  // --------------------------------------------------------------- recovery

  /** What an operator rollback does once its ABORT returned (or was lost). */
  function Rollback(v: Node): Node {
    var v' := AbandonOut(v);
    v'.(ch := DropPending(v'.ch))
  }

  /** The operator asks for a rollback: refused while busy or after revoking; with a
      proposal in the outbox it first waits for an ABORT round trip. */
  function RollbackAsk(v: Node): Node {
    if v.wait.Some? || v.phase == Rev then v
    else if v.phase == Upd then v.(rollbacks := v.rollbacks + 1)
    else Rollback(v)
  }

  /** The ABORT round trip of one rollback ends. */
  function RollbackDone(v: Node): Node {
    if v.rollbacks == 0 then v else Rollback(v).(rollbacks := v.rollbacks - 1)
  }

  /** The receiver's timeout: drop a pending state the proposer says it gave up. */
  function SyncAnswer(v: Node): Node {
    match v.sync
    case None => v
    case Some((n, idle)) => v.(sync := None, ch := if n == v.ch.cur.n && idle then DropPending(v.ch) else v.ch)
  }
}
