/** One remote channel of a node as the mutable record the program keeps, each method
    proved against the function of the same name in `ChannelNode`. `ChannelPair` runs two
    of them against each other. */
module NodeObject {
  import opened Basics
  import opened Symbols
  import opened Channel
  import opened ChannelNode
  import opened ChannelObject

  class NodeObj {
    const ch: ChannelObj
    var phase: Phase
    var out: Option<State>
    var settle: Preimage
    var wait: Option<Wait>
    var rollbacks: nat
    var sync: Option<(nat, bool)>

    function View(): Node
      reads this, ch
    {
      Node(ch.View(), phase, out, settle, wait, rollbacks, sync)
    }

    constructor (ch: ChannelObj)
      ensures this.ch == ch && View() == Node(ch.View(), Idle, None, NotHex(""), None, 0, None)
    {
      this.ch := ch;
      phase, out, settle, wait, rollbacks, sync := Idle, None, NotHex(""), None, 0, None;
    }

    method AbandonOut()
      modifies this, ch
      ensures View() == ChannelNode.AbandonOut(old(View()))
    {
      if phase != Upd { return; }
      if out.Some? { ch.NoteAbandoned(out.value); }
      phase, out, settle := Idle, None, NotHex("");
    }

    method HandleUpd(m: Request, env: Env) returns (reply: Reply)
      requires m.ReqUpd?
      modifies this, ch
      ensures (View(), reply) == ChannelNode.HandleUpd(old(View()), m, env)
    {
      hide CommitmentTx, Channel.ValidateNext, Classify;
      if ch.pending.Some? {
        if ch.pending.value == m.next { return OkSig(SignRemoteCommitment(ch.View(), m.next)); }
        if ch.cfg.isA { return Refused(ConflictingPending); }
        ch.DropPending();
      }
      if phase == Rev { return Refused(AwaitingRevocation); }
      if phase == Upd {
        if ch.cfg.isA { return Refused(ConflictingPending); }
        AbandonOut();
      }
      var kind := Classify(ch.View(), m.next, m.preimage, env.height);
      if kind.Reject? { return Refused(Rejected); }
      if kind.AddHtlc? && !env.routeOk { return Refused(BadRoute); }
      var o := ch.ReceiveCommitSig(m.next, m.next.n, m.sig);
      if o.Err? { return Refused(ChannelError(o.error)); }
      reply := OkSig(SignRemoteCommitment(ch.View(), m.next));
    }

    method HandleRev(r: Revoke) returns (reply: Reply)
      modifies ch
      ensures (View(), reply) == ChannelNode.HandleRev(old(View()), r)
    {
      if ch.pending.None? {
        if r.revokedN + 1 == ch.cur.n && HasRemoteSecret(ch.View(), r.revokedN, r.secret) {
          return OkRev(LastRevoke(ch.View()));
        }
        return Refused(NoPending);
      }
      var o := ch.ReceiveRevoke(r);
      if o.Err? { return Refused(ChannelError(o.error)); }
      var mine := ch.RevokeAndAdvance();
      reply := OkRev(mine);
    }

    method HandleAbort(n: nat) returns (reply: Reply)
      modifies ch
      ensures (View(), reply) == ChannelNode.HandleAbort(old(View()), n)
    {
      if ch.pending.Some? && ch.pending.value.n == n { ch.DropPending(); }
      reply := OkNumber(ch.cur.n);
    }

    method Handle(m: Request, env: Env) returns (reply: Reply)
      modifies this, ch
      ensures (View(), reply) == ChannelNode.Handle(old(View()), m, env)
    {
      hide ChannelNode.HandleUpd, ChannelNode.HandleRev, ChannelNode.HandleAbort;
      if wait.Some? { return Refused(Busy); }
      match m
      case ReqUpd(_, _, _) => reply := HandleUpd(m, env);
      case ReqRev(r) => reply := HandleRev(r);
      case ReqAbort(n) => reply := HandleAbort(n);
    }

    /** The reply to the driver's request is here, not yet looked at. */
    method Got(reply: Reply)
      requires wait.Some?
      modifies this`wait
      ensures View() == old(View()).(wait := Some(old(wait).value.(got := Some(reply))))
    {
      wait := Some(wait.value.(got := Some(reply)));
    }

    method Propose(next: State, preimage: Preimage)
      modifies this
      ensures View() == ChannelNode.Propose(old(View()), next, preimage)
    {
      hide Channel.ValidateNext;
      if phase != Idle { return; }
      var o := ch.ValidateNext(next);
      if o.Err? { return; }
      phase, out, settle := Upd, Some(next), preimage;
    }

    method SendUpd(stage: Stage, x: State)
      modifies this`wait
      ensures View() == ChannelNode.SendUpd(old(View()), stage, x)
    {
      wait := Some(Wait(stage, ReqUpd(x, SignRemoteCommitment(ch.View(), x), settle), None));
    }

    method SendRev(stage: Stage)
      modifies this`wait
      ensures View() == ChannelNode.SendRev(old(View()), stage)
    {
      wait := Some(Wait(stage, ReqRev(LastRevoke(ch.View())), None));
    }

    method AdvanceOut()
      requires ch.pending.Some?
      modifies this, ch
      ensures View() == ChannelNode.AdvanceOut(old(View()))
    {
      var _ := ch.RevokeAndAdvance();
      phase := Rev;
      SendRev(RevSent);
    }

    method StartDrive()
      modifies this, ch
      ensures View() == ChannelNode.StartDrive(old(View()))
    {
      hide CommitmentTx, SignRemoteCommitment;
      if wait.Some? { return; }
      if out.None? { phase := Idle; return; }
      if phase == Upd {
        var x := out.value;
        if x.n != ch.cur.n + 1 { AbandonOut(); return; }
        if ch.pending.Some? && ch.pending.value != x {
          if !ch.cfg.isA { AbandonOut(); return; }
          ch.DropPending();
        }
        if ch.pending.None? { SendUpd(UpdSent(x), x); return; }
        AdvanceOut();
        return;
      }
      if phase == Rev { SendRev(RevSent); }
    }

    method FinishOut(r: Revoke)
      modifies this, ch
      ensures View() == ChannelNode.FinishOut(old(View()), r)
    {
      var o := ch.ReceiveRevoke(r);
      wait := None;
      if o.Ok? { phase, out, settle := Idle, None, NotHex(""); }
    }

    /** The reply to the driver's UPD. */
    method ResumeUpd(x: State, reply: Option<Reply>)
      requires wait.Some? && wait.value.stage == UpdSent(x)
      modifies this, ch
      ensures View() == ChannelNode.Resume(old(View()), reply)
    {
      hide CommitmentTx, SignRemoteCommitment, Channel.ValidateNext;
      if reply == Some(Refused(ConflictingPending)) {
        if ch.cfg.isA { wait := Some(Wait(AbortSent, ReqAbort(x.n), None)); return; }
        AbandonOut();
        wait := None;
      } else if reply.Some? && reply.value.OkSig? {
        var o := ch.ReceiveCommitSig(x, x.n, reply.value.sig);
        if o.Err? || ch.pending.None? { wait := None; return; }
        AdvanceOut();
      } else {
        wait := None;
      }
    }

    method Resume(reply: Option<Reply>)
      requires wait.Some?
      modifies this, ch
      ensures View() == ChannelNode.Resume(old(View()), reply)
    {
      hide CommitmentTx, SignRemoteCommitment, Channel.ValidateNext, Channel.ReceiveRevoke;
      match wait.value.stage
      case UpdSent(x) => ResumeUpd(x, reply);
      case AbortSent => wait := None;
      case RevSent =>
        if reply == Some(Refused(NoPending)) {
          SendUpd(ReUpdSent, ch.cur);
        } else if reply.Some? && reply.value.OkRev? {
          FinishOut(reply.value.revoke);
        } else {
          wait := None;
        }
      case ReUpdSent =>
        if reply.Some? && !reply.value.Refused? { SendRev(RevAgain); } else { wait := None; }
      case RevAgain =>
        if reply.Some? && reply.value.OkRev? { FinishOut(reply.value.revoke); } else { wait := None; }
    }

    method Rollback()
      modifies this, ch
      ensures View() == ChannelNode.Rollback(old(View()))
    {
      AbandonOut();
      ch.DropPending();
    }

    method RollbackAsk()
      modifies this, ch
      ensures View() == ChannelNode.RollbackAsk(old(View()))
    {
      if wait.Some? || phase == Rev { return; }
      if phase == Upd { rollbacks := rollbacks + 1; return; }
      Rollback();
    }

    method RollbackDone()
      modifies this, ch
      ensures View() == ChannelNode.RollbackDone(old(View()))
    {
      if rollbacks == 0 { return; }
      Rollback();
      rollbacks := rollbacks - 1;
    }

    method SyncAnswer()
      modifies this, ch
      ensures View() == ChannelNode.SyncAnswer(old(View()))
    {
      if sync.None? { return; }
      var (n, idle) := sync.value;
      sync := None;
      if n == ch.cur.n && idle { ch.DropPending(); }
    }
  }
}
