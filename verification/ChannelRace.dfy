/** The one way the leader can lose its Rev phase: an operator rollback whose ABORT
    round trip ends while the driver waits for the reply to its UPD. */
module ChannelRace {
  import opened Basics
  import opened Symbols
  import opened Channel
  import opened ChannelNode
  import opened ChannelProtocol

  function ByA(s: Sys, e: Event): Sys { Next(s, true, e) }

  lemma RunSnoc(s: Sys, events: seq<(bool, Event)>, e: Event)
    ensures Run(s, events + [(true, e)]) == ByA(Run(s, events), e)
  {
    assert (events + [(true, e)])[..|events|] == events;
  }

  /** A pays B one unit. */
  function OneUnit(s0: State): State
    requires s0.balA > 0
  {
    State(1, s0.balA - 1, s0.balB + 1, [], s0.nextHtlcId)
  }

  /** A proposes, asks for a rollback, is driven meanwhile, and the rollback ends
      before B's signature arrives; A then advances with an empty outbox, loses the
      reply to its REV, and the next drive discards the phase. */
  function RaceEvents(s0: State): seq<(bool, Event)>
    requires s0.balA > 0
  {
    [(true, Start(OneUnit(s0), NotHex(""))), (true, AskRollback), (true, Drive), (true, EndRollback),
     (true, Deliver(Env(0, true))), (true, Return(false)), (true, Return(true)), (true, Drive)]
  }

  lemma RunRace(s: Sys, ev: seq<(bool, Event)>)
    requires |ev| == 8 && forall i :: 0 <= i < 8 ==> ev[i].0
    ensures Run(s, ev) == ByA(ByA(ByA(ByA(ByA(ByA(ByA(ByA(
              s, ev[0].1), ev[1].1), ev[2].1), ev[3].1), ev[4].1), ev[5].1), ev[6].1), ev[7].1)
  {
    hide ByA, Run;
    RunNone(s);
    assert [] + [ev[0]] == ev[..1] && ev[..1] + [ev[1]] == ev[..2] && ev[..2] + [ev[2]] == ev[..3];
    assert ev[..3] + [ev[3]] == ev[..4] && ev[..4] + [ev[4]] == ev[..5] && ev[..5] + [ev[5]] == ev[..6];
    assert ev[..6] + [ev[6]] == ev[..7] && ev[..7] + [ev[7]] == ev;
    RunSnoc(s, [], ev[0].1);
    RunSnoc(s, ev[..1], ev[1].1);
    RunSnoc(s, ev[..2], ev[2].1);
    RunSnoc(s, ev[..3], ev[3].1);
    RunSnoc(s, ev[..4], ev[4].1);
    RunSnoc(s, ev[..5], ev[5].1);
    RunSnoc(s, ev[..6], ev[6].1);
    RunSnoc(s, ev[..7], ev[7].1);
  }

  lemma RunNone(s: Sys)
    ensures Run(s, []) == s
  {
  }

  /** The request A sends for the payment. */
  function Offer(a: Config, b: Config, s0: State): Request
    requires s0.balA > 0
  {
    ReqUpd(OneUnit(s0), SigFor(a, b, OneUnit(s0)), NotHex(""))
  }

  /** A's node when its rollback has ended under the waiting driver. */
  function Undercut(a: Config, b: Config, s0: State): Node
    requires s0.balA > 0
  {
    var ch := OpenSide(a, b, s0).node.ch;
    Node(NoteAbandoned(ch, OneUnit(s0)), Idle, None, NotHex(""),
         Some(Wait(UpdSent(OneUnit(s0)), Offer(a, b, s0), None)), 0, None)
  }

  lemma OpenedChannel(mine: Config, theirs: Config, s0: State)
    requires Terms(mine, theirs, s0) || Terms(theirs, mine, s0)
    requires s0.balA > mine.info.fee
    ensures var ch := OpenSide(mine, theirs, s0).node.ch;
            && ch == Chan(mine, s0, None, Some(Sig(theirs.key, OwnCommitment(mine, s0))), None,
                          map[0 := theirs.RevHash(0), 1 := theirs.RevHash(1)], map[], map[], [])
            && ValidateNext(ch, OneUnit(s0)).Ok?
            && SignRemoteCommitment(ch, OneUnit(s0)) == SigFor(mine, theirs, OneUnit(s0))
  {
    hide CommitmentTx;
    assert SignRemoteCommitment(Fresh(theirs, mine), s0) == Sig(theirs.key, OwnCommitment(mine, s0));
  }

  lemma FourSteps(a: Config, b: Config, s0: State)
    requires Terms(a, b, s0) && s0.balA > a.info.fee
    ensures var s := ByA(ByA(ByA(ByA(Open(a, b, s0), Start(OneUnit(s0), NotHex(""))), AskRollback), Drive),
            EndRollback);
            s.a.node == Undercut(a, b, s0) && s.a.undercut && s.b == OpenSide(b, a, s0)
  {
    hide CommitmentTx, SignRemoteCommitment, ValidateNext, ReceiveCommitSig, OpenSide;
    OpenedChannel(a, b, s0);
    OpenNode(a, b, s0);
    var x, v := OneUnit(s0), OpenSide(a, b, s0).node;
    var v1 := Propose(v, x, NotHex(""));
    var v2 := RollbackAsk(v1);
    var v3 := StartDrive(v2);
    assert v1 == v.(phase := Upd, out := Some(x));
    assert v2 == v1.(rollbacks := 1);
    assert v3 == v2.(wait := Some(Wait(UpdSent(x), Offer(a, b, s0), None)));
    assert RollbackDone(v3) == Undercut(a, b, s0);
  }

  lemma OpenNode(mine: Config, theirs: Config, s0: State)
    ensures var p := OpenSide(mine, theirs, s0);
            p.node == Node(p.node.ch, Idle, None, NotHex(""), None, 0, None) && !p.undercut && !p.droveEmpty
  {
  }

  /** B accepts the payment: nothing pending, the right number, both balances sound. */
  lemma BSigns(a: Config, b: Config, s0: State)
    requires Terms(a, b, s0) && s0.balA > a.info.fee
    ensures Handle(OpenSide(b, a, s0).node, Offer(a, b, s0), Env(0, true)).1 == OkSig(SigFor(b, a, OneUnit(s0)))
    ensures Handle(OpenSide(b, a, s0).node, Offer(a, b, s0), Env(0, true)).0.ch.cur == s0
  {
    hide CommitmentTx, ValidateNext, OpenSide;
    OpenedChannel(b, a, s0);
    OpenNode(b, a, s0);
    var v, x := OpenSide(b, a, s0).node, OneUnit(s0);
    assert Classify(v.ch, x, NotHex(""), 0) == Pay;
    assert OwnCommitment(b, x) == SigFor(a, b, x).body;
  }

  /** A takes B's signature and advances although its outbox is empty. */
  lemma AAdvances(a: Config, b: Config, s0: State, w: Wait)
    requires Terms(a, b, s0) && s0.balA > a.info.fee
    requires w == Undercut(a, b, s0).wait.value.(got := Some(OkSig(SigFor(b, a, OneUnit(s0)))))
    ensures var v := Resume(Undercut(a, b, s0).(wait := Some(w)), w.got);
            v.ch.cur == OneUnit(s0) && v.phase == Rev && v.out.None? && v.wait.Some? && v.wait.value.stage.RevSent?
  {
    hide CommitmentTx, ValidateNext, OpenSide, SignRemoteCommitment;
    OpenedChannel(a, b, s0);
    var ch, x := OpenSide(a, b, s0).node.ch, OneUnit(s0);
    assert OwnCommitment(a, x) == SigFor(b, a, x).body;
    assert ValidateNext(NoteAbandoned(ch, x), x).Ok? by { SameValidation(ch, x, x); }
  }

  lemma SameValidation(c: Chan, s: State, next: State)
    ensures ValidateNext(NoteAbandoned(c, s), next) == ValidateNext(c, next)
  {
  }

  /** The rest of the run, from the point where the rollback has ended. */
  lemma LastSteps(a: Config, b: Config, s0: State, s: Sys)
    requires Terms(a, b, s0) && s0.balA > a.info.fee
    requires s.a.node == Undercut(a, b, s0) && s.a.undercut && s.b == OpenSide(b, a, s0)
    ensures var t := ByA(ByA(ByA(ByA(s, Deliver(Env(0, true))), Return(false)), Return(true)), Drive);
            t.a.Cur() == OneUnit(s0) && t.b.Cur() == s0 && t.a.node.phase == Idle && t.a.undercut && t.a.droveEmpty
  {
    hide Undercut, Handle, OpenSide, Run, ReceiveCommitSig, RevokeAndAdvance;
    BSigns(a, b, s0);
    UndercutWaits(a, b, s0);
    AAdvances(a, b, s0, Undercut(a, b, s0).wait.value.(got := Some(OkSig(SigFor(b, a, OneUnit(s0))))));
  }

  /** For every channel whose funder can pay one unit there is a run after which the
      leader is ahead and yet its phase is not Rev. */
  lemma LeaderLosesPhase(a: Config, b: Config, s0: State)
    requires Terms(a, b, s0) && s0.balA > a.info.fee
    ensures var s := Run(Open(a, b, s0), RaceEvents(s0));
            Ahead(s.a, s.b) && s.a.node.phase == Idle && s.a.undercut && s.a.droveEmpty
  {
    hide Open, ByA, Run, Undercut, OpenSide;
    RunRace(Open(a, b, s0), RaceEvents(s0));
    FourSteps(a, b, s0);
    LastSteps(a, b, s0, ByA(ByA(ByA(ByA(Open(a, b, s0), Start(OneUnit(s0), NotHex(""))), AskRollback), Drive),
        EndRollback));
  }

  lemma UndercutWaits(a: Config, b: Config, s0: State)
    requires s0.balA > 0
    ensures Undercut(a, b, s0).wait == Some(Wait(UpdSent(OneUnit(s0)), Offer(a, b, s0), None))
  {
  }
}
