/** Two node objects running against each other: whatever they do, in whatever order, the
    objects are where the protocol's run says, so everything proved of runs holds of them. */
module ChannelPair {
  import opened Basics
  import opened Symbols
  import opened Channel
  import opened ChannelNode
  import opened ChannelProtocol
  import opened ChannelObject
  import opened NodeObject

  /** What a step does to the two nodes, their history aside. */
  function NodesAfter(v: Node, w: Node, e: Event): (Node, Node) {
    match e
    case Deliver(env) =>
      if v.wait.None? || v.wait.value.got.Some? then (v, w)
      else
        var (w', reply) := Handle(w, v.wait.value.req, env);
        (v.(wait := Some(v.wait.value.(got := Some(reply)))), w')
    case AbortArrives(n) => if v.rollbacks == 0 || w.wait.Some? then (v, w) else (v, HandleAbort(w, n).0)
    case SyncAsk =>
      if v.ch.pending.None? || v.phase != Idle || w.wait.Some? then (v, w)
      else (v.(sync := Some((w.ch.cur.n, w.phase == Idle))), w)
    case _ => (Moved(v, e), w)
  }

  lemma StepNodes(p: Party, q: Party, e: Event)
    ensures var (p', q') := Step(p, q, e); (p'.node, q'.node) == NodesAfter(p.node, q.node, e)
  {
    hide Handle, HandleAbort, Moved;
  }

  /** Everything the protocol promises of one moment. */
  ghost predicate Safe(s: Sys) {
    && Agrees(s.a, s.b) && Agrees(s.b, s.a)
    && (Ahead(s.a, s.b) ==> LeaderPhase(s.a)) && (Ahead(s.b, s.a) ==> LeaderPhase(s.b))
    && CanForceClose(s.a) && CanForceClose(s.b)
    && (forall g :: g in s.a.signed ==> Punishes(s.a, g)) && (forall g :: g in s.b.signed ==> Punishes(s.b, g))
  }

  lemma RunSafe(a: Config, b: Config, s0: State, events: seq<(bool, Event)>)
    requires Terms(a, b, s0)
    ensures Safe(Run(Open(a, b, s0), events))
  {
    hide Run, Open, Agrees, Ahead, LeaderPhase, CanForceClose, Punishes, Terms;
    Agreement(a, b, s0, events);
    ForceCloseSafe(a, b, s0, events);
    PenaltySafe(a, b, s0, events);
  }

  /** A step of `p` alone. */
  method Act(p: NodeObj, e: Event)
    modifies p, p.ch
    ensures p.View() == Moved(old(p.View()), e)
  {
    hide Propose, StartDrive, Resume, RollbackAsk, RollbackDone, SyncAnswer;
    match e
    case Start(next, settle) => p.Propose(next, settle);
    case Drive => p.StartDrive();
    case Return(lost) => if p.wait.Some? { p.Resume(if lost then None else p.wait.value.got); }
    case AskRollback => p.RollbackAsk();
    case EndRollback => p.RollbackDone();
    case SyncReturn => p.SyncAnswer();
    case _ =>
  }

  /** A step of `p` that may run a handler of `q`. */
  method Exchange(p: NodeObj, q: NodeObj, e: Event)
    requires p != q && p.ch != q.ch
    modifies p, p.ch, q, q.ch
    ensures (p.View(), q.View()) == NodesAfter(old(p.View()), old(q.View()), e)
  {
    hide Handle, HandleAbort, Moved;
    match e
    case Deliver(env) =>
      if p.wait.Some? && p.wait.value.got.None? {
        var reply := q.Handle(p.wait.value.req, env);
        p.Got(reply);
      }
    case AbortArrives(n) =>
      if p.rollbacks != 0 && q.wait.None? { var _ := q.HandleAbort(n); }
    case SyncAsk =>
      if p.ch.pending.Some? && p.phase == Idle && q.wait.None? { p.sync := Some((q.ch.cur.n, q.phase == Idle)); }
    case _ =>
      Act(p, e);
  }

  class Pair {
    const a: NodeObj
    const b: NodeObj
    ghost const cfgA: Config
    ghost const cfgB: Config
    ghost const s0: State
    ghost var events: seq<(bool, Event)>

    /** The two parties with their history, as the events so far determine them. */
    ghost function Parties(): Sys
      reads this
    {
      Run(Open(cfgA, cfgB, s0), events)
    }

    ghost predicate Valid()
      reads this, a, a.ch, b, b.ch
    {
      && a != b && a.ch != b.ch && Terms(cfgA, cfgB, s0)
      && a.View() == Parties().a.node && b.View() == Parties().b.node
    }

    /** A funded channel: the hashes and the signatures on the first state are exchanged. */
    constructor (cfgA: Config, cfgB: Config, s0: State)
      requires Terms(cfgA, cfgB, s0)
      ensures this.cfgA == cfgA && this.cfgB == cfgB && this.s0 == s0 && events == []
      ensures Valid() && fresh(a) && fresh(b) && fresh(a.ch) && fresh(b.ch)
    {
      hide Channel.ReceiveCommitSig, Terms, SignRemoteCommitment, Run, Open;
      var chA := new ChannelObj(cfgA, cfgB.RevHash(0), cfgB.RevHash(1));
      var chB := new ChannelObj(cfgB, cfgA.RevHash(0), cfgA.RevHash(1));
      var sigA := SignRemoteCommitment(chA.View(), s0);
      var sigB := SignRemoteCommitment(chB.View(), s0);
      OpenNodes(cfgA, cfgB, s0);
      var _ := chB.ReceiveCommitSig(s0, 0, sigA);
      var _ := chA.ReceiveCommitSig(s0, 0, sigB);
      a := new NodeObj(chA);
      b := new NodeObj(chB);
      this.cfgA, this.cfgB, this.s0 := cfgA, cfgB, s0;
      events := [];
    }

    /** Any step of either side keeps the objects on the run, and so everything the
        protocol promises. */
    method Step(byA: bool, e: Event)
      requires Valid()
      modifies this`events, a, a.ch, b, b.ch
      ensures Valid() && events == old(events) + [(byA, e)] && Safe(Parties())
    {
      hide NodesAfter, ChannelProtocol.Step, Safe, Terms, Open;
      ghost var s := Parties();
      RunNext(Open(cfgA, cfgB, s0), events, byA, e);
      if byA {
        StepNodes(s.a, s.b, e);
        Exchange(a, b, e);
      } else {
        StepNodes(s.b, s.a, e);
        Exchange(b, a, e);
      }
      events := events + [(byA, e)];
      RunSafe(cfgA, cfgB, s0, events);
    }
  }

  lemma RunNext(s: Sys, events: seq<(bool, Event)>, byA: bool, e: Event)
    ensures Run(s, events + [(byA, e)]) == Next(Run(s, events), byA, e)
  {
    hide Next;
    assert (events + [(byA, e)])[..|events|] == events;
  }

  /** The nodes of a freshly opened channel. */
  lemma OpenNodes(a: Config, b: Config, s0: State)
    ensures var sigA, sigB := SignRemoteCommitment(Fresh(a, b), s0), SignRemoteCommitment(Fresh(b, a), s0);
            var s := Run(Open(a, b, s0), []);
            && s.a.node == Node(Channel.ReceiveCommitSig(Fresh(a, b), s0, 0, sigB).0, Idle, None, NotHex(""), None, 0,
                 None)
            && s.b.node == Node(Channel.ReceiveCommitSig(Fresh(b, a), s0, 0, sigA).0, Idle, None, NotHex(""), None, 0,
                 None)
  {
    hide Channel.ReceiveCommitSig, SignRemoteCommitment;
  }
}
