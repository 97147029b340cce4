/** Which updates of the peer a node accepts, and as what: on the two states alone. */
module ChannelUpdates {
  import opened Basics
  import opened Seqs
  import opened Symbols
  import opened Channel
  import opened ChannelNode
  import opened ChannelClassify
  import opened ChannelIds

  // ------------------------------------------------------------------ the two lists

  function IdSet(hs: seq<Htlc>): set<nat> { set h | h in hs :: h.id }

  /** `h` is the entry that stands for its id: the last one. */
  predicate Stands(hs: seq<Htlc>, h: Htlc) {
    exists i :: 0 <= i < |hs| && hs[i] == h && forall j :: i < j < |hs| ==> hs[j].id != h.id
  }

  /** HTLCs of both lists have the same side, amount, hash and expiry in both. */
  ghost predicate TermsKept(hs: seq<Htlc>, gs: seq<Htlc>) {
    forall h, g :: Stands(hs, h) && Stands(gs, g) && h.id == g.id ==>
      h.offeredByA == g.offeredByA && h.amount == g.amount && h.paymentHash == g.paymentHash && h.expiry == g.expiry
  }

  lemma {:induction false} StandsById(hs: seq<Htlc>)
    ensures forall h :: Stands(hs, h) <==> h.id in ById(hs) && ById(hs)[h.id] == h
    ensures ById(hs).Keys == IdSet(hs)
  {
    hide Stands, IdSet;
    if hs == [] {
      NoneStands();
    } else {
      var n := |hs| - 1;
      StandsById(hs[..n]);
      assert hs == hs[..n] + [hs[n]];
      forall h ensures Stands(hs, h) <==> h.id in ById(hs) && ById(hs)[h.id] == h { StandsSnoc(hs[..n], hs[n], h); }
      IdSetSnoc(hs[..n], hs[n]);
    }
  }

  lemma NoneStands()
    ensures (forall h :: !Stands([], h)) && IdSet([]) == {}
  {
  }

  lemma IdSetSnoc(hs: seq<Htlc>, h: Htlc)
    ensures IdSet(hs + [h]) == IdSet(hs) + {h.id}
  {
    assert forall g :: g in hs + [h] <==> g in hs || g == h;
  }

  lemma StandsSnoc(hs: seq<Htlc>, last: Htlc, h: Htlc)
    ensures Stands(hs + [last], h) <==> h == last || (h.id != last.id && Stands(hs, h))
  {
    var all := hs + [last];
    if h == last { assert all[|hs|] == h; }
    if Stands(hs, h) && h.id != last.id {
      var i :| 0 <= i < |hs| && hs[i] == h && forall j :: i < j < |hs| ==> hs[j].id != h.id;
      assert all[i] == h && forall j :: i < j < |all| ==> all[j].id != h.id;
    }
    if Stands(all, h) && h != last {
      var i :| 0 <= i < |all| && all[i] == h && forall j :: i < j < |all| ==> all[j].id != h.id;
      assert all[|hs|] == last && hs[i] == h;
      assert forall j :: i < j < |hs| ==> hs[j] == all[j];
    }
  }

  lemma TermsById(hs: seq<Htlc>, gs: seq<Htlc>)
    ensures TermsKept(hs, gs) <==>
            forall id :: id in ById(gs) && id in ById(hs) ==> SameTerms(ById(hs)[id], ById(gs)[id])
  {
    hide ById, Stands;
    StandsById(hs);
    StandsById(gs);
    ByIdKeys(hs);
    ByIdKeys(gs);
    if TermsKept(hs, gs) {
      forall id | id in ById(gs) && id in ById(hs) ensures SameTerms(ById(hs)[id], ById(gs)[id]) {
        assert Stands(hs, ById(hs)[id]) && Stands(gs, ById(gs)[id]);
      }
    }
  }

  // ------------------------------------------------------------------- four updates

  /** The peer pays: no HTLC comes or goes, and our balance does not fall. */
  ghost predicate Pays(cur: State, next: State, me: bool) {
    && TermsKept(cur.htlcs, next.htlcs) && IdSet(next.htlcs) == IdSet(cur.htlcs)
    && next.nextHtlcId == cur.nextHtlcId && Bal(next, me) >= Bal(cur, me)
  }

  /** The peer offers `h` with the next id, out of its own balance. */
  ghost predicate Adds(cur: State, next: State, me: bool, height: nat, h: Htlc) {
    && TermsKept(cur.htlcs, next.htlcs) && Stands(next.htlcs, h)
    && h.id !in IdSet(cur.htlcs) && IdSet(next.htlcs) == IdSet(cur.htlcs) + {h.id}
    && h.offeredByA == !me && h.id == cur.nextHtlcId && next.nextHtlcId == cur.nextHtlcId + 1
    && Bal(next, me) == Bal(cur, me) && Bal(next, !me) + h.amount == Bal(cur, !me) && h.expiry > height + 1
  }

  /** Our HTLC `h` goes, and nothing else. */
  ghost predicate Removes(cur: State, next: State, me: bool, h: Htlc) {
    && TermsKept(cur.htlcs, next.htlcs) && Stands(cur.htlcs, h)
    && h.id !in IdSet(next.htlcs) && IdSet(cur.htlcs) == IdSet(next.htlcs) + {h.id}
    && h.offeredByA == me && next.nextHtlcId == cur.nextHtlcId
  }

  /** ... and is paid back to us. */
  ghost predicate Fails(cur: State, next: State, me: bool, h: Htlc) {
    Removes(cur, next, me, h) && Bal(next, me) == Bal(cur, me) + h.amount && Bal(next, !me) == Bal(cur, !me)
  }

  /** ... and is paid to the peer against the preimage of its hash. */
  ghost predicate Settles(cur: State, next: State, me: bool, preimage: Preimage, h: Htlc) {
    && Removes(cur, next, me, h) && h.amount > 0 && Bal(next, !me) == Bal(cur, !me) + h.amount
    && Bal(next, me) == Bal(cur, me) && HashPreimage(preimage) == h.paymentHash
  }

  lemma MissingIds(hs: seq<Htlc>, gs: seq<Htlc>)
    ensures Missing(hs, ById(gs)).Keys == IdSet(hs) - IdSet(gs)
    ensures forall h: Htlc :: h.id in Missing(hs, ById(gs)) ==> (Missing(hs, ById(gs))[h.id] == h <==> Stands(hs, h))
  {
    hide ById, Stands;
    StandsById(hs);
    StandsById(gs);
  }

  lemma {:induction false} SoleFound(hs: seq<Htlc>, m: map<nat, Htlc>)
    requires exists h :: h in hs && h.id in m
    ensures Sole(hs, m).Some?
  {
    if hs[0].id !in m {
      var h :| h in hs && h.id in m;
      assert h in hs[1..];
      SoleFound(hs[1..], m);
    }
  }

  /** The one entry of `hs` that is missing from `gs`. */
  lemma OneMissing(hs: seq<Htlc>, gs: seq<Htlc>)
    requires |Missing(hs, ById(gs))| == 1
    ensures var s := Sole(hs, Missing(hs, ById(gs)));
            && s.Some? && Stands(hs, s.value) && s.value.id !in IdSet(gs)
            && IdSet(hs) - IdSet(gs) == {s.value.id}
  {
    hide ById, Stands, Sole;
    var m := Missing(hs, ById(gs));
    MissingIds(hs, gs);
    ByIdKeys(hs);
    var id :| id in m;
    var h :| h in hs && h.id == id;
    SoleFound(hs, m);
    SoleOnly(hs, m, id);
    forall j | j in m ensures j == id { OnlyOne(m, j, id); }
    assert m.Keys == {id};
    assert m[id].id == id by { MissingFrom(hs, gs, id); }
  }

  lemma MissingFrom(hs: seq<Htlc>, gs: seq<Htlc>, id: nat)
    requires id in Missing(hs, ById(gs))
    ensures Missing(hs, ById(gs))[id].id == id
  {
    hide ById;
    ByIdKeys(hs);
  }

  lemma StandsUnique(hs: seq<Htlc>, g: Htlc, h: Htlc)
    requires Stands(hs, g) && Stands(hs, h) && g.id == h.id
    ensures g == h
  {
    hide ById, Stands;
    StandsById(hs);
  }

  lemma Card0(m: map<nat, Htlc>)
    ensures |m| == 0 <==> m.Keys == {}
  {
    assert |m| == |m.Keys|;
  }

  lemma Card1(m: map<nat, Htlc>, id: nat)
    requires m.Keys == {id}
    ensures |m| == 1
  {
    assert |m| == |m.Keys|;
  }

  /** What each answer of the classifier means, both ways. */
  ghost predicate Means(c: Chan, next: State, preimage: Preimage, height: nat, u: PeerUpdate) {
    var cur, me := c.cur, c.cfg.isA;
    match u
    case Pay => Pays(cur, next, me)
    case AddHtlc(h) => Adds(cur, next, me, height, h)
    case FailHtlc(h) => Fails(cur, next, me, h)
    case SettleHtlc(h) => Settles(cur, next, me, preimage, h)
    case Reject =>
      && !Pays(cur, next, me)
      && forall h :: !Adds(cur, next, me, height, h) && !Fails(cur, next, me, h) && !Settles(cur, next, me, preimage, h)
  }

  /** The sets the classifier looks at. */
  lemma Differences(cur: State, next: State)
    ensures var before, after := ById(cur.htlcs), ById(next.htlcs);
            var added, removed := Missing(next.htlcs, before), Missing(cur.htlcs, after);
            && (TermsKept(cur.htlcs, next.htlcs) <==>
                 !exists id :: id in after && id in before && !SameTerms(before[id], after[id]))
            && added.Keys == IdSet(next.htlcs) - IdSet(cur.htlcs) && |added| == |added.Keys|
            && removed.Keys == IdSet(cur.htlcs) - IdSet(next.htlcs) && |removed| == |removed.Keys|
  {
    hide ById, Stands, TermsKept, SameTerms;
    TermsById(cur.htlcs, next.htlcs);
    MissingIds(next.htlcs, cur.htlcs);
    MissingIds(cur.htlcs, next.htlcs);
  }

  lemma PaysIs(c: Chan, next: State, preimage: Preimage, height: nat)
    requires Pays(c.cur, next, c.cfg.isA)
    ensures Classify(c, next, preimage, height) == Pay
  {
    hide ById, TermsKept, SameTerms, Missing, Sole, HashPreimage;
    Differences(c.cur, next);
    assert IdSet(next.htlcs) - IdSet(c.cur.htlcs) == {} == IdSet(c.cur.htlcs) - IdSet(next.htlcs);
  }

  lemma AddsIs(c: Chan, next: State, preimage: Preimage, height: nat, h: Htlc)
    requires Adds(c.cur, next, c.cfg.isA, height, h)
    ensures Classify(c, next, preimage, height) == AddHtlc(h)
  {
    hide ById, TermsKept, SameTerms, Missing, Sole, HashPreimage, Stands;
    Differences(c.cur, next);
    assert IdSet(next.htlcs) - IdSet(c.cur.htlcs) == {h.id} && IdSet(c.cur.htlcs) - IdSet(next.htlcs) == {};
    OneMissing(next.htlcs, c.cur.htlcs);
    StandsUnique(next.htlcs, h, Sole(next.htlcs, Missing(next.htlcs, ById(c.cur.htlcs))).value);
  }

  /** The one HTLC gone is the one the classifier looks at. */
  lemma RemovesSole(c: Chan, next: State, h: Htlc)
    requires Removes(c.cur, next, c.cfg.isA, h)
    ensures Sole(c.cur.htlcs, Missing(c.cur.htlcs, ById(next.htlcs))) == Some(h)
    ensures |Missing(c.cur.htlcs, ById(next.htlcs))| == 1 && |Missing(next.htlcs, ById(c.cur.htlcs))| == 0
    ensures !exists id :: id in ById(next.htlcs) && id in ById(c.cur.htlcs) &&
                !SameTerms(ById(c.cur.htlcs)[id], ById(next.htlcs)[id])
  {
    hide ById, TermsKept, SameTerms, Missing, Sole, Stands;
    Differences(c.cur, next);
    assert IdSet(c.cur.htlcs) - IdSet(next.htlcs) == {h.id} && IdSet(next.htlcs) - IdSet(c.cur.htlcs) == {};
    OneMissing(c.cur.htlcs, next.htlcs);
    StandsUnique(c.cur.htlcs, h, Sole(c.cur.htlcs, Missing(c.cur.htlcs, ById(next.htlcs))).value);
  }

  lemma FailsIs(c: Chan, next: State, preimage: Preimage, height: nat, h: Htlc)
    requires Fails(c.cur, next, c.cfg.isA, h)
    ensures Classify(c, next, preimage, height) == FailHtlc(h)
  {
    hide ById, TermsKept, SameTerms, Missing, Sole, HashPreimage, Stands;
    RemovesSole(c, next, h);
  }

  lemma SettlesIs(c: Chan, next: State, preimage: Preimage, height: nat, h: Htlc)
    requires Settles(c.cur, next, c.cfg.isA, preimage, h)
    ensures Classify(c, next, preimage, height) == SettleHtlc(h)
  {
    hide ById, TermsKept, SameTerms, Missing, Sole, HashPreimage, Stands;
    RemovesSole(c, next, h);
  }

  lemma AddIs(c: Chan, next: State, preimage: Preimage, height: nat)
    requires Classify(c, next, preimage, height).AddHtlc?
    ensures Adds(c.cur, next, c.cfg.isA, height, Classify(c, next, preimage, height).htlc)
  {
    hide ById, TermsKept, SameTerms, Missing, Sole, HashPreimage, Stands;
    Differences(c.cur, next);
    OneMissing(next.htlcs, c.cur.htlcs);
    assert IdSet(c.cur.htlcs) - IdSet(next.htlcs) == {};
  }

  lemma RemovalIs(c: Chan, next: State, preimage: Preimage, height: nat)
    requires var u := Classify(c, next, preimage, height); u.FailHtlc? || u.SettleHtlc?
    ensures Removes(c.cur, next, c.cfg.isA, Classify(c, next, preimage, height).htlc)
  {
    hide ById, TermsKept, SameTerms, Missing, Sole, HashPreimage, Stands;
    Differences(c.cur, next);
    OneMissing(c.cur.htlcs, next.htlcs);
    assert IdSet(next.htlcs) - IdSet(c.cur.htlcs) == {};
  }

  lemma AnswerMeans(c: Chan, next: State, preimage: Preimage, height: nat)
    ensures Means(c, next, preimage, height, Classify(c, next, preimage, height))
  {
    hide ById, TermsKept, SameTerms, Missing, Sole, HashPreimage, Stands, Removes, Adds;
    var u := Classify(c, next, preimage, height);
    match u
    case Pay =>
      Differences(c.cur, next);
      assert IdSet(next.htlcs) - IdSet(c.cur.htlcs) == {} == IdSet(c.cur.htlcs) - IdSet(next.htlcs);
    case AddHtlc(_) => AddIs(c, next, preimage, height);
    case FailHtlc(_) => RemovalIs(c, next, preimage, height);
    case SettleHtlc(_) => RemovalIs(c, next, preimage, height);
    case Reject => RejectMeans(c, next, preimage, height);
  }

  lemma RejectMeans(c: Chan, next: State, preimage: Preimage, height: nat)
    requires Classify(c, next, preimage, height).Reject?
    ensures Means(c, next, preimage, height, Reject)
  {
    hide Classify, Pays, Adds, Fails, Settles;
    var cur, me := c.cur, c.cfg.isA;
    if Pays(cur, next, me) { PaysIs(c, next, preimage, height); }
    forall h
      ensures !Adds(cur, next, me, height, h) && !Fails(cur, next, me, h) && !Settles(cur, next, me, preimage, h)
    {
      if Adds(cur, next, me, height, h) { AddsIs(c, next, preimage, height, h); }
      if Fails(cur, next, me, h) { FailsIs(c, next, preimage, height, h); }
      if Settles(cur, next, me, preimage, h) { SettlesIs(c, next, preimage, height, h); }
    }
  }

  /** An update is what the classifier says if and only if the two states say so. */
  lemma ClassifyIff(c: Chan, next: State, preimage: Preimage, height: nat, u: PeerUpdate)
    ensures Classify(c, next, preimage, height) == u <==> Means(c, next, preimage, height, u)
  {
    hide Classify, Pays, Adds, Fails, Settles;
    AnswerMeans(c, next, preimage, height);
    if Means(c, next, preimage, height, u) {
      match u
      case Pay => PaysIs(c, next, preimage, height);
      case AddHtlc(h) => AddsIs(c, next, preimage, height, h);
      case FailHtlc(h) => FailsIs(c, next, preimage, height, h);
      case SettleHtlc(h) => SettlesIs(c, next, preimage, height, h);
      case Reject =>
    }
  }

  // ------------------------------------------------------------------- valid states

  /** A state whose funder can pay the fee, with few enough HTLCs, all of the capacity and
      nothing more, and every HTLC of some amount with a hash of the right length. */
  predicate Sound(info: Info, s: State) {
    && info.fee <= s.balA && |s.htlcs| <= 16 && s.balA + s.balB + HtlcSum(s.htlcs) == info.capacity
    && forall h :: h in s.htlcs ==> h.amount > 0 && h.paymentHash.Size() == 128
  }

  /** What a next state must be: sound, numbered next, with the peer's hash at hand. */
  predicate Acceptable(c: Chan, next: State) {
    c.pending == None && next.n == c.cur.n + 1 && next.n in c.hashes && Sound(c.cfg.info, next)
  }

  /** Exactly such a state is valid; any other is refused for the first thing wrong with it. */
  lemma ValidateIff(c: Chan, next: State)
    ensures ValidateNext(c, next) == Ok <==> Acceptable(c, next)
    ensures ValidateNext(c, next) == Err(InFlight) <==> c.pending.Some?
    ensures ValidateNext(c, next) == Err(BadNumber) <==> c.pending.None? && next.n != c.cur.n + 1
    ensures ValidateNext(c, next) == Err(AwaitingRemote) <==>
            c.pending.None? && next.n == c.cur.n + 1 && next.n !in c.hashes
    ensures ValidateNext(c, next) == Err(FunderFee) <==>
            c.pending.None? && next.n == c.cur.n + 1 && next.n in c.hashes && next.balA < c.cfg.info.fee
    ensures ValidateNext(c, next) == Err(BadHtlc) ==>
            !(forall h :: h in next.htlcs ==> h.amount > 0 && h.paymentHash.Size() == 128)
    ensures ValidateNext(c, next) == Err(TooManyHtlcs) ==> |next.htlcs| > 16
    ensures ValidateNext(c, next) == Err(Unbalanced) ==>
            next.balA + next.balB + HtlcSum(next.htlcs) != c.cfg.info.capacity
  {
    hide HtlcSum;
    EntriesIff(next.htlcs);
  }

  lemma EntriesIff(hs: seq<Htlc>)
    ensures (exists i :: 0 <= i < |hs| && BadHtlcEntry(hs[i])) <==>
            !(forall h :: h in hs ==> h.amount > 0 && h.paymentHash.Size() == 128)
  {
    if exists h :: h in hs && (h.amount == 0 || h.paymentHash.Size() != 128) {
      var h :| h in hs && (h.amount == 0 || h.paymentHash.Size() != 128);
      var i :| 0 <= i < |hs| && hs[i] == h;
      assert BadHtlcEntry(hs[i]);
    }
  }

  // ------------------------------------------------------------------ what a node does

  /** Idle, with a current state signed for and nothing under way. */
  predicate Still(v: Node) { v.wait.None? && v.phase == Idle && v.ch.pending.None? && v.ch.sigCur.Some? }

  /** The update as the peer sends it, and the node that has taken it. */
  function Asks(v: Node, next: State, preimage: Preimage): Request {
    ReqUpd(next, Sig(v.ch.cfg.remoteKey, OwnCommitment(v.ch.cfg, next)), preimage)
  }

  function Took(v: Node, next: State): Node {
    v.(ch := v.ch.(pending := Some(next), sigPending := Some(Sig(v.ch.cfg.remoteKey, OwnCommitment(v.ch.cfg, next)))))
  }

  /** A node at rest takes an update if and only if the state is acceptable and is a payment,
      an offer with a proper route, a settlement or a refund; it then signs the peer's
      commitment to it, and otherwise nothing changes. */
  lemma TakesIff(v: Node, next: State, preimage: Preimage, env: Env)
    requires Still(v)
    ensures var r := Handle(v, Asks(v, next, preimage), env);
            var cur, me := v.ch.cur, v.ch.cfg.isA;
            if Acceptable(v.ch, next) && (|| Pays(cur, next, me) || (exists h :: Fails(cur, next, me, h))
                                          || (exists h :: Settles(cur, next, me, preimage, h))
                                          || (env.routeOk && exists h :: Adds(cur, next, me, env.height, h)))
            then r == (Took(v, next), OkSig(SignRemoteCommitment(Took(v, next).ch, next)))
            else r.0 == v && r.1.Refused?
  {
    hide Classify, CommitmentTx, ValidateNext, Acceptable, Pays, Adds, Fails, Settles;
    ValidateIff(v.ch, next);
    AnswerMeans(v.ch, next, preimage, env.height);
    Kinds(v.ch, next, preimage, env.height);
  }

  /** The answers, by what the states say. */
  lemma Kinds(c: Chan, next: State, preimage: Preimage, height: nat)
    ensures var u, cur, me := Classify(c, next, preimage, height), c.cur, c.cfg.isA;
            && (u.Pay? <==> Pays(cur, next, me)) && (u.AddHtlc? <==> exists h :: Adds(cur, next, me, height, h))
            && (u.FailHtlc? <==> exists h :: Fails(cur, next, me, h))
            && (u.SettleHtlc? <==> exists h :: Settles(cur, next, me, preimage, h))
  {
    hide Classify, Pays, Adds, Fails, Settles;
    var cur, me := c.cur, c.cfg.isA;
    AnswerMeans(c, next, preimage, height);
    if Pays(cur, next, me) { PaysIs(c, next, preimage, height); }
    if h :| Adds(cur, next, me, height, h) { AddsIs(c, next, preimage, height, h); }
    if h :| Fails(cur, next, me, h) { FailsIs(c, next, preimage, height, h); }
    if h :| Settles(cur, next, me, preimage, h) { SettlesIs(c, next, preimage, height, h); }
  }

  // --------------------------------------------------------- settlements and refunds

  function Dropped(hs: seq<Htlc>, i: nat): seq<Htlc>
    requires i < |hs|
  {
    hs[..i] + hs[i + 1..]
  }

  /** The next state without our HTLC `i`, its amount with the peer or back with us. */
  function Closing(s: State, i: nat, toA: bool): State
    requires i < |s.htlcs|
  {
    var x := s.htlcs[i].amount;
    State(s.n + 1, if toA then s.balA + x else s.balA, if toA then s.balB else s.balB + x, Dropped(s.htlcs, i),
          s.nextHtlcId)
  }

  lemma {:induction false} SumDropped(hs: seq<Htlc>, i: nat)
    requires i < |hs|
    ensures HtlcSum(Dropped(hs, i)) + hs[i].amount == HtlcSum(hs)
  {
    if i == 0 {
      assert Dropped(hs, 0) == hs[1..];
    } else {
      SumDropped(hs[1..], i - 1);
      assert Dropped(hs, i)[1..] == Dropped(hs[1..], i - 1) && Dropped(hs, i)[0] == hs[0];
    }
  }

  lemma StandsIn(hs: seq<Htlc>, i: nat)
    requires i < |hs| && Distinct(Ids(hs))
    ensures Stands(hs, hs[i])
  {
    forall j | i < j < |hs| ensures hs[j].id != hs[i].id { assert Ids(hs)[i] != Ids(hs)[j]; }
  }

  /** Taking one entry out of a list without repeated ids. */
  lemma DroppedIds(hs: seq<Htlc>, i: nat)
    requires i < |hs| && Distinct(Ids(hs))
    ensures var gs := Dropped(hs, i);
            && hs[i].id !in IdSet(gs) && IdSet(hs) == IdSet(gs) + {hs[i].id} && TermsKept(hs, gs)
            && forall g :: g in gs ==> g in hs
  {
    var gs, ids := Dropped(hs, i), Ids(hs);
    assert forall k :: 0 <= k < |gs| ==> gs[k] == hs[if k < i then k else k + 1];
    forall g | g in gs ensures g in hs && g.id != hs[i].id {
      var k :| 0 <= k < |gs| && gs[k] == g;
      assert ids[if k < i then k else k + 1] != ids[i];
    }
    forall h | h in hs && h != hs[i] ensures h in gs {
      var k :| 0 <= k < |hs| && hs[k] == h;
      assert gs[if k < i then k else k - 1] == h;
    }
    forall h, g | Stands(hs, h) && Stands(gs, g) && h.id == g.id ensures h == g { SameEntry(hs, h, g); }
  }

  lemma SameEntry(hs: seq<Htlc>, h: Htlc, g: Htlc)
    requires Distinct(Ids(hs)) && h in hs && g in hs && h.id == g.id
    ensures h == g
  {
    var i :| 0 <= i < |hs| && hs[i] == h;
    var j :| 0 <= j < |hs| && hs[j] == g;
    assert Ids(hs)[i] == Ids(hs)[j];
  }

  lemma ClosingFine(c: Chan, i: nat, toA: bool)
    requires i < |c.cur.htlcs| && c.pending.None? && c.cur.n + 1 in c.hashes && Sound(c.cfg.info, c.cur)
    ensures Acceptable(c, Closing(c.cur, i, toA))
  {
    hide HtlcSum;
    SumDropped(c.cur.htlcs, i);
    forall g | g in Dropped(c.cur.htlcs, i) ensures g in c.cur.htlcs { }
  }

  /** The peer that shows the preimage of an open HTLC of ours is answered with a signature
      on the state that pays it, and the peer that gives one up with a signature on the
      state that pays us back. */
  lemma ClosingTaken(v: Node, i: nat, preimage: Preimage, env: Env)
    requires Still(v) && v.ch.cur.n + 1 in v.ch.hashes && Sound(v.ch.cfg.info, v.ch.cur)
    requires i < |v.ch.cur.htlcs| && Distinct(Ids(v.ch.cur.htlcs)) && v.ch.cur.htlcs[i].offeredByA == v.ch.cfg.isA
    ensures var next := Closing(v.ch.cur, i, v.ch.cfg.isA);
            Handle(v, Asks(v, next, preimage), env) ==
                (Took(v, next), OkSig(SignRemoteCommitment(Took(v, next).ch, next)))
    ensures var next := Closing(v.ch.cur, i, !v.ch.cfg.isA);
            HashPreimage(preimage) == v.ch.cur.htlcs[i].paymentHash ==>
              Handle(v, Asks(v, next, preimage), env) ==
                  (Took(v, next), OkSig(SignRemoteCommitment(Took(v, next).ch, next)))
  {
    hide Handle, CommitmentTx, HashPreimage, TermsKept, Stands;
    var cur, me := v.ch.cur, v.ch.cfg.isA;
    var h := cur.htlcs[i];
    DroppedIds(cur.htlcs, i);
    StandsIn(cur.htlcs, i);
    ClosingFine(v.ch, i, true);
    ClosingFine(v.ch, i, false);
    assert h in cur.htlcs;
    assert Fails(cur, Closing(cur, i, me), me, h);
    TakesIff(v, Closing(cur, i, me), preimage, env);
    if HashPreimage(preimage) == h.paymentHash {
      assert Settles(cur, Closing(cur, i, !me), me, preimage, h);
      TakesIff(v, Closing(cur, i, !me), preimage, env);
    }
  }

  // ---------------------------------------------------------- signatures and secrets

  /** A signature is taken if and only if it is the peer's on our own commitment to an
      acceptable state (or to the first one), sent with that state's number. */
  lemma SignatureIff(c: Chan, next: State, n: nat, sig: Sig)
    ensures var (d, o) := ReceiveCommitSig(c, next, n, sig);
            var first := next.n == 0 && c.sigCur.None?;
            && (o == Ok <==> (first || Acceptable(c, next)) && n == next.n &&
                               sig == Sig(c.cfg.remoteKey, OwnCommitment(c.cfg, next)))
            && (o != Ok ==> d == c)
            && (o == Ok && !first ==> d == c.(pending := Some(next), sigPending := Some(sig)))
  {
    hide ValidateNext, Acceptable, OwnCommitment;
    ValidateIff(c, next);
  }

  /** The node that has taken the peer's secret and moved on to its pending state. */
  function MovedOn(v: Node, r: Revoke): Node
    requires v.ch.pending.Some?
  {
    v.(ch := v.ch.(cur := v.ch.pending.value, sigCur := v.ch.sigPending, pending := None, sigPending := None,
                   history := v.ch.history[v.ch.cur.n := v.ch.cur], secrets := v.ch.secrets[r.revokedN := r.secret],
                   hashes := v.ch.hashes[r.revokedN + 2 := r.nextHash]))
  }

  /** A node moves on to its pending state if and only if the secret it is sent opens the hash
      it knows for that number and a hash comes with it; it answers with its own secret for
      the state it left. With nothing pending it answers, again and unchanged, only to the
      very secret it took last. */
  lemma RevTakenIff(v: Node, r: Revoke, env: Env)
    requires v.wait.None?
    ensures var (w, reply) := Handle(v, ReqRev(r), env);
            var opens := r.revokedN in v.ch.hashes && HashPreimage(r.secret) == v.ch.hashes[r.revokedN];
            var held := r.revokedN in v.ch.secrets && v.ch.secrets[r.revokedN] == r.secret;
            var again := v.ch.cur.n == r.revokedN + 1 && held;
            && (reply.OkRev? <==> if v.ch.pending.Some? then opens && r.nextHash.Size() == 128 else again)
            && (!reply.OkRev? ==> reply.Refused? && w == v)
            && (reply.OkRev? && v.ch.pending.Some? ==>
                  && w == MovedOn(v, r) && reply.revoke.revokedN == v.ch.cur.n
                  && reply.revoke.secret == v.ch.cfg.RevSecretAt(v.ch.cur.n)
                  && reply.revoke.nextHash == v.ch.cfg.RevHash(v.ch.cur.n + 2))
            && (reply.OkRev? && v.ch.pending.None? ==>
                  w == v && reply.revoke == Revoke(r.revokedN, v.ch.cfg.RevSecretAt(r.revokedN),
                                                   v.ch.cfg.RevHash(r.revokedN + 2)))
  {
  }

  // ---------------------------------------------------------------------- conflicts

  /** The node without what it had under way, all of it still known. */
  function GaveWay(v: Node): Node {
    var c := v.ch.(pending := None, sigPending := None, abandoned := v.ch.abandoned + Pending(v) + Proposed(v));
    if v.phase == Upd then v.(ch := c, phase := Idle, out := None, settle := NotHex("")) else v.(ch := c)
  }

  function Pending(v: Node): seq<State> { if v.ch.pending.Some? then [v.ch.pending.value] else [] }

  function Proposed(v: Node): seq<State> { if v.phase == Upd && v.out.Some? then [v.out.value] else [] }

  /** When two proposals meet, A keeps its own and refuses; B gives its own up and deals with
      A's as if it had been at rest. Nobody proposes to a node that waits for a revocation. */
  lemma ConflictRule(v: Node, m: Request, env: Env)
    requires v.wait.None? && m.ReqUpd? && v.ch.pending != Some(m.next)
    requires v.ch.pending.None? ==> v.ch.sigPending.None?
    ensures v.ch.cfg.isA && (v.ch.pending.Some? || v.phase == Upd) ==>
            Handle(v, m, env) == (v, Refused(ConflictingPending))
    ensures v.phase == Rev && (v.ch.pending.None? || !v.ch.cfg.isA) ==>
            Handle(v, m, env) == (GaveWay(v), Refused(AwaitingRevocation))
    ensures !v.ch.cfg.isA && v.phase != Rev ==> Handle(v, m, env) == Handle(GaveWay(v), m, env)
  {
    hide AcceptUpd;
    YieldsTo(v);
  }

  lemma YieldsTo(v: Node)
    requires v.ch.pending.None? ==> v.ch.sigPending.None?
    ensures GaveWay(v) == AbandonOut(if v.ch.pending.Some? then v.(ch := DropPending(v.ch)) else v)
    ensures AbandonOut(GaveWay(v)) == GaveWay(v)
  {
    assert v.ch.abandoned + [] == v.ch.abandoned;
    assert v.ch.abandoned + Pending(v) + [] == v.ch.abandoned + Pending(v);
  }

  // ------------------------------------------------------------------------ repeats

  /** A request that is sent again because its reply was lost gets the same reply, and
      changes nothing more. */
  lemma UpdRepeats(v: Node, m: Request, env: Env, env': Env)
    requires m.ReqUpd? && v.ch.sigCur.Some? && Handle(v, m, env).1.OkSig?
    ensures var (w, r) := Handle(v, m, env); Handle(w, m, env') == (w, r) && w.ch.pending == Some(m.next)
  {
    hide Classify, CommitmentTx, ValidateNext, Verifies;
  }

  lemma RevRepeats(v: Node, r: Revoke, env: Env, env': Env)
    requires v.ch.pending.Some? && v.ch.pending.value.n == v.ch.cur.n + 1 && r.revokedN == v.ch.cur.n
    requires Handle(v, ReqRev(r), env).1.OkRev?
    ensures var (w, reply) := Handle(v, ReqRev(r), env);
            && Handle(w, ReqRev(r), env') == (w, reply) && w.ch.cur == v.ch.pending.value
            && reply.revoke.revokedN == v.ch.cur.n
  {
  }

  /** A pending state is given up on an ABORT for its number, and on no other; what is given
      up stays known. */
  lemma AbortDrops(v: Node, n: nat, env: Env)
    requires v.wait.None?
    ensures var (w, r) := Handle(v, ReqAbort(n), env);
            && r == OkNumber(v.ch.cur.n) && w.ch.cur == v.ch.cur
            && (if v.ch.pending.Some? && v.ch.pending.value.n == n then
                  w.ch.pending.None? && w.ch.abandoned == v.ch.abandoned + [v.ch.pending.value]
                else w == v)
  {
  }

  /** A rollback gives up both the proposal and the pending state, and keeps both known. */
  lemma RollbackClears(v: Node)
    ensures var w := Rollback(v);
            && w.ch.pending.None? && w.ch.cur == v.ch.cur && w.phase == (if v.phase == Upd then Idle else v.phase)
            && (v.phase == Upd ==> w.out.None?) && (v.phase == Upd && v.out.Some? ==> v.out.value in w.ch.abandoned)
            && (v.ch.pending.Some? ==> v.ch.pending.value in w.ch.abandoned)
            && (forall s :: s in v.ch.abandoned ==> s in w.ch.abandoned)
  {
  }

  /** A SYNC answer makes the receiver give up its pending state exactly if the peer is idle
      at the same number. */
  lemma SyncDrops(v: Node)
    requires v.sync.Some?
    ensures var w := SyncAnswer(v);
            && w.sync.None? && w.ch.cur == v.ch.cur
            && (if v.sync.value == (v.ch.cur.n, true) then w.ch.pending.None? else w.ch == v.ch)
            && (v.ch.pending.Some? && w.ch.pending.None? ==> v.ch.pending.value in w.ch.abandoned)
  {
  }
}
