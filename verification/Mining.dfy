/** The miner's side of a staked block: choosing votes and paying the coinbase. */
module Mining {
  import opened Basics
  import opened Seqs
  import opened Emission
  import opened Ledger
  import opened Chain
  import opened ChainRun
  import opened LedgerKeys
  import Staking

  // --------------------------------------------------------------------------- votes

  function TipHash(r: Rules, s: State): string {
    if s.blocks == [] then "" else r.headerHash(s.blocks[|s.blocks| - 1].header)
  }

  function SelectedNow(r: Rules, s: State): seq<string> {
    if Height(s) + 1 < r.stakeFrom then [] else SelectedAt(r, s, Height(s), TipHash(r, s))
  }

  /** A vote the node would use: on the tip, from a selected ticket, signed. */
  predicate Usable(r: Rules, s: State, v: Vote) {
    v.height == Height(s) && v.hash == TipHash(r, s) && v.ticket in SelectedNow(r, s) && VoteSigned(r, s, v)
  }

  lemma {:induction false} Pigeonhole(ids: seq<string>, pool: seq<string>)
    requires Distinct(ids) && forall i :: 0 <= i < |ids| ==> ids[i] in pool
    ensures |ids| <= |pool|
    decreases |ids|
  {
    if ids != [] {
      var n := |ids| - 1;
      var k :| 0 <= k < |pool| && pool[k] == ids[n];
      var rest := pool[..k] + pool[k + 1..];
      forall i | 0 <= i < n ensures ids[..n][i] in rest {
        var m :| 0 <= m < |pool| && pool[m] == ids[i];
        assert m != k;
        assert pool[m] == if m < k then rest[m] else rest[m - 1];
      }
      Pigeonhole(ids[..n], rest);
    }
  }

  lemma VotersSnoc(vs: seq<Vote>, v: Vote)
    requires Distinct(VoterIds(vs)) && v.ticket !in VoterIds(vs)
    ensures Distinct(VoterIds(vs + [v]))
  {
    var ids := VoterIds(vs + [v]);
    assert forall i :: 0 <= i < |vs| ==> ids[i] == VoterIds(vs)[i];
  }

  /** The votes a block may carry: all of them valid together, and none left out while
      there is room. */
  method UsableVotes(r: Rules, s: State, pool: seq<Vote>) returns (out: seq<Vote>)
    ensures Height(s) + 1 >= r.stakeFrom ==>
            VotesOk(r, s, out, Height(s), TipHash(r, s), SelectedAt(r, s, Height(s), TipHash(r, s)))
    ensures Height(s) + 1 < r.stakeFrom ==> out == []
    ensures forall v :: v in out ==> v in pool && v.approve
    ensures |out| < r.votesPerBlock ==> forall v :: v in pool && v.approve && Usable(r, s, v) ==>
            v.ticket in VoterIds(out)
  {
    hide SelectedAt, VoteSigned;
    out := [];
    var used: set<string> := {};
    var i := 0;
    while i < |pool|
      invariant i <= |pool| && used == (set t | t in VoterIds(out))
      invariant Distinct(VoterIds(out)) && forall v :: v in out ==> v in pool && v.approve && Usable(r, s, v)
      invariant forall v :: v in pool[..i] && v.approve && Usable(r, s, v) ==> v.ticket in VoterIds(out)
    {
      var v := pool[i];
      assert pool[..i + 1] == pool[..i] + [v];
      if v.approve && v.ticket !in used && Usable(r, s, v) {
        VotersSnoc(out, v);
        IdsSnoc(out, v);
        used := used + {v.ticket};
        out := out + [v];
        if |out| >= r.votesPerBlock { break; }
      }
      i := i + 1;
    }
    assert i == |pool| ==> pool[..i] == pool;
    Enough(r, s, out);
  }

  lemma IdsSnoc(vs: seq<Vote>, v: Vote)
    ensures VoterIds(vs + [v]) == VoterIds(vs) + [v.ticket]
  {
  }

  lemma Enough(r: Rules, s: State, out: seq<Vote>)
    requires Distinct(VoterIds(out)) && forall v :: v in out ==> Usable(r, s, v)
    ensures |out| <= |SelectedNow(r, s)|
  {
    hide SelectedNow, VoteSigned;
    forall i | 0 <= i < |VoterIds(out)| ensures VoterIds(out)[i] in SelectedNow(r, s) { assert out[i] in out; }
    Pigeonhole(VoterIds(out), SelectedNow(r, s));
  }

  /** The node uses a vote if and only if the validator of the next block would take it. */
  lemma UsableIff(r: Rules, s: State, v: Vote)
    ensures Usable(r, s, v) <==>
            && Height(s) + 1 >= r.stakeFrom
            && VotesOk(r, s, [v], Height(s), TipHash(r, s), SelectedAt(r, s, Height(s), TipHash(r, s)))
  {
    hide SelectedAt, VoteSigned, Height, TipHash;
    assert v in [v];
  }

  // ------------------------------------------------------------------------- coinbase

  /** The approving votes. */
  function Approvals(vs: seq<Vote>): seq<Vote> {
    if vs == [] then [] else Approvals(vs[..|vs| - 1]) + if vs[|vs| - 1].approve then [vs[|vs| - 1]] else []
  }

  predicate Known(s: State, vs: seq<Vote>) { forall v :: v in vs ==> v.ticket in s.tickets }

  function Owners(s: State, vs: seq<Vote>): seq<string>
    requires Known(s, vs)
  {
    seq(|vs|, i requires 0 <= i < |vs| => assert vs[i] in vs; s.tickets[vs[i].ticket].owner)
  }

  /** With every ticket known, the owners paid are the ones the validator expects. */
  lemma {:induction false} OwnersAre(s: State, vs: seq<Vote>)
    requires Known(s, vs)
    ensures Known(s, Approvals(vs)) && Owners(s, Approvals(vs)) == Approvers(s, vs)
  {
    if vs != [] {
      var front, v := vs[..|vs| - 1], vs[|vs| - 1];
      OwnersAre(s, front);
      assert v in vs;
      if v.approve {
        assert Owners(s, Approvals(front) + [v]) == Owners(s, Approvals(front)) + [s.tickets[v.ticket].owner];
      }
    }
  }

  function StakerOutputs(owners: seq<string>, per: nat): seq<Output> {
    seq(|owners|, i requires 0 <= i < |owners| => Output(owners[i], per))
  }

  /** The coinbase outputs: the miner's share, if any, then one output per approving vote. */
  function CoinbaseOutputs(reward: string, pot: nat, owners: seq<string>, per: nat): seq<Output>
    requires per * |owners| <= pot
  {
    (if pot - per * |owners| > 0 then [Output(reward, pot - per * |owners|)] else [])
    + if per > 0 then StakerOutputs(owners, per) else []
  }

  lemma {:induction false} PaidSum(a: seq<Output>, b: seq<Output>)
    ensures Paid(a + b) == Paid(a) + Paid(b)
    decreases |b|
  {
    if b == [] { assert a + b == a; }
    else {
      PaidSum(a, b[..|b| - 1]);
      assert (a + b)[..|a + b| - 1] == a + b[..|b| - 1];
    }
  }

  lemma {:induction false} PaidStakers(owners: seq<string>, per: nat)
    ensures Paid(StakerOutputs(owners, per)) == per * |owners|
    decreases |owners|
  {
    if owners != [] {
      var n := |owners| - 1;
      PaidStakers(owners[..n], per);
      assert StakerOutputs(owners, per)[..n] == StakerOutputs(owners[..n], per);
      assert per * |owners| == per * n + per;
    } else {
      assert StakerOutputs(owners, per) == [];
    }
  }

  lemma CoinbasePaysPot(reward: string, pot: nat, owners: seq<string>, per: nat)
    requires per * |owners| <= pot
    ensures Paid(CoinbaseOutputs(reward, pot, owners, per)) == pot
  {
    var rest := pot - per * |owners|;
    var first := if rest > 0 then [Output(reward, rest)] else [];
    var last := if per > 0 then StakerOutputs(owners, per) else [];
    PaidSum(first, last);
    PaidStakers(owners, per);
    assert first[..0] == [] && Paid([]) == 0;
    assert Paid(first) == rest;
    assert per == 0 ==> per * |owners| == 0;
  }

  predicate VotesRequired(r: Rules, s: State) {
    Height(s) + 1 >= r.stakeFrom && |EligibleAt(r, s, Height(s))| >= r.minLive
  }

  /** The block with the given coinbase outputs on the current tip. */
  function Template(r: Rules, s: State, outs: seq<Output>, txs: seq<Tx>, vs: seq<Vote>, es: seq<Evidence>,
      now: nat): Block {
    var h := Height(s) + 1;
    var b := Block(Header(h, TipHash(r, s), now, 0, s.target, ""), [Tx([], outs, "", "", "", 0, h, "")] + txs, vs, es);
    b.(header := b.header.(root := r.commitment(b)))
  }

  /** The block the miner assembles, or nothing for want of votes or for a vote whose ticket
      it does not know. Before staking starts votes and evidence are dropped. */
  function Mined(r: Rules, s: State, reward: string, txs: seq<Tx>, votes: seq<Vote>, slashes: seq<Evidence>,
      now: nat): Option<Block> {
    var active := Height(s) + 1 >= r.stakeFrom;
    var vs, es := if active then votes else [], if active then slashes else [];
    var approvals, pot := Approvals(vs), Pot(r, s, Height(s) + 1, txs);
    var per := Staking.PerVote(pot, r.rewardBps, |approvals|);
    Staking.RewardsFit(pot, r.rewardBps, |approvals|);
    if VotesRequired(r, s) && |approvals| < r.quorum then None
    else if per == 0 then Some(Template(r, s, CoinbaseOutputs(reward, pot, [], 0), txs, vs, es, now))
    else if !Known(s, approvals) then None
    else Some(Template(r, s, CoinbaseOutputs(reward, pot, Owners(s, approvals), per), txs, vs, es, now))
  }

  /** The transactions a miner may include, and a pot that fits 64 bits. */
  predicate Minable(r: Rules, s: State, txs: seq<Tx>) {
    && (forall tx :: tx in txs ==> tx.inputs != [] || tx.shielded != "")
    && Subsidy(r.schedule, Height(s) + 1) + Fees(txs) <= MAX64
  }

  lemma PotExact(r: Rules, s: State, txs: seq<Tx>)
    requires Minable(r, s, txs)
    ensures Pot(r, s, Height(s) + 1, txs) == MaxMintable(r.schedule, Height(s) + 1, s.emitted) + Fees(txs) <= MAX64
  {
    hide W, Subsidy;
    var m := MaxMintable(r.schedule, Height(s) + 1, s.emitted);
    WSmall(Fees(txs));
    WSmall(m + Fees(txs));
  }

  /** The votes and evidence satisfy the validator's rules for the next block. */
  predicate Collected(r: Rules, s: State, votes: seq<Vote>, slashes: seq<Evidence>) {
    && VotesOk(r, s, votes, Height(s), TipHash(r, s), SelectedAt(r, s, Height(s), TipHash(r, s)))
    && (forall e :: e in slashes ==> SlashOk(r, s, e)) && Distinct(SlashedIds(slashes))
  }

  /** For valid votes, in a state whose tickets are keyed, the miner gives up only for want
      of a quorum; the block it builds passes every staking and supply rule and pays out
      exactly mintable subsidy plus fees. */
  lemma MinedFrom(r: Rules, s: State, reward: string, txs: seq<Tx>, votes: seq<Vote>, slashes: seq<Evidence>, now: nat)
    requires Minable(r, s, txs) && reward != "" && Collected(r, s, votes, slashes) && Keyed(s) && NoEmptyKey(r)
    ensures var m := Mined(r, s, reward, txs, votes, slashes, now);
            && (m.None? <==> VotesRequired(r, s) && |Approvals(votes)| < r.quorum)
            && (m.Some? ==>
                  && m.value.txs != [] && StakingOk(r, s, m.value) && CoinbaseOk(r, s, m.value)
                  && Paid(m.value.txs[0].outputs) == MaxMintable(r.schedule, m.value.header.height, s.emitted) +
                       Fees(txs))
  {
    hide Pot, MaxMintable, Subsidy, Approvers, Staking.PerVote, CoinbaseOutputs, OutputsOk, Approvals, Owners,
        EligibleAt;
    hide VotesOk, SlashOk, Distinct, CoinbaseOk, RewardsOk, SelectedAt, Known, Keyed, NoEmptyKey;
    var active := Height(s) + 1 >= r.stakeFrom;
    var vs := if active then votes else [];
    KnownVotes(r, s, votes, Height(s), TipHash(r, s), SelectedAt(r, s, Height(s), TipHash(r, s)));
    KnownNone(s);
    OwnersAre(s, vs);
    NoApprovals(s);
    VotersNamed(r, s, votes);
    var pot := Pot(r, s, Height(s) + 1, txs);
    var m := Mined(r, s, reward, txs, votes, slashes, now);
    SameCount(s, Approvals(vs));
    if m.Some? {
      var per := Staking.PerVote(pot, r.rewardBps, |Approvals(vs)|);
      Staking.RewardsFit(pot, r.rewardBps, |Approvals(vs)|);
      var owners := if per == 0 then [] else Approvers(s, vs);
      PaidCoinbaseOk(r, s, reward, txs, m.value, owners, per, pot);
    }
  }

  /** In every reachable state, for valid votes and no fee overflow: the block the miner
      builds always passes the validator's staking and supply rules. */
  lemma MinedBlockOk(r: Rules, es: seq<Event>, reward: string, txs: seq<Tx>, votes: seq<Vote>, slashes: seq<Evidence>,
      now: nat)
    requires NoEmptyKey(r) && reward != ""
    requires Minable(r, Run(r, es), txs) && Collected(r, Run(r, es), votes, slashes)
    ensures var s := Run(r, es);
            var m := Mined(r, s, reward, txs, votes, slashes, now);
            && (m.None? <==> VotesRequired(r, s) && |Approvals(votes)| < r.quorum)
            && (m.Some? ==>
                  && m.value.txs != [] && StakingOk(r, s, m.value) && CoinbaseOk(r, s, m.value)
                  && Paid(m.value.txs[0].outputs) == MaxMintable(r.schedule, m.value.header.height, s.emitted) +
                       Fees(txs))
  {
    hide Run, Mined, Minable, Collected, StakingOk, CoinbaseOk, MaxMintable, NoEmptyKey, VotesRequired, Approvals;
    RunKeyed(r, es);
    MinedFrom(r, Run(r, es), reward, txs, votes, slashes, now);
  }

  lemma SameCount(s: State, vs: seq<Vote>)
    requires Known(s, vs)
    ensures |Owners(s, vs)| == |vs|
  {
  }

  lemma KnownVotes(r: Rules, s: State, vs: seq<Vote>, height: nat, hash: string, selected: seq<string>)
    requires VotesOk(r, s, vs, height, hash, selected)
    ensures Known(s, vs) && forall v :: v in vs ==> VoteSigned(r, s, v)
  {
    hide Distinct;
    forall v | v in vs ensures v.ticket in s.tickets { assert VoteSigned(r, s, v); }
  }

  lemma KnownNone(s: State)
    ensures Known(s, [])
  {
  }

  lemma NoApprovals(s: State)
    ensures Approvals([]) == [] && Approvers(s, []) == []
  {
  }

  /** A coinbase laid out for `owners` at `per` each out of the exact pot. */
  lemma PaidCoinbaseOk(r: Rules, s: State, reward: string, txs: seq<Tx>, b: Block, owners: seq<string>, per: nat,
      pot: nat)
    requires Minable(r, s, txs) && reward != "" && b.header.height == Height(s) + 1 &&
             pot == Pot(r, s, Height(s) + 1, txs)
    requires per * |owners| <= pot &&
             b.txs == [Tx([], CoinbaseOutputs(reward, pot, owners, per), "", "", "", 0, Height(s) + 1, "")] + txs
    ensures CoinbaseOk(r, s, b) <==> per == 0 || "" !in owners
    ensures Paid(b.txs[0].outputs) == MaxMintable(r.schedule, b.header.height, s.emitted) + Fees(txs)
    ensures per == Staking.PerVote(pot, r.rewardBps, |owners|) ==> RewardsOk(r, s, b, owners)
    ensures forall os :: Staking.PerVote(pot, r.rewardBps, |os|) == 0 ==> RewardsOk(r, s, b, os)
  {
    hide Pot, MaxMintable, Subsidy, Staking.PerVote, CoinbaseOutputs, OutputsOk;
    assert b.txs[1..] == txs;
    PotExact(r, s, txs);
    MintableBelow(r.schedule, b.header.height, s.emitted);
    CoinbasePaysPot(reward, pot, owners, per);
    CoinbaseLayout(reward, pot, owners, per);
  }

  lemma MintableBelow(sch: Schedule, h: nat, e: nat)
    ensures MaxMintable(sch, h, e) <= Subsidy(sch, h)
  {
    hide Subsidy;
  }

  /** A first part of at most the miner's output, then one output per approver. */
  lemma LayoutOf(first: seq<Output>, owners: seq<string>, per: nat)
    requires per > 0 && forall o :: o in first ==> o.to != "" && o.amount > 0
    ensures var outs := first + StakerOutputs(owners, per);
            && RewardsPaid(outs, owners, per)
            && ((forall o :: o in outs ==> o.to != "" && o.amount > 0) <==> "" !in owners)
  {
    var last := StakerOutputs(owners, per);
    var outs := first + last;
    if "" in owners {
      var k :| 0 <= k < |owners| && owners[k] == "";
      assert outs[|first| + k] == last[k] && last[k].to == "";
    } else {
      forall o | o in last ensures o.to != "" && o.amount > 0 {
        var i :| 0 <= i < |last| && last[i] == o;
        assert owners[i] in owners;
      }
    }
  }

  /** The shape of the coinbase the miner builds. */
  lemma CoinbaseLayout(reward: string, pot: nat, owners: seq<string>, per: nat)
    requires per * |owners| <= pot <= MAX64 && reward != ""
    ensures var outs := CoinbaseOutputs(reward, pot, owners, per);
            && (OutputsOk(outs) <==> per == 0 || "" !in owners)
            && (per > 0 ==> RewardsPaid(outs, owners, per))
            && (outs == [] ==> pot == 0)
  {
    hide StakerOutputs, Paid, RewardsPaid;
    CoinbasePaysPot(reward, pot, owners, per);
    var rest := pot - per * |owners|;
    var first := if rest > 0 then [Output(reward, rest)] else [];
    if per > 0 { LayoutOf(first, owners, per); } else { assert first + [] == first; }
    NoneLeft(pot, owners, per);
    if CoinbaseOutputs(reward, pot, owners, per) == [] { StakersMany(owners, per); }
  }

  lemma StakersMany(owners: seq<string>, per: nat)
    ensures |StakerOutputs(owners, per)| == |owners|
  {
  }

  lemma NoneLeft(pot: nat, owners: seq<string>, per: nat)
    requires per * |owners| <= pot
    ensures pot - per * |owners| == 0 && (per == 0 || owners == []) ==> pot == 0
  {
  }
}
