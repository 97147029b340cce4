/** Blocks and reorganisations. */
module Chain {
  import opened Basics
  import opened Seqs
  import opened Sums
  import opened Text
  import opened Emission
  import opened Ledger
  import opened LedgerInvariant
  import Staking

  // ------------------------------------------------------------------ stake votes

  lemma {:induction false} LeastExists(ks: set<string>) returns (k: string)
    requires ks != {}
    ensures k in ks && forall j :: j in ks ==> j == k || Less(k, j)
    decreases |ks|
  {
    var x :| x in ks;
    var rest := ks - {x};
    if rest == {} {
      k := x;
      assert forall j :: j in ks ==> j == x || j in rest;
    } else {
      k := LeastExists(rest);
      LessTotal(x, k);
      if Less(x, k) {
        forall j | j in ks && j != x ensures Less(x, j) {
          assert j in rest;
          if j != k { LessTrans(x, k, j); }
        }
        k := x;
      }
    }
  }

  /** The first key in the order of a sorted map. */
  function Least(ks: set<string>): (k: string)
    requires ks != {}
    ensures k in ks
  {
    assert exists k :: k in ks && forall j :: j in ks ==> j == k || Less(k, j) by { var k := LeastExists(ks); }
    assert forall k, m :: k in ks && m in ks && Less(k, m) ==> !Less(m, k) by {
      forall k, m | k in ks && m in ks && Less(k, m) ensures !Less(m, k) { LessTotal(k, m); }
    }
    var k :| k in ks && forall j :: j in ks ==> j == k || Less(k, j);
    k
  }

  /** Tickets in the order of their ids. */
  function InOrder(m: map<string, Staking.Ticket>): seq<Staking.Ticket>
    decreases |m.Keys|
  {
    if m == map[] then []
    else
      var k := Least(m.Keys);
      assert (m - {k}).Keys == m.Keys - {k};
      [m[k]] + InOrder(m - {k})
  }

  function Mature(ts: seq<Staking.Ticket>, r: Rules, height: nat): seq<Staking.Ticket> {
    if ts == [] then []
    else (if ts[0].lockHeight + r.maturity <= height then [ts[0]] else []) + Mature(ts[1..], r, height)
  }

  function EligibleAt(r: Rules, s: State, height: nat): seq<Staking.Ticket> { Mature(InOrder(s.tickets), r, height) }

  function TicketPubkey(s: State, t: Staking.Ticket): string {
    if t.pubkey == "" && t.owner in s.registry then s.registry[t.owner] else t.pubkey
  }

  predicate VoteSigned(r: Rules, s: State, v: Vote) {
    v.ticket in s.tickets && r.voteOk(TicketPubkey(s, s.tickets[v.ticket]), v)
  }

  predicate SlashOk(r: Rules, s: State, e: Evidence) {
    && e.a.ticket == e.b.ticket && e.a.height == e.b.height && !(e.a.hash == e.b.hash && e.a.approve == e.b.approve)
    && VoteSigned(r, s, e.a) && VoteSigned(r, s, e.b)
  }

  function SlashedIds(es: seq<Evidence>): seq<string> { seq(|es|, i requires 0 <= i < |es| => es[i].a.ticket) }

  function VoterIds(vs: seq<Vote>): seq<string> { seq(|vs|, i requires 0 <= i < |vs| => vs[i].ticket) }

  predicate VotesOk(r: Rules, s: State, vs: seq<Vote>, height: nat, hash: string, selected: seq<string>) {
    && |vs| <= |selected| && Distinct(VoterIds(vs))
    && forall v :: v in vs ==> v.height == height && v.hash == hash && v.ticket in selected && VoteSigned(r, s, v)
  }

  /** The owners of the approving votes, in vote order. */
  function Approvers(s: State, vs: seq<Vote>): seq<string> {
    if vs == [] then []
    else
      var v := vs[|vs| - 1];
      Approvers(s, vs[..|vs| - 1]) + if v.approve && v.ticket in s.tickets then [s.tickets[v.ticket].owner] else []
  }

  /** The pot the stakers share in, in 64 bits. */
  function Pot(r: Rules, s: State, h: nat, txs: seq<Tx>): nat {
    W(MaxMintable(r.schedule, h, s.emitted) + W(Fees(txs)))
  }

  /** The last outputs of the coinbase pay each approver the same share. */
  predicate RewardsPaid(outs: seq<Output>, owners: seq<string>, per: nat) {
    && |outs| >= |owners|
    && forall k :: 0 <= k < |owners| ==> outs[|outs| - |owners| + k] == Output(owners[k], per)
  }

  predicate RewardsOk(r: Rules, s: State, b: Block, owners: seq<string>)
    requires b.txs != []
  {
    var per := Staking.PerVote(Pot(r, s, b.header.height, b.txs[1..]), r.rewardBps, |owners|);
    owners != [] && per > 0 ==> RewardsPaid(b.txs[0].outputs, owners, per)
  }

  function SelectedAt(r: Rules, s: State, height: nat, hash: string): seq<string> {
    Staking.Selected(EligibleAt(r, s, height), n => r.draw(hash, n), r.votesPerBlock)
  }

  predicate StakingOk(r: Rules, s: State, b: Block)
    requires b.txs != []
  {
    var h, owners := b.header.height, Approvers(s, b.votes);
    if h < r.stakeFrom then b.votes == [] && b.slashes == []
    else
      && (forall e :: e in b.slashes ==> SlashOk(r, s, e)) && Distinct(SlashedIds(b.slashes))
      && VotesOk(r, s, b.votes, Less0(h, 1), b.header.previous, SelectedAt(r, s, Less0(h, 1), b.header.previous))
      && (|EligibleAt(r, s, Less0(h, 1))| >= r.minLive ==> |owners| >= r.quorum)
      && RewardsOk(r, s, b, owners)
  }

  // -------------------------------------------------------------------- adding a block

  predicate BlockOk(r: Rules, s: State, b: Block, timely: bool) {
    HeaderOk(r, s, b, timely) && TxsOk(r, s, b) && StakingOk(r, s, b)
  }

  /** Adding a block. A transaction that fails restores what was saved; the three later
      refusals restore nothing. */
  function AddBlock(r: Rules, s: State, b: Block, timely: bool): (State, bool) {
    if !BlockOk(r, s, b, timely) then (s, false)
    else
      var p := ApplyAll(r, s, b.txs);
      if p.None? then (s, false)
      else
        var fees := Fees(b.txs[1..]);
        if fees > MAX64 then (p.value, false)
        else
          var t := Slash(p.value.(fees := fees), b.slashes);
          if Paid(b.txs[0].outputs) > MAX64 ||
              Minted(b) > MaxMintable(r.schedule, b.header.height, t.emitted) then (t, false)
          else (Seal(r, t.(emitted := t.emitted + Minted(b)), b), true)
  }

  function AddAll(r: Rules, s: State, bs: seq<Block>, timely: Block -> bool): (State, bool) {
    if bs == [] then (s, true)
    else
      var p := AddAll(r, s, bs[..|bs| - 1], timely);
      if !p.1 then p else AddBlock(r, p.0, bs[|bs| - 1], timely(bs[|bs| - 1]))
  }

  /** Replacing the chain by a heavier one; every refusal restores what was saved. */
  function Replace(r: Rules, s: State, candidate: seq<Block>, timely: Block -> bool): (State, bool) {
    if candidate == [] || s.blocks == [] ||
        r.headerHash(candidate[0].header) != r.headerHash(s.blocks[0].header) then (s, false)
    else
      var p := AddAll(r, Reset(r), candidate[1..], timely);
      if !p.1 || p.0.work <= s.work then (s, false) else p
  }

  // ------------------------------------------------------------- effects of one block

  lemma {:induction false} SlashFacts(s: State, es: seq<Evidence>)
    ensures var t := Slash(s, es);
            && t.blocks == s.blocks && t.emitted == s.emitted && t.seen == s.seen && t.work == s.work &&
                 t.fees == s.fees
            && t.target == s.target
            && Coins(t.utxos, None) + t.slashed == Coins(s.utxos, None) + s.slashed
            && (Covers(s) ==> Covers(t)) && (Exact(s) ==> Exact(t))
    decreases |es|
  {
    hide Coins, Covers, Exact;
    if es != [] {
      SlashFacts(s, es[..|es| - 1]);
      var p, k := Slash(s, es[..|es| - 1]), es[|es| - 1].a.ticket;
      if k in p.tickets {
        if Exact(p) { TicketIsLive(p, k); }
        if k in p.utxos && !p.utxos[k].spent {
          SpendOneCoins(p, k);
          if Covers(p) { SpendOneCovers(p, k); CoversFrame(SpendOne(p, k), Slash(s, es)); }
          if Exact(p) { SpendOneExact(p, k); ExactFrame(SpendOne(p, k), Slash(s, es)); }
        } else if Covers(p) {
          CoversFrame(p, Slash(s, es));
        }
      }
    }
  }

  lemma TicketIsLive(s: State, k: string)
    requires Exact(s) && k in s.tickets
    ensures k in s.utxos && !s.utxos[k].spent
  {
    hide Coins;
    assert IsTicket(s, k);
  }

  lemma ExactFrame(s: State, t: State)
    requires Exact(s) && s.utxos == t.utxos && s.index == t.index && s.tickets == t.tickets && s.seen == t.seen
    ensures Exact(t)
  {
    hide Coins;
    forall k ensures k in t.tickets <==> IsTicket(t, k) { assert k in s.tickets <==> IsTicket(s, k); }
    forall k | k in t.utxos ensures Known(t, k) { KnownFrame(s, t, k); }
  }

  function Inflows(r: Rules, txs: seq<Tx>): int {
    if txs == [] then 0 else Inflows(r, txs[..|txs| - 1]) + Inflow(r, txs[|txs| - 1])
  }

  function Txids(r: Rules, txs: seq<Tx>): seq<string> { seq(|txs|, i requires 0 <= i < |txs| => r.txid(txs[i])) }

  predicate Fresh(r: Rules, s: State, txs: seq<Tx>) {
    Distinct(Txids(r, txs)) && forall tx :: tx in txs ==> r.txid(tx) !in s.seen
  }

  /** Only the first transaction is a coinbase. */
  predicate OneCoinbase(txs: seq<Tx>) {
    && txs != [] && txs[0].inputs == [] && txs[0].shielded == ""
    && forall i :: 1 <= i < |txs| ==> txs[i].inputs != [] || txs[i].shielded != ""
  }

  /** Applying a block creates its coinbase and destroys its fees. */
  lemma {:induction false} ApplyAllFacts(r: Rules, s: State, txs: seq<Tx>)
    requires ApplyAll(r, s, txs).Some? && OneCoinbase(txs)
    ensures var t := ApplyAll(r, s, txs).value;
            && t.blocks == s.blocks && t.emitted == s.emitted && t.slashed == s.slashed && t.work == s.work &&
                 t.target == s.target
            && t.seen == s.seen + (set tx | tx in txs :: r.txid(tx))
            && Coins(t.utxos, None) + Fees(txs[1..]) + Inflows(r, txs) <= Coins(s.utxos, None) + Paid(txs[0].outputs)
            && (Covers(s) ==> Covers(t)) && (Exact(s) && Fresh(r, s, txs) ==> Exact(t))
    decreases |txs|
  {
    hide Coins, Covers, Exact, ApplyTx, Inflow, Paid, Fresh;
    var n := |txs| - 1;
    var front, last := txs[..n], txs[n];
    SeenStep(r, txs);
    if n == 0 {
      assert front == [] && txs[1..] == [];
      ApplyTxFacts(r, s, last);
      NoInflow(r, last);
      if Exact(s) && Fresh(r, s, txs) { FreshSplit(r, s, txs); }
    } else {
      assert OneCoinbase(front);
      ApplyAllFacts(r, s, front);
      var p := ApplyAll(r, s, front).value;
      ApplyTxFacts(r, p, last);
      assert txs[1..][..n - 1] == front[1..] && txs[1..][n - 1] == last;
      if Exact(s) && Fresh(r, s, txs) { FreshSplit(r, s, txs); }
    }
  }

  lemma NoInflow(r: Rules, tx: Tx)
    requires tx.shielded == ""
    ensures Inflow(r, tx) == 0
  {
  }

  lemma SeenStep(r: Rules, txs: seq<Tx>)
    requires txs != []
    ensures (set tx | tx in txs :: r.txid(tx)) == (set tx | tx in txs[..|txs| - 1] :: r.txid(tx)) +
            {r.txid(txs[|txs| - 1])}
  {
    assert txs == txs[..|txs| - 1] + [txs[|txs| - 1]];
  }

  lemma FreshSplit(r: Rules, s: State, txs: seq<Tx>)
    requires Fresh(r, s, txs) && txs != []
    ensures Fresh(r, s, txs[..|txs| - 1])
    ensures r.txid(txs[|txs| - 1]) !in s.seen + (set tx | tx in txs[..|txs| - 1] :: r.txid(tx))
  {
    var n := |txs| - 1;
    var front, ids := txs[..n], Txids(r, txs);
    assert forall i :: 0 <= i < n ==> Txids(r, front)[i] == ids[i];
    forall tx | tx in front ensures r.txid(tx) != r.txid(txs[n]) && tx in txs {
      var i :| 0 <= i < n && front[i] == tx;
      assert ids[i] == r.txid(tx) && ids[n] == r.txid(txs[n]);
    }
    assert txs[n] in txs;
  }

  lemma CoinbaseShape(r: Rules, s: State, b: Block)
    requires CoinbaseOk(r, s, b)
    ensures b.txs != [] && OneCoinbase(b.txs) && Fees(b.txs[1..]) <= MAX64 && Paid(b.txs[0].outputs) <= MAX64
    ensures Minted(b) <= MaxMintable(r.schedule, b.header.height, s.emitted)
    ensures Paid(b.txs[0].outputs) <= Minted(b) + Fees(b.txs[1..])
  {
    hide Fees, Paid, MaxMintable, Subsidy;
  }

  /** A block that passed validation cannot be refused after it was applied, so a refused
      block leaves no trace. */
  lemma AddBlockAllOrNothing(r: Rules, s: State, b: Block, timely: bool)
    ensures var t := AddBlock(r, s, b, timely);
            && (!t.1 ==> t.0 == s)
            && (t.1 <==> BlockOk(r, s, b, timely) && ApplyAll(r, s, b.txs).Some?)
            && (t.1 ==> t.0.blocks == s.blocks + [b])
  {
    hide HeaderOk, StakingOk, CoinbaseOk, ShieldedBlockOk, SnapAll, SignaturesOk, ApplyAll, Minted, MaxMintable, Slash,
        Paid, Fees, OneCoinbase;
    if BlockOk(r, s, b, timely) && ApplyAll(r, s, b.txs).Some? {
      CoinbaseShape(r, s, b);
      ApplyAllFacts(r, s, b.txs);
      SlashFacts(ApplyAll(r, s, b.txs).value.(fees := Fees(b.txs[1..])), b.slashes);
    }
  }
}
