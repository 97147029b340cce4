/** Every run of blocks and reorganisations. */
module ChainRun {
  import opened Basics
  import opened Seqs
  import opened Sums
  import opened Emission
  import opened Ledger
  import opened LedgerInvariant
  import opened Chain

  datatype Event = NewBlock(block: Block, timely: bool) | NewChain(candidate: seq<Block>, clock: Block -> bool)

  function Step(r: Rules, s: State, e: Event): State {
    match e
    case NewBlock(b, timely) => AddBlock(r, s, b, timely).0
    case NewChain(candidate, clock) => Replace(r, s, candidate, clock).0
  }

  function Run(r: Rules, es: seq<Event>): State {
    if es == [] then Reset(r) else Step(r, Run(r, es[..|es| - 1]), es[|es| - 1])
  }

  // ------------------------------------------------------------------------ replay

  /** The state that the block list alone determines. */
  function Replay(r: Rules, bs: seq<Block>): State {
    if |bs| <= 1 then Reset(r) else AddBlock(r, Replay(r, bs[..|bs| - 1]), bs[|bs| - 1], true).0
  }

  /** Each block was acceptable where it stands. */
  predicate Accepted(r: Rules, bs: seq<Block>) {
    && |bs| >= 1 && bs[0] == Genesis(r)
    && (|bs| > 1 ==> Accepted(r, bs[..|bs| - 1]) && AddBlock(r, Replay(r, bs[..|bs| - 1]), bs[|bs| - 1], true).1)
  }

  ghost predicate Replays(r: Rules, s: State) { Accepted(r, s.blocks) && s == Replay(r, s.blocks) }

  /** The clock only ever refuses a block: it does not change what an accepted one does. */
  lemma ClockOnlyRefuses(r: Rules, s: State, b: Block, timely: bool)
    requires AddBlock(r, s, b, timely).1
    ensures AddBlock(r, s, b, true) == AddBlock(r, s, b, timely)
  {
    hide TxsOk, StakingOk, ApplyAll, Slash, Seal, Minted, MaxMintable;
  }

  lemma AddBlockReplays(r: Rules, s: State, b: Block, timely: bool)
    requires Replays(r, s)
    ensures Replays(r, AddBlock(r, s, b, timely).0)
  {
    hide AddBlock, BlockOk;
    AddBlockAllOrNothing(r, s, b, timely);
    var t := AddBlock(r, s, b, timely);
    if t.1 {
      ClockOnlyRefuses(r, s, b, timely);
      var bs := s.blocks + [b];
      assert bs[..|bs| - 1] == s.blocks && bs[|bs| - 1] == b && bs[0] == s.blocks[0];
    }
  }

  lemma {:induction false} AddAllReplays(r: Rules, s: State, bs: seq<Block>, clock: Block -> bool)
    requires Replays(r, s)
    ensures Replays(r, AddAll(r, s, bs, clock).0)
    decreases |bs|
  {
    hide Replays, AddBlock;
    if bs != [] {
      AddAllReplays(r, s, bs[..|bs| - 1], clock);
      var p := AddAll(r, s, bs[..|bs| - 1], clock);
      if p.1 { AddBlockReplays(r, p.0, bs[|bs| - 1], clock(bs[|bs| - 1])); }
    }
  }

  lemma ResetReplays(r: Rules)
    ensures Replays(r, Reset(r))
  {
  }

  /** A refused chain changes nothing; an accepted one has strictly more work and is the
      replay of its own blocks. */
  lemma ReplaceAllOrNothing(r: Rules, s: State, candidate: seq<Block>, clock: Block -> bool)
    requires Replays(r, s)
    ensures var t := Replace(r, s, candidate, clock);
            && (!t.1 ==> t.0 == s) && (t.1 ==> t.0.work > s.work) && Replays(r, t.0)
            && (t.1 ==> t.0.blocks == [Genesis(r)] + candidate[1..])
  {
    hide Replays, AddAll, Reset;
    ResetReplays(r);
    ResetBlocks(r);
    if candidate != [] {
      AddAllReplays(r, Reset(r), candidate[1..], clock);
      AddAllBlocks(r, Reset(r), candidate[1..], clock);
    }
  }

  lemma ResetBlocks(r: Rules)
    ensures Reset(r).blocks == [Genesis(r)]
  {
  }

  lemma {:induction false} AddAllBlocks(r: Rules, s: State, bs: seq<Block>, clock: Block -> bool)
    ensures AddAll(r, s, bs, clock).1 ==> AddAll(r, s, bs, clock).0.blocks == s.blocks + bs
    decreases |bs|
  {
    hide AddBlock, BlockOk, ApplyAll;
    if bs != [] {
      var front, b := bs[..|bs| - 1], bs[|bs| - 1];
      AddAllBlocks(r, s, front, clock);
      AddBlockAllOrNothing(r, AddAll(r, s, front, clock).0, b, clock(b));
      assert bs == front + [b];
    }
  }

  /** Every reachable state is the replay of its block list. */
  lemma {:induction false} RunReplays(r: Rules, es: seq<Event>)
    ensures Replays(r, Run(r, es))
  {
    hide Replays, AddBlock, Replace;
    if es == [] {
      ResetReplays(r);
    } else {
      RunReplays(r, es[..|es| - 1]);
      match es[|es| - 1]
      case NewBlock(b, timely) => AddBlockReplays(r, Run(r, es[..|es| - 1]), b, timely);
      case NewChain(candidate, clock) => ReplaceAllOrNothing(r, Run(r, es[..|es| - 1]), candidate, clock);
    }
  }

  // ------------------------------------------------------------------------ headers

  /** The work of a block list, not reduced. */
  function TotalWork(bs: seq<Block>): nat {
    if bs == [] then 0 else TotalWork(bs[..|bs| - 1]) + WorkFor(bs[|bs| - 1].header.target)
  }

  /** Each block names its parent by hash, is one higher, no earlier, and within the target
      bounds, with a hash that meets its target. */
  predicate LinkedAt(r: Rules, bs: seq<Block>, i: nat)
    requires 0 < i < |bs|
  {
    var h, p := bs[i].header, bs[i - 1].header;
    && h.previous == r.headerHash(p) && h.height == p.height + 1 && h.timestamp >= p.timestamp &&
         h.root == r.commitment(bs[i])
    && r.minTarget <= h.target <= r.maxTarget && r.meets(r.headerHash(h), h.target)
  }

  predicate Linked(r: Rules, bs: seq<Block>) { forall i :: 0 < i < |bs| ==> LinkedAt(r, bs, i) }

  lemma AddBlockHeader(r: Rules, s: State, b: Block)
    requires AddBlock(r, s, b, true).1
    ensures HeaderOk(r, s, b, true) && AddBlock(r, s, b, true).0.work == W(s.work + WorkFor(b.header.target))
  {
    hide TxsOk, StakingOk, ApplyAll, Slash, Minted, MaxMintable, W, WorkFor, HeaderOk;
    if ApplyAll(r, s, b.txs).Some? { AppliedWork(r, s, b); }
  }

  lemma AppliedWork(r: Rules, s: State, b: Block)
    requires BlockOk(r, s, b, true) && ApplyAll(r, s, b.txs).Some?
    ensures b.txs != [] && Slash(ApplyAll(r, s, b.txs).value.(fees := Fees(b.txs[1..])), b.slashes).work == s.work
  {
    hide HeaderOk, StakingOk, ShieldedBlockOk, SnapAll, SignaturesOk, CoinbaseOk, ApplyAll, Slash, Fees, OneCoinbase;
    CoinbaseShape(r, s, b);
    ApplyAllFacts(r, s, b.txs);
    SlashFacts(ApplyAll(r, s, b.txs).value.(fees := Fees(b.txs[1..])), b.slashes);
  }

  lemma WAdd(x: nat, y: nat)
    ensures W(W(x) + y) == W(x + y)
  {
  }

  /** Every accepted block list is a hash-linked chain of blocks with valid work, and the
      work compared in a reorganisation is the sum over its blocks, in 64 bits. */
  lemma {:induction false} ReplayHeaders(r: Rules, bs: seq<Block>)
    requires Accepted(r, bs)
    ensures Linked(r, bs) && Replay(r, bs).work == W(TotalWork(bs)) && Replay(r, bs).blocks == bs
  {
    hide AddBlock, LinkedAt, W, WorkFor, HeaderOk, TotalWork, BlockOk, ApplyAll;
    if |bs| == 1 {
      GenesisWork(r, bs);
      OneBlockWork(bs);
    } else {
      var front, b := bs[..|bs| - 1], bs[|bs| - 1];
      var s := Replay(r, front);
      ReplayHeaders(r, front);
      AddBlockHeader(r, s, b);
      AddBlockAllOrNothing(r, s, b, true);
      assert bs == front + [b];
      MoreWork(bs);
      LinkedMore(r, s, bs);
    }
  }

  /** An accepted reorganisation adds work if and only if the sum of its work passed 2^64
      at least as often as the old one: always, as long as neither did. */
  lemma ReplaceWorkGrows(r: Rules, s: State, candidate: seq<Block>, clock: Block -> bool)
    requires Replays(r, s) && Replace(r, s, candidate, clock).1
    ensures var was, now := TotalWork(s.blocks), TotalWork(Replace(r, s, candidate, clock).0.blocks);
            && (now > was <==> now / TWO64 >= was / TWO64)
            && (was < TWO64 ==> now > was)
  {
    hide Replay, Accepted, Replace, TotalWork;
    ReplaceAllOrNothing(r, s, candidate, clock);
    ReplayHeaders(r, s.blocks);
    ReplayHeaders(r, Replace(r, s, candidate, clock).0.blocks);
  }

  lemma MoreWork(bs: seq<Block>)
    requires |bs| > 1
    ensures W(W(TotalWork(bs[..|bs| - 1])) + WorkFor(bs[|bs| - 1].header.target)) == W(TotalWork(bs))
  {
    hide W, WorkFor;
    WAdd(TotalWork(bs[..|bs| - 1]), WorkFor(bs[|bs| - 1].header.target));
  }

  lemma LinkedMore(r: Rules, s: State, bs: seq<Block>)
    requires |bs| > 1 && Linked(r, bs[..|bs| - 1]) && s.blocks == bs[..|bs| - 1] && HeaderOk(r, s, bs[|bs| - 1], true)
    ensures Linked(r, bs)
  {
    hide LinkedAt, HeaderOk;
    forall i | 0 < i < |bs| ensures LinkedAt(r, bs, i) {
      if i < |bs| - 1 { LinkedPrefix(r, bs, i); } else { LinkedLast(r, s, bs); }
    }
  }

  lemma LinkedPrefix(r: Rules, bs: seq<Block>, i: nat)
    requires 0 < i < |bs| - 1 && Linked(r, bs[..|bs| - 1])
    ensures LinkedAt(r, bs, i)
  {
    assert LinkedAt(r, bs[..|bs| - 1], i);
  }

  lemma LinkedLast(r: Rules, s: State, bs: seq<Block>)
    requires |bs| > 1 && s.blocks == bs[..|bs| - 1] && HeaderOk(r, s, bs[|bs| - 1], true)
    ensures LinkedAt(r, bs, |bs| - 1)
  {
  }

  lemma OneBlockWork(bs: seq<Block>)
    requires |bs| == 1
    ensures TotalWork(bs) == WorkFor(bs[0].header.target) == W(TotalWork(bs))
  {
    hide W, WorkFor;
    assert TotalWork(bs[..0]) == 0;
    WorkSmall(bs[0].header.target);
    WSmall(TotalWork(bs));
  }

  lemma GenesisWork(r: Rules, bs: seq<Block>)
    requires |bs| == 1 && bs[0] == Genesis(r)
    ensures Reset(r).work == WorkFor(bs[0].header.target) && Reset(r).blocks == bs
  {
  }

  lemma WorkSmall(t: nat)
    ensures WorkFor(t) <= MAX64
  {
  }

  // ------------------------------------------------------------------------- supply

  /** Net inflow into the shielded pool over all blocks. */
  function NetInflow(r: Rules, bs: seq<Block>): int {
    if bs == [] then 0 else NetInflow(r, bs[..|bs| - 1]) + Inflows(r, bs[|bs| - 1].txs)
  }

  /** Heights count blocks, and supply never runs ahead of the schedule. */
  ghost predicate Solvent(r: Rules, s: State) {
    && |s.blocks| >= 1 && Height(s) == |s.blocks| - 1
    && Coins(s.utxos, None) + s.slashed + NetInflow(r, s.blocks) <= s.emitted
    && s.emitted <= Emitted(r.schedule, |s.blocks| - 1)
    && Covers(s)
  }

  lemma {:induction false} ScheduleStep(sch: Schedule, h: nat, e: nat, m: nat)
    requires h > 0 && e <= Emitted(sch, h - 1) && m <= MaxMintable(sch, h, e)
    ensures e + m <= Emitted(sch, h)
  {
    hide Subsidy;
    Clipped(sch, h - 1);
    Clipped(sch, h);
  }

  lemma SolventReset(r: Rules)
    ensures Solvent(r, Reset(r)) && Exact(Reset(r))
  {
    var s := Reset(r);
    NoCoins(None);
    assert s.blocks[..0] == [] && NetInflow(r, s.blocks) == NetInflow(r, []) + Inflows(r, []);
    forall o ensures Coins(s.utxos, Some(o)) == 0 { NoCoins(Some(o)); }
  }

  lemma NoCoins(who: Option<string>)
    ensures Coins(map[], who) == 0
  {
    assert Values(map[], who) == map[];
  }

  /** What is left of `AddBlock` when it succeeds. */
  function Applied(r: Rules, s: State, b: Block): State
    requires b.txs != [] && ApplyAll(r, s, b.txs).Some?
  {
    Slash(ApplyAll(r, s, b.txs).value.(fees := Fees(b.txs[1..])), b.slashes)
  }

  lemma AddBlockShape(r: Rules, s: State, b: Block, timely: bool)
    requires AddBlock(r, s, b, timely).1
    ensures CoinbaseOk(r, s, b) && b.header.height == Height(s) + 1 && b.txs != [] && ApplyAll(r, s, b.txs).Some?
    ensures var t := Applied(r, s, b); AddBlock(r, s, b, timely).0 == Seal(r, t.(emitted := t.emitted + Minted(b)), b)
  {
    hide StakingOk, ShieldedBlockOk, SnapAll, SignaturesOk, ApplyAll, Minted, MaxMintable, Slash, Seal;
  }

  /** The books after a block, before it is put on top. */
  lemma AppliedBooks(r: Rules, s: State, b: Block)
    requires CoinbaseOk(r, s, b) && ApplyAll(r, s, b.txs).Some?
    ensures var t := Applied(r, s, b);
            && t.blocks == s.blocks && t.emitted == s.emitted
            && Coins(t.utxos, None) + t.slashed + Inflows(r, b.txs) <= Coins(s.utxos, None) + s.slashed + Minted(b)
            && (Covers(s) ==> Covers(t)) && (Exact(s) && Fresh(r, s, b.txs) ==> Exact(t))
            && t.seen == s.seen + (set tx | tx in b.txs :: r.txid(tx))
  {
    hide CoinbaseOk, ApplyAll, Minted, MaxMintable, Slash, Coins, Covers, Exact, Fresh, Fees, Paid, OneCoinbase;
    CoinbaseShape(r, s, b);
    ApplyAllFacts(r, s, b.txs);
    var p := ApplyAll(r, s, b.txs).value;
    var q := p.(fees := Fees(b.txs[1..]));
    if Covers(p) { CoversFrame(p, q); }
    if Exact(p) { ExactFrame(p, q); }
    SlashFacts(q, b.slashes);
  }

  lemma AddBlockSolvent(r: Rules, s: State, b: Block, timely: bool)
    requires Solvent(r, s) && AddBlock(r, s, b, timely).1
    ensures Solvent(r, AddBlock(r, s, b, timely).0)
    ensures Exact(s) && Fresh(r, s, b.txs) ==> Exact(AddBlock(r, s, b, timely).0)
    ensures AddBlock(r, s, b, timely).0.seen == s.seen + (set tx | tx in b.txs :: r.txid(tx))
  {
    hide AddBlock, CoinbaseOk, Applied, Coins, Covers, Exact, Fresh, MaxMintable, Emitted, Minted;
    AddBlockShape(r, s, b, timely);
    AppliedBooks(r, s, b);
    CoinbaseShape(r, s, b);
    var t := Applied(r, s, b);
    var u := AddBlock(r, s, b, timely).0;
    if Exact(t) { ExactFrame(t, u); }
    CoversFrame(t, u);
    assert u.blocks[..|u.blocks| - 1] == s.blocks;
    ScheduleStep(r.schedule, b.header.height, s.emitted, Minted(b));
  }

  lemma {:induction false} ReplaySolvent(r: Rules, bs: seq<Block>)
    requires Accepted(r, bs)
    ensures Solvent(r, Replay(r, bs)) && Replay(r, bs).blocks == bs
  {
    hide Solvent, AddBlock, BlockOk, ApplyAll;
    if |bs| == 1 {
      SolventReset(r);
    } else {
      var front := bs[..|bs| - 1];
      ReplaySolvent(r, front);
      AddBlockSolvent(r, Replay(r, front), bs[|bs| - 1], true);
      AddBlockAllOrNothing(r, Replay(r, front), bs[|bs| - 1], true);
      assert bs == front + [bs[|bs| - 1]];
    }
  }

  /** All transactions of a block list, in order. */
  function AllTxs(bs: seq<Block>): seq<Tx> { if bs == [] then [] else AllTxs(bs[..|bs| - 1]) + bs[|bs| - 1].txs }

  lemma Clash(r: Rules, front: seq<Tx>, txs: seq<Tx>, i: nat, j: nat)
    requires i < |front| && j < |txs| && r.txid(front[i]) == r.txid(txs[j])
    ensures !Distinct(Txids(r, front + txs))
  {
    var ids := Txids(r, front + txs);
    assert ids[i] == ids[|front| + j];
  }

  lemma FreshFromDistinct(r: Rules, s: State, front: seq<Tx>, txs: seq<Tx>)
    requires Distinct(Txids(r, front + txs)) && s.seen == (set tx | tx in front :: r.txid(tx))
    ensures Fresh(r, s, txs) && Distinct(Txids(r, front))
  {
    var ids := Txids(r, front + txs);
    assert forall i :: 0 <= i < |front| ==> Txids(r, front)[i] == ids[i];
    assert forall i :: 0 <= i < |txs| ==> Txids(r, txs)[i] == ids[|front| + i];
    forall tx | tx in txs ensures r.txid(tx) !in s.seen {
      if r.txid(tx) in s.seen {
        var u :| u in front && r.txid(u) == r.txid(tx);
        var i :| 0 <= i < |front| && front[i] == u;
        var j :| 0 <= j < |txs| && txs[j] == tx;
        Clash(r, front, txs, i, j);
      }
    }
  }

  /** When no transaction id repeats, the index is the exact balance of every address and
      the tickets are exactly the unspent stake outputs. */
  lemma {:induction false} ReplayExact(r: Rules, bs: seq<Block>)
    requires Accepted(r, bs) && Distinct(Txids(r, AllTxs(bs)))
    ensures Exact(Replay(r, bs)) && Replay(r, bs).seen == set tx | tx in AllTxs(bs) :: r.txid(tx)
  {
    hide Solvent, AddBlock, Exact, Fresh, Distinct;
    if |bs| == 1 {
      SolventReset(r);
      GenesisTxs(r, bs);
    } else {
      var front, b := bs[..|bs| - 1], bs[|bs| - 1];
      DistinctPrefix(r, AllTxs(front), b.txs);
      ReplayExact(r, front);
      ReplaySolvent(r, front);
      FreshFromDistinct(r, Replay(r, front), AllTxs(front), b.txs);
      AddBlockSolvent(r, Replay(r, front), b, true);
    }
  }

  lemma GenesisTxs(r: Rules, bs: seq<Block>)
    requires |bs| == 1 && bs[0] == Genesis(r)
    ensures AllTxs(bs) == [] && Reset(r).seen == {}
  {
    assert bs[..0] == [];
  }

  lemma DistinctPrefix(r: Rules, front: seq<Tx>, txs: seq<Tx>)
    requires Distinct(Txids(r, front + txs))
    ensures Distinct(Txids(r, front))
  {
    var ids := Txids(r, front + txs);
    assert forall i :: 0 <= i < |front| ==> Txids(r, front)[i] == ids[i];
  }

  // ----------------------------------------------------------------- the main theorems

  /** Over every run: unspent coins, burnt coins and the net shielded inflow together never
      exceed what was emitted, which never exceeds the schedule or the cap; and no address
      owns more than the index shows. */
  lemma SupplyBound(r: Rules, es: seq<Event>)
    ensures var s := Run(r, es);
            && Coins(s.utxos, None) + s.slashed + NetInflow(r, s.blocks) <= s.emitted
            && s.emitted <= Emitted(r.schedule, Height(s)) <= r.schedule.maxSupply
            && (forall o :: Coins(s.utxos, Some(o)) <= Get(s.index, o))
  {
    hide Run, Coins, Emitted, Replay, Accepted;
    RunReplays(r, es);
    var s := Run(r, es);
    ReplaySolvent(r, s.blocks);
    Clipped(r.schedule, Height(s));
  }

  /** Over every run in which no transaction id repeats. */
  lemma BooksExact(r: Rules, es: seq<Event>)
    requires Distinct(Txids(r, AllTxs(Run(r, es).blocks)))
    ensures var s := Run(r, es);
            && (forall o :: Coins(s.utxos, Some(o)) == Get(s.index, o))
            && (forall k :: k in s.tickets <==> k in s.utxos && !s.utxos[k].spent && s.utxos[k].owner == STAKE)
  {
    hide Run, Coins, Replay, Accepted, Distinct, Txids, AllTxs, Known;
    RunReplays(r, es);
    ReplayExact(r, Run(r, es).blocks);
    var s := Run(r, es);
    forall k ensures k in s.tickets <==> IsTicket(s, k) { }
  }
}
