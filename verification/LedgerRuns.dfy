/** Concrete runs: what the laws about all runs leave possible. */
module LedgerRuns {
  import opened Basics
  import opened Seqs
  import opened Sums
  import opened Text
  import opened Emission
  import opened Ledger
  import opened LedgerInvariant
  import opened Chain
  import opened ChainRun
  import opened LedgerRepeat

  /** A coinbase that does not name its height, and rules under which it may be mined; the
      transaction ids and the header hashes are arbitrary. */
  const REWARD: Tx := Tx([], [Output("a", 10)], "", "", "", 0, 0, "")

  function Plain(txid: Tx -> string, hash: Header -> string): Rules {
    Rules(Schedule(100, 10, 1000, 0), 0, 0, false, false, false, 1, 1, 1, 0, 1, 1000, 0, 0, 0, 0, 0, "genesis", 0, 0,
          txid, hash, (b: Block) => "root", (b: Block) => 0, (h: string, t: nat) => true, (p: string) => None,
          (tx: Tx) => false, (a: string, k: string) => false, (k: string, tx: Tx) => false,
          (o: string, u: string, tx: Tx, h: nat, c: nat) => false, (k: string, v: Vote) => false,
          (h: string, n: nat) => 0, (bs: seq<Block>, t: nat) => 1)
  }

  /** The block after `tip` with nothing but that coinbase. */
  function Rewarding(r: Rules, tip: Header): Block {
    Block(Header(tip.height + 1, r.headerHash(tip), 0, 0, 1, "root"), [REWARD], [], [])
  }

  /** A chain on which the next such block is acceptable. */
  predicate Early(s: State) {
    && s.blocks != [] && Height(s) < 5 && s.blocks[|s.blocks| - 1].header.timestamp == 0
    && s.target == 1 && s.emitted <= 50 && Get(s.index, "a") <= 50
  }

  function Rewarded(s: State, k: string): State {
    s.(utxos := s.utxos[k := Utxo("a", 10, false, 0, Height(s) + 1)], index := s.index["a" := Get(s.index, "a") + 10])
  }

  lemma RewardPaid()
    ensures Paid(REWARD.outputs) == 10 && OutputsOk(REWARD.outputs)
  {
    assert REWARD.outputs[..0] == [];
    assert Paid([]) == 0;
  }

  lemma RewardMintable(e: nat, h: nat)
    requires e <= 50 && h < 10
    ensures Subsidy(Schedule(100, 10, 1000, 0), h) == 10 && MaxMintable(Schedule(100, 10, 1000, 0), h, e) == 10
  {
    assert Halved(10, 0) == 10;
  }

  lemma RewardCreated(r: Rules, s: State)
    requires Early(s)
    ensures Create(r, s, REWARD, r.txid(REWARD), 1, false) == Some(Rewarded(s, Outpoint(r.txid(REWARD), 0)))
  {
    assert Create(r, s, REWARD, r.txid(REWARD), 0, false) == Some(s);
  }

  lemma RewardApplies(r: Rules, s: State)
    requires Early(s)
    ensures var t := Rewarded(s, Outpoint(r.txid(REWARD), 0));
            && ApplyAll(r, s, [REWARD]) == Some(t.(seen := t.seen + {r.txid(REWARD)}))
            && SnapAll(r, s, [REWARD], 10, Height(s) + 1) == Some(t)
  {
    hide Create, Outpoint, Paid, OutputsOk;
    RewardPaid();
    RewardCreated(r, s);
    assert [REWARD][..0] == [];
    assert ApplyAll(r, s, []) == Some(s) && SnapAll(r, s, [], 10, Height(s) + 1) == Some(s);
    assert Spend(s, []) == Some((s, false)) && Worth(s.utxos, []) == 0;
  }

  lemma RewardBlockOk(txid: Tx -> string, hash: Header -> string, s: State)
    requires Early(s)
    ensures var r := Plain(txid, hash); BlockOk(r, s, Rewarding(r, s.blocks[|s.blocks| - 1].header), true)
  {
    hide Paid, OutputsOk, SnapAll, ApplyAll, Subsidy, MaxMintable, Outpoint;
    var r := Plain(txid, hash);
    var b := Rewarding(r, s.blocks[|s.blocks| - 1].header);
    RewardPaid();
    RewardMintable(s.emitted, Height(s) + 1);
    RewardApplies(r, s);
    assert b.txs[1..] == [];
    assert Commitments(r, []) == [] && Fees([]) == 0 && Approvers(s, []) == [];
  }

  /** The block is accepted, and its output takes the place of an earlier one of the same
      name. */
  lemma RewardAdded(txid: Tx -> string, hash: Header -> string, s: State)
    requires Early(s)
    ensures var r := Plain(txid, hash);
            var b := Rewarding(r, s.blocks[|s.blocks| - 1].header);
            var (t, k) := (AddBlock(r, s, b, true), Outpoint(txid(REWARD), 0));
            && t.1 && t.0.blocks == s.blocks + [b] && t.0.target == 1 && t.0.emitted == s.emitted + 10
            && t.0.utxos == Rewarded(s, k).utxos && t.0.index == Rewarded(s, k).index
  {
    hide Paid, OutputsOk, ApplyAll, BlockOk, MaxMintable, Outpoint, W, WorkFor;
    var r := Plain(txid, hash);
    var b := Rewarding(r, s.blocks[|s.blocks| - 1].header);
    RewardBlockOk(txid, hash, s);
    RewardApplies(r, s);
    RewardPaid();
    RewardMintable(s.emitted, Height(s) + 1);
    assert b.txs[1..] == [] && Fees([]) == 0;
  }

  /** Two blocks with the same coinbase are both accepted, and the index then shows twice
      the coins there are: whatever the transaction ids are, equal transactions have equal
      ones. */
  lemma SameCoinbaseTwice(txid: Tx -> string, hash: Header -> string)
    ensures var r := Plain(txid, hash);
            var b := Rewarding(r, Genesis(r).header);
            var c := Rewarding(r, b.header);
            var s := Run(r, [NewBlock(b, true), NewBlock(c, true)]);
            && s.blocks == [Genesis(r), b, c] && !CleanChain(r, s.blocks)
            && Get(s.index, "a") == 20 && Coins(s.utxos, Some("a")) == Coins(s.utxos, None) == 10 && s.emitted == 20
  {
    hide AddBlock, Outpoint, CleanChain, Coins;
    var r, k := Plain(txid, hash), Outpoint(txid(REWARD), 0);
    var b := Rewarding(r, Genesis(r).header);
    var c := Rewarding(r, b.header);
    var e, f := NewBlock(b, true), NewBlock(c, true);
    assert [e, f][..1] == [e] && [e][..0] == [];
    assert Run(r, []) == Reset(r);
    assert Run(r, [e]) == Step(r, Reset(r), e);
    assert Run(r, [e, f]) == Step(r, Run(r, [e]), f);
    RewardAdded(txid, hash, Reset(r));
    RewardAdded(txid, hash, Run(r, [e]));
    var s := Run(r, [e, f]);
    assert s.utxos == map[k := Utxo("a", 10, false, 0, 2)];
    NoCoins(Some("a"));
    NoCoins(None);
    CoinsUpdate(map[], k, s.utxos[k], Some("a"));
    CoinsUpdate(map[], k, s.utxos[k], None);
    BooksExactIff(r, [e, f]);
  }

  /** Once the work of a chain passes 2^64, a chain with less work replaces it: at target 1
      two blocks count for less than one. */
  lemma LessWorkWins(txid: Tx -> string, hash: Header -> string, clock: Block -> bool)
    ensures var r := Plain(txid, hash);
            var long := Run(r, [NewBlock(Rewarding(r, Genesis(r).header), true)]);
            var short := Run(r, [NewBlock(Rewarding(r, Genesis(r).header), true), NewChain([Genesis(r)], clock)]);
            && |long.blocks| == 2 && short.blocks == [Genesis(r)]
            && TotalWork(short.blocks) == MAX64 && TotalWork(long.blocks) == 2 * MAX64
  {
    hide AddBlock;
    var r := Plain(txid, hash);
    var g := Genesis(r);
    var b := Rewarding(r, g.header);
    var e, f := NewBlock(b, true), NewChain([g], clock);
    assert [e, f][..1] == [e] && [e][..0] == [] && [g][1..] == [];
    assert Run(r, []) == Reset(r);
    assert Run(r, [e]) == Step(r, Reset(r), e);
    assert Run(r, [e, f]) == Step(r, Run(r, [e]), f);
    RewardAdded(txid, hash, Reset(r));
    OneBlockWork([g]);
    assert [g, b][..1] == [g] && TotalWork([g, b]) == TotalWork([g]) + WorkFor(1);
    RunReplays(r, [e]);
    ReplayHeaders(r, [g, b]);
    assert AddAll(r, Reset(r), [], clock) == (Reset(r), true);
  }
}
