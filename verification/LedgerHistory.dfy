/** What the state of the ledger says about the blocks that led to it. */
module LedgerHistory {
  import opened Basics
  import opened Seqs
  import opened Sums
  import opened Emission
  import opened Ledger
  import opened LedgerInvariant
  import opened LedgerSafety
  import opened Chain
  import opened ChainRun
  import CommitmentTree
  import Shielded

  // ---------------------------------------------------------- targets, emission and fees

  /** What a block's coinbase pays beyond the fees. */
  function MintedIn(b: Block): nat {
    if b.txs == [] then 0
    else if Paid(b.txs[0].outputs) > Fees(b.txs[1..]) then Paid(b.txs[0].outputs) - Fees(b.txs[1..]) else 0
  }

  function MintedInAll(bs: seq<Block>): nat {
    if bs == [] then 0 else MintedInAll(bs[..|bs| - 1]) + MintedIn(bs[|bs| - 1])
  }

  /** The target due after these blocks. */
  function TargetAfter(r: Rules, bs: seq<Block>): nat
    requires bs != []
  {
    if |bs| == 1 then r.initialTarget else r.retarget(bs, bs[|bs| - 1].header.target)
  }

  lemma AddBlockBooks(r: Rules, s: State, b: Block)
    requires AddBlock(r, s, b, true).1
    ensures var t := AddBlock(r, s, b, true).0;
            && t.emitted == s.emitted + MintedIn(b) && b.header.target == s.target && b.txs != []
            && t.target == r.retarget(s.blocks + [b], b.header.target) && t.fees == Fees(b.txs[1..])
            && t.blocks == s.blocks + [b]
  {
    hide AddBlock, ApplyAll, Slash, Fees, Paid, CoinbaseOk, BlockOk;
    AddBlockShape(r, s, b, true);
    AddBlockAllOrNothing(r, s, b, true);
    AddBlockHeader(r, s, b);
    CoinbaseShape(r, s, b);
    ApplyAllFacts(r, s, b.txs);
    SlashFacts(ApplyAll(r, s, b.txs).value.(fees := Fees(b.txs[1..])), b.slashes);
  }

  /** After any accepted blocks: what was emitted is what the coinbases paid beyond the fees,
      the fees are the last block's, and every block's target, like the next, is the one due
      after the blocks before it. */
  lemma {:induction false} ReplayBooks(r: Rules, bs: seq<Block>)
    requires Accepted(r, bs)
    ensures var s := Replay(r, bs);
            && s.emitted == MintedInAll(bs) && s.target == TargetAfter(r, bs) && s.blocks == bs
            && (|bs| > 1 ==> bs[|bs| - 1].txs != [] && s.fees == Fees(bs[|bs| - 1].txs[1..]))
    ensures forall i :: 1 <= i < |bs| ==> bs[i].header.target == TargetAfter(r, bs[..i])
  {
    hide AddBlock, MintedIn;
    if |bs| == 1 {
      GenesisMints(r, bs);
    } else {
      var front, b := bs[..|bs| - 1], bs[|bs| - 1];
      ReplayBooks(r, front);
      AddBlockBooks(r, Replay(r, front), b);
      assert bs == front + [b];
      forall i | 1 <= i < |bs| ensures bs[i].header.target == TargetAfter(r, bs[..i]) {
        if i < |bs| - 1 { assert front[i] == bs[i] && front[..i] == bs[..i]; }
      }
    }
  }

  lemma GenesisMints(r: Rules, bs: seq<Block>)
    requires |bs| == 1 && bs[0] == Genesis(r)
    ensures MintedInAll(bs) == 0
  {
    assert bs[..0] == [] && MintedInAll([]) == 0;
  }

  /** Over every run. */
  lemma BooksFollow(r: Rules, es: seq<Event>)
    ensures var s := Run(r, es);
            && s.blocks != [] && s.emitted == MintedInAll(s.blocks) && s.target == TargetAfter(r, s.blocks)
            && forall i :: 1 <= i < |s.blocks| ==> s.blocks[i].header.target == TargetAfter(r, s.blocks[..i])
  {
    hide Run, Replay, MintedInAll, TargetAfter;
    RunReplays(r, es);
    ReplayBooks(r, Run(r, es).blocks);
  }

  // --------------------------------------------------------------------------- slashing

  /** What the tickets named in the evidence hold, each counted once. */
  ghost function Forfeit(s: State, es: seq<Evidence>): nat {
    if es == [] then 0
    else
      var n := |es| - 1;
      Forfeit(s, es[..n]) +
      if es[n].a.ticket in s.tickets && es[n].a.ticket in s.utxos && es[n].a.ticket !in SlashedIds(es[..n])
      then s.utxos[es[n].a.ticket].amount else 0
  }

  /** The tickets in `ids` are gone and their outputs spent; all else stays. */
  predicate TookTickets(s: State, t: State, ids: seq<string>) {
    && t.tickets == s.tickets - (set k | k in ids) && t.utxos.Keys == s.utxos.Keys
    && forall k :: k in s.utxos ==>
         t.utxos[k] == if k in ids && k in s.tickets then s.utxos[k].(spent := true) else s.utxos[k]
  }

  lemma TookOne(s: State, p: State, ids: seq<string>, k: string)
    requires TookTickets(s, p, ids) && Exact(p)
    ensures TookTickets(s, SlashOne(p, k), ids + [k])
    ensures SlashOne(p, k).slashed == p.slashed +
            if k in s.tickets && k in s.utxos && k !in ids then s.utxos[k].amount else 0
  {
    hide Exact, SlashOne;
    SlashOneTakes(p, k);
    assert (set j | j in ids + [k]) == (set j | j in ids) + {k};
    assert s.tickets - (set j | j in ids) - {k} == s.tickets - (set j | j in ids + [k]);
  }

  /** From exact books, slashing takes exactly the tickets named: they are tickets no more,
      their outputs are spent, and what they held is counted as slashed; every other ticket
      and output stays. */
  lemma {:induction false} SlashTakes(s: State, es: seq<Evidence>)
    requires Exact(s)
    ensures var t := Slash(s, es);
            Exact(t) && t.slashed == s.slashed + Forfeit(s, es) && TookTickets(s, t, SlashedIds(es))
    decreases |es|
  {
    hide Exact, SlashOne, TookTickets;
    if es == [] {
      TookNone(s);
    } else {
      var n := |es| - 1;
      SlashTakes(s, es[..n]);
      SlashFacts(s, es);
      assert SlashedIds(es) == SlashedIds(es[..n]) + [es[n].a.ticket];
      TookOne(s, Slash(s, es[..n]), SlashedIds(es[..n]), es[n].a.ticket);
    }
  }

  lemma TookNone(s: State)
    ensures TookTickets(s, s, SlashedIds([]))
  {
    assert s.tickets - (set k | k in SlashedIds([])) == s.tickets;
  }

  lemma SlashOneTakes(s: State, k: string)
    requires Exact(s)
    ensures var t := SlashOne(s, k);
            && t.tickets == s.tickets - {k} && t.utxos.Keys == s.utxos.Keys
            && t.slashed == s.slashed + (if k in s.tickets && k in s.utxos then s.utxos[k].amount else 0)
            && forall j :: j in s.utxos ==>
                 t.utxos[j] == if j == k && k in s.tickets then s.utxos[j].(spent := true) else s.utxos[j]
  {
    hide Exact;
    if k in s.tickets { TicketIsLive(s, k); }
  }

  // ---------------------------------------------------------------------- the shielded pool

  function PartOf(r: Rules, tx: Tx): Option<Part> { if tx.shielded == "" then None else r.parse(tx.shielded) }

  /** All nullifiers and commitments of these transactions, in order. */
  function NullifiersOf(r: Rules, txs: seq<Tx>): seq<string> {
    if txs == [] then []
    else
      var p := PartOf(r, txs[|txs| - 1]);
      NullifiersOf(r, txs[..|txs| - 1]) + if p.Some? then p.value.bundle.nullifiers else []
  }

  function CommitmentsOf(r: Rules, txs: seq<Tx>): seq<CommitmentTree.Hash> {
    if txs == [] then []
    else
      var p := PartOf(r, txs[|txs| - 1]);
      CommitmentsOf(r, txs[..|txs| - 1]) + if p.Some? then p.value.bundle.commitments else []
  }

  /** The pool has spent exactly these transactions' nullifiers, none twice, and holds exactly
      their commitments. */
  ghost predicate PoolFollows(r: Rules, s: State, txs: seq<Tx>) {
    && Shielded.PoolInv(s.pool) && s.pool.depth == r.treeDepth
    && s.pool.spent == (set n | n in NullifiersOf(r, txs)) && Distinct(NullifiersOf(r, txs))
    && s.pool.leaves == CommitmentsOf(r, txs)
  }

  lemma ApplyTxPool(r: Rules, s: State, tx: Tx)
    requires ApplyTx(r, s, tx).Some?
    ensures var p, q := PartOf(r, tx), ApplyTx(r, s, tx).value.pool;
            && (tx.shielded == "" ==> q == s.pool)
            && (tx.shielded != "" ==>
                 && p.Some? && Shielded.Check(s.pool, p.value.bundle, {}) == Shielded.Fine
                 && q == Shielded.Apply(s.pool, p.value.bundle))
  {
    hide Spend, Create, Shielded.Check, Shielded.Apply, OutputsOk, InputsOk, Authorised, StakeOutputsOk, Balanced;
    var p := Spend(s, tx.inputs).value;
    SpendFacts(s, tx.inputs);
    CreateFacts(r, p.0, tx, r.txid(tx), |tx.outputs|, p.1);
  }

  lemma PoolStep(r: Rules, s: State, txs: seq<Tx>, tx: Tx)
    requires PoolFollows(r, s, txs) && ApplyTx(r, s, tx).Some?
    ensures PoolFollows(r, ApplyTx(r, s, tx).value, txs + [tx])
  {
    hide ApplyTx, Shielded.Check, Shielded.PoolInv, Shielded.Remember;
    ApplyTxPool(r, s, tx);
    var all := txs + [tx];
    assert all[..|txs|] == txs;
    var old_ := NullifiersOf(r, txs);
    if tx.shielded == "" {
      assert old_ + [] == old_ && CommitmentsOf(r, txs) + [] == CommitmentsOf(r, txs);
    } else {
      var b := PartOf(r, tx).value.bundle;
      Shielded.ApplyKeeps(s.pool, b);
      Shielded.FreshNullifiers(s.pool, b);
      Applied(s.pool, b);
      assert forall i :: 0 <= i < |old_| ==> old_[i] in s.pool.spent;
      assert NullifiersOf(r, all) == old_ + b.nullifiers;
    }
  }

  lemma Applied(p: Shielded.Pool, b: Shielded.Bundle)
    ensures var q := Shielded.Apply(p, b);
            && q.depth == p.depth && q.leaves == p.leaves + b.commitments
            && q.spent == p.spent + (set n | n in b.nullifiers)
  {
    hide CommitmentTree.Root;
  }

  lemma {:induction false} PoolBlock(r: Rules, s: State, past: seq<Tx>, txs: seq<Tx>)
    requires PoolFollows(r, s, past) && ApplyAll(r, s, txs).Some?
    ensures PoolFollows(r, ApplyAll(r, s, txs).value, past + txs)
    decreases |txs|
  {
    hide ApplyTx, PoolFollows;
    if txs == [] {
      assert past + txs == past;
    } else {
      var front, last := txs[..|txs| - 1], txs[|txs| - 1];
      PoolBlock(r, s, past, front);
      PoolStep(r, ApplyAll(r, s, front).value, past + front, last);
      assert past + txs == past + front + [last];
    }
  }

  lemma {:induction false} SlashPool(s: State, es: seq<Evidence>)
    ensures Slash(s, es).pool == s.pool
    decreases |es|
  {
    if es != [] { SlashPool(s, es[..|es| - 1]); }
  }

  lemma PoolFrame(r: Rules, s: State, t: State, txs: seq<Tx>)
    requires PoolFollows(r, s, txs) && t.pool == s.pool
    ensures PoolFollows(r, t, txs)
  {
    hide Shielded.PoolInv, NullifiersOf, CommitmentsOf;
  }

  lemma {:induction false} ReplayPool(r: Rules, bs: seq<Block>)
    requires Accepted(r, bs)
    ensures PoolFollows(r, Replay(r, bs), AllTxs(bs))
  {
    hide AddBlock, PoolFollows, ApplyAll, Slash, CoinbaseOk;
    if |bs| == 1 {
      GenesisTxs(r, bs);
      NoPool(r);
    } else {
      var front, b := bs[..|bs| - 1], bs[|bs| - 1];
      var s := Replay(r, front);
      ReplayPool(r, front);
      AddBlockShape(r, s, b, true);
      PoolBlock(r, s, AllTxs(front), b.txs);
      SlashPool(ApplyAll(r, s, b.txs).value.(fees := Fees(b.txs[1..])), b.slashes);
      PoolFrame(r, ApplyAll(r, s, b.txs).value, Replay(r, bs), AllTxs(bs));
    }
  }

  lemma NoPool(r: Rules)
    ensures PoolFollows(r, Reset(r), [])
  {
    hide CommitmentTree.Root, Shielded.PoolInv;
    Shielded.GenesisInv(r.treeDepth);
  }

  /** Over every run no nullifier appears twice in the chain, the pool has spent exactly those
      that appear, and its tree holds exactly the chain's commitments in order. */
  lemma NullifiersOnce(r: Rules, es: seq<Event>)
    ensures var s, txs := Run(r, es), AllTxs(Run(r, es).blocks);
            && Distinct(NullifiersOf(r, txs)) && s.pool.spent == (set n | n in NullifiersOf(r, txs))
            && s.pool.leaves == CommitmentsOf(r, txs)
  {
    hide Run, Replay, Accepted, AllTxs, NullifiersOf, CommitmentsOf, Distinct;
    RunReplays(r, es);
    ReplayPool(r, Run(r, es).blocks);
  }

  // ------------------------------------------------------------------- reorganisations

  lemma AcceptedSnoc(r: Rules, bs: seq<Block>, b: Block)
    requires |bs| >= 1
    ensures Accepted(r, bs + [b]) <==> Accepted(r, bs) && AddBlock(r, Replay(r, bs), b, true).1
    ensures Replay(r, bs + [b]) == AddBlock(r, Replay(r, bs), b, true).0
  {
    hide AddBlock;
    assert (bs + [b])[..|bs|] == bs;
  }

  lemma ClockNeeded(r: Rules, s: State, b: Block, timely: bool)
    ensures AddBlock(r, s, b, timely).1 <==> AddBlock(r, s, b, true).1 && timely
  {
    hide TxsOk, StakingOk, ApplyAll, Slash, Seal, Minted, MaxMintable;
  }

  /** Adding blocks one by one on genesis succeeds if and only if they are all in time and form
      an accepted chain with it. */
  lemma {:induction false} AddAllIff(r: Rules, bs: seq<Block>, clock: Block -> bool)
    ensures var p := AddAll(r, Reset(r), bs, clock);
            && (p.1 <==> Accepted(r, [Genesis(r)] + bs) && forall b :: b in bs ==> clock(b))
            && (p.1 ==> p.0 == Replay(r, [Genesis(r)] + bs))
    decreases |bs|
  {
    hide AddBlock;
    var g := [Genesis(r)];
    if bs == [] {
      assert g + bs == g;
    } else {
      var front, b := bs[..|bs| - 1], bs[|bs| - 1];
      AddAllIff(r, front, clock);
      assert g + bs == (g + front) + [b];
      AcceptedSnoc(r, g + front, b);
      assert bs == front + [b];
      var s := AddAll(r, Reset(r), front, clock).0;
      ClockNeeded(r, s, b, clock(b));
      if AddBlock(r, s, b, clock(b)).1 { ClockOnlyRefuses(r, s, b, clock(b)); }
    }
  }

  /** A chain replaces the current one if and only if it starts from the same genesis, its blocks
      are in time and form an accepted chain, and their work, as counted, is greater; what it
      then leaves is the replay of its blocks. */
  lemma ReplacesIff(r: Rules, s: State, candidate: seq<Block>, clock: Block -> bool)
    requires s.blocks != [] && s.blocks[0] == Genesis(r)
    ensures var t := Replace(r, s, candidate, clock);
            && (t.1 <==>
                 && candidate != [] && r.headerHash(candidate[0].header) == r.headerHash(Genesis(r).header)
                 && Accepted(r, [Genesis(r)] + candidate[1..]) && (forall b :: b in candidate[1..] ==> clock(b))
                 && W(TotalWork([Genesis(r)] + candidate[1..])) > s.work)
            && (t.1 ==> t.0 == Replay(r, [Genesis(r)] + candidate[1..])) && (!t.1 ==> t.0 == s)
  {
    hide Accepted, Replay, AddAll, Reset, TotalWork, W;
    if candidate != [] {
      AddAllIff(r, candidate[1..], clock);
      var bs := [Genesis(r)] + candidate[1..];
      if Accepted(r, bs) { ReplayHeaders(r, bs); }
    }
  }
}
