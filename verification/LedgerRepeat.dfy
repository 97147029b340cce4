/** What a repeated transaction id does to the balance index: exactly when the index stays
    the true balance of every address, over every chain. */
module LedgerRepeat {
  import opened Basics
  import opened Seqs
  import opened Sums
  import opened Text
  import opened Emission
  import opened Ledger
  import opened LedgerInvariant
  import opened Chain
  import opened ChainRun

  /** The index is the balance of every address. */
  ghost predicate Even(s: State) { forall o :: Coins(s.utxos, Some(o)) == Get(s.index, o) }

  /** An output named `k` would take the place of coins that can still be spent. */
  predicate Replaces(s: State, k: string) { k in s.utxos && !s.utxos[k].spent && s.utxos[k].amount > 0 }

  // ----------------------------------------------------------- no output replaces coins

  predicate CleanCreate(r: Rules, s: State, tx: Tx, txid: string, n: nat, unlocking: bool)
    requires n <= |tx.outputs|
  {
    n > 0 ==>
      && CleanCreate(r, s, tx, txid, n - 1, unlocking)
      && var p := Create(r, s, tx, txid, n - 1, unlocking);
         p.Some? ==> !Replaces(p.value, Outpoint(txid, n - 1))
  }

  predicate CleanTx(r: Rules, s: State, tx: Tx) {
    var p := Spend(s, tx.inputs);
    p.Some? ==> CleanCreate(r, p.value.0, tx, r.txid(tx), |tx.outputs|, p.value.1)
  }

  predicate CleanAll(r: Rules, s: State, txs: seq<Tx>) {
    txs != [] ==>
      && CleanAll(r, s, txs[..|txs| - 1])
      && var p := ApplyAll(r, s, txs[..|txs| - 1]);
         p.Some? ==> CleanTx(r, p.value, txs[|txs| - 1])
  }

  /** No block of the list creates an output that replaces unspent coins. */
  predicate CleanChain(r: Rules, bs: seq<Block>) {
    |bs| > 1 ==> CleanChain(r, bs[..|bs| - 1]) && CleanAll(r, Replay(r, bs[..|bs| - 1]), bs[|bs| - 1].txs)
  }

  // -------------------------------------------------------------------- single outputs

  /** By how much the index overstates `o`. */
  ghost function Over(s: State, o: string): int { Get(s.index, o) - Coins(s.utxos, Some(o)) }

  lemma EvenIsNone(s: State)
    ensures Even(s) <==> forall o :: Over(s, o) == 0
  {
    hide Coins;
    if Even(s) {
      forall o ensures Over(s, o) == 0 { assert Coins(s.utxos, Some(o)) == Get(s.index, o); }
    }
    if forall o :: Over(s, o) == 0 {
      forall o ensures Coins(s.utxos, Some(o)) == Get(s.index, o) { assert Over(s, o) == 0; }
    }
  }

  lemma CoversIsOver(s: State)
    requires Covers(s)
    ensures forall o :: Over(s, o) >= 0
  {
    hide Coins;
    forall o ensures Over(s, o) >= 0 { assert Coins(s.utxos, Some(o)) <= Get(s.index, o); }
  }

  lemma SameOver(s: State, t: State)
    requires forall o :: Over(t, o) == Over(s, o)
    ensures Even(t) <==> Even(s)
  {
    hide Over, Even;
    EvenIsNone(s);
    EvenIsNone(t);
    if Even(s) { forall o ensures Over(t, o) == 0 { assert Over(s, o) == 0; } }
    if Even(t) { forall o ensures Over(s, o) == 0 { assert Over(t, o) == 0; } }
  }

  lemma SpendOneEven(s: State, k: string)
    requires Covers(s) && k in s.utxos && !s.utxos[k].spent
    ensures Even(SpendOne(s, k)) <==> Even(s)
  {
    hide Coins, Even;
    var u, t := s.utxos[k], SpendOne(s, k);
    SpendOneCovers(s, k);
    forall o ensures Over(t, o) == Over(s, o) { CoinsUpdate(s.utxos, k, u.(spent := true), Some(o)); }
    SameOver(s, t);
  }

  /** A new output adds to the excess of an owner the coins it replaces. */
  lemma CreateOneOver(r: Rules, s: State, tx: Tx, txid: string, i: nat, unlocking: bool, o: string)
    requires i < |tx.outputs|
    ensures var k := Outpoint(txid, i);
            Over(CreateOne(r, s, tx, txid, i, unlocking), o) ==
                Over(s, o) + if k in s.utxos then Value(s.utxos[k], Some(o)) else 0
  {
    hide Coins, TicketKey, Outpoint;
    var t, k := CreateOne(r, s, tx, txid, i, unlocking), Outpoint(txid, i);
    CoinsUpdate(s.utxos, k, t.utxos[k], Some(o));
  }

  /** An output leaves the index exact if and only if it was exact and the output does not
      replace one that is still unspent: this is why transaction ids must not repeat. */
  lemma CreateOneExactIff(r: Rules, s: State, tx: Tx, txid: string, i: nat, unlocking: bool)
    requires i < |tx.outputs| && Covers(s)
    ensures Even(CreateOne(r, s, tx, txid, i, unlocking)) <==> Even(s) && !Replaces(s, Outpoint(txid, i))
  {
    hide Over, Even, Covers, CreateOne, Outpoint;
    var t, k := CreateOne(r, s, tx, txid, i, unlocking), Outpoint(txid, i);
    CoversIsOver(s);
    EvenIsNone(s);
    EvenIsNone(t);
    if Even(t) {
      forall o ensures Over(s, o) == 0 { CreateOneOver(r, s, tx, txid, i, unlocking, o); assert Over(t, o) == 0; }
      if k in s.utxos {
        CreateOneOver(r, s, tx, txid, i, unlocking, s.utxos[k].owner);
        assert Over(t, s.utxos[k].owner) == 0;
      }
    }
    if Even(s) && !Replaces(s, k) {
      forall o ensures Over(t, o) == 0 { CreateOneOver(r, s, tx, txid, i, unlocking, o); assert Over(s, o) == 0; }
    }
  }

  lemma EvenFrame(s: State, t: State)
    requires s.utxos == t.utxos && s.index == t.index
    ensures Even(t) <==> Even(s)
  {
    hide Coins;
  }

  // ---------------------------------------------------------------- transactions, blocks

  lemma {:induction false} SpendEven(s: State, ins: seq<Input>)
    requires Covers(s) && Spend(s, ins).Some?
    ensures Covers(Spend(s, ins).value.0) && (Even(Spend(s, ins).value.0) <==> Even(s))
    decreases |ins|
  {
    hide Even, Covers, SpendOne;
    if ins != [] {
      SpendEven(s, ins[..|ins| - 1]);
      var p, k := Spend(s, ins[..|ins| - 1]).value.0, Key(ins[|ins| - 1]);
      SpendOneCovers(p, k);
      SpendOneEven(p, k);
    }
  }

  lemma {:induction false} CreateEven(r: Rules, s: State, tx: Tx, txid: string, n: nat, unlocking: bool)
    requires n <= |tx.outputs| && Covers(s) && Create(r, s, tx, txid, n, unlocking).Some?
    ensures var t := Create(r, s, tx, txid, n, unlocking).value;
            Covers(t) && (Even(t) <==> Even(s) && CleanCreate(r, s, tx, txid, n, unlocking))
  {
    hide Even, Covers, CreateOne, Replaces;
    if n > 0 {
      CreateEven(r, s, tx, txid, n - 1, unlocking);
      var p := Create(r, s, tx, txid, n - 1, unlocking).value;
      CreateOneCoins(r, p, tx, txid, n - 1, unlocking);
      CreateOneExactIff(r, p, tx, txid, n - 1, unlocking);
    }
  }

  lemma ApplyTxEven(r: Rules, s: State, tx: Tx)
    requires Covers(s) && ApplyTx(r, s, tx).Some?
    ensures var t := ApplyTx(r, s, tx).value; Covers(t) && (Even(t) <==> Even(s) && CleanTx(r, s, tx))
  {
    hide Even, Covers, ValidTx, Spend, Create, CleanCreate;
    var p := Spend(s, tx.inputs).value;
    var q := Create(r, p.0, tx, r.txid(tx), |tx.outputs|, p.1).value;
    SpendEven(s, tx.inputs);
    CreateEven(r, p.0, tx, r.txid(tx), |tx.outputs|, p.1);
    CoversFrame(q, ApplyTx(r, s, tx).value);
    EvenFrame(q, ApplyTx(r, s, tx).value);
  }

  lemma {:induction false} ApplyAllEven(r: Rules, s: State, txs: seq<Tx>)
    requires Covers(s) && ApplyAll(r, s, txs).Some?
    ensures var t := ApplyAll(r, s, txs).value; Covers(t) && (Even(t) <==> Even(s) && CleanAll(r, s, txs))
    decreases |txs|
  {
    hide Even, Covers, ApplyTx, CleanTx;
    if txs != [] {
      ApplyAllEven(r, s, txs[..|txs| - 1]);
      ApplyTxEven(r, ApplyAll(r, s, txs[..|txs| - 1]).value, txs[|txs| - 1]);
    }
  }

  lemma SlashOneEven(s: State, k: string)
    requires Covers(s)
    ensures Covers(SlashOne(s, k)) && (Even(SlashOne(s, k)) <==> Even(s))
  {
    hide Even, Covers, SpendOne;
    var t := SlashOne(s, k);
    if k in s.tickets && k in s.utxos && !s.utxos[k].spent {
      SpendOneCovers(s, k);
      SpendOneEven(s, k);
      CoversFrame(SpendOne(s, k), t);
      EvenFrame(SpendOne(s, k), t);
    } else {
      CoversFrame(s, t);
      EvenFrame(s, t);
    }
  }

  lemma {:induction false} SlashEven(s: State, es: seq<Evidence>)
    requires Covers(s)
    ensures Covers(Slash(s, es)) && (Even(Slash(s, es)) <==> Even(s))
    decreases |es|
  {
    hide Even, Covers, SlashOne;
    if es != [] {
      SlashEven(s, es[..|es| - 1]);
      SlashOneEven(Slash(s, es[..|es| - 1]), es[|es| - 1].a.ticket);
    }
  }

  lemma AddBlockEven(r: Rules, s: State, b: Block)
    requires Covers(s) && AddBlock(r, s, b, true).1
    ensures Even(AddBlock(r, s, b, true).0) <==> Even(s) && CleanAll(r, s, b.txs)
  {
    hide Even, Covers, AddBlock, CoinbaseOk, ApplyAll, Slash, Fees, CleanAll, Minted;
    AddBlockShape(r, s, b, true);
    var p := ApplyAll(r, s, b.txs).value;
    var q := p.(fees := Fees(b.txs[1..]));
    ApplyAllEven(r, s, b.txs);
    CoversFrame(p, q);
    EvenFrame(p, q);
    SlashEven(q, b.slashes);
    EvenFrame(Slash(q, b.slashes), AddBlock(r, s, b, true).0);
  }

  // ------------------------------------------------------------------- the main theorems

  /** The index is exact after a chain if and only if none of its outputs replaced coins
      that could still be spent. */
  lemma {:induction false} ReplayEven(r: Rules, bs: seq<Block>)
    requires Accepted(r, bs)
    ensures Even(Replay(r, bs)) <==> CleanChain(r, bs)
  {
    hide Even, Solvent, AddBlock, CleanAll, Exact;
    if |bs| == 1 {
      SolventReset(r);
      ExactIsEven(Reset(r));
    } else {
      var front := bs[..|bs| - 1];
      ReplayEven(r, front);
      ReplayCovers(r, front);
      AddBlockEven(r, Replay(r, front), bs[|bs| - 1]);
    }
  }

  lemma ExactIsEven(s: State)
    requires Exact(s)
    ensures Even(s)
  {
    hide Coins;
  }

  lemma ReplayCovers(r: Rules, bs: seq<Block>)
    requires Accepted(r, bs)
    ensures Covers(Replay(r, bs))
  {
    hide Replay, Accepted, Covers, Coins, Emitted;
    ReplaySolvent(r, bs);
  }

  /** The same over every run of blocks and reorganisations. */
  lemma BooksExactIff(r: Rules, es: seq<Event>)
    ensures var s := Run(r, es);
            (forall o :: Coins(s.utxos, Some(o)) == Get(s.index, o)) <==> CleanChain(r, s.blocks)
  {
    hide Run, Coins, Replay, Accepted, CleanChain;
    RunReplays(r, es);
    ReplayEven(r, Run(r, es).blocks);
  }
}
