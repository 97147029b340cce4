/** What no chain ever contains: an output spent twice, or a signer's nonce used twice or
    out of order. */
module LedgerSafety {
  import opened Basics
  import opened Seqs
  import opened Text
  import opened Ledger
  import opened LedgerInvariant
  import opened Chain
  import opened ChainRun

  // ---------------------------------------------------------------------- inputs

  /** Everything the transactions spend, in order. */
  function Spent(txs: seq<Tx>): seq<string> {
    if txs == [] then [] else Spent(txs[..|txs| - 1]) + Keys(txs[|txs| - 1].inputs)
  }

  /** These outputs are all marked spent. */
  predicate Gone(s: State, ks: seq<string>) { forall k :: k in ks ==> k in s.utxos && s.utxos[k].spent }

  /** Nothing spent comes back. */
  predicate StaysSpent(s: State, t: State) {
    forall k :: k in s.utxos && s.utxos[k].spent ==> k in t.utxos && t.utxos[k].spent
  }

  lemma {:induction false} SpendMarks(s: State, ins: seq<Input>)
    requires Spend(s, ins).Some?
    ensures var t := Spend(s, ins).value.0;
            && StaysSpent(s, t) && Gone(t, Keys(ins)) && Distinct(Keys(ins))
            && forall k :: k in Keys(ins) ==> k in s.utxos && !s.utxos[k].spent
    decreases |ins|
  {
    hide Key, SpendOne, Distinct, StaysSpent;
    if ins == [] {
      NothingMarked(s);
    } else {
      var n := |ins| - 1;
      var k := Key(ins[n]);
      SpendMarks(s, ins[..n]);
      SpendFacts(s, ins[..n]);
      var p := Spend(s, ins[..n]).value.0;
      KeysSnoc(ins);
      DistinctSnoc(Keys(ins[..n]), k);
      NotBefore(s, p, k);
      SpendOneMarks(p, k);
      StaysTrans(s, p, SpendOne(p, k));
      GoneStays(p, SpendOne(p, k), Keys(ins[..n]));
    }
  }

  lemma NothingMarked(s: State)
    ensures StaysSpent(s, s) && Gone(s, Keys([])) && Distinct(Keys([])) && Keys([]) == []
  {
  }

  lemma SpendOneMarks(s: State, k: string)
    requires k in s.utxos
    ensures var t := SpendOne(s, k); StaysSpent(s, t) && k in t.utxos && t.utxos[k].spent
  {
  }

  lemma NotBefore(s: State, p: State, k: string)
    requires StaysSpent(s, p) && p.utxos.Keys == s.utxos.Keys && k in p.utxos && !p.utxos[k].spent
    ensures k in s.utxos && !s.utxos[k].spent
  {
  }

  lemma KeysSnoc(ins: seq<Input>)
    requires ins != []
    ensures Keys(ins) == Keys(ins[..|ins| - 1]) + [Key(ins[|ins| - 1])]
  {
    hide Key;
  }

  lemma {:induction false} CreateKeepsSpent(r: Rules, s: State, tx: Tx, txid: string, n: nat, unlocking: bool)
    requires n <= |tx.outputs| && Create(r, s, tx, txid, n, unlocking).Some? && ExactWith(s, txid, 0) && txid !in s.seen
    ensures StaysSpent(s, Create(r, s, tx, txid, n, unlocking).value)
  {
    hide ExactWith, CreateOne, StaysSpent;
    if n == 0 {
      NothingMarked(s);
    } else {
      CreateKeepsSpent(r, s, tx, txid, n - 1, unlocking);
      CreateFacts(r, s, tx, txid, n - 1, unlocking);
      var p := Create(r, s, tx, txid, n - 1, unlocking).value;
      NewKey(p, txid, n - 1);
      CreateOneKeepsSpent(r, p, tx, txid, n - 1, unlocking);
      StaysTrans(s, p, CreateOne(r, p, tx, txid, n - 1, unlocking));
    }
  }

  lemma CreateOneKeepsSpent(r: Rules, s: State, tx: Tx, txid: string, i: nat, unlocking: bool)
    requires i < |tx.outputs| && Outpoint(txid, i) !in s.utxos
    ensures StaysSpent(s, CreateOne(r, s, tx, txid, i, unlocking))
  {
    hide Outpoint, TicketKey;
  }

  lemma StaysTrans(s: State, t: State, u: State)
    requires StaysSpent(s, t) && StaysSpent(t, u)
    ensures StaysSpent(s, u)
  {
  }

  lemma GoneStays(s: State, t: State, ks: seq<string>)
    requires Gone(s, ks) && StaysSpent(s, t)
    ensures Gone(t, ks)
  {
  }

  /** Applying a transaction with a new id spends fresh outputs for good. */
  lemma ApplyTxSpends(r: Rules, s: State, tx: Tx)
    requires ApplyTx(r, s, tx).Some? && Exact(s) && r.txid(tx) !in s.seen
    ensures var t := ApplyTx(r, s, tx).value;
            && StaysSpent(s, t) && Gone(t, Keys(tx.inputs)) && Distinct(Keys(tx.inputs))
            && forall k :: k in Keys(tx.inputs) ==> k in s.utxos && !s.utxos[k].spent
  {
    hide ValidTx, Spend, Create, Exact, ExactWith, Keys, Distinct;
    var p := Spend(s, tx.inputs).value;
    SpendMarks(s, tx.inputs);
    SpendFacts(s, tx.inputs);
    ExactWithNone(p.0, r.txid(tx));
    CreateKeepsSpent(r, p.0, tx, r.txid(tx), |tx.outputs|, p.1);
    var q := Create(r, p.0, tx, r.txid(tx), |tx.outputs|, p.1).value;
    StaysTrans(s, p.0, q);
    GoneStays(p.0, q, Keys(tx.inputs));
  }

  lemma {:induction false} SlashKeepsSpent(s: State, es: seq<Evidence>)
    ensures StaysSpent(s, Slash(s, es))
    decreases |es|
  {
    if es != [] { SlashKeepsSpent(s, es[..|es| - 1]); }
  }

  lemma DistinctJoin(a: seq<string>, b: seq<string>)
    requires Distinct(a) && Distinct(b) && forall k :: k in b ==> k !in a
    ensures Distinct(a + b)
  {
    var c := a + b;
    forall i, j | 0 <= i < j < |c| ensures c[i] != c[j] {
      if i < |a| <= j { assert c[i] in a && c[j] in b; }
    }
  }

  // ---------------------------------------------------------------------- nonces

  predicate Signed(tx: Tx) { tx.inputs != [] && tx.signer != "" }

  /** The state remembers a nonce at least as high as any its signer has used. */
  predicate Remembers(s: State, txs: seq<Tx>) {
    forall tx :: tx in txs && Signed(tx) ==> tx.signer in s.nonces && tx.nonce <= s.nonces[tx.signer]
  }

  predicate NoncesRise(txs: seq<Tx>) {
    forall i, j :: 0 <= i < j < |txs| && Signed(txs[i]) && Signed(txs[j]) && txs[i].signer == txs[j].signer ==>
        txs[i].nonce < txs[j].nonce
  }

  lemma ApplyTxNonce(r: Rules, s: State, tx: Tx)
    requires ApplyTx(r, s, tx).Some?
    ensures var t := ApplyTx(r, s, tx).value;
            && (Signed(tx) ==>
                  && (tx.signer in s.nonces ==> tx.nonce > s.nonces[tx.signer])
                  && t.nonces == s.nonces[tx.signer := tx.nonce])
            && (!Signed(tx) ==> t.nonces == s.nonces)
  {
    hide Spend, Create, ShieldedOk, OutputsOk, InputsOk, StakeOutputsOk, Balanced, SignatureOk, ScriptsOk;
    var p := Spend(s, tx.inputs).value;
    SpendFacts(s, tx.inputs);
    CreateFacts(r, p.0, tx, r.txid(tx), |tx.outputs|, p.1);
  }

  lemma RiseSnoc(s: State, txs: seq<Tx>, tx: Tx)
    requires NoncesRise(txs) && Remembers(s, txs) &&
             (Signed(tx) && tx.signer in s.nonces ==> tx.nonce > s.nonces[tx.signer])
    ensures NoncesRise(txs + [tx])
  {
    var us := txs + [tx];
    forall i, j | 0 <= i < j < |us| && Signed(us[i]) && Signed(us[j]) &&
        us[i].signer == us[j].signer ensures us[i].nonce < us[j].nonce {
      if j == |txs| { assert us[i] in txs; }
    }
  }

  // --------------------------------------------------------------------- whole blocks

  /** What a state says about the transactions that led to it. */
  ghost predicate History(s: State, txs: seq<Tx>) {
    Exact(s) && Gone(s, Spent(txs)) && Distinct(Spent(txs)) && Remembers(s, txs) && NoncesRise(txs)
  }

  lemma HistoryStep(r: Rules, s: State, txs: seq<Tx>, tx: Tx)
    requires History(s, txs) && ApplyTx(r, s, tx).Some? && r.txid(tx) !in s.seen
    ensures History(ApplyTx(r, s, tx).value, txs + [tx])
  {
    hide ApplyTx, Exact, Keys, Distinct, Gone, Spent, Remembers, NoncesRise, StaysSpent;
    var t := ApplyTx(r, s, tx).value;
    ApplyTxFacts(r, s, tx);
    SpentStep(r, s, txs, tx);
    NonceStep(r, s, txs, tx);
  }

  lemma SpentSnoc(txs: seq<Tx>, tx: Tx)
    ensures Spent(txs + [tx]) == Spent(txs) + Keys(tx.inputs)
  {
    hide Keys;
    assert (txs + [tx])[..|txs|] == txs;
  }

  lemma SpentStep(r: Rules, s: State, txs: seq<Tx>, tx: Tx)
    requires Exact(s) && Gone(s, Spent(txs)) && Distinct(Spent(txs)) && ApplyTx(r, s, tx).Some? && r.txid(tx) !in s.seen
    ensures Gone(ApplyTx(r, s, tx).value, Spent(txs + [tx])) && Distinct(Spent(txs + [tx]))
  {
    hide ApplyTx, Exact, Keys, Distinct, Spent, StaysSpent;
    var t := ApplyTx(r, s, tx).value;
    ApplyTxSpends(r, s, tx);
    GoneStays(s, t, Spent(txs));
    SpentSnoc(txs, tx);
    DistinctJoin(Spent(txs), Keys(tx.inputs));
  }

  lemma NonceStep(r: Rules, s: State, txs: seq<Tx>, tx: Tx)
    requires Remembers(s, txs) && NoncesRise(txs) && ApplyTx(r, s, tx).Some?
    ensures Remembers(ApplyTx(r, s, tx).value, txs + [tx]) && NoncesRise(txs + [tx])
  {
    hide ApplyTx, Signed, NoncesRise;
    ApplyTxNonce(r, s, tx);
    RiseSnoc(s, txs, tx);
    assert forall u :: u in txs + [tx] <==> u in txs || u == tx;
  }

  lemma {:induction false} HistoryBlock(r: Rules, s: State, past: seq<Tx>, txs: seq<Tx>)
    requires History(s, past) && ApplyAll(r, s, txs).Some? && Fresh(r, s, txs)
    ensures History(ApplyAll(r, s, txs).value, past + txs)
    ensures ApplyAll(r, s, txs).value.seen == s.seen + (set tx | tx in txs :: r.txid(tx))
    decreases |txs|
  {
    hide ApplyTx, History, Fresh;
    if txs == [] {
      assert past + txs == past;
    } else {
      var front, last := txs[..|txs| - 1], txs[|txs| - 1];
      FreshSplit(r, s, txs);
      SeenStep(r, txs);
      HistoryBlock(r, s, past, front);
      var p := ApplyAll(r, s, front).value;
      HistoryStep(r, p, past + front, last);
      ApplyTxFacts(r, p, last);
      assert past + txs == past + front + [last];
    }
  }

  lemma SlashNonces(s: State, es: seq<Evidence>)
    ensures Slash(s, es).nonces == s.nonces
    decreases |es|
  {
    if es != [] { SlashNonces(s, es[..|es| - 1]); }
  }

  lemma HistoryFrame(s: State, t: State, txs: seq<Tx>)
    requires History(s, txs) && Exact(t) && StaysSpent(s, t) && t.nonces == s.nonces
    ensures History(t, txs)
  {
    hide Exact, Distinct;
    GoneStays(s, t, Spent(txs));
  }

  lemma HistoryAdd(r: Rules, s: State, b: Block, past: seq<Tx>)
    requires History(s, past) && Solvent(r, s) && AddBlock(r, s, b, true).1 && Fresh(r, s, b.txs)
    ensures History(AddBlock(r, s, b, true).0, past + b.txs)
  {
    hide AddBlock, History, Solvent, CoinbaseOk, Fresh, ApplyAll, Slash;
    AddBlockShape(r, s, b, true);
    AddBlockSolvent(r, s, b, true);
    var p := ApplyAll(r, s, b.txs).value;
    HistoryBlock(r, s, past, b.txs);
    var q := p.(fees := Fees(b.txs[1..]));
    SlashKeepsSpent(q, b.slashes);
    SlashNonces(q, b.slashes);
    HistoryExact(s, past);
    HistoryFrame(p, AddBlock(r, s, b, true).0, past + b.txs);
  }

  lemma HistoryExact(s: State, txs: seq<Tx>)
    requires History(s, txs)
    ensures Exact(s)
  {
    hide Exact;
  }

  lemma {:induction false} ReplayHistory(r: Rules, bs: seq<Block>)
    requires Accepted(r, bs) && Distinct(Txids(r, AllTxs(bs)))
    ensures History(Replay(r, bs), AllTxs(bs))
  {
    hide AddBlock, History, Solvent, Exact, Fresh, Distinct, Txids;
    if |bs| == 1 {
      SolventReset(r);
      GenesisTxs(r, bs);
      NoHistory(r);
    } else {
      var front, b := bs[..|bs| - 1], bs[|bs| - 1];
      DistinctPrefix(r, AllTxs(front), b.txs);
      ReplayHistory(r, front);
      ReplaySolvent(r, front);
      ReplayExact(r, front);
      FreshFromDistinct(r, Replay(r, front), AllTxs(front), b.txs);
      HistoryAdd(r, Replay(r, front), b, AllTxs(front));
    }
  }

  lemma NoHistory(r: Rules)
    ensures History(Reset(r), [])
  {
    SolventReset(r);
  }

  /** Over every run in which no transaction id repeats: no output is spent twice anywhere
      in the chain, and every signer's nonces strictly rise along it. */
  lemma NoDoubleSpend(r: Rules, es: seq<Event>)
    requires Distinct(Txids(r, AllTxs(Run(r, es).blocks)))
    ensures var txs := AllTxs(Run(r, es).blocks); Distinct(Spent(txs)) && NoncesRise(txs)
  {
    hide Run, Replay, Accepted, Distinct, Txids, AllTxs, Spent, NoncesRise;
    RunReplays(r, es);
    ReplayHistory(r, Run(r, es).blocks);
  }
}
