/** Who stands behind a ticket: a ticket without an owner has no key either, so it can
    never cast a vote. */
module LedgerKeys {
  import opened Basics
  import opened Text
  import opened Ledger
  import opened LedgerInvariant
  import opened Chain
  import opened ChainRun
  import Staking

  /** The registry names nobody without a name, and a nameless ticket has no key. */
  predicate Keyed(s: State) {
    && "" !in s.registry
    && forall k :: k in s.tickets && s.tickets[k].owner == "" ==> s.tickets[k].pubkey == ""
  }

  /** No vote verifies under an empty key: it has no bytes, so no scheme. */
  ghost predicate NoEmptyKey(r: Rules) { forall v :: !r.voteOk("", v) }

  lemma {:induction false} SpendKeyed(s: State, ins: seq<Input>)
    requires Keyed(s) && Spend(s, ins).Some?
    ensures Keyed(Spend(s, ins).value.0)
    decreases |ins|
  {
    hide Key;
    if ins != [] { SpendKeyed(s, ins[..|ins| - 1]); }
  }

  /** A transaction that creates a ticket without a signer carries no key. */
  lemma {:induction false} CreateKeyed(r: Rules, s: State, tx: Tx, txid: string, n: nat, unlocking: bool)
    requires Keyed(s) && n <= |tx.outputs| && Create(r, s, tx, txid, n, unlocking).Some?
    requires tx.signer == "" ==> tx.pubkey == "" || forall o :: o in tx.outputs ==> o.to != STAKE
    ensures Keyed(Create(r, s, tx, txid, n, unlocking).value)
  {
    hide Outpoint;
    if n > 0 {
      CreateKeyed(r, s, tx, txid, n - 1, unlocking);
      assert tx.outputs[n - 1] in tx.outputs;
    }
  }

  /** Without a signer there is no key, or no stake. */
  lemma NamelessHasNoStake(r: Rules, s: State, tx: Tx)
    requires ValidTx(r, s, tx, true) && tx.signer == ""
    ensures tx.pubkey == "" || forall o :: o in tx.outputs ==> o.to != STAKE
  {
    hide OutputsOk, InputsOk, StakeOutputsOk, Balanced, ScriptsOk;
  }

  lemma ApplyTxKeyed(r: Rules, s: State, tx: Tx)
    requires Keyed(s) && ApplyTx(r, s, tx).Some?
    ensures Keyed(ApplyTx(r, s, tx).value)
  {
    hide ValidTx, Spend, Create;
    var p := Spend(s, tx.inputs).value;
    if tx.signer == "" { NamelessHasNoStake(r, s, tx); }
    SpendKeyed(s, tx.inputs);
    CreateKeyed(r, p.0, tx, r.txid(tx), |tx.outputs|, p.1);
  }

  lemma {:induction false} ApplyAllKeyed(r: Rules, s: State, txs: seq<Tx>)
    requires Keyed(s) && ApplyAll(r, s, txs).Some?
    ensures Keyed(ApplyAll(r, s, txs).value)
    decreases |txs|
  {
    hide ApplyTx, Keyed;
    if txs != [] {
      ApplyAllKeyed(r, s, txs[..|txs| - 1]);
      ApplyTxKeyed(r, ApplyAll(r, s, txs[..|txs| - 1]).value, txs[|txs| - 1]);
    }
  }

  lemma {:induction false} SlashKeyed(s: State, es: seq<Evidence>)
    requires Keyed(s)
    ensures Keyed(Slash(s, es))
    decreases |es|
  {
    if es != [] { SlashKeyed(s, es[..|es| - 1]); }
  }

  lemma AddBlockKeyed(r: Rules, s: State, b: Block)
    requires Keyed(s)
    ensures Keyed(AddBlock(r, s, b, true).0)
  {
    hide AddBlock, BlockOk, ApplyAll, Slash, CoinbaseOk;
    AddBlockAllOrNothing(r, s, b, true);
    if AddBlock(r, s, b, true).1 {
      AddBlockShape(r, s, b, true);
      ApplyAllKeyed(r, s, b.txs);
      SlashKeyed(ApplyAll(r, s, b.txs).value.(fees := Fees(b.txs[1..])), b.slashes);
    }
  }

  lemma {:induction false} ReplayKeyed(r: Rules, bs: seq<Block>)
    ensures Keyed(Replay(r, bs))
  {
    hide AddBlock;
    if |bs| > 1 {
      ReplayKeyed(r, bs[..|bs| - 1]);
      AddBlockKeyed(r, Replay(r, bs[..|bs| - 1]), bs[|bs| - 1]);
    }
  }

  /** Over every run of blocks and reorganisations. */
  lemma RunKeyed(r: Rules, es: seq<Event>)
    ensures Keyed(Run(r, es))
  {
    hide Run, Replay, Keyed, Accepted;
    RunReplays(r, es);
    ReplayKeyed(r, Run(r, es).blocks);
  }

  /** So whoever casts a valid vote has a name. */
  lemma {:induction false} VotersNamed(r: Rules, s: State, vs: seq<Vote>)
    requires Keyed(s) && NoEmptyKey(r) && forall v :: v in vs ==> VoteSigned(r, s, v)
    ensures "" !in Approvers(s, vs)
  {
    if vs != [] {
      var v := vs[|vs| - 1];
      VotersNamed(r, s, vs[..|vs| - 1]);
      assert VoteSigned(r, s, v);
      if s.tickets[v.ticket].owner == "" { NamelessCannotVote(r, s, v); }
    }
  }

  lemma NamelessCannotVote(r: Rules, s: State, v: Vote)
    requires Keyed(s) && NoEmptyKey(r) && v.ticket in s.tickets && s.tickets[v.ticket].owner == ""
    ensures !VoteSigned(r, s, v)
  {
    assert TicketPubkey(s, s.tickets[v.ticket]) == "";
  }
}
