/** Tickets and stake outputs over every run, repeated transaction ids included. */
module LedgerTickets {
  import opened Basics
  import opened Text
  import opened Ledger
  import opened LedgerInvariant
  import opened Chain
  import opened ChainRun
  import Staking

  /** A transaction id fixes the outputs. */
  ghost predicate IdsBind(r: Rules) { forall s, t :: r.txid(s) == r.txid(t) ==> s.outputs == t.outputs }

  /** An output of some transaction with the name `k` and this owner. */
  ghost predicate Made(r: Rules, k: string, owner: string) {
    exists tx: Tx, i: nat :: i < |tx.outputs| && k == Outpoint(r.txid(tx), i) && owner == tx.outputs[i].to
  }

  /** Every output was made by a transaction; the tickets are the unspent stake outputs, under
      their names and with their amounts. */
  ghost predicate Ticketed(r: Rules, s: State) {
    && (forall k :: k in s.utxos ==> Made(r, k, s.utxos[k].owner))
    && (forall k :: k in s.tickets <==> IsTicket(s, k))
    && (forall k :: k in s.tickets && k in s.utxos ==> TicketFits(s, k))
  }

  predicate TicketFits(s: State, k: string)
    requires k in s.tickets && k in s.utxos
  {
    s.tickets[k].id == k && s.tickets[k].amount == s.utxos[k].amount
  }

  /** Two outputs of one name have one owner. */
  lemma SameOwner(r: Rules, k: string, a: string, b: string)
    requires IdsBind(r) && Made(r, k, a) && Made(r, k, b)
    ensures a == b
  {
    hide Outpoint;
    var s: Tx, i: nat :| i < |s.outputs| && k == Outpoint(r.txid(s), i) && a == s.outputs[i].to;
    var t: Tx, j: nat :| j < |t.outputs| && k == Outpoint(r.txid(t), j) && b == t.outputs[j].to;
    OutpointInjective(r.txid(s), i, r.txid(t), j);
  }

  lemma SpendOneTickets(r: Rules, s: State, k: string)
    requires Ticketed(r, s) && k in s.utxos
    ensures Ticketed(r, SpendOne(s, k))
  {
    hide Made;
    var t := SpendOne(s, k);
    forall j ensures j in t.tickets <==> IsTicket(t, j) { assert j in s.tickets <==> IsTicket(s, j); }
    forall j | j in t.tickets && j in t.utxos ensures TicketFits(t, j) { assert TicketFits(s, j); }
  }

  lemma CreateOneTickets(r: Rules, s: State, tx: Tx, i: nat, unlocking: bool)
    requires IdsBind(r) && Ticketed(r, s) && i < |tx.outputs|
    ensures Ticketed(r, CreateOne(r, s, tx, r.txid(tx), i, unlocking))
  {
    hide TicketKey, Outpoint, IdsBind;
    var t, k, to := CreateOne(r, s, tx, r.txid(tx), i, unlocking), Outpoint(r.txid(tx), i), tx.outputs[i].to;
    assert Made(r, k, to);
    if k in s.tickets { assert IsTicket(s, k); SameOwner(r, k, s.utxos[k].owner, to); }
    forall j ensures j in t.tickets <==> IsTicket(t, j) { assert j in s.tickets <==> IsTicket(s, j); }
    forall j | j in t.tickets && j in t.utxos ensures TicketFits(t, j) { assert j != k ==> TicketFits(s, j); }
  }

  lemma TicketedFrame(r: Rules, s: State, t: State)
    requires Ticketed(r, s) && s.utxos == t.utxos && s.tickets == t.tickets
    ensures Ticketed(r, t)
  {
    hide Made;
    forall k ensures k in t.tickets <==> IsTicket(t, k) { assert k in s.tickets <==> IsTicket(s, k); }
    forall k | k in t.tickets && k in t.utxos ensures TicketFits(t, k) { assert TicketFits(s, k); }
  }

  lemma {:induction false} SpendTickets(r: Rules, s: State, ins: seq<Input>)
    requires Ticketed(r, s) && Spend(s, ins).Some?
    ensures Ticketed(r, Spend(s, ins).value.0)
    decreases |ins|
  {
    hide Ticketed, SpendOne;
    if ins != [] {
      SpendTickets(r, s, ins[..|ins| - 1]);
      SpendOneTickets(r, Spend(s, ins[..|ins| - 1]).value.0, Key(ins[|ins| - 1]));
    }
  }

  lemma {:induction false} CreateTickets(r: Rules, s: State, tx: Tx, n: nat, unlocking: bool)
    requires IdsBind(r) && Ticketed(r, s) && n <= |tx.outputs| && Create(r, s, tx, r.txid(tx), n, unlocking).Some?
    ensures Ticketed(r, Create(r, s, tx, r.txid(tx), n, unlocking).value)
  {
    hide Ticketed, CreateOne, IdsBind;
    if n > 0 {
      CreateTickets(r, s, tx, n - 1, unlocking);
      CreateOneTickets(r, Create(r, s, tx, r.txid(tx), n - 1, unlocking).value, tx, n - 1, unlocking);
    }
  }

  lemma ApplyTxTickets(r: Rules, s: State, tx: Tx)
    requires IdsBind(r) && Ticketed(r, s) && ApplyTx(r, s, tx).Some?
    ensures Ticketed(r, ApplyTx(r, s, tx).value)
  {
    hide Ticketed, ValidTx, Spend, Create, IdsBind;
    var p := Spend(s, tx.inputs).value;
    SpendTickets(r, s, tx.inputs);
    CreateTickets(r, p.0, tx, |tx.outputs|, p.1);
    TicketedFrame(r, Create(r, p.0, tx, r.txid(tx), |tx.outputs|, p.1).value, ApplyTx(r, s, tx).value);
  }

  lemma {:induction false} ApplyAllTickets(r: Rules, s: State, txs: seq<Tx>)
    requires IdsBind(r) && Ticketed(r, s) && ApplyAll(r, s, txs).Some?
    ensures Ticketed(r, ApplyAll(r, s, txs).value)
    decreases |txs|
  {
    hide Ticketed, ApplyTx, IdsBind;
    if txs != [] {
      ApplyAllTickets(r, s, txs[..|txs| - 1]);
      ApplyTxTickets(r, ApplyAll(r, s, txs[..|txs| - 1]).value, txs[|txs| - 1]);
    }
  }

  lemma SlashOneTickets(r: Rules, s: State, k: string)
    requires Ticketed(r, s)
    ensures Ticketed(r, SlashOne(s, k))
  {
    hide Made, SpendOne;
    if k in s.tickets {
      assert IsTicket(s, k);
      SpendOneTickets(r, s, k);
      TicketedFrame(r, SpendOne(s, k), SlashOne(s, k));
    }
  }

  lemma {:induction false} SlashTickets(r: Rules, s: State, es: seq<Evidence>)
    requires Ticketed(r, s)
    ensures Ticketed(r, Slash(s, es))
    decreases |es|
  {
    hide Ticketed, SlashOne;
    if es != [] {
      SlashTickets(r, s, es[..|es| - 1]);
      SlashOneTickets(r, Slash(s, es[..|es| - 1]), es[|es| - 1].a.ticket);
    }
  }

  lemma AddBlockTickets(r: Rules, s: State, b: Block)
    requires IdsBind(r) && Ticketed(r, s) && AddBlock(r, s, b, true).1
    ensures Ticketed(r, AddBlock(r, s, b, true).0)
  {
    hide Ticketed, AddBlock, CoinbaseOk, ApplyAll, Slash, Fees, Minted, IdsBind;
    AddBlockShape(r, s, b, true);
    var p := ApplyAll(r, s, b.txs).value;
    var q := p.(fees := Fees(b.txs[1..]));
    ApplyAllTickets(r, s, b.txs);
    TicketedFrame(r, p, q);
    SlashTickets(r, q, b.slashes);
    TicketedFrame(r, Slash(q, b.slashes), AddBlock(r, s, b, true).0);
  }

  lemma {:induction false} ReplayTickets(r: Rules, bs: seq<Block>)
    requires IdsBind(r) && Accepted(r, bs)
    ensures Ticketed(r, Replay(r, bs))
  {
    hide Ticketed, AddBlock, IdsBind;
    if |bs| == 1 {
      NoTickets(r);
    } else {
      ReplayTickets(r, bs[..|bs| - 1]);
      AddBlockTickets(r, Replay(r, bs[..|bs| - 1]), bs[|bs| - 1]);
    }
  }

  lemma NoTickets(r: Rules)
    ensures Ticketed(r, Reset(r))
  {
    hide Made;
  }

  /** Over every run, however often ids repeat: the tickets are exactly the unspent stake
      outputs, each with its output's amount, provided an id fixes the outputs. */
  lemma TicketsExact(r: Rules, es: seq<Event>)
    requires IdsBind(r)
    ensures var s := Run(r, es);
            && (forall k :: k in s.tickets <==> k in s.utxos && !s.utxos[k].spent && s.utxos[k].owner == STAKE)
            && (forall k :: k in s.tickets && k in s.utxos ==> s.tickets[k].amount == s.utxos[k].amount)
  {
    hide Run, Replay, Accepted, Made, IdsBind;
    RunReplays(r, es);
    var s := Run(r, es);
    ReplayTickets(r, s.blocks);
    forall k ensures k in s.tickets <==> IsTicket(s, k) { }
    forall k | k in s.tickets && k in s.utxos ensures s.tickets[k].amount == s.utxos[k].amount {
      assert TicketFits(s, k);
    }
  }
}
