/** What a penalty transaction must be, stated on the published commitment alone, and
    the proof that `PenaltyFor` is exactly that. */
module ChannelPenalty {
  import opened Basics
  import opened Symbols
  import opened Channel

  /** An output whose script lets the holder of `local`'s key take it at once with the preimage
      of `rh`, if it is a script that can be read at all (see `ScriptPenalty`). */
  predicate Revocable(o: Output, local: string, rh: Digest) {
    o.to.ScriptHash? && o.to.script.Or? && o.to.script.left == And(Pk(local), HashLock(rh))
  }

  function RevocableTotal(outs: seq<Output>, local: string, rh: Digest): nat {
    if outs == [] then 0
    else RevocableTotal(outs[..|outs| - 1], local, rh) +
         (if Revocable(outs[|outs| - 1], local, rh) then outs[|outs| - 1].amount else 0)
  }

  /** `t` spends output `vouts[i]` of `b` with its own script, `cfg`'s signature over
      `t` and the secret, for each `i`. */
  predicate SpendsWithSecret(cfg: Config, b: TxBody, rh: Digest, secret: Preimage, t: Tx) {
    && |t.body.inputs| == |t.witnesses|
    && forall i :: 0 <= i < |t.body.inputs| ==>
         && t.body.inputs[i].txid == IdOf(b) && t.body.inputs[i].vout < |b.outputs|
         && var o, w := b.outputs[t.body.inputs[i].vout], t.witnesses[i];
            Revocable(o, cfg.Local(), rh) && w == Witness(o.to.script, [(cfg.key, Sig(cfg.key, t.body))], [secret])
  }

  predicate Ascending(ins: seq<OutPoint>) {
    forall i, j :: 0 <= i < j < |ins| ==> ins[i].vout < ins[j].vout
  }

  ghost predicate CoversRevocable(cfg: Config, b: TxBody, rh: Digest, ins: seq<OutPoint>) {
    forall k :: 0 <= k < |b.outputs| && Revocable(b.outputs[k], cfg.Local(), rh) ==>
      OutPoint(IdOf(b), k) in ins
  }

  /** The penalty exists exactly when the revocable outputs are worth more than the
      fee; it then spends each of them once and nothing else, pays their total less the fee
      to this side, and is numbered apart from any commitment. */
  ghost predicate PenaltyExact(cfg: Config, b: TxBody, rh: Digest, secret: Preimage, penalty: Option<Tx>) {
    var total := RevocableTotal(b.outputs, cfg.Local(), rh);
    && HashPreimage(secret) == rh
    && (penalty.Some? <==> total > cfg.info.fee)
    && (penalty.Some? ==>
          var t := penalty.value;
          && SpendsWithSecret(cfg, b, rh, secret, t)
          && Ascending(t.body.inputs)
          && CoversRevocable(cfg, b, rh, t.body.inputs)
          && t.body.outputs == [Output(Plain(cfg.Local()), total - cfg.info.fee)]
          && t.body.fee == cfg.info.fee && t.body.nonce == 0x200_0000_0000 + b.nonce)
  }

  /** The claims are the revocable outputs in order, skipping the `y` outputs at `x`. */
  predicate Laid(outs: seq<Output>, claims: seq<Claim>, x: nat, y: nat, local: string, rh: Digest) {
    && x <= |claims| && |outs| == |claims| + y
    && (forall m :: 0 <= m < |claims| ==> claims[m].vout == if m < x then m else m + y)
    && (forall k :: 0 <= k < |outs| ==> (Revocable(outs[k], local, rh) <==> k < x || x + y <= k))
  }

  lemma {:induction false} RevocableAt(cfg: Config, s: State, rh: Digest, k: nat)
    requires k < |CommitmentTx(cfg.info, !cfg.isA, s, rh).outputs|
    ensures var x, y := |ToLocalOutputs(cfg.info, !cfg.isA, s, rh)|, |ToRemoteOutputs(cfg.info, !cfg.isA, s)|;
            Revocable(CommitmentTx(cfg.info, !cfg.isA, s, rh).outputs[k], cfg.Local(), rh) <==> k < x || x + y <= k
  {
    hide CommitmentTx;
    CommitmentHead(cfg.info, !cfg.isA, s, rh);
    var x, y := |ToLocalOutputs(cfg.info, !cfg.isA, s, rh)|, |ToRemoteOutputs(cfg.info, !cfg.isA, s)|;
    if x + y <= k { CommitmentHtlc(cfg.info, !cfg.isA, s, rh, k - x - y); }
  }

  /** The to-local and HTLC outputs of a commitment are revocable, to-remote is not. */
  lemma {:induction false} ClaimsAreLaid(cfg: Config, s: State, rh: Digest)
    ensures Laid(CommitmentTx(cfg.info, !cfg.isA, s, rh).outputs, RevocableClaims(cfg, s, rh),
                 |ToLocalOutputs(cfg.info, !cfg.isA, s, rh)|, |ToRemoteOutputs(cfg.info, !cfg.isA, s)|, cfg.Local(), rh)
  {
    hide CommitmentTx, Revocable;
    CommitmentHead(cfg.info, !cfg.isA, s, rh);
    var outs := CommitmentTx(cfg.info, !cfg.isA, s, rh).outputs;
    forall k | 0 <= k < |outs|
      ensures var x, y := |ToLocalOutputs(cfg.info, !cfg.isA, s, rh)|, |ToRemoteOutputs(cfg.info, !cfg.isA, s)|;
              Revocable(outs[k], cfg.Local(), rh) <==> k < x || x + y <= k
    {
      RevocableAt(cfg, s, rh, k);
    }
  }

  /** The total over a prefix of the outputs is the total of the claims into it. */
  lemma {:induction false} TotalUpTo(b: TxBody, claims: seq<Claim>, x: nat, y: nat, local: string, rh: Digest, k: nat)
    requires Laid(b.outputs, claims, x, y, local, rh) && k <= |b.outputs|
    ensures var m := if k <= x then k else if k <= x + y then x else k - y;
            RevocableTotal(b.outputs[..k], local, rh) == ClaimedTotal(b, claims[..m])
  {
    hide Revocable;
    if k > 0 {
      TotalUpTo(b, claims, x, y, local, rh, k - 1);
      assert b.outputs[..k][..k - 1] == b.outputs[..k - 1];
      if k <= x || x + y < k {
        var m := if k <= x then k else k - y;
        assert claims[..m][..m - 1] == claims[..m - 1];
      }
    }
  }

  lemma {:induction false} PenaltySpends(cfg: Config, b: TxBody, claims: seq<Claim>, x: nat, y: nat, rh: Digest,
      secret: Preimage)
    requires ClaimsFit(b, claims) && Laid(b.outputs, claims, x, y, cfg.Local(), rh)
    requires ClaimedTotal(b, claims) > cfg.info.fee
    ensures SpendsWithSecret(cfg, b, rh, secret, PenaltyTx(cfg, b, claims, secret))
  {
    hide ClaimedTotal, Revocable;
    var t := PenaltyTx(cfg, b, claims, secret);
    assert forall i :: 0 <= i < |claims| ==> t.body.inputs[i] == OutPoint(IdOf(b), claims[i].vout);
  }

  lemma {:induction false} PenaltyCovers(cfg: Config, b: TxBody, claims: seq<Claim>, x: nat, y: nat, rh: Digest,
      secret: Preimage)
    requires ClaimsFit(b, claims) && Laid(b.outputs, claims, x, y, cfg.Local(), rh)
    requires ClaimedTotal(b, claims) > cfg.info.fee
    ensures var ins := PenaltyTx(cfg, b, claims, secret).body.inputs;
            Ascending(ins) && CoversRevocable(cfg, b, rh, ins)
  {
    hide ClaimedTotal, Revocable;
    var ins := PenaltyTx(cfg, b, claims, secret).body.inputs;
    forall k | 0 <= k < |b.outputs| && Revocable(b.outputs[k], cfg.Local(), rh)
      ensures OutPoint(IdOf(b), k) in ins
    {
      assert ins[if k < x then k else k - y] == OutPoint(IdOf(b), k);
    }
  }

  lemma {:induction false} PenaltyTxExact(cfg: Config, b: TxBody, claims: seq<Claim>, x: nat, y: nat, rh: Digest,
      secret: Preimage)
    requires HashPreimage(secret) == rh && ClaimsFit(b, claims) && Laid(b.outputs, claims, x, y, cfg.Local(), rh)
    ensures PenaltyExact(cfg, b, rh, secret,
                         if ClaimedTotal(b, claims) <= cfg.info.fee then None
                             else Some(PenaltyTx(cfg, b, claims, secret)))
  {
    hide HashPreimage, ClaimedTotal, RevocableTotal, Revocable, SpendsWithSecret, Ascending, CoversRevocable;
    TotalUpTo(b, claims, x, y, cfg.Local(), rh, |b.outputs|);
    assert b.outputs[..|b.outputs|] == b.outputs && claims[..|claims|] == claims;
    if ClaimedTotal(b, claims) > cfg.info.fee {
      PenaltySpends(cfg, b, claims, x, y, rh, secret);
      PenaltyCovers(cfg, b, claims, x, y, rh, secret);
    }
  }

  lemma CommitmentNonce(cfg: Config, x: State, rh: Digest)
    ensures CommitmentTx(cfg.info, !cfg.isA, x, rh).nonce == x.n
  {
  }

  /** A revoked commitment to any candidate state is recognised and punished in full. */
  lemma PenaltyIsExact(c: Chan, x: State)
    requires x.n in c.secrets && x.n in c.hashes && HashPreimage(c.secrets[x.n]) == c.hashes[x.n]
    requires x in Candidates(c, x.n)
    ensures var b := CommitmentTx(c.cfg.info, !c.cfg.isA, x, c.hashes[x.n]);
            PenaltyExact(c.cfg, b, c.hashes[x.n], c.secrets[x.n], PenaltyFor(c, b))
  {
    hide CommitmentTx, PenaltyExact, Laid, ClaimsFit, RevocableClaims, PenaltyTx, ClaimedTotal, HashPreimage;
    var rh := c.hashes[x.n];
    var b := CommitmentTx(c.cfg.info, !c.cfg.isA, x, rh);
    CommitmentNonce(c.cfg, x, rh);
    FirstMatchSound(c.cfg, rh, Candidates(c, x.n), b);
    var found := FirstMatch(c.cfg, rh, Candidates(c, x.n), b);
    var s := found.value;
    RevocableClaimsFit(c.cfg, s, rh);
    ClaimsAreLaid(c.cfg, s, rh);
    PenaltyTxExact(c.cfg, b, RevocableClaims(c.cfg, s, rh), |ToLocalOutputs(c.cfg.info, !c.cfg.isA, s, rh)|,
                   |ToRemoteOutputs(c.cfg.info, !c.cfg.isA, s)|, rh, c.secrets[x.n]);
  }
}
