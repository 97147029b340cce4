/** What a commitment pays to whom, read off its outputs alone. */
module ChannelPayout {
  import opened Basics
  import opened Symbols
  import opened Channel

  /** What the outputs pay to one recipient. */
  function PaidTo(outs: seq<Output>, to: Recipient): nat {
    if outs == [] then 0 else (if outs[0].to == to then outs[0].amount else 0) + PaidTo(outs[1..], to)
  }

  function PaidInAll(outs: seq<Output>): nat { if outs == [] then 0 else outs[0].amount + PaidInAll(outs[1..]) }

  function SideOf(info: Info, a: bool): string { if a then info.addrA else info.addrB }

  /** The funder pays the fee out of its own balance. */
  function Due(info: Info, s: State, a: bool): nat
    requires info.fee <= s.balA
  {
    if a then s.balA - info.fee else s.balB
  }

  /** What the holder opens with its key after the delay, and the other side at once with the
      revocation secret. */
  function DelayedFor(info: Info, holderA: bool, rh: Digest): Recipient {
    ScriptHash(Or(And(Pk(SideOf(info, !holderA)), HashLock(rh)),
                  And(Pk(SideOf(info, holderA)), Older(info.toSelfDelay))))
  }

  /** What the side that did not offer the HTLC opens with the preimage, the side that did
      from the expiry on, and the holder's peer at once with the revocation secret. */
  function HeldFor(info: Info, holderA: bool, rh: Digest, h: Htlc): Recipient {
    ScriptHash(Or(And(Pk(SideOf(info, !holderA)), HashLock(rh)),
                  Or(And(Pk(SideOf(info, !h.offeredByA)), HashLock(h.paymentHash)),
                     And(Pk(SideOf(info, h.offeredByA)), After(h.expiry)))))
  }

  /** The commitment that one side holds spends the funding output, pays the other side its
      balance outright and the holder its own after the delay, and ends with one output per
      HTLC; nothing is left over. */
  predicate PaysOut(info: Info, holderA: bool, s: State, rh: Digest, tx: TxBody)
    requires info.fee <= s.balA
  {
    && tx.inputs == [info.funding] && tx.fee == info.fee && tx.nonce == s.n
    && PaidTo(tx.outputs, Plain(SideOf(info, !holderA))) == Due(info, s, !holderA)
    && PaidTo(tx.outputs, DelayedFor(info, holderA, rh)) == Due(info, s, holderA)
    && |tx.outputs| >= |s.htlcs|
    && (forall i :: 0 <= i < |s.htlcs| ==>
          tx.outputs[|tx.outputs| - |s.htlcs| + i] == Output(HeldFor(info, holderA, rh, s.htlcs[i]), s.htlcs[i].amount))
    && PaidInAll(tx.outputs) + info.fee == s.balA + s.balB + HtlcSum(s.htlcs)
  }

  lemma {:induction false} PaidToAdds(a: seq<Output>, b: seq<Output>, to: Recipient)
    ensures PaidTo(a + b, to) == PaidTo(a, to) + PaidTo(b, to)
  {
    if a == [] {
      assert a + b == b;
    } else {
      PaidToAdds(a[1..], b, to);
      assert (a + b)[1..] == a[1..] + b;
    }
  }

  lemma {:induction false} PaidInAllAdds(a: seq<Output>, b: seq<Output>)
    ensures PaidInAll(a + b) == PaidInAll(a) + PaidInAll(b)
  {
    if a == [] {
      assert a + b == b;
    } else {
      PaidInAllAdds(a[1..], b);
      assert (a + b)[1..] == a[1..] + b;
    }
  }

  lemma {:induction false} PaidToNone(outs: seq<Output>, to: Recipient)
    requires forall i :: 0 <= i < |outs| ==> outs[i].to != to
    ensures PaidTo(outs, to) == 0
  {
    if outs != [] { PaidToNone(outs[1..], to); }
  }

  lemma {:induction false} HtlcsInAll(info: Info, revoker: string, rh: Digest, hs: seq<Htlc>)
    ensures PaidInAll(HtlcOutputs(info, revoker, rh, hs)) == HtlcSum(hs)
  {
    hide HtlcOutput;
    if hs != [] {
      HtlcsInAll(info, revoker, rh, hs[1..]);
      var outs := HtlcOutputs(info, revoker, rh, hs);
      assert outs[1..] == HtlcOutputs(info, revoker, rh, hs[1..]);
      HtlcAmount(info, revoker, rh, hs[0]);
    }
  }

  lemma HtlcAmount(info: Info, revoker: string, rh: Digest, h: Htlc)
    ensures HtlcOutput(info, revoker, rh, h).amount == h.amount
  {
  }

  lemma OneOutput(o: Output, to: Recipient)
    ensures PaidTo([o], to) == (if o.to == to then o.amount else 0) && PaidInAll([o]) == o.amount
  {
    assert [o][1..] == [] && PaidTo([], to) == 0 && PaidInAll([]) == 0;
  }

  /** The first output, for the holder. */
  lemma LocalPays(info: Info, holderA: bool, s: State, rh: Digest, to: Recipient)
    requires info.fee <= s.balA
    ensures var outs := ToLocalOutputs(info, holderA, s, rh);
            && PaidTo(outs, to) == (if to == DelayedFor(info, holderA, rh) then Due(info, s, holderA) else 0)
            && PaidInAll(outs) == Due(info, s, holderA)
  {
    var outs := ToLocalOutputs(info, holderA, s, rh);
    if outs != [] { OneOutput(outs[0], to); assert outs == [outs[0]]; }
  }

  /** The second, for the other side. */
  lemma RemotePays(info: Info, holderA: bool, s: State, to: Recipient)
    requires info.fee <= s.balA
    ensures var outs := ToRemoteOutputs(info, holderA, s);
            && PaidTo(outs, to) == (if to == Plain(SideOf(info, !holderA)) then Due(info, s, !holderA) else 0)
            && PaidInAll(outs) == Due(info, s, !holderA)
  {
    var outs := ToRemoteOutputs(info, holderA, s);
    if outs != [] { OneOutput(outs[0], to); assert outs == [outs[0]]; }
  }

  lemma HtlcsPayNone(info: Info, holderA: bool, rh: Digest, hs: seq<Htlc>, to: Recipient)
    requires to.Plain? || to == DelayedFor(info, holderA, rh)
    ensures PaidTo(HtlcOutputs(info, Holder(info, !holderA), rh, hs), to) == 0
  {
    PaidToNone(HtlcOutputs(info, Holder(info, !holderA), rh, hs), to);
  }

  lemma HtlcGoesTo(info: Info, holderA: bool, rh: Digest, h: Htlc)
    ensures HtlcOutput(info, Holder(info, !holderA), rh, h) == Output(HeldFor(info, holderA, rh, h), h.amount)
  {
  }

  lemma ThreeParts(a: seq<Output>, b: seq<Output>, c: seq<Output>, to: Recipient)
    ensures PaidTo(a + b + c, to) == PaidTo(a, to) + PaidTo(b, to) + PaidTo(c, to)
    ensures PaidInAll(a + b + c) == PaidInAll(a) + PaidInAll(b) + PaidInAll(c)
  {
    PaidToAdds(a + b, c, to);
    PaidToAdds(a, b, to);
    PaidInAllAdds(a + b, c);
    PaidInAllAdds(a, b);
  }

  lemma CommitmentSums(info: Info, holderA: bool, s: State, rh: Digest)
    requires info.fee <= s.balA
    ensures var outs := CommitmentTx(info, holderA, s, rh).outputs;
            && PaidTo(outs, Plain(SideOf(info, !holderA))) == Due(info, s, !holderA)
            && PaidTo(outs, DelayedFor(info, holderA, rh)) == Due(info, s, holderA)
            && PaidInAll(outs) == Due(info, s, holderA) + Due(info, s, !holderA) + HtlcSum(s.htlcs)
  {
    hide PaidTo, PaidInAll, ToLocalOutputs, ToRemoteOutputs, HtlcOutput, DelayedFor, Due, HtlcSum, SideOf;
    var a, b := ToLocalOutputs(info, holderA, s, rh), ToRemoteOutputs(info, holderA, s);
    var c := HtlcOutputs(info, Holder(info, !holderA), rh, s.htlcs);
    var own, other := DelayedFor(info, holderA, rh), Plain(SideOf(info, !holderA));
    DelayedIsScript(info, holderA, rh);
    ThreeParts(a, b, c, own);
    ThreeParts(a, b, c, other);
    LocalPays(info, holderA, s, rh, own);
    LocalPays(info, holderA, s, rh, other);
    RemotePays(info, holderA, s, own);
    RemotePays(info, holderA, s, other);
    HtlcsPayNone(info, holderA, rh, s.htlcs, own);
    HtlcsPayNone(info, holderA, rh, s.htlcs, other);
    HtlcsInAll(info, Holder(info, !holderA), rh, s.htlcs);
  }

  /** The last outputs are the HTLCs, in the order of the state. */
  lemma HtlcsLast(info: Info, holderA: bool, s: State, rh: Digest, i: nat)
    requires i < |s.htlcs|
    ensures var outs := CommitmentTx(info, holderA, s, rh).outputs;
            && |outs| >= |s.htlcs|
            && outs[|outs| - |s.htlcs| + i] == Output(HeldFor(info, holderA, rh, s.htlcs[i]), s.htlcs[i].amount)
  {
    hide CommitmentTx, ToLocalOutputs, ToRemoteOutputs, HtlcOutput, HeldFor;
    CommitmentHead(info, holderA, s, rh);
    CommitmentHtlc(info, holderA, s, rh, i);
    HtlcGoesTo(info, holderA, rh, s.htlcs[i]);
  }

  lemma CommitmentRest(info: Info, holderA: bool, s: State, rh: Digest)
    ensures var tx := CommitmentTx(info, holderA, s, rh);
            tx.inputs == [info.funding] && tx.fee == info.fee && tx.nonce == s.n && |tx.outputs| >= |s.htlcs|
  {
    hide ToLocalOutputs, ToRemoteOutputs, HtlcOutput;
    CommitmentHead(info, holderA, s, rh);
  }

  /** Every commitment pays both sides what the state gives them. */
  lemma CommitmentPays(info: Info, holderA: bool, s: State, rh: Digest)
    requires info.fee <= s.balA
    ensures PaysOut(info, holderA, s, rh, CommitmentTx(info, holderA, s, rh))
  {
    hide CommitmentTx, PaidTo, PaidInAll, DelayedFor, HeldFor, HtlcSum, SideOf;
    CommitmentRest(info, holderA, s, rh);
    CommitmentSums(info, holderA, s, rh);
    forall i | 0 <= i < |s.htlcs|
      ensures var outs := CommitmentTx(info, holderA, s, rh).outputs;
              outs[|outs| - |s.htlcs| + i] == Output(HeldFor(info, holderA, rh, s.htlcs[i]), s.htlcs[i].amount)
    {
      HtlcsLast(info, holderA, s, rh, i);
    }
  }

  lemma DelayedIsScript(info: Info, holderA: bool, rh: Digest)
    ensures DelayedFor(info, holderA, rh).ScriptHash?
  {
  }
}
