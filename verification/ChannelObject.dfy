/** The channel as the mutable object the program keeps, each method proved against the
    function of the same name in `Channel`. */
module ChannelObject {
  import opened Basics
  import opened Symbols
  import opened Channel
  import opened ChannelPenalty

  /** Every state that could be punished still can be. */
  ghost predicate KeepsCandidates(c: Chan, d: Chan) { forall n, x :: x in Candidates(c, n) ==> x in Candidates(d, n) }

  /** The secret of number `n` is known, and every commitment of that number this side may
      have signed is punished in full. */
  ghost predicate Punishable(c: Chan, n: nat) {
    && n in c.secrets && n in c.hashes && HashPreimage(c.secrets[n]) == c.hashes[n]
    && forall x: State :: x.n == n && x in Candidates(c, n) ==>
         var b := CommitmentTx(c.cfg.info, !c.cfg.isA, x, c.hashes[n]);
         PenaltyExact(c.cfg, b, c.hashes[n], c.secrets[n], Channel.PenaltyFor(c, b))
  }

  lemma NowPunishable(c: Chan, n: nat)
    requires n in c.secrets && n in c.hashes && HashPreimage(c.secrets[n]) == c.hashes[n]
    ensures Punishable(c, n)
  {
    hide CommitmentTx, Channel.PenaltyFor, PenaltyExact, Candidates;
    forall x: State | x.n == n && x in Candidates(c, n)
      ensures var b := CommitmentTx(c.cfg.info, !c.cfg.isA, x, c.hashes[n]);
              PenaltyExact(c.cfg, b, c.hashes[n], c.secrets[n], Channel.PenaltyFor(c, b))
    {
      PenaltyIsExact(c, x);
    }
  }

  class ChannelObj {
    const cfg: Config
    var cur: State
    var pending: Option<State>
    var sigCur: Option<Sig>
    var sigPending: Option<Sig>
    var hashes: map<nat, Digest>
    var secrets: map<nat, Preimage>
    var history: map<nat, State>
    var abandoned: seq<State>

    function View(): Chan
      reads this
    {
      Chan(cfg, cur, pending, sigCur, sigPending, hashes, secrets, history, abandoned)
    }

    constructor (cfg: Config, h0: Digest, h1: Digest)
      ensures this.cfg == cfg
      ensures View() == Chan(cfg, State(0, 0, 0, [], 0), None, None, None, map[0 := h0, 1 := h1], map[], map[], [])
    {
      this.cfg := cfg;
      cur := State(0, 0, 0, [], 0);
      pending, sigCur, sigPending := None, None, None;
      hashes := map[0 := h0, 1 := h1];
      secrets, history, abandoned := map[], map[], [];
    }

    method ValidateNext(next: State) returns (o: Outcome)
      ensures o == Channel.ValidateNext(View(), next)
    {
      if pending.Some? { return Err(InFlight); }
      if next.n != cur.n + 1 { return Err(BadNumber); }
      if next.n !in hashes { return Err(AwaitingRemote); }
      if next.balA < cfg.info.fee { return Err(FunderFee); }
      if |next.htlcs| > MAX_HTLCS { return Err(TooManyHtlcs); }
      var sum := 0;
      for i := 0 to |next.htlcs|
        invariant sum + HtlcSum(next.htlcs[i..]) == HtlcSum(next.htlcs)
      {
        assert next.htlcs[i..][1..] == next.htlcs[i + 1..];
        sum := sum + next.htlcs[i].amount;
      }
      if next.balA + next.balB + sum != cfg.info.capacity { return Err(Unbalanced); }
      for i := 0 to |next.htlcs|
        invariant forall k :: 0 <= k < i ==> !BadHtlcEntry(next.htlcs[k])
      {
        if next.htlcs[i].amount == 0 || next.htlcs[i].paymentHash.Size() != 128 {
          assert BadHtlcEntry(next.htlcs[i]);
          return Err(BadHtlc);
        }
      }
      o := Ok;
    }

    method ReceiveCommitSig(next: State, sigN: nat, sig: Sig) returns (o: Outcome)
      modifies this
      ensures (View(), o) == Channel.ReceiveCommitSig(old(View()), next, sigN, sig)
      ensures o.Err? ==> View() == old(View())
      ensures o.Ok? ==> Verifies(cfg.remoteKey, OwnCommitment(cfg, next), sig)
      ensures o.Ok? && !(next.n == 0 && old(sigCur).None?) ==>
                Channel.ValidateNext(old(View()), next).Ok? && cur == old(cur) && pending == Some(next) &&
                    sigPending == Some(sig)
    {
      var initial := next.n == 0 && sigCur.None?;
      if !initial {
        o := ValidateNext(next);
        if o.Err? { return; }
      }
      if sigN != next.n || !Verifies(cfg.remoteKey, OwnCommitment(cfg, next), sig) { return Err(BadSignature); }
      if initial {
        cur, sigCur := next, Some(sig);
      } else {
        pending, sigPending := Some(next), Some(sig);
      }
      o := Ok;
    }

    method RevokeAndAdvance() returns (r: Revoke)
      requires pending.Some?
      modifies this
      ensures (View(), r) == Channel.RevokeAndAdvance(old(View()))
      ensures r.revokedN == old(cur.n) && HashPreimage(r.secret) == cfg.RevHash(old(cur.n))
      ensures old(cur) in Candidates(View(), old(cur.n)) && sigCur == old(sigPending) && Some(cur) == old(pending)
      ensures forall n, x :: x in Candidates(old(View()), n) && n != old(cur.n) ==> x in Candidates(View(), n)
    {
      r := Revoke(cur.n, cfg.RevSecretAt(cur.n), cfg.RevHash(cur.n + 2));
      history := history[cur.n := cur];
      cur := pending.value;
      sigCur := sigPending;
      pending, sigPending := None, None;
    }

    method DropPending()
      modifies this
      ensures View() == Channel.DropPending(old(View()))
      ensures pending.None? && cur == old(cur) && KeepsCandidates(old(View()), View())
      ensures old(pending).Some? ==> old(pending).value in Candidates(View(), old(pending).value.n)
    {
      if pending.Some? { abandoned := abandoned + [pending.value]; }
      pending, sigPending := None, None;
    }

    method NoteAbandoned(s: State)
      modifies this`abandoned
      ensures View() == Channel.NoteAbandoned(old(View()), s)
      ensures KeepsCandidates(old(View()), View()) && s in Candidates(View(), s.n)
    {
      abandoned := abandoned + [s];
    }

    method ReceiveRevoke(r: Revoke) returns (o: Outcome)
      modifies this
      ensures (View(), o) == Channel.ReceiveRevoke(old(View()), r)
      ensures o.Err? ==> View() == old(View())
      ensures o.Ok? ==> Punishable(View(), r.revokedN) && cur == old(cur) && pending == old(pending)
    {
      if r.revokedN !in hashes || HashPreimage(r.secret) != hashes[r.revokedN] { return Err(SecretMismatch); }
      if r.nextHash.Size() != 128 { return Err(BadNextHash); }
      secrets := secrets[r.revokedN := r.secret];
      hashes := hashes[r.revokedN + 2 := r.nextHash];
      NowPunishable(View(), r.revokedN);
      o := Ok;
    }

    /** The abandoned states with number `n`, oldest first. */
    method AbandonedAt(n: nat) returns (r: seq<State>)
      ensures r == Numbered(abandoned, n)
    {
      hide Numbered;
      r := [];
      for i := 0 to |abandoned|
        invariant r + Numbered(abandoned[i..], n) == Numbered(abandoned, n)
      {
        NumberedStep(abandoned, i, n);
        if abandoned[i].n == n {
          Regroup(r, abandoned[i], Numbered(abandoned[i + 1..], n));
          r := r + [abandoned[i]];
        }
      }
      NumberedNone(n);
      assert abandoned[|abandoned|..] == [];
    }

    method FindCandidate(cands: seq<State>, rh: Digest, b: TxBody) returns (found: Option<State>)
      ensures found == FirstMatch(cfg, rh, cands, b)
    {
      hide CommitmentTx;
      for i := 0 to |cands|
        invariant FirstMatch(cfg, rh, cands, b) == FirstMatch(cfg, rh, cands[i..], b)
      {
        assert cands[i..][1..] == cands[i + 1..];
        if CommitmentTx(cfg.info, !cfg.isA, cands[i], rh) == b { return Some(cands[i]); }
      }
      found := None;
    }

    method TotalOf(b: TxBody, outs: seq<Claim>) returns (total: nat)
      requires ClaimsFit(b, outs)
      ensures total == ClaimedTotal(b, outs)
    {
      total := 0;
      for k := 0 to |outs|
        invariant total == ClaimedTotal(b, outs[..k])
      {
        assert outs[..k + 1][..k] == outs[..k];
        total := total + b.outputs[outs[k].vout].amount;
      }
      assert outs[..|outs|] == outs;
    }

    /** The penalty transaction for a published commitment. */
    method PenaltyFor(b: TxBody) returns (t: Option<Tx>)
      ensures t == Channel.PenaltyFor(View(), b)
    {
      hide CommitmentTx, RevocableClaims, PenaltyTx, FirstMatch, ClaimedTotal;
      if b.nonce !in secrets || b.nonce !in hashes { return None; }
      var rh := hashes[b.nonce];
      var dropped := AbandonedAt(b.nonce);
      var cands := (if b.nonce in history then [history[b.nonce]] else []) + dropped;
      var found := FindCandidate(cands, rh, b);
      if found.None? { return None; }
      FirstMatchSound(cfg, rh, cands, b);
      RevocableClaimsFit(cfg, found.value, rh);
      var outs := ClaimAll(b, found.value, rh);
      var total := TotalOf(b, outs);
      if total <= cfg.info.fee { return None; }
      t := Some(PenaltyTx(cfg, b, outs, secrets[b.nonce]));
    }

    /** The index of the first output paying to `script`. */
    method FindOutput(b: TxBody, script: Script) returns (r: Option<nat>)
      ensures r.Some? ==> r.value < |b.outputs| && b.outputs[r.value].to == ScriptHash(script)
      ensures forall k :: 0 <= k < (if r.Some? then r.value else |b.outputs|) ==> b.outputs[k].to != ScriptHash(script)
    {
      for i := 0 to |b.outputs|
        invariant forall k :: 0 <= k < i ==> b.outputs[k].to != ScriptHash(script)
      {
        if b.outputs[i].to == ScriptHash(script) { return Some(i); }
      }
      r := None;
    }

    /** The first output paying to `script` that no claim in `outs` has taken. */
    method FindUnclaimed(b: TxBody, script: Script, outs: seq<Claim>) returns (r: Option<nat>)
      ensures r.Some? ==> r.value < |b.outputs| && Free(b, script, outs, r.value)
      ensures forall k :: 0 <= k < (if r.Some? then r.value else |b.outputs|) ==> !Free(b, script, outs, k)
    {
      for i := 0 to |b.outputs|
        invariant forall k :: 0 <= k < i ==> !Free(b, script, outs, k)
      {
        var dup := false;
        for j := 0 to |outs|
          invariant dup <==> exists m :: 0 <= m < j && outs[m].vout == i
        {
          if outs[j].vout == i { dup := true; }
        }
        if !dup && b.outputs[i].to == ScriptHash(script) { return Some(i); }
      }
      r := None;
    }

    static predicate Free(b: TxBody, script: Script, outs: seq<Claim>, k: nat)
      requires k < |b.outputs|
    {
      b.outputs[k].to == ScriptHash(script) && forall m :: 0 <= m < |outs| ==> outs[m].vout != k
    }

    method ClaimAll(b: TxBody, s: State, rh: Digest) returns (outs: seq<Claim>)
      requires b == CommitmentTx(cfg.info, !cfg.isA, s, rh)
      ensures outs == RevocableClaims(cfg, s, rh)
    {
      hide CommitmentTx, HtlcClaims, ToLocalClaims, HtlcClaimScript, ToLocalScript, Free;
      var toLocal := ToLocalScript(cfg.Remote(), cfg.Local(), rh, cfg.info.toSelfDelay);
      var o := FindOutput(b, toLocal);
      outs := if o.Some? then [Claim(o.value, toLocal)] else [];
      ToLocalFound(cfg, b, s, rh, o);
      ghost var claims := HtlcClaims(cfg, s, rh);
      for k := 0 to |s.htlcs|
        invariant outs == ToLocalClaims(cfg, s, rh) + claims[..k]
      {
        var script := HtlcClaimScript(cfg, rh, s.htlcs[k]);
        var at := FindUnclaimed(b, script, outs);
        HtlcFound(cfg, b, s, rh, k, outs, at);
        if at.Some? { outs := outs + [Claim(at.value, script)]; }
        assert claims[..k + 1] == claims[..k] + [claims[k]];
      }
      assert claims[..|s.htlcs|] == claims;
    }
  }

  /** No HTLC script is a to-local script, so the scan finds position 0 or nothing. */
  lemma ToLocalFound(cfg: Config, b: TxBody, s: State, rh: Digest, o: Option<nat>)
    requires b == CommitmentTx(cfg.info, !cfg.isA, s, rh)
    requires var to := ScriptHash(ToLocalScript(cfg.Remote(), cfg.Local(), rh, cfg.info.toSelfDelay));
             && (o.Some? ==> o.value < |b.outputs| && b.outputs[o.value].to == to)
             && (forall k :: 0 <= k < (if o.Some? then o.value else |b.outputs|) ==> b.outputs[k].to != to)
    ensures var script := ToLocalScript(cfg.Remote(), cfg.Local(), rh, cfg.info.toSelfDelay);
            (if o.Some? then [Claim(o.value, script)] else []) == ToLocalClaims(cfg, s, rh)
  {
    hide CommitmentTx;
    CommitmentHead(cfg.info, !cfg.isA, s, rh);
    var x, y := |ToLocalOutputs(cfg.info, !cfg.isA, s, rh)|, |ToRemoteOutputs(cfg.info, !cfg.isA, s)|;
    if o.Some? && x + y <= o.value { CommitmentHtlc(cfg.info, !cfg.isA, s, rh, o.value - x - y); }
  }

  /** With the first `k` HTLCs claimed, every output before the next HTLC's own is
      taken or pays elsewhere ... */
  lemma {:induction false} TakenBefore(cfg: Config, b: TxBody, s: State, rh: Digest, k: nat, outs: seq<Claim>, j: nat)
    requires b == CommitmentTx(cfg.info, !cfg.isA, s, rh) && k < |s.htlcs|
    requires outs == ToLocalClaims(cfg, s, rh) + HtlcClaims(cfg, s, rh)[..k]
    requires j < |ToLocalOutputs(cfg.info, !cfg.isA, s, rh)| + |ToRemoteOutputs(cfg.info, !cfg.isA, s)| + k
    ensures j < |b.outputs| && !ChannelObj.Free(b, HtlcClaimScript(cfg, rh, s.htlcs[k]), outs, j)
  {
    hide CommitmentTx, HtlcClaimScript, HtlcOutput;
    CommitmentHead(cfg.info, !cfg.isA, s, rh);
    var x, y := |ToLocalOutputs(cfg.info, !cfg.isA, s, rh)|, |ToRemoteOutputs(cfg.info, !cfg.isA, s)|;
    var claims := HtlcClaims(cfg, s, rh);
    if j < x {
      assert outs[0] == ToLocalClaims(cfg, s, rh)[0];
    } else if x + y <= j {
      assert outs[x + (j - x - y)] == claims[j - x - y];
    }
  }

  /** ... so the first free output with its address is its own, even if several HTLCs
      share the address. */
  lemma {:induction false} HtlcFound(cfg: Config, b: TxBody, s: State, rh: Digest, k: nat, outs: seq<Claim>,
      at: Option<nat>)
    requires b == CommitmentTx(cfg.info, !cfg.isA, s, rh) && k < |s.htlcs|
    requires outs == ToLocalClaims(cfg, s, rh) + HtlcClaims(cfg, s, rh)[..k]
    requires var script := HtlcClaimScript(cfg, rh, s.htlcs[k]);
             && (at.Some? ==> at.value < |b.outputs| && ChannelObj.Free(b, script, outs, at.value))
             && (forall j :: 0 <= j < (if at.Some? then at.value else |b.outputs|) ==>
                  !ChannelObj.Free(b, script, outs, j))
    ensures at.Some? && Claim(at.value, HtlcClaimScript(cfg, rh, s.htlcs[k])) == HtlcClaims(cfg, s, rh)[k]
  {
    hide CommitmentTx, HtlcClaimScript, HtlcOutput;
    HtlcClaimFits(cfg, s, rh, k);
    var own := |ToLocalOutputs(cfg.info, !cfg.isA, s, rh)| + |ToRemoteOutputs(cfg.info, !cfg.isA, s)| + k;
    assert ChannelObj.Free(b, HtlcClaimScript(cfg, rh, s.htlcs[k]), outs, own);
    if at.Some? && at.value < own { TakenBefore(cfg, b, s, rh, k, outs, at.value); }
  }

  lemma NumberedStep(ss: seq<State>, i: nat, n: nat)
    requires i < |ss|
    ensures Numbered(ss[i..], n) == if ss[i].n == n then [ss[i]] + Numbered(ss[i + 1..], n)
            else Numbered(ss[i + 1..], n)
  {
    assert ss[i..][1..] == ss[i + 1..];
  }

  lemma NumberedNone(n: nat)
    ensures Numbered([], n) == []
  {
  }

  lemma Regroup(r: seq<State>, s: State, rest: seq<State>)
    ensures r + ([s] + rest) == (r + [s]) + rest
  {
  }
}
