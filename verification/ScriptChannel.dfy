/** Who can spend the outputs of a channel, and when. */
module ScriptChannel {
  import opened Basics
  import opened Text
  import opened Witness
  import opened Script
  import opened ScriptExact
  import opened ScriptSpend

  // ---------------------------------------------------------- the texts channels build

  function FundingText(a: string, b: string): string { "and(pk(" + a + "),pk(" + b + "))" }

  function ToLocalText(holder: string, other: string, rh: string, delay: nat): string {
    "or(and(pk(" + other + "),sha3(" + rh + ")),and(pk(" + holder + "),older(" + Decimal(delay) + ")))"
  }

  function HtlcText(revoker: string, offerer: string, receiver: string, rh: string, ph: string, expiry: nat): string {
    "or(and(pk(" + revoker + "),sha3(" + rh + ")),or(and(pk(" + receiver + "),sha3(" + ph + ")),and(pk(" + offerer +
        "),after(" + Decimal(expiry) + "))))"
  }

  function ToLocal(holder: string, other: string, rh: string, delay: nat): Node {
    Or(And(Pk(other), Sha3(rh)), And(Pk(holder), Older(delay)))
  }

  function Htlc(revoker: string, offerer: string, receiver: string, rh: string, ph: string, expiry: nat): Node {
    Or(And(Pk(revoker), Sha3(rh)), Or(And(Pk(receiver), Sha3(ph)), And(Pk(offerer), After(expiry))))
  }

  lemma KeyHash(a: string, h: string)
    ensures Show(And(Pk(a), Sha3(h))) == "and(pk(" + a + "),sha3(" + h + "))"
  {
    assert Show(Pk(a)) == "pk(" + a + ")" && Show(Sha3(h)) == "sha3(" + h + ")";
    assert Show(And(Pk(a), Sha3(h))) == "and(" + ("pk(" + a + ")") + "," + ("sha3(" + h + ")") + ")";
  }

  lemma KeyOlder(a: string, n: nat)
    ensures Show(And(Pk(a), Older(n))) == "and(pk(" + a + "),older(" + Decimal(n) + "))"
  {
    hide Decimal;
    assert Show(Pk(a)) == "pk(" + a + ")" && Show(Older(n)) == "older(" + Decimal(n) + ")";
    assert Show(And(Pk(a), Older(n))) == "and(" + ("pk(" + a + ")") + "," + ("older(" + Decimal(n) + ")") + ")";
  }

  lemma KeyAfter(a: string, n: nat)
    ensures Show(And(Pk(a), After(n))) == "and(pk(" + a + "),after(" + Decimal(n) + "))"
  {
    hide Decimal;
    assert Show(Pk(a)) == "pk(" + a + ")" && Show(After(n)) == "after(" + Decimal(n) + ")";
    assert Show(And(Pk(a), After(n))) == "and(" + ("pk(" + a + ")") + "," + ("after(" + Decimal(n) + ")") + ")";
  }

  lemma ShowOr(a: Node, b: Node)
    ensures Show(Or(a, b)) == "or(" + Show(a) + "," + Show(b) + ")"
  {
  }

  lemma FundingShows(a: string, b: string)
    ensures FundingText(a, b) == Show(And(Pk(a), Pk(b)))
  {
    assert Show(Pk(a)) == "pk(" + a + ")" && Show(Pk(b)) == "pk(" + b + ")";
    assert Show(And(Pk(a), Pk(b))) == "and(" + ("pk(" + a + ")") + "," + ("pk(" + b + ")") + ")";
  }

  lemma ToLocalShows(holder: string, other: string, rh: string, delay: nat)
    ensures ToLocalText(holder, other, rh, delay) == Show(ToLocal(holder, other, rh, delay))
  {
    hide Show, Decimal;
    KeyHash(other, rh);
    KeyOlder(holder, delay);
    ShowOr(And(Pk(other), Sha3(rh)), And(Pk(holder), Older(delay)));
  }

  /** The part of an HTLC script that does not concern revocation. */
  function ClaimText(offerer: string, receiver: string, ph: string, expiry: nat): string {
    "or(and(pk(" + receiver + "),sha3(" + ph + ")),and(pk(" + offerer + "),after(" + Decimal(expiry) + ")))"
  }

  function Claiming(offerer: string, receiver: string, ph: string, expiry: nat): Node {
    Or(And(Pk(receiver), Sha3(ph)), And(Pk(offerer), After(expiry)))
  }

  lemma ClaimShows(offerer: string, receiver: string, ph: string, expiry: nat)
    ensures ClaimText(offerer, receiver, ph, expiry) == Show(Claiming(offerer, receiver, ph, expiry))
  {
    hide Show, Decimal;
    KeyHash(receiver, ph);
    KeyAfter(offerer, expiry);
    ShowOr(And(Pk(receiver), Sha3(ph)), And(Pk(offerer), After(expiry)));
  }

  lemma HtlcTextSplits(revoker: string, offerer: string, receiver: string, rh: string, ph: string, expiry: nat)
    ensures HtlcText(revoker, offerer, receiver, rh, ph, expiry) ==
            "or(and(pk(" + revoker + "),sha3(" + rh + "))," + ClaimText(offerer, receiver, ph, expiry) + ")"
  {
    hide Decimal;
  }

  lemma HtlcShows(revoker: string, offerer: string, receiver: string, rh: string, ph: string, expiry: nat)
    ensures HtlcText(revoker, offerer, receiver, rh, ph,
            expiry) == Show(Htlc(revoker, offerer, receiver, rh, ph, expiry))
  {
    hide Show, Decimal, HtlcText, ClaimText;
    HtlcTextSplits(revoker, offerer, receiver, rh, ph, expiry);
    ClaimShows(offerer, receiver, ph, expiry);
    KeyHash(revoker, rh);
    ShowOr(And(Pk(revoker), Sha3(rh)), Or(And(Pk(receiver), Sha3(ph)), And(Pk(offerer), After(expiry))));
  }

  // --------------------------------------------------------------------- who may spend

  /** An output that pays to the script `n`. */
  predicate PaysTo(cr: Crypto, owner: string, n: Node) { IsScriptAddress(owner) && owner == cr.address(Show(n)) }

  /** A script output whose text the node can parse. */
  predicate Payable(cr: Crypto, owner: string, n: Node) {
    && PaysTo(cr, owner, n) && WellFormed(n) && |Show(n)| <= MAX_SCRIPT_BYTES
    && Size(n) <= MAX_NODES && Depth(n) <= MAX_DEPTH
  }

  /** The form of every address a key can belong to. */
  predicate Address(a: string) { AtomOk(a) && |a| <= 128 }

  /** What must hold of the figures in a channel output for anybody to spend it. */
  predicate ToLocalOk(rh: string, delay: nat) { HashOk(rh) && delay < NUMBER_LIMIT }

  predicate HtlcOk(rh: string, ph: string, expiry: nat) { HashOk(rh) && HashOk(ph) && expiry < NUMBER_LIMIT }

  lemma KeyedWell(a: string, n: Node)
    requires Address(a) && IsLeaf(n)
    ensures WellFormed(And(Pk(a), n)) <==> WellFormed(n)
    ensures Size(And(Pk(a), n)) == 3 && Depth(And(Pk(a), n)) == 1
  {
    hide WellFormed, AtomOk;
    PairText("and", Pk(a), n);
    assert WellFormed(Pk(a)) by { PkFine(Pk(a)); }
  }

  lemma NumberWell(k: nat)
    ensures WellFormed(After(k)) <==> k < NUMBER_LIMIT
    ensures WellFormed(Older(k)) <==> k < NUMBER_LIMIT
  {
    TwelveDigits(k);
  }

  lemma HashWell(h: string)
    ensures WellFormed(Sha3(h)) <==> HashOk(h)
  {
  }

  lemma ToLocalWell(holder: string, other: string, rh: string, delay: nat)
    requires Address(holder) && Address(other)
    ensures var n := ToLocal(holder, other, rh, delay);
            && (WellFormed(n) <==> ToLocalOk(rh, delay)) && Size(n) <= MAX_NODES && Depth(n) <= MAX_DEPTH
            && (WellFormed(n) ==> |Show(n)| <= MAX_SCRIPT_BYTES)
  {
    hide WellFormed, HashOk, AtomOk, Show, Decimal, Size, Depth;
    KeyedWell(other, Sha3(rh));
    KeyedWell(holder, Older(delay));
    HashWell(rh);
    NumberWell(delay);
    TwelveDigits(delay);
    PairText("or", And(Pk(other), Sha3(rh)), And(Pk(holder), Older(delay)));
    ToLocalShows(holder, other, rh, delay);
    if HashOk(rh) { HexIsClosed(rh); }
  }

  lemma HtlcWell(revoker: string, offerer: string, receiver: string, rh: string, ph: string, expiry: nat)
    requires Address(revoker) && Address(offerer) && Address(receiver)
    ensures var n := Htlc(revoker, offerer, receiver, rh, ph, expiry);
            && (WellFormed(n) <==> HtlcOk(rh, ph, expiry)) && Size(n) <= MAX_NODES && Depth(n) <= MAX_DEPTH
            && (WellFormed(n) ==> |Show(n)| <= MAX_SCRIPT_BYTES)
  {
    hide WellFormed, HashOk, AtomOk, Show, Decimal, Size, Depth;
    KeyedWell(revoker, Sha3(rh));
    KeyedWell(receiver, Sha3(ph));
    KeyedWell(offerer, After(expiry));
    HashWell(rh);
    HashWell(ph);
    NumberWell(expiry);
    TwelveDigits(expiry);
    PairText("or", And(Pk(receiver), Sha3(ph)), And(Pk(offerer), After(expiry)));
    PairText("or", And(Pk(revoker), Sha3(rh)), Claiming(offerer, receiver, ph, expiry));
    HtlcShows(revoker, offerer, receiver, rh, ph, expiry);
    if HashOk(rh) { HexIsClosed(rh); }
    if HashOk(ph) { HexIsClosed(ph); }
  }

  /** Whatever the figures: the script of a to-local output can be read by no other script,
      and by itself exactly if they are in order. */
  lemma ToLocalReadable(m: Node, holder: string, other: string, rh: string, delay: nat)
    requires Address(holder) && Address(other) && WellFormed(m) && Show(m) == Show(ToLocal(holder, other, rh, delay))
    ensures ToLocalOk(rh, delay)
  {
    hide Show, WellFormed, AtomOk, ToLocalOk;
    var c := And(Pk(holder), Older(delay));
    assert Sized(c) by { assert Sized(Pk(holder)) && Sized(Older(delay)); }
    RevokingReadable(m, other, rh, c);
    ToLocalWell(holder, other, rh, delay);
  }

  lemma HtlcReadable(m: Node, revoker: string, offerer: string, receiver: string, rh: string, ph: string, expiry: nat)
    requires Address(revoker) && Address(offerer) && Address(receiver) && |ph| <= 128 && WellFormed(m)
    requires Show(m) == Show(Htlc(revoker, offerer, receiver, rh, ph, expiry))
    ensures HtlcOk(rh, ph, expiry)
  {
    hide Show, WellFormed, AtomOk, HtlcOk;
    var c := Claiming(offerer, receiver, ph, expiry);
    assert Sized(c) by {
      assert Sized(Pk(receiver)) && Sized(Sha3(ph)) && Sized(Pk(offerer)) && Sized(After(expiry));
      assert Sized(And(Pk(receiver), Sha3(ph))) && Sized(And(Pk(offerer), After(expiry)));
    }
    RevokingReadable(m, revoker, rh, c);
    HtlcWell(revoker, offerer, receiver, rh, ph, expiry);
  }

  /** No other text hashes to the output. */
  ghost predicate NoCollision(cr: Crypto, owner: string, n: Node) {
    forall t :: cr.address(t) == owner ==> t == Show(n)
  }

  /** A witness with one signature and the given preimages. */
  function OneSig(n: Node, sig: (string, string), pres: seq<string>): Spend { Spend(Show(n), [sig], pres) }

  ghost predicate Spends(cr: Crypto, owner: string, w: Spend, cx: Context) {
    exists v, m :: MaySpend(cr, owner, Encode(w), cx, v, m)
  }

  /** On a payable output, the witness text is judged by the output's own script. */
  lemma JudgedBy(cr: Crypto, owner: string, n: Node, w: Spend, cx: Context)
    requires Payable(cr, owner, n) && Carried(w) && w.script == Show(n)
    ensures Spends(cr, owner, w, cx) <==> Holds(cr, cx, w, n) && NothingSpare(cr, cx, w, n)
  {
    hide Holds, NothingSpare, Show, WellFormed, Carried, Encode, Decode, Parse;
    if Holds(cr, cx, w, n) && NothingSpare(cr, cx, w, n) { assert MaySpend(cr, owner, Encode(w), cx, w, n); }
    if Spends(cr, owner, w, cx) {
      var v, m :| MaySpend(cr, owner, Encode(w), cx, v, m);
      DecodeIff(Encode(w), v);
      DecodeIff(Encode(w), w);
      ParseIff(Show(n), n);
      ParseIff(Show(n), m);
    }
  }

  /** Whatever spends a payable output satisfies its script. */
  lemma OnlyBy(cr: Crypto, owner: string, n: Node, text: string, w: Spend, m: Node, cx: Context)
    requires Payable(cr, owner, n) && NoCollision(cr, owner, n) && MaySpend(cr, owner, text, cx, w, m)
    ensures Holds(cr, cx, w, n)
  {
    hide Holds, NothingSpare, Show, WellFormed, Carried, Encode, Decode, Parse;
    assert Show(m) == Show(n);
    ParseIff(Show(n), n);
    ParseIff(Show(n), m);
  }

  lemma OneSigSpare(cr: Crypto, cx: Context, w: Spend, n: Node, a: string)
    requires |w.sigs| == 1 && Signs(cr, cx, a, w.sigs[0]) && Pk(a) in Leaves(n)
    ensures forall k :: 0 <= k < |w.sigs| ==> SigNeeded(cr, cx, w, n, k)
  {
    hide Leaves, Signs;
    assert FirstSig(cr, cx, a, w.sigs) == 0;
  }

  lemma OnePreSpare(cr: Crypto, w: Spend, n: Node, h: string)
    requires |w.preimages| == 1 && cr.sha3(w.preimages[0]) == h && Sha3(h) in Leaves(n)
    ensures forall k :: 0 <= k < |w.preimages| ==> PreNeeded(cr, w, n, k)
  {
    hide Leaves;
    assert FirstPre(cr, h, w.preimages) == 0;
  }

  lemma ToLocalLeaves(holder: string, other: string, rh: string, delay: nat)
    ensures Leaves(ToLocal(holder, other, rh, delay)) == {Pk(other), Sha3(rh), Pk(holder), Older(delay)}
  {
    assert Leaves(And(Pk(other), Sha3(rh))) == Leaves(Pk(other)) + Leaves(Sha3(rh));
    assert Leaves(And(Pk(holder), Older(delay))) == Leaves(Pk(holder)) + Leaves(Older(delay));
  }

  lemma HtlcLeaves(revoker: string, offerer: string, receiver: string, rh: string, ph: string, expiry: nat)
    ensures Leaves(Htlc(revoker, offerer, receiver, rh, ph, expiry)) == {Pk(revoker), Sha3(rh), Pk(receiver), Sha3(ph),
            Pk(offerer), After(expiry)}
  {
    var r, p, o := And(Pk(revoker), Sha3(rh)), And(Pk(receiver), Sha3(ph)), And(Pk(offerer), After(expiry));
    assert Leaves(r) == Leaves(Pk(revoker)) + Leaves(Sha3(rh));
    assert Leaves(p) == Leaves(Pk(receiver)) + Leaves(Sha3(ph));
    assert Leaves(o) == Leaves(Pk(offerer)) + Leaves(After(expiry));
    assert Leaves(Or(p, o)) == Leaves(p) + Leaves(o);
  }

  ghost predicate HasSig(cr: Crypto, cx: Context, w: Spend, a: string) {
    exists s :: s in w.sigs && Signs(cr, cx, a, s)
  }

  ghost predicate HasPre(cr: Crypto, w: Spend, h: string) { exists p :: p in w.preimages && cr.sha3(p) == h }

  lemma ToLocalHolds(cr: Crypto, cx: Context, w: Spend, holder: string, other: string, rh: string, delay: nat)
    ensures Holds(cr, cx, w, ToLocal(holder, other, rh, delay)) <==>
            (HasSig(cr, cx, w, other) && HasPre(cr, w, rh)) ||
                (HasSig(cr, cx, w, holder) && cx.spendHeight >= cx.utxoHeight + delay)
  {
    hide Signs;
    assert Holds(cr, cx, w, And(Pk(other), Sha3(rh))) <==> HasSig(cr, cx, w, other) && HasPre(cr, w, rh);
    assert Holds(cr, cx, w, And(Pk(holder), Older(delay))) <==>
        HasSig(cr, cx, w, holder) && cx.spendHeight >= cx.utxoHeight + delay;
  }

  lemma HtlcHolds(cr: Crypto, cx: Context, w: Spend, revoker: string, offerer: string, receiver: string, rh: string,
      ph: string, expiry: nat)
    ensures Holds(cr, cx, w, Htlc(revoker, offerer, receiver, rh, ph, expiry)) <==>
            || (HasSig(cr, cx, w, revoker) && HasPre(cr, w, rh))
            || (HasSig(cr, cx, w, receiver) && HasPre(cr, w, ph))
            || (HasSig(cr, cx, w, offerer) && cx.spendHeight >= expiry)
  {
    hide Signs;
    var p, o := And(Pk(receiver), Sha3(ph)), And(Pk(offerer), After(expiry));
    assert Holds(cr, cx, w, And(Pk(revoker), Sha3(rh))) <==> HasSig(cr, cx, w, revoker) && HasPre(cr, w, rh);
    assert Holds(cr, cx, w, p) <==> HasSig(cr, cx, w, receiver) && HasPre(cr, w, ph);
    assert Holds(cr, cx, w, o) <==> HasSig(cr, cx, w, offerer) && cx.spendHeight >= expiry;
    assert Holds(cr, cx, w, Or(p, o)) <==> Holds(cr, cx, w, p) || Holds(cr, cx, w, o);
  }

  /** The holder's own output: if its figures are in order, the other side spends it with the
      revocation secret at any height, the holder exactly from the delay on, and nobody else
      does; if they are not, nobody ever does. */
  lemma ToLocalSpendable(cr: Crypto, cx: Context, owner: string, holder: string, other: string, rh: string, delay: nat,
      sig: (string, string), secret: string)
    requires Address(holder) && Address(other)
    requires var n := ToLocal(holder, other, rh, delay); PaysTo(cr, owner, n) && NoCollision(cr, owner, n)
    ensures var n := ToLocal(holder, other, rh, delay);
            && (Carried(OneSig(n, sig, [secret])) && Signs(cr, cx, other, sig) && cr.sha3(secret) == rh ==>
                  (Spends(cr, owner, OneSig(n, sig, [secret]), cx) <==> ToLocalOk(rh, delay)))
            && (Carried(OneSig(n, sig, [])) && Signs(cr, cx, holder, sig) ==>
                  (Spends(cr, owner, OneSig(n, sig, []), cx) <==>
                     ToLocalOk(rh, delay) && cx.spendHeight >= cx.utxoHeight + delay))
            && (forall text, w, m :: MaySpend(cr, owner, text, cx, w, m) ==>
                  && ToLocalOk(rh, delay)
                  && (|| (HasSig(cr, cx, w, other) && HasPre(cr, w, rh))
                      || (HasSig(cr, cx, w, holder) && cx.spendHeight >= cx.utxoHeight + delay)))
  {
    hide Signs, Show, Holds, Leaves, Carried, Payable, ToLocal, MaySpend, NoCollision, FirstSig, FirstPre, ToLocalOk,
        HasSig, HasPre, PaysTo;
    forall text, w, m | MaySpend(cr, owner, text, cx, w, m)
      ensures && ToLocalOk(rh, delay)
              && (|| (HasSig(cr, cx, w, other) && HasPre(cr, w, rh))
                  || (HasSig(cr, cx, w, holder) && cx.spendHeight >= cx.utxoHeight + delay))
    {
      ToLocalOnly(cr, cx, owner, holder, other, rh, delay, text, w, m);
    }
    if ToLocalOk(rh, delay) { ToLocalBy(cr, cx, owner, holder, other, rh, delay, sig, secret); }
    var wh := OneSig(ToLocal(holder, other, rh, delay), sig, []);
    if Carried(wh) && Spends(cr, owner, wh, cx) {
      var m := SpendsItself(cr, owner, wh, cx);
      NoPreimage(cr, wh, rh);
    }
  }

  /** Whatever spends a to-local output. */
  lemma ToLocalOnly(cr: Crypto, cx: Context, owner: string, holder: string, other: string, rh: string, delay: nat,
      text: string, w: Spend, m: Node)
    requires Address(holder) && Address(other) && MaySpend(cr, owner, text, cx, w, m)
    requires var n := ToLocal(holder, other, rh, delay); PaysTo(cr, owner, n) && NoCollision(cr, owner, n)
    ensures ToLocalOk(rh, delay)
    ensures || (HasSig(cr, cx, w, other) && HasPre(cr, w, rh))
            || (HasSig(cr, cx, w, holder) && cx.spendHeight >= cx.utxoHeight + delay)
  {
    hide Signs, Show, Holds, WellFormed, Carried, ToLocal, HasSig, HasPre, NothingSpare, Encode, ToLocalOk, Size, Depth;
    var n := ToLocal(holder, other, rh, delay);
    assert Show(m) == Show(n);
    ToLocalReadable(m, holder, other, rh, delay);
    ToLocalWell(holder, other, rh, delay);
    OnlyBy(cr, owner, n, text, w, m, cx);
    ToLocalHolds(cr, cx, w, holder, other, rh, delay);
  }

  /** Spending a to-local output whose figures are in order. */
  lemma ToLocalBy(cr: Crypto, cx: Context, owner: string, holder: string, other: string, rh: string, delay: nat,
      sig: (string, string), secret: string)
    requires Address(holder) && Address(other) && ToLocalOk(rh, delay)
    requires PaysTo(cr, owner, ToLocal(holder, other, rh, delay))
    ensures var n := ToLocal(holder, other, rh, delay);
            && (Carried(OneSig(n, sig, [secret])) && Signs(cr, cx, other, sig) && cr.sha3(secret) == rh ==>
                  Spends(cr, owner, OneSig(n, sig, [secret]), cx))
            && (Carried(OneSig(n, sig, [])) && Signs(cr, cx, holder, sig) ==>
                  cx.spendHeight >= cx.utxoHeight + delay ==> Spends(cr, owner, OneSig(n, sig, []), cx))
  {
    hide Signs, Show, Holds, Leaves, Carried, Spends, ToLocal, MaySpend, FirstSig, FirstPre, ToLocalOk, WellFormed,
        Size, Depth, PaysTo;
    var n := ToLocal(holder, other, rh, delay);
    ToLocalWell(holder, other, rh, delay);
    ToLocalLeaves(holder, other, rh, delay);
    var wr, wh := OneSig(n, sig, [secret]), OneSig(n, sig, []);
    assert sig in wr.sigs && secret in wr.preimages && sig in wh.sigs;
    ToLocalHolds(cr, cx, wr, holder, other, rh, delay);
    ToLocalHolds(cr, cx, wh, holder, other, rh, delay);
    if Carried(wr) { JudgedBy(cr, owner, n, wr, cx); }
    if Carried(wh) { JudgedBy(cr, owner, n, wh, cx); }
    if Signs(cr, cx, other, sig) { OneSigSpare(cr, cx, wr, n, other); }
    if Signs(cr, cx, holder, sig) { OneSigSpare(cr, cx, wh, n, holder); }
    if cr.sha3(secret) == rh { OnePreSpare(cr, wr, n, rh); }
  }

  /** An HTLC output: if its figures are in order, the revoker with the secret and the
      receiver with the preimage spend it at any height, the offerer exactly from the expiry
      on, and nobody else does; if they are not, nobody ever does. The channel only checks
      that the payment hash has the length of a hash. */
  lemma HtlcSpendable(cr: Crypto, cx: Context, owner: string, revoker: string, offerer: string, receiver: string,
      rh: string, ph: string, expiry: nat, sig: (string, string), secret: string)
    requires Address(revoker) && Address(offerer) && Address(receiver) && |ph| <= 128
    requires var n := Htlc(revoker, offerer, receiver, rh, ph, expiry);
             PaysTo(cr, owner, n) && NoCollision(cr, owner, n)
    ensures var n := Htlc(revoker, offerer, receiver, rh, ph, expiry);
            && (Carried(OneSig(n, sig, [secret])) && Signs(cr, cx, revoker, sig) && cr.sha3(secret) == rh ==>
                 (Spends(cr, owner, OneSig(n, sig, [secret]), cx) <==> HtlcOk(rh, ph, expiry)))
            && (Carried(OneSig(n, sig, [secret])) && Signs(cr, cx, receiver, sig) && cr.sha3(secret) == ph ==>
                 (Spends(cr, owner, OneSig(n, sig, [secret]), cx) <==> HtlcOk(rh, ph, expiry)))
            && (Carried(OneSig(n, sig, [])) && Signs(cr, cx, offerer, sig) ==>
                  (Spends(cr, owner, OneSig(n, sig, []), cx) <==>
                     HtlcOk(rh, ph, expiry) && cx.spendHeight >= expiry))
            && (forall text, w, m :: MaySpend(cr, owner, text, cx, w, m) ==>
                  && HtlcOk(rh, ph, expiry)
                  && (|| (HasSig(cr, cx, w, revoker) && HasPre(cr, w, rh))
                      || (HasSig(cr, cx, w, receiver) && HasPre(cr, w, ph))
                      || (HasSig(cr, cx, w, offerer) && cx.spendHeight >= expiry)))
  {
    hide Signs, Show, Holds, Leaves, Carried, Payable, Htlc, MaySpend, NoCollision, FirstSig, FirstPre, HtlcOk, HasSig,
        HasPre, PaysTo;
    forall text, w, m | MaySpend(cr, owner, text, cx, w, m)
      ensures && HtlcOk(rh, ph, expiry)
              && (|| (HasSig(cr, cx, w, revoker) && HasPre(cr, w, rh))
                  || (HasSig(cr, cx, w, receiver) && HasPre(cr, w, ph))
                  || (HasSig(cr, cx, w, offerer) && cx.spendHeight >= expiry))
    {
      HtlcOnly(cr, cx, owner, revoker, offerer, receiver, rh, ph, expiry, text, w, m);
    }
    if HtlcOk(rh, ph, expiry) { HtlcBy(cr, cx, owner, revoker, offerer, receiver, rh, ph, expiry, sig, secret); }
    var wo := OneSig(Htlc(revoker, offerer, receiver, rh, ph, expiry), sig, []);
    if Carried(wo) && Spends(cr, owner, wo, cx) {
      var m := SpendsItself(cr, owner, wo, cx);
      NoPreimage(cr, wo, rh);
      NoPreimage(cr, wo, ph);
    }
  }

  /** A witness text spends as the witness it encodes. */
  lemma SpendsItself(cr: Crypto, owner: string, w: Spend, cx: Context) returns (m: Node)
    requires Carried(w) && Spends(cr, owner, w, cx)
    ensures MaySpend(cr, owner, Encode(w), cx, w, m)
  {
    hide MaySpend, Carried, Encode, Decode;
    var v, n :| MaySpend(cr, owner, Encode(w), cx, v, n);
    SpendDecodes(cr, owner, Encode(w), cx, v, n);
    DecodeIff(Encode(w), w);
    m := n;
  }

  lemma SpendDecodes(cr: Crypto, owner: string, text: string, cx: Context, v: Spend, n: Node)
    requires MaySpend(cr, owner, text, cx, v, n)
    ensures Decode(text) == Some(v)
  {
    hide Carried, Encode, Decode, Holds, NothingSpare, Readable;
    DecodeIff(text, v);
  }

  lemma NoPreimage(cr: Crypto, w: Spend, h: string)
    requires w.preimages == []
    ensures !HasPre(cr, w, h)
  {
  }

  lemma HtlcOnly(cr: Crypto, cx: Context, owner: string, revoker: string, offerer: string, receiver: string,
      rh: string, ph: string, expiry: nat, text: string, w: Spend, m: Node)
    requires Address(revoker) && Address(offerer) && Address(receiver) && |ph| <= 128
    requires MaySpend(cr, owner, text, cx, w, m)
    requires var n := Htlc(revoker, offerer, receiver, rh, ph, expiry);
             PaysTo(cr, owner, n) && NoCollision(cr, owner, n)
    ensures HtlcOk(rh, ph, expiry)
    ensures || (HasSig(cr, cx, w, revoker) && HasPre(cr, w, rh))
            || (HasSig(cr, cx, w, receiver) && HasPre(cr, w, ph))
            || (HasSig(cr, cx, w, offerer) && cx.spendHeight >= expiry)
  {
    hide Signs, Show, Holds, WellFormed, Carried, Htlc, HasSig, HasPre, NothingSpare, Encode, HtlcOk, Size, Depth;
    var n := Htlc(revoker, offerer, receiver, rh, ph, expiry);
    assert Show(m) == Show(n);
    HtlcReadable(m, revoker, offerer, receiver, rh, ph, expiry);
    HtlcWell(revoker, offerer, receiver, rh, ph, expiry);
    OnlyBy(cr, owner, n, text, w, m, cx);
    HtlcHolds(cr, cx, w, revoker, offerer, receiver, rh, ph, expiry);
  }

  lemma HtlcBy(cr: Crypto, cx: Context, owner: string, revoker: string, offerer: string, receiver: string,
      rh: string, ph: string, expiry: nat, sig: (string, string), secret: string)
    requires Address(revoker) && Address(offerer) && Address(receiver) && HtlcOk(rh, ph, expiry)
    requires PaysTo(cr, owner, Htlc(revoker, offerer, receiver, rh, ph, expiry))
    ensures var n := Htlc(revoker, offerer, receiver, rh, ph, expiry);
            && (Carried(OneSig(n, sig, [secret])) && Signs(cr, cx, revoker, sig) && cr.sha3(secret) == rh ==>
                 Spends(cr, owner, OneSig(n, sig, [secret]), cx))
            && (Carried(OneSig(n, sig, [secret])) && Signs(cr, cx, receiver, sig) && cr.sha3(secret) == ph ==>
                 Spends(cr, owner, OneSig(n, sig, [secret]), cx))
            && (Carried(OneSig(n, sig, [])) && Signs(cr, cx, offerer, sig) && cx.spendHeight >= expiry ==>
                  Spends(cr, owner, OneSig(n, sig, []), cx))
  {
    hide Signs, Show, Holds, Leaves, Carried, Spends, Htlc, MaySpend, FirstSig, FirstPre, HtlcOk, WellFormed, Size,
        Depth, PaysTo;
    var n := Htlc(revoker, offerer, receiver, rh, ph, expiry);
    HtlcWell(revoker, offerer, receiver, rh, ph, expiry);
    HtlcLeaves(revoker, offerer, receiver, rh, ph, expiry);
    var wp, wo := OneSig(n, sig, [secret]), OneSig(n, sig, []);
    assert sig in wp.sigs && secret in wp.preimages && sig in wo.sigs;
    HtlcHolds(cr, cx, wp, revoker, offerer, receiver, rh, ph, expiry);
    HtlcHolds(cr, cx, wo, revoker, offerer, receiver, rh, ph, expiry);
    if Carried(wp) { JudgedBy(cr, owner, n, wp, cx); }
    if Carried(wo) { JudgedBy(cr, owner, n, wo, cx); }
    if Signs(cr, cx, revoker, sig) { OneSigSpare(cr, cx, wp, n, revoker); }
    if Signs(cr, cx, receiver, sig) { OneSigSpare(cr, cx, wp, n, receiver); }
    if Signs(cr, cx, offerer, sig) { OneSigSpare(cr, cx, wo, n, offerer); }
    if cr.sha3(secret) == rh { OnePreSpare(cr, wp, n, rh); }
    if cr.sha3(secret) == ph { OnePreSpare(cr, wp, n, ph); }
  }

  /** The funding output moves only with both signatures. */
  lemma FundingNeedsBoth(cr: Crypto, cx: Context, owner: string, a: string, b: string, text: string, w: Spend, m: Node)
    requires Payable(cr, owner, And(Pk(a), Pk(b))) && NoCollision(cr, owner, And(Pk(a), Pk(b))) &&
             MaySpend(cr, owner, text, cx, w, m)
    ensures HasSig(cr, cx, w, a) && HasSig(cr, cx, w, b)
  {
    hide Signs, Show, MaySpend, NoCollision, Payable;
    OnlyBy(cr, owner, And(Pk(a), Pk(b)), text, w, m, cx);
    assert Holds(cr, cx, w, Pk(a)) && Holds(cr, cx, w, Pk(b));
  }
}
