/** The text encoding of script witnesses. */
module Witness {
  import opened Basics
  import opened Text

  const MAX_SIGS: nat := 4
  const MAX_PREIMAGES: nat := 4
  const MAX_PREIMAGE_BYTES: nat := 64

  datatype Spend = Spend(script: string, sigs: seq<(string, string)>, preimages: seq<string>)

  // ----------------------------------------------------------------- fields and text

  /** Each field followed by a semicolon. */
  function Join(ps: seq<string>): string { if ps == [] then "" else Join(ps[..|ps| - 1]) + ps[|ps| - 1] + ";" }

  /** The fields closed so far, and the text after the last semicolon. */
  function Cut(s: string): (seq<string>, string) {
    if s == "" then ([], "")
    else
      var p, c := Cut(s[..|s| - 1]), s[|s| - 1];
      if c == ';' then (p.0 + [p.1], "") else (p.0, p.1 + [c])
  }

  lemma {:induction false} CutJoins(s: string)
    ensures Join(Cut(s).0) + Cut(s).1 == s && ';' !in Cut(s).1 && forall p :: p in Cut(s).0 ==> ';' !in p
  {
    if s != "" {
      CutJoins(s[..|s| - 1]);
      var p, c := Cut(s[..|s| - 1]), s[|s| - 1];
      assert s == s[..|s| - 1] + [c];
      if c == ';' { assert (p.0 + [p.1])[..|p.0|] == p.0; }
    }
  }

  lemma {:induction false} CutOpen(ps: seq<string>, t: string)
    requires Cut(Join(ps)) == (ps, "") && ';' !in t
    ensures Cut(Join(ps) + t) == (ps, t)
    decreases |t|
  {
    hide Join, Cut;
    if t == "" {
      assert Join(ps) + t == Join(ps);
    } else {
      var front, c := t[..|t| - 1], t[|t| - 1];
      CutOpen(ps, front);
      CutSnoc(Join(ps) + front, c);
      assert t == front + [c] && Join(ps) + front + [c] == Join(ps) + t;
    }
  }

  lemma CutSnoc(s: string, c: char)
    ensures var p := Cut(s); Cut(s + [c]) == if c == ';' then (p.0 + [p.1], "") else (p.0, p.1 + [c])
  {
    assert (s + [c])[..|s|] == s;
  }

  lemma {:induction false} JoinCuts(ps: seq<string>)
    requires forall p :: p in ps ==> ';' !in p
    ensures Cut(Join(ps)) == (ps, "")
  {
    if ps != [] {
      var n := |ps| - 1;
      JoinCuts(ps[..n]);
      CutOpen(ps[..n], ps[n]);
      var s := Join(ps);
      assert s[..|s| - 1] == Join(ps[..n]) + ps[n];
      assert ps == ps[..n] + [ps[n]];
    }
  }

  // ------------------------------------------------------------------------- fields

  /** The position of the first colon, or the length. */
  function Colon(p: string): (i: nat)
    ensures i <= |p| && (i < |p| ==> p[i] == ':') && forall j :: 0 <= j < i ==> p[j] != ':'
  {
    if p == "" || p[0] == ':' then 0 else 1 + Colon(p[1..])
  }

  predicate LowerHex(c: char) { '0' <= c <= '9' || 'a' <= c <= 'f' }

  predicate HexOk(h: string) { 0 < |h| <= 2 * MAX_PREIMAGE_BYTES && |h| % 2 == 0 && forall c :: c in h ==> LowerHex(c) }

  /** A one-digit count. */
  function Count(p: string): Option<nat> {
    if |p| == 1 && '0' <= p[0] <= '9' then Some((p[0] - '0') as nat) else None
  }

  function SigField(s: (string, string)): string { s.0 + ":" + s.1 }

  function SigFields(ss: seq<(string, string)>): seq<string> { seq(|ss|, i requires 0 <= i < |ss| => SigField(ss[i])) }

  function Fields(w: Spend): seq<string> {
    [w.script, Decimal(|w.sigs|)] + SigFields(w.sigs) + [Decimal(|w.preimages|)] + w.preimages
  }

  function Encode(w: Spend): string { Join(Fields(w)) }

  function SigOf(p: string): (string, string)
    requires ':' in p
  {
    assert Colon(p) < |p| by { ColonFound(p); }
    (p[..Colon(p)], p[Colon(p) + 1..])
  }

  lemma ColonFound(p: string)
    requires ':' in p
    ensures Colon(p) < |p|
  {
    var j :| 0 <= j < |p| && p[j] == ':';
  }

  function SigsOf(ps: seq<string>): seq<(string, string)>
    requires forall i :: 0 <= i < |ps| ==> ':' in ps[i]
  {
    seq(|ps|, i requires 0 <= i < |ps| => SigOf(ps[i]))
  }

  function FromFields(ps: seq<string>): Option<Spend>
    requires |ps| >= 3
  {
    var ns := Count(ps[1]);
    if ns.None? || ns.value > MAX_SIGS || 2 + ns.value > |ps| ||
        (exists i :: 2 <= i < 2 + ns.value && ':' !in ps[i]) then None
    else
      var k := 2 + ns.value;
      if k >= |ps| || Count(ps[k]).None? || Count(ps[k]).value > MAX_PREIMAGES then None
      else
        var np := Count(ps[k]).value;
        if k + 1 + np != |ps| || (exists i :: k < i < |ps| && !HexOk(ps[i])) then None
        else Some(Spend(ps[0], SigsOf(ps[2..k]), ps[k + 1..]))
  }

  function Decode(s: string): Option<Spend> {
    var c := Cut(s);
    if c.1 != "" || |c.0| < 3 then None else FromFields(c.0)
  }

  /** A witness that its text can carry. */
  predicate Carried(w: Spend) {
    && |w.sigs| <= MAX_SIGS && |w.preimages| <= MAX_PREIMAGES && ';' !in w.script
    && (forall s :: s in w.sigs ==> ':' !in s.0 && ';' !in s.0 && ';' !in s.1)
    && (forall p :: p in w.preimages ==> HexOk(p))
  }

  // ---------------------------------------------------------------------- round trips

  lemma DigitCount(n: nat)
    requires n < 10
    ensures |Decimal(n)| == 1 && Count(Decimal(n)) == Some(n)
  {
  }

  lemma CountDigit(p: string)
    requires Count(p).Some?
    ensures Count(p).value < 10 && Decimal(Count(p).value) == p
  {
    var n := Count(p).value;
    assert Digit(n) == p[0];
  }

  lemma SigRound(s: (string, string))
    requires ':' !in s.0
    ensures ':' in SigField(s) && SigOf(SigField(s)) == s
  {
    var p := SigField(s);
    assert p[|s.0|] == ':';
    ColonFound(p);
    assert forall j :: 0 <= j < |s.0| ==> p[j] == s.0[j];
    assert Colon(p) == |s.0|;
    assert p[..|s.0|] == s.0 && p[|s.0| + 1..] == s.1;
  }

  lemma FieldRound(p: string)
    requires ':' in p
    ensures SigField(SigOf(p)) == p && ':' !in SigOf(p).0
  {
    ColonFound(p);
    assert p == p[..Colon(p)] + [p[Colon(p)]] + p[Colon(p) + 1..];
  }

  lemma SigsRound(ss: seq<(string, string)>)
    requires forall s :: s in ss ==> ':' !in s.0
    ensures (forall i :: 0 <= i < |ss| ==> ':' in SigFields(ss)[i]) && SigsOf(SigFields(ss)) == ss
  {
    hide SigOf, SigField;
    forall i | 0 <= i < |ss| ensures ':' in SigFields(ss)[i] && SigOf(SigFields(ss)[i]) == ss[i] {
      assert ss[i] in ss;
      SigRound(ss[i]);
    }
  }

  /** Reading the fields of a well-formed witness gives it back. */
  lemma FromFieldsOf(w: Spend)
    requires Carried(w)
    ensures FromFields(Fields(w)) == Some(w)
  {
    hide Decimal, Count, HexOk, SigOf, SigsOf, SigFields, Fields;
    var ps, ns, np := Fields(w), |w.sigs|, |w.preimages|;
    DigitCount(ns);
    DigitCount(np);
    FieldsAt(w);
    SigsRound(w.sigs);
    assert forall i :: 2 <= i < 2 + ns ==> ps[i] == ps[2..2 + ns][i - 2];
    assert forall i :: 2 + ns < i < |ps| ==> ps[i] == ps[3 + ns..][i - 3 - ns];
  }

  lemma FieldsAt(w: Spend)
    ensures var ps, ns := Fields(w), |w.sigs|;
            && |ps| == 3 + ns + |w.preimages| && ps[0] == w.script && ps[1] == Decimal(ns)
            && ps[2..2 + ns] == SigFields(w.sigs) && ps[2 + ns] == Decimal(|w.preimages|) && ps[3 + ns..] == w.preimages
  {
    hide Decimal, SigField;
  }

  /** Writing what was read gives the fields back. */
  lemma FieldsOfFrom(ps: seq<string>)
    requires |ps| >= 3 && FromFields(ps).Some? && forall p :: p in ps ==> ';' !in p
    ensures Fields(FromFields(ps).value) == ps && Carried(FromFields(ps).value)
  {
    hide Decimal, Count, HexOk, SigOf;
    var w := FromFields(ps).value;
    var ns := Count(ps[1]).value;
    var k := 2 + ns;
    CountDigit(ps[1]);
    CountDigit(ps[k]);
    forall i | 0 <= i < ns ensures SigField(w.sigs[i]) == ps[2 + i] && ':' !in w.sigs[i].0 && ';' !in w.sigs[i].0 &&
        ';' !in w.sigs[i].1 {
      FieldRound(ps[2 + i]);
      assert ps[2 + i] in ps;
      NoSemicolon(ps[2 + i], w.sigs[i]);
    }
    assert SigFields(w.sigs) == ps[2..k];
    assert ps == [ps[0], ps[1]] + ps[2..k] + [ps[k]] + ps[k + 1..];
    assert ps[0] in ps;
  }

  lemma NoSemicolon(p: string, s: (string, string))
    requires p == SigField(s) && ';' !in p
    ensures ';' !in s.0 && ';' !in s.1
  {
    assert forall i :: 0 <= i < |s.0| ==> s.0[i] == p[i];
    assert forall i :: 0 <= i < |s.1| ==> s.1[i] == p[|s.0| + 1 + i];
  }

  lemma FieldsClean(w: Spend)
    requires Carried(w)
    ensures forall p :: p in Fields(w) ==> ';' !in p
  {
    hide Decimal;
    var n1, n2 := Decimal(|w.sigs|), Decimal(|w.preimages|);
    assert ';' !in n1 && ';' !in n2 by { OneDigit(|w.sigs|); OneDigit(|w.preimages|); }
    forall p | p in SigFields(w.sigs) ensures ';' !in p {
      var i :| 0 <= i < |w.sigs| && SigFields(w.sigs)[i] == p;
      assert w.sigs[i] in w.sigs;
    }
    forall p | p in w.preimages ensures ';' !in p { assert HexOk(p); }
  }

  lemma OneDigit(n: nat)
    requires n < 10
    ensures ';' !in Decimal(n)
  {
  }

  /** A text decodes to a witness exactly when it is the encoding of it and the witness is
      one that text can carry: no two texts decode to the same witness. */
  lemma DecodeIff(s: string, w: Spend)
    ensures Decode(s) == Some(w) <==> Encode(w) == s && Carried(w)
  {
    hide Fields, FromFields, Carried, Cut, Join;
    if Encode(w) == s && Carried(w) {
      FieldsClean(w);
      JoinCuts(Fields(w));
      FromFieldsOf(w);
      AtLeastThree(w);
    }
    if Decode(s) == Some(w) {
      CutJoins(s);
      FieldsOfFrom(Cut(s).0);
    }
  }

  lemma AtLeastThree(w: Spend)
    ensures |Fields(w)| >= 3
  {
  }
}
