/** When the text of a script with given addresses, hashes and numbers is one the parser
    accepts: whatever the hashes are, no text is read as another script. */
module ScriptExact {
  import opened Basics
  import opened Text
  import opened Witness
  import opened Script

  // ------------------------------------------------------------------------ numbers

  function Pow10(d: nat): nat { if d == 0 then 1 else 10 * Pow10(d - 1) }

  lemma {:induction false} DecimalLength(k: nat, d: nat)
    requires d > 0
    ensures |Decimal(k)| <= d <==> k < Pow10(d)
  {
    if k >= 10 && d > 1 { DecimalLength(k / 10, d - 1); }
    else if k >= 10 { DecimalSize(k / 10); assert Pow10(1) == 10 * Pow10(0); }
    else { AtLeastTen(d); }
  }

  lemma {:induction false} AtLeastTen(d: nat)
    requires d > 0
    ensures Pow10(d) >= 10
  {
    if d > 1 { AtLeastTen(d - 1); } else { assert Pow10(0) == 1; }
  }

  const NUMBER_LIMIT: nat := 1_000_000_000_000

  /** Numbers of at most twelve digits. */
  lemma TwelveDigits(k: nat)
    ensures |Decimal(k)| <= 12 <==> k < NUMBER_LIMIT
  {
    hide Decimal;
    DecimalLength(k, 12);
    assert Pow10(4) == 10_000 by { assert Pow10(1) == 10 && Pow10(2) == 100 && Pow10(3) == 1000; }
    assert Pow10(8) == 100_000_000 by {
      assert Pow10(5) == 100_000 && Pow10(6) == 1_000_000 && Pow10(7) == 10_000_000;
    }
    assert Pow10(9) == 1_000_000_000 && Pow10(10) == 10_000_000_000 && Pow10(11) == 100_000_000_000;
  }

  // -------------------------------------------------------------------------- heads

  function Name(n: Node): string { if n.And? then "and" else if n.Or? then "or" else Opcode(n).0 }

  /** What follows the first parenthesis. */
  function Inner(n: Node): string {
    if n.And? || n.Or? then Show(n.a) + "," + Show(n.b) + ")" else Opcode(n).1 + ")"
  }

  lemma ShowHead(n: Node)
    ensures AtomOk(Name(n)) && Show(n) == Name(n) + "(" + Inner(n)
  {
    hide Decimal, Show;
    if n.And? || n.Or? {
      var nm := Name(n);
      assert n == Pair(nm, n.a, n.b);
      PairText(nm, n.a, n.b);
      Regroup(nm, Show(n.a), Show(n.b));
    } else {
      LeafHead(n);
    }
  }

  lemma Regroup(name: string, a: string, b: string)
    ensures name + "(" + a + "," + b + ")" == name + "(" + (a + "," + b + ")")
  {
  }

  lemma LeafHead(n: Node)
    requires !n.And? && !n.Or?
    ensures var o := Opcode(n); AtomOk(o.0) && Show(n) == o.0 + "(" + (o.1 + ")")
  {
    hide Decimal;
    var o := Opcode(n);
    assert Show(n) == o.0 + "(" + o.1 + ")";
  }

  /** The name at the front of a text decides what kind of script it is. */
  lemma HeadUnique(n: Node, name: string, inner: string)
    requires AtomOk(name) && Show(n) == name + "(" + inner
    ensures Name(n) == name && Inner(n) == inner
  {
    hide Show, Inner, Name;
    ShowHead(n);
    HeadParses(name, inner);
    HeadParses(Name(n), Inner(n));
  }

  // ------------------------------------------------------------------ leaves in a text

  predicate IsLeaf(n: Node) { !n.And? && !n.Or? }

  /** `name(` stands in `t` at `i`, and no longer name does. */
  predicate NamedAt(t: string, i: nat, name: string) {
    && i + |name| < |t| && t[i..i + |name|] == name && t[i + |name|] == '('
    && (i > 0 ==> !Letter(t[i - 1]))
  }

  lemma LeafText(n: Node)
    requires IsLeaf(n) && WellFormed(n)
    ensures var o, t := Opcode(n), Show(n);
            && |t| == |o.0| + |o.1| + 2 && t[..|o.0|] == o.0 && t[|o.0|] == '('
            && (forall j :: 0 <= j < |t| && j != |o.0| && j != |t| - 1 ==> Letter(t[j])) && t[|t| - 1] == ')'
  {
    hide Decimal, Leaf, WellFormed, Opcode, HashOk;
    OpcodeFacts(n);
  }

  lemma PairParts(n: Node)
    requires !IsLeaf(n)
    ensures var nm, a, b, t := Name(n), Show(n.a), Show(n.b), Show(n);
            && |t| == |nm| + |a| + |b| + 3 && t[..|nm|] == nm && t[|nm|] == '('
            && t[|nm| + 1..|nm| + 1 + |a|] == a && t[|nm| + 1 + |a|] == ','
            && t[|nm| + 2 + |a|..|t| - 1] == b && t[|t| - 1] == ')'
  {
    hide Show, Name;
    ShowHead(n);
    assert Inner(n) == Show(n.a) + "," + Show(n.b) + ")";
  }

  /** In a leaf the name is its own. */
  lemma NamedLeaf(m: Node, i: nat, name: string)
    requires WellFormed(m) && IsLeaf(m) && AtomOk(name) && NamedAt(Show(m), i, name)
    ensures i == 0 && Opcode(m).0 == name
  {
    hide Show, WellFormed, Opcode;
    LeafText(m);
    var t := Show(m);
    assert i + |name| == |Opcode(m).0|;
  }

  /** A name that is not the pair's own stands in one of its arguments. */
  lemma NamedInPair(m: Node, i: nat, name: string)
    requires !IsLeaf(m) && AtomOk(name) && name != Name(m) && NamedAt(Show(m), i, name)
    ensures var p := |Name(m)| + 1;
            || (p <= i && i + |name| < p + |Show(m.a)|)
            || (p + |Show(m.a)| < i && i + |name| < |Show(m)| - 1)
  {
    hide Show, Name;
    PairParts(m);
    ShowHead(m);
    var nm, t := Name(m), Show(m);
    var j, q := i + |name|, |nm| + 1 + |Show(m.a)|;
    assert forall k :: i <= k < j ==> t[k] == name[k - i] && name[k - i] in name;
    assert forall k :: 0 <= k < |nm| ==> t[k] == nm[k] && nm[k] in nm;
    assert i > |nm|;
  }

  /** Wherever a leaf's name stands in the text of a well-formed script, a whole well-formed
      leaf of that name does. */
  lemma {:induction false} LeafAt(m: Node, i: nat, name: string) returns (l: Node)
    requires WellFormed(m) && AtomOk(name) && name != "and" && name != "or" && NamedAt(Show(m), i, name)
    ensures IsLeaf(l) && WellFormed(l) && Opcode(l).0 == name && Show(l) <= Show(m)[i..]
    decreases m
  {
    hide Show, Opcode, AtomOk, NamedAt;
    if IsLeaf(m) {
      NamedLeaf(m, i, name);
      return m;
    }
    NamedInPair(m, i, name);
    PairParts(m);
    var t, p := Show(m), |Name(m)| + 1;
    var q := p + |Show(m.a)| + 1;
    if i < q {
      NamedPart(t, p, Show(m.a), i, name);
      l := LeafAt(m.a, i - p, name);
      PrefixPart(t, p, Show(m.a), i, Show(l));
    } else {
      NamedPart(t, q, Show(m.b), i, name);
      l := LeafAt(m.b, i - q, name);
      PrefixPart(t, q, Show(m.b), i, Show(l));
    }
  }

  lemma NamedPart(t: string, p: nat, a: string, i: nat, name: string)
    requires NamedAt(t, i, name) && p <= i && i + |name| < p + |a| <= |t| && t[p..p + |a|] == a
    ensures NamedAt(a, i - p, name)
  {
    assert forall k :: 0 <= k < |a| ==> a[k] == t[p + k];
    assert a[i - p..i - p + |name|] == t[i..i + |name|];
  }

  lemma PrefixPart(t: string, p: nat, a: string, i: nat, s: string)
    requires p <= i <= p + |a| <= |t| && t[p..p + |a|] == a && s <= a[i - p..]
    ensures s <= t[i..]
  {
    assert t[i..] == a[i - p..] + t[p + |a|..];
  }

  // -------------------------------------------------------------- parts of a good text

  /** Addresses are names, and hashes no longer than a hash is. */
  predicate Sized(n: Node) {
    match n
    case Pk(a) => AtomOk(a)
    case Sha3(h) => |h| <= 128
    case After(_) => true
    case Older(_) => true
    case And(a, b) => Sized(a) && Sized(b)
    case Or(a, b) => Sized(a) && Sized(b)
  }

  /** Two arguments of one opcode, closed by parentheses: neither can end inside the
      other. */
  lemma SameArg(g: string, h: string, s: string, t: string)
    requires g + ")" <= s && s == h + ")" + t && ')' !in g && (')' in h ==> |h| <= |g|)
    ensures g == h
  {
    assert s[|h|] == ')' && s[|g|] == ')';
    assert forall i :: 0 <= i < |g| ==> s[i] == g[i] && g[i] != ')';
    assert !(|h| < |g|);
    assert forall i :: 0 <= i < |h| ==> s[i] == h[i] && (')' !in h ==> h[i] != ')');
  }

  lemma LeafInside(m: Node, c: Node, pre: string, post: string)
    requires WellFormed(m) && IsLeaf(c) && Sized(c) && Show(m) == pre + Show(c) + post
    requires pre != "" && !Letter(pre[|pre| - 1])
    ensures WellFormed(c)
  {
    hide Show, Decimal, WellFormed, AtomOk;
    if c.Pk? { PkFine(c); return; }
    var o := Opcode(c);
    ShowHead(c);
    assert Show(c) == o.0 + "(" + (o.1 + ")");
    assert Show(m)[|pre|..] == Show(c) + post;
    assert NamedAt(Show(m), |pre|, o.0);
    var l := LeafAt(m, |pre|, o.0);
    ShowHead(l);
    SameOpcode(l, c, post);
  }

  lemma PkFine(c: Node)
    requires c.Pk? && Sized(c)
    ensures WellFormed(c)
  {
  }

  lemma SameOpcode(l: Node, c: Node, post: string)
    requires IsLeaf(l) && IsLeaf(c) && !c.Pk? && WellFormed(l) && Sized(c) && Opcode(l).0 == Opcode(c).0
    requires Show(l) <= Show(c) + post
    ensures WellFormed(c)
  {
    hide Show, Decimal, AtomOk;
    var o, g, h := Opcode(c).0, Opcode(l).1, Opcode(c).1;
    ShowHead(l);
    ShowHead(c);
    var s := h + ")" + post;
    assert Show(c) + post == o + "(" + s && Show(l) == o + "(" + (g + ")");
    assert (o + "(" + s)[|o| + 1..] == s;
    assert g + ")" <= s;
    if c.Sha3? {
      HexIsClosed(g);
      SameArg(g, h, s, post);
    } else {
      DecimalClosed(l.n);
      DecimalClosed(c.n);
      SameArg(g, h, s, post);
    }
  }

  lemma HexIsClosed(g: string)
    requires HashOk(g)
    ensures ')' !in g && |g| == 128
  {
  }

  lemma DecimalClosed(k: nat)
    ensures ')' !in Decimal(k)
  {
    DecimalValue(k);
  }

  /** Every part of the text of a well-formed script that could be a script is one. */
  lemma {:induction false} PartInside(m: Node, c: Node, pre: string, post: string)
    requires WellFormed(m) && Sized(c) && Show(m) == pre + Show(c) + post && pre != "" && !Letter(pre[|pre| - 1])
    ensures WellFormed(c)
    decreases c
  {
    hide Show, Name;
    if IsLeaf(c) {
      LeafInside(m, c, pre, post);
    } else {
      var nm, a, b := Name(c), Show(c.a), Show(c.b);
      ShowHead(c);
      Nested(pre, nm, a, b, post);
      PartInside(m, c.a, pre + nm + "(", "," + b + ")" + post);
      PartInside(m, c.b, pre + nm + "(" + a + ",", ")" + post);
    }
  }

  lemma Nested(pre: string, nm: string, a: string, b: string, post: string)
    ensures pre + (nm + "(" + (a + "," + b + ")")) + post == (pre + nm + "(") + a + ("," + b + ")" + post)
    ensures pre + (nm + "(" + (a + "," + b + ")")) + post == (pre + nm + "(" + a + ",") + b + (")" + post)
  {
  }

  // ------------------------------------------------------------------- parentheses

  /** Parentheses opened and not closed. */
  function Level(s: string): int {
    if s == "" then 0
    else Level(s[..|s| - 1]) + (if s[|s| - 1] == '(' then 1 else if s[|s| - 1] == ')' then -1 else 0)
  }

  lemma {:induction false} LevelAdds(a: string, b: string)
    ensures Level(a + b) == Level(a) + Level(b)
    decreases |b|
  {
    if b == "" {
      assert a + b == a;
    } else {
      LevelAdds(a, b[..|b| - 1]);
      assert (a + b)[..|a + b| - 1] == a + b[..|b| - 1];
    }
  }

  lemma {:induction false} LevelNone(s: string)
    requires forall i :: 0 <= i < |s| ==> s[i] != '(' && s[i] != ')'
    ensures Level(s) == 0
  {
    if s != "" { LevelNone(s[..|s| - 1]); }
  }

  lemma LevelOne(c: char)
    ensures Level([c]) == if c == '(' then 1 else if c == ')' then -1 else 0
  {
    assert [c][..0] == "" && Level("") == 0;
  }

  /** A text that closes what it opens, and never more. */
  ghost predicate Closes(t: string) {
    Level(t) == 0 && forall k :: 0 <= k <= |t| ==> Level(t[..k]) >= 0
  }

  /** The text of a well-formed script does, and not before its end. */
  lemma {:induction false} ShowCloses(m: Node)
    requires WellFormed(m)
    ensures Closes(Show(m))
    ensures forall k :: |Name(m)| < k < |Show(m)| ==> Level(Show(m)[..k]) > 0
  {
    hide Show, Level, Name, AtomOk, Closes;
    var nm, t := Name(m), Show(m);
    if !IsLeaf(m) {
      ShowCloses(m.a);
      ShowCloses(m.b);
    }
    forall k | 0 <= k <= |t|
      ensures Level(t[..k]) >= 0 && (k == |t| ==> Level(t[..k]) == 0) && (|nm| < k < |t| ==> Level(t[..k]) > 0)
    {
      ShowHead(m);
      if k <= |nm| { HeadLevel(nm, t, k); }
      else if IsLeaf(m) { LeafLevel(m, k); }
      else { PairParts(m); PairLevel(t, nm, Show(m.a), Show(m.b), k); }
    }
    WholePrefix(t);
  }

  lemma WholePrefix(t: string)
    requires (forall k :: 0 <= k <= |t| ==> Level(t[..k]) >= 0) && Level(t[..|t|]) == 0
    ensures Closes(t)
  {
    assert t[..|t|] == t;
  }

  lemma PairLevel(t: string, nm: string, a: string, b: string, k: nat)
    requires AtomOk(nm) && |t| == |nm| + |a| + |b| + 3 && t[..|nm|] == nm && t[|nm|] == '('
    requires t[|nm| + 1..|nm| + 1 + |a|] == a && t[|nm| + 1 + |a|] == ','
    requires t[|nm| + 2 + |a|..|t| - 1] == b && t[|t| - 1] == ')'
    requires Closes(a) && Closes(b) && |nm| < k <= |t|
    ensures if k < |t| then Level(t[..k]) > 0 else Level(t[..k]) == 0
  {
    hide Level, AtomOk;
    var p := |nm| + 1;
    var q := p + |a|;
    HeadLevel(nm, t, |nm|);
    LevelSlice(t, |nm|, '(');
    assert a[..|a|] == a && b[..|b|] == b;
    if k <= q {
      SliceLevel(t, p, a, k);
    } else {
      SliceLevel(t, p, a, q);
      LevelSlice(t, q, ',');
      SliceLevel(t, q + 1, b, if k < |t| then k else k - 1);
      if k == |t| { LevelSlice(t, k - 1, ')'); }
    }
  }

  lemma HeadLevel(nm: string, t: string, k: nat)
    requires AtomOk(nm) && k <= |nm| <= |t| && t[..|nm|] == nm
    ensures Level(t[..k]) == 0
  {
    assert t[..k] == nm[..k];
    assert forall i :: 0 <= i < k ==> nm[i] in nm;
    LevelNone(nm[..k]);
  }

  lemma LevelSlice(t: string, k: nat, c: char)
    requires k < |t| && t[k] == c
    ensures Level(t[..k + 1]) == Level(t[..k]) + if c == '(' then 1 else if c == ')' then -1 else 0
  {
    assert t[..k + 1] == t[..k] + [c];
    LevelAdds(t[..k], [c]);
    LevelOne(c);
  }

  lemma SliceLevel(t: string, p: nat, a: string, k: nat)
    requires p <= k <= p + |a| <= |t| && t[p..p + |a|] == a
    ensures Level(t[..k]) == Level(t[..p]) + Level(a[..k - p])
  {
    assert t[..k] == t[..p] + a[..k - p];
    LevelAdds(t[..p], a[..k - p]);
  }

  /** Letters do not change the level. */
  lemma {:induction false} PlainLevel(t: string, p: nat, k: nat)
    requires p <= k <= |t| && forall j :: p <= j < k ==> t[j] != '(' && t[j] != ')'
    ensures Level(t[..k]) == Level(t[..p])
    decreases k
  {
    hide Level;
    if k > p {
      PlainLevel(t, p, k - 1);
      LevelSlice(t, k - 1, t[k - 1]);
    }
  }

  lemma LeafLevel(m: Node, k: nat)
    requires WellFormed(m) && IsLeaf(m) && |Name(m)| < k <= |Show(m)|
    ensures Level(Show(m)[..k]) == if k < |Show(m)| then 1 else 0
  {
    hide Show, Level, WellFormed, Opcode, Name, IsLeaf, AtomOk;
    var t, n := Show(m), |Name(m)|;
    LeafBracketed(m);
    HeadLevel(Name(m), t, n);
    LevelSlice(t, n, '(');
    PlainLevel(t, n + 1, if k < |t| then k else k - 1);
    if k == |t| { LevelSlice(t, k - 1, ')'); }
  }

  /** A leaf's name, and a bracket around plain text. */
  lemma LeafBracketed(m: Node)
    requires WellFormed(m) && IsLeaf(m)
    ensures var t, n := Show(m), |Name(m)|;
            && AtomOk(Name(m)) && n + 2 <= |t| && t[..n] == Name(m) && t[n] == '(' && t[|t| - 1] == ')'
            && forall j :: n < j < |t| - 1 ==> t[j] != '(' && t[j] != ')'
  {
    hide Show, WellFormed, AtomOk;
    LeafText(m);
    ShowHead(m);
  }

  /** The last argument of a pair can be read off from the right. */
  lemma LastShorter(b: Node, c: Node, p: string, q: string)
    requires WellFormed(b) && WellFormed(c) && p + "," + Show(b) == q + "," + Show(c)
    ensures |Show(b)| <= |Show(c)|
  {
    hide Show, Level, WellFormed, Name;
    if |Show(b)| > |Show(c)| {
      var t, s := Show(b), Show(c);
      var k := |t| - |s|;
      var all := p + "," + t;
      assert all[|p| + 1..] == t && all[|q| + 1..] == s && all[|q|] == ',';
      assert t[k..] == s && t[k - 1] == ',' && t == t[..k] + s;
      LevelAdds(t[..k], s);
      ShowCloses(b);
      ShowCloses(c);
      CommaLater(b, k - 1);
      ShowHead(c);
    }
  }

  lemma CommaLater(b: Node, k: nat)
    requires k < |Show(b)| && Show(b)[k] == ','
    ensures k >= |Name(b)|
  {
    hide Show, Name;
    ShowHead(b);
    assert forall i :: 0 <= i < |Name(b)| ==> Show(b)[i] == Name(b)[i] && Name(b)[i] in Name(b);
  }

  lemma LastUnique(b: Node, c: Node, p: string, q: string)
    requires WellFormed(b) && WellFormed(c) && p + "," + Show(b) == q + "," + Show(c)
    ensures Show(b) == Show(c) && p == q
  {
    hide Show, WellFormed;
    LastShorter(b, c, p, q);
    LastShorter(c, b, q, p);
    var all := p + "," + Show(b);
    assert all[|p| + 1..] == Show(b) && all[|q| + 1..] == Show(c);
    assert all[..|p|] == p && all[..|q|] == q;
  }

  // ---------------------------------------------------------------- channel scripts

  /** The first alternative of a channel output: the other side's key and a secret. */
  function Revoking(r: string, rh: string, c: Node): Node { Or(And(Pk(r), Sha3(rh)), c) }

  lemma PairInner(n: Node)
    requires !IsLeaf(n)
    ensures Inner(n) == Show(n.a) + "," + Show(n.b) + ")"
  {
  }

  lemma DropLast(s: string, t: string)
    requires s + ")" == t + ")"
    ensures s == t
  {
    assert (s + ")")[..|s|] == s && (t + ")")[..|t|] == t;
  }

  /** Two pairs of the same opcode with the same text, the last arguments well-formed. */
  lemma PairUnique(m: Node, n: Node)
    requires WellFormed(m) && !IsLeaf(n) && WellFormed(n.b) && Show(m) == Show(n)
    ensures !IsLeaf(m) && Name(m) == Name(n) && Show(m.a) == Show(n.a) && Show(m.b) == Show(n.b)
  {
    hide Show, Inner;
    ShowHead(n);
    HeadUnique(m, Name(n), Inner(n));
    assert !IsLeaf(m) by { LeafNames(m); }
    PairInner(m);
    PairInner(n);
    DropLast(Show(m.a) + "," + Show(m.b), Show(n.a) + "," + Show(n.b));
    LastUnique(m.b, n.b, Show(m.a), Show(n.a));
  }

  lemma LeafNames(m: Node)
    ensures IsLeaf(m) ==> Name(m) != "and" && Name(m) != "or"
  {
    hide Decimal;
  }

  lemma FirstUnique(x: string, y: string, s: string, t: string)
    requires AtomOk(x) && AtomOk(y) && x + ")" + s == y + ")" + t
    ensures x == y && s == t
  {
    assert x + ")" + s == x + (")" + s) && y + ")" + t == y + (")" + t);
    AtomFront(x, ")" + s);
    AtomFront(y, ")" + t);
    assert (")" + s)[1..] == s && (")" + t)[1..] == t;
  }

  /** A leaf with the same text is the same leaf. */
  lemma HashUnique(d: Node, h: string)
    requires WellFormed(d) && Show(d) == Show(Sha3(h))
    ensures d == Sha3(h) && HashOk(h)
  {
    hide Show, Decimal;
    ShowHead(Sha3(h));
    HeadUnique(d, "sha3", Inner(Sha3(h)));
    assert d.Sha3?;
    DropLast(d.hash, h);
  }

  lemma KeyedUnique(a: Node, r: string, rh: string)
    requires WellFormed(a) && AtomOk(r) && Show(a) == Show(And(Pk(r), Sha3(rh)))
    ensures HashOk(rh)
  {
    hide Show, Decimal, HashOk, AtomOk;
    var n := And(Pk(r), Sha3(rh));
    ShowHead(n);
    HeadUnique(a, "and", Inner(n));
    assert a.And? by { LeafNames(a); }
    PairInner(a);
    PairInner(n);
    DropLast(Show(a.a) + "," + Show(a.b), Show(n.a) + "," + Show(n.b));
    ShowHead(Pk(r));
    ShowHead(Sha3(rh));
    FirstIsKey(a.a, r, Show(a.b), Show(n.b));
    HashUnique(a.b, rh);
  }

  lemma FirstIsKey(c: Node, r: string, s: string, t: string)
    requires WellFormed(c) && AtomOk(r) && Show(c) + "," + s == Show(Pk(r)) + "," + t
    ensures s == t
  {
    hide Show, Decimal, AtomOk;
    ShowHead(Pk(r));
    Grouped("pk", r + ")", t);
    FrontName(c, s, "pk", r + ")" + "," + t);
    assert c.Pk?;
    Closed(c.addr, s);
    Closed(r, t);
    FirstUnique(c.addr, r, "," + s, "," + t);
    Uncomma(s, t);
  }

  lemma Grouped(name: string, x: string, s: string)
    ensures name + "(" + x + "," + s == name + "(" + (x + "," + s)
  {
  }

  lemma Closed(x: string, s: string)
    ensures x + ")" + "," + s == x + ")" + ("," + s)
  {
  }

  lemma FrontName(c: Node, s: string, name: string, v: string)
    requires AtomOk(name) && Show(c) + "," + s == name + "(" + v
    ensures Name(c) == name && Inner(c) + "," + s == v
  {
    hide Show, AtomOk, Name, Inner;
    ShowHead(c);
    Grouped(Name(c), Inner(c), s);
    HeadParses(Name(c), Inner(c) + "," + s);
    HeadParses(name, v);
  }

  lemma Uncomma(s: string, t: string)
    requires "," + s == "," + t
    ensures s == t
  {
    assert ("," + s)[1..] == s && ("," + t)[1..] == t;
  }

  /** Whatever text stands in place of the revocation hash: the output's script can be read
      only if that text is a hash and the rest of the script is well-formed. */
  lemma RevokingReadable(m: Node, r: string, rh: string, c: Node)
    requires WellFormed(m) && AtomOk(r) && Sized(c) && Show(m) == Show(Revoking(r, rh, c))
    ensures HashOk(rh) && WellFormed(c) && WellFormed(Revoking(r, rh, c))
  {
    hide Show, HashOk, AtomOk;
    var n := Revoking(r, rh, c);
    ShowHead(n);
    PairInner(n);
    var pre := "or" + "(" + Show(n.a) + ",";
    assert Show(n) == pre + Show(c) + ")";
    PartInside(m, c, pre, ")");
    PairUnique(m, n);
    KeyedUnique(m.a, r, rh);
    assert WellFormed(Pk(r)) && WellFormed(Sha3(rh)) && WellFormed(n.a);
  }
}
