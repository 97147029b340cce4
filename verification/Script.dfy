/** Spend scripts: their text, the parser, and what it accepts. */
module Script {
  import opened Basics
  import opened Text
  import opened Witness

  const MAX_SCRIPT_BYTES: nat := 4096
  const MAX_NODES: nat := 64
  const MAX_DEPTH: nat := 16

  datatype Node = Pk(addr: string) | Sha3(hash: string) | After(n: nat) | Older(n: nat) | And(a: Node,
      b: Node) | Or(a: Node, b: Node)

  predicate Letter(c: char) { '0' <= c <= '9' || 'a' <= c <= 'z' || 'A' <= c <= 'Z' || c == '_' }

  /** The length of the longest run of letters at the front. */
  function AtomLen(s: string): (n: nat)
    ensures n <= |s| && (forall i :: 0 <= i < n ==> Letter(s[i])) && (n < |s| ==> !Letter(s[n]))
  {
    if s == "" || !Letter(s[0]) then 0 else 1 + AtomLen(s[1..])
  }

  // ------------------------------------------------------------------------ numbers

  predicate IsDigit(c: char) { '0' <= c <= '9' }

  function Value(s: string): nat
    requires forall c :: c in s ==> IsDigit(c)
  {
    if s == "" then 0
    else
      var c := s[|s| - 1];
      assert c in s && IsDigit(c);
      10 * Value(s[..|s| - 1]) + (c - '0') as nat
  }

  /** At most twelve digits, with no superfluous zero. */
  predicate NumberOk(s: string) { 0 < |s| <= 12 && (|s| > 1 ==> s[0] != '0') && forall c :: c in s ==> IsDigit(c) }

  lemma {:induction false} ValueDecimal(s: string)
    requires 0 < |s| && (|s| > 1 ==> s[0] != '0') && forall c :: c in s ==> IsDigit(c)
    ensures Decimal(Value(s)) == s && (s[0] != '0' ==> Value(s) > 0)
  {
    var n := |s| - 1;
    assert s[n] in s;
    var d := (s[n] - '0') as nat;
    assert s == s[..n] + [s[n]] && Digit(d) == s[n];
    if n > 0 {
      ValueDecimal(s[..n]);
      assert Value(s) / 10 == Value(s[..n]) && Value(s) % 10 == d;
    } else {
      assert s[..0] == "";
    }
  }

  lemma {:induction false} DecimalValue(n: nat)
    ensures (forall c :: c in Decimal(n) ==> IsDigit(c)) && Value(Decimal(n)) == n
    ensures |Decimal(n)| > 0 && (n > 0 ==> Decimal(n)[0] != '0') && (n < 10 ==> |Decimal(n)| == 1)
  {
    if n >= 10 {
      DecimalValue(n / 10);
      assert Decimal(n)[..|Decimal(n)| - 1] == Decimal(n / 10);
    } else {
      assert Decimal(n)[..0] == "";
    }
  }

  // --------------------------------------------------------------------------- text

  function Show(n: Node): string {
    match n
    case Pk(a) => "pk(" + a + ")"
    case Sha3(h) => "sha3(" + h + ")"
    case After(k) => "after(" + Decimal(k) + ")"
    case Older(k) => "older(" + Decimal(k) + ")"
    case And(a, b) => "and(" + Show(a) + "," + Show(b) + ")"
    case Or(a, b) => "or(" + Show(a) + "," + Show(b) + ")"
  }

  predicate AtomOk(a: string) { a != "" && forall c :: c in a ==> Letter(c) }

  predicate HashOk(h: string) { |h| == 128 && forall c :: c in h ==> LowerHex(c) }

  predicate WellFormed(n: Node) {
    match n
    case Pk(a) => AtomOk(a)
    case Sha3(h) => HashOk(h)
    case After(k) => |Decimal(k)| <= 12
    case Older(k) => |Decimal(k)| <= 12
    case And(a, b) => WellFormed(a) && WellFormed(b)
    case Or(a, b) => WellFormed(a) && WellFormed(b)
  }

  function Size(n: Node): nat {
    match n
    case And(a, b) => 1 + Size(a) + Size(b)
    case Or(a, b) => 1 + Size(a) + Size(b)
    case _ => 1
  }

  function Depth(n: Node): nat {
    match n
    case And(a, b) => 1 + (if Depth(a) >= Depth(b) then Depth(a) else Depth(b))
    case Or(a, b) => 1 + (if Depth(a) >= Depth(b) then Depth(a) else Depth(b))
    case _ => 0
  }

  // ------------------------------------------------------------------------- parser

  /** A parsed node, the text left, and the node count so far. */
  datatype Parsed = Parsed(node: Node, rest: string, nodes: nat)

  function Leaf(name: string, arg: string): Option<Node> {
    if name == "pk" then Some(Pk(arg))
    else if name == "sha3" then if HashOk(arg) then Some(Sha3(arg)) else None
    else if name == "after" then if NumberOk(arg) then Some(After(Value(arg))) else None
    else if name == "older" then if NumberOk(arg) then Some(Older(Value(arg))) else None
    else None
  }

  function Pair(name: string, a: Node, b: Node): Node { if name == "and" then And(a, b) else Or(a, b) }

  predicate StartsWith(s: string, c: char) { s != "" && s[0] == c }

  function ParseLeaf(name: string, s: string, nodes: nat): Option<Parsed> {
    var k := AtomLen(s);
    if k == 0 || !StartsWith(s[k..], ')') then None
    else
      var leaf := Leaf(name, s[..k]);
      if leaf.None? then None else Some(Parsed(leaf.value, s[k + 1..], nodes))
  }

  function ParsePair(name: string, s: string, depth: nat, nodes: nat): Option<Parsed>
    requires depth <= MAX_DEPTH
    decreases MAX_DEPTH + 1 - depth, 0
  {
    var a := ParseNode(s, depth + 1, nodes);
    if a.None? || !StartsWith(a.value.rest, ',') then None
    else
      var b := ParseNode(a.value.rest[1..], depth + 1, a.value.nodes);
      if b.None? || !StartsWith(b.value.rest, ')') then None
      else Some(Parsed(Pair(name, a.value.node, b.value.node), b.value.rest[1..], b.value.nodes))
  }

  function ParseNode(s: string, depth: nat, nodes: nat): Option<Parsed>
    decreases MAX_DEPTH + 1 - depth, 1
  {
    var k := AtomLen(s);
    if depth > MAX_DEPTH || nodes + 1 > MAX_NODES || k == 0 || !StartsWith(s[k..], '(') then None
    else
      var name, inner := s[..k], s[k + 1..];
      if name == "and" || name == "or" then ParsePair(name, inner, depth, nodes + 1)
          else ParseLeaf(name, inner, nodes + 1)
  }

  function Parse(text: string): Option<Node> {
    if text == "" || |text| > MAX_SCRIPT_BYTES then None
    else
      var p := ParseNode(text, 0, 0);
      if p.None? || p.value.rest != "" then None else Some(p.value.node)
  }

  // ------------------------------------------------- what is parsed is what was shown

  lemma LeafShows(name: string, arg: string)
    requires Leaf(name, arg).Some? && AtomOk(arg)
    ensures var n := Leaf(name, arg).value;
            Show(n) == name + "(" + arg + ")" && WellFormed(n) && Size(n) == 1 && Depth(n) == 0
  {
    hide Decimal, Value, HashOk, AtomOk;
    if name == "after" || name == "older" { ValueDecimal(arg); }
  }

  lemma ParseLeafSound(name: string, s: string, nodes: nat)
    requires ParseLeaf(name, s, nodes).Some?
    ensures var p := ParseLeaf(name, s, nodes).value;
            && name + "(" + s == Show(p.node) + p.rest && WellFormed(p.node)
            && p.nodes == nodes && Size(p.node) == 1 && Depth(p.node) == 0
  {
    hide Leaf, Show, WellFormed, Size, Depth, LowerHex;
    var k := AtomLen(s);
    LeafShows(name, s[..k]);
    assert s == s[..k] + ")" + s[k + 1..];
  }

  lemma {:induction false} ParseSound(s: string, depth: nat, nodes: nat)
    requires ParseNode(s, depth, nodes).Some?
    ensures var p := ParseNode(s, depth, nodes).value;
            && s == Show(p.node) + p.rest && WellFormed(p.node)
            && p.nodes == nodes + Size(p.node) <= MAX_NODES && depth + Depth(p.node) <= MAX_DEPTH
    decreases MAX_DEPTH + 1 - depth
  {
    hide ParseLeaf, Show, WellFormed, Size, Depth;
    var k := AtomLen(s);
    var name, inner := s[..k], s[k + 1..];
    HeadSplits(s, k);
    if name == "and" || name == "or" {
      ParseSound(inner, depth + 1, nodes + 1);
      var a := ParseNode(inner, depth + 1, nodes + 1).value;
      ParseSound(a.rest[1..], depth + 1, a.nodes);
      var b := ParseNode(a.rest[1..], depth + 1, a.nodes).value;
      PairShows(name, a.node, b.node, inner, a.rest, b.rest);
    } else {
      ParseLeafSound(name, inner, nodes + 1);
    }
  }

  lemma HeadSplits(s: string, k: nat)
    requires k <= |s| && StartsWith(s[k..], '(')
    ensures k < |s| && s == s[..k] + "(" + s[k + 1..]
  {
  }

  lemma PairText(name: string, a: Node, b: Node)
    requires name == "and" || name == "or"
    ensures Show(Pair(name, a, b)) == name + "(" + Show(a) + "," + Show(b) + ")"
    ensures WellFormed(Pair(name, a, b)) <==> WellFormed(a) && WellFormed(b)
    ensures Size(Pair(name, a, b)) == 1 + Size(a) + Size(b)
    ensures Depth(Pair(name, a, b)) == 1 + if Depth(a) >= Depth(b) then Depth(a) else Depth(b)
  {
    assert "and" + "(" == "and(" && "or" + "(" == "or(";
  }

  lemma PairShows(name: string, a: Node, b: Node, inner: string, ra: string, rb: string)
    requires (name == "and" || name == "or") && inner == Show(a) + ra && StartsWith(ra, ',') &&
             ra[1..] == Show(b) + rb && StartsWith(rb, ')')
    ensures name + "(" + inner == Show(Pair(name, a, b)) + rb[1..]
    ensures WellFormed(Pair(name, a, b)) <==> WellFormed(a) && WellFormed(b)
    ensures Size(Pair(name, a, b)) == 1 + Size(a) + Size(b)
    ensures Depth(Pair(name, a, b)) == 1 + if Depth(a) >= Depth(b) then Depth(a) else Depth(b)
  {
    hide Show, WellFormed, Size, Depth, Pair;
    PairText(name, a, b);
    assert ra == "," + ra[1..] && rb == ")" + rb[1..];
    Assemble(name, Show(a), Show(b), rb[1..]);
  }

  /** A two-argument expression and what follows it. */
  lemma Assemble(name: string, a: string, b: string, rest: string)
    ensures name + "(" + (a + ("," + (b + (")" + rest)))) == (name + "(" + a + "," + b + ")") + rest
  {
  }

  // ------------------------------------------------- what was shown is what is parsed

  lemma AtomFront(a: string, rest: string)
    requires AtomOk(a) && rest != "" && !Letter(rest[0])
    ensures AtomLen(a + rest) == |a| && (a + rest)[..|a|] == a && (a + rest)[|a|..] == rest
  {
    var s := a + rest;
    var n := AtomLen(s);
    assert s[|a|] == rest[0];
  }

  lemma LeafParses(name: string, arg: string, rest: string, nodes: nat)
    requires AtomOk(arg) && Leaf(name, arg).Some?
    ensures ParseLeaf(name, arg + ")" + rest, nodes) == Some(Parsed(Leaf(name, arg).value, rest, nodes))
  {
    hide Leaf;
    var s := arg + ")" + rest;
    assert s == arg + (")" + rest);
    AtomFront(arg, ")" + rest);
    assert s[|arg| + 1..] == rest;
  }

  /** The head of an expression. */
  lemma HeadParses(name: string, inner: string)
    requires AtomOk(name)
    ensures var s := name + "(" + inner;
            && AtomLen(s) == |name| && s[..|name|] == name
            && StartsWith(s[|name|..], '(') && s[|name| + 1..] == inner
  {
    hide AtomOk;
    var s := name + "(" + inner;
    assert s == name + ("(" + inner);
    AtomFront(name, "(" + inner);
  }

  /** The opcode and argument of a leaf. */
  function Opcode(n: Node): (string, string)
    requires !n.And? && !n.Or?
  {
    match n
    case Pk(a) => ("pk", a)
    case Sha3(h) => ("sha3", h)
    case After(k) => ("after", Decimal(k))
    case Older(k) => ("older", Decimal(k))
  }

  lemma OpcodeFacts(n: Node)
    requires !n.And? && !n.Or? && WellFormed(n)
    ensures var o := Opcode(n);
            && AtomOk(o.0) && AtomOk(o.1) && o.0 != "and" && o.0 != "or"
            && Leaf(o.0, o.1) == Some(n) && Show(n) == o.0 + "(" + o.1 + ")"
  {
    hide Decimal, Value;
    if n.After? || n.Older? { DecimalValue(n.n); NumberOfDecimal(n.n); }
  }

  lemma NumberOfDecimal(k: nat)
    requires |Decimal(k)| <= 12
    ensures NumberOk(Decimal(k))
  {
    DecimalValue(k);
  }

  lemma {:induction false} ParseComplete(n: Node, rest: string, depth: nat, nodes: nat)
    requires WellFormed(n) && nodes + Size(n) <= MAX_NODES && depth + Depth(n) <= MAX_DEPTH
    ensures ParseNode(Show(n) + rest, depth, nodes) == Some(Parsed(n, rest, nodes + Size(n)))
    decreases Size(n), 1
  {
    hide ParseNode, Show, WellFormed, Depth;
    if n.And? || n.Or? {
      var name := if n.And? then "and" else "or";
      assert n == Pair(name, n.a, n.b);
      PairText(name, n.a, n.b);
      PairParses(name, n.a, n.b, rest, depth, nodes);
    } else {
      LeafNodeParses(n, rest, depth, nodes);
    }
  }

  lemma LeafNodeParses(n: Node, rest: string, depth: nat, nodes: nat)
    requires WellFormed(n) && !n.And? && !n.Or? && nodes + 1 <= MAX_NODES && depth <= MAX_DEPTH
    ensures ParseNode(Show(n) + rest, depth, nodes) == Some(Parsed(n, rest, nodes + Size(n)))
  {
    hide ParseLeaf, ParseNode, AtomOk, HashOk, Decimal, Show, WellFormed;
    OpcodeFacts(n);
    var o := Opcode(n);
    LeafParses(o.0, o.1, rest, nodes + 1);
    LeafStep(o.0, o.1 + ")" + rest, depth, nodes);
    assert Show(n) + rest == o.0 + "(" + (o.1 + ")" + rest);
  }

  lemma LeafStep(name: string, inner: string, depth: nat, nodes: nat)
    requires AtomOk(name) && name != "and" && name != "or" && depth <= MAX_DEPTH && nodes + 1 <= MAX_NODES
    ensures ParseNode(name + "(" + inner, depth, nodes) == ParseLeaf(name, inner, nodes + 1)
  {
    hide ParseLeaf;
    HeadParses(name, inner);
  }

  /** The step the parser takes on a two-argument expression. */
  lemma PairStep(name: string, inner: string, depth: nat, nodes: nat)
    requires (name == "and" || name == "or") && depth <= MAX_DEPTH && nodes + 1 <= MAX_NODES
    ensures ParseNode(name + "(" + inner, depth, nodes) == ParsePair(name, inner, depth, nodes + 1)
  {
    hide ParsePair;
    HeadParses(name, inner);
  }

  lemma PairParses(name: string, a: Node, b: Node, rest: string, depth: nat, nodes: nat)
    requires (name == "and" || name == "or") && WellFormed(a) && WellFormed(b)
    requires nodes + 1 + Size(a) + Size(b) <= MAX_NODES && depth + 1 + Depth(a) <= MAX_DEPTH &&
             depth + 1 + Depth(b) <= MAX_DEPTH
    ensures ParseNode(name + "(" + Show(a) + "," + Show(b) + ")" + rest, depth, nodes) ==
            Some(Parsed(Pair(name, a, b), rest, nodes + 1 + Size(a) + Size(b)))
    decreases 1 + Size(a) + Size(b), 0
  {
    hide ParseNode, Show, WellFormed;
    var tb := Show(b) + (")" + rest);
    var ta := Show(a) + ("," + tb);
    Assemble(name, Show(a), Show(b), rest);
    ParseComplete(a, "," + tb, depth + 1, nodes + 1);
    ParseComplete(b, ")" + rest, depth + 1, nodes + 1 + Size(a));
    PairStep(name, ta, depth, nodes);
    assert ("," + tb)[1..] == tb && (")" + rest)[1..] == rest;
  }

  /** The parser accepts exactly the canonical texts of well-formed scripts within the
      limits, and returns the script shown. */
  lemma ParseIff(text: string, n: Node)
    ensures Parse(text) == Some(n) <==>
            Show(n) == text && WellFormed(n) && Size(n) <= MAX_NODES && Depth(n) <= MAX_DEPTH &&
                |text| <= MAX_SCRIPT_BYTES
  {
    hide ParseNode, Show, WellFormed;
    if Parse(text) == Some(n) {
      ParseSound(text, 0, 0);
      assert Show(n) + "" == Show(n);
    }
    if Show(n) == text && WellFormed(n) && Size(n) <= MAX_NODES && Depth(n) <= MAX_DEPTH {
      ParseComplete(n, "", 0, 0);
      assert Show(n) + "" == text;
      ShowNonEmpty(n);
    }
  }

  lemma ShowNonEmpty(n: Node)
    ensures Show(n) != ""
  {
  }

  // ------------------------------------------------------------------- the cursor

  /** The parser as the program runs it: a cursor over the text and a node counter. */
  class Parser {
    const s: string
    var i: nat
    var nodes: nat

    constructor (text: string)
      ensures s == text && i == 0 && nodes == 0
    {
      s, i, nodes := text, 0, 0;
    }

    method Atom() returns (ok: bool, out: string)
      requires i <= |s|
      modifies this`i
      ensures i <= |s| && out == s[old(i)..][..AtomLen(s[old(i)..])] && i == old(i) + AtomLen(s[old(i)..])
      ensures ok <==> AtomLen(s[old(i)..]) > 0
    {
      var st := i;
      while i < |s| && Letter(s[i])
        invariant st <= i <= |s| && (i - st) + AtomLen(s[i..]) == AtomLen(s[st..])
      {
        assert s[i..][1..] == s[i + 1..];
        i := i + 1;
      }
      out := s[st..i];
      assert out == s[st..][..i - st];
      ok := out != "";
    }

    method Expect(c: char) returns (ok: bool)
      requires i <= |s|
      modifies this`i
      ensures i <= |s| && (ok <==> StartsWith(s[old(i)..], c)) && i == old(i) + (if ok then 1 else 0)
    {
      ok := i < |s| && s[i] == c;
      if ok { i := i + 1; }
    }

    /** One node; `None` on a syntax error. */
    method ParseAt(depth: nat) returns (n: Option<Node>)
      requires i <= |s|
      modifies this
      ensures i <= |s|
      ensures var p := ParseNode(s[old(i)..], depth, old(nodes));
              && (n.Some? <==> p.Some?) && (p.Some? ==> p.value == Parsed(n.value, s[i..], nodes))
      decreases MAX_DEPTH + 1 - depth, 1
    {
      hide Leaf, ParseLeaf, ParsePair;
      if depth > MAX_DEPTH { return None; }
      nodes := nodes + 1;
      if nodes > MAX_NODES { return None; }
      ghost var rest := s[i..];
      var ok, name := Atom();
      if !ok { return None; }
      assert s[i..] == rest[|name|..];
      ok := Expect('(');
      if !ok { return None; }
      assert s[i..] == rest[|name| + 1..];
      if name == "and" || name == "or" { n := PairAt(name, depth); } else { n := LeafAt(name); }
    }

    /** The two arguments of `and` or `or`. */
    method PairAt(name: string, depth: nat) returns (n: Option<Node>)
      requires i <= |s| && depth <= MAX_DEPTH
      modifies this
      ensures i <= |s|
      ensures var p := ParsePair(name, s[old(i)..], depth, old(nodes));
              && (n.Some? <==> p.Some?) && (p.Some? ==> p.value == Parsed(n.value, s[i..], nodes))
      decreases MAX_DEPTH + 1 - depth, 0
    {
      hide ParseNode;
      var a := ParseAt(depth + 1);
      if a.None? { return None; }
      ghost var ra := s[i..];
      var ok := Expect(',');
      if !ok { return None; }
      assert s[i..] == ra[1..];
      var b := ParseAt(depth + 1);
      if b.None? { return None; }
      ghost var rb := s[i..];
      ok := Expect(')');
      if !ok { return None; }
      assert s[i..] == rb[1..];
      return Some(Pair(name, a.value, b.value));
    }

    method LeafAt(name: string) returns (n: Option<Node>)
      requires i <= |s|
      modifies this`i
      ensures i <= |s|
      ensures var p := ParseLeaf(name, s[old(i)..], nodes);
              && (n.Some? <==> p.Some?) && (p.Some? ==> p.value == Parsed(n.value, s[i..], nodes))
    {
      hide Leaf;
      ghost var rest := s[i..];
      var ok, arg := Atom();
      if !ok { return None; }
      assert s[i..] == rest[|arg|..];
      ok := Expect(')');
      if !ok { return None; }
      assert s[i..] == rest[|arg| + 1..];
      n := Leaf(name, arg);
    }
  }

  method ParseText(text: string) returns (n: Option<Node>)
    ensures n == Parse(text)
  {
    hide ParseNode;
    if text == "" || |text| > MAX_SCRIPT_BYTES { return None; }
    var p := new Parser(text);
    assert text[0..] == text;
    n := p.ParseAt(0);
    if n.Some? && p.i != |text| { return None; }
  }
}
