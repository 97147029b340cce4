/** Order on strings, decimal numerals, and the names of transaction outputs. */
module Text {

  predicate Less(a: string, b: string) {
    if a == [] then b != []
    else if b == [] then false
    else a[0] < b[0] || (a[0] == b[0] && Less(a[1..], b[1..]))
  }

  lemma {:induction false} LessTotal(a: string, b: string)
    ensures a == b <==> !Less(a, b) && !Less(b, a)
    ensures !(Less(a, b) && Less(b, a))
  {
    if a != [] && b != [] && a[0] == b[0] {
      LessTotal(a[1..], b[1..]);
      assert a == [a[0]] + a[1..] && b == [b[0]] + b[1..];
    }
  }

  lemma {:induction false} LessTrans(a: string, b: string, c: string)
    requires Less(a, b) && Less(b, c)
    ensures Less(a, c)
  {
    if a != [] && a[0] == b[0] && b[0] == c[0] { LessTrans(a[1..], b[1..], c[1..]); }
  }

  function Digit(d: nat): char
    requires d < 10
  {
    "0123456789"[d]
  }

  function Decimal(n: nat): string { if n < 10 then [Digit(n)] else Decimal(n / 10) + [Digit(n % 10)] }

  lemma {:induction false} DecimalInjective(m: nat, n: nat)
    requires Decimal(m) == Decimal(n)
    ensures m == n
  {
    DecimalSize(m);
    DecimalSize(n);
    var a, b := Decimal(m), Decimal(n);
    assert a[|a| - 1] == Digit(m % 10) && b[|b| - 1] == Digit(n % 10);
    if m >= 10 && n >= 10 {
      assert a[..|a| - 1] == Decimal(m / 10) && b[..|b| - 1] == Decimal(n / 10);
      DecimalInjective(m / 10, n / 10);
    }
  }

  lemma {:induction false} DecimalSize(n: nat)
    ensures |Decimal(n)| > 0 && (n >= 10 ==> |Decimal(n)| > 1) && ':' !in Decimal(n)
  {
    if n >= 10 { DecimalSize(n / 10); }
  }

  /** The name of output `index` of a transaction. */
  function Outpoint(txid: string, index: nat): string { txid + ":" + Decimal(index) }

  /** Two outputs never share a name, whatever their transaction ids look like. */
  lemma OutpointInjective(a: string, i: nat, b: string, j: nat)
    requires Outpoint(a, i) == Outpoint(b, j)
    ensures a == b && i == j
  {
    hide Decimal;
    DecimalSize(i);
    DecimalSize(j);
    var s, t := Outpoint(a, i), Outpoint(b, j);
    assert s[|a|] == ':' && t[|b|] == ':';
    assert a == s[..|a|] && b == t[..|b|];
    assert Decimal(i) == s[|a| + 1..] && Decimal(j) == t[|b| + 1..];
    DecimalInjective(i, j);
  }
}
