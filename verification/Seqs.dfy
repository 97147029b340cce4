/** Sequences: distinct elements, taking one out, and sorting. */
module Seqs {

  predicate Distinct<T(==)>(s: seq<T>) { forall i, j :: 0 <= i < j < |s| ==> s[i] != s[j] }

  lemma DistinctSnoc<T>(s: seq<T>, x: T)
    requires Distinct(s) && x !in s
    ensures Distinct(s + [x])
  {
  }

  function Without<T>(s: seq<T>, i: nat): seq<T>
    requires i < |s|
  {
    s[..i] + s[i + 1..]
  }

  lemma MultisetWithout<T>(s: seq<T>, i: nat)
    requires i < |s|
    ensures multiset(Without(s, i)) == multiset(s) - multiset{s[i]}
  {
    assert s == s[..i] + [s[i]] + s[i + 1..];
  }

  /** Two places of a list are two places of any permutation of it. */
  lemma PlacesOf<T>(s: seq<T>, t: seq<T>, i: nat, j: nat) returns (a: nat, b: nat)
    requires multiset(s) == multiset(t) && i < j < |t|
    ensures a < |s| && b < |s| && a != b && s[a] == t[i] && s[b] == t[j]
  {
    assert t[i] in multiset(s);
    a :| 0 <= a < |s| && s[a] == t[i];
    var u, w := Without(s, a), Without(t, i);
    MultisetWithout(s, a);
    MultisetWithout(t, i);
    assert w[j - 1] == t[j] && t[j] in multiset(u);
    var k :| 0 <= k < |u| && u[k] == t[j];
    b := if k < a then k else k + 1;
  }

  lemma MultisetSnoc<T>(s: seq<T>, t: T)
    ensures multiset(s + [t]) == multiset(s) + multiset{t}
  {
  }

  /** One more on the left or on the right is one more in all. */
  lemma OneMore<T>(a: multiset<T>, b: multiset<T>, c: multiset<T>, t: T)
    requires a + b == c
    ensures (a + multiset{t}) + b == c + multiset{t} && a + (b + multiset{t}) == c + multiset{t}
  {
  }

  lemma MultisetCons<T>(t: T, s: seq<T>)
    ensures multiset([t] + s) == multiset{t} + multiset(s)
  {
  }

  // ------------------------------------------------------------------------- sorting

  function Insert<T>(le: (T, T) -> bool, t: T, s: seq<T>): seq<T> {
    if s == [] || !le(s[0], t) then [t] + s else [s[0]] + Insert(le, t, s[1..])
  }

  function Sort<T>(le: (T, T) -> bool, s: seq<T>): seq<T> {
    if s == [] then [] else Insert(le, s[|s| - 1], Sort(le, s[..|s| - 1]))
  }

  ghost predicate Ordered<T(!new)>(le: (T, T) -> bool, s: seq<T>) { forall i, j :: 0 <= i < j < |s| ==> le(s[i], s[j]) }

  ghost predicate Preorder<T(!new)>(le: (T, T) -> bool) {
    (forall a, b :: le(a, b) || le(b, a)) && forall a, b, c :: le(a, b) && le(b, c) ==> le(a, c)
  }

  lemma {:induction false} InsertMultiset<T>(le: (T, T) -> bool, t: T, s: seq<T>)
    ensures multiset(Insert(le, t, s)) == multiset(s) + multiset{t}
    decreases |s|
  {
    if s == [] || !le(s[0], t) {
      MultisetCons(t, s);
    } else {
      InsertMultiset(le, t, s[1..]);
      assert s == [s[0]] + s[1..];
      MultisetCons(s[0], s[1..]);
      MultisetCons(s[0], Insert(le, t, s[1..]));
    }
  }

  lemma OrderedCons<T(!new)>(le: (T, T) -> bool, t: T, s: seq<T>)
    requires Ordered(le, s) && forall x :: x in s ==> le(t, x)
    ensures Ordered(le, [t] + s)
  {
    var u := [t] + s;
    forall i, j | 0 <= i < j < |u| ensures le(u[i], u[j]) {
      assert u[j] == s[j - 1] && s[j - 1] in s;
      if i > 0 { assert u[i] == s[i - 1]; }
    }
  }

  lemma {:induction false} InsertOrdered<T(!new)>(le: (T, T) -> bool, t: T, s: seq<T>)
    requires Preorder(le) && Ordered(le, s)
    ensures Ordered(le, Insert(le, t, s))
    decreases |s|
  {
    if s == [] {
    } else if !le(s[0], t) {
      forall x | x in s ensures le(t, x) {
        var j :| 0 <= j < |s| && s[j] == x;
        if j > 0 { assert le(s[0], s[j]); }
      }
      OrderedCons(le, t, s);
    } else {
      InsertOrdered(le, t, s[1..]);
      InsertMultiset(le, t, s[1..]);
      var rest := Insert(le, t, s[1..]);
      forall x | x in rest ensures le(s[0], x) {
        assert x in multiset(rest);
        if x != t {
          assert x in multiset(s[1..]);
          var j :| 0 <= j < |s[1..]| && s[1..][j] == x;
          assert le(s[0], s[j + 1]);
        }
      }
      OrderedCons(le, s[0], rest);
    }
  }

  lemma {:induction false} SortFacts<T(!new)>(le: (T, T) -> bool, s: seq<T>)
    requires Preorder(le)
    ensures Ordered(le, Sort(le, s)) && multiset(Sort(le, s)) == multiset(s) && |Sort(le, s)| == |s|
  {
    if s != [] {
      SortFacts(le, s[..|s| - 1]);
      InsertOrdered(le, s[|s| - 1], Sort(le, s[..|s| - 1]));
      InsertMultiset(le, s[|s| - 1], Sort(le, s[..|s| - 1]));
      assert s == s[..|s| - 1] + [s[|s| - 1]];
    }
    assert |Sort(le, s)| == |multiset(Sort(le, s))| && |s| == |multiset(s)|;
  }
}
