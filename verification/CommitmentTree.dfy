/** The shielded pool's append-only commitment tree: a frontier and a root kept
    incrementally, against the full padded tree of fixed depth. */
module CommitmentTree {
  import opened Basics

  /** A hash: the all-zero value, any other leaf, or the hash of two children. */
  datatype Hash = Zero | Leaf(data: string) | Join(left: Hash, right: Hash)

  // -------------------------------------------------------------- full tree

  /** Node `i` of level `d` of the tree over `leaves` padded with zeros on the right. */
  function Node(leaves: seq<Hash>, d: nat, i: nat): Hash {
    if d == 0 then (if i < |leaves| then leaves[i] else Zero)
    else Join(Node(leaves, d - 1, 2 * i), Node(leaves, d - 1, 2 * i + 1))
  }

  function Root(leaves: seq<Hash>, depth: nat): Hash { Node(leaves, depth, 0) }

  function Empty(d: nat): Hash {
    if d == 0 then Zero else Join(Empty(d - 1), Empty(d - 1))
  }

  /** The index at level `d` of the node above position `n`. */
  function Up(n: nat, d: nat): nat { if d == 0 then n else Up(n, d - 1) / 2 }

  lemma {:induction false} UpHalf(n: nat, d: nat)
    ensures Up(n, d + 1) == Up(n / 2, d)
  {
    if d > 0 { UpHalf(n, d - 1); }
  }

  /** A depth-`d` tree has room for position `n` exactly below `2^d`. */
  lemma {:induction false} UpZero(n: nat, d: nat)
    ensures Up(n, d) == 0 <==> n < Pow2(d)
  {
    if d > 0 {
      UpHalf(n, d - 1);
      UpZero(n / 2, d - 1);
    }
  }

  lemma {:induction false} UpNext(n: nat, d: nat)
    ensures Up(n + 1, d) == Up(n, d) || Up(n + 1, d) == Up(n, d) + 1
  {
    if d > 0 { UpNext(n, d - 1); }
  }

  lemma UpNone(n: nat)
    ensures Up(n, 0) == n
  {
  }

  lemma NodeJoins(leaves: seq<Hash>, d: nat, i: nat)
    ensures Node(leaves, d + 1, i) == Join(Node(leaves, d, 2 * i), Node(leaves, d, 2 * i + 1))
  {
  }

  /** A node right of every leaf is an empty subtree. */
  lemma NodePastEnd(leaves: seq<Hash>, d: nat, i: nat)
    requires leaves == [] || Up(|leaves| - 1, d) < i
    ensures Node(leaves, d, i) == Empty(d)
  {
  }

  /** A node all of whose leaves are present does not change as leaves are added. */
  lemma NodeFull(leaves: seq<Hash>, more: seq<Hash>, d: nat, i: nat)
    requires i < Up(|leaves|, d)
    ensures Node(leaves + more, d, i) == Node(leaves, d, i)
  {
  }

  // ---------------------------------------------------------------- frontier

  /** Whenever the node above the next position is a right child, the frontier holds
      its left sibling. */
  predicate FrontierOk(leaves: seq<Hash>, frontier: seq<Hash>) {
    forall d :: 0 <= d < |frontier| ==> FrontierAt(leaves, d, frontier[d])
  }

  predicate FrontierAt(leaves: seq<Hash>, d: nat, h: Hash) {
    var q := Up(|leaves|, d); q % 2 == 1 ==> h == Node(leaves, d, q - 1)
  }

  /** One level of an append: the parent of the node above the new leaf. */
  lemma {:induction false} AppendLevel(leaves: seq<Hash>, cm: Hash, d: nat, left: Hash)
    requires FrontierAt(leaves, d, left)
    ensures var all, q := leaves + [cm], Up(|leaves|, d);
            var cur := Node(all, d, q);
            Node(all, d + 1, Up(|leaves|, d + 1)) == if q % 2 == 0 then Join(cur, Empty(d)) else Join(left, cur)
  {
    var all, q := leaves + [cm], Up(|leaves|, d);
    if q % 2 == 0 { NodePastEnd(all, d, q + 1); } else { NodeFull(leaves, [cm], d, q - 1); }
  }

  /** The frontier entry of a level after an append. */
  lemma {:induction false} FrontierLevel(leaves: seq<Hash>, cm: Hash, d: nat, h: Hash)
    requires FrontierAt(leaves, d, h)
    ensures var all, q := leaves + [cm], Up(|leaves|, d);
            FrontierAt(all, d, if q % 2 == 0 then Node(all, d, q) else h)
  {
    var q := Up(|leaves|, d);
    UpNext(|leaves|, d);
    if q % 2 == 1 { NodeFull(leaves, [cm], d, q - 1); }
  }

  // --------------------------------------------------------- authentication path

  function Sibling(pos: nat): nat { if pos % 2 == 0 then pos + 1 else pos - 1 }

  /** Folding a hash at position `pos` with the siblings, bottom up. */
  function Fold(h: Hash, pos: nat, sib: seq<Hash>): Hash
    decreases |sib|
  {
    if sib == [] then h
    else Fold(if pos % 2 == 0 then Join(h, sib[0]) else Join(sib[0], h), pos / 2, sib[1..])
  }

  /** Siblings that are tree nodes fold to the node above. */
  lemma {:induction false} FoldsTo(leaves: seq<Hash>, d: nat, pos: nat, sib: seq<Hash>)
    requires forall k :: 0 <= k < |sib| ==> sib[k] == Node(leaves, d + k, Sibling(Up(pos, k)))
    ensures Fold(Node(leaves, d, pos), pos, sib) == Node(leaves, d + |sib|, Up(pos, |sib|))
    decreases |sib|
  {
    hide Node, Up;
    UpNone(pos);
    if sib != [] {
      NodeJoins(leaves, d, pos / 2);
      assert sib[0] == Node(leaves, d, Sibling(Up(pos, 0)));
      forall k | 0 <= k < |sib| - 1 ensures sib[1..][k] == Node(leaves, d + 1 + k, Sibling(Up(pos / 2, k))) {
        UpHalf(pos, k);
        assert sib[k + 1] == Node(leaves, d + (k + 1), Sibling(Up(pos, k + 1)));
      }
      FoldsTo(leaves, d + 1, pos / 2, sib[1..]);
      UpHalf(pos, |sib| - 1);
    }
  }

  /** Only the tree's own nodes fold to a node of the tree. */
  lemma {:induction false} FoldBinds(leaves: seq<Hash>, d: nat, h: Hash, pos: nat, sib: seq<Hash>)
    requires Fold(h, pos, sib) == Node(leaves, d + |sib|, Up(pos, |sib|))
    ensures h == Node(leaves, d, pos)
    ensures forall k :: 0 <= k < |sib| ==> sib[k] == Node(leaves, d + k, Sibling(Up(pos, k)))
    decreases |sib|
  {
    hide Node, Up;
    UpNone(pos);
    if sib != [] {
      UpHalf(pos, |sib| - 1);
      FoldBinds(leaves, d + 1, if pos % 2 == 0 then Join(h, sib[0]) else Join(sib[0], h), pos / 2, sib[1..]);
      NodeJoins(leaves, d, pos / 2);
      forall k | 0 < k < |sib| ensures sib[k] == Node(leaves, d + k, Sibling(Up(pos, k))) {
        UpHalf(pos, k - 1);
        assert sib[1..][k - 1] == Node(leaves, d + 1 + (k - 1), Sibling(Up(pos / 2, k - 1)));
      }
    }
  }

  /** A hash and siblings fold to the root at a position if and only if the hash is the
      leaf there (zero, past the last) and the siblings are the tree's. */
  lemma {:induction false} RootBinds(leaves: seq<Hash>, h: Hash, pos: nat, sib: seq<Hash>)
    requires pos < Pow2(|sib|)
    ensures Fold(h, pos, sib) == Root(leaves, |sib|) <==>
            && h == (if pos < |leaves| then leaves[pos] else Zero)
            && forall k :: 0 <= k < |sib| ==> sib[k] == Node(leaves, k, Sibling(Up(pos, k)))
  {
    hide Fold, Up, Pow2;
    UpZero(pos, |sib|);
    if Fold(h, pos, sib) == Root(leaves, |sib|) { FoldBinds(leaves, 0, h, pos, sib); }
    if forall k :: 0 <= k < |sib| ==> sib[k] == Node(leaves, k, Sibling(Up(pos, k))) {
      assert forall k :: 0 <= k < |sib| ==> sib[k] == Node(leaves, 0 + k, Sibling(Up(pos, k)));
      FoldsTo(leaves, 0, pos, sib);
    }
  }

  // ------------------------------------------------------------------- object

  class Tree {
    const depth: nat
    var leaves: seq<Hash>
    var frontier: array<Hash>
    var empty: array<Hash>
    var root: Hash

    ghost predicate Valid()
      reads this, frontier, empty
    {
      && frontier.Length == depth && empty.Length == depth + 1 && frontier != empty
      && (forall d :: 0 <= d <= depth ==> empty[d] == Empty(d))
      && |leaves| <= Pow2(depth)
      && FrontierOk(leaves, frontier[..])
      && root == Root(leaves, depth)
    }

    constructor (depth: nat)
      ensures Valid() && this.depth == depth && leaves == [] && fresh(frontier) && fresh(empty)
    {
      this.depth := depth;
      leaves := [];
      var e := EmptyNodes(depth);
      frontier, empty, root := new Hash[depth](_ => Zero), e, e[depth];
      new;
      hide Node, Up;
      NodePastEnd([], depth, 0);
      UpZero(0, depth);
      UpOfZero(depth);
      forall d | 0 <= d < depth ensures FrontierAt([], d, frontier[d]) { UpOfZero(d); }
    }

    static method EmptyNodes(depth: nat) returns (e: array<Hash>)
      ensures fresh(e) && e.Length == depth + 1 && forall d :: 0 <= d <= depth ==> e[d] == Empty(d)
    {
      hide Empty;
      EmptyStep(0);
      e := new Hash[depth + 1](_ => Zero);
      for d := 0 to depth
        invariant forall k :: 0 <= k <= d ==> e[k] == Empty(k)
      {
        EmptyStep(d);
        e[d + 1] := Join(e[d], e[d]);
      }
    }

    /** Appending keeps the root equal to the root of the full padded tree. */
    method Append(cm: Hash)
      requires Valid() && |leaves| < Pow2(depth)
      modifies this`leaves, this`root, frontier
      ensures Valid() && leaves == old(leaves) + [cm]
      ensures root == Root(old(leaves) + [cm], depth)
    {
      var pos := |leaves|;
      ghost var before, all := leaves, leaves + [cm];
      ghost var was := frontier[..];
      leaves := leaves + [cm];
      var cur, q := cm, pos;
      for d := 0 to depth
        invariant leaves == all && q == Up(pos, d) && cur == Node(all, d, q)
        invariant forall k :: d <= k < depth ==> frontier[k] == was[k]
        invariant forall k :: 0 <= k < d ==> FrontierAt(all, k, frontier[k])
      {
        AppendLevel(before, cm, d, was[d]);
        FrontierLevel(before, cm, d, was[d]);
        if q % 2 == 0 {
          frontier[d] := cur;
          cur := Join(cur, empty[d]);
        } else {
          cur := Join(frontier[d], cur);
        }
        q := q / 2;
      }
      root := cur;
      UpZero(pos, depth);
    }

    /** The siblings of a stored position, which fold its leaf to the root. */
    method Path(pos: nat) returns (sib: seq<Hash>)
      requires Valid()
      ensures pos >= |leaves| ==> sib == []
      ensures pos < |leaves| ==> |sib| == depth && Fold(leaves[pos], pos, sib) == root
    {
      hide Node, Up, Fold, Root, FrontierOk, Empty, Pow2;
      sib := [];
      if pos >= |leaves| { return; }
      var layer, at := leaves, pos;
      Bottom(leaves, pos);
      for d := 0 to depth
        invariant |sib| == d && at == Up(pos, d)
        invariant 0 <= at && Covers(layer, d)
        invariant forall k :: 0 <= k < d ==> sib[k] == Node(leaves, k, Sibling(Up(pos, k)))
      {
        UpStep(pos, d);
        var s := Sibling(at);
        if s >= |layer| { NodePastEnd(leaves, d, s); }
        sib := sib + [if s < |layer| then layer[s] else empty[d]];
        layer := NextLayer(layer, d);
        at := at / 2;
      }
      FoldsTo(leaves, 0, pos, sib);
      UpZero(pos, depth);
      RootIsTop(leaves, depth);
    }

    /** `layer` is level `d` of the tree, up to the last node above a leaf. */
    predicate Covers(layer: seq<Hash>, d: nat)
      reads this
    {
      && |leaves| > 0 && Up(|leaves| - 1, d) < |layer|
      && forall i :: 0 <= i < |layer| ==> layer[i] == Node(leaves, d, i)
    }

    method NextLayer(layer: seq<Hash>, d: nat) returns (next: seq<Hash>)
      requires Valid() && d < depth && Covers(layer, d)
      ensures Covers(next, d + 1) && |next| == (|layer| + 1) / 2
    {
      next := [];
      for i := 0 to (|layer| + 1) / 2
        invariant |next| == i && forall k :: 0 <= k < i ==> next[k] == Node(leaves, d + 1, k)
      {
        if 2 * i + 1 >= |layer| { NodePastEnd(leaves, d, 2 * i + 1); }
        next := next + [Join(layer[2 * i], if 2 * i + 1 < |layer| then layer[2 * i + 1] else empty[d])];
      }
    }
  }

  lemma UpOfZero(d: nat)
    ensures Up(0, d) == 0
  {
  }

  lemma EmptyStep(d: nat)
    ensures Empty(0) == Zero && Empty(d + 1) == Join(Empty(d), Empty(d))
  {
  }

  lemma UpStep(n: nat, d: nat)
    ensures Up(n, d + 1) == Up(n, d) / 2
  {
  }

  lemma RootIsTop(leaves: seq<Hash>, depth: nat)
    ensures Root(leaves, depth) == Node(leaves, depth, 0)
  {
  }

  /** Level 0 is the leaves themselves. */
  lemma Bottom(leaves: seq<Hash>, pos: nat)
    requires pos < |leaves|
    ensures Up(pos, 0) == pos && Up(|leaves| - 1, 0) == |leaves| - 1
    ensures forall i :: 0 <= i < |leaves| ==> leaves[i] == Node(leaves, 0, i)
  {
  }
}
