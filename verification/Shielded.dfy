/** The shielded pool's consensus state: the commitment tree, the window of anchors a
    spend may refer to, and the set of spent nullifiers. */
module Shielded {
  import opened Basics
  import opened Seqs
  import opened CommitmentTree

  const RECENT_ANCHORS: nat := 256

  datatype Bundle = Bundle(anchor: Hash, nullifiers: seq<string>, commitments: seq<Hash>, notes: nat)

  datatype Verdict =
    | Fine | CountMismatch | EmptyBundle | StaleAnchor | NonZeroAnchor | TreeFull | Spent | DuplicateCommitment

  /** The state as a value. */
  datatype Pool = Pool(depth: nat, leaves: seq<Hash>, recent: seq<Hash>, spent: set<string>, cms: set<Hash>)

  function Elements<T(==)>(s: seq<T>): set<T> { set x | x in s }

  function Check(p: Pool, b: Bundle, pending: set<string>): Verdict {
    if |b.commitments| != b.notes then CountMismatch
    else if b.nullifiers == [] && b.commitments == [] then EmptyBundle
    else if b.nullifiers != [] && b.anchor !in p.recent then StaleAnchor
    else if b.nullifiers == [] && b.anchor != Zero then NonZeroAnchor
    else if |p.leaves| + |b.commitments| > Pow2(p.depth) then TreeFull
    else if !(Distinct(b.nullifiers) && forall n :: n in b.nullifiers ==> n !in p.spent && n !in pending) then Spent
    else if exists c :: c in b.commitments && c in p.cms then DuplicateCommitment
    else Fine
  }

  function LastAnchors(recent: seq<Hash>): seq<Hash> {
    if |recent| > RECENT_ANCHORS then recent[|recent| - RECENT_ANCHORS..] else recent
  }

  function Remember(p: Pool): Pool {
    var root := Root(p.leaves, p.depth);
    if root in p.recent then p else p.(recent := LastAnchors(p.recent + [root]))
  }

  function Apply(p: Pool, b: Bundle): Pool {
    Remember(p.(leaves := p.leaves + b.commitments, spent := p.spent + Elements(b.nullifiers),
                cms := p.cms + Elements(b.commitments)))
  }

  function Genesis(depth: nat): Pool { Remember(Pool(depth, [], [], {}, {})) }

  // -------------------------------------------------------------------- runs

  /** Bundles offered in order; only those that pass the check are applied. */
  function Play(p: Pool, bs: seq<Bundle>): Pool {
    if bs == [] then p
    else
      var q := Play(p, bs[..|bs| - 1]);
      var b := bs[|bs| - 1];
      if Check(q, b, {}) == Fine then Apply(q, b) else q
  }

  /** The nullifiers of the applied bundles, in order. */
  function Taken(p: Pool, bs: seq<Bundle>): seq<string> {
    if bs == [] then []
    else
      var b := bs[|bs| - 1];
      Taken(p, bs[..|bs| - 1]) + if Check(Play(p, bs[..|bs| - 1]), b, {}) == Fine then b.nullifiers else []
  }

  ghost predicate PoolInv(p: Pool) {
    && |p.leaves| <= Pow2(p.depth)
    && |p.recent| <= RECENT_ANCHORS && Distinct(p.recent)
    && Root(p.leaves, p.depth) in p.recent
    && (forall r :: r in p.recent ==> WasRoot(p, r))
  }

  /** `r` was the root after some earlier number of commitments. */
  ghost predicate WasRoot(p: Pool, r: Hash) {
    exists k :: 0 <= k <= |p.leaves| && r == Root(p.leaves[..k], p.depth)
  }

  lemma RememberKeeps(p: Pool)
    requires |p.leaves| <= Pow2(p.depth) && |p.recent| <= RECENT_ANCHORS && Distinct(p.recent)
    requires forall r :: r in p.recent ==> WasRoot(p, r)
    ensures PoolInv(Remember(p))
  {
    hide Root;
    var root := Root(p.leaves, p.depth);
    assert p.leaves[..|p.leaves|] == p.leaves;
    if root !in p.recent {
      var all := p.recent + [root];
      WindowKept(all);
      forall r | r in LastAnchors(all) ensures WasRoot(p, r) { assert r in p.recent || r == root; }
      SameLeaves(p, Remember(p));
    }
  }

  /** The newest anchors, the last one among them. */
  lemma WindowKept(all: seq<Hash>)
    requires 0 < |all| <= RECENT_ANCHORS + 1 && Distinct(all)
    ensures var w := LastAnchors(all);
            |w| <= RECENT_ANCHORS && Distinct(w) && all[|all| - 1] in w && forall r :: r in w ==> r in all
  {
    var w := LastAnchors(all);
    assert forall i {:trigger w[i]} :: 0 <= i < |w| ==> w[i] == all[|all| - |w| + i];
    assert w[|w| - 1] == all[|all| - 1];
  }

  lemma SameLeaves(p: Pool, q: Pool)
    requires p.leaves == q.leaves && p.depth == q.depth
    ensures forall r :: WasRoot(p, r) ==> WasRoot(q, r)
  {
    hide Root;
  }

  lemma ApplyKeeps(p: Pool, b: Bundle)
    requires PoolInv(p) && Check(p, b, {}) == Fine
    ensures PoolInv(Apply(p, b))
  {
    hide Root, Remember;
    var q := p.(leaves := p.leaves + b.commitments, spent := p.spent + Elements(b.nullifiers),
                cms := p.cms + Elements(b.commitments));
    forall r | r in p.recent ensures WasRoot(q, r) {
      var k :| 0 <= k <= |p.leaves| && r == Root(p.leaves[..k], p.depth);
      assert q.leaves[..k] == p.leaves[..k];
    }
    RememberKeeps(q);
  }

  /** In every run no nullifier is accepted twice, the spent set is exactly what was
      accepted, the current root is always a usable anchor, and every usable anchor is
      the root of the tree as it was after some earlier number of commitments. */
  lemma {:induction false} PlayInv(depth: nat, bs: seq<Bundle>)
    ensures var p, taken := Play(Genesis(depth), bs), Taken(Genesis(depth), bs);
            Distinct(taken) && p.spent == Elements(taken) && p.depth == depth && PoolInv(p)
  {
    hide Root, PoolInv, Check, Remember;
    var g := Genesis(depth);
    if bs == [] {
      GenesisInv(depth);
    } else {
      PlayInv(depth, bs[..|bs| - 1]);
      var q, b := Play(g, bs[..|bs| - 1]), bs[|bs| - 1];
      var taken := Taken(g, bs[..|bs| - 1]);
      if Check(q, b, {}) == Fine {
        ApplyKeeps(q, b);
        FreshNullifiers(q, b);
        RememberFrame(q.(leaves := q.leaves + b.commitments, spent := q.spent + Elements(b.nullifiers),
                         cms := q.cms + Elements(b.commitments)));
        assert Elements(taken + b.nullifiers) == Elements(taken) + Elements(b.nullifiers);
        assert forall i :: 0 <= i < |taken| ==> taken[i] in Elements(taken);
      } else {
        assert taken + [] == taken;
      }
    }
  }

  lemma GenesisInv(depth: nat)
    ensures var g := Genesis(depth); PoolInv(g) && g.spent == {} && g.depth == depth
  {
    hide Root;
    assert Pow2(depth) >= 0;
    RememberKeeps(Pool(depth, [], [], {}, {}));
  }

  lemma RememberFrame(p: Pool)
    ensures Remember(p).spent == p.spent && Remember(p).depth == p.depth
  {
    hide Root;
  }

  lemma FreshNullifiers(p: Pool, b: Bundle)
    requires Check(p, b, {}) == Fine
    ensures Distinct(b.nullifiers) && forall i :: 0 <= i < |b.nullifiers| ==> b.nullifiers[i] !in p.spent
  {
  }

  /** An accepted spend refers to a root the tree has had. */
  lemma AcceptedAnchor(depth: nat, bs: seq<Bundle>, b: Bundle, pending: set<string>)
    requires Check(Play(Genesis(depth), bs), b, pending) == Fine && b.nullifiers != []
    ensures WasRoot(Play(Genesis(depth), bs), b.anchor)
  {
    PlayInv(depth, bs);
  }

  /** A bundle passes if and only if it carries one note per commitment, does something, spends
      against a usable anchor (or names none), fits the tree, spends nothing twice and repeats
      no commitment; otherwise the first thing wrong is reported. */
  lemma CheckIff(p: Pool, b: Bundle, pending: set<string>)
    ensures Check(p, b, pending) == Fine <==>
            && |b.commitments| == b.notes && (b.nullifiers != [] || b.commitments != [])
            && (if b.nullifiers != [] then b.anchor in p.recent else b.anchor == Zero)
            && |p.leaves| + |b.commitments| <= Pow2(p.depth)
            && (forall i, j :: 0 <= i < j < |b.nullifiers| ==> b.nullifiers[i] != b.nullifiers[j])
            && (forall n :: n in b.nullifiers ==> n !in p.spent && n !in pending)
            && (forall c :: c in b.commitments ==> c !in p.cms)
    ensures Check(p, b, pending) == CountMismatch <==> |b.commitments| != b.notes
    ensures Check(p, b, pending) == EmptyBundle <==>
            |b.commitments| == b.notes && b.nullifiers == [] && b.commitments == []
    ensures Check(p, b, pending) == StaleAnchor <==>
            |b.commitments| == b.notes && b.nullifiers != [] && b.anchor !in p.recent
    ensures Check(p, b, pending) == NonZeroAnchor <==>
            |b.commitments| == b.notes && b.nullifiers == [] && b.commitments != [] && b.anchor != Zero
    ensures Check(p, b, pending) == TreeFull ==> |p.leaves| + |b.commitments| > Pow2(p.depth)
    ensures Check(p, b, pending) == DuplicateCommitment ==> exists c :: c in b.commitments && c in p.cms
  {
  }

  /** The commitments of the applied bundles, in order. */
  function Committed(p: Pool, bs: seq<Bundle>): seq<Hash> {
    if bs == [] then []
    else
      var b := bs[|bs| - 1];
      Committed(p, bs[..|bs| - 1]) + if Check(Play(p, bs[..|bs| - 1]), b, {}) == Fine then b.commitments else []
  }

  /** In every run the tree holds exactly the commitments accepted, in order, and the set of
      known commitments is theirs. */
  lemma {:induction false} LeavesAre(depth: nat, bs: seq<Bundle>)
    ensures var p, all := Play(Genesis(depth), bs), Committed(Genesis(depth), bs);
            p.leaves == all && p.cms == Elements(all)
  {
    hide Root, Check;
    var g := Genesis(depth);
    if bs != [] {
      LeavesAre(depth, bs[..|bs| - 1]);
      var b, all := bs[|bs| - 1], Committed(g, bs[..|bs| - 1]);
      assert Elements(all + b.commitments) == Elements(all) + Elements(b.commitments);
      assert all + [] == all;
    }
  }

  /** Applying a bundle makes the new root usable and forgets at most one anchor: the oldest,
      when the window of 256 is full. */
  lemma AnchorsLive(p: Pool, b: Bundle, r: Hash)
    requires PoolInv(p)
    ensures var q, root := Apply(p, b), Root(p.leaves + b.commitments, p.depth);
            && root in q.recent
            && (r in p.recent ==> (r in q.recent <==> !(|p.recent| == 256 && root !in p.recent && r == p.recent[0])))
            && (r in q.recent ==> r in p.recent || r == root)
  {
    hide Root;
    var root := Root(p.leaves + b.commitments, p.depth);
    var all := p.recent + [root];
    var q := Apply(p, b);
    if root !in p.recent {
      assert all[|p.recent|] == root;
      if |p.recent| == 256 {
        assert q.recent == all[1..];
        if r in p.recent {
          var i :| 0 <= i < |p.recent| && p.recent[i] == r;
          if i > 0 { assert q.recent[i - 1] == r; }
        }
      } else {
        assert q.recent == all;
      }
    }
  }

  lemma DropFirst<T>(s: seq<T>)
    requires s != [] && Distinct(s)
    ensures Distinct(s[1..]) && Elements(s[1..]) == Elements(s) - {s[0]}
  {
    assert s == [s[0]] + s[1..];
  }

  lemma AddLast<T>(s: seq<T>, x: T)
    requires Distinct(s) && x !in s
    ensures Distinct(s + [x]) && Elements(s + [x]) == Elements(s) + {x}
  {
  }

  // ------------------------------------------------------------------- object

  class PoolState {
    const tree: Tree
    var recent: seq<Hash>
    var recentSet: set<Hash>
    var spent: set<string>
    var cms: set<Hash>

    ghost predicate Valid()
      reads this, tree, tree.frontier, tree.empty
    {
      tree.Valid() && recentSet == Elements(recent) && PoolInv(View())
    }

    function View(): Pool
      reads this, tree
    {
      Pool(tree.depth, tree.leaves, recent, spent, cms)
    }

    constructor (depth: nat)
      ensures Valid() && View() == Genesis(depth) && fresh(tree) && fresh(tree.frontier) && fresh(tree.empty)
    {
      tree := new Tree(depth);
      recent, recentSet, spent, cms := [], {}, {}, {};
      new;
      hide Root, PoolInv;
      GenesisInv(depth);
      RememberRoot();
    }

    /** Record the current root, dropping the oldest anchors beyond the window. */
    method RememberRoot()
      requires tree.Valid() && recentSet == Elements(recent) && |recent| <= RECENT_ANCHORS && Distinct(recent)
      modifies this`recent, this`recentSet
      ensures View() == Remember(old(View())) && recentSet == Elements(recent)
    {
      hide Root, FrontierOk, Distinct, Empty, Pow2;
      if tree.root !in recentSet {
        recentSet := recentSet + {tree.root};
        recent := recent + [tree.root];
        AddLast(old(recent), tree.root);
        recent, recentSet := Trim(recent, recentSet);
      }
    }

    static method Trim(all: seq<Hash>, all': set<Hash>) returns (recent: seq<Hash>, recentSet: set<Hash>)
      requires Distinct(all) && all' == Elements(all)
      ensures recent == LastAnchors(all) && recentSet == Elements(recent)
    {
      hide Distinct;
      recent, recentSet := all, all';
      while |recent| > RECENT_ANCHORS
        invariant Distinct(recent) && recentSet == Elements(recent)
        invariant |recent| <= |all| && (|recent| == |all| || RECENT_ANCHORS <= |recent|)
        invariant recent == all[|all| - |recent|..]
        decreases |recent|
      {
        DropFirst(recent);
        recentSet := recentSet - {recent[0]};
        recent := recent[1..];
      }
    }

    method CheckBundle(b: Bundle, pending: set<string>) returns (v: Verdict)
      requires Valid()
      ensures v == Check(View(), b, pending)
    {
      hide Root, FrontierOk, PoolInv, Empty, Pow2;
      if |b.commitments| != b.notes { return CountMismatch; }
      if b.nullifiers == [] && b.commitments == [] { return EmptyBundle; }
      if b.nullifiers != [] && b.anchor !in recentSet { return StaleAnchor; }
      if b.nullifiers == [] && b.anchor != Zero { return NonZeroAnchor; }
      if |tree.leaves| + |b.commitments| > Pow2(tree.depth) { return TreeFull; }
      var seen: set<string> := {};
      for i := 0 to |b.nullifiers|
        invariant seen == Elements(b.nullifiers[..i]) && Distinct(b.nullifiers[..i])
        invariant forall k :: 0 <= k < i ==> b.nullifiers[k] !in spent && b.nullifiers[k] !in pending
      {
        var n := b.nullifiers[i];
        assert b.nullifiers[..i + 1] == b.nullifiers[..i] + [n];
        if n in spent || n in pending { return Spent; }
        if n in seen {
          var k :| 0 <= k < i && b.nullifiers[..i][k] == n;
          assert b.nullifiers[k] == b.nullifiers[i];
          return Spent;
        }
        seen := seen + {n};
      }
      assert b.nullifiers[..|b.nullifiers|] == b.nullifiers;
      for i := 0 to |b.commitments|
        invariant forall k :: 0 <= k < i ==> b.commitments[k] !in cms
      {
        if b.commitments[i] in cms { return DuplicateCommitment; }
      }
      v := Fine;
    }

    /** Spend the nullifiers, append the commitments, remember the new root. */
    method ApplyBundle(b: Bundle)
      requires Valid() && Check(View(), b, {}) == Fine
      modifies this, tree`leaves, tree`root, tree.frontier
      ensures Valid() && View() == Apply(old(View()), b)
    {
      hide Root, FrontierOk, Empty, Pow2;
      ghost var before := View();
      assert |tree.leaves| + |b.commitments| <= Pow2(tree.depth);
      for i := 0 to |b.nullifiers|
        invariant View() == before.(spent := before.spent + Elements(b.nullifiers[..i])) && tree.Valid()
        invariant recentSet == Elements(recent)
      {
        assert b.nullifiers[..i + 1] == b.nullifiers[..i] + [b.nullifiers[i]];
        assert Elements(b.nullifiers[..i + 1]) == Elements(b.nullifiers[..i]) + {b.nullifiers[i]};
        spent := spent + {b.nullifiers[i]};
      }
      assert b.nullifiers[..|b.nullifiers|] == b.nullifiers;
      ghost var mid := View();
      for i := 0 to |b.commitments|
        invariant tree.Valid() && recentSet == Elements(recent)
        invariant View() == mid.(leaves := mid.leaves + b.commitments[..i],
                  cms := mid.cms + Elements(b.commitments[..i]))
      {
        assert b.commitments[..i + 1] == b.commitments[..i] + [b.commitments[i]];
        assert Elements(b.commitments[..i + 1]) == Elements(b.commitments[..i]) + {b.commitments[i]};
        assert mid.leaves + b.commitments[..i + 1] == (mid.leaves + b.commitments[..i]) + [b.commitments[i]];
        tree.Append(b.commitments[i]);
        cms := cms + {b.commitments[i]};
      }
      assert b.commitments[..|b.commitments|] == b.commitments;
      RememberRoot();
      ApplyKeeps(before, b);
    }
  }
}
