/** Stake tickets: the weighted draw of voters and the rewards they share. */
module Staking {
  import opened Seqs
  import opened Text

  datatype Ticket = Ticket(id: string, owner: string, pubkey: string, amount: nat, lockHeight: nat)

  // ----------------------------------------------------------------------- sorting

  predicate IdLe(a: Ticket, b: Ticket) { !Less(b.id, a.id) }

  predicate Ascending(s: seq<Ticket>) { forall i, j :: 0 <= i < j < |s| ==> Less(s[i].id, s[j].id) }

  predicate DistinctIds(s: seq<Ticket>) { forall i, j :: 0 <= i < j < |s| ==> s[i].id != s[j].id }

  lemma IdPreorder()
    ensures Preorder(IdLe)
  {
    forall a: Ticket, b: Ticket ensures IdLe(a, b) || IdLe(b, a) { LessTotal(a.id, b.id); }
    forall a: Ticket, b: Ticket, c: Ticket | IdLe(a, b) && IdLe(b, c) ensures IdLe(a, c) {
      LessTotal(a.id, b.id);
      LessTotal(b.id, c.id);
      if Less(c.id, a.id) && a.id != b.id && b.id != c.id { LessTrans(a.id, b.id, c.id); LessTotal(a.id, c.id); }
    }
  }

  lemma SortKeeps(s: seq<Ticket>)
    ensures multiset(Sort(IdLe, s)) == multiset(s) && |Sort(IdLe, s)| == |s|
  {
    IdPreorder();
    SortFacts(IdLe, s);
  }

  lemma DistinctPermutes(s: seq<Ticket>, t: seq<Ticket>)
    requires DistinctIds(s) && multiset(s) == multiset(t)
    ensures DistinctIds(t)
  {
    forall i, j | 0 <= i < j < |t| ensures t[i].id != t[j].id { var a, b := PlacesOf(s, t, i, j); }
  }

  lemma SortAscending(s: seq<Ticket>)
    requires DistinctIds(s)
    ensures Ascending(Sort(IdLe, s))
  {
    hide Less;
    IdPreorder();
    SortFacts(IdLe, s);
    var t := Sort(IdLe, s);
    DistinctPermutes(s, t);
    forall i, j | 0 <= i < j < |t| ensures Less(t[i].id, t[j].id) {
      assert IdLe(t[i], t[j]);
      LessTotal(t[i].id, t[j].id);
    }
  }

  /** An ascending list is determined by its elements. */
  lemma {:induction false} AscendingUnique(s: seq<Ticket>, t: seq<Ticket>)
    requires Ascending(s) && Ascending(t) && multiset(s) == multiset(t)
    ensures s == t
  {
    hide Less;
    assert |s| == |multiset(s)| && |t| == |multiset(t)|;
    if s != [] {
      HeadLeast(s, t);
      assert s == [s[0]] + s[1..] && t == [t[0]] + t[1..];
      assert multiset(s[1..]) == multiset(s) - multiset{s[0]};
      assert multiset(t[1..]) == multiset(t) - multiset{t[0]};
      AscendingUnique(s[1..], t[1..]);
    }
  }

  lemma HeadLeast(s: seq<Ticket>, t: seq<Ticket>)
    requires Ascending(s) && Ascending(t) && multiset(s) == multiset(t) && s != [] && t != []
    ensures s[0] == t[0]
  {
    hide Less;
    assert s[0] in multiset(t) && t[0] in multiset(s);
    var i :| 0 <= i < |t| && t[i] == s[0];
    var j :| 0 <= j < |s| && s[j] == t[0];
    LessTotal(s[0].id, t[0].id);
  }

  /** Whatever order the tickets arrive in, the sorted list is the same. */
  lemma SortOrderFree(s: seq<Ticket>, t: seq<Ticket>)
    requires DistinctIds(s) && DistinctIds(t) && multiset(s) == multiset(t)
    ensures Sort(IdLe, s) == Sort(IdLe, t)
  {
    SortAscending(s);
    SortAscending(t);
    SortKeeps(s);
    SortKeeps(t);
    AscendingUnique(Sort(IdLe, s), Sort(IdLe, t));
  }

  // -------------------------------------------------------------------------- draw

  function Weight(s: seq<Ticket>): nat { if s == [] then 0 else s[0].amount + Weight(s[1..]) }

  /** The ticket whose stretch of the number line holds `r`. */
  function Pick(s: seq<Ticket>, r: nat): (i: nat)
    requires r < Weight(s)
    ensures i < |s| && s[i].amount > 0
  {
    if r < s[0].amount then 0 else 1 + Pick(s[1..], r - s[0].amount)
  }

  /** The ids drawn from round `round` on; `draw` is the 128-bit number of a round. */
  function Drawn(s: seq<Ticket>, draw: nat -> nat, round: nat, count: nat): seq<string>
    decreases count - round
  {
    if round >= count || s == [] || Weight(s) == 0 then []
    else
      var i := Pick(s, draw(round) % Weight(s));
      [s[i].id] + Drawn(Without(s, i), draw, round + 1, count)
  }

  function Selected(eligible: seq<Ticket>, draw: nat -> nat, count: nat): seq<string> {
    Drawn(Sort(IdLe, eligible), draw, 0, count)
  }

  function Positive(s: seq<Ticket>): nat {
    if s == [] then 0 else (if s[0].amount > 0 then 1 else 0) + Positive(s[1..])
  }

  lemma {:induction false} WeightWithout(s: seq<Ticket>, i: nat)
    requires i < |s|
    ensures Weight(Without(s, i)) == Weight(s) - s[i].amount
    ensures Positive(Without(s, i)) == Positive(s) - (if s[i].amount > 0 then 1 else 0)
    decreases i
  {
    if i == 0 {
      assert Without(s, 0) == s[1..];
    } else {
      WeightWithout(s[1..], i - 1);
      assert Without(s, i) == [s[0]] + Without(s[1..], i - 1);
    }
  }

  lemma {:induction false} PositiveIff(s: seq<Ticket>)
    ensures Weight(s) == 0 <==> Positive(s) == 0
  {
    if s != [] { PositiveIff(s[1..]); }
  }

  predicate IdIn(s: seq<Ticket>, id: string) { exists i :: 0 <= i < |s| && s[i].id == id && s[i].amount > 0 }

  lemma WithoutDistinct(s: seq<Ticket>, i: nat)
    requires DistinctIds(s) && i < |s|
    ensures DistinctIds(Without(s, i))
    ensures forall id :: IdIn(Without(s, i), id) ==> id != s[i].id && IdIn(s, id)
  {
    var w := Without(s, i);
    assert forall k {:trigger w[k]} :: 0 <= k < |w| ==> w[k] == s[if k < i then k else k + 1];
    forall id | IdIn(w, id) ensures id != s[i].id && IdIn(s, id) {
      var k :| 0 <= k < |w| && w[k].id == id && w[k].amount > 0;
      var m := if k < i then k else k + 1;
      assert s[m].id == id && s[m].amount > 0;
    }
  }

  /** A ticket is picked by exactly as many numbers as it has stake: those between the
      stake before it and that stake plus its own. */
  lemma {:induction false} PickStretch(s: seq<Ticket>, r: nat, i: nat)
    requires r < Weight(s) && i < |s|
    ensures Pick(s, r) == i <==> Weight(s[..i]) <= r < Weight(s[..i]) + s[i].amount
    decreases i
  {
    if i == 0 {
      assert s[..0] == [];
    } else {
      assert s[..i][0] == s[0] && s[..i][1..] == s[1..][..i - 1];
      if r >= s[0].amount { PickStretch(s[1..], r - s[0].amount, i - 1); }
    }
  }

  /** The draw takes distinct tickets with stake, and as many as it can. */
  lemma {:induction false} DrawnExact(s: seq<Ticket>, draw: nat -> nat, round: nat, count: nat)
    requires DistinctIds(s) && round <= count
    ensures var d := Drawn(s, draw, round, count);
            && Distinct(d) && (forall id :: id in d ==> IdIn(s, id))
            && |d| == if count - round <= Positive(s) then count - round else Positive(s)
    decreases count - round
  {
    PositiveIff(s);
    if round < count && s != [] && Weight(s) > 0 {
      var i := Pick(s, draw(round) % Weight(s));
      WeightWithout(s, i);
      WithoutDistinct(s, i);
      DrawnExact(Without(s, i), draw, round + 1, count);
      var rest := Drawn(Without(s, i), draw, round + 1, count);
      DistinctCons(s[i].id, rest);
      forall id | id in [s[i].id] + rest ensures IdIn(s, id) { if id in rest { assert IdIn(Without(s, i), id); } }
    }
  }

  lemma DistinctCons(x: string, s: seq<string>)
    requires Distinct(s) && x !in s
    ensures Distinct([x] + s)
  {
  }

  lemma {:induction false} AllPositive(s: seq<Ticket>)
    requires forall t :: t in s ==> t.amount > 0
    ensures Positive(s) == |s|
  {
    if s != [] { AllPositive(s[1..]); }
  }

  lemma {:induction false} PositiveOfPermutation(s: seq<Ticket>, t: seq<Ticket>)
    requires multiset(s) == multiset(t)
    ensures Positive(s) == Positive(t)
  {
    assert |s| == |multiset(s)| && |t| == |multiset(t)|;
    if s != [] {
      assert s[0] in multiset(t);
      var i :| 0 <= i < |t| && t[i] == s[0];
      MultisetWithout(s, 0);
      MultisetWithout(t, i);
      assert Without(s, 0) == s[1..];
      PositiveOfPermutation(s[1..], Without(t, i));
      WeightWithout(t, i);
    }
  }

  /** Selection returns distinct eligible tickets that carry stake, exactly as many as
      asked for or as there are, and does not depend on the order they came in. */
  lemma SelectedExact(eligible: seq<Ticket>, draw: nat -> nat, count: nat)
    requires DistinctIds(eligible)
    ensures var d := Selected(eligible, draw, count);
            && Distinct(d) && (forall id :: id in d ==> IdIn(eligible, id))
            && |d| == if count <= Positive(eligible) then count else Positive(eligible)
    ensures (forall t :: t in eligible ==> t.amount > 0) ==> Positive(eligible) == |eligible|
    ensures forall other :: DistinctIds(other) && multiset(other) == multiset(eligible) ==>
            Selected(other, draw, count) == Selected(eligible, draw, count)
  {
    hide Less, Sort, Drawn, Positive;
    SortKeeps(eligible);
    SortAscending(eligible);
    AscendingDistinct(Sort(IdLe, eligible));
    DrawnExact(Sort(IdLe, eligible), draw, 0, count);
    PositiveOfPermutation(Sort(IdLe, eligible), eligible);
    if forall t :: t in eligible ==> t.amount > 0 { AllPositive(eligible); }
    forall id | IdIn(Sort(IdLe, eligible), id)
      ensures IdIn(eligible, id)
    {
      SameIds(Sort(IdLe, eligible), eligible, id);
    }
    forall other | DistinctIds(other) &&
        multiset(other) == multiset(eligible) ensures Selected(other, draw, count) == Selected(eligible, draw, count) {
      SortOrderFree(other, eligible);
    }
  }

  lemma AscendingDistinct(s: seq<Ticket>)
    requires Ascending(s)
    ensures DistinctIds(s)
  {
    forall i, j | 0 <= i < j < |s| ensures s[i].id != s[j].id { LessTotal(s[i].id, s[j].id); }
  }

  lemma SameIds(s: seq<Ticket>, t: seq<Ticket>, id: string)
    requires multiset(s) == multiset(t) && IdIn(s, id)
    ensures IdIn(t, id)
  {
    var i :| 0 <= i < |s| && s[i].id == id && s[i].amount > 0;
    assert s[i] in multiset(t);
  }

  // ---------------------------------------------------------------- the program's loops

  method Total(s: seq<Ticket>) returns (total: nat)
    ensures total == Weight(s)
  {
    total := 0;
    var i := 0;
    assert s[0..] == s;
    while i < |s|
      invariant i <= |s| && total + Weight(s[i..]) == Weight(s)
    {
      assert s[i..][1..] == s[i + 1..];
      total := total + s[i].amount;
      i := i + 1;
    }
  }

  /** Walk the running sum until it passes `r`. */
  method Find(s: seq<Ticket>, r: nat) returns (i: nat)
    requires r < Weight(s)
    ensures i < |s| && i == Pick(s, r)
  {
    var acc := 0;
    i := 0;
    assert s[0..] == s;
    while true
      invariant i <= |s| && acc <= r < acc + Weight(s[i..]) && i + Pick(s[i..], r - acc) == Pick(s, r)
      decreases |s| - i
    {
      assert s[i..][1..] == s[i + 1..];
      acc := acc + s[i].amount;
      if r < acc { return; }
      i := i + 1;
    }
  }

  method SelectTickets(eligible: seq<Ticket>, draw: nat -> nat, count: nat) returns (out: seq<string>)
    ensures out == Selected(eligible, draw, count)
  {
    hide Sort, Drawn, Weight, Pick;
    var pool := Sort(IdLe, eligible);
    out := [];
    var total := Total(pool);
    var round := 0;
    while round < count && pool != [] && total > 0
      invariant round <= count && total == Weight(pool)
      invariant out + Drawn(pool, draw, round, count) == Selected(eligible, draw, count)
      decreases count - round
    {
      DrawnStep(pool, draw, round, count);
      var i := Find(pool, draw(round) % total);
      WeightWithout(pool, i);
      out := out + [pool[i].id];
      total := total - pool[i].amount;
      pool := Without(pool, i);
      round := round + 1;
    }
    DrawnDone(pool, draw, round, count);
  }

  lemma DrawnStep(s: seq<Ticket>, draw: nat -> nat, round: nat, count: nat)
    requires round < count && s != [] && Weight(s) > 0
    ensures var i := Pick(s, draw(round) % Weight(s));
            Drawn(s, draw, round, count) == [s[i].id] + Drawn(Without(s, i), draw, round + 1, count)
  {
    hide Weight, Pick;
  }

  lemma DrawnDone(s: seq<Ticket>, draw: nat -> nat, round: nat, count: nat)
    requires round >= count || s == [] || Weight(s) == 0
    ensures Drawn(s, draw, round, count) == []
  {
  }

  // ------------------------------------------------------------------------ rewards

  function RewardPool(pot: nat, bps: nat): nat { pot * (if bps <= 10000 then bps else 10000) / 10000 }

  function PerVote(pot: nat, bps: nat, votes: nat): nat { if votes == 0 then 0 else RewardPool(pot, bps) / votes }

  /** The stakers together never get more than the pot. */
  lemma RewardsFit(pot: nat, bps: nat, votes: nat)
    ensures PerVote(pot, bps, votes) * votes <= RewardPool(pot, bps) <= pot
  {
    var b := if bps <= 10000 then bps else 10000;
    assert pot * b <= pot * 10000;
    if votes > 0 {
      var q := RewardPool(pot, bps) / votes;
      assert q * votes <= RewardPool(pot, bps);
    }
  }
}
