/** HTLC ids: when the lists of an accepted update are what their ids say they are. */
module ChannelIds {
  import opened Basics
  import opened Seqs
  import opened Sums
  import opened Symbols
  import opened Channel
  import opened ChannelNode
  import opened ChannelClassify

  function Ids(hs: seq<Htlc>): seq<nat> { seq(|hs|, i requires 0 <= i < |hs| => hs[i].id) }

  function Amounts(m: map<nat, Htlc>): map<nat, nat> { map id | id in m :: m[id].amount }

  predicate Positive(hs: seq<Htlc>) { forall h :: h in hs ==> h.amount > 0 }

  lemma {:induction false} SumSnoc(hs: seq<Htlc>)
    requires hs != []
    ensures HtlcSum(hs) == HtlcSum(hs[..|hs| - 1]) + hs[|hs| - 1].amount
  {
    if |hs| > 1 {
      SumSnoc(hs[1..]);
      assert hs[1..][..|hs| - 2] == hs[..|hs| - 1][1..];
    }
  }

  lemma {:induction false} KeysAreIds(hs: seq<Htlc>)
    ensures forall id :: id in ById(hs) <==> exists i :: 0 <= i < |hs| && hs[i].id == id
  {
    if hs != [] {
      var n := |hs| - 1;
      KeysAreIds(hs[..n]);
      forall id ensures id in ById(hs) <==> exists i :: 0 <= i < |hs| && hs[i].id == id {
        if id in ById(hs[..n]) {
          var i :| 0 <= i < n && hs[..n][i].id == id;
          assert hs[i].id == id;
        }
        if i :| 0 <= i < |hs| && hs[i].id == id && i < n { assert hs[..n][i].id == id; }
      }
    }
  }

  lemma DistinctLast(hs: seq<Htlc>)
    requires hs != []
    ensures Distinct(Ids(hs)) <==> Distinct(Ids(hs[..|hs| - 1])) && hs[|hs| - 1].id !in ById(hs[..|hs| - 1])
  {
    var n := |hs| - 1;
    var front, ids := hs[..n], Ids(hs);
    KeysAreIds(front);
    assert forall i :: 0 <= i < n ==> Ids(front)[i] == ids[i] && front[i].id == ids[i];
    if hs[n].id in ById(front) {
      var i :| 0 <= i < n && front[i].id == hs[n].id;
      assert ids[i] == ids[n];
    } else if Distinct(Ids(front)) {
      forall i, j | 0 <= i < j < |ids| ensures ids[i] != ids[j] {
        if j == n { assert front[i].id == ids[i]; }
      }
    }
  }

  /** Looked up by id, a list is worth all it says if and only if no id repeats. */
  lemma {:induction false} WorthById(hs: seq<Htlc>)
    requires Positive(hs)
    ensures Sum(Amounts(ById(hs))) <= HtlcSum(hs)
    ensures Sum(Amounts(ById(hs))) == HtlcSum(hs) <==> Distinct(Ids(hs))
  {
    hide Sum, Distinct;
    if hs == [] {
      NothingWorth();
    } else {
      var front, last := hs[..|hs| - 1], hs[|hs| - 1];
      WorthById(front);
      SumSnoc(hs);
      DistinctLast(hs);
      assert Amounts(ById(hs)) == Amounts(ById(front))[last.id := last.amount];
      SumUpdate(Amounts(ById(front)), last.id, last.amount);
      SumAtLeast(Amounts(ById(front)), last.id);
      PositiveById(front, last.id);
    }
  }

  lemma PositiveById(hs: seq<Htlc>, id: nat)
    requires Positive(hs)
    ensures id in ById(hs) ==> ById(hs)[id].amount > 0
  {
    ByIdKeys(hs);
  }

  lemma NothingWorth()
    ensures Sum(Amounts(ById([]))) == HtlcSum([]) && Distinct(Ids([]))
  {
    assert Amounts(ById([])) == map[];
  }

  /** What an accepted update does to the HTLCs by id. */
  lemma ByIdChange(c: Chan, next: State, preimage: Preimage, height: nat)
    requires !Classify(c, next, preimage, height).Reject?
    ensures var (before, after) := (Amounts(ById(c.cur.htlcs)), Amounts(ById(next.htlcs)));
            match Classify(c, next, preimage, height)
            case Pay => after == before
            case AddHtlc(h) => h.id !in before && after == before[h.id := h.amount] &&
                Bal(c.cur, true) + Bal(c.cur, false) == Bal(next, true) + Bal(next, false) + h.amount
            case SettleHtlc(h) => h.id !in after && before == after[h.id := h.amount] &&
                Bal(c.cur, true) + Bal(c.cur, false) + h.amount == Bal(next, true) + Bal(next, false)
            case FailHtlc(h) => h.id !in after && before == after[h.id := h.amount] &&
                Bal(c.cur, true) + Bal(c.cur, false) + h.amount == Bal(next, true) + Bal(next, false)
            case Reject => true
  {
    hide ById, Sole, HashPreimage;
    var before, after := ById(c.cur.htlcs), ById(next.htlcs);
    var added, removed := Missing(next.htlcs, before), Missing(c.cur.htlcs, after);
    ByIdKeys(c.cur.htlcs);
    ByIdKeys(next.htlcs);
    if |added| == 1 { OneMore(before, after, added, removed, next.htlcs); }
    else if |removed| == 1 { OneMore(after, before, removed, added, c.cur.htlcs); }
    else { NothingLost(before, after, removed); NothingLost(after, before, added); }
  }

  lemma NothingLost(m: map<nat, Htlc>, n: map<nat, Htlc>, removed: map<nat, Htlc>)
    requires |removed| == 0 && removed == (map id | id in m && id !in n :: m[id])
    ensures m.Keys <= n.Keys
  {
    assert removed == map[];
    forall id | id in m ensures id in n { assert id !in removed; }
  }

  /** One entry more, and nothing less. */
  lemma OneMore(m: map<nat, Htlc>, n: map<nat, Htlc>, added: map<nat, Htlc>, removed: map<nat, Htlc>, hs: seq<Htlc>)
    requires |removed| == 0 && |added| == 1 && Sole(hs, added).Some?
    requires added == (map id | id in n && id !in m :: n[id]) && removed == (map id | id in m && id !in n :: m[id])
    requires forall id :: id in n ==> n[id].id == id
    requires forall id :: id in m && id in n ==> m[id].amount == n[id].amount
    ensures var h := Sole(hs, added).value; h.id !in m && Amounts(n) == Amounts(m)[h.id := h.amount]
  {
    var h := Sole(hs, added).value;
    NothingLost(m, n, removed);
    SoleIs(hs, added);
    var id :| id in added && added[id] == h;
    forall j | j in n ensures j == h.id || j in m { if j !in m { assert j in added; OnlyOne(added, j, id); } }
    assert n.Keys == m.Keys + {h.id} && Amounts(n)[h.id] == h.amount;
    assert Amounts(n) == Amounts(m)[h.id := h.amount];
  }

  /** Ids stay distinct through every accepted update that adds or removes an HTLC, and
      through a payment if and only if it leaves the total of the HTLCs alone. */
  lemma IdsStayDistinct(c: Chan, next: State, preimage: Preimage, height: nat)
    requires !Classify(c, next, preimage, height).Reject? && ValidateNext(c, next).Ok?
    requires Distinct(Ids(c.cur.htlcs)) && Positive(c.cur.htlcs)
    requires c.cur.balA + c.cur.balB + HtlcSum(c.cur.htlcs) == c.cfg.info.capacity
    ensures Distinct(Ids(next.htlcs)) <==>
            (Classify(c, next, preimage, height).Pay? ==> next.balA + next.balB == c.cur.balA + c.cur.balB)
  {
    hide Sum, Distinct, Classify, HtlcSum, ById;
    ValidEntries(c, next);
    ByIdChange(c, next, preimage, height);
    WorthById(c.cur.htlcs);
    WorthById(next.htlcs);
    match Classify(c, next, preimage, height)
    case Pay =>
    case AddHtlc(h) => SumUpdate(Amounts(ById(c.cur.htlcs)), h.id, h.amount);
    case SettleHtlc(h) => SumUpdate(Amounts(ById(next.htlcs)), h.id, h.amount);
    case FailHtlc(h) => SumUpdate(Amounts(ById(next.htlcs)), h.id, h.amount);
  }

  lemma ValidEntries(c: Chan, next: State)
    requires ValidateNext(c, next).Ok?
    ensures Positive(next.htlcs) && next.balA + next.balB + HtlcSum(next.htlcs) == c.cfg.info.capacity
  {
    hide HtlcSum;
    forall h | h in next.htlcs ensures h.amount > 0 {
      var i :| 0 <= i < |next.htlcs| && next.htlcs[i] == h;
      assert !BadHtlcEntry(next.htlcs[i]);
    }
  }

  /** Where no id repeats, the entries by id are the entries of the list. */
  lemma {:induction false} ListedById(hs: seq<Htlc>)
    requires Distinct(Ids(hs))
    ensures forall h :: h in hs ==> h.id in ById(hs) && ById(hs)[h.id] == h
  {
    hide Distinct;
    if hs != [] {
      var n := |hs| - 1;
      DistinctLast(hs);
      ListedById(hs[..n]);
      forall h | h in hs ensures h.id in ById(hs) && ById(hs)[h.id] == h {
        if h in hs[..n] { assert h.id != hs[n].id; } else { assert hs == hs[..n] + [hs[n]]; }
      }
    }
  }

  /** So on lists without repeated ids an accepted update accounts for every entry: one that
      was there stays on its terms, or is ours and refunded or claimed; a new one is the
      peer's. */
  lemma EveryEntry(c: Chan, next: State, preimage: Preimage, height: nat)
    requires !Classify(c, next, preimage, height).Reject?
    requires Distinct(Ids(c.cur.htlcs)) && Distinct(Ids(next.htlcs))
    ensures forall h :: h in c.cur.htlcs && (forall g :: g in next.htlcs ==> g.id != h.id || !SameTerms(h, g)) ==>
            OursClosed(c, next, preimage, h)
    ensures forall h :: h in next.htlcs && (forall g :: g in c.cur.htlcs ==> g.id != h.id) ==>
            PaidByPeer(c, next, height, h)
  {
    hide Classify, Distinct, ById, SameTerms, PaidByPeer, OursClosed;
    PeerCannotTake(c, next, preimage, height);
    ListedById(c.cur.htlcs);
    ListedById(next.htlcs);
    ByIdKeys(c.cur.htlcs);
    ByIdKeys(next.htlcs);
  }

  /** The peer can pay for an entry that an HTLC with the same id hides: the update is a
      valid payment, and the HTLC of that id still looks untouched. */
  lemma HiddenHtlc(c: Chan, h: Htlc, preimage: Preimage, height: nat)
    requires c.cur.htlcs == [h] && h.amount > 0 && Bal(c.cur, !c.cfg.isA) > 0 && h.paymentHash.Size() == 128
    requires c.pending.None? && !Awaiting(c)
    requires c.cur.balA + c.cur.balB + HtlcSum(c.cur.htlcs) == c.cfg.info.capacity
    requires c.cur.balA >= c.cfg.info.fee + if c.cfg.isA then 0 else 1
    ensures var paid := if c.cfg.isA then c.cur.(balB := c.cur.balB - 1) else c.cur.(balA := c.cur.balA - 1);
            var next := paid.(n := c.cur.n + 1, htlcs := [h.(amount := 1), h]);
            && ValidateNext(c, next).Ok? && Classify(c, next, preimage, height).Pay?
            && Bal(next, c.cfg.isA) == Bal(c.cur, c.cfg.isA) && ById(next.htlcs) == ById(c.cur.htlcs)
  {
    hide Sole;
    var hs := [h.(amount := 1), h];
    assert hs[..1] == [hs[0]] && [hs[0]][..0] == [] && [h][..0] == [];
    assert ById([]) == map[] && ById([hs[0]]) == map[h.id := hs[0]] && ById([h]) == map[h.id := h];
    assert ById(hs) == map[h.id := h];
    assert hs[1..] == [h] && [h][1..] == [] && HtlcSum([h]) == h.amount && HtlcSum(hs) == 1 + h.amount;
    assert !BadHtlcEntry(hs[0]) && !BadHtlcEntry(hs[1]);
    assert Missing(hs, ById([h])) == map[] == Missing([h], ById(hs));
  }
}
