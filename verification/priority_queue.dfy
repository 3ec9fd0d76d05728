/**
 The ordering of the waiting-tests queue: the priority tier's rank first
 (emergency 1, vip 2, senior 3, any other label 4), then the patient's token
 number, both ascending. The query states no further key, so items whose
 keys are equal may come out in either order; the sort below is only
 promised to return a permutation of its input that is ordered by the key.
 */
module PriorityQueue {
  import opened Records

  /** The CASE expression of the waiting-tests query, on the stored text. */
  function RankOfLabel(level: string): nat {
    if level == "emergency" then 1
    else if level == "vip" then 2
    else if level == "senior" then 3
    else 4
  }

  /** The tier of a priority: the CASE applied to the text stored for it. */
  function Rank(p: Priority): (r: nat)
    ensures 1 <= r <= 4
    ensures r == 1 <==> PriorityLabel(p) == "emergency"
    ensures r == 2 <==> PriorityLabel(p) == "vip"
    ensures r == 3 <==> PriorityLabel(p) == "senior"
  {
    RankOfLabel(PriorityLabel(p))
  }

  /** Emergency is served before vip, vip before senior, senior before
      normal. A label stored as other text ranks by that text: the three
      named labels keep their tiers, and everything else shares normal's. */
  lemma RankOrder(text: string)
    ensures Rank(Emergency) < Rank(Vip) < Rank(Senior) < Rank(Normal)
    ensures text == "emergency" ==> Rank(Other(text)) == Rank(Emergency)
    ensures text == "vip" ==> Rank(Other(text)) == Rank(Vip)
    ensures text == "senior" ==> Rank(Other(text)) == Rank(Senior)
    ensures text != "emergency" && text != "vip" && text != "senior" ==> Rank(Other(text)) == Rank(Normal)
  {
  }

  /** An item waiting in a queue, with the two columns it is ordered by. */
  datatype Queued<T> = Queued(item: T, priority: Priority, tokenNumber: int)

  /** `a` may be served no later than `b`. */
  predicate Before<T>(a: Queued<T>, b: Queued<T>) {
    || Rank(a.priority) < Rank(b.priority)
    || (Rank(a.priority) == Rank(b.priority) && a.tokenNumber <= b.tokenNumber)
  }

  /** `Before` is a total preorder: any two items are comparable and it is
      transitive, so a sequence ordered by it exists for every input. */
  lemma BeforeIsTotalPreorder<T>(a: Queued<T>, b: Queued<T>, c: Queued<T>)
    ensures Before(a, b) || Before(b, a)
    ensures Before(a, b) && Before(b, c) ==> Before(a, c)
  {
  }

  predicate Ordered<T>(q: seq<Queued<T>>) {
    forall i, j :: 0 <= i < j < |q| ==> Before(q[i], q[j])
  }

  /** In an ordered queue the rank never decreases, and among equal ranks the
      token number never decreases: the tier dominates arrival order. */
  lemma OrderedMeansRankThenToken<T>(q: seq<Queued<T>>, i: nat, j: nat)
    requires Ordered(q)
    requires i < j < |q|
    ensures Rank(q[i].priority) <= Rank(q[j].priority)
    ensures Rank(q[i].priority) == Rank(q[j].priority) ==> q[i].tokenNumber <= q[j].tokenNumber
  {
    assert Before(q[i], q[j]);
  }

  /** Every item of `q` may be served after `h`. */
  predicate ServedAfter<T>(h: Queued<T>, q: seq<Queued<T>>) {
    forall j :: 0 <= j < |q| ==> Before(h, q[j])
  }

  lemma PrependOrdered<T>(h: Queued<T>, q: seq<Queued<T>>)
    requires Ordered(q)
    requires ServedAfter(h, q)
    ensures Ordered([h] + q)
  {
  }

  /** A bound on every item survives when the items are rearranged. */
  lemma ServedAfterPermutation<T>(h: Queued<T>, q: seq<Queued<T>>, r: seq<Queued<T>>)
    requires ServedAfter(h, q)
    requires multiset(r) == multiset(q)
    ensures ServedAfter(h, r)
  {
    forall j | 0 <= j < |r|
      ensures Before(h, r[j])
    {
      assert r[j] in multiset(q);
    }
  }

  ghost predicate NoDuplicates<T>(q: seq<T>) {
    forall i, j :: 0 <= i < j < |q| ==> q[i] != q[j]
  }

  lemma PrependNoDuplicates<T>(h: T, q: seq<T>)
    requires NoDuplicates(q)
    requires h !in q
    ensures NoDuplicates([h] + q)
  {
  }

  /** Place `x` in an ordered queue ahead of the first item it comes before. */
  function Insert<T>(x: Queued<T>, q: seq<Queued<T>>): (r: seq<Queued<T>>)
    requires Ordered(q)
    ensures Ordered(r)
    ensures multiset(r) == multiset(q) + multiset{x}
  {
    if |q| == 0 then [x]
    else if Before(x, q[0]) then
      assert ServedAfter(x, q) by {
        assert forall j :: 1 <= j < |q| ==> Before(q[0], q[j]);
      }
      PrependOrdered(x, q);
      [x] + q
    else
      assert q == [q[0]] + q[1..];
      var rest := Insert(x, q[1..]);
      assert ServedAfter(q[0], q[1..] + [x]);
      ServedAfterPermutation(q[0], q[1..] + [x], rest);
      PrependOrdered(q[0], rest);
      [q[0]] + rest
  }

  /** Insertion sort by (rank, token number). */
  function Sort<T>(q: seq<Queued<T>>): (r: seq<Queued<T>>)
    ensures Ordered(r)
    ensures multiset(r) == multiset(q)
  {
    if |q| == 0 then []
    else
      assert q == [q[0]] + q[1..];
      Insert(q[0], Sort(q[1..]))
  }

  /** Inserting an item not yet queued keeps every item distinct. */
  lemma {:induction false} InsertKeepsDistinct<T>(x: Queued<T>, q: seq<Queued<T>>)
    requires Ordered(q)
    requires NoDuplicates(q)
    requires x !in q
    ensures NoDuplicates(Insert(x, q))
  {
    if |q| == 0 {
    } else if Before(x, q[0]) {
      PrependNoDuplicates(x, q);
    } else {
      assert q == [q[0]] + q[1..];
      var rest := Insert(x, q[1..]);
      InsertKeepsDistinct(x, q[1..]);
      assert q[0] !in multiset(q[1..]);
      assert q[0] !in multiset(rest);
      PrependNoDuplicates(q[0], rest);
    }
  }

  /** Sorting neither drops nor repeats an item: a queue of distinct items
      stays distinct. */
  lemma {:induction false} SortKeepsDistinct<T>(q: seq<Queued<T>>)
    requires NoDuplicates(q)
    ensures NoDuplicates(Sort(q))
  {
    if |q| > 0 {
      assert q == [q[0]] + q[1..];
      var rest := Sort(q[1..]);
      SortKeepsDistinct(q[1..]);
      assert q[0] !in multiset(q[1..]);
      assert q[0] !in multiset(rest);
      InsertKeepsDistinct(q[0], rest);
    }
  }

  lemma SortNormalVip()
    ensures Sort([Queued(1, Normal, 1), Queued(2, Vip, 2)]) == [Queued(2, Vip, 2), Queued(1, Normal, 1)]
  {
    var n := Queued(1, Normal, 1);
    var v := Queued(2, Vip, 2);
    assert [n, v][1..] == [v] && [v][1..] == [];
    assert Sort([v]) == Insert(v, []) == [v];
    assert !Before(n, v);
    assert Insert(n, [v]) == [v] + Insert(n, []) == [v, n];
  }

  /** An emergency patient holding token 3, a normal one holding token 1
      and a vip holding token 2: the tier wins over the
      token, so the order is emergency, vip, normal. */
  lemma TierDominatesToken()
    ensures var e := Queued(0, Emergency, 3);
            var n := Queued(1, Normal, 1);
            var v := Queued(2, Vip, 2);
            Sort([e, n, v]) == [e, v, n]
  {
    var e := Queued(0, Emergency, 3);
    var n := Queued(1, Normal, 1);
    var v := Queued(2, Vip, 2);
    assert [e, n, v][1..] == [n, v];
    SortNormalVip();
    assert Before(e, v);
    assert Insert(e, [v, n]) == [e, v, n];
  }
}
