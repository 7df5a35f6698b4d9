/** The commit rule: which index the middle of the sorted match indices stands for. */
module RaftQuorum {
  import opened RaftTypes
  import opened RaftCluster

  ghost predicate Ascending(xs: seq<int>) {
    forall i, j :: 0 <= i <= j < |xs| ==> xs[i] <= xs[j]
  }

  function CountAtLeast(xs: seq<int>, v: int): nat {
    if xs == [] then 0 else (if xs[0] >= v then 1 else 0) + CountAtLeast(xs[1..], v)
  }

  // The peers whose index has reached v.
  ghost function AtLeast(xs: seq<int>, v: int): set<nat> {
    set j: nat | j < |xs| && xs[j] >= v
  }

  lemma {:induction false} InsertPermutes(x: int, sorted: seq<int>)
    ensures multiset(Insert(x, sorted)) == multiset(sorted) + multiset{x}
  {
    if sorted != [] && x > sorted[0] {
      InsertPermutes(x, sorted[1..]);
      assert sorted == [sorted[0]] + sorted[1..];
    }
  }

  lemma {:induction false} InsertAbove(low: int, x: int, sorted: seq<int>)
    requires low <= x && forall i :: 0 <= i < |sorted| ==> low <= sorted[i]
    ensures forall i :: 0 <= i < |Insert(x, sorted)| ==> low <= Insert(x, sorted)[i]
  {
    if sorted != [] && x > sorted[0] {
      InsertAbove(low, x, sorted[1..]);
    }
  }

  lemma AscendingCons(x: int, xs: seq<int>)
    requires Ascending(xs) && forall i :: 0 <= i < |xs| ==> x <= xs[i]
    ensures Ascending([x] + xs)
  {
  }

  lemma {:induction false} InsertSorts(x: int, sorted: seq<int>)
    requires Ascending(sorted)
    ensures Ascending(Insert(x, sorted))
  {
    if sorted == [] || x <= sorted[0] {
      AscendingCons(x, sorted);
    } else {
      InsertSorts(x, sorted[1..]);
      InsertAbove(sorted[0], x, sorted[1..]);
      AscendingCons(sorted[0], Insert(x, sorted[1..]));
    }
  }

  lemma {:induction false} InsertCounts(x: int, sorted: seq<int>, v: int)
    ensures CountAtLeast(Insert(x, sorted), v) == CountAtLeast(sorted, v) + (if x >= v then 1 else 0)
  {
    if sorted == [] || x <= sorted[0] {
      assert ([x] + sorted)[1..] == sorted;
    } else {
      InsertCounts(x, sorted[1..], v);
      assert Insert(x, sorted)[1..] == Insert(x, sorted[1..]);
    }
  }

  // Sort leaves a sorted permutation.
  lemma {:induction false} SortSorts(xs: seq<int>)
    ensures Ascending(Sort(xs)) && multiset(Sort(xs)) == multiset(xs)
  {
    if xs != [] {
      SortSorts(xs[1..]);
      InsertSorts(xs[0], Sort(xs[1..]));
      InsertPermutes(xs[0], Sort(xs[1..]));
      assert xs == [xs[0]] + xs[1..];
    }
  }

  lemma {:induction false} SortCounts(xs: seq<int>, v: int)
    ensures CountAtLeast(Sort(xs), v) == CountAtLeast(xs, v)
  {
    if xs != [] {
      SortCounts(xs[1..], v);
      InsertCounts(xs[0], Sort(xs[1..]), v);
    }
  }

  ghost predicate ReachedFrom(xs: seq<int>, v: int, base: nat, j: nat) {
    base <= j < base + |xs| && xs[j - base] >= v
  }

  ghost function AtLeastFrom(xs: seq<int>, v: int, base: nat): set<nat> {
    set j: nat | j < base + |xs| && ReachedFrom(xs, v, base, j)
  }

  lemma {:induction false} CountIsSize(xs: seq<int>, v: int, base: nat)
    ensures CountAtLeast(xs, v) == |AtLeastFrom(xs, v, base)|
  {
    if xs == [] {
      assert AtLeastFrom(xs, v, base) == {};
    } else {
      CountIsSize(xs[1..], v, base + 1);
      assert AtLeastFrom(xs, v, base) == AtLeastFrom(xs[1..], v, base + 1) + (if xs[0] >= v then {base} else {});
    }
  }

  // In a sorted list the elements from position p on are exactly those that count for its value.
  lemma {:induction false} SortedCount(xs: seq<int>, p: nat, v: int)
    requires Ascending(xs) && p < |xs|
    ensures v <= xs[p] ==> CountAtLeast(xs, v) >= |xs| - p
    ensures v > xs[p] ==> CountAtLeast(xs, v) < |xs| - p
  {
    CountBound(xs[1..], v);
    if p > 0 {
      SortedCount(xs[1..], p - 1, v);
    } else if v <= xs[0] {
      AllCount(xs, v);
    }
  }

  lemma {:induction false} CountBound(xs: seq<int>, v: int)
    ensures CountAtLeast(xs, v) <= |xs|
  {
    if xs != [] {
      CountBound(xs[1..], v);
    }
  }

  lemma {:induction false} AllCount(xs: seq<int>, v: int)
    requires forall i :: 0 <= i < |xs| ==> xs[i] >= v
    ensures CountAtLeast(xs, v) == |xs|
  {
    if xs != [] {
      AllCount(xs[1..], v);
    }
  }

  // The middle element is the greatest index that n - n/2 of the n peers have reached, for even
  // and odd n alike.
  lemma MedianIsQuorumIndex(xs: seq<int>, v: int)
    requires |xs| >= 1
    ensures v <= Median(xs) <==> |AtLeast(xs, v)| >= |xs| - |xs| / 2
  {
    SortSorts(xs);
    SortCounts(xs, v);
    SortedCount(Sort(xs), |xs| / 2, v);
    CountIsSize(xs, v, 0);
    assert AtLeastFrom(xs, v, 0) == AtLeast(xs, v);
  }

  // Those peers meet every set of voters that can elect a leader.
  lemma CommitMeetsVotes(xs: seq<int>, v: int, votes: set<nat>) returns (peer: nat)
    requires |xs| >= 1 && v <= Median(xs)
    requires (forall x :: x in votes ==> x < |xs|) && |votes| >= |xs| / 2 + 1
    ensures peer in votes && peer < |xs| && xs[peer] >= v
  {
    MedianIsQuorumIndex(xs, v);
    peer := Overlap(AtLeast(xs, v), votes, |xs|);
  }
}
