/** Which moves a rebalance makes, one by one (src/shardkv1/shardcfg/shardcfg.go:122-154): shards
    without a group are placed in order of their numbers, each on the group that is lightest then;
    after that the lowest-numbered shard of the heaviest group goes to the lightest until the two
    are at most one apart.  A smaller group ID wins a tie.
 */
module ShardGreedy {
  import opened ShardBalance

  // The first shard whose group is gone goes to the lightest group.
  ghost predicate Places(s: seq<int>, t: seq<int>, groups: set<int>) {
    exists i, to ::
      && 0 <= i < |s| && s[i] !in groups && (forall j :: 0 <= j < i ==> s[j] in groups)
      && Lightest(s, groups, to) && t == s[i := to]
  }

  // No shard is without a group, and the first one of the heaviest group goes to the lightest.
  ghost predicate Moves(s: seq<int>, t: seq<int>, groups: set<int>) {
    && AllIn(s, groups)
    && exists i, to ::
         && 0 <= i < |s| && Heaviest(s, groups, s[i]) && (forall j :: 0 <= j < i ==> s[j] != s[i])
         && Lightest(s, groups, to) && Load(s, s[i]) >= Load(s, to) + 2 && t == s[i := to]
  }

  ghost predicate Settled(s: seq<int>, groups: set<int>) {
    && AllIn(s, groups)
    && forall g, h :: g in groups && h in groups ==> Load(s, g) <= Load(s, h) + 1
  }

  // The assignments a rebalance goes through.
  ghost predicate Greedy(trace: seq<seq<int>>, groups: set<int>) {
    && |trace| >= 1
    && (forall k {:trigger trace[k]} :: 0 <= k < |trace| - 1 ==>
          Places(trace[k], trace[k + 1], groups) || Moves(trace[k], trace[k + 1], groups))
    && Settled(trace[|trace| - 1], groups)
  }

  lemma GreedyCons(s: seq<int>, trace: seq<seq<int>>, groups: set<int>)
    requires Greedy(trace, groups) && (Places(s, trace[0], groups) || Moves(s, trace[0], groups))
    ensures Greedy([s] + trace, groups)
  {
    var all := [s] + trace;
    forall k | 0 <= k < |all| - 1
      ensures Places(all[k], all[k + 1], groups) || Moves(all[k], all[k + 1], groups)
    {
      if k > 0 {
        assert all[k] == trace[k - 1] && all[k + 1] == trace[k];
      }
    }
  }

  lemma {:induction false} LevelIsGreedy(s: seq<int>, groups: set<int>) returns (trace: seq<seq<int>>)
    requires groups != {} && AllIn(s, groups)
    ensures Greedy(trace, groups) && trace[0] == s && trace[|trace| - 1] == Level(s, groups)
    decreases Total(Squares(s), groups)
  {
    if Uneven(s, groups) {
      ShiftLowersSquares(s, groups);
      var next := Shift(s, groups);
      trace := LevelIsGreedy(next, groups);
      var i := NextShard(s, groups);
      assert forall j :: 0 <= j < i ==> s[j] in s[..i];
      assert Moves(s, next, groups);
      GreedyCons(s, trace, groups);
      trace := [s] + trace;
    } else {
      trace := [s];
      assert Settled(s, groups);
    }
  }

  lemma {:induction false} FillIsGreedy(s: seq<int>, groups: set<int>, i: nat) returns (trace: seq<seq<int>>)
    requires groups != {} && i <= |s| && forall j :: 0 <= j < i ==> s[j] in groups
    ensures Greedy(trace, groups) && trace[0] == s && trace[|trace| - 1] == Level(Fill(s, groups, i), groups)
    decreases |s| - i
  {
    if i == |s| {
      trace := LevelIsGreedy(s, groups);
    } else if s[i] in groups {
      trace := FillIsGreedy(s, groups, i + 1);
    } else {
      var next := s[i := LightestOf(s, groups)];
      trace := FillIsGreedy(next, groups, i + 1);
      assert Places(s, next, groups);
      GreedyCons(s, trace, groups);
      trace := [s] + trace;
    }
  }

  lemma RebalanceIsGreedy(s: seq<int>, groups: set<int>) returns (trace: seq<seq<int>>)
    requires groups != {}
    ensures Greedy(trace, groups) && trace[0] == s && trace[|trace| - 1] == Rebalanced(s, groups)
  {
    trace := FillIsGreedy(s, groups, 0);
  }

  // Each assignment has at most one next one, so the result follows from the first alone.
  lemma OneNext(s: seq<int>, t: seq<int>, u: seq<int>, groups: set<int>)
    requires Places(s, t, groups) || Moves(s, t, groups)
    requires Places(s, u, groups) || Moves(s, u, groups)
    ensures t == u
  {
    if Places(s, t, groups) {
      var i, to :| && 0 <= i < |s| && s[i] !in groups && (forall j :: 0 <= j < i ==> s[j] in groups)
                   && Lightest(s, groups, to) && t == s[i := to];
      var k, there :| && 0 <= k < |s| && s[k] !in groups && (forall j :: 0 <= j < k ==> s[j] in groups)
                      && Lightest(s, groups, there) && u == s[k := there];
      assert i == k;
    } else {
      var i, to :| && 0 <= i < |s| && Heaviest(s, groups, s[i]) && (forall j :: 0 <= j < i ==> s[j] != s[i])
                   && Lightest(s, groups, to) && Load(s, s[i]) >= Load(s, to) + 2 && t == s[i := to];
      var k, there :| && 0 <= k < |s| && Heaviest(s, groups, s[k]) && (forall j :: 0 <= j < k ==> s[j] != s[k])
                      && Lightest(s, groups, there) && Load(s, s[k]) >= Load(s, there) + 2 && u == s[k := there];
      assert s[i] == s[k] && i == k;
    }
  }

  lemma NoneAfterSettled(s: seq<int>, t: seq<int>, groups: set<int>)
    requires Settled(s, groups)
    ensures !Places(s, t, groups) && !Moves(s, t, groups)
  {
  }

  // Any greedy course of moves from s ends in the assignment that the rebalance reaches.
  lemma {:induction false} GreedyEndsSame(a: seq<seq<int>>, b: seq<seq<int>>, groups: set<int>)
    requires Greedy(a, groups) && Greedy(b, groups) && a[0] == b[0]
    ensures a[|a| - 1] == b[|b| - 1]
    decreases |a|
  {
    if |a| == 1 {
      NoneAfterSettled(a[0], if |b| > 1 then b[1] else b[0], groups);
    } else if |b| == 1 {
      NoneAfterSettled(b[0], a[1], groups);
    } else {
      OneNext(a[0], a[1], b[1], groups);
      GreedyTail(a, groups);
      GreedyTail(b, groups);
      GreedyEndsSame(a[1..], b[1..], groups);
    }
  }

  // So the rebalanced assignment is the one any greedy course of moves ends in.
  lemma OnlyGreedyResult(trace: seq<seq<int>>, groups: set<int>)
    requires groups != {} && Greedy(trace, groups)
    ensures trace[|trace| - 1] == Rebalanced(trace[0], groups)
  {
    var other := RebalanceIsGreedy(trace[0], groups);
    GreedyEndsSame(trace, other, groups);
  }

  lemma GreedyTail(a: seq<seq<int>>, groups: set<int>)
    requires Greedy(a, groups) && |a| > 1
    ensures Greedy(a[1..], groups)
  {
    var tail := a[1..];
    forall k | 0 <= k < |tail| - 1
      ensures Places(tail[k], tail[k + 1], groups) || Moves(tail[k], tail[k + 1], groups)
    {
      assert tail[k] == a[k + 1] && tail[k + 1] == a[k + 2];
    }
  }
}
