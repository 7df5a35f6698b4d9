/** How shards are spread over replica groups (src/shardkv1/shardcfg/shardcfg.go): the
    greedy allocator as a function of the assignment and the set of group IDs, and what it
    guarantees: it ends, it balances, and it moves as little as any balanced result can.
 */
module ShardBalance {
  /// ## Loads

  // How many shards group g serves.
  function Load(s: seq<int>, g: int): (n: nat)
    ensures n <= |s|
  {
    if s == [] then 0
    else Load(s[..|s| - 1], g) + if s[|s| - 1] == g then 1 else 0
  }

  lemma LoadAppend(s: seq<int>, x: int, g: int)
    ensures Load(s + [x], g) == Load(s, g) + if x == g then 1 else 0
  {
    assert (s + [x])[..|s|] == s;
  }

  lemma {:induction false} LoadUpdate(s: seq<int>, i: nat, x: int, g: int)
    requires i < |s|
    ensures Load(s[i := x], g) == Load(s, g) - (if s[i] == g then 1 else 0) + if x == g then 1 else 0
  {
    var n := |s| - 1;
    if i == n {
      assert s[i := x][..n] == s[..n];
    } else {
      assert s[i := x][..n] == s[..n][i := x];
      LoadUpdate(s[..n], i, x, g);
    }
  }

  lemma {:induction false} ServesSome(s: seq<int>, g: int)
    ensures Load(s, g) > 0 <==> g in s
  {
    if s != [] {
      ServesSome(s[..|s| - 1], g);
      assert s == s[..|s| - 1] + [s[|s| - 1]];
    }
  }

  ghost function Some(groups: set<int>): (g: int)
    requires groups != {}
    ensures g in groups
  {
    NotEmpty(groups);
    var g :| g in groups;
    g
  }

  lemma NotEmpty(groups: set<int>)
    ensures groups == {} || exists g :: g in groups
  {
    if forall g :: g !in groups {
      assert groups == {};
    }
  }

  // The groups `analyze` names: strict comparisons over ascending group IDs, so the
  // smallest ID wins a tie on both sides.
  ghost predicate Lightest(s: seq<int>, groups: set<int>, g: int) {
    && g in groups
    && forall h :: h in groups ==> Load(s, g) < Load(s, h) || (Load(s, g) == Load(s, h) && g <= h)
  }

  ghost predicate Heaviest(s: seq<int>, groups: set<int>, g: int) {
    && g in groups
    && forall h :: h in groups ==> Load(s, h) < Load(s, g) || (Load(s, g) == Load(s, h) && g <= h)
  }

  lemma {:induction false} ExtremesExist(s: seq<int>, groups: set<int>)
    requires groups != {}
    ensures exists g :: Lightest(s, groups, g)
    ensures exists g :: Heaviest(s, groups, g)
    decreases |groups|
  {
    var x := Some(groups);
    if groups == {x} {
      assert Lightest(s, groups, x) && Heaviest(s, groups, x);
    } else {
      var rest := groups - {x};
      assert groups == rest + {x};
      ExtremesExist(s, rest);
      var l :| Lightest(s, rest, l);
      var m :| Heaviest(s, rest, m);
      assert forall h :: h in groups ==> h == x || h in rest;
      assert Lightest(s, groups, l) || Lightest(s, groups, x);
      assert Heaviest(s, groups, m) || Heaviest(s, groups, x);
    }
  }

  ghost function LightestOf(s: seq<int>, groups: set<int>): (g: int)
    requires groups != {}
    ensures Lightest(s, groups, g)
  {
    ExtremesExist(s, groups);
    var g :| Lightest(s, groups, g);
    g
  }

  ghost function HeaviestOf(s: seq<int>, groups: set<int>): (g: int)
    requires groups != {}
    ensures Heaviest(s, groups, g)
  {
    ExtremesExist(s, groups);
    var g :| Heaviest(s, groups, g);
    g
  }

  /// ## Sums over groups

  ghost function Total(f: int -> int, groups: set<int>): int
    decreases |groups|
  {
    if groups == {} then 0
    else
      var g := Some(groups);
      f(g) + Total(f, groups - {g})
  }

  lemma {:induction false} TotalSplits(f: int -> int, groups: set<int>, g: int)
    requires g in groups
    ensures Total(f, groups) == f(g) + Total(f, groups - {g})
    decreases |groups|
  {
    var x := Some(groups);
    if x != g {
      TotalSplits(f, groups - {x}, g);
      TotalSplits(f, groups - {g}, x);
      assert groups - {x} - {g} == groups - {g} - {x};
    }
  }

  // A sum grows with its terms, strictly so when one of them does.
  lemma {:induction false} TotalGrows(f: int -> int, f': int -> int, groups: set<int>)
    requires forall g :: g in groups ==> f(g) <= f'(g)
    ensures Total(f, groups) <= Total(f', groups)
    ensures (exists g :: g in groups && f(g) < f'(g)) ==> Total(f, groups) < Total(f', groups)
    decreases |groups|
  {
    if groups != {} {
      var x := if exists g :: g in groups && f(g) < f'(g)
               then var g :| g in groups && f(g) < f'(g); g
               else Some(groups);
      TotalSplits(f, groups, x);
      TotalSplits(f', groups, x);
      TotalGrows(f, f', groups - {x});
    }
  }

  ghost function Loads(s: seq<int>): int -> int { g => Load(s, g) }

  ghost predicate AllIn(s: seq<int>, groups: set<int>) {
    forall i :: 0 <= i < |s| ==> s[i] in groups
  }

  lemma {:induction false} TotalOfZeros(f: int -> int, groups: set<int>)
    requires forall g :: g in groups ==> f(g) == 0
    ensures Total(f, groups) == 0
    decreases |groups|
  {
    if groups != {} {
      var x := Some(groups);
      TotalSplits(f, groups, x);
      TotalOfZeros(f, groups - {x});
    }
  }

  // The loads of the groups add up to the shards those groups serve.
  lemma {:induction false} LoadsAddUp(s: seq<int>, groups: set<int>)
    ensures Total(Loads(s), groups) <= |s|
    ensures AllIn(s, groups) ==> Total(Loads(s), groups) == |s|
  {
    if s == [] {
      TotalOfZeros(Loads(s), groups);
    } else {
      var s', x := s[..|s| - 1], s[|s| - 1];
      LoadsAddUp(s', groups);
      assert forall g :: Loads(s)(g) == Loads(s')(g) + (if g == x then 1 else 0);
      if x in groups {
        TotalSplits(Loads(s), groups, x);
        TotalSplits(Loads(s'), groups, x);
        SameTotal(Loads(s), Loads(s'), groups - {x});
      } else {
        SameTotal(Loads(s), Loads(s'), groups);
      }
    }
  }

  lemma SameTotal(f: int -> int, f': int -> int, groups: set<int>)
    requires forall g :: g in groups ==> f(g) == f'(g)
    ensures Total(f, groups) == Total(f', groups)
  {
    TotalGrows(f, f', groups);
    TotalGrows(f', f, groups);
  }

  /// ## The allocator

  ghost function FirstOn(s: seq<int>, g: int): (i: nat)
    requires g in s
    ensures i < |s| && s[i] == g && g !in s[..i]
  {
    if s[0] == g then 0 else
      var i := FirstOn(s[1..], g);
      assert s[..i + 1] == [s[0]] + s[1..][..i];
      i + 1
  }

  // Phase one: every shard whose group is gone goes to the group that is lightest then.
  ghost function Fill(s: seq<int>, groups: set<int>, i: nat): (t: seq<int>)
    requires groups != {} && i <= |s|
    ensures |t| == |s|
    decreases |s| - i
  {
    if i == |s| then s
    else if s[i] in groups then Fill(s, groups, i + 1)
    else Fill(s[i := LightestOf(s, groups)], groups, i + 1)
  }

  ghost predicate Uneven(s: seq<int>, groups: set<int>)
    requires groups != {}
  {
    Load(s, HeaviestOf(s, groups)) >= Load(s, LightestOf(s, groups)) + 2
  }

  // One move: the first shard of the heaviest group goes to the lightest.
  ghost function NextShard(s: seq<int>, groups: set<int>): (i: nat)
    requires groups != {} && Uneven(s, groups)
    ensures i < |s| && s[i] == HeaviestOf(s, groups) && s[i] !in s[..i]
  {
    ServesSome(s, HeaviestOf(s, groups));
    FirstOn(s, HeaviestOf(s, groups))
  }

  ghost function Shift(s: seq<int>, groups: set<int>): (t: seq<int>)
    requires groups != {} && Uneven(s, groups)
    ensures |t| == |s|
  {
    s[NextShard(s, groups) := LightestOf(s, groups)]
  }

  function Square(n: nat): nat { n * n }

  ghost function Squares(s: seq<int>): int -> int { g => Square(Load(s, g)) }

  // The measure that makes the loop end: every move lowers the sum of squared loads.
  lemma ShiftLowersSquares(s: seq<int>, groups: set<int>)
    requires groups != {} && Uneven(s, groups)
    ensures 0 <= Total(Squares(Shift(s, groups)), groups) < Total(Squares(s), groups)
  {
    ShiftLoads(s, groups);
    var m, l := HeaviestOf(s, groups), LightestOf(s, groups);
    SquaresFall(Load(s, m), Load(s, l));
    TwoTermsFall(Squares(s), Squares(Shift(s, groups)), groups, m, l);
    TotalNatural(Squares(Shift(s, groups)), groups);
  }

  lemma TwoTermsFall(f: int -> int, f': int -> int, groups: set<int>, m: int, l: int)
    requires m in groups && l in groups && m != l
    requires f'(m) + f'(l) < f(m) + f(l)
    requires forall g :: g in groups && g != m && g != l ==> f(g) == f'(g)
    ensures Total(f', groups) < Total(f, groups)
  {
    TotalSplits(f, groups, m);
    TotalSplits(f, groups - {m}, l);
    TotalSplits(f', groups, m);
    TotalSplits(f', groups - {m}, l);
    SameTotal(f, f', groups - {m} - {l});
  }

  lemma SquaresFall(x: nat, y: nat)
    requires x >= y + 2
    ensures Square(x - 1) + Square(y + 1) < Square(x) + Square(y)
  {
    assert (x - 1) * (x - 1) == x * x - 2 * x + 1;
    assert (y + 1) * (y + 1) == y * y + 2 * y + 1;
  }

  lemma {:induction false} TotalNatural(f: int -> int, groups: set<int>)
    requires forall g :: g in groups ==> f(g) >= 0
    ensures Total(f, groups) >= 0
    decreases |groups|
  {
    if groups != {} {
      var x := Some(groups);
      TotalSplits(f, groups, x);
      TotalNatural(f, groups - {x});
    }
  }

  lemma ShiftLoads(s: seq<int>, groups: set<int>)
    requires groups != {} && Uneven(s, groups)
    ensures forall g {:trigger Load(Shift(s, groups), g)} ::
              Load(Shift(s, groups), g) ==
              (if g == HeaviestOf(s, groups) then Load(s, g) - 1
               else if g == LightestOf(s, groups) then Load(s, g) + 1
               else Load(s, g))
  {
    forall g ensures Load(Shift(s, groups), g) ==
                     (if g == HeaviestOf(s, groups) then Load(s, g) - 1
                      else if g == LightestOf(s, groups) then Load(s, g) + 1
                      else Load(s, g))
    {
      LoadUpdate(s, NextShard(s, groups), LightestOf(s, groups), g);
    }
  }

  // Phase two: move shards until the heaviest group has at most one more than the lightest.
  ghost function Level(s: seq<int>, groups: set<int>): (t: seq<int>)
    requires groups != {}
    ensures |t| == |s|
    decreases Total(Squares(s), groups)
  {
    if Uneven(s, groups) then
      ShiftLowersSquares(s, groups);
      Level(Shift(s, groups), groups)
    else s
  }

  ghost function Rebalanced(s: seq<int>, groups: set<int>): (t: seq<int>)
    ensures |t| == |s|
  {
    if groups == {} then seq(|s|, _ => 0) else Level(Fill(s, groups, 0), groups)
  }

  /// ## What a rebalance keeps

  // Every shard on a member group, loads at most one apart; nothing assigned when there
  // is no group.
  ghost predicate Balanced(s: seq<int>, groups: set<int>) {
    if groups == {} then forall i :: 0 <= i < |s| ==> s[i] == 0
    else
      && AllIn(s, groups)
      && forall g, h {:trigger Load(s, g), Load(s, h)} ::
           g in groups && h in groups ==> Load(s, g) <= Load(s, h) + 1
  }

  // How far c may have come from s0 part way through a rebalance.  A group that has
  // received is at most one above the lightest, one that has given at most one below the
  // heaviest, no receiver is above a giver, and no group does both.
  ghost predicate Receives(c: seq<int>, groups: set<int>, g: int) {
    g in groups && forall h :: h in groups ==> Load(c, g) <= Load(c, h) + 1
  }

  ghost predicate Gives(c: seq<int>, groups: set<int>, g: int) {
    g in groups ==> forall h :: h in groups ==> Load(c, h) <= Load(c, g) + 1
  }

  ghost predicate Apart(c: seq<int>, groups: set<int>, receiver: int, giver: int) {
    giver in groups ==> receiver != giver && Load(c, receiver) <= Load(c, giver)
  }

  ghost predicate Fair(s0: seq<int>, c: seq<int>, groups: set<int>)
    requires |s0| == |c|
  {
    && (forall i :: 0 <= i < |c| && c[i] != s0[i] ==> Receives(c, groups, c[i]))
    && (forall i :: 0 <= i < |c| && c[i] != s0[i] ==> Gives(c, groups, s0[i]))
    && (forall i, j :: 0 <= i < |c| && 0 <= j < |c| && c[i] != s0[i] && c[j] != s0[j]
                       ==> Apart(c, groups, c[i], s0[j]))
  }

  lemma FillStep(s0: seq<int>, c: seq<int>, groups: set<int>, i: nat)
    requires groups != {} && |c| == |s0| && i < |c| && c[i] == s0[i] && c[i] !in groups
    requires Fair(s0, c, groups)
    requires forall j :: 0 <= j < |c| && s0[j] in groups ==> c[j] == s0[j]
    ensures Fair(s0, c[i := LightestOf(c, groups)], groups)
  {
    var l := LightestOf(c, groups);
    var t := c[i := l];
    forall h | h in groups ensures Load(t, h) == Load(c, h) + if h == l then 1 else 0 {
      LoadUpdate(c, i, l, h);
    }
    forall j | 0 <= j < |t| && t[j] != s0[j]
      ensures Receives(t, groups, t[j]) && s0[j] !in groups
    {
      assert j != i ==> Receives(c, groups, c[j]);
    }
  }

  lemma {:induction false} FillKeeps(s0: seq<int>, c: seq<int>, groups: set<int>, i: nat)
    requires groups != {} && |c| == |s0| && i <= |c|
    requires Fair(s0, c, groups)
    requires forall j :: i <= j < |c| ==> c[j] == s0[j]
    requires forall j :: 0 <= j < |c| && s0[j] in groups ==> c[j] == s0[j]
    requires forall j :: 0 <= j < i ==> c[j] in groups
    ensures Fair(s0, Fill(c, groups, i), groups)
    ensures AllIn(Fill(c, groups, i), groups)
    ensures forall j :: 0 <= j < |c| && s0[j] in groups ==> Fill(c, groups, i)[j] == s0[j]
    decreases |c| - i
  {
    if i < |c| {
      if c[i] in groups {
        FillKeeps(s0, c, groups, i + 1);
      } else {
        FillStep(s0, c, groups, i);
        FillKeeps(s0, c[i := LightestOf(c, groups)], groups, i + 1);
      }
    }
  }

  // The shard that moves next has not moved before, and its group has never received.
  lemma MovesAtMostOnce(s0: seq<int>, c: seq<int>, groups: set<int>)
    requires groups != {} && |c| == |s0| && Fair(s0, c, groups) && Uneven(c, groups)
    ensures c[NextShard(c, groups)] == s0[NextShard(c, groups)]
  {
    var i := NextShard(c, groups);
    assert !Receives(c, groups, c[i]);
  }

  lemma ShiftStep(s0: seq<int>, c: seq<int>, groups: set<int>)
    requires groups != {} && |c| == |s0| && AllIn(c, groups) && Fair(s0, c, groups)
    requires Uneven(c, groups)
    ensures Fair(s0, Shift(c, groups), groups) && AllIn(Shift(c, groups), groups)
  {
    var i, m, l, t := NextShard(c, groups), HeaviestOf(c, groups), LightestOf(c, groups), Shift(c, groups);
    MovesAtMostOnce(s0, c, groups);
    ShiftLoads(c, groups);
    forall j | 0 <= j < |t| && t[j] != s0[j]
      ensures Receives(t, groups, t[j]) && Gives(t, groups, s0[j])
      ensures Load(t, t[j]) <= Load(c, l) + 1 && t[j] != m
      ensures s0[j] in groups ==> Load(t, s0[j]) >= Load(c, m) - 1 && s0[j] != l
    {
      if j != i {
        assert Receives(c, groups, c[j]) && Gives(c, groups, s0[j]);
        assert Load(c, c[j]) <= Load(c, l) + 1;
        assert s0[j] in groups ==> Load(c, m) <= Load(c, s0[j]) + 1;
      }
    }
    forall j, k | 0 <= j < |t| && 0 <= k < |t| && t[j] != s0[j] && t[k] != s0[k]
      ensures Apart(t, groups, t[j], s0[k])
    {
      if j != i && k != i {
        assert Apart(c, groups, c[j], s0[k]);
      }
    }
  }

  lemma {:induction false} LevelKeeps(s0: seq<int>, c: seq<int>, groups: set<int>)
    requires groups != {} && |c| == |s0| && AllIn(c, groups) && Fair(s0, c, groups)
    ensures Fair(s0, Level(c, groups), groups)
    ensures Balanced(Level(c, groups), groups)
    decreases Total(Squares(c), groups)
  {
    if Uneven(c, groups) {
      ShiftStep(s0, c, groups);
      ShiftLowersSquares(c, groups);
      LevelKeeps(s0, Shift(c, groups), groups);
    } else {
      forall g, h | g in groups && h in groups ensures Load(c, g) <= Load(c, h) + 1 {
        assert Load(c, g) <= Load(c, HeaviestOf(c, groups));
        assert Load(c, LightestOf(c, groups)) <= Load(c, h);
      }
    }
  }

  // From ANY assignment, however uneven, a rebalance ends balanced; and it is fair.
  lemma RebalanceBalances(s: seq<int>, groups: set<int>)
    ensures Balanced(Rebalanced(s, groups), groups)
    ensures groups != {} ==> Fair(s, Rebalanced(s, groups), groups)
  {
    if groups != {} {
      FillKeeps(s, s, groups, 0);
      LevelKeeps(s, Fill(s, groups, 0), groups);
    }
  }

  /// ## No shard moves twice

  // The shards the second phase moves, in order.
  ghost function Route(s: seq<int>, groups: set<int>): (r: seq<nat>)
    requires groups != {}
    decreases Total(Squares(s), groups)
  {
    if Uneven(s, groups) then
      ShiftLowersSquares(s, groups);
      [NextShard(s, groups)] + Route(Shift(s, groups), groups)
    else []
  }

  ghost predicate Fresh(s0: seq<int>, c: seq<int>, r: seq<nat>)
    requires |s0| == |c|
  {
    && (forall k :: 0 <= k < |r| ==> r[k] < |c| && c[r[k]] == s0[r[k]])
    && (forall j, k :: 0 <= j < k < |r| ==> r[j] != r[k])
  }

  lemma FreshCons(s0: seq<int>, c: seq<int>, x: int, i: nat, r: seq<nat>)
    requires |s0| == |c| && i < |c| && c[i] == s0[i] && x != s0[i]
    requires Fresh(s0, c[i := x], r)
    ensures Fresh(s0, c, [i] + r)
  {
    var t := c[i := x];
    assert forall k :: 0 <= k < |r| ==> r[k] != i && t[r[k]] == c[r[k]];
  }

  lemma {:induction false} RouteIsFresh(s0: seq<int>, c: seq<int>, groups: set<int>)
    requires groups != {} && |c| == |s0| && AllIn(c, groups) && Fair(s0, c, groups)
    ensures Fresh(s0, c, Route(c, groups))
    decreases Total(Squares(c), groups)
  {
    if Uneven(c, groups) {
      MovesAtMostOnce(s0, c, groups);
      ShiftStep(s0, c, groups);
      ShiftLowersSquares(c, groups);
      RouteIsFresh(s0, Shift(c, groups), groups);
      FreshCons(s0, c, LightestOf(c, groups), NextShard(c, groups), Route(Shift(c, groups), groups));
    }
  }

  // Over a whole rebalance each shard is reassigned at most once: one that lost its group
  // is placed once, and the shards the second phase moves are pairwise different and had
  // a member group to begin with.
  lemma NoShardMovesTwice(s: seq<int>, groups: set<int>)
    requires groups != {}
    ensures var r := Route(Fill(s, groups, 0), groups);
            && (forall k :: 0 <= k < |r| ==> r[k] < |s| && s[r[k]] in groups)
            && (forall j, k :: 0 <= j < k < |r| ==> r[j] != r[k])
  {
    FillKeeps(s, s, groups, 0);
    RouteIsFresh(s, Fill(s, groups, 0), groups);
  }

  /// ## Minimal disturbance

  // The shards that stay where they were.
  ghost function Kept(s: seq<int>, t: seq<int>): (k: seq<int>)
    requires |s| == |t|
  {
    if s == [] then []
    else
      var n := |s| - 1;
      Kept(s[..n], t[..n]) + if s[n] == t[n] then [s[n]] else []
  }

  // One more shard adds to what g keeps exactly when it is on g before and after.
  lemma KeptLast(s: seq<int>, t: seq<int>, g: int)
    requires |s| == |t| > 0
    ensures var n := |s| - 1;
            Load(Kept(s, t), g) == Load(Kept(s[..n], t[..n]), g) + if s[n] == t[n] == g then 1 else 0
  {
    var n := |s| - 1;
    LoadAppend(Kept(s[..n], t[..n]), s[n], g);
    assert s[n] == t[n] ==> Kept(s, t) == Kept(s[..n], t[..n]) + [s[n]];
    assert s[n] != t[n] ==> Kept(s, t) == Kept(s[..n], t[..n]);
  }

  // No group both gives and receives, so a group keeps as many shards as it can: all it
  // had, or as many as it ends with.
  lemma {:induction false} KeptLoads(s: seq<int>, t: seq<int>, g: int)
    requires |s| == |t|
    ensures Load(Kept(s, t), g) <= Load(s, g)
    ensures Load(Kept(s, t), g) <= Load(t, g)
    ensures (forall i :: 0 <= i < |s| && s[i] == g ==> t[i] == g) ==> Load(Kept(s, t), g) == Load(s, g)
    ensures (forall i :: 0 <= i < |s| && t[i] == g ==> s[i] == g) ==> Load(Kept(s, t), g) == Load(t, g)
  {
    if s != [] {
      var n := |s| - 1;
      KeptLoads(s[..n], t[..n], g);
      KeptLast(s, t, g);
      assert forall i :: 0 <= i < n ==> s[..n][i] == s[i] && t[..n][i] == t[i];
    }
  }

  // Two balanced assignments of the same shards differ by at most one per group.
  lemma BalancedAgree(t: seq<int>, u: seq<int>, groups: set<int>, g: int, lo: int)
    requires groups != {} && |t| == |u| && Balanced(t, groups) && Balanced(u, groups)
    requires g in groups
    requires lo in groups && forall h :: h in groups ==> Load(t, lo) <= Load(t, h)
    ensures Load(t, lo) <= Load(u, g) <= Load(t, lo) + 1
  {
    LoadsAddUp(t, groups);
    LoadsAddUp(u, groups);
    if Load(u, g) < Load(t, lo) {
      assert forall h :: h in groups ==> Load(u, h) <= Load(u, g) + 1;
      assert forall h :: h in groups ==> Loads(u)(h) <= Loads(t)(h);
      assert Loads(u)(g) < Loads(t)(g);
      TotalGrows(Loads(u), Loads(t), groups);
      assert false;
    } else if Load(u, g) > Load(t, lo) + 1 {
      assert forall h :: h in groups ==> Load(u, g) <= Load(u, h) + 1;
      assert forall h :: h in groups ==> Load(t, h) <= Load(t, lo) + 1;
      assert forall h :: h in groups ==> Loads(t)(h) <= Loads(u)(h);
      assert Loads(t)(g) < Loads(u)(g);
      TotalGrows(Loads(t), Loads(u), groups);
      assert false;
    }
  }

  // What the end of a fair change means for one group: it either kept all it had or
  // gained nothing.
  lemma FairGroup(s: seq<int>, t: seq<int>, groups: set<int>, g: int)
    requires |s| == |t| && g in groups && Fair(s, t, groups)
    ensures Load(t, g) < Load(s, g) ==> exists i :: 0 <= i < |s| && s[i] == g && t[i] != s[i]
    ensures Load(t, g) > Load(s, g) ==> exists i :: 0 <= i < |s| && t[i] == g && t[i] != s[i]
    ensures Load(Kept(s, t), g) == Load(s, g) || Load(Kept(s, t), g) == Load(t, g)
  {
    KeptLoads(s, t, g);
    if j :| 0 <= j < |s| && s[j] == g && t[j] != g {
      assert forall i :: 0 <= i < |s| && t[i] != s[i] ==> Apart(t, groups, t[i], s[j]);
    }
  }

  // A receiver ends no higher than a giver.
  lemma ReceiverBelowGiver(s: seq<int>, t: seq<int>, groups: set<int>, g: int, h: int)
    requires |s| == |t| && g in groups && h in groups && Fair(s, t, groups)
    requires Load(t, g) > Load(s, g) && Load(t, h) < Load(s, h)
    ensures Load(t, g) <= Load(t, h)
  {
    FairGroup(s, t, groups, g);
    FairGroup(s, t, groups, h);
    var i :| 0 <= i < |s| && t[i] == g && t[i] != s[i];
    var j :| 0 <= j < |s| && s[j] == h && t[j] != s[j];
    assert Apart(t, groups, t[i], s[j]);
  }

  // The allocator is optimal: of all balanced assignments to the present groups, none
  // leaves more shards in place than the one a rebalance reaches.
  lemma RebalanceMovesFewest(s: seq<int>, groups: set<int>, u: seq<int>)
    requires groups != {} && |u| == |s| && Balanced(u, groups)
    ensures |Kept(s, u)| <= |Kept(s, Rebalanced(s, groups))|
  {
    var t := Rebalanced(s, groups);
    RebalanceBalances(s, groups);
    FairKeepsMost(s, t, u, groups);
  }

  lemma FairKeepsMost(s: seq<int>, t: seq<int>, u: seq<int>, groups: set<int>)
    requires groups != {} && |s| == |t| == |u| && Balanced(t, groups) && Balanced(u, groups)
    requires Fair(s, t, groups)
    ensures |Kept(s, u)| <= |Kept(s, t)|
  {
    var lo := LightestOf(t, groups);
    KeptAreMembers(s, t, groups);
    KeptAreMembers(s, u, groups);
    if g :| g in groups && Load(t, g) > Load(t, lo) && Load(t, g) > Load(s, g) {
      forall h | h in groups ensures Load(Kept(s, u), h) <= Load(Kept(s, t), h) {
        KeptWithHighReceiver(s, t, u, groups, lo, g, h);
      }
      NoLonger(t, t, Kept(s, u), Kept(s, t), groups);
    } else {
      forall h | h in groups
        ensures Load(t, h) + Load(Kept(s, u), h) <= Load(u, h) + Load(Kept(s, t), h)
      {
        KeptWithLowReceivers(s, t, u, groups, lo, h);
      }
      NoLonger(t, u, Kept(s, u), Kept(s, t), groups);
    }
  }

  lemma {:induction false} KeptAreMembers(s: seq<int>, t: seq<int>, groups: set<int>)
    requires |s| == |t| && AllIn(t, groups)
    ensures AllIn(Kept(s, t), groups)
  {
    if s != [] {
      var n := |s| - 1;
      KeptAreMembers(s[..n], t[..n], groups);
    }
  }

  // Group by group comparisons add up to a comparison of lengths.
  lemma NoLonger(t: seq<int>, u: seq<int>, k: seq<int>, k': seq<int>, groups: set<int>)
    requires AllIn(t, groups) && AllIn(u, groups) && AllIn(k, groups) && AllIn(k', groups)
    requires |t| == |u|
    requires forall h :: h in groups ==> Load(t, h) + Load(k, h) <= Load(u, h) + Load(k', h)
    ensures |k| <= |k'|
  {
    SumsCompare(Loads(t), Loads(k), Loads(u), Loads(k'), groups);
    LoadsAddUp(t, groups);
    LoadsAddUp(u, groups);
    LoadsAddUp(k, groups);
    LoadsAddUp(k', groups);
  }

  // When some receiver ends above the lightest group, no giver ends below it: every
  // group keeps at least what it keeps under u.
  lemma KeptWithHighReceiver(s: seq<int>, t: seq<int>, u: seq<int>, groups: set<int>, lo: int, g: int, h: int)
    requires groups != {} && |s| == |t| == |u| && Balanced(t, groups) && Balanced(u, groups)
    requires Fair(s, t, groups) && Lightest(t, groups, lo)
    requires g in groups && Load(t, g) > Load(t, lo) && Load(t, g) > Load(s, g)
    requires h in groups
    ensures Load(Kept(s, u), h) <= Load(Kept(s, t), h)
  {
    KeptLoads(s, u, h);
    FairGroup(s, t, groups, h);
    BalancedAgree(t, u, groups, h, lo);
    if Load(t, h) < Load(s, h) {
      ReceiverBelowGiver(s, t, groups, g, h);
    }
  }

  // Otherwise every receiver ends lightest, and each group keeps at least what it keeps
  // under u, up to the difference between the two final loads.
  lemma KeptWithLowReceivers(s: seq<int>, t: seq<int>, u: seq<int>, groups: set<int>, lo: int, h: int)
    requires groups != {} && |s| == |t| == |u| && Balanced(t, groups) && Balanced(u, groups)
    requires Fair(s, t, groups) && Lightest(t, groups, lo)
    requires h in groups && (Load(t, h) > Load(t, lo) ==> Load(t, h) <= Load(s, h))
    ensures Load(t, h) + Load(Kept(s, u), h) <= Load(u, h) + Load(Kept(s, t), h)
  {
    KeptLoads(s, u, h);
    FairGroup(s, t, groups, h);
    BalancedAgree(t, u, groups, h, lo);
  }

  lemma {:induction false} SumsCompare(f: int -> int, f': int -> int, k: int -> int, k': int -> int,
                                       groups: set<int>)
    requires forall g :: g in groups ==> f(g) + f'(g) <= k(g) + k'(g)
    ensures Total(f, groups) + Total(f', groups) <= Total(k, groups) + Total(k', groups)
    decreases |groups|
  {
    if groups != {} {
      SumsCompare(f, f', k, k', groups - {Some(groups)});
    }
  }

  // If one load grows and the sum does not, another load shrinks.
  lemma SomeoneLost(s: seq<int>, t: seq<int>, groups: set<int>, g: int)
    requires g in groups && Load(t, g) > Load(s, g)
    requires Total(Loads(t), groups) <= Total(Loads(s), groups)
    ensures exists h :: h in groups && Load(t, h) < Load(s, h)
  {
    if forall h :: h in groups ==> Load(s, h) <= Load(t, h) {
      TotalGrows(Loads(s), Loads(t), groups);
    }
  }

  // From a balanced, non-empty configuration a Join moves shards onto joining groups only.
  lemma JoinMovesToJoiners(s: seq<int>, before: set<int>, groups: set<int>, i: nat)
    requires before != {} && before <= groups && Balanced(s, before)
    requires i < |s| && Rebalanced(s, groups)[i] != s[i]
    ensures Rebalanced(s, groups)[i] in groups - before
  {
    var t := Rebalanced(s, groups);
    RebalanceBalances(s, groups);
    assert Receives(t, groups, t[i]);
    var g := t[i];
    if g in before {
      Gained(s, t, groups, i);
      LoadsAddUp(s, before);
      LoadsAddUp(t, before);
      SomeoneLost(s, t, before, g);
      var h :| h in before && Load(t, h) < Load(s, h);
      ReceiverBelowGiver(s, t, groups, g, h);
      assert false;
    }
  }

  // A group some shard moved onto ends with more than it had, one some shard left with less.
  lemma Gained(s: seq<int>, t: seq<int>, groups: set<int>, i: nat)
    requires |s| == |t| && i < |s| && t[i] != s[i] && Fair(s, t, groups)
    ensures t[i] in groups && Load(t, t[i]) > Load(s, t[i])
    ensures s[i] in groups ==> Load(t, s[i]) < Load(s, s[i])
  {
    assert Receives(t, groups, t[i]);
    KeptLoads(s, t, t[i]);
    KeptLoads(s, t, s[i]);
    assert forall j :: 0 <= j < |s| && t[j] != s[j] ==> Apart(t, groups, t[i], s[j]);
    assert forall j :: 0 <= j < |s| && t[j] != s[j] ==> Apart(t, groups, t[j], s[i]);
    KeptMisses(s, t, i);
  }

  lemma {:induction false} KeptBothWays(s: seq<int>, t: seq<int>)
    requires |s| == |t|
    ensures Kept(s, t) == Kept(t, s)
    decreases |s|
  {
    if s != [] {
      KeptBothWays(s[..|s| - 1], t[..|s| - 1]);
    }
  }

  lemma KeptMisses(s: seq<int>, t: seq<int>, i: nat)
    requires |s| == |t| && i < |s| && t[i] != s[i]
    ensures Load(Kept(s, t), t[i]) < Load(t, t[i])
    ensures Load(Kept(s, t), s[i]) < Load(s, s[i])
  {
    KeptMissesLost(s, t, i, s[i]);
    KeptMissesLost(t, s, i, t[i]);
    KeptBothWays(s, t);
  }

  lemma {:induction false} KeptMissesLost(s: seq<int>, t: seq<int>, i: nat, g: int)
    requires |s| == |t| && i < |s| && t[i] != s[i] == g
    ensures Load(Kept(s, t), g) < Load(s, g)
    decreases |s|
  {
    var n := |s| - 1;
    var s0, t0 := s[..n], t[..n];
    KeptLast(s, t, g);
    if i < n {
      assert s0[i] == s[i] && t0[i] == t[i];
      KeptMissesLost(s0, t0, i, g);
    } else {
      KeptLoads(s0, t0, g);
    }
  }

  // From a balanced configuration a Leave moves only the departing groups' shards.
  lemma LeaveMovesOrphansOnly(s: seq<int>, before: set<int>, groups: set<int>, i: nat)
    requires groups != {} && groups <= before && Balanced(s, before)
    requires i < |s| && Rebalanced(s, groups)[i] != s[i]
    ensures s[i] in before - groups
  {
    var t := Rebalanced(s, groups);
    RebalanceBalances(s, groups);
    assert s[i] in before;
    var h := s[i];
    if h in groups {
      Gained(s, t, groups, i);
      LoadsAddUp(s, groups);
      LoadsAddUp(t, groups);
      SomeoneLost(t, s, groups, h);
      var g :| g in groups && Load(s, g) < Load(t, g);
      ReceiverBelowGiver(s, t, groups, g, h);
      assert false;
    }
  }
}
