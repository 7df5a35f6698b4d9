/** The shard controller's configurations (src/shardkv1/shardcfg/shardcfg.go): a fixed
    number of shards, each assigned to a replica group; groups join and leave.  The class
    updates a configuration in place; its methods are proved against ShardBalance.
 */
module ShardConfigs {
  import opened ShardBalance

  const NSHARDS: nat := 12

  datatype Config = Config(num: int, shards: seq<int>, groups: map<int, seq<string>>)

  // A change succeeds, is refused (`false`), or ends the process (log.Fatalf).
  datatype Outcome = Done | Refused | Fatal

  predicate Clash(a: seq<string>, b: seq<string>) {
    exists x :: x in a && x in b
  }

  predicate ServersClear(groups: map<int, seq<string>>, servers: seq<string>) {
    forall h :: h in groups ==> !Clash(groups[h], servers)
  }

  // What a successful Join needs, in whatever order the new groups are looked at.
  ghost predicate CanJoin(groups: map<int, seq<string>>, servers: map<int, seq<string>>) {
    && servers != map[]
    && servers.Keys !! groups.Keys
    && NoClash(groups + servers, servers.Keys)
  }

  // None of the named groups shares a server with another group.
  ghost predicate NoClash(groups: map<int, seq<string>>, named: set<int>)
    requires named <= groups.Keys
  {
    forall g, h {:trigger groups[g], groups[h]} ::
      g in named && h in groups && h != g ==> !Clash(groups[h], groups[g])
  }

  ghost function Joined(c: Config, servers: map<int, seq<string>>): Config {
    var groups := c.groups + servers;
    Config(c.num + 1, Rebalanced(c.shards, groups.Keys), groups)
  }

  ghost predicate CanLeave(groups: map<int, seq<string>>, gids: seq<int>) {
    && gids != []
    && (forall i :: 0 <= i < |gids| ==> gids[i] in groups)
    && forall i, j :: 0 <= i < j < |gids| ==> gids[i] != gids[j]
  }

  function GroupsIn(gids: seq<int>): set<int> { set g | g in gids }

  ghost function Left(c: Config, gids: seq<int>): Config {
    var groups := c.groups - GroupsIn(gids);
    Config(c.num + 1, Rebalanced(c.shards, groups.Keys), groups)
  }

  lemma OnlyExtremes(s: seq<int>, groups: set<int>, heaviest: int, lightest: int)
    requires groups != {} && Heaviest(s, groups, heaviest) && Lightest(s, groups, lightest)
    ensures heaviest == HeaviestOf(s, groups) && lightest == LightestOf(s, groups)
  {
  }

  // What one more, larger group ID changes: ties stay with the smaller one.
  lemma HeaviestGrows(s: seq<int>, seen: set<int>, heaviest: int, g: int)
    requires Heaviest(s, seen, heaviest) && forall h :: h in seen ==> h < g
    ensures Heaviest(s, seen + {g}, if Load(s, g) > Load(s, heaviest) then g else heaviest)
  {
  }

  lemma LightestGrows(s: seq<int>, seen: set<int>, lightest: int, g: int)
    requires Lightest(s, seen, lightest) && forall h :: h in seen ==> h < g
    ensures Lightest(s, seen + {g}, if Load(s, g) < Load(s, lightest) then g else lightest)
  {
  }

  class ShardConfig {
    var num: int
    const shards: array<int>
    var groups: map<int, seq<string>>

    ghost predicate Valid() reads this { shards.Length == NSHARDS }

    ghost function View(): Config reads this, shards { Config(num, shards[..], groups) }

    constructor MakeShardConfig()
      ensures Valid() && fresh(shards)
      ensures View() == Config(0, seq(NSHARDS, _ => 0), map[])
    {
      num := 0;
      groups := map[];
      shards := new int[NSHARDS](_ => 0);
      new;
      assert shards[..] == seq(NSHARDS, _ => 0);
    }

    method CountShards() returns (counts: map<int, nat>)
      requires Valid()
      ensures forall g {:trigger Count(counts, g)} :: Count(counts, g) == Load(shards[..], g)
    {
      counts := map[];
      for i := 0 to shards.Length
        invariant forall g {:trigger Load(shards[..i], g)} :: Count(counts, g) == Load(shards[..i], g)
      {
        assert shards[..i + 1] == shards[..i] + [shards[i]];
        forall g ensures Load(shards[..i + 1], g) == Load(shards[..i], g) + if shards[i] == g then 1 else 0 {
          LoadAppend(shards[..i], shards[i], g);
        }
        counts := counts[shards[i] := Count(counts, shards[i]) + 1];
      }
      assert shards[..shards.Length] == shards[..];
    }

    // One pass over the sorted group IDs; the sentinels survive only if there is no group.
    method Analyze() returns (mg: int, mn: int, lg: int, ln: int)
      requires Valid()
      ensures groups == map[] ==> (mg, mn, lg, ln) == (-1, -1, -1, 257)
      ensures groups != map[] ==> mg == HeaviestOf(shards[..], groups.Keys) && mn == Load(shards[..], mg)
      ensures groups != map[] ==> lg == LightestOf(shards[..], groups.Keys) && ln == Load(shards[..], lg)
      ensures forall h :: h in groups ==> ln <= Load(shards[..], h) <= mn
      ensures forall h :: h in groups && Load(shards[..], h) == ln ==> lg <= h
      ensures forall h :: h in groups && Load(shards[..], h) == mn ==> mg <= h
    {
      var counts := CountShards();
      var order := SortedKeys(groups.Keys);
      mn, mg, ln, lg := -1, -1, 257, -1;
      ghost var now, seen := shards[..], GroupsIn([]);
      for k := 0 to |order|
        invariant seen == GroupsIn(order[..k])
        invariant k == 0 ==> (mg, mn, lg, ln) == (-1, -1, -1, 257)
        invariant k > 0 ==> Heaviest(now, seen, mg) && mn == Load(now, mg)
        invariant k > 0 ==> Lightest(now, seen, lg) && ln == Load(now, lg)
      {
        var g := order[k];
        assert order[..k + 1] == order[..k] + [g];
        assert seen + {g} == GroupsIn(order[..k + 1]);
        assert forall h :: h in seen ==> h < g;
        assert Count(counts, g) == Load(now, g);
        if k > 0 {
          HeaviestGrows(now, seen, mg, g);
          LightestGrows(now, seen, lg, g);
        }
        if Count(counts, g) < ln {
          ln, lg := Count(counts, g), g;
        }
        if Count(counts, g) > mn {
          mn, mg := Count(counts, g), g;
        }
        seen := seen + {g};
      }
      assert order[..|order|] == order;
      assert seen == groups.Keys;
      if groups != map[] {
        assert |order| > 0;
        OnlyExtremes(now, groups.Keys, mg, lg);
      }
    }

    method Least() returns (lg: int)
      requires Valid()
      ensures lg == if groups == map[] then -1 else LightestOf(shards[..], groups.Keys)
    {
      var mg, mn, ln;
      mg, mn, lg, ln := Analyze();
    }

    // The in-place allocator reaches the assignment that the value-level one names, a
    // function of the shards and the set of group IDs alone: map iteration order and
    // server names do not matter.
    method Rebalance()
      requires Valid()
      modifies shards
      ensures shards[..] == Rebalanced(old(shards[..]), groups.Keys)
    {
      if |groups| < 1 {
        for s := 0 to shards.Length
          invariant forall j :: 0 <= j < s ==> shards[j] == 0
        {
          shards[s] := 0;
        }
        return;
      }
      assert groups.Keys != {};
      var copy := shards[..];
      for s := 0 to shards.Length
        invariant forall j :: s <= j < shards.Length ==> shards[j] == copy[j]
        invariant Fill(shards[..], groups.Keys, s) == Fill(copy, groups.Keys, 0)
      {
        var g := copy[s];
        if g !in groups {
          var lg := Least();
          ghost var before := shards[..];
          shards[s] := lg;
          assert shards[..] == before[s := lg];
        }
      }
      while true
        invariant Level(shards[..], groups.Keys) == Rebalanced(copy, groups.Keys)
        decreases Total(Squares(shards[..]), groups.Keys)
      {
        var mg, mn, lg, ln := Analyze();
        if mn < ln + 2 { break; }
        ShiftLowersSquares(shards[..], groups.Keys);
        ghost var before := shards[..];
        ghost var next := NextShard(before, groups.Keys);
        for s := 0 to shards.Length
          invariant s <= next && shards[..] == before
        {
          if shards[s] == mg {
            SameFirst(before, s, next);
            shards[s] := lg;
            assert shards[..] == before[s := lg];
            break;
          }
        }
      }
    }

    method Join(servers: map<int, seq<string>>) returns (o: Outcome)
      modifies this
      ensures o == Done <==> CanJoin(old(groups), servers)
      ensures o == Done ==> num == old(num) + 1 && groups == old(groups) + servers
      ensures o != Done ==> num == old(num)
      ensures forall h :: h in old(groups) ==> h in groups && groups[h] == old(groups)[h]
      ensures forall h :: h in groups && h !in old(groups) ==> h in servers && groups[h] == servers[h]
      ensures o == Refused ==> !(servers.Keys !! old(groups).Keys)
      ensures servers == map[] ==> o == Fatal
    {
      var changed, left := false, servers.Keys;
      while left != {}
        invariant left <= servers.Keys && changed == (left != servers.Keys) && num == old(num)
        invariant old(groups).Keys !! servers.Keys - left
        invariant groups.Keys == old(groups).Keys + (servers.Keys - left)
        invariant forall h :: h in old(groups) ==> groups[h] == old(groups)[h]
        invariant forall h :: h in servers && h !in left ==> groups[h] == servers[h]
        invariant NoClash(groups, servers.Keys - left)
      {
        NotEmpty(left);
        var gid :| gid in left;
        if gid in groups {
          return Refused;
        }
        var hit := Collides(groups, servers[gid]);
        if hit {
          var h :| h in groups && Clash(groups[h], servers[gid]);
          ghost var all := old(groups) + servers;
          assert servers.Keys !! old(groups).Keys ==> all[h] == groups[h] && all[gid] == servers[gid];
          return Fatal;
        }
        ClearAdds(groups, servers.Keys - left, gid, servers[gid]);
        groups := groups[gid := servers[gid]];
        changed := true;
        left := left - {gid};
      }
      if !changed {
        return Fatal;
      }
      ghost var all := old(groups) + servers;
      assert groups.Keys == all.Keys;
      assert forall h :: h in all ==> groups[h] == all[h];
      assert groups == all;
      num := num + 1;
      return Done;
    }

    method Leave(gids: seq<int>) returns (o: Outcome)
      modifies this
      ensures o == Done <==> CanLeave(old(groups), gids)
      ensures o == Done ==> num == old(num) + 1 && groups == old(groups) - GroupsIn(gids)
      ensures o == Refused ==> num == old(num)
      ensures o == Refused ==> exists k :: 0 <= k < |gids| && gids[k] !in groups
                                 && groups == old(groups) - GroupsIn(gids[..k])
      ensures o == Fatal <==> gids == []
      ensures o == Fatal ==> num == old(num) && groups == old(groups)
    {
      var changed := false;
      for k := 0 to |gids|
        invariant num == old(num) && changed == (k > 0)
        invariant groups == old(groups) - GroupsIn(gids[..k])
        invariant forall i :: 0 <= i < k ==> gids[i] in old(groups)
        invariant forall i, j :: 0 <= i < j < k ==> gids[i] != gids[j]
      {
        var gid := gids[k];
        if gid !in groups {
          if gid in old(groups) {
            assert gid in gids[..k];
          }
          return Refused;
        }
        assert gids[..k + 1] == gids[..k] + [gid];
        assert forall i :: 0 <= i < k ==> gids[i] in gids[..k];
        groups := groups - {gid};
        changed := true;
      }
      assert gids[..|gids|] == gids;
      if !changed {
        return Fatal;
      }
      num := num + 1;
      return Done;
    }

    method JoinBalance(servers: map<int, seq<string>>) returns (o: Outcome)
      requires Valid()
      modifies this, shards
      ensures Valid() && (o == Done <==> CanJoin(old(groups), servers))
      ensures o == Done ==> View() == Joined(old(View()), servers)
      ensures o != Done ==> num == old(num) && shards[..] == old(shards[..])
    {
      o := Join(servers);
      if o == Done {
        Rebalance();
      }
    }

    method LeaveBalance(gids: seq<int>) returns (o: Outcome)
      requires Valid()
      modifies this, shards
      ensures Valid() && (o == Done <==> CanLeave(old(groups), gids))
      ensures o == Done ==> View() == Left(old(View()), gids)
      ensures o != Done ==> num == old(num) && shards[..] == old(shards[..])
    {
      o := Leave(gids);
      if o == Done {
        Rebalance();
      }
    }
  }

  // A missing key of a Go map reads as zero.
  function Count(counts: map<int, nat>, g: int): nat {
    if g in counts then counts[g] else 0
  }

  lemma SameFirst(s: seq<int>, i: nat, j: nat)
    requires i <= j < |s| && s[i] == s[j] && s[j] !in s[..j]
    ensures i == j
  {
    assert forall k :: 0 <= k < j ==> s[k] in s[..j];
  }

  // The library's sort of the map's keys.
  method SortedKeys(keys: set<int>) returns (order: seq<int>)
    ensures forall i, j :: 0 <= i < j < |order| ==> order[i] < order[j]
    ensures GroupsIn(order) == keys
  {
    var left := keys;
    order := [];
    while left != {}
      invariant left <= keys && GroupsIn(order) == keys - left
      invariant forall i, j :: 0 <= i < j < |order| ==> order[i] < order[j]
      invariant forall i, k :: 0 <= i < |order| && k in left ==> order[i] < k
    {
      ExtremesExist([], left);
      var k :| k in left && forall h :: h in left ==> k <= h;
      assert GroupsIn(order + [k]) == GroupsIn(order) + {k};
      order, left := order + [k], left - {k};
    }
  }

  method SharesServer(a: seq<string>, b: seq<string>) returns (hit: bool)
    ensures hit == Clash(a, b)
  {
    for i := 0 to |a|
      invariant forall k :: 0 <= k < i ==> a[k] !in b
    {
      for j := 0 to |b|
        invariant a[i] !in b[..j]
      {
        if a[i] == b[j] {
          assert a[i] in a && a[i] in b;
          return true;
        }
      }
    }
    return false;
  }

  method Collides(groups: map<int, seq<string>>, servers: seq<string>) returns (hit: bool)
    ensures hit == !ServersClear(groups, servers)
  {
    var left := groups.Keys;
    while left != {}
      invariant left <= groups.Keys
      invariant forall h :: h in groups && h !in left ==> !Clash(groups[h], servers)
    {
      NotEmpty(left);
      var xgid :| xgid in left;
      var shared := SharesServer(groups[xgid], servers);
      if shared { return true; }
      left := left - {xgid};
    }
    return false;
  }

  lemma ClearAdds(groups: map<int, seq<string>>, named: set<int>, gid: int, servers: seq<string>)
    requires named <= groups.Keys && gid !in groups && NoClash(groups, named) && ServersClear(groups, servers)
    ensures NoClash(groups[gid := servers], named + {gid})
  {
    var after := groups[gid := servers];
    forall g, h | g in named + {gid} && h in after && h != g ensures !Clash(after[h], after[g]) {
      assert h in groups ==> !Clash(groups[h], servers);
      assert g in groups ==> !Clash(groups[g], servers);
      assert g in groups && h in groups ==> !Clash(groups[h], groups[g]);
    }
  }

  /// ## Every reachable configuration

  datatype Change = JoinGroups(servers: map<int, seq<string>>) | LeaveGroups(gids: seq<int>)

  ghost predicate Succeeds(c: Config, change: Change) {
    match change
    case JoinGroups(servers) => CanJoin(c.groups, servers)
    case LeaveGroups(gids) => CanLeave(c.groups, gids)
  }

  ghost function After(c: Config, change: Change): Config {
    match change
    case JoinGroups(servers) => Joined(c, servers)
    case LeaveGroups(gids) => Left(c, gids)
  }

  // c comes from MakeShardConfig by these successful JoinBalance and LeaveBalance calls.
  ghost predicate Reached(changes: seq<Change>, c: Config) {
    if changes == [] then c == Config(0, seq(NSHARDS, _ => 0), map[])
    else
      var n := |changes| - 1;
      exists before :: Reached(changes[..n], before) && Succeeds(before, changes[n])
                       && c == After(before, changes[n])
  }

  // Every reachable configuration is balanced, has every shard on a member group (on 0
  // when there is none), counts its changes, and has no server in two groups.
  lemma {:induction false} ReachedIsBalanced(changes: seq<Change>, c: Config)
    requires Reached(changes, c)
    ensures |c.shards| == NSHARDS && c.num == |changes|
    ensures Balanced(c.shards, c.groups.Keys)
    ensures NoClash(c.groups, c.groups.Keys)
  {
    if changes != [] {
      var n := |changes| - 1;
      var before :| Reached(changes[..n], before) && Succeeds(before, changes[n])
                    && c == After(before, changes[n]);
      ReachedIsBalanced(changes[..n], before);
      RebalanceBalances(before.shards, c.groups.Keys);
      forall g, h | g in c.groups && h in c.groups && h != g ensures !Clash(c.groups[h], c.groups[g]) {
        if && g in before.groups && c.groups[g] == before.groups[g]
           && h in before.groups && c.groups[h] == before.groups[h] {
          assert !Clash(before.groups[h], before.groups[g]);
        } else {
          assert changes[n].JoinGroups?;
          assert g in changes[n].servers ==> !Clash(c.groups[h], c.groups[g]);
          assert h in changes[n].servers ==> !Clash(c.groups[g], c.groups[h]);
        }
      }
    }
  }

  // What one more change disturbs: when groups were present before and are after it,
  // a shard that is reassigned goes to a joining group or comes from a departing one,
  // and no balanced assignment to the new groups leaves more shards in place.
  lemma ChangeDisturbsLeast(changes: seq<Change>, c: Config, change: Change)
    requires Reached(changes, c) && c.groups.Keys != {}
    requires Succeeds(c, change) && After(c, change).groups.Keys != {}
    ensures |c.shards| == |After(c, change).shards| == NSHARDS
    ensures forall i: nat :: i < NSHARDS && After(c, change).shards[i] != c.shards[i] ==>
              match change
              case JoinGroups(servers) => After(c, change).shards[i] in servers
              case LeaveGroups(gids) => c.shards[i] in gids
    ensures forall u :: |u| == NSHARDS && Balanced(u, After(c, change).groups.Keys) ==>
              |Kept(c.shards, u)| <= |Kept(c.shards, After(c, change).shards)|
  {
    ReachedIsBalanced(changes, c);
    var after := After(c, change);
    var members := after.groups.Keys;
    forall i: nat | i < NSHARDS && after.shards[i] != c.shards[i]
      ensures match change
              case JoinGroups(servers) => after.shards[i] in servers
              case LeaveGroups(gids) => c.shards[i] in gids
    {
      match change {
        case JoinGroups(servers) => JoinMovesToJoiners(c.shards, c.groups.Keys, members, i);
        case LeaveGroups(gids) => LeaveMovesOrphansOnly(c.shards, c.groups.Keys, members, i);
      }
    }
    forall u | |u| == NSHARDS && Balanced(u, members)
      ensures |Kept(c.shards, u)| <= |Kept(c.shards, after.shards)|
    {
      RebalanceMovesFewest(c.shards, members, u);
    }
  }
}
