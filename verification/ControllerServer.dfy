/** The controller's state machine as it updates its list of configurations. */
module ControllerServer {
  import opened Basics
  import opened Controller
  import opened ControllerRuns

  ghost predicate StrictlyAscending(s: seq<int>) {
    forall i, j :: 0 <= i < j < |s| ==> s[i] < s[j]
  }

  method InsertGid(gids: seq<int>, gid: int) returns (r: seq<int>)
    requires StrictlyAscending(gids) && gid !in gids
    ensures StrictlyAscending(r) && forall g :: g in r <==> g in gids || g == gid
  {
    var i := 0;
    while i < |gids| && gids[i] < gid
      invariant 0 <= i <= |gids|
      invariant forall k :: 0 <= k < i ==> gids[k] < gid
    {
      i := i + 1;
    }
    assert gids == gids[..i] + gids[i..];
    assert forall k :: i <= k < |gids| ==> gids[k] > gid;
    r := gids[..i] + [gid] + gids[i..];
  }

  /** The groups of a table in ascending order, whatever order they are met in. */
  method SortedGids(gidToShards: Table) returns (gids: seq<int>)
    ensures StrictlyAscending(gids) && forall g :: g in gids <==> g in gidToShards
  {
    gids := [];
    var left := gidToShards.Keys;
    while left != {}
      invariant StrictlyAscending(gids)
      invariant left <= gidToShards.Keys
      invariant forall g :: g in gids <==> g in gidToShards.Keys - left
      decreases left
    {
      NonEmpty(left);
      var gid :| gid in left;
      left := left - {gid};
      gids := InsertGid(gids, gid);
    }
  }

  method GidWithMaxShards(gidToShards: Table) returns (maxGid: int)
    requires gidToShards != map[]
    ensures maxGid == MaxOf(gidToShards)
  {
    ghost var m := gidToShards;
    if 0 in gidToShards && |gidToShards[0]| > 0 {
      IsMaxUnique(m, 0, MaxOf(m));
      return 0;
    }
    var gids := SortedGids(gidToShards);
    var maxShards := -1;
    maxGid := -1;
    for i := 0 to |gids|
      invariant i > 0 ==> maxGid in gids[..i] && maxShards == |m[maxGid]|
      invariant i == 0 ==> maxShards == -1
      invariant forall k :: 0 <= k < i ==> |m[gids[k]]| < maxShards || (|m[gids[k]]| == maxShards && maxGid <= gids[k])
    {
      var gid := gids[i];
      if |gidToShards[gid]| > maxShards {
        maxGid, maxShards := gid, |gidToShards[gid]|;
      }
    }
    assert gids != [] by {
      NonEmpty(m.Keys);
      var g :| g in m.Keys;
      assert g in gids;
    }
    assert IsMax(m, maxGid);
    IsMaxUnique(m, maxGid, MaxOf(m));
  }

  method GidWithMinShards(gidToShards: Table) returns (minGid: int)
    requires forall g :: g in gidToShards ==> |gidToShards[g]| <= NSHARDS
    ensures minGid == MinOf(gidToShards)
  {
    ghost var m := gidToShards;
    var gids := SortedGids(gidToShards);
    var minShards := NSHARDS + 1;
    minGid := -1;
    for i := 0 to |gids|
      invariant minShards == NSHARDS + 1 ==> minGid == -1 && forall k :: 0 <= k < i ==> gids[k] == 0
      invariant minShards <= NSHARDS ==> minGid in gids[..i] && minGid != 0 && minShards == |m[minGid]|
      invariant minShards <= NSHARDS + 1
      invariant forall k :: 0 <= k < i && gids[k] != 0 ==>
                              minShards < |m[gids[k]]| || (|m[gids[k]]| == minShards && minGid <= gids[k])
    {
      var gid := gids[i];
      if gid != 0 && |gidToShards[gid]| < minShards {
        minGid, minShards := gid, |gidToShards[gid]|;
      }
    }
    assert IsMin(m, minGid);
    IsMinUnique(m, minGid, MinOf(m));
  }

  method EmptyLists(groups: map<int, seq<string>>) returns (m: Table)
    ensures m == map g | g in groups.Keys :: []
  {
    m := map[];
    var left := groups.Keys;
    while left != {}
      invariant left <= groups.Keys
      invariant m == map g | g in groups.Keys - left :: []
      decreases left
    {
      NonEmpty(left);
      var gid :| gid in left;
      left := left - {gid};
      m := m[gid := []];
    }
  }

  /** Which shards every group has. */
  method GidToShards(groups: map<int, seq<string>>, shards: seq<int>) returns (m: Table)
    ensures m == TableOf(shards, groups.Keys)
  {
    hide TableOf;
    m := EmptyLists(groups);
    EmptyTable(groups.Keys);
    assert shards[..0] == [];
    for shard := 0 to |shards|
      invariant m == TableOf(shards[..shard], groups.Keys)
    {
      var gid := shards[shard];
      var list := if gid in m then m[gid] else [];
      TableGrows(shards, shard, groups.Keys);
      m := m[gid := list + [shard]];
    }
    assert shards[..|shards|] == shards;
  }

  lemma EmptyTable(gs: set<int>)
    ensures TableOf([], gs) == map g | g in gs :: []
  {
  }

  lemma TableGrows(shards: seq<int>, k: nat, gs: set<int>)
    requires k < |shards|
    ensures var m := TableOf(shards[..k], gs);
            var list := if shards[k] in m then m[shards[k]] else [];
            TableOf(shards[..k + 1], gs) == m[shards[k] := list + [k]]
  {
    var m, n := TableOf(shards[..k], gs), TableOf(shards[..k + 1], gs);
    assert shards[..k + 1][..k] == shards[..k];
    assert Owners(shards[..k + 1]) == Owners(shards[..k]) + {shards[k]};
    if shards[k] !in m {
      NotOwner(shards[..k], shards[k]);
    }
  }

  /** The assignment that a table describes. */
  method ToShards(gidToShards: Table) returns (shards: seq<int>)
    requires Spread(gidToShards)
    ensures shards == Assignment(gidToShards)
  {
    ghost var m := gidToShards;
    var newShards := new int[NSHARDS](_ => 0);
    var left := gidToShards.Keys;
    while left != {}
      invariant left <= m.Keys
      invariant forall g, s: nat :: Lists(m, g, s) && g !in left ==> newShards[s] == g
      decreases left
    {
      NonEmpty(left);
      var gid :| gid in left;
      left := left - {gid};
      assert forall s: nat :: s in m[gid] ==> Lists(m, gid, s);
      for i := 0 to |gidToShards[gid]|
        invariant forall g, s: nat :: Lists(m, g, s) && g !in left && g != gid ==> newShards[s] == g
        invariant forall k :: 0 <= k < i ==> m[gid][k] < NSHARDS && newShards[m[gid][k]] == gid
      {
        assert Lists(m, gid, m[gid][i]);
        newShards[gidToShards[gid][i]] := gid;
      }
    }
    shards := newShards[..];
    forall s: nat | s < NSHARDS ensures Lists(m, shards[s], s) {
      assert Lists(m, Assignment(m)[s], s);
    }
    AssignsUnique(m, shards, Assignment(m));
  }

  // ------------------------------------------------------------------

  lemma FilledEnds(m: Table)
    requires m != map[] && Spread(Filled(m))
    ensures HasGroup(Filled(m)) && Filled(m) != map[]
    ensures MaxOf(m) == MaxOf(Filled(m)) && MinOf(m) == MinOf(Filled(m))
    ensures MaxOf(m) in m && MinOf(m) in Filled(m)
    ensures forall g :: g in m ==> |m[g]| <= NSHARDS
    ensures Even(Filled(m)) ==> Filled(m) == m
  {
    var n := Filled(m);
    SomeShard(n);
    if !HasGroup(m) {
      NonEmpty(m.Keys);
      var k :| k in m.Keys;
      assert k in m && k == 0;
      assert -1 in n && 0 in m;
      assert IsMax(n, 0) && IsMax(m, 0);
      IsMaxUnique(m, MaxOf(m), 0);
      IsMaxUnique(n, MaxOf(n), 0);
      assert IsMin(n, -1) && IsMin(m, -1);
      IsMinUnique(m, MinOf(m), -1);
      IsMinUnique(n, MinOf(n), -1);
    }
    forall g | g in m ensures |m[g]| <= NSHARDS {
      CountIsLength(n, Assignment(n), g);
      ShardsAtMost(Owned(Assignment(n), {g}));
    }
  }

  lemma {:induction false} ShardsBelow(s: set<nat>, n: nat)
    requires forall x :: x in s ==> x < n
    ensures |s| <= n
    decreases n
  {
    if n == 0 {
      assert s == {};
    } else {
      ShardsBelow(s - {n - 1}, n - 1);
      assert s <= (s - {n - 1}) + {n - 1};
      assert |s| <= |s - {n - 1}| + 1;
    }
  }

  lemma ShardsAtMost(s: set<nat>)
    requires forall x :: x in s ==> x < NSHARDS
    ensures |s| <= NSHARDS
  {
    ShardsBelow(s, NSHARDS);
  }

  lemma BalanceDone(m: Table)
    requires Spread(m) && HasGroup(m) && m != map[] && Even(m)
    ensures Balance(m) == m
  {
  }

  lemma RebalanceStep(m: Table)
    requires m != map[] && Spread(Filled(m)) && HasGroup(Filled(m)) && Filled(m) != map[] && !Even(Filled(m))
    ensures var n, p, q := Filled(m), MaxOf(m), MinOf(m);
            && p in m && q in n && p != q && |m[p]| > 0
            && var fewest := if q in m then m[q] else [];
               var r := m[q := fewest + [m[p][0]]][p := m[p][1..]];
               && r == MoveOne(n, p, q) && r != map[] && Filled(r) == r && HasGroup(r) && Spread(r)
               && Balance(r) == Balance(n)
               && (Unassigned(r) < Unassigned(n)
                   || (Unassigned(r) == Unassigned(n) && Largest(r) < Largest(n))
                   || (Unassigned(r) == Unassigned(n) && Largest(r) == Largest(n) && AtTop(r) < AtTop(n)))
  {
    hide Spread, SpreadWith, Even, MaxOf, MinOf, IsMax, IsMin, Unassigned, Largest, AtTop;
    FilledEnds(m);
    var n, p, q := Filled(m), MaxOf(m), MinOf(m);
    UnevenFacts(n);
    MoveSpread(n, p, q);
    BalanceShrinks(n);
    var r := MoveOne(n, p, q);
    assert q in r && q != 0;
  }

  /** Moves shards until the groups are even. */
  method Rebalance(gidToShards: Table) returns (m: Table)
    requires gidToShards != map[] && Spread(Filled(gidToShards)) && HasGroup(Filled(gidToShards))
    ensures Spread(m) && m == Balance(Filled(gidToShards))
  {
    m := gidToShards;
    hide Spread, SpreadWith, MaxOf, MinOf, IsMax, IsMin, Unassigned, Largest, AtTop, MoveOne, Balance;
    FilledEnds(m);
    while true
      invariant m != map[] && Spread(Filled(m)) && HasGroup(Filled(m)) && Filled(m) != map[]
      invariant Balance(Filled(m)) == Balance(Filled(gidToShards))
      decreases Unassigned(Filled(m)), Largest(Filled(m)), AtTop(Filled(m))
    {
      FilledEnds(m);
      var maxGid := GidWithMaxShards(m);
      var minGid := GidWithMinShards(m);
      var fewest := if minGid in m then m[minGid] else [];
      if maxGid != 0 && |m[maxGid]| - |fewest| <= 1 {
        BalanceDone(Filled(m));
        break;
      }
      RebalanceStep(m);
      m := m[minGid := fewest + [m[maxGid][0]]];
      m := m[maxGid := m[maxGid][1..]];
    }
  }

  /** Registers the groups that are not registered yet. */
  method AddGroups(groups: map<int, seq<string>>, more: map<int, seq<string>>) returns (all: map<int, seq<string>>)
    ensures all == more + groups
  {
    all := groups;
    var left := more.Keys;
    while left != {}
      invariant left <= more.Keys
      invariant all == (map g | g in more && g !in left :: more[g]) + groups
      decreases left
    {
      NonEmpty(left);
      var gid :| gid in left;
      left := left - {gid};
      if gid !in all {
        all := all[gid := more[gid]];
      }
    }
  }

  /** Removes the leaving groups and collects their shards. */
  method Release(groups: map<int, seq<string>>, gidToShards: Table, gids: seq<int>)
    returns (newGroups: map<int, seq<string>>, m: Table, unassigned: seq<nat>)
    ensures newGroups == Without(groups, gids)
    ensures m == Remaining(gidToShards, gids) && unassigned == Freed(gidToShards, gids)
  {
    newGroups, m, unassigned := groups, gidToShards, [];
    for i := 0 to |gids|
      invariant newGroups == Without(groups, gids[..i])
      invariant m == Remaining(gidToShards, gids[..i])
      invariant unassigned + Freed(m, gids[i..]) == Freed(gidToShards, gids)
    {
      var gid := gids[i];
      assert gids[i..] == [gid] + gids[i + 1..];
      assert gids[..i + 1] == gids[..i] + [gid];
      newGroups := newGroups - {gid};
      if gid in m {
        unassigned := unassigned + m[gid];
        m := m - {gid};
      }
    }
    assert gids[..|gids|] == gids && gids[|gids|..] == [];
  }

  lemma JoinPrepared(c: Config, more: map<int, seq<string>>)
    requires |c.shards| == NSHARDS
    ensures var m := TableOf(c.shards, (more + c.groups).Keys);
            m != map[] && Filled(m) == JoinTable(c, more)
  {
    TableSpread(c.shards, (more + c.groups).Keys);
    SomeShard(TableOf(c.shards, (more + c.groups).Keys));
  }

  class CtrlerStateMachine {
    var configs: seq<Config>
    ghost var requests: seq<Request>   // what has been asked so far

    ghost predicate Valid()
      reads this
    {
      History(configs, requests)
    }

    constructor ()
      ensures Valid() && requests == []
    {
      configs, requests := [Config(0, [0, 0, 0, 0, 0, 0, 0, 0, 0, 0], map[])], [];
    }

    /** A configuration by number, the latest one for a number out of range. */
    method Query(num: int) returns (c: Config)
      requires Valid()
      ensures c == if 0 <= num < |configs| then configs[num] else configs[|configs| - 1]
    {
      if num < 0 || num >= |configs| {
        return configs[|configs| - 1];
      }
      return configs[num];
    }

    method Join(groups: map<int, seq<string>>)
      requires Valid()
      modifies this
      ensures Valid() && requests == old(requests) + [ControllerRuns.Join(groups)]
      ensures |configs| == |old(configs)| + 1 && old(configs) <= configs
    {
      hide History, Spread, SpreadWith, Balance, Assignment, JoinTable, TableOf, Filled, HasGroup;
      HistoryNext(configs, requests, ControllerRuns.Join(groups));
      var num := |configs|;
      var last := configs[num - 1];
      var newGroups := AddGroups(last.groups, groups);
      var gidToShards := GidToShards(newGroups, last.shards);
      JoinPrepared(last, groups);
      gidToShards := Rebalance(gidToShards);
      var newShards := ToShards(gidToShards);
      configs := configs + [Config(num, newShards, newGroups)];
      requests := requests + [ControllerRuns.Join(groups)];
    }

    method Leave(gids: seq<int>)
      requires Valid()
      modifies this
      ensures Valid() && requests == old(requests) + [ControllerRuns.Leave(gids)]
      ensures |configs| == |old(configs)| + 1 && old(configs) <= configs
    {
      hide History, Spread, SpreadWith, Assignment, TableOf, GiveAll, Freed, Remaining;
      HistoryNext(configs, requests, ControllerRuns.Leave(gids));
      var num := |configs|;
      var last := configs[num - 1];
      var newGroups := last.groups;
      var gidToShards := GidToShards(newGroups, last.shards);
      var unassigned;
      newGroups, gidToShards, unassigned := Release(newGroups, gidToShards, gids);
      var newShards := [0, 0, 0, 0, 0, 0, 0, 0, 0, 0];
      if |newGroups| != 0 {
        LeaveSpread(last, gids);
        gidToShards := Redistribute(gidToShards, unassigned);
        newShards := ToShards(gidToShards);
      }
      assert newShards == LeaveConfig(last, gids, num).shards;
      configs := configs + [Config(num, newShards, newGroups)];
      requests := requests + [ControllerRuns.Leave(gids)];
    }

    method Move(shard: nat, gid: int)
      requires Valid() && shard < NSHARDS
      modifies this
      ensures Valid() && requests == old(requests) + [ControllerRuns.Move(shard, gid)]
      ensures |configs| == |old(configs)| + 1 && old(configs) <= configs
    {
      HistoryNext(configs, requests, ControllerRuns.Move(shard, gid));
      var num := |configs|;
      var last := configs[num - 1];
      configs := configs + [Config(num, last.shards[shard := gid], last.groups)];
      requests := requests + [ControllerRuns.Move(shard, gid)];
    }
  }

  /** Servers that have applied the same requests have the same configurations, in whatever order each of
      them goes through its maps. */
  lemma ServersAgree(a: CtrlerStateMachine, b: CtrlerStateMachine)
    requires a.Valid() && b.Valid() && a.requests == b.requests
    ensures a.configs == b.configs
  {
    hide MadeAt;
    forall i | 0 <= i < |a.configs| ensures a.configs[i] == b.configs[i] {
      HistoryDetermined(a.configs, b.configs, a.requests, i);
    }
  }

  /** Gives every free shard to a smallest group. */
  method Redistribute(gidToShards: Table, free: seq<nat>) returns (m: Table)
    requires SpreadWith(gidToShards, free)
    ensures m == GiveAll(gidToShards, free)
  {
    m := gidToShards;
    for i := 0 to |free|
      invariant SpreadWith(m, free[i..])
      invariant GiveAll(m, free[i..]) == GiveAll(gidToShards, free)
    {
      ListsShort(m, free[i..]);
      var minGid := GidWithMinShards(m);
      assert free[i..][1..] == free[i + 1..];
      GiveSpread(m, minGid, free[i..]);
      m := m[minGid := (if minGid in m then m[minGid] else []) + [free[i]]];
    }
    assert free[|free|..] == [];
  }

  lemma ListsShort(m: Table, free: seq<nat>)
    requires SpreadWith(m, free)
    ensures forall g :: g in m ==> |m[g]| <= NSHARDS
  {
    forall g | g in m ensures |m[g]| <= NSHARDS {
      DistinctSize(m[g]);
      forall s | s in Elements(m[g]) ensures s < NSHARDS {
        assert Lists(m, g, s);
      }
      ShardsAtMost(Elements(m[g]));
    }
  }
}
