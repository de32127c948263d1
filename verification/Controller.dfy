/** The shard controller's allocation. A table lists, for every group, its
    shards; `Balance` moves one shard at a time from a largest group to a
    smallest one until no two groups differ by more than one. */
module Controller {
  import opened Basics

  const NSHARDS := 10

  datatype Config = Config(num: nat, shards: seq<int>, groups: map<int, seq<string>>)

  type Table = map<int, seq<nat>>

  // ------------------------------------------------------------------
  // Tables and assignments

  ghost predicate DistinctSeq(l: seq<nat>) {
    forall i, j :: 0 <= i < j < |l| ==> l[i] != l[j]
  }

  ghost predicate Lists(m: Table, g: int, s: nat) {
    g in m && s in m[g]
  }

  ghost predicate Placed(m: Table, free: seq<nat>, s: nat) {
    s in free || exists g :: Lists(m, g, s)
  }

  /** Every shard is once in one place: the list of a group, or `free`. */
  ghost predicate SpreadWith(m: Table, free: seq<nat>) {
    && (forall g :: g in m ==> DistinctSeq(m[g]))
    && DistinctSeq(free)
    && (forall s: nat :: s in free ==> s < NSHARDS)
    && (forall g, s: nat :: Lists(m, g, s) ==> s < NSHARDS && s !in free)
    && (forall g, h, s: nat :: Lists(m, g, s) && Lists(m, h, s) ==> g == h)
    && (forall s: nat :: s < NSHARDS ==> Placed(m, free, s))
  }

  ghost predicate Spread(m: Table) {
    SpreadWith(m, [])
  }

  /** `shards` gives every shard the group whose list it is in. */
  ghost predicate Assigns(m: Table, shards: seq<int>) {
    |shards| == NSHARDS && forall s: nat :: s < NSHARDS ==> Lists(m, shards[s], s)
  }

  ghost function OwnerIn(m: Table, s: nat): (g: int)
    requires Spread(m) && s < NSHARDS
    ensures Lists(m, g, s)
  {
    assert Placed(m, [], s);
    var g :| Lists(m, g, s);
    g
  }

  ghost function Assignment(m: Table): (shards: seq<int>)
    requires Spread(m)
    ensures Assigns(m, shards)
  {
    seq(NSHARDS, s requires 0 <= s < NSHARDS => OwnerIn(m, s))
  }

  lemma AssignsUnique(m: Table, a: seq<int>, b: seq<int>)
    requires Spread(m) && Assigns(m, a) && Assigns(m, b)
    ensures a == b
  {
    forall s: nat | s < NSHARDS ensures a[s] == b[s] {
      assert Lists(m, a[s], s) && Lists(m, b[s], s);
    }
  }

  /** The shards that `shards` gives to a group of `gs`. */
  ghost function Owned(shards: seq<int>, gs: set<int>): set<nat>
    requires |shards| == NSHARDS
  {
    set s: nat | s < NSHARDS && shards[s] in gs
  }

  ghost function Count(shards: seq<int>, g: int): nat
    requires |shards| == NSHARDS
  {
    |Owned(shards, {g})|
  }

  ghost function Elements(l: seq<nat>): set<nat> {
    set i | 0 <= i < |l| :: l[i]
  }

  lemma {:induction false} DistinctSize(l: seq<nat>)
    requires DistinctSeq(l)
    ensures |Elements(l)| == |l|
  {
    if l == [] {
      assert Elements(l) == {};
    } else {
      var k := |l| - 1;
      DistinctSize(l[..k]);
      assert Elements(l) == Elements(l[..k]) + {l[k]};
    }
  }

  lemma CountIsLength(m: Table, shards: seq<int>, g: int)
    requires Spread(m) && Assigns(m, shards) && g in m
    ensures Count(shards, g) == |m[g]|
  {
    DistinctSize(m[g]);
    assert Owned(shards, {g}) == Elements(m[g]) by {
      forall s: nat ensures s in Owned(shards, {g}) <==> s in Elements(m[g]) {
        assert s in Elements(m[g]) <==> Lists(m, g, s);
        if Lists(m, g, s) {
          assert Lists(m, shards[s], s);
        }
      }
    }
  }

  ghost predicate WithinOne(shards: seq<int>, gs: set<int>)
    requires |shards| == NSHARDS
  {
    forall g, h :: g in gs && h in gs ==> Count(shards, g) <= Count(shards, h) + 1
  }

  /** All shards belong to registered groups, or to nobody when there is no group. */
  ghost predicate HaveOwners(shards: seq<int>, gs: set<int>) {
    && |shards| == NSHARDS
    && forall s :: 0 <= s < NSHARDS ==> if gs == {} then shards[s] == 0 else shards[s] in gs
  }

  ghost predicate Fair(shards: seq<int>, gs: set<int>) {
    HaveOwners(shards, gs) && WithinOne(shards, gs)
  }

  ghost predicate Settled(c: Config) {
    HaveOwners(c.shards, c.groups.Keys) && forall g :: g in c.groups ==> g > 0
  }

  ghost predicate Balanced(c: Config) {
    Settled(c) && WithinOne(c.shards, c.groups.Keys)
  }

  // ------------------------------------------------------------------
  // Largest and smallest

  ghost predicate IsMax(m: Table, g: int) {
    if 0 in m && |m[0]| > 0 then g == 0
    else g in m && forall h :: h in m ==> |m[h]| < |m[g]| || (|m[h]| == |m[g]| && g <= h)
  }

  ghost predicate IsMin(m: Table, g: int) {
    if forall h :: h in m ==> h == 0 then g == -1
    else g in m && g != 0 && forall h :: h in m && h != 0 ==> |m[g]| < |m[h]| || (|m[h]| == |m[g]| && g <= h)
  }

  lemma IsMaxUnique(m: Table, g: int, h: int)
    requires IsMax(m, g) && IsMax(m, h)
    ensures g == h
  {
  }

  lemma IsMinUnique(m: Table, g: int, h: int)
    requires IsMin(m, g) && IsMin(m, h)
    ensures g == h
  {
  }

  lemma Member(keys: set<int>) returns (k: int)
    requires |keys| > 0
    ensures k in keys
  {
    NonEmpty(keys);
    k :| k in keys;
  }

  lemma {:induction false} BestExists(m: Table, keys: set<int>, sign: int) returns (g: int)
    requires |keys| > 0 && keys <= m.Keys && (sign == 1 || sign == -1)
    ensures g in keys && forall h :: h in keys ==> sign * |m[h]| < sign * |m[g]| || (|m[h]| == |m[g]| && g <= h)
    decreases keys
  {
    var k := Member(keys);
    g := k;
    var rest := keys - {g};
    if |rest| > 0 {
      var b := BestExists(m, rest, sign);
      if sign * |m[g]| < sign * |m[b]| || (|m[g]| == |m[b]| && b <= g) {
        g := b;
      }
    }
    assert keys == rest + {k};
  }

  lemma MaxExists(m: Table) returns (g: int)
    requires m != map[]
    ensures IsMax(m, g)
  {
    if 0 in m && |m[0]| > 0 {
      g := 0;
    } else {
      g := BestExists(m, m.Keys, 1);
    }
  }

  lemma MinExists(m: Table) returns (g: int)
    ensures IsMin(m, g)
  {
    if forall h :: h in m ==> h == 0 {
      g := -1;
    } else {
      var h :| h in m && h != 0;
      assert h in m.Keys - {0};
      g := BestExists(m, m.Keys - {0}, -1);
    }
  }

  ghost function MaxOf(m: Table): (g: int)
    requires m != map[]
    ensures IsMax(m, g)
  {
    assert exists g :: IsMax(m, g) by {
      var g := MaxExists(m);
    }
    var g :| IsMax(m, g);
    g
  }

  ghost function MinOf(m: Table): (g: int)
    ensures IsMin(m, g)
  {
    assert exists g :: IsMin(m, g) by {
      var g := MinExists(m);
    }
    var g :| IsMin(m, g);
    g
  }

  // ------------------------------------------------------------------
  // Balancing

  /** There is a group to give shards to. */
  ghost predicate HasGroup(m: Table) {
    exists g :: g in m && g != 0
  }

  ghost predicate Even(m: Table)
    requires m != map[]
  {
    var p, q := MaxOf(m), MinOf(m);
    p != 0 && p in m && q in m && |m[p]| <= |m[q]| + 1
  }

  ghost function MoveOne(m: Table, p: int, q: int): Table
    requires p in m && q in m && |m[p]| > 0
  {
    m[q := m[q] + [m[p][0]]][p := m[p][1..]]
  }

  ghost function Unassigned(m: Table): nat {
    if 0 in m then |m[0]| else 0
  }

  ghost function Largest(m: Table): nat
    requires m != map[]
  {
    |m[MaxOf(m)]|
  }

  ghost function AtTop(m: Table): set<int>
    requires m != map[]
  {
    set g | g in m && |m[g]| == Largest(m)
  }

  lemma SomeShard(m: Table)
    requires Spread(m)
    ensures m != map[] && Largest(m) > 0
  {
    assert Placed(m, [], 0);
    var g :| Lists(m, g, 0);
  }

  lemma TakeOneSpread(m: Table, p: int)
    requires Spread(m) && p in m && |m[p]| > 0
    ensures SpreadWith(m[p := m[p][1..]], [m[p][0]])
  {
    var x, rest := m[p][0], m[p][1..];
    var n := m[p := rest];
    assert m[p] == [x] + rest && x !in rest;
    assert Lists(m, p, x);
    forall g, s: nat | Lists(n, g, s) ensures Lists(m, g, s) && s != x {
      if g == p {
        assert s in rest;
      } else {
        assert Lists(m, g, s) && !Lists(m, g, x);
      }
    }
    forall s: nat | s < NSHARDS ensures Placed(n, [x], s) {
      assert Placed(m, [], s);
      var g :| Lists(m, g, s);
      assert s != x ==> Lists(n, g, s);
    }
  }

  lemma GiveOneSpread(m: Table, q: int, free: seq<nat>)
    requires SpreadWith(m, free) && free != [] && q in m
    ensures SpreadWith(m[q := m[q] + [free[0]]], free[1..])
  {
    var x, rest := free[0], free[1..];
    var n := m[q := m[q] + [x]];
    assert free == [x] + rest && x !in rest;
    assert forall s: nat :: s in m[q] ==> Lists(m, q, s);
    assert x in free && x !in m[q] && DistinctSeq(n[q]);
    assert DistinctSeq(rest) && forall s: nat :: s in rest ==> s in free;
    forall g, s: nat | Lists(n, g, s) ensures Lists(m, g, s) || (g == q && s == x) {
    }
    forall s: nat | s < NSHARDS ensures Placed(n, rest, s) {
      assert Placed(m, free, s);
      if s == x {
        assert n[q][|m[q]|] == x;
        assert Lists(n, q, s);
      } else if s !in rest {
        var g :| Lists(m, g, s);
        assert Lists(n, g, s);
      }
    }
  }

  /** A group without shards changes nothing. */
  lemma AddEmpty(m: Table, q: int, free: seq<nat>)
    requires SpreadWith(m, free) && q !in m
    ensures SpreadWith(m[q := []], free)
  {
    var n := m[q := []];
    forall g, s: nat ensures Lists(n, g, s) <==> Lists(m, g, s) {
    }
    forall s: nat | s < NSHARDS ensures Placed(n, free, s) {
      assert Placed(m, free, s);
      if s !in free {
        var g :| Lists(m, g, s);
        assert Lists(n, g, s);
      }
    }
  }

  lemma MoveSpread(m: Table, p: int, q: int)
    requires Spread(m) && p in m && q in m && p != q && |m[p]| > 0
    ensures Spread(MoveOne(m, p, q)) && MoveOne(m, p, q).Keys == m.Keys
  {
    TakeOneSpread(m, p);
    GiveOneSpread(m[p := m[p][1..]], q, [m[p][0]]);
    assert [m[p][0]][1..] == [];
    assert m[p := m[p][1..]][q := m[q] + [m[p][0]]] == MoveOne(m, p, q);
  }

  /** While uneven, the largest group has a shard for the smallest. */
  lemma UnevenFacts(m: Table)
    requires Spread(m) && HasGroup(m) && m != map[] && !Even(m)
    ensures var p, q := MaxOf(m), MinOf(m);
            p in m && q in m && p != q && q != 0 && |m[p]| > 0 && (p == 0 || |m[p]| >= |m[q]| + 2)
  {
    SomeShard(m);
  }

  lemma BalanceShrinks(m: Table)
    requires Spread(m) && HasGroup(m) && m != map[] && !Even(m)
    requires MaxOf(m) in m && MinOf(m) in m && |m[MaxOf(m)]| > 0 && MaxOf(m) != MinOf(m) && MinOf(m) != 0
    requires MaxOf(m) == 0 || |m[MaxOf(m)]| >= |m[MinOf(m)]| + 2
    ensures var n := MoveOne(m, MaxOf(m), MinOf(m));
            && n != map[]
            && (Unassigned(n) < Unassigned(m)
                || (Unassigned(n) == Unassigned(m) && Largest(n) < Largest(m))
                || (Unassigned(n) == Unassigned(m) && Largest(n) == Largest(m) && AtTop(n) < AtTop(m)))
  {
    var p, q := MaxOf(m), MinOf(m);
    var n := MoveOne(m, p, q);
    assert p in n;
    if p != 0 {
      var t := MaxOf(n);
      assert Unassigned(n) == Unassigned(m) == 0;
      assert forall g :: g in n ==> |n[g]| <= |m[p]|;
      assert |n[t]| <= Largest(m);
      if Largest(n) == Largest(m) {
        assert p in AtTop(m) && p !in AtTop(n);
        forall g | g in AtTop(n) ensures g in AtTop(m) {
          assert g != q;
        }
      }
    }
  }

  ghost function Balance(m: Table): (r: Table)
    requires Spread(m) && HasGroup(m) && m != map[]
    ensures Spread(r) && r.Keys == m.Keys && r != map[] && Even(r)
    decreases Unassigned(m), Largest(m), AtTop(m)
  {
    if Even(m) then m
    else
      UnevenFacts(m);
      MoveSpread(m, MaxOf(m), MinOf(m));
      BalanceShrinks(m);
      Balance(MoveOne(m, MaxOf(m), MinOf(m)))
  }

  // ------------------------------------------------------------------
  // Joining

  ghost function ListOf(shards: seq<int>, g: int): (l: seq<nat>)
    ensures forall s: nat :: s in l <==> s < |shards| && shards[s] == g
    ensures DistinctSeq(l)
  {
    if shards == [] then []
    else
      var k := |shards| - 1;
      var l := ListOf(shards[..k], g);
      assert k !in l;
      if shards[k] == g then l + [k] else l
  }

  ghost function Owners(shards: seq<int>): set<int> {
    set s | 0 <= s < |shards| :: shards[s]
  }

  lemma {:induction false} NotOwner(shards: seq<int>, g: int)
    requires g !in Owners(shards)
    ensures ListOf(shards, g) == []
  {
    if shards != [] {
      var k := |shards| - 1;
      assert Owners(shards) == Owners(shards[..k]) + {shards[k]};
      NotOwner(shards[..k], g);
    }
  }

  ghost function TableOf(shards: seq<int>, gs: set<int>): Table {
    map g | g in gs + Owners(shards) :: ListOf(shards, g)
  }

  lemma TableSpread(shards: seq<int>, gs: set<int>)
    requires |shards| == NSHARDS
    ensures Spread(TableOf(shards, gs)) && Assigns(TableOf(shards, gs), shards)
    ensures TableOf(shards, gs).Keys == gs + Owners(shards)
  {
    var m := TableOf(shards, gs);
    forall s: nat | s < NSHARDS ensures Lists(m, shards[s], s) && Placed(m, [], s) {
      var g := shards[s];
      assert g in m && Lists(m, g, s);
    }
  }

  ghost predicate Positive(more: map<int, seq<string>>) {
    forall g :: g in more ==> g > 0
  }

  /** The table the balancing loop works on: when there is no group, the number -1 stands for the one not found. */
  ghost function Filled(m: Table): Table {
    if HasGroup(m) then m else m[-1 := []]
  }

  lemma FilledSpread(m: Table)
    requires Spread(m)
    ensures Spread(Filled(m)) && HasGroup(Filled(m)) && Filled(m) != map[]
  {
    if !HasGroup(m) {
      AddEmpty(m, -1, []);
      assert -1 in Filled(m);
    } else {
      var g :| g in m && g != 0;
    }
  }

  ghost function JoinTable(c: Config, more: map<int, seq<string>>): (m: Table)
    requires |c.shards| == NSHARDS
    ensures Spread(m) && HasGroup(m) && m != map[]
  {
    TableSpread(c.shards, (more + c.groups).Keys);
    FilledSpread(TableOf(c.shards, (more + c.groups).Keys));
    Filled(TableOf(c.shards, (more + c.groups).Keys))
  }

  ghost function JoinConfig(c: Config, more: map<int, seq<string>>, num: nat): Config
    requires |c.shards| == NSHARDS
  {
    Config(num, Assignment(Balance(JoinTable(c, more))), more + c.groups)
  }

  /** Without any group, shards go to the number -1. */
  ghost function Receivers(groups: map<int, seq<string>>): set<int> {
    if groups == map[] then {-1} else groups.Keys
  }

  lemma JoinKeys(c: Config, more: map<int, seq<string>>)
    requires Settled(c) && Positive(more)
    ensures var gs, m := Receivers(more + c.groups), JoinTable(c, more);
            gs <= m.Keys && gs != {} && 0 !in gs && forall g :: g in m ==> g == 0 || g in gs
  {
    var gs := (more + c.groups).Keys;
    var t := TableOf(c.shards, gs);
    TableSpread(c.shards, gs);
    if more + c.groups == map[] {
      assert gs == {} && c.groups.Keys == {};
      assert forall g :: g in t ==> g == 0;
      assert -1 in Filled(t);
    } else {
      var g :| g in more + c.groups;
      assert g in gs && g in t && g != 0;
    }
  }

  /** An even table makes a fair assignment. */
  lemma EvenIsFair(m: Table, shards: seq<int>, gs: set<int>)
    requires Spread(m) && m != map[] && Even(m) && Assigns(m, shards) && gs != {} && gs <= m.Keys && 0 !in gs
    requires forall g :: g in m ==> g == 0 || g in gs
    ensures Fair(shards, gs)
  {
    var p, q := MaxOf(m), MinOf(m);
    forall s: nat | s < NSHARDS ensures shards[s] in gs {
      assert Lists(m, shards[s], s);
    }
    forall g, h | g in gs && h in gs ensures Count(shards, g) <= Count(shards, h) + 1 {
      CountIsLength(m, shards, g);
      CountIsLength(m, shards, h);
      assert |m[g]| <= |m[p]| && |m[q]| <= |m[h]|;
    }
  }

  /** Joining balances any settled configuration, exactly when there is a group to
      give the shards to; with none it leaves them to a group that does not exist. */
  lemma JoinBalances(c: Config, more: map<int, seq<string>>, num: nat)
    requires Settled(c) && Positive(more)
    ensures var d := JoinConfig(c, more, num);
            && (Balanced(d) <==> d.groups != map[])
            && (d.groups == map[] ==> |d.shards| == NSHARDS && forall s :: 0 <= s < NSHARDS ==> d.shards[s] == -1)
  {
    hide Even, Balance, WithinOne, JoinTable;
    JoinKeys(c, more);
    var gs := Receivers(more + c.groups);
    var m := Balance(JoinTable(c, more));
    EvenIsFair(m, Assignment(m), gs);
    var d := JoinConfig(c, more, num);
    hide Spread, SpreadWith, Assignment;
    if d.groups == map[] {
      assert d.groups.Keys == {} && d.shards[0] == -1;
    } else {
      assert d.groups.Keys == gs;
    }
  }

  // ------------------------------------------------------------------
  // Leaving

  ghost function Without(groups: map<int, seq<string>>, gids: seq<int>): map<int, seq<string>> {
    map g | g in groups && g !in gids :: groups[g]
  }

  ghost function Remaining(m: Table, gids: seq<int>): Table {
    map g | g in m && g !in gids :: m[g]
  }

  /** The shards of the leaving groups, group after group; a group named twice has none left the second time. */
  ghost function Freed(m: Table, gids: seq<int>): seq<nat> {
    if gids == [] then []
    else if gids[0] in m then m[gids[0]] + Freed(m - {gids[0]}, gids[1..])
    else Freed(m, gids[1..])
  }

  ghost function Give(m: Table, q: int, x: nat): Table {
    m[q := (if q in m then m[q] else []) + [x]]
  }

  /** Gives the shards of `list` to a smallest group each. */
  ghost function GiveAll(m: Table, list: seq<nat>): Table
    decreases |list|
  {
    if list == [] then m else GiveAll(Give(m, MinOf(m), list[0]), list[1..])
  }

  lemma GiveSpread(m: Table, q: int, free: seq<nat>)
    requires SpreadWith(m, free) && free != []
    ensures SpreadWith(Give(m, q, free[0]), free[1..])
  {
    if q in m {
      GiveOneSpread(m, q, free);
    } else {
      AddEmpty(m, q, free);
      GiveOneSpread(m[q := []], q, free);
      assert m[q := []][q := [] + [free[0]]] == Give(m, q, free[0]);
    }
  }

  lemma {:induction false} GiveAllSpreads(m: Table, free: seq<nat>)
    requires SpreadWith(m, free)
    ensures Spread(GiveAll(m, free))
    decreases |free|
  {
    if free != [] {
      GiveSpread(m, MinOf(m), free);
      GiveAllSpreads(Give(m, MinOf(m), free[0]), free[1..]);
    }
  }

  lemma LeaveSpread(c: Config, gids: seq<int>)
    requires |c.shards| == NSHARDS
    ensures var m := TableOf(c.shards, c.groups.Keys);
            SpreadWith(Remaining(m, gids), Freed(m, gids)) && Spread(GiveAll(Remaining(m, gids), Freed(m, gids)))
  {
    var m := TableOf(c.shards, c.groups.Keys);
    TableSpread(c.shards, c.groups.Keys);
    FreedSpread(m, gids, []);
    assert [] + Freed(m, gids) == Freed(m, gids);
    GiveAllSpreads(Remaining(m, gids), Freed(m, gids));
  }

  ghost function LeaveConfig(c: Config, gids: seq<int>, num: nat): Config
    requires |c.shards| == NSHARDS
  {
    var groups, m := Without(c.groups, gids), TableOf(c.shards, c.groups.Keys);
    if groups == map[] then Config(num, seq(NSHARDS, _ => 0), groups)
    else
      LeaveSpread(c, gids);
      Config(num, Assignment(GiveAll(Remaining(m, gids), Freed(m, gids))), groups)
  }

  ghost predicate NearlyEven(m: Table) {
    forall g, h :: g in m && h in m ==> |m[g]| <= |m[h]| + 1
  }

  lemma {:induction false} GiveAllSpread(m: Table, free: seq<nat>)
    requires SpreadWith(m, free) && HasGroup(m) && 0 !in m
    ensures var r := GiveAll(m, free);
            && Spread(r) && r.Keys == m.Keys && (forall g :: g in m ==> m[g] <= r[g])
            && (NearlyEven(m) ==> NearlyEven(r))
    decreases |free|
  {
    if free != [] {
      var q := MinOf(m);
      var n := Give(m, q, free[0]);
      GiveSpread(m, q, free);
      assert q in m && q in n && q != 0 && n.Keys == m.Keys;
      assert NearlyEven(m) ==> NearlyEven(n);
      GiveAllSpread(n, free[1..]);
    }
  }

  /** All of the table but what is left of it has been freed. */
  lemma {:induction false} FreedSpread(m: Table, gids: seq<int>, free: seq<nat>)
    requires SpreadWith(m, free)
    ensures SpreadWith(Remaining(m, gids), free + Freed(m, gids))
    decreases |gids|
  {
    if gids == [] {
      assert Remaining(m, gids) == m && free + [] == free;
    } else {
      var g, rest := gids[0], gids[1..];
      assert gids == [g] + rest;
      if g in m {
        FreeOne(m, g, free);
        FreedSpread(m - {g}, rest, free + m[g]);
        assert free + m[g] + Freed(m - {g}, rest) == free + Freed(m, gids);
        assert Remaining(m - {g}, rest) == Remaining(m, gids);
      } else {
        FreedSpread(m, rest, free);
        assert Remaining(m, rest) == Remaining(m, gids);
      }
    }
  }

  lemma FreeOne(m: Table, g: int, free: seq<nat>)
    requires SpreadWith(m, free) && g in m
    ensures SpreadWith(m - {g}, free + m[g])
  {
    var more := free + m[g];
    assert forall s: nat :: s in m[g] <==> Lists(m, g, s);
    assert forall s: nat :: s in more <==> s in free || s in m[g];
    forall i, j | 0 <= i < j < |more| ensures more[i] != more[j] {
      assert i < |free| ==> more[i] in free;
      assert j >= |free| ==> more[j] == m[g][j - |free|] && more[j] in m[g];
      assert i >= |free| ==> more[i] == m[g][i - |free|];
    }
    forall s: nat | s < NSHARDS ensures Placed(m - {g}, more, s) {
      assert Placed(m, free, s);
      if s !in more {
        var h :| Lists(m, h, s);
        assert Lists(m - {g}, h, s);
      }
    }
    forall h, s: nat | Lists(m - {g}, h, s) ensures Lists(m, h, s) && !Lists(m, g, s) {
      assert h != g && Lists(m, h, s);
    }
  }

  lemma LeaveTable(c: Config, gids: seq<int>)
    requires Settled(c) && Without(c.groups, gids) != map[]
    ensures var m := TableOf(c.shards, c.groups.Keys);
            var rest, free := Remaining(m, gids), Freed(m, gids);
            && HasGroup(rest) && rest.Keys == Without(c.groups, gids).Keys
            && var r := GiveAll(rest, free);
               && Spread(r) && r.Keys == rest.Keys && (forall g :: g in rest ==> m[g] <= r[g])
               && (Balanced(c) ==> NearlyEven(r))
  {
    var m := TableOf(c.shards, c.groups.Keys);
    TableSpread(c.shards, c.groups.Keys);
    assert c.groups.Keys != {} by {
      var g :| g in Without(c.groups, gids);
      assert g in c.groups;
    }
    assert m.Keys == c.groups.Keys;
    FreedSpread(m, gids, []);
    assert [] + Freed(m, gids) == Freed(m, gids);
    var rest := Remaining(m, gids);
    assert rest.Keys == Without(c.groups, gids).Keys;
    var g :| g in Without(c.groups, gids).Keys;
    assert g in rest && g != 0;
    if Balanced(c) {
      forall x, y | x in rest && y in rest ensures |rest[x]| <= |rest[y]| + 1 {
        CountIsLength(m, c.shards, x);
        CountIsLength(m, c.shards, y);
      }
    }
    GiveAllSpread(rest, Freed(m, gids));
  }

  /** Leaving takes no shard from a group that stays. */
  lemma LeaveSettled(c: Config, gids: seq<int>, num: nat)
    requires Settled(c)
    ensures var d := LeaveConfig(c, gids, num);
            && Settled(d) && d.groups == Without(c.groups, gids)
            && forall s :: 0 <= s < NSHARDS && c.shards[s] in d.groups ==> d.shards[s] == c.shards[s]
  {
    var d, m := LeaveConfig(c, gids, num), TableOf(c.shards, c.groups.Keys);
    var groups := Without(c.groups, gids);
    if groups != map[] {
      LeaveTable(c, gids);
      TableSpread(c.shards, c.groups.Keys);
      var r := GiveAll(Remaining(m, gids), Freed(m, gids));
      assert groups.Keys != {};
      forall s: nat | s < NSHARDS ensures d.shards[s] in groups {
        assert Lists(r, d.shards[s], s);
      }
      forall s: nat | s < NSHARDS && c.shards[s] in d.groups ensures d.shards[s] == c.shards[s] {
        var g := c.shards[s];
        assert Lists(m, g, s) && m[g] <= r[g];
        assert Lists(r, g, s) && Lists(r, d.shards[s], s);
      }
    } else {
      assert groups.Keys == {};
    }
  }

  /** Leaving keeps a balanced configuration balanced. */
  lemma LeaveBalanced(c: Config, gids: seq<int>, num: nat)
    requires Balanced(c)
    ensures Balanced(LeaveConfig(c, gids, num))
  {
    LeaveSettled(c, gids, num);
    var d, m := LeaveConfig(c, gids, num), TableOf(c.shards, c.groups.Keys);
    var groups := Without(c.groups, gids);
    if groups != map[] {
      LeaveTable(c, gids);
      var r := GiveAll(Remaining(m, gids), Freed(m, gids));
      forall g, h | g in groups && h in groups ensures Count(d.shards, g) <= Count(d.shards, h) + 1 {
        CountIsLength(r, d.shards, g);
        CountIsLength(r, d.shards, h);
      }
    }
  }

  ghost function MoveConfig(c: Config, shard: nat, gid: int, num: nat): Config
    requires |c.shards| == NSHARDS && shard < NSHARDS
  {
    Config(num, c.shards[shard := gid], c.groups)
  }
}
