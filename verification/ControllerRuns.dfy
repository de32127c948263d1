/** What joining moves, and what every history of joins and leaves keeps. */
module ControllerRuns {
  import opened Basics
  import opened Controller

  // ------------------------------------------------------------------
  // Joining moves as little as possible

  /** The shards two assignments place differently. */
  ghost function Moved(a: seq<int>, b: seq<int>): set<nat>
    requires |a| == |b| == NSHARDS
  {
    set s: nat | s < NSHARDS && a[s] != b[s]
  }

  lemma {:induction false} CountsAdd(a: seq<int>, b: seq<int>, gs: set<int>)
    requires |a| == |b| == NSHARDS
    requires forall g :: g in gs ==> Count(a, g) <= Count(b, g)
    ensures |Owned(a, gs)| <= |Owned(b, gs)|
    ensures (exists g :: g in gs && Count(a, g) < Count(b, g)) ==> |Owned(a, gs)| < |Owned(b, gs)|
    decreases gs
  {
    if |gs| == 0 {
      assert Owned(a, gs) == {};
    } else {
      var g := Member(gs);
      CountsAdd(a, b, gs - {g});
      OwnedSplit(a, gs, g);
      OwnedSplit(b, gs, g);
    }
  }

  lemma OwnedSplit(a: seq<int>, gs: set<int>, g: int)
    requires |a| == NSHARDS && g in gs
    ensures |Owned(a, gs)| == |Owned(a, gs - {g})| + Count(a, g)
  {
    assert Owned(a, gs) == Owned(a, gs - {g}) + Owned(a, {g});
  }

  /** Where a table stands between the assignment `was` and its balance: groups of `gave`
      never receive, groups of `got` never give, those that gave are at the top, those that
      received at the bottom. */
  ghost predicate Underway(m: Table, was: seq<int>, gave: set<int>, got: set<int>) {
    && Spread(m) && HasGroup(m) && m != map[] && 0 !in m && gave + got <= m.Keys && gave !! got && |was| == NSHARDS
    && (forall s: nat :: s < NSHARDS ==> was[s] in m && Passed(was[s], Assignment(m)[s], gave, got))
    && (forall g, h :: g in gave && h in m ==> |m[h]| <= |m[g]| + 1)
    && (forall g, h :: g in got && h in m ==> |m[g]| <= |m[h]| + 1)
  }

  /** A shard stays where it was, or goes from a group that gives to one that receives. */
  ghost predicate Passed(was: int, now: int, gave: set<int>, got: set<int>) {
    now == was || (was in gave && now in got)
  }

  lemma MovedOwner(m: Table, p: int, q: int)
    requires Spread(m) && p in m && q in m && p != q && |m[p]| > 0
    ensures Spread(MoveOne(m, p, q))
    ensures m[p][0] < NSHARDS && Assignment(m)[m[p][0]] == p
    ensures Assignment(MoveOne(m, p, q)) == Assignment(m)[m[p][0] := q]
  {
    MoveSpread(m, p, q);
    var n, x := MoveOne(m, p, q), m[p][0];
    assert Lists(m, p, x);
    var b := Assignment(m)[x := q];
    forall s: nat | s < NSHARDS ensures Lists(n, b[s], s) {
      assert Lists(m, Assignment(m)[s], s);
      if s == x {
        assert n[q][|m[q]|] == x;
      } else {
        var g := b[s];
        assert m[p] == [x] + m[p][1..];
        assert s in n[g];
      }
    }
    AssignsUnique(n, b, Assignment(n));
  }

  lemma MovedGrows(was: seq<int>, now: seq<int>, s: nat, q: int)
    requires |was| == |now| == NSHARDS && s < NSHARDS && now[s] == was[s] != q
    ensures Moved(was, now[s := q]) == Moved(was, now) + {s} && s !in Moved(was, now)
  {
  }

  lemma UnderwayKept(m: Table, was: seq<int>, gave: set<int>, got: set<int>)
    requires Underway(m, was, gave, got) && !Even(m)
    ensures var p, q := MaxOf(m), MinOf(m);
            && p in m && q in m && |m[p]| >= |m[q]| + 2 && p !in got && q !in gave && m[p][0] < NSHARDS
            && Underway(MoveOne(m, p, q), was, gave + {p}, got + {q})
            && Assignment(MoveOne(m, p, q)) == Assignment(m)[m[p][0] := q]
            && Assignment(m)[m[p][0]] == was[m[p][0]] == p
  {
    UnevenFacts(m);
    var p, q := MaxOf(m), MinOf(m);
    MoveSpread(m, p, q);
    MovedOwner(m, p, q);
    hide Spread, SpreadWith, Assignment, Even, MaxOf, MinOf;
    assert q !in gave && p !in got;
    assert Passed(was[m[p][0]], Assignment(m)[m[p][0]], gave, got);
    assert HasGroup(MoveOne(m, p, q)) by {
      assert q in MoveOne(m, p, q);
    }
  }

  // ------------------------------------------------------------------
  // While uneven, any fair assignment moves more shards than have been moved

  /** Groups that only gave have lost what was moved from them. */
  lemma Lost(was: seq<int>, now: seq<int>, gave: set<int>, got: set<int>, top: set<int>)
    requires |was| == |now| == NSHARDS && gave <= top && top !! got
    requires forall s: nat :: s < NSHARDS ==> Passed(was[s], now[s], gave, got)
    ensures |Owned(was, top)| == |Owned(now, top)| + |Moved(was, now)|
  {
    assert Owned(was, top) == Owned(now, top) + Moved(was, now);
    assert Owned(now, top) !! Moved(was, now);
  }

  /** What a set of groups loses has moved. */
  lemma LossMoved(was: seq<int>, b: seq<int>, top: set<int>)
    requires |was| == |b| == NSHARDS
    ensures |Owned(was, top)| <= |Owned(b, top)| + |Moved(was, b)|
  {
    SubsetBound(Owned(was, top), Owned(b, top) + Moved(was, b));
  }

  lemma MovedBack(a: seq<int>, b: seq<int>)
    requires |a| == |b| == NSHARDS
    ensures Moved(a, b) == Moved(b, a)
  {
  }

  /** Some groups have fewer shards in `b` than now, and only gave until now. */
  lemma MoreToGive(was: seq<int>, now: seq<int>, b: seq<int>, gave: set<int>, got: set<int>, top: set<int>, p: int)
    requires |was| == |now| == |b| == NSHARDS && gave <= top && top !! got && p in top
    requires forall s: nat :: s < NSHARDS ==> Passed(was[s], now[s], gave, got)
    requires (forall g :: g in top ==> Count(b, g) <= Count(now, g)) && Count(b, p) < Count(now, p)
    ensures |Moved(was, now)| < |Moved(was, b)|
  {
    CountsAdd(b, now, top);
    Lost(was, now, gave, got, top);
    LossMoved(was, b, top);
  }

  lemma MoreToGet(was: seq<int>, now: seq<int>, b: seq<int>, gave: set<int>, got: set<int>, low: set<int>, q: int)
    requires |was| == |now| == |b| == NSHARDS && got <= low && low !! gave && q in low
    requires forall s: nat :: s < NSHARDS ==> Passed(was[s], now[s], gave, got)
    requires (forall g :: g in low ==> Count(now, g) <= Count(b, g)) && Count(now, q) < Count(b, q)
    ensures |Moved(was, now)| < |Moved(was, b)|
  {
    CountsAdd(now, b, low);
    assert forall s: nat :: s < NSHARDS ==> Passed(now[s], was[s], got, gave);
    Lost(now, was, got, gave, low);
    LossMoved(b, was, low);
    MovedBack(was, now);
    MovedBack(was, b);
  }

  lemma Levels(m: Table, was: seq<int>, gave: set<int>, got: set<int>)
    requires Underway(m, was, gave, got)
    ensures Spread(m) && HasGroup(m) && m != map[] && gave + got <= m.Keys && gave !! got && |was| == NSHARDS
    ensures forall s: nat :: s < NSHARDS ==> Passed(was[s], Assignment(m)[s], gave, got)
    ensures var p, q := MaxOf(m), MinOf(m);
            && p in m && q in m && (forall g :: g in gave ==> |m[g]| >= |m[p]| - 1)
            && (forall g :: g in got ==> |m[g]| <= |m[q]| + 1)
            && (forall g :: g in m ==> Count(Assignment(m), g) == |m[g]|)
  {
    forall g | g in m ensures Count(Assignment(m), g) == |m[g]| {
      CountIsLength(m, Assignment(m), g);
    }
    hide Spread, SpreadWith, Assignment, Count;
  }

  lemma FairSized(b: seq<int>, gs: set<int>)
    requires Fair(b, gs)
    ensures |b| == NSHARDS
  {
  }

  lemma FairLevels(b: seq<int>, gs: set<int>, h: int, n: nat)
    requires Fair(b, gs) && h in gs && Count(b, h) >= n + 2
    ensures forall g :: g in gs ==> Count(b, g) > n
  {
    hide Count;
  }

  lemma StillNeeded(m: Table, was: seq<int>, gave: set<int>, got: set<int>, b: seq<int>)
    requires Underway(m, was, gave, got) && !Even(m) && Fair(b, m.Keys)
    ensures |Moved(was, Assignment(m))| < |Moved(was, b)|
  {
    hide Underway, Spread, SpreadWith, Assignment, Even, Count, Owned, Fair, MaxOf, MinOf, IsMax, IsMin, Moved,
         Passed, MoveOne;
    Levels(m, was, gave, got);
    UnderwayKept(m, was, gave, got);
    FairSized(b, m.Keys);
    var p, q, now := MaxOf(m), MinOf(m), Assignment(m);
    if forall g :: g in m ==> Count(b, g) < |m[p]| {
      MoreToGive(was, now, b, gave, got, gave + {p}, p);
    } else {
      var h :| h in m && Count(b, h) >= |m[p]|;
      FairLevels(b, m.Keys, h, |m[q]|);
      MoreToGet(was, now, b, gave, got, got + {q}, q);
    }
  }

  lemma {:induction false} BalanceMoves(m: Table, was: seq<int>, gave: set<int>, got: set<int>, b: seq<int>)
    returns (gave': set<int>, got': set<int>)
    requires Underway(m, was, gave, got) && Fair(b, m.Keys) && |Moved(was, Assignment(m))| <= |Moved(was, b)|
    ensures Underway(Balance(m), was, gave', got') && gave <= gave' && got <= got'
    ensures |Moved(was, Assignment(Balance(m)))| <= |Moved(was, b)|
    decreases Unassigned(m), Largest(m), AtTop(m)
  {
    gave', got' := gave, got;
    if !Even(m) {
      var p, q := MaxOf(m), MinOf(m);
      UnderwayKept(m, was, gave, got);
      StillNeeded(m, was, gave, got, b);
      MovedGrows(was, Assignment(m), m[p][0], q);
      hide Underway, Even, Fair, MaxOf, MinOf, Assignment, Largest, AtTop, Unassigned, Moved, Spread, SpreadWith;
      assert Spread(m) && HasGroup(m) by {
        Levels(m, was, gave, got);
      }
      UnevenFacts(m);
      MoveSpread(m, p, q);
      BalanceShrinks(m);
      gave', got' := BalanceMoves(MoveOne(m, p, q), was, gave + {p}, got + {q}, b);
    }
  }

  // ------------------------------------------------------------------

  /** The table that joining a settled configuration with groups starts from. */
  lemma JoinStart(c: Config, more: map<int, seq<string>>)
    requires Settled(c) && Positive(more) && c.groups != map[]
    ensures var m := JoinTable(c, more);
            m.Keys == (more + c.groups).Keys && 0 !in m && Assigns(m, c.shards) && Assignment(m) == c.shards
  {
    var gs := (more + c.groups).Keys;
    var m := TableOf(c.shards, gs);
    TableSpread(c.shards, gs);
    var g :| g in c.groups;
    assert g in c.groups.Keys && g in gs && g in m && g != 0;
    assert JoinTable(c, more) == m;
    assert Owners(c.shards) <= c.groups.Keys;
    AssignsUnique(m, c.shards, Assignment(m));
  }

  lemma NothingMovedYet(a: seq<int>)
    requires |a| == NSHARDS
    ensures Moved(a, a) == {}
  {
  }

  lemma AllMoved(c: Config, d: seq<int>, b: seq<int>, gs: set<int>)
    requires Settled(c) && c.groups == map[] && |d| == NSHARDS && Fair(b, gs) && gs != {} && 0 !in gs
    ensures |Moved(c.shards, d)| <= |Moved(c.shards, b)|
  {
    assert c.groups.Keys == {};
    SubsetBound(Moved(c.shards, d), Moved(c.shards, b));
  }

  lemma UnmovedUnderway(m: Table, was: seq<int>)
    requires Spread(m) && HasGroup(m) && m != map[] && 0 !in m && Assignment(m) == was
    ensures Underway(m, was, {}, {})
  {
    forall s: nat | s < NSHARDS ensures was[s] in m {
      assert Lists(m, was[s], s);
    }
  }

  /** Joining moves no more shards than any fair assignment would. */
  lemma JoinMovesFewest(c: Config, more: map<int, seq<string>>, num: nat, b: seq<int>)
    requires Settled(c) && Positive(more) && more + c.groups != map[] && Fair(b, (more + c.groups).Keys)
    ensures |JoinConfig(c, more, num).shards| == NSHARDS
    ensures |Moved(c.shards, JoinConfig(c, more, num).shards)| <= |Moved(c.shards, b)|
  {
    hide JoinTable, Balance, Spread, SpreadWith, Assignment, Fair, Underway, Moved;
    var m, d := JoinTable(c, more), JoinConfig(c, more, num);
    if c.groups == map[] {
      assert (more + c.groups).Keys != {};
      AllMoved(c, d.shards, b, (more + c.groups).Keys);
    } else {
      JoinStart(c, more);
      NothingMovedYet(c.shards);
      UnmovedUnderway(m, c.shards);
      var gave, got := BalanceMoves(m, c.shards, {}, {}, b);
    }
  }

  lemma StartLevels(m: Table, shards: seq<int>, owners: set<int>, comers: set<int>)
    requires Spread(m) && Assigns(m, shards) && m.Keys == owners + comers && owners !! comers
    requires WithinOne(shards, owners) && forall s: nat :: s < NSHARDS ==> shards[s] in owners
    ensures forall g, h :: g in owners && h in m ==> |m[h]| <= |m[g]| + 1
    ensures forall g, h :: g in comers && h in m ==> |m[g]| <= |m[h]| + 1
  {
    assert |shards| == NSHARDS;
    hide Spread, SpreadWith, Assigns, Count;
    forall g | g in m ensures Count(shards, g) == |m[g]| {
      CountIsLength(m, shards, g);
    }
    forall g | g in comers ensures |m[g]| == 0 {
      NothingListed(m, shards, g);
    }
  }

  /** Joining a balanced configuration takes shards only from the groups it had, and gives them
      only to the groups that are new. */
  lemma JoinMovesToNew(c: Config, more: map<int, seq<string>>, num: nat, s: nat)
    requires Balanced(c) && Positive(more) && c.groups != map[] && s < NSHARDS
    ensures |JoinConfig(c, more, num).shards| == NSHARDS
    ensures var d := JoinConfig(c, more, num);
            d.shards[s] == c.shards[s] || (d.shards[s] in more && d.shards[s] !in c.groups)
  {
    hide JoinTable, Balance, Spread, SpreadWith, Assignment, Balanced, Underway;
    BalancedSettled(c);
    var m, d := JoinTable(c, more), JoinConfig(c, more, num);
    var was, came := c.groups.Keys, more.Keys - c.groups.Keys;
    JoinStart(c, more);
    StartsUnderway(c, more);
    NothingMovedYet(c.shards);
    JoinFairly(c, more, num);
    var gave, got := BalanceMoves(m, c.shards, was, came, d.shards);
    MovedOneWay(Balance(m), c.shards, gave, got, was, came, s);
  }

  lemma BalancedSettled(c: Config)
    requires Balanced(c)
    ensures Settled(c) && |c.shards| == NSHARDS
  {
  }

  lemma StartsUnderway(c: Config, more: map<int, seq<string>>)
    requires Balanced(c) && Positive(more) && c.groups != map[]
    ensures Underway(JoinTable(c, more), c.shards, c.groups.Keys, more.Keys - c.groups.Keys)
  {
    var m, was, came := JoinTable(c, more), c.groups.Keys, more.Keys - c.groups.Keys;
    hide JoinTable, Spread, SpreadWith, Assignment;
    JoinStart(c, more);
    NonEmpty(c.groups.Keys) by {
      assert c.groups.Keys != {};
    }
    assert (more + c.groups).Keys == was + came;
    StartLevels(m, c.shards, was, came);
    hide WithinOne, Assigns;
  }

  lemma JoinFairly(c: Config, more: map<int, seq<string>>, num: nat)
    requires Settled(c) && Positive(more) && c.groups != map[]
    ensures Fair(JoinConfig(c, more, num).shards, (more + c.groups).Keys)
  {
    hide JoinTable, Balance, Spread, SpreadWith, Assignment;
    JoinBalances(c, more, num);
    assert c.groups.Keys != {};
    NonEmpty(c.groups.Keys);
    var g :| g in c.groups.Keys;
    assert g in more + c.groups;
  }

  lemma MovedOneWay(m: Table, was: seq<int>, gave: set<int>, got: set<int>, owners: set<int>, comers: set<int>, s: nat)
    requires Underway(m, was, gave, got) && owners <= gave && comers <= got && m.Keys == owners + comers && s < NSHARDS
    ensures Assignment(m)[s] == was[s] || Assignment(m)[s] in comers
  {
    hide Spread, SpreadWith, Assignment;
    assert Passed(was[s], Assignment(m)[s], gave, got);
  }

  lemma NothingListed(m: Table, shards: seq<int>, g: int)
    requires Spread(m) && Assigns(m, shards) && g in m && forall s: nat :: s < NSHARDS ==> shards[s] != g
    ensures |m[g]| == 0
  {
    if |m[g]| > 0 {
      Listed(m, shards, g, m[g][0]);
      assert false;
    }
  }

  lemma Listed(m: Table, shards: seq<int>, g: int, s: nat)
    requires Spread(m) && Assigns(m, shards) && g in m && s in m[g]
    ensures s < NSHARDS && shards[s] == g
  {
    assert Lists(m, g, s);
    assert Lists(m, shards[s], s);
  }

  // ------------------------------------------------------------------
  // Histories

  datatype Request =
    | Join(groups: map<int, seq<string>>)
    | Leave(gids: seq<int>)
    | Move(shard: nat, gid: int)

  const FIRST := Config(0, [0, 0, 0, 0, 0, 0, 0, 0, 0, 0], map[])

  /** What a request must be for the array of shards to be indexed within its bounds. */
  predicate InRange(r: Request) {
    r.Move? ==> r.shard < NSHARDS
  }

  ghost function Next(c: Config, r: Request, num: nat): Config
    requires |c.shards| == NSHARDS && InRange(r)
  {
    match r
    case Join(groups) => JoinConfig(c, groups, num)
    case Leave(gids) => LeaveConfig(c, gids, num)
    case Move(shard, gid) => MoveConfig(c, shard, gid, num)
  }

  ghost predicate Made(c: Config, r: Request, d: Config, num: nat) {
    |c.shards| == NSHARDS && InRange(r) && d == Next(c, r, num)
  }

  /** `configs` is what the requests, one after the other, make of configuration 0. */
  ghost predicate History(configs: seq<Config>, requests: seq<Request>) {
    && |configs| == |requests| + 1
    && configs[0] == FIRST
    && forall i: nat :: i < |requests| ==> MadeAt(configs, requests, i)
  }

  ghost predicate MadeAt(configs: seq<Config>, requests: seq<Request>, i: nat) {
    i < |requests| && i + 1 < |configs| && Made(configs[i], requests[i], configs[i + 1], i + 1)
  }

  lemma NextSized(c: Config, r: Request, num: nat)
    requires |c.shards| == NSHARDS && InRange(r)
    ensures |Next(c, r, num).shards| == NSHARDS && Next(c, r, num).num == num
  {
    hide JoinTable, Balance, GiveAll, Spread, SpreadWith;
  }

  lemma {:induction false} HistorySized(configs: seq<Config>, requests: seq<Request>, i: nat)
    requires History(configs, requests) && i <= |requests|
    ensures |configs[i].shards| == NSHARDS && configs[i].num == i
    decreases i
  {
    if i > 0 {
      assert MadeAt(configs, requests, i - 1);
      hide Next;
      NextSized(configs[i - 1], requests[i - 1], i);
    }
  }

  /** The requests determine the configurations. */
  lemma {:induction false} HistoryDetermined(a: seq<Config>, b: seq<Config>, requests: seq<Request>, i: nat)
    requires History(a, requests) && History(b, requests) && i <= |requests|
    ensures a[i] == b[i]
    decreases i
  {
    hide Next;
    if i > 0 {
      HistoryDetermined(a, b, requests, i - 1);
      assert MadeAt(a, requests, i - 1) && MadeAt(b, requests, i - 1);
    }
  }

  lemma HistoryNext(configs: seq<Config>, requests: seq<Request>, r: Request)
    requires History(configs, requests) && InRange(r)
    ensures |configs| > 0 && |configs[|configs| - 1].shards| == NSHARDS
    ensures History(configs + [Next(configs[|configs| - 1], r, |configs|)], requests + [r])
  {
    var n := |requests|;
    hide Next;
    HistorySized(configs, requests, n);
    var d := Next(configs[n], r, n + 1);
    var more, asked := configs + [d], requests + [r];
    forall i: nat | i < |asked| ensures MadeAt(more, asked, i) {
      if i < n {
        assert MadeAt(configs, requests, i);
      } else {
        assert more[i] == configs[n] && more[i + 1] == d && asked[i] == r;
      }
    }
  }

  // ------------------------------------------------------------------
  // Histories of sensible requests

  /** Groups have positive numbers, some group is registered when shards are dealt out, and shards are moved by
      hand only to registered groups. */
  ghost predicate Sensible(c: Config, r: Request) {
    match r
    case Join(groups) => Positive(groups) && groups + c.groups != map[]
    case Leave(gids) => true
    case Move(shard, gid) => shard < NSHARDS && gid in c.groups
  }

  ghost predicate AllSensible(configs: seq<Config>, requests: seq<Request>) {
    forall i :: 0 <= i < |requests| && i < |configs| ==> Sensible(configs[i], requests[i])
  }

  lemma NextFacts(c: Config, r: Request, num: nat)
    requires Settled(c) && InRange(r) && Sensible(c, r)
    ensures var d := Next(c, r, num);
            && Settled(d) && d.num == num
            && (r.Join? ==> Balanced(d))
            && (Balanced(c) && !r.Move? ==> Balanced(d))
  {
    match r
    case Join(groups) =>
      JoinBalances(c, groups, num);
    case Leave(gids) =>
      LeaveSettled(c, gids, num);
      if Balanced(c) {
        LeaveBalanced(c, gids, num);
      }
    case Move(shard, gid) =>
  }

  lemma NextGroups(c: Config, r: Request, num: nat)
    requires |c.shards| == NSHARDS && InRange(r)
    ensures Next(c, r, num).groups
         == match r
            case Join(groups) => groups + c.groups
            case Leave(gids) => Without(c.groups, gids)
            case Move(shard, gid) => c.groups
  {
    hide Balance, Assignment, GiveAll;
  }

  /** No shard has been moved by hand since the latest join before configuration `i`. */
  ghost predicate Undisturbed(requests: seq<Request>, i: nat)
    requires i <= |requests|
    decreases i
  {
    i == 0 || requests[i - 1].Join? || (!requests[i - 1].Move? && Undisturbed(requests, i - 1))
  }

  /** Every configuration of every history of sensible requests is numbered by its position, gives every shard
      to a registered group, or to nobody when none is left, and is balanced unless a shard has been moved by
      hand since the latest join. */
  lemma {:induction false} EveryHistory(configs: seq<Config>, requests: seq<Request>, i: nat)
    requires History(configs, requests) && AllSensible(configs, requests) && i <= |requests|
    ensures configs[i].num == i && Settled(configs[i])
    ensures Undisturbed(requests, i) ==> Balanced(configs[i])
    decreases i
  {
    hide Next, Settled, Balanced, Sensible, AllSensible, MadeAt, InRange;
    if i == 0 {
      FirstBalanced();
    } else {
      EveryHistory(configs, requests, i - 1);
      StepOf(configs, requests, i - 1, i);
      NextFacts(configs[i - 1], requests[i - 1], i);
    }
  }

  lemma FirstBalanced()
    ensures FIRST.num == 0 && Settled(FIRST) && Balanced(FIRST)
  {
  }

  lemma StepOf(configs: seq<Config>, requests: seq<Request>, j: nat, i: nat)
    requires History(configs, requests) && AllSensible(configs, requests) && j < |requests| && i == j + 1
    ensures InRange(requests[j]) && Sensible(configs[j], requests[j]) && |configs[j].shards| == NSHARDS
    ensures configs[i] == Next(configs[j], requests[j], i)
  {
    hide Next, Sensible, InRange;
    assert MadeAt(configs, requests, j);
  }
}
