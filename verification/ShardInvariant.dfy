/** Every step of every group keeps the invariant of the sharded store. */
module ShardInvariant {
  import opened ShardState
  import opened ShardWorld

  // ------------------------------------------------------------------
  // Proposals

  lemma ProposeKept(w: World, g: nat, cmd: Command)
    requires WorldInv(w) && g in w.pending && CommandShaped(cmd) && PendingOk(w.core, g, cmd)
    ensures WorldInv(Propose(w, g, cmd))
  {
    hide Shaped, NoReturn, PastOk, ShardOk, PendingOk, CommandShaped, Sized;
  }

  lemma FetchOk(w: World, g: nat, p: Group)
    requires WorldInv(w) && Can(w, FetchConfig(g, p))
    ensures ChangeOk(w.core, g, Config(p.cur.num + 1, w.core.configs[p.cur.num + 1]))
  {
    assert PastOk(w.core, g, p);
    var k := w.core;
    if Cur(k, g) == p.cur.num {
      forall s | 0 <= s < NSHARDS ensures k.now[g].shards[s].status == Normal {
        assert PastShard(k, p, s);
      }
    }
  }

  lemma PulledShard(w: World, from: nat, q: Group, c: nat, s: nat)
    requires WorldInv(w) && from in w.past && q in w.past[from] && q.cur.num >= c
    requires Moving(w.core.configs, c, s) && w.core.configs[c - 1][s] == from
    ensures Reached(w.core, s, c) || Holds(q, w.core.log, s)
  {
    hide WorldInv, ShardOk, Local, TableCovers, Content, Covers;
    PastOf(w, from, q, s);
  }

  lemma PastOf(w: World, g: nat, p: Group, s: nat)
    requires WorldInv(w) && g in w.past && p in w.past[g] && s < NSHARDS
    ensures Shaped(w.core) && g in w.core.now && Local(w.core.configs, p) && p.gid == g
    ensures p.cur.num <= w.core.now[g].cur.num && LocalShard(w.core.configs, p, s) && PastShard(w.core, p, s)
  {
    assert PastOk(w.core, g, p);
    hide ShardOk, PendingOk, PastShard, LocalShard, Uniform, TableCovers;
  }

  lemma PullOk(w: World, g: nat, p: Group, from: nat, q: Group, ids: seq<nat>)
    requires WorldInv(w) && Can(w, Pull(g, p, from, q, ids))
    ensures var r := GetShardsData(q, ShardArgs(p.cur.num, ids));
            DataShaped(r.data) && MigrationOk(w.core, g, r, from)
  {
    var k, r, c := w.core, GetShardsData(q, ShardArgs(p.cur.num, ids)), p.cur.num;
    assert PastOk(k, g, p) && PastOk(k, from, q);
    LocalPlaced(k.configs, p);
    BatchIsPairs(k.configs, p, MoveIn, from, ids);
    assert r.data.Keys == Ids(ids);
    forall s | s in r.data ensures Carried(k, r, s) {
      PulledShard(w, from, q, c, s);
    }
  }

  lemma DeleteOk(w: World, g: nat, p: Group, from: nat, ids: seq<nat>, to: nat)
    requires WorldInv(w) && g in w.past && p in w.past[g] && Batch(p, GC, from, ids) && (to == g || to == from)
    ensures CleanOk(w.core, to, ShardArgs(p.cur.num, ids), from, g)
  {
    var k, c := w.core, p.cur.num;
    assert PastOk(k, g, p);
    LocalPlaced(k.configs, p);
    BatchIsPairs(k.configs, p, GC, from, ids);
    forall s: nat | s < NSHARDS && s in Ids(ids) ensures Reached(k, s, c) {
      assert PastShard(k, p, s);
      assert s in ByStatus(p, GC, from);
    }
  }

  lemma ProposalKept(w: World, act: Action)
    requires WorldInv(w) && Can(w, act) && !act.Commit?
    ensures WorldInv(After(w, act))
  {
    hide WorldInv, PendingOk, CommandShaped, Can, Proposal;
    InvShape(w);
    ProposalOk(w, act);
    ProposeKept(w, Proposal(w, act).0, Proposal(w, act).1);
  }

  lemma ProposalOk(w: World, act: Action)
    requires WorldInv(w) && WorldShaped(w) && Can(w, act) && !act.Commit?
    ensures var to, cmd := Proposal(w, act).0, Proposal(w, act).1;
            to in w.core.now && to in w.pending && CommandShaped(cmd) && PendingOk(w.core, to, cmd)
  {
    hide WorldInv, MigrationOk, CleanOk, ChangeOk;
    match act
    case Submit(_, _, _) =>
    case FetchConfig(g, p) => FetchOk(w, g, p);
    case Pull(g, p, from, q, ids) => PullOk(w, g, p, from, q, ids);
    case AskDelete(g, p, from, q, ids) => DeleteOk(w, g, p, from, ids, from);
    case FinishGC(g, p, from, q, ids) => DeleteOk(w, g, p, from, ids, g);
  }

  // ------------------------------------------------------------------
  // A group moves on

  /** What one committed command may do to a group, as the others see it. */
  ghost predicate Advances(k: Core, g: nat, h: Group)
    requires Shaped(k) && g in k.now
  {
    var o := k.now[g];
    && Sized(h) && Local(k.configs, h) && h.gid == g
    && o.cur.num <= h.cur.num && TableCovers(h.dup, o.dup)
    && (o.cur.num == h.cur.num ==> forall s: nat :: s < NSHARDS && o.shards[s].status == Normal ==>
        h.shards[s].status == Normal)
    && (o.cur.num == h.cur.num ==> forall s: nat :: s < NSHARDS && h.shards[s].status == MoveIn ==>
        o.shards[s].status == MoveIn)
  }

  lemma ShapedKept(k: Core, g: nat, h: Group, log: seq<Op>)
    requires Shaped(k) && g in k.now && Sized(h)
    ensures Shaped(CoreMoved(k, g, h, log))
  {
  }

  lemma ReachedKept(k: Core, g: nat, h: Group, log: seq<Op>, s: nat, c: nat)
    requires Shaped(k) && g in k.now && Advances(k, g, h) && s < NSHARDS && Reached(k, s, c)
    ensures Shaped(CoreMoved(k, g, h, log)) && Reached(CoreMoved(k, g, h, log), s, c)
  {
    ShapedKept(k, g, h, log);
    hide Local, TableCovers;
  }

  lemma TableTrans(a: DupTable, b: DupTable, c: DupTable)
    requires TableCovers(a, b) && TableCovers(b, c)
    ensures TableCovers(a, c)
  {
  }

  /** For shard `s`, the writes seen are the same, or nothing waits to be taken over. */
  ghost predicate Settled(k: Core, log: seq<Op>, s: nat)
    requires Shaped(k) && s < NSHARDS
  {
    || (Content(log, s) == Content(k.log, s) && forall dup :: Covers(dup, k.log, s) ==> Covers(dup, log, s))
    || (forall c: nat :: Moving(k.configs, c, s) && Cur(k, k.configs[c - 1][s]) >= c ==> Reached(k, s, c))
  }

  lemma HandedOverKept(k: Core, g: nat, h: Group, log: seq<Op>, p: Group, s: nat)
    requires Shaped(k) && g in k.now && Advances(k, g, h) && s < NSHARDS && HandedOver(k, p, s)
    ensures Shaped(CoreMoved(k, g, h, log)) && HandedOver(CoreMoved(k, g, h, log), p, s)
  {
    ShapedKept(k, g, h, log);
    var k' := CoreMoved(k, g, h, log);
    forall d: nat | d < p.cur.num && Moving(k'.configs, d, s) && k'.configs[d - 1][s] == p.gid
        ensures Reached(k', s, d) {
      hide Advances;
      ReachedKept(k, g, h, log, s, d);
    }
  }

  lemma PastShardKept(k: Core, g: nat, h: Group, log: seq<Op>, p: Group, s: nat)
    requires Shaped(k) && g in k.now && Advances(k, g, h) && s < NSHARDS && Settled(k, log, s)
    requires Local(k.configs, p) && p.gid in k.now && PastShard(k, p, s) && p.cur.num <= Cur(k, p.gid)
    ensures Shaped(CoreMoved(k, g, h, log)) && PastShard(CoreMoved(k, g, h, log), p, s)
  {
    ShapedKept(k, g, h, log);
    HandedOverKept(k, g, h, log, p, s);
    var c := p.cur.num;
    assert LocalShard(k.configs, p, s);
    hide HandedOver, Local, TableCovers;
    if Reached(k, s, c) {
      ReachedKept(k, g, h, log, s, c);
    }
    hide Reached;
  }

  lemma PastKept(k: Core, g: nat, h: Group, log: seq<Op>, x: nat, p: Group)
    requires Shaped(k) && g in k.now && Advances(k, g, h) && x in k.now && PastOk(k, x, p)
    requires forall s: nat :: s < NSHARDS ==> Settled(k, log, s)
    ensures Shaped(CoreMoved(k, g, h, log)) && PastOk(CoreMoved(k, g, h, log), x, p)
  {
    ShapedKept(k, g, h, log);
    var k' := CoreMoved(k, g, h, log);
    hide PastShard, Settled, Local;
    forall s: nat | s < NSHARDS ensures PastShard(k', p, s) {
      PastShardKept(k, g, h, log, p, s);
    }
    if x == g {
      TableTrans(h.dup, k.now[g].dup, p.dup);
    }
  }

  lemma CarriedKept(k: Core, g: nat, h: Group, log: seq<Op>, x: nat, r: ShardReply, from: nat, s: nat)
    requires Shaped(k) && g in k.now && Advances(k, g, h) && DataShaped(r.data) && s in r.data && Settled(k, log, s)
    requires MigrationOk(k, x, r, from)
    ensures Shaped(CoreMoved(k, g, h, log)) && Carried(CoreMoved(k, g, h, log), r, s)
  {
    ShapedKept(k, g, h, log);
    assert Carried(k, r, s);
    assert s in Pairs(k.configs, r.configNum, from, x);
    hide Advances;
    if Reached(k, s, r.configNum) {
      ReachedKept(k, g, h, log, s, r.configNum);
    } else {
      assert Moving(k.configs, r.configNum, s);
      hide Reached;
    }
  }

  lemma MigrationKept(k: Core, g: nat, h: Group, log: seq<Op>, x: nat, r: ShardReply)
    requires Shaped(k) && g in k.now && Advances(k, g, h) && DataShaped(r.data) && MigrationPending(k, x, r)
    requires forall s: nat :: s < NSHARDS ==> Settled(k, log, s)
    ensures Shaped(CoreMoved(k, g, h, log)) && MigrationPending(CoreMoved(k, g, h, log), x, r)
  {
    ShapedKept(k, g, h, log);
    var k' := CoreMoved(k, g, h, log);
    var from: nat :| MigrationOk(k, x, r, from);
    forall s | s in r.data ensures Carried(k', r, s) {
      hide Advances, Carried, Settled, MigrationOk;
      CarriedKept(k, g, h, log, x, r, from, s);
    }
    assert Cur(k', from) >= Cur(k, from) && Cur(k', x) >= Cur(k, x);
    hide Carried, Settled, Advances;
    assert MigrationOk(k', x, r, from);
  }

  lemma CleanKept(k: Core, g: nat, h: Group, log: seq<Op>, x: nat, a: ShardArgs)
    requires Shaped(k) && g in k.now && Advances(k, g, h) && CleanPending(k, x, a)
    ensures Shaped(CoreMoved(k, g, h, log)) && CleanPending(CoreMoved(k, g, h, log), x, a)
  {
    ShapedKept(k, g, h, log);
    var k' := CoreMoved(k, g, h, log);
    var from: nat, to: nat :| CleanOk(k, x, a, from, to);
    forall s: nat | s < NSHARDS && s in Ids(a.ids) ensures Reached(k', s, a.configNum) {
      hide Advances;
      ReachedKept(k, g, h, log, s, a.configNum);
    }
    hide Advances, Reached;
    assert CleanOk(k', x, a, from, to);
  }

  lemma ChangeKept(k: Core, g: nat, h: Group, log: seq<Op>, x: nat, config: Config)
    requires Shaped(k) && g in k.now && Advances(k, g, h) && x in k.now && ChangeOk(k, x, config)
    ensures Shaped(CoreMoved(k, g, h, log)) && ChangeOk(CoreMoved(k, g, h, log), x, config)
  {
    ShapedKept(k, g, h, log);
    hide Local, TableCovers;
  }

  lemma PendingKept(k: Core, g: nat, h: Group, log: seq<Op>, x: nat, cmd: Command)
    requires Shaped(k) && g in k.now && Advances(k, g, h) && x in k.now && CommandShaped(cmd) && PendingOk(k, x, cmd)
    requires forall s: nat :: s < NSHARDS ==> Settled(k, log, s)
    ensures Shaped(CoreMoved(k, g, h, log)) && PendingOk(CoreMoved(k, g, h, log), x, cmd)
  {
    hide Advances, Settled, MigrationPending, CleanPending, ChangeOk, Shaped;
    match cmd
    case ClientOp(_) => assert Sized(h) by { AdvancesSized(k, g, h); } ShapedKept(k, g, h, log);
    case ConfigChange(config) => ChangeKept(k, g, h, log, x, config);
    case ShardMigration(r) => MigrationKept(k, g, h, log, x, r);
    case ShardGC(a) => CleanKept(k, g, h, log, x, a);
  }

  lemma AdvancesSized(k: Core, g: nat, h: Group)
    requires Shaped(k) && g in k.now && Advances(k, g, h)
    ensures Sized(h)
  {
  }

  /** What is left to show of a committed command: the group's new state, and each shard. */
  ghost predicate MoveOk(k: Core, g: nat, h: Group, log: seq<Op>)
    requires Shaped(k) && g in k.now
  {
    && Advances(k, g, h)
    && (forall s: nat :: s < NSHARDS ==> Settled(k, log, s))
    && var k' := CoreMoved(k, g, h, log);
       Shaped(k') && (forall s: nat :: s < NSHARDS ==> PastShard(k', h, s) && ShardOk(k', s))
  }

  lemma TableSame(a: DupTable)
    ensures TableCovers(a, a)
  {
  }

  lemma MovePast(w: World, g: nat, h: Group, log: seq<Op>, x: nat, p: Group)
    requires WorldInv(w) && g in w.core.now && MoveOk(w.core, g, h, log)
    requires x in w.past && (p in w.past[x] || (x == g && p == h))
    ensures PastOk(CoreMoved(w.core, g, h, log), x, p)
  {
    if x == g && p == h {
      TableSame(h.dup);
      hide PastShard, ShardOk, Settled, WorldInv, Local;
    } else {
      assert PastOk(w.core, x, p);
      hide PastOk, ShardOk, Settled, Advances, PastShard;
      PastKept(w.core, g, h, log, x, p);
    }
  }

  lemma MovePending(w: World, g: nat, h: Group, log: seq<Op>, x: nat, cmd: Command)
    requires WorldInv(w) && g in w.core.now && MoveOk(w.core, g, h, log) && x in w.pending && cmd in w.pending[x]
    ensures CommandShaped(cmd) && PendingOk(CoreMoved(w.core, g, h, log), x, cmd)
  {
    assert PendingOk(w.core, x, cmd);
    hide Advances, Settled, PastOk, PastShard, ShardOk, PendingOk;
    PendingKept(w.core, g, h, log, x, cmd);
  }

  lemma MoveShaped(w: World, g: nat, h: Group, log: seq<Op>)
    requires WorldInv(w) && g in w.core.now && MoveOk(w.core, g, h, log)
    ensures var w' := Moved(w, g, h, log);
            && WorldShaped(w') && NoReturn(w'.core.configs) && w'.pending == w.pending && w'.past.Keys == w.past.Keys
            && (forall x :: x in w'.core.now ==> w'.core.now[x] in w'.past[x])
            && (forall s: nat :: s < NSHARDS ==> ShardOk(w'.core, s))
            && (forall x, p :: x in w'.past && p in w'.past[x] ==> p in w.past[x] || (x == g && p == h))
  {
    hide WorldInv, MoveOk, ShardOk, NoReturn, CommandShaped, Sized, ConfigsOk;
    InvShape(w);
    MoveFacts(w.core, g, h, log);
    StillShaped(w, g, h, log);
  }

  lemma InvShape(w: World)
    requires WorldInv(w)
    ensures WorldShaped(w) && NoReturn(w.core.configs) && w.past.Keys == w.core.now.Keys
    ensures forall g :: g in w.core.now ==> w.core.now[g] in w.past[g]
  {
    hide PastOk, ShardOk, PendingOk, NoReturn, Shaped;
  }

  lemma MoveFacts(k: Core, g: nat, h: Group, log: seq<Op>)
    requires Shaped(k) && g in k.now && MoveOk(k, g, h, log)
    ensures var k' := CoreMoved(k, g, h, log);
            Sized(h) && Shaped(k') && forall s: nat :: s < NSHARDS ==> ShardOk(k', s)
  {
    AdvancesSized(k, g, h);
    hide Advances, Settled, PastShard, ShardOk, Sized;
  }

  lemma StillShaped(w: World, g: nat, h: Group, log: seq<Op>)
    requires WorldShaped(w) && g in w.core.now && Sized(h) && Shaped(CoreMoved(w.core, g, h, log))
    ensures WorldShaped(Moved(w, g, h, log))
  {
    hide Shaped, CommandShaped, Sized;
  }

  lemma MoveKept(w: World, g: nat, h: Group, log: seq<Op>)
    requires WorldInv(w) && g in w.core.now && MoveOk(w.core, g, h, log)
    ensures WorldInv(Moved(w, g, h, log))
  {
    hide MoveOk, PastOk, ShardOk, PendingOk, NoReturn, Shaped, CommandShaped, Sized;
    var w' := Moved(w, g, h, log);
    MoveShaped(w, g, h, log);
    InvShape(w);
    forall x, p | x in w'.past && p in w'.past[x] ensures PastOk(w'.core, x, p) {
      MovePast(w, g, h, log, x, p);
    }
    forall x, cmd | x in w'.pending && cmd in w'.pending[x] ensures PendingOk(w'.core, x, cmd) {
      MovePending(w, g, h, log, x, cmd);
    }
  }

  lemma SameSettled(k: Core, s: nat)
    requires Shaped(k) && s < NSHARDS
    ensures Settled(k, k.log, s)
  {
  }

  lemma NowFacts(w: World, g: nat)
    requires WorldInv(w) && g in w.core.now
    ensures PastOk(w.core, g, w.core.now[g]) && Local(w.core.configs, w.core.now[g]) && w.core.now[g].gid == g
  {
  }

  lemma NowShard(w: World, g: nat, s: nat)
    requires WorldInv(w) && g in w.core.now && s < NSHARDS
    ensures w.core.now[g].gid == g && Local(w.core.configs, w.core.now[g])
    ensures LocalShard(w.core.configs, w.core.now[g], s)
    ensures PastShard(w.core, w.core.now[g], s) && ShardOk(w.core, s)
  {
    NowFacts(w, g);
  }

  lemma TouchedKept(k: Core, g: nat, h: Group, s: nat)
    requires Shaped(k) && g in k.now && Advances(k, g, h) && s < NSHARDS && TouchedReached(k, s)
    ensures Shaped(CoreMoved(k, g, h, k.log)) && TouchedReached(CoreMoved(k, g, h, k.log), s)
  {
    AdvancesSized(k, g, h);
    ShapedKept(k, g, h, k.log);
    if Touched(k.log, s) {
      var c: nat :| Reached(k, s, c);
      ReachedKept(k, g, h, k.log, s, c);
    }
  }

  /** Of the groups only `g` has changed. */
  lemma OthersHold(k: Core, g: nat, h: Group, s: nat)
    requires Shaped(k) && g in k.now && Sized(h) && s < NSHARDS && ServersHold(k, s)
    requires Serves(h, s) ==> Holds(h, k.log, s)
    ensures Shaped(CoreMoved(k, g, h, k.log)) && ServersHold(CoreMoved(k, g, h, k.log), s)
  {
    ShapedKept(k, g, h, k.log);
    hide Holds;
  }

  /** A configuration newly reached is `g`'s own, and the owner before it has come as far. */
  lemma InTurnKept(k: Core, g: nat, h: Group, s: nat)
    requires Shaped(k) && g in k.now && Advances(k, g, h) && s < NSHARDS && InTurn(k, s)
    requires forall c: nat :: 0 < c < |k.configs| && k.configs[c][s] == g && !Reached(k, s, c)
                              && (h.cur.num > c || (h.cur.num == c && h.shards[s].status != MoveIn)) ==>
               k.configs[c - 1][s] == 0 || k.configs[c - 1][s] == g || Cur(k, k.configs[c - 1][s]) >= c
    ensures Shaped(CoreMoved(k, g, h, k.log)) && InTurn(CoreMoved(k, g, h, k.log), s)
  {
    AdvancesSized(k, g, h);
    ShapedKept(k, g, h, k.log);
    var k' := CoreMoved(k, g, h, k.log);
    assert k.now[g].cur.num <= h.cur.num;
    hide Advances, Local;
    forall c: nat | 0 < c && Reached(k', s, c) && k'.configs[c - 1][s] != 0 ensures Cur(k', k'.configs[c - 1][s]) >= c {
      var x := k.configs[c - 1][s];
      assert Cur(k', x) >= Cur(k, x);
      if !Reached(k, s, c) {
        assert k.configs[c][s] == g && c < |k.configs|;
      }
    }
  }

  // ------------------------------------------------------------------
  // A new configuration

  lemma ChangedShard(k: Core, g: nat, config: Config, s: nat)
    requires Shaped(k) && NoReturn(k.configs) && g in k.now && s < NSHARDS && |config.shards| == NSHARDS
    requires Local(k.configs, k.now[g]) && k.now[g].gid == g && ChangeOk(k, g, config)
    requires config.num == k.now[g].cur.num + 1
    ensures LocalShard(k.configs, ApplyNewConfig(k.now[g], config), s)
  {
    var o, c := k.now[g], config.num;
    assert LocalShard(k.configs, o, s);
    assert Assigned(k.configs, c - 1, s) ==> Assigned(k.configs, c, s);
  }

  lemma ChangedUniform(k: Core, g: nat, config: Config)
    requires Shaped(k) && g in k.now && |config.shards| == NSHARDS
    requires Local(k.configs, k.now[g]) && ChangeOk(k, g, config) && config.num == k.now[g].cur.num + 1
    ensures Uniform(k.configs, ApplyNewConfig(k.now[g], config))
  {
    hide Local;
    assert k.now[g].cur.shards == k.configs[config.num - 1] by { CurConfig(k.configs, k.now[g]); }
  }

  lemma CurConfig(cs: seq<seq<nat>>, g: Group)
    requires ConfigsOk(cs) && Local(cs, g)
    ensures g.cur.num < |cs| && g.cur.shards == cs[g.cur.num]
  {
  }

  lemma ChangeAdvances(k: Core, g: nat, config: Config)
    requires Shaped(k) && NoReturn(k.configs) && g in k.now && |config.shards| == NSHARDS
    requires Local(k.configs, k.now[g]) && k.now[g].gid == g && ChangeOk(k, g, config)
    requires config.num == k.now[g].cur.num + 1
    ensures Advances(k, g, ApplyNewConfig(k.now[g], config))
  {
    var h := ApplyNewConfig(k.now[g], config);
    CurConfig(k.configs, k.now[g]);
    TableSame(h.dup);
    ChangedUniform(k, g, config);
    forall s: nat | s < NSHARDS ensures LocalShard(k.configs, h, s) {
      ChangedShard(k, g, config, s);
    }
    hide LocalShard, Uniform, TableCovers;
  }

  /** A shard assigned for the first time has not been written. */
  lemma FreshShard(k: Core, g: nat, s: nat, c: nat)
    requires Shaped(k) && NoReturn(k.configs) && s < NSHARDS && InTurn(k, s) && TouchedReached(k, s)
    requires 0 < c < |k.configs| && k.configs[c - 1][s] == 0 && k.configs[c][s] == g && g in k.now
    requires k.now[g].cur.num < c
    ensures !Touched(k.log, s)
  {
    if Touched(k.log, s) {
      var d: nat :| Reached(k, s, d);
      assert Assigned(k.configs, d, s) && Assigned(k.configs, c, s) && !Assigned(k.configs, c - 1, s);
      if d < c {
        AssignedOn(k.configs, s, d, c - 1);
      } else if c < d {
        TurnsOver(k, s, c, d);
      }
    }
  }

  /** Once the shard is back to normal, all that the group ever gave away of it has been taken over. */
  lemma GivenAway(w: World, g: nat, s: nat)
    requires WorldInv(w) && g in w.core.now && s < NSHARDS && w.core.now[g].shards[s].status == Normal
    ensures forall d: nat ::
              (d <= w.core.now[g].cur.num && Moving(w.core.configs, d, s) && w.core.configs[d - 1][s] == g) ==>
              Reached(w.core, s, d)
  {
    NowShard(w, g, s);
    hide WorldInv, Local, ShardOk, LocalShard, Holds, Reached;
  }

  lemma HandedOverNext(k: Core, g: nat, h: Group, s: nat)
    requires Shaped(k) && g in k.now && Advances(k, g, h) && s < NSHARDS && h.cur.num == k.now[g].cur.num + 1
    requires forall d: nat :: d <= k.now[g].cur.num && Moving(k.configs, d, s) && k.configs[d - 1][s] == g ==>
        Reached(k, s, d)
    ensures Shaped(CoreMoved(k, g, h, k.log)) && HandedOver(CoreMoved(k, g, h, k.log), h, s)
  {
    AdvancesSized(k, g, h);
    ShapedKept(k, g, h, k.log);
    assert h.gid == g;
    forall d: nat | d < h.cur.num && Moving(k.configs, d, s) && k.configs[d - 1][s] == g
      ensures Reached(CoreMoved(k, g, h, k.log), s, d)
    {
      hide Advances;
      ReachedKept(k, g, h, k.log, s, d);
    }
  }

  lemma ChangedMoveOut(w: World, g: nat, config: Config, s: nat)
    requires WorldInv(w) && g in w.core.now && |config.shards| == NSHARDS && s < NSHARDS
    requires ChangeOk(w.core, g, config) && config.num == w.core.now[g].cur.num + 1
    requires ApplyNewConfig(w.core.now[g], config).shards[s].status == MoveOut
    ensures Holds(ApplyNewConfig(w.core.now[g], config), w.core.log, s)
  {
    var o, h := w.core.now[g], ApplyNewConfig(w.core.now[g], config);
    NowShard(w, g, s);
    TableSame(h.dup);
    hide WorldInv, Local, Holds, PastShard, TableCovers;
    assert Serves(o, s);
    HoldsSame(o, h, w.core.log, s);
  }

  lemma ChangedPast(w: World, g: nat, config: Config, s: nat)
    requires WorldInv(w) && g in w.core.now && |config.shards| == NSHARDS && s < NSHARDS
    requires ChangeOk(w.core, g, config) && config.num == w.core.now[g].cur.num + 1
    requires Advances(w.core, g, ApplyNewConfig(w.core.now[g], config))
    ensures var h := ApplyNewConfig(w.core.now[g], config);
            var k' := CoreMoved(w.core, g, h, w.core.log);
            Shaped(k') && PastShard(k', h, s)
  {
    var k, h := w.core, ApplyNewConfig(w.core.now[g], config);
    assert Local(k.configs, h) && h.gid == g;
    if h.shards[s].status == MoveOut {
      ChangedMoveOut(w, g, config, s);
    }
    NowFacts(w, g);
    CurConfig(k.configs, k.now[g]);
    assert k.now[g].shards[s].status == Normal;
    hide WorldInv, Local, Holds, HandedOver, PastOk, Advances;
    GivenAway(w, g, s);
    HandedOverNext(k, g, h, s);
  }

  lemma HoldsSame(o: Group, h: Group, log: seq<Op>, s: nat)
    requires Sized(o) && Sized(h) && s < NSHARDS && Holds(o, log, s) && h.shards[s].kv == o.shards[s].kv
    requires TableCovers(h.dup, o.dup)
    ensures Holds(h, log, s)
  {
    CoversTable(h.dup, o.dup, log, s);
  }

  lemma ChangedServes(w: World, g: nat, config: Config, s: nat)
    requires WorldInv(w) && g in w.core.now && |config.shards| == NSHARDS && s < NSHARDS
    requires ChangeOk(w.core, g, config) && config.num == w.core.now[g].cur.num + 1
    requires Serves(ApplyNewConfig(w.core.now[g], config), s)
    ensures Holds(ApplyNewConfig(w.core.now[g], config), w.core.log, s)
  {
    var k, o, h := w.core, w.core.now[g], ApplyNewConfig(w.core.now[g], config);
    NowShard(w, g, s);
    TableSame(h.dup);
    if Serves(o, s) {
      HoldsSame(o, h, k.log, s);
    } else {
      assert k.configs[config.num - 1][s] == 0;
      FreshShard(k, g, s, config.num);
      UntouchedEmpty(k.log, s);
    }
  }

  lemma ChangedShardOk(w: World, g: nat, config: Config, s: nat)
    requires WorldInv(w) && g in w.core.now && |config.shards| == NSHARDS && s < NSHARDS
    requires ChangeOk(w.core, g, config) && config.num == w.core.now[g].cur.num + 1
    requires Advances(w.core, g, ApplyNewConfig(w.core.now[g], config))
    ensures var h := ApplyNewConfig(w.core.now[g], config);
            var k' := CoreMoved(w.core, g, h, w.core.log);
            Shaped(k') && ShardOk(k', s)
  {
    var k, o, h := w.core, w.core.now[g], ApplyNewConfig(w.core.now[g], config);
    if Serves(h, s) {
      ChangedServes(w, g, config, s);
    }
    NowShard(w, g, s);
    hide WorldInv, Local, Holds, Advances, TableCovers, NoReturn, PastShard;
    OthersHold(k, g, h, s);
    TouchedKept(k, g, h, s);
    InTurnKept(k, g, h, s);
  }

  lemma ChangeMoveOk(w: World, g: nat, config: Config)
    requires WorldInv(w) && g in w.core.now && |config.shards| == NSHARDS
    requires ChangeOk(w.core, g, config) && config.num == w.core.now[g].cur.num + 1
    ensures MoveOk(w.core, g, ApplyNewConfig(w.core.now[g], config), w.core.log)
  {
    var k, h := w.core, ApplyNewConfig(w.core.now[g], config);
    NowFacts(w, g);
    assert NoReturn(k.configs);
    hide WorldInv, Advances, Settled, PastShard, ShardOk, ChangeOk, ApplyNewConfig, Local, PastOk, NoReturn;
    ChangeAdvances(k, g, config);
    AdvancesSized(k, g, h);
    ShapedKept(k, g, h, k.log);
    forall s: nat | s < NSHARDS
      ensures Settled(k, k.log, s) && PastShard(CoreMoved(k, g, h, k.log), h, s)
      ensures ShardOk(CoreMoved(k, g, h, k.log), s)
    {
      SameSettled(k, s);
      ChangedPast(w, g, config, s);
      ChangedShardOk(w, g, config, s);
    }
  }

  // ------------------------------------------------------------------
  // Shards taken in

  /** A shard that the command leaves alone. */
  lemma SameShardPast(w: World, g: nat, h: Group, s: nat)
    requires WorldInv(w) && g in w.core.now && Advances(w.core, g, h) && s < NSHARDS
    requires h.cur == w.core.now[g].cur && h.shards[s] == w.core.now[g].shards[s]
    ensures Shaped(CoreMoved(w.core, g, h, w.core.log)) && PastShard(CoreMoved(w.core, g, h, w.core.log), h, s)
  {
    var k, o := w.core, w.core.now[g];
    AdvancesSized(k, g, h);
    ShapedKept(k, g, h, k.log);
    NowShard(w, g, s);
    HandedOverKept(k, g, h, k.log, o, s);
    assert HandedOver(CoreMoved(k, g, h, k.log), h, s);
    if Reached(k, s, o.cur.num) {
      ReachedKept(k, g, h, k.log, s, o.cur.num);
    } else if o.shards[s].status == MoveOut {
      HoldsSame(o, h, k.log, s);
    }
    assert Local(k.configs, h) && h.gid == g;
    hide WorldInv, Local, Holds, HandedOver, Advances, NoReturn, Reached;
  }

  lemma SameShardOk(w: World, g: nat, h: Group, s: nat)
    requires WorldInv(w) && g in w.core.now && Advances(w.core, g, h) && s < NSHARDS
    requires h.cur == w.core.now[g].cur && h.shards[s] == w.core.now[g].shards[s]
    ensures Shaped(CoreMoved(w.core, g, h, w.core.log)) && ShardOk(CoreMoved(w.core, g, h, w.core.log), s)
  {
    var k, o := w.core, w.core.now[g];
    AdvancesSized(k, g, h);
    NowShard(w, g, s);
    if Serves(h, s) {
      assert h.gid == o.gid && Serves(o, s);
      HoldsSame(o, h, k.log, s);
    }
    hide WorldInv, Local, Holds, Advances, PastShard;
    OthersHold(k, g, h, s);
    TouchedKept(k, g, h, s);
    InTurnKept(k, g, h, s);
  }

  lemma MigratedShards(k: Core, g: nat, r: ShardReply, from: nat, order: seq<nat>, s: nat)
    requires Shaped(k) && g in k.now && DataShaped(r.data) && VisitOrder(order, r.data) && MigrationOk(k, g, r, from)
    requires Local(k.configs, k.now[g]) && k.now[g].gid == g && r.configNum == k.now[g].cur.num && s < NSHARDS
    ensures var o := k.now[g];
            ApplyShardMigration(o, r, order).shards[s] ==
              if Awaited(o, r) && s in r.data then ShardData(r.data[s], GC) else o.shards[s]
  {
    MergedTogether(k.configs, k.now[g], r, from, order, s);
    if Awaited(k.now[g], r) && s in r.data {
      assert LocalShard(k.configs, k.now[g], s);
      assert map[] + r.data[s] == r.data[s];
    }
  }

  lemma MigratedLocal(k: Core, g: nat, r: ShardReply, from: nat, order: seq<nat>)
    requires Shaped(k) && g in k.now && DataShaped(r.data) && VisitOrder(order, r.data) && MigrationOk(k, g, r, from)
    requires Local(k.configs, k.now[g]) && k.now[g].gid == g && r.configNum == k.now[g].cur.num
    ensures Advances(k, g, ApplyShardMigration(k.now[g], r, order))
  {
    var o, h, c := k.now[g], ApplyShardMigration(k.now[g], r, order), r.configNum;
    MergeCovers(o.dup, r.dup);
    forall s: nat | s < NSHARDS
      ensures h.shards[s] == if Awaited(o, r) && s in r.data then ShardData(r.data[s], GC) else o.shards[s]
    {
      MigratedShards(k, g, r, from, order, s);
    }
    assert h.cur == o.cur && h.prev == o.prev && h.gid == o.gid && TableCovers(h.dup, o.dup) && Sized(h);
    hide ApplyShardMigration, TableCovers;
    forall s: nat | s < NSHARDS ensures LocalShard(k.configs, h, s) {
      assert LocalShard(k.configs, o, s);
    }
    forall s: nat, t: nat | SamePair(k.configs, c, s, t) ensures h.shards[s].status == h.shards[t].status {
      assert s in r.data <==> t in r.data;
    }
  }

  /** The shard was still to come, and comes with all that was written to it. */
  lemma TakenFacts(w: World, g: nat, r: ShardReply, from: nat, h: Group, s: nat)
    requires WorldInv(w) && g in w.core.now && Advances(w.core, g, h)
    requires DataShaped(r.data) && MigrationOk(w.core, g, r, from) && r.configNum == w.core.now[g].cur.num
    requires s in r.data
    requires w.core.now[g].shards[s].status == MoveIn
    requires h.cur == w.core.now[g].cur && h.shards[s] == ShardData(r.data[s], GC) && TableCovers(h.dup, r.dup)
    ensures Sized(h) && Local(w.core.configs, h) && h.gid == g && Holds(h, w.core.log, s)
    ensures ShardOk(w.core, s) && HandedOver(w.core, w.core.now[g], s) && w.core.now[g].gid == g
    ensures s in Pairs(w.core.configs, r.configNum, from, g)
  {
    hide WorldInv, ShardOk, Content;
    InvConfigs(w);
    var k, o := w.core, w.core.now[g];
    AdvancesSized(k, g, h);
    NowShard(w, g, s);
    assert Carried(k, r, s) && !Reached(k, s, o.cur.num);
    CoversTable(h.dup, r.dup, k.log, s);
  }

  lemma TakenIn(w: World, g: nat, r: ShardReply, from: nat, h: Group, s: nat)
    requires WorldInv(w) && g in w.core.now && Advances(w.core, g, h)
    requires DataShaped(r.data) && MigrationOk(w.core, g, r, from) && r.configNum == w.core.now[g].cur.num
    requires s in r.data
    requires w.core.now[g].shards[s].status == MoveIn
    requires h.cur == w.core.now[g].cur && h.shards[s] == ShardData(r.data[s], GC) && TableCovers(h.dup, r.dup)
    ensures var k' := CoreMoved(w.core, g, h, w.core.log);
            Shaped(k') && PastShard(k', h, s) && ShardOk(k', s)
  {
    hide WorldInv, Local, Holds, Advances, NoReturn, TableCovers, HandedOver, InTurn, TouchedReached, ServersHold;
    InvConfigs(w);
    var k, o := w.core, w.core.now[g];
    TakenFacts(w, g, r, from, h, s);
    ShapedKept(k, g, h, k.log);
    OthersHold(k, g, h, s);
    TouchedKept(k, g, h, s);
    TakenInTurn(k, g, r, from, h, s);
    HandedOverKept(k, g, h, k.log, o, s);
    SameHandedOver(CoreMoved(k, g, h, k.log), o, h, s);
  }

  lemma SameHandedOver(k: Core, o: Group, h: Group, s: nat)
    requires Shaped(k) && s < NSHARDS && h.cur == o.cur && h.gid == o.gid && HandedOver(k, o, s)
    ensures HandedOver(k, h, s)
  {
    hide Reached;
  }

  lemma TakenInTurn(k: Core, g: nat, r: ShardReply, from: nat, h: Group, s: nat)
    requires Shaped(k) && g in k.now && Advances(k, g, h) && s < NSHARDS && InTurn(k, s)
    requires DataShaped(r.data) && MigrationOk(k, g, r, from) && r.configNum == k.now[g].cur.num && s in r.data
    requires h.cur == k.now[g].cur
    ensures Shaped(CoreMoved(k, g, h, k.log)) && InTurn(CoreMoved(k, g, h, k.log), s)
  {
    assert s in Pairs(k.configs, r.configNum, from, g);
    hide Advances, Carried;
    InTurnKept(k, g, h, s);
  }

  lemma MigrationMoveOk(w: World, g: nat, r: ShardReply, order: seq<nat>)
    requires WorldInv(w) && g in w.core.now && DataShaped(r.data) && MigrationPending(w.core, g, r)
    requires VisitOrder(order, r.data) && r.configNum == w.core.now[g].cur.num
    ensures MoveOk(w.core, g, ApplyShardMigration(w.core.now[g], r, order), w.core.log)
  {
    var k, h, o := w.core, ApplyShardMigration(w.core.now[g], r, order), w.core.now[g];
    var from: nat :| MigrationOk(k, g, r, from);
    NowFacts(w, g);
    MergeCovers(o.dup, r.dup);
    assert h.cur == o.cur && TableCovers(h.dup, r.dup);
    hide WorldInv, Advances, Settled, PastShard, ShardOk, ApplyShardMigration, Local, PastOk, NoReturn, MigrationOk,
         TableCovers;
    hide VisitOrder;
    MigratedLocal(k, g, r, from, order);
    AdvancesSized(k, g, h);
    ShapedKept(k, g, h, k.log);
    forall s: nat | s < NSHARDS
      ensures Settled(k, k.log, s) && PastShard(CoreMoved(k, g, h, k.log), h, s)
      ensures ShardOk(CoreMoved(k, g, h, k.log), s)
    {
      SameSettled(k, s);
      MigratedShards(k, g, r, from, order, s);
      if Awaited(o, r) && s in r.data {
        TakenIn(w, g, r, from, h, s);
      } else {
        SameShardPast(w, g, h, s);
        SameShardOk(w, g, h, s);
      }
    }
  }

  // ------------------------------------------------------------------
  // Clean-up

  lemma CleanStatus(k: Core, g: nat, a: ShardArgs, from: nat, to: nat, s: nat)
    requires Shaped(k) && g in k.now && CleanOk(k, g, a, from, to)
    requires Local(k.configs, k.now[g]) && k.now[g].gid == g && a.configNum == k.now[g].cur.num
    requires s < NSHARDS && s in Ids(a.ids)
    ensures Reached(k, s, a.configNum) && k.now[g].shards[s].status != MoveIn
    ensures k.now[g].shards[s].status == GC ==> g == to
    ensures k.now[g].shards[s].status == MoveOut ==> g == from
  {
    assert LocalShard(k.configs, k.now[g], s);
    assert Reached(k, s, a.configNum);
  }

  lemma CleanedShards(k: Core, g: nat, a: ShardArgs, from: nat, to: nat, s: nat)
    requires Shaped(k) && g in k.now && ValidIds(a.ids) && Distinct(a.ids) && CleanOk(k, g, a, from, to)
    requires Local(k.configs, k.now[g]) && k.now[g].gid == g && a.configNum == k.now[g].cur.num && s < NSHARDS
    ensures var o := k.now[g];
            ApplyShardGC(o, a).shards[s] == if s in Ids(a.ids) then Cleaned(o.shards[s]) else o.shards[s]
  {
    CleanedTogether(k.configs, k.now[g], a, from, to, s);
  }

  lemma CleanedAdvances(k: Core, g: nat, a: ShardArgs, from: nat, to: nat)
    requires Shaped(k) && g in k.now && ValidIds(a.ids) && Distinct(a.ids) && CleanOk(k, g, a, from, to)
    requires Local(k.configs, k.now[g]) && k.now[g].gid == g && a.configNum == k.now[g].cur.num
    ensures Advances(k, g, ApplyShardGC(k.now[g], a))
  {
    var o, h, c := k.now[g], ApplyShardGC(k.now[g], a), a.configNum;
    TableSame(o.dup);
    forall s: nat | s < NSHARDS
      ensures h.shards[s] == if s in Ids(a.ids) then Cleaned(o.shards[s]) else o.shards[s]
    {
      CleanedShards(k, g, a, from, to, s);
    }
    hide ApplyShardGC, TableCovers, Reached;
    forall s: nat | s < NSHARDS ensures LocalShard(k.configs, h, s) {
      assert LocalShard(k.configs, o, s);
      if s in Ids(a.ids) {
        CleanStatus(k, g, a, from, to, s);
      }
    }
    forall s: nat, t: nat | SamePair(k.configs, c, s, t) ensures h.shards[s].status == h.shards[t].status {
      assert s in Ids(a.ids) <==> t in Ids(a.ids);
    }
  }

  lemma CleanedShard(w: World, g: nat, a: ShardArgs, from: nat, to: nat, h: Group, s: nat)
    requires WorldInv(w) && g in w.core.now && Advances(w.core, g, h)
    requires CleanOk(w.core, g, a, from, to) && a.configNum == w.core.now[g].cur.num && s < NSHARDS && s in Ids(a.ids)
    requires h.cur == w.core.now[g].cur && h.shards[s] == Cleaned(w.core.now[g].shards[s])
    ensures var k' := CoreMoved(w.core, g, h, w.core.log);
            Shaped(k') && PastShard(k', h, s) && ShardOk(k', s)
  {
    var k, o := w.core, w.core.now[g];
    AdvancesSized(k, g, h);
    ShapedKept(k, g, h, k.log);
    NowShard(w, g, s);
    assert Local(k.configs, h) && h.gid == g;
    CleanStatus(k, g, a, from, to, s);
    ReachedKept(k, g, h, k.log, s, o.cur.num);
    HandedOverKept(k, g, h, k.log, o, s);
    assert HandedOver(CoreMoved(k, g, h, k.log), h, s);
    if Serves(h, s) {
      CleanedServes(w, g, h, s);
    }
    hide WorldInv, Local, Holds, Advances, NoReturn, TableCovers, HandedOver, CleanOk;
    OthersHold(k, g, h, s);
    TouchedKept(k, g, h, s);
    InTurnKept(k, g, h, s);
    hide Reached;
  }

  lemma CleanedServes(w: World, g: nat, h: Group, s: nat)
    requires WorldInv(w) && g in w.core.now && Advances(w.core, g, h) && s < NSHARDS && Sized(h) && Serves(h, s)
    requires h.cur == w.core.now[g].cur && h.shards[s] == Cleaned(w.core.now[g].shards[s])
    ensures Holds(h, w.core.log, s)
  {
    var o := w.core.now[g];
    NowShard(w, g, s);
    assert Serves(o, s);
    HoldsSame(o, h, w.core.log, s);
  }

  lemma CleanMoveOk(w: World, g: nat, a: ShardArgs)
    requires WorldInv(w) && g in w.core.now && ValidIds(a.ids) && Distinct(a.ids) && CleanPending(w.core, g, a)
    requires a.configNum == w.core.now[g].cur.num
    ensures MoveOk(w.core, g, ApplyShardGC(w.core.now[g], a), w.core.log)
  {
    var k, h, o := w.core, ApplyShardGC(w.core.now[g], a), w.core.now[g];
    var from: nat, to: nat :| CleanOk(k, g, a, from, to);
    NowFacts(w, g);
    assert h.cur == o.cur;
    hide WorldInv, Advances, Settled, PastShard, ShardOk, ApplyShardGC, Local, PastOk, NoReturn, CleanOk;
    CleanedAdvances(k, g, a, from, to);
    AdvancesSized(k, g, h);
    ShapedKept(k, g, h, k.log);
    forall s: nat | s < NSHARDS
      ensures Settled(k, k.log, s) && PastShard(CoreMoved(k, g, h, k.log), h, s)
      ensures ShardOk(CoreMoved(k, g, h, k.log), s)
    {
      SameSettled(k, s);
      CleanedShards(k, g, a, from, to, s);
      if s in Ids(a.ids) {
        CleanedShard(w, g, a, from, to, h, s);
      } else {
        SameShardPast(w, g, h, s);
        SameShardOk(w, g, h, s);
      }
    }
  }

  // ------------------------------------------------------------------
  // Writes

  lemma WriteAdvances(k: Core, g: nat, op: Op)
    requires Shaped(k) && g in k.now && Local(k.configs, k.now[g]) && k.now[g].gid == g && TakesEffect(k.now[g], op)
    ensures Advances(k, g, ApplyClientOperation(k.now[g], op).0)
  {
    var o, h := k.now[g], ApplyClientOperation(k.now[g], op).0;
    assert TableCovers(h.dup, o.dup);
    hide TableCovers;
    forall s: nat | s < NSHARDS ensures LocalShard(k.configs, h, s) {
      assert LocalShard(k.configs, o, s);
    }
    assert Uniform(k.configs, h);
  }

  lemma WriteSettled(w: World, g: nat, op: Op, s: nat)
    requires WorldInv(w) && g in w.core.now && TakesEffect(w.core.now[g], op) && s < NSHARDS
    ensures Settled(w.core, w.core.log + [op], s)
  {
    hide WorldInv, PastShard, LocalShard, Local, Reached, Covers, Content;
    var k := w.core;
    NowShard(w, g, s);
    InvConfigs(w);
    hide NoReturn, Shaped;
    if Key2Shard(op.key) == s {
      forall c: nat | Moving(k.configs, c, s) && Cur(k, k.configs[c - 1][s]) >= c ensures Reached(k, s, c) {
        ServedReached(k, s, g, c);
      }
    } else {
      ContentSnoc(k.log, op, s);
      forall dup | Covers(dup, k.log, s) ensures Covers(dup, k.log + [op], s) {
        CoversOther(dup, k.log, op, s);
      }
    }
  }

  lemma CoversOther(dup: DupTable, log: seq<Op>, op: Op, s: nat)
    requires Covers(dup, log, s) && Key2Shard(op.key) != s
    ensures Covers(dup, log + [op], s)
  {
  }

  lemma InvConfigs(w: World)
    requires WorldInv(w)
    ensures ConfigsOk(w.core.configs) && NoReturn(w.core.configs) && Shaped(w.core) && WorldShaped(w)
  {
  }

  lemma ReachedSame(k: Core, g: nat, h: Group, log: seq<Op>, s: nat, c: nat)
    requires Shaped(k) && g in k.now && Sized(h) && s < NSHARDS
    requires h.cur == k.now[g].cur && h.shards[s].status == k.now[g].shards[s].status
    ensures Shaped(CoreMoved(k, g, h, log)) && (Reached(CoreMoved(k, g, h, log), s, c) <==> Reached(k, s, c))
  {
    ShapedKept(k, g, h, log);
  }

  /** Contents and duplicates after the write, seen by whoever holds the shard. */
  lemma WriteHolds(o: Group, op: Op, log: seq<Op>, s: nat)
    requires Sized(o) && s < NSHARDS && TakesEffect(o, op) && Holds(o, log, s)
    ensures Sized(ApplyClientOperation(o, op).0) && Holds(ApplyClientOperation(o, op).0, log + [op], s)
  {
    ContentSnoc(log, op, s);
  }

  lemma OtherWriteHolds(x: Group, op: Op, log: seq<Op>, s: nat)
    requires Sized(x) && s < NSHARDS && Holds(x, log, s) && Key2Shard(op.key) != s
    ensures Holds(x, log + [op], s)
  {
    ContentSnoc(log, op, s);
  }

  lemma WriteServers(w: World, g: nat, op: Op, s: nat)
    requires WorldInv(w) && g in w.core.now && TakesEffect(w.core.now[g], op) && s < NSHARDS
    ensures var k' := CoreMoved(w.core, g, ApplyClientOperation(w.core.now[g], op).0, w.core.log + [op]);
            Shaped(k') && ServersHold(k', s)
  {
    var k, o, h := w.core, w.core.now[g], ApplyClientOperation(w.core.now[g], op).0;
    var k' := CoreMoved(k, g, h, k.log + [op]);
    InvConfigs(w);
    ShapedKept(k, g, h, k'.log);
    NowShard(w, g, s);
    assert h.cur == o.cur && h.gid == o.gid && h.shards[s].status == o.shards[s].status;
    forall x | x in k'.now && Serves(k'.now[x], s) ensures Holds(k'.now[x], k'.log, s) {
      NowShard(w, x, s);
      hide WorldInv, Holds, ApplyClientOperation, PastShard, LocalShard, Local, NoReturn;
      if x == g {
        WriteHolds(o, op, k.log, s);
      } else {
        if Key2Shard(op.key) == s {
          OneServer(k, s, g, x);
        }
        OtherWriteHolds(k.now[x], op, k.log, s);
      }
    }
  }

  lemma WriteStatus(o: Group, op: Op, s: nat)
    requires Sized(o) && s < NSHARDS
    ensures var h := ApplyClientOperation(o, op).0;
            Sized(h) && h.cur == o.cur && h.gid == o.gid && h.shards[s].status == o.shards[s].status
  {
  }

  lemma ServesReached(w: World, g: nat, s: nat)
    requires WorldInv(w) && g in w.core.now && s < NSHARDS && Sized(w.core.now[g]) && Serves(w.core.now[g], s)
    ensures Shaped(w.core) && Reached(w.core, s, w.core.now[g].cur.num)
  {
    NowShard(w, g, s);
  }

  lemma WriteShardOk(w: World, g: nat, op: Op, s: nat)
    requires WorldInv(w) && g in w.core.now && TakesEffect(w.core.now[g], op) && s < NSHARDS
    ensures var k' := CoreMoved(w.core, g, ApplyClientOperation(w.core.now[g], op).0, w.core.log + [op]);
            Shaped(k') && ShardOk(k', s)
  {
    var k, o, h := w.core, w.core.now[g], ApplyClientOperation(w.core.now[g], op).0;
    var k' := CoreMoved(k, g, h, k.log + [op]);
    hide WorldInv, Holds, PastShard, Local, LocalShard, ServersHold, ApplyClientOperation, Reached, Cur, Touched;
    InvConfigs(w);
    WriteServers(w, g, op, s);
    NowShard(w, g, s);
    WriteStatus(o, op, s);
    TouchedBy(k.log, op, s);
    if Serves(o, s) {
      ServesReached(w, g, s);
    }
    WriteInTurn(k, g, h, k'.log, s);
  }

  lemma TouchedBy(log: seq<Op>, op: Op, s: nat)
    ensures Touched(log + [op], s) ==> Touched(log, s) || Key2Shard(op.key) == s
  {
  }

  lemma WriteInTurn(k: Core, g: nat, h: Group, log: seq<Op>, s: nat)
    requires Shaped(k) && g in k.now && Sized(h) && s < NSHARDS && InTurn(k, s) && TouchedReached(k, s)
    requires h.cur == k.now[g].cur && h.shards[s].status == k.now[g].shards[s].status
    requires Touched(log, s) ==> Touched(k.log, s) || Reached(k, s, k.now[g].cur.num)
    ensures var k' := CoreMoved(k, g, h, log); Shaped(k') && InTurn(k', s) && TouchedReached(k', s)
  {
    var k' := CoreMoved(k, g, h, log);
    ShapedKept(k, g, h, log);
    assert forall x :: Cur(k', x) == Cur(k, x);
    hide Reached, Cur, Touched;
    forall c: nat ensures Reached(k', s, c) <==> Reached(k, s, c) {
      ReachedSame(k, g, h, log, s, c);
    }
  }

  lemma WritePast(w: World, g: nat, op: Op, s: nat)
    requires WorldInv(w) && g in w.core.now && TakesEffect(w.core.now[g], op) && s < NSHARDS
    requires Advances(w.core, g, ApplyClientOperation(w.core.now[g], op).0)
    ensures var h := ApplyClientOperation(w.core.now[g], op).0;
            var k' := CoreMoved(w.core, g, h, w.core.log + [op]);
            Shaped(k') && PastShard(k', h, s)
  {
    var k, o, h := w.core, w.core.now[g], ApplyClientOperation(w.core.now[g], op).0;
    var k' := CoreMoved(k, g, h, k.log + [op]);
    NowShard(w, g, s);
    AdvancesSized(k, g, h);
    ShapedKept(k, g, h, k'.log);
    assert Local(k.configs, h) && h.cur == o.cur && h.gid == o.gid && h.shards[s].status == o.shards[s].status;
    HandedOverKept(k, g, h, k'.log, o, s);
    assert HandedOver(k', h, s);
    ReachedSame(k, g, h, k'.log, s, o.cur.num);
    if o.shards[s].status == MoveOut && !Reached(k, s, o.cur.num) {
      WriteHolds(o, op, k.log, s);
    }
    hide WorldInv, Holds, ApplyClientOperation, Local, Advances, HandedOver, Reached;
  }

  lemma WriteMoveOk(w: World, g: nat, op: Op)
    requires WorldInv(w) && g in w.core.now && TakesEffect(w.core.now[g], op)
    ensures MoveOk(w.core, g, ApplyClientOperation(w.core.now[g], op).0, w.core.log + [op])
  {
    var k, h, log := w.core, ApplyClientOperation(w.core.now[g], op).0, w.core.log + [op];
    NowFacts(w, g);
    hide WorldInv, Advances, Settled, PastShard, ShardOk, ApplyClientOperation, Local, PastOk, TakesEffect;
    WriteAdvances(k, g, op);
    AdvancesSized(k, g, h);
    ShapedKept(k, g, h, log);
    forall s: nat | s < NSHARDS
      ensures Settled(k, log, s) && PastShard(CoreMoved(k, g, h, log), h, s) && ShardOk(CoreMoved(k, g, h, log), s)
    {
      WriteSettled(w, g, op, s);
      WritePast(w, g, op, s);
      WriteShardOk(w, g, op, s);
    }
  }

  // ------------------------------------------------------------------
  // Every step

  lemma Unmoved(w: World, g: nat)
    requires WorldInv(w) && g in w.core.now
    ensures Moved(w, g, w.core.now[g], w.core.log) == w
  {
    var w' := Moved(w, g, w.core.now[g], w.core.log);
    assert w'.core.now == w.core.now;
    assert w'.past[g] == w.past[g];
    assert w'.past == w.past;
  }

  lemma ClientKept(w: World, g: nat, op: Op)
    requires WorldInv(w) && g in w.core.now
    ensures var o := w.core.now[g];
            WorldInv(Moved(w, g, ApplyClientOperation(o, op).0, if TakesEffect(o, op)
                then w.core.log + [op] else w.core.log))
  {
    var o := w.core.now[g];
    if TakesEffect(o, op) {
      WriteMoveOk(w, g, op);
      hide WorldInv, MoveOk, ApplyClientOperation;
      MoveKept(w, g, ApplyClientOperation(o, op).0, w.core.log + [op]);
    } else {
      assert ApplyClientOperation(o, op).0.shards == o.shards;
      assert ApplyClientOperation(o, op).0 == o;
      hide WorldInv;
      Unmoved(w, g);
    }
  }

  lemma CommitKept(w: World, act: Action)
    requires WorldInv(w) && Can(w, act) && act.Commit?
    ensures WorldInv(After(w, act))
  {
    var g, cmd, o := act.g, act.cmd, w.core.now[act.g];
    assert PendingOk(w.core, g, cmd) && CommandShaped(cmd);
    hide WorldInv, MoveOk, ApplyClientOperation, ApplyShardGC, ApplyShardMigration, ApplyNewConfig;
    match cmd
    case ClientOp(op) => ClientKept(w, g, op);
    case ConfigChange(config) =>
      if config.num == o.cur.num + 1 {
        ChangeMoveOk(w, g, config);
        MoveKept(w, g, ApplyNewConfig(o, config), w.core.log);
      } else {
        OtherNumber(o, cmd, act.order);
        Unmoved(w, g);
      }
    case ShardMigration(r) =>
      if r.configNum == o.cur.num {
        MigrationMoveOk(w, g, r, act.order);
        MoveKept(w, g, ApplyShardMigration(o, r, act.order), w.core.log);
      } else {
        OtherNumber(o, cmd, act.order);
        Unmoved(w, g);
      }
    case ShardGC(a) =>
      if a.configNum == o.cur.num {
        CleanMoveOk(w, g, a);
        MoveKept(w, g, ApplyShardGC(o, a), w.core.log);
      } else {
        OtherNumber(o, cmd, act.order);
        Unmoved(w, g);
      }
  }

  /** A command for another configuration changes nothing. */
  lemma OtherNumber(o: Group, cmd: Command, order: seq<nat>)
    requires Sized(o) && CommandShaped(cmd) && Visits(cmd, order)
    requires match cmd
             case ClientOp(_) => false
             case ConfigChange(config) => config.num != o.cur.num + 1
             case ShardMigration(r) => r.configNum != o.cur.num
             case ShardGC(a) => a.configNum != o.cur.num
    ensures Applied(o, cmd, order) == o
  {
  }

  /** Every step keeps the invariant. */
  lemma WorldKept(w: World, act: Action)
    requires WorldInv(w) && Can(w, act)
    ensures WorldInv(After(w, act))
  {
    hide WorldInv, After;
    if act.Commit? {
      CommitKept(w, act);
    } else {
      ProposalKept(w, act);
    }
  }
}
