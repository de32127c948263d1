/** Shards that one configuration moves from one group to another stay together: they have
    one status at either end, come in together and are dropped together, whatever order a
    server goes through them in. And a new owner finishes with them only when the old one has
    dropped its copies. All this is about statuses alone, and holds over any configurations. */
module ShardBatches {
  import opened ShardState
  import opened ShardWorld
  import opened ShardInvariant
  import opened ShardRuns

  /** State `p` of a group comes before state `o`, or is the same. */
  ghost predicate Earlier(p: Group, o: Group)
    requires Sized(p) && Sized(o)
  {
    && p.gid == o.gid && p.cur.num <= o.cur.num
    && (p.cur.num == o.cur.num ==>
          forall s: nat :: s < NSHARDS && p.shards[s].status == Normal ==> o.shards[s].status == Normal)
  }

  /** What has come in was given by groups that had reached the configuration. */
  ghost predicate Supplied(k: Core, p: Group)
    requires Sized(p)
  {
    forall s: nat :: s < NSHARDS && p.shards[s].status == GC ==> Cur(k, p.prev.shards[s]) >= p.cur.num
  }

  ghost predicate PastPlaced(k: Core, g: nat, p: Group)
    requires Shaped(k) && g in k.now
  {
    Placed(k.configs, p) && p.gid == g && Earlier(p, k.now[g]) && Supplied(k, p)
  }

  /** The group has taken shard `s` in configuration `d`, and finished with it. */
  ghost predicate Finished(p: Group, d: nat, s: nat)
    requires Sized(p) && s < NSHARDS
  {
    p.cur.num > d || (p.cur.num == d && p.shards[s].status == Normal)
  }

  /** The group that configuration `d` takes shard `s` from keeps no copy for it any more. */
  ghost predicate LetGo(k: Core, d: nat, s: nat)
    requires Shaped(k) && Moving(k.configs, d, s)
  {
    var from := k.configs[d - 1][s];
    from in k.now && Finished(k.now[from], d, s)
  }

  ghost predicate FinishedLast(k: Core, g: nat, d: nat, s: nat)
    requires Shaped(k) && g in k.now
  {
    Moving(k.configs, d, s) && k.configs[d][s] == g && Finished(k.now[g], d, s) ==> LetGo(k, d, s)
  }

  /** `ids` are the shards that configuration `c` moves from `from` to `to`, and `from` has reached `c`. */
  ghost predicate Whole(k: Core, c: nat, from: nat, to: nat, ids: set<nat>)
    requires Shaped(k)
  {
    && from != 0 && to != 0 && from != to && 0 < c < |k.configs|
    && ids == Pairs(k.configs, c, from, to) && Cur(k, from) >= c
  }

  ghost predicate AllLetGo(k: Core, c: nat, ids: set<nat>)
    requires Shaped(k)
  {
    forall s: nat :: s in ids && Moving(k.configs, c, s) ==> LetGo(k, c, s)
  }

  ghost predicate CleanWhole(k: Core, g: nat, a: ShardArgs, from: nat, to: nat)
    requires Shaped(k)
  {
    && Whole(k, a.configNum, from, to, Ids(a.ids))
    && (g == from || (g == to && AllLetGo(k, a.configNum, Ids(a.ids))))
  }

  ghost predicate PendingWhole(k: Core, g: nat, cmd: Command)
    requires Shaped(k) && g in k.now
  {
    match cmd
    case ClientOp(_) => true
    case ConfigChange(config) => ChangeOk(k, g, config)
    case ShardMigration(r) => exists from: nat :: Whole(k, r.configNum, from, g, r.data.Keys)
    case ShardGC(a) => exists from: nat, to: nat :: CleanWhole(k, g, a, from, to)
  }

  ghost predicate BatchInv(w: World) {
    && Plain(w)
    && (forall g, p :: g in w.past && p in w.past[g] ==> PastPlaced(w.core, g, p))
    && (forall g, d: nat, s: nat :: g in w.core.now ==> FinishedLast(w.core, g, d, s))
    && (forall g, cmd :: g in w.pending && cmd in w.pending[g] ==> PendingWhole(w.core, g, cmd))
  }

  lemma StartBatches(w: World)
    requires Start(w)
    ensures BatchInv(w)
  {
    forall g | g in w.core.now ensures PastPlaced(w.core, g, NewGroup(g)) {
    }
    hide PastPlaced;
  }

  // ------------------------------------------------------------------
  // Proposals

  lemma KeysOf(w: World)
    requires BatchInv(w)
    ensures Plain(w) && Shaped(w.core) && w.core.now.Keys == w.past.Keys == w.pending.Keys
    ensures forall g, p :: g in w.past && p in w.past[g] ==> Sized(p)
  {
    hide PastPlaced, FinishedLast, PendingWhole;
  }

  lemma PastOf(w: World, g: nat, p: Group)
    requires BatchInv(w) && g in w.past && p in w.past[g]
    ensures Shaped(w.core) && g in w.core.now && PastPlaced(w.core, g, p)
  {
    hide PastPlaced, FinishedLast, PendingWhole;
  }

  lemma PullWhole(w: World, g: nat, p: Group, from: nat, q: Group, ids: seq<nat>)
    requires BatchInv(w) && Can(w, Pull(g, p, from, q, ids))
    ensures Whole(w.core, p.cur.num, from, g, GetShardsData(q, ShardArgs(p.cur.num, ids)).data.Keys)
  {
    KeysOf(w);
    hide BatchInv;
    PastOf(w, g, p);
    PastOf(w, from, q);
    BatchIsPairs(w.core.configs, p, MoveIn, from, ids);
    assert GetShardsData(q, ShardArgs(p.cur.num, ids)).data.Keys == Ids(ids);
  }

  lemma CleanProposed(w: World, g: nat, p: Group, from: nat, ids: seq<nat>)
    requires BatchInv(w) && g in w.past && p in w.past[g] && Sized(p) && Batch(p, GC, from, ids)
    ensures Shaped(w.core) && Whole(w.core, p.cur.num, from, g, Ids(ids))
  {
    hide BatchInv;
    PastOf(w, g, p);
    BatchIsPairs(w.core.configs, p, GC, from, ids);
    assert ids[0] in Ids(ids);
    assert ids[0] in ByStatus(p, GC, from);
  }

  lemma FinishWhole(w: World, g: nat, p: Group, from: nat, q: Group, ids: seq<nat>)
    requires BatchInv(w) && Can(w, FinishGC(g, p, from, q, ids))
    ensures Shaped(w.core) && CleanWhole(w.core, g, ShardArgs(p.cur.num, ids), from, g)
  {
    KeysOf(w);
    hide BatchInv;
    CleanProposed(w, g, p, from, ids);
    PastOf(w, from, q);
    forall s: nat | s in Ids(ids) && Moving(w.core.configs, p.cur.num, s) ensures LetGo(w.core, p.cur.num, s) {
      var i :| 0 <= i < |ids| && ids[i] == s;
      assert q.cur.num == p.cur.num ==> q.shards[ids[i]].status == Normal;
    }
  }

  lemma FetchWhole(w: World, g: nat, p: Group)
    requires BatchInv(w) && Can(w, FetchConfig(g, p))
    ensures ChangeOk(w.core, g, Config(p.cur.num + 1, w.core.configs[p.cur.num + 1]))
  {
    KeysOf(w);
    hide BatchInv;
    PastOf(w, g, p);
  }

  lemma ProposalWhole(w: World, act: Action)
    requires BatchInv(w) && Can(w, act) && !act.Commit?
    ensures Proposal(w, act).0 in w.core.now && PendingWhole(w.core, Proposal(w, act).0, Proposal(w, act).1)
  {
    KeysOf(w);
    hide BatchInv, Whole, ChangeOk, Batch, Sized;
    match act
    case Submit(_, _, _) =>
    case FetchConfig(g, p) => FetchWhole(w, g, p);
    case Pull(g, p, from, q, ids) => PullWhole(w, g, p, from, q, ids);
    case AskDelete(g, p, from, q, ids) =>
      CleanProposed(w, g, p, from, ids);
      assert CleanWhole(w.core, from, ShardArgs(p.cur.num, ids), from, g);
    case FinishGC(g, p, from, q, ids) => FinishWhole(w, g, p, from, q, ids);
  }

  // ------------------------------------------------------------------
  // What was so stays so

  ghost predicate Forward(k: Core, k': Core)
    requires Shaped(k) && Shaped(k')
  {
    && k'.configs == k.configs && k'.now.Keys == k.now.Keys
    && forall g :: g in k.now ==> Earlier(k.now[g], k'.now[g])
  }

  lemma PastForward(k: Core, k': Core, g: nat, p: Group)
    requires Shaped(k) && Shaped(k') && Forward(k, k') && g in k.now && PastPlaced(k, g, p)
    ensures PastPlaced(k', g, p)
  {
    hide Placed;
  }

  lemma LetGoForward(k: Core, k': Core, d: nat, s: nat)
    requires Shaped(k) && Shaped(k') && Forward(k, k') && Moving(k.configs, d, s) && LetGo(k, d, s)
    ensures LetGo(k', d, s)
  {
  }

  lemma CleanForward(k: Core, k': Core, g: nat, a: ShardArgs, from: nat, to: nat)
    requires Shaped(k) && Shaped(k') && Forward(k, k') && CleanWhole(k, g, a, from, to)
    ensures CleanWhole(k', g, a, from, to)
  {
    hide LetGo;
    forall s: nat | s in Ids(a.ids) && Moving(k.configs, a.configNum, s) && LetGo(k, a.configNum, s)
      ensures LetGo(k', a.configNum, s)
    {
      LetGoForward(k, k', a.configNum, s);
    }
  }

  lemma PendingForward(k: Core, k': Core, g: nat, cmd: Command)
    requires Shaped(k) && Shaped(k') && Forward(k, k') && g in k.now && PendingWhole(k, g, cmd)
    ensures PendingWhole(k', g, cmd)
  {
    match cmd
    case ClientOp(_) =>
    case ConfigChange(config) =>
    case ShardMigration(r) =>
      var from: nat :| Whole(k, r.configNum, from, g, r.data.Keys);
      assert Whole(k', r.configNum, from, g, r.data.Keys);
    case ShardGC(a) =>
      var from: nat, to: nat :| CleanWhole(k, g, a, from, to);
      CleanForward(k, k', g, a, from, to);
  }

  // ------------------------------------------------------------------
  // One committed command

  /** What a command makes of a group: a later state, in which shards are where they may be. */
  ghost predicate Steps(k: Core, g: nat, h: Group)
    requires Shaped(k) && g in k.now
  {
    Placed(k.configs, h) && Earlier(k.now[g], h) && Supplied(k, h)
  }

  /** What a command newly finishes, the old owner has let go. */
  ghost predicate FinishesLast(k: Core, g: nat, h: Group)
    requires Shaped(k) && g in k.now && Sized(h)
  {
    forall d: nat, s: nat :: Moving(k.configs, d, s) && k.configs[d][s] == g && Finished(h, d, s) ==>
      Finished(k.now[g], d, s) || LetGo(k, d, s)
  }

  lemma ClientSteps(k: Core, g: nat, op: Op)
    requires Shaped(k) && g in k.now && PastPlaced(k, g, k.now[g])
    ensures var h := ApplyClientOperation(k.now[g], op).0; Steps(k, g, h) && FinishesLast(k, g, h)
  {
    var o, h := k.now[g], ApplyClientOperation(k.now[g], op).0;
    assert h.cur == o.cur && h.prev == o.prev && h.gid == o.gid && Sized(h);
    assert forall s: nat :: s < NSHARDS ==> h.shards[s].status == o.shards[s].status;
    hide ApplyClientOperation;
    forall s: nat | s < NSHARDS ensures PlacedShard(k.configs, h, s) {
      assert PlacedShard(k.configs, o, s);
    }
  }

  lemma ChangeSteps(k: Core, g: nat, config: Config)
    requires Shaped(k) && g in k.now && PastPlaced(k, g, k.now[g]) && |config.shards| == NSHARDS && g != 0
    requires ChangeOk(k, g, config) && config.num == k.now[g].cur.num + 1
    ensures var h := ApplyNewConfig(k.now[g], config); Steps(k, g, h) && FinishesLast(k, g, h)
  {
    var o, h, c := k.now[g], ApplyNewConfig(k.now[g], config), config.num;
    forall s: nat | s < NSHARDS ensures PlacedShard(k.configs, h, s) && (Moving(k.configs, c, s) ==>
        h.shards[s].status == NewStatus(g, k.configs[c - 1][s], k.configs[c][s], Normal))
    {
      assert o.shards[s].status == Normal;
    }
    assert h.cur.num == c && Sized(h) && AllNormal(o);
    hide ApplyNewConfig;
  }

  lemma MigrationSteps(k: Core, g: nat, r: ShardReply, from: nat, order: seq<nat>)
    requires Shaped(k) && g in k.now && PastPlaced(k, g, k.now[g]) && DataShaped(r.data) && VisitOrder(order, r.data)
    requires Whole(k, r.configNum, from, g, r.data.Keys) && r.configNum == k.now[g].cur.num
    ensures var h := ApplyShardMigration(k.now[g], r, order); Steps(k, g, h) && FinishesLast(k, g, h)
  {
    var o, h, c := k.now[g], ApplyShardMigration(k.now[g], r, order), r.configNum;
    forall s: nat | s < NSHARDS
      ensures h.shards[s].status == if Awaited(o, r) && s in r.data then GC else o.shards[s].status
    {
      MergedTogether(k.configs, o, r, from, order, s);
    }
    assert h.cur == o.cur && h.prev == o.prev && h.gid == o.gid && Sized(h);
    hide ApplyShardMigration, VisitOrder;
    forall s: nat | s < NSHARDS ensures PlacedShard(k.configs, h, s) {
      assert PlacedShard(k.configs, o, s);
    }
    forall s: nat, t: nat | SamePair(k.configs, c, s, t) ensures h.shards[s].status == h.shards[t].status {
      assert s in r.data <==> t in r.data;
    }
  }

  lemma SuppliedStill(k: Core, o: Group, h: Group)
    requires Sized(o) && Sized(h) && Supplied(k, o) && h.cur == o.cur && h.prev == o.prev
    requires forall s: nat :: s < NSHARDS && h.shards[s].status == GC ==> o.shards[s].status == GC
    ensures Supplied(k, h)
  {
  }

  lemma CleanSteps(k: Core, g: nat, a: ShardArgs, from: nat, to: nat)
    requires Shaped(k) && g in k.now && PastPlaced(k, g, k.now[g]) && ValidIds(a.ids) && Distinct(a.ids)
    requires CleanWhole(k, g, a, from, to) && a.configNum == k.now[g].cur.num
    ensures var h := ApplyShardGC(k.now[g], a); Steps(k, g, h) && FinishesLast(k, g, h)
  {
    var o, h, c := k.now[g], ApplyShardGC(k.now[g], a), a.configNum;
    assert h.cur == o.cur && h.prev == o.prev && h.gid == o.gid && Sized(h);
    hide ApplyShardGC, Supplied;
    forall s: nat | s < NSHARDS
      ensures h.shards[s] == if s in Ids(a.ids) then Cleaned(o.shards[s]) else o.shards[s]
    {
      CleanedTogether(k.configs, o, a, from, to, s);
    }
    assert Supplied(k, h) by {
      SuppliedStill(k, o, h);
    }
    forall s: nat | s < NSHARDS ensures PlacedShard(k.configs, h, s) {
      assert PlacedShard(k.configs, o, s);
    }
    forall s: nat, t: nat | SamePair(k.configs, c, s, t) ensures h.shards[s].status == h.shards[t].status {
      assert s in Ids(a.ids) <==> t in Ids(a.ids);
    }
    forall d: nat, s: nat | Moving(k.configs, d, s) && k.configs[d][s] == g && Finished(h, d, s)
      ensures Finished(o, d, s) || LetGo(k, d, s)
    {
      assert PlacedShard(k.configs, o, s);
    }
  }

  lemma CommandSteps(k: Core, g: nat, cmd: Command, order: seq<nat>)
    requires Shaped(k) && g in k.now && PastPlaced(k, g, k.now[g])
    requires CommandShaped(cmd) && Visits(cmd, order) && PendingWhole(k, g, cmd)
    ensures var h := Applied(k.now[g], cmd, order); Steps(k, g, h) && FinishesLast(k, g, h)
  {
    hide PastPlaced, ApplyClientOperation, ApplyNewConfig, ApplyShardMigration, ApplyShardGC, Steps, FinishesLast;
    match cmd
    case ClientOp(op) => ClientSteps(k, g, op);
    case ConfigChange(config) =>
      if config.num == k.now[g].cur.num + 1 {
        ChangeSteps(k, g, config);
      } else {
        Stays(k, g, cmd, order);
      }
    case ShardMigration(r) =>
      if r.configNum == k.now[g].cur.num {
        var from: nat :| Whole(k, r.configNum, from, g, r.data.Keys);
        MigrationSteps(k, g, r, from, order);
      } else {
        Stays(k, g, cmd, order);
      }
    case ShardGC(a) =>
      if a.configNum == k.now[g].cur.num {
        var from: nat, to: nat :| CleanWhole(k, g, a, from, to);
        CleanSteps(k, g, a, from, to);
      } else {
        Stays(k, g, cmd, order);
      }
  }

  lemma Stays(k: Core, g: nat, cmd: Command, order: seq<nat>)
    requires Shaped(k) && g in k.now && PastPlaced(k, g, k.now[g]) && CommandShaped(cmd) && Visits(cmd, order)
    requires match cmd
             case ClientOp(_) => false
             case ConfigChange(config) => config.num != k.now[g].cur.num + 1
             case ShardMigration(r) => r.configNum != k.now[g].cur.num
             case ShardGC(a) => a.configNum != k.now[g].cur.num
    ensures var h := Applied(k.now[g], cmd, order); Steps(k, g, h) && FinishesLast(k, g, h)
  {
    OtherNumber(k.now[g], cmd, order);
  }

  // ------------------------------------------------------------------
  // Every step

  lemma MovedForward(k: Core, g: nat, h: Group, log: seq<Op>)
    requires Shaped(k) && g in k.now && Steps(k, g, h) && Shaped(CoreMoved(k, g, h, log))
    ensures Forward(k, CoreMoved(k, g, h, log))
  {
    hide Placed, Supplied;
  }

  lemma FinishedKept(k: Core, g: nat, h: Group, log: seq<Op>, x: nat, d: nat, s: nat)
    requires Shaped(k) && g in k.now && x in k.now && Steps(k, g, h) && FinishesLast(k, g, h)
    requires Shaped(CoreMoved(k, g, h, log)) && FinishedLast(k, x, d, s)
    ensures FinishedLast(CoreMoved(k, g, h, log), x, d, s)
  {
    var k' := CoreMoved(k, g, h, log);
    MovedForward(k, g, h, log);
    hide Steps, LetGo, Finished;
    if Moving(k.configs, d, s) && k.configs[d][s] == x && Finished(k'.now[x], d, s) {
      LetGoForward(k, k', d, s);
    }
  }

  lemma NewPast(k: Core, g: nat, h: Group, log: seq<Op>)
    requires Shaped(k) && g in k.now && Steps(k, g, h) && Shaped(CoreMoved(k, g, h, log)) && k.now[g].gid == g
    ensures PastPlaced(CoreMoved(k, g, h, log), g, h)
  {
    hide Placed;
    MovedForward(k, g, h, log);
  }

  lemma MoveBatches(w: World, g: nat, h: Group, log: seq<Op>)
    requires BatchInv(w) && g in w.core.now && Steps(w.core, g, h) && FinishesLast(w.core, g, h)
    requires Plain(Moved(w, g, h, log))
    ensures BatchInv(Moved(w, g, h, log))
  {
    hide PastPlaced, FinishedLast, PendingWhole, Steps, FinishesLast, Forward, Shaped, CommandShaped, Sized;
    var w' := Moved(w, g, h, log);
    MovedForward(w.core, g, h, log);
    forall x, p | x in w'.past && p in w'.past[x] ensures PastPlaced(w'.core, x, p) {
      if x in w.past && p in w.past[x] {
        PastForward(w.core, w'.core, x, p);
      } else {
        assert w.core.now[g].gid == g by {
          GidOf(w, g);
        }
        NewPast(w.core, g, h, log);
      }
    }
    forall x, d: nat, s: nat | x in w'.core.now ensures FinishedLast(w'.core, x, d, s) {
      FinishedKept(w.core, g, h, log, x, d, s);
    }
    forall x, cmd | x in w'.pending && cmd in w'.pending[x] ensures PendingWhole(w'.core, x, cmd) {
      PendingForward(w.core, w'.core, x, cmd);
    }
  }

  lemma GidOf(w: World, g: nat)
    requires BatchInv(w) && g in w.core.now
    ensures Shaped(w.core) && PastPlaced(w.core, g, w.core.now[g]) && w.core.now[g].gid == g
  {
    hide FinishedLast, PendingWhole, Placed;
  }

  lemma CommandOf(w: World, g: nat, cmd: Command)
    requires BatchInv(w) && g in w.core.now && g in w.pending && cmd in w.pending[g]
    ensures Shaped(w.core) && CommandShaped(cmd) && PendingWhole(w.core, g, cmd)
  {
    hide FinishedLast, PastPlaced, PendingWhole, CommandShaped, Shaped;
  }

  lemma BatchesKept(w: World, act: Action)
    requires BatchInv(w) && Can(w, act)
    ensures BatchInv(After(w, act))
  {
    KeysOf(w);
    PlainKept(w, act);
    if act.Commit? {
      hide BatchInv, Plain, PastPlaced, PendingWhole, CommandShaped, Applied, Steps, FinishesLast, LogAfter, Shaped;
      GidOf(w, act.g);
      CommandOf(w, act.g, act.cmd);
      CommandSteps(w.core, act.g, act.cmd, act.order);
      MoveBatches(w, act.g, Applied(w.core.now[act.g], act.cmd, act.order), LogAfter(w.core, act.g, act.cmd));
    } else {
      hide BatchInv, Plain, Can, Proposal, PendingWhole, Shaped;
      ProposalWhole(w, act);
      ProposeBatches(w, Proposal(w, act).0, Proposal(w, act).1);
    }
  }

  lemma ProposeBatches(w: World, to: nat, cmd: Command)
    requires BatchInv(w) && to in w.core.now && to in w.pending && PendingWhole(w.core, to, cmd)
    requires Plain(Propose(w, to, cmd))
    ensures BatchInv(Propose(w, to, cmd))
  {
    hide PastPlaced, FinishedLast, PendingWhole, Shaped, CommandShaped, Sized;
  }

  lemma FollowsBatches(w: World, w': World)
    requires BatchInv(w) && Follows(w, w')
    ensures BatchInv(w')
  {
    var act :| Can(w, act) && w' == After(w, act);
    hide BatchInv, Can, After;
    BatchesKept(w, act);
  }

  lemma {:induction false} RunBatches(r: seq<World>, k: nat)
    requires Run(r) && k < |r|
    ensures BatchInv(r[k])
  {
    hide BatchInv, Follows, Start;
    if k == 0 {
      StartBatches(r[0]);
    } else {
      RunBatches(r, k - 1);
      FollowsBatches(r[k - 1], r[k]);
    }
  }

  // ------------------------------------------------------------------
  // Every run, over any configurations

  /** In every committed state of every group, the shards of a batch have one status. */
  lemma MoveTogether(r: seq<World>, k: nat, g: nat, p: Group)
    requires Run(r) && k < |r| && g in r[k].past && p in r[k].past[g]
    ensures ConfigsOk(r[k].core.configs) && Placed(r[k].core.configs, p) && Uniform(r[k].core.configs, p)
  {
    hide Run, BatchInv;
    RunBatches(r, k);
    PastOf(r[k], g, p);
  }

  /** Servers that visit the shards of a reply in different orders end in the
      same state: a batch comes in whole or not at all. */
  lemma OrderIrrelevant(r: seq<World>, k: nat, g: nat, reply: ShardReply, order1: seq<nat>, order2: seq<nat>)
    requires Run(r) && k < |r| && g in r[k].core.now && g in r[k].pending && Sized(r[k].core.now[g])
    requires ShardMigration(reply) in r[k].pending[g] && VisitOrder(order1, reply.data)
    requires VisitOrder(order2, reply.data)
    ensures var o := r[k].core.now[g];
            && ApplyShardMigration(o, reply, order1) == ApplyShardMigration(o, reply, order2)
            && (reply.configNum == o.cur.num ==>
                  DataShaped(reply.data) && forall s: nat :: s < NSHARDS ==>
                    (ApplyShardMigration(o, reply, order1).shards[s] ==
                     if Awaited(o, reply) && s in reply.data then ShardData(o.shards[s].kv + reply.data[s], GC)
                     else o.shards[s]))
  {
    hide Run, BatchInv, VisitOrder, Awaited, MergeShards, PastPlaced;
    var w := r[k];
    RunBatches(r, k);
    GidOf(w, g);
    CommandOf(w, g, ShardMigration(reply));
    var o := w.core.now[g];
    var from: nat :| Whole(w.core, reply.configNum, from, g, reply.data.Keys);
    if reply.configNum == o.cur.num {
      PlacedFacts(w.core, g);
      var h1, h2 := ApplyShardMigration(o, reply, order1), ApplyShardMigration(o, reply, order2);
      forall s: nat | s < NSHARDS
        ensures h1.shards[s] == h2.shards[s]
             == if Awaited(o, reply) && s in reply.data then ShardData(o.shards[s].kv + reply.data[s], GC)
                else o.shards[s]
      {
        MergedTogether(w.core.configs, o, reply, from, order1, s);
        MergedTogether(w.core.configs, o, reply, from, order2, s);
      }
      assert h1.shards == h2.shards;
    }
  }

  lemma PlacedFacts(k: Core, g: nat)
    requires Shaped(k) && g in k.now && PastPlaced(k, g, k.now[g])
    ensures Sized(k.now[g]) && Uniform(k.configs, k.now[g]) && k.now[g].gid == g
  {
  }

  /** A clean-up, too, covers its whole batch or nothing of it. */
  lemma CleanUpWhole(r: seq<World>, k: nat, g: nat, a: ShardArgs, s: nat)
    requires Run(r) && k < |r| && g in r[k].core.now && g in r[k].pending && Sized(r[k].core.now[g])
    requires ValidIds(a.ids)
    requires ShardGC(a) in r[k].pending[g] && a.configNum == r[k].core.now[g].cur.num && s < NSHARDS
    ensures var o := r[k].core.now[g];
            ApplyShardGC(o, a).shards[s] == if s in Ids(a.ids) then Cleaned(o.shards[s]) else o.shards[s]
  {
    hide Run, BatchInv, PastPlaced;
    var w := r[k];
    RunBatches(r, k);
    GidOf(w, g);
    CommandOf(w, g, ShardGC(a));
    PlacedFacts(w.core, g);
    var from: nat, to: nat :| CleanWhole(w.core, g, a, from, to);
    CleanedTogether(w.core.configs, w.core.now[g], a, from, to, s);
  }

  /** A server answers a request to drop shards that were its group's when the command has been applied.
      By then the group has moved on from the configuration, or keeps none of the shards. */
  lemma AnsweredIsDropped(r: seq<World>, k: nat, g: nat, a: ShardArgs, s: nat)
    requires Run(r) && k < |r| && g in r[k].core.now && g in r[k].pending && Sized(r[k].core.now[g])
    requires ShardGC(a) in r[k].pending[g] && ValidIds(a.ids) && s in Ids(a.ids) && s < NSHARDS
    requires 0 < a.configNum < |r[k].core.configs| && |r[k].core.configs[a.configNum - 1]| == NSHARDS
    requires r[k].core.configs[a.configNum - 1][s] == g
    ensures Dropped(ApplyShardGC(r[k].core.now[g], a), a.configNum, a.ids)
  {
    hide Run, BatchInv, PastPlaced;
    var w, o := r[k], r[k].core.now[g];
    RunBatches(r, k);
    GidOf(w, g);
    CommandOf(w, g, ShardGC(a));
    var from: nat, to: nat :| CleanWhole(w.core, g, a, from, to);
    assert from == g;
    if o.cur.num == a.configNum {
      forall i | 0 <= i < |a.ids| ensures ApplyShardGC(o, a).shards[a.ids[i]].status == Normal {
        assert a.ids[i] in Ids(a.ids);
        PlacedFacts(w.core, g);
        CleanedTogether(w.core.configs, o, a, from, to, a.ids[i]);
        OldOwner(w.core, g, to, a.ids[i]);
      }
    }
  }

  lemma OldOwner(k: Core, g: nat, to: nat, s: nat)
    requires Shaped(k) && g in k.now && PastPlaced(k, g, k.now[g]) && s < NSHARDS && to != g
    requires 0 < k.now[g].cur.num < |k.configs| && k.configs[k.now[g].cur.num][s] == to
    ensures k.now[g].shards[s].status == Normal || k.now[g].shards[s].status == MoveOut
  {
    assert PlacedShard(k.configs, k.now[g], s);
  }
}
