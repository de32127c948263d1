/** All groups together, over one sequence of configurations. A group's servers
    agree on a log of commands; a leader may act on any committed prefix of it,
    so requests and proposals are made from past states of a group as well as
    from the present one. */
module ShardWorld {
  import opened ShardState

  /** The committed states. `log` records the writes that took effect, wherever
      they did, in the order they did. */
  datatype Core = Core(configs: seq<seq<nat>>, now: map<nat, Group>, log: seq<Op>)

  datatype World = World(
    core: Core,
    past: map<nat, set<Group>>,          // every committed state, the present one among them
    pending: map<nat, set<Command>>)     // proposed; may be committed at any time, any number of times

  ghost predicate ConfigsOk(cs: seq<seq<nat>>) {
    && cs != [] && cs[0] == NOBODY
    && forall c :: 0 <= c < |cs| ==> |cs[c]| == NSHARDS
  }

  ghost predicate Assigned(cs: seq<seq<nat>>, c: nat, s: nat)
    requires ConfigsOk(cs)
  {
    c < |cs| && s < NSHARDS && cs[c][s] != 0
  }

  /** Once assigned, a shard is never left without a group again. */
  ghost predicate NoReturn(cs: seq<seq<nat>>)
    requires ConfigsOk(cs)
  {
    forall b: nat, c: nat, s: nat :: c == b + 1 && Assigned(cs, b, s) && c < |cs| ==> Assigned(cs, c, s)
  }

  ghost predicate Shaped(k: Core) {
    && ConfigsOk(k.configs) && 0 !in k.now
    && (forall c: nat, s: nat :: Assigned(k.configs, c, s) ==> k.configs[c][s] in k.now)
    && (forall g :: g in k.now ==> Sized(k.now[g]))
  }

  ghost predicate DataShaped(data: map<nat, KV>) {
    forall s :: s in data ==> s < NSHARDS
  }

  ghost predicate CommandShaped(cmd: Command) {
    match cmd
    case ClientOp(_) => true
    case ConfigChange(config) => |config.shards| == NSHARDS
    case ShardMigration(r) => DataShaped(r.data)
    case ShardGC(args) => ValidIds(args.ids) && Distinct(args.ids)
  }

  ghost predicate WorldShaped(w: World) {
    && Shaped(w.core) && w.past.Keys == w.core.now.Keys && w.pending.Keys == w.core.now.Keys
    && (forall g, p :: g in w.past && p in w.past[g] ==> Sized(p))
    && (forall g, cmd :: g in w.pending && cmd in w.pending[g] ==> CommandShaped(cmd))
  }

  ghost predicate Start(w: World) {
    && WorldShaped(w) && w.core.log == []
    && forall g :: g in w.core.now ==> w.core.now[g] == NewGroup(g) && w.past[g] == {NewGroup(g)} && w.pending[g] == {}
  }

  // ------------------------------------------------------------------
  // Steps

  datatype Action =
    | Submit(g: nat, p: Group, op: Op)
    | FetchConfig(g: nat, p: Group)
    | Pull(g: nat, p: Group, from: nat, q: Group, ids: seq<nat>)      // ask `from` for shards, propose what it answers
    | AskDelete(g: nat, p: Group, from: nat, q: Group, ids: seq<nat>) // `from` proposes to drop its copies
    | FinishGC(g: nat, p: Group, from: nat, q: Group, ids: seq<nat>)  // `from` answers that it has dropped them
    | Commit(g: nat, cmd: Command, order: seq<nat>)

  /** `ids` are the shards of `p` in `status` that came from group `from`, in some order. */
  ghost predicate Batch(p: Group, status: Status, from: nat, ids: seq<nat>)
    requires Sized(p)
  {
    from != 0 && ids != [] && ValidIds(ids) && Distinct(ids) && Ids(ids) == ByStatus(p, status, from)
  }

  /** The group has moved on from configuration `c`, or keeps none of the shards any more. */
  ghost predicate Dropped(q: Group, c: nat, ids: seq<nat>)
    requires Sized(q) && ValidIds(ids)
  {
    q.cur.num > c || (q.cur.num == c && AllHave(q.shards, ids, Normal))
  }

  ghost predicate Can(w: World, act: Action)
    requires WorldShaped(w)
  {
    && act.g in w.core.now
    && match act
       case Submit(g, p, op) =>
         p in w.past[g] && Serves(p, Key2Shard(op.key)) && (op.kind == OpGet || !Duplicated(p.dup, op.client, op.seqId))
       case FetchConfig(g, p) => p in w.past[g] && AllNormal(p) && p.cur.num + 1 < |w.core.configs|
       case Pull(g, p, from, q, ids) =>
         p in w.past[g] && from in w.past && q in w.past[from] && Batch(p, MoveIn, from, ids) && q.cur.num >= p.cur.num
       case AskDelete(g, p, from, q, ids) =>
         p in w.past[g] && from in w.past && q in w.past[from] && Batch(p, GC, from, ids) && q.cur.num <= p.cur.num
       case FinishGC(g, p, from, q, ids) =>
         p in w.past[g] && from in w.past && q in w.past[from] && Batch(p, GC, from, ids) && Dropped(q, p.cur.num, ids)
       case Commit(g, cmd, order) => cmd in w.pending[g] && Visits(cmd, order)
  }

  /** The order in which the committing server goes through the shards of a reply. */
  ghost predicate Visits(cmd: Command, order: seq<nat>) {
    cmd.ShardMigration? ==> VisitOrder(order, cmd.reply.data)
  }

  ghost function Applied(g: Group, cmd: Command, order: seq<nat>): Group
    requires Sized(g) && CommandShaped(cmd) && Visits(cmd, order)
  {
    match cmd
    case ClientOp(op) => ApplyClientOperation(g, op).0
    case ConfigChange(config) => ApplyNewConfig(g, config)
    case ShardMigration(r) => ApplyShardMigration(g, r, order)
    case ShardGC(args) => ApplyShardGC(g, args)
  }

  /** The proposal an action makes: to whom and what. */
  ghost function Proposal(w: World, act: Action): (nat, Command)
    requires WorldShaped(w) && Can(w, act) && !act.Commit?
  {
    match act
    case Submit(g, p, op) => (g, ClientOp(op))
    case FetchConfig(g, p) => (g, ConfigChange(Config(p.cur.num + 1, w.core.configs[p.cur.num + 1])))
    case Pull(g, p, from, q, ids) => (g, ShardMigration(GetShardsData(q, ShardArgs(p.cur.num, ids))))
    case AskDelete(g, p, from, q, ids) => (from, ShardGC(ShardArgs(p.cur.num, ids)))
    case FinishGC(g, p, from, q, ids) => (g, ShardGC(ShardArgs(p.cur.num, ids)))
  }

  ghost function Propose(w: World, g: nat, cmd: Command): World
    requires g in w.pending
  {
    w.(pending := w.pending[g := w.pending[g] + {cmd}])
  }

  ghost function Moved(w: World, g: nat, h: Group, log: seq<Op>): World
    requires g in w.past
  {
    World(CoreMoved(w.core, g, h, log), w.past[g := w.past[g] + {h}], w.pending)
  }

  ghost function CoreMoved(k: Core, g: nat, h: Group, log: seq<Op>): Core {
    Core(k.configs, k.now[g := h], log)
  }

  ghost function LogAfter(k: Core, g: nat, cmd: Command): seq<Op>
    requires Shaped(k) && g in k.now
  {
    if cmd.ClientOp? && TakesEffect(k.now[g], cmd.op) then k.log + [cmd.op] else k.log
  }

  ghost function After(w: World, act: Action): World
    requires WorldShaped(w) && Can(w, act)
  {
    if act.Commit? then
      Moved(w, act.g, Applied(w.core.now[act.g], act.cmd, act.order), LogAfter(w.core, act.g, act.cmd))
    else Propose(w, Proposal(w, act).0, Proposal(w, act).1)
  }

  // ------------------------------------------------------------------
  // What every state of a group satisfies by itself

  /** Configuration `c` moves shard `s` from one group to another. */
  ghost predicate Moving(cs: seq<seq<nat>>, c: nat, s: nat)
    requires ConfigsOk(cs)
  {
    0 < c < |cs| && s < NSHARDS && cs[c - 1][s] != cs[c][s] && cs[c - 1][s] != 0 && cs[c][s] != 0
  }

  /** A shard that is not normal is moving, to the group or from it. */
  ghost predicate PlacedShard(cs: seq<seq<nat>>, g: Group, s: nat)
    requires ConfigsOk(cs) && Sized(g) && g.cur.num < |cs| && s < NSHARDS
  {
    var c := g.cur.num;
    match g.shards[s].status
    case Normal => true
    case MoveIn => Moving(cs, c, s) && cs[c][s] == g.gid
    case GC => Moving(cs, c, s) && cs[c][s] == g.gid
    case MoveOut => Moving(cs, c, s) && cs[c - 1][s] == g.gid
  }

  /** What a group keeps of a shard when no shard is left to nobody again. */
  ghost predicate LocalShard(cs: seq<seq<nat>>, g: Group, s: nat)
    requires ConfigsOk(cs) && Sized(g) && g.cur.num < |cs| && s < NSHARDS
  {
    && PlacedShard(cs, g, s)
    && match g.shards[s].status
       case Normal => cs[g.cur.num][s] != g.gid ==> g.shards[s].kv == map[]
       case MoveIn => g.shards[s].kv == map[]
       case _ => true
  }

  ghost predicate SamePair(cs: seq<seq<nat>>, c: nat, s: nat, t: nat)
    requires ConfigsOk(cs)
  {
    Moving(cs, c, s) && Moving(cs, c, t) && cs[c - 1][s] == cs[c - 1][t] && cs[c][s] == cs[c][t]
  }

  /** Shards that move together are always in the same state. */
  ghost predicate Uniform(cs: seq<seq<nat>>, g: Group)
    requires ConfigsOk(cs) && Sized(g)
  {
    forall s: nat, t: nat :: SamePair(cs, g.cur.num, s, t) ==> g.shards[s].status == g.shards[t].status
  }

  ghost predicate Placed(cs: seq<seq<nat>>, g: Group)
    requires ConfigsOk(cs)
  {
    && Sized(g) && g.cur.num < |cs| && g.cur.shards == cs[g.cur.num]
    && (g.cur.num > 0 ==> g.prev.shards == cs[g.cur.num - 1])
    && (forall s: nat :: s < NSHARDS ==> PlacedShard(cs, g, s))
    && Uniform(cs, g)
  }

  ghost predicate Local(cs: seq<seq<nat>>, g: Group)
    requires ConfigsOk(cs)
  {
    && Sized(g) && g.cur.num < |cs| && g.cur.shards == cs[g.cur.num]
    && (g.cur.num > 0 ==> g.prev.shards == cs[g.cur.num - 1])
    && (forall s: nat :: s < NSHARDS ==> LocalShard(cs, g, s))
    && Uniform(cs, g)
  }

  lemma LocalPlaced(cs: seq<seq<nat>>, g: Group)
    requires ConfigsOk(cs) && Local(cs, g)
    ensures Placed(cs, g)
  {
    forall s: nat | s < NSHARDS ensures PlacedShard(cs, g, s) {
      assert LocalShard(cs, g, s);
    }
  }

  /** The shards that configuration `c` moves from `from` to `to`. */
  ghost function Pairs(cs: seq<seq<nat>>, c: nat, from: nat, to: nat): set<nat>
    requires ConfigsOk(cs) && 0 < c < |cs|
  {
    set s | 0 <= s < NSHARDS && cs[c - 1][s] == from && cs[c][s] == to
  }

  // ------------------------------------------------------------------
  // Batches

  /** A non-empty batch is all the shards that move between the two groups. */
  lemma BatchIsPairs(cs: seq<seq<nat>>, p: Group, status: Status, from: nat, ids: seq<nat>)
    requires ConfigsOk(cs) && Placed(cs, p) && Batch(p, status, from, ids) && (status == MoveIn || status == GC)
    ensures p.cur.num > 0 && from != p.gid && p.gid != 0 && Ids(ids) == Pairs(cs, p.cur.num, from, p.gid)
  {
    var c := p.cur.num;
    var x := ids[0];
    assert x in Ids(ids);
    assert PlacedShard(cs, p, x);
    assert Moving(cs, c, x) && cs[c][x] == p.gid && cs[c - 1][x] == from;
    forall s: nat ensures s in Ids(ids) <==> s in Pairs(cs, c, from, p.gid) {
      if s in Ids(ids) {
        assert PlacedShard(cs, p, s);
      }
      if s in Pairs(cs, c, from, p.gid) {
        assert SamePair(cs, c, x, s);
      }
    }
  }

  /** The reply is still awaited: none of its shards has come yet. */
  ghost predicate Awaited(o: Group, r: ShardReply)
    requires Sized(o) && DataShaped(r.data)
  {
    forall s :: s in r.data ==> o.shards[s].status == MoveIn
  }

  /** A batch comes in whole or not at all. */
  lemma MergedTogether(cs: seq<seq<nat>>, o: Group, r: ShardReply, from: nat, order: seq<nat>, s: nat)
    requires ConfigsOk(cs) && Sized(o) && Uniform(cs, o) && DataShaped(r.data) && VisitOrder(order, r.data)
    requires r.configNum == o.cur.num && 0 < o.cur.num < |cs| && s < NSHARDS
    requires from != 0 && o.gid != 0 && from != o.gid && r.data.Keys == Pairs(cs, o.cur.num, from, o.gid)
    ensures ApplyShardMigration(o, r, order).shards[s] ==
              if Awaited(o, r) && s in r.data then ShardData(o.shards[s].kv + r.data[s], GC) else o.shards[s]
  {
    assert s in order <==> s in r.data by {
      assert s in order <==> s in Ids(order);
    }
    if Awaited(o, r) {
      MergeAll(o.shards, r.data, order, s);
    } else {
      var x: nat :| x in r.data && o.shards[x].status != MoveIn;
      assert x in Ids(order);
      assert order[0] in r.data;
      assert SamePair(cs, o.cur.num, x, order[0]);
    }
  }

  /** What clean-up makes of a shard. */
  ghost function Cleaned(d: ShardData): ShardData {
    match d.status
    case GC => d.(status := Normal)
    case MoveOut => EMPTY_SHARD
    case _ => d
  }

  /** A clean-up covers its whole batch or nothing of it. */
  lemma CleanedTogether(cs: seq<seq<nat>>, o: Group, a: ShardArgs, from: nat, to: nat, s: nat)
    requires ConfigsOk(cs) && Sized(o) && Uniform(cs, o) && ValidIds(a.ids) && Distinct(a.ids)
    requires a.configNum == o.cur.num && 0 < o.cur.num < |cs| && s < NSHARDS
    requires from != 0 && to != 0 && from != to && Ids(a.ids) == Pairs(cs, o.cur.num, from, to)
    ensures ApplyShardGC(o, a).shards[s] == if s in Ids(a.ids) then Cleaned(o.shards[s]) else o.shards[s]
  {
    assert s in a.ids <==> s in Ids(a.ids);
    if a.ids != [] {
      var x := a.ids[0];
      assert x in Ids(a.ids);
      forall i | 0 <= i < |a.ids| ensures o.shards[a.ids[i]].status == o.shards[x].status {
        assert a.ids[i] in Ids(a.ids);
        assert SamePair(cs, o.cur.num, x, a.ids[i]);
      }
      if o.shards[x].status != MoveIn {
        CleanAll(o.shards, a.ids, o.shards[x].status, s);
      }
    }
  }

  // ------------------------------------------------------------------
  // What holds between groups

  ghost function Cur(k: Core, g: nat): nat {
    if g in k.now then k.now[g].cur.num else 0
  }

  /** The owner of shard `s` in configuration `c` has taken it over. */
  ghost predicate Reached(k: Core, s: nat, c: nat)
    requires Shaped(k) && s < NSHARDS
  {
    && c < |k.configs|
    && var g := k.configs[c][s];
       g in k.now && (k.now[g].cur.num > c || (k.now[g].cur.num == c && k.now[g].shards[s].status != MoveIn))
  }

  /** The group has the contents of the shard, and knows every write that made them. */
  ghost predicate Holds(g: Group, log: seq<Op>, s: nat)
    requires Sized(g) && s < NSHARDS
  {
    g.shards[s].kv == Content(log, s) && Covers(g.dup, log, s)
  }

  /** A new owner takes over only after the old one has let go. */
  ghost predicate InTurn(k: Core, s: nat)
    requires Shaped(k) && s < NSHARDS
  {
    forall c: nat :: 0 < c && Reached(k, s, c) && k.configs[c - 1][s] != 0 ==> Cur(k, k.configs[c - 1][s]) >= c
  }

  ghost predicate ServersHold(k: Core, s: nat)
    requires Shaped(k) && s < NSHARDS
  {
    forall g :: g in k.now && Serves(k.now[g], s) ==> Holds(k.now[g], k.log, s)
  }

  ghost predicate TouchedReached(k: Core, s: nat)
    requires Shaped(k) && s < NSHARDS
  {
    Touched(k.log, s) ==> exists c: nat :: Reached(k, s, c)
  }

  /** What the group gave away in earlier configurations was taken over. */
  ghost predicate HandedOver(k: Core, p: Group, s: nat)
    requires Shaped(k) && s < NSHARDS
  {
    forall d: nat :: d < p.cur.num && Moving(k.configs, d, s) && k.configs[d - 1][s] == p.gid ==> Reached(k, s, d)
  }

  ghost predicate PastShard(k: Core, p: Group, s: nat)
    requires Shaped(k) && Local(k.configs, p) && p.gid in k.now && s < NSHARDS
  {
    var cs, c, st := k.configs, p.cur.num, p.shards[s].status;
    && (c == k.now[p.gid].cur.num && st == Normal ==> k.now[p.gid].shards[s].status == Normal)
    && (cs[c][s] == p.gid && st != MoveIn ==> Reached(k, s, c))
    && (Moving(cs, c, s) && cs[c - 1][s] == p.gid && st == Normal ==> Reached(k, s, c))
    && (st == MoveOut ==> Reached(k, s, c) || Holds(p, k.log, s))
    && HandedOver(k, p, s)
  }

  ghost predicate PastOk(k: Core, g: nat, p: Group)
    requires Shaped(k) && g in k.now
  {
    && Local(k.configs, p) && p.gid == g
    && p.cur.num <= k.now[g].cur.num && TableCovers(k.now[g].dup, p.dup)
    && forall s: nat :: s < NSHARDS ==> PastShard(k, p, s)
  }

  // ------------------------------------------------------------------
  // What is proposed

  ghost predicate Carried(k: Core, r: ShardReply, s: nat)
    requires Shaped(k) && s < NSHARDS && s in r.data
  {
    Reached(k, s, r.configNum) || (r.data[s] == Content(k.log, s) && Covers(r.dup, k.log, s))
  }

  ghost predicate MigrationOk(k: Core, g: nat, r: ShardReply, from: nat)
    requires Shaped(k) && DataShaped(r.data)
  {
    && from != 0 && from != g && g != 0 && 0 < r.configNum < |k.configs|
    && Cur(k, from) >= r.configNum && Cur(k, g) >= r.configNum
    && r.data.Keys == Pairs(k.configs, r.configNum, from, g)
    && forall s :: s in r.data ==> Carried(k, r, s)
  }

  ghost predicate CleanOk(k: Core, g: nat, a: ShardArgs, from: nat, to: nat)
    requires Shaped(k)
  {
    && from != 0 && to != 0 && from != to && (g == from || g == to) && 0 < a.configNum < |k.configs|
    && Ids(a.ids) == Pairs(k.configs, a.configNum, from, to)
    && forall s: nat :: s < NSHARDS && s in Ids(a.ids) ==> Reached(k, s, a.configNum)
  }

  ghost predicate ChangeOk(k: Core, g: nat, config: Config)
    requires Shaped(k) && g in k.now
  {
    && 0 < config.num < |k.configs| && config.shards == k.configs[config.num]
    && Cur(k, g) >= config.num - 1
    && (Cur(k, g) == config.num - 1 ==> AllNormal(k.now[g]))
  }

  ghost predicate MigrationPending(k: Core, g: nat, r: ShardReply)
    requires Shaped(k) && DataShaped(r.data)
  {
    exists from: nat :: MigrationOk(k, g, r, from)
  }

  ghost predicate CleanPending(k: Core, g: nat, a: ShardArgs)
    requires Shaped(k)
  {
    exists from: nat, to: nat :: CleanOk(k, g, a, from, to)
  }

  ghost predicate PendingOk(k: Core, g: nat, cmd: Command)
    requires Shaped(k) && g in k.now && CommandShaped(cmd)
  {
    match cmd
    case ClientOp(_) => true
    case ConfigChange(config) => ChangeOk(k, g, config)
    case ShardMigration(r) => MigrationPending(k, g, r)
    case ShardGC(a) => CleanPending(k, g, a)
  }

  ghost predicate ShardOk(k: Core, s: nat)
    requires Shaped(k) && s < NSHARDS
  {
    InTurn(k, s) && ServersHold(k, s) && TouchedReached(k, s)
  }

  ghost predicate WorldInv(w: World) {
    && WorldShaped(w) && NoReturn(w.core.configs)
    && (forall g :: g in w.core.now ==> w.core.now[g] in w.past[g])
    && (forall g, p :: g in w.past && p in w.past[g] ==> PastOk(w.core, g, p))
    && (forall s: nat :: s < NSHARDS ==> ShardOk(w.core, s))
    && (forall g, cmd :: g in w.pending && cmd in w.pending[g] ==> PendingOk(w.core, g, cmd))
  }

  lemma StartInv(w: World)
    requires Start(w) && NoReturn(w.core.configs)
    ensures WorldInv(w)
  {
    forall g | g in w.core.now ensures PastOk(w.core, g, NewGroup(g)) {
    }
  }

  // ------------------------------------------------------------------
  // Owners take turns

  lemma {:induction false} AssignedOn(cs: seq<seq<nat>>, s: nat, b: nat, c: nat)
    requires ConfigsOk(cs) && NoReturn(cs) && b <= c < |cs| && Assigned(cs, b, s)
    ensures Assigned(cs, c, s)
    decreases c
  {
    if b < c {
      AssignedOn(cs, s, b, c - 1);
    }
  }

  /** Once configuration `c` is reached, every earlier owner has moved on from its turn. */
  lemma {:induction false} TurnsOver(k: Core, s: nat, b: nat, c: nat)
    requires Shaped(k) && s < NSHARDS && InTurn(k, s) && NoReturn(k.configs)
    requires b < c && Reached(k, s, c) && Assigned(k.configs, b, s)
    ensures Cur(k, k.configs[b][s]) > b
    decreases c
  {
    AssignedOn(k.configs, s, b, c - 1);
    if b < c - 1 {
      assert Reached(k, s, c - 1);
      TurnsOver(k, s, b, c - 1);
    }
  }

  /** No two groups serve a shard. */
  lemma OneServer(k: Core, s: nat, g: nat, h: nat)
    requires Shaped(k) && s < NSHARDS && InTurn(k, s) && NoReturn(k.configs)
    requires g in k.now && h in k.now && Local(k.configs, k.now[g]) && Local(k.configs, k.now[h])
    requires k.now[g].gid == g && k.now[h].gid == h && Serves(k.now[g], s) && Serves(k.now[h], s)
    ensures g == h
  {
    var c, d := k.now[g].cur.num, k.now[h].cur.num;
    assert Reached(k, s, c) && Reached(k, s, d) && Assigned(k.configs, c, s) && Assigned(k.configs, d, s);
    if c < d {
      TurnsOver(k, s, c, d);
    } else if d < c {
      TurnsOver(k, s, d, c);
    }
  }

  /** While a shard is served, no hand-over of it is under way. */
  lemma ServedReached(k: Core, s: nat, g: nat, c: nat)
    requires Shaped(k) && s < NSHARDS && InTurn(k, s) && NoReturn(k.configs)
    requires g in k.now && Local(k.configs, k.now[g]) && k.now[g].gid == g && Serves(k.now[g], s)
    requires Moving(k.configs, c, s) && Cur(k, k.configs[c - 1][s]) >= c
    ensures Reached(k, s, c)
  {
    var d, cs := k.now[g].cur.num, k.configs;
    assert Reached(k, s, d) && Assigned(cs, d, s) && Assigned(cs, c - 1, s) && Assigned(cs, c, s);
    if c < d {
      TurnsOver(k, s, c, d);
    } else if d < c - 1 {
      assert Reached(k, s, c - 1);
      TurnsOver(k, s, d, c - 1);
    }
  }
}
