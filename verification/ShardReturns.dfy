/** Configurations that leave an assigned shard to nobody. The group that had it keeps
    its copy, and a group that gets it from nobody starts without asking for one, so the
    store stays sound when such a shard is next given back to the group that had it. */
module ShardReturns {
  import opened ShardState
  import opened ShardWorld
  import opened ShardInvariant
  import opened ShardRuns

  /** The group that has shard `s`, or had it last, in configuration `c`. */
  ghost function Holder(cs: seq<seq<nat>>, c: nat, s: nat): nat
    requires ConfigsOk(cs) && c < |cs| && s < NSHARDS
    decreases c
  {
    if cs[c][s] != 0 || c == 0 then cs[c][s] else Holder(cs, c - 1, s)
  }

  ghost function HolderRow(cs: seq<seq<nat>>, c: nat): seq<nat>
    requires ConfigsOk(cs) && c < |cs|
  {
    seq(NSHARDS, s requires 0 <= s < NSHARDS => Holder(cs, c, s))
  }

  /** The configurations in which nobody's shards stay with their last group. */
  ghost function Holders(cs: seq<seq<nat>>): seq<seq<nat>>
    requires ConfigsOk(cs)
  {
    seq(|cs|, c requires 0 <= c < |cs| => HolderRow(cs, c))
  }

  /** If configuration `c` gives `s` from nobody to a group, it is the group that had it last. */
  ghost predicate HandedBack(cs: seq<seq<nat>>, c: nat, s: nat)
    requires ConfigsOk(cs) && 0 < c < |cs| && s < NSHARDS
  {
    cs[c - 1][s] == 0 && cs[c][s] != 0 ==> Holder(cs, c - 1, s) == 0 || Holder(cs, c - 1, s) == cs[c][s]
  }

  ghost predicate Faithful(cs: seq<seq<nat>>)
    requires ConfigsOk(cs)
  {
    forall c: nat, s: nat :: 0 < c < |cs| && s < NSHARDS ==> HandedBack(cs, c, s)
  }

  lemma HoldersOk(cs: seq<seq<nat>>)
    requires ConfigsOk(cs)
    ensures ConfigsOk(Holders(cs)) && NoReturn(Holders(cs)) && |Holders(cs)| == |cs|
  {
    assert HolderRow(cs, 0) == NOBODY;
  }

  lemma {:induction false} NoReturnHolds(cs: seq<seq<nat>>, c: nat, s: nat)
    requires ConfigsOk(cs) && NoReturn(cs) && c < |cs| && s < NSHARDS
    ensures Holder(cs, c, s) == cs[c][s]
    decreases c
  {
    if c > 0 {
      NoReturnHolds(cs, c - 1, s);
      assert Assigned(cs, c - 1, s) ==> Assigned(cs, c, s);
    }
  }

  /** Configurations that leave no shard to nobody again are faithful. */
  lemma NoReturnFaithful(cs: seq<seq<nat>>)
    requires ConfigsOk(cs) && NoReturn(cs)
    ensures Faithful(cs)
  {
    forall c: nat, s: nat | 0 < c < |cs| && s < NSHARDS ensures HandedBack(cs, c, s) {
      NoReturnHolds(cs, c - 1, s);
    }
  }

  lemma StatusSame(cs: seq<seq<nat>>, c: nat, s: nat, gid: nat, status: Status)
    requires ConfigsOk(cs) && Faithful(cs) && 0 < c < |cs| && s < NSHARDS && gid != 0
    ensures NewStatus(gid, cs[c - 1][s], cs[c][s], status)
         == NewStatus(gid, Holder(cs, c - 1, s), Holder(cs, c, s), status)
  {
    assert HandedBack(cs, c, s);
  }

  lemma MovingSame(cs: seq<seq<nat>>, c: nat, s: nat)
    requires ConfigsOk(cs) && Faithful(cs) && ConfigsOk(Holders(cs)) && Moving(Holders(cs), c, s)
    ensures c < |cs| && cs[c - 1][s] == Holder(cs, c - 1, s) && cs[c][s] == Holder(cs, c, s)
  {
    assert HandedBack(cs, c, s);
  }

  // ------------------------------------------------------------------
  // The same world, over the holders

  ghost function Raised(cs: seq<seq<nat>>, g: Group): Group
    requires ConfigsOk(cs)
  {
    var c := g.cur.num;
    if c >= |cs| then g
    else if c == 0 then g.(cur := Config(c, HolderRow(cs, c)))
    else g.(cur := Config(c, HolderRow(cs, c)), prev := Config(g.prev.num, HolderRow(cs, c - 1)))
  }

  ghost function RaisedCommand(cs: seq<seq<nat>>, cmd: Command): Command
    requires ConfigsOk(cs)
  {
    if cmd.ConfigChange? && cmd.config.num < |cs| then
      ConfigChange(Config(cmd.config.num, HolderRow(cs, cmd.config.num)))
    else cmd
  }

  ghost function RaisedCore(k: Core): Core
    requires ConfigsOk(k.configs)
  {
    Core(Holders(k.configs), map g | g in k.now :: Raised(k.configs, k.now[g]), k.log)
  }

  ghost function RaisedWorld(w: World): World
    requires ConfigsOk(w.core.configs)
  {
    World(RaisedCore(w.core),
          map g | g in w.past :: set p | p in w.past[g] :: Raised(w.core.configs, p),
          map g | g in w.pending :: set cmd | cmd in w.pending[g] :: RaisedCommand(w.core.configs, cmd))
  }

  /** A group state is at one of the configurations. */
  ghost predicate Tracks(cs: seq<seq<nat>>, g: Group)
    requires ConfigsOk(cs)
  {
    && Sized(g) && g.gid != 0 && g.cur.num < |cs| && g.cur.shards == cs[g.cur.num]
    && (g.cur.num > 0 ==> g.prev.shards == cs[g.cur.num - 1])
  }

  ghost predicate CommandTracks(cs: seq<seq<nat>>, cmd: Command)
    requires ConfigsOk(cs)
  {
    cmd.ConfigChange? ==> 0 < cmd.config.num < |cs| && cmd.config.shards == cs[cmd.config.num]
  }

  ghost predicate NowInPast(w: World) {
    forall g :: g in w.core.now ==> g in w.past && w.core.now[g] in w.past[g]
  }

  ghost predicate PastTracks(w: World)
    requires ConfigsOk(w.core.configs)
  {
    forall g, p :: g in w.past && p in w.past[g] ==> Tracks(w.core.configs, p) && p.gid == g
  }

  ghost predicate PendingTracks(w: World)
    requires ConfigsOk(w.core.configs)
  {
    forall g, cmd :: g in w.pending && cmd in w.pending[g] ==> CommandTracks(w.core.configs, cmd)
  }

  ghost predicate Tracked(w: World) {
    WorldShaped(w) && NowInPast(w) && PastTracks(w) && PendingTracks(w)
  }

  ghost predicate ReturnInv(w: World) {
    Tracked(w) && Faithful(w.core.configs) && WorldInv(RaisedWorld(w))
  }

  lemma ProposeRaised(w: World, to: nat, cmd: Command)
    requires ConfigsOk(w.core.configs) && to in w.pending
    ensures RaisedWorld(Propose(w, to, cmd)) == Propose(RaisedWorld(w), to, RaisedCommand(w.core.configs, cmd))
  {
    hide HolderRow, Holders, RaisedCommand, Raised;
    var a, b := RaisedWorld(Propose(w, to, cmd)), Propose(RaisedWorld(w), to, RaisedCommand(w.core.configs, cmd));
    assert a.pending[to] == b.pending[to];
  }

  lemma MovedRaised(w: World, g: nat, h: Group, log: seq<Op>)
    requires ConfigsOk(w.core.configs) && g in w.past && g in w.core.now
    ensures RaisedWorld(Moved(w, g, h, log)) == Moved(RaisedWorld(w), g, Raised(w.core.configs, h), log)
  {
    hide HolderRow, Holders, RaisedCommand, Raised;
    var a, b := RaisedWorld(Moved(w, g, h, log)), Moved(RaisedWorld(w), g, Raised(w.core.configs, h), log);
    assert a.past[g] == b.past[g];
  }

  // ------------------------------------------------------------------
  // Each step is a step there, or no step

  lemma ServesRaised(cs: seq<seq<nat>>, p: Group, s: nat)
    requires ConfigsOk(cs) && Tracks(cs, p) && s < NSHARDS && Serves(p, s)
    ensures Sized(Raised(cs, p)) && Serves(Raised(cs, p), s)
  {
    assert Holder(cs, p.cur.num, s) == p.gid;
  }

  lemma BatchRaised(cs: seq<seq<nat>>, p: Group, status: Status, from: nat, ids: seq<nat>)
    requires ConfigsOk(cs) && Faithful(cs) && Tracks(cs, p) && ConfigsOk(Holders(cs))
    requires Local(Holders(cs), Raised(cs, p))
    requires Batch(p, status, from, ids) && (status == MoveIn || status == GC)
    ensures Sized(Raised(cs, p)) && Batch(Raised(cs, p), status, from, ids)
  {
    var q, c := Raised(cs, p), p.cur.num;
    forall s: nat ensures s in ByStatus(p, status, from) <==> s in ByStatus(q, status, from) {
      if s < NSHARDS && p.shards[s].status == status {
        assert LocalShard(Holders(cs), q, s);
        MovingSame(cs, c, s);
      }
    }
  }

  ghost function RaisedAction(cs: seq<seq<nat>>, act: Action): Action
    requires ConfigsOk(cs)
  {
    match act
    case Submit(g, p, op) => Submit(g, Raised(cs, p), op)
    case FetchConfig(g, p) => FetchConfig(g, Raised(cs, p))
    case Pull(g, p, from, q, ids) => Pull(g, Raised(cs, p), from, Raised(cs, q), ids)
    case AskDelete(g, p, from, q, ids) => AskDelete(g, Raised(cs, p), from, Raised(cs, q), ids)
    case FinishGC(g, p, from, q, ids) => FinishGC(g, Raised(cs, p), from, Raised(cs, q), ids)
    case Commit(g, cmd, order) => Commit(g, RaisedCommand(cs, cmd), order)
  }

  lemma PastRaised(w: World, g: nat, p: Group)
    requires ReturnInv(w) && g in w.past && p in w.past[g]
    ensures var v, cs := RaisedWorld(w), w.core.configs;
            && ConfigsOk(cs) && Faithful(cs) && Tracks(cs, p) && g in v.past && Raised(cs, p) in v.past[g]
            && ConfigsOk(v.core.configs) && v.core.configs == Holders(cs) && Local(Holders(cs), Raised(cs, p))
  {
    var v := RaisedWorld(w);
    assert Raised(w.core.configs, p) in v.past[g];
    assert PastOk(v.core, g, Raised(w.core.configs, p));
  }

  lemma RaisedShape(w: World)
    requires ReturnInv(w)
    ensures ConfigsOk(w.core.configs) && Shaped(w.core) && Shaped(RaisedWorld(w).core)
    ensures var v, cs := RaisedWorld(w), w.core.configs;
            && WorldShaped(w) && WorldShaped(v) && v.core.configs == Holders(cs) && |Holders(cs)| == |cs|
            && v.core.now.Keys == v.past.Keys == v.pending.Keys == w.core.now.Keys == w.past.Keys == w.pending.Keys
  {
    ReturnFacts(w);
    hide ReturnInv, WorldInv, WorldShaped;
    RaisedKeys(w);
    InvShape(RaisedWorld(w));
    ShapedCore(w);
    ShapedCore(RaisedWorld(w));
    HoldersOk(w.core.configs);
  }

  lemma ShapedCore(w: World)
    requires WorldShaped(w)
    ensures Shaped(w.core)
  {
  }

  lemma ReturnFacts(w: World)
    requires ReturnInv(w)
    ensures WorldShaped(w) && ConfigsOk(w.core.configs) && WorldInv(RaisedWorld(w))
    ensures w.core.now.Keys == w.past.Keys == w.pending.Keys
  {
    hide WorldInv;
  }

  lemma RaisedKeys(w: World)
    requires ConfigsOk(w.core.configs)
    ensures var v := RaisedWorld(w);
            v.core.configs == Holders(w.core.configs) && v.core.now.Keys == w.core.now.Keys
            && v.past.Keys == w.past.Keys && v.pending.Keys == w.pending.Keys
  {
    hide Raised, RaisedCommand, Holders;
  }

  ghost predicate SameProposal(w: World, act: Action)
    requires WorldShaped(w) && Can(w, act) && !act.Commit?
  {
    var cs := w.core.configs;
    var v, b := RaisedWorld(w), RaisedAction(cs, act);
    WorldShaped(v) && Can(v, b) && Proposal(v, b) == (Proposal(w, act).0, RaisedCommand(cs, Proposal(w, act).1))
  }

  lemma SubmitRaised(w: World, g: nat, p: Group, op: Op)
    requires ReturnInv(w) && Can(w, Submit(g, p, op))
    ensures SameProposal(w, Submit(g, p, op))
  {
    hide ReturnInv, WorldShaped, RaisedWorld, WorldInv, Serves, Tracks, Local, Holders, HolderRow, Key2Shard, Raised,
         Faithful, Batch, AllNormal, GetShardsData, ConfigsOk;
    RaisedShape(w);
    PastRaised(w, g, p);
    RaisedNum(w.core.configs, p);
    ServesRaised(w.core.configs, p, Key2Shard(op.key));
  }

  lemma FetchRaised(w: World, g: nat, p: Group)
    requires ReturnInv(w) && Can(w, FetchConfig(g, p))
    ensures SameProposal(w, FetchConfig(g, p))
  {
    hide ReturnInv, WorldShaped, RaisedWorld, WorldInv, Serves, Tracks, Local, Holders, HolderRow, Key2Shard, Raised,
         Faithful, Batch, AllNormal, GetShardsData, ConfigsOk;
    RaisedShape(w);
    PastRaised(w, g, p);
    RaisedNum(w.core.configs, p);
    RaisedNext(w.core.configs, p.cur.num + 1);
  }

  lemma RaisedNum(cs: seq<seq<nat>>, p: Group)
    requires ConfigsOk(cs) && Tracks(cs, p)
    ensures var q := Raised(cs, p);
            Sized(q) && q.cur.num == p.cur.num && q.shards == p.shards && q.dup == p.dup && (AllNormal(p) ==>
                AllNormal(q))
  {
  }

  lemma RaisedData(cs: seq<seq<nat>>, q: Group, args: ShardArgs)
    requires ConfigsOk(cs) && Tracks(cs, q) && ValidIds(args.ids)
    ensures Sized(Raised(cs, q)) && GetShardsData(Raised(cs, q), args) == GetShardsData(q, args)
  {
    RaisedNum(cs, q);
    hide Raised;
  }

  lemma RaisedDropped(cs: seq<seq<nat>>, q: Group, c: nat, ids: seq<nat>)
    requires ConfigsOk(cs) && Tracks(cs, q) && ValidIds(ids)
    ensures Sized(Raised(cs, q)) && (Dropped(Raised(cs, q), c, ids) <==> Dropped(q, c, ids))
  {
    RaisedNum(cs, q);
    hide Raised;
  }

  lemma RaisedNext(cs: seq<seq<nat>>, c: nat)
    requires ConfigsOk(cs) && c < |cs|
    ensures c < |Holders(cs)| && Holders(cs)[c] == HolderRow(cs, c)
  {
  }

  lemma PullRaised(w: World, g: nat, p: Group, from: nat, q: Group, ids: seq<nat>)
    requires ReturnInv(w) && Can(w, Pull(g, p, from, q, ids))
    ensures SameProposal(w, Pull(g, p, from, q, ids))
  {
    hide ReturnInv, WorldShaped, RaisedWorld, WorldInv, Serves, Tracks, Local, Holders, HolderRow, Key2Shard, Raised,
         Faithful, Batch, AllNormal, GetShardsData, ConfigsOk;
    var cs := w.core.configs;
    RaisedShape(w);
    PastRaised(w, g, p);
    PastRaised(w, from, q);
    RaisedNum(cs, p);
    RaisedNum(cs, q);
    BatchRaised(cs, p, MoveIn, from, ids);
    RaisedData(cs, q, ShardArgs(p.cur.num, ids));
  }

  lemma BatchIds(p: Group, status: Status, from: nat, ids: seq<nat>)
    requires Sized(p) && Batch(p, status, from, ids)
    ensures ValidIds(ids)
  {
  }

  lemma DeleteRaised(w: World, act: Action)
    requires ReturnInv(w) && Can(w, act) && (act.AskDelete? || act.FinishGC?)
    ensures SameProposal(w, act)
  {
    hide ReturnInv, WorldShaped, RaisedWorld, WorldInv, Serves, Tracks, Local, Holders, HolderRow, Key2Shard, Raised,
         Faithful, Batch, AllNormal, GetShardsData, ConfigsOk, Dropped;
    RaisedShape(w);
    var cs, v := w.core.configs, RaisedWorld(w);
    PastRaised(w, act.g, act.p);
    PastRaised(w, act.from, act.q);
    RaisedNum(cs, act.p);
    RaisedNum(cs, act.q);
    BatchRaised(cs, act.p, GC, act.from, act.ids);
    assert ValidIds(act.ids) by {
      BatchIds(act.p, GC, act.from, act.ids);
    }
    RaisedDropped(cs, act.q, act.p.cur.num, act.ids);
  }

  lemma ProposalRaised(w: World, act: Action)
    requires ReturnInv(w) && Can(w, act) && !act.Commit?
    ensures SameProposal(w, act)
  {
    hide ReturnInv, SameProposal, Can;
    match act
    case Submit(g, p, op) => SubmitRaised(w, g, p, op);
    case FetchConfig(g, p) => FetchRaised(w, g, p);
    case Pull(g, p, from, q, ids) => PullRaised(w, g, p, from, q, ids);
    case AskDelete(g, p, from, q, ids) => DeleteRaised(w, act);
    case FinishGC(g, p, from, q, ids) => DeleteRaised(w, act);
  }

  lemma ChangeRaised(cs: seq<seq<nat>>, o: Group, config: Config)
    requires ConfigsOk(cs) && Faithful(cs) && Tracks(cs, o) && CommandTracks(cs, ConfigChange(config))
    ensures Sized(Raised(cs, o)) && |HolderRow(cs, config.num)| == NSHARDS
    ensures Raised(cs, ApplyNewConfig(o, config)) == ApplyNewConfig(Raised(cs, o), Config(config.num,
        HolderRow(cs, config.num)))
  {
    if o.cur.num + 1 == config.num {
      var a, b := NewStatuses(o, config), NewStatuses(Raised(cs, o), Config(config.num, HolderRow(cs, config.num)));
      forall s | 0 <= s < NSHARDS ensures a[s] == b[s] {
        StatusSame(cs, config.num, s, o.gid, o.shards[s].status);
      }
      assert a == b;
    }
  }

  /** The committed command does the same over the holders, unless it is an operation that
      only the holder would serve. */
  lemma AppliedRaised(cs: seq<seq<nat>>, o: Group, cmd: Command, order: seq<nat>)
    requires ConfigsOk(cs) && Faithful(cs) && Tracks(cs, o) && CommandTracks(cs, cmd) && CommandShaped(cmd)
    requires Visits(cmd, order)
    requires cmd.ClientOp? ==> Serves(o, Key2Shard(cmd.op.key))
    ensures Sized(Raised(cs, o)) && CommandShaped(RaisedCommand(cs, cmd)) && Visits(RaisedCommand(cs, cmd), order)
    ensures Raised(cs, Applied(o, cmd, order)) == Applied(Raised(cs, o), RaisedCommand(cs, cmd), order)
    ensures cmd.ClientOp? ==> (TakesEffect(o, cmd.op) <==> TakesEffect(Raised(cs, o), cmd.op))
  {
    match cmd
    case ClientOp(op) =>
      ServesRaised(cs, o, Key2Shard(op.key));
    case ConfigChange(config) =>
      ChangeRaised(cs, o, config);
    case ShardMigration(r) =>
    case ShardGC(args) =>
  }

  lemma AppliedTracks(cs: seq<seq<nat>>, o: Group, cmd: Command, order: seq<nat>)
    requires ConfigsOk(cs) && Tracks(cs, o) && CommandTracks(cs, cmd) && CommandShaped(cmd) && Visits(cmd, order)
    ensures Tracks(cs, Applied(o, cmd, order)) && Applied(o, cmd, order).gid == o.gid
  {
  }

  lemma ProposalTracks(w: World, act: Action)
    requires Tracked(w) && Can(w, act) && !act.Commit?
    ensures Proposal(w, act).0 in w.pending
    ensures CommandShaped(Proposal(w, act).1) && CommandTracks(w.core.configs, Proposal(w, act).1)
  {
    assert Tracks(w.core.configs, act.p);
    assert WorldShaped(w);
    hide Tracked;
  }

  lemma ProposeTracks(w: World, to: nat, cmd: Command)
    requires Tracked(w) && to in w.pending && CommandShaped(cmd) && CommandTracks(w.core.configs, cmd)
    ensures Tracked(Propose(w, to, cmd))
  {
    hide CommandShaped, CommandTracks, Tracks, Shaped, Sized, WorldShaped, PastTracks, PendingTracks, NowInPast;
    ShapedCore(w);
    ProposeShaped(w, to, cmd);
    var w' := Propose(w, to, cmd);
    assert NowInPast(w') && PastTracks(w') && PendingTracks(w') by {
      ProposeSame(w, to, cmd);
    }
  }

  lemma ProposeShaped(w: World, to: nat, cmd: Command)
    requires WorldShaped(w) && to in w.pending && CommandShaped(cmd)
    ensures WorldShaped(Propose(w, to, cmd))
  {
    hide CommandShaped, Shaped, Sized;
  }

  lemma ProposeSame(w: World, to: nat, cmd: Command)
    requires ConfigsOk(w.core.configs) && to in w.pending && CommandTracks(w.core.configs, cmd)
    requires NowInPast(w) && PastTracks(w) && PendingTracks(w)
    ensures var w' := Propose(w, to, cmd); NowInPast(w') && PastTracks(w') && PendingTracks(w')
  {
    hide CommandTracks, Tracks, ConfigsOk;
  }

  lemma ProposedTracks(w: World, act: Action)
    requires Tracked(w) && Can(w, act) && !act.Commit?
    ensures Tracked(After(w, act))
  {
    assert WorldShaped(w);
    hide Can, Proposal, CommandShaped, CommandTracks, Tracked, WorldShaped;
    ProposalTracks(w, act);
    ProposeTracks(w, Proposal(w, act).0, Proposal(w, act).1);
  }

  lemma MovedShape(w: World, g: nat, h: Group, log: seq<Op>)
    requires WorldShaped(w) && g in w.core.now && Sized(h)
    ensures WorldShaped(Moved(w, g, h, log))
  {
    hide CommandShaped, Sized;
    ShapedKept(w.core, g, h, log);
    hide Shaped;
    StillShaped(w, g, h, log);
  }

  lemma MovedPast(w: World, g: nat, h: Group, log: seq<Op>)
    requires ConfigsOk(w.core.configs) && g in w.past && PastTracks(w) && Tracks(w.core.configs, h) && h.gid == g
    ensures PastTracks(Moved(w, g, h, log))
  {
    hide Tracks, ConfigsOk;
  }

  lemma MovedNow(w: World, g: nat, h: Group, log: seq<Op>)
    requires g in w.past && NowInPast(w)
    ensures NowInPast(Moved(w, g, h, log))
  {
  }

  lemma MovedTracks(w: World, g: nat, h: Group, log: seq<Op>)
    requires Tracked(w) && g in w.core.now && Tracks(w.core.configs, h) && h.gid == g
    ensures Tracked(Moved(w, g, h, log))
  {
    MovedShape(w, g, h, log);
    MovedPast(w, g, h, log);
    MovedNow(w, g, h, log);
    hide WorldShaped, PastTracks, NowInPast, Tracks, ConfigsOk, Sized;
    assert PendingTracks(Moved(w, g, h, log)) by {
      hide CommandTracks;
    }
  }

  lemma CommittedTracks(w: World, act: Action)
    requires Tracked(w) && Can(w, act) && act.Commit?
    ensures Tracked(After(w, act))
  {
    var o := w.core.now[act.g];
    assert o in w.past[act.g];
    assert Tracks(w.core.configs, o) && CommandTracks(w.core.configs, act.cmd) && CommandShaped(act.cmd);
    AppliedTracks(w.core.configs, o, act.cmd, act.order);
    hide Applied, Tracks, CommandTracks, CommandShaped;
    MovedTracks(w, act.g, Applied(o, act.cmd, act.order), LogAfter(w.core, act.g, act.cmd));
  }

  lemma CommitFacts(w: World, g: nat, cmd: Command)
    requires ReturnInv(w) && g in w.core.now && cmd in w.pending[g]
    ensures var v, cs, o := RaisedWorld(w), w.core.configs, w.core.now[g];
            && ConfigsOk(cs) && Faithful(cs) && Tracks(cs, o) && CommandTracks(cs, cmd) && CommandShaped(cmd)
            && g in v.core.now && v.core.now[g] == Raised(cs, o) && g in v.pending &&
                RaisedCommand(cs, cmd) in v.pending[g]
            && v.core.log == w.core.log
  {
    assert w.core.now[g] in w.past[g];
    hide WorldInv, Faithful, Tracks, CommandTracks, CommandShaped, Raised, RaisedCommand, Holders;
  }

  lemma CommitRaised(w: World, act: Action)
    requires ReturnInv(w) && Can(w, act) && act.Commit?
    requires act.cmd.ClientOp? ==> Serves(w.core.now[act.g], Key2Shard(act.cmd.op.key))
    ensures var v, b := RaisedWorld(w), RaisedAction(w.core.configs, act);
            WorldShaped(v) && Can(v, b) && After(v, b) == RaisedWorld(After(w, act))
  {
    hide ReturnInv, WorldShaped, RaisedWorld, Faithful, Tracks, CommandTracks, CommandShaped, Applied, Raised, Serves,
         TakesEffect, ConfigsOk, Visits, Moved;
    RaisedShape(w);
    var v, cs, g, o, cmd, order := RaisedWorld(w), w.core.configs, act.g, w.core.now[act.g], act.cmd, act.order;
    CommitFacts(w, g, cmd);
    AppliedRaised(cs, o, cmd, order);
    CommitNow(w, g, cmd, order);
    CommitNow(v, g, RaisedCommand(cs, cmd), order);
    MovedRaised(w, g, Applied(o, cmd, order), LogAfter(w.core, g, cmd));
  }

  lemma RefusedSame(w: World, act: Action)
    requires Tracked(w) && Can(w, act) && act.Commit? && act.cmd.ClientOp?
    requires !Serves(w.core.now[act.g], Key2Shard(act.cmd.op.key))
    ensures After(w, act) == w
  {
    hide Tracked, WorldShaped, Serves, TakesEffect;
    var o := w.core.now[act.g];
    NowAmongPast(w, act.g);
    RefusedOp(o, act.cmd.op);
    CommitNow(w, act.g, act.cmd, act.order);
    assert w.past[act.g] + {o} == w.past[act.g];
    assert w.core.now[act.g := o] == w.core.now && w.past[act.g := w.past[act.g] + {o}] == w.past;
  }

  lemma NowAmongPast(w: World, g: nat)
    requires Tracked(w) && g in w.core.now
    ensures WorldShaped(w) && g in w.past && g in w.pending && w.core.now[g] in w.past[g] && Sized(w.core.now[g])
  {
    hide PastTracks, PendingTracks;
  }

  lemma RefusedOp(o: Group, op: Op)
    requires Sized(o) && !Serves(o, Key2Shard(op.key))
    ensures ApplyClientOperation(o, op).0 == o && !TakesEffect(o, op)
  {
  }

  /** Every step is a step over the holders, or none. */
  lemma StepRaised(w: World, act: Action)
    requires ReturnInv(w) && Can(w, act)
    ensures Tracked(After(w, act)) && After(w, act).core.configs == w.core.configs
    ensures var v, b := RaisedWorld(w), RaisedAction(w.core.configs, act);
            || RaisedWorld(After(w, act)) == v
            || (WorldShaped(v) && Can(v, b) && RaisedWorld(After(w, act)) == After(v, b))
  {
    hide WorldInv, Faithful;
    if !act.Commit? {
      ProposedTracks(w, act);
      ProposalRaised(w, act);
      ProposeRaised(w, Proposal(w, act).0, Proposal(w, act).1);
      hide Tracked, Can, Proposal;
    } else {
      CommittedTracks(w, act);
      if act.cmd.ClientOp? && !Serves(w.core.now[act.g], Key2Shard(act.cmd.op.key)) {
        RefusedSame(w, act);
      } else {
        CommitRaised(w, act);
      }
    }
  }

  lemma ReturnKept(w: World, act: Action)
    requires ReturnInv(w) && Can(w, act)
    ensures ReturnInv(After(w, act)) && After(w, act).core.configs == w.core.configs
  {
    hide WorldInv, Faithful, After, Can, Tracked, RaisedWorld, WorldShaped;
    ReturnFacts(w);
    StepRaised(w, act);
    var v, b := RaisedWorld(w), RaisedAction(w.core.configs, act);
    if RaisedWorld(After(w, act)) != v {
      WorldKept(v, b);
    }
  }

  // ------------------------------------------------------------------
  // Runs

  lemma RaisedNew(cs: seq<seq<nat>>, g: nat)
    requires ConfigsOk(cs)
    ensures Raised(cs, NewGroup(g)) == NewGroup(g)
  {
    assert HolderRow(cs, 0) == NOBODY;
  }

  lemma HoldersShaped(k: Core)
    requires Shaped(k)
    ensures Shaped(k.(configs := Holders(k.configs)))
  {
    var cs := k.configs;
    HoldersOk(cs);
    forall c: nat, s: nat | Assigned(Holders(cs), c, s) ensures Holders(cs)[c][s] in k.now {
      var b := HolderOwns(cs, c, s);
      assert Assigned(cs, b, s);
    }
  }

  lemma StartAt(w: World, g: nat)
    requires Start(w) && g in w.core.now
    ensures var v := RaisedWorld(w);
            g in v.core.now && v.core.now[g] == w.core.now[g] && v.past[g] == w.past[g] && v.pending[g] == w.pending[g]
  {
    RaisedNew(w.core.configs, g);
    hide Raised, RaisedCommand, Holders, NewGroup, WorldShaped;
  }

  ghost function Over(w: World, cs: seq<seq<nat>>): World {
    w.(core := w.core.(configs := cs))
  }

  /** At the start, raising changes only the configurations. */
  lemma StartRaised(w: World)
    requires Start(w)
    ensures RaisedWorld(w) == Over(w, Holders(w.core.configs))
  {
    hide RaisedWorld, Holders, NewGroup;
    var v := RaisedWorld(w);
    RaisedKeys(w);
    forall g | g in w.core.now
        ensures v.core.now[g] == w.core.now[g] && v.past[g] == w.past[g] && v.pending[g] == w.pending[g] {
      StartAt(w, g);
    }
    hide Start;
    assert v.core.log == w.core.log by {
      RaisedLog(w);
    }
    assert v.core.now == w.core.now && v.past == w.past && v.pending == w.pending;
  }

  lemma RaisedLog(w: World)
    requires ConfigsOk(w.core.configs)
    ensures RaisedWorld(w).core.log == w.core.log
  {
  }

  lemma StartOver(w: World, cs: seq<seq<nat>>)
    requires Start(w) && Shaped(Over(w, cs).core)
    ensures Start(Over(w, cs))
  {
    hide Shaped, Sized, CommandShaped, NewGroup;
  }

  lemma StartTracked(w: World)
    requires Start(w)
    ensures Tracked(w)
  {
    forall g | g in w.core.now ensures Tracks(w.core.configs, NewGroup(g)) {
    }
    hide Tracks;
  }

  lemma FaithfulStart(w: World)
    requires Start(w) && Faithful(w.core.configs)
    ensures ReturnInv(w)
  {
    StartTracked(w);
    StartRaised(w);
    HoldersShaped(w.core);
    HoldersOk(w.core.configs);
    hide Tracked, Faithful, WorldInv, Holders, RaisedWorld, Shaped, NoReturn, Start, RaisedCore, ConfigsOk;
    StartOver(w, Holders(w.core.configs));
    StartInv(Over(w, Holders(w.core.configs)));
  }

  lemma {:induction false} HolderOwns(cs: seq<seq<nat>>, c: nat, s: nat) returns (b: nat)
    requires ConfigsOk(cs) && c < |cs| && s < NSHARDS && Holder(cs, c, s) != 0
    ensures b <= c && cs[b][s] == Holder(cs, c, s) && Assigned(cs, b, s)
    decreases c
  {
    b := c;
    if cs[c][s] == 0 {
      b := HolderOwns(cs, c - 1, s);
    }
  }

  ghost predicate FaithfulRun(r: seq<World>) {
    Run(r) && Faithful(r[0].core.configs)
  }

  lemma FollowsReturn(w: World, w': World)
    requires ReturnInv(w) && Follows(w, w')
    ensures ReturnInv(w') && w'.core.configs == w.core.configs
  {
    var act :| Can(w, act) && w' == After(w, act);
    hide ReturnInv, Can, After;
    ReturnKept(w, act);
  }

  lemma {:induction false} FaithfulInv(r: seq<World>, k: nat)
    requires FaithfulRun(r) && k < |r|
    ensures ReturnInv(r[k]) && r[k].core.configs == r[0].core.configs
  {
    hide ReturnInv, Follows, Start, Faithful;
    if k == 0 {
      FaithfulStart(r[0]);
    } else {
      FaithfulInv(r, k - 1);
      FollowsReturn(r[k - 1], r[k]);
    }
  }

  lemma NowRaised(w: World, g: nat)
    requires ReturnInv(w) && g in w.core.now
    ensures var v, cs := RaisedWorld(w), w.core.configs;
            && WorldInv(v) && ConfigsOk(cs) && g in v.core.now && v.core.now[g] == Raised(cs, w.core.now[g])
            && v.core.log == w.core.log && v.core.configs == Holders(cs)
            && Tracks(cs, w.core.now[g]) && w.core.now[g].gid == g
  {
    assert w.core.now[g] in w.past[g];
    hide WorldInv;
  }

  /** A group that is not the holder of a shard, and has nothing to do with it, has no copy of it. */
  lemma NotHolder(w: World, g: nat, s: nat)
    requires ReturnInv(w) && g in w.core.now && s < NSHARDS && Sized(w.core.now[g]) && ConfigsOk(w.core.configs)
    requires w.core.now[g].cur.num < |w.core.configs| && Holder(w.core.configs, w.core.now[g].cur.num, s) != g
    requires w.core.now[g].shards[s].status == Normal
    ensures w.core.now[g].shards[s].kv == map[]
  {
    hide ReturnInv, WorldInv, Tracks, PastOk, Uniform, PlacedShard, RaisedWorld;
    NowRaised(w, g);
    NowFacts(RaisedWorld(w), g);
    RaisedNum(w.core.configs, w.core.now[g]);
    assert LocalShard(Holders(w.core.configs), Raised(w.core.configs, w.core.now[g]), s);
  }

  lemma HoldsNow(w: World, s: nat, g: nat)
    requires ReturnInv(w) && s < NSHARDS && g in w.core.now && Sized(w.core.now[g]) && Serves(w.core.now[g], s)
    ensures Holds(w.core.now[g], w.core.log, s)
  {
    hide WorldInv, Tracks, ReturnInv;
    NowRaised(w, g);
    ServesRaised(w.core.configs, w.core.now[g], s);
    ServerHolds(RaisedWorld(w), s, g);
    RaisedNum(w.core.configs, w.core.now[g]);
    hide Raised, RaisedWorld;
  }

  /** Whoever serves a shard holds the contents of all the writes that ever took effect
      on it, and turns all of them away. */
  lemma FaithfulHolds(r: seq<World>, k: nat, s: nat, g: nat)
    requires FaithfulRun(r) && k < |r| && s < NSHARDS && g in r[k].core.now
    requires Sized(r[k].core.now[g]) && Serves(r[k].core.now[g], s)
    ensures Holds(r[k].core.now[g], r[k].core.log, s)
  {
    hide FaithfulRun, ReturnInv;
    FaithfulInv(r, k);
    HoldsNow(r[k], s, g);
  }

  /** Whichever group answers a read, it answers as one store with every write applied once. */
  lemma FaithfulReads(r: seq<World>, k: nat, g: nat, op: Op)
    requires FaithfulRun(r) && k < |r| && g in r[k].core.now && Sized(r[k].core.now[g])
    requires op.kind == OpGet && Serves(r[k].core.now[g], Key2Shard(op.key))
    ensures ApplyClientOperation(r[k].core.now[g], op).1 == Answer(Store(r[k].core.log), op)
  {
    hide FaithfulRun;
    FaithfulHolds(r, k, Key2Shard(op.key), g);
    StoreByShard(r[k].core.log, op.key);
  }

  lemma OnceKept(w: World, act: Action)
    requires ReturnInv(w) && WorldShaped(w) && Can(w, act) && Increasing(w.core.log)
    ensures Increasing(After(w, act).core.log)
  {
    hide ReturnInv;
    if act.Commit? && act.cmd.ClientOp? && TakesEffect(w.core.now[act.g], act.cmd.op) {
      var op := act.cmd.op;
      HoldsNow(w, Key2Shard(op.key), act.g);
      hide WorldShaped;
    }
  }

  lemma FollowsOnce(w: World, w': World)
    requires ReturnInv(w) && Follows(w, w') && Increasing(w.core.log)
    ensures Increasing(w'.core.log)
  {
    var act :| Can(w, act) && w' == After(w, act);
    hide ReturnInv, Can, After, Increasing, WorldShaped;
    OnceKept(w, act);
  }

  lemma NothingWritten(w: World)
    requires Start(w)
    ensures Increasing(w.core.log)
  {
    hide WorldShaped;
  }

  lemma {:induction false} FaithfulIncreasing(r: seq<World>, k: nat)
    requires FaithfulRun(r) && k < |r|
    ensures Increasing(r[k].core.log)
  {
    hide ReturnInv, Follows, Increasing, Faithful, Start;
    if k == 0 {
      NothingWritten(r[0]);
    } else {
      FaithfulIncreasing(r, k - 1);
      FaithfulInv(r, k - 1);
      FollowsOnce(r[k - 1], r[k]);
    }
  }

  /** No write takes effect twice, whichever groups it was sent to. */
  lemma FaithfulOnce(r: seq<World>, k: nat, i: nat, j: nat)
    requires FaithfulRun(r) && k < |r| && i < |r[k].core.log| && j < |r[k].core.log|
    requires r[k].core.log[i] == r[k].core.log[j]
    ensures i == j
  {
    hide FaithfulRun;
    FaithfulIncreasing(r, k);
  }

  lemma ServerHolds(v: World, s: nat, g: nat)
    requires WorldInv(v) && s < NSHARDS && g in v.core.now && Sized(v.core.now[g]) && Serves(v.core.now[g], s)
    ensures Holds(v.core.now[g], v.core.log, s)
  {
    assert ShardOk(v.core, s);
    hide Serves, Holds;
  }

  lemma OneHolder(v: World, s: nat, g: nat, h: nat)
    requires WorldInv(v) && s < NSHARDS && g in v.core.now && h in v.core.now
    requires Sized(v.core.now[g]) && Serves(v.core.now[g], s) && Sized(v.core.now[h]) && Serves(v.core.now[h], s)
    ensures g == h
  {
    hide PastShard, LocalShard, Local, NoReturn;
    InvConfigs(v);
    NowShard(v, g, s);
    NowShard(v, h, s);
    hide WorldInv;
    OneServer(v.core, s, g, h);
  }

  /** At no time do two groups accept operations on the same shard. */
  lemma FaithfulOwner(r: seq<World>, k: nat, s: nat, g: nat, h: nat)
    requires FaithfulRun(r) && k < |r| && s < NSHARDS && g in r[k].core.now && h in r[k].core.now
    requires Sized(r[k].core.now[g]) && Serves(r[k].core.now[g], s)
    requires Sized(r[k].core.now[h]) && Serves(r[k].core.now[h], s)
    ensures g == h
  {
    hide FaithfulRun, WorldInv, Tracks, ReturnInv;
    FaithfulInv(r, k);
    NowRaised(r[k], g);
    NowRaised(r[k], h);
    ServesRaised(r[k].core.configs, r[k].core.now[g], s);
    ServesRaised(r[k].core.configs, r[k].core.now[h], s);
    hide Raised, RaisedWorld;
    OneHolder(RaisedWorld(r[k]), s, g, h);
  }

  // ------------------------------------------------------------------
  // Lossless hand-off

  lemma TakesInRaised(w: World, w': World, g: nat, s: nat, p: Group)
    requires ReturnInv(w) && ReturnInv(w') && w'.core.configs == w.core.configs && TakesIn(w, w', g, s, p)
    ensures TakesIn(RaisedWorld(w), RaisedWorld(w'), g, s, Raised(w.core.configs, p))
    ensures Raised(w.core.configs, p).shards == p.shards
  {
    hide ReturnInv, WorldInv, Faithful, PastOk, Uniform, Holders;
    var cs, o, h := w.core.configs, w.core.now[g], w'.core.now[g];
    NowRaised(w, g);
    NowRaised(w', g);
    PastRaised(w', cs[o.cur.num - 1][s], p);
    RaisedNum(cs, o);
    RaisedNum(cs, h);
    RaisedNum(cs, p);
    NowFacts(RaisedWorld(w), g);
    assert LocalShard(Holders(cs), Raised(cs, o), s);
    MovingSame(cs, o.cur.num, s);
    RowsOf(cs, o.cur.num, s);
    hide RaisedWorld, Raised, Local, Tracks;
  }

  lemma RowsOf(cs: seq<seq<nat>>, d: nat, s: nat)
    requires ConfigsOk(cs) && 0 < d < |cs| && s < NSHARDS
    ensures |Holders(cs)| == |cs| && |Holders(cs)[d - 1]| == NSHARDS && Holders(cs)[d - 1][s] == Holder(cs, d - 1, s)
  {
  }

  lemma HandOffRaised(w: World, act: Action, g: nat, s: nat, p: Group)
    requires ReturnInv(w) && WorldShaped(w) && Can(w, act) && TakesIn(w, After(w, act), g, s, p)
    ensures After(w, act).core.now[g].shards[s].kv == p.shards[s].kv == Content(After(w, act).core.log, s)
  {
    hide ReturnInv, WorldInv, Can, After, TakesIn, RaisedWorld, WorldShaped, Raised, Tracks;
    var w' := After(w, act);
    ReturnKept(w, act);
    StepRaised(w, act);
    ReturnFacts(w);
    TakesInRaised(w, w', g, s, p);
    TakingIsStep(w, w', g, s, p);
    HandOffStep(RaisedWorld(w), RaisedAction(w.core.configs, act), g, s, Raised(w.core.configs, p));
    TakenNow(w', g);
  }

  lemma TakingIsStep(w: World, w': World, g: nat, s: nat, p: Group)
    requires ReturnInv(w) && ReturnInv(w') && TakesIn(w, w', g, s, p)
    ensures RaisedWorld(w') != RaisedWorld(w) && g in w'.core.now && Sized(w'.core.now[g])
  {
    TakenNow(w, g);
    TakenNow(w', g);
    hide ReturnInv, RaisedWorld, Raised;
  }

  lemma TakenNow(w: World, g: nat)
    requires ReturnInv(w) && g in w.core.now
    ensures var v := RaisedWorld(w);
            g in v.core.now && v.core.now[g].shards == w.core.now[g].shards && v.core.log == w.core.log
  {
    hide ReturnInv, WorldInv, RaisedWorld;
    NowRaised(w, g);
    RaisedNum(w.core.configs, w.core.now[g]);
    hide Raised;
  }

  lemma FollowsHandOffRaised(w: World, w': World, g: nat, s: nat, p: Group)
    requires ReturnInv(w) && Follows(w, w') && TakesIn(w, w', g, s, p)
    ensures w'.core.now[g].shards[s].kv == p.shards[s].kv == Content(w'.core.log, s)
  {
    var act :| Can(w, act) && w' == After(w, act);
    hide ReturnInv, TakesIn, Can, After;
    HandOffRaised(w, act, g, s, p);
  }

  /** When a group takes a shard in, it has exactly the contents that the old owner has been keeping
      since it let go, which are those of all the writes that ever took effect on the shard. */
  lemma FaithfulHandOff(r: seq<World>, k: nat, g: nat, s: nat, p: Group)
    requires FaithfulRun(r) && 0 < k < |r| && TakesIn(r[k - 1], r[k], g, s, p)
    ensures r[k].core.now[g].shards[s].kv == p.shards[s].kv == Content(r[k].core.log, s)
  {
    hide ReturnInv, TakesIn, Follows, Start, Faithful;
    FaithfulInv(r, k - 1);
    FollowsHandOffRaised(r[k - 1], r[k], g, s, p);
  }
}
