/** Whole runs of the sharded store, and what holds in them over any sequence of
    configurations in which an assigned shard is never left to nobody again. */
module ShardRuns {
  import opened ShardState
  import opened ShardWorld
  import opened ShardInvariant

  ghost predicate Follows(w: World, w': World) {
    WorldShaped(w) && exists act :: Can(w, act) && w' == After(w, act)
  }

  ghost predicate Run(r: seq<World>) {
    && r != [] && Start(r[0])
    && forall k :: 0 < k < |r| ==> Follows(r[k - 1], r[k])
  }

  lemma StepSame(w: World, w': World)
    requires Follows(w, w')
    ensures w'.core.configs == w.core.configs && w'.core.now.Keys == w.core.now.Keys
  {
  }

  lemma {:induction false} RunSame(r: seq<World>, k: nat)
    requires Run(r) && k < |r|
    ensures r[k].core.configs == r[0].core.configs && r[k].core.now.Keys == r[0].core.now.Keys
  {
    hide Follows, Start;
    if k > 0 {
      RunSame(r, k - 1);
      StepSame(r[k - 1], r[k]);
    }
  }

  // ------------------------------------------------------------------
  // Shapes, over any configurations

  ghost predicate Plain(w: World) {
    WorldShaped(w) && forall g :: g in w.core.now ==> w.core.now[g] in w.past[g]
  }

  lemma ProposalShaped(w: World, act: Action)
    requires WorldShaped(w) && Can(w, act) && !act.Commit?
    ensures Proposal(w, act).0 in w.pending && CommandShaped(Proposal(w, act).1)
  {
  }

  lemma AppliedSized(o: Group, cmd: Command, order: seq<nat>)
    requires Sized(o) && CommandShaped(cmd) && Visits(cmd, order)
    ensures Sized(Applied(o, cmd, order))
  {
  }

  lemma PlainKept(w: World, act: Action)
    requires Plain(w) && Can(w, act)
    ensures Plain(After(w, act))
  {
    if act.Commit? {
      var o := w.core.now[act.g];
      assert Sized(o) && CommandShaped(act.cmd);
      AppliedSized(o, act.cmd, act.order);
      hide Applied, Sized, CommandShaped;
      var h, log := Applied(o, act.cmd, act.order), LogAfter(w.core, act.g, act.cmd);
      ShapedKept(w.core, act.g, h, log);
      hide Shaped;
      StillShaped(w, act.g, h, log);
      hide WorldShaped;
    } else {
      ProposalShaped(w, act);
      hide Proposal, CommandShaped, Shaped, Can, Sized;
    }
  }

  lemma CommitNow(v: World, to: nat, cmd: Command, order: seq<nat>)
    requires WorldShaped(v) && to in v.core.now && cmd in v.pending[to] && Visits(cmd, order)
    ensures Can(v, Commit(to, cmd, order)) && Sized(v.core.now[to]) && CommandShaped(cmd)
    ensures After(v, Commit(to, cmd, order)) == Moved(v, to, Applied(v.core.now[to], cmd, order),
        LogAfter(v.core, to, cmd))
  {
    hide Applied, LogAfter, Visits;
  }

  // ------------------------------------------------------------------
  // The invariant, over configurations that leave no assigned shard to nobody again

  ghost predicate Steady(r: seq<World>) {
    Run(r) && NoReturn(r[0].core.configs)
  }

  lemma FollowsKept(w: World, w': World)
    requires WorldInv(w) && Follows(w, w')
    ensures WorldInv(w') && w'.core.configs == w.core.configs
  {
    var act :| Can(w, act) && w' == After(w, act);
    hide WorldInv;
    WorldKept(w, act);
  }

  lemma {:induction false} RunInv(r: seq<World>, k: nat)
    requires Steady(r) && k < |r|
    ensures WorldInv(r[k])
  {
    hide WorldInv, Follows, Start, NoReturn;
    if k == 0 {
      StartInv(r[0]);
    } else {
      RunInv(r, k - 1);
      FollowsKept(r[k - 1], r[k]);
    }
  }

  // ------------------------------------------------------------------
  // One server per shard

  /** At no time do two groups accept operations on the same shard. */
  lemma SingleOwner(r: seq<World>, k: nat, s: nat, g: nat, h: nat)
    requires Steady(r) && k < |r| && s < NSHARDS && g in r[k].core.now && h in r[k].core.now
    requires Sized(r[k].core.now[g]) && Serves(r[k].core.now[g], s)
    requires Sized(r[k].core.now[h]) && Serves(r[k].core.now[h], s)
    ensures g == h
  {
    hide Steady, PastShard, LocalShard, Local, NoReturn;
    RunInv(r, k);
    InvConfigs(r[k]);
    NowShard(r[k], g, s);
    NowShard(r[k], h, s);
    hide WorldInv;
    OneServer(r[k].core, s, g, h);
  }

  // ------------------------------------------------------------------
  // Lossless hand-off

  /** Only a command that is not a client's changes what is to come in. */
  lemma StatusStep(w: World, act: Action, g: nat, s: nat)
    requires WorldShaped(w) && Can(w, act) && g in w.core.now && s < NSHARDS
    requires After(w, act).core.now[g].shards != w.core.now[g].shards
    requires After(w, act).core.now[g].shards[s].status != w.core.now[g].shards[s].status
    ensures After(w, act).core.log == w.core.log
    ensures forall x :: x in w.past && x != g ==> After(w, act).past[x] == w.past[x]
  {
  }

  lemma FrozenCopy(w: World, from: nat, p: Group, s: nat)
    requires WorldInv(w) && from in w.past && p in w.past[from] && s < NSHARDS
    requires Sized(p) && p.shards[s].status == MoveOut && !Reached(w.core, s, p.cur.num)
    ensures p.shards[s].kv == Content(w.core.log, s)
  {
    assert PastOk(w.core, from, p);
    assert PastShard(w.core, p, s);
  }

  /** Group `g` takes shard `s` in between the two states; `p` is a copy that the old owner has kept. */
  ghost predicate TakesIn(w: World, w': World, g: nat, s: nat, p: Group) {
    && g in w.core.now && g in w'.core.now && s < NSHARDS
    && var o, h, cs := w.core.now[g], w'.core.now[g], w.core.configs;
       && Sized(o) && Sized(h) && o.cur == h.cur && o.shards[s].status == MoveIn && h.shards[s].status != MoveIn
       && 0 < o.cur.num < |cs| && |cs[o.cur.num - 1]| == NSHARDS
       && cs[o.cur.num - 1][s] in w'.past && p in w'.past[cs[o.cur.num - 1][s]]
       && Sized(p) && p.cur.num == o.cur.num && p.shards[s].status == MoveOut
  }

  lemma NewServer(w: World, w': World, g: nat, s: nat, p: Group)
    requires WorldInv(w) && WorldInv(w') && w'.core.configs == w.core.configs && TakesIn(w, w', g, s, p)
    ensures w.core.configs[w.core.now[g].cur.num - 1][s] != g
    ensures !Reached(w.core, s, w.core.now[g].cur.num)
    ensures w'.core.now[g].shards[s].kv == Content(w'.core.log, s)
  {
    InvConfigs(w);
    NowShard(w, g, s);
    NowShard(w', g, s);
    var h := w'.core.now[g];
    assert h.cur.shards[s] == g by {
      CurConfig(w.core.configs, h);
    }
    hide WorldInv, Local, PastShard;
    assert Serves(h, s);
    assert Holds(h, w'.core.log, s);
  }

  lemma HandOffStep(w: World, act: Action, g: nat, s: nat, p: Group)
    requires WorldInv(w) && Can(w, act) && TakesIn(w, After(w, act), g, s, p)
    ensures After(w, act).core.now[g].shards[s].kv == p.shards[s].kv == Content(After(w, act).core.log, s)
  {
    var w' := After(w, act);
    InvConfigs(w);
    WorldKept(w, act);
    StatusStep(w, act, g, s);
    assert w'.core.configs == w.core.configs && w'.past.Keys == w.past.Keys;
    hide WorldInv, Can, After, WorldShaped;
    NewServer(w, w', g, s, p);
    FrozenCopy(w, w.core.configs[p.cur.num - 1][s], p, s);
  }

  /** When a group takes a shard in, it has exactly the contents that the old
      owner has been keeping since it let go, which are those of all the writes
      that ever took effect on the shard. */
  lemma HandOff(r: seq<World>, k: nat, g: nat, s: nat, p: Group)
    requires Steady(r) && 0 < k < |r| && TakesIn(r[k - 1], r[k], g, s, p)
    ensures r[k].core.now[g].shards[s].kv == p.shards[s].kv == Content(r[k].core.log, s)
  {
    hide WorldInv, TakesIn, Follows, Start, NoReturn;
    RunInv(r, k - 1);
    FollowsHandOff(r[k - 1], r[k], g, s, p);
  }

  lemma FollowsHandOff(w: World, w': World, g: nat, s: nat, p: Group)
    requires WorldInv(w) && Follows(w, w') && TakesIn(w, w', g, s, p)
    ensures w'.core.now[g].shards[s].kv == p.shards[s].kv == Content(w'.core.log, s)
  {
    var act :| Can(w, act) && w' == After(w, act);
    hide WorldInv, TakesIn, Can, After;
    HandOffStep(w, act, g, s, p);
  }

  // ------------------------------------------------------------------
  // As if there were one store

  /** All writes, applied to one map. */
  ghost function Store(log: seq<Op>): KV {
    if log == [] then map[] else Written(Store(log[..|log| - 1]), log[|log| - 1])
  }

  lemma {:induction false} StoreByShard(log: seq<Op>, key: string)
    ensures var c := Content(log, Key2Shard(key));
            (key in Store(log) <==> key in c) && Value(Store(log), key) == Value(c, key)
    decreases |log|
  {
    if log != [] {
      StoreByShard(log[..|log| - 1], key);
      StoreByShard(log[..|log| - 1], log[|log| - 1].key);
    }
  }

  /** Whichever group answers a read, the answer is that of one store to which
      every write was applied once. */
  lemma ReadsLatest(r: seq<World>, k: nat, g: nat, op: Op)
    requires Steady(r) && k < |r| && g in r[k].core.now && Sized(r[k].core.now[g])
    requires op.kind == OpGet && Serves(r[k].core.now[g], Key2Shard(op.key))
    ensures ApplyClientOperation(r[k].core.now[g], op).1 == Answer(Store(r[k].core.log), op)
  {
    RunInv(r, k);
    NowShard(r[k], g, Key2Shard(op.key));
    StoreByShard(r[k].core.log, op.key);
    hide Steady, WorldInv, Local, PastShard;
  }

  // ------------------------------------------------------------------
  // At most once

  /** On each shard, a client's writes took effect in the order of their numbers, each number once. */
  ghost predicate Increasing(log: seq<Op>) {
    forall i, j ::
      (0 <= i < j < |log| && log[i].client == log[j].client && Key2Shard(log[i].key) == Key2Shard(log[j].key)) ==>
      log[i].seqId < log[j].seqId
  }

  lemma IncreasingKept(w: World, act: Action)
    requires WorldInv(w) && Can(w, act) && Increasing(w.core.log)
    ensures Increasing(After(w, act).core.log)
  {
    if act.Commit? && act.cmd.ClientOp? && TakesEffect(w.core.now[act.g], act.cmd.op) {
      var op := act.cmd.op;
      NowShard(w, act.g, Key2Shard(op.key));
      assert Holds(w.core.now[act.g], w.core.log, Key2Shard(op.key));
      hide WorldInv, Local, PastShard, LocalShard;
    }
  }

  lemma FollowsIncreasing(w: World, w': World)
    requires WorldInv(w) && Follows(w, w') && Increasing(w.core.log)
    ensures Increasing(w'.core.log)
  {
    var act :| Can(w, act) && w' == After(w, act);
    hide WorldInv, Can, After, Increasing;
    IncreasingKept(w, act);
  }

  lemma {:induction false} RunIncreasing(r: seq<World>, k: nat)
    requires Steady(r) && k < |r|
    ensures Increasing(r[k].core.log)
  {
    if k == 0 {
      assert r[0].core.log == [];
    } else {
      hide WorldInv, Follows, Increasing, NoReturn, Start;
      RunIncreasing(r, k - 1);
      RunInv(r, k - 1);
      FollowsIncreasing(r[k - 1], r[k]);
    }
  }

  /** No write takes effect twice, whichever groups it was sent to. */
  lemma AtMostOnce(r: seq<World>, k: nat, i: nat, j: nat)
    requires Steady(r) && k < |r| && i < |r[k].core.log| && j < |r[k].core.log|
    requires r[k].core.log[i] == r[k].core.log[j]
    ensures i == j
  {
    hide Steady;
    RunIncreasing(r, k);
  }

  /** Whoever serves a shard turns away every write that ever took effect on it, anywhere. */
  lemma ServersKnow(r: seq<World>, k: nat, g: nat, s: nat, i: nat)
    requires Steady(r) && k < |r| && g in r[k].core.now && Sized(r[k].core.now[g]) && s < NSHARDS
    requires Serves(r[k].core.now[g], s)
    requires i < |r[k].core.log| && Key2Shard(r[k].core.log[i].key) == s
    ensures Duplicated(r[k].core.now[g].dup, r[k].core.log[i].client, r[k].core.log[i].seqId)
  {
    RunInv(r, k);
    NowShard(r[k], g, s);
    hide Steady, WorldInv, Local, PastShard, LocalShard;
  }
}
