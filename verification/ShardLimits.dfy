/** Exactly which sequences of configurations the sharded store copes with. */
module ShardLimits {
  import opened ShardState
  import opened ShardWorld
  import opened ShardInvariant
  import opened ShardRuns
  import opened ShardBatches
  import opened ShardReturns
  import opened ShardProgress

  /** Whoever serves a shard has the contents that all writes to it make. */
  ghost predicate Sound(k: Core) {
    forall g, s: nat :: g in k.now && s < NSHARDS && Sized(k.now[g]) && Serves(k.now[g], s) ==>
      k.now[g].shards[s].kv == Content(k.log, s)
  }

  ghost predicate AlwaysSound(cs: seq<seq<nat>>) {
    forall w :: Reachable(w) && w.core.configs == cs ==> Sound(w.core)
  }

  lemma FaithfulSound(cs: seq<seq<nat>>, w: World)
    requires ConfigsOk(cs) && Faithful(cs) && Reachable(w) && w.core.configs == cs
    ensures Sound(w.core)
  {
    var r :| Run(r) && r[|r| - 1] == w;
    hide Faithful, Serves, Reachable;
    RunSame(r, |r| - 1);
    assert FaithfulRun(r);
    hide Run, FaithfulRun;
    forall g, s: nat | g in w.core.now && s < NSHARDS && Sized(w.core.now[g]) && Serves(w.core.now[g], s)
      ensures w.core.now[g].shards[s].kv == Content(w.core.log, s)
    {
      FaithfulHolds(r, |r| - 1, s, g);
    }
  }

  // ------------------------------------------------------------------
  // More configurations

  /** `cs` goes on where the configurations of `w` end, with groups that exist. */
  ghost predicate GoesOn(w: World, cs: seq<seq<nat>>) {
    && w.core.configs <= cs && ConfigsOk(cs)
    && forall c: nat, s: nat :: Assigned(cs, c, s) ==> cs[c][s] in w.core.now
  }

  lemma OverShaped(w: World, cs: seq<seq<nat>>)
    requires WorldShaped(w) && GoesOn(w, cs)
    ensures WorldShaped(Over(w, cs))
  {
    hide Sized, CommandShaped;
  }

  lemma OverStep(w: World, w': World, cs: seq<seq<nat>>)
    requires Follows(w, w') && GoesOn(w, cs)
    ensures Follows(Over(w, cs), Over(w', cs))
  {
    var act :| Can(w, act) && w' == After(w, act);
    OverShaped(w, cs);
    OverAction(w, act, cs);
  }

  lemma OverAction(w: World, act: Action, cs: seq<seq<nat>>)
    requires WorldShaped(w) && GoesOn(w, cs) && Can(w, act) && WorldShaped(Over(w, cs))
    ensures Can(Over(w, cs), act) && After(Over(w, cs), act) == Over(After(w, act), cs)
  {
    hide WorldShaped, Sized, Serves, Batch, Visits, Applied, GetShardsData;
  }

  lemma OverRun(r: seq<World>, cs: seq<seq<nat>>)
    requires Run(r) && GoesOn(r[|r| - 1], cs)
    ensures Reachable(Over(r[|r| - 1], cs))
  {
    var v := seq(|r|, k requires 0 <= k < |r| => Over(r[k], cs));
    forall k | 0 <= k < |r| ensures GoesOn(r[k], cs) {
      RunSame(r, k);
      RunSame(r, |r| - 1);
    }
    hide GoesOn, Follows;
    assert Start(v[0]) by {
      StartMore(r[0], cs);
    }
    forall k | 0 < k < |v| ensures Follows(v[k - 1], v[k]) {
      OverStep(r[k - 1], r[k], cs);
    }
    assert Run(v) && v[|v| - 1] == Over(r[|r| - 1], cs);
  }

  lemma StartMore(w: World, cs: seq<seq<nat>>)
    requires Start(w) && GoesOn(w, cs)
    ensures Start(Over(w, cs))
  {
    OverShaped(w, cs);
    hide GoesOn, NewGroup;
    StartOver(w, cs);
  }

  // ------------------------------------------------------------------
  // The first shard that is not handed back

  lemma {:induction false} FirstBreach(cs: seq<seq<nat>>, n: nat) returns (c: nat, s: nat)
    requires ConfigsOk(cs) && n <= |cs|
    requires exists c: nat, s: nat :: 0 < c < n && s < NSHARDS && !HandedBack(cs, c, s)
    ensures 0 < c < n && s < NSHARDS && !HandedBack(cs, c, s)
    ensures forall d: nat, t: nat :: 0 < d < c && t < NSHARDS ==> HandedBack(cs, d, t)
    decreases n
  {
    c, s :| 0 < c < n && s < NSHARDS && !HandedBack(cs, c, s);
    hide HandedBack;
    if d: nat, t: nat :| 0 < d < c && t < NSHARDS && !HandedBack(cs, d, t) {
      c, s := FirstBreach(cs, c);
    }
  }

  lemma {:induction false} HolderPrefix(cs: seq<seq<nat>>, c: nat, d: nat, s: nat)
    requires ConfigsOk(cs) && d < c <= |cs| && s < NSHARDS && ConfigsOk(cs[..c])
    ensures Holder(cs[..c], d, s) == Holder(cs, d, s)
    decreases d
  {
    if d > 0 {
      HolderPrefix(cs, c, d - 1, s);
    }
  }

  lemma FaithfulPrefix(cs: seq<seq<nat>>, c: nat)
    requires ConfigsOk(cs) && 0 < c <= |cs|
    requires forall d: nat, t: nat :: 0 < d < c && t < NSHARDS ==> HandedBack(cs, d, t)
    ensures ConfigsOk(cs[..c]) && Faithful(cs[..c])
  {
    forall d: nat, t: nat | 0 < d < c && t < NSHARDS ensures HandedBack(cs[..c], d, t) {
      assert HandedBack(cs, d, t);
      HolderPrefix(cs, c, d - 1, t);
    }
  }

  // ------------------------------------------------------------------
  // A run that loses a write

  ghost function Gids(cs: seq<seq<nat>>): set<nat>
    requires ConfigsOk(cs)
  {
    set c, s | 0 <= c < |cs| && 0 <= s < NSHARDS && cs[c][s] != 0 :: cs[c][s]
  }

  ghost function Beginning(gids: set<nat>, cs: seq<seq<nat>>): World {
    World(Core(cs, map g | g in gids :: NewGroup(g), []), map g | g in gids :: {NewGroup(g)}, map g | g in gids :: {})
  }

  lemma BeginsWith(cs: seq<seq<nat>>, c: nat)
    requires ConfigsOk(cs) && 0 < c <= |cs| && ConfigsOk(cs[..c])
    ensures var w := Beginning(Gids(cs), cs[..c]); Start(w) && GoesOn(w, cs) && AllSettled(w, 0)
  {
    var w := Beginning(Gids(cs), cs[..c]);
    forall d: nat, s: nat | Assigned(cs, d, s) ensures cs[d][s] in w.core.now {
      assert cs[d][s] in Gids(cs);
    }
    forall d: nat, s: nat | Assigned(cs[..c], d, s) ensures cs[..c][d][s] in w.core.now {
      assert cs[d][s] in Gids(cs);
    }
  }

  lemma StartReachable(w: World)
    requires Start(w)
    ensures Reachable(w)
  {
    hide Start;
    assert Run([w]) && [w][|[w]| - 1] == w;
  }

  lemma Begins(cs: seq<seq<nat>>, c: nat)
    requires ConfigsOk(cs) && 0 < c <= |cs| && ConfigsOk(cs[..c])
    ensures var w := Beginning(Gids(cs), cs[..c]);
            Live(w) && AllSettled(w, 0) && w.core.log == [] && GoesOn(w, cs)
  {
    hide ConfigsOk, Gids, Start, GoesOn, AllSettled, Live, Reachable;
    var w := Beginning(Gids(cs), cs[..c]);
    BeginsWith(cs, c);
    StartReachable(w);
    ReachableIsLive(w);
  }

  lemma FreshWrite(p: Group, s: nat) returns (op: Op)
    requires s < NSHARDS && Sized(p)
    ensures op.kind == OpPut && Key2Shard(op.key) == s && !Duplicated(p.dup, op.client, op.seqId)
  {
    var n := if 0 in p.dup then p.dup[0].seqId + 1 else 0;
    op := Op([s as char], "v", OpPut, 0, n);
  }

  lemma WriteKeepsSettled(p: Group, op: Op)
    requires Sized(p) && AllNormal(p)
    ensures var h := ApplyClientOperation(p, op).0; Sized(h) && AllNormal(h) && h.cur == p.cur
  {
  }

  lemma WriteAt(w: World, d: nat, s: nat) returns (w': World, op: Op)
    requires Live(w) && AllSettled(w, d) && ConfigsOk(w.core.configs) && Assigned(w.core.configs, d, s)
    ensures Live(w') && AllSettled(w', d) && w'.core.configs == w.core.configs && w'.core.now.Keys == w.core.now.Keys
    ensures op.kind == OpPut && Key2Shard(op.key) == s && w'.core.log == w.core.log + [op]
  {
    hide Live, WorldShaped;
    LiveFacts(w);
    var x := w.core.configs[d][s];
    var p := w.core.now[x];
    NowPlaced(w, x);
    op := FreshWrite(p, s);
    assert Serves(p, s);
    hide Key2Shard, Serves, Uniform, ConfigsOk, ApplyClientOperation, Sized, AllNormal, Duplicated;
    w' := Perform(w, Submit(x, p, op), []);
    WriteKeepsSettled(p, op);
  }

  lemma EmptyCopy(w: World, d: nat, h: nat, s: nat)
    requires Live(w) && AllSettled(w, d) && h in w.core.now && s < NSHARDS && ConfigsOk(w.core.configs)
    requires Faithful(w.core.configs) && d < |w.core.configs|
    requires Holder(w.core.configs, d, s) != h
    ensures Sized(w.core.now[h]) && w.core.now[h].shards[s].kv == map[]
  {
    hide Reachable, BatchInv, Faithful, ReturnInv, Holder;
    ReachableReturns(w);
    NotHolder(w, h, s);
  }

  lemma ReachableReturns(w: World)
    requires Reachable(w) && ConfigsOk(w.core.configs) && Faithful(w.core.configs)
    ensures ReturnInv(w)
  {
    hide ReturnInv, Faithful, Follows, Start;
    var r :| Run(r) && r[|r| - 1] == w;
    RunSame(r, |r| - 1);
    FaithfulInv(r, |r| - 1);
  }

  /** All groups have settled in the last configuration, and the store has seen one write to `s`. */
  lemma SettleAfterWrite(cs: seq<seq<nat>>, c: nat, s: nat) returns (w: World, op: Op)
    requires ConfigsOk(cs) && 0 < c <= |cs| && s < NSHARDS && ConfigsOk(cs[..c]) && Holder(cs[..c], c - 1, s) != 0
    ensures Live(w) && AllSettled(w, c - 1) && w.core.configs == cs[..c] && GoesOn(w, cs)
    ensures op.kind == OpPut && Key2Shard(op.key) == s && w.core.log == [op]
  {
    hide Live, AllSettled, Holder, Beginning, ConfigsOk, Assigned, Gids, GoesOn, Key2Shard;
    Begins(cs, c);
    BeginsOver(cs, c);
    var b := HolderOwns(cs[..c], c - 1, s);
    var w0 := Beginning(Gids(cs), cs[..c]);
    SettledWithin(w0, 0, b);
    var w1 := Settle(w0, b);
    var w2;
    w2, op := WriteAt(w1, b, s);
    SettledWithin(w2, b, c - 1);
    w := Settle(w2, c - 1);
    assert [] + [op] == [op];
    StillGoesOn(w0, w, cs);
  }

  lemma SettledWithin(w: World, d: nat, e: nat)
    requires AllSettled(w, d) && d <= e
    ensures AllSized(w) && Within(w, e)
  {
  }

  lemma StillGoesOn(w: World, w': World, cs: seq<seq<nat>>)
    requires GoesOn(w, cs) && w'.core.configs == w.core.configs && w'.core.now.Keys == w.core.now.Keys
    ensures GoesOn(w', cs)
  {
    hide ConfigsOk;
  }

  lemma BeginsOver(cs: seq<seq<nat>>, c: nat)
    requires ConfigsOk(cs) && 0 < c <= |cs|
    ensures Beginning(Gids(cs), cs[..c]).core.configs == cs[..c]
  {
  }

  /** A group that is given a shard from nobody serves it with what it has. */
  lemma TakesUnasked(w: World, c: nat, h: nat, s: nat) returns (w': World)
    requires Reachable(w) && WorldShaped(w) && 0 < c < |w.core.configs| && s < NSHARDS && h in w.core.now
    requires w.core.configs[c - 1][s] == 0 && w.core.configs[c][s] == h
    requires var p := w.core.now[h];
             p in w.past[h] && p.gid == h && p.cur == Config(c - 1, w.core.configs[c - 1]) && AllNormal(p)
    ensures Reachable(w') && w'.core.configs == w.core.configs && w'.core.log == w.core.log
    ensures h in w'.core.now && Sized(w'.core.now[h]) && Serves(w'.core.now[h], s)
    ensures w'.core.now[h].shards[s].kv == w.core.now[h].shards[s].kv
  {
    hide Reachable;
    var p, config := w.core.now[h], Config(c, w.core.configs[c]);
    var act := FetchConfig(h, p);
    Extend(w, act);
    var v := After(w, act);
    assert v == Propose(w, h, ConfigChange(config));
    assert WorldShaped(v);
    hide WorldShaped;
    var commit := Commit(h, ConfigChange(config), []);
    CommitNow(v, h, ConfigChange(config), []);
    Extend(v, commit);
    w' := After(v, commit);
    ChangeApplies(p, config);
    assert w'.core.now[h] == ApplyNewConfig(p, config);
  }

  /** Where that run ends: group `h` is about to get a shard from nobody, and has no copy of it. */
  lemma BeforeBreach(cs: seq<seq<nat>>, c: nat, s: nat) returns (v: World, op: Op)
    requires ConfigsOk(cs) && 0 < c < |cs| && s < NSHARDS && !HandedBack(cs, c, s)
    requires forall d: nat, t: nat :: 0 < d < c && t < NSHARDS ==> HandedBack(cs, d, t)
    ensures Reachable(v) && WorldShaped(v) && v.core.configs == cs && cs[c][s] in v.core.now
    ensures var p := v.core.now[cs[c][s]];
            && p in v.past[cs[c][s]] && p.gid == cs[c][s] && p.cur == Config(c - 1, cs[c - 1])
            && Sized(p) && AllNormal(p) && p.shards[s].kv == map[]
    ensures op.kind == OpPut && Key2Shard(op.key) == s && v.core.log == [op]
  {
    hide Faithful, Key2Shard, AllNormal, Live, GoesOn, Holder, Sized, HandedBack, ConfigsOk, Reachable;
    FaithfulPrefix(cs, c);
    TakenFromNobody(cs, c, s);
    var h := cs[c][s];
    var w;
    w, op := SettleAfterWrite(cs, c, s);
    Listed(w, cs, c, s);
    EmptyCopy(w, c - 1, h, s);
    NowPlaced(w, h);
    LiveFacts(w);
    hide WorldShaped;
    Widened(w, cs);
    v := Over(w, cs);
  }

  lemma TakenFromNobody(cs: seq<seq<nat>>, c: nat, s: nat)
    requires ConfigsOk(cs) && 0 < c < |cs| && s < NSHARDS && !HandedBack(cs, c, s) && ConfigsOk(cs[..c])
    ensures |cs[c]| == |cs[c - 1]| == NSHARDS && cs[c - 1][s] == 0 && cs[c][s] != 0
    ensures Holder(cs[..c], c - 1, s) != 0 && Holder(cs[..c], c - 1, s) != cs[c][s]
  {
    HolderPrefix(cs, c, c - 1, s);
  }

  lemma Listed(w: World, cs: seq<seq<nat>>, c: nat, s: nat)
    requires GoesOn(w, cs) && c < |cs| && s < NSHARDS && cs[c][s] != 0
    ensures cs[c][s] in w.core.now
  {
    assert Assigned(cs, c, s);
  }

  lemma Breach(cs: seq<seq<nat>>) returns (w: World)
    requires ConfigsOk(cs) && !Faithful(cs)
    ensures Reachable(w) && w.core.configs == cs && !Sound(w.core)
  {
    var c, s := FirstBreach(cs, |cs|);
    hide Reachable, WorldShaped, Content, AllNormal, Faithful;
    var v, op := BeforeBreach(cs, c, s);
    w := TakesUnasked(v, c, cs[c][s], s);
    ContentOf(op, s);
    assert w.core.now[cs[c][s]].shards[s].kv != Content(w.core.log, s);
  }

  lemma Widened(w: World, cs: seq<seq<nat>>)
    requires Live(w) && WorldShaped(w) && GoesOn(w, cs)
    ensures Reachable(Over(w, cs)) && WorldShaped(Over(w, cs))
  {
    OverShaped(w, cs);
    hide GoesOn, WorldShaped, BatchInv;
    var r :| Run(r) && r[|r| - 1] == w;
    OverRun(r, cs);
  }

  lemma ContentOf(op: Op, s: nat)
    requires op.kind == OpPut && Key2Shard(op.key) == s
    ensures Content([op], s) != map[]
  {
    assert op.key in Content([op], s);
  }

  /** The store is sound in every run exactly when every shard that has been left to nobody
      is next given back to the group that had it. */
  lemma SoundExactlyWhen(cs: seq<seq<nat>>)
    requires ConfigsOk(cs)
    ensures AlwaysSound(cs) <==> Faithful(cs)
  {
    hide Faithful, Reachable, Sound;
    if Faithful(cs) {
      forall w | Reachable(w) && w.core.configs == cs ensures Sound(w.core) {
        FaithfulSound(cs, w);
      }
    } else {
      var w := Breach(cs);
    }
  }
}
