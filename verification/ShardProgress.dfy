/** Migration never gets stuck, over any configurations: from every reachable state, in the middle of
    whatever changes of configuration, a state in which all groups have settled in one of them is
    reachable. */
module ShardProgress {
  import opened ShardState
  import opened ShardWorld
  import opened ShardInvariant
  import opened ShardRuns
  import opened ShardBatches

  ghost predicate Reachable(w: World) {
    exists r :: Run(r) && r[|r| - 1] == w
  }

  /** Reachable, with what holds in every such state. */
  ghost predicate Live(w: World) {
    Reachable(w) && BatchInv(w)
  }

  lemma Extend(w: World, act: Action)
    requires Reachable(w) && WorldShaped(w) && Can(w, act)
    ensures Reachable(After(w, act))
  {
    assert Follows(w, After(w, act));
    hide After, Can, WorldShaped, Follows;
    var r :| Run(r) && r[|r| - 1] == w;
    ExtendRun(r, After(w, act));
  }

  lemma ExtendRun(r: seq<World>, w': World)
    requires Run(r) && Follows(r[|r| - 1], w')
    ensures Reachable(w')
  {
    var r' := r + [w'];
    hide Follows, Start;
    forall k | 0 < k < |r'| ensures Follows(r'[k - 1], r'[k]) {
      if k < |r| {
        assert Follows(r[k - 1], r[k]);
      }
    }
    assert Run(r') && r'[|r'| - 1] == w';
  }

  lemma LiveKept(w: World, act: Action)
    requires Live(w) && WorldShaped(w) && Can(w, act)
    ensures Live(After(w, act)) && After(w, act).core.configs == w.core.configs
  {
    hide BatchInv, Reachable, Can, WorldShaped;
    Extend(w, act);
    BatchesKept(w, act);
  }

  lemma ReachableIsLive(w: World)
    requires Reachable(w)
    ensures Live(w)
  {
    var r :| Run(r) && r[|r| - 1] == w;
    hide Run, BatchInv;
    RunBatches(r, |r| - 1);
  }

  lemma LiveFacts(w: World)
    requires Live(w)
    ensures WorldShaped(w) && ConfigsOk(w.core.configs) && w.core.now.Keys == w.past.Keys == w.pending.Keys
    ensures 0 !in w.core.now && AllSized(w)
    ensures forall c: nat, s: nat :: Assigned(w.core.configs, c, s) ==> w.core.configs[c][s] in w.core.now
  {
    hide Reachable, PastPlaced, FinishedLast, PendingWhole;
  }

  lemma NowPlaced(w: World, g: nat)
    requires Live(w) && g in w.core.now
    ensures g in w.past && g in w.pending && w.core.now[g] in w.past[g]
    ensures ConfigsOk(w.core.configs) && Placed(w.core.configs, w.core.now[g]) && w.core.now[g].gid == g
  {
    hide Reachable, FinishedLast, PendingWhole, Placed;
  }

  // ------------------------------------------------------------------
  // A proposal, committed at once

  ghost predicate Performed(w: World, w': World, to: nat, h: Group) {
    && w'.core.configs == w.core.configs && w'.core.now == w.core.now[to := h]
    && w'.pending.Keys == w.pending.Keys
    && (forall g :: g in w.pending ==> w.pending[g] <= w'.pending[g])
  }

  lemma Perform(w: World, act: Action, order: seq<nat>) returns (w': World)
    requires Live(w) && WorldShaped(w) && Can(w, act) && !act.Commit? && Visits(Proposal(w, act).1, order)
    ensures var to, cmd := Proposal(w, act).0, Proposal(w, act).1;
            && to in w.core.now && Sized(w.core.now[to]) && CommandShaped(cmd)
            && Live(w') && WorldShaped(w') && Performed(w, w', to, Applied(w.core.now[to], cmd, order))
            && w'.core.log == LogAfter(w.core, to, cmd) && to in w'.pending && cmd in w'.pending[to]
  {
    hide Live, Shaped, Sized;
    var to, cmd := Proposal(w, act).0, Proposal(w, act).1;
    LiveKept(w, act);
    var v := After(w, act);
    LiveFacts(w);
    LiveFacts(v);
    assert v == Propose(w, to, cmd);
    var commit := Commit(to, cmd, order);
    hide Proposal, Visits, WorldShaped;
    assert to in w.core.now by {
      ProposalGroup(w, act);
    }
    assert cmd in v.pending[to];
    CommitNow(v, to, cmd, order);
    w' := After(v, commit);
    LiveKept(v, commit);
    LiveFacts(w');
  }

  lemma ProposalGroup(w: World, act: Action)
    requires WorldShaped(w) && Can(w, act) && !act.Commit?
    ensures Proposal(w, act).0 in w.core.now
  {
  }

  /** What stays the same while shards are moved. */
  ghost predicate SameRest(w: World, w': World) {
    w'.core.configs == w.core.configs && w'.core.log == w.core.log && w'.core.now.Keys == w.core.now.Keys
  }

  // ------------------------------------------------------------------
  // How far there is to go

  ghost predicate AllSized(w: World) {
    forall g :: g in w.core.now ==> Sized(w.core.now[g])
  }

  /** The configurations that groups have still to enter on the way to `e`. */
  ghost function Ahead(w: World, e: nat): set<(nat, nat)> {
    set g, c | g in w.core.now && 0 <= c < e && w.core.now[g].cur.num <= c :: (g, c)
  }

  ghost function WithStatus(w: World, awaited: bool): set<(nat, nat)>
    requires AllSized(w)
  {
    set g, s | g in w.core.now && 0 <= s < NSHARDS && Open(w.core.now[g].shards[s].status, awaited) :: (g, s)
  }

  ghost predicate Open(status: Status, awaited: bool) {
    if awaited then status == MoveIn else status != Normal
  }

  ghost predicate Nearer(w: World, w': World, e: nat)
    requires AllSized(w) && AllSized(w')
  {
    || Ahead(w', e) < Ahead(w, e)
    || (Ahead(w', e) == Ahead(w, e) && WithStatus(w', true) < WithStatus(w, true))
    || (Ahead(w', e) == Ahead(w, e) && WithStatus(w', true) == WithStatus(w, true) &&
        WithStatus(w', false) < WithStatus(w, false))
  }

  ghost predicate Within(w: World, e: nat) {
    forall g :: g in w.core.now ==> w.core.now[g].cur.num <= e
  }

  ghost predicate AllSettled(w: World, e: nat) {
    forall g :: g in w.core.now ==> Sized(w.core.now[g]) && w.core.now[g].cur.num == e && AllNormal(w.core.now[g])
  }

  /** Only group `g` has changed, and stays in its configuration. */
  ghost predicate Replaced(w: World, w': World, g: nat) {
    && AllSized(w) && AllSized(w') && g in w.core.now && w'.core.now.Keys == w.core.now.Keys
    && (forall x :: x in w.core.now && x != g ==> w'.core.now[x] == w.core.now[x])
    && w'.core.now[g].cur.num == w.core.now[g].cur.num
  }

  lemma SameAhead(w: World, w': World, g: nat, e: nat)
    requires Replaced(w, w', g)
    ensures Ahead(w', e) == Ahead(w, e)
  {
  }

  lemma FewerAwaited(w: World, w': World, g: nat, s: nat, e: nat)
    requires Replaced(w, w', g) && s < NSHARDS
    requires w.core.now[g].shards[s].status == MoveIn && w'.core.now[g].shards[s].status != MoveIn
    requires forall t: nat :: t < NSHARDS && w'.core.now[g].shards[t].status == MoveIn ==>
        w.core.now[g].shards[t].status == MoveIn
    ensures Nearer(w, w', e)
  {
    SameAhead(w, w', g, e);
    assert (g, s) in WithStatus(w, true) && (g, s) !in WithStatus(w', true);
    assert WithStatus(w', true) <= WithStatus(w, true);
  }

  lemma FewerOpen(w: World, w': World, g: nat, s: nat, e: nat)
    requires Replaced(w, w', g) && s < NSHARDS
    requires w.core.now[g].shards[s].status != Normal && w'.core.now[g].shards[s].status == Normal
    requires forall t: nat :: t < NSHARDS ==>
               w'.core.now[g].shards[t].status == w.core.now[g].shards[t].status
               || (w.core.now[g].shards[t].status != MoveIn && w'.core.now[g].shards[t].status == Normal)
    requires w.core.now[g].shards[s].status != MoveIn
    ensures Nearer(w, w', e)
  {
    SameAhead(w, w', g, e);
    assert (g, s) in WithStatus(w, false) && (g, s) !in WithStatus(w', false);
    assert WithStatus(w', false) <= WithStatus(w, false);
    assert WithStatus(w', true) == WithStatus(w, true);
  }

  // ------------------------------------------------------------------
  // Entering the next configuration

  lemma ChangeApplies(p: Group, config: Config)
    requires Sized(p) && |config.shards| == NSHARDS
    ensures Applied(p, ConfigChange(config), []) == ApplyNewConfig(p, config)
  {
  }

  lemma EnterCan(w: World, g: nat)
    requires Live(w) && WorldShaped(w) && g in w.core.now && Sized(w.core.now[g]) && AllNormal(w.core.now[g])
    requires w.core.now[g].cur.num + 1 < |w.core.configs|
    ensures var c := w.core.now[g].cur.num + 1;
            && Can(w, FetchConfig(g, w.core.now[g]))
            && Proposal(w, FetchConfig(g, w.core.now[g])) == (g, ConfigChange(Config(c, w.core.configs[c])))
  {
    hide Live, WorldShaped, Placed, AllNormal, ConfigsOk;
    NowPlaced(w, g);
  }

  lemma Enter(w: World, g: nat, e: nat) returns (w': World)
    requires Live(w) && WorldShaped(w) && AllSized(w) && g in w.core.now && AllNormal(w.core.now[g])
    requires w.core.now[g].cur.num < e < |w.core.configs| && Within(w, e)
    ensures Live(w') && SameRest(w, w') && Within(w', e) && AllSized(w') && Nearer(w, w', e)
  {
    hide Live, WorldShaped, Can, Proposal, AllNormal, ConfigsOk, Applied, WithStatus;
    LiveFacts(w);
    var o, c := w.core.now[g], w.core.now[g].cur.num + 1;
    EnterCan(w, g);
    w' := Perform(w, FetchConfig(g, o), []);
    assert |w.core.configs[c]| == NSHARDS by {
      ConfigRow(w.core.configs, c);
    }
    var h := ApplyNewConfig(o, Config(c, w.core.configs[c]));
    ChangeApplies(o, Config(c, w.core.configs[c]));
    assert w'.core.now[g] == h && h.cur.num == c && Sized(h);
    assert (g, c - 1) in Ahead(w, e) && (g, c - 1) !in Ahead(w', e);
    assert Ahead(w', e) <= Ahead(w, e);
  }

  lemma ConfigRow(cs: seq<seq<nat>>, c: nat)
    requires ConfigsOk(cs) && c < |cs|
    ensures |cs[c]| == NSHARDS
  {
  }

  // ------------------------------------------------------------------
  // What a status says

  /** A shard that is not normal is moving, from one existing group to another. */
  lemma StatusFacts(w: World, g: nat, s: nat)
    requires Live(w) && g in w.core.now && s < NSHARDS && Sized(w.core.now[g])
    requires w.core.now[g].shards[s].status != Normal
    ensures var cs, d, p := w.core.configs, w.core.now[g].cur.num, w.core.now[g];
            && ConfigsOk(cs) && Moving(cs, d, s) && p.prev.shards == cs[d - 1]
            && cs[d - 1][s] in w.core.now && cs[d][s] in w.core.now
            && (p.shards[s].status == MoveOut ==> cs[d - 1][s] == g)
            && (p.shards[s].status != MoveOut ==> cs[d][s] == g)
  {
    hide Live, WorldShaped, Uniform;
    LiveFacts(w);
    NowPlaced(w, g);
    assert PlacedShard(w.core.configs, w.core.now[g], s);
    assert Assigned(w.core.configs, w.core.now[g].cur.num - 1, s) && Assigned(w.core.configs, w.core.now[g].cur.num, s);
  }

  // ------------------------------------------------------------------
  // Batches

  lemma IdsIn(ids: seq<nat>, s: nat)
    ensures s in ids <==> s in Ids(ids)
  {
  }

  lemma BatchListing(batch: set<nat>) returns (ids: seq<nat>)
    requires batch != {} && forall s :: s in batch ==> s < NSHARDS
    ensures ids != [] && ValidIds(ids) && Distinct(ids) && Ids(ids) == batch
  {
    ids := Listing(batch);
    forall i | 0 <= i < |ids| ensures ids[i] < NSHARDS {
      assert ids[i] in Ids(ids);
    }
  }

  /** Taking a batch in turns all of it, and nothing else. */
  lemma MergedStatus(p: Group, r: ShardReply, ids: seq<nat>)
    requires Sized(p) && r.configNum == p.cur.num && VisitOrder(ids, r.data) && AllHave(p.shards, ids, MoveIn)
    ensures var h := ApplyShardMigration(p, r, ids);
            && h.cur == p.cur && h.prev == p.prev && h.gid == p.gid && |h.shards| == NSHARDS
            && forall s: nat :: s < NSHARDS ==> h.shards[s].status == if s in Ids(ids) then GC else p.shards[s].status
  {
    forall s: nat | s < NSHARDS
      ensures MergeShards(p.shards, r.data, ids)[s].status == if s in Ids(ids) then GC else p.shards[s].status
    {
      MergeAll(p.shards, r.data, ids, s);
      IdsIn(ids, s);
    }
  }

  lemma CleanedStatus(p: Group, a: ShardArgs, status: Status)
    requires Sized(p) && a.configNum == p.cur.num && ValidIds(a.ids) && Distinct(a.ids)
    requires AllHave(p.shards, a.ids, status)
    requires status == GC || status == MoveOut
    ensures var h := ApplyShardGC(p, a);
            && h.cur == p.cur && h.prev == p.prev && h.gid == p.gid && |h.shards| == NSHARDS
            && forall s: nat :: s < NSHARDS ==>
                h.shards[s].status == if s in Ids(a.ids) then Normal else p.shards[s].status
  {
    forall s: nat | s < NSHARDS
      ensures CleanShards(p.shards, a.ids)[s].status == if s in Ids(a.ids) then Normal else p.shards[s].status
    {
      CleanAll(p.shards, a.ids, status, s);
      IdsIn(a.ids, s);
    }
  }

  lemma PulledOrder(q: Group, a: ShardArgs)
    requires Sized(q) && ValidIds(a.ids) && Distinct(a.ids)
    ensures VisitOrder(a.ids, GetShardsData(q, a).data) && GetShardsData(q, a).configNum == a.configNum
  {
    var data := GetShardsData(q, a).data;
    forall s ensures s in Ids(a.ids) <==> s in data.Keys {
      IdsIn(a.ids, s);
    }
  }

  /** The shards of group `g` that came with shard `s`, in some order. */
  lemma BatchWith(w: World, g: nat, s: nat) returns (from: nat, ids: seq<nat>)
    requires Live(w) && g in w.core.now && s < NSHARDS && Sized(w.core.now[g])
    requires w.core.now[g].shards[s].status == MoveIn || w.core.now[g].shards[s].status == GC
    ensures ConfigsOk(w.core.configs) && Moving(w.core.configs, w.core.now[g].cur.num, s)
    ensures from == w.core.configs[w.core.now[g].cur.num - 1][s] && from in w.core.now
    ensures s in Ids(ids) && Batch(w.core.now[g], w.core.now[g].shards[s].status, from, ids)
    ensures AllHave(w.core.now[g].shards, ids, w.core.now[g].shards[s].status)
  {
    hide Live;
    var p := w.core.now[g];
    StatusFacts(w, g, s);
    from := p.prev.shards[s];
    var batch := ByStatus(p, p.shards[s].status, from);
    assert s in batch;
    ids := BatchListing(batch);
    forall i | 0 <= i < |ids| ensures p.shards[ids[i]].status == p.shards[s].status {
      assert ids[i] in Ids(ids);
    }
  }

  // ------------------------------------------------------------------
  // Taking a batch in

  lemma PullShard(w: World, g: nat, s: nat, e: nat) returns (w': World)
    requires Live(w) && WorldShaped(w) && AllSized(w) && Within(w, e)
    requires g in w.core.now && s < NSHARDS && w.core.now[g].shards[s].status == MoveIn
    requires forall x :: x in w.core.now ==> w.core.now[x].cur.num >= w.core.now[g].cur.num
    ensures Live(w') && SameRest(w, w') && Within(w', e) && AllSized(w') && Nearer(w, w', e)
  {
    hide Live, WorldShaped, Batch, AllHave, ApplyShardMigration, GetShardsData, VisitOrder, Nearer, Moving, ConfigsOk;
    var from, ids := BatchWith(w, g, s);
    var p, q := w.core.now[g], w.core.now[from];
    NowPlaced(w, g);
    NowPlaced(w, from);
    assert ids != [] && ValidIds(ids) && Distinct(ids) by {
      BatchFacts(p, MoveIn, from, ids);
    }
    var a := ShardArgs(p.cur.num, ids);
    PulledOrder(q, a);
    w' := Perform(w, Pull(g, p, from, q, ids), ids);
    MergedStatus(p, GetShardsData(q, a), ids);
    FewerAwaited(w, w', g, s, e);
  }

  lemma BatchFacts(p: Group, status: Status, from: nat, ids: seq<nat>)
    requires Sized(p) && Batch(p, status, from, ids)
    ensures ids != [] && ValidIds(ids) && Distinct(ids)
    ensures forall s: nat :: s in Ids(ids) ==> s < NSHARDS && p.shards[s].status == status
  {
    forall s: nat | s in Ids(ids) ensures s < NSHARDS && p.shards[s].status == status {
      assert s in ByStatus(p, status, from);
    }
  }

  // ------------------------------------------------------------------
  // Finishing with a batch

  lemma FinishShard(w: World, g: nat, s: nat, from: nat, ids: seq<nat>, e: nat) returns (w': World)
    requires Live(w) && WorldShaped(w) && AllSized(w) && Within(w, e)
    requires g in w.core.now && s < NSHARDS && w.core.now[g].shards[s].status == GC && s in Ids(ids)
    requires Batch(w.core.now[g], GC, from, ids) && AllHave(w.core.now[g].shards, ids, GC)
    requires from in w.core.now && Dropped(w.core.now[from], w.core.now[g].cur.num, ids)
    ensures Live(w') && SameRest(w, w') && Within(w', e) && AllSized(w') && Nearer(w, w', e)
  {
    hide Live, WorldShaped, Batch, AllHave, ApplyShardGC, Nearer, Moving, ConfigsOk, Dropped;
    var p, q := w.core.now[g], w.core.now[from];
    NowPlaced(w, g);
    NowPlaced(w, from);
    BatchFacts(p, GC, from, ids);
    w' := Perform(w, FinishGC(g, p, from, q, ids), []);
    CleanedStatus(p, ShardArgs(p.cur.num, ids), GC);
    FewerOpen(w, w', g, s, e);
  }

  // ------------------------------------------------------------------
  // Dropping the copies

  /** The old owner keeps its copies, and drops them when it is asked to. */
  lemma DropShards(w: World, g: nat, from: nat, ids: seq<nat>, e: nat) returns (w': World)
    requires Live(w) && WorldShaped(w) && AllSized(w) && Within(w, e) && g in w.core.now && from in w.core.now
    requires Batch(w.core.now[g], GC, from, ids)
    requires w.core.now[from].cur.num == w.core.now[g].cur.num && AllHave(w.core.now[from].shards, ids, MoveOut)
    ensures Live(w') && SameRest(w, w') && Within(w', e) && AllSized(w') && Nearer(w, w', e)
  {
    hide Live, WorldShaped, Batch, ApplyShardGC, Nearer, Moving, ConfigsOk;
    var p, q, a := w.core.now[g], w.core.now[from], ShardArgs(w.core.now[g].cur.num, ids);
    NowPlaced(w, g);
    NowPlaced(w, from);
    BatchFacts(p, GC, from, ids);
    w' := Perform(w, AskDelete(g, p, from, q, ids), []);
    CleanedStatus(q, a, MoveOut);
    assert ids[0] in Ids(ids);
    FewerOpen(w, w', from, ids[0], e);
  }

  /** The old owner, in the same configuration, has dropped all its copies or none. */
  lemma AllOrNone(w: World, g: nat, from: nat, ids: seq<nat>)
    requires Live(w) && AllSized(w) && g in w.core.now && from in w.core.now && ValidIds(ids)
    requires Batch(w.core.now[g], GC, from, ids) && w.core.now[from].cur.num == w.core.now[g].cur.num
    ensures AllHave(w.core.now[from].shards, ids, Normal) || AllHave(w.core.now[from].shards, ids, MoveOut)
  {
    hide Live;
    var cs, p, q, d := w.core.configs, w.core.now[g], w.core.now[from], w.core.now[g].cur.num;
    NowPlaced(w, g);
    NowPlaced(w, from);
    BatchIsPairs(cs, p, GC, from, ids);
    forall i | 0 <= i < |ids|
      ensures (q.shards[ids[i]].status == Normal || q.shards[ids[i]].status == MoveOut)
           && q.shards[ids[i]].status == q.shards[ids[0]].status
    {
      assert ids[i] in Ids(ids) && ids[0] in Ids(ids);
      assert PlacedShard(cs, q, ids[i]) && SamePair(cs, d, ids[i], ids[0]);
    }
  }

  /** One step towards the end of a batch that has come in. */
  lemma CleanShard(w: World, g: nat, s: nat, e: nat) returns (w': World)
    requires Live(w) && WorldShaped(w) && AllSized(w) && Within(w, e)
    requires g in w.core.now && s < NSHARDS && w.core.now[g].shards[s].status == GC
    requires forall x :: x in w.core.now ==> w.core.now[x].cur.num >= w.core.now[g].cur.num
    ensures Live(w') && SameRest(w, w') && Within(w', e) && AllSized(w') && Nearer(w, w', e)
  {
    hide Live, WorldShaped, Batch, AllHave, Nearer, Moving, ConfigsOk;
    var from, ids := BatchWith(w, g, s);
    var p, q := w.core.now[g], w.core.now[from];
    BatchFacts(p, GC, from, ids);
    if Dropped(q, p.cur.num, ids) {
      w' := FinishShard(w, g, s, from, ids, e);
    } else {
      AllOrNone(w, g, from, ids);
      w' := DropShards(w, g, from, ids, e);
    }
  }

  // ------------------------------------------------------------------
  // Any shard that is not normal, in a group that is not ahead of others

  lemma LastOf(w: World, g: nat, d: nat, s: nat)
    requires Live(w) && g in w.core.now
    ensures Shaped(w.core) && FinishedLast(w.core, g, d, s)
  {
    hide Reachable, PastPlaced, PendingWhole, FinishedLast, Shaped;
  }

  /** While a copy is kept, its new owner has not finished. */
  lemma KeptIsAwaited(w: World, g: nat, s: nat) returns (to: nat)
    requires Live(w) && AllSized(w) && g in w.core.now && s < NSHARDS && w.core.now[g].shards[s].status == MoveOut
    requires forall x :: x in w.core.now ==> w.core.now[x].cur.num >= w.core.now[g].cur.num
    ensures to in w.core.now && w.core.now[to].cur.num == w.core.now[g].cur.num
    ensures w.core.now[to].shards[s].status == MoveIn || w.core.now[to].shards[s].status == GC
  {
    hide Live, Placed, Shaped;
    var d := w.core.now[g].cur.num;
    StatusFacts(w, g, s);
    to := w.core.configs[d][s];
    LastOf(w, to, d, s);
    if w.core.now[to].cur.num == d && w.core.now[to].shards[s].status != Normal {
      StatusFacts(w, to, s);
    }
  }

  lemma MoveOn(w: World, g: nat, s: nat, e: nat) returns (w': World)
    requires Live(w) && WorldShaped(w) && AllSized(w) && Within(w, e)
    requires g in w.core.now && s < NSHARDS && w.core.now[g].shards[s].status != Normal
    requires forall x :: x in w.core.now ==> w.core.now[x].cur.num >= w.core.now[g].cur.num
    ensures Live(w') && SameRest(w, w') && Within(w', e) && AllSized(w') && Nearer(w, w', e)
  {
    hide Live, WorldShaped, Nearer, SameRest, ConfigsOk, Moving;
    match w.core.now[g].shards[s].status
    case MoveIn => w' := PullShard(w, g, s, e);
    case GC => w' := CleanShard(w, g, s, e);
    case MoveOut =>
      var to := KeptIsAwaited(w, g, s);
      if w.core.now[to].shards[s].status == MoveIn {
        w' := PullShard(w, to, s, e);
      } else {
        w' := CleanShard(w, to, s, e);
      }
  }

  // ------------------------------------------------------------------
  // All the way

  lemma {:induction false} LeastGroup(now: map<nat, Group>, keys: set<nat>) returns (g: nat)
    requires keys != {} && keys <= now.Keys
    ensures g in keys && forall x :: x in keys ==> now[x].cur.num >= now[g].cur.num
    decreases keys
  {
    var x :| x in keys;
    var rest := keys - {x};
    assert forall y :: y in keys ==> y == x || y in rest;
    g := x;
    if rest != {} {
      var h := LeastGroup(now, rest);
      if now[h].cur.num < now[x].cur.num {
        g := h;
      }
    }
  }

  lemma Round(w: World, e: nat) returns (w': World)
    requires Live(w) && AllSized(w) && Within(w, e) && e < |w.core.configs| && !AllSettled(w, e)
    ensures Live(w') && SameRest(w, w') && Within(w', e) && AllSized(w') && Nearer(w, w', e)
  {
    hide Live, Nearer, SameRest, WorldShaped, ConfigsOk, Within, AllNormal;
    LiveFacts(w);
    assert w.core.now.Keys != {};
    var g := LeastGroup(w.core.now, w.core.now.Keys);
    var d := w.core.now[g].cur.num;
    if x :| x in w.core.now && w.core.now[x].cur.num == d && !AllNormal(w.core.now[x]) {
      var s := OpenShard(w.core.now[x]);
      w' := MoveOn(w, x, s, e);
    } else {
      Behind(w, g, e);
      w' := Enter(w, g, e);
    }
  }

  lemma OpenShard(p: Group) returns (s: nat)
    requires Sized(p) && !AllNormal(p)
    ensures s < NSHARDS && p.shards[s].status != Normal
  {
    s :| 0 <= s < NSHARDS && p.shards[s].status != Normal;
  }

  /** When the groups that are furthest behind have all settled, they have not arrived. */
  lemma Behind(w: World, g: nat, e: nat)
    requires AllSized(w) && Within(w, e) && !AllSettled(w, e) && g in w.core.now
    requires forall x :: x in w.core.now ==> w.core.now[x].cur.num >= w.core.now[g].cur.num
    requires forall x :: x in w.core.now && w.core.now[x].cur.num == w.core.now[g].cur.num ==> AllNormal(w.core.now[x])
    ensures w.core.now[g].cur.num < e
  {
    hide AllNormal;
  }

  lemma {:induction false} Settle(w: World, e: nat) returns (w': World)
    requires Live(w) && AllSized(w) && Within(w, e) && e < |w.core.configs|
    ensures Live(w') && SameRest(w, w') && AllSettled(w', e)
    decreases Ahead(w, e), WithStatus(w, true), WithStatus(w, false)
  {
    hide Live, AllSettled, Ahead, WithStatus;
    if AllSettled(w, e) {
      w' := w;
    } else {
      var v := Round(w, e);
      w' := Settle(v, e);
    }
  }

  /** From every reachable state, and for every configuration that no group has passed, a state
      is reachable without any client in which all groups have settled in it. */
  lemma NeverStuck(w: World, e: nat) returns (w': World)
    requires Reachable(w) && Within(w, e) && e < |w.core.configs|
    ensures Reachable(w') && SameRest(w, w') && AllSettled(w', e)
  {
    ReachableIsLive(w);
    hide BatchInv, Reachable;
    LiveFacts(w);
    w' := Settle(w, e);
  }
}
