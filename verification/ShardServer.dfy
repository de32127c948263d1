/** A shard server as it updates its shards, its table of past writes and its
    configurations, one committed command at a time. */
module ShardServer {
  import opened Basics
  import opened ShardState

  // ------------------------------------------------------------------
  // Visiting a map in some order

  lemma NotIn(l: seq<nat>, x: nat)
    requires x !in Ids(l)
    ensures x !in l
  {
  }

  /** Visiting `done` first and the rest afterwards is one of the orders. */
  lemma OrderFrom(done: seq<nat>, left: set<nat>, x: nat, data: map<nat, KV>)
    requires Distinct(done) && Ids(done) !! left && Ids(done) + left == data.Keys && x in left
    requires forall s :: s in data ==> s < NSHARDS
    ensures VisitOrder(done + ([x] + Listing(left - {x})), data)
  {
    var tail := Listing(left - {x});
    IdsCons(x, []);
    IdsCons(x, tail);
    IdsAppend(done, [x] + tail);
    var order := done + ([x] + tail);
    forall i | 0 <= i < |order| ensures order[i] in data {
      assert order[i] in Ids(order);
    }
    DistinctAppend([x], tail);
    DistinctAppend(done, [x] + tail);
  }

  lemma DistinctAppend(a: seq<nat>, b: seq<nat>)
    requires Distinct(a) && Distinct(b) && Ids(a) !! Ids(b)
    ensures Distinct(a + b)
  {
    assert forall i :: 0 <= i < |a| ==> a[i] in Ids(a);
    assert forall i :: 0 <= i < |b| ==> b[i] in Ids(b);
  }

  lemma OrderDone(done: seq<nat>, data: map<nat, KV>)
    requires Distinct(done) && Ids(done) == data.Keys && forall s :: s in data ==> s < NSHARDS
    ensures VisitOrder(done, data)
  {
    forall i | 0 <= i < |done| ensures done[i] in data {
      assert done[i] in Ids(done);
    }
  }

  ghost predicate InData(ids: seq<nat>, data: map<nat, KV>) {
    ValidIds(ids) && forall i :: 0 <= i < |ids| ==> ids[i] in data
  }

  /** The shards of `done` were waiting and have been taken in. */
  ghost predicate Taken(before: seq<ShardData>, data: map<nat, KV>, done: seq<nat>, now: seq<ShardData>) {
    && |before| == |now| == NSHARDS && InData(done, data) && Distinct(done)
    && AllHave(before, done, MoveIn) && now == MergeShards(before, data, done)
  }

  lemma {:induction false} MergeAppend(before: seq<ShardData>, data: map<nat, KV>, a: seq<nat>, b: seq<nat>)
    requires |before| == NSHARDS && InData(a, data) && InData(b, data) && Distinct(a) && AllHave(before, a, MoveIn)
    ensures InData(a + b, data)
    ensures MergeShards(before, data, a + b) == MergeShards(MergeShards(before, data, a), data, b)
    decreases |a|
  {
    if a == [] {
      assert a + b == b;
    } else {
      var x, rest := a[0], a[1..];
      var next := before[x := ShardData(before[x].kv + data[x], GC)];
      assert AllHave(next, rest, MoveIn) by {
        forall i | 0 <= i < |rest| ensures next[rest[i]].status == MoveIn {
          assert rest[i] == a[i + 1];
        }
      }
      MergeAppend(next, data, rest, b);
      assert (a + b)[1..] == rest + b;
    }
  }

  lemma TakenOne(before: seq<ShardData>, data: map<nat, KV>, done: seq<nat>, now: seq<ShardData>, x: nat)
    requires Taken(before, data, done, now) && x < NSHARDS && x in data && x !in done && now[x].status == MoveIn
    ensures Taken(before, data, done + [x], now[x := ShardData(now[x].kv + data[x], GC)])
  {
    MergeAll(before, data, done, x);
    MergeAppend(before, data, done, [x]);
    assert [x][1..] == [];
  }

  lemma TakenStop(before: seq<ShardData>, data: map<nat, KV>, done: seq<nat>, now: seq<ShardData>, s: nat,
      rest: seq<nat>)
    requires Taken(before, data, done, now) && VisitOrder(done + ([s] + rest), data) && s < NSHARDS
    requires now[s].status != MoveIn
    ensures MergeShards(before, data, done + ([s] + rest)) == now
  {
    var tail, order := [s] + rest, done + ([s] + rest);
    forall i | 0 <= i < |tail| ensures tail[i] in data && tail[i] < NSHARDS {
      assert order[|done| + i] == tail[i];
    }
    MergeAppend(before, data, done, tail);
  }

  // ------------------------------------------------------------------

  class ShardKV {
    const gid: nat
    var current: Config
    var prev: Config
    var shards: seq<ShardData>
    var duplicateTable: DupTable

    ghost function View(): Group
      reads this
    {
      Group(gid, current, prev, shards, duplicateTable)
    }

    constructor (gid: nat)
      ensures View() == NewGroup(gid)
    {
      this.gid := gid;
      current, prev := Config(0, NOBODY), Config(0, NOBODY);
      shards := seq(NSHARDS, _ => EMPTY_SHARD);
      duplicateTable := map[];
    }

    predicate MatchGroup(key: string)
      requires Sized(View())
      reads this
      ensures MatchGroup(key) <==> Serves(View(), Key2Shard(key))
    {
      var shard := Key2Shard(key);
      var status := shards[shard].status;
      current.shards[shard] == gid && (status == Normal || status == GC)
    }

    method ApplyToStateMachine(op: Op, shard: nat) returns (reply: OpReply)
      requires Sized(View()) && shard < NSHARDS
      modifies this`shards
      ensures shards == old(shards)[shard := old(shards)[shard].(kv := Written(old(shards)[shard].kv, op))]
      ensures reply == Answer(old(shards)[shard].kv, op)
    {
      var data := shards[shard];
      match op.kind
      case OpGet =>
        if op.key in data.kv {
          return OpReply(data.kv[op.key], OK);
        }
        return OpReply("", ErrNoKey);
      case OpPut =>
        shards := shards[shard := data.(kv := data.kv[op.key := op.value])];
        return OpReply("", OK);
      case OpAppend =>
        shards := shards[shard := data.(kv := data.kv[op.key := Value(data.kv, op.key) + op.value])];
        return OpReply("", OK);
    }

    method ApplyClientOperation(op: Op) returns (reply: OpReply)
      requires Sized(View())
      modifies this
      ensures (View(), reply) == ShardState.ApplyClientOperation(old(View()), op)
    {
      if !MatchGroup(op.key) {
        return OpReply("", ErrWrongGroup);
      }
      if op.kind != OpGet && Duplicated(duplicateTable, op.client, op.seqId) {
        return duplicateTable[op.client].reply;
      }
      reply := ApplyToStateMachine(op, Key2Shard(op.key));
      if op.kind != OpGet {
        duplicateTable := duplicateTable[op.client := LastOp(op.seqId, reply)];
      }
    }

    method SetStatus(s: nat, status: Status)
      requires s < |shards|
      modifies this`shards
      ensures shards == old(shards)[s := old(shards)[s].(status := status)]
    {
      shards := shards[s := shards[s].(status := status)];
    }

    method ApplyNewConfig(config: Config) returns (err: Err)
      requires Sized(View()) && |config.shards| == NSHARDS
      modifies this
      ensures View() == ShardState.ApplyNewConfig(old(View()), config)
      ensures err == if old(current).num + 1 == config.num then OK else ErrWrongConfig
    {
      if current.num + 1 != config.num {
        return ErrWrongConfig;
      }
      ghost var before := View();
      for i := 0 to NSHARDS
        invariant View() == before.(shards := shards) && |shards| == NSHARDS
        invariant forall s :: 0 <= s < NSHARDS ==>
                                shards[s] == if s < i then NewStatuses(before, config)[s] else before.shards[s]
      {
        if current.shards[i] != gid && config.shards[i] == gid {
          if current.shards[i] != 0 {
            SetStatus(i, MoveIn);
          }
        }
        if current.shards[i] == gid && config.shards[i] != gid {
          if config.shards[i] != 0 {
            SetStatus(i, MoveOut);
          }
        }
      }
      assert shards == NewStatuses(before, config);
      prev := current;
      current := config;
      return OK;
    }

    /** Copies the entries of `data`, in whatever order they come. */
    static method CopyInto(kv: KV, data: KV) returns (r: KV)
      ensures r == kv + data
    {
      r := kv;
      var left := data.Keys;
      while left != {}
        invariant left <= data.Keys && r == kv + (map k | k in data && k !in left :: data[k])
        decreases left
      {
        var k :| k in left;
        left := left - {k};
        r := r[k := data[k]];
      }
    }

    static method MergeTable(dup: DupTable, more: DupTable) returns (r: DupTable)
      ensures r == MergeDup(dup, more)
    {
      r := dup;
      var left := more.Keys;
      while left != {}
        invariant left <= more.Keys && r == MergeDup(dup, map c | c in more && c !in left :: more[c])
        decreases left
      {
        NonEmpty(left);
        var c :| c in left;
        left := left - {c};
        if c !in r || r[c].seqId < more[c].seqId {
          r := r[c := more[c]];
        }
      }
      assert more == map c | c in more && c !in left :: more[c];
    }

    /** Takes in the shards of a reply, in whatever order they come. */
    method TakeShards(data: map<nat, KV>) returns (ghost order: seq<nat>)
      requires |shards| == NSHARDS && forall s :: s in data ==> s < NSHARDS
      modifies this`shards
      ensures VisitOrder(order, data) && shards == MergeShards(old(shards), data, order)
    {
      ghost var before := shards;
      ghost var done: seq<nat> := [];
      var left := data.Keys;
      while left != {}
        invariant Taken(before, data, done, shards)
        invariant Distinct(done) && Ids(done) !! left && Ids(done) + left == data.Keys
        decreases left
      {
        var s :| s in left;
        if shards[s].status != MoveIn {
          OrderFrom(done, left, s, data);
          order := done + ([s] + Listing(left - {s}));
          TakenStop(before, data, done, shards, s, Listing(left - {s}));
          return;
        }
        var kv := CopyInto(shards[s].kv, data[s]);
        TakenOne(before, data, done, shards, s) by {
          NotIn(done, s);
        }
        IdsAppend(done, [s]);
        IdsCons(s, []);
        shards := shards[s := ShardData(kv, GC)];
        done := done + [s];
        left := left - {s};
      }
      OrderDone(done, data);
      order := done;
    }

    method ApplyShardMigration(r: ShardReply) returns (ghost order: seq<nat>)
      requires Sized(View()) && forall s :: s in r.data ==> s < NSHARDS
      modifies this
      ensures VisitOrder(order, r.data) && View() == ShardState.ApplyShardMigration(old(View()), r, order)
    {
      if r.configNum == current.num {
        order := TakeShards(r.data);
        duplicateTable := MergeTable(duplicateTable, r.dup);
      } else {
        order := Listing(r.data.Keys);
        OrderDone(order, r.data);
      }
    }

    method ApplyShardGC(args: ShardArgs)
      requires Sized(View()) && ValidIds(args.ids)
      modifies this
      ensures View() == ShardState.ApplyShardGC(old(View()), args)
    {
      if args.configNum != current.num {
        return;
      }
      ghost var before := View();
      var i := 0;
      while i < |args.ids|
        invariant 0 <= i <= |args.ids| && Sized(View()) && View() == before.(shards := shards)
        invariant CleanShards(shards, args.ids[i..]) == CleanShards(before.shards, args.ids)
      {
        var s := args.ids[i];
        assert args.ids[i..][1..] == args.ids[i + 1..];
        if shards[s].status == GC {
          SetStatus(s, Normal);
        } else if shards[s].status == MoveOut {
          shards := shards[s := EMPTY_SHARD];
        } else {
          return;
        }
        i := i + 1;
      }
    }

    /** The shards of a status, by the group they belonged to. */
    method GetShardByStatus(status: Status) returns (byGroup: map<nat, seq<nat>>)
      requires Sized(View())
      ensures forall g :: g in byGroup <==> g != 0 && ByStatus(View(), status, g) != {}
      ensures forall g :: g in byGroup ==>
                ValidIds(byGroup[g]) && Distinct(byGroup[g]) && Ids(byGroup[g]) == ByStatus(View(), status, g)
    {
      byGroup := map[];
      for i := 0 to NSHARDS
        invariant Grouped(View(), status, byGroup, i)
      {
        var g := prev.shards[i];
        GroupedStep(View(), status, byGroup, i, i + 1);
        if shards[i].status == status {
          if g != 0 {
            var list := if g in byGroup then byGroup[g] else [];
            byGroup := byGroup[g := list + [i]];
          }
        }
      }
      GroupedEnd(View(), status, byGroup);
    }

    /** Nothing while the configuration asked for has not been reached here. */
    method GetShardsData(args: ShardArgs) returns (reply: Option<ShardReply>)
      requires Sized(View()) && ValidIds(args.ids)
      ensures reply == if current.num < args.configNum then None else Some(ShardState.GetShardsData(View(), args))
    {
      if current.num < args.configNum {
        return None;
      }
      var data: map<nat, KV> := map[];
      for i := 0 to |args.ids|
        invariant data == map s | s in args.ids[..i] :: shards[s].kv
      {
        assert args.ids[..i + 1] == args.ids[..i] + [args.ids[i]];
        data := data[args.ids[i] := shards[args.ids[i]].kv];
      }
      assert args.ids[..|args.ids|] == args.ids;
      return Some(ShardReply(args.configNum, data, duplicateTable));
    }

    /** No change of configuration is going on. */
    method NeedFetch() returns (r: bool)
      requires Sized(View())
      ensures r == AllNormal(View())
    {
      for i := 0 to NSHARDS
        invariant forall s :: 0 <= s < i ==> shards[s].status == Normal
      {
        if shards[i].status != Normal {
          return false;
        }
      }
      return true;
    }
  }

  ghost function ByStatusUpTo(g: Group, status: Status, from: nat, n: nat): set<nat>
    requires Sized(g) && n <= NSHARDS
  {
    set s | 0 <= s < n && g.shards[s].status == status && g.prev.shards[s] == from
  }

  ghost predicate GroupedAt(g: Group, status: Status, byGroup: map<nat, seq<nat>>, n: nat, from: nat)
    requires Sized(g) && n <= NSHARDS
  {
    var ids := ByStatusUpTo(g, status, from, n);
    && (from in byGroup <==> from != 0 && ids != {})
    && (from in byGroup ==> ValidIds(byGroup[from]) && Distinct(byGroup[from]) && Ids(byGroup[from]) == ids)
  }

  ghost predicate Grouped(g: Group, status: Status, byGroup: map<nat, seq<nat>>, n: nat)
    requires Sized(g) && n <= NSHARDS
  {
    forall from: nat :: GroupedAt(g, status, byGroup, n, from)
  }

  ghost function WithShard(g: Group, status: Status, byGroup: map<nat, seq<nat>>, i: nat): map<nat, seq<nat>>
    requires Sized(g) && i < NSHARDS
  {
    var x := g.prev.shards[i];
    if g.shards[i].status == status && x != 0 then
      byGroup[x := (if x in byGroup then byGroup[x] else []) + [i]]
    else byGroup
  }

  lemma GroupedStepAt(g: Group, status: Status, byGroup: map<nat, seq<nat>>, i: nat, n: nat, from: nat)
    requires Sized(g) && i < NSHARDS && n == i + 1 && GroupedAt(g, status, byGroup, i, from)
    ensures GroupedAt(g, status, WithShard(g, status, byGroup, i), n, from)
  {
    var was, now := ByStatusUpTo(g, status, from, i), ByStatusUpTo(g, status, from, n);
    if g.shards[i].status == status && from == g.prev.shards[i] {
      assert now == was + {i};
      assert i in now;
      if from != 0 {
        Extended(if from in byGroup then byGroup[from] else [], i, was);
      }
    } else {
      assert now == was;
    }
  }

  lemma Extended(list: seq<nat>, i: nat, was: set<nat>)
    requires i < NSHARDS && ValidIds(list) && Distinct(list) && Ids(list) == was && i !in was
    ensures ValidIds(list + [i]) && Distinct(list + [i]) && Ids(list + [i]) == was + {i}
  {
    IdsAppend(list, [i]);
    IdsCons(i, []);
    assert forall k :: 0 <= k < |list| ==> list[k] in Ids(list);
  }

  lemma GroupedStep(g: Group, status: Status, byGroup: map<nat, seq<nat>>, i: nat, n: nat)
    requires Sized(g) && i < NSHARDS && n == i + 1 && Grouped(g, status, byGroup, i)
    ensures Grouped(g, status, WithShard(g, status, byGroup, i), n)
  {
    var next := WithShard(g, status, byGroup, i);
    forall from: nat ensures GroupedAt(g, status, next, n, from) {
      assert GroupedAt(g, status, byGroup, i, from);
      GroupedStepAt(g, status, byGroup, i, n, from);
    }
  }

  lemma GroupedEnd(g: Group, status: Status, byGroup: map<nat, seq<nat>>)
    requires Sized(g) && Grouped(g, status, byGroup, NSHARDS)
    ensures forall from :: from in byGroup <==> from != 0 && ByStatus(g, status, from) != {}
    ensures forall from :: from in byGroup ==>
              ValidIds(byGroup[from]) && Distinct(byGroup[from]) && Ids(byGroup[from]) == ByStatus(g, status, from)
  {
    forall from: nat
      ensures from in byGroup <==> from != 0 && ByStatus(g, status, from) != {}
      ensures from in byGroup ==>
              ValidIds(byGroup[from]) && Distinct(byGroup[from]) && Ids(byGroup[from]) == ByStatus(g, status, from)
    {
      assert GroupedAt(g, status, byGroup, NSHARDS, from);
      assert ByStatusUpTo(g, status, from, NSHARDS) == ByStatus(g, status, from);
    }
  }
}
