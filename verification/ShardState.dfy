/** One replica group of the sharded store: its state, and what each committed
    command does to it. A configuration is a number and, for every shard, the
    group that owns it; group 0 is nobody. */
module ShardState {

  const NSHARDS := 10

  datatype Status = Normal | MoveIn | MoveOut | GC

  type KV = map<string, string>

  datatype ShardData = ShardData(kv: KV, status: Status)

  datatype Config = Config(num: nat, shards: seq<nat>)

  datatype OpType = OpGet | OpPut | OpAppend

  datatype Op = Op(key: string, value: string, kind: OpType, client: int, seqId: int)

  datatype Err = OK | ErrNoKey | ErrWrongGroup | ErrWrongConfig

  datatype OpReply = OpReply(value: string, err: Err)

  datatype LastOp = LastOp(seqId: int, reply: OpReply)

  type DupTable = map<int, LastOp>

  datatype Group = Group(gid: nat, cur: Config, prev: Config, shards: seq<ShardData>, dup: DupTable)

  datatype ShardReply = ShardReply(configNum: nat, data: map<nat, KV>, dup: DupTable)

  datatype ShardArgs = ShardArgs(configNum: nat, ids: seq<nat>)

  datatype Command =
    | ClientOp(op: Op)
    | ConfigChange(config: Config)
    | ShardMigration(reply: ShardReply)
    | ShardGC(args: ShardArgs)

  const EMPTY_SHARD := ShardData(map[], Normal)

  const NOBODY: seq<nat> := [0, 0, 0, 0, 0, 0, 0, 0, 0, 0]

  function NewGroup(gid: nat): Group {
    Group(gid, Config(0, NOBODY), Config(0, NOBODY), seq(NSHARDS, _ => EMPTY_SHARD), map[])
  }

  ghost predicate Sized(g: Group) {
    |g.shards| == NSHARDS && |g.cur.shards| == NSHARDS && |g.prev.shards| == NSHARDS
  }

  // ------------------------------------------------------------------
  // Client operations

  /** Keys are sequences of bytes; a shard is chosen by the first one. */
  function Key2Shard(key: string): (s: nat)
    ensures s < NSHARDS
  {
    if key == "" then 0 else (key[0] as int) % NSHARDS
  }

  predicate Serves(g: Group, s: nat)
    requires Sized(g) && s < NSHARDS
  {
    g.cur.shards[s] == g.gid && (g.shards[s].status == Normal || g.shards[s].status == GC)
  }

  predicate Duplicated(dup: DupTable, client: int, seqId: int) {
    client in dup && seqId <= dup[client].seqId
  }

  function Value(kv: KV, key: string): string {
    if key in kv then kv[key] else ""
  }

  function Written(kv: KV, op: Op): KV {
    match op.kind
    case OpGet => kv
    case OpPut => kv[op.key := op.value]
    case OpAppend => kv[op.key := Value(kv, op.key) + op.value]
  }

  function Answer(kv: KV, op: Op): OpReply {
    if op.kind == OpGet then
      if op.key in kv then OpReply(kv[op.key], OK) else OpReply("", ErrNoKey)
    else OpReply("", OK)
  }

  /** The operation is a write that changes the store: the shard is served here and the write is new. */
  predicate TakesEffect(g: Group, op: Op)
    requires Sized(g)
  {
    op.kind != OpGet && Serves(g, Key2Shard(op.key)) && !Duplicated(g.dup, op.client, op.seqId)
  }

  function ApplyClientOperation(g: Group, op: Op): (Group, OpReply)
    requires Sized(g)
  {
    var s := Key2Shard(op.key);
    if !Serves(g, s) then (g, OpReply("", ErrWrongGroup))
    else if op.kind != OpGet && Duplicated(g.dup, op.client, op.seqId) then (g, g.dup[op.client].reply)
    else
      var reply := Answer(g.shards[s].kv, op);
      var h := g.(shards := g.shards[s := g.shards[s].(kv := Written(g.shards[s].kv, op))]);
      (if op.kind != OpGet then h.(dup := g.dup[op.client := LastOp(op.seqId, reply)]) else h, reply)
  }

  // ------------------------------------------------------------------
  // Configuration changes

  function NewStatus(gid: nat, was: nat, will: nat, status: Status): Status {
    if was != gid && will == gid && was != 0 then MoveIn
    else if was == gid && will != gid && will != 0 then MoveOut
    else status
  }

  function NewStatuses(g: Group, config: Config): seq<ShardData>
    requires Sized(g) && |config.shards| == NSHARDS
  {
    seq(NSHARDS, s requires 0 <= s < NSHARDS =>
          ShardData(g.shards[s].kv, NewStatus(g.gid, g.cur.shards[s], config.shards[s], g.shards[s].status)))
  }

  function ApplyNewConfig(g: Group, config: Config): Group
    requires Sized(g) && |config.shards| == NSHARDS
  {
    if g.cur.num + 1 != config.num then g
    else Group(g.gid, config, g.cur, NewStatuses(g, config), g.dup)
  }

  // ------------------------------------------------------------------
  // Migration

  ghost predicate ValidIds(ids: seq<nat>) {
    forall i :: 0 <= i < |ids| ==> ids[i] < NSHARDS
  }

  ghost predicate Distinct(ids: seq<nat>) {
    forall i, j :: 0 <= i < j < |ids| ==> ids[i] != ids[j]
  }

  ghost function Ids(ids: seq<nat>): set<nat> {
    set i | 0 <= i < |ids| :: ids[i]
  }

  /** `order` lists the shards of a reply, in the order in which a server happens to visit them. */
  ghost predicate VisitOrder(order: seq<nat>, data: map<nat, KV>) {
    && ValidIds(order) && Distinct(order) && Ids(order) == data.Keys
    && forall i :: 0 <= i < |order| ==> order[i] in data
  }

  /** Takes shards in one by one, giving up at the first that is not waiting. */
  function MergeShards(shards: seq<ShardData>, data: map<nat, KV>, order: seq<nat>): (r: seq<ShardData>)
    requires |shards| == NSHARDS && ValidIds(order) && forall i :: 0 <= i < |order| ==> order[i] in data
    ensures |r| == NSHARDS
    decreases |order|
  {
    if order == [] || shards[order[0]].status != MoveIn then shards
    else
      var s := order[0];
      MergeShards(shards[s := ShardData(shards[s].kv + data[s], GC)], data, order[1..])
  }

  function MergeDup(dup: DupTable, more: DupTable): DupTable {
    map c | c in dup.Keys + more.Keys ::
      if c !in dup then more[c] else if c in more && dup[c].seqId < more[c].seqId then more[c] else dup[c]
  }

  function ApplyShardMigration(g: Group, r: ShardReply, order: seq<nat>): Group
    requires Sized(g) && VisitOrder(order, r.data)
  {
    if r.configNum != g.cur.num then g
    else g.(shards := MergeShards(g.shards, r.data, order), dup := MergeDup(g.dup, r.dup))
  }

  // ------------------------------------------------------------------
  // Clean-up

  function CleanShards(shards: seq<ShardData>, ids: seq<nat>): (r: seq<ShardData>)
    requires |shards| == NSHARDS && ValidIds(ids)
    ensures |r| == NSHARDS
    decreases |ids|
  {
    if ids == [] then shards
    else
      var s := ids[0];
      match shards[s].status
      case GC => CleanShards(shards[s := shards[s].(status := Normal)], ids[1..])
      case MoveOut => CleanShards(shards[s := EMPTY_SHARD], ids[1..])
      case _ => shards
  }

  function ApplyShardGC(g: Group, args: ShardArgs): Group
    requires Sized(g) && ValidIds(args.ids)
  {
    if args.configNum != g.cur.num then g else g.(shards := CleanShards(g.shards, args.ids))
  }

  // ------------------------------------------------------------------
  // Requests

  /** The shards of `status` that used to belong to group `from`. */
  ghost function ByStatus(g: Group, status: Status, from: nat): set<nat>
    requires Sized(g)
  {
    set s | 0 <= s < NSHARDS && g.shards[s].status == status && g.prev.shards[s] == from
  }

  predicate AllNormal(g: Group)
    requires Sized(g)
  {
    forall s :: 0 <= s < NSHARDS ==> g.shards[s].status == Normal
  }

  function GetShardsData(g: Group, args: ShardArgs): ShardReply
    requires Sized(g) && ValidIds(args.ids)
  {
    ShardReply(args.configNum, map s | s in args.ids :: g.shards[s].kv, g.dup)
  }

  // ------------------------------------------------------------------
  // One-by-one equals all-at-once, when all are in the same state

  ghost predicate AllHave(shards: seq<ShardData>, ids: seq<nat>, status: Status)
    requires |shards| == NSHARDS && ValidIds(ids)
  {
    forall i :: 0 <= i < |ids| ==> shards[ids[i]].status == status
  }

  lemma {:induction false} MergeAll(shards: seq<ShardData>, data: map<nat, KV>, order: seq<nat>, s: nat)
    requires |shards| == NSHARDS && ValidIds(order) && Distinct(order)
    requires forall i :: 0 <= i < |order| ==> order[i] in data
    requires AllHave(shards, order, MoveIn) && s < NSHARDS
    ensures MergeShards(shards, data, order)[s] ==
              if s in order then ShardData(shards[s].kv + data[s], GC) else shards[s]
    decreases |order|
  {
    if order != [] {
      var x, rest := order[0], order[1..];
      var next := shards[x := ShardData(shards[x].kv + data[x], GC)];
      assert x !in rest;
      assert AllHave(next, rest, MoveIn) by {
        forall i | 0 <= i < |rest| ensures next[rest[i]].status == MoveIn {
          assert rest[i] == order[i + 1];
        }
      }
      MergeAll(next, data, rest, s);
      assert s in order <==> s == x || s in rest by {
        assert order == [x] + rest;
      }
    }
  }

  lemma {:induction false} CleanAll(shards: seq<ShardData>, ids: seq<nat>, status: Status, s: nat)
    requires |shards| == NSHARDS && ValidIds(ids) && Distinct(ids) && AllHave(shards, ids, status) && s < NSHARDS
    requires status != MoveIn
    ensures CleanShards(shards, ids)[s] ==
              if s !in ids || status == Normal then shards[s]
              else if status == GC then shards[s].(status := Normal) else EMPTY_SHARD
    decreases |ids|
  {
    if ids != [] && status != Normal {
      var x, rest := ids[0], ids[1..];
      var next := shards[x := if status == GC then shards[x].(status := Normal) else EMPTY_SHARD];
      assert x !in rest;
      assert AllHave(next, rest, status) by {
        forall i | 0 <= i < |rest| ensures next[rest[i]].status == status {
          assert rest[i] == ids[i + 1];
        }
      }
      CleanAll(next, rest, status, s);
      assert s in ids <==> s == x || s in rest by {
        assert ids == [x] + rest;
      }
    }
  }

  // ------------------------------------------------------------------
  // Sets of shards in some order

  ghost function Listing(s: set<nat>): (l: seq<nat>)
    ensures Distinct(l) && Ids(l) == s
    decreases s
  {
    if s == {} then []
    else
      var x :| x in s;
      var l := Listing(s - {x});
      assert x !in Ids(l);
      assert forall i :: 0 <= i < |l| ==> l[i] in Ids(l);
      assert Ids([x] + l) == s by {
        IdsCons(x, l);
      }
      [x] + l
  }

  lemma IdsCons(x: nat, l: seq<nat>)
    ensures Ids([x] + l) == {x} + Ids(l)
    ensures l == [] ==> Ids([x]) == {x}
  {
    assert [x] + [] == [x];
    assert ([x] + l)[0] == x;
    forall i | 0 <= i < |l| ensures l[i] in Ids([x] + l) {
      assert ([x] + l)[i + 1] == l[i];
    }
  }

  lemma {:induction false} IdsAppend(a: seq<nat>, b: seq<nat>)
    ensures Ids(a + b) == Ids(a) + Ids(b)
  {
    forall i | 0 <= i < |a| ensures a[i] in Ids(a + b) {
      assert (a + b)[i] == a[i];
    }
    forall i | 0 <= i < |b| ensures b[i] in Ids(a + b) {
      assert (a + b)[|a| + i] == b[i];
    }
  }

  // ------------------------------------------------------------------
  // Tables of past writes

  /** Whatever `more` would turn away, `dup` turns away too. */
  ghost predicate TableCovers(dup: DupTable, more: DupTable) {
    forall c :: c in more ==> c in dup && more[c].seqId <= dup[c].seqId
  }

  lemma MergeCovers(dup: DupTable, more: DupTable)
    ensures TableCovers(MergeDup(dup, more), dup) && TableCovers(MergeDup(dup, more), more)
  {
  }

  // ------------------------------------------------------------------
  // The store as one sequence of writes

  /** The contents of shard `s` after the writes of `log`, from nothing. */
  ghost function Content(log: seq<Op>, s: nat): KV {
    if log == [] then map[]
    else
      var k := |log| - 1;
      if Key2Shard(log[k].key) == s then Written(Content(log[..k], s), log[k]) else Content(log[..k], s)
  }

  ghost predicate Covers(dup: DupTable, log: seq<Op>, s: nat) {
    forall i :: 0 <= i < |log| && Key2Shard(log[i].key) == s ==> Duplicated(dup, log[i].client, log[i].seqId)
  }

  ghost predicate Touched(log: seq<Op>, s: nat) {
    exists i :: 0 <= i < |log| && Key2Shard(log[i].key) == s
  }

  lemma {:induction false} UntouchedEmpty(log: seq<Op>, s: nat)
    requires !Touched(log, s)
    ensures Content(log, s) == map[]
    decreases |log|
  {
    if log != [] {
      var k := |log| - 1;
      assert Key2Shard(log[k].key) != s;
      assert !Touched(log[..k], s) by {
        forall i | 0 <= i < k ensures Key2Shard(log[..k][i].key) != s {
          assert log[..k][i] == log[i];
        }
      }
      UntouchedEmpty(log[..k], s);
    }
  }

  lemma ContentSnoc(log: seq<Op>, op: Op, s: nat)
    ensures Content(log + [op], s) == if Key2Shard(op.key) == s then Written(Content(log, s), op) else Content(log, s)
  {
    assert (log + [op])[..|log|] == log;
  }

  lemma CoversTable(dup: DupTable, more: DupTable, log: seq<Op>, s: nat)
    requires TableCovers(dup, more) && Covers(more, log, s)
    ensures Covers(dup, log, s)
  {
  }
}
