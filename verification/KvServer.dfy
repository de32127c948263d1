/** The replicated key/value server: what its apply loop makes of a committed log,
    with duplicates, snapshots and restarts. */
module KvServer {
  import opened Basics

  datatype Kind = Get | Put | Append

  datatype Op = Op(key: string, value: string, kind: Kind, client: int, seqId: int)

  datatype Err = Ok | NoKey

  datatype OpReply = OpReply(value: string, err: Err)

  datatype LastOperation = LastOperation(seqId: int, reply: OpReply)

  /** What a snapshot holds. */
  datatype Store = Store(kv: map<string, string>, dup: map<int, LastOperation>)

  datatype Server = Server(lastApplied: int, store: Store)

  const EMPTY := Store(map[], map[])

  predicate Write(op: Op) {
    op.kind != Get
  }

  function Value(kv: map<string, string>, key: string): string {
    if key in kv then kv[key] else ""
  }

  function Updated(kv: map<string, string>, op: Op): map<string, string> {
    match op.kind
    case Get => kv
    case Put => kv[op.key := op.value]
    case Append => kv[op.key := Value(kv, op.key) + op.value]
  }

  function Answer(kv: map<string, string>, op: Op): OpReply {
    if op.kind == Get then OpReply(Value(kv, op.key), if op.key in kv then Ok else NoKey) else OpReply("", Ok)
  }

  predicate Duplicated(dup: map<int, LastOperation>, op: Op) {
    op.client in dup && op.seqId <= dup[op.client].seqId
  }

  function ApplyOp(s: Store, op: Op): Store {
    if Write(op) && Duplicated(s.dup, op) then s
    else Store(Updated(s.kv, op),
               if Write(op) then s.dup[op.client := LastOperation(op.seqId, Answer(s.kv, op))] else s.dup)
  }

  function ReplyTo(s: Store, op: Op): OpReply {
    if Write(op) && Duplicated(s.dup, op) then s.dup[op.client].reply else Answer(s.kv, op)
  }

  /** What applying a log, entry after entry, makes of a store. */
  ghost function ApplyAll(s: Store, log: seq<Op>): Store {
    if log == [] then s else ApplyOp(ApplyAll(s, log[..|log| - 1]), log[|log| - 1])
  }

  ghost function StateOf(log: seq<Op>): Store {
    ApplyAll(EMPTY, log)
  }

  // ------------------------------------------------------------------
  // Duplicates

  /** No earlier entry is the same write. */
  ghost predicate First(log: seq<Op>, i: nat)
    requires i < |log|
  {
    Write(log[i]) && forall j :: 0 <= j < i && Write(log[j]) && log[j].client == log[i].client ==>
        log[j].seqId != log[i].seqId
  }

  /** All earlier writes of the same client have smaller numbers. */
  ghost predicate Newest(log: seq<Op>, i: nat)
    requires i < |log|
  {
    Write(log[i]) && forall j :: 0 <= j < i && Write(log[j]) && log[j].client == log[i].client ==>
        log[j].seqId < log[i].seqId
  }

  /** The clients' fresh writes are committed in the order they are numbered. */
  ghost predicate InOrder(log: seq<Op>) {
    forall i :: 0 <= i < |log| && First(log, i) ==> Newest(log, i)
  }

  /** The distinct writes of a log, in the order of their first commit. */
  ghost function DistinctWrites(log: seq<Op>): seq<Op> {
    if log == [] then []
    else
      var k := |log| - 1;
      DistinctWrites(log[..k]) + (if First(log, k) then [log[k]] else [])
  }

  /** The writes of a log that change the store. */
  ghost function EffectiveWrites(log: seq<Op>): seq<Op> {
    if log == [] then []
    else
      var k := |log| - 1;
      EffectiveWrites(log[..k])
      + (if Write(log[k]) && !Duplicated(StateOf(log[..k]).dup, log[k]) then [log[k]] else [])
  }

  /** Plain application, without any table. */
  ghost function Replay(ops: seq<Op>): map<string, string> {
    if ops == [] then map[] else Updated(Replay(ops[..|ops| - 1]), ops[|ops| - 1])
  }

  /** The table holds every client's greatest number. */
  ghost predicate Greatest(log: seq<Op>, dup: map<int, LastOperation>) {
    && (forall i :: 0 <= i < |log| && Write(log[i]) ==>
        log[i].client in dup && log[i].seqId <= dup[log[i].client].seqId)
    && (forall c :: c in dup ==>
          dup[c].reply == OpReply("", Ok) && exists i :: 0 <= i < |log| && Numbered(log[i], c, dup[c].seqId))
  }

  ghost predicate Numbered(op: Op, client: int, seqId: int) {
    Write(op) && op.client == client && op.seqId == seqId
  }

  lemma {:induction false} TableIsGreatest(log: seq<Op>)
    ensures Greatest(log, StateOf(log).dup)
  {
    if log != [] {
      var k := |log| - 1;
      TableIsGreatest(log[..k]);
      var was, dup := StateOf(log[..k]).dup, StateOf(log).dup;
      forall c | c in dup
        ensures dup[c].reply == OpReply("", Ok) && exists i :: 0 <= i < |log| && Numbered(log[i], c, dup[c].seqId)
      {
        if c in was && dup[c] == was[c] {
          var i :| 0 <= i < k && Numbered(log[..k][i], c, dup[c].seqId);
          assert Numbered(log[i], c, dup[c].seqId);
        } else {
          assert Numbered(log[k], c, dup[c].seqId);
        }
      }
      forall i | 0 <= i < |log| && Write(log[i])
        ensures log[i].client in dup && log[i].seqId <= dup[log[i].client].seqId
      {
        if i < k {
          assert log[..k][i] == log[i];
        }
      }
    }
  }

  /** An entry is turned away exactly when its client has committed a write with that number or a greater one. */
  lemma EffectiveIsNewest(log: seq<Op>, k: nat)
    requires k < |log|
    ensures Write(log[k]) && !Duplicated(StateOf(log[..k]).dup, log[k]) <==> Newest(log, k)
  {
    var dup := StateOf(log[..k]).dup;
    TableIsGreatest(log[..k]);
    assert forall j :: 0 <= j < k ==> log[..k][j] == log[j];
  }

  /** Every write is done once, at its first commit, exactly when the clients' fresh writes are committed in order. */
  lemma {:induction false} OnceEach(log: seq<Op>)
    ensures |EffectiveWrites(log)| <= |DistinctWrites(log)|
    ensures EffectiveWrites(log) == DistinctWrites(log) <==> InOrder(log)
  {
    if log != [] {
      var k := |log| - 1;
      OnceEach(log[..k]);
      EffectiveIsNewest(log, k);
      InOrderPrefix(log);
      var e, d := EffectiveWrites(log[..k]), DistinctWrites(log[..k]);
      assert Newest(log, k) ==> First(log, k);
      if EffectiveWrites(log) == DistinctWrites(log) {
        assert e == EffectiveWrites(log)[..|e|] && d == DistinctWrites(log)[..|d|];
      }
    }
  }

  lemma InOrderPrefix(log: seq<Op>)
    requires log != []
    ensures var k := |log| - 1;
            InOrder(log) <==> InOrder(log[..k]) && (First(log, k) ==> Newest(log, k))
  {
    var k := |log| - 1;
    forall i | 0 <= i < k
      ensures First(log[..k], i) <==> First(log, i)
      ensures Newest(log[..k], i) <==> Newest(log, i)
    {
      assert forall j :: 0 <= j <= i ==> log[..k][j] == log[j];
    }
  }

  lemma ReplayStep(s: Store, op: Op, e: seq<Op>)
    requires s.kv == Replay(e)
    ensures ApplyOp(s, op).kv == Replay(e + (if Write(op) && !Duplicated(s.dup, op) then [op] else []))
  {
    assert (e + [op])[..|e|] == e && e + [] == e;
  }

  lemma {:induction false} StateIsReplay(log: seq<Op>)
    ensures StateOf(log).kv == Replay(EffectiveWrites(log))
  {
    hide ApplyOp, Replay;
    if log == [] {
      EmptyReplay();
    } else {
      var k := |log| - 1;
      StateIsReplay(log[..k]);
      ReplayStep(StateOf(log[..k]), log[k], EffectiveWrites(log[..k]));
    }
  }

  lemma EmptyReplay()
    ensures Replay([]) == map[]
  {
  }

  /** The apply loop ends in the map that applying each distinct write once, in the order
      of first commits, ends in. */
  lemma DeduplicatedReplay(log: seq<Op>)
    requires InOrder(log)
    ensures StateOf(log).kv == Replay(DistinctWrites(log))
  {
    StateIsReplay(log);
    OnceEach(log);
  }

  /** A read is answered from the distinct writes committed before it, and every write with success. */
  lemma Replies(log: seq<Op>, i: nat)
    requires i < |log| && InOrder(log)
    ensures ReplyTo(StateOf(log[..i]), log[i])
            == if Write(log[i]) then OpReply("", Ok) else Answer(Replay(DistinctWrites(log[..i])), log[i])
  {
    TableIsGreatest(log[..i]);
    InOrderUpTo(log, i);
    DeduplicatedReplay(log[..i]);
  }

  lemma {:induction false} InOrderUpTo(log: seq<Op>, i: nat)
    requires i <= |log| && InOrder(log)
    ensures InOrder(log[..i])
    decreases |log|
  {
    if i < |log| {
      InOrderPrefix(log);
      InOrderUpTo(log[..|log| - 1], i);
      assert log[..|log| - 1][..i] == log[..i];
    } else {
      assert log[..i] == log;
    }
  }

  /** Numbers out of order lose a write: the append never happens. */
  lemma OutOfOrder()
    ensures var log := [Op("k", "a", Put, 1, 2), Op("k", "b", Append, 1, 1)];
            !InOrder(log) && StateOf(log).kv == map["k" := "a"] && Replay(DistinctWrites(log)) == map["k" := "ab"]
  {
    var a, b := Op("k", "a", Put, 1, 2), Op("k", "b", Append, 1, 1);
    var log := [a, b];
    assert log[..1] == [a] && [a][..0] == [] && log[0] == a && log[1] == b;
    assert Write(log[0]) && log[0].client == log[1].client && log[0].seqId > log[1].seqId;
    assert ApplyAll(EMPTY, []) == EMPTY;
    assert First(log, 1) && !Newest(log, 1) && First([a], 0);
    assert StateOf([a]) == ApplyOp(EMPTY, a);
    assert DistinctWrites([a]) == [a] && DistinctWrites(log) == [a] + [b];
    assert ([a] + [b])[..1] == [a];
    assert Replay([a]) == map["k" := "a"];
    assert "a" + "b" == "ab";
  }

  // ------------------------------------------------------------------
  // Clients that wait

  /** What clients have sent, any of which may be committed at any time, any number of times; and the log. */
  datatype Traffic = Traffic(sent: set<Op>, log: seq<Op>)

  ghost predicate Committed(log: seq<Op>, client: int, seqId: int) {
    exists i :: 0 <= i < |log| && Numbered(log[i], client, seqId)
  }

  /** Numbers start at 0, the next write is sent when the one before has succeeded, and a number is used for
      one write only. */
  ghost predicate MaySend(t: Traffic, op: Op) {
    Write(op) ==>
      && (op.seqId == 0 || (op.seqId > 0 && Committed(t.log, op.client, op.seqId - 1)))
      && forall o :: o in t.sent && Numbered(o, op.client, op.seqId) ==> o == op
  }

  ghost predicate Goes(t: Traffic, t': Traffic, op: Op) {
    || (MaySend(t, op) && t' == t.(sent := t.sent + {op}))
    || (op in t.sent && t' == t.(log := t.log + [op]))
  }

  ghost predicate GoesOn(t: Traffic, t': Traffic) {
    exists op :: Goes(t, t', op)
  }

  ghost predicate WaitingRun(r: seq<Traffic>) {
    && r != [] && r[0] == Traffic({}, [])
    && forall k :: 0 < k < |r| ==> GoesOn(r[k - 1], r[k])
  }

  ghost predicate AllBefore(log: seq<Op>, client: int, seqId: int) {
    seqId >= 0 && forall n :: 0 <= n < seqId ==> Committed(log, client, n)
  }

  ghost predicate WaitingInv(t: Traffic) {
    && (forall op :: op in t.sent && Write(op) ==> AllBefore(t.log, op.client, op.seqId))
    && (forall a, b :: a in t.sent && b in t.sent && Write(a) && Numbered(b, a.client, a.seqId) ==> a == b)
    && (forall i :: 0 <= i < |t.log| ==> t.log[i] in t.sent)
    && InOrder(t.log)
  }

  lemma CommittedKept(log: seq<Op>, op: Op, client: int, seqId: int)
    requires Committed(log, client, seqId)
    ensures Committed(log + [op], client, seqId)
  {
    var i :| 0 <= i < |log| && Numbered(log[i], client, seqId);
    assert Numbered((log + [op])[i], client, seqId);
  }

  lemma AllBeforeKept(log: seq<Op>, op: Op, client: int, seqId: int)
    requires AllBefore(log, client, seqId)
    ensures AllBefore(log + [op], client, seqId)
  {
    forall n | 0 <= n < seqId ensures Committed(log + [op], client, n) {
      CommittedKept(log, op, client, n);
    }
  }

  lemma NextInOrder(t: Traffic, op: Op)
    requires WaitingInv(t) && op in t.sent
    ensures InOrder(t.log + [op])
  {
    var more, k := t.log + [op], |t.log|;
    assert more[..k] == t.log && more[k] == op;
    InOrderPrefix(more);
    if First(more, k) {
      NotYet(t.log, op);
      forall j | 0 <= j < k && Write(more[j]) && more[j].client == op.client ensures more[j].seqId < op.seqId {
        assert more[j] == t.log[j] && AllBefore(t.log, op.client, more[j].seqId) &&
            AllBefore(t.log, op.client, op.seqId);
      }
    }
  }

  lemma NotYet(log: seq<Op>, op: Op)
    requires First(log + [op], |log|)
    ensures !Committed(log, op.client, op.seqId)
  {
    forall i | 0 <= i < |log| ensures !Numbered(log[i], op.client, op.seqId) {
      assert (log + [op])[i] == log[i];
    }
  }

  lemma SendKept(t: Traffic, op: Op)
    requires WaitingInv(t) && MaySend(t, op)
    ensures WaitingInv(t.(sent := t.sent + {op}))
  {
    if Write(op) && op.seqId > 0 {
      var i :| 0 <= i < |t.log| && Numbered(t.log[i], op.client, op.seqId - 1);
      assert AllBefore(t.log, op.client, op.seqId - 1);
    }
  }

  lemma CommitKept(t: Traffic, op: Op)
    requires WaitingInv(t) && op in t.sent
    ensures WaitingInv(t.(log := t.log + [op]))
  {
    NextInOrder(t, op);
    forall o | o in t.sent && Write(o) ensures AllBefore(t.log + [op], o.client, o.seqId) {
      AllBeforeKept(t.log, op, o.client, o.seqId);
    }
  }

  lemma {:induction false} WaitingKept(r: seq<Traffic>, k: nat)
    requires WaitingRun(r) && k < |r|
    ensures WaitingInv(r[k])
  {
    if k > 0 {
      WaitingKept(r, k - 1);
      var op :| Goes(r[k - 1], r[k], op);
      hide WaitingInv, MaySend;
      if r[k] == r[k - 1].(sent := r[k - 1].sent + {op}) && MaySend(r[k - 1], op) {
        SendKept(r[k - 1], op);
      } else {
        CommitKept(r[k - 1], op);
      }
    }
  }

  /** Each number stands for one write. */
  ghost predicate OneEach(log: seq<Op>) {
    forall i, j ::
      (0 <= i < |log| && 0 <= j < |log| && Write(log[i]) && Numbered(log[j], log[i].client, log[i].seqId)) ==>
      log[i] == log[j]
  }

  lemma {:induction false} DistinctOnce(log: seq<Op>, op: Op)
    requires OneEach(log)
    ensures multiset(DistinctWrites(log))[op] == if op in log && Write(op) then 1 else 0
  {
    hide First;
    if log != [] {
      var k := |log| - 1;
      assert log == log[..k] + [log[k]];
      DistinctOnce(log[..k], op);
      FirstIsNew(log, k);
    }
  }

  lemma FirstIsNew(log: seq<Op>, k: nat)
    requires OneEach(log) && k < |log|
    ensures First(log, k) <==> Write(log[k]) && log[k] !in log[..k]
  {
    if Write(log[k]) && !First(log, k) {
      var j :| 0 <= j < k && Write(log[j]) && log[j].client == log[k].client && log[j].seqId == log[k].seqId;
      assert Numbered(log[j], log[k].client, log[k].seqId) && log[..k][j] == log[k];
    }
  }

  /** However often the writes of waiting clients are committed, and in whatever order, each of
      them takes effect exactly once, at its first commit. */
  lemma WaitingClients(r: seq<Traffic>, k: nat)
    requires WaitingRun(r) && k < |r|
    ensures InOrder(r[k].log)
    ensures EffectiveWrites(r[k].log) == DistinctWrites(r[k].log)
    ensures forall op :: op in r[k].log && Write(op) ==> multiset(EffectiveWrites(r[k].log))[op] == 1
    ensures StateOf(r[k].log).kv == Replay(DistinctWrites(r[k].log))
  {
    hide WaitingRun;
    WaitingKept(r, k);
    OnceEach(r[k].log);
    DeduplicatedReplay(r[k].log);
    forall op | op in r[k].log && Write(op) ensures multiset(EffectiveWrites(r[k].log))[op] == 1 {
      DistinctOnce(r[k].log, op);
    }
  }

  // ------------------------------------------------------------------
  // Snapshots and restarts

  datatype Message =
    | Command(index: int, op: Op)
    | Snapshot(index: int, store: Store)
    | Restart(saved: Store)

  function Handle(s: Server, m: Message): Server {
    match m
    case Command(index, op) =>
      if index <= s.lastApplied then s else Server(index, ApplyOp(s.store, op))
    case Snapshot(index, store) => Server(index, store)
    case Restart(saved) => Server(0, saved)
  }

  ghost function HandleAll(s: Server, ms: seq<Message>): Server {
    if ms == [] then s else Handle(HandleAll(s, ms[..|ms| - 1]), ms[|ms| - 1])
  }

  /** The message tells no more than the log and skips nothing past its first `at` entries:
      snapshots are of a prefix, a restart finds a snapshot of one. */
  ghost predicate Delivers(log: seq<Op>, at: nat, m: Message, next: nat) {
    match m
    case Command(index, op) =>
      && 1 <= index <= |log| && index <= at + 1 && op == log[index - 1]
      && next == if index == at + 1 then index else at
    case Snapshot(index, store) => 0 <= index == next <= |log| && store == StateOf(log[..index])
    case Restart(saved) => next <= |log| && saved == StateOf(log[..next])
  }

  ghost predicate Stream(log: seq<Op>, ms: seq<Message>, at: seq<nat>) {
    && |at| == |ms| + 1 && at[0] == 0
    && forall i :: 0 <= i < |ms| ==> Delivers(log, at[i], ms[i], at[i + 1])
  }

  /** Applying an entry again changes nothing. */
  lemma AgainIsNothing(log: seq<Op>, i: nat)
    requires i < |log|
    ensures ApplyOp(StateOf(log), log[i]) == StateOf(log)
  {
    TableIsGreatest(log);
  }

  lemma HandleKept(log: seq<Op>, at: nat, s: Server, m: Message, next: nat)
    requires at <= |log| && s.lastApplied <= at && s.store == StateOf(log[..at]) && Delivers(log, at, m, next)
    ensures next <= |log|
    ensures Handle(s, m).lastApplied <= next && Handle(s, m).store == StateOf(log[..next])
  {
    match m
    case Command(index, op) =>
      if index == at + 1 {
        assert log[..index][..at] == log[..at];
      } else if index > s.lastApplied {
        AgainIsNothing(log[..at], index - 1);
      }
    case Snapshot(index, store) =>
    case Restart(saved) =>
  }

  /** Whatever commands are delivered again, whatever snapshots are installed and however often
      the server restarts from one, it holds what a plain run over a prefix of the log holds. */
  lemma {:induction false} StreamConsistent(log: seq<Op>, ms: seq<Message>, at: seq<nat>)
    requires Stream(log, ms, at)
    ensures var s, end := HandleAll(Server(0, EMPTY), ms), at[|ms|];
            end <= |log| && s.lastApplied <= end && s.store == StateOf(log[..end])
  {
    if ms == [] {
      assert log[..0] == [];
    } else {
      var k := |ms| - 1;
      assert Stream(log, ms[..k], at[..k + 1]) by {
        forall i | 0 <= i < k ensures Delivers(log, at[..k + 1][i], ms[..k][i], at[..k + 1][i + 1]) {
          assert Delivers(log, at[i], ms[i], at[i + 1]);
        }
      }
      StreamConsistent(log, ms[..k], at[..k + 1]);
      assert Delivers(log, at[k], ms[k], at[k + 1]);
      HandleKept(log, at[k], HandleAll(Server(0, EMPTY), ms[..k]), ms[k], at[k + 1]);
    }
  }

  /** Restoring the snapshot of any prefix and applying the rest gives the state of the whole. */
  lemma {:induction false} SnapshotThenRest(log: seq<Op>, j: nat)
    requires j <= |log|
    ensures ApplyAll(StateOf(log[..j]), log[j..]) == StateOf(log)
    decreases |log|
  {
    if j == |log| {
      assert log[..j] == log && log[j..] == [];
    } else {
      var k := |log| - 1;
      SnapshotThenRest(log[..k], j);
      assert log[..k][..j] == log[..j] && log[..k][j..] == log[j..][..k - j];
      assert log[j..][k - j] == log[k];
    }
  }

  // ------------------------------------------------------------------
  // The server

  class KVServer {
    var lastApplied: int
    var stateMachine: map<string, string>
    var duplicateTable: map<int, LastOperation>

    ghost function View(): Server
      reads this
    {
      Server(lastApplied, Store(stateMachine, duplicateTable))
    }

    constructor (saved: Store)
      ensures View() == Server(0, saved)
    {
      lastApplied, stateMachine, duplicateTable := 0, saved.kv, saved.dup;
    }

    predicate RequestDuplicated(op: Op)
      reads this
    {
      Duplicated(duplicateTable, op)
    }

    method ApplyToStateMachine(op: Op) returns (reply: OpReply)
      modifies this`stateMachine
      ensures stateMachine == Updated(old(stateMachine), op) && reply == Answer(old(stateMachine), op)
    {
      match op.kind
      case Get =>
        if op.key in stateMachine {
          return OpReply(stateMachine[op.key], Ok);
        }
        return OpReply("", NoKey);
      case Put =>
        stateMachine := stateMachine[op.key := op.value];
        return OpReply("", Ok);
      case Append =>
        var value := Value(stateMachine, op.key);
        stateMachine := stateMachine[op.key := value + op.value];
        return OpReply("", Ok);
    }

    method RestoreFromSnapshot(store: Store)
      modifies this`stateMachine, this`duplicateTable
      ensures View() == old(View()).(store := store)
    {
      stateMachine, duplicateTable := store.kv, store.dup;
    }

    /** Handles one committed entry; an entry already applied gets no reply. */
    method ApplyCommand(index: int, op: Op) returns (reply: Option<OpReply>)
      modifies this
      ensures View() == Handle(old(View()), Command(index, op))
      ensures reply == if index <= old(lastApplied) then None else Some(ReplyTo(old(View()).store, op))
    {
      if index <= lastApplied {
        return None;
      }
      lastApplied := index;
      if op.kind != Get && RequestDuplicated(op) {
        return Some(duplicateTable[op.client].reply);
      }
      var r := ApplyToStateMachine(op);
      if op.kind != Get {
        duplicateTable := duplicateTable[op.client := LastOperation(op.seqId, r)];
      }
      return Some(r);
    }

    /** Handles what the log delivers, in the order it comes. */
    method ApplyTask(ms: seq<Message>)
      modifies this
      ensures View() == HandleAll(old(View()), ms)
    {
      for i := 0 to |ms|
        invariant View() == HandleAll(old(View()), ms[..i])
      {
        assert ms[..i + 1][..i] == ms[..i];
        match ms[i]
        case Command(index, op) =>
          var reply := ApplyCommand(index, op);
        case Snapshot(index, store) =>
          RestoreFromSnapshot(store);
          lastApplied := index;
        case Restart(saved) =>
          lastApplied := 0;
          RestoreFromSnapshot(saved);
      }
      assert ms[..|ms|] == ms;
    }
  }
}
