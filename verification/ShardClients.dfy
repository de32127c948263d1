/** Clients that number their writes from 0 and send the next one only when the
    one before has taken effect, repeating a write until then. None of their
    writes is turned away as a duplicate unless that very write has been done,
    over any sequence of configurations. */
module ShardClients {
  import opened ShardState
  import opened ShardWorld
  import opened ShardInvariant
  import opened ShardRuns

  /** Write number `n` of the client has taken effect. */
  ghost predicate Done(log: seq<Op>, client: int, n: int) {
    exists i :: 0 <= i < |log| && log[i].client == client && log[i].seqId == n
  }

  /** The operation has been proposed to some group. */
  ghost predicate Sent(w: World, op: Op) {
    exists g :: g in w.pending && ClientOp(op) in w.pending[g]
  }

  ghost predicate SameNumber(a: Op, b: Op) {
    a.kind != OpGet && b.kind != OpGet && a.client == b.client && a.seqId == b.seqId
  }

  ghost predicate Patient(w: World, act: Action) {
    act.Submit? && act.op.kind != OpGet ==>
      && (act.op.seqId == 0 || (act.op.seqId > 0 && Done(w.core.log, act.op.client, act.op.seqId - 1)))
      && forall o :: Sent(w, o) && SameNumber(act.op, o) ==> o == act.op
  }

  ghost predicate FollowsPatiently(w: World, w': World) {
    WorldShaped(w) && exists act :: Can(w, act) && Patient(w, act) && w' == After(w, act)
  }

  ghost predicate PatientRun(r: seq<World>) {
    && r != [] && Start(r[0])
    && forall k :: 0 < k < |r| ==> FollowsPatiently(r[k - 1], r[k])
  }

  // ------------------------------------------------------------------
  // The invariant

  ghost predicate TableSound(log: seq<Op>, dup: DupTable) {
    forall c :: c in dup ==> Done(log, c, dup[c].seqId)
  }

  ghost predicate AllBefore(log: seq<Op>, client: int, n: int) {
    n >= 0 && forall m :: 0 <= m < n ==> Done(log, client, m)
  }

  ghost predicate Closed(log: seq<Op>) {
    forall i :: 0 <= i < |log| ==> AllBefore(log, log[i].client, log[i].seqId)
  }

  ghost predicate PendingSound(log: seq<Op>, cmd: Command) {
    match cmd
    case ClientOp(op) => op.kind != OpGet ==> AllBefore(log, op.client, op.seqId)
    case ShardMigration(r) => TableSound(log, r.dup)
    case _ => true
  }

  ghost predicate ClientInv(w: World) {
    && (forall g, p :: g in w.past && p in w.past[g] ==> TableSound(w.core.log, p.dup))
    && (forall g, cmd :: g in w.pending && cmd in w.pending[g] ==> PendingSound(w.core.log, cmd))
    && Closed(w.core.log)
  }

  lemma DoneKept(log: seq<Op>, op: Op, client: int, n: int)
    requires Done(log, client, n)
    ensures Done(log + [op], client, n)
  {
    var i :| 0 <= i < |log| && log[i].client == client && log[i].seqId == n;
    assert (log + [op])[i] == log[i];
  }

  lemma AllBeforeKept(log: seq<Op>, op: Op, client: int, n: int)
    requires AllBefore(log, client, n)
    ensures AllBefore(log + [op], client, n)
  {
    forall m | 0 <= m < n ensures Done(log + [op], client, m) {
      DoneKept(log, op, client, m);
    }
  }

  lemma TableKept(log: seq<Op>, op: Op, dup: DupTable)
    requires TableSound(log, dup)
    ensures TableSound(log + [op], dup)
  {
    forall c | c in dup ensures Done(log + [op], c, dup[c].seqId) {
      DoneKept(log, op, c, dup[c].seqId);
    }
  }

  lemma ClosedKept(log: seq<Op>, op: Op)
    requires Closed(log) && AllBefore(log, op.client, op.seqId)
    ensures Closed(log + [op])
  {
    var more := log + [op];
    forall i | 0 <= i < |more| ensures AllBefore(more, more[i].client, more[i].seqId) {
      assert i < |log| ==> more[i] == log[i];
      AllBeforeKept(log, op, more[i].client, more[i].seqId);
    }
  }

  lemma SubmitSound(log: seq<Op>, op: Op)
    requires Closed(log) && (op.seqId == 0 || (op.seqId > 0 && Done(log, op.client, op.seqId - 1)))
    ensures AllBefore(log, op.client, op.seqId)
  {
    if op.seqId > 0 {
      var i :| 0 <= i < |log| && log[i].client == op.client && log[i].seqId == op.seqId - 1;
      assert AllBefore(log, log[i].client, log[i].seqId);
    }
  }

  /** The new state of a group knows only writes that were done. */
  lemma AppliedSound(log: seq<Op>, o: Group, cmd: Command, order: seq<nat>)
    requires Sized(o) && CommandShaped(cmd) && Visits(cmd, order) && TableSound(log, o.dup) && PendingSound(log, cmd)
    requires !(cmd.ClientOp? && TakesEffect(o, cmd.op))
    ensures TableSound(log, Applied(o, cmd, order).dup)
  {
    hide Done, MergeShards, CleanShards, VisitOrder;
  }

  lemma WriteSound(log: seq<Op>, o: Group, op: Op)
    requires Sized(o) && TableSound(log, o.dup) && TakesEffect(o, op)
    ensures TableSound(log + [op], ApplyClientOperation(o, op).0.dup)
  {
    TableKept(log, op, o.dup);
    assert (log + [op])[|log|] == op;
    assert Done(log + [op], op.client, op.seqId);
    hide Done;
  }

  lemma ProposalSound(w: World, act: Action)
    requires WorldShaped(w) && ClientInv(w) && Can(w, act) && Patient(w, act) && !act.Commit?
    ensures ClientInv(After(w, act))
  {
    if act.Submit? && act.op.kind != OpGet {
      SubmitSound(w.core.log, act.op);
    }
    assert PendingSound(w.core.log, Proposal(w, act).1) by {
      hide Closed, AllBefore;
      if act.Pull? {
        assert TableSound(w.core.log, act.q.dup);
      }
    }
    hide TableSound, Closed, Can, Proposal, PendingSound;
  }

  lemma PlainCommitSound(w: World, g: nat, h: Group)
    requires WorldShaped(w) && ClientInv(w) && g in w.past && TableSound(w.core.log, h.dup)
    ensures ClientInv(Moved(w, g, h, w.core.log))
  {
    hide TableSound, Closed, PendingSound;
  }

  lemma WriteCommitSound(w: World, g: nat, h: Group, op: Op)
    requires WorldShaped(w) && ClientInv(w) && g in w.past
    requires TableSound(w.core.log + [op], h.dup) && AllBefore(w.core.log, op.client, op.seqId)
    ensures ClientInv(Moved(w, g, h, w.core.log + [op]))
  {
    var w', log := Moved(w, g, h, w.core.log + [op]), w.core.log;
    ClosedKept(log, op);
    hide TableSound, Closed, AllBefore, Done;
    forall x, p | x in w'.past && p in w'.past[x] ensures TableSound(log + [op], p.dup) {
      if p in w.past[x] {
        TableKept(log, op, p.dup);
      }
    }
    forall x, cmd | x in w'.pending && cmd in w'.pending[x] ensures PendingSound(log + [op], cmd) {
      assert PendingSound(log, cmd);
      match cmd
      case ClientOp(o) => if o.kind != OpGet { AllBeforeKept(log, op, o.client, o.seqId); }
      case ShardMigration(r) => TableKept(log, op, r.dup);
      case _ =>
    }
  }

  lemma CommitSound(w: World, act: Action)
    requires Plain(w) && ClientInv(w) && Can(w, act) && act.Commit?
    ensures ClientInv(After(w, act))
  {
    var g, o, log := act.g, w.core.now[act.g], w.core.log;
    assert TableSound(log, o.dup) && PendingSound(log, act.cmd) && CommandShaped(act.cmd);
    hide Plain, ClientInv, Applied, TableSound, AllBefore;
    if act.cmd.ClientOp? && TakesEffect(o, act.cmd.op) {
      WriteSound(log, o, act.cmd.op);
      assert Applied(o, act.cmd, act.order) == ApplyClientOperation(o, act.cmd.op).0 by {
        WriteApplies(o, act.cmd, act.order);
      }
      WriteCommitSound(w, g, Applied(o, act.cmd, act.order), act.cmd.op);
    } else {
      AppliedSound(log, o, act.cmd, act.order);
      PlainCommitSound(w, g, Applied(o, act.cmd, act.order));
    }
  }

  lemma WriteApplies(o: Group, cmd: Command, order: seq<nat>)
    requires Sized(o) && CommandShaped(cmd) && Visits(cmd, order) && cmd.ClientOp?
    ensures Applied(o, cmd, order) == ApplyClientOperation(o, cmd.op).0
  {
  }

  lemma FollowsSound(w: World, w': World)
    requires Plain(w) && ClientInv(w) && FollowsPatiently(w, w')
    ensures Plain(w') && ClientInv(w')
  {
    var act :| Can(w, act) && Patient(w, act) && w' == After(w, act);
    hide Plain, ClientInv, Can, After, Patient;
    PlainKept(w, act);
    if act.Commit? {
      CommitSound(w, act);
    } else {
      ProposalSound(w, act);
    }
  }

  lemma StartSound(w: World)
    requires Start(w)
    ensures Plain(w) && ClientInv(w)
  {
  }

  lemma {:induction false} RunSound(r: seq<World>, k: nat)
    requires PatientRun(r) && k < |r|
    ensures Plain(r[k]) && ClientInv(r[k])
  {
    hide Plain, FollowsPatiently, Start, ClientInv;
    if k == 0 {
      StartSound(r[0]);
    } else {
      RunSound(r, k - 1);
      FollowsSound(r[k - 1], r[k]);
    }
  }

  // ------------------------------------------------------------------
  // A number names one write

  ghost predicate NumberInv(w: World) {
    && (forall i :: 0 <= i < |w.core.log| ==> w.core.log[i].kind != OpGet && Sent(w, w.core.log[i]))
    && (forall a, b :: Sent(w, a) && Sent(w, b) && SameNumber(a, b) ==> a == b)
  }

  lemma SentAfter(w: World, act: Action, op: Op)
    requires WorldShaped(w) && Can(w, act)
    ensures Sent(w, op) ==> Sent(After(w, act), op)
    ensures Sent(After(w, act), op) ==> Sent(w, op) || (act.Submit? && op == act.op)
  {
    var w' := After(w, act);
    if Sent(w, op) {
      var g :| g in w.pending && ClientOp(op) in w.pending[g];
      assert g in w'.pending && ClientOp(op) in w'.pending[g];
    }
    if Sent(w', op) {
      var g :| g in w'.pending && ClientOp(op) in w'.pending[g];
    }
  }

  lemma LogGrows(w: World, act: Action)
    requires WorldShaped(w) && Can(w, act)
    ensures var log, more := w.core.log, After(w, act).core.log;
            more == log || (act.Commit? && act.cmd.ClientOp? && act.cmd.op.kind != OpGet && more == log + [act.cmd.op])
  {
  }

  lemma NumberKept(w: World, act: Action)
    requires WorldShaped(w) && NumberInv(w) && Can(w, act) && Patient(w, act)
    ensures NumberInv(After(w, act))
  {
    var w' := After(w, act);
    LogGrows(w, act);
    assert act.Commit? && act.cmd.ClientOp? ==> Sent(w, act.cmd.op);
    hide WorldShaped, Can, After, Sent;
    forall i | 0 <= i < |w'.core.log| ensures w'.core.log[i].kind != OpGet && Sent(w', w'.core.log[i]) {
      SentAfter(w, act, w'.core.log[i]);
    }
    forall a, b | Sent(w', a) && Sent(w', b) && SameNumber(a, b) ensures a == b {
      SentAfter(w, act, a);
      SentAfter(w, act, b);
    }
  }

  lemma FollowsNumbered(w: World, w': World)
    requires NumberInv(w) && FollowsPatiently(w, w')
    ensures NumberInv(w')
  {
    var act :| Can(w, act) && Patient(w, act) && w' == After(w, act);
    hide NumberInv, Can, After, Patient, WorldShaped;
    NumberKept(w, act);
  }

  lemma NothingSent(w: World)
    requires Start(w)
    ensures NumberInv(w)
  {
  }

  lemma {:induction false} RunNumbered(r: seq<World>, k: nat)
    requires PatientRun(r) && k < |r|
    ensures NumberInv(r[k])
  {
    hide FollowsPatiently, Start, NumberInv;
    if k == 0 {
      NothingSent(r[0]);
    } else {
      RunNumbered(r, k - 1);
      FollowsNumbered(r[k - 1], r[k]);
    }
  }

  lemma DoneUpTo(log: seq<Op>, dup: DupTable, op: Op) returns (i: nat)
    requires TableSound(log, dup) && Closed(log) && op.seqId >= 0 && Duplicated(dup, op.client, op.seqId)
    ensures i < |log| && log[i].client == op.client && log[i].seqId == op.seqId
  {
    var n := dup[op.client].seqId;
    assert Done(log, op.client, n);
    var j :| 0 <= j < |log| && log[j].client == op.client && log[j].seqId == n;
    assert AllBefore(log, log[j].client, n);
    assert Done(log, op.client, op.seqId);
    i :| 0 <= i < |log| && log[i].client == op.client && log[i].seqId == op.seqId;
  }

  lemma SentFrom0(w: World, op: Op)
    requires ClientInv(w) && Sent(w, op) && op.kind != OpGet
    ensures op.seqId >= 0
  {
    var g :| g in w.pending && ClientOp(op) in w.pending[g];
    assert PendingSound(w.core.log, ClientOp(op));
  }

  /** A write that any state of any group turns away as a duplicate has itself taken effect. */
  lemma NothingLost(r: seq<World>, k: nat, g: nat, p: Group, op: Op)
    requires PatientRun(r) && k < |r| && g in r[k].past && p in r[k].past[g] && Sent(r[k], op)
    requires op.kind != OpGet && Duplicated(p.dup, op.client, op.seqId)
    ensures op in r[k].core.log
  {
    var w, log := r[k], r[k].core.log;
    hide PatientRun, Sent;
    RunSound(r, k);
    RunNumbered(r, k);
    SentFrom0(w, op);
    assert TableSound(log, p.dup);
    var i := DoneUpTo(log, p.dup, op);
    assert SameNumber(op, log[i]);
  }
}
