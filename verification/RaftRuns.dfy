/** Whole runs of a cluster, from all peers fresh: what holds between any two
    moments of a run. */
module RaftRuns {
  import opened Basics
  import opened RaftAbstract
  import opened RaftCompleteness
  import opened RaftPeer
  import opened RaftSystem
  import opened RaftOrdered

  ghost predicate Follows(s: Sys, s': Sys) {
    exists act :: Can(s, act) && s' == After(s, act)
  }

  /** Messages may be lost, delivered late, out of order and more than once. */
  ghost predicate Run(r: seq<Sys>) {
    && r != [] && SysInit(r[0])
    && forall k :: 0 < k < |r| ==> Follows(r[k - 1], r[k])
  }

  ghost predicate FollowsInOrder(s: Sys, s': Sys) {
    exists act :: CanInOrder(s, act) && s' == After(s, act)
  }

  /** A run in which each peer handles the append requests of one leader in the order they were sent. */
  ghost predicate OrderedRun(r: seq<Sys>) {
    && Run(r)
    && forall k :: 0 < k < |r| ==> FollowsInOrder(r[k - 1], r[k])
  }

  // ------------------------------------------------------------------
  // The record along a run

  ghost predicate RecordGrows(a: Abs, b: Abs) {
    && (forall t :: t in a.winner ==> t in b.winner && b.winner[t] == a.winner[t])
    && Grows(a, b)
  }

  lemma RecordGrowsTrans(a: Abs, b: Abs, c: Abs)
    requires RecordGrows(a, b) && RecordGrows(b, c)
    ensures RecordGrows(a, c)
  {
    forall t | t in a.leaderLog ensures t in c.leaderLog && a.leaderLog[t] <= c.leaderLog[t] {
      assert a.leaderLog[t] <= b.leaderLog[t] && b.leaderLog[t] <= c.leaderLog[t];
    }
  }

  lemma StepGrows(a: Abs, st: Step)
    requires Inv(a) && Enabled(a, st)
    ensures RecordGrows(a, Apply(a, st))
  {
    hide Apply, Enabled, Inv;
    Growing(a, st);
    forall t | t in a.winner ensures t in Apply(a, st).winner && Apply(a, st).winner[t] == a.winner[t] {
      WinnerKept(a, st, t);
    }
  }

  lemma {:induction false} EvolveGrows(a: Abs, steps: seq<Step>)
    requires Inv(a) && AllEnabled(a, steps)
    ensures RecordGrows(a, Evolve(a, steps))
    decreases |steps|
  {
    hide Apply, Enabled, Inv, RecordGrows;
    if steps == [] {
      GrowsSame(a);
    } else {
      StepGrows(a, steps[0]);
      InvKept(a, steps[0]);
      EvolveGrows(Apply(a, steps[0]), steps[1..]);
      RecordGrowsTrans(a, Apply(a, steps[0]), Evolve(a, steps));
    }
  }

  lemma GrowsSame(a: Abs)
    ensures RecordGrows(a, a)
  {
  }

  lemma FollowsKept(s: Sys, s': Sys)
    requires SysInv(s) && Follows(s, s')
    ensures SysInv(s') && |s'.peers| == |s.peers| && RecordGrows(s.abs, s'.abs)
  {
    var act :| Can(s, act) && s' == After(s, act);
    assert Inv(s.abs);
    hide SysInv, Inv, AllEnabled, Evolve, RecordGrows, Trace, PeerAfter, NewMessages;
    SysKept(s, act);
    EvolveGrows(s.abs, Trace(s, act));
  }

  lemma {:induction false} RunInv(r: seq<Sys>, k: nat)
    requires Run(r) && k < |r|
    ensures SysInv(r[k]) && |r[k].peers| == |r[0].peers|
  {
    hide SysInv, Follows, SysInit;
    if k == 0 {
      InitOk(r[0]);
    } else {
      RunInv(r, k - 1);
      FollowsKept(r[k - 1], r[k]);
    }
  }

  lemma {:induction false} RunGrows(r: seq<Sys>, j: nat, k: nat)
    requires Run(r) && j <= k < |r|
    ensures RecordGrows(r[j].abs, r[k].abs)
    decreases k
  {
    hide SysInv, Follows, SysInit, RecordGrows;
    if j == k {
      GrowsSame(r[j].abs);
    } else {
      RunGrows(r, j, k - 1);
      RunInv(r, k - 1);
      FollowsKept(r[k - 1], r[k]);
      RecordGrowsTrans(r[j].abs, r[k - 1].abs, r[k].abs);
    }
  }

  // ------------------------------------------------------------------
  // Election safety

  lemma LeaderRecorded(s: Sys, p: nat)
    requires SysInv(s) && p < |s.peers| && s.peers[p].role == Leader
    ensures var t := s.peers[p].currentTerm;
            && t in s.abs.winner && s.abs.winner[t] == p
            && t in s.abs.leaderLog && s.abs.leaderLog[t] == s.peers[p].log
  {
    assert PeerOk(s.abs, s.peers[p], p);
    hide Durable, Voted, CandidateRole, Inv, MsgOk;
  }

  /** In no run does a term ever have two leaders, not even at different times. */
  lemma ElectionSafety(r: seq<Sys>, j: nat, p: nat, k: nat, q: nat)
    requires Run(r) && j <= k < |r| && p < |r[j].peers| && q < |r[k].peers|
    requires r[j].peers[p].role == Leader && r[k].peers[q].role == Leader
    requires r[j].peers[p].currentTerm == r[k].peers[q].currentTerm
    ensures p == q
  {
    hide Run, SysInv, Grows;
    RunInv(r, j);
    RunInv(r, k);
    RunGrows(r, j, k);
    LeaderRecorded(r[j], p);
    LeaderRecorded(r[k], q);
  }

  /** A voter that is still in the term has the vote on its disk. */
  ghost predicate VoteOnDisk(v: Peer, t: nat, cand: nat) {
    v.disk.Some? && t <= v.disk.value.term && (v.disk.value.term == t ==> v.disk.value.votedFor == cand)
  }

  lemma VoterDisk(s: Sys, t: nat, q: nat)
    requires SysInv(s) && (t, q) in s.abs.votes
    ensures q < |s.peers| && VoteOnDisk(s.peers[q], t, s.abs.votes[(t, q)].cand)
  {
    assert VoteOk(s.abs, t, q);
    assert PeerOk(s.abs, s.peers[q], q);
    hide LogsOk, LeadersOk, MsgOk, LeaderRole, CandidateRole;
  }

  lemma CandidateRecorded(s: Sys, i: nat)
    requires SysInv(s) && i < |s.peers| && s.peers[i].role == Candidate
    ensures CandidateRole(s.abs, s.peers[i], i)
  {
    assert PeerOk(s.abs, s.peers[i], i);
    hide CandidateRole, Inv, MsgOk;
  }

  /** The counter of a candidacy is the number of distinct peers counted, and each
      of them has written down its vote for this candidate in this term. */
  lemma VotesCounted(r: seq<Sys>, k: nat, i: nat)
    requires Run(r) && k < |r| && i < |r[k].peers| && r[k].peers[i].role == Candidate
    ensures var c := r[k].peers[i];
            && c.votes == |c.counted|
            && forall q :: q in c.counted ==> q < |r[k].peers| && VoteOnDisk(r[k].peers[q], c.currentTerm, i)
  {
    hide Run, SysInv, VoteOnDisk;
    RunInv(r, k);
    CandidateRecorded(r[k], i);
    var c := r[k].peers[i];
    forall q | q in c.counted ensures q < |r[k].peers| && VoteOnDisk(r[k].peers[q], c.currentTerm, i) {
      VoterDisk(r[k], c.currentTerm, q);
    }
  }

  // ------------------------------------------------------------------
  // Log matching

  lemma PeerChain(s: Sys, p: nat)
    requires SysInv(s) && p < |s.peers|
    ensures Chain(s.abs, s.peers[p].log)
  {
    assert PeerOk(s.abs, s.peers[p], p) && LogOk(s.abs, p);
    hide Chain, Durable, Voted, LeaderRole, CandidateRole, MsgOk, VotesOk, LeadersOk;
  }

  /** Logs that agree on the term at an index agree up to it, whoever's logs they are and whenever. */
  lemma LogsMatch(r: seq<Sys>, j: nat, p: nat, k: nat, q: nat, index: nat)
    requires Run(r) && j <= k < |r| && p < |r[j].peers| && q < |r[k].peers|
    requires index < |r[j].peers[p].log| && index < |r[k].peers[q].log|
    requires r[j].peers[p].log[index].term == r[k].peers[q].log[index].term
    ensures r[j].peers[p].log[..index + 1] == r[k].peers[q].log[..index + 1]
  {
    hide Run, SysInv, Chain, Grows;
    RunInv(r, j);
    RunInv(r, k);
    RunGrows(r, j, k);
    PeerChain(r[j], p);
    PeerChain(r[k], q);
    ChainKept(r[j].abs, r[k].abs, r[j].peers[p].log);
    LogMatching(r[k].abs, r[j].peers[p].log, r[k].peers[q].log, index);
  }

  /** The request was sent by a leader of its term, and reaches to the end of that leader's log. */
  ghost predicate SentFrom(s: Sys, p: nat, g: AppendArgs) {
    && p < |s.peers| && s.peers[p].role == Leader && s.peers[p].currentTerm == g.term
    && |s.peers[p].log| == End(g)
  }

  lemma NewRequest(s: Sys, s': Sys, m: Message) returns (p: nat)
    requires Follows(s, s') && m in s'.msgs && m !in s.msgs && m.AppendReq?
    ensures SentFrom(s, p, m.args)
  {
    var act :| Can(s, act) && s' == After(s, act);
    hide AppendEntries, RequestVote, Trace, Evolve, PeerAfter;
    assert m in NewMessages(s, act);
    p := act.i;
  }

  lemma {:induction false} SentAt(r: seq<Sys>, k: nat, m: Message) returns (j: nat, p: nat)
    requires Run(r) && k < |r| && m in r[k].msgs && m.AppendReq?
    ensures j <= k && SentFrom(r[j], p, m.args)
    decreases k
  {
    hide Follows, SentFrom;
    if k > 0 {
      if m in r[k - 1].msgs {
        j, p := SentAt(r, k - 1, m);
      } else {
        j := k - 1;
        p := NewRequest(r[k - 1], r[k], m);
      }
    } else {
      assert false;
    }
  }

  /** A peer that accepts an append request, however late, holds exactly the log that the
      leader of the request's term had when it was sent. */
  lemma AcceptedIsPrefix(r: seq<Sys>, k: nat, i: nat, m: Message) returns (j: nat, p: nat)
    requires Run(r) && k < |r| && i < |r[k].peers| && m in r[k].msgs && m.AppendReq? && m.to == i
    requires AppendEntries(r[k].impl, r[k].peers[i], m.args).1.success
    ensures j <= k && p < |r[j].peers| && r[j].peers[p].role == Leader && r[j].peers[p].currentTerm == m.args.term
    ensures AppendEntries(r[k].impl, r[k].peers[i], m.args).0.log == r[j].peers[p].log
  {
    var s, g := r[k], m.args;
    hide Run, SysInv, AppendEntries, AppendFrom;
    j, p := SentAt(r, k, m);
    RunInv(r, j);
    RunInv(r, k);
    RunGrows(r, j, k);
    LeaderRecorded(r[j], p);
    AcceptedTerm(s.impl, s.peers[i], g);
    AcceptResult(s.impl, s.peers[i], g);
    RequestFacts(s, i, m);
    AcceptedPrefix(s.abs, s.peers[i], i, g);
  }

  lemma AcceptedTerm(impl: Impl, p: Peer, g: AppendArgs)
    requires AppendEntries(impl, p, g).1.success
    ensures g.term >= p.currentTerm
  {
  }

  lemma RequestFacts(s: Sys, i: nat, m: Message)
    requires SysInv(s) && i < |s.peers| && m in s.msgs && m.AppendReq? && m.to == i
    ensures Inv(s.abs) && PeerOk(s.abs, s.peers[i], i) && AppendReqOk(s.abs, i, m.args)
  {
    assert MsgOk(s.abs, m);
    hide Inv, PeerOk, AppendReqOk, VoteReqOk;
  }

  // ------------------------------------------------------------------
  // Leader completeness

  lemma FollowsInOrderKept(s: Sys, s': Sys)
    requires SafeSys(s) && FollowsInOrder(s, s')
    ensures SafeSys(s') && Follows(s, s') && Extends(s.abs, s'.abs)
  {
    var act :| CanInOrder(s, act) && s' == After(s, act);
    assert Can(s, act);
    hide SafeSys, Can, After, Extends;
    SafeSysKept(s, act);
    RecordSafe(s, act);
  }

  lemma {:induction false} OrderedInv(r: seq<Sys>, k: nat)
    requires OrderedRun(r) && k < |r|
    ensures SafeSys(r[k])
  {
    hide SafeSys, Follows, FollowsInOrder, SysInit;
    if k == 0 {
      InitSafeSys(r[0]);
    } else {
      OrderedInv(r, k - 1);
      FollowsInOrderKept(r[k - 1], r[k]);
    }
  }

  lemma {:induction false} OrderedExtends(r: seq<Sys>, j: nat, k: nat)
    requires OrderedRun(r) && j <= k < |r|
    ensures Extends(r[j].abs, r[k].abs)
    decreases k
  {
    hide SafeSys, Follows, FollowsInOrder, SysInit, Extends;
    if j == k {
      ExtendsSame(r[j].abs);
    } else {
      OrderedExtends(r, j, k - 1);
      OrderedInv(r, k - 1);
      FollowsInOrderKept(r[k - 1], r[k]);
      ExtendsTrans(r[j].abs, r[k - 1].abs, r[k].abs);
    }
  }

  lemma ExtendsSame(a: Abs)
    ensures Extends(a, a)
  {
  }

  /** What a peer may hand to its service: the log up to its commit index. */
  ghost function CommittedPart(p: Peer): Log {
    if p.commitIndex < |p.log| then p.log[..p.commitIndex + 1] else p.log
  }

  lemma CommittedPartFacts(s: Sys, p: nat)
    requires SafeSys(s) && p < |s.peers|
    ensures SafeInv(s.abs) && PeerOk(s.abs, s.peers[p], p) && CommitOk(s.abs, s.peers[p], p)
    ensures s.peers[p].commitIndex < |s.peers[p].log|
  {
    hide SafeInv, SafeMsg, LeaderAcks, AcksSeen, Numbered, MatchOk, PeerOk, Backed;
  }

  /** The committed part of a log lies below an entry chosen in the peer's term or earlier, now and ever after. */
  lemma CommittedBelow(s: Sys, p: nat, b: Abs) returns (t: nat, k: nat)
    requires SafeSys(s) && p < |s.peers| && Extends(s.abs, b) && CommittedPart(s.peers[p]) != [DUMMY]
    ensures t <= s.peers[p].currentTerm && CommittedBy(b, CommittedPart(s.peers[p]), t, k)
  {
    hide SafeSys, SafeInv, PeerOk, CommittedBy, Extends;
    CommittedPartFacts(s, p);
    var c := CommittedPart(s.peers[p]);
    t, k :| Backed(s.abs, c, p, t, k);
    BackedNow(s.abs, s.peers[p], c, p, t, k);
    ExtendsCommitted(s.abs, b, c, t, k);
  }

  lemma BackedNow(a: Abs, p: Peer, c: Log, i: nat, t: nat, k: nat)
    requires SafeInv(a) && PeerOk(a, p, i) && i < |a.term| && Backed(a, c, i, t, k) && c != []
    ensures t <= p.currentTerm
  {
    BackedTerm(a, c, i, t, k);
  }

  lemma DummyFirst(s: Sys, p: nat)
    requires SysInv(s) && p < |s.peers|
    ensures s.peers[p].log != [] && s.peers[p].log[0] == DUMMY
  {
    PeerChain(s, p);
  }

  /** What a peer has committed at any time is in the log of every leader from
      then on whose term is not earlier than the peer's was. */
  lemma LeadersComplete(r: seq<Sys>, j: nat, p: nat, k: nat, q: nat)
    requires OrderedRun(r) && j <= k < |r| && p < |r[j].peers| && q < |r[k].peers|
    requires r[k].peers[q].role == Leader && r[j].peers[p].currentTerm <= r[k].peers[q].currentTerm
    ensures CommittedPart(r[j].peers[p]) <= r[k].peers[q].log
  {
    hide OrderedRun, SafeInv, SysInv, Extends, CommittedBy, CommittedPart, SafeMsg, LeaderAcks, AcksSeen, Numbered,
         CommitOk, MatchOk;
    OrderedInv(r, j);
    OrderedInv(r, k);
    OrderedExtends(r, j, k);
    LeaderRecorded(r[k], q);
    if CommittedPart(r[j].peers[p]) == [DUMMY] {
      DummyFirst(r[k], q);
    } else {
      var t, i := CommittedBelow(r[j], p, r[k].abs);
      CommittedInLater(r[k].abs, CommittedPart(r[j].peers[p]), t, i, r[k].peers[q].currentTerm);
    }
  }

  /** No index ever holds two committed commands: of any two committed parts, of
      any peers at any times, one is a prefix of the other. */
  lemma StateMachineSafety(r: seq<Sys>, j: nat, p: nat, k: nat, q: nat)
    requires OrderedRun(r) && j <= k < |r| && p < |r[j].peers| && q < |r[k].peers|
    ensures CommittedPart(r[j].peers[p]) <= CommittedPart(r[k].peers[q])
            || CommittedPart(r[k].peers[q]) <= CommittedPart(r[j].peers[p])
  {
    hide OrderedRun, SafeSys, SafeInv, Extends, CommittedBy, CommittedPart;
    OrderedInv(r, j);
    OrderedInv(r, k);
    OrderedExtends(r, j, k);
    CommittedPartFacts(r[k], q);
    ExtendsSame(r[k].abs);
    PartCommitted(r[j], p, r[k].abs);
    PartCommitted(r[k], q, r[k].abs);
    CommittedAgree(r[k].abs, CommittedPart(r[j].peers[p]), CommittedPart(r[k].peers[q]));
  }

  lemma PartCommitted(s: Sys, p: nat, b: Abs)
    requires SafeSys(s) && p < |s.peers| && Extends(s.abs, b)
    ensures Committed(b, CommittedPart(s.peers[p]))
  {
    hide SafeSys, Extends, CommittedBy, CommittedPart;
    if CommittedPart(s.peers[p]) != [DUMMY] {
      var t, k := CommittedBelow(s, p, b);
    }
  }
}
