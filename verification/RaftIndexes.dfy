/** In every run, however messages are lost, delayed, reordered or repeated, the
    indexes a peer works with stay inside its log, so that no handler looks up
    an entry that is not there. */
module RaftIndexes {
  import opened Basics
  import opened RaftAbstract
  import opened RaftPeer
  import opened RaftSystem
  import opened RaftRuns
  import opened RaftBackUp
  import opened CommitIndex

  ghost predicate NextOk(p: Peer) {
    forall q :: 0 <= q < |p.nextIndex| ==> 1 <= p.nextIndex[q] <= |p.log|
  }

  ghost predicate HeldOk(p: Peer) {
    forall q :: 0 <= q < |p.matchIndex| ==> 0 <= p.matchIndex[q] < |p.log|
  }

  ghost predicate IndexOk(p: Peer) {
    && p.snap < |p.log| && p.snap <= p.commitIndex
    && (p.role == Leader ==> NextOk(p) && HeldOk(p))
  }

  ghost predicate ReplyOk(a: Abs, m: Message) {
    m.AppendRep? ==>
      && m.aterm in a.leaderLog && m.prev + m.len < |a.leaderLog[m.aterm]|
      && (!m.areply.success && m.areply.term <= m.aterm ==> m.areply.conflictIndex >= 1)
  }

  ghost predicate IndexInv(s: Sys) {
    && SysInv(s)
    && (forall i :: 0 <= i < |s.peers| ==> IndexOk(s.peers[i]))
    && (forall m :: m in s.msgs ==> ReplyOk(s.abs, m))
  }

  lemma InitIndex(s: Sys)
    requires SysInit(s)
    ensures IndexInv(s)
  {
    InitOk(s);
  }

  // ------------------------------------------------------------------
  // The acting peer

  lemma BackUpInside(impl: Impl, p: Peer, next: int, prev: nat, reply: AppendReply)
    requires p.snap < |p.log| && 1 <= next <= |p.log| && prev < |p.log| && reply.conflictIndex >= 1
    ensures 1 <= BackUp(impl, p, next, prev, reply) <= |p.log|
  {
    FirstForNonNegative(p.log, reply.conflictTerm, p.snap);
    hide FirstFor;
  }

  lemma {:induction false} FirstForNonNegative(log: Log, term: nat, i: nat)
    ensures FirstFor(log, term, i) >= 0
    decreases |log| - i
  {
    if i < |log| && log[i].term < term {
      FirstForNonNegative(log, term, i + 1);
    }
  }

  lemma CommitMoves(p: Peer)
    requires IndexOk(p)
    ensures IndexOk(UpdateCommit(p))
  {
    hide MajorityIndex, NextOk, HeldOk;
    var r := UpdateCommit(p);
    assert r.log == p.log && r.snap == p.snap && r.role == p.role && r.commitIndex >= p.commitIndex;
    assert r.nextIndex == p.nextIndex && r.matchIndex == p.matchIndex;
    SameIndexes(p, r);
  }

  lemma SameIndexes(p: Peer, r: Peer)
    requires r.log == p.log && r.nextIndex == p.nextIndex && r.matchIndex == p.matchIndex
    ensures NextOk(p) == NextOk(r) && HeldOk(p) == HeldOk(r)
  {
  }

  lemma ReplyIndexes(impl: Impl, p: Peer, q: nat, term: nat, prev: nat, len: nat, reply: AppendReply)
    requires IndexOk(p)
    requires p.role == Leader && p.currentTerm == term ==>
               prev + len < |p.log| && (!reply.success && reply.term <= term ==> reply.conflictIndex >= 1)
    ensures IndexOk(HandleAppendReply(impl, p, q, term, prev, len, reply))
  {
    hide UpdateCommit, BackUp;
    if reply.term <= p.currentTerm && !ContextLost(p, Leader, term) && q < |p.nextIndex| && q < |p.matchIndex| {
      if reply.success {
        CommitMoves(p.(matchIndex := p.matchIndex[q := prev + len], nextIndex := p.nextIndex[q := prev + len + 1]));
      } else {
        BackUpInside(impl, p, p.nextIndex[q], prev, reply);
      }
    }
  }

  lemma RequestIndexes(impl: Impl, p: Peer, g: AppendArgs)
    requires IndexOk(p)
    ensures IndexOk(AppendEntries(impl, p, g).0)
  {
    hide NextOk, HeldOk, FirstFor;
  }

  lemma VoteIndexes(impl: Impl, p: Peer, v: VoteArgs)
    requires IndexOk(p)
    ensures IndexOk(RequestVote(impl, p, v).0)
  {
    var r := RequestVote(impl, p, v).0;
    SameIndexes(p, r);
    hide NextOk, HeldOk;
  }

  lemma VoteReplyIndexes(p: Peer, from: nat, term: nat, n: nat, reply: VoteReply)
    requires IndexOk(p)
    ensures IndexOk(HandleVoteReply(p, from, term, n, reply))
  {
  }

  lemma LocalIndexes(p: Peer, me: nat, index: nat, c: int)
    requires IndexOk(p) && Durable(p)
    ensures IndexOk(MatchSelf(p, me)) && IndexOk(Compact(p, index)) && IndexOk(Start(p, c))
    ensures IndexOk(BecomeCandidate(p, me)) && IndexOk(Restart(p, |p.nextIndex|))
  {
  }

  lemma ActingFacts(s: Sys, act: Action)
    requires IndexInv(s) && Can(s, act)
    ensures Inv(s.abs) && PeerOk(s.abs, s.peers[act.i], act.i) && IndexOk(s.peers[act.i])
    ensures Durable(s.peers[act.i]) && |s.peers[act.i].nextIndex| == |s.peers|
    ensures act.RecvAppendRep? ==> ReplyOk(s.abs, act.m)
    ensures act.RecvAppendReq? ==> AppendReqOk(s.abs, act.i, act.m.args)
  {
    if act.RecvAppendReq? {
      AppendReqFacts(s, act);
    }
    hide Inv, IndexOk, ReplyOk, MsgOk, Durable, Voted, LeaderRole, CandidateRole, AppendReqOk;
  }

  lemma LeaderLogIs(a: Abs, p: Peer, i: nat)
    requires PeerOk(a, p, i) && p.role == Leader
    ensures p.currentTerm in a.leaderLog && a.leaderLog[p.currentTerm] == p.log
  {
  }

  lemma ActingIndexes(s: Sys, act: Action)
    requires IndexInv(s) && Can(s, act)
    ensures IndexOk(PeerAfter(s, act))
  {
    hide IndexInv, IndexOk, PeerOk, Inv, AppendReqOk, AppendEntries, RequestVote, HandleVoteReply, HandleAppendReply;
    hide MatchSelf, Compact, Start, BecomeCandidate, Restart, Durable;
    ActingFacts(s, act);
    var p := s.peers[act.i];
    match act
    case Timeout(i) => LocalIndexes(p, i, 0, 0);
    case Ask(_, _) =>
    case RecvVoteReq(_, m) => VoteIndexes(s.impl, p, m.vargs);
    case RecvVoteRep(_, m) => VoteReplyIndexes(p, m.voter, m.vterm, |s.peers|, m.vreply);
    case Command(i, c) => LocalIndexes(p, i, 0, c);
    case Send(_, _) =>
    case SelfMatch(i) => LocalIndexes(p, i, 0, 0);
    case RecvAppendReq(_, m) => RequestIndexes(s.impl, p, m.args);
    case RecvAppendRep(i, m) =>
      if p.role == Leader {
        LeaderLogIs(s.abs, p, i);
      }
      ReplyIndexes(s.impl, p, m.from, m.aterm, m.prev, m.len, m.areply);
    case TakeSnapshot(i, index) => LocalIndexes(p, i, index, 0);
    case Crash(i) => LocalIndexes(p, i, 0, 0);
  }

  // ------------------------------------------------------------------
  // Replies

  /** A rejection by a peer that has not passed the leader's term names an index inside some log. */
  lemma ConflictInside(impl: Impl, a: Abs, p: Peer, g: AppendArgs)
    requires LeadersOk(a) && Chain(a, p.log) && IndexOk(p) && g.term >= p.currentTerm
    requires g.prevIndex == 0 ==> g.prevTerm == 0
    requires !AppendEntries(impl, p, g).1.success
    ensures AppendEntries(impl, p, g).1.conflictIndex >= 1
  {
    ChainSorted(a, p.log);
    if p.snap <= g.prevIndex < |p.log| {
      ConflictTermFirst(a, p.log, g.prevIndex, p.snap);
    }
    hide FirstFor, LeadersOk, Chain, TermsSorted, NextOk, HeldOk;
  }

  lemma ConflictTermFirst(a: Abs, log: Log, prev: nat, snap: nat)
    requires LeadersOk(a) && Chain(a, log) && TermsSorted(log) && snap <= prev < |log|
    ensures prev > 0 ==> FirstFor(log, log[prev].term, snap) >= 1
  {
    if prev > 0 {
      assert FromLeader(a, log, prev);
      assert log[prev].term in a.winner && LeaderOk(a, log[prev].term);
      assert log[0].term == 0;
      hide Chain, LeadersOk;
      FirstForCases(log, log[prev].term, snap);
      hide FirstFor;
    }
  }

  lemma ProbeAtStart(a: Abs, i: nat, g: AppendArgs)
    requires Inv(a) && AppendReqOk(a, i, g)
    ensures g.prevIndex == 0 ==> g.prevTerm == 0
    ensures g.term in a.leaderLog && g.prevIndex + |g.entries| < |a.leaderLog[g.term]|
  {
    assert LeaderOk(a, g.term);
    hide VotesOk, LogsOk;
  }

  lemma NewReplyOk(s: Sys, act: Action, m: Message)
    requires IndexInv(s) && Can(s, act) && m in NewMessages(s, act)
    ensures ReplyOk(s.abs, m)
  {
    hide IndexInv, IndexOk, PeerOk, Inv, AppendReqOk, AppendEntries, RequestVote, HandleVoteReply, HandleAppendReply;
    if act.RecvAppendReq? {
      ActingFacts(s, act);
      var p, g := s.peers[act.i], act.m.args;
      ProbeAtStart(s.abs, act.i, g);
      if g.term < p.currentTerm {
        StaleReply(s.impl, p, g);
      } else if !AppendEntries(s.impl, p, g).1.success {
        PeerLogs(s.abs, p, act.i);
        ConflictInside(s.impl, s.abs, p, g);
      }
    }
  }

  lemma StaleReply(impl: Impl, p: Peer, g: AppendArgs)
    requires g.term < p.currentTerm
    ensures AppendEntries(impl, p, g).1.term > g.term
  {
  }

  lemma PeerLogs(a: Abs, p: Peer, i: nat)
    requires Inv(a) && PeerOk(a, p, i)
    ensures LeadersOk(a) && Chain(a, p.log)
  {
    assert LogOk(a, i);
    hide Chain, Durable, Voted, LeaderRole, CandidateRole;
  }

  lemma ReplyKept(a: Abs, b: Abs, m: Message)
    requires ReplyOk(a, m) && RecordGrows(a, b)
    ensures ReplyOk(b, m)
  {
    if m.AppendRep? {
      assert a.leaderLog[m.aterm] <= b.leaderLog[m.aterm];
    }
  }

  // ------------------------------------------------------------------

  lemma AfterIs(s: Sys, act: Action)
    requires Can(s, act)
    ensures After(s, act).peers == s.peers[act.i := PeerAfter(s, act)]
    ensures After(s, act).msgs == s.msgs + NewMessages(s, act)
  {
    hide PeerAfter, NewMessages, Trace;
  }

  lemma FollowsOf(s: Sys, act: Action)
    requires Can(s, act)
    ensures act.i < |s.peers| && Follows(s, After(s, act))
  {
    hide After;
  }

  lemma IndexKept(s: Sys, act: Action)
    requires IndexInv(s) && Can(s, act)
    ensures IndexInv(After(s, act))
  {
    hide SysInv, IndexOk, ReplyOk, Can, After, PeerAfter, NewMessages, RecordGrows, Follows;
    var s' := After(s, act);
    FollowsOf(s, act);
    AfterIs(s, act);
    FollowsKept(s, s');
    ActingIndexes(s, act);
    forall m | m in s'.msgs ensures ReplyOk(s'.abs, m) {
      if m !in s.msgs {
        NewReplyOk(s, act, m);
      }
      ReplyKept(s.abs, s'.abs, m);
    }
  }

  lemma FollowsIndexes(s: Sys, s': Sys)
    requires IndexInv(s) && Follows(s, s')
    ensures IndexInv(s')
  {
    var act :| Can(s, act) && s' == After(s, act);
    hide IndexInv, Can, After;
    IndexKept(s, act);
  }

  lemma {:induction false} RunIndexes(r: seq<Sys>, k: nat)
    requires Run(r) && k < |r|
    ensures IndexInv(r[k])
  {
    hide IndexInv, SysInit, Follows;
    if k == 0 {
      InitIndex(r[0]);
    } else {
      RunIndexes(r, k - 1);
      FollowsIndexes(r[k - 1], r[k]);
    }
  }

  lemma MajorityInside(held: seq<int>, n: nat)
    requires |held| > 0 && forall q :: 0 <= q < |held| ==> 0 <= held[q] < n
    ensures 0 <= MajorityIndex(held) < n
  {
    var r := MajorityIndex(held);
    assert Holders(held, 0) == Peers(|held|);
    assert |Holders(held, r)| > 0;
    var v :| v in Holders(held, r);
    assert r <= held[v] < n;
  }

  /** A leader's probes and its commit rule look only at entries of its log, in any state of any run. */
  lemma LookupsInside(r: seq<Sys>, k: nat, i: nat, q: nat)
    requires Run(r) && k < |r| && i < |r[k].peers| && q < |r[k].peers| && r[k].peers[i].role == Leader
    ensures var p := r[k].peers[i];
            && |p.nextIndex| == |p.matchIndex| == |r[k].peers|
            && 0 <= p.nextIndex[q] - 1 < |p.log|
            && p.snap <= p.commitIndex && 0 <= MajorityIndex(p.matchIndex) < |p.log|
            && (Replicate(p, i, q).None? <==> p.nextIndex[q] - 1 < p.snap)
  {
    hide Run;
    RunIndexes(r, k);
    var p := r[k].peers[i];
    assert PeerOk(r[k].abs, p, i) && IndexOk(p);
    hide IndexInv, PeerOk, MajorityIndex;
    MajorityInside(p.matchIndex, |p.log|);
  }

  /** In any run, a rejection of the current probe moves a leader of uncompacted log strictly back. */
  lemma RunBacksUp(r: seq<Sys>, k: nat, i: nat, q: nat)
    requires Run(r) && k < |r| && i < |r[k].peers| && q < |r[k].peers| && r[k].peers[i].role == Leader
    requires r[k].peers[i].snap == 0 && r[k].peers[q].snap == 0
    requires r[k].peers[q].currentTerm <= r[k].peers[i].currentTerm
    ensures var p, f := r[k].peers[i], r[k].peers[q];
            q < |p.nextIndex| && p.nextIndex[q] >= 1
            && MatchedWithin(r[k].impl, p, f, i, q, p.nextIndex[q] - 1)
  {
    hide Run, SysInv, MatchedWithin, LeadersOk, Chain, MajorityIndex, Replicate, Pair;
    LookupsInside(r, k, i, q);
    RunInv(r, k);
    RunPair(r[k], i, q);
    ProbesMatch(r[k].impl, r[k].abs, r[k].peers[i], r[k].peers[q], i, q, r[k].peers[i].nextIndex[q] - 1);
  }

  lemma RunPair(s: Sys, i: nat, q: nat)
    requires SysInv(s) && i < |s.peers| && q < |s.peers|
    requires var p, f := s.peers[i], s.peers[q];
             && p.role == Leader && p.snap == 0 && f.snap == 0 && f.currentTerm <= p.currentTerm
             && q < |p.nextIndex| && q < |p.matchIndex| && 1 <= p.nextIndex[q] <= |p.log|
    ensures Pair(s.abs, s.peers[i], s.peers[q], q)
  {
    hide SysInv, LeadersOk, Chain;
    LeadersAre(s);
    PeerChain(s, i);
    PeerChain(s, q);
  }

  lemma LeadersAre(s: Sys)
    requires SysInv(s)
    ensures LeadersOk(s.abs)
  {
  }
}
