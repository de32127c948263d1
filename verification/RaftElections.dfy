/** Elections alone. Votes and terms are on disk before they are used, so no term ever has
    two leaders, also when peers of the second implementation start again and lose their logs. */
module RaftElections {
  import opened Basics
  import opened RaftAbstract
  import opened RaftPeer
  import opened RaftSystem
  import opened RaftLimits

  ghost function Restarted(s: Sys, i: nat): Sys
    requires i < |s.peers|
  {
    s.(peers := s.peers[i := NodeRestart(s.peers[i], |s.peers|)])
  }

  /** Any event, or a peer starts again with what its storage gives back. */
  ghost predicate FollowsForgetting(s: Sys, s': Sys) {
    || (exists act :: Can(s, act) && s' == After(s, act))
    || (exists i: nat :: i < |s.peers| && s' == Restarted(s, i))
  }

  ghost predicate ForgetfulRun(r: seq<Sys>) {
    && r != [] && SysInit(r[0])
    && forall k :: 0 < k < |r| ==> FollowsForgetting(r[k - 1], r[k])
  }

  // ------------------------------------------------------------------
  // Who voted for whom, and who won

  /** Votes by (term, voter), winners by term. */
  datatype Record = Record(votes: map<(nat, nat), int>, winner: map<nat, nat>)

  ghost predicate VoteDurable(p: Peer) {
    match p.disk
    case None => p.currentTerm == 1 && p.votedFor == -1
    case Some(d) => d.term == p.currentTerm && d.votedFor == p.votedFor
  }

  ghost predicate VoteKnown(c: Record, p: Peer, i: nat) {
    && (forall t: nat :: (t, i) in c.votes ==> t <= p.currentTerm)
    && (if p.votedFor == -1 then (p.currentTerm, i) !in c.votes
        else (p.currentTerm, i) in c.votes && c.votes[(p.currentTerm, i)] == p.votedFor)
  }

  ghost predicate VotedFor(c: Record, t: nat, q: nat, i: nat) {
    (t, q) in c.votes && c.votes[(t, q)] == i
  }

  ghost predicate Counts(c: Record, p: Peer, i: nat, n: nat) {
    p.role == Candidate ==>
      && p.votes == |p.counted| && p.votedFor == i
      && forall q :: q in p.counted ==> q < n && VotedFor(c, p.currentTerm, q, i)
  }

  ghost predicate Won(c: Record, t: nat, i: nat) {
    t in c.winner && c.winner[t] == i
  }

  ghost predicate Backed(c: Record, n: nat, t: nat, quorum: set<nat>)
    requires t in c.winner
  {
    Quorum(n, quorum) && forall q :: q in quorum ==> VotedFor(c, t, q, c.winner[t])
  }

  ghost predicate PeerCounts(c: Record, p: Peer, i: nat, n: nat, answered: set<Call>) {
    && VoteDurable(p) && VoteKnown(c, p, i) && Counts(c, p, i, n) && CallsOk(p, i, answered)
    && (p.role == Leader ==> Won(c, p.currentTerm, i))
  }

  ghost predicate MsgCounts(c: Record, n: nat, m: Message) {
    match m
    case VoteReq(to, v) => to < n && to != v.cand
    case VoteRep(voter, cand, t, r) => voter < n && voter != cand && (r.granted ==> VotedFor(c, t, voter, cand))
    case _ => true
  }

  ghost predicate WinnersBacked(c: Record, n: nat) {
    forall t :: t in c.winner ==> exists quorum :: Backed(c, n, t, quorum)
  }

  ghost predicate ElectionInv(s: Sys, c: Record) {
    && (forall i :: 0 <= i < |s.peers| ==> PeerCounts(c, s.peers[i], i, |s.peers|, s.answered))
    && (forall m :: m in s.msgs ==> MsgCounts(c, |s.peers|, m))
    && WinnersBacked(c, |s.peers|)
  }

  ghost predicate Extended(c: Record, d: Record) {
    && (forall k :: k in c.votes ==> k in d.votes && d.votes[k] == c.votes[k])
    && (forall t :: t in c.winner ==> t in d.winner && d.winner[t] == c.winner[t])
  }

  // ------------------------------------------------------------------
  // What an event does to the acting peer

  /** Term and vote stay, and the role can only be given up. */
  ghost predicate Stays(p: Peer, p': Peer) {
    && p'.currentTerm == p.currentTerm && p'.votedFor == p.votedFor && VoteDurable(p')
    && (p'.role == Follower || (p'.role == p.role && p'.votes == p.votes && p'.counted == p.counted))
  }

  ghost predicate Bumped(p: Peer, p': Peer) {
    p'.currentTerm > p.currentTerm && p'.votedFor == -1 && p'.role == Follower && VoteDurable(p')
  }

  /** The peer gives its vote of term `t`, which it still has. */
  ghost predicate Grants(p: Peer, p': Peer, t: nat, cand: nat) {
    && p'.currentTerm == t >= p.currentTerm && (t == p.currentTerm ==> p.votedFor == -1 || p.votedFor == cand)
    && p'.votedFor == cand && VoteDurable(p')
    && (p'.role == Follower ||
        (t == p.currentTerm && p'.role == p.role && p'.votes == p.votes && p'.counted == p.counted))
  }

  lemma FollowerStays(p: Peer, term: nat)
    requires VoteDurable(p)
    ensures var p' := BecomeFollower(p, term); Stays(p, p') || Bumped(p, p')
  {
  }

  lemma VoteCases(impl: Impl, p: Peer, args: VoteArgs)
    requires VoteDurable(p)
    ensures var x := RequestVote(impl, p, args);
            if x.1.granted then Grants(p, x.0, args.term, args.cand) else Stays(p, x.0) || Bumped(p, x.0)
  {
    hide IsMoreUpToDate;
  }

  lemma AppendStays(impl: Impl, p: Peer, args: AppendArgs)
    requires VoteDurable(p)
    ensures var p' := AppendEntries(impl, p, args).0; Stays(p, p') || Bumped(p, p')
  {
    FollowerStays(p, args.term);
    hide FirstFor, FollowerCommit, AppendFrom, BecomeFollower;
  }

  lemma AppendReplyStays(impl: Impl, p: Peer, q: nat, term: nat, prev: nat, len: nat, reply: AppendReply)
    requires VoteDurable(p)
    ensures var p' := HandleAppendReply(impl, p, q, term, prev, len, reply); Stays(p, p') || Bumped(p, p')
  {
    FollowerStays(p, reply.term);
    hide BackUp, BecomeFollower;
  }

  lemma RestartStays(p: Peer, n: nat)
    requires VoteDurable(p)
    ensures Stays(p, Restart(p, n)) && Stays(p, NodeRestart(p, n))
  {
  }

  /** Every event but the three that give or count votes. */
  lemma OtherStays(s: Sys, act: Action)
    requires Can(s, act) && VoteDurable(s.peers[act.i]) && !act.Timeout? && !act.RecvVoteReq? && !act.RecvVoteRep?
    ensures Stays(s.peers[act.i], PeerAfter(s, act)) || Bumped(s.peers[act.i], PeerAfter(s, act))
  {
    var p := s.peers[act.i];
    match act
    case Ask(i, q) =>
    case Command(i, c) =>
    case Send(i, q) =>
    case SelfMatch(i) =>
    case RecvAppendReq(i, m) => AppendStays(s.impl, p, m.args);
    case RecvAppendRep(i, m) => AppendReplyStays(s.impl, p, m.from, m.aterm, m.prev, m.len, m.areply);
    case TakeSnapshot(i, index) =>
    case Crash(i) => RestartStays(p, |s.peers|);
  }

  // ------------------------------------------------------------------
  // The record goes on

  ghost function Noted(c: Record, t: nat, i: nat, cand: int): Record {
    c.(votes := c.votes[(t, i) := cand])
  }

  ghost function Crowned(c: Record, t: nat, i: nat): Record {
    c.(winner := c.winner[t := i])
  }

  lemma SameCounts(c: Record, p: Peer, p': Peer, i: nat, n: nat, answered: set<Call>, answered': set<Call>)
    requires PeerCounts(c, p, i, n, answered) && (Stays(p, p') || Bumped(p, p')) && answered <= answered'
    ensures PeerCounts(c, p', i, n, answered')
  {
  }

  lemma CountsLater(c: Record, d: Record, p: Peer, i: nat, n: nat, answered: set<Call>, answered': set<Call>)
    requires PeerCounts(c, p, i, n, answered) && Extended(c, d) && answered <= answered'
    requires forall t: nat :: (t, i) in d.votes ==> (t, i) in c.votes
    ensures PeerCounts(d, p, i, n, answered')
  {
  }

  lemma MsgLater(c: Record, d: Record, n: nat, m: Message)
    requires MsgCounts(c, n, m) && Extended(c, d)
    ensures MsgCounts(d, n, m)
  {
  }

  lemma BackedLater(c: Record, d: Record, n: nat)
    requires WinnersBacked(c, n) && Extended(c, d) && d.winner == c.winner
    ensures WinnersBacked(d, n)
  {
    forall t | t in d.winner ensures exists quorum :: Backed(d, n, t, quorum) {
      var quorum :| Backed(c, n, t, quorum);
      assert Backed(d, n, t, quorum);
    }
  }

  /** What an event must show of the acting peer and of what it sends. */
  ghost predicate Goes(s: Sys, s': Sys, i: nat, c: Record, d: Record) {
    && i < |s.peers| && |s'.peers| == |s.peers| && s.answered <= s'.answered
    && (forall j :: 0 <= j < |s.peers| && j != i ==> s'.peers[j] == s.peers[j])
    && Extended(c, d) && WinnersBacked(d, |s.peers|)
    && (forall t: nat, j: nat :: (t, j) in d.votes && j != i ==> (t, j) in c.votes)
    && PeerCounts(d, s'.peers[i], i, |s.peers|, s'.answered)
    && (forall m :: m in s'.msgs && m !in s.msgs ==> MsgCounts(d, |s.peers|, m))
  }

  lemma GoesKept(s: Sys, s': Sys, i: nat, c: Record, d: Record)
    requires ElectionInv(s, c) && Goes(s, s', i, c, d)
    ensures ElectionInv(s', d)
  {
    hide PeerCounts, MsgCounts, WinnersBacked, Extended;
    forall j | 0 <= j < |s'.peers| ensures PeerCounts(d, s'.peers[j], j, |s'.peers|, s'.answered) {
      if j != i {
        CountsLater(c, d, s.peers[j], j, |s.peers|, s.answered, s'.answered);
      }
    }
    forall m | m in s'.msgs ensures MsgCounts(d, |s'.peers|, m) {
      if m in s.msgs {
        MsgLater(c, d, |s.peers|, m);
      }
    }
  }

  lemma PeerOf(s: Sys, c: Record, i: nat)
    requires ElectionInv(s, c) && i < |s.peers|
    ensures PeerCounts(c, s.peers[i], i, |s.peers|, s.answered) && WinnersBacked(c, |s.peers|)
  {
    hide PeerCounts, MsgCounts, WinnersBacked;
  }

  lemma MsgOf(s: Sys, c: Record, m: Message)
    requires ElectionInv(s, c) && m in s.msgs
    ensures MsgCounts(c, |s.peers|, m)
  {
    hide PeerCounts, MsgCounts, WinnersBacked;
  }

  /** What is left of an event once the peer and its messages are known. */
  lemma EventIs(s: Sys, act: Action)
    requires Can(s, act)
    ensures act.i < |s.peers| && After(s, act).peers == s.peers[act.i := PeerAfter(s, act)]
    ensures After(s, act).msgs == s.msgs + NewMessages(s, act) && After(s, act).answered == AnsweredAfter(s, act)
  {
    hide PeerAfter, NewMessages, Trace, Evolve, AnsweredAfter;
  }

  /** A vote is given: to a candidate that asks, or to oneself. */
  lemma NoteGoes(c: Record, p: Peer, i: nat, n: nat, t: nat, cand: int)
    requires VoteKnown(c, p, i) && WinnersBacked(c, n) && t >= p.currentTerm
    requires t == p.currentTerm ==> p.votedFor == -1 || p.votedFor == cand
    ensures var d := Noted(c, t, i, cand); Extended(c, d) && WinnersBacked(d, n)
  {
    BackedLater(c, Noted(c, t, i, cand), n);
  }

  lemma TimeoutGoes(s: Sys, act: Action, c: Record) returns (d: Record)
    requires ElectionInv(s, c) && Can(s, act) && act.Timeout?
    ensures Goes(s, After(s, act), act.i, c, d)
  {
    var p, p', i := s.peers[act.i], PeerAfter(s, act), act.i;
    d := Noted(c, p'.currentTerm, i, i);
    EventIs(s, act);
    PeerOf(s, c, i);
    hide ElectionInv, WinnersBacked, After, MsgCounts;
    NoteGoes(c, p, i, |s.peers|, p'.currentTerm, i);
    assert VotedFor(d, p'.currentTerm, i, i);
    hide PeerAfter;
    assert PeerCounts(d, p', i, |s.peers|, s.answered);
    hide PeerCounts;
  }

  lemma GrantGoes(s: Sys, act: Action, c: Record) returns (d: Record)
    requires ElectionInv(s, c) && Can(s, act) && act.RecvVoteReq?
    requires RequestVote(s.impl, s.peers[act.i], act.m.vargs).1.granted
    ensures Goes(s, After(s, act), act.i, c, d)
  {
    hide ElectionInv, WinnersBacked, After, RequestVote;
    var p, i, v := s.peers[act.i], act.i, act.m.vargs;
    d := Noted(c, v.term, i, v.cand);
    EventIs(s, act);
    PeerOf(s, c, i);
    MsgOf(s, c, act.m);
    VoteCases(s.impl, p, v);
    NoteGoes(c, p, i, |s.peers|, v.term, v.cand);
    assert VotedFor(d, v.term, i, v.cand);
    GrantCounts(c, p, PeerAfter(s, act), i, |s.peers|, s.answered, v.term, v.cand);
    hide PeerCounts, Extended, Grants;
  }

  lemma GrantCounts(c: Record, p: Peer, p': Peer, i: nat, n: nat, answered: set<Call>, t: nat, cand: nat)
    requires PeerCounts(c, p, i, n, answered) && Grants(p, p', t, cand) && Extended(c, Noted(c, t, i, cand))
    ensures PeerCounts(Noted(c, t, i, cand), p', i, n, answered)
  {
  }

  lemma RefuseGoes(s: Sys, act: Action, c: Record)
    requires ElectionInv(s, c) && Can(s, act) && act.RecvVoteReq?
    requires !RequestVote(s.impl, s.peers[act.i], act.m.vargs).1.granted
    ensures Goes(s, After(s, act), act.i, c, c)
  {
    hide ElectionInv, WinnersBacked, After, RequestVote, PeerCounts, Stays, Bumped;
    var p, p', i := s.peers[act.i], PeerAfter(s, act), act.i;
    EventIs(s, act);
    PeerOf(s, c, i);
    MsgOf(s, c, act.m);
    DurableOf(c, p, i, |s.peers|, s.answered);
    VoteCases(s.impl, p, act.m.vargs);
    SameCounts(c, p, p', i, |s.peers|, s.answered, s.answered);
  }

  lemma DurableOf(c: Record, p: Peer, i: nat, n: nat, answered: set<Call>)
    requires PeerCounts(c, p, i, n, answered)
    ensures VoteDurable(p)
  {
  }

  lemma QuietGoes(s: Sys, act: Action, c: Record)
    requires ElectionInv(s, c) && Can(s, act) && !act.Timeout? && !act.RecvVoteReq? && !act.RecvVoteRep?
    ensures Goes(s, After(s, act), act.i, c, c)
  {
    hide ElectionInv, WinnersBacked, After, PeerAfter, PeerCounts, Stays, Bumped, AppendEntries, Replicate;
    var p, i := s.peers[act.i], act.i;
    EventIs(s, act);
    PeerOf(s, c, i);
    DurableOf(c, p, i, |s.peers|, s.answered);
    OtherStays(s, act);
    SameCounts(c, p, PeerAfter(s, act), i, |s.peers|, s.answered, s.answered);
  }

  /** The candidate counts one more vote, of a peer not counted before. */
  lemma CountGoes(c: Record, p: Peer, i: nat, n: nat, answered: set<Call>, from: nat)
    requires PeerCounts(c, p, i, n, answered) && p.role == Candidate && from < n && from != i
    requires VotedFor(c, p.currentTerm, from, i) && Call(i, p.currentTerm, from) !in answered
    ensures PeerCounts(c, WithVote(p, from), i, n, answered + {Call(i, p.currentTerm, from)})
  {
  }

  /** A candidate with a majority is the only one its term can have. */
  lemma CrownGoes(c: Record, p: Peer, i: nat, n: nat, answered: set<Call>)
    requires PeerCounts(c, p, i, n, answered) && p.role == Candidate && p.votes > n / 2 && WinnersBacked(c, n)
    ensures var d := Crowned(c, p.currentTerm, i); Extended(c, d) && WinnersBacked(d, n)
    ensures PeerCounts(Crowned(c, p.currentTerm, i), BecomeLeader(p), i, n, answered)
  {
    var t, d := p.currentTerm, Crowned(c, p.currentTerm, i);
    assert Quorum(n, p.counted);
    if t in c.winner {
      var quorum :| Backed(c, n, t, quorum);
      var v := QuorumsMeet(n, quorum, p.counted);
      assert VotedFor(c, t, v, c.winner[t]) && VotedFor(c, t, v, i);
    }
    forall u | u in d.winner ensures exists quorum :: Backed(d, n, u, quorum) {
      if u == t {
        assert Backed(d, n, t, p.counted);
      } else {
        var quorum :| Backed(c, n, u, quorum);
        assert Backed(d, n, u, quorum);
      }
    }
  }

  ghost function WithVote(p: Peer, from: nat): Peer {
    p.(votes := p.votes + 1, counted := p.counted + {from})
  }

  lemma CountedGoes(c: Record, p: Peer, i: nat, n: nat, answered: set<Call>, from: nat) returns (d: Record)
    requires PeerCounts(c, p, i, n, answered) && p.role == Candidate && from < n && from != i && WinnersBacked(c, n)
    requires VotedFor(c, p.currentTerm, from, i) && Call(i, p.currentTerm, from) !in answered
    ensures d.votes == c.votes && Extended(c, d) && WinnersBacked(d, n)
    ensures var q := WithVote(p, from);
            PeerCounts(d, if q.votes > n / 2 then BecomeLeader(q) else q, i, n,
              answered + {Call(i, p.currentTerm, from)})
  {
    hide PeerCounts, WinnersBacked;
    d := c;
    CountGoes(c, p, i, n, answered, from);
    if WithVote(p, from).votes > n / 2 {
      CrownGoes(c, WithVote(p, from), i, n, answered + {Call(i, p.currentTerm, from)});
      d := Crowned(c, p.currentTerm, i);
    }
  }

  lemma ReplyGoes(s: Sys, act: Action, c: Record) returns (d: Record)
    requires ElectionInv(s, c) && Can(s, act) && act.RecvVoteRep?
    ensures Goes(s, After(s, act), act.i, c, d)
  {
    var p, i, n, m := s.peers[act.i], act.i, |s.peers|, act.m;
    var answered' := s.answered + {Call(i, m.vterm, m.voter)};
    d := c;
    hide ElectionInv, WinnersBacked, After, CallsOk, VoteKnown, Counts;
    EventIs(s, act);
    PeerOf(s, c, i);
    MsgOf(s, c, m);
    if m.vreply.term > p.currentTerm {
      FollowerStays(p, m.vreply.term);
      SameCounts(c, p, BecomeFollower(p, m.vreply.term), i, n, s.answered, answered');
    } else if ContextLost(p, Candidate, m.vterm) || !m.vreply.granted {
      SameCounts(c, p, p, i, n, s.answered, answered');
    } else {
      d := CountedGoes(c, p, i, n, s.answered, m.voter);
    }
    assert PeerCounts(d, PeerAfter(s, act), i, n, answered');
    hide PeerCounts, PeerAfter;
  }

  lemma RestartGoes(s: Sys, i: nat, c: Record)
    requires ElectionInv(s, c) && i < |s.peers|
    ensures Goes(s, Restarted(s, i), i, c, c)
  {
    PeerOf(s, c, i);
    hide ElectionInv, WinnersBacked, NodeRestart;
    RestartStays(s.peers[i], |s.peers|);
    SameCounts(c, s.peers[i], NodeRestart(s.peers[i], |s.peers|), i, |s.peers|, s.answered, s.answered);
  }

  lemma EventGoes(s: Sys, act: Action, c: Record) returns (d: Record)
    requires ElectionInv(s, c) && Can(s, act)
    ensures Goes(s, After(s, act), act.i, c, d)
  {
    hide ElectionInv, Goes, After, RequestVote;
    d := c;
    if act.Timeout? {
      d := TimeoutGoes(s, act, c);
    } else if act.RecvVoteRep? {
      d := ReplyGoes(s, act, c);
    } else if !act.RecvVoteReq? {
      QuietGoes(s, act, c);
    } else if RequestVote(s.impl, s.peers[act.i], act.m.vargs).1.granted {
      d := GrantGoes(s, act, c);
    } else {
      RefuseGoes(s, act, c);
    }
  }

  // ------------------------------------------------------------------
  // Runs

  lemma StartCounts(s: Sys)
    requires SysInit(s)
    ensures ElectionInv(s, Record(map[], map[]))
  {
  }

  lemma FollowsCounts(s: Sys, s': Sys, c: Record) returns (d: Record)
    requires ElectionInv(s, c) && FollowsForgetting(s, s')
    ensures ElectionInv(s', d) && Extended(c, d)
  {
    hide ElectionInv, Can, After, NodeRestart, PeerCounts, MsgCounts, WinnersBacked, Extended;
    if act :| Can(s, act) && s' == After(s, act) {
      d := EventGoes(s, act, c);
      GoesKept(s, s', act.i, c, d);
    } else {
      var i: nat :| i < |s.peers| && s' == Restarted(s, i);
      d := c;
      RestartGoes(s, i, c);
      GoesKept(s, s', i, c, d);
    }
  }

  lemma {:induction false} RunCounts(r: seq<Sys>, k: nat) returns (c: Record)
    requires ForgetfulRun(r) && k < |r|
    ensures ElectionInv(r[k], c)
  {
    hide ElectionInv, FollowsForgetting, SysInit;
    if k == 0 {
      c := Record(map[], map[]);
      StartCounts(r[0]);
    } else {
      c := RunCounts(r, k - 1);
      c := FollowsCounts(r[k - 1], r[k], c);
    }
  }

  lemma {:induction false} RunGoesOn(r: seq<Sys>, j: nat, c: Record, k: nat) returns (d: Record)
    requires ForgetfulRun(r) && j <= k < |r| && ElectionInv(r[j], c)
    ensures ElectionInv(r[k], d) && Extended(c, d)
    decreases k
  {
    hide ElectionInv, FollowsForgetting, SysInit, Extended;
    d := c;
    if j == k {
      ExtendedSame(c);
    } else {
      var e := RunGoesOn(r, j, c, k - 1);
      d := FollowsCounts(r[k - 1], r[k], e);
      ExtendedTrans(c, e, d);
    }
  }

  lemma ExtendedSame(c: Record)
    ensures Extended(c, c)
  {
  }

  lemma ExtendedTrans(c: Record, d: Record, e: Record)
    requires Extended(c, d) && Extended(d, e)
    ensures Extended(c, e)
  {
  }

  /** In no run does a term ever have two leaders, not even at different times, although peers may
      start again without their logs. */
  lemma ForgetfulElectionSafety(r: seq<Sys>, j: nat, p: nat, k: nat, q: nat)
    requires ForgetfulRun(r) && j <= k < |r| && p < |r[j].peers| && q < |r[k].peers|
    requires r[j].peers[p].role == Leader && r[k].peers[q].role == Leader
    requires r[j].peers[p].currentTerm == r[k].peers[q].currentTerm
    ensures p == q
  {
    hide ForgetfulRun, ElectionInv, WinnersBacked;
    var c := RunCounts(r, j);
    var d := RunGoesOn(r, j, c, k);
    PeerOf(r[j], c, p);
    PeerOf(r[k], d, q);
  }
}
