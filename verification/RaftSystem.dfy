/** A cluster of Raft peers: handlers run one at a time, messages may be lost,
    delayed, reordered and delivered more than once, peers may crash and start
    again. Of the replies to one call for a vote the caller gets at most one.
    `abs` records what happened in terms of elections and logs. */
module RaftSystem {
  import opened Basics
  import opened RaftAbstract
  import opened RaftPeer

  datatype Message =
    | VoteReq(to: nat, vargs: VoteArgs)
    | VoteRep(voter: nat, cand: nat, vterm: nat, vreply: VoteReply)
    | AppendReq(to: nat, no: nat, args: AppendArgs)
    | AppendRep(from: nat, leader: nat, aterm: nat, prev: nat, len: nat, areply: AppendReply)

  /** A candidacy calls each other peer once, and has a term of its own. */
  datatype Call = Call(cand: nat, term: nat, voter: nat)

  datatype Sys = Sys(
    impl: Impl,
    peers: seq<Peer>,
    msgs: set<Message>,            // everything ever sent
    sent: nat,                     // number of append requests sent so far
    seen: map<(nat, nat), nat>,    // by (peer, term): number of the last append request handled
    asked: set<Call>,              // calls for votes made,
    answered: set<Call>,           //   and those that have returned
    abs: Abs)

  datatype Action =
    | Timeout(i: nat)
    | Ask(i: nat, q: nat)
    | RecvVoteReq(i: nat, m: Message)
    | RecvVoteRep(i: nat, m: Message)
    | Command(i: nat, c: int)
    | Send(i: nat, q: nat)
    | SelfMatch(i: nat)
    | RecvAppendReq(i: nat, m: Message)
    | RecvAppendRep(i: nat, m: Message)
    | TakeSnapshot(i: nat, index: nat)
    | Crash(i: nat)

  ghost predicate Can(s: Sys, act: Action) {
    && act.i < |s.peers|
    && match act
       case Timeout(i) => s.peers[i].role != Leader
       case Ask(i, q) =>
         s.peers[i].role == Candidate && q < |s.peers| && q != i && Call(i, s.peers[i].currentTerm, q) !in s.asked
       case RecvVoteReq(i, m) => m in s.msgs && m.VoteReq? && m.to == i
       case RecvVoteRep(i, m) =>
         m in s.msgs && m.VoteRep? && m.cand == i && Call(i, m.vterm, m.voter) !in s.answered   // a call returns once
       case Command(i, c) => s.peers[i].role == Leader
       case Send(i, q) => s.peers[i].role == Leader && q < |s.peers| && q != i && Replicate(s.peers[i], i, q).Some?
       case SelfMatch(i) => s.peers[i].role == Leader
       case RecvAppendReq(i, m) => m in s.msgs && m.AppendReq? && m.to == i
       case RecvAppendRep(i, m) => m in s.msgs && m.AppendRep? && m.leader == i
       case TakeSnapshot(i, index) => true
       case Crash(i) => s.impl == Lab   // the library's peer does not find its log again, see NodeRestart
  }

  /** The acting peer afterwards. */
  ghost function PeerAfter(s: Sys, act: Action): Peer
    requires Can(s, act)
  {
    var p, n := s.peers[act.i], |s.peers|;
    match act
    case Timeout(i) => BecomeCandidate(p, i)
    case Ask(i, q) => p
    case RecvVoteReq(i, m) => RequestVote(s.impl, p, m.vargs).0
    case RecvVoteRep(i, m) => HandleVoteReply(p, m.voter, m.vterm, n, m.vreply)
    case Command(i, c) => Start(p, c)
    case Send(i, q) => p
    case SelfMatch(i) => MatchSelf(p, i)
    case RecvAppendReq(i, m) => AppendEntries(s.impl, p, m.args).0
    case RecvAppendRep(i, m) => HandleAppendReply(s.impl, p, m.from, m.aterm, m.prev, m.len, m.areply)
    case TakeSnapshot(i, index) => Compact(p, index)
    case Crash(i) => Restart(p, n)
  }

  ghost function NewMessages(s: Sys, act: Action): set<Message>
    requires Can(s, act)
  {
    var p := s.peers[act.i];
    match act
    case Ask(i, q) => {VoteReq(q, VoteArgs(p.currentTerm, i, LastIndex(p), LastTerm(p)))}
    case RecvVoteReq(i, m) => {VoteRep(i, m.vargs.cand, m.vargs.term, RequestVote(s.impl, p, m.vargs).1)}
    case Send(i, q) => {AppendReq(q, s.sent, Replicate(p, i, q).value)}
    case RecvAppendReq(i, m) =>
      {AppendRep(i, m.args.leader, m.args.term, m.args.prevIndex, |m.args.entries|, AppendEntries(s.impl, p, m.args).1)}
    case _ => {}
  }

  /** The same event in terms of elections and logs. */
  ghost function Trace(s: Sys, act: Action): seq<Step>
    requires Can(s, act)
  {
    var p := s.peers[act.i];
    match act
    case Timeout(i) => [Candidacy(i)]
    case RecvVoteReq(i, m) =>
      var bump := if m.vargs.term > p.currentTerm then [Bump(i, m.vargs.term)] else [];
      var unvoted := m.vargs.term > p.currentTerm || p.votedFor == -1;
      bump + (if RequestVote(s.impl, p, m.vargs).1.granted && unvoted then [Grant(i, m.vargs.cand)] else [])
    case RecvVoteRep(i, m) =>
      if m.vreply.term > p.currentTerm then [Bump(i, m.vreply.term)]
      else if p.role == Candidate && PeerAfter(s, act).role == Leader then [Win(i, PeerAfter(s, act).counted)]
      else []
    case Command(i, c) => [Append(i, LogEntry(p.currentTerm, true, c))]
    case RecvAppendReq(i, m) =>
      if m.args.term < p.currentTerm then []
      else if AppendEntries(s.impl, p, m.args).1.success
      then [Accept(i, m.args.term, m.args.prevIndex + 1 + |m.args.entries|)]
      else [Bump(i, m.args.term)]
    case RecvAppendRep(i, m) => if m.areply.term > p.currentTerm then [Bump(i, m.areply.term)] else []
    case _ => []
  }

  ghost predicate AllEnabled(a: Abs, steps: seq<Step>)
    decreases |steps|
  {
    steps == [] || (Enabled(a, steps[0]) && AllEnabled(Apply(a, steps[0]), steps[1..]))
  }

  ghost function Evolve(a: Abs, steps: seq<Step>): Abs
    decreases |steps|
  {
    if steps == [] || !Enabled(a, steps[0]) then a else Evolve(Apply(a, steps[0]), steps[1..])
  }

  ghost function AnsweredAfter(s: Sys, act: Action): set<Call>
    requires Can(s, act)
  {
    if act.RecvVoteRep? then s.answered + {Call(act.i, act.m.vterm, act.m.voter)} else s.answered
  }

  ghost function After(s: Sys, act: Action): Sys
    requires Can(s, act)
  {
    Sys(s.impl, s.peers[act.i := PeerAfter(s, act)], s.msgs + NewMessages(s, act),
        if act.Send? then s.sent + 1 else s.sent,
        if act.RecvAppendReq? && act.m.args.term >= s.peers[act.i].currentTerm
        then s.seen[(act.i, act.m.args.term) := act.m.no] else s.seen,
        if act.Ask? then s.asked + {Call(act.i, s.peers[act.i].currentTerm, act.q)} else s.asked,
        AnsweredAfter(s, act),
        Evolve(s.abs, Trace(s, act)))
  }

  // ------------------------------------------------------------------
  // How a peer and a message agree with the record

  ghost predicate Durable(p: Peer) {
    match p.disk
    case None => p.currentTerm == 1 && p.votedFor == -1 && p.log == [DUMMY] && p.snap == 0
    case Some(d) => d == Disk(p.currentTerm, p.votedFor, p.log, p.snap)
  }

  ghost predicate Voted(a: Abs, p: Peer, i: nat) {
    if p.votedFor == -1 then (p.currentTerm, i) !in a.votes
    else p.votedFor >= 0 && (p.currentTerm, i) in a.votes && a.votes[(p.currentTerm, i)].cand == p.votedFor
  }

  ghost predicate LeaderRole(a: Abs, p: Peer, i: nat) {
    var t := p.currentTerm;
    p.role == Leader ==> t in a.winner && a.winner[t] == i && t in a.leaderLog && a.leaderLog[t] == p.log
  }

  /** The counter is the number of distinct peers counted, and each of them voted for this candidate. */
  ghost predicate CandidateRole(a: Abs, p: Peer, i: nat) {
    var t := p.currentTerm;
    p.role == Candidate ==>
      && (t, i) in a.votes && a.votes[(t, i)] == Vote(i, p.log)
      && !(t in a.winner && a.winner[t] == i)
      && p.votes == |p.counted|
      && forall q :: q in p.counted ==> q < |a.term| && (t, q) in a.votes && a.votes[(t, q)].cand == i
  }

  ghost predicate PeerOk(a: Abs, p: Peer, i: nat) {
    && i < |a.term| && i < |a.log|
    && p.currentTerm == a.term[i] && p.log == a.log[i]
    && |p.nextIndex| == |p.matchIndex| == |a.term|
    && Durable(p) && Voted(a, p, i) && LeaderRole(a, p, i) && CandidateRole(a, p, i)
  }

  ghost predicate VoteReqOk(a: Abs, to: nat, v: VoteArgs) {
    && to < |a.term| && to != v.cand
    && (v.term, v.cand) in a.votes && a.votes[(v.term, v.cand)].cand == v.cand
    && var l := a.votes[(v.term, v.cand)].log;
       l != [] && v.lastIndex == |l| - 1 && v.lastTerm == Last(l).term
  }

  /** The request carries a stretch of `l`. */
  ghost predicate Carries(l: Log, g: AppendArgs) {
    && g.prevIndex + 1 + |g.entries| <= |l|
    && g.prevTerm == l[g.prevIndex].term
    && g.entries == l[g.prevIndex + 1..g.prevIndex + 1 + |g.entries|]
  }

  /** The request carries a stretch of the leader's log, all the way to where that log ended when it was sent. */
  ghost predicate AppendReqOk(a: Abs, to: nat, g: AppendArgs) {
    var t := g.term;
    && to < |a.term|
    && t in a.winner && t in a.leaderLog && t in a.initLog && a.winner[t] == g.leader && to != g.leader
    && |a.initLog[t]| <= g.prevIndex + 1 + |g.entries| <= |a.leaderLog[t]|
    && Carries(a.leaderLog[t], g)
  }

  ghost predicate MsgOk(a: Abs, m: Message) {
    match m
    case VoteReq(to, v) => VoteReqOk(a, to, v)
    case VoteRep(voter, cand, t, r) =>
      voter < |a.term| && voter != cand && (r.granted ==> (t, voter) in a.votes && a.votes[(t, voter)].cand == cand)
    case AppendReq(to, no, g) => AppendReqOk(a, to, g)
    case AppendRep(_, _, _, _, _, _) => true
  }

  /** Every vote a candidate has counted, but its own, is the answer to a call. */
  ghost predicate CallsOk(p: Peer, i: nat, answered: set<Call>) {
    p.role == Candidate ==> forall q :: q in p.counted && q != i ==> Call(i, p.currentTerm, q) in answered
  }

  ghost predicate SysInv(s: Sys) {
    && Inv(s.abs)
    && |s.peers| == |s.abs.term|
    && (forall i :: 0 <= i < |s.peers| ==> PeerOk(s.abs, s.peers[i], i))
    && (forall m :: m in s.msgs ==> MsgOk(s.abs, m))
    && (forall i :: 0 <= i < |s.peers| ==> CallsOk(s.peers[i], i, s.answered))
  }

  ghost predicate SysInit(s: Sys) {
    && (forall i :: 0 <= i < |s.peers| ==> s.peers[i] == NewPeer(|s.peers|))
    && s.msgs == {} && s.sent == 0 && s.seen == map[] && s.asked == {} && s.answered == {}
    && Init(s.abs) && |s.abs.term| == |s.peers|
    && (forall i :: 0 <= i < |s.abs.term| ==> s.abs.term[i] == 1)
  }

  lemma InitOk(s: Sys)
    requires SysInit(s)
    ensures SysInv(s)
  {
    InitInv(s.abs);
  }

  // ------------------------------------------------------------------
  // What one abstract step leaves alone

  lemma MsgKept(a: Abs, st: Step, m: Message)
    requires Inv(a) && Enabled(a, st) && MsgOk(a, m)
    ensures MsgOk(Apply(a, st), m)
  {
    VotesFrame(a, st);
    Growing(a, st);
    if m.AppendReq? {
      AppendReqKept(a, st, m.to, m.args);
    }
  }

  lemma WinnerKept(a: Abs, st: Step, t: nat)
    requires Inv(a) && Enabled(a, st) && t in a.winner
    ensures var b := Apply(a, st);
            && t in b.winner && b.winner[t] == a.winner[t]
            && t in b.initLog && t in a.initLog && b.initLog[t] == a.initLog[t]
            && t in b.leaderLog && t in a.leaderLog && a.leaderLog[t] <= b.leaderLog[t]
  {
    Growing(a, st);
    assert LeaderOk(a, t);
    if st.Win? {
      OneWinner(a, st.i, st.q);
    }
  }

  lemma CarriesKept(l: Log, m: Log, g: AppendArgs)
    requires Carries(l, g) && l <= m
    ensures Carries(m, g)
  {
  }

  lemma AppendReqKept(a: Abs, st: Step, to: nat, g: AppendArgs)
    requires Inv(a) && Enabled(a, st) && AppendReqOk(a, to, g)
    ensures AppendReqOk(Apply(a, st), to, g)
  {
    VotesFrame(a, st);
    hide Apply, Enabled, Inv, Carries;
    WinnerKept(a, st, g.term);
    CarriesKept(a.leaderLog[g.term], Apply(a, st).leaderLog[g.term], g);
  }

  lemma OtherVotedKept(a: Abs, b: Abs, p: Peer, j: nat)
    requires Voted(a, p, j)
    requires forall u, q :: (u, q) in a.votes ==> (u, q) in b.votes && b.votes[(u, q)] == a.votes[(u, q)]
    requires forall t :: (t, j) in b.votes ==> (t, j) in a.votes
    ensures Voted(b, p, j)
  {
  }

  lemma OtherCandidateKept(a: Abs, b: Abs, p: Peer, j: nat)
    requires CandidateRole(a, p, j) && |b.term| == |a.term|
    requires forall u, q :: (u, q) in a.votes ==> (u, q) in b.votes && b.votes[(u, q)] == a.votes[(u, q)]
    requires forall t :: t in b.winner && b.winner[t] == j ==> t in a.winner && a.winner[t] == j
    ensures CandidateRole(b, p, j)
  {
  }

  lemma OtherPeerKept(a: Abs, st: Step, p: Peer, j: nat)
    requires Inv(a) && Enabled(a, st) && PeerOk(a, p, j) && j != st.i
    ensures PeerOk(Apply(a, st), p, j)
  {
    OtherPeerFrame(a, st, j);
    VotesFrame(a, st);
    if p.role == Leader {
      WinnerKept(a, st, p.currentTerm);
    }
    hide Apply, Enabled, Inv, Voted, CandidateRole;
    OtherVotedKept(a, Apply(a, st), p, j);
    OtherCandidateKept(a, Apply(a, st), p, j);
  }

  /** A step concerns only its own peer's term, log, votes and leadership. */
  lemma OtherPeerFrame(a: Abs, st: Step, j: nat)
    requires Inv(a) && Enabled(a, st) && j < |a.term| && j != st.i
    ensures var b := Apply(a, st);
            && |b.term| == |a.term| && |b.log| == |a.log|
            && b.term[j] == a.term[j] && b.log[j] == a.log[j]
            && (forall t :: (t, j) in b.votes ==> (t, j) in a.votes)
            && (forall t :: t in b.winner && b.winner[t] == j ==> t in a.winner && a.winner[t] == j)
            && (forall t :: t in a.winner && a.winner[t] == j && t in b.leaderLog && t in a.leaderLog ==>
                  b.leaderLog[t] == a.leaderLog[t])
  {
    hide Apply, Enabled;
    assert |a.log| == |a.term|;
    hide Inv;
    OtherLog(a, st, j);
    OtherVotes(a, st, j);
    OtherLeads(a, st, j);
  }

  lemma OtherLog(a: Abs, st: Step, j: nat)
    requires Enabled(a, st) && j < |a.term| == |a.log| && j != st.i
    ensures var b := Apply(a, st);
            |b.term| == |a.term| && |b.log| == |a.log| && b.term[j] == a.term[j] && b.log[j] == a.log[j]
  {
  }

  lemma OtherVotes(a: Abs, st: Step, j: nat)
    requires Enabled(a, st) && j != st.i
    ensures forall t :: (t, j) in Apply(a, st).votes ==> (t, j) in a.votes
  {
  }

  lemma OtherLeads(a: Abs, st: Step, j: nat)
    requires Inv(a) && Enabled(a, st) && j != st.i
    ensures var b := Apply(a, st);
            && (forall t :: t in b.winner && b.winner[t] == j ==> t in a.winner && a.winner[t] == j)
            && (forall t :: t in a.winner && a.winner[t] == j && t in b.leaderLog && t in a.leaderLog ==>
                  b.leaderLog[t] == a.leaderLog[t])
  {
    hide Inv;
    if st.Win? {
      OneWinner(a, st.i, st.q);
    }
  }

  // ------------------------------------------------------------------
  // The acting peer, handler by handler

  lemma CandidacyPeer(a: Abs, p: Peer, i: nat)
    requires Inv(a) && PeerOk(a, p, i) && p.role != Leader
    ensures Enabled(a, Candidacy(i)) && PeerOk(Apply(a, Candidacy(i)), BecomeCandidate(p, i), i)
  {
  }

  lemma BumpPeer(a: Abs, p: Peer, i: nat, t: nat)
    requires Inv(a) && PeerOk(a, p, i) && t >= p.currentTerm
    ensures Enabled(a, Bump(i, t)) && PeerOk(Apply(a, Bump(i, t)), BecomeFollower(p, t), i)
  {
  }

  lemma GrantPeer(a: Abs, p: Peer, i: nat, v: VoteArgs)
    requires Inv(a) && PeerOk(a, p, i) && VoteReqOk(a, i, v)
    requires v.term == p.currentTerm && p.votedFor == -1 && !IsMoreUpToDate(p, v.lastIndex, v.lastTerm)
    ensures Enabled(a, Grant(i, v.cand))
    ensures PeerOk(Apply(a, Grant(i, v.cand)), Persist(p.(votedFor := v.cand)), i)
  {
    assert LogOk(a, i);
  }

  lemma WinPeer(a: Abs, p: Peer, i: nat, q: Peer)
    requires Inv(a) && PeerOk(a, p, i) && p.role == Candidate
    requires q == p.(votes := q.votes, counted := q.counted)
    requires q.votes == |q.counted| && q.votes > |a.term| / 2
    requires forall v :: v in q.counted ==> v < |a.term| && (p.currentTerm, v) in a.votes
                                            && a.votes[(p.currentTerm, v)].cand == i
    ensures Enabled(a, Win(i, q.counted)) && PeerOk(Apply(a, Win(i, q.counted)), BecomeLeader(q), i)
  {
  }

  lemma CommandPeer(a: Abs, p: Peer, i: nat, c: int)
    requires Inv(a) && PeerOk(a, p, i) && p.role == Leader
    ensures Enabled(a, Append(i, LogEntry(p.currentTerm, true, c)))
    ensures PeerOk(Apply(a, Append(i, LogEntry(p.currentTerm, true, c))), Start(p, c), i)
  {
  }

  lemma TakenOver(log: Log, l: Log, g: AppendArgs)
    requires Carries(l, g) && g.prevIndex < |log| && log[..g.prevIndex + 1] == l[..g.prevIndex + 1]
    ensures AppendFrom(log, g.prevIndex, g.entries) == l[..g.prevIndex + 1 + |g.entries|]
  {
  }

  lemma LogsChain(a: Abs, p: Peer, i: nat, t: nat)
    requires Inv(a) && PeerOk(a, p, i) && t in a.winner
    ensures t in a.leaderLog && Chain(a, p.log) && Chain(a, a.leaderLog[t])
  {
    assert LogOk(a, i) && LeaderOk(a, t);
    hide Chain, Durable, Voted, LeaderRole, CandidateRole;
  }

  /** A request whose probe matches makes the follower's log a prefix of the leader's. */
  lemma AcceptedPrefix(a: Abs, p: Peer, i: nat, g: AppendArgs)
    requires Inv(a) && PeerOk(a, p, i) && AppendReqOk(a, i, g)
    requires g.prevIndex < |p.log| && p.log[g.prevIndex].term == g.prevTerm
    ensures g.term in a.leaderLog && g.prevIndex + 1 + |g.entries| <= |a.leaderLog[g.term]|
    ensures AppendFrom(p.log, g.prevIndex, g.entries) == a.leaderLog[g.term][..g.prevIndex + 1 + |g.entries|]
  {
    hide Inv, PeerOk, Chain, AppendFrom;
    LogsChain(a, p, i, g.term);
    var l := a.leaderLog[g.term];
    LogMatching(a, p.log, l, g.prevIndex);
    TakenOver(p.log, l, g);
  }

  /** What is left of the peer when it takes over entries. */
  lemma AcceptResult(impl: Impl, p: Peer, g: AppendArgs)
    requires g.term >= p.currentTerm && AppendEntries(impl, p, g).1.success
    ensures g.prevIndex < |p.log| && p.log[g.prevIndex].term == g.prevTerm && p.snap <= g.prevIndex
    ensures var r := AppendEntries(impl, p, g).0;
            && r.role == Follower && r.currentTerm == g.term && r.log == AppendFrom(p.log, g.prevIndex, g.entries)
            && r.votedFor == (if g.term > p.currentTerm then -1 else p.votedFor)
            && r.snap == p.snap && r.nextIndex == p.nextIndex && r.matchIndex == p.matchIndex && Durable(r)
            && r.commitIndex == FollowerCommit(impl, p.commitIndex, g.leaderCommit, |r.log| - 1)
  {
  }

  /** No vote is recorded for a term the voter has not reached. */
  lemma NoFutureVote(a: Abs, p: Peer, i: nat, t: nat)
    requires Inv(a) && PeerOk(a, p, i) && t > p.currentTerm
    ensures (t, i) !in a.votes
  {
    assert (t, i) in a.votes ==> VoteOk(a, t, i);
    hide LogsOk, LeadersOk, Chain, Durable, Voted, LeaderRole, CandidateRole;
  }

  lemma AcceptEnabled(a: Abs, p: Peer, i: nat, g: AppendArgs)
    requires |a.term| == |a.log| && PeerOk(a, p, i) && AppendReqOk(a, i, g) && g.term >= p.currentTerm
    ensures var m := g.prevIndex + 1 + |g.entries|;
            && Enabled(a, Accept(i, g.term, m))
            && var b := Apply(a, Accept(i, g.term, m));
               && |b.term| == |b.log| == |a.term| && i < |b.term|
               && b.term[i] == g.term && b.log[i] == a.leaderLog[g.term][..m] && b.votes == a.votes
  {
    hide Carries, Durable, Voted, LeaderRole, CandidateRole;
  }

  lemma AcceptPeer(impl: Impl, a: Abs, p: Peer, i: nat, g: AppendArgs)
    requires Inv(a) && PeerOk(a, p, i) && AppendReqOk(a, i, g)
    requires g.term >= p.currentTerm && AppendEntries(impl, p, g).1.success
    ensures var st := Accept(i, g.term, g.prevIndex + 1 + |g.entries|);
            Enabled(a, st) && PeerOk(Apply(a, st), AppendEntries(impl, p, g).0, i)
  {
    hide Inv, Apply, Enabled, AppendEntries, Durable, AppendFrom, FollowerCommit, AppendReqOk, PeerOk;
    AcceptResult(impl, p, g);
    AcceptedPrefix(a, p, i, g);
    LogsSized(a);
    AcceptEnabled(a, p, i, g);
    if g.term > p.currentTerm {
      NoFutureVote(a, p, i, g.term);
    }
    var st := Accept(i, g.term, g.prevIndex + 1 + |g.entries|);
    FollowerOk(a, Apply(a, st), p, AppendEntries(impl, p, g).0, i);
  }

  lemma LogsSized(a: Abs)
    requires Inv(a)
    ensures |a.term| == |a.log|
  {
  }

  /** A peer that follows, in its own term or a later one, agrees with the record when its term and log do. */
  lemma FollowerOk(a: Abs, b: Abs, p: Peer, r: Peer, i: nat)
    requires PeerOk(a, p, i) && |b.term| == |b.log| == |a.term| && b.votes == a.votes
    requires r.role == Follower && r.currentTerm == b.term[i] >= p.currentTerm && r.log == b.log[i] && Durable(r)
    requires r.nextIndex == p.nextIndex && r.matchIndex == p.matchIndex
    requires r.votedFor == if r.currentTerm > p.currentTerm then -1 else p.votedFor
    requires r.currentTerm > p.currentTerm ==> (r.currentTerm, i) !in a.votes
    ensures PeerOk(b, r, i)
  {
    hide Durable;
  }

  /** The fields the record speaks about. */
  ghost predicate SameCore(p: Peer, q: Peer) {
    && q.role == p.role && q.currentTerm == p.currentTerm && q.votedFor == p.votedFor && q.log == p.log
    && q.votes == p.votes && q.counted == p.counted && q.snap == p.snap && q.disk == p.disk
    && |q.nextIndex| == |p.nextIndex| && |q.matchIndex| == |p.matchIndex|
  }

  lemma SameCoreOk(a: Abs, p: Peer, q: Peer, i: nat)
    requires PeerOk(a, p, i) && SameCore(p, q)
    ensures PeerOk(a, q, i)
  {
  }

  lemma AppendReplyCore(impl: Impl, p: Peer, q: nat, term: nat, prev: nat, len: nat, reply: AppendReply)
    requires reply.term <= p.currentTerm
    ensures SameCore(p, HandleAppendReply(impl, p, q, term, prev, len, reply))
  {
  }

  // ------------------------------------------------------------------
  // A whole step of the cluster

  /** Everything but the acting peer and its new messages, after one abstract step. */
  ghost predicate RestOk(s: Sys, b: Abs, i: nat) {
    && Inv(b) && |b.term| == |s.peers|
    && (forall j :: 0 <= j < |s.peers| && j != i ==> PeerOk(b, s.peers[j], j))
    && (forall m :: m in s.msgs ==> MsgOk(b, m))
  }

  lemma RestKept(s: Sys, a: Abs, st: Step)
    requires RestOk(s, a, st.i) && Enabled(a, st)
    ensures RestOk(s, Apply(a, st), st.i)
  {
    InvKept(a, st);
    VotesFrame(a, st);
    forall j | 0 <= j < |s.peers| && j != st.i ensures PeerOk(Apply(a, st), s.peers[j], j) {
      hide Apply, Enabled, Inv;
      OtherPeerKept(a, st, s.peers[j], j);
    }
    forall m | m in s.msgs ensures MsgOk(Apply(a, st), m) {
      hide Apply, Enabled, Inv;
      MsgKept(a, st, m);
    }
    hide Apply, Enabled, Inv, PeerOk, MsgOk;
  }

  lemma ActingCalls(s: Sys, act: Action)
    requires Can(s, act) && CallsOk(s.peers[act.i], act.i, s.answered)
    ensures CallsOk(PeerAfter(s, act), act.i, AnsweredAfter(s, act))
  {
    hide FirstFor, BackUp;
  }

  lemma CallsKept(s: Sys, act: Action)
    requires SysInv(s) && Can(s, act)
    ensures forall i :: 0 <= i < |s.peers| ==> CallsOk(After(s, act).peers[i], i, After(s, act).answered)
  {
    hide PeerAfter, NewMessages, Trace, Evolve, Inv, PeerOk, MsgOk;
    ActingCalls(s, act);
  }

  lemma Compose(s: Sys, act: Action)
    requires SysInv(s) && Can(s, act)
    requires var b := Evolve(s.abs, Trace(s, act));
             && RestOk(s, b, act.i) && PeerOk(b, PeerAfter(s, act), act.i)
             && forall m :: m in NewMessages(s, act) ==> MsgOk(b, m)
    ensures SysInv(After(s, act))
  {
    hide Evolve, Trace, PeerAfter, NewMessages, Inv, PeerOk, MsgOk, CallsOk;
    CallsKept(s, act);
  }

  lemma EvolveOne(a: Abs, st: Step)
    requires Enabled(a, st)
    ensures AllEnabled(a, [st]) && Evolve(a, [st]) == Apply(a, st)
  {
    assert [st][1..] == [];
    hide Apply, Enabled;
    assert AllEnabled(Apply(a, st), []) && Evolve(Apply(a, st), []) == Apply(a, st);
  }

  lemma EvolveTwo(a: Abs, st: Step, su: Step)
    requires Enabled(a, st) && Enabled(Apply(a, st), su)
    ensures AllEnabled(a, [st, su]) && Evolve(a, [st, su]) == Apply(Apply(a, st), su)
  {
    assert [st, su][1..] == [su];
    hide Apply, Enabled;
    EvolveOne(Apply(a, st), su);
  }

  /** What a step must show: the record can follow it, and the invariant holds afterwards. */
  ghost predicate StepOk(s: Sys, act: Action)
    requires Can(s, act)
  {
    AllEnabled(s.abs, Trace(s, act)) && SysInv(After(s, act))
  }

  lemma OneStep(s: Sys, act: Action, st: Step)
    requires SysInv(s) && Can(s, act) && Trace(s, act) == [st] && st.i == act.i && Enabled(s.abs, st)
    requires PeerOk(Apply(s.abs, st), PeerAfter(s, act), act.i)
    requires forall m :: m in NewMessages(s, act) ==> MsgOk(Apply(s.abs, st), m)
    ensures StepOk(s, act)
  {
    hide Apply, Enabled, Inv, PeerOk, MsgOk, Trace, PeerAfter, NewMessages, Evolve, AllEnabled, CallsOk, Can, After;
    EvolveOne(s.abs, st);
    RestKept(s, s.abs, st);
    Compose(s, act);
  }

  lemma NoStep(s: Sys, act: Action)
    requires SysInv(s) && Can(s, act) && Trace(s, act) == []
    requires PeerOk(s.abs, PeerAfter(s, act), act.i)
    requires forall m :: m in NewMessages(s, act) ==> MsgOk(s.abs, m)
    ensures StepOk(s, act)
  {
    hide Inv, PeerOk, MsgOk, Trace, PeerAfter, NewMessages, Evolve, AllEnabled, CallsOk, Can, After;
    EvolveNone(s.abs);
    Compose(s, act);
  }

  lemma EvolveNone(a: Abs)
    ensures AllEnabled(a, []) && Evolve(a, []) == a
  {
  }

  lemma TimeoutStep(s: Sys, act: Action)
    requires SysInv(s) && Can(s, act) && act.Timeout?
    ensures StepOk(s, act)
  {
    CandidacyPeer(s.abs, s.peers[act.i], act.i);
    OneStep(s, act, Candidacy(act.i));
  }

  lemma AskStep(s: Sys, act: Action)
    requires SysInv(s) && Can(s, act) && act.Ask?
    ensures StepOk(s, act)
  {
    assert PeerOk(s.abs, s.peers[act.i], act.i);
    assert LogOk(s.abs, act.i);
    NoStep(s, act);
  }

  lemma CommandStep(s: Sys, act: Action)
    requires SysInv(s) && Can(s, act) && act.Command?
    ensures StepOk(s, act)
  {
    CommandPeer(s.abs, s.peers[act.i], act.i, act.c);
    OneStep(s, act, Append(act.i, LogEntry(s.peers[act.i].currentTerm, true, act.c)));
  }

  lemma SendStep(s: Sys, act: Action)
    requires SysInv(s) && Can(s, act) && act.Send?
    ensures StepOk(s, act)
  {
    hide Inv, PeerOk, MsgOk, Replicate, AppendReqOk, CallsOk, After;
    SendOk(s.abs, s.peers[act.i], act.i, act.q);
    assert forall m :: m in NewMessages(s, act) ==> MsgOk(s.abs, m) by {
      NewRequestOk(s, act);
    }
    NoStep(s, act);
  }

  lemma NewRequestOk(s: Sys, act: Action)
    requires Can(s, act) && act.Send? && AppendReqOk(s.abs, act.q, Replicate(s.peers[act.i], act.i, act.q).value)
    ensures forall m :: m in NewMessages(s, act) ==> MsgOk(s.abs, m)
  {
    hide Replicate, AppendReqOk;
  }

  lemma SendOk(a: Abs, p: Peer, i: nat, q: nat)
    requires Inv(a) && PeerOk(a, p, i) && q < |a.term| && q != i && Replicate(p, i, q).Some?
    ensures AppendReqOk(a, q, Replicate(p, i, q).value)
  {
    assert LeaderOk(a, p.currentTerm);
  }

  lemma LocalPeer(a: Abs, p: Peer, i: nat, index: nat)
    requires PeerOk(a, p, i)
    ensures PeerOk(a, MatchSelf(p, i), i) && PeerOk(a, Compact(p, index), i)
  {
  }

  /** A crash loses nothing that counts: what the disk holds is what the peer held. */
  lemma CrashPeer(a: Abs, p: Peer, i: nat)
    requires PeerOk(a, p, i)
    ensures PeerOk(a, Restart(p, |a.term|), i)
    ensures var r := Restart(p, |a.term|);
            r.currentTerm == p.currentTerm && r.votedFor == p.votedFor && r.log == p.log && r.snap == p.snap
  {
  }

  lemma LocalStep(s: Sys, act: Action)
    requires SysInv(s) && Can(s, act) && (act.SelfMatch? || act.TakeSnapshot? || act.Crash?)
    ensures StepOk(s, act)
  {
    assert PeerOk(s.abs, s.peers[act.i], act.i);
    LocalPeer(s.abs, s.peers[act.i], act.i, if act.TakeSnapshot? then act.index else 0);
    CrashPeer(s.abs, s.peers[act.i], act.i);
    hide PeerOk, MatchSelf, Compact, Restart, Inv, StepOk;
    NoStep(s, act);
  }

  lemma VoteRepStep(s: Sys, act: Action)
    requires SysInv(s) && Can(s, act) && act.RecvVoteRep?
    ensures StepOk(s, act)
  {
    var p, m, i := s.peers[act.i], act.m, act.i;
    assert PeerOk(s.abs, p, i) && MsgOk(s.abs, m) && CallsOk(p, i, s.answered);
    if m.vreply.term > p.currentTerm {
      BumpPeer(s.abs, p, i, m.vreply.term);
      OneStep(s, act, Bump(i, m.vreply.term));
    } else if p.role == Candidate && PeerAfter(s, act).role == Leader {
      var q := p.(votes := p.votes + 1, counted := p.counted + {m.voter});
      WinPeer(s.abs, p, i, q);
      OneStep(s, act, Win(i, q.counted));
    } else {
      CountedPeer(s.abs, p, i, m);
      NoStep(s, act);
    }
  }

  lemma CountedPeer(a: Abs, p: Peer, i: nat, m: Message)
    requires PeerOk(a, p, i) && MsgOk(a, m) && m.VoteRep? && m.cand == i
    requires p.role == Candidate && m.vterm == p.currentTerm ==> m.voter !in p.counted
    requires m.vreply.term <= p.currentTerm
    requires !(p.role == Candidate && HandleVoteReply(p, m.voter, m.vterm, |a.term|, m.vreply).role == Leader)
    ensures PeerOk(a, HandleVoteReply(p, m.voter, m.vterm, |a.term|, m.vreply), i)
  {
  }

  lemma AppendRepStep(s: Sys, act: Action)
    requires SysInv(s) && Can(s, act) && act.RecvAppendRep?
    ensures StepOk(s, act)
  {
    var p, m, i := s.peers[act.i], act.m, act.i;
    assert PeerOk(s.abs, p, i);
    if m.areply.term > p.currentTerm {
      BumpPeer(s.abs, p, i, m.areply.term);
      OneStep(s, act, Bump(i, m.areply.term));
    } else {
      AppendReplyCore(s.impl, p, m.from, m.aterm, m.prev, m.len, m.areply);
      hide HandleAppendReply, SameCore, PeerOk, Inv;
      SameCoreOk(s.abs, p, PeerAfter(s, act), i);
      NoStep(s, act);
    }
  }

  lemma AppendReqShape(s: Sys, act: Action)
    requires Can(s, act) && act.RecvAppendReq? && act.m.args.term >= s.peers[act.i].currentTerm
    ensures PeerAfter(s, act) == AppendEntries(s.impl, s.peers[act.i], act.m.args).0
    ensures forall b, m :: m in NewMessages(s, act) ==> MsgOk(b, m)
    ensures var g := act.m.args;
            Trace(s, act) == [if AppendEntries(s.impl, s.peers[act.i], g).1.success
                              then Accept(act.i, g.term, g.prevIndex + 1 + |g.entries|) else Bump(act.i, g.term)]
  {
    hide AppendEntries;
  }

  /** What holds of the receiver of an append request. */
  lemma AppendReqFacts(s: Sys, act: Action)
    requires SysInv(s) && Can(s, act) && act.RecvAppendReq?
    ensures Inv(s.abs) && PeerOk(s.abs, s.peers[act.i], act.i)
    ensures act.m.AppendReq? && AppendReqOk(s.abs, act.i, act.m.args)
  {
    assert MsgOk(s.abs, act.m);
    hide Inv, PeerOk, AppendReqOk, VoteReqOk;
  }

  lemma AcceptStep(s: Sys, act: Action)
    requires SysInv(s) && Can(s, act) && act.RecvAppendReq?
    requires act.m.args.term >= s.peers[act.i].currentTerm
    requires AppendEntries(s.impl, s.peers[act.i], act.m.args).1.success
    ensures StepOk(s, act)
  {
    hide Apply, Enabled, Inv, PeerOk, AppendEntries, AppendReqOk, Trace, PeerAfter, NewMessages, StepOk, SysInv, MsgOk;
    AppendReqShape(s, act);
    AppendReqFacts(s, act);
    var p, g, i := s.peers[act.i], act.m.args, act.i;
    AcceptPeer(s.impl, s.abs, p, i, g);
    OneStep(s, act, Accept(i, g.term, g.prevIndex + 1 + |g.entries|));
  }

  lemma RejectResult(impl: Impl, p: Peer, g: AppendArgs)
    requires g.term >= p.currentTerm && !AppendEntries(impl, p, g).1.success
    ensures AppendEntries(impl, p, g).0 == BecomeFollower(p, g.term)
  {
  }

  lemma RejectStep(s: Sys, act: Action)
    requires SysInv(s) && Can(s, act) && act.RecvAppendReq?
    requires act.m.args.term >= s.peers[act.i].currentTerm
    requires !AppendEntries(s.impl, s.peers[act.i], act.m.args).1.success
    ensures StepOk(s, act)
  {
    hide Apply, Enabled, Inv, PeerOk, AppendEntries, AppendReqOk, Trace, PeerAfter, NewMessages, StepOk, SysInv,
         MsgOk, BecomeFollower;
    RejectResult(s.impl, s.peers[act.i], act.m.args);
    AppendReqShape(s, act);
    AppendReqFacts(s, act);
    var p, g, i := s.peers[act.i], act.m.args, act.i;
    BumpPeer(s.abs, p, i, g.term);
    OneStep(s, act, Bump(i, g.term));
  }

  lemma AppendReqStep(s: Sys, act: Action)
    requires SysInv(s) && Can(s, act) && act.RecvAppendReq?
    ensures StepOk(s, act)
  {
    if act.m.args.term < s.peers[act.i].currentTerm {
      assert PeerOk(s.abs, s.peers[act.i], act.i);
      NoStep(s, act);
    } else if AppendEntries(s.impl, s.peers[act.i], act.m.args).1.success {
      AcceptStep(s, act);
    } else {
      RejectStep(s, act);
    }
  }

  // ------------------------------------------------------------------
  // A request for a vote may both move the peer to a new term and win its vote

  ghost predicate Grants(impl: Impl, p: Peer, v: VoteArgs) {
    RequestVote(impl, p, v).1.granted && (v.term > p.currentTerm || p.votedFor == -1)
  }

  lemma VoteStale(s: Sys, act: Action)
    requires SysInv(s) && Can(s, act) && act.RecvVoteReq? && act.m.vargs.term < s.peers[act.i].currentTerm
    ensures StepOk(s, act)
  {
    assert PeerOk(s.abs, s.peers[act.i], act.i);
    NoStep(s, act);
  }

  lemma VoteSameTerm(s: Sys, act: Action)
    requires SysInv(s) && Can(s, act) && act.RecvVoteReq? && act.m.vargs.term == s.peers[act.i].currentTerm
    ensures StepOk(s, act)
  {
    var p, v, i := s.peers[act.i], act.m.vargs, act.i;
    assert PeerOk(s.abs, p, i) && MsgOk(s.abs, act.m);
    if Grants(s.impl, p, v) {
      GrantPeer(s.abs, p, i, v);
      OneStep(s, act, Grant(i, v.cand));
    } else {
      NoStep(s, act);
    }
  }

  lemma VoteNewTerm(s: Sys, act: Action)
    requires SysInv(s) && Can(s, act) && act.RecvVoteReq? && act.m.vargs.term > s.peers[act.i].currentTerm
    requires !Grants(s.impl, s.peers[act.i], act.m.vargs)
    ensures StepOk(s, act)
  {
    var p, v, i := s.peers[act.i], act.m.vargs, act.i;
    assert PeerOk(s.abs, p, i);
    BumpPeer(s.abs, p, i, v.term);
    OneStep(s, act, Bump(i, v.term));
  }

  lemma VoteNewTermGranted(s: Sys, act: Action)
    requires SysInv(s) && Can(s, act) && act.RecvVoteReq? && act.m.vargs.term > s.peers[act.i].currentTerm
    requires Grants(s.impl, s.peers[act.i], act.m.vargs)
    ensures StepOk(s, act)
  {
    var p, v, i := s.peers[act.i], act.m.vargs, act.i;
    var bump, grant := Bump(i, v.term), Grant(i, v.cand);
    assert PeerOk(s.abs, p, i) && MsgOk(s.abs, act.m);
    BumpPeer(s.abs, p, i, v.term);
    var a := Apply(s.abs, bump);
    var q := BecomeFollower(p, v.term);
    MsgKept(s.abs, bump, act.m);
    InvKept(s.abs, bump);
    GrantPeer(a, q, i, v);
    var b := Apply(a, grant);
    assert Trace(s, act) == [bump, grant];
    assert PeerAfter(s, act) == Persist(q.(votedFor := v.cand));
    assert forall m :: m in NewMessages(s, act) ==> MsgOk(b, m) by {
      assert PeerOk(b, PeerAfter(s, act), i);
    }
    hide Apply, Enabled, Inv, PeerOk, MsgOk, Trace, PeerAfter, NewMessages, Evolve, AllEnabled;
    EvolveTwo(s.abs, bump, grant);
    RestKept(s, s.abs, bump);
    RestKept(s, a, grant);
    Compose(s, act);
  }

  lemma VoteReqStep(s: Sys, act: Action)
    requires SysInv(s) && Can(s, act) && act.RecvVoteReq?
    ensures StepOk(s, act)
  {
    if act.m.vargs.term < s.peers[act.i].currentTerm {
      VoteStale(s, act);
    } else if act.m.vargs.term == s.peers[act.i].currentTerm {
      VoteSameTerm(s, act);
    } else if Grants(s.impl, s.peers[act.i], act.m.vargs) {
      VoteNewTermGranted(s, act);
    } else {
      VoteNewTerm(s, act);
    }
  }

  /** Every event keeps the invariant, and the record can follow every event. */
  lemma SysKept(s: Sys, act: Action)
    requires SysInv(s) && Can(s, act)
    ensures StepOk(s, act)
  {
    hide StepOk, SysInv;
    match act
    case Timeout(_) => TimeoutStep(s, act);
    case Ask(_, _) => AskStep(s, act);
    case RecvVoteReq(_, _) => VoteReqStep(s, act);
    case RecvVoteRep(_, _) => VoteRepStep(s, act);
    case Command(_, _) => CommandStep(s, act);
    case Send(_, _) => SendStep(s, act);
    case SelfMatch(_) => LocalStep(s, act);
    case RecvAppendReq(_, _) => AppendReqStep(s, act);
    case RecvAppendRep(_, _) => AppendRepStep(s, act);
    case TakeSnapshot(_, _) => LocalStep(s, act);
    case Crash(_) => LocalStep(s, act);
  }
}
