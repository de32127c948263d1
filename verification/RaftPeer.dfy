/** One Raft peer as a value, and each of its handlers as a function on that
    value. A peer's log is written out in full; `snap` says up to which index
    it has been replaced by a snapshot. The repository implements the peer
    twice; where the two differ, `Impl` tells which one is meant. */
module RaftPeer {
  import opened Basics
  import opened RaftAbstract
  import opened CommitIndex

  datatype Impl = Lab | Library

  datatype Role = Follower | Candidate | Leader

  /** What survives a crash. */
  datatype Disk = Disk(term: nat, votedFor: int, log: Log, snap: nat)

  datatype Peer = Peer(
    role: Role,
    currentTerm: nat,
    votedFor: int,                 // -1 means none
    log: Log,
    snap: nat,
    nextIndex: seq<int>,
    matchIndex: seq<int>,
    commitIndex: nat,
    votes: nat,                    // votes counted in the current candidacy,
    counted: set<nat>,             //   and the peers they came from
    disk: Option<Disk>)            // nothing before the first write

  const INVALID_TERM := 0
  const INVALID_INDEX := 0

  datatype VoteArgs = VoteArgs(term: nat, cand: nat, lastIndex: int, lastTerm: nat)
  datatype VoteReply = VoteReply(term: nat, granted: bool)
  datatype AppendArgs = AppendArgs(
    term: nat, leader: nat, prevIndex: nat, prevTerm: nat, entries: Log, leaderCommit: nat)
  datatype AppendReply = AppendReply(term: nat, success: bool, conflictIndex: int, conflictTerm: nat)

  function Zeros(n: nat): seq<int> {
    seq(n, _ => 0)
  }

  function NewPeer(n: nat): Peer {
    Peer(Follower, 1, -1, [DUMMY], 0, Zeros(n), Zeros(n), 0, 0, {}, None)
  }

  function Persist(p: Peer): Peer {
    p.(disk := Some(Disk(p.currentTerm, p.votedFor, p.log, p.snap)))
  }

  /** A peer started again from its disk. */
  function Restart(p: Peer, n: nat): Peer {
    match p.disk
    case None => NewPeer(n)
    case Some(d) => Peer(Follower, d.term, d.votedFor, d.log, d.snap, Zeros(n), Zeros(n), d.snap, 0, {}, p.disk)
  }

  function BecomeFollower(p: Peer, term: nat): Peer {
    if term < p.currentTerm then p
    else
      var q := p.(role := Follower, currentTerm := term, votedFor := if term > p.currentTerm then -1 else p.votedFor);
      if term != p.currentTerm then Persist(q) else q
  }

  /** The candidate's own vote is counted at once. */
  function BecomeCandidate(p: Peer, me: nat): Peer {
    if p.role == Leader then p
    else Persist(p.(role := Candidate, currentTerm := p.currentTerm + 1, votedFor := me, votes := 1, counted := {me}))
  }

  function BecomeLeader(p: Peer): Peer {
    if p.role != Candidate then p
    else p.(role := Leader, nextIndex := seq(|p.nextIndex|, _ => |p.log|), matchIndex := Zeros(|p.matchIndex|))
  }

  function LastIndex(p: Peer): int {
    |p.log| - 1
  }

  function LastTerm(p: Peer): nat {
    if p.log == [] then 0 else p.log[|p.log| - 1].term
  }

  predicate IsMoreUpToDate(p: Peer, candIndex: int, candTerm: nat) {
    if LastTerm(p) != candTerm then LastTerm(p) > candTerm else LastIndex(p) > candIndex
  }

  function RequestVote(impl: Impl, p: Peer, args: VoteArgs): (Peer, VoteReply) {
    if args.term < p.currentTerm then (p, VoteReply(p.currentTerm, false))
    else
      var q := if args.term > p.currentTerm then BecomeFollower(p, args.term) else p;
      var t := if impl == Lab then p.currentTerm else q.currentTerm;
      if q.votedFor != -1 && !(impl == Library && q.votedFor == args.cand) then (q, VoteReply(t, false))
      else if IsMoreUpToDate(q, args.lastIndex, args.lastTerm) then (q, VoteReply(t, false))
      else (Persist(q.(votedFor := args.cand)), VoteReply(t, true))
  }

  /** The first index at or after `i` holding `term`, giving up at a greater term. */
  function FirstFor(log: Log, term: nat, i: nat): int
    decreases |log| - i
  {
    if i >= |log| then INVALID_INDEX
    else if log[i].term == term then i
    else if log[i].term > term then INVALID_INDEX
    else FirstFor(log, term, i + 1)
  }

  function AppendFrom(log: Log, prevIndex: nat, entries: Log): Log
    requires prevIndex < |log|
  {
    log[..prevIndex + 1] + entries
  }

  function AppendEntries(impl: Impl, p: Peer, args: AppendArgs): (Peer, AppendReply) {
    if args.term < p.currentTerm then (p, AppendReply(p.currentTerm, false, 0, 0))
    else
      var q := BecomeFollower(p, args.term);
      if args.prevIndex >= |q.log| then (q, AppendReply(p.currentTerm, false, |q.log|, INVALID_TERM))
      else if args.prevIndex < q.snap then
        (q, AppendReply(p.currentTerm, false, q.snap, if q.snap < |q.log| then q.log[q.snap].term else 0))
      else if q.log[args.prevIndex].term != args.prevTerm then
        var t := q.log[args.prevIndex].term;
        (q, AppendReply(p.currentTerm, false, FirstFor(q.log, t, q.snap), t))
      else
        var r := Persist(q.(log := AppendFrom(q.log, args.prevIndex, args.entries)));
        (r.(commitIndex := FollowerCommit(impl, r.commitIndex, args.leaderCommit, |r.log| - 1)),
         AppendReply(p.currentTerm, true, 0, 0))
  }

  function FollowerCommit(impl: Impl, commitIndex: nat, leaderCommit: nat, last: int): nat {
    if leaderCommit <= commitIndex then commitIndex
    else if impl == Library && leaderCommit > last then (if last < 0 then 0 else last)
    else leaderCommit
  }

  function Start(p: Peer, command: int): Peer {
    if p.role != Leader then p
    else Persist(p.(log := p.log + [LogEntry(p.currentTerm, true, command)]))
  }

  /** The request for peer `q`: all of the log from `nextIndex` on, or none when
      that part of the log is gone and a snapshot is due instead. */
  function Replicate(p: Peer, me: nat, q: nat): Option<AppendArgs> {
    if p.role == Leader && q < |p.nextIndex| && p.snap <= p.nextIndex[q] - 1 < |p.log| then
      var prev := p.nextIndex[q] - 1;
      Some(AppendArgs(p.currentTerm, me, prev, p.log[prev].term, p.log[prev + 1..], p.commitIndex))
    else None
  }

  function MatchSelf(p: Peer, me: nat): Peer {
    if p.role == Leader && me < |p.nextIndex| && me < |p.matchIndex| then
      p.(nextIndex := p.nextIndex[me := |p.log|], matchIndex := p.matchIndex[me := |p.log| - 1])
    else p
  }

  predicate ContextLost(p: Peer, role: Role, term: nat) {
    !(p.currentTerm == term && p.role == role)
  }

  function HandleVoteReply(p: Peer, from: nat, term: nat, n: nat, reply: VoteReply): Peer {
    if reply.term > p.currentTerm then BecomeFollower(p, reply.term)
    else if ContextLost(p, Candidate, term) || !reply.granted then p
    else
      var q := p.(votes := p.votes + 1, counted := p.counted + {from});
      if q.votes > n / 2 then BecomeLeader(q) else q
  }

  function BackUp(impl: Impl, p: Peer, next: int, prev: nat, reply: AppendReply): int {
    var first := FirstFor(p.log, reply.conflictTerm, p.snap);
    var to := if reply.conflictTerm != INVALID_TERM && first != INVALID_INDEX then first else reply.conflictIndex;
    match impl
    case Lab => if to > next then next else to
    case Library =>
      var capped := if to > prev + 1 then prev + 1 else to;
      if capped < p.snap + 1 then p.snap + 1 else capped
  }

  function UpdateCommit(p: Peer): Peer {
    if |p.matchIndex| == 0 then p
    else
      var k := MajorityIndex(p.matchIndex);
      if k > p.commitIndex && p.snap <= k < |p.log| && p.log[k].term == p.currentTerm
      then p.(commitIndex := k) else p
  }

  function HandleAppendReply(impl: Impl, p: Peer, q: nat, term: nat, prev: nat, len: nat, reply: AppendReply): Peer {
    if reply.term > p.currentTerm then BecomeFollower(p, reply.term)
    else if ContextLost(p, Leader, term) || q >= |p.nextIndex| || q >= |p.matchIndex| then p
    else if !reply.success then p.(nextIndex := p.nextIndex[q := BackUp(impl, p, p.nextIndex[q], prev, reply)])
    else UpdateCommit(p.(matchIndex := p.matchIndex[q := prev + len], nextIndex := p.nextIndex[q := prev + len + 1]))
  }

  function Compact(p: Peer, index: nat): Peer {
    if index > p.commitIndex || index <= p.snap then p
    else Persist(if index >= |p.log| then p else p.(snap := index))
  }
}
