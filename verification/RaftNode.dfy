/** The peer as the program keeps it: objects whose fields the handlers update
    in place. `RaftLog` holds only the part of the log after its snapshot; its
    ghost field `full` is the log as if nothing had been cut off. Each method is
    tied to the function on peers that models it. */
module RaftNode {
  import opened Basics
  import opened RaftAbstract
  import opened RaftPeer
  import opened CommitIndex

  /** The tail kept of `full` when everything up to `snap` is in a snapshot:
      a stand-in for entry `snap` that has only its term, then the entries after it. */
  ghost function Window(full: Log, snap: nat): Log
    requires snap < |full|
  {
    [LogEntry(full[snap].term, false, 0)] + full[snap + 1..]
  }

  class RaftLog {
    var snapLastIdx: nat
    var snapLastTerm: nat
    var tailLog: Log
    ghost var full: Log

    ghost predicate Valid()
      reads this
    {
      && snapLastIdx < |full|
      && snapLastTerm == full[snapLastIdx].term
      && tailLog == Window(full, snapLastIdx)
    }

    constructor ()
      ensures Valid() && full == [DUMMY] && snapLastIdx == 0
    {
      snapLastIdx, snapLastTerm, tailLog, full := 0, INVALID_TERM, [LogEntry(INVALID_TERM, false, 0)], [DUMMY];
    }

    method Size() returns (n: nat)
      requires Valid()
      ensures n == |full|
    {
      n := snapLastIdx + |tailLog|;
    }

    method At(logicIdx: nat) returns (e: LogEntry)
      requires Valid() && snapLastIdx <= logicIdx < |full|
      ensures e.term == full[logicIdx].term
      ensures logicIdx > snapLastIdx ==> e == full[logicIdx]
    {
      e := tailLog[logicIdx - snapLastIdx];
    }

    method Last() returns (index: nat, term: nat)
      requires Valid()
      ensures index == |full| - 1 && term == full[index].term
    {
      var i := |tailLog| - 1;
      index, term := snapLastIdx + i, tailLog[i].term;
    }

    method FirstFor(term: nat) returns (r: int)
      requires Valid()
      ensures r == RaftPeer.FirstFor(full, term, snapLastIdx)
    {
      var i := 0;
      while i < |tailLog|
        invariant 0 <= i <= |tailLog|
        invariant RaftPeer.FirstFor(full, term, snapLastIdx) == RaftPeer.FirstFor(full, term, snapLastIdx + i)
      {
        assert tailLog[i].term == full[snapLastIdx + i].term;
        if tailLog[i].term == term {
          return i + snapLastIdx;
        } else if tailLog[i].term > term {
          break;
        }
        i := i + 1;
      }
      r := INVALID_INDEX;
    }

    method Tail(startIdx: nat) returns (r: Log)
      requires Valid()
      ensures startIdx > snapLastIdx ==> r == if startIdx <= |full| then full[startIdx..] else []
      ensures startIdx <= snapLastIdx ==> r == tailLog
    {
      if startIdx >= snapLastIdx + |tailLog| {
        r := [];
      } else {
        var from := if startIdx < snapLastIdx then snapLastIdx else startIdx;
        r := tailLog[from - snapLastIdx..];
      }
    }

    method Append(e: LogEntry)
      requires Valid()
      modifies this
      ensures Valid() && full == old(full) + [e] && snapLastIdx == old(snapLastIdx)
    {
      tailLog := tailLog + [e];
      full := full + [e];
      assert full[snapLastIdx + 1..] == old(full)[snapLastIdx + 1..] + [e];
    }

    method AppendFrom(logicPrevIndex: nat, entries: Log)
      requires Valid() && snapLastIdx <= logicPrevIndex < |full|
      modifies this
      ensures Valid() && full == RaftPeer.AppendFrom(old(full), logicPrevIndex, entries)
      ensures snapLastIdx == old(snapLastIdx)
    {
      tailLog := tailLog[..logicPrevIndex - snapLastIdx + 1] + entries;
      full := RaftPeer.AppendFrom(full, logicPrevIndex, entries);
      assert full[snapLastIdx + 1..] == old(full)[snapLastIdx + 1..logicPrevIndex + 1] + entries;
    }

    /** Cuts the log at `index`; the full log is what it was. */
    method DoSnapshot(index: nat)
      requires Valid()
      modifies this
      ensures Valid() && full == old(full)
      ensures snapLastIdx == if old(snapLastIdx) < index < |full| then index else old(snapLastIdx)
    {
      if index <= snapLastIdx || index >= snapLastIdx + |tailLog| {
        return;
      }
      var i := index - snapLastIdx;
      snapLastIdx, snapLastTerm := index, tailLog[i].term;
      tailLog := [LogEntry(snapLastTerm, false, 0)] + tailLog[i + 1..];
    }
  }

  ghost function TakenOver(impl: Impl, p: Peer, args: AppendArgs): Peer
    requires args.prevIndex < |p.log|
  {
    var r := RaftPeer.Persist(p.(log := RaftPeer.AppendFrom(p.log, args.prevIndex, args.entries)));
    r.(commitIndex := FollowerCommit(impl, r.commitIndex, args.leaderCommit, |r.log| - 1))
  }

  /** What the persister holds. */
  datatype Saved = Saved(term: nat, votedFor: int, snapLastIdx: nat, snapLastTerm: nat, tailLog: Log)

  class Raft {
    const impl: Impl
    const me: nat
    const n: nat
    var role: Role
    var currentTerm: nat
    var votedFor: int
    const log: RaftLog
    const nextIndex: array<int>
    const matchIndex: array<int>
    var commitIndex: nat
    var votes: nat
    var persister: Option<Saved>
    ghost var counted: set<nat>
    ghost var savedLog: Log

    ghost predicate SavedOk()
      reads this
    {
      match persister
      case None => true
      case Some(d) =>
        d.snapLastIdx < |savedLog| && d.snapLastTerm == savedLog[d.snapLastIdx].term &&
            d.tailLog == Window(savedLog, d.snapLastIdx)
    }

    ghost predicate Valid()
      reads this, log
    {
      && log.Valid() && SavedOk()
      && me < n && nextIndex != matchIndex && nextIndex.Length == n && matchIndex.Length == n
    }

    ghost function View(): Peer
      requires Valid()
      reads this, log, nextIndex, matchIndex
    {
      Peer(role, currentTerm, votedFor, log.full, log.snapLastIdx, nextIndex[..], matchIndex[..], commitIndex,
          votes, counted,
           match persister
           case None => None
           case Some(d) => Some(Disk(d.term, d.votedFor, savedLog, d.snapLastIdx)))
    }

    constructor (impl: Impl, me: nat, n: nat)
      requires me < n
      ensures Valid() && fresh(log) && fresh(nextIndex) && fresh(matchIndex)
      ensures View() == NewPeer(n)
    {
      this.impl, this.me, this.n := impl, me, n;
      role, currentTerm, votedFor := Follower, 1, -1;
      log := new RaftLog();
      nextIndex := new int[n](_ => 0);
      matchIndex := new int[n](_ => 0);
      commitIndex, votes, counted := 0, 0, {};
      persister, savedLog := None, [];
      new;
      assert nextIndex[..] == Zeros(n) && matchIndex[..] == Zeros(n);
    }

    method Persist()
      requires Valid()
      modifies this`persister, this`savedLog
      ensures Valid() && View() == RaftPeer.Persist(old(View()))
    {
      persister := Some(Saved(currentTerm, votedFor, log.snapLastIdx, log.snapLastTerm, log.tailLog));
      savedLog := log.full;
    }

    method Zero(a: array<int>)
      modifies a
      ensures a[..] == Zeros(a.Length)
    {
      var i := 0;
      while i < a.Length
        invariant 0 <= i <= a.Length
        invariant forall k :: 0 <= k < i ==> a[k] == 0
      {
        a[i] := 0;
        i := i + 1;
      }
    }

    /** Everything but the persister as in a new process. */
    method Reset()
      requires Valid()
      modifies this, log, nextIndex, matchIndex
      ensures Valid() && View() == NewPeer(n).(disk := old(View()).disk)
      ensures persister == old(persister) && savedLog == old(savedLog)
    {
      role, currentTerm, votedFor := Follower, 1, -1;
      commitIndex, votes, counted := 0, 0, {};
      log.snapLastIdx, log.snapLastTerm, log.tailLog, log.full := 0, INVALID_TERM, [LogEntry(INVALID_TERM, false,
          0)], [DUMMY];
      Zero(nextIndex);
      Zero(matchIndex);
    }

    method ReadPersist()
      requires Valid() && commitIndex == 0
      modifies this, log
      ensures Valid()
      ensures match old(View()).disk
              case None => View() == old(View())
              case Some(d) => View() == old(View()).(currentTerm := d.term, votedFor := d.votedFor, log := d.log,
                                                     snap := d.snap, commitIndex := d.snap)
    {
      match persister
      case None =>
      case Some(d) =>
        currentTerm, votedFor := d.term, d.votedFor;
        log.snapLastIdx, log.snapLastTerm, log.tailLog, log.full := d.snapLastIdx, d.snapLastTerm, d.tailLog, savedLog;
        if log.snapLastIdx > commitIndex {
          commitIndex := log.snapLastIdx;
        }
    }

    /** The process comes back: everything but the persister starts afresh, then the persister is read. */
    method Restart()
      requires Valid()
      modifies this, log, nextIndex, matchIndex
      ensures Valid() && View() == RaftPeer.Restart(old(View()), n)
    {
      Reset();
      assert commitIndex == View().commitIndex;
      ReadPersist();
    }

    method BecomeFollower(term: nat)
      requires Valid()
      modifies this
      ensures Valid() && View() == RaftPeer.BecomeFollower(old(View()), term)
    {
      if term < currentTerm {
        return;
      }
      role := Follower;
      var shouldPersist := currentTerm != term;
      if term > currentTerm {
        votedFor := -1;
      }
      currentTerm := term;
      if shouldPersist {
        Persist();
      }
    }

    /** Includes the vote for itself that the election counts first. */
    method BecomeCandidate()
      requires Valid()
      modifies this
      ensures Valid() && View() == RaftPeer.BecomeCandidate(old(View()), me)
    {
      if role == Leader {
        return;
      }
      currentTerm := currentTerm + 1;
      role := Candidate;
      votedFor := me;
      votes, counted := 1, {me};
      Persist();
    }

    method BecomeLeader()
      requires Valid()
      modifies this`role, nextIndex, matchIndex
      ensures Valid() && View() == RaftPeer.BecomeLeader(old(View()))
    {
      if role != Candidate {
        return;
      }
      ghost var led := RaftPeer.BecomeLeader(View());
      role := Leader;
      var size := log.Size();
      var peer := 0;
      while peer < n
        invariant 0 <= peer <= n && role == Leader
        invariant forall k :: 0 <= k < peer ==> nextIndex[k] == size && matchIndex[k] == 0
      {
        nextIndex[peer] := size;
        matchIndex[peer] := 0;
        peer := peer + 1;
      }
      assert nextIndex[..] == led.nextIndex && matchIndex[..] == led.matchIndex;
    }

    method IsMoreUpToDate(candidateIndex: int, candidateTerm: nat) returns (r: bool)
      requires Valid()
      ensures r == RaftPeer.IsMoreUpToDate(View(), candidateIndex, candidateTerm)
    {
      var lastIndex, lastTerm := log.Last();
      if lastTerm != candidateTerm {
        return lastTerm > candidateTerm;
      }
      return lastIndex > candidateIndex;
    }

    method RequestVote(args: VoteArgs) returns (reply: VoteReply)
      requires Valid()
      modifies this
      ensures Valid() && (View(), reply) == RaftPeer.RequestVote(impl, old(View()), args)
    {
      reply := VoteReply(currentTerm, false);
      if args.term < currentTerm {
        return;
      }
      if args.term > currentTerm {
        BecomeFollower(args.term);
        if impl == Library {
          reply := reply.(term := currentTerm);
        }
      }
      if votedFor != -1 && !(impl == Library && votedFor == args.cand) {
        return;
      }
      var newer := IsMoreUpToDate(args.lastIndex, args.lastTerm);
      if newer {
        return;
      }
      reply := reply.(granted := true);
      votedFor := args.cand;
      Persist();
    }

    /** Whether the log has what the request builds on, and if not, where the two part. */
    method Check(args: AppendArgs) returns (ok: bool, conflictIndex: int, conflictTerm: nat)
      requires Valid()
      ensures ok ==> log.snapLastIdx <= args.prevIndex < |log.full| && log.full[args.prevIndex].term == args.prevTerm
      ensures !ok ==>
                if args.prevIndex >= |log.full| then conflictIndex == |log.full| && conflictTerm == INVALID_TERM
                else if args.prevIndex < log.snapLastIdx
                then conflictIndex == log.snapLastIdx && conflictTerm == log.full[log.snapLastIdx].term
                else log.full[args.prevIndex].term != args.prevTerm && conflictTerm == log.full[args.prevIndex].term
                     && conflictIndex == RaftPeer.FirstFor(log.full, conflictTerm, log.snapLastIdx)
    {
      var size := log.Size();
      if args.prevIndex >= size {
        return false, size, INVALID_TERM;
      }
      if args.prevIndex < log.snapLastIdx {
        return false, log.snapLastIdx, log.snapLastTerm;
      }
      var prev := log.At(args.prevIndex);
      if prev.term != args.prevTerm {
        var first := log.FirstFor(prev.term);
        return false, first, prev.term;
      }
      return true, 0, 0;
    }

    method TakeOver(args: AppendArgs)
      requires Valid() && log.snapLastIdx <= args.prevIndex < |log.full|
      modifies this, log
      ensures Valid() && View() == TakenOver(impl, old(View()), args)
    {
      log.AppendFrom(args.prevIndex, args.entries);
      Persist();
      if args.leaderCommit > commitIndex {
        var lastIdx, _ := log.Last();
        if impl == Library && args.leaderCommit > lastIdx {
          commitIndex := lastIdx;
        } else {
          commitIndex := args.leaderCommit;
        }
      }
    }

    method AppendEntries(args: AppendArgs) returns (reply: AppendReply)
      requires Valid()
      modifies this, log
      ensures Valid() && (View(), reply) == RaftPeer.AppendEntries(impl, old(View()), args)
    {
      reply := AppendReply(currentTerm, false, 0, 0);
      if args.term < currentTerm {
        return;
      }
      BecomeFollower(args.term);
      var ok, conflictIndex, conflictTerm := Check(args);
      if !ok {
        reply := reply.(conflictTerm := conflictTerm, conflictIndex := conflictIndex);
        return;
      }
      TakeOver(args);
      reply := reply.(success := true);
    }

    method Start(command: int) returns (index: int, term: int, isLeader: bool)
      requires Valid()
      modifies this, log
      ensures Valid() && View() == RaftPeer.Start(old(View()), command)
      ensures isLeader == (role == Leader)
      ensures isLeader ==> index == |View().log| - 1 && term == currentTerm && View().log[index].command == command
    {
      if role != Leader {
        return 0, 0, false;
      }
      log.Append(LogEntry(currentTerm, true, command));
      Persist();
      var size := log.Size();
      return size - 1, currentTerm, true;
    }

    method Snapshot(index: nat)
      requires Valid()
      modifies this, log
      ensures Valid() && View() == Compact(old(View()), index)
    {
      if index > commitIndex {
        return;
      }
      if index <= log.snapLastIdx {
        return;
      }
      log.DoSnapshot(index);
      Persist();
    }

    method ContextLost(role: Role, term: nat) returns (r: bool)
      requires Valid()
      ensures r == RaftPeer.ContextLost(View(), role, term)
    {
      r := !(currentTerm == term && this.role == role);
    }

    /** One reply to the requests for votes of the candidacy in `term`. */
    method HandleVoteReply(from: nat, term: nat, reply: VoteReply)
      requires Valid()
      modifies this, nextIndex, matchIndex
      ensures Valid() && View() == RaftPeer.HandleVoteReply(old(View()), from, term, n, reply)
    {
      if reply.term > currentTerm {
        BecomeFollower(reply.term);
        return;
      }
      var lost := ContextLost(Candidate, term);
      if lost {
        return;
      }
      if reply.granted {
        votes := votes + 1;
        counted := counted + {from};
        if votes > n / 2 {
          BecomeLeader();
        }
      }
    }

    method BackUp(prev: nat, next: int, reply: AppendReply) returns (r: int)
      requires Valid()
      ensures r == RaftPeer.BackUp(impl, View(), next, prev, reply)
    {
      var first := log.FirstFor(reply.conflictTerm);
      if reply.conflictTerm == INVALID_TERM {
        r := reply.conflictIndex;
      } else if first != INVALID_INDEX {
        r := first;
      } else {
        r := reply.conflictIndex;
      }
      if impl == Lab {
        if r > next {
          r := next;
        }
      } else {
        if r > prev + 1 {
          r := prev + 1;
        }
        var minIdx := log.snapLastIdx + 1;
        if r < minIdx {
          r := minIdx;
        }
      }
    }

    method UpdateCommit()
      requires Valid() && n > 0 && log.snapLastIdx <= commitIndex && MajorityIndex(matchIndex[..]) < |log.full|
      modifies this`commitIndex
      ensures Valid() && View() == RaftPeer.UpdateCommit(old(View()))
    {
      var majority := ComputeMajorityIndex(matchIndex[..]);
      if majority > commitIndex {
        var e := log.At(majority);
        if e.term == currentTerm {
          commitIndex := majority;
        }
      }
    }

    method SetNext(q: nat, next: int)
      requires Valid() && q < n
      modifies nextIndex
      ensures Valid() && View() == old(View()).(nextIndex := old(View()).nextIndex[q := next])
    {
      nextIndex[q] := next;
      assert nextIndex[..] == old(nextIndex[..])[q := next];
    }

    method SetMatch(q: nat, held: int)
      requires Valid() && q < n
      modifies nextIndex, matchIndex
      ensures Valid()
      ensures var p := old(View());
              View() == p.(matchIndex := p.matchIndex[q := held], nextIndex := p.nextIndex[q := held + 1])
    {
      matchIndex[q] := held;
      nextIndex[q] := matchIndex[q] + 1;
      assert matchIndex[..] == old(matchIndex[..])[q := held] && nextIndex[..] == old(nextIndex[..])[q := held + 1];
    }

    /** One reply of peer `q` to a request of `term` that carried `len` entries after `prev`. */
    method HandleAppendReply(q: nat, term: nat, prev: nat, len: nat, reply: AppendReply)
      requires Valid() && q < n && log.snapLastIdx <= commitIndex
      requires role == Leader && currentTerm == term ==> MajorityIndex(matchIndex[..][q := prev + len]) < |log.full|
      modifies this, nextIndex, matchIndex
      ensures Valid() && View() == RaftPeer.HandleAppendReply(impl, old(View()), q, term, prev, len, reply)
    {
      hide RaftPeer.BackUp, RaftPeer.UpdateCommit, MajorityIndex, RaftPeer.BecomeFollower;
      ghost var was := View();
      assert MajorityIndex(matchIndex[..][q := prev + len]) == MajorityIndex(was.matchIndex[q := prev + len]);
      if reply.term > currentTerm {
        BecomeFollower(reply.term);
        return;
      }
      var lost := ContextLost(Leader, term);
      if lost {
        return;
      }
      if !reply.success {
        var next := BackUp(prev, nextIndex[q], reply);
        SetNext(q, next);
        return;
      }
      SetMatch(q, prev + len);
      assert matchIndex[..] == View().matchIndex;
      UpdateCommit();
    }

    method RequestFor(q: nat) returns (r: Option<AppendArgs>)
      requires Valid() && q < n && role == Leader && nextIndex[q] - 1 < |log.full|
      ensures r == Replicate(View(), me, q)
    {
      var prevIdx := nextIndex[q] - 1;
      if prevIdx < log.snapLastIdx {
        return None;
      }
      var prev := log.At(prevIdx);
      var entries := log.Tail(prevIdx + 1);
      return Some(AppendArgs(currentTerm, me, prevIdx, prev.term, entries, commitIndex));
    }

    method MatchOwn()
      requires Valid() && role == Leader
      modifies nextIndex, matchIndex
      ensures Valid() && View() == MatchSelf(old(View()), me)
    {
      var size := log.Size();
      SetMatch(me, size - 1);
    }

    /** One peer's turn: the leader's own indexes are set, any other peer gets a request. */
    method ReplicateTo(peer: nat, ghost was: Peer) returns (out: seq<(nat, AppendArgs)>)
      requires Valid() && role == Leader && peer < n
      requires forall q :: 0 <= q < n ==> nextIndex[q] - 1 < |log.full|
      requires View() == if me < peer then MatchSelf(was, me) else was
      modifies nextIndex, matchIndex
      ensures Valid() && forall q :: 0 <= q < n ==> nextIndex[q] - 1 < |log.full|
      ensures View() == if me <= peer then MatchSelf(was, me) else was
      ensures out == RequestTo(was, me, peer)
    {
      hide Replicate;
      out := [];
      if peer == me {
        MatchOwn();
        assert View().nextIndex == was.nextIndex[me := |log.full|];
        assert nextIndex[..] == View().nextIndex;
      } else {
        hide MatchSelf;
        var r := RequestFor(peer);
        SelfMatchAside(was, me, peer);
        if r.Some? {
          out := [(peer, r.value)];
        }
      }
    }

    /** The requests of one round, to every peer whose next entry is still in the log. */
    method StartReplication(term: nat) returns (ok: bool, out: seq<(nat, AppendArgs)>)
      requires Valid()
      requires role == Leader ==> forall q :: 0 <= q < n ==> nextIndex[q] - 1 < |log.full|
      modifies nextIndex, matchIndex
      ensures Valid() && ok == !RaftPeer.ContextLost(View(), Leader, term)
      ensures View() == if ok then MatchSelf(old(View()), me) else old(View())
      ensures out == if ok then Requests(old(View()), me, n) else []
    {
      hide Replicate, MatchSelf;
      var lost := ContextLost(Leader, term);
      ok, out := !lost, [];
      if !lost {
        out := ReplicateAll();
      }
    }

    method ReplicateAll() returns (out: seq<(nat, AppendArgs)>)
      requires Valid() && role == Leader && forall q :: 0 <= q < n ==> nextIndex[q] - 1 < |log.full|
      modifies nextIndex, matchIndex
      ensures Valid() && View() == MatchSelf(old(View()), me) && out == Requests(old(View()), me, n)
    {
      hide Replicate, MatchSelf;
      ghost var was := View();
      out := [];
      for peer := 0 to n
        invariant Valid() && role == Leader
        invariant forall q :: 0 <= q < n ==> nextIndex[q] - 1 < |log.full|
        invariant View() == if me < peer then MatchSelf(was, me) else was
        invariant out == Requests(was, me, peer)
      {
        var request := ReplicateTo(peer, was);
        out := out + request;
      }
    }
  }

  lemma SelfMatchAside(p: Peer, me: nat, q: nat)
    requires q != me
    ensures Replicate(MatchSelf(p, me), me, q) == Replicate(p, me, q)
  {
  }

  /** The requests a leader has for the peers below `n`, in order. */
  ghost function Requests(p: Peer, me: nat, n: nat): seq<(nat, AppendArgs)> {
    if n == 0 then []
    else
      Requests(p, me, n - 1) + RequestTo(p, me, n - 1)
  }

  ghost function RequestTo(p: Peer, me: nat, q: nat): seq<(nat, AppendArgs)> {
    if q != me && Replicate(p, me, q).Some? then [(q, Replicate(p, me, q).value)] else []
  }
}
