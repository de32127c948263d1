/** A run in which a request of a leader overtakes an earlier one, and a committed entry is lost. */
module RaftUnordered {
  import opened Basics
  import opened RaftAbstract
  import opened RaftPeer
  import opened CommitIndex
  import opened RaftSystem
  import opened RaftOrdered
  import opened RaftRuns

  ghost predicate Reached(s: Sys) {
    exists r :: Run(r) && r[|r| - 1] == s
  }

  lemma Step(s: Sys, act: Action)
    requires Reached(s) && Can(s, act)
    ensures Reached(After(s, act))
  {
    assert Follows(s, After(s, act));
    hide Follows, SysInit, Can, After;
    var r :| Run(r) && r[|r| - 1] == s;
    Prolonged(r, After(s, act));
  }

  lemma Prolonged(r: seq<Sys>, s': Sys)
    requires Run(r) && Follows(r[|r| - 1], s')
    ensures Reached(s')
  {
    hide Follows, SysInit;
    var r' := r + [s'];
    forall k | 0 < k < |r'| ensures Follows(r'[k - 1], r'[k]) {
      if k < |r| {
        assert Follows(r[k - 1], r[k]);
      }
    }
    assert Run(r') && r'[|r'| - 1] == s';
  }

  /** What the phases below keep: the cluster, everything sent, and all peers but two. */
  ghost predicate Onward(s: Sys, s': Sys, c: nat, v: nat) {
    && s'.impl == s.impl && |s'.peers| == |s.peers| && s.msgs <= s'.msgs && s.sent <= s'.sent
    && forall i :: 0 <= i < |s.peers| && i != c && i != v ==> s'.peers[i] == s.peers[i]
  }

  // ------------------------------------------------------------------
  // An election

  ghost predicate FreshLeader(p: Peer, term: nat) {
    && p.role == Leader && p.currentTerm == term && p.log == [DUMMY] && p.snap == 0 && p.commitIndex == 0
    && p.nextIndex == [1, 1, 1] && p.matchIndex == [0, 0, 0]
  }

  /** A peer that has no entries. */
  ghost predicate Blank(p: Peer, term: nat) {
    && p.role != Leader && p.currentTerm == term && p.log == [DUMMY] && p.snap == 0 && p.commitIndex == 0
    && |p.nextIndex| == |p.matchIndex| == 3
  }

  lemma Votes(p: Peer, c: nat, term: nat)
    requires Blank(p, p.currentTerm) && term > p.currentTerm
    ensures var (q, reply) := RequestVote(Lab, p, VoteArgs(term, c, 0, DUMMY.term));
            Blank(q, term) && reply == VoteReply(p.currentTerm, true)
  {
  }

  /** A blank peer stands for election and wins with the vote of another one. */
  lemma Elect(s: Sys, c: nat, v: nat) returns (s': Sys)
    requires Reached(s) && s.impl == Lab && |s.peers| == 3 && c < 3 && v < 3 && c != v
    requires Blank(s.peers[c], s.peers[c].currentTerm) && Blank(s.peers[v], s.peers[v].currentTerm)
    requires s.peers[v].currentTerm <= s.peers[c].currentTerm
    requires Call(c, s.peers[c].currentTerm + 1, v) !in s.asked + s.answered
    ensures Reached(s') && Onward(s, s', c, v)
    ensures var t := s.peers[c].currentTerm + 1;
            && FreshLeader(s'.peers[c], t) && Blank(s'.peers[v], t)
            && s'.asked == s.asked + {Call(c, t, v)} && s'.answered == s.answered + {Call(c, t, v)}
  {
    hide Reached, Trace, Evolve;
    var t, u := s.peers[c].currentTerm + 1, s.peers[v].currentTerm;
    Step(s, Timeout(c));
    var a := After(s, Timeout(c));
    Step(a, Ask(c, v));
    var b := After(a, Ask(c, v));
    var request := VoteReq(v, VoteArgs(t, c, 0, DUMMY.term));
    assert request in b.msgs;
    Votes(s.peers[v], c, t);
    Step(b, RecvVoteReq(v, request));
    var d := After(b, RecvVoteReq(v, request));
    hide RequestVote;
    var reply := VoteRep(v, c, t, VoteReply(u, true));
    assert reply in d.msgs;
    Step(d, RecvVoteRep(c, reply));
    s' := After(d, RecvVoteRep(c, reply));
  }

  // ------------------------------------------------------------------
  // One entry replicated and committed

  lemma SecondOfThree(held: seq<int>, c: nat, v: nat)
    requires |held| == 3 && c < 3 && v < 3 && c != v && held[c] == held[v] == 1
    requires forall i :: 0 <= i < 3 && i != c && i != v ==> held[i] == 0
    ensures MajorityIndex(held) == 1
  {
    assert Holders(held, 1) == {c, v};
    forall x | x > 1 ensures !Quorum(3, Holders(held, x)) {
      assert Holders(held, x) == {};
    }
    MajorityIndexUnique(held, 1, MajorityIndex(held));
  }

  lemma TakesOver1(p: Peer, g: AppendArgs)
    requires Blank(p, g.term) && g.prevIndex == 0 && g.prevTerm == DUMMY.term && g.leaderCommit == 0
    ensures var (q, reply) := AppendEntries(Lab, p, g);
            && q.role == Follower && q.currentTerm == g.term && q.log == [DUMMY] + g.entries && q.snap == 0 &&
                q.commitIndex == 0
            && |q.nextIndex| == |q.matchIndex| == 3
            && reply == AppendReply(g.term, true, 0, 0)
  {
    hide FirstFor;
    assert [DUMMY][..1] == [DUMMY];
  }

  /** The leader has committed entry `e`, and the follower holds it. */
  ghost predicate HasCommitted(p: Peer, term: nat, e: LogEntry) {
    p.role == Leader && p.currentTerm == term && p.log == [DUMMY, e] && p.commitIndex == 1
  }

  /** A follower that holds just `e`. */
  ghost predicate Holding(p: Peer, term: nat, e: LogEntry) {
    && p.role == Follower && p.currentTerm == term && p.log == [DUMMY, e] && p.snap == 0 && p.commitIndex == 0
    && |p.nextIndex| == |p.matchIndex| == 3
  }

  /** A leader that has just added `e`. */
  ghost predicate Added(p: Peer, term: nat, e: LogEntry) {
    && p.role == Leader && p.currentTerm == term && p.log == [DUMMY, e] && p.snap == 0 && p.commitIndex == 0
    && p.nextIndex == [1, 1, 1] && p.matchIndex == [0, 0, 0]
  }

  lemma Replicated(s: Sys, c: nat, v: nat, x: int) returns (s': Sys)
    requires Reached(s) && s.impl == Lab && |s.peers| == 3 && c < 3 && v < 3 && c != v
    requires FreshLeader(s.peers[c], s.peers[c].currentTerm) && Blank(s.peers[v], s.peers[c].currentTerm)
    ensures Reached(s') && Onward(s, s', c, v) && s'.asked == s.asked && s'.answered == s.answered
    ensures var t := s.peers[c].currentTerm;
            && Added(s'.peers[c], t, LogEntry(t, true, x)) && Holding(s'.peers[v], t, LogEntry(t, true, x))
            && AppendRep(v, c, t, 0, 1, AppendReply(t, true, 0, 0)) in s'.msgs
  {
    hide Reached, Trace, Evolve;
    var t := s.peers[c].currentTerm;
    var e := LogEntry(t, true, x);
    Step(s, Command(c, x));
    var a := After(s, Command(c, x));
    assert a.peers[c].log == [DUMMY, e];
    var g := AppendArgs(t, c, 0, DUMMY.term, [e], 0);
    assert Replicate(a.peers[c], c, v) == Some(g);
    Step(a, Send(c, v));
    var b := After(a, Send(c, v));
    var request := AppendReq(v, a.sent, g);
    assert request in b.msgs;
    TakesOver1(s.peers[v], g);
    Step(b, RecvAppendReq(v, request));
    s' := After(b, RecvAppendReq(v, request));
    hide AppendEntries;
  }

  lemma CommitOne(s: Sys, c: nat, v: nat, e: LogEntry) returns (s': Sys)
    requires Reached(s) && |s.peers| == 3 && c < 3 && v < 3 && c != v && e.term == s.peers[c].currentTerm
    requires Added(s.peers[c], e.term, e) && AppendRep(v, c, e.term, 0, 1, AppendReply(e.term, true, 0, 0)) in s.msgs
    ensures Reached(s') && Onward(s, s', c, c) && s'.asked == s.asked && s'.answered == s.answered
    ensures HasCommitted(s'.peers[c], e.term, e)
  {
    hide Reached, Added, HasCommitted, HandleAppendReply, MatchSelf, Trace, Evolve;
    var reply := AppendRep(v, c, e.term, 0, 1, AppendReply(e.term, true, 0, 0));
    assert s.peers[c].role == Leader by {
      AddedLeads(s.peers[c], e.term, e);
    }
    Step(s, SelfMatch(c));
    var a := After(s, SelfMatch(c));
    Step(a, RecvAppendRep(c, reply));
    s' := After(a, RecvAppendRep(c, reply));
    Counted(s.impl, s.peers[c], c, v, e);
  }

  lemma AddedLeads(p: Peer, term: nat, e: LogEntry)
    requires Added(p, term, e)
    ensures p.role == Leader && p.currentTerm == term
  {
  }

  lemma Counted(impl: Impl, p: Peer, c: nat, v: nat, e: LogEntry)
    requires Added(p, e.term, e) && c < 3 && v < 3 && c != v
    ensures HasCommitted(HandleAppendReply(impl, MatchSelf(p, c), v, e.term, 0, 1, AppendReply(e.term, true, 0, 0)),
                         e.term, e)
  {
    hide MajorityIndex;
    SecondOfThree(MatchSelf(p, c).matchIndex[v := 1], c, v);
  }

  // ------------------------------------------------------------------

  /** Peer `c` leads without what peer `p` of an earlier term has committed, and has itself
      committed something else in its place. */
  ghost predicate Lost(s: Sys, p: nat, c: nat) {
    && p < |s.peers| && c < |s.peers| && s.peers[c].role == Leader && s.peers[p].currentTerm < s.peers[c].currentTerm
    && !(CommittedPart(s.peers[p]) <= s.peers[c].log)
    && !(CommittedPart(s.peers[p]) <= CommittedPart(s.peers[c]))
    && !(CommittedPart(s.peers[c]) <= CommittedPart(s.peers[p]))
  }

  lemma StartsSomewhere() returns (s: Sys)
    ensures SysInit(s) && s.impl == Lab && |s.peers| == 3
  {
    var abs := Abs([1, 1, 1], [[DUMMY], [DUMMY], [DUMMY]], map[], map[], map[], map[], map[], map[]);
    s := Sys(Lab, [NewPeer(3), NewPeer(3), NewPeer(3)], {}, 0, map[], {}, {}, abs);
  }

  /** A request sent before the entry, handled after it, takes the entry away again. */
  lemma Overtaken(s: Sys, c: nat, v: nat, m: Message, e: LogEntry) returns (s': Sys)
    requires Reached(s) && s.impl == Lab && |s.peers| == 3 && c < 3 && v < 3 && c != v
    requires m in s.msgs && m.AppendReq? && m.to == v && m.args == AppendArgs(e.term, c, 0, DUMMY.term, [], 0)
    requires Holding(s.peers[v], e.term, e)
    ensures Reached(s') && Onward(s, s', v, v) && s'.asked == s.asked && s'.answered == s.answered
    ensures Blank(s'.peers[v], e.term)
  {
    hide Reached, Trace, Evolve, FirstFor;
    Step(s, RecvAppendReq(v, m));
    s' := After(s, RecvAppendReq(v, m));
    assert [DUMMY, e][..1] == [DUMMY];
  }

  lemma SendEmpty(s: Sys, c: nat, v: nat) returns (s': Sys, m: Message)
    requires Reached(s) && |s.peers| == 3 && c < 3 && v < 3 && c != v && FreshLeader(s.peers[c], s.peers[c].currentTerm)
    ensures Reached(s') && Onward(s, s', c, c) && s'.peers == s.peers && s'.asked == s.asked
    ensures s'.answered == s.answered
    ensures m in s'.msgs && m.AppendReq? && m.to == v
    ensures m.args == AppendArgs(s.peers[c].currentTerm, c, 0, DUMMY.term, [], 0)
  {
    hide Reached, Trace, Evolve;
    var g := AppendArgs(s.peers[c].currentTerm, c, 0, DUMMY.term, [], 0);
    assert [DUMMY][1..] == [];
    assert Replicate(s.peers[c], c, v) == Some(g);
    Step(s, Send(c, v));
    s' := After(s, Send(c, v));
    m := AppendReq(v, s.sent, g);
  }

  lemma TimesOut(s: Sys, c: nat) returns (s': Sys)
    requires Reached(s) && c < |s.peers| && Blank(s.peers[c], s.peers[c].currentTerm)
    ensures Reached(s') && Onward(s, s', c, c) && s'.asked == s.asked && s'.answered == s.answered
    ensures Blank(s'.peers[c], s.peers[c].currentTerm + 1)
  {
    hide Reached, Trace, Evolve;
    Step(s, Timeout(c));
    s' := After(s, Timeout(c));
  }

  lemma Start3() returns (s: Sys)
    ensures Reached(s) && s.impl == Lab && |s.peers| == 3 && s.asked == s.answered == {}
    ensures forall i :: 0 <= i < 3 ==> Blank(s.peers[i], 1)
  {
    s := StartsSomewhere();
    assert Run([s]) && [s][|[s]| - 1] == s;
  }

  lemma FirstHalf() returns (s: Sys)
    ensures Reached(s) && s.impl == Lab && |s.peers| == 3 && s.asked == s.answered == {Call(0, 2, 1)}
    ensures HasCommitted(s.peers[0], 2, LogEntry(2, true, 7)) && Blank(s.peers[1], 2) && Blank(s.peers[2], 1)
  {
    hide Reached, Holding, HasCommitted, Added;
    var a := Start3();
    assert forall i :: 0 <= i < 3 ==> a.peers[i].currentTerm == 1;
    var b := Elect(a, 0, 1);
    assert b.peers[0].currentTerm == 2;
    hide Blank;
    var d, m := SendEmpty(b, 0, 1);
    var e := LogEntry(2, true, 7);
    var f := Replicated(d, 0, 1, 7);
    AddedLeads(f.peers[0], 2, e);
    var g := CommitOne(f, 0, 1, e);
    s := Overtaken(g, 0, 1, m, e);
  }

  lemma SecondHalf(a: Sys) returns (s: Sys)
    requires Reached(a) && a.impl == Lab && |a.peers| == 3 && a.asked == a.answered == {Call(0, 2, 1)}
    requires Blank(a.peers[1], 2) && Blank(a.peers[2], 1)
    ensures Reached(s) && s.impl == Lab && |s.peers| == 3 && s.peers[0] == a.peers[0]
    ensures HasCommitted(s.peers[2], 3, LogEntry(3, true, 8))
  {
    assert a.peers[1].currentTerm == 2 && a.peers[2].currentTerm == 1;
    var b := TimesOut(a, 2);
    assert b.peers[2].currentTerm == 2;
    var d := Elect(b, 2, 1);
    assert d.peers[2].currentTerm == 3;
    hide Reached, Blank, Holding, HasCommitted;
    var f := Replicated(d, 2, 1, 8);
    assert f.peers[2].currentTerm == 3;
    s := CommitOne(f, 2, 1, LogEntry(3, true, 8));
  }

  /** Three peers, first implementation: peer 0 sends peer 1 an empty request, then one with an entry, which
      peer 1 handles first; peer 0 commits; peer 1 handles the empty one, forgets the entry, and helps peer 2
      to lead and to commit another entry at the same index. */
  lemma CommittedEntryLost() returns (r: seq<Sys>)
    ensures Run(r) && !OrderedRun(r) && r[|r| - 1].impl == Lab && |r[|r| - 1].peers| == 3 && Lost(r[|r| - 1], 0, 2)
  {
    hide Follows, SysInit, OrderedRun, HasCommitted, Lost, Blank;
    var a := FirstHalf();
    var s := SecondHalf(a);
    r :| Run(r) && r[|r| - 1] == s;
    Incomparable(s);
    LossUnordered(r);
  }

  lemma LossUnordered(r: seq<Sys>)
    requires Run(r) && |r[|r| - 1].peers| == 3 && Lost(r[|r| - 1], 0, 2)
    ensures !OrderedRun(r)
  {
    hide Follows, SysInit, OrderedRun, CommittedPart;
    if OrderedRun(r) {
      StateMachineSafety(r, |r| - 1, 0, |r| - 1, 2);
    }
  }

  lemma Incomparable(s: Sys)
    requires |s.peers| == 3
    requires HasCommitted(s.peers[0], 2, LogEntry(2, true, 7)) && HasCommitted(s.peers[2], 3, LogEntry(3, true, 8))
    ensures Lost(s, 0, 2)
  {
    var d, e := LogEntry(2, true, 7), LogEntry(3, true, 8);
    assert CommittedPart(s.peers[0]) == [DUMMY, d] && CommittedPart(s.peers[2]) == [DUMMY, e];
    assert [DUMMY, d][1] != [DUMMY, e][1];
  }
}
