/** How a leader finds the point where a follower's log departs from its own:
    probes that are turned down move `nextIndex` back, never forward, and a
    probe that is accepted hands the follower the whole of the leader's log. */
module RaftBackUp {
  import opened Basics
  import opened RaftAbstract
  import opened RaftPeer
  import opened RaftSystem

  // ------------------------------------------------------------------
  // The search for a term in a sorted log

  ghost predicate FirstAt(log: Log, term: nat, i: nat, r: nat) {
    i <= r < |log| && log[r].term == term && forall k :: i <= k < r ==> log[k].term != term
  }

  /** In a sorted log, the first entry of a term that occurs, and no index at all for one that does not. */
  lemma {:induction false} FirstForCases(log: Log, term: nat, i: nat)
    requires TermsSorted(log) && i <= |log|
    ensures var r := FirstFor(log, term, i);
            (r >= 0 && FirstAt(log, term, i, r))
            || (r == INVALID_INDEX && forall k :: i <= k < |log| ==> log[k].term != term)
    decreases |log| - i
  {
    if i < |log| && log[i].term != term && log[i].term < term {
      FirstForCases(log, term, i + 1);
    }
  }

  // ------------------------------------------------------------------
  // One probe that is turned down

  /** A leader and a follower with uncompacted logs of the same cluster. */
  ghost predicate Pair(a: Abs, p: Peer, f: Peer, q: nat) {
    && LeadersOk(a) && Chain(a, p.log) && Chain(a, f.log)
    && p.role == Leader && p.snap == 0 && f.snap == 0 && f.currentTerm <= p.currentTerm
    && q < |p.nextIndex| && q < |p.matchIndex| && 1 <= p.nextIndex[q] <= |p.log|
  }

  /** Where one log has an entry of a term, a log that has one further on has one too. */
  lemma SameTermBelow(a: Abs, l: Log, f: Log, k: nat, i0: nat)
    requires LeadersOk(a) && Chain(a, l) && Chain(a, f) && 0 < k < |f| && k <= i0 < |l| && l[i0].term == f[k].term
    ensures l[k].term == f[k].term
  {
    assert FromLeader(a, f, k) && FromLeader(a, l, i0);
    var m := a.leaderLog[f[k].term];
    assert l[..i0 + 1][k] == m[..i0 + 1][k] && f[..k + 1][k] == m[..k + 1][k];
  }

  /** The first entry of a term that the leader holds does not lie beyond where the follower has that term. */
  lemma LeaderFirst(a: Abs, l: Log, f: Log, prev: nat, i0: nat)
    requires LeadersOk(a) && Chain(a, l) && Chain(a, f) && 0 < prev < |f| && prev < |l|
    requires l[prev].term != f[prev].term && FirstAt(l, f[prev].term, 0, i0) && i0 > 0
    ensures i0 <= prev
  {
    hide Chain, LeadersOk;
    if prev <= i0 {
      SameTermBelow(a, l, f, prev, i0);
    }
  }

  lemma FollowerFirst(a: Abs, f: Log, prev: nat, i0: nat)
    requires LeadersOk(a) && Chain(a, f) && 0 < prev < |f| && FirstAt(f, f[prev].term, 0, i0)
    ensures f[prev].term > 0 && 0 < i0 <= prev
  {
    assert FromLeader(a, f, prev);
    assert f[prev].term in a.winner && LeaderOk(a, f[prev].term);
    assert f[0].term == 0;
  }

  /** What the follower answers. */
  lemma Rejection(impl: Impl, f: Peer, g: AppendArgs)
    requires f.snap == 0 && g.term >= f.currentTerm && !AppendEntries(impl, f, g).1.success
    ensures var x := AppendEntries(impl, f, g);
            && x.0 == BecomeFollower(f, g.term) && x.1.term == f.currentTerm
            && if g.prevIndex >= |f.log| then x.1.conflictIndex == |f.log| && x.1.conflictTerm == INVALID_TERM
               else f.log[g.prevIndex].term != g.prevTerm && x.1.conflictTerm == f.log[g.prevIndex].term
                    && x.1.conflictIndex == FirstFor(f.log, f.log[g.prevIndex].term, 0)
  {
  }

  lemma TargetLow(a: Abs, p: Peer, f: Peer, q: nat, prev: nat)
    requires Pair(a, p, f, q) && prev < |f.log| && prev < |p.log| && p.log[prev].term != f.log[prev].term
    ensures var t := f.log[prev].term;
            t > 0 && 0 < FirstFor(f.log, t, 0) <= prev
            && (FirstFor(p.log, t, 0) == INVALID_INDEX || 0 < FirstFor(p.log, t, 0) <= prev)
  {
    var t := f.log[prev].term;
    assert prev > 0;
    ChainSorted(a, p.log);
    ChainSorted(a, f.log);
    hide Chain, LeadersOk, TermsSorted;
    FirstForCases(f.log, t, 0);
    FirstForCases(p.log, t, 0);
    FollowerFirst(a, f.log, prev, FirstFor(f.log, t, 0));
    if FirstFor(p.log, t, 0) != INVALID_INDEX {
      LeaderFirst(a, p.log, f.log, prev, FirstFor(p.log, t, 0));
    }
  }

  /** Every rejection of the current probe moves `nextIndex` strictly back, and not below 1. */
  lemma BackUpProgress(impl: Impl, a: Abs, p: Peer, f: Peer, me: nat, q: nat)
    requires Pair(a, p, f, q)
    requires !AppendEntries(impl, f, Replicate(p, me, q).value).1.success
    ensures var g := Replicate(p, me, q).value;
            1 <= BackUp(impl, p, p.nextIndex[q], g.prevIndex, AppendEntries(impl, f, g).1) < p.nextIndex[q]
  {
    var g := Replicate(p, me, q).value;
    assert f.log != [];
    assert g.prevIndex == p.nextIndex[q] - 1 && g.prevTerm == p.log[g.prevIndex].term && g.term == p.currentTerm;
    Rejection(impl, f, g);
    hide AppendEntries, Pair, FirstFor;
    if g.prevIndex < |f.log| {
      TargetLow(a, p, f, q, g.prevIndex);
    }
  }

  // ------------------------------------------------------------------
  // Probe after probe

  /** The leader after the follower's answer to its current probe. */
  ghost function Probe(impl: Impl, p: Peer, f: Peer, me: nat, q: nat): Peer
    requires Replicate(p, me, q).Some?
  {
    var g := Replicate(p, me, q).value;
    HandleAppendReply(impl, p, q, p.currentTerm, g.prevIndex, |g.entries|, AppendEntries(impl, f, g).1)
  }

  /** Within `n` rejections a probe is accepted, and leaves the follower with the leader's log. */
  ghost predicate MatchedWithin(impl: Impl, p: Peer, f: Peer, me: nat, q: nat, n: nat)
    decreases n
  {
    && Replicate(p, me, q).Some? && q < |p.matchIndex|
    && var x := AppendEntries(impl, f, Replicate(p, me, q).value);
       if x.1.success then x.0.log == p.log && Probe(impl, p, f, me, q).matchIndex == p.matchIndex[q := |p.log| - 1]
       else n > 0 && MatchedWithin(impl, Probe(impl, p, f, me, q), x.0, me, q, n - 1)
  }

  lemma WholeTail(l: Log, f: Log, prev: nat)
    requires prev < |l| && prev < |f| && f[..prev + 1] == l[..prev + 1]
    ensures AppendFrom(f, prev, l[prev + 1..]) == l
  {
  }

  lemma AcceptedLog(impl: Impl, a: Abs, p: Peer, f: Peer, me: nat, q: nat)
    requires Pair(a, p, f, q) && AppendEntries(impl, f, Replicate(p, me, q).value).1.success
    ensures AppendEntries(impl, f, Replicate(p, me, q).value).0.log == p.log
  {
    var g := Replicate(p, me, q).value;
    hide AppendEntries, LeadersOk, Chain, AppendFrom;
    AcceptResult(impl, f, g);
    LogMatching(a, f.log, p.log, g.prevIndex);
    WholeTail(p.log, f.log, g.prevIndex);
  }

  lemma CommitKeepsMatch(p: Peer)
    ensures UpdateCommit(p).matchIndex == p.matchIndex
  {
  }

  lemma AcceptedMatch(impl: Impl, p: Peer, q: nat, g: AppendArgs, reply: AppendReply)
    requires p.role == Leader && q < |p.nextIndex| && q < |p.matchIndex| && reply.success && reply.term <= p.currentTerm
    ensures HandleAppendReply(impl, p, q, p.currentTerm, g.prevIndex, |g.entries|, reply).matchIndex
            == p.matchIndex[q := g.prevIndex + |g.entries|]
  {
    hide UpdateCommit, BackUp, BecomeFollower;
    var n := g.prevIndex + |g.entries|;
    CommitKeepsMatch(p.(matchIndex := p.matchIndex[q := n], nextIndex := p.nextIndex[q := n + 1]));
  }

  lemma Accepted(impl: Impl, a: Abs, p: Peer, f: Peer, me: nat, q: nat)
    requires Pair(a, p, f, q) && AppendEntries(impl, f, Replicate(p, me, q).value).1.success
    ensures AppendEntries(impl, f, Replicate(p, me, q).value).0.log == p.log
    ensures Probe(impl, p, f, me, q).matchIndex == p.matchIndex[q := |p.log| - 1]
  {
    hide AppendEntries, LeadersOk, Chain, HandleAppendReply;
    var g := Replicate(p, me, q).value;
    AcceptedLog(impl, a, p, f, me, q);
    AcceptedReply(impl, f, g);
    AcceptedMatch(impl, p, q, g, AppendEntries(impl, f, g).1);
  }

  lemma AcceptedReply(impl: Impl, f: Peer, g: AppendArgs)
    requires AppendEntries(impl, f, g).1.success
    ensures AppendEntries(impl, f, g).1.term == f.currentTerm <= g.term
  {
  }

  lemma Rejected(impl: Impl, a: Abs, p: Peer, f: Peer, me: nat, q: nat)
    requires Pair(a, p, f, q) && !AppendEntries(impl, f, Replicate(p, me, q).value).1.success
    ensures var p', f' := Probe(impl, p, f, me, q), AppendEntries(impl, f, Replicate(p, me, q).value).0;
            Pair(a, p', f', q) && p'.nextIndex[q] < p.nextIndex[q]
  {
    BackUpProgress(impl, a, p, f, me, q);
    var g := Replicate(p, me, q).value;
    assert g.term == p.currentTerm;
    Rejection(impl, f, g);
    hide AppendEntries, LeadersOk, Chain, BackUp;
  }

  /** The follower is matched after at most `nextIndex - 1` rejections. */
  lemma {:induction false} ProbesMatch(impl: Impl, a: Abs, p: Peer, f: Peer, me: nat, q: nat, n: nat)
    requires Pair(a, p, f, q) && p.nextIndex[q] - 1 <= n
    ensures MatchedWithin(impl, p, f, me, q, n)
    decreases n
  {
    hide AppendEntries, HandleAppendReply;
    assert Replicate(p, me, q).Some?;
    if AppendEntries(impl, f, Replicate(p, me, q).value).1.success {
      Accepted(impl, a, p, f, me, q);
    } else {
      Rejected(impl, a, p, f, me, q);
      ProbesMatch(impl, a, Probe(impl, p, f, me, q), AppendEntries(impl, f, Replicate(p, me, q).value).0, me, q, n - 1);
    }
  }
}
