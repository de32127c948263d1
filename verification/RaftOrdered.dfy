/** Clusters in which each peer handles a leader's append requests in the order
    they were sent. In them, what is committed anywhere stays committed and is
    the same everywhere. */
module RaftOrdered {
  import opened Basics
  import opened RaftAbstract
  import opened RaftCompleteness
  import opened RaftPeer
  import opened RaftSystem
  import opened CommitIndex

  ghost predicate InTurn(seen: map<(nat, nat), nat>, to: nat, t: nat, no: nat) {
    (to, t) in seen ==> seen[(to, t)] <= no
  }

  ghost predicate CanInOrder(s: Sys, act: Action) {
    && Can(s, act)
    && (act.RecvAppendReq? ==> InTurn(s.seen, act.i, act.m.args.term, act.m.no))
  }

  /** How many entries of the leader's log the receiver holds once it has taken over the request. */
  ghost function End(g: AppendArgs): nat {
    g.prevIndex + 1 + |g.entries|
  }

  // ------------------------------------------------------------------
  // The invariant

  /** A committed prefix, from a term the peer has left behind or within what it took over. */
  ghost predicate Backed(a: Abs, c: Log, i: nat, t: nat, k: nat)
    requires i < |a.term|
  {
    CommittedBy(a, c, t, k) && (t < a.term[i] || Acked(a, i, t) >= |c|)
  }

  ghost predicate CommitOk(a: Abs, p: Peer, i: nat) {
    && i < |a.term|
    && p.snap <= p.commitIndex < |p.log|
    && var c := p.log[..p.commitIndex + 1];
       c == [DUMMY] || exists t: nat, k: nat :: Backed(a, c, i, t, k)
  }

  ghost predicate MatchOk(a: Abs, p: Peer) {
    p.role == Leader ==>
      forall q :: 0 <= q < |p.matchIndex| ==> p.matchIndex[q] <= 0 || p.matchIndex[q] < Acked(a, q, p.currentTerm)
  }

  ghost predicate LeaderCommitOk(a: Abs, g: AppendArgs) {
    && g.term in a.leaderLog && g.leaderCommit < End(g) <= |a.leaderLog[g.term]|
    && var c := a.leaderLog[g.term][..g.leaderCommit + 1];
       c == [DUMMY] || exists t: nat, k: nat :: t <= g.term && CommittedBy(a, c, t, k)
  }

  ghost predicate SafeMsg(a: Abs, seen: map<(nat, nat), nat>, m: Message) {
    match m
    case AppendReq(to, no, g) =>
      LeaderCommitOk(a, g) && (InTurn(seen, to, g.term, no) ==> Acked(a, to, g.term) <= End(g))
    case AppendRep(from, _, t, prev, len, r) => r.success ==> prev + len < Acked(a, from, t)
    case _ => true
  }

  /** Requests are numbered in the order sent, and later ones reach at least as far. */
  ghost predicate Numbered(s: Sys) {
    && (forall m :: m in s.msgs && m.AppendReq? ==> m.no < s.sent)
    && (forall m, m' :: m in s.msgs && m' in s.msgs && m.AppendReq? && m'.AppendReq?
                        && m.to == m'.to && m.args.term == m'.args.term && m.no <= m'.no ==>
          End(m.args) <= End(m'.args))
  }

  ghost predicate LeaderAcks(a: Abs) {
    forall t :: t in a.winner && t in a.leaderLog ==> Acked(a, a.winner[t], t) == |a.leaderLog[t]|
  }

  ghost predicate AcksSeen(a: Abs, seen: map<(nat, nat), nat>) {
    forall p: nat, t: nat :: Acked(a, p, t) > 0 ==> (p, t) in seen || (t in a.winner && a.winner[t] == p)
  }

  ghost predicate SafeSys(s: Sys) {
    && SysInv(s) && SafeInv(s.abs)
    && LeaderAcks(s.abs) && AcksSeen(s.abs, s.seen) && Numbered(s)
    && (forall i :: 0 <= i < |s.peers| ==> CommitOk(s.abs, s.peers[i], i) && MatchOk(s.abs, s.peers[i]))
    && (forall m :: m in s.msgs ==> SafeMsg(s.abs, s.seen, m))
  }

  lemma InitSafeSys(s: Sys)
    requires SysInit(s)
    ensures SafeSys(s)
  {
    InitOk(s);
    InitSafe(s.abs);
  }

  // ------------------------------------------------------------------
  // What the record never loses

  ghost predicate Extends(a: Abs, b: Abs) {
    && |b.term| == |a.term|
    && (forall p :: 0 <= p < |a.term| ==> a.term[p] <= b.term[p])
    && (forall p: nat, t: nat :: Acked(a, p, t) <= Acked(b, p, t))
    && (forall t :: t in a.leaderLog ==> t in b.leaderLog && a.leaderLog[t] <= b.leaderLog[t])
    && (forall t, k :: OwnEntry(a, t, k) && Chosen(a, t, k) ==> Chosen(b, t, k))
  }

  lemma SafeParts(a: Abs)
    requires SafeInv(a)
    ensures Inv(a) && VotesOk(a) && AcksOk(a)
  {
  }

  lemma StepExtends(a: Abs, st: Step)
    requires SafeInv(a) && InOrder(a, st)
    ensures Extends(a, Apply(a, st))
  {
    hide SafeInv, Apply, Enabled, Inv, VotesOk, AcksOk, Acked, OwnEntry, Chosen;
    SafeParts(a);
    VotesFrame(a, st);
    Growing(a, st);
    forall p: nat, t: nat ensures Acked(a, p, t) <= Acked(Apply(a, st), p, t) {
      AckFrame(a, st, p, t);
    }
    forall t, k | OwnEntry(a, t, k) && Chosen(a, t, k) ensures Chosen(Apply(a, st), t, k) {
      ChosenKept(a, st, t, k);
    }
  }

  lemma ExtendsCommitted(a: Abs, b: Abs, c: Log, t: nat, k: nat)
    requires Extends(a, b) && CommittedBy(a, c, t, k)
    ensures CommittedBy(b, c, t, k)
  {
    assert a.leaderLog[t] <= b.leaderLog[t];
    assert b.leaderLog[t][..k + 1] == a.leaderLog[t][..k + 1];
  }

  lemma CommitKept(a: Abs, b: Abs, p: Peer, i: nat)
    requires Extends(a, b) && CommitOk(a, p, i)
    ensures CommitOk(b, p, i)
  {
    var c := p.log[..p.commitIndex + 1];
    if c != [DUMMY] {
      var t: nat, k: nat :| Backed(a, c, i, t, k);
      ExtendsCommitted(a, b, c, t, k);
      assert Backed(b, c, i, t, k);
    }
  }

  lemma MatchKept(a: Abs, b: Abs, p: Peer)
    requires Extends(a, b) && MatchOk(a, p)
    ensures MatchOk(b, p)
  {
  }

  lemma LeaderCommitKept(a: Abs, b: Abs, g: AppendArgs)
    requires Extends(a, b) && LeaderCommitOk(a, g)
    ensures LeaderCommitOk(b, g)
  {
    var c := a.leaderLog[g.term][..g.leaderCommit + 1];
    assert a.leaderLog[g.term] <= b.leaderLog[g.term];
    assert c == b.leaderLog[g.term][..g.leaderCommit + 1];
    if c != [DUMMY] {
      var t: nat, k: nat :| t <= g.term && CommittedBy(a, c, t, k);
      ExtendsCommitted(a, b, c, t, k);
    }
  }

  lemma ExtendsTrans(a: Abs, b: Abs, c: Abs)
    requires Extends(a, b) && Extends(b, c)
    ensures Extends(a, c)
  {
    forall t | t in a.leaderLog ensures t in c.leaderLog && a.leaderLog[t] <= c.leaderLog[t] {
      assert a.leaderLog[t] <= b.leaderLog[t] && b.leaderLog[t] <= c.leaderLog[t];
    }
    forall t, k | OwnEntry(a, t, k) && Chosen(a, t, k) ensures Chosen(c, t, k) {
      assert a.leaderLog[t] <= b.leaderLog[t];
      assert OwnEntry(b, t, k) && Chosen(b, t, k);
    }
  }

  // ------------------------------------------------------------------
  // The record follows in order

  ghost predicate AllInOrder(a: Abs, steps: seq<Step>)
    decreases |steps|
  {
    steps == [] || (InOrder(a, steps[0]) && AllInOrder(Apply(a, steps[0]), steps[1..]))
  }

  ghost predicate AbsSafe(a: Abs) {
    SafeInv(a) && LeaderAcks(a)
  }

  lemma LeaderAcksKept(a: Abs, st: Step)
    requires SafeInv(a) && LeaderAcks(a) && InOrder(a, st)
    ensures LeaderAcks(Apply(a, st))
  {
    if st.Win? {
      OneWinner(a, st.i, st.q);
    }
    hide Held, HeldVote, Complete, VotesOk, LogsOk;
  }

  lemma {:induction false} EvolveSafe(a: Abs, steps: seq<Step>)
    requires AbsSafe(a) && AllInOrder(a, steps)
    ensures AbsSafe(Evolve(a, steps)) && Extends(a, Evolve(a, steps))
    decreases |steps|
  {
    if steps != [] {
      var b := Apply(a, steps[0]);
      SafeKept(a, steps[0]);
      LeaderAcksKept(a, steps[0]);
      StepExtends(a, steps[0]);
      EvolveSafe(b, steps[1..]);
      hide Apply, Enabled, SafeInv, LeaderAcks, Extends;
      ExtendsTrans(a, b, Evolve(b, steps[1..]));
    }
  }

  lemma {:induction false} EnabledInOrder(a: Abs, steps: seq<Step>)
    requires AllEnabled(a, steps)
    requires forall k :: 0 <= k < |steps| && steps[k].Accept? ==>
               |steps| == 1 && Acked(a, steps[k].i, steps[k].t) <= steps[k].m
    ensures AllInOrder(a, steps)
    decreases |steps|
  {
    hide Apply, Enabled;
    if steps != [] {
      EnabledInOrder(Apply(a, steps[0]), steps[1..]);
    }
  }

  lemma TurnBound(s: Sys, act: Action)
    requires SafeSys(s) && CanInOrder(s, act) && act.RecvAppendReq?
    ensures Acked(s.abs, act.i, act.m.args.term) <= End(act.m.args)
  {
    hide SysInv, SafeInv, Numbered, LeaderCommitOk, CommitOk, MatchOk, AcksSeen, LeaderAcks, Acked;
    assert SafeMsg(s.abs, s.seen, act.m);
  }

  /** Handling requests in turn means never taking over less than before. */
  lemma SysOf(s: Sys)
    requires SafeSys(s)
    ensures SysInv(s)
  {
    hide SysInv, SafeInv, LeaderAcks, AcksSeen, CommitOk, MatchOk, SafeMsg, Numbered;
  }

  lemma TraceInOrder(s: Sys, act: Action)
    requires SafeSys(s) && CanInOrder(s, act)
    ensures AllInOrder(s.abs, Trace(s, act))
  {
    hide SafeSys, SysInv, Can, After, Trace, AllEnabled, AllInOrder, Acked, InTurn;
    assert Can(s, act);
    SysOf(s);
    if act.RecvAppendReq? {
      TurnBound(s, act);
    }
    SysKept(s, act);
    TraceShape(s, act);
    EnabledInOrder(s.abs, Trace(s, act));
  }

  lemma TraceShape(s: Sys, act: Action)
    requires Can(s, act)
    ensures |Trace(s, act)| <= 2
    ensures forall st :: st in Trace(s, act) ==> st.i == act.i
    ensures forall st :: st in Trace(s, act) && st.Accept? ==>
              act.RecvAppendReq? && st == Accept(act.i, act.m.args.term, End(act.m.args)) && Trace(s, act) == [st]
  {
    hide RequestVote, AppendEntries, HandleVoteReply;
  }

  // ------------------------------------------------------------------
  // The acting peer's commit index

  lemma CommitGrows(a: Abs, b: Abs, p: Peer, r: Peer, i: nat)
    requires Extends(a, b) && CommitOk(a, p, i)
    requires p.log <= r.log && r.commitIndex == p.commitIndex && r.snap <= r.commitIndex
    ensures CommitOk(b, r, i)
  {
    CommitKept(a, b, p, i);
    assert r.log[..r.commitIndex + 1] == p.log[..p.commitIndex + 1];
  }

  /** A shorter part of a committed prefix is committed too. */
  lemma CommitShrinks(a: Abs, p: Peer, r: Peer, i: nat)
    requires CommitOk(a, p, i) && r.log == p.log && p.log[0] == DUMMY
    requires r.snap <= r.commitIndex <= p.commitIndex
    ensures CommitOk(a, r, i)
  {
    var c, d := p.log[..p.commitIndex + 1], r.log[..r.commitIndex + 1];
    assert d <= c;
    if d != [DUMMY] {
      var t: nat, k: nat :| Backed(a, c, i, t, k);
      PrefixTrans(d, c, Upto(a, t, k));
      assert Backed(a, d, i, t, k);
    }
  }

  lemma BackedTerm(a: Abs, c: Log, i: nat, t: nat, k: nat)
    requires AcksOk(a) && i < |a.term| && Backed(a, c, i, t, k) && c != []
    ensures t <= a.term[i]
  {
    assert t < a.term[i] || Acked(a, i, t) > 0;
  }

  /** What a peer had committed is still there after it takes over a leader's log. */
  lemma CommitSurvives(a: Abs, i: nat, u: nat, m: nat, c: Log, t: nat, k: nat)
    requires SafeInv(a) && InOrder(a, Accept(i, u, m)) && Backed(a, c, i, t, k) && c != []
    ensures c <= a.leaderLog[u][..m]
  {
    hide SafeInv, Inv, VotesOk, AcksOk, Chosen, Acked;
    SafeParts(a);
    BackedTerm(a, c, i, t, k);
    if t < u {
      ElectedWith(a, t, k, u);
      PrefixTrans(c, Upto(a, t, k), a.initLog[u]);
      PrefixTrans(c, a.initLog[u], a.leaderLog[u]);
    } else {
      PrefixTrans(c, Upto(a, t, k), a.leaderLog[u]);
    }
    PrefixCut(c, a.leaderLog[u], m);
  }

  lemma BackedKept(a: Abs, b: Abs, c: Log, i: nat, t: nat, k: nat)
    requires Extends(a, b) && i < |a.term| && Backed(a, c, i, t, k)
    ensures Backed(b, c, i, t, k)
  {
    ExtendsCommitted(a, b, c, t, k);
    hide CommittedBy;
  }

  lemma AcceptFrame(a: Abs, i: nat, u: nat, m: nat)
    requires Inv(a) && InOrder(a, Accept(i, u, m))
    ensures var b := Apply(a, Accept(i, u, m));
            && i < |a.term| == |b.term| && b.term[i] == u && Acked(b, i, u) == m
            && u in a.leaderLog && 0 < m <= |a.leaderLog[u]| && a.leaderLog[u][0] == DUMMY
  {
    assert LeaderOk(a, u);
    hide VotesOk, LogsOk, LeadersOk;
  }

  lemma CommitOkBy(b: Abs, r: Peer, i: nat, c: Log, t: nat, k: nat)
    requires i < |b.term| && r.snap <= r.commitIndex < |r.log| && r.log[..r.commitIndex + 1] == c
    requires Backed(b, c, i, t, k)
    ensures CommitOk(b, r, i)
  {
    hide Backed;
  }

  lemma AcceptKeepsCommit(a: Abs, b: Abs, p: Peer, r: Peer, i: nat, u: nat, m: nat)
    requires SafeInv(a) && CommitOk(a, p, i) && InOrder(a, Accept(i, u, m)) && Extends(a, b)
    requires u in a.leaderLog && 0 < m <= |a.leaderLog[u]| && a.leaderLog[u][0] == DUMMY
    requires r.log == a.leaderLog[u][..m] && r.commitIndex == p.commitIndex && r.snap == p.snap
    ensures CommitOk(b, r, i)
  {
    hide SafeInv, InOrder, Extends;
    var c := p.log[..p.commitIndex + 1];
    if c != [DUMMY] {
      var t: nat, k: nat :| Backed(a, c, i, t, k);
      hide Backed;
      CommitSurvives(a, i, u, m, c, t, k);
      BackedKept(a, b, c, i, t, k);
      SameLength(a, b);
      assert r.log[..r.commitIndex + 1] == c;
      CommitOkBy(b, r, i, c, t, k);
    } else {
      SameLength(a, b);
      assert |c| == 1;
      assert r.log[..1] == [DUMMY];
    }
  }

  lemma SameLength(a: Abs, b: Abs)
    requires Extends(a, b)
    ensures |a.term| == |b.term|
  {
  }

  lemma AcceptMovesCommit(a: Abs, b: Abs, r: Peer, i: nat, g: AppendArgs)
    requires LeaderCommitOk(a, g) && Extends(a, b) && i < |b.term|
    requires b.term[i] == g.term && Acked(b, i, g.term) == End(g)
    requires r.log == a.leaderLog[g.term][..End(g)] && r.commitIndex == g.leaderCommit && r.snap <= r.commitIndex
    ensures CommitOk(b, r, i)
  {
    hide Extends, Acked, CommittedBy;
    var c := a.leaderLog[g.term][..g.leaderCommit + 1];
    assert r.log[..r.commitIndex + 1] == c;
    if c != [DUMMY] {
      var t: nat, k: nat :| t <= g.term && CommittedBy(a, c, t, k);
      ExtendsCommitted(a, b, c, t, k);
      assert Backed(b, c, i, t, k);
      CommitOkBy(b, r, i, c, t, k);
    }
  }

  /** The peer and the record once a request has been taken over. */
  lemma AcceptOutcome(impl: Impl, a: Abs, p: Peer, i: nat, g: AppendArgs)
    requires Inv(a) && PeerOk(a, p, i) && AppendReqOk(a, i, g)
    requires g.term >= p.currentTerm && AppendEntries(impl, p, g).1.success
    requires InOrder(a, Accept(i, g.term, End(g)))
    ensures var b, r := Apply(a, Accept(i, g.term, End(g))), AppendEntries(impl, p, g).0;
            && i < |a.term| == |b.term| && b.term[i] == g.term && Acked(b, i, g.term) == End(g)
            && g.term in a.leaderLog && 0 < End(g) <= |a.leaderLog[g.term]| && a.leaderLog[g.term][0] == DUMMY
            && r.log == a.leaderLog[g.term][..End(g)] && r.snap == p.snap
            && r.commitIndex == FollowerCommit(impl, p.commitIndex, g.leaderCommit, End(g) - 1)
  {
    hide PeerOk, AppendReqOk, AppendEntries, AppendFrom, Durable, FollowerCommit, Apply, Enabled, InOrder, Acked, Inv;
    AcceptFrame(a, i, g.term, End(g));
    AcceptResult(impl, p, g);
    AcceptedPrefix(a, p, i, g);
    assert |a.leaderLog[g.term][..End(g)]| == End(g);
  }

  lemma AcceptStart(a: Abs, p: Peer, i: nat, g: AppendArgs)
    requires SafeInv(a) && PeerOk(a, p, i) && CommitOk(a, p, i) && LeaderCommitOk(a, g)
    ensures p.snap <= p.commitIndex && g.leaderCommit < End(g) && Inv(a)
  {
    hide Inv, PeerOk, Chosen;
  }

  lemma AcceptCommit(impl: Impl, a: Abs, p: Peer, i: nat, g: AppendArgs)
    requires SafeInv(a) && PeerOk(a, p, i) && CommitOk(a, p, i) && AppendReqOk(a, i, g) && LeaderCommitOk(a, g)
    requires g.term >= p.currentTerm && AppendEntries(impl, p, g).1.success
    requires InOrder(a, Accept(i, g.term, End(g)))
    ensures CommitOk(Apply(a, Accept(i, g.term, End(g))), AppendEntries(impl, p, g).0, i)
  {
    assert Enabled(a, Accept(i, g.term, End(g)));
    hide SafeInv, Inv, PeerOk, CommitOk, AppendReqOk, LeaderCommitOk, AppendEntries, InOrder, Apply, Extends, Acked,
         Enabled;
    AcceptStart(a, p, i, g);
    AcceptOutcome(impl, a, p, i, g);
    StepExtends(a, Accept(i, g.term, End(g)));
    var b, r := Apply(a, Accept(i, g.term, End(g))), AppendEntries(impl, p, g).0;
    if g.leaderCommit <= p.commitIndex {
      AcceptKeepsCommit(a, b, p, r, i, g.term, End(g));
    } else {
      AcceptMovesCommit(a, b, r, i, g);
    }
  }

  /** The commit rule: what a majority has matched, up to an entry of the leader's own term, is chosen. */
  lemma MajorityChosen(a: Abs, p: Peer, k: nat)
    requires MatchOk(a, p) && p.role == Leader && |p.matchIndex| == |a.term| > 0
    requires 0 < k <= MajorityIndex(p.matchIndex)
    ensures Chosen(a, p.currentTerm, k)
  {
    var held, r := p.matchIndex, MajorityIndex(p.matchIndex);
    var q := Holders(held, r);
    assert Quorum(|a.term|, q);
    forall v | v in q ensures Acked(a, v, p.currentTerm) > k {
      assert held[v] >= r;
    }
    assert ChosenBy(a, p.currentTerm, k, q);
  }

  lemma LeaderCommits(a: Abs, p: Peer, i: nat)
    requires SafeInv(a) && LeaderAcks(a) && PeerOk(a, p, i) && CommitOk(a, p, i) && MatchOk(a, p) && p.role == Leader
    ensures CommitOk(a, UpdateCommit(p), i)
  {
    var r := UpdateCommit(p);
    if r != p {
      var k, t := r.commitIndex, p.currentTerm;
      MajorityChosen(a, p, k);
      hide SafeInv, MatchOk, Chosen;
      var c := p.log[..k + 1];
      assert OwnEntry(a, t, k) && Upto(a, t, k) == c;
      assert CommittedBy(a, c, t, k);
      assert Acked(a, i, t) == |p.log|;
      assert Backed(a, c, i, t, k);
    }
  }

  // ------------------------------------------------------------------
  // Acknowledgements change only by taking over, or by leading

  lemma AckStep(a: Abs, st: Step, p: nat, t: nat)
    requires SafeInv(a) && InOrder(a, st) && !(st.Accept? && st.i == p && st.t == t)
    ensures var b := Apply(a, st);
            Acked(b, p, t) == Acked(a, p, t) || (t in b.winner && b.winner[t] == p)
  {
    AckFrame(a, st, p, t);
    hide SafeInv, Acked;
  }

  lemma {:induction false} WinnersStay(a: Abs, steps: seq<Step>, t: nat)
    requires AbsSafe(a) && AllInOrder(a, steps) && t in a.winner
    ensures t in Evolve(a, steps).winner && Evolve(a, steps).winner[t] == a.winner[t]
    decreases |steps|
  {
    if steps != [] {
      SafeKept(a, steps[0]);
      LeaderAcksKept(a, steps[0]);
      WinnerKept(a, steps[0], t);
      hide Apply, Enabled, SafeInv, LeaderAcks;
      WinnersStay(Apply(a, steps[0]), steps[1..], t);
    }
  }

  lemma {:induction false} EvolveAcks(a: Abs, steps: seq<Step>, p: nat, t: nat)
    requires AbsSafe(a) && AllInOrder(a, steps)
    requires forall st :: st in steps ==> !(st.Accept? && st.i == p && st.t == t)
    ensures var b := Evolve(a, steps);
            Acked(b, p, t) == Acked(a, p, t) || (t in b.winner && b.winner[t] == p)
    decreases |steps|
  {
    if steps != [] {
      assert steps[0] in steps;
      var b := Apply(a, steps[0]);
      AckStep(a, steps[0], p, t);
      SafeKept(a, steps[0]);
      LeaderAcksKept(a, steps[0]);
      hide Apply, Enabled, SafeInv, LeaderAcks, Acked;
      if t in b.winner && b.winner[t] == p {
        WinnersStay(b, steps[1..], t);
      } else {
        EvolveAcks(b, steps[1..], p, t);
      }
    }
  }

  ghost predicate TakesOver(s: Sys, act: Action)
    requires Can(s, act)
  {
    && act.RecvAppendReq? && act.m.args.term >= s.peers[act.i].currentTerm
    && AppendEntries(s.impl, s.peers[act.i], act.m.args).1.success
  }

  lemma TraceAccepts(s: Sys, act: Action)
    requires Can(s, act)
    ensures TakesOver(s, act) ==> Trace(s, act) == [Accept(act.i, act.m.args.term, End(act.m.args))]
    ensures !TakesOver(s, act) ==> forall st :: st in Trace(s, act) ==> !st.Accept?
  {
    hide RequestVote, AppendEntries, HandleVoteReply;
  }

  lemma RecordSafe(s: Sys, act: Action)
    requires SafeSys(s) && CanInOrder(s, act)
    ensures AbsSafe(After(s, act).abs) && Extends(s.abs, After(s, act).abs)
  {
    TraceInOrder(s, act);
    hide SafeInv, LeaderAcks, SysInv, Trace, Extends, Can;
    EvolveSafe(s.abs, Trace(s, act));
  }

  lemma RecordAcks(s: Sys, act: Action, p: nat, t: nat)
    requires SafeSys(s) && CanInOrder(s, act)
    requires !(TakesOver(s, act) && p == act.i && t == act.m.args.term)
    ensures var b := After(s, act).abs;
            Acked(b, p, t) == Acked(s.abs, p, t) || (t in b.winner && b.winner[t] == p)
  {
    TraceInOrder(s, act);
    TraceAccepts(s, act);
    hide SafeInv, LeaderAcks, SysInv, Trace, Can, TakesOver, Acked;
    EvolveAcks(s.abs, Trace(s, act), p, t);
  }

  lemma RecordWinners(s: Sys, act: Action, t: nat)
    requires SafeSys(s) && CanInOrder(s, act) && t in s.abs.winner
    ensures t in After(s, act).abs.winner && After(s, act).abs.winner[t] == s.abs.winner[t]
  {
    TraceInOrder(s, act);
    hide SafeInv, LeaderAcks, SysInv, Trace, Can;
    WinnersStay(s.abs, Trace(s, act), t);
  }

  lemma RecordTaken(s: Sys, act: Action)
    requires SafeSys(s) && CanInOrder(s, act) && TakesOver(s, act)
    ensures var st := Accept(act.i, act.m.args.term, End(act.m.args));
            InOrder(s.abs, st) && After(s, act).abs == Apply(s.abs, st)
            && Acked(After(s, act).abs, act.i, act.m.args.term) == End(act.m.args)
  {
    TraceInOrder(s, act);
    TraceAccepts(s, act);
    var st := Accept(act.i, act.m.args.term, End(act.m.args));
    assert InOrder(s.abs, st);
    AcceptFrame(s.abs, st.i, st.t, st.m);
    EvolveOne(s.abs, st);
    hide SafeInv, LeaderAcks, SysInv, Trace, Can, TakesOver, InOrder, Apply, Evolve, Acked;
  }

  // ------------------------------------------------------------------
  // Messages

  lemma ReqFacts(s: Sys, m: Message)
    requires SafeSys(s) && m in s.msgs && m.AppendReq?
    ensures SafeMsg(s.abs, s.seen, m)
    ensures m.args.term in s.abs.winner && s.abs.winner[m.args.term] != m.to
  {
    assert MsgOk(s.abs, m);
    hide SafeInv, LeaderCommitOk, Acked, InTurn;
  }

  lemma ReqLaterEnds(s: Sys, m: Message, m': Message)
    requires Numbered(s) && m in s.msgs && m' in s.msgs && m.AppendReq? && m'.AppendReq?
    requires m.to == m'.to && m.args.term == m'.args.term && m.no <= m'.no
    ensures End(m.args) <= End(m'.args)
  {
  }

  /** The peer that just handled a request is still no further than the requests not yet behind it. */
  lemma ReqKeptSame(s: Sys, act: Action, m: Message)
    requires SafeSys(s) && CanInOrder(s, act) && m in s.msgs && m.AppendReq? && act.RecvAppendReq?
    requires act.i == m.to && act.m.args.term == m.args.term && act.m.no <= m.no
    ensures Acked(After(s, act).abs, m.to, m.args.term) <= End(m.args)
  {
    ReqFacts(s, m);
    RecordWinners(s, act, m.args.term);
    assert Numbered(s) && act.m in s.msgs && act.m.AppendReq? && act.m.to == act.i;
    ReqLaterEnds(s, act.m, m);
    if TakesOver(s, act) {
      RecordTaken(s, act);
    } else {
      RecordAcks(s, act, m.to, m.args.term);
      assert InTurn(s.seen, m.to, m.args.term, m.no);
    }
    hide SafeSys, After, Acked, LeaderCommitOk, Can, TakesOver, InTurn;
  }

  lemma ReqKeptOther(s: Sys, act: Action, m: Message)
    requires SafeSys(s) && CanInOrder(s, act) && m in s.msgs && m.AppendReq?
    requires !(act.RecvAppendReq? && act.i == m.to && act.m.args.term == m.args.term)
    requires InTurn(s.seen, m.to, m.args.term, m.no)
    ensures Acked(After(s, act).abs, m.to, m.args.term) <= End(m.args)
  {
    ReqFacts(s, m);
    RecordWinners(s, act, m.args.term);
    RecordAcks(s, act, m.to, m.args.term);
    hide SafeSys, After, Acked, LeaderCommitOk, Can, TakesOver, InTurn;
  }

  lemma ReqKeptStale(s: Sys, act: Action, m: Message)
    requires SafeSys(s) && CanInOrder(s, act) && m in s.msgs && m.AppendReq?
    requires act.RecvAppendReq? && act.m.args.term < s.peers[act.i].currentTerm
    requires InTurn(s.seen, m.to, m.args.term, m.no)
    ensures Acked(After(s, act).abs, m.to, m.args.term) <= End(m.args)
  {
    ReqFacts(s, m);
    RecordWinners(s, act, m.args.term);
    RecordAcks(s, act, m.to, m.args.term);
    hide SafeSys, After, Acked, LeaderCommitOk, Can, TakesOver, InTurn;
  }

  lemma SeenAfter(s: Sys, act: Action)
    requires Can(s, act)
    ensures After(s, act).seen ==
              if act.RecvAppendReq? && act.m.args.term >= s.peers[act.i].currentTerm
              then s.seen[(act.i, act.m.args.term) := act.m.no] else s.seen
  {
    hide Trace, PeerAfter, NewMessages;
  }

  lemma ReqKept(s: Sys, act: Action, m: Message)
    requires SafeSys(s) && CanInOrder(s, act) && m in s.msgs && m.AppendReq?
    requires InTurn(After(s, act).seen, m.to, m.args.term, m.no)
    ensures Acked(After(s, act).abs, m.to, m.args.term) <= End(m.args)
  {
    hide SafeSys, After, Acked;
    SeenAfter(s, act);
    if act.RecvAppendReq? && act.m.args.term < s.peers[act.i].currentTerm {
      ReqKeptStale(s, act, m);
    } else if act.RecvAppendReq? && act.i == m.to && act.m.args.term == m.args.term {
      ReqKeptSame(s, act, m);
    } else {
      ReqKeptOther(s, act, m);
    }
  }

  lemma WasSafeMsg(s: Sys, m: Message)
    requires SafeSys(s) && m in s.msgs
    ensures SafeMsg(s.abs, s.seen, m)
  {
    hide SysInv, SafeInv, LeaderAcks, AcksSeen, Numbered, SafeMsg, CommitOk, MatchOk;
  }

  lemma OldMsgSafe(s: Sys, act: Action, m: Message)
    requires SafeSys(s) && CanInOrder(s, act) && m in s.msgs
    ensures SafeMsg(After(s, act).abs, After(s, act).seen, m)
  {
    hide SafeSys, CanInOrder, After, AbsSafe, LeaderCommitOk, Acked;
    WasSafeMsg(s, m);
    SysInvAfter(s, act);
    var a, b := s.abs, After(s, act).abs;
    RecordSafe(s, act);
    if m.AppendReq? {
      hide Extends;
      if InTurn(After(s, act).seen, m.to, m.args.term, m.no) {
        ReqKept(s, act, m);
      }
      LeaderCommitKept(a, b, m.args);
    }
  }

  /** A leader's request reaches to the end of its log. */
  lemma SendShape(a: Abs, p: Peer, i: nat, q: nat)
    requires PeerOk(a, p, i) && Replicate(p, i, q).Some?
    ensures var g := Replicate(p, i, q).value;
            g.term == p.currentTerm == a.term[i] && g.leaderCommit == p.commitIndex
            && g.term in a.leaderLog && a.leaderLog[g.term] == p.log && End(g) == |p.log|
  {
    hide Durable, Voted, CandidateRole;
  }

  lemma CommitSent(a: Abs, p: Peer, i: nat, g: AppendArgs)
    requires AcksOk(a) && CommitOk(a, p, i) && g.leaderCommit == p.commitIndex && End(g) == |p.log|
    requires g.term == a.term[i] && g.term in a.leaderLog && a.leaderLog[g.term] == p.log
    ensures LeaderCommitOk(a, g)
  {
    hide AcksOk, CommittedBy, Acked;
    var c := p.log[..p.commitIndex + 1];
    if c != [DUMMY] {
      var t: nat, k: nat :| Backed(a, c, i, t, k);
      BackedTerm(a, c, i, t, k);
    }
  }

  lemma AckBound(a: Abs, q: nat, t: nat)
    requires AcksOk(a) && t in a.leaderLog
    ensures Acked(a, q, t) <= |a.leaderLog[t]|
  {
    hide Acked;
  }

  lemma SendSafe(a: Abs, p: Peer, i: nat, q: nat)
    requires AcksOk(a) && PeerOk(a, p, i) && CommitOk(a, p, i) && Replicate(p, i, q).Some?
    ensures var g := Replicate(p, i, q).value;
            LeaderCommitOk(a, g) && Acked(a, q, g.term) <= End(g) == |a.leaderLog[g.term]|
  {
    hide AcksOk, PeerOk, CommitOk, LeaderCommitOk, Replicate, Acked;
    SendShape(a, p, i, q);
    var g := Replicate(p, i, q).value;
    CommitSent(a, p, i, g);
    AckBound(a, q, g.term);
  }

  lemma NewReqSafe(s: Sys, act: Action)
    requires SafeSys(s) && CanInOrder(s, act) && act.Send?
    ensures var g := Replicate(s.peers[act.i], act.i, act.q).value;
            LeaderCommitOk(s.abs, g) && Acked(s.abs, act.q, g.term) <= End(g) == |s.abs.leaderLog[g.term]|
  {
    assert PeerOk(s.abs, s.peers[act.i], act.i) && CommitOk(s.abs, s.peers[act.i], act.i) && AcksOk(s.abs);
    hide SafeSys, PeerOk, CommitOk, LeaderCommitOk, AcksOk, Acked;
    SendSafe(s.abs, s.peers[act.i], act.i, act.q);
  }

  lemma SentMsgSafe(s: Sys, act: Action, m: Message)
    requires SafeSys(s) && CanInOrder(s, act) && m in NewMessages(s, act) && act.Send?
    ensures SafeMsg(After(s, act).abs, After(s, act).seen, m)
  {
    hide SafeSys, LeaderCommitOk, Acked, Replicate;
    NewReqSafe(s, act);
    assert After(s, act).abs == s.abs;
  }

  lemma AckMsgSafe(s: Sys, act: Action, m: Message)
    requires SafeSys(s) && CanInOrder(s, act) && m in NewMessages(s, act) && m.AppendRep? && m.areply.success
    ensures SafeMsg(After(s, act).abs, After(s, act).seen, m)
  {
    hide SafeSys, Acked, RequestVote, Replicate;
    assert TakesOver(s, act);
    hide After, AppendEntries;
    RecordTaken(s, act);
  }

  lemma NewMsgSafe(s: Sys, act: Action, m: Message)
    requires SafeSys(s) && CanInOrder(s, act) && m in NewMessages(s, act)
    ensures SafeMsg(After(s, act).abs, After(s, act).seen, m)
  {
    hide SafeSys, Acked, After, AppendEntries, RequestVote, Replicate, LeaderCommitOk;
    if act.Send? {
      SentMsgSafe(s, act, m);
    } else if m.AppendRep? && m.areply.success {
      AckMsgSafe(s, act, m);
    }
  }

  // ------------------------------------------------------------------
  // Peers

  /** Handlers that leave the log, the commit index and the snapshot alone, or only add to the log. */
  lemma PlainCommit(s: Sys, act: Action)
    requires Can(s, act) && !act.Crash? && !act.TakeSnapshot? && !act.RecvAppendRep? && !TakesOver(s, act)
    ensures var p, r := s.peers[act.i], PeerAfter(s, act);
            p.log <= r.log && r.commitIndex == p.commitIndex && r.snap == p.snap
  {
  }

  lemma PlainMatch(s: Sys, act: Action)
    requires Can(s, act) && !act.SelfMatch? && !act.RecvAppendRep?
    ensures var p, r := s.peers[act.i], PeerAfter(s, act);
            r.role == Leader ==> (p.role == Leader && r.currentTerm == p.currentTerm && r.matchIndex == p.matchIndex)
                                 || r.matchIndex == Zeros(|p.matchIndex|)
  {
  }

  lemma CrashCommit(a: Abs, p: Peer, i: nat)
    requires PeerOk(a, p, i) && CommitOk(a, p, i) && Inv(a)
    ensures CommitOk(a, Restart(p, |a.term|), i)
  {
    CrashPeer(a, p, i);
    assert p.log[0] == DUMMY by {
      assert LogOk(a, i);
    }
    var r := Restart(p, |a.term|);
    assert r.commitIndex == r.snap;
    hide Inv, PeerOk;
    CommitShrinks(a, p, r, i);
  }

  lemma CompactCommit(a: Abs, p: Peer, i: nat, index: nat)
    requires CommitOk(a, p, i)
    ensures CommitOk(a, Compact(p, index), i)
  {
    hide Backed;
  }

  lemma SelfMatched(a: Abs, p: Peer, i: nat)
    requires LeaderAcks(a) && PeerOk(a, p, i) && MatchOk(a, p)
    ensures MatchOk(a, MatchSelf(p, i))
  {
  }

  lemma Matched(a: Abs, p: Peer, q: nat, prev: nat, len: nat)
    requires MatchOk(a, p) && q < |p.matchIndex| && q < |p.nextIndex| && prev + len < Acked(a, q, p.currentTerm)
    ensures MatchOk(a, p.(matchIndex := p.matchIndex[q := prev + len], nextIndex := p.nextIndex[q := prev + len + 1]))
  {
  }

  lemma CommitSame(a: Abs, p: Peer, r: Peer, i: nat)
    requires CommitOk(a, p, i) && r.log == p.log && r.commitIndex == p.commitIndex && r.snap == p.snap
    ensures CommitOk(a, r, i)
  {
    hide Backed;
  }

  lemma MatchSame(a: Abs, p: Peer, r: Peer)
    requires MatchOk(a, p)
    requires r.role == Leader ==> (p.role == Leader && r.currentTerm == p.currentTerm && r.matchIndex == p.matchIndex)
                                  || r.matchIndex == Zeros(|p.matchIndex|)
    ensures MatchOk(a, r)
  {
  }

  lemma ReplyCases(impl: Impl, p: Peer, q: nat, t: nat, prev: nat, len: nat, reply: AppendReply)
    requires reply.term <= p.currentTerm
    ensures var r := HandleAppendReply(impl, p, q, t, prev, len, reply);
            if ContextLost(p, Leader, t) || q >= |p.nextIndex| || q >= |p.matchIndex| then r == p
            else if reply.success then
              r == UpdateCommit(p.(matchIndex := p.matchIndex[q := prev + len],
                  nextIndex := p.nextIndex[q := prev + len + 1]))
            else r == p.(nextIndex := r.nextIndex)
  {
    hide UpdateCommit;
  }

  lemma MatchedSafe(a: Abs, p: Peer, i: nat, q: nat, prev: nat, len: nat)
    requires SafeInv(a) && LeaderAcks(a) && PeerOk(a, p, i) && CommitOk(a, p, i) && MatchOk(a, p) && p.role == Leader
    requires q < |p.matchIndex| && q < |p.nextIndex| && prev + len < Acked(a, q, p.currentTerm)
    ensures var m := p.(matchIndex := p.matchIndex[q := prev + len], nextIndex := p.nextIndex[q := prev + len + 1]);
            CommitOk(a, UpdateCommit(m), i) && MatchOk(a, UpdateCommit(m))
  {
    var m := p.(matchIndex := p.matchIndex[q := prev + len], nextIndex := p.nextIndex[q := prev + len + 1]);
    Matched(a, p, q, prev, len);
    SameCoreOk(a, p, m, i);
    CommitSame(a, p, m, i);
    LeaderCommits(a, m, i);
    assert UpdateCommit(m).role == m.role && UpdateCommit(m).currentTerm == m.currentTerm
           && UpdateCommit(m).matchIndex == m.matchIndex;
    hide SafeInv, PeerOk, CommitOk, LeaderAcks, MatchOk, UpdateCommit;
    MatchSame(a, m, UpdateCommit(m));
  }

  lemma AppendReplySafe(impl: Impl, a: Abs, p: Peer, i: nat, q: nat, t: nat, prev: nat, len: nat, reply: AppendReply)
    requires SafeInv(a) && LeaderAcks(a) && PeerOk(a, p, i) && CommitOk(a, p, i) && MatchOk(a, p)
    requires reply.success ==> prev + len < Acked(a, q, t)
    requires reply.term <= p.currentTerm
    ensures var r := HandleAppendReply(impl, p, q, t, prev, len, reply);
            CommitOk(a, r, i) && MatchOk(a, r)
  {
    var r := HandleAppendReply(impl, p, q, t, prev, len, reply);
    ReplyCases(impl, p, q, t, prev, len, reply);
    hide HandleAppendReply, UpdateCommit, SafeInv, PeerOk, CommitOk, LeaderAcks, MatchOk, Acked;
    if ContextLost(p, Leader, t) || q >= |p.nextIndex| || q >= |p.matchIndex| {
    } else if reply.success {
      MatchedSafe(a, p, i, q, prev, len);
    } else {
      CommitSame(a, p, r, i);
      MatchSame(a, p, r);
    }
  }

  lemma PlainPeerSafe(s: Sys, act: Action)
    requires SafeSys(s) && CanInOrder(s, act)
    requires !act.Crash? && !act.TakeSnapshot? && !act.RecvAppendRep? && !TakesOver(s, act)
    ensures CommitOk(After(s, act).abs, PeerAfter(s, act), act.i)
  {
    PlainCommit(s, act);
    RecordSafe(s, act);
    var p := s.peers[act.i];
    assert CommitOk(s.abs, p, act.i);
    assert p.snap <= p.commitIndex;
    hide SafeSys, After, PeerAfter, CommitOk, TakesOver, CanInOrder, AbsSafe, Extends;
    CommitGrows(s.abs, After(s, act).abs, p, PeerAfter(s, act), act.i);
  }

  lemma TakeOverSafe(s: Sys, act: Action)
    requires SafeSys(s) && CanInOrder(s, act) && TakesOver(s, act)
    ensures CommitOk(After(s, act).abs, PeerAfter(s, act), act.i)
  {
    hide SafeSys, After, PeerAfter, CommitOk, SafeInv, PeerOk, AppendReqOk, LeaderCommitOk, InOrder, Apply,
         AppendEntries;
    RecordTaken(s, act);
    TakeOverFacts(s, act);
    AcceptCommit(s.impl, s.abs, s.peers[act.i], act.i, act.m.args);
  }

  lemma TakeOverFacts(s: Sys, act: Action)
    requires SafeSys(s) && Can(s, act) && TakesOver(s, act)
    ensures var p, g, i := s.peers[act.i], act.m.args, act.i;
            && SafeInv(s.abs) && PeerOk(s.abs, p, i) && CommitOk(s.abs, p, i)
            && AppendReqOk(s.abs, i, g) && LeaderCommitOk(s.abs, g)
            && PeerAfter(s, act) == AppendEntries(s.impl, p, g).0
  {
    assert MsgOk(s.abs, act.m) && SafeMsg(s.abs, s.seen, act.m);
    hide CommitOk, SafeInv, PeerOk, AppendReqOk, LeaderCommitOk, AppendEntries;
  }

  /** Events that do not touch the record. */
  lemma RecordSame(s: Sys, act: Action)
    requires Can(s, act)
    requires act.Crash? || act.TakeSnapshot? || act.SelfMatch?
             || (act.RecvAppendRep? && act.m.areply.term <= s.peers[act.i].currentTerm)
    ensures After(s, act).abs == s.abs
  {
    assert Trace(s, act) == [];
    hide PeerAfter, NewMessages, Trace;
  }

  lemma LocalCommitSafe(s: Sys, act: Action)
    requires SafeSys(s) && CanInOrder(s, act) && (act.Crash? || act.TakeSnapshot?)
    ensures CommitOk(After(s, act).abs, PeerAfter(s, act), act.i)
  {
    RecordSame(s, act);
    var p := s.peers[act.i];
    assert PeerOk(s.abs, p, act.i) && CommitOk(s.abs, p, act.i);
    hide After, PeerOk, CommitOk, SafeInv, Restart, Compact;
    if act.Crash? {
      assert Inv(s.abs);
      CrashCommit(s.abs, p, act.i);
    } else {
      CompactCommit(s.abs, p, act.i, act.index);
    }
  }

  lemma AppendRepSafe(s: Sys, act: Action)
    requires SafeSys(s) && CanInOrder(s, act) && act.RecvAppendRep?
    ensures CommitOk(After(s, act).abs, PeerAfter(s, act), act.i)
    ensures MatchOk(After(s, act).abs, PeerAfter(s, act))
  {
    var p, m := s.peers[act.i], act.m;
    assert PeerOk(s.abs, p, act.i) && CommitOk(s.abs, p, act.i) && MatchOk(s.abs, p);
    if m.areply.term > p.currentTerm {
      RecordSafe(s, act);
      var r := PeerAfter(s, act);
      assert r.role == Follower && r.log == p.log && r.commitIndex == p.commitIndex && r.snap == p.snap;
      assert p.snap <= p.commitIndex;
      hide SafeSys, After, PeerAfter, CommitOk, CanInOrder, AbsSafe, Extends;
      CommitGrows(s.abs, After(s, act).abs, p, r, act.i);
    } else {
      RecordSame(s, act);
      assert SafeMsg(s.abs, s.seen, m);
      hide After, PeerOk, CommitOk, MatchOk, SafeInv, HandleAppendReply, Acked, LeaderAcks;
      AppendReplySafe(s.impl, s.abs, p, act.i, m.from, m.aterm, m.prev, m.len, m.areply);
    }
  }

  lemma PlainMatchSafe(s: Sys, act: Action)
    requires SafeSys(s) && CanInOrder(s, act) && !act.SelfMatch? && !act.RecvAppendRep?
    ensures MatchOk(After(s, act).abs, PeerAfter(s, act))
  {
    PlainMatch(s, act);
    RecordSafe(s, act);
    assert MatchOk(s.abs, s.peers[act.i]);
    hide SafeSys, After, PeerAfter, CanInOrder, AbsSafe, Extends, MatchOk;
    MatchKept(s.abs, After(s, act).abs, s.peers[act.i]);
    MatchSame(After(s, act).abs, s.peers[act.i], PeerAfter(s, act));
  }

  lemma SelfMatchSafe(s: Sys, act: Action)
    requires SafeSys(s) && CanInOrder(s, act) && act.SelfMatch?
    ensures MatchOk(After(s, act).abs, PeerAfter(s, act))
  {
    RecordSame(s, act);
    assert PeerOk(s.abs, s.peers[act.i], act.i) && MatchOk(s.abs, s.peers[act.i]);
    hide After, PeerOk, MatchOk, SafeInv, MatchSelf;
    SelfMatched(s.abs, s.peers[act.i], act.i);
  }

  lemma ActingSafe(s: Sys, act: Action)
    requires SafeSys(s) && CanInOrder(s, act)
    ensures CommitOk(After(s, act).abs, PeerAfter(s, act), act.i)
    ensures MatchOk(After(s, act).abs, PeerAfter(s, act))
  {
    hide SafeSys, CommitOk, MatchOk, After, PeerAfter, Can;
    if act.RecvAppendRep? {
      AppendRepSafe(s, act);
    } else {
      if act.SelfMatch? {
        SelfMatchSafe(s, act);
      } else {
        PlainMatchSafe(s, act);
      }
      if act.Crash? || act.TakeSnapshot? {
        LocalCommitSafe(s, act);
      } else if TakesOver(s, act) {
        TakeOverSafe(s, act);
      } else {
        PlainPeerSafe(s, act);
      }
    }
  }

  // ------------------------------------------------------------------
  // All together

  lemma NumberedAdd(s: Sys, s': Sys, m: Message)
    requires Numbered(s) && s'.msgs == s.msgs + {m} && s'.sent == s.sent + 1 && m.AppendReq? && m.no == s.sent
    requires forall o :: o in s.msgs && o.AppendReq? && o.args.term == m.args.term ==> End(o.args) <= End(m.args)
    ensures Numbered(s')
  {
    hide End;
  }

  lemma NumberedSame(s: Sys, s': Sys, more: set<Message>)
    requires Numbered(s) && s'.msgs == s.msgs + more && s'.sent == s.sent && forall m :: m in more ==> !m.AppendReq?
    ensures Numbered(s')
  {
    hide End;
  }

  lemma SentBounded(s: Sys, m: Message)
    requires SafeSys(s) && m in s.msgs && m.AppendReq?
    ensures m.args.term in s.abs.leaderLog && End(m.args) <= |s.abs.leaderLog[m.args.term]|
  {
    assert SafeMsg(s.abs, s.seen, m);
    hide SafeInv, SysInv, Numbered;
  }

  lemma NumberedKept(s: Sys, act: Action)
    requires SafeSys(s) && CanInOrder(s, act)
    ensures Numbered(After(s, act))
  {
    hide SafeSys, After, Can, NewMessages, Numbered, LeaderCommitOk, Acked, Replicate;
    assert Can(s, act);
    NumbersOf(s);
    SentAfter(s, act);
    if act.Send? {
      var g := Replicate(s.peers[act.i], act.i, act.q).value;
      NewReqSafe(s, act);
      forall o | o in s.msgs && o.AppendReq? && o.args.term == g.term ensures End(o.args) <= End(g) {
        SentBounded(s, o);
      }
      NumberedAdd(s, After(s, act), AppendReq(act.q, s.sent, g));
    } else {
      NoNewRequests(s, act);
      NumberedSame(s, After(s, act), NewMessages(s, act));
    }
  }

  lemma NumbersOf(s: Sys)
    requires SafeSys(s)
    ensures Numbered(s)
  {
    hide SysInv, SafeInv, LeaderAcks, AcksSeen, CommitOk, MatchOk, SafeMsg, Numbered;
  }

  lemma SentAfter(s: Sys, act: Action)
    requires Can(s, act)
    ensures var s' := After(s, act);
            s'.msgs == s.msgs + NewMessages(s, act) && s'.sent == if act.Send? then s.sent + 1 else s.sent
    ensures act.Send? ==>
              && act.i < |s.peers| && Replicate(s.peers[act.i], act.i, act.q).Some?
              && NewMessages(s, act) == {AppendReq(act.q, s.sent, Replicate(s.peers[act.i], act.i, act.q).value)}
  {
    hide Replicate, PeerAfter, Trace, Evolve, AppendEntries, RequestVote;
  }

  lemma NoNewRequests(s: Sys, act: Action)
    requires Can(s, act) && !act.Send?
    ensures forall m :: m in NewMessages(s, act) ==> !m.AppendReq?
  {
  }

  lemma AckSeenKept(s: Sys, act: Action, p: nat, t: nat)
    requires SafeSys(s) && CanInOrder(s, act) && Acked(After(s, act).abs, p, t) > 0
    ensures var b := After(s, act).abs; (p, t) in After(s, act).seen || (t in b.winner && b.winner[t] == p)
  {
    SeenAfter(s, act);
    assert AcksSeen(s.abs, s.seen);
    if TakesOver(s, act) && p == act.i && t == act.m.args.term {
    } else {
      RecordAcks(s, act, p, t);
      if t in s.abs.winner {
        RecordWinners(s, act, t);
      }
      hide SafeSys, After, CanInOrder;
    }
  }

  lemma AcksSeenKept(s: Sys, act: Action)
    requires SafeSys(s) && CanInOrder(s, act)
    ensures AcksSeen(After(s, act).abs, After(s, act).seen)
  {
    var b, seen := After(s, act).abs, After(s, act).seen;
    hide SafeSys, After, CanInOrder;
    forall p: nat, t: nat | Acked(b, p, t) > 0 ensures (p, t) in seen || (t in b.winner && b.winner[t] == p) {
      AckSeenKept(s, act, p, t);
    }
  }

  lemma SysInvAfter(s: Sys, act: Action)
    requires SafeSys(s) && CanInOrder(s, act)
    ensures Can(s, act) && SysInv(After(s, act)) && |After(s, act).peers| == |s.peers|
  {
    hide Trace, PeerAfter, NewMessages, SysInv, SafeInv, AllEnabled, CommitOk, MatchOk, SafeMsg, Evolve;
    SysKept(s, act);
  }

  lemma WasSafe(s: Sys, i: nat)
    requires SafeSys(s) && i < |s.peers|
    ensures CommitOk(s.abs, s.peers[i], i) && MatchOk(s.abs, s.peers[i])
  {
    hide SysInv, SafeInv, LeaderAcks, AcksSeen, Numbered, SafeMsg, CommitOk, MatchOk;
  }

  lemma OtherPeers(s: Sys, act: Action, i: nat)
    requires Can(s, act) && i < |s.peers|
    ensures |After(s, act).peers| == |s.peers|
    ensures After(s, act).peers[i] == if i == act.i then PeerAfter(s, act) else s.peers[i]
  {
    hide PeerAfter, NewMessages, Trace, Evolve, SysInv;
  }

  lemma PeersSafe(s: Sys, act: Action, i: nat)
    requires SafeSys(s) && CanInOrder(s, act) && i < |s.peers|
    ensures var s' := After(s, act);
            |s'.peers| == |s.peers| && CommitOk(s'.abs, s'.peers[i], i) && MatchOk(s'.abs, s'.peers[i])
  {
    hide SafeSys, CommitOk, MatchOk, PeerAfter, After, AbsSafe, Extends, Can;
    OtherPeers(s, act, i);
    if i == act.i {
      ActingSafe(s, act);
    } else {
      RecordSafe(s, act);
      WasSafe(s, i);
      CommitKept(s.abs, After(s, act).abs, s.peers[i], i);
      MatchKept(s.abs, After(s, act).abs, s.peers[i]);
    }
  }

  lemma MsgsSafe(s: Sys, act: Action, m: Message)
    requires SafeSys(s) && CanInOrder(s, act) && m in After(s, act).msgs
    ensures SafeMsg(After(s, act).abs, After(s, act).seen, m)
  {
    assert After(s, act).msgs == s.msgs + NewMessages(s, act);
    hide SafeSys, After, NewMessages, SafeMsg, Can;
    if m in s.msgs {
      OldMsgSafe(s, act, m);
    } else {
      NewMsgSafe(s, act, m);
    }
  }

  lemma AllPeersSafe(s: Sys, act: Action)
    requires SafeSys(s) && CanInOrder(s, act)
    ensures var s' := After(s, act);
            forall i :: 0 <= i < |s'.peers| ==> CommitOk(s'.abs, s'.peers[i], i) && MatchOk(s'.abs, s'.peers[i])
  {
    hide SafeSys, CommitOk, MatchOk, After, CanInOrder;
    SysInvAfter(s, act);
    forall i | 0 <= i < |After(s, act).peers|
      ensures CommitOk(After(s, act).abs, After(s, act).peers[i], i)
      ensures MatchOk(After(s, act).abs, After(s, act).peers[i])
    {
      PeersSafe(s, act, i);
    }
  }

  lemma AllMsgsSafe(s: Sys, act: Action)
    requires SafeSys(s) && CanInOrder(s, act)
    ensures var s' := After(s, act); forall m :: m in s'.msgs ==> SafeMsg(s'.abs, s'.seen, m)
  {
    hide SafeSys, SafeMsg, After, CanInOrder;
    SysInvAfter(s, act);
    forall m | m in After(s, act).msgs ensures SafeMsg(After(s, act).abs, After(s, act).seen, m) {
      MsgsSafe(s, act, m);
    }
  }

  /** Every event handled in turn keeps the safety invariant of the cluster. */
  lemma SafeSysKept(s: Sys, act: Action)
    requires SafeSys(s) && CanInOrder(s, act)
    ensures SafeSys(After(s, act))
  {
    hide SysInv, SafeInv, LeaderAcks, AcksSeen, Numbered, CommitOk, MatchOk, SafeMsg, After, Extends, CanInOrder;
    SysInvAfter(s, act);
    RecordSafe(s, act);
    AcksSeenKept(s, act);
    NumberedKept(s, act);
    AllPeersSafe(s, act);
    AllMsgsSafe(s, act);
  }
}
