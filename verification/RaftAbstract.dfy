/** Raft without messages: terms, votes, logs, and a record of which log each
    term's leader was elected with and has built since. Every property here is
    about histories of elections and logs; how messages bring the steps about
    is the matter of the modules above this one. */
module RaftAbstract {
  import opened Basics

  datatype LogEntry = LogEntry(term: nat, valid: bool, command: int)

  type Log = seq<LogEntry>

  /** The entry every log starts with. */
  const DUMMY := LogEntry(0, false, 0)

  /** A vote, with the voter's log at the time. */
  datatype Vote = Vote(cand: nat, log: Log)

  datatype Abs = Abs(
    term: seq<nat>,                      // current term of each peer
    log: seq<Log>,                       // full log of each peer
    winner: map<nat, nat>,               // by term: the elected leader,
    quorum: map<nat, set<nat>>,          //   the peers whose votes elected it,
    initLog: map<nat, Log>,              //   its log when elected,
    leaderLog: map<nat, Log>,            //   its log with what it added since
    votes: map<(nat, nat), Vote>,        // by (term, voter)
    acked: map<(nat, nat), nat>)         // by (peer, term): entries taken over from that term's leader

  ghost function Acked(a: Abs, p: nat, t: nat): nat {
    if (p, t) in a.acked then a.acked[(p, t)] else 0
  }

  // ------------------------------------------------------------------
  // Majorities

  ghost predicate Quorum(n: nat, q: set<nat>) {
    && (forall p :: p in q ==> p < n)
    && 2 * |q| > n
  }

  ghost function Peers(n: nat): (r: set<nat>)
    ensures forall p: nat :: p in r <==> p < n
    ensures |r| == n
  {
    if n == 0 then {} else Peers(n - 1) + {n - 1}
  }

  /** Two majorities share a peer. */
  lemma QuorumsMeet(n: nat, q: set<nat>, r: set<nat>) returns (p: nat)
    requires Quorum(n, q) && Quorum(n, r)
    ensures p in q && p in r
  {
    if q * r == {} {
      assert |q + r| == |q| + |r|;
      assert q + r <= Peers(n);
      SubsetBound(q + r, Peers(n));
    }
    p :| p in q * r;
  }

  // ------------------------------------------------------------------
  // What every run keeps

  ghost function Last(l: Log): LogEntry
    requires l != []
  {
    l[|l| - 1]
  }

  /** `l` is at least as up to date as `m`: later last term, or same last term and no shorter. */
  ghost predicate UpToDate(l: Log, m: Log)
    requires l != [] && m != []
  {
    Last(m).term < Last(l).term || (Last(m).term == Last(l).term && |m| <= |l|)
  }

  /** Every entry of `l` was put there by its term's leader, on top of that leader's own prefix. */
  ghost predicate Chain(a: Abs, l: Log) {
    && l != [] && l[0] == DUMMY
    && forall k :: 0 < k < |l| ==> FromLeader(a, l, k)
  }

  ghost predicate FromLeader(a: Abs, l: Log, k: nat)
    requires k < |l|
  {
    l[k].term in a.leaderLog && k < |a.leaderLog[l[k].term]| && l[..k + 1] == a.leaderLog[l[k].term][..k + 1]
  }

  ghost predicate TermsUpTo(l: Log, t: int) {
    forall k :: 0 <= k < |l| ==> l[k].term <= t
  }

  ghost predicate TermsSorted(l: Log) {
    forall i, j :: 0 <= i < j < |l| ==> l[i].term <= l[j].term
  }

  ghost predicate LogOk(a: Abs, p: nat)
    requires |a.term| == |a.log| && p < |a.log|
  {
    Chain(a, a.log[p]) && TermsUpTo(a.log[p], a.term[p])
  }

  ghost predicate LogsOk(a: Abs) {
    && |a.term| == |a.log|
    && (forall p :: 0 <= p < |a.log| ==> LogOk(a, p))
  }

  ghost predicate VoteOk(a: Abs, u: nat, p: nat)
    requires (u, p) in a.votes
  {
    var v := a.votes[(u, p)];
    && p < |a.term| && u <= a.term[p]
    && Chain(a, v.log)
    && (u, v.cand) in a.votes && a.votes[(u, v.cand)].cand == v.cand
    && a.votes[(u, v.cand)].log != [] && UpToDate(a.votes[(u, v.cand)].log, v.log)
    && (v.cand == p ==> TermsUpTo(v.log, u - 1))
  }

  ghost predicate VotesOk(a: Abs) {
    forall u, p :: (u, p) in a.votes ==> VoteOk(a, u, p)
  }

  /** The leader of term `t` was voted in by a majority, with the log it had as a candidate. */
  ghost predicate Elected(a: Abs, t: nat)
    requires t in a.winner
  {
    && t in a.quorum && t in a.initLog
    && t > 0
    && a.winner[t] < |a.term| && t <= a.term[a.winner[t]]
    && Quorum(|a.term|, a.quorum[t])
    && (forall p :: p in a.quorum[t] ==> (t, p) in a.votes && a.votes[(t, p)].cand == a.winner[t])
    && (t, a.winner[t]) in a.votes && a.votes[(t, a.winner[t])] == Vote(a.winner[t], a.initLog[t])
  }

  /** A leader's log is the one it was elected with, followed by entries of its own term. */
  ghost predicate Built(init: Log, log: Log, t: nat) {
    && init != [] && init <= log
    && TermsUpTo(init, t - 1) && TermsUpTo(log, t) && TermsSorted(log)
    && (forall k :: |init| <= k < |log| ==> log[k].term == t)
  }

  ghost predicate LeaderOk(a: Abs, t: nat)
    requires t in a.winner
  {
    && t in a.leaderLog
    && Elected(a, t)
    && Built(a.initLog[t], a.leaderLog[t], t)
    && Chain(a, a.leaderLog[t])
  }

  ghost predicate LeadersOk(a: Abs) {
    && a.leaderLog.Keys == a.winner.Keys
    && forall t :: t in a.winner ==> LeaderOk(a, t)
  }

  ghost predicate Inv(a: Abs) {
    LogsOk(a) && VotesOk(a) && LeadersOk(a)
  }

  ghost predicate Init(a: Abs) {
    && |a.term| == |a.log|
    && (forall p :: 0 <= p < |a.log| ==> a.log[p] == [DUMMY])
    && a.winner == map[] && a.quorum == map[] && a.initLog == map[] && a.leaderLog == map[]
    && a.votes == map[] && a.acked == map[]
  }

  lemma InitInv(a: Abs)
    requires Init(a)
    ensures Inv(a)
  {
  }

  // ------------------------------------------------------------------
  // Log matching

  /** Two logs that agree on the term at an index agree up to that index. */
  lemma LogMatching(a: Abs, l: Log, m: Log, k: nat)
    requires Chain(a, l) && Chain(a, m)
    requires k < |l| && k < |m| && l[k].term == m[k].term
    ensures l[..k + 1] == m[..k + 1]
  {
    if k == 0 {
      assert l[..1] == [DUMMY] == m[..1];
    } else {
      assert FromLeader(a, l, k) && FromLeader(a, m, k);
    }
  }

  /** A log is the prefix of the log of its last entry's leader. */
  lemma LastLeader(a: Abs, l: Log)
    requires Chain(a, l) && |l| > 1
    ensures Last(l).term in a.leaderLog && l <= a.leaderLog[Last(l).term]
  {
    assert FromLeader(a, l, |l| - 1);
    assert l[..|l|] == l;
  }

  lemma ChainPrefix(a: Abs, l: Log, n: nat)
    requires Chain(a, l) && 0 < n <= |l|
    ensures Chain(a, l[..n])
  {
    forall k | 0 < k < n ensures FromLeader(a, l[..n], k) {
      assert FromLeader(a, l, k);
      assert l[..n][..k + 1] == l[..k + 1];
    }
  }

  lemma ChainSorted(a: Abs, l: Log)
    requires LeadersOk(a) && Chain(a, l)
    ensures TermsSorted(l)
  {
    if |l| > 1 {
      LastLeader(a, l);
      assert LeaderOk(a, Last(l).term);
    }
  }

  /** The records of leaders only grow. */
  ghost predicate Grows(a: Abs, b: Abs) {
    forall t :: t in a.leaderLog ==> t in b.leaderLog && a.leaderLog[t] <= b.leaderLog[t]
  }

  lemma ChainKept(a: Abs, b: Abs, l: Log)
    requires Chain(a, l) && Grows(a, b)
    ensures Chain(b, l)
  {
    forall k | 0 < k < |l| ensures FromLeader(b, l, k) {
      assert FromLeader(a, l, k);
      var t := l[k].term;
      assert b.leaderLog[t][..k + 1] == a.leaderLog[t][..k + 1];
    }
  }

  // ------------------------------------------------------------------
  // The steps

  datatype Step =
    | Bump(i: nat, t: nat)                  // learn of a newer term
    | Candidacy(i: nat)                     // start an election, voting for oneself
    | Grant(i: nat, c: nat)                 // vote for another candidate in the current term
    | Win(i: nat, q: set<nat>)              // count the votes of a majority
    | Append(i: nat, e: LogEntry)           // a leader takes in a command
    | Accept(i: nat, t: nat, m: nat)        // take over the first m entries of a leader's log

  ghost predicate Enabled(a: Abs, s: Step) {
    && |a.term| == |a.log| && s.i < |a.term|
    && match s
       case Bump(i, t) => a.term[i] <= t
       case Candidacy(i) => true
       case Grant(i, c) =>
         var u := a.term[i];
         && (u, i) !in a.votes
         && (u, c) in a.votes && a.votes[(u, c)].cand == c && c != i
         && a.votes[(u, c)].log != [] && a.log[i] != [] && UpToDate(a.votes[(u, c)].log, a.log[i])
       case Win(i, q) =>
         var u := a.term[i];
         && Quorum(|a.term|, q)
         && (forall p :: p in q ==> (u, p) in a.votes && a.votes[(u, p)].cand == i)
         && (u, i) in a.votes && a.votes[(u, i)] == Vote(i, a.log[i])
         && !(u in a.winner && a.winner[u] == i)
       case Append(i, e) =>
         var u := a.term[i];
         u in a.winner && a.winner[u] == i && u in a.leaderLog && a.leaderLog[u] == a.log[i] && e.term == u
       case Accept(i, t, m) =>
         && t in a.winner && t in a.initLog && t in a.leaderLog
         && a.winner[t] != i && a.term[i] <= t
         && |a.initLog[t]| <= m <= |a.leaderLog[t]|
  }

  ghost function Apply(a: Abs, s: Step): Abs
    requires Enabled(a, s)
  {
    match s
    case Bump(i, t) => a.(term := a.term[i := t])
    case Candidacy(i) =>
      var u := a.term[i] + 1;
      a.(term := a.term[i := u], votes := a.votes[(u, i) := Vote(i, a.log[i])])
    case Grant(i, c) => a.(votes := a.votes[(a.term[i], i) := Vote(c, a.log[i])])
    case Win(i, q) =>
      var u := a.term[i];
      a.(winner := a.winner[u := i], quorum := a.quorum[u := q], initLog := a.initLog[u := a.log[i]],
         leaderLog := a.leaderLog[u := a.log[i]], acked := a.acked[(i, u) := |a.log[i]|])
    case Append(i, e) =>
      var u := a.term[i];
      a.(log := a.log[i := a.log[i] + [e]], leaderLog := a.leaderLog[u := a.log[i] + [e]],
         acked := a.acked[(i, u) := |a.log[i]| + 1])
    case Accept(i, t, m) =>
      a.(term := a.term[i := t], log := a.log[i := a.leaderLog[t][..m]], acked := a.acked[(i, t) := m])
  }

  /** One candidate's majority leaves none for another. */
  lemma OneWinner(a: Abs, i: nat, q: set<nat>)
    requires Inv(a) && Enabled(a, Win(i, q))
    ensures a.term[i] !in a.winner
  {
    var u := a.term[i];
    if u in a.winner {
      assert LeaderOk(a, u);
      var p := QuorumsMeet(|a.term|, q, a.quorum[u]);
    }
  }

  // ------------------------------------------------------------------
  // The invariant is kept

  lemma Growing(a: Abs, s: Step)
    requires Inv(a) && Enabled(a, s)
    ensures Grows(a, Apply(a, s))
  {
    if s.Win? {
      OneWinner(a, s.i, s.q);
    }
  }

  lemma AcceptedLog(a: Abs, t: nat, m: nat)
    requires LeadersOk(a) && t in a.winner && t in a.initLog && t in a.leaderLog
    requires |a.initLog[t]| <= m <= |a.leaderLog[t]|
    ensures Chain(a, a.leaderLog[t][..m]) && TermsUpTo(a.leaderLog[t][..m], t)
  {
    assert LeaderOk(a, t);
    ChainPrefix(a, a.leaderLog[t], m);
  }

  lemma ChainSnoc(b: Abs, l: Log, e: LogEntry)
    requires Chain(b, l) && e.term in b.leaderLog && b.leaderLog[e.term] == l + [e]
    ensures Chain(b, l + [e])
  {
    var m := l + [e];
    forall k | 0 < k < |m| ensures FromLeader(b, m, k) {
      if k < |l| {
        assert FromLeader(b, l, k);
        assert m[..k + 1] == l[..k + 1];
      } else {
        assert m[..k + 1] == m;
      }
    }
  }

  lemma LogUnchanged(a: Abs, b: Abs, l: Log, t: nat, u: nat)
    requires Chain(a, l) && TermsUpTo(l, t) && Grows(a, b) && t <= u
    ensures Chain(b, l) && TermsUpTo(l, u)
  {
    ChainKept(a, b, l);
  }

  /** Only `Accept` and `Append` touch a log, and only their own peer's. */
  lemma LogFrame(a: Abs, s: Step, p: nat)
    requires Enabled(a, s) && p < |a.log| && (p != s.i || !(s.Accept? || s.Append?))
    ensures var b := Apply(a, s);
            |b.log| == |b.term| == |a.log| && b.log[p] == a.log[p] && a.term[p] <= b.term[p]
  {
  }

  lemma LogKeptSame(a: Abs, s: Step, p: nat)
    requires LogsOk(a) && Enabled(a, s) && Grows(a, Apply(a, s))
    requires p < |a.log| && (p != s.i || !(s.Accept? || s.Append?))
    ensures LogOk(Apply(a, s), p)
  {
    LogFrame(a, s, p);
    assert LogOk(a, p);
    hide Apply, Enabled, Chain, TermsUpTo, Grows;
    LogUnchanged(a, Apply(a, s), a.log[p], a.term[p], Apply(a, s).term[p]);
  }

  lemma LogKeptAccept(a: Abs, i: nat, t: nat, m: nat)
    requires LeadersOk(a) && Enabled(a, Accept(i, t, m)) && Grows(a, Apply(a, Accept(i, t, m)))
    ensures LogOk(Apply(a, Accept(i, t, m)), i)
  {
    hide Chain, TermsUpTo, Grows, LeadersOk;
    AcceptedLog(a, t, m);
    LogUnchanged(a, Apply(a, Accept(i, t, m)), a.leaderLog[t][..m], t, t);
  }

  lemma LogKeptAppend(a: Abs, i: nat, e: LogEntry)
    requires LogsOk(a) && Enabled(a, Append(i, e)) && Grows(a, Apply(a, Append(i, e)))
    ensures LogOk(Apply(a, Append(i, e)), i)
  {
    var b := Apply(a, Append(i, e));
    assert LogOk(a, i);
    LogUnchanged(a, b, a.log[i], a.term[i], a.term[i]);
    hide Chain, Grows;
    ChainSnoc(b, a.log[i], e);
  }

  lemma LogsKept(a: Abs, s: Step)
    requires Inv(a) && Enabled(a, s)
    ensures LogsOk(Apply(a, s))
  {
    Growing(a, s);
    var b := Apply(a, s);
    assert |b.log| == |b.term| == |a.log|;
    hide Apply, Enabled, LogOk;
    forall p | 0 <= p < |b.log| ensures LogOk(b, p) {
      if p == s.i && s.Accept? {
        LogKeptAccept(a, s.i, s.t, s.m);
      } else if p == s.i && s.Append? {
        LogKeptAppend(a, s.i, s.e);
      } else {
        LogKeptSame(a, s, p);
      }
    }
  }

  /** Votes are never taken back and terms never go down. */
  lemma VotesFrame(a: Abs, s: Step)
    requires VotesOk(a) && Enabled(a, s)
    ensures forall u, p :: (u, p) in a.votes ==>
              (u, p) in Apply(a, s).votes && Apply(a, s).votes[(u, p)] == a.votes[(u, p)]
    ensures |Apply(a, s).term| == |a.term| && forall p :: 0 <= p < |a.term| ==> a.term[p] <= Apply(a, s).term[p]
  {
  }

  lemma OldVoteKept(a: Abs, s: Step, u: nat, p: nat)
    requires VotesOk(a) && Enabled(a, s) && Grows(a, Apply(a, s)) && (u, p) in a.votes
    ensures (u, p) in Apply(a, s).votes && VoteOk(Apply(a, s), u, p)
  {
    VotesFrame(a, s);
    assert VoteOk(a, u, p);
    hide Apply, Enabled, Chain, Grows, VotesOk;
    ChainKept(a, Apply(a, s), a.votes[(u, p)].log);
  }

  lemma NewVoteKept(a: Abs, s: Step, u: nat, p: nat)
    requires Inv(a) && Enabled(a, s) && Grows(a, Apply(a, s))
    requires (u, p) in Apply(a, s).votes && (u, p) !in a.votes
    ensures VoteOk(Apply(a, s), u, p)
  {
    assert LogOk(a, s.i);
    ChainKept(a, Apply(a, s), a.log[s.i]);
    hide Chain, Grows, VotesOk, LogsOk, LeadersOk;
  }

  lemma VotesKept(a: Abs, s: Step)
    requires Inv(a) && Enabled(a, s)
    ensures VotesOk(Apply(a, s))
  {
    Growing(a, s);
    forall u, p | (u, p) in Apply(a, s).votes ensures VoteOk(Apply(a, s), u, p) {
      hide Apply, Enabled, VoteOk, Grows;
      if (u, p) in a.votes {
        OldVoteKept(a, s, u, p);
      } else {
        NewVoteKept(a, s, u, p);
      }
    }
  }

  /** A leader's record is untouched but by its own election and its own appends. */
  lemma LeaderFrame(a: Abs, s: Step, t: nat)
    requires Enabled(a, s) && t in a.winner && !(s.Win? && a.term[s.i] == t) && !(s.Append? && a.term[s.i] == t)
    ensures var b := Apply(a, s);
            && t in b.winner && b.winner[t] == a.winner[t]
            && (t in a.quorum ==> t in b.quorum && b.quorum[t] == a.quorum[t])
            && (t in a.initLog ==> t in b.initLog && b.initLog[t] == a.initLog[t])
            && (t in a.leaderLog ==> t in b.leaderLog && b.leaderLog[t] == a.leaderLog[t])
  {
  }

  lemma OldLeaderKept(a: Abs, s: Step, t: nat)
    requires Inv(a) && Enabled(a, s) && Grows(a, Apply(a, s))
    requires t in a.winner && !(s.Win? && a.term[s.i] == t) && !(s.Append? && a.term[s.i] == t)
    ensures t in Apply(a, s).winner && LeaderOk(Apply(a, s), t)
  {
    assert VotesOk(a) && LeaderOk(a, t);
    hide Inv, Apply, Enabled, Chain, Grows, VotesOk, Built, Elected;
    LeaderFrame(a, s, t);
    ElectedKept(a, s, t);
    ChainKept(a, Apply(a, s), a.leaderLog[t]);
  }

  lemma ElectedKept(a: Abs, s: Step, t: nat)
    requires VotesOk(a) && Enabled(a, s) && t in a.winner && !(s.Win? && a.term[s.i] == t)
    requires !(s.Append? && a.term[s.i] == t)
    requires Elected(a, t)
    ensures t in Apply(a, s).winner && Elected(Apply(a, s), t)
  {
    hide Apply, Enabled, VotesOk;
    LeaderFrame(a, s, t);
    VotesFrame(a, s);
  }

  lemma NewLeaderOk(a: Abs, i: nat, q: set<nat>)
    requires Inv(a) && Enabled(a, Win(i, q)) && Grows(a, Apply(a, Win(i, q)))
    ensures LeaderOk(Apply(a, Win(i, q)), a.term[i])
  {
    var b, u := Apply(a, Win(i, q)), a.term[i];
    assert VoteOk(a, u, i) && LogOk(a, i);
    ChainKept(a, b, a.log[i]);
    ChainSorted(a, a.log[i]);
    hide Chain, Grows, VotesOk, LogsOk, LeadersOk, TermsSorted;
  }

  lemma BuiltSnoc(init: Log, log: Log, e: LogEntry)
    requires Built(init, log, e.term)
    ensures Built(init, log + [e], e.term)
  {
  }

  lemma AppendFrame(a: Abs, i: nat, e: LogEntry)
    requires Enabled(a, Append(i, e))
    ensures var b, u := Apply(a, Append(i, e)), a.term[i];
            && b.term == a.term && b.votes == a.votes && b.winner == a.winner && b.quorum == a.quorum
            && b.initLog == a.initLog && u in b.leaderLog && b.leaderLog[u] == a.log[i] + [e]
            && u in a.winner && a.winner[u] == i && u in a.leaderLog && a.leaderLog[u] == a.log[i]
            && e.term == u && i < |a.log| == |b.log| == |b.term| && b.log[i] == a.log[i] + [e]
  {
  }

  lemma AppendedLeaderOk(a: Abs, i: nat, e: LogEntry)
    requires Inv(a) && Enabled(a, Append(i, e)) && Grows(a, Apply(a, Append(i, e)))
    ensures a.term[i] in Apply(a, Append(i, e)).winner && LeaderOk(Apply(a, Append(i, e)), a.term[i])
  {
    AppendFrame(a, i, e);
    assert LeaderOk(a, a.term[i]);
    LogKeptAppend(a, i, e);
    hide Chain, Grows, VotesOk, LogsOk, LeadersOk, Built, Apply, Enabled;
    BuiltSnoc(a.initLog[e.term], a.log[i], e);
  }

  lemma LeadersFrame(a: Abs, s: Step)
    requires Enabled(a, s) && a.leaderLog.Keys == a.winner.Keys
    ensures Apply(a, s).leaderLog.Keys == Apply(a, s).winner.Keys
    ensures forall t :: t in Apply(a, s).winner ==> t in a.winner || (s.Win? && t == a.term[s.i])
  {
  }

  lemma LeadersKept(a: Abs, s: Step)
    requires Inv(a) && Enabled(a, s)
    ensures LeadersOk(Apply(a, s))
  {
    Growing(a, s);
    LeadersFrame(a, s);
    assert |a.term| == |a.log| && s.i < |a.term|;
    hide Apply, Enabled, LeaderOk, VotesOk, LogsOk, Grows;
    forall t | t in Apply(a, s).winner ensures LeaderOk(Apply(a, s), t) {
      if s.Win? && t == a.term[s.i] {
        NewLeaderOk(a, s.i, s.q);
      } else if s.Append? && t == a.term[s.i] {
        AppendedLeaderOk(a, s.i, s.e);
      } else {
        OldLeaderKept(a, s, t);
      }
    }
  }

  /** Every step keeps the invariant. */
  lemma InvKept(a: Abs, s: Step)
    requires Inv(a) && Enabled(a, s)
    ensures Inv(Apply(a, s))
  {
    LogsKept(a, s);
    VotesKept(a, s);
    LeadersKept(a, s);
  }
}
