/** Leader completeness: what a majority has taken over from a leader, up to an
    entry of that leader's own term, is in the log of every later leader. It
    rests on each peer taking over a leader's log in the order it was sent. */
module RaftCompleteness {
  import opened RaftAbstract

  /** Entry `k` of the log of term `t`'s leader is one that leader added itself. */
  ghost predicate OwnEntry(a: Abs, t: nat, k: nat) {
    t in a.leaderLog && k < |a.leaderLog[t]| && a.leaderLog[t][k].term == t
  }

  ghost function Upto(a: Abs, t: nat, k: nat): Log
    requires OwnEntry(a, t, k)
  {
    a.leaderLog[t][..k + 1]
  }

  ghost predicate ChosenBy(a: Abs, t: nat, k: nat, q: set<nat>) {
    Quorum(|a.term|, q) && forall p :: p in q ==> Acked(a, p, t) > k
  }

  /** A majority has taken over entry `k`. */
  ghost predicate Chosen(a: Abs, t: nat, k: nat) {
    exists q :: ChosenBy(a, t, k, q)
  }

  /** A majority has taken over entry `k`, or could still do so. */
  ghost predicate ChoosableBy(a: Abs, t: nat, k: nat, q: set<nat>) {
    && Quorum(|a.term|, q)
    && forall p :: p in q ==> Acked(a, p, t) > k || a.term[p] <= t
  }

  ghost predicate Choosable(a: Abs, t: nat, k: nat) {
    exists q :: ChoosableBy(a, t, k, q)
  }

  lemma ChosenIsChoosable(a: Abs, t: nat, k: nat)
    requires Chosen(a, t, k)
    ensures Choosable(a, t, k)
  {
    var q :| ChosenBy(a, t, k, q);
    assert ChoosableBy(a, t, k, q);
  }

  ghost predicate AcksOk(a: Abs) {
    forall p: nat, t: nat :: Acked(a, p, t) > 0 ==>
      p < |a.term| && t in a.leaderLog && Acked(a, p, t) <= |a.leaderLog[t]| && t <= a.term[p]
  }

  /** A peer that took over a choosable entry has it, ... */
  ghost predicate Held(a: Abs)
    requires |a.term| == |a.log|
  {
    forall p: nat, t: nat, k: nat :: p < |a.log| && OwnEntry(a, t, k) && Acked(a, p, t) > k && Choosable(a, t, k) ==>
      Upto(a, t, k) <= a.log[p]
  }

  /** ... had it whenever it voted later, ... */
  ghost predicate HeldVote(a: Abs) {
    forall u: nat, p: nat, t: nat, k: nat ::
      (u, p) in a.votes && t < u && OwnEntry(a, t, k) && Acked(a, p, t) > k && Choosable(a, t, k) ==>
        Upto(a, t, k) <= a.votes[(u, p)].log
  }

  /** ... and every later leader was elected with it. */
  ghost predicate Complete(a: Abs) {
    forall u: nat, t: nat, k: nat ::
      (u in a.winner && u in a.initLog && t < u && OwnEntry(a, t, k) && Choosable(a, t, k)) ==>
      Upto(a, t, k) <= a.initLog[u]
  }

  ghost predicate SafeInv(a: Abs) {
    && Inv(a) && AcksOk(a) && Held(a) && HeldVote(a) && Complete(a)
  }

  /** A step in which a peer never takes over less of a leader's log than it already did. */
  ghost predicate InOrder(a: Abs, s: Step) {
    Enabled(a, s) && (s.Accept? ==> Acked(a, s.i, s.t) <= s.m)
  }

  lemma InitSafe(a: Abs)
    requires Init(a)
    ensures SafeInv(a)
  {
  }

  // ------------------------------------------------------------------
  // What a step does to acknowledgements and records

  /** Only a peer that has not passed term `t` can take over more of it. */
  lemma AckFrame(a: Abs, s: Step, p: nat, t: nat)
    requires Inv(a) && AcksOk(a) && InOrder(a, s)
    ensures Acked(a, p, t) <= Acked(Apply(a, s), p, t)
    ensures Acked(Apply(a, s), p, t) != Acked(a, p, t) ==>
              p == s.i && (s.Accept? || s.Win? || s.Append?) && a.term[p] <= t
              && t == (if s.Accept? then s.t else a.term[p])
  {
    if s.Win? {
      OneWinner(a, s.i, s.q);
    }
  }

  lemma ChoosableBefore(a: Abs, s: Step, t: nat, k: nat)
    requires Inv(a) && AcksOk(a) && InOrder(a, s) && Choosable(Apply(a, s), t, k)
    ensures Choosable(a, t, k)
  {
    var b := Apply(a, s);
    VotesFrame(a, s);
    var q :| ChoosableBy(b, t, k, q);
    forall p | p in q ensures Acked(a, p, t) > k || a.term[p] <= t {
      AckFrame(a, s, p, t);
    }
    assert ChoosableBy(a, t, k, q);
  }

  /** Only an election and an append write a leader's record. */
  lemma RecordFrame(a: Abs, s: Step, t: nat)
    requires Enabled(a, s) && t in Apply(a, s).leaderLog
    ensures var l := Apply(a, s).leaderLog[t];
            if s.Win? && t == a.term[s.i] then l == a.log[s.i] && (t, s.i) in a.votes &&
                a.votes[(t, s.i)] == Vote(s.i, l)
            else if s.Append? && t == a.term[s.i] then t in a.leaderLog && a.leaderLog[t] == a.log[s.i] &&
                l == a.log[s.i] + [s.e]
            else t in a.leaderLog && l == a.leaderLog[t]
  {
  }

  /** A leader is elected with no entry of its own term. */
  lemma ElectedFresh(a: Abs, i: nat, q: set<nat>)
    requires Inv(a) && Enabled(a, Win(i, q))
    ensures a.term[i] !in a.leaderLog && TermsUpTo(a.log[i], a.term[i] - 1)
  {
    OneWinner(a, i, q);
    assert VoteOk(a, a.term[i], i);
  }

  lemma SnocPrefix(l: Log, e: LogEntry, k: nat)
    requires k < |l|
    ensures (l + [e])[k] == l[k] && (l + [e])[..k + 1] == l[..k + 1]
  {
  }

  /** A new entry of a leader's own comes only from `Append`. */
  lemma EntryBefore(a: Abs, s: Step, t: nat, k: nat)
    requires Inv(a) && Enabled(a, s) && OwnEntry(Apply(a, s), t, k)
    ensures OwnEntry(a, t, k) || (s.Append? && t == a.term[s.i] && k == |a.log[s.i]|)
    ensures OwnEntry(a, t, k) ==> Upto(a, t, k) == Upto(Apply(a, s), t, k)
  {
    RecordFrame(a, s, t);
    hide Apply, Enabled, Inv;
    if s.Win? {
      ElectedFresh(a, s.i, s.q);
    } else if s.Append? && k < |a.log[s.i]| {
      SnocPrefix(a.log[s.i], s.e, k);
    }
  }

  lemma AcksKept(a: Abs, s: Step)
    requires Inv(a) && AcksOk(a) && InOrder(a, s)
    ensures AcksOk(Apply(a, s))
  {
    Growing(a, s);
    VotesFrame(a, s);
    var b := Apply(a, s);
    forall p: nat, t: nat | Acked(b, p, t) > 0
      ensures p < |b.term| && t in b.leaderLog && Acked(b, p, t) <= |b.leaderLog[t]| && t <= b.term[p]
    {
      AckFrame(a, s, p, t);
      if Acked(b, p, t) == Acked(a, p, t) {
        assert a.leaderLog[t] <= b.leaderLog[t];
      }
    }
  }

  // ------------------------------------------------------------------
  // Held

  lemma PrefixTrans(x: Log, y: Log, z: Log)
    requires x <= y && y <= z
    ensures x <= z
  {
  }

  lemma PrefixCut(x: Log, y: Log, m: nat)
    requires x <= y && |x| <= m <= |y|
    ensures x <= y[..m]
  {
  }

  /** What `Accept` leaves contains every earlier choosable entry. */
  lemma AcceptHolds(a: Abs, i: nat, u: nat, m: nat, t: nat, k: nat)
    requires SafeInv(a) && InOrder(a, Accept(i, u, m))
    requires OwnEntry(a, t, k) && Choosable(a, t, k)
    requires Acked(a, i, t) > k || (u == t && m > k)
    ensures Upto(a, t, k) <= a.leaderLog[u][..m]
  {
    assert LeaderOk(a, u);
    if t < u {
      assert Upto(a, t, k) <= a.initLog[u];
      PrefixTrans(Upto(a, t, k), a.initLog[u], a.leaderLog[u]);
      PrefixCut(Upto(a, t, k), a.leaderLog[u], m);
    }
  }

  lemma HeldKeptAt(a: Abs, s: Step, p: nat, t: nat, k: nat)
    requires SafeInv(a) && InOrder(a, s)
    requires var b := Apply(a, s);
             p < |b.log| && OwnEntry(b, t, k) && Acked(b, p, t) > k && Choosable(b, t, k)
    ensures Upto(Apply(a, s), t, k) <= Apply(a, s).log[p]
  {
    hide VotesOk, LeadersOk, LogsOk, HeldVote, Complete, Choosable;
    var b := Apply(a, s);
    EntryBefore(a, s, t, k);
    ChoosableBefore(a, s, t, k);
    AckFrame(a, s, p, t);
    if s.Accept? && p == s.i {
      AcceptHolds(a, s.i, s.t, s.m, t, k);
    } else if s.Append? && p == s.i && t == a.term[p] {
      assert b.log[p] == b.leaderLog[t];
    } else {
      assert Upto(a, t, k) <= a.log[p];
      PrefixTrans(Upto(a, t, k), a.log[p], b.log[p]);
    }
  }

  lemma HeldKept(a: Abs, s: Step)
    requires SafeInv(a) && InOrder(a, s)
    ensures |Apply(a, s).term| == |Apply(a, s).log| && Held(Apply(a, s))
  {
    var b := Apply(a, s);
    assert |b.term| == |b.log|;
    hide Apply, Enabled, SafeInv, InOrder;
    forall p: nat, t: nat, k: nat | p < |b.log| && OwnEntry(b, t, k) && Acked(b, p, t) > k && Choosable(b, t, k)
      ensures Upto(b, t, k) <= b.log[p]
    {
      HeldKeptAt(a, s, p, t, k);
    }
  }

  // ------------------------------------------------------------------
  // HeldVote

  /** A peer that has voted in a later term takes over nothing more of an earlier one. */
  lemma AckFrozen(a: Abs, s: Step, u: nat, p: nat, t: nat)
    requires Inv(a) && AcksOk(a) && InOrder(a, s) && (u, p) in a.votes && t < u
    ensures Acked(Apply(a, s), p, t) == Acked(a, p, t)
  {
    assert VoteOk(a, u, p);
    AckFrame(a, s, p, t);
  }

  lemma AckedEntryBefore(a: Abs, s: Step, p: nat, t: nat, k: nat)
    requires Inv(a) && AcksOk(a) && InOrder(a, s) && Acked(a, p, t) > k && OwnEntry(Apply(a, s), t, k)
    ensures OwnEntry(a, t, k) && Upto(a, t, k) == Upto(Apply(a, s), t, k)
  {
    EntryBefore(a, s, t, k);
    assert Acked(a, p, t) <= |a.leaderLog[t]|;
  }

  lemma HeldVoteKeptAt(a: Abs, s: Step, u: nat, p: nat, t: nat, k: nat)
    requires SafeInv(a) && InOrder(a, s)
    requires var b := Apply(a, s);
             (u, p) in b.votes && t < u && OwnEntry(b, t, k) && Acked(b, p, t) > k && Choosable(b, t, k)
    ensures Upto(Apply(a, s), t, k) <= Apply(a, s).votes[(u, p)].log
  {
    ChoosableBefore(a, s, t, k);
    VotesFrame(a, s);
    if (u, p) in a.votes {
      AckFrozen(a, s, u, p, t);
      AckedEntryBefore(a, s, p, t, k);
    } else {
      AckFrame(a, s, p, t);
      AckedEntryBefore(a, s, p, t, k);
      assert Upto(a, t, k) <= a.log[p];
    }
  }

  lemma HeldVoteKept(a: Abs, s: Step)
    requires SafeInv(a) && InOrder(a, s)
    ensures HeldVote(Apply(a, s))
  {
    var b := Apply(a, s);
    hide Apply, Enabled, SafeInv, InOrder;
    forall u: nat, p: nat, t: nat, k: nat |
      (u, p) in b.votes && t < u && OwnEntry(b, t, k) && Acked(b, p, t) > k && Choosable(b, t, k)
      ensures Upto(b, t, k) <= b.votes[(u, p)].log
    {
      HeldVoteKeptAt(a, s, u, p, t, k);
    }
  }

  // ------------------------------------------------------------------
  // Complete

  /** A log that ends in an entry of term `w` is longer than what `w`'s leader was elected with. */
  lemma LongerThanElected(a: Abs, w: nat, c: Log)
    requires w in a.winner && LeaderOk(a, w) && c != [] && c <= a.leaderLog[w] && Last(c).term == w
    ensures w in a.initLog && |a.initLog[w]| < |c| && a.initLog[w] <= a.leaderLog[w]
  {
    assert a.leaderLog[w][|c| - 1].term == w;
  }

  /** A log that ends in a later term than the entry's has the entry. */
  lemma LaterHas(a: Abs, t: nat, k: nat, c: Log)
    requires Inv(a) && Complete(a) && OwnEntry(a, t, k) && Choosable(a, t, k)
    requires Chain(a, c) && |c| > 1 && t < Last(c).term
    ensures Upto(a, t, k) <= c
  {
    var w := Last(c).term;
    LastLeader(a, c);
    assert w in a.winner && LeaderOk(a, w);
    LongerThanElected(a, w, c);
    assert Upto(a, t, k) <= a.initLog[w];
    hide Inv, Complete, Chain, LeaderOk, Choosable;
    PrefixTrans(Upto(a, t, k), a.initLog[w], a.leaderLog[w]);
    PrefixCut(Upto(a, t, k), a.leaderLog[w], |c|);
    assert a.leaderLog[w][..|c|] == c;
  }

  lemma LastTermAtLeast(a: Abs, t: nat, k: nat, l: Log)
    requires LeadersOk(a) && OwnEntry(a, t, k) && Chain(a, l) && Upto(a, t, k) <= l
    ensures Last(l).term >= t > 0
  {
    assert LeaderOk(a, t);
    ChainSorted(a, l);
    assert l[k].term == t;
    hide Chain;
  }

  /** A log at least as up to date as one that has the entry has it too. */
  lemma UpToDateHas(a: Abs, t: nat, k: nat, l: Log, c: Log)
    requires Inv(a) && Complete(a) && OwnEntry(a, t, k) && Choosable(a, t, k)
    requires Chain(a, l) && Chain(a, c) && UpToDate(c, l) && Upto(a, t, k) <= l
    ensures Upto(a, t, k) <= c
  {
    assert l[0] == DUMMY && c[0] == DUMMY;
    LastTermAtLeast(a, t, k, l);
    hide Inv, Complete, Chain, Choosable;
    if Last(c).term == Last(l).term {
      LastLeader(a, l);
      LastLeader(a, c);
      PrefixTrans(Upto(a, t, k), l, c);
    } else {
      LaterHas(a, t, k, c);
    }
  }

  lemma ElectedHas(a: Abs, i: nat, q: set<nat>, t: nat, k: nat)
    requires SafeInv(a) && Enabled(a, Win(i, q))
    requires t < a.term[i] && OwnEntry(a, t, k) && Choosable(a, t, k)
    ensures Upto(a, t, k) <= a.log[i]
  {
    var u := a.term[i];
    var r :| ChoosableBy(a, t, k, r);
    var p := QuorumsMeet(|a.term|, q, r);
    assert VoteOk(a, u, p) && LogOk(a, i);
    assert Upto(a, t, k) <= a.votes[(u, p)].log;
    UpToDateHas(a, t, k, a.votes[(u, p)].log, a.log[i]);
  }

  /** Once a later leader is elected, an earlier one can get nothing more accepted. */
  lemma TooLate(a: Abs, i: nat, e: LogEntry, u: nat)
    requires Inv(a) && AcksOk(a) && Enabled(a, Append(i, e)) && u in a.winner && a.term[i] < u
    ensures !Choosable(Apply(a, Append(i, e)), a.term[i], |a.log[i]|)
  {
    var b, t, k := Apply(a, Append(i, e)), a.term[i], |a.log[i]|;
    if Choosable(b, t, k) {
      var r :| ChoosableBy(b, t, k, r);
      assert LeaderOk(a, u);
      var p := QuorumsMeet(|a.term|, a.quorum[u], r);
      assert VoteOk(a, u, p);
      assert Acked(b, p, t) > k;
      AckFrame(a, Append(i, e), p, t);
    }
  }

  lemma CompleteKeptAt(a: Abs, s: Step, u: nat, t: nat, k: nat)
    requires SafeInv(a) && InOrder(a, s)
    requires var b := Apply(a, s);
             u in b.winner && u in b.initLog && t < u && OwnEntry(b, t, k) && Choosable(b, t, k)
    ensures Upto(Apply(a, s), t, k) <= Apply(a, s).initLog[u]
  {
    EntryBefore(a, s, t, k);
    ChoosableBefore(a, s, t, k);
    if s.Win? && u == a.term[s.i] {
      ElectedHas(a, s.i, s.q, t, k);
    } else {
      assert LeaderOk(a, u);
      if s.Append? && t == a.term[s.i] {
        if k == |a.log[s.i]| {
          TooLate(a, s.i, s.e, u);
        }
      }
    }
  }

  lemma CompleteKept(a: Abs, s: Step)
    requires SafeInv(a) && InOrder(a, s)
    ensures Complete(Apply(a, s))
  {
    var b := Apply(a, s);
    hide Apply, Enabled, SafeInv, InOrder;
    forall u: nat, t: nat, k: nat |
      u in b.winner && u in b.initLog && t < u && OwnEntry(b, t, k) && Choosable(b, t, k)
      ensures Upto(b, t, k) <= b.initLog[u]
    {
      CompleteKeptAt(a, s, u, t, k);
    }
  }

  /** Every step taken in order keeps the safety invariant. */
  lemma SafeKept(a: Abs, s: Step)
    requires SafeInv(a) && InOrder(a, s)
    ensures SafeInv(Apply(a, s))
  {
    InvKept(a, s);
    AcksKept(a, s);
    HeldKept(a, s);
    HeldVoteKept(a, s);
    CompleteKept(a, s);
  }

  // ------------------------------------------------------------------
  // Leader completeness and its consequence

  /** What was chosen in term `t` is in the log of every leader of a later term. */
  lemma LeaderCompleteness(a: Abs, t: nat, k: nat, u: nat)
    requires SafeInv(a) && OwnEntry(a, t, k) && Chosen(a, t, k) && u in a.winner && t < u
    ensures u in a.leaderLog && Upto(a, t, k) <= a.leaderLog[u]
  {
    ChosenIsChoosable(a, t, k);
    assert LeaderOk(a, u);
    PrefixTrans(Upto(a, t, k), a.initLog[u], a.leaderLog[u]);
  }

  lemma ElectedWith(a: Abs, t: nat, k: nat, u: nat)
    requires SafeInv(a) && OwnEntry(a, t, k) && Chosen(a, t, k) && u in a.winner && t < u
    ensures u in a.initLog && u in a.leaderLog && Upto(a, t, k) <= a.initLog[u] && a.initLog[u] <= a.leaderLog[u]
  {
    ChosenIsChoosable(a, t, k);
    assert LeaderOk(a, u);
  }

  /** A prefix below some chosen entry: what may be handed to the service. */
  ghost predicate CommittedBy(a: Abs, c: Log, t: nat, k: nat) {
    OwnEntry(a, t, k) && Chosen(a, t, k) && c <= Upto(a, t, k)
  }

  ghost predicate Committed(a: Abs, c: Log) {
    c == [DUMMY] || exists t, k :: CommittedBy(a, c, t, k)
  }

  /** Both lie in the log of the later leader. */
  lemma CommittedInLater(a: Abs, c: Log, t: nat, k: nat, u: nat)
    requires SafeInv(a) && CommittedBy(a, c, t, k) && t <= u && u in a.winner
    ensures u in a.leaderLog && c <= a.leaderLog[u]
  {
    if t < u {
      LeaderCompleteness(a, t, k, u);
    }
    hide SafeInv, Chosen;
    PrefixTrans(c, Upto(a, t, k), a.leaderLog[u]);
  }

  /** Any two committed prefixes agree wherever both reach. */
  lemma CommittedAgree(a: Abs, c: Log, d: Log)
    requires SafeInv(a) && Committed(a, c) && Committed(a, d)
    ensures c <= d || d <= c
  {
    if c != [DUMMY] && d != [DUMMY] {
      var t, k :| CommittedBy(a, c, t, k);
      var u, j :| CommittedBy(a, d, u, j);
      var top := if t < u then u else t;
      assert top in a.winner;
      hide SafeInv, CommittedBy;
      CommittedInLater(a, c, t, k, top);
      CommittedInLater(a, d, u, j, top);
    } else {
      StartsWithDummy(a, c);
      StartsWithDummy(a, d);
    }
  }

  lemma StartsWithDummy(a: Abs, c: Log)
    requires Inv(a) && Committed(a, c)
    ensures c == [] || c[0] == DUMMY
  {
    if c != [DUMMY] {
      var t, k :| CommittedBy(a, c, t, k);
      assert LeaderOk(a, t);
    }
  }

  lemma ChosenKept(a: Abs, s: Step, t: nat, k: nat)
    requires SafeInv(a) && InOrder(a, s) && OwnEntry(a, t, k) && Chosen(a, t, k)
    ensures var b := Apply(a, s); OwnEntry(b, t, k) && Upto(b, t, k) == Upto(a, t, k) && Chosen(b, t, k)
  {
    hide Apply, Enabled, LogsOk, VotesOk, LeadersOk, AcksOk, Held, HeldVote, Complete, Acked;
    var b := Apply(a, s);
    Growing(a, s);
    VotesFrame(a, s);
    assert a.leaderLog[t] <= b.leaderLog[t];
    var q :| ChosenBy(a, t, k, q);
    forall p | p in q ensures Acked(b, p, t) > k {
      AckFrame(a, s, p, t);
    }
    assert ChosenBy(b, t, k, q);
  }
}
