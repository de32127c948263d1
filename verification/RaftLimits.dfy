/** Where the peer falls short of what the protocol asks, and exactly when it does not. */
module RaftLimits {
  import opened Basics
  import opened RaftAbstract
  import opened RaftPeer
  import opened RaftSystem
  import opened RaftOrdered

  /** A peer that took over request `g` and then takes over request `h` of the
      same leader keeps what it took over just when `h` reaches as far as `g`:
      a request overtaken on the way makes it forget entries it has
      acknowledged. */
  lemma OrderMatters(impl: Impl, a: Abs, p: Peer, i: nat, g: AppendArgs, h: AppendArgs)
    requires Inv(a) && PeerOk(a, p, i) && AppendReqOk(a, i, g) && AppendReqOk(a, i, h) && g.term == h.term
    requires g.term >= p.currentTerm && AppendEntries(impl, p, g).1.success
    requires AppendEntries(impl, AppendEntries(impl, p, g).0, h).1.success
    ensures var q := AppendEntries(impl, p, g).0;
            var r := AppendEntries(impl, q, h).0;
            q.log <= r.log <==> End(g) <= End(h)
  {
    hide Inv, PeerOk, AppendReqOk, AppendEntries, AppendFrom, Apply, Enabled;
    var st := Accept(i, g.term, End(g));
    var q := AppendEntries(impl, p, g).0;
    AcceptPeer(impl, a, p, i, g);
    AcceptResult(impl, p, g);
    AcceptedPrefix(a, p, i, g);
    AppendReqKept(a, st, i, h);
    InvKept(a, st);
    SameRecord(a, st);
    AcceptResult(impl, q, h);
    AcceptedPrefix(Apply(a, st), q, i, h);
    var l := a.leaderLog[g.term];
    assert q.log == l[..End(g)] && AppendEntries(impl, q, h).0.log == l[..End(h)];
    Prefixes(l, End(g), End(h));
  }

  lemma SameRecord(a: Abs, st: Step)
    requires st.Accept? && Enabled(a, st)
    ensures Apply(a, st).leaderLog == a.leaderLog
  {
  }

  lemma Prefixes(l: Log, m: nat, n: nat)
    requires m <= |l| && n <= |l|
    ensures l[..m] <= l[..n] <==> m <= n
  {
  }

  /** The library's peer started again: term and vote come back from its storage,
      the log only as far as the snapshot saved beside them. */
  function NodeRestart(p: Peer, n: nat): Peer {
    match p.disk
    case None => NewPeer(n)
    case Some(d) =>
      var log := if d.snap < |d.log| then d.log[..d.snap + 1] else d.log;
      Peer(Follower, d.term, d.votedFor, log, d.snap, Zeros(n), Zeros(n), d.snap, 0, {}, p.disk)
  }

  /** It finds the log it had just when that log ended with its snapshot. */
  lemma NodeRestartForgets(p: Peer, n: nat)
    requires Durable(p) && p.snap < |p.log|
    ensures NodeRestart(p, n).log == p.log <==> |p.log| == p.snap + 1
    ensures NodeRestart(p, n).currentTerm == p.currentTerm && NodeRestart(p, n).votedFor == p.votedFor
  {
    if |p.log| == p.snap + 1 {
      assert p.log[..p.snap + 1] == p.log;
    }
  }
}
