/** The state of the backtracking search, apart from its pointers: the
    operations linearized so far, the states they lead through, and the
    configurations ever tried. Each lemma is one branch of the search loop. */
module Backtracking {
  import opened Basics
  import opened Linearizability

  /** What decides the future of a search: which operations are done, and the state. */
  datatype Config<S(==)> = Config(done: set<nat>, state: S)

  datatype Search<S(==)> = Search(path: seq<nat>, states: seq<S>, cache: set<Config<S>>) {
    ghost function At(i: nat): Config<S>
      requires i <= |path| && i < |states|
    {
      Config(Elems(path[..i]), states[i])
    }

    ghost predicate OnStack(c: Config<S>)
      requires |states| == |path| + 1
    {
      exists i :: 0 < i <= |path| && At(i) == c
    }
  }

  ghost predicate Accepts<S, I, O>(m: Model<S, I, O>, ops: seq<Operation<I, O>>, s: S, x: nat)
    requires x < |ops|
  {
    m.step(s, ops[x].input, ops[x].output).0
  }

  ghost function Succ<S, I, O>(m: Model<S, I, O>, ops: seq<Operation<I, O>>, c: Config<S>, x: nat): Config<S>
    requires x < |ops|
  {
    Config(c.done + {x}, m.step(c.state, ops[x].input, ops[x].output).1)
  }

  /** The memo table already holds a configuration that stands for `c`. */
  ghost predicate Cached<S, I, O>(m: Model<S, I, O>, cache: set<Config<S>>, c: Config<S>) {
    exists d :: d in cache && d.done == c.done && m.equal(c.state, d.state)
  }

  ghost predicate Tried<S, I, O>(m: Model<S, I, O>, ops: seq<Operation<I, O>>, cache: set<Config<S>>,
                                     c: Config<S>, x: nat)
    requires x < |ops|
  {
    Accepts(m, ops, c.state, x) ==> Cached(m, cache, Succ(m, ops, c, x))
  }

  ghost predicate TriedBefore<S, I, O>(m: Model<S, I, O>, ops: seq<Operation<I, O>>, cache: set<Config<S>>,
                                           c: Config<S>, at: int)
  {
    forall x: nat :: Enabled(ops, c.done, x) && ops[x].call < at ==> Tried(m, ops, cache, c, x)
  }

  ghost predicate Explored<S, I, O>(m: Model<S, I, O>, ops: seq<Operation<I, O>>, cache: set<Config<S>>,
                                        c: Config<S>)
  {
    forall x: nat :: Enabled(ops, c.done, x) ==> Tried(m, ops, cache, c, x)
  }

  /** The configurations reachable in exactly `k` steps: finitely many. */
  ghost function Level<S, I, O>(m: Model<S, I, O>, ops: seq<Operation<I, O>>, k: nat): set<Config<S>> {
    if k == 0 then {Config({}, m.init)}
    else
      set c, x | c in Level(m, ops, k - 1) && x in Below(|ops|)
                 && Enabled(ops, c.done, x) && Accepts(m, ops, c.state, x) :: Succ(m, ops, c, x)
  }

  ghost function Reach<S, I, O>(m: Model<S, I, O>, ops: seq<Operation<I, O>>, k: nat): set<Config<S>> {
    if k == 0 then Level(m, ops, 0) else Reach(m, ops, k - 1) + Level(m, ops, k)
  }

  lemma {:induction false} LevelsReached<S, I, O>(m: Model<S, I, O>, ops: seq<Operation<I, O>>, j: nat, k: nat)
    requires j <= k
    ensures Level(m, ops, j) <= Reach(m, ops, k)
    decreases k
  {
    hide Level;
    if j < k {
      LevelsReached(m, ops, j, k - 1);
    }
  }

  lemma LevelZero<S, I, O>(m: Model<S, I, O>, ops: seq<Operation<I, O>>)
    ensures Config({}, m.init) in Level(m, ops, 0)
  {
  }

  lemma LevelStep<S, I, O>(m: Model<S, I, O>, ops: seq<Operation<I, O>>, k: nat, c: Config<S>, x: nat)
    requires c in Level(m, ops, k) && Enabled(ops, c.done, x) && Accepts(m, ops, c.state, x)
    ensures Succ(m, ops, c, x) in Level(m, ops, k + 1)
  {
    assert x in Below(|ops|);
  }

  /** How many configurations the search can still add to the table. */
  ghost function Untried<S, I, O>(m: Model<S, I, O>, ops: seq<Operation<I, O>>, cache: set<Config<S>>): nat {
    |Reach(m, ops, |ops|) - cache|
  }

  ghost predicate PathOk<S, I, O>(m: Model<S, I, O>, ops: seq<Operation<I, O>>, st: Search<S>) {
    && |st.states| == |st.path| + 1
    && st.states[0] == m.init
    && (forall i :: 0 <= i < |st.path| ==>
          && Enabled(ops, Elems(st.path[..i]), st.path[i])
          && m.step(st.states[i], ops[st.path[i]].input, ops[st.path[i]].output) == (true, st.states[i + 1]))
  }

  /** Every frame of the stack was tried up to the call it descended through,
      the current configuration up to `at`, everything else in the table fully. */
  ghost predicate FramesOk<S, I, O>(m: Model<S, I, O>, ops: seq<Operation<I, O>>, st: Search<S>, at: int)
    requires PathOk(m, ops, st)
  {
    && (forall i :: 0 < i <= |st.path| ==> st.At(i) in st.cache)
    && (forall i :: 0 <= i < |st.path| ==> TriedBefore(m, ops, st.cache, st.At(i), ops[st.path[i]].call))
    && TriedBefore(m, ops, st.cache, st.At(|st.path|), at)
    && (forall c :: c in st.cache ==> st.OnStack(c) || Explored(m, ops, st.cache, c))
  }

  ghost predicate CacheOk<S, I, O>(m: Model<S, I, O>, ops: seq<Operation<I, O>>, st: Search<S>) {
    && st.cache <= Reach(m, ops, |ops|)
    && (forall c :: c in st.cache && c.done == Below(|ops|) ==> |st.path| == |ops|)
  }

  ghost predicate Inv<S, I, O>(m: Model<S, I, O>, ops: seq<Operation<I, O>>, st: Search<S>, at: int) {
    PathOk(m, ops, st) && FramesOk(m, ops, st, at) && CacheOk(m, ops, st)
  }

  // ------------------------------------------------------------------
  // The stack is a partial linearization

  lemma PathShorter<S, I, O>(m: Model<S, I, O>, ops: seq<Operation<I, O>>, st: Search<S>)
    requires PathOk(m, ops, st) && st.path != []
    ensures var k := |st.path| - 1;
            && PathOk(m, ops, Popped(st))
            && Popped(st).At(k) == st.At(k)
            && st.At(k + 1) == Succ(m, ops, st.At(k), st.path[k])
  {
    var k := |st.path| - 1;
    assert forall i :: 0 <= i <= k ==> Popped(st).path[..i] == st.path[..i];
    assert st.path[..k + 1] == st.path[..k] + [st.path[k]];
    ElemsSnoc(st.path[..k], st.path[k]);
  }

  lemma {:induction false} PathIsPartial<S, I, O>(m: Model<S, I, O>, ops: seq<Operation<I, O>>, st: Search<S>)
    requires PathOk(m, ops, st)
    ensures IsPartial(m, ops, st.path)
    ensures Replay(m, ops, st.path) == Some(st.states[|st.path|])
    decreases |st.path|
  {
    if st.path != [] {
      PathShorter(m, ops, st);
      PathIsPartial(m, ops, Popped(st));
    }
  }

  lemma {:induction false} PathIsReachable<S, I, O>(m: Model<S, I, O>, ops: seq<Operation<I, O>>, st: Search<S>)
    requires PathOk(m, ops, st)
    ensures st.At(|st.path|) in Level(m, ops, |st.path|)
    decreases |st.path|
  {
    LevelZero(m, ops);
    hide Level, Enabled;
    if st.path == [] {
      assert st.At(0) == Config({}, m.init);
    } else {
      PathShorter(m, ops, st);
      PathIsReachable(m, ops, Popped(st));
      var k := |st.path| - 1;
      LevelStep(m, ops, k, st.At(k), st.path[k]);
    }
  }

  lemma Initially<S, I, O>(m: Model<S, I, O>, ops: seq<Operation<I, O>>, at: int)
    requires forall x: nat :: Enabled(ops, {}, x) ==> at <= ops[x].call
    ensures Inv(m, ops, Search([], [m.init], {}), at)
  {
    assert Elems<nat>([]) == {};
  }

  // ------------------------------------------------------------------
  // The branches of the loop

  /** A call that is refused, or leads to a configuration seen before, is passed over. */
  lemma Skip<S, I, O>(m: Model<S, I, O>, ops: seq<Operation<I, O>>, st: Search<S>, x: nat, at': int)
    requires Enabled(ops, Elems(st.path), x)
    requires Inv(m, ops, st, ops[x].call)
    requires Tried(m, ops, st.cache, Config(Elems(st.path), st.states[|st.path|]), x)
    requires forall y: nat :: Enabled(ops, Elems(st.path), y) && ops[y].call < at' ==>
        ops[y].call < ops[x].call || y == x
    ensures Inv(m, ops, st, at')
  {
    assert st.path[..|st.path|] == st.path;
  }

  ghost function Pushed<S, I, O>(m: Model<S, I, O>, ops: seq<Operation<I, O>>, st: Search<S>, x: nat): Search<S>
    requires |st.states| == |st.path| + 1 && x < |ops|
  {
    var c := Succ(m, ops, Config(Elems(st.path), st.states[|st.path|]), x);
    Search(st.path + [x], st.states + [c.state], st.cache + {c})
  }

  lemma PushedPath<S, I, O>(m: Model<S, I, O>, ops: seq<Operation<I, O>>, st: Search<S>, x: nat)
    requires PathOk(m, ops, st)
    requires Enabled(ops, Elems(st.path), x)
    requires Accepts(m, ops, st.states[|st.path|], x)
    ensures PathOk(m, ops, Pushed(m, ops, st, x))
    ensures forall i :: 0 <= i <= |st.path| ==> Pushed(m, ops, st, x).At(i) == st.At(i)
    ensures Pushed(m, ops, st, x).At(|st.path| + 1)
         == Succ(m, ops, Config(Elems(st.path), st.states[|st.path|]), x)
    ensures forall c :: st.OnStack(c) ==> Pushed(m, ops, st, x).OnStack(c)
  {
    var st' := Pushed(m, ops, st, x);
    assert forall i :: 0 <= i <= |st.path| ==> st'.path[..i] == st.path[..i];
    assert st'.path[..|st.path| + 1] == st.path + [x];
    assert st.path[..|st.path|] == st.path;
    ElemsSnoc(st.path, x);
  }

  lemma TriedMonotone<S, I, O>(m: Model<S, I, O>, ops: seq<Operation<I, O>>,
                                    cache: set<Config<S>>, more: set<Config<S>>)
    requires cache <= more
    ensures forall c :: Cached(m, cache, c) ==> Cached(m, more, c)
    ensures forall c :: Explored(m, ops, cache, c) ==> Explored(m, ops, more, c)
    ensures forall c, at :: TriedBefore(m, ops, cache, c, at) ==> TriedBefore(m, ops, more, c, at)
  {
  }

  lemma PathSized<S, I, O>(m: Model<S, I, O>, ops: seq<Operation<I, O>>, st: Search<S>, x: nat)
    requires PathOk(m, ops, st) && Enabled(ops, Elems(st.path), x)
    ensures |st.states| == |st.path| + 1 && x < |ops| && forall i :: 0 <= i < |st.path| ==> st.path[i] < |ops|
  {
  }

  lemma NothingTried<S, I, O>(m: Model<S, I, O>, ops: seq<Operation<I, O>>, st: Search<S>, x: nat, at': int)
    requires |st.states| == |st.path| + 1 && x < |ops|
    requires forall y: nat :: Enabled(ops, Elems(st.path) + {x}, y) ==> at' <= ops[y].call
    ensures TriedBefore(m, ops, Pushed(m, ops, st, x).cache,
                        Succ(m, ops, Config(Elems(st.path), st.states[|st.path|]), x), at')
  {
    hide Enabled, Elems, Cached;
  }

  lemma PushFrames<S, I, O>(m: Model<S, I, O>, ops: seq<Operation<I, O>>, st: Search<S>, x: nat, at': int)
    requires PathOk(m, ops, st) && Enabled(ops, Elems(st.path), x)
    requires FramesOk(m, ops, st, ops[x].call)
    requires Accepts(m, ops, st.states[|st.path|], x)
    requires forall y: nat :: Enabled(ops, Elems(st.path) + {x}, y) ==> at' <= ops[y].call
    ensures PathOk(m, ops, Pushed(m, ops, st, x)) && FramesOk(m, ops, Pushed(m, ops, st, x), at')
  {
    hide TriedBefore, Explored, Enabled, Accepts, Succ, Elems, Cached, PathOk;
    PathSized(m, ops, st, x);
    var st', n := Pushed(m, ops, st, x), |st.path|;
    var c := Succ(m, ops, Config(Elems(st.path), st.states[n]), x);
    NothingTried(m, ops, st, x, at');
    assert st.path[..n] == st.path;
    PushedPath(m, ops, st, x);
    TriedMonotone(m, ops, st.cache, st'.cache);
    assert st'.At(n + 1) == c && st'.cache == st.cache + {c};
    forall i | 0 < i <= n + 1 ensures st'.At(i) in st'.cache {
      assert i <= n ==> st.At(i) in st.cache;
    }
    forall i | 0 <= i < n + 1 ensures TriedBefore(m, ops, st'.cache, st'.At(i), ops[st'.path[i]].call) {
      if i < n {
        assert TriedBefore(m, ops, st.cache, st.At(i), ops[st.path[i]].call);
      } else {
        assert TriedBefore(m, ops, st.cache, st.At(n), ops[x].call);
      }
    }
    forall d | d in st'.cache ensures st'.OnStack(d) || Explored(m, ops, st'.cache, d) {
      if d != c {
        assert st.OnStack(d) || Explored(m, ops, st.cache, d);
      }
    }
  }

  /** A fresh configuration is entered and remembered. */
  lemma Push<S, I, O>(m: Model<S, I, O>, ops: seq<Operation<I, O>>, st: Search<S>, x: nat, at': int)
    requires Enabled(ops, Elems(st.path), x)
    requires Inv(m, ops, st, ops[x].call)
    requires Accepts(m, ops, st.states[|st.path|], x)
    requires forall y: nat :: Enabled(ops, Elems(st.path) + {x}, y) ==> at' <= ops[y].call
    ensures Inv(m, ops, Pushed(m, ops, st, x), at')
  {
    PushFrames(m, ops, st, x, at');
    FreshIsReachable(m, ops, st, x);
    PushedFull(m, ops, st, x);
  }

  lemma PushedFull<S, I, O>(m: Model<S, I, O>, ops: seq<Operation<I, O>>, st: Search<S>, x: nat)
    requires PathOk(m, ops, st) && CacheOk(m, ops, st)
    requires Enabled(ops, Elems(st.path), x)
    requires Accepts(m, ops, st.states[|st.path|], x)
    ensures |st.path| < |ops|
    ensures forall c :: c in Pushed(m, ops, st, x).cache && c.done == Below(|ops|) ==> |st.path| + 1 == |ops|
  {
    var st' := Pushed(m, ops, st, x);
    PushedPath(m, ops, st, x);
    PathIsPartial(m, ops, st');
    PartialIsDistinct(m, ops, st'.path);
    ElemsSnoc(st.path, x);
  }

  lemma FreshIsReachable<S, I, O>(m: Model<S, I, O>, ops: seq<Operation<I, O>>, st: Search<S>, x: nat)
    requires PathOk(m, ops, st)
    requires Enabled(ops, Elems(st.path), x)
    requires Accepts(m, ops, st.states[|st.path|], x)
    ensures Succ(m, ops, Config(Elems(st.path), st.states[|st.path|]), x) in Reach(m, ops, |ops|)
  {
    var st' := Pushed(m, ops, st, x);
    PushedPath(m, ops, st, x);
    PathIsPartial(m, ops, st');
    PathIsReachable(m, ops, st');
    PartialIsDistinct(m, ops, st'.path);
    LevelsReached(m, ops, |st'.path|, |ops|);
  }

  /** Each push uses up one of the finitely many reachable configurations. */
  lemma PushProgress<S, I, O>(m: Model<S, I, O>, ops: seq<Operation<I, O>>, st: Search<S>, x: nat)
    requires PathOk(m, ops, st)
    requires forall s :: m.equal(s, s)
    requires Enabled(ops, Elems(st.path), x)
    requires Accepts(m, ops, st.states[|st.path|], x)
    requires !Cached(m, st.cache, Succ(m, ops, Config(Elems(st.path), st.states[|st.path|]), x))
    ensures Untried(m, ops, Pushed(m, ops, st, x).cache) < Untried(m, ops, st.cache)
  {
    var c := Succ(m, ops, Config(Elems(st.path), st.states[|st.path|]), x);
    FreshIsReachable(m, ops, st, x);
    assert m.equal(c.state, c.state);
    assert c !in st.cache;
    var all := Reach(m, ops, |ops|);
    assert all - Pushed(m, ops, st, x).cache == (all - st.cache) - {c};
  }

  ghost function Popped<S>(st: Search<S>): Search<S>
    requires |st.states| == |st.path| + 1 && |st.path| > 0
  {
    var k := |st.path| - 1;
    Search(st.path[..k], st.states[..k + 1], st.cache)
  }

  lemma PoppedPath<S, I, O>(m: Model<S, I, O>, ops: seq<Operation<I, O>>, st: Search<S>)
    requires PathOk(m, ops, st) && |st.path| > 0
    ensures PathOk(m, ops, Popped(st))
    ensures forall i :: 0 <= i < |st.path| ==> Popped(st).At(i) == st.At(i)
    ensures forall c :: st.OnStack(c) ==> Popped(st).OnStack(c) || c == st.At(|st.path|)
  {
    assert forall i :: 0 <= i < |st.path| ==> Popped(st).path[..i] == st.path[..i];
  }

  /** The scan met a return: the current configuration is exhausted and left. */
  lemma Pop<S, I, O>(m: Model<S, I, O>, ops: seq<Operation<I, O>>, st: Search<S>, at: int, at': int)
    requires Inv(m, ops, st, at) && |st.path| > 0
    requires forall s :: m.equal(s, s)
    requires |st.path| < |ops|
    requires forall y: nat :: Enabled(ops, Elems(st.path), y) ==> ops[y].call < at
    requires var k := |st.path| - 1;
             forall y: nat :: Enabled(ops, Elems(st.path[..k]), y) && ops[y].call < at' ==>
               ops[y].call < ops[st.path[k]].call || y == st.path[k]
    ensures Inv(m, ops, Popped(st), at')
  {
    PoppedPath(m, ops, st);
    PopRetries(m, ops, st, at');
    PopExplored(m, ops, st, at);
  }

  lemma PopRetries<S, I, O>(m: Model<S, I, O>, ops: seq<Operation<I, O>>, st: Search<S>, at': int)
    requires PathOk(m, ops, st) && |st.path| > 0
    requires st.At(|st.path|) in st.cache
    requires forall s :: m.equal(s, s)
    requires var k := |st.path| - 1;
             && TriedBefore(m, ops, st.cache, st.At(k), ops[st.path[k]].call)
             && forall y: nat :: Enabled(ops, Elems(st.path[..k]), y) && ops[y].call < at' ==>
                  ops[y].call < ops[st.path[k]].call || y == st.path[k]
    ensures TriedBefore(m, ops, st.cache, st.At(|st.path| - 1), at')
  {
    var k := |st.path| - 1;
    PathShorter(m, ops, st);
    assert m.equal(st.At(k + 1).state, st.At(k + 1).state);
    assert Tried(m, ops, st.cache, st.At(k), st.path[k]);
  }

  lemma PopExplored<S, I, O>(m: Model<S, I, O>, ops: seq<Operation<I, O>>, st: Search<S>, at: int)
    requires PathOk(m, ops, st) && FramesOk(m, ops, st, at) && |st.path| > 0
    requires forall y: nat :: Enabled(ops, Elems(st.path), y) ==> ops[y].call < at
    ensures forall c :: c in st.cache ==> Popped(st).OnStack(c) || Explored(m, ops, st.cache, c)
  {
    PoppedPath(m, ops, st);
    assert st.path[..|st.path|] == st.path;
    assert Explored(m, ops, st.cache, st.At(|st.path|));
  }

  // ------------------------------------------------------------------
  // What an exhausted search has shown

  /** Whatever can be linearized leads to a configuration in the table. */
  lemma {:induction false} ExhaustedCovers<S(!new), I(!new), O(!new)>(
    m: Model<S, I, O>, ops: seq<Operation<I, O>>, st: Search<S>, at: int, p: seq<nat>)
    requires Congruent(m)
    requires Inv(m, ops, st, at) && st.path == []
    requires forall y: nat :: Enabled(ops, {}, y) ==> ops[y].call < at
    requires IsPartial(m, ops, p) && p != []
    ensures Cached(m, st.cache, Config(Elems(p), Replay(m, ops, p).value))
    decreases |p|
  {
    hide Inv, Congruent, Enabled, Explored, Cached, Accepts, Succ, Elems;
    var q := p[..|p| - 1];
    var c, x := LastStep(m, ops, p);
    EmptyStack(m, ops, st, at);
    if q == [] {
      StartConfig(m, ops);
      FirstTried(m, ops, st, at, x);
    } else {
      ExhaustedCovers(m, ops, st, at, q);
      var d := CachedAs(m, st.cache, c);
      TriedAs(m, ops, st.cache, c, d, x);
    }
  }

  lemma LastStep<S, I, O>(m: Model<S, I, O>, ops: seq<Operation<I, O>>, p: seq<nat>)
    returns (c: Config<S>, x: nat)
    requires IsPartial(m, ops, p) && p != []
    ensures IsPartial(m, ops, p[..|p| - 1])
    ensures c == Config(Elems(p[..|p| - 1]), Replay(m, ops, p[..|p| - 1]).value)
    ensures x < |ops| && Enabled(ops, c.done, x) && Accepts(m, ops, c.state, x)
    ensures Config(Elems(p), Replay(m, ops, p).value) == Succ(m, ops, c, x)
  {
    var k := |p| - 1;
    PartialPrefix(m, ops, p, k);
    x := p[k];
    assert Enabled(ops, Elems(p[..k]), x);
    ElemsLast(p);
    hide Elems;
    c := Config(Elems(p[..k]), Replay(m, ops, p[..k]).value);
  }

  lemma ElemsLast(p: seq<nat>)
    requires p != []
    ensures Elems(p) == Elems(p[..|p| - 1]) + {p[|p| - 1]}
  {
    assert p == p[..|p| - 1] + [p[|p| - 1]];
    ElemsSnoc(p[..|p| - 1], p[|p| - 1]);
  }

  lemma StartConfig<S, I, O>(m: Model<S, I, O>, ops: seq<Operation<I, O>>)
    ensures Config(Elems([]), Replay(m, ops, []).value) == Config({}, m.init)
  {
  }

  lemma EmptyStack<S, I, O>(m: Model<S, I, O>, ops: seq<Operation<I, O>>, st: Search<S>, at: int)
    requires Inv(m, ops, st, at) && st.path == []
    ensures forall c :: c in st.cache ==> Explored(m, ops, st.cache, c)
  {
    hide Explored, TriedBefore, CacheOk;
  }

  lemma FirstTried<S, I, O>(m: Model<S, I, O>, ops: seq<Operation<I, O>>, st: Search<S>, at: int, x: nat)
    requires Inv(m, ops, st, at) && st.path == [] && Enabled(ops, {}, x) && ops[x].call < at
    requires Accepts(m, ops, m.init, x)
    ensures Cached(m, st.cache, Succ(m, ops, Config({}, m.init), x))
  {
    assert st.At(0) == Config({}, m.init);
    hide Explored, Cached, CacheOk, Enabled;
    assert Tried(m, ops, st.cache, st.At(0), x);
  }

  lemma CachedAs<S, I, O>(m: Model<S, I, O>, cache: set<Config<S>>, c: Config<S>) returns (d: Config<S>)
    requires Cached(m, cache, c)
    ensures d in cache && d.done == c.done && m.equal(c.state, d.state)
  {
    d :| d in cache && d.done == c.done && m.equal(c.state, d.state);
  }

  /** What was tried from an equal state counts as tried from this one. */
  lemma TriedAs<S(!new), I(!new), O(!new)>(
    m: Model<S, I, O>, ops: seq<Operation<I, O>>, cache: set<Config<S>>, c: Config<S>, d: Config<S>, x: nat)
    requires Congruent(m) && d.done == c.done && m.equal(c.state, d.state) && Explored(m, ops, cache, d)
    requires Enabled(ops, c.done, x) && Accepts(m, ops, c.state, x)
    ensures Cached(m, cache, Succ(m, ops, c, x))
  {
    assert Tried(m, ops, cache, d, x);
    hide Enabled;
    var e := CachedAs(m, cache, Succ(m, ops, d, x));
    assert m.equal(Succ(m, ops, c, x).state, Succ(m, ops, d, x).state);
    assert m.equal(Succ(m, ops, c, x).state, e.state);
  }

  lemma ExhaustedRefutes<S(!new), I(!new), O(!new)>(
    m: Model<S, I, O>, ops: seq<Operation<I, O>>, st: Search<S>, at: int)
    requires Congruent(m) && Proper(ops) && |ops| > 0
    requires Inv(m, ops, st, at) && st.path == []
    requires forall y: nat :: Enabled(ops, {}, y) ==> ops[y].call < at
    ensures !Linearizable(m, ops)
  {
    forall order | IsLinearization(m, ops, order) ensures false {
      FullPartialIsLinearization(m, ops, order);
      ExhaustedCovers(m, ops, st, at, order);
      PermutationIsOnto(order, |ops|);
    }
  }

  lemma CompleteProves<S, I, O>(m: Model<S, I, O>, ops: seq<Operation<I, O>>, st: Search<S>)
    requires Proper(ops) && PathOk(m, ops, st) && |st.path| == |ops|
    ensures IsLinearization(m, ops, st.path)
  {
    PathIsPartial(m, ops, st);
    FullPartialIsLinearization(m, ops, st.path);
  }

  // ------------------------------------------------------------------
  // The longest partial linearizations

  type Longest = seq<Option<seq<nat>>>

  ghost predicate Sound<S, I, O>(m: Model<S, I, O>, ops: seq<Operation<I, O>>, longest: Longest) {
    forall id :: 0 <= id < |longest| && longest[id].Some? ==>
      id in longest[id].value && IsPartial(m, ops, longest[id].value)
  }

  ghost predicate LongEnough(longest: Longest, done: set<nat>) {
    forall id :: id in done && id < |longest| ==> longest[id].Some? && |longest[id].value| >= |done|
  }

  /** Everything the search has left is accounted for. */
  ghost predicate Recorded<S>(st: Search<S>, longest: Longest)
    requires |st.states| == |st.path| + 1
  {
    forall c :: c in st.cache && !st.OnStack(c) ==> LongEnough(longest, c.done)
  }

  /** `longest[id]` is as long as any partial linearization that contains `id`. */
  ghost predicate Maximal<S, I, O>(m: Model<S, I, O>, ops: seq<Operation<I, O>>, longest: Longest) {
    forall p: seq<nat>, id: nat :: IsPartial(m, ops, p) && id in p && id < |longest| ==>
      longest[id].Some? && |longest[id].value| >= |p|
  }

  lemma PushRecorded<S, I, O>(m: Model<S, I, O>, ops: seq<Operation<I, O>>, st: Search<S>, x: nat, longest: Longest)
    requires PathOk(m, ops, st) && Recorded(st, longest)
    requires Enabled(ops, Elems(st.path), x) && Accepts(m, ops, st.states[|st.path|], x)
    ensures Recorded(Pushed(m, ops, st, x), longest)
  {
    var st' := Pushed(m, ops, st, x);
    PushedPath(m, ops, st, x);
  }

  lemma PopRecorded<S, I, O>(m: Model<S, I, O>, ops: seq<Operation<I, O>>, st: Search<S>, longest: Longest)
    requires PathOk(m, ops, st) && |st.path| > 0 && Recorded(st, longest)
    requires LongEnough(longest, Elems(st.path))
    ensures Recorded(Popped(st), longest)
  {
    var st' := Popped(st);
    PoppedPath(m, ops, st);
    assert st.path[..|st.path|] == st.path;
  }

  lemma ExhaustedMaximal<S(!new), I(!new), O(!new)>(
    m: Model<S, I, O>, ops: seq<Operation<I, O>>, st: Search<S>, at: int, longest: Longest)
    requires Congruent(m)
    requires Inv(m, ops, st, at) && st.path == []
    requires forall y: nat :: Enabled(ops, {}, y) ==> ops[y].call < at
    requires Recorded(st, longest)
    ensures Maximal(m, ops, longest)
  {
    forall p: seq<nat>, id: nat | IsPartial(m, ops, p) && id in p && id < |longest|
      ensures longest[id].Some? && |longest[id].value| >= |p|
    {
      ExhaustedCovers(m, ops, st, at, p);
      var d :| d in st.cache && d.done == Elems(p);
      assert !st.OnStack(d);
      PartialIsDistinct(m, ops, p);
    }
  }
}
