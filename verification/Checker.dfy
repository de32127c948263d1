/** The linearizability checker: a depth-first search over orders of the
    history's operations, on a linked list it edits in place. */
module Checker {
  import opened Basics
  import opened Linearizability
  import opened Backtracking
  import opened LinkedHistory
  import opened Entries
  import opened Bitsets

  // ------------------------------------------------------------------
  // The memo table

  datatype CacheEntry<S> = CacheEntry(linearized: Bitset, state: S)

  type Cache<S> = map<Word, seq<CacheEntry<S>>>

  ghost function ConfigOf<S>(e: CacheEntry<S>): Config<S> {
    Config(Members(e.linearized), e.state)
  }

  ghost predicate Filed<S>(cache: Cache<S>, e: CacheEntry<S>) {
    Hash(e.linearized) in cache && e in cache[Hash(e.linearized)]
  }

  /** The buckets hold exactly the configurations in `known`, each under its own hash. */
  ghost predicate Holds<S(!new)>(cache: Cache<S>, width: nat, known: set<Config<S>>) {
    && (forall key, i :: key in cache && 0 <= i < |cache[key]| ==>
          |cache[key][i].linearized| == width && ConfigOf(cache[key][i]) in known)
    && (forall c :: c in known ==>
        exists e: CacheEntry<S> :: |e.linearized| == width && Filed(cache, e) && ConfigOf(e) == c)
  }

  function Bucket<S>(cache: Cache<S>, hash: Word): seq<CacheEntry<S>> {
    if hash in cache then cache[hash] else []
  }

  /** Whatever matches an entry is in the entry's own bucket. */
  lemma BucketComplete<S(!new), I, O>(m: Model<S, I, O>, cache: Cache<S>, entry: CacheEntry<S>, known: set<Config<S>>)
    requires Holds(cache, |entry.linearized|, known) && Cached(m, known, ConfigOf(entry))
    ensures exists j :: 0 <= j < |Bucket(cache, Hash(entry.linearized))|
                        && Matches(m, entry, Bucket(cache, Hash(entry.linearized))[j])
  {
    var d :| d in known && d.done == Members(entry.linearized) && m.equal(entry.state, d.state);
    var e: CacheEntry<S> :| |e.linearized| == |entry.linearized| && Filed(cache, e) && ConfigOf(e) == d;
    SameMembers(e.linearized, entry.linearized);
    var bucket := Bucket(cache, Hash(entry.linearized));
    var j :| 0 <= j < |bucket| && bucket[j] == e;
    assert Matches(m, entry, bucket[j]);
  }

  ghost predicate Matches<S, I, O>(m: Model<S, I, O>, entry: CacheEntry<S>, e: CacheEntry<S>) {
    Members(e.linearized) == Members(entry.linearized) && m.equal(entry.state, e.state)
  }

  method CacheContains<S(==, !new), I, O>(m: Model<S, I, O>, cache: Cache<S>, entry: CacheEntry<S>,
                                      ghost known: set<Config<S>>)
    returns (found: bool)
    requires Holds(cache, |entry.linearized|, known)
    ensures found <==> Cached(m, known, ConfigOf(entry))
  {
    var hash := ComputeHash(entry.linearized);
    var bucket := Bucket(cache, hash);
    for i := 0 to |bucket|
      invariant forall j :: 0 <= j < i ==> !Matches(m, entry, bucket[j])
    {
      var elem := bucket[i];
      var same := Equals(entry.linearized, elem.linearized);
      if same && m.equal(entry.state, elem.state) {
        assert ConfigOf(cache[hash][i]) in known;
        return true;
      }
      assert !Matches(m, entry, bucket[i]) by {
        assert |cache[hash][i].linearized| == |entry.linearized|;
      }
    }
    if Cached(m, known, ConfigOf(entry)) {
      BucketComplete(m, cache, entry, known);
    }
    return false;
  }

  function CacheAdd<S>(cache: Cache<S>, e: CacheEntry<S>): Cache<S> {
    var hash := Hash(e.linearized);
    cache[hash := (if hash in cache then cache[hash] else []) + [e]]
  }

  lemma CacheAddHolds<S(!new)>(cache: Cache<S>, e: CacheEntry<S>, known: set<Config<S>>)
    requires Holds(cache, |e.linearized|, known)
    ensures Holds(CacheAdd(cache, e), |e.linearized|, known + {ConfigOf(e)})
  {
    var cache' := CacheAdd(cache, e);
    forall c | c in known + {ConfigOf(e)}
      ensures exists f: CacheEntry<S> :: |f.linearized| == |e.linearized| && Filed(cache', f) && ConfigOf(f) == c
    {
      if c == ConfigOf(e) {
        assert cache'[Hash(e.linearized)][|cache'[Hash(e.linearized)]| - 1] == e;
        assert Filed(cache', e);
      } else {
        var f: CacheEntry<S> :| |f.linearized| == |e.linearized| && Filed(cache, f) && ConfigOf(f) == c;
        assert Filed(cache', f);
      }
    }
  }

  // ------------------------------------------------------------------
  // The list during the search

  /** The positions still in the list when the operations in `done` have been lifted out. */
  ghost function Live<I, O>(h: seq<Entry<I, O>>, done: set<nat>): set<nat> {
    set p | p in Below(|h| + 1) && IsLive(h, done, p)
  }

  ghost predicate IsLive<I, O>(h: seq<Entry<I, O>>, done: set<nat>, p: nat)
    requires p <= |h|
  {
    p == 0 || h[p - 1].id !in done
  }

  lemma LiveLess<I, O>(h: seq<Entry<I, O>>, ops: seq<Operation<I, O>>, done: set<nat>, x: nat)
    requires Describes(h, ops) && x < |ops| && x !in done
    ensures ops[x].call in Live(h, done) && ops[x].ret in Live(h, done)
    ensures Live(h, done + {x}) == Live(h, done) - {ops[x].call, ops[x].ret}
  {
    var c, r := ops[x].call, ops[x].ret;
    assert IsLive(h, done, c) && IsLive(h, done, r);
    forall p: nat | p <= |h| ensures IsLive(h, done + {x}, p) <==> IsLive(h, done, p) && p != c && p != r {
      if p > 0 {
        var q := p - 1;
        assert q + 1 == if h[q].CallEntry? then ops[h[q].id].call else ops[h[q].id].ret;
      }
    }
  }

  ghost predicate ArenaOk<I, O>(h: seq<Entry<I, O>>, ops: seq<Operation<I, O>>, arena: seq<Node<I, O>>) {
    && Describes(h, ops)
    && |arena| == |h| + 1
    && (forall p :: 0 <= p < |arena| ==> arena[p].pos == p)
    && (forall p :: 0 < p < |arena| ==> NodeOk(h, ops, arena, p))
  }

  /** One lift, seen from the operation lifted. */
  ghost predicate LiftedOne<I, O>(h: seq<Entry<I, O>>, ops: seq<Operation<I, O>>, done: set<nat>, x: nat,
      P: Links, Q: Links)
    requires Describes(h, ops)
  {
    && x < |ops| && x !in done
    && Threads(P, Live(h, done))
    && (LiveLess(h, ops, done, x); Q == Lifted(P, Live(h, done), ops[x].call, ops[x].ret))
  }

  /** `trail[i]` are the pointers after the first `i` operations of `path` were lifted. */
  ghost predicate TrailOk<I, O>(h: seq<Entry<I, O>>, ops: seq<Operation<I, O>>, path: seq<nat>, trail: seq<Links>)
    requires Describes(h, ops)
  {
    && |trail| == |path| + 1
    && Threads(trail[|path|], Live(h, Elems(path)))
    && (forall i :: 0 <= i < |path| ==> LiftedOne(h, ops, Elems(path[..i]), path[i], trail[i], trail[i + 1]))
  }

  /** The list is the original history without the operations on the stack, and
      lifting in reverse order leads back to it. */
  ghost predicate ListOk<I, O>(h: seq<Entry<I, O>>, ops: seq<Operation<I, O>>, arena: seq<Node<I, O>>,
                               path: seq<nat>, trail: seq<Links>)
    reads arena
  {
    ArenaOk(h, ops, arena) && TrailOk(h, ops, path, trail) && Mirrors(arena, trail[|path|])
  }

  lemma TrailPush<I, O>(h: seq<Entry<I, O>>, ops: seq<Operation<I, O>>, path: seq<nat>, trail: seq<Links>,
      x: nat, Q: Links)
    requires Describes(h, ops) && TrailOk(h, ops, path, trail)
    requires LiftedOne(h, ops, Elems(path), x, trail[|path|], Q)
    ensures TrailOk(h, ops, path + [x], trail + [Q])
  {
    LiveLess(h, ops, Elems(path), x);
    LiftedThreads(trail[|path|], Live(h, Elems(path)), ops[x].call, ops[x].ret);
    ElemsSnoc(path, x);
    forall i | 0 <= i < |path| + 1
      ensures LiftedOne(h, ops, Elems((path + [x])[..i]), (path + [x])[i], (trail + [Q])[i], (trail + [Q])[i + 1])
    {
      assert (path + [x])[..i] == path[..i];
      assert path[..|path|] == path;
    }
  }

  lemma TrailPop<I, O>(h: seq<Entry<I, O>>, ops: seq<Operation<I, O>>, path: seq<nat>, trail: seq<Links>)
    requires Describes(h, ops) && TrailOk(h, ops, path, trail) && path != []
    ensures TrailOk(h, ops, path[..|path| - 1], trail[..|path|])
  {
    var k := |path| - 1;
    assert LiftedOne(h, ops, Elems(path[..k]), path[k], trail[k], trail[k + 1]);
    forall i | 0 <= i < k
      ensures LiftedOne(h, ops, Elems(path[..k][..i]), path[..k][i], trail[..k + 1][i], trail[..k + 1][i + 1])
    {
      assert path[..k][..i] == path[..i];
    }
  }

  method Descend<I, O>(entry: Node<I, O>, ghost h: seq<Entry<I, O>>, ghost ops: seq<Operation<I, O>>,
                       ghost arena: seq<Node<I, O>>, ghost path: seq<nat>, ghost trail: seq<Links>)
    returns (ghost trail': seq<Links>)
    requires ListOk(h, ops, arena, path, trail)
    requires At(arena, entry) && entry.pos > 0 && h[entry.pos - 1].CallEntry?
    requires h[entry.pos - 1].id !in Elems(path)
    modifies arena
    ensures |trail'| == |path| + 2 && ListOk(h, ops, arena, path + [h[entry.pos - 1].id], trail')
  {
    ghost var x := h[entry.pos - 1].id;
    ghost var P, D := trail[|path|], Live(h, Elems(path));
    LiveLess(h, ops, Elems(path), x);
    assert NodeOk(h, ops, arena, entry.pos);
    assert entry.pos == ops[x].call && entry.mate == arena[ops[x].ret];
    ghost var Q := Lifted(P, D, ops[x].call, ops[x].ret);
    trail' := trail + [Q];
    TrailPush(h, ops, path, trail, x, Q);
    Lift(entry, arena, P, D);
  }

  method Ascend<I, O>(entry: Node<I, O>, ghost h: seq<Entry<I, O>>, ghost ops: seq<Operation<I, O>>,
                      ghost arena: seq<Node<I, O>>, ghost path: seq<nat>, ghost trail: seq<Links>)
    requires ListOk(h, ops, arena, path, trail)
    requires path != [] && path[|path| - 1] < |ops| && entry == arena[ops[path[|path| - 1]].call]
    modifies arena
    ensures ListOk(h, ops, arena, path[..|path| - 1], trail[..|path|])
  {
    ghost var k := |path| - 1;
    ghost var x := path[k];
    assert LiftedOne(h, ops, Elems(path[..k]), x, trail[k], trail[k + 1]);
    LiveLess(h, ops, Elems(path[..k]), x);
    assert NodeOk(h, ops, arena, ops[x].call);
    assert entry.mate == arena[ops[x].ret];
    TrailPop(h, ops, path, trail);
    Unlift(entry, arena, trail[k], Live(h, Elems(path[..k])));
  }

  // ------------------------------------------------------------------
  // The scan along the list

  /** No outstanding return lies before position `at`. */
  ghost predicate ScanOk<I, O>(ops: seq<Operation<I, O>>, done: set<nat>, at: int) {
    forall y: nat :: y < |ops| && y !in done ==> at <= ops[y].ret
  }

  /** From the sentinel the scan moves to the first outstanding entry, if there is one. */
  lemma ScanFirst<I, O>(h: seq<Entry<I, O>>, ops: seq<Operation<I, O>>, done: set<nat>, P: Links)
    requires Describes(h, ops) && Threads(P, Live(h, done))
    ensures P.next[0] < 0 ==> forall y: nat :: y < |ops| ==> y in done
    ensures P.next[0] >= 0 ==>
              && 0 < P.next[0] && P.next[0] in Live(h, done) && ScanOk(ops, done, P.next[0])
              && forall y: nat :: Enabled(ops, done, y) ==> P.next[0] <= ops[y].call
  {
    assert NextOk(P, Live(h, done), 0);
    forall y: nat | y < |ops| && y !in done
      ensures 0 <= P.next[0] <= ops[y].call && P.next[0] <= ops[y].ret
    {
      LiveLess(h, ops, done, y);
    }
  }

  /** From a call the scan moves to the next outstanding entry, which exists. */
  lemma ScanNext<I, O>(h: seq<Entry<I, O>>, ops: seq<Operation<I, O>>, done: set<nat>, P: Links, x: nat)
    requires Describes(h, ops) && Threads(P, Live(h, done))
    requires x < |ops| && x !in done && ScanOk(ops, done, ops[x].call)
    ensures ops[x].call in Live(h, done)
    ensures var q := P.next[ops[x].call];
            && 0 < q && q > ops[x].call && q in Live(h, done) && ScanOk(ops, done, q)
            && forall y: nat :: Enabled(ops, done, y) && ops[y].call < q ==> ops[y].call < ops[x].call || y == x
  {
    LiveLess(h, ops, done, x);
    var q := P.next[ops[x].call];
    assert NextOk(P, Live(h, done), ops[x].call);
    hide Describes, Threads, Live, NextOk;
    forall y: nat | y < |ops| && y !in done
      ensures q <= ops[y].ret
      ensures ops[y].call < q ==> ops[y].call < ops[x].call || y == x
    {
      ScanPast(h, ops, done, P, x, y);
    }
  }

  lemma ScanPast<I, O>(h: seq<Entry<I, O>>, ops: seq<Operation<I, O>>, done: set<nat>, P: Links, x: nat, y: nat)
    requires Describes(h, ops) && Threads(P, Live(h, done))
    requires x < |ops| && x !in done && ScanOk(ops, done, ops[x].call) && y < |ops| && y !in done
    ensures ops[x].call in Live(h, done) && P.next[ops[x].call] <= ops[y].ret
    ensures ops[y].call < P.next[ops[x].call] ==> ops[y].call < ops[x].call || y == x
  {
    LiveLess(h, ops, done, x);
    assert NextOk(P, Live(h, done), ops[x].call);
    LiveLess(h, ops, done, y);
    var c, r := ops[y].call - 1, ops[y].ret - 1;
    assert h[r].ReturnEntry? && h[c].id == y;
  }

  /** What the entry under the scan is: an enabled call, or proof that nothing more is enabled. */
  lemma ScanHere<I, O>(h: seq<Entry<I, O>>, ops: seq<Operation<I, O>>, done: set<nat>, at: nat)
    requires Describes(h, ops) && 0 < at && at in Live(h, done) && ScanOk(ops, done, at)
    ensures h[at - 1].CallEntry? ==> ops[h[at - 1].id].call == at && Enabled(ops, done, h[at - 1].id)
    ensures h[at - 1].ReturnEntry? ==>
              && h[at - 1].id < |ops| && h[at - 1].id !in done
              && forall y: nat :: Enabled(ops, done, y) ==> ops[y].call < at
  {
    assert IsLive(h, done, at);
    var p := at - 1;
    var x := h[p].id;
    assert p + 1 == if h[p].CallEntry? then ops[x].call else ops[x].ret;
    forall y: nat | Enabled(ops, done, y) ensures h[p].ReturnEntry? ==> ops[y].call < at {
      assert h[ops[y].call - 1].CallEntry?;
    }
  }

  // ------------------------------------------------------------------
  // The stack of calls

  datatype CallsEntry<S, I, O> = CallsEntry(entry: Node<I, O>, state: S)

  ghost predicate StackOk<S, I, O>(ops: seq<Operation<I, O>>, arena: seq<Node<I, O>>,
                                   st: Search<S>, calls: seq<CallsEntry<S, I, O>>)
  {
    && |calls| == |st.path| == |st.states| - 1
    && forall i :: 0 <= i < |calls| ==>
         && st.path[i] < |ops| && 0 <= ops[st.path[i]].call < |arena|
         && calls[i].entry == arena[ops[st.path[i]].call]
         && calls[i].entry.id == st.path[i]
         && calls[i].state == st.states[i]
  }

  method CallIds<S, I, O>(calls: seq<CallsEntry<S, I, O>>, ghost path: seq<nat>) returns (ids: seq<nat>)
    requires |path| == |calls| && forall i :: 0 <= i < |calls| ==> calls[i].entry.id == path[i]
    ensures ids == path
  {
    ids := [];
    for i := 0 to |calls|
      invariant ids == path[..i]
    {
      ids := ids + [calls[i].entry.id];
    }
  }

  /** Remember the current stack for every operation on it that has no longer one yet. */
  method RecordLongest<S, I, O>(calls: seq<CallsEntry<S, I, O>>, longest: Longest, ghost path: seq<nat>)
    returns (longest': Longest)
    requires |path| == |calls| && forall i :: 0 <= i < |calls| ==> calls[i].entry.id == path[i]
    requires forall i :: 0 <= i < |path| ==> path[i] < |longest|
    ensures |longest'| == |longest|
    ensures forall id :: 0 <= id < |longest| ==>
              longest'[id] == longest[id] || (id in path && longest'[id] == Some(path))
    ensures forall id :: 0 <= id < |longest| && longest[id].Some? ==>
              longest'[id].Some? && |longest'[id].value| >= |longest[id].value|
    ensures forall i :: 0 <= i < |path| ==> longest'[path[i]].Some? && |longest'[path[i]].value| >= |path|
  {
    longest' := longest;
    var ids: Option<seq<nat>> := None;
    for i := 0 to |calls|
      invariant |longest'| == |longest|
      invariant ids == None || ids == Some(path)
      invariant forall id :: 0 <= id < |longest| ==>
                  longest'[id] == longest[id] || (id in path && longest'[id] == Some(path))
      invariant forall id :: 0 <= id < |longest| && longest[id].Some? ==>
                  longest'[id].Some? && |longest'[id].value| >= |longest[id].value|
      invariant forall j :: 0 <= j < i ==> longest'[path[j]].Some? && |longest'[path[j]].value| >= |path|
    {
      var id := calls[i].entry.id;
      if longest'[id] == None || |calls| > |longest'[id].value| {
        if ids == None {
          var made := CallIds(calls, path);
          ids := Some(made);
        }
        longest' := longest'[id := ids];
      }
    }
  }

  lemma RecordOk<S, I, O>(m: Model<S, I, O>, ops: seq<Operation<I, O>>, st: Search<S>, longest: Longest,
      longest': Longest)
    requires PathOk(m, ops, st) && Sound(m, ops, longest)
    requires |longest'| == |longest|
    requires forall id :: 0 <= id < |longest| ==>
               longest'[id] == longest[id] || (id in st.path && longest'[id] == Some(st.path))
    ensures Sound(m, ops, longest')
  {
    PathIsPartial(m, ops, st);
  }

  lemma RecordEnough<S, I, O>(m: Model<S, I, O>, ops: seq<Operation<I, O>>, st: Search<S>, longest: Longest,
      longest': Longest)
    requires PathOk(m, ops, st) && Recorded(st, longest)
    requires |longest'| == |longest| == |ops|
    requires forall id :: 0 <= id < |longest| && longest[id].Some? ==>
               longest'[id].Some? && |longest'[id].value| >= |longest[id].value|
    requires forall i :: 0 <= i < |st.path| ==> st.path[i] < |ops| && longest'[st.path[i]].Some?
                                                && |longest'[st.path[i]].value| >= |st.path|
    ensures Recorded(st, longest') && LongEnough(longest', Elems(st.path))
  {
    PathIsPartial(m, ops, st);
    PartialIsDistinct(m, ops, st.path);
  }

  // ------------------------------------------------------------------
  // The search loop

  /** The entry under the scan; there is none only when the list is empty. */
  ghost predicate Under<S, I, O>(m: Model<S, I, O>, h: seq<Entry<I, O>>, ops: seq<Operation<I, O>>,
                                 arena: seq<Node<I, O>>, P: Links, st: Search<S>, entry: Node?<I, O>)
  {
    && |P.next| > 0 && (entry == null <==> P.next[0] < 0)
    && (entry != null ==> At(arena, entry) && EntryOk(m, h, ops, st, entry.pos))
  }

  /** The bitset and the table stand for what is linearized and what was tried. */
  ghost predicate SetsOk<S(!new)>(n: nat, st: Search<S>, linearized: Bitset, cache: Cache<S>) {
    && n <= 64 * |linearized| && Members(linearized) == Elems(st.path)
    && Holds(cache, |linearized|, st.cache)
  }

  ghost predicate EntryOk<S, I, O>(m: Model<S, I, O>, h: seq<Entry<I, O>>, ops: seq<Operation<I, O>>,
      st: Search<S>, at: nat) {
    && 0 < at && at in Live(h, Elems(st.path))
    && ScanOk(ops, Elems(st.path), at)
    && Inv(m, ops, st, at)
  }

  lemma SkipEntry<S(!new), I, O>(m: Model<S, I, O>, h: seq<Entry<I, O>>, ops: seq<Operation<I, O>>, st: Search<S>,
                                 P: Links, at: nat)
    requires Describes(h, ops) && Threads(P, Live(h, Elems(st.path)))
    requires EntryOk(m, h, ops, st, at) && h[at - 1].CallEntry?
    requires var x := h[at - 1].id;
             x < |ops| && Tried(m, ops, st.cache, Config(Elems(st.path), st.states[|st.path|]), x)
    ensures P.next[at] > at && EntryOk(m, h, ops, st, P.next[at])
  {
    ScanHere(h, ops, Elems(st.path), at);
    ScanNext(h, ops, Elems(st.path), P, h[at - 1].id);
    Skip(m, ops, st, h[at - 1].id, P.next[at]);
  }

  lemma PushEntry<S(!new), I, O>(m: Model<S, I, O>, h: seq<Entry<I, O>>, ops: seq<Operation<I, O>>, st: Search<S>,
                                 Q: Links, at: nat)
    requires Describes(h, ops)
    requires EntryOk(m, h, ops, st, at) && h[at - 1].CallEntry?
    requires h[at - 1].id < |ops| && Accepts(m, ops, st.states[|st.path|], h[at - 1].id)
    requires Threads(Q, Live(h, Elems(st.path + [h[at - 1].id])))
    ensures var st' := Pushed(m, ops, st, h[at - 1].id);
            PathOk(m, ops, st') && (Q.next[0] >= 0 ==> EntryOk(m, h, ops, st', Q.next[0]))
  {
    var x := h[at - 1].id;
    ScanHere(h, ops, Elems(st.path), at);
    PushedPath(m, ops, st, x);
    ElemsSnoc(st.path, x);
    ScanFirst(h, ops, Elems(st.path + [x]), Q);
    if Q.next[0] >= 0 {
      Push(m, ops, st, x, Q.next[0]);
    }
  }

  lemma PopEntry<S(!new), I, O>(m: Model<S, I, O>, h: seq<Entry<I, O>>, ops: seq<Operation<I, O>>, st: Search<S>,
                                P: Links, at: nat)
    requires Describes(h, ops) && forall s :: m.equal(s, s)
    requires EntryOk(m, h, ops, st, at) && h[at - 1].ReturnEntry? && st.path != []
    requires Threads(P, Live(h, Elems(st.path[..|st.path| - 1])))
    ensures PathOk(m, ops, Popped(st))
    ensures var c := ops[st.path[|st.path| - 1]].call;
            0 <= c < |P.next| && P.next[c] > 0 && EntryOk(m, h, ops, Popped(st), P.next[c])
  {
    var k := |st.path| - 1;
    var x := st.path[k];
    ScanHere(h, ops, Elems(st.path), at);
    PoppedPath(m, ops, st);
    assert Enabled(ops, Elems(st.path[..k]), x);
    ScanNext(h, ops, Elems(st.path[..k]), P, x);
    NotFull(m, ops, st, h[at - 1].id);
    Pop(m, ops, st, at, P.next[ops[x].call]);
  }

  lemma NotFull<S, I, O>(m: Model<S, I, O>, ops: seq<Operation<I, O>>, st: Search<S>, y: nat)
    requires PathOk(m, ops, st) && y < |ops| && y !in Elems(st.path)
    ensures |st.path| < |ops|
  {
    PathIsPartial(m, ops, st);
    PartialIsDistinct(m, ops, st.path);
    if |st.path| == |ops| {
      SubsetSameSize(Elems(st.path), Below(|ops|));
    }
  }

  lemma AllDone<S, I, O>(m: Model<S, I, O>, ops: seq<Operation<I, O>>, st: Search<S>)
    requires PathOk(m, ops, st) && forall y: nat :: y < |ops| ==> y in Elems(st.path)
    ensures |st.path| == |ops|
  {
    PathIsPartial(m, ops, st);
    PartialIsDistinct(m, ops, st.path);
    assert Elems(st.path) == Below(|ops|);
  }

  // ------------------------------------------------------------------
  // Before the loop

  ghost function Straight(n: nat): Links {
    Links(seq(n + 1, i => if i < n then i + 1 else -1), seq(n + 1, i => i - 1))
  }

  lemma StraightThreads<I, O>(h: seq<Entry<I, O>>)
    ensures Threads(Straight(|h|), Live(h, {}))
  {
    var P, D := Straight(|h|), Live(h, {});
    forall p: nat | p <= |h| ensures p in D {
      assert IsLive(h, {}, p);
    }
    forall p | p in D ensures NextOk(P, D, p) && PrevOk(P, D, p) {
    }
  }

  method Length<I, O>(n: Node?<I, O>, ghost nodes: seq<Node<I, O>>) returns (l: nat)
    requires Chained(nodes) && n == if nodes == [] then null else nodes[0]
    ensures l == |nodes|
  {
    l := 0;
    var node := n;
    while node != null
      invariant 0 <= l <= |nodes|
      invariant node == if l < |nodes| then nodes[l] else null
      decreases |nodes| - l
    {
      node := node.next;
      l := l + 1;
    }
  }

  ghost predicate NodeOk<I, O>(h: seq<Entry<I, O>>, ops: seq<Operation<I, O>>, arena: seq<Node<I, O>>, p: nat)
    requires |arena| == |h| + 1 && Describes(h, ops) && 0 < p < |arena|
  {
    && arena[p].id == h[p - 1].id
    && (h[p - 1].CallEntry? ==>
          arena[p].value == Input(h[p - 1].input) && arena[p].mate == arena[ops[h[p - 1].id].ret])
    && (h[p - 1].ReturnEntry? ==> arena[p].value == Output(h[p - 1].output) && arena[p].mate == null)
  }

  lemma NodeBuilt<I, O>(h: seq<Entry<I, O>>, ops: seq<Operation<I, O>>, head: Node<I, O>, nodes: seq<Node<I, O>>,
      p: nat)
    requires Describes(h, ops) && Suffix(h, ops, nodes, 0) && 0 < p <= |nodes|
    ensures nodes[p - 1].pos == p && NodeOk(h, ops, [head] + nodes, p)
  {
    var q := p - 1;
    assert Represents(nodes[q - 0], h[q], q + 1, ops, nodes, 0);
  }

  lemma ArenaBuilt<I, O>(h: seq<Entry<I, O>>, ops: seq<Operation<I, O>>, head: Node<I, O>, nodes: seq<Node<I, O>>)
    requires Describes(h, ops) && Suffix(h, ops, nodes, 0) && head.pos == 0
    ensures ArenaOk(h, ops, [head] + nodes)
  {
    var arena := [head] + nodes;
    forall p | 0 < p < |arena| ensures arena[p].pos == p && NodeOk(h, ops, arena, p) {
      NodeBuilt(h, ops, head, nodes, p);
    }
  }

  lemma MirrorsBuilt<I, O>(head: Node<I, O>, nodes: seq<Node<I, O>>)
    requires forall p :: 0 <= p < |nodes| ==> nodes[p].pos == p + 1
    requires head.pos == 0 && head.prev == null
    requires head.next == if nodes == [] then null else nodes[0]
    requires nodes != [] ==> nodes[0].prev == head && nodes[|nodes| - 1].next == null
    requires forall k {:trigger nodes[k].next} :: 0 <= k < |nodes| - 1 ==> nodes[k].next == nodes[k + 1]
    requires forall k {:trigger nodes[k].prev} :: 0 < k < |nodes| ==> nodes[k].prev == nodes[k - 1]
    ensures Mirrors([head] + nodes, Straight(|nodes|))
  {
    var arena, P := [head] + nodes, Straight(|nodes|);
    forall i | 0 <= i < |arena| ensures PointsTo(arena[i].next, arena, P.next[i]) {
      if i > 0 {
        assert arena[i] == nodes[i - 1];
      }
    }
    forall i | 0 <= i < |arena| ensures PointsTo(arena[i].prev, arena, P.prev[i]) {
      if i > 0 {
        assert arena[i] == nodes[i - 1];
      }
    }
  }

  method AddSentinel<I, O>(entry: Node?<I, O>, ghost nodes: seq<Node<I, O>>) returns (head: Node<I, O>)
    requires Chained(nodes) && entry == if nodes == [] then null else nodes[0]
    requires forall p :: 0 <= p < |nodes| ==> nodes[p].pos == p + 1
    modifies nodes
    ensures fresh(head) && head.pos == 0
    ensures Mirrors([head] + nodes, Straight(|nodes|))
  {
    var sentinel := new Node(Nil, null, -1, 0);
    head := InsertBefore(sentinel, entry);
    MirrorsBuilt(head, nodes);
  }

  lemma TrailStarts<I, O>(h: seq<Entry<I, O>>, ops: seq<Operation<I, O>>)
    requires Describes(h, ops)
    ensures TrailOk(h, ops, [], [Straight(|h|)])
  {
    StraightThreads(h);
    assert Elems<nat>([]) == {};
  }

  method BuildList<I, O>(h: seq<Entry<I, O>>, ghost ops: seq<Operation<I, O>>)
    returns (head: Node<I, O>, entry: Node?<I, O>, n: nat, ghost arena: seq<Node<I, O>>)
    requires Describes(h, ops)
    ensures n == |ops|
    ensures |arena| == |h| + 1 && fresh(arena) && ListOk(h, ops, arena, [], [Straight(|h|)])
    ensures head == arena[0] && PointsTo(entry, arena, Straight(|h|).next[0])
  {
    ghost var nodes;
    entry, nodes := MakeLinkedEntries(h, ops);
    var l := Length(entry, nodes);
    n := l / 2;
    SuffixPositions(h, ops, nodes);
    head := AddSentinel(entry, nodes);
    arena := [head] + nodes;
    TrailStarts(h, ops);
    ArenaBuilt(h, ops, head, nodes);
  }

  lemma SuffixPositions<I, O>(h: seq<Entry<I, O>>, ops: seq<Operation<I, O>>, nodes: seq<Node<I, O>>)
    requires Suffix(h, ops, nodes, 0)
    ensures forall p :: 0 <= p < |nodes| ==> nodes[p].pos == p + 1
  {
    forall p | 0 <= p < |nodes| ensures nodes[p].pos == p + 1 {
      assert Represents(nodes[p - 0], h[p], p + 1, ops, nodes, 0);
    }
  }

  // ------------------------------------------------------------------
  // One turn of the loop, branch by branch

  /** The scan stands at a call that may be linearized next. */
  ghost predicate AtCall<S, I, O>(m: Model<S, I, O>, h: seq<Entry<I, O>>, ops: seq<Operation<I, O>>,
                                  arena: seq<Node<I, O>>, st: Search<S>, entry: Node<I, O>)
  {
    && At(arena, entry) && EntryOk(m, h, ops, st, entry.pos)
    && 0 < entry.pos <= |h| && h[entry.pos - 1].CallEntry?
    && entry.id == h[entry.pos - 1].id < |ops| && ops[entry.id].call == entry.pos
    && entry.id !in Elems(st.path) && Enabled(ops, Elems(st.path), entry.id)
    && entry.value == Input(ops[entry.id].input)
    && entry.mate != null && entry.mate.value == Output(ops[entry.id].output)
  }

  ghost predicate AtReturn<S, I, O>(m: Model<S, I, O>, h: seq<Entry<I, O>>, ops: seq<Operation<I, O>>,
                                    arena: seq<Node<I, O>>, st: Search<S>, entry: Node<I, O>)
  {
    && At(arena, entry) && EntryOk(m, h, ops, st, entry.pos)
    && 0 < entry.pos <= |h| && h[entry.pos - 1].ReturnEntry?
    && entry.mate == null
  }

  /** While the list is not empty the scan stands at a call or at a return. */
  lemma Here<S, I, O>(m: Model<S, I, O>, h: seq<Entry<I, O>>, ops: seq<Operation<I, O>>, arena: seq<Node<I, O>>,
                      trail: seq<Links>, st: Search<S>, entry: Node?<I, O>)
    requires ListOk(h, ops, arena, st.path, trail)
    requires Under(m, h, ops, arena, trail[|st.path|], st, entry) && arena[0].next != null
    ensures entry != null && (AtCall(m, h, ops, arena, st, entry) || AtReturn(m, h, ops, arena, st, entry))
  {
    assert PointsTo(arena[0].next, arena, trail[|st.path|].next[0]);
    HereNode(m, h, ops, arena, st, entry);
  }

  lemma HereNode<S, I, O>(m: Model<S, I, O>, h: seq<Entry<I, O>>, ops: seq<Operation<I, O>>, arena: seq<Node<I, O>>,
                          st: Search<S>, entry: Node<I, O>)
    requires ArenaOk(h, ops, arena) && At(arena, entry) && EntryOk(m, h, ops, st, entry.pos)
    ensures AtCall(m, h, ops, arena, st, entry) || AtReturn(m, h, ops, arena, st, entry)
  {
    hide Inv, Enabled;
    ScanHere(h, ops, Elems(st.path), entry.pos);
    var p := entry.pos;
    assert IsLive(h, Elems(st.path), p);
    assert NodeOk(h, ops, arena, p);
    if h[p - 1].CallEntry? {
      assert NodeOk(h, ops, arena, ops[h[p - 1].id].ret);
    }
  }

  lemma SkipUnder<S(!new), I, O>(m: Model<S, I, O>, h: seq<Entry<I, O>>, ops: seq<Operation<I, O>>,
                                 arena: seq<Node<I, O>>, trail: seq<Links>, st: Search<S>, entry: Node<I, O>)
    requires ListOk(h, ops, arena, st.path, trail)
    requires Under(m, h, ops, arena, trail[|st.path|], st, entry)
    requires 0 < entry.pos <= |h| && h[entry.pos - 1].CallEntry?
    requires var x := h[entry.pos - 1].id;
             x < |ops| && Tried(m, ops, st.cache, Config(Elems(st.path), st.states[|st.path|]), x)
    ensures entry.next != null && entry.pos < entry.next.pos < |arena|
    ensures Under(m, h, ops, arena, trail[|st.path|], st, entry.next)
  {
    hide EntryOk, Tried, NextOk, PrevOk, LiftedOne, NodeOk;
    SkipEntry(m, h, ops, st, trail[|st.path|], entry.pos);
    assert arena[entry.pos] == entry;
  }

  lemma PushUnder<S(!new), I, O>(m: Model<S, I, O>, h: seq<Entry<I, O>>, ops: seq<Operation<I, O>>,
                                 arena: seq<Node<I, O>>, trail': seq<Links>, st: Search<S>, at: nat)
    requires EntryOk(m, h, ops, st, at) && at <= |h| && h[at - 1].CallEntry?
    requires h[at - 1].id < |ops| && Accepts(m, ops, st.states[|st.path|], h[at - 1].id)
    requires ListOk(h, ops, arena, st.path + [h[at - 1].id], trail')
    ensures PathOk(m, ops, Pushed(m, ops, st, h[at - 1].id))
    ensures Under(m, h, ops, arena, trail'[|st.path| + 1], Pushed(m, ops, st, h[at - 1].id), arena[0].next)
  {
    PushEntry(m, h, ops, st, trail'[|st.path| + 1], at);
  }

  lemma PushSets<S(!new), I, O>(m: Model<S, I, O>, ops: seq<Operation<I, O>>, st: Search<S>, x: nat,
                                linearized: Bitset, cache: Cache<S>)
    requires SetsOk(|ops|, st, linearized, cache) && x < |ops| && |st.states| == |st.path| + 1
    ensures x < 64 * |linearized|
    ensures var lin' := Set(linearized, x);
            var c := Succ(m, ops, Config(Elems(st.path), st.states[|st.path|]), x);
            && Holds(cache, |lin'|, st.cache) && ConfigOf(CacheEntry(lin', c.state)) == c
            && SetsOk(|ops|, Pushed(m, ops, st, x), lin', CacheAdd(cache, CacheEntry(lin', c.state)))
  {
    var lin' := Set(linearized, x);
    var c := Succ(m, ops, Config(Elems(st.path), st.states[|st.path|]), x);
    CacheAddHolds(cache, CacheEntry(lin', c.state), st.cache);
    ElemsSnoc(st.path, x);
  }

  lemma PushStack<S, I, O>(m: Model<S, I, O>, ops: seq<Operation<I, O>>, arena: seq<Node<I, O>>, st: Search<S>, x: nat,
                           calls: seq<CallsEntry<S, I, O>>, entry: Node<I, O>)
    requires StackOk(ops, arena, st, calls) && x < |ops|
    requires At(arena, entry) && entry.pos == ops[x].call && entry.id == x
    ensures StackOk(ops, arena, Pushed(m, ops, st, x), calls + [CallsEntry(entry, st.states[|st.path|])])
  {
  }

  lemma PopUnder<S(!new), I, O>(m: Model<S, I, O>, h: seq<Entry<I, O>>, ops: seq<Operation<I, O>>,
                                arena: seq<Node<I, O>>, trail: seq<Links>, st: Search<S>, at: nat, entry: Node<I, O>)
    requires EntryOk(m, h, ops, st, at) && at <= |h| && h[at - 1].ReturnEntry? && st.path != []
    requires forall s :: m.equal(s, s)
    requires ListOk(h, ops, arena, st.path[..|st.path| - 1], trail)
    requires 0 <= ops[st.path[|st.path| - 1]].call < |arena| && entry == arena[ops[st.path[|st.path| - 1]].call]
    ensures PathOk(m, ops, Popped(st))
    ensures entry.next != null && Under(m, h, ops, arena, trail[|st.path| - 1], Popped(st), entry.next)
  {
    var k := |st.path| - 1;
    PopEntry(m, h, ops, st, trail[k], at);
    assert NextOk(trail[k], Live(h, Elems(st.path[..k])), 0);
  }

  lemma PopSets<S(!new), I, O>(m: Model<S, I, O>, ops: seq<Operation<I, O>>, st: Search<S>,
                               linearized: Bitset, cache: Cache<S>)
    requires SetsOk(|ops|, st, linearized, cache) && PathOk(m, ops, st) && st.path != []
    ensures st.path[|st.path| - 1] < |ops| && st.path[|st.path| - 1] < 64 * |linearized|
    ensures SetsOk(|ops|, Popped(st), Clear(linearized, st.path[|st.path| - 1]), cache)
  {
    var k := |st.path| - 1;
    assert st.path == st.path[..k] + [st.path[k]];
    ElemsSnoc(st.path[..k], st.path[k]);
    assert Enabled(ops, Elems(st.path[..k]), st.path[k]);
  }

  lemma PopStack<S, I, O>(ops: seq<Operation<I, O>>, arena: seq<Node<I, O>>, st: Search<S>,
                          calls: seq<CallsEntry<S, I, O>>)
    requires StackOk(ops, arena, st, calls) && calls != []
    ensures StackOk(ops, arena, Popped(st), calls[..|calls| - 1])
    ensures var k := |calls| - 1;
            && st.path[k] < |ops| && 0 <= ops[st.path[k]].call < |arena|
            && calls[k].entry == arena[ops[st.path[k]].call]
            && calls[k].entry.id == st.path[k]
            && calls[k].state == st.states[k]
  {
  }

  method Record<S, I, O>(calls: seq<CallsEntry<S, I, O>>, longest: Longest, ghost m: Model<S, I, O>,
                         ghost ops: seq<Operation<I, O>>, ghost arena: seq<Node<I, O>>, ghost st: Search<S>)
    returns (longest': Longest)
    requires PathOk(m, ops, st) && StackOk(ops, arena, st, calls) && calls != []
    requires |longest| == |ops| && Sound(m, ops, longest) && Recorded(st, longest)
    ensures |longest'| == |longest| && Sound(m, ops, longest')
    ensures Recorded(Popped(st), longest')
  {
    longest' := RecordLongest(calls, longest, st.path);
    RecordOk(m, ops, st, longest, longest');
    RecordEnough(m, ops, st, longest, longest');
    PopRecorded(m, ops, st, longest');
  }

  /** A return under the scan of an empty stack: every order has been ruled out. */
  lemma Exhausted<S(!new), I(!new), O(!new)>(m: Model<S, I, O>, h: seq<Entry<I, O>>, ops: seq<Operation<I, O>>,
                                             st: Search<S>, at: nat, longest: Longest)
    requires Congruent(m) && Describes(h, ops)
    requires EntryOk(m, h, ops, st, at) && at <= |h| && h[at - 1].ReturnEntry? && st.path == []
    ensures !Linearizable(m, ops)
    ensures Recorded(st, longest) ==> Maximal(m, ops, longest)
  {
    ScanHere(h, ops, Elems(st.path), at);
    assert Elems(st.path) == {};
    ExhaustedRefutes(m, ops, st, at);
    if Recorded(st, longest) {
      ExhaustedMaximal(m, ops, st, at, longest);
    }
  }

  /** An empty list: the stack is a linearization. */
  lemma Finished<S, I, O>(m: Model<S, I, O>, h: seq<Entry<I, O>>, ops: seq<Operation<I, O>>, arena: seq<Node<I, O>>,
                          trail: seq<Links>, st: Search<S>)
    requires ListOk(h, ops, arena, st.path, trail) && PathOk(m, ops, st) && arena[0].next == null
    ensures IsLinearization(m, ops, st.path) && Linearizable(m, ops)
  {
    assert PointsTo(arena[0].next, arena, trail[|st.path|].next[0]);
    ScanFirst(h, ops, Elems(st.path), trail[|st.path|]);
    AllDone(m, ops, st);
    CompleteProves(m, ops, st);
  }

  lemma Starts<S(!new), I, O>(m: Model<S, I, O>, h: seq<Entry<I, O>>, ops: seq<Operation<I, O>>,
                              arena: seq<Node<I, O>>, entry: Node?<I, O>)
    requires ListOk(h, ops, arena, [], [Straight(|h|)]) && PointsTo(entry, arena, Straight(|h|).next[0])
    ensures var st: Search<S> := Search([], [m.init], {});
            && PathOk(m, ops, st) && StackOk<S, I, O>(ops, arena, st, []) && Elems(st.path) == {}
            && Under(m, h, ops, arena, Straight(|h|), st, entry)
            && SetsOk(|ops|, st, NewBitset(|ops|), map[])
  {
    assert Elems<nat>([]) == {};
    ScanFirst(h, ops, {}, Straight(|h|));
    if entry != null {
      Initially(m, ops, Straight(|h|).next[0]);
    }
  }

  lemma NothingRecorded<S, I, O>(m: Model<S, I, O>, ops: seq<Operation<I, O>>, longest: Longest)
    requires forall id :: 0 <= id < |longest| ==> longest[id] == None
    ensures Sound(m, ops, longest)
    ensures Recorded(Search<S>.Search([], [m.init], {}), longest)
  {
  }

  lemma CompleteSound<S, I, O>(m: Model<S, I, O>, ops: seq<Operation<I, O>>, order: seq<nat>, longest: Longest)
    requires Proper(ops) && IsLinearization(m, ops, order) && |longest| == |ops|
    requires forall id :: 0 <= id < |longest| ==> longest[id] == Some(order)
    ensures Sound(m, ops, longest)
  {
    FullPartialIsLinearization(m, ops, order);
    PermutationIsOnto(order, |ops|);
    forall id | 0 <= id < |longest| ensures id in order && IsPartial(m, ops, order) {
      assert id in Elems(order);
    }
  }

  /** Everything the search loop keeps, but for the entry under the scan. */
  ghost predicate LoopOk<S(!new), I, O>(
    m: Model<S, I, O>, h: seq<Entry<I, O>>, ops: seq<Operation<I, O>>, arena: seq<Node<I, O>>, trail: seq<Links>,
    st: Search<S>, state: S, linearized: Bitset, cache: Cache<S>, calls: seq<CallsEntry<S, I, O>>)
    reads arena
  {
    && |trail| == |st.path| + 1 == |st.states| && |calls| == |st.path|
    && ListOk(h, ops, arena, st.path, trail)
    && PathOk(m, ops, st)
    && StackOk(ops, arena, st, calls) && state == st.states[|st.path|]
    && SetsOk(|ops|, st, linearized, cache)
  }

  /** The accepted, not yet tried call under the scan is linearized next. */
  method Enter<S(!new), I, O>(
    m: Model<S, I, O>, headEntry: Node<I, O>, entry: Node<I, O>, state: S, newState: S,
    linearized: Bitset, cache: Cache<S>, calls: seq<CallsEntry<S, I, O>>, ghost h: seq<Entry<I, O>>,
    ghost ops: seq<Operation<I, O>>, ghost arena: seq<Node<I, O>>, ghost trail: seq<Links>, ghost st: Search<S>)
    returns (entry': Node?<I, O>, linearized': Bitset, cache': Cache<S>, calls': seq<CallsEntry<S, I, O>>,
             ghost trail': seq<Links>, ghost st': Search<S>)
    requires LoopOk(m, h, ops, arena, trail, st, state, linearized, cache, calls)
    requires |arena| > 0 && headEntry == arena[0] && AtCall(m, h, ops, arena, st, entry)
    requires m.step(state, ops[entry.id].input, ops[entry.id].output) == (true, newState)
    modifies arena
    ensures st' == Pushed(m, ops, st, entry.id)
    ensures LoopOk(m, h, ops, arena, trail', st', newState, linearized', cache', calls')
    ensures Under(m, h, ops, arena, trail'[|st'.path|], st', entry')
  {
    hide ListOk, PathOk, StackOk, SetsOk, EntryOk, Holds, Elems, Enabled, Members, Under;
    PushSets(m, ops, st, entry.id, linearized, cache);
    PushStack(m, ops, arena, st, entry.id, calls, entry);
    linearized' := Set(linearized, entry.id);
    cache' := CacheAdd(cache, CacheEntry(linearized', newState));
    calls' := calls + [CallsEntry(entry, state)];
    trail' := Descend(entry, h, ops, arena, st.path, trail);
    PushUnder(m, h, ops, arena, trail', st, entry.pos);
    st' := Pushed(m, ops, st, entry.id);
    entry' := headEntry.next;
  }

  /** The call under the scan is linearized if the model accepts it and the outcome is new; otherwise the scan
      passes it. */
  method TryCall<S(==, !new), I, O>(
    m: Model<S, I, O>, headEntry: Node<I, O>, entry: Node<I, O>, state: S,
    linearized: Bitset, cache: Cache<S>, calls: seq<CallsEntry<S, I, O>>, ghost h: seq<Entry<I, O>>,
    ghost ops: seq<Operation<I, O>>, ghost arena: seq<Node<I, O>>, ghost trail: seq<Links>, ghost st: Search<S>,
    ghost longest: Longest)
    returns (entry': Node?<I, O>, state': S, linearized': Bitset, cache': Cache<S>, calls': seq<CallsEntry<S, I, O>>,
             ghost trail': seq<Links>, ghost st': Search<S>)
    requires forall s :: m.equal(s, s)
    requires LoopOk(m, h, ops, arena, trail, st, state, linearized, cache, calls)
    requires |arena| > 0 && headEntry == arena[0]
    requires AtCall(m, h, ops, arena, st, entry) && Under(m, h, ops, arena, trail[|st.path|], st, entry)
    modifies arena
    ensures LoopOk(m, h, ops, arena, trail', st', state', linearized', cache', calls')
    ensures Under(m, h, ops, arena, trail'[|st'.path|], st', entry')
    ensures Recorded(st, longest) ==> Recorded(st', longest)
    ensures || Untried(m, ops, st'.cache) < Untried(m, ops, st.cache)
            || (st' == st && entry' != null && entry.pos < entry'.pos < |arena|)
  {
    hide ListOk, PathOk, StackOk, SetsOk, EntryOk, Holds, Elems, Enabled, Members, Under, Recorded, Cached, Untried;
    var matching := entry.mate;
    var (accepted, newState) := m.step(state, entry.value.input, matching.value.output);
    if accepted {
      PushSets(m, ops, st, entry.id, linearized, cache);
      var newCacheEntry := CacheEntry(Set(linearized, entry.id), newState);
      var seen := CacheContains(m, cache, newCacheEntry, st.cache);
      if !seen {
        PushProgress(m, ops, st, entry.id);
        if Recorded(st, longest) {
          PushRecorded(m, ops, st, entry.id, longest);
        }
        state' := newState;
        entry', linearized', cache', calls', trail', st' :=
          Enter(m, headEntry, entry, state, newState, linearized, cache, calls, h, ops, arena, trail, st);
        return;
      }
    }
    SkipUnder(m, h, ops, arena, trail, st, entry);
    entry', state', linearized', cache', calls', trail', st' := entry.next, state, linearized, cache, calls, trail, st;
  }

  /** A return is under the scan: the last call is taken back and the scan goes on behind it. */
  method Leave<S(!new), I, O>(
    m: Model<S, I, O>, entry: Node<I, O>, state: S,
    linearized: Bitset, cache: Cache<S>, calls: seq<CallsEntry<S, I, O>>, ghost h: seq<Entry<I, O>>,
    ghost ops: seq<Operation<I, O>>, ghost arena: seq<Node<I, O>>, ghost trail: seq<Links>, ghost st: Search<S>)
    returns (entry': Node?<I, O>, state': S, linearized': Bitset, calls': seq<CallsEntry<S, I, O>>,
             ghost trail': seq<Links>, ghost st': Search<S>)
    requires forall s :: m.equal(s, s)
    requires LoopOk(m, h, ops, arena, trail, st, state, linearized, cache, calls)
    requires AtReturn(m, h, ops, arena, st, entry) && calls != []
    modifies arena
    ensures st' == Popped(st)
    ensures LoopOk(m, h, ops, arena, trail', st', state', linearized', cache, calls')
    ensures Under(m, h, ops, arena, trail'[|st'.path|], st', entry')
  {
    hide ListOk, PathOk, StackOk, SetsOk, EntryOk, Holds, Elems, Members, Under;
    PopSets(m, ops, st, linearized, cache);
    PopStack(ops, arena, st, calls);
    var callsTop := calls[|calls| - 1];
    var top := callsTop.entry;
    state' := callsTop.state;
    linearized' := Clear(linearized, top.id);
    calls' := calls[..|calls| - 1];
    Ascend(top, h, ops, arena, st.path, trail);
    trail' := trail[..|st.path|];
    PopUnder(m, h, ops, arena, trail', st, entry.pos, top);
    st' := Popped(st);
    entry' := top.next;
  }

  // ------------------------------------------------------------------

  /** Decides linearizability. When asked to, also finds for every operation a
      longest partial linearization that contains it. */
  method CheckSingle<S(==, !new), I(!new), O(!new)>(m: Model<S, I, O>, history: seq<Entry<I, O>>, computePartial: bool)
    returns (ok: bool, longest: Longest)
    requires Congruent(m) && WellFormed(history)
    ensures ok <==> Linearizable(m, Operations(history))
    ensures |longest| == |history| / 2
    ensures Sound(m, Operations(history), longest)
    ensures ok ==> forall id :: 0 <= id < |longest| ==>
              longest[id].Some? && IsLinearization(m, Operations(history), longest[id].value)
    ensures !ok && computePartial ==> Maximal(m, Operations(history), longest)
  {
    hide ListOk, PathOk, StackOk, SetsOk, EntryOk, Holds, Elems, Enabled, Members, Under, Sound, Recorded, Maximal,
         Linearizable, IsLinearization, Untried;
    ghost var ops := Operations(history);
    ghost var arena;
    var headEntry, entry, n;
    headEntry, entry, n, arena := BuildList(history, ops);
    var linearized := NewBitset(n);
    var cache: Cache<S> := map[];
    var calls: seq<CallsEntry<S, I, O>> := [];
    longest := seq(n, _ => None);
    var state := m.init;
    ghost var st: Search<S> := Search([], [m.init], {});
    ghost var trail := [Straight(|history|)];
    Starts(m, history, ops, arena, entry);
    NothingRecorded(m, ops, longest);
    while headEntry.next != null
      invariant fresh(arena) && |arena| > 0 && headEntry == arena[0]
      invariant LoopOk(m, history, ops, arena, trail, st, state, linearized, cache, calls)
      invariant Under(m, history, ops, arena, trail[|st.path|], st, entry)
      invariant |longest| == n && Sound(m, ops, longest)
      invariant computePartial ==> Recorded(st, longest)
      decreases Untried(m, ops, st.cache), |st.path|, if entry == null then 0 else |arena| - entry.pos
    {
      Here(m, history, ops, arena, trail, st, entry);
      if entry.mate != null {
        entry, state, linearized, cache, calls, trail, st :=
          TryCall(m, headEntry, entry, state, linearized, cache, calls, history, ops, arena, trail, st, longest);
      } else {
        if |calls| == 0 {
          Exhausted(m, history, ops, st, entry.pos, longest);
          return false, longest;
        }
        if computePartial {
          longest := Record(calls, longest, m, ops, arena, st);
        }
        entry, state, linearized, calls, trail, st :=
          Leave(m, entry, state, linearized, cache, calls, history, ops, arena, trail, st);
      }
    }
    longest := Conclude(calls, m, history, ops, arena, trail, st);
    return true, longest;
  }

  /** An empty list: the stack is a linearization of everything. */
  method Conclude<S, I, O>(calls: seq<CallsEntry<S, I, O>>, ghost m: Model<S, I, O>, ghost h: seq<Entry<I, O>>,
                           ghost ops: seq<Operation<I, O>>, ghost arena: seq<Node<I, O>>, ghost trail: seq<Links>,
                           ghost st: Search<S>)
    returns (longest: Longest)
    requires ListOk(h, ops, arena, st.path, trail) && PathOk(m, ops, st) && arena[0].next == null
    requires StackOk(ops, arena, st, calls)
    ensures |longest| == |ops| && Linearizable(m, ops) && Sound(m, ops, longest)
    ensures forall id :: 0 <= id < |longest| ==> longest[id].Some? && IsLinearization(m, ops, longest[id].value)
  {
    Finished(m, h, ops, arena, trail, st);
    var ids := CallIds(calls, st.path);
    longest := seq(|calls|, _ => Some(ids));
    CompleteSound(m, ops, ids, longest);
  }
}
