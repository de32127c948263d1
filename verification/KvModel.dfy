/** The key/value specification used by the tests, and why checking it key by key is enough. */
module KvModel {
  import opened Basics
  import opened Linearizability
  import opened Entries
  import opened TimedHistories
  import opened Backtracking
  import opened Checker

  /** Operation codes: 0 is get, 1 is put, anything else append. */
  datatype KvInput = KvInput(op: nat, key: string, value: string)
  datatype KvOutput = KvOutput(value: string)

  type KvOperation = Operation<KvInput, KvOutput>

  function KvStep(st: string, inp: KvInput, out: KvOutput): (bool, string) {
    if inp.op == 0 then (out.value == st, st)
    else if inp.op == 1 then (true, inp.value)
    else (true, st + inp.value)
  }

  /** The value of a single key. */
  const SINGLE_KEY: Model<string, KvInput, KvOutput> := Model("", KvStep, (s, t) => s == t)

  type Store = map<string, string>

  function Lookup(store: Store, key: string): string {
    if key in store then store[key] else ""
  }

  /** The reference: one map holding all keys. */
  function StoreStep(store: Store, inp: KvInput, out: KvOutput): (bool, Store) {
    if inp.op == 0 then (out.value == Lookup(store, inp.key), store)
    else if inp.op == 1 then (true, store[inp.key := inp.value])
    else (true, store[inp.key := Lookup(store, inp.key) + inp.value])
  }

  const WHOLE_STORE: Model<Store, KvInput, KvOutput> := Model(map[], StoreStep, (s, t) => s == t)

  lemma StepIsLocal(store: Store, inp: KvInput, out: KvOutput, key: string)
    ensures StoreStep(store, inp, out).0 == KvStep(Lookup(store, inp.key), inp, out).0
    ensures Lookup(StoreStep(store, inp, out).1, key)
         == if key == inp.key then KvStep(Lookup(store, inp.key), inp, out).1 else Lookup(store, key)
  {
  }

  // ------------------------------------------------------------------
  // Sub-histories

  /** The operations on `key`, in the order of the history: their positions... */
  ghost function Indices(ops: seq<KvOperation>, key: string): (idx: seq<nat>)
    ensures forall i :: 0 <= i < |idx| ==> idx[i] < |ops| && ops[idx[i]].input.key == key
    ensures forall i, j :: 0 <= i < j < |idx| ==> idx[i] < idx[j]
    ensures forall x: nat :: x < |ops| && ops[x].input.key == key ==> x in idx
  {
    if ops == [] then []
    else
      var k := |ops| - 1;
      var idx := Indices(ops[..k], key);
      if ops[k].input.key == key then idx + [k] else idx
  }

  /** ... and the sub-history itself, as `Partition` builds it. */
  function SubHistory(ops: seq<KvOperation>, key: string): seq<KvOperation> {
    if ops == [] then []
    else
      var k := |ops| - 1;
      SubHistory(ops[..k], key) + (if ops[k].input.key == key then [ops[k]] else [])
  }

  lemma {:induction false} SubHistoryAt(ops: seq<KvOperation>, key: string)
    ensures |SubHistory(ops, key)| == |Indices(ops, key)|
    ensures forall i :: 0 <= i < |SubHistory(ops, key)| ==> SubHistory(ops, key)[i] == ops[Indices(ops, key)[i]]
  {
    if ops != [] {
      SubHistoryAt(ops[..|ops| - 1], key);
    }
  }

  /** The part of an order that concerns one key. */
  ghost function Restrict(ops: seq<KvOperation>, order: seq<nat>, key: string): (r: seq<nat>)
    requires forall i :: 0 <= i < |order| ==> order[i] < |ops|
    ensures forall i :: 0 <= i < |r| ==> r[i] < |ops|
  {
    if order == [] then []
    else
      var k := |order| - 1;
      var r := Restrict(ops, order[..k], key);
      if ops[order[k]].input.key == key then r + [order[k]] else r
  }

  lemma RestrictSnoc(ops: seq<KvOperation>, order: seq<nat>, x: nat, key: string)
    requires x < |ops| && forall i :: 0 <= i < |order| ==> order[i] < |ops|
    ensures var r := Restrict(ops, order, key);
            Restrict(ops, order + [x], key) == if ops[x].input.key == key then r + [x] else r
  {
    assert (order + [x])[..|order|] == order;
  }

  lemma ReplaySnoc<S, I, O>(m: Model<S, I, O>, ops: seq<Operation<I, O>>, order: seq<nat>, x: nat)
    requires x < |ops| && forall i :: 0 <= i < |order| ==> order[i] < |ops|
    ensures Replay(m, ops, order + [x])
         == match Replay(m, ops, order)
            case None => None
            case Some(s) =>
              var r := m.step(s, ops[x].input, ops[x].output);
              if r.0 then Some(r.1) else None
  {
    assert (order + [x])[..|order|] == order;
  }

  ghost function KeyIds(ops: seq<KvOperation>, key: string): set<nat> {
    set x | x in Below(|ops|) && ops[x].input.key == key
  }

  lemma {:induction false} RestrictElems(ops: seq<KvOperation>, order: seq<nat>, key: string)
    requires forall i :: 0 <= i < |order| ==> order[i] < |ops|
    ensures Elems(Restrict(ops, order, key)) == Elems(order) * KeyIds(ops, key)
  {
    assert Elems<nat>([]) == {};
    hide Elems;
    if order != [] {
      var k := |order| - 1;
      RestrictElems(ops, order[..k], key);
      assert order == order[..k] + [order[k]];
      ElemsSnoc(order[..k], order[k]);
      ElemsSnoc(Restrict(ops, order[..k], key), order[k]);
    }
  }

  /** Running an order on the whole store runs each key's part on that key alone. */
  lemma {:induction false} ReplayRestrict(ops: seq<KvOperation>, order: seq<nat>, key: string)
    requires forall i :: 0 <= i < |order| ==> order[i] < |ops|
    requires Replay(WHOLE_STORE, ops, order).Some?
    ensures Replay(SINGLE_KEY, ops, Restrict(ops, order, key))
         == Some(Lookup(Replay(WHOLE_STORE, ops, order).value, key))
  {
    if order != [] {
      var k := |order| - 1;
      var x := order[k];
      assert order == order[..k] + [x];
      ReplaySnoc(WHOLE_STORE, ops, order[..k], x);
      ReplayRestrict(ops, order[..k], key);
      StepIsLocal(Replay(WHOLE_STORE, ops, order[..k]).value, ops[x].input, ops[x].output, key);
      if ops[x].input.key == key {
        ReplaySnoc(SINGLE_KEY, ops, Restrict(ops, order[..k], key), x);
      }
    }
  }

  /** A linearization of the operations on one key, in terms of their positions in the whole history. */
  ghost predicate KeyOrder(ops: seq<KvOperation>, key: string, order: seq<nat>) {
    && (forall i :: 0 <= i < |order| ==> order[i] < |ops|)
    && Distinct(order)
    && Elems(order) == KeyIds(ops, key)
    && RespectsRealTime(ops, order)
    && Replay(SINGLE_KEY, ops, order).Some?
  }

  // ------------------------------------------------------------------
  // From the whole store to each key

  ghost predicate Ordered(ops: seq<KvOperation>, order: seq<nat>) {
    (forall i :: 0 <= i < |order| ==> order[i] < |ops|) && Distinct(order) && RespectsRealTime(ops, order)
  }

  lemma RestrictStep(ops: seq<KvOperation>, order: seq<nat>, key: string)
    requires Ordered(ops, order) && order != [] && Ordered(ops, Restrict(ops, order[..|order| - 1], key))
    ensures Ordered(ops, Restrict(ops, order, key))
  {
    hide Restrict, Distinct, RespectsRealTime;
    var k := |order| - 1;
    var x, r := order[k], Restrict(ops, order[..k], key);
    forall i | 0 <= i < |r| ensures r[i] != x && !(ops[x].ret < ops[r[i]].call) {
      RestrictBefore(ops, order, key, i);
    }
    OrderedSnoc(ops, r, x);
    RestrictSnoc(ops, order[..k], x, key);
    assert order[..k] + [x] == order;
  }

  lemma {:induction false} RestrictOrdered(ops: seq<KvOperation>, order: seq<nat>, key: string)
    requires Ordered(ops, order)
    ensures Ordered(ops, Restrict(ops, order, key))
    decreases |order|
  {
    if order != [] {
      OrderedPrefix(ops, order, |order| - 1);
      hide Restrict, Ordered;
      assert forall i :: 0 <= i < |order| ==> order[i] < |ops| by {
        OrderedInRange(ops, order);
      }
      RestrictOrdered(ops, order[..|order| - 1], key);
      RestrictStep(ops, order, key);
    }
  }

  lemma OrderedInRange(ops: seq<KvOperation>, order: seq<nat>)
    requires Ordered(ops, order)
    ensures forall i :: 0 <= i < |order| ==> order[i] < |ops|
  {
  }

  lemma RestrictBefore(ops: seq<KvOperation>, order: seq<nat>, key: string, i: nat)
    requires (forall j :: 0 <= j < |order| ==> order[j] < |ops|) && Distinct(order) && RespectsRealTime(ops, order)
    requires order != [] && i < |Restrict(ops, order[..|order| - 1], key)|
    ensures var x, r := order[|order| - 1], Restrict(ops, order[..|order| - 1], key);
            r[i] != x && !(ops[x].ret < ops[r[i]].call)
  {
    hide Restrict, Distinct, RespectsRealTime;
    var k := |order| - 1;
    var r := Restrict(ops, order[..k], key);
    RestrictElems(ops, order[..k], key);
    assert r[i] in Elems(r);
    var j :| 0 <= j < k && order[..k][j] == r[i];
    BeforeLast(ops, order, j);
  }

  lemma OrderedPrefix(ops: seq<KvOperation>, order: seq<nat>, k: nat)
    requires Ordered(ops, order) && k <= |order|
    ensures Ordered(ops, order[..k])
  {
  }

  lemma BeforeLast(ops: seq<KvOperation>, order: seq<nat>, j: nat)
    requires (forall i :: 0 <= i < |order| ==> order[i] < |ops|) && Distinct(order) && RespectsRealTime(ops, order)
    requires j < |order| - 1
    ensures order[j] != order[|order| - 1] && !(ops[order[|order| - 1]].ret < ops[order[j]].call)
  {
  }

  lemma OrderedSnoc(ops: seq<KvOperation>, r: seq<nat>, x: nat)
    requires (forall i :: 0 <= i < |r| ==> r[i] < |ops|) && x < |ops| && Distinct(r) && RespectsRealTime(ops, r)
    requires forall i :: 0 <= i < |r| ==> r[i] != x && !(ops[x].ret < ops[r[i]].call)
    ensures Distinct(r + [x]) && RespectsRealTime(ops, r + [x])
  {
  }

  lemma WholeGivesKey(ops: seq<KvOperation>, order: seq<nat>, key: string)
    requires IsLinearization(WHOLE_STORE, ops, order)
    ensures KeyOrder(ops, key, Restrict(ops, order, key))
  {
    RestrictOrdered(ops, order, key);
    RestrictElems(ops, order, key);
    PermutationIsOnto(order, |ops|);
    ReplayRestrict(ops, order, key);
  }

  // ------------------------------------------------------------------
  // From every key to the whole store: merging

  type Orders = map<string, seq<nat>>

  /** `p` runs on the whole store and has taken, of each key's order, a prefix. */
  ghost predicate Merging(ops: seq<KvOperation>, orders: Orders, p: seq<nat>) {
    && (forall x :: 0 <= x < |ops| ==> ops[x].input.key in orders)
    && (forall key :: key in orders ==> KeyOrder(ops, key, orders[key]))
    && IsPartial(WHOLE_STORE, ops, p)
    && (forall key :: key in orders ==> Restrict(ops, p, key) <= orders[key])
  }

  lemma PartialInRange<S, I, O>(m: Model<S, I, O>, ops: seq<Operation<I, O>>, p: seq<nat>)
    requires IsPartial(m, ops, p)
    ensures forall i :: 0 <= i < |p| ==> p[i] < |ops|
  {
  }

  /** Of the operations outstanding, one returns first. */
  lemma {:induction false} FirstToReturn<I, O>(ops: seq<Operation<I, O>>, left: set<nat>) returns (r: nat)
    requires left != {} && forall x :: x in left ==> x < |ops|
    ensures r in left && forall y :: y in left ==> ops[r].ret <= ops[y].ret
    decreases |left|
  {
    r :| r in left;
    var rest := left - {r};
    assert left == rest + {r};
    if rest != {} {
      var r' := FirstToReturn(ops, rest);
      if ops[r'].ret < ops[r].ret {
        r := r';
      }
    }
  }

  /** The next operation of the key whose outstanding operations include the first to return. */
  ghost function NextOf(ops: seq<KvOperation>, orders: Orders, p: seq<nat>, key: string): nat
    requires (forall i :: 0 <= i < |p| ==> p[i] < |ops|) && key in orders
    requires |Restrict(ops, p, key)| < |orders[key]|
  {
    orders[key][|Restrict(ops, p, key)|]
  }

  lemma SomethingLeft(n: nat, done: set<nat>)
    requires |done| < n
    ensures Below(n) - done != {}
  {
    if Below(n) <= done {
      SubsetBound(Below(n), done);
    }
  }

  /** An outstanding operation has not been passed in its key's order. */
  lemma NotPassed(ops: seq<KvOperation>, orders: Orders, p: seq<nat>, key: string, r: nat) returns (i: nat)
    requires Merging(ops, orders, p) && key in orders
    requires forall i :: 0 <= i < |p| ==> p[i] < |ops|
    requires r < |ops| && r !in Elems(p) && ops[r].input.key == key
    ensures |Restrict(ops, p, key)| <= i < |orders[key]| && orders[key][i] == r
  {
    var taken, order := Restrict(ops, p, key), orders[key];
    RestrictElems(ops, p, key);
    assert KeyOrder(ops, key, order) && taken <= order;
    assert r in KeyIds(ops, key) && r in Elems(order) && r !in Elems(taken);
    hide KeyOrder, Merging, Restrict, KeyIds;
    i :| 0 <= i < |order| && order[i] == r;
    assert forall j :: 0 <= j < |taken| ==> order[j] == taken[j] && taken[j] in Elems(taken);
  }

  /** What comes next in a key's order is outstanding. */
  lemma NextOutstanding(ops: seq<KvOperation>, p: seq<nat>, key: string, order: seq<nat>)
    requires forall i :: 0 <= i < |p| ==> p[i] < |ops|
    requires KeyOrder(ops, key, order) && Restrict(ops, p, key) <= order
    requires |Restrict(ops, p, key)| < |order|
    ensures var h := order[|Restrict(ops, p, key)|];
            h < |ops| && h !in Elems(p) && ops[h].input.key == key
  {
    var taken := Restrict(ops, p, key);
    var h := order[|taken|];
    RestrictElems(ops, p, key);
    assert h in Elems(order);
    assert forall j :: 0 <= j < |taken| ==> taken[j] == order[j] && order[j] != h;
    assert h !in Elems(taken);
  }

  lemma NextIsFresh(ops: seq<KvOperation>, orders: Orders, p: seq<nat>, key: string, r: nat)
    requires Merging(ops, orders, p) && key in orders
    requires r < |ops| && r !in Elems(p) && ops[r].input.key == key
    ensures (forall i :: 0 <= i < |p| ==> p[i] < |ops|) && |Restrict(ops, p, key)| < |orders[key]|
    ensures var h := NextOf(ops, orders, p, key);
            h < |ops| && h !in Elems(p) && ops[h].input.key == key
            && (h == r || !(ops[r].ret < ops[h].call))
  {
    PartialInRange(WHOLE_STORE, ops, p);
    var i := NotPassed(ops, orders, p, key, r);
    assert KeyOrder(ops, key, orders[key]) && Restrict(ops, p, key) <= orders[key];
    OrderedInTime(ops, orders[key], |Restrict(ops, p, key)|, i);
    hide Merging, Restrict, Elems, KeyOrder;
    NextOutstanding(ops, p, key, orders[key]);
  }

  lemma OrderedInTime<I, O>(ops: seq<Operation<I, O>>, order: seq<nat>, a: nat, b: nat)
    requires (forall i :: 0 <= i < |order| ==> order[i] < |ops|) && RespectsRealTime(ops, order)
    requires a <= b < |order|
    ensures order[a] == order[b] || !(ops[order[b]].ret < ops[order[a]].call)
  {
  }

  lemma KeyAccepts(ops: seq<KvOperation>, order: seq<nat>, n: nat)
    requires (forall i :: 0 <= i < |order| ==> order[i] < |ops|) && Replay(SINGLE_KEY, ops, order).Some? && n < |order|
    ensures Replay(SINGLE_KEY, ops, order[..n]).Some?
    ensures KvStep(Replay(SINGLE_KEY, ops, order[..n]).value, ops[order[n]].input, ops[order[n]].output).0
  {
    ReplayPrefix(SINGLE_KEY, ops, order, n + 1);
    assert order[..n + 1] == order[..n] + [order[n]];
    ReplaySnoc(SINGLE_KEY, ops, order[..n], order[n]);
  }

  lemma NextIsAccepted(ops: seq<KvOperation>, orders: Orders, p: seq<nat>, key: string)
    requires key in orders && (forall i :: 0 <= i < |p| ==> p[i] < |ops|) && |Restrict(ops, p, key)| < |orders[key]|
    requires var h := NextOf(ops, orders, p, key); h < |ops| && ops[h].input.key == key
    requires Merging(ops, orders, p)
    ensures Replay(WHOLE_STORE, ops, p + [NextOf(ops, orders, p, key)]).Some?
  {
    var taken, order := Restrict(ops, p, key), orders[key];
    var h := order[|taken|];
    assert KeyOrder(ops, key, order) && taken <= order;
    KeyAccepts(ops, order, |taken|);
    assert order[..|taken|] == taken;
    ReplayRestrict(ops, p, key);
    hide Merging, KeyOrder, Restrict, Replay;
    StepIsLocal(Replay(WHOLE_STORE, ops, p).value, ops[h].input, ops[h].output, key);
    ReplaySnoc(WHOLE_STORE, ops, p, h);
  }

  lemma {:induction false} ReplayPrefix<S, I, O>(m: Model<S, I, O>, ops: seq<Operation<I, O>>, order: seq<nat>, k: nat)
    requires forall i :: 0 <= i < |order| ==> order[i] < |ops|
    requires Replay(m, ops, order).Some? && k <= |order|
    ensures Replay(m, ops, order[..k]).Some?
    decreases |order|
  {
    if k == |order| {
      assert order[..k] == order;
    } else {
      var p := order[..|order| - 1];
      ReplayPrefix(m, ops, p, k);
      assert p[..k] == order[..k];
    }
  }

  lemma MergeStep(ops: seq<KvOperation>, orders: Orders, p: seq<nat>) returns (h: nat)
    requires Proper(ops) && Merging(ops, orders, p) && |p| < |ops|
    ensures Merging(ops, orders, p + [h])
  {
    PartialIsDistinct(WHOLE_STORE, ops, p);
    var left := Below(|ops|) - Elems(p);
    SomethingLeft(|ops|, Elems(p));
    var r := FirstToReturn(ops, left);
    var key := ops[r].input.key;
    NextIsFresh(ops, orders, p, key, r);
    h := NextOf(ops, orders, p, key);
    NextIsAccepted(ops, orders, p, key);
    forall y: nat | y < |ops| && y !in Elems(p) ensures ops[h].call <= ops[y].ret {
      assert y in left;
    }
    MergeKeeps(ops, orders, p, key);
  }

  lemma MergeKeeps(ops: seq<KvOperation>, orders: Orders, p: seq<nat>, key: string)
    requires Merging(ops, orders, p) && key in orders
    requires (forall i :: 0 <= i < |p| ==> p[i] < |ops|) && |Restrict(ops, p, key)| < |orders[key]|
    requires var h := NextOf(ops, orders, p, key);
             h < |ops| && ops[h].input.key == key && Enabled(ops, Elems(p), h)
             && Replay(WHOLE_STORE, ops, p + [h]).Some?
    ensures Merging(ops, orders, p + [NextOf(ops, orders, p, key)])
  {
    hide KeyOrder, Enabled, Elems, Restrict, IsPartial;
    var h := NextOf(ops, orders, p, key);
    PartialSnoc(WHOLE_STORE, ops, p, h);
    forall other | other in orders ensures Restrict(ops, p + [h], other) <= orders[other] {
      RestrictSnoc(ops, p, h, other);
    }
  }

  lemma {:induction false} Merge(ops: seq<KvOperation>, orders: Orders, p: seq<nat>) returns (order: seq<nat>)
    requires Proper(ops) && Merging(ops, orders, p)
    ensures IsLinearization(WHOLE_STORE, ops, order)
    decreases |ops| - |p|
  {
    PartialIsDistinct(WHOLE_STORE, ops, p);
    if |p| == |ops| {
      FullPartialIsLinearization(WHOLE_STORE, ops, p);
      order := p;
    } else {
      var h := MergeStep(ops, orders, p);
      order := Merge(ops, orders, p + [h]);
    }
  }

  // ------------------------------------------------------------------
  // Positions in the whole history and in a sub-history

  /** `order` with every position looked up in `idx`. */
  ghost function Through(idx: seq<nat>, order: seq<nat>): (r: seq<nat>)
    requires forall i :: 0 <= i < |order| ==> order[i] < |idx|
    ensures |r| == |order| && forall i :: 0 <= i < |r| ==> r[i] == idx[order[i]]
  {
    seq(|order|, i requires 0 <= i < |order| => idx[order[i]])
  }

  /** `sub` holds the operations of `ops` at the positions `idx`. */
  ghost predicate Picks<I, O>(ops: seq<Operation<I, O>>, idx: seq<nat>, sub: seq<Operation<I, O>>) {
    && |sub| == |idx| && Distinct(idx)
    && forall i :: 0 <= i < |idx| ==> idx[i] < |ops| && sub[i] == ops[idx[i]]
  }

  lemma {:induction false} ThroughReplay<S, I, O>(m: Model<S, I, O>, ops: seq<Operation<I, O>>, idx: seq<nat>,
                                                  sub: seq<Operation<I, O>>, order: seq<nat>)
    requires Picks(ops, idx, sub) && forall i :: 0 <= i < |order| ==> order[i] < |idx|
    ensures Replay(m, sub, order) == Replay(m, ops, Through(idx, order))
  {
    if order != [] {
      var k := |order| - 1;
      ThroughReplay(m, ops, idx, sub, order[..k]);
      assert Through(idx, order)[..k] == Through(idx, order[..k]);
    }
  }

  lemma ThroughOrder<I, O>(ops: seq<Operation<I, O>>, idx: seq<nat>, sub: seq<Operation<I, O>>, order: seq<nat>)
    requires Picks(ops, idx, sub) && forall i :: 0 <= i < |order| ==> order[i] < |idx|
    ensures Distinct(order) <==> Distinct(Through(idx, order))
    ensures RespectsRealTime(sub, order) <==> RespectsRealTime(ops, Through(idx, order))
  {
    var r := Through(idx, order);
    assert forall i :: 0 <= i < |order| ==> sub[order[i]] == ops[r[i]];
    forall i, j | 0 <= i < j < |order| ensures order[i] == order[j] <==> r[i] == r[j] {
    }
  }

  lemma IndicesPick(ops: seq<KvOperation>, key: string)
    ensures Picks(ops, Indices(ops, key), SubHistory(ops, key))
    ensures Elems(Indices(ops, key)) == KeyIds(ops, key)
  {
    SubHistoryAt(ops, key);
  }

  lemma SubGivesKeyOrder(ops: seq<KvOperation>, key: string, order: seq<nat>)
    requires IsLinearization(SINGLE_KEY, SubHistory(ops, key), order)
    ensures |SubHistory(ops, key)| == |Indices(ops, key)|
    ensures KeyOrder(ops, key, Through(Indices(ops, key), order))
  {
    var idx, sub := Indices(ops, key), SubHistory(ops, key);
    IndicesPick(ops, key);
    ThroughReplay(SINGLE_KEY, ops, idx, sub, order);
    ThroughOrder(ops, idx, sub, order);
    ThroughElems(idx, order);
    hide Replay, RespectsRealTime, Indices, SubHistory, Distinct, KeyIds, Elems;
  }

  lemma ThroughElems(idx: seq<nat>, order: seq<nat>)
    requires IsPermutation(order, |idx|)
    ensures Elems(Through(idx, order)) == Elems(idx)
  {
    var r := Through(idx, order);
    PermutationIsOnto(order, |idx|);
    forall x | x in Elems(idx) ensures x in Elems(r) {
      var i :| 0 <= i < |idx| && idx[i] == x;
      assert i in Elems(order);
      var j :| 0 <= j < |order| && order[j] == i;
      assert r[j] == x;
    }
  }

  /** Every order over the chosen positions comes from one over the sub-history. */
  lemma {:induction false} Unthrough(idx: seq<nat>, r: seq<nat>) returns (order: seq<nat>)
    requires forall i :: 0 <= i < |r| ==> r[i] in idx
    ensures |order| == |r| && (forall i :: 0 <= i < |order| ==> order[i] < |idx|)
    ensures Through(idx, order) == r
  {
    if r == [] {
      order := [];
    } else {
      var k := |r| - 1;
      var rest := Unthrough(idx, r[..k]);
      var i :| 0 <= i < |idx| && idx[i] == r[k];
      order := rest + [i];
      assert forall j :: 0 <= j < k ==> idx[rest[j]] == r[j] by {
        assert forall j :: 0 <= j < k ==> Through(idx, rest)[j] == r[..k][j];
      }
    }
  }

  lemma KeyOrderGivesSub(ops: seq<KvOperation>, key: string, r: seq<nat>)
    requires KeyOrder(ops, key, r)
    ensures Linearizable(SINGLE_KEY, SubHistory(ops, key))
  {
    var idx, sub := Indices(ops, key), SubHistory(ops, key);
    IndicesPick(ops, key);
    assert forall i :: 0 <= i < |r| ==> r[i] in Elems(r);
    var order := Unthrough(idx, r);
    ThroughReplay(SINGLE_KEY, ops, idx, sub, order);
    ThroughOrder(ops, idx, sub, order);
    DistinctSize(r);
    DistinctSize(idx);
    assert IsLinearization(SINGLE_KEY, sub, order);
  }

  // ------------------------------------------------------------------

  ghost predicate KeyLinearizable(ops: seq<KvOperation>, key: string) {
    Linearizable(SINGLE_KEY, SubHistory(ops, key))
  }

  lemma KeyOrderExists(ops: seq<KvOperation>, key: string) returns (order: seq<nat>)
    requires KeyLinearizable(ops, key)
    ensures KeyOrder(ops, key, order)
  {
    var o :| IsLinearization(SINGLE_KEY, SubHistory(ops, key), o);
    hide KeyOrder, Replay, RespectsRealTime, SubHistory, Through;
    SubGivesKeyOrder(ops, key, o);
    order := Through(Indices(ops, key), o);
  }

  lemma {:induction false} ChooseOrders(ops: seq<KvOperation>, n: nat) returns (orders: Orders)
    requires n <= |ops| && forall x :: 0 <= x < n ==> KeyLinearizable(ops, ops[x].input.key)
    ensures forall x :: 0 <= x < n ==> ops[x].input.key in orders
    ensures forall key :: key in orders ==> KeyOrder(ops, key, orders[key])
  {
    hide KeyLinearizable, KeyOrder;
    if n == 0 {
      orders := map[];
    } else {
      var rest := ChooseOrders(ops, n - 1);
      var order := KeyOrderExists(ops, ops[n - 1].input.key);
      orders := rest[ops[n - 1].input.key := order];
    }
  }

  /** Locality: a history is linearizable against the whole store exactly when
      every key's sub-history is linearizable against that key alone. */
  lemma Locality(ops: seq<KvOperation>)
    requires Proper(ops)
    ensures Linearizable(WHOLE_STORE, ops)
       <==> forall x :: 0 <= x < |ops| ==> KeyLinearizable(ops, ops[x].input.key)
  {
    if Linearizable(WHOLE_STORE, ops) {
      var order :| IsLinearization(WHOLE_STORE, ops, order);
      forall x | 0 <= x < |ops| ensures KeyLinearizable(ops, ops[x].input.key) {
        WholeGivesKey(ops, order, ops[x].input.key);
        KeyOrderGivesSub(ops, ops[x].input.key, Restrict(ops, order, ops[x].input.key));
      }
    }
    if forall x :: 0 <= x < |ops| ==> KeyLinearizable(ops, ops[x].input.key) {
      var orders := ChooseOrders(ops, |ops|);
      var order := Merge(ops, orders, []);
    }
  }

  // ------------------------------------------------------------------
  // Checking a whole history

  type Groups = map<string, seq<KvOperation>>

  ghost predicate GroupsHold(history: seq<KvOperation>, groups: Groups) {
    forall key :: key in groups ==> groups[key] == SubHistory(history, key)
  }

  /** `groups` has the sub-history of every key that occurs, and no other key. */
  ghost predicate Grouped(history: seq<KvOperation>, groups: Groups) {
    GroupsHold(history, groups) && forall key :: key in groups <==> Occurs(history, key)
  }

  ghost predicate Occurs(history: seq<KvOperation>, key: string) {
    exists x :: 0 <= x < |history| && history[x].input.key == key
  }

  lemma {:induction false} NoSuchKey(history: seq<KvOperation>, key: string)
    requires forall x :: 0 <= x < |history| ==> history[x].input.key != key
    ensures SubHistory(history, key) == []
  {
    if history != [] {
      NoSuchKey(history[..|history| - 1], key);
    }
  }

  ghost function WithOperation(groups: Groups, v: KvOperation): Groups {
    groups[v.input.key := (if v.input.key in groups then groups[v.input.key] else []) + [v]]
  }

  lemma OccursNext(history: seq<KvOperation>, v: KvOperation, key: string)
    ensures Occurs(history + [v], key) <==> Occurs(history, key) || key == v.input.key
  {
    var more := history + [v];
    if Occurs(history, key) {
      var x :| 0 <= x < |history| && history[x].input.key == key;
      assert more[x] == history[x];
    }
    if key == v.input.key {
      assert more[|history|] == v;
    }
  }

  lemma SubHistoryNext(history: seq<KvOperation>, v: KvOperation, key: string)
    ensures SubHistory(history + [v], key) == SubHistory(history, key) + (if v.input.key == key then [v] else [])
  {
    assert (history + [v])[..|history|] == history;
  }

  lemma GroupNext(history: seq<KvOperation>, v: KvOperation, groups: Groups)
    requires Grouped(history, groups)
    ensures Grouped(history + [v], WithOperation(groups, v))
  {
    hide SubHistory, Occurs;
    var next := WithOperation(groups, v);
    forall key ensures key in next <==> Occurs(history + [v], key) {
      OccursNext(history, v, key);
    }
    forall key | key in next ensures next[key] == SubHistory(history + [v], key) {
      SubHistoryNext(history, v, key);
      if key !in groups {
        Unseen(history, key);
      }
    }
  }

  lemma Unseen(history: seq<KvOperation>, key: string)
    requires !Occurs(history, key)
    ensures SubHistory(history, key) == []
  {
    forall x | 0 <= x < |history| ensures history[x].input.key != key {
    }
    NoSuchKey(history, key);
  }

  /** The order of strings, byte by byte. */
  predicate Before(a: string, b: string) {
    b != [] && (a == [] || a[0] < b[0] || (a[0] == b[0] && Before(a[1..], b[1..])))
  }

  ghost predicate SortedKeys(keys: seq<string>) {
    forall i, j :: 0 <= i < j < |keys| ==> Before(keys[i], keys[j])
  }

  lemma {:induction false} BeforeTransitive(a: string, b: string, c: string)
    requires Before(a, b) && Before(b, c)
    ensures Before(a, c)
  {
    if a != [] && a[0] == b[0] == c[0] {
      BeforeTransitive(a[1..], b[1..], c[1..]);
    }
  }

  lemma {:induction false} BeforeTotal(a: string, b: string)
    requires a != b
    ensures Before(a, b) || Before(b, a)
  {
    if a != [] && b != [] && a[0] == b[0] {
      assert a == [a[0]] + a[1..] && b == [b[0]] + b[1..];
      BeforeTotal(a[1..], b[1..]);
    }
  }

  method InsertKey(keys: seq<string>, key: string) returns (r: seq<string>)
    requires SortedKeys(keys) && key !in keys
    ensures SortedKeys(r) && forall k :: k in r <==> k in keys || k == key
  {
    var i := 0;
    while i < |keys| && Before(keys[i], key)
      invariant 0 <= i <= |keys|
      invariant forall k :: 0 <= k < i ==> Before(keys[k], key)
    {
      i := i + 1;
    }
    forall k | i <= k < |keys| ensures Before(key, keys[k]) {
      BeforeTotal(keys[i], key);
      if k > i {
        BeforeTransitive(key, keys[i], keys[k]);
      }
    }
    assert keys == keys[..i] + keys[i..];
    hide Before;
    r := keys[..i] + [key] + keys[i..];
  }

  method SortKeys(all: set<string>) returns (keys: seq<string>)
    ensures SortedKeys(keys) && forall key :: key in keys <==> key in all
  {
    keys := [];
    var left := all;
    while left != {}
      invariant left <= all && SortedKeys(keys)
      invariant forall key :: key in keys <==> key in all - left
      decreases left
    {
      var key :| key in left;
      left := left - {key};
      keys := InsertKey(keys, key);
    }
  }

  method GroupByKey(history: seq<KvOperation>) returns (groups: Groups)
    ensures Grouped(history, groups)
  {
    groups := map[];
    for i := 0 to |history|
      invariant Grouped(history[..i], groups)
    {
      var v := history[i];
      GroupNext(history[..i], v, groups);
      assert history[..i + 1] == history[..i] + [v];
      groups := groups[v.input.key := (if v.input.key in groups then groups[v.input.key] else []) + [v]];
    }
    assert history[..|history|] == history;
  }

  /** Splits a history by key, in the order of the keys. */
  method Partition(history: seq<KvOperation>) returns (parts: seq<seq<KvOperation>>, keys: seq<string>)
    ensures SortedKeys(keys) && forall key :: key in keys <==> Occurs(history, key)
    ensures |parts| == |keys| && forall i :: 0 <= i < |parts| ==> parts[i] == SubHistory(history, keys[i])
  {
    hide SubHistory, Occurs, SortedKeys;
    var groups := GroupByKey(history);
    keys := SortKeys(groups.Keys);
    parts := [];
    for i := 0 to |keys|
      invariant |parts| == i && forall j :: 0 <= j < i ==> parts[j] == SubHistory(history, keys[j])
    {
      assert keys[i] in groups.Keys;
      parts := parts + [groups[keys[i]]];
    }
  }

  lemma {:induction false} SubHistoryProper(history: seq<KvOperation>, key: string)
    requires Proper(history)
    ensures Proper(SubHistory(history, key))
  {
    if history != [] {
      SubHistoryProper(history[..|history| - 1], key);
    }
  }

  lemma EmptyKeyLinearizable(history: seq<KvOperation>, key: string)
    requires SubHistory(history, key) == []
    ensures KeyLinearizable(history, key)
  {
    assert IsLinearization(SINGLE_KEY, SubHistory(history, key), []);
  }

  method CheckPart(part: seq<KvOperation>, ghost history: seq<KvOperation>, ghost key: string) returns (ok: bool)
    requires Proper(history) && part == SubHistory(history, key)
    ensures ok <==> KeyLinearizable(history, key)
  {
    SubHistoryProper(history, key);
    var entries := MakeEntries(part);
    SameLinearizable(SINGLE_KEY, Operations(entries), part);
    hide Linearizable, SameHistory, WellFormed, Describes, SubHistory;
    var longest;
    ok, longest := CheckSingle(SINGLE_KEY, entries, false);
  }

  /** The checker's verdict on a key/value history is linearizability of the whole store. */
  method CheckOperations(history: seq<KvOperation>) returns (ok: bool)
    requires Proper(history)
    ensures ok <==> Linearizable(WHOLE_STORE, history)
  {
    var parts, keys := Partition(history);
    assert forall x :: 0 <= x < |history| ==> Occurs(history, history[x].input.key);
    ok := true;
    for i := 0 to |parts|
      invariant ok <==> forall j :: 0 <= j < i ==> KeyLinearizable(history, keys[j])
    {
      var single := CheckPart(parts[i], history, keys[i]);
      ok := ok && single;
    }
    AllKeys(history, keys);
    Locality(history);
  }

  lemma AllKeys(history: seq<KvOperation>, keys: seq<string>)
    requires forall x :: 0 <= x < |history| ==> history[x].input.key in keys
    ensures (forall j :: 0 <= j < |keys| ==> KeyLinearizable(history, keys[j]))
       <==> forall x :: 0 <= x < |history| ==> KeyLinearizable(history, history[x].input.key)
  {
    hide KeyLinearizable;
    forall j | 0 <= j < |keys|
      ensures KeyLinearizable(history, keys[j]) || exists x :: 0 <= x < |history| && history[x].input.key == keys[j]
    {
      if !exists x :: 0 <= x < |history| && history[x].input.key == keys[j] {
        NoSuchKey(history, keys[j]);
        EmptyKeyLinearizable(history, keys[j]);
      }
    }
  }
}
