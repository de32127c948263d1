/** What a history of operations means and when it is linearizable.
    An operation carries the instants of its call and of its return; the
    instants are either wall-clock times or positions in a list of entries. */
module Linearizability {
  import opened Basics

  datatype Operation<I, O> = Operation(input: I, call: int, output: O, ret: int)

  /** A sequential specification: an initial state, a step that accepts or
      refuses an (input, output) pair, and the test used to compare states. */
  datatype Model<!S, !I, !O> = Model(init: S, step: (S, I, O) -> (bool, S), equal: (S, S) -> bool)

  /** All the search needs of `equal`: it is a preorder, and a state can do
      whatever the states it is compared with can do. Plain equality qualifies. */
  ghost predicate Congruent<S(!new), I(!new), O(!new)>(m: Model<S, I, O>) {
    && (forall s :: m.equal(s, s))
    && (forall s, t, u :: m.equal(s, t) && m.equal(t, u) ==> m.equal(s, u))
    && (forall s, t, i, o :: m.equal(s, t) && m.step(s, i, o).0 ==>
          m.step(t, i, o).0 && m.equal(m.step(s, i, o).1, m.step(t, i, o).1))
  }

  ghost predicate Proper<I, O>(ops: seq<Operation<I, O>>) {
    forall x :: 0 <= x < |ops| ==> ops[x].call <= ops[x].ret
  }

  ghost predicate Distinct<T>(s: seq<T>) {
    forall i, j :: 0 <= i < j < |s| ==> s[i] != s[j]
  }

  ghost function Elems<T>(s: seq<T>): set<T> {
    set x | x in s
  }

  ghost function Below(n: nat): (r: set<nat>)
    ensures forall x: nat :: x in r <==> x < n
    ensures |r| == n
  {
    if n == 0 then {} else Below(n - 1) + {n - 1}
  }

  // ------------------------------------------------------------------
  // Linearizability, stated without reference to any search

  ghost predicate IsPermutation(order: seq<nat>, n: nat) {
    && |order| == n
    && Distinct(order)
    && forall i :: 0 <= i < |order| ==> order[i] < n
  }

  /** No operation is placed after one that was called only once it had returned. */
  ghost predicate RespectsRealTime<I, O>(ops: seq<Operation<I, O>>, order: seq<nat>)
    requires forall i :: 0 <= i < |order| ==> order[i] < |ops|
  {
    forall i, j :: 0 <= i < j < |order| ==> !(ops[order[j]].ret < ops[order[i]].call)
  }

  /** The state after `order` has been run from the initial state, if no step refuses. */
  ghost function Replay<S, I, O>(m: Model<S, I, O>, ops: seq<Operation<I, O>>, order: seq<nat>): Option<S>
    requires forall i :: 0 <= i < |order| ==> order[i] < |ops|
  {
    if order == [] then Some(m.init)
    else
      var k := |order| - 1;
      match Replay(m, ops, order[..k])
      case None => None
      case Some(s) =>
        var r := m.step(s, ops[order[k]].input, ops[order[k]].output);
        if r.0 then Some(r.1) else None
  }

  ghost predicate IsLinearization<S, I, O>(m: Model<S, I, O>, ops: seq<Operation<I, O>>, order: seq<nat>) {
    && IsPermutation(order, |ops|)
    && RespectsRealTime(ops, order)
    && Replay(m, ops, order).Some?
  }

  ghost predicate Linearizable<S, I, O>(m: Model<S, I, O>, ops: seq<Operation<I, O>>) {
    exists order :: IsLinearization(m, ops, order)
  }

  // ------------------------------------------------------------------
  // Linearizations built one operation at a time

  /** `x` may be linearized next: nothing still outstanding returned before its call. */
  ghost predicate Enabled<I, O>(ops: seq<Operation<I, O>>, done: set<nat>, x: nat) {
    && x < |ops| && x !in done
    && forall y: nat :: y < |ops| && y !in done ==> ops[x].call <= ops[y].ret
  }

  /** A real-time-closed prefix of some order, accepted by the model. */
  ghost predicate IsPartial<S, I, O>(m: Model<S, I, O>, ops: seq<Operation<I, O>>, order: seq<nat>) {
    && (forall j :: 0 <= j < |order| ==> Enabled(ops, Elems(order[..j]), order[j]))
    && Replay(m, ops, order).Some?
  }

  lemma ElemsSnoc<T>(s: seq<T>, x: T)
    ensures Elems(s + [x]) == Elems(s) + {x}
  {
  }

  lemma {:induction false} DistinctSize<T>(s: seq<T>)
    requires Distinct(s)
    ensures |Elems(s)| == |s|
  {
    if s != [] {
      var k := |s| - 1;
      DistinctSize(s[..k]);
      assert s == s[..k] + [s[k]];
      ElemsSnoc(s[..k], s[k]);
    }
  }

  lemma SubsetSameSize<T>(a: set<T>, b: set<T>)
    requires a <= b && |a| == |b|
    ensures a == b
  {
    assert b == a + (b - a);
    assert |b - a| == 0;
  }

  /** Any `n` distinct numbers below `n` are all of them. */
  lemma PermutationIsOnto(order: seq<nat>, n: nat)
    requires IsPermutation(order, n)
    ensures Elems(order) == Below(n)
  {
    DistinctSize(order);
    SubsetSameSize(Elems(order), Below(n));
  }

  lemma PartialIsDistinct<S, I, O>(m: Model<S, I, O>, ops: seq<Operation<I, O>>, order: seq<nat>)
    requires IsPartial(m, ops, order)
    ensures Distinct(order)
    ensures |Elems(order)| == |order| <= |ops|
  {
    forall i, j | 0 <= i < j < |order| ensures order[i] != order[j] {
      assert order[..j][i] in Elems(order[..j]);
    }
    DistinctSize(order);
    forall i | 0 <= i < |order| ensures order[i] < |ops| {
      assert Enabled(ops, Elems(order[..i]), order[i]);
    }
    SubsetBound(Elems(order), Below(|ops|));
  }

  lemma PartialPrefix<S, I, O>(m: Model<S, I, O>, ops: seq<Operation<I, O>>, order: seq<nat>, k: nat)
    requires IsPartial(m, ops, order) && k < |order|
    ensures IsPartial(m, ops, order[..k])
    decreases |order|
  {
    hide Enabled, Elems;
    var p := order[..|order| - 1];
    forall j | 0 <= j < |p| ensures Enabled(ops, Elems(p[..j]), p[j]) {
      assert p[..j] == order[..j];
    }
    if k < |p| {
      PartialPrefix(m, ops, p, k);
      assert p[..k] == order[..k];
    }
  }

  lemma PartialSnoc<S, I, O>(m: Model<S, I, O>, ops: seq<Operation<I, O>>, p: seq<nat>, x: nat)
    requires IsPartial(m, ops, p) && Enabled(ops, Elems(p), x)
    requires (forall i :: 0 <= i < |p| ==> p[i] < |ops|) && Replay(m, ops, p + [x]).Some?
    ensures IsPartial(m, ops, p + [x])
  {
    hide Enabled, Elems;
    forall j | 0 <= j < |p| + 1 ensures Enabled(ops, Elems((p + [x])[..j]), (p + [x])[j]) {
      assert (p + [x])[..j] == p[..j];
      assert p[..|p|] == p;
    }
  }

  lemma OutstandingIsLater(order: seq<nat>, n: nat, j: nat, y: nat) returns (k: nat)
    requires IsPermutation(order, n) && j < n && y < n && y !in Elems(order[..j])
    ensures j <= k < n && order[k] == y
  {
    PermutationIsOnto(order, n);
    assert y in Elems(order);
    k :| 0 <= k < |order| && order[k] == y;
  }

  lemma LinearizationIsPartial<S, I, O>(m: Model<S, I, O>, ops: seq<Operation<I, O>>, order: seq<nat>)
    requires Proper(ops) && IsLinearization(m, ops, order)
    ensures IsPartial(m, ops, order)
  {
    hide Replay, Elems;
    forall j | 0 <= j < |order| ensures Enabled(ops, Elems(order[..j]), order[j]) {
      NotDoneTwice(order, j);
      forall y: nat | y < |ops| && y !in Elems(order[..j]) ensures ops[order[j]].call <= ops[y].ret {
        var k := OutstandingIsLater(order, |ops|, j, y);
      }
    }
  }

  lemma NotDoneTwice(order: seq<nat>, j: nat)
    requires Distinct(order) && j < |order|
    ensures order[j] !in Elems(order[..j])
  {
  }

  lemma FullPartialRespects<S, I, O>(m: Model<S, I, O>, ops: seq<Operation<I, O>>, order: seq<nat>)
    requires IsPartial(m, ops, order) && |order| == |ops|
    ensures IsLinearization(m, ops, order)
  {
    PartialIsDistinct(m, ops, order);
    hide Replay;
    forall i, j | 0 <= i < j < |order| ensures !(ops[order[j]].ret < ops[order[i]].call) {
      assert Enabled(ops, Elems(order[..i]), order[i]);
      assert order[j] !in Elems(order[..i]);
    }
  }

  /** The step-by-step reading agrees with the definition of linearization. */
  lemma FullPartialIsLinearization<S, I, O>(m: Model<S, I, O>, ops: seq<Operation<I, O>>, order: seq<nat>)
    requires Proper(ops)
    ensures IsLinearization(m, ops, order) <==> IsPartial(m, ops, order) && |order| == |ops|
  {
    if IsLinearization(m, ops, order) {
      LinearizationIsPartial(m, ops, order);
    }
    if IsPartial(m, ops, order) && |order| == |ops| {
      FullPartialRespects(m, ops, order);
    }
  }
}
