/** From operations with call and return times to a sorted list of entries. */
module TimedHistories {
  import opened Linearizability
  import opened Entries

  /** The order the entries are sorted by: time first, and at one instant calls before returns. */
  predicate Less<I, O>(a: Entry<I, O>, b: Entry<I, O>) {
    if a.time != b.time then a.time < b.time else a.CallEntry? && b.ReturnEntry?
  }

  ghost predicate Sorted<I, O>(s: seq<Entry<I, O>>) {
    forall i, j :: 0 <= i < j < |s| ==> !Less(s[j], s[i])
  }

  /** `s` holds the elements of `raw`, in the order given by `perm`. */
  ghost predicate Rearranges<T>(s: seq<T>, raw: seq<T>, perm: seq<nat>) {
    && |s| == |raw| && IsPermutation(perm, |raw|)
    && forall i :: 0 <= i < |s| ==> s[i] == raw[perm[i]]
  }

  /** The entries before sorting: for operation `id`, its call at 2 * id and its return next to it. */
  ghost predicate Raw<I, O>(ops: seq<Operation<I, O>>, raw: seq<Entry<I, O>>) {
    && |raw| == 2 * |ops|
    && forall id :: 0 <= id < |ops| ==> RawPair(ops[id], raw, id)
  }

  ghost predicate RawPair<I, O>(op: Operation<I, O>, raw: seq<Entry<I, O>>, id: nat)
    requires 2 * id + 1 < |raw|
  {
    && raw[2 * id] == CallEntry(op.input, id, op.call)
    && raw[2 * id + 1] == ReturnEntry(op.output, id, op.ret)
  }

  // ------------------------------------------------------------------
  // Any sorted rearrangement is a history with the same meaning

  lemma RawAt<I, O>(ops: seq<Operation<I, O>>, raw: seq<Entry<I, O>>, k: nat)
    requires Raw(ops, raw) && k < |raw|
    ensures k / 2 < |ops| && raw[k].id == k / 2
    ensures raw[k] == if k % 2 == 0 then CallEntry(ops[k / 2].input, k / 2, ops[k / 2].call)
                      else ReturnEntry(ops[k / 2].output, k / 2, ops[k / 2].ret)
  {
    var id := k / 2;
    assert RawPair(ops[id], raw, id);
    assert k == 2 * id || k == 2 * id + 1;
  }

  lemma Pair<I, O>(ops: seq<Operation<I, O>>, raw: seq<Entry<I, O>>, s: seq<Entry<I, O>>, perm: seq<nat>, p: nat,
      q: nat)
    requires Proper(ops) && Raw(ops, raw) && Rearranges(s, raw, perm) && Sorted(s)
    requires p < q < |s| && s[p].id == s[q].id
    ensures s[p].CallEntry? && s[q].ReturnEntry?
  {
    RawAt(ops, raw, perm[p]);
    RawAt(ops, raw, perm[q]);
    assert perm[p] != perm[q];
    assert !Less(s[q], s[p]);
  }

  lemma Place(perm: seq<nat>, n: nat, k: nat) returns (p: nat)
    requires IsPermutation(perm, n) && k < n
    ensures p < n && perm[p] == k
  {
    PermutationIsOnto(perm, n);
    assert k in Elems(perm);
    p :| p < n && perm[p] == k;
  }

  lemma SortedIsWellFormed<I, O>(ops: seq<Operation<I, O>>, raw: seq<Entry<I, O>>, s: seq<Entry<I, O>>, perm: seq<nat>)
    requires Proper(ops) && Raw(ops, raw) && Rearranges(s, raw, perm) && Sorted(s)
    ensures WellFormed(s)
  {
    forall p | 0 <= p < |s| ensures s[p].id < |s| / 2 {
      RawAt(ops, raw, perm[p]);
    }
    forall p, q | 0 <= p < q < |s| && s[p].id == s[q].id ensures s[p].CallEntry? && s[q].ReturnEntry? {
      Pair(ops, raw, s, perm, p, q);
    }
    forall id: nat | id < |s| / 2 ensures HasPair(s, id) {
      var p := Place(perm, |raw|, 2 * id);
      var q := Place(perm, |raw|, 2 * id + 1);
      RawAt(ops, raw, 2 * id);
      RawAt(ops, raw, 2 * id + 1);
      assert s[p].id == id && s[q].id == id;
      var lo, hi := if p < q then p else q, if p < q then q else p;
      assert s[lo].id == id && s[hi].id == id;
    }
  }

  /** Both sequences hold the same operations, ordered alike in real time. */
  ghost predicate SameHistory<I, O>(a: seq<Operation<I, O>>, b: seq<Operation<I, O>>) {
    && |a| == |b|
    && (forall x :: 0 <= x < |a| ==> a[x].input == b[x].input && a[x].output == b[x].output)
    && (forall x, y :: 0 <= x < |a| && 0 <= y < |a| ==> (a[x].ret < a[y].call <==> b[x].ret < b[y].call))
  }

  lemma {:induction false} SameReplay<S, I, O>(m: Model<S, I, O>, a: seq<Operation<I, O>>, b: seq<Operation<I,
      O>>, order: seq<nat>)
    requires SameHistory(a, b) && forall i :: 0 <= i < |order| ==> order[i] < |a|
    ensures Replay(m, a, order) == Replay(m, b, order)
  {
    if order != [] {
      SameReplay(m, a, b, order[..|order| - 1]);
    }
  }

  lemma SameLinearizations<S, I, O>(m: Model<S, I, O>, a: seq<Operation<I, O>>, b: seq<Operation<I, O>>,
      order: seq<nat>)
    requires SameHistory(a, b) && IsLinearization(m, a, order)
    ensures IsLinearization(m, b, order)
  {
    SameReplay(m, a, b, order);
  }

  lemma SameLinearizable<S, I, O>(m: Model<S, I, O>, a: seq<Operation<I, O>>, b: seq<Operation<I, O>>)
    requires SameHistory(a, b)
    ensures Linearizable(m, a) <==> Linearizable(m, b)
  {
    if Linearizable(m, a) {
      var order :| IsLinearization(m, a, order);
      SameLinearizations(m, a, b, order);
    }
    if Linearizable(m, b) {
      var order :| IsLinearization(m, b, order);
      SameLinearizations(m, b, a, order);
    }
  }

  lemma PositionsAgree<I, O>(ops: seq<Operation<I, O>>, raw: seq<Entry<I, O>>, s: seq<Entry<I, O>>,
      perm: seq<nat>, x: nat)
    requires Proper(ops) && Raw(ops, raw) && Rearranges(s, raw, perm) && Sorted(s) && WellFormed(s)
    requires x < |ops|
    ensures var o := Operations(s)[x];
            && o.input == ops[x].input && o.output == ops[x].output
            && 1 <= o.call <= |s| && s[o.call - 1] == CallEntry(ops[x].input, x, ops[x].call)
            && 1 <= o.ret <= |s| && s[o.ret - 1] == ReturnEntry(ops[x].output, x, ops[x].ret)
  {
    hide WellFormed, Sorted, Raw, Rearranges, Proper, Operations, Describes;
    RawSized(ops, raw, s, perm);
    OperationOf(s, x);
    var o := Operations(s)[x];
    EntryOf(ops, raw, s, perm, o.call - 1);
    EntryOf(ops, raw, s, perm, o.ret - 1);
  }

  lemma OperationOf<I, O>(s: seq<Entry<I, O>>, x: nat)
    requires WellFormed(s) && x < |s| / 2
    ensures x < |Operations(s)| && OperationOk(s, Operations(s)[x], x)
  {
    hide WellFormed, Operations;
  }

  lemma RawSized<I, O>(ops: seq<Operation<I, O>>, raw: seq<Entry<I, O>>, s: seq<Entry<I, O>>, perm: seq<nat>)
    requires Raw(ops, raw) && Rearranges(s, raw, perm)
    ensures |s| == 2 * |ops|
  {
  }

  lemma EntryOf<I, O>(ops: seq<Operation<I, O>>, raw: seq<Entry<I, O>>, s: seq<Entry<I, O>>, perm: seq<nat>, j: nat)
    requires Raw(ops, raw) && Rearranges(s, raw, perm) && j < |s|
    ensures s[j].id < |ops|
    ensures var id := s[j].id;
            s[j] == if s[j].CallEntry? then CallEntry(ops[id].input, id, ops[id].call)
                    else ReturnEntry(ops[id].output, id, ops[id].ret)
  {
    hide Raw;
    RawAt(ops, raw, perm[j]);
  }

  lemma SortedSameHistory<I, O>(ops: seq<Operation<I, O>>, raw: seq<Entry<I, O>>, s: seq<Entry<I, O>>, perm: seq<nat>)
    requires Proper(ops) && Raw(ops, raw) && Rearranges(s, raw, perm) && Sorted(s)
    ensures WellFormed(s) && SameHistory(Operations(s), ops)
  {
    SortedIsWellFormed(ops, raw, s, perm);
    var a := Operations(s);
    forall x, y | 0 <= x < |a| && 0 <= y < |a| ensures a[x].ret < a[y].call <==> ops[x].ret < ops[y].call {
      PositionsAgree(ops, raw, s, perm, x);
      PositionsAgree(ops, raw, s, perm, y);
      var r, c := a[x].ret - 1, a[y].call - 1;
      assert r != c;
      assert r < c ==> !Less(s[c], s[r]);
      assert c < r ==> !Less(s[r], s[c]);
    }
    forall x | 0 <= x < |a| ensures a[x].input == ops[x].input && a[x].output == ops[x].output {
      PositionsAgree(ops, raw, s, perm, x);
    }
  }

  // ------------------------------------------------------------------
  // Making the list

  method Swapped<T>(s: seq<T>, ghost raw: seq<T>, ghost perm: seq<nat>, i: nat, j: nat)
    returns (s': seq<T>, ghost perm': seq<nat>)
    requires Rearranges(s, raw, perm) && i < j < |s|
    ensures Rearranges(s', raw, perm')
    ensures s' == s[i := s[j]][j := s[i]]
  {
    s' := s[i := s[j]][j := s[i]];
    perm' := perm[i := perm[j]][j := perm[i]];
  }

  /** Moves the entry at `i` down into the sorted part before it. */
  method Sift<I, O>(s: seq<Entry<I, O>>, ghost raw: seq<Entry<I, O>>, ghost perm: seq<nat>, i: nat)
    returns (s': seq<Entry<I, O>>, ghost perm': seq<nat>)
    requires Rearranges(s, raw, perm) && i < |s| && Sorted(s[..i])
    ensures Rearranges(s', raw, perm') && Sorted(s'[..i + 1])
  {
    s', perm' := s, perm;
    var j := i;
    while j > 0 && Less(s'[j], s'[j - 1])
      invariant j <= i && Rearranges(s', raw, perm')
      invariant forall a, b :: 0 <= a < b <= i && b != j ==> !Less(s'[b], s'[a])
    {
      s', perm' := Swapped(s', raw, perm', j - 1, j);
      j := j - 1;
    }
    if j > 0 {
      forall a | 0 <= a < j ensures !Less(s'[j], s'[a]) {
        assert a < j - 1 ==> !Less(s'[j - 1], s'[a]);
      }
    }
  }

  method Sort<I, O>(raw: seq<Entry<I, O>>) returns (s: seq<Entry<I, O>>, ghost perm: seq<nat>)
    ensures Rearranges(s, raw, perm) && Sorted(s)
  {
    s, perm := raw, seq(|raw|, i requires 0 <= i => i);
    for i := 0 to |raw|
      invariant Rearranges(s, raw, perm) && Sorted(s[..i])
    {
      s, perm := Sift(s, raw, perm, i);
    }
    assert s[..|raw|] == s;
  }

  /** The entries of a history of operations: well formed, and linearizable exactly when the operations are. */
  method MakeEntries<I, O>(history: seq<Operation<I, O>>) returns (entries: seq<Entry<I, O>>)
    requires Proper(history)
    ensures WellFormed(entries) && SameHistory(Operations(entries), history)
  {
    var raw: seq<Entry<I, O>> := [];
    for id := 0 to |history|
      invariant Raw(history[..id], raw)
    {
      raw := raw + [CallEntry(history[id].input, id, history[id].call)];
      raw := raw + [ReturnEntry(history[id].output, id, history[id].ret)];
    }
    assert history[..|history|] == history;
    ghost var perm;
    entries, perm := Sort(raw);
    SortedSameHistory(history, raw, entries, perm);
  }
}
