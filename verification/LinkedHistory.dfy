/** The doubly linked list of history entries, out of which the search lifts
    a call together with its return and puts both back ("dancing links"). */
module LinkedHistory {

  /** The pointers of the list, by position; position 0 is the sentinel and -1 is nil. */
  datatype Links = Links(next: seq<int>, prev: seq<int>)

  ghost predicate InRange(P: Links) {
    && |P.next| == |P.prev|
    && (forall i :: 0 <= i < |P.next| ==> -1 <= P.next[i] < |P.next|)
    && (forall i :: 0 <= i < |P.prev| ==> -1 <= P.prev[i] < |P.prev|)
  }

  ghost predicate NextOk(P: Links, D: set<nat>, p: nat)
    requires p < |P.next|
  {
    if P.next[p] < 0 then forall r :: r in D ==> r <= p
    else P.next[p] in D && p < P.next[p] && forall r :: r in D ==> r <= p || P.next[p] <= r
  }

  ghost predicate PrevOk(P: Links, D: set<nat>, p: nat)
    requires p < |P.prev|
  {
    if P.prev[p] < 0 then forall r :: r in D ==> p <= r
    else P.prev[p] in D && P.prev[p] < p && forall r :: r in D ==> p <= r || r <= P.prev[p]
  }

  /** The list runs through exactly the positions in `D`, in increasing order, both ways. */
  ghost predicate Threads(P: Links, D: set<nat>) {
    && InRange(P)
    && 0 in D
    && (forall p :: p in D ==> p < |P.next|)
    && (forall p {:trigger NextOk(P, D, p)} :: p in D ==> NextOk(P, D, p))
    && (forall p {:trigger PrevOk(P, D, p)} :: p in D ==> PrevOk(P, D, p))
  }

  /** Bypass position `i`; its own pointers stay as they were. */
  ghost function Remove(P: Links, i: nat): Links
    requires InRange(P) && i < |P.next| && P.prev[i] >= 0
  {
    Links(P.next[P.prev[i] := P.next[i]],
          if P.next[i] < 0 then P.prev else P.prev[P.next[i] := P.prev[i]])
  }

  /** Let the neighbours that position `i` remembers point back at it. */
  ghost function Insert(P: Links, i: nat): Links
    requires InRange(P) && i < |P.next| && P.prev[i] >= 0
  {
    Links(P.next[P.prev[i] := i],
          if P.next[i] < 0 then P.prev else P.prev[P.next[i] := i])
  }

  lemma PrevExists(P: Links, D: set<nat>, i: nat)
    requires Threads(P, D) && i in D && i > 0
    ensures 0 <= P.prev[i] < i
  {
    assert PrevOk(P, D, i);
  }

  lemma RemoveNext(P: Links, D: set<nat>, i: nat, p: nat)
    requires Threads(P, D) && i in D && i > 0 && p in D && p != i
    requires P.prev[i] >= 0
    ensures NextOk(Remove(P, i), D - {i}, p)
  {
    assert NextOk(P, D, p) && NextOk(P, D, i) && PrevOk(P, D, i);
  }

  lemma RemovePrev(P: Links, D: set<nat>, i: nat, p: nat)
    requires Threads(P, D) && i in D && i > 0 && p in D && p != i
    requires P.prev[i] >= 0
    ensures PrevOk(Remove(P, i), D - {i}, p)
  {
    assert PrevOk(P, D, p) && NextOk(P, D, i) && PrevOk(P, D, i);
  }

  lemma RemoveThreads(P: Links, D: set<nat>, i: nat)
    requires Threads(P, D) && i in D && i > 0
    ensures 0 <= P.prev[i] < i
    ensures Threads(Remove(P, i), D - {i})
  {
    PrevExists(P, D, i);
    forall p | p in D - {i} ensures NextOk(Remove(P, i), D - {i}, p) && PrevOk(Remove(P, i), D - {i}, p) {
      RemoveNext(P, D, i, p);
      RemovePrev(P, D, i, p);
    }
  }

  lemma InsertUndoesRemove(P: Links, D: set<nat>, i: nat)
    requires Threads(P, D) && i in D && i > 0
    ensures 0 <= P.prev[i] < i
    ensures InRange(Remove(P, i)) && Remove(P, i).prev[i] == P.prev[i]
    ensures Insert(Remove(P, i), i) == P
  {
    PrevExists(P, D, i);
    var a, b := P.prev[i], P.next[i];
    assert NextOk(P, D, i) && PrevOk(P, D, i) && NextOk(P, D, a);
    if b >= 0 {
      assert PrevOk(P, D, b);
    }
  }

  /** The pointers after `lift` has taken out a call at `c` and its return at `r`. */
  ghost function Lifted(P: Links, D: set<nat>, c: nat, r: nat): Links
    requires Threads(P, D) && c in D && r in D && 0 < c < r
  {
    RemoveThreads(P, D, c);
    RemoveThreads(Remove(P, c), D - {c}, r);
    Remove(Remove(P, c), r)
  }

  lemma LiftedThreads(P: Links, D: set<nat>, c: nat, r: nat)
    requires Threads(P, D) && c in D && r in D && 0 < c < r
    ensures Threads(Lifted(P, D, c, r), D - {c, r})
  {
    RemoveThreads(P, D, c);
    RemoveThreads(Remove(P, c), D - {c}, r);
    assert D - {c} - {r} == D - {c, r};
  }

  // ------------------------------------------------------------------
  // The heap

  datatype Payload<I, O> = Nil | Input(input: I) | Output(output: O)

  class Node<I, O> {
    ghost const pos: nat
    const value: Payload<I, O>
    /** The matching return of a call; nil in a return and in the sentinel. */
    const mate: Node?<I, O>
    const id: int
    var next: Node?<I, O>
    var prev: Node?<I, O>

    constructor (value: Payload<I, O>, mate: Node?<I, O>, id: int, ghost pos: nat)
      ensures this.value == value && this.mate == mate && this.id == id && this.pos == pos
      ensures next == null && prev == null
    {
      this.value, this.mate, this.id, this.pos := value, mate, id, pos;
      next, prev := null, null;
    }
  }

  ghost predicate PointsTo<I, O>(n: Node?<I, O>, arena: seq<Node<I, O>>, q: int) {
    if q < 0 then n == null else q < |arena| && n == arena[q]
  }

  /** The nodes, listed by position, carry exactly the pointers `P`. */
  ghost predicate Mirrors<I, O>(arena: seq<Node<I, O>>, P: Links)
    reads arena
  {
    && InRange(P) && |P.next| == |arena|
    && (forall i :: 0 <= i < |arena| ==> arena[i].pos == i)
    && (forall i :: 0 <= i < |arena| ==> PointsTo(arena[i].next, arena, P.next[i]))
    && (forall i :: 0 <= i < |arena| ==> PointsTo(arena[i].prev, arena, P.prev[i]))
  }

  ghost predicate At<I, O>(arena: seq<Node<I, O>>, n: Node<I, O>) {
    n.pos < |arena| && arena[n.pos] == n
  }

  method Bypass<I, O>(n: Node<I, O>, ghost arena: seq<Node<I, O>>, ghost P: Links)
    requires Mirrors(arena, P) && At(arena, n) && P.prev[n.pos] >= 0
    modifies arena
    ensures Mirrors(arena, Remove(P, n.pos))
  {
    n.prev.next := n.next;
    if n.next != null {
      n.next.prev := n.prev;
    }
  }

  method Restore<I, O>(n: Node<I, O>, ghost arena: seq<Node<I, O>>, ghost P: Links)
    requires Mirrors(arena, P) && At(arena, n) && 0 <= P.prev[n.pos] != n.pos
    modifies arena
    ensures Mirrors(arena, Insert(P, n.pos))
  {
    n.prev.next := n;
    if n.next != null {
      n.next.prev := n;
    }
  }

  method Lift<I, O>(entry: Node<I, O>, ghost arena: seq<Node<I, O>>, ghost P: Links, ghost D: set<nat>)
    requires Mirrors(arena, P) && Threads(P, D)
    requires At(arena, entry) && entry.mate != null && At(arena, entry.mate)
    requires entry.pos in D && entry.mate.pos in D && 0 < entry.pos < entry.mate.pos
    modifies arena
    ensures Mirrors(arena, Lifted(P, D, entry.pos, entry.mate.pos))
  {
    RemoveThreads(P, D, entry.pos);
    RemoveThreads(Remove(P, entry.pos), D - {entry.pos}, entry.mate.pos);
    Bypass(entry, arena, P);
    Bypass(entry.mate, arena, Remove(P, entry.pos));
  }

  /** Undoes the matching `Lift`, whether or not the call and its return were neighbours. */
  method Unlift<I, O>(entry: Node<I, O>, ghost arena: seq<Node<I, O>>, ghost P: Links, ghost D: set<nat>)
    requires Threads(P, D)
    requires At(arena, entry) && entry.mate != null && At(arena, entry.mate)
    requires entry.pos in D && entry.mate.pos in D && 0 < entry.pos < entry.mate.pos
    requires Mirrors(arena, Lifted(P, D, entry.pos, entry.mate.pos))
    modifies arena
    ensures Mirrors(arena, P)
  {
    RemoveThreads(P, D, entry.pos);
    InsertUndoesRemove(P, D, entry.pos);
    InsertUndoesRemove(Remove(P, entry.pos), D - {entry.pos}, entry.mate.pos);
    Restore(entry.mate, arena, Lifted(P, D, entry.pos, entry.mate.pos));
    Restore(entry, arena, Remove(P, entry.pos));
  }
}
