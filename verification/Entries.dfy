/** Histories as lists of call and return entries, and the linked list built from one. */
module Entries {
  import opened Linearizability
  import opened LinkedHistory

  datatype Entry<I, O> =
    | CallEntry(input: I, id: nat, time: int)
    | ReturnEntry(output: O, id: nat, time: int)

  ghost predicate HasPair<I, O>(h: seq<Entry<I, O>>, id: nat) {
    exists p, q :: 0 <= p < q < |h| && h[p].id == id && h[q].id == id
  }

  /** A complete history: ids 0, 1, ... up to half the length, each with one
      call and, later, one return. */
  ghost predicate WellFormed<I, O>(h: seq<Entry<I, O>>) {
    && |h| % 2 == 0
    && (forall p :: 0 <= p < |h| ==> h[p].id < |h| / 2)
    && (forall p, q :: 0 <= p < q < |h| && h[p].id == h[q].id ==> h[p].CallEntry? && h[q].ReturnEntry?)
    && (forall id: nat :: id < |h| / 2 ==> HasPair(h, id))
  }

  ghost function CallAt<I, O>(h: seq<Entry<I, O>>, id: nat): (p: nat)
    requires WellFormed(h) && id < |h| / 2
    ensures p < |h| && h[p].CallEntry? && h[p].id == id
  {
    assert HasPair(h, id);
    var p, q :| 0 <= p < q < |h| && h[p].id == id && h[q].id == id;
    p
  }

  ghost function ReturnAt<I, O>(h: seq<Entry<I, O>>, id: nat): (q: nat)
    requires WellFormed(h) && id < |h| / 2
    ensures CallAt(h, id) < q < |h| && h[q].ReturnEntry? && h[q].id == id
  {
    assert HasPair(h, id);
    var p, q :| 0 <= p < q < |h| && h[p].id == id && h[q].id == id;
    q
  }

  /** The operations of a history, timed by their positions in the linked list. */
  ghost function Operations<I, O>(h: seq<Entry<I, O>>): (ops: seq<Operation<I, O>>)
    requires WellFormed(h)
    ensures Describes(h, ops)
  {
    OperationsDescribe(h);
    seq(|h| / 2, id requires 0 <= id < |h| / 2 => OperationAt(h, id))
  }

  ghost function OperationAt<I, O>(h: seq<Entry<I, O>>, id: nat): Operation<I, O>
    requires WellFormed(h) && id < |h| / 2
  {
    Operation(h[CallAt(h, id)].input, CallAt(h, id) + 1, h[ReturnAt(h, id)].output, ReturnAt(h, id) + 1)
  }

  lemma OnlyPlace<I, O>(h: seq<Entry<I, O>>, p: nat)
    requires WellFormed(h) && p < |h|
    ensures h[p].id < |h| / 2
    ensures h[p].CallEntry? ==> CallAt(h, h[p].id) == p
    ensures h[p].ReturnEntry? ==> ReturnAt(h, h[p].id) == p
  {
    var c, r := CallAt(h, h[p].id), ReturnAt(h, h[p].id);
    assert h[c].id == h[r].id == h[p].id;
  }

  lemma OperationsDescribe<I, O>(h: seq<Entry<I, O>>)
    requires WellFormed(h)
    ensures Describes(h, seq(|h| / 2, id requires 0 <= id < |h| / 2 => OperationAt(h, id)))
  {
    var ops := seq(|h| / 2, id requires 0 <= id < |h| / 2 => OperationAt(h, id));
    assert |h| % 2 == 0;
    hide WellFormed, CallAt, ReturnAt;
    forall id | 0 <= id < |ops| ensures OperationOk(h, ops[id], id) {
    }
    hide OperationOk;
    forall p | 0 <= p < |h| ensures PlaceOk(h, ops, p) {
      OnlyPlace(h, p);
    }
    hide PlaceOk;
  }

  ghost predicate OperationOk<I, O>(h: seq<Entry<I, O>>, op: Operation<I, O>, id: nat) {
    && 1 <= op.call < op.ret <= |h|
    && h[op.call - 1].CallEntry? && h[op.call - 1].input == op.input
    && h[op.ret - 1].ReturnEntry? && h[op.ret - 1].output == op.output
    && h[op.call - 1].id == h[op.ret - 1].id == id
  }

  ghost predicate PlaceOk<I, O>(h: seq<Entry<I, O>>, ops: seq<Operation<I, O>>, p: nat)
    requires p < |h|
  {
    h[p].id < |ops| && p + 1 == if h[p].CallEntry? then ops[h[p].id].call else ops[h[p].id].ret
  }

  ghost predicate Describes<I, O>(h: seq<Entry<I, O>>, ops: seq<Operation<I, O>>) {
    && |h| == 2 * |ops|
    && (forall id {:trigger ops[id]} :: 0 <= id < |ops| ==> OperationOk(h, ops[id], id))
    && (forall p {:trigger h[p]} :: 0 <= p < |h| ==> PlaceOk(h, ops, p))
  }

  // ------------------------------------------------------------------
  // Building the list

  ghost predicate Represents<I, O>(n: Node<I, O>, e: Entry<I, O>, pos: nat,
                                   ops: seq<Operation<I, O>>, nodes: seq<Node<I, O>>, offset: nat)
  {
    && n.pos == pos
    && n.id == e.id
    && (e.ReturnEntry? ==> n.value == Output(e.output) && n.mate == null)
    && (e.CallEntry? ==> n.value == Input(e.input) && e.id < |ops|
                         && offset < ops[e.id].ret <= offset + |nodes|
                         && n.mate == nodes[ops[e.id].ret - 1 - offset])
  }

  ghost predicate Chained<I, O>(nodes: seq<Node<I, O>>)
    reads nodes
  {
    && (nodes != [] ==> nodes[0].prev == null && nodes[|nodes| - 1].next == null)
    && (forall k {:trigger nodes[k].next} :: 0 <= k < |nodes| - 1 ==> nodes[k].next == nodes[k + 1])
    && (forall k {:trigger nodes[k].prev} :: 0 < k < |nodes| ==> nodes[k].prev == nodes[k - 1])
  }

  method InsertBefore<I, O>(n: Node<I, O>, mark: Node?<I, O>) returns (r: Node<I, O>)
    requires n != mark
    requires mark != null ==> mark.prev != n && mark.prev != mark
    modifies n, if mark == null then {} else if mark.prev == null then {mark} else {mark, mark.prev}
    ensures r == n
    ensures mark == null ==> n.next == old(n.next) && n.prev == old(n.prev)
    ensures mark != null ==> n.next == mark && mark.prev == n && mark.next == old(mark.next)
    ensures mark != null && old(mark.prev) == null ==> n.prev == old(n.prev)
    ensures mark != null && old(mark.prev) != null ==> n.prev == old(mark.prev) && old(mark.prev).next == n
  {
    if mark != null {
      var beforeMark := mark.prev;
      mark.prev := n;
      n.next := mark;
      if beforeMark != null {
        n.prev := beforeMark;
        beforeMark.next := n;
      }
    }
    return n;
  }

  /** Nodes for the entries from position `i` on, each call with its return as mate. */
  ghost predicate Suffix<I, O>(entries: seq<Entry<I, O>>, ops: seq<Operation<I, O>>, nodes: seq<Node<I, O>>, i: nat) {
    && i + |nodes| == |entries|
    && forall p :: i <= p < |entries| ==> Represents(nodes[p - i], entries[p], p + 1, ops, nodes, i)
  }

  lemma ExtendSuffix<I, O>(entries: seq<Entry<I, O>>, ops: seq<Operation<I, O>>,
                           n: Node<I, O>, nodes: seq<Node<I, O>>, i: nat)
    requires Suffix(entries, ops, nodes, i + 1)
    requires Represents(n, entries[i], i + 1, ops, [n] + nodes, i)
    ensures Suffix(entries, ops, [n] + nodes, i)
  {
    forall p | i <= p < |entries| ensures Represents(([n] + nodes)[p - i], entries[p], p + 1, ops, [n] + nodes, i) {
      if p > i {
        assert Represents(nodes[p - (i + 1)], entries[p], p + 1, ops, nodes, i + 1);
      }
    }
  }

  method Prepend<I, O>(n: Node<I, O>, root: Node?<I, O>, ghost nodes: seq<Node<I, O>>)
    requires Chained(nodes) && n !in nodes && n.next == null && n.prev == null
    requires root == if nodes == [] then null else nodes[0]
    requires forall k :: 0 < k < |nodes| ==> nodes[k] != nodes[0]
    modifies n, nodes
    ensures Chained([n] + nodes)
  {
    var _ := InsertBefore(n, root);
  }

  /** `mates` holds the node of every return from position `i` on. */
  ghost predicate Mated<I, O>(entries: seq<Entry<I, O>>, nodes: seq<Node<I, O>>, mates: map<nat, Node<I, O>>, i: nat) {
    && i + |nodes| == |entries|
    && forall p :: i <= p < |entries| && entries[p].ReturnEntry? ==>
         entries[p].id in mates && mates[entries[p].id] == nodes[p - i]
  }

  method MakeNode<I, O>(entries: seq<Entry<I, O>>, mates: map<nat, Node<I, O>>, i: nat,
                        ghost ops: seq<Operation<I, O>>, ghost nodes: seq<Node<I, O>>)
    returns (n: Node<I, O>, mates': map<nat, Node<I, O>>)
    requires Describes(entries, ops) && Mated(entries, nodes, mates, i + 1)
    ensures fresh(n) && n.next == null && n.prev == null
    ensures Represents(n, entries[i], i + 1, ops, [n] + nodes, i)
    ensures Mated(entries, [n] + nodes, mates', i)
  {
    var elem := entries[i];
    if elem.ReturnEntry? {
      n := new Node(Output(elem.output), null, elem.id, i + 1);
      mates' := mates[elem.id := n];
    } else {
      assert entries[ops[elem.id].ret - 1].id == elem.id;
      n := new Node(Input(elem.input), if elem.id in mates then mates[elem.id] else null, elem.id, i + 1);
      mates' := mates;
    }
  }

  method AddEntry<I, O>(entries: seq<Entry<I, O>>, root: Node?<I, O>, mates: map<nat, Node<I, O>>, i: nat,
                        ghost ops: seq<Operation<I, O>>, ghost nodes: seq<Node<I, O>>)
    returns (n: Node<I, O>, mates': map<nat, Node<I, O>>)
    requires Describes(entries, ops)
    requires root == if nodes == [] then null else nodes[0]
    requires Chained(nodes) && Suffix(entries, ops, nodes, i + 1) && Mated(entries, nodes, mates, i + 1)
    modifies nodes
    ensures fresh(n)
    ensures Chained([n] + nodes) && Suffix(entries, ops, [n] + nodes, i) && Mated(entries, [n] + nodes, mates', i)
  {
    n, mates' := MakeNode(entries, mates, i, ops, nodes);
    ExtendSuffix(entries, ops, n, nodes, i);
    Prepend(n, root, nodes);
  }

  method MakeLinkedEntries<I, O>(entries: seq<Entry<I, O>>, ghost ops: seq<Operation<I, O>>)
    returns (root: Node?<I, O>, ghost nodes: seq<Node<I, O>>)
    requires Describes(entries, ops)
    ensures fresh(nodes)
    ensures root == if nodes == [] then null else nodes[0]
    ensures Chained(nodes)
    ensures Suffix(entries, ops, nodes, 0)
  {
    root, nodes := null, [];
    var mates: map<nat, Node<I, O>> := map[];
    var i := |entries|;
    while i > 0
      invariant 0 <= i <= |entries|
      invariant fresh(nodes)
      invariant root == if nodes == [] then null else nodes[0]
      invariant Chained(nodes)
      invariant Suffix(entries, ops, nodes, i)
      invariant Mated(entries, nodes, mates, i)
    {
      i := i - 1;
      root, mates := AddEntry(entries, root, mates, i, ops, nodes);
      nodes := [root] + nodes;
    }
  }
}
