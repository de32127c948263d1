/** The commit rule's arithmetic: the middle of the sorted match indexes is the
    greatest index that a strict majority holds. */
module CommitIndex {
  import opened RaftAbstract

  ghost predicate Ascending(s: seq<int>) {
    forall i, j :: 0 <= i < j < |s| ==> s[i] <= s[j]
  }

  /** How many elements are at least `v`. */
  ghost function Count(s: seq<int>, v: int): nat {
    if s == [] then 0 else Count(s[..|s| - 1], v) + (if s[|s| - 1] >= v then 1 else 0)
  }

  ghost function Holders(s: seq<int>, v: int): set<nat> {
    set p | p in Peers(|s|) && s[p] >= v
  }

  lemma {:induction false} HoldersCount(s: seq<int>, v: int)
    ensures |Holders(s, v)| == Count(s, v)
  {
    if s == [] {
      assert Holders(s, v) == {};
    } else {
      var k := |s| - 1;
      HoldersCount(s[..k], v);
      assert Holders(s, v) == Holders(s[..k], v) + (if s[k] >= v then {k} else {});
    }
  }

  ghost function Without(s: seq<int>, j: nat): seq<int>
    requires j < |s|
  {
    s[..j] + s[j + 1..]
  }

  lemma WithoutMultiset(s: seq<int>, j: nat)
    requires j < |s|
    ensures multiset(Without(s, j)) == multiset(s) - multiset{s[j]}
  {
    assert s == s[..j] + [s[j]] + s[j + 1..];
  }

  lemma {:induction false} CountOfMultiset(s: seq<int>, r: seq<int>, v: int)
    requires multiset(s) == multiset(r)
    ensures Count(s, v) == Count(r, v)
    decreases |s|
  {
    assert |s| == |multiset(s)| == |multiset(r)| == |r|;
    if s != [] {
      var k := |s| - 1;
      assert s[k] in multiset(r);
      var j :| 0 <= j < |r| && r[j] == s[k];
      WithoutMultiset(s, k);
      WithoutMultiset(r, j);
      CountRemove(s, k, v);
      CountRemove(r, j, v);
      hide Count, Without;
      CountOfMultiset(Without(s, k), Without(r, j), v) by {
        assert |Without(s, k)| < |s| by {
          assert |multiset(Without(s, k))| == |multiset(s)| - 1;
        }
      }
    }
  }

  lemma {:induction false} CountRemove(r: seq<int>, j: nat, v: int)
    requires j < |r|
    ensures Count(r, v) == Count(Without(r, j), v) + (if r[j] >= v then 1 else 0)
    decreases |r|
  {
    var k := |r| - 1;
    if j == k {
      assert Without(r, j) == r[..k];
    } else {
      CountRemove(r[..k], j, v);
      var rest := Without(r, j);
      assert rest[..|rest| - 1] == Without(r[..k], j);
      assert rest[|rest| - 1] == r[k];
    }
  }

  lemma {:induction false} CountAscending(s: seq<int>, j: nat, v: int)
    requires Ascending(s) && j < |s|
    ensures v <= s[j] ==> Count(s, v) >= |s| - j
    ensures v > s[j] ==> Count(s, v) <= |s| - 1 - j
    decreases |s|
  {
    var k := |s| - 1;
    if j < k {
      CountAscending(s[..k], j, v);
    } else if v > s[j] {
      CountNone(s[..k], v);
    }
  }

  lemma {:induction false} CountNone(s: seq<int>, v: int)
    requires forall i :: 0 <= i < |s| ==> s[i] < v
    ensures Count(s, v) == 0
  {
    if s != [] {
      CountNone(s[..|s| - 1], v);
    }
  }

  // ------------------------------------------------------------------

  /** `r` is held by a majority of the peers, and nothing greater is. */
  ghost predicate IsMajorityIndex(held: seq<int>, r: int) {
    && Quorum(|held|, Holders(held, r))
    && forall v :: v > r ==> !Quorum(|held|, Holders(held, v))
  }

  lemma MajorityIndexUnique(held: seq<int>, r: int, s: int)
    requires IsMajorityIndex(held, r) && IsMajorityIndex(held, s)
    ensures r == s
  {
  }

  /** The middle element of any sorted arrangement is the majority index. */
  lemma MiddleIsMajority(held: seq<int>, sorted: seq<int>)
    requires |held| > 0 && multiset(sorted) == multiset(held) && Ascending(sorted)
    ensures |sorted| == |held| && IsMajorityIndex(held, sorted[(|held| - 1) / 2])
  {
    assert |sorted| == |multiset(sorted)| == |held|;
    var j := (|held| - 1) / 2;
    forall v: int ensures |Holders(held, v)| == Count(sorted, v) {
      HoldersCount(held, v);
      CountOfMultiset(sorted, held, v);
    }
    forall v: int
      ensures v <= sorted[j] ==> Quorum(|held|, Holders(held, v))
      ensures v > sorted[j] ==> !Quorum(|held|, Holders(held, v))
    {
      CountAscending(sorted, j, v);
    }
  }

  // ------------------------------------------------------------------

  function Insert(s: seq<int>, x: int): (r: seq<int>)
    ensures multiset(r) == multiset(s) + multiset{x}
  {
    if s == [] || s[|s| - 1] <= x then s + [x]
    else
      var k := |s| - 1;
      assert s == s[..k] + [s[k]];
      Insert(s[..k], x) + [s[k]]
  }

  function Sort(s: seq<int>): (r: seq<int>)
    ensures multiset(r) == multiset(s)
  {
    if s == [] then []
    else
      var k := |s| - 1;
      assert s == s[..k] + [s[k]];
      Insert(Sort(s[..k]), s[k])
  }

  lemma {:induction false} InsertAscending(s: seq<int>, x: int)
    requires Ascending(s)
    ensures Ascending(Insert(s, x))
  {
    if s != [] && s[|s| - 1] > x {
      var k := |s| - 1;
      InsertAscending(s[..k], x);
      InsertAtMost(s[..k], x, s[k]);
    }
  }

  lemma {:induction false} InsertAtMost(s: seq<int>, x: int, b: int)
    requires x <= b && forall i :: 0 <= i < |s| ==> s[i] <= b
    ensures forall i :: 0 <= i < |Insert(s, x)| ==> Insert(s, x)[i] <= b
  {
    if s != [] && s[|s| - 1] > x {
      InsertAtMost(s[..|s| - 1], x, b);
    }
  }

  lemma {:induction false} SortAscending(s: seq<int>)
    ensures Ascending(Sort(s))
  {
    if s != [] {
      SortAscending(s[..|s| - 1]);
      InsertAscending(Sort(s[..|s| - 1]), s[|s| - 1]);
    }
  }

  function MajorityIndex(held: seq<int>): (r: int)
    requires |held| > 0
    ensures IsMajorityIndex(held, r)
  {
    SortAscending(held);
    MiddleIsMajority(held, Sort(held));
    Sort(held)[(|held| - 1) / 2]
  }

  // ------------------------------------------------------------------
  // The same, by exchanges in an array

  ghost predicate FirstIsLeast(s: seq<int>, i: nat, j: nat)
    requires i < j <= |s|
  {
    forall k :: i < k < j ==> s[i] <= s[k]
  }

  ghost predicate SortedUpTo(s: seq<int>, i: nat)
    requires i <= |s|
  {
    forall a, b :: 0 <= a < i && a < b < |s| ==> s[a] <= s[b]
  }

  method Exchange(a: array<int>, i: nat, j: nat)
    requires i < j < a.Length
    requires SortedUpTo(a[..], i) && FirstIsLeast(a[..], i, j)
    modifies a
    ensures multiset(a[..]) == old(multiset(a[..]))
    ensures SortedUpTo(a[..], i) && FirstIsLeast(a[..], i, j + 1)
  {
    if a[i] > a[j] {
      ghost var s := a[..];
      a[i], a[j] := a[j], a[i];
      assert a[..] == s[i := s[j]][j := s[i]];
    }
  }

  /** Copies the match indexes, sorts the copy in place and picks the middle. */
  method ComputeMajorityIndex(held: seq<int>) returns (r: int)
    requires |held| > 0
    ensures r == MajorityIndex(held)
  {
    var n := |held|;
    var a := new int[n](p requires 0 <= p < n => held[p]);
    assert a[..] == held;
    var i := 0;
    while i < n - 1
      invariant 0 <= i <= n - 1
      invariant multiset(a[..]) == multiset(held) && SortedUpTo(a[..], i)
    {
      var j := i + 1;
      while j < n
        invariant i < j <= n
        invariant multiset(a[..]) == multiset(held) && SortedUpTo(a[..], i) && FirstIsLeast(a[..], i, j)
      {
        Exchange(a, i, j);
        j := j + 1;
      }
      i := i + 1;
    }
    MiddleIsMajority(held, a[..]);
    MajorityIndexUnique(held, a[(n - 1) / 2], MajorityIndex(held));
    return a[(n - 1) / 2];
  }

  /** The majority that holds the commit index shares a peer with the majority behind any vote. */
  lemma CommitMeetsVotes(held: seq<int>, voters: set<nat>) returns (p: nat)
    requires |held| > 0 && Quorum(|held|, voters)
    ensures p in voters && p < |held| && held[p] >= MajorityIndex(held)
  {
    p := QuorumsMeet(|held|, Holders(held, MajorityIndex(held)), voters);
  }
}
