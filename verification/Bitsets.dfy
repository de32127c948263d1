/** Sets of small numbers packed 64 to a word. */
module Bitsets {
  import opened Linearizability

  /** A 64-bit word, least significant bit first. */
  type Word = w: seq<bool> | |w| == 64 witness seq(64, _ => false)

  type Bitset = seq<Word>

  const ZERO: Word := seq(64, _ => false)

  function NewBitset(bits: nat): (b: Bitset)
    ensures bits <= 64 * |b| < bits + 64
    ensures Members(b) == {}
  {
    seq(bits / 64 + (if bits % 64 != 0 then 1 else 0), _ => ZERO)
  }

  function Get(b: Bitset, pos: nat): bool
    requires pos < 64 * |b|
  {
    b[pos / 64][pos % 64]
  }

  ghost function Members(b: Bitset): set<nat> {
    set pos | pos in Below(64 * |b|) && Get(b, pos)
  }

  function Set(b: Bitset, pos: nat): (r: Bitset)
    requires pos < 64 * |b|
    ensures |r| == |b|
    ensures Members(r) == Members(b) + {pos}
  {
    b[pos / 64 := b[pos / 64][pos % 64 := true]]
  }

  function Clear(b: Bitset, pos: nat): (r: Bitset)
    requires pos < 64 * |b|
    ensures |r| == |b|
    ensures Members(r) == Members(b) - {pos}
  {
    b[pos / 64 := b[pos / 64][pos % 64 := false]]
  }

  // In the arrays that hold them

  method Clone(a: array<Word>) returns (r: array<Word>)
    ensures fresh(r) && r[..] == a[..]
  {
    r := new Word[a.Length](i requires 0 <= i < a.Length reads a => a[i]);
  }

  method SetBit(a: array<Word>, pos: nat)
    requires pos < 64 * a.Length
    modifies a
    ensures a[..] == Set(old(a[..]), pos)
  {
    var major, minor := pos / 64, pos % 64;
    a[major] := a[major][minor := true];
  }

  method ClearBit(a: array<Word>, pos: nat)
    requires pos < 64 * a.Length
    modifies a
    ensures a[..] == Clear(old(a[..]), pos)
  {
    var major, minor := pos / 64, pos % 64;
    a[major] := a[major][minor := false];
  }

  lemma BitIsMember(b: Bitset, k: nat, i: nat)
    requires k < |b| && i < 64
    ensures b[k][i] <==> 64 * k + i in Members(b)
  {
    var pos := 64 * k + i;
    assert pos / 64 == k && pos % 64 == i;
    assert pos in Below(64 * |b|);
  }

  /** Two bitsets of one length hold the same set only if they are the same words. */
  lemma SameMembers(b: Bitset, c: Bitset)
    requires |b| == |c| && Members(b) == Members(c)
    ensures b == c
  {
    forall k | 0 <= k < |b| ensures b[k] == c[k] {
      forall i | 0 <= i < 64 ensures b[k][i] == c[k][i] {
        BitIsMember(b, k, i);
        BitIsMember(c, k, i);
      }
    }
  }

  // ------------------------------------------------------------------
  // The hash: all words and the number of members, combined by exclusive or

  function Xor(v: Word, w: Word): Word {
    seq(64, i requires 0 <= i < 64 => v[i] != w[i])
  }

  /** The low `k` binary digits of `n`. */
  function Digits(n: nat, k: nat): (d: seq<bool>)
    ensures |d| == k
  {
    if k == 0 then [] else [n % 2 == 1] + Digits(n / 2, k - 1)
  }

  function OnesCount(w: seq<bool>): nat {
    if w == [] then 0 else OnesCount(w[..|w| - 1]) + (if w[|w| - 1] then 1 else 0)
  }

  function PopCount(b: Bitset): nat {
    if b == [] then 0 else PopCount(b[..|b| - 1]) + OnesCount(b[|b| - 1])
  }

  function XorAll(seed: Word, b: Bitset): Word {
    if b == [] then seed else Xor(XorAll(seed, b[..|b| - 1]), b[|b| - 1])
  }

  function Hash(b: Bitset): Word {
    XorAll(Digits(PopCount(b), 64), b)
  }

  method ComputeHash(b: Bitset) returns (hash: Word)
    ensures hash == Hash(b)
  {
    var total := 0;
    for i := 0 to |b|
      invariant total == PopCount(b[..i])
    {
      assert b[..i + 1][..i] == b[..i];
      total := total + OnesCount(b[i]);
    }
    assert b[..|b|] == b;
    hash := Digits(total, 64);
    for i := 0 to |b|
      invariant hash == XorAll(Digits(total, 64), b[..i])
    {
      assert b[..i + 1][..i] == b[..i];
      hash := Xor(hash, b[i]);
    }
  }

  /** Comparing word by word decides equality of the sets. */
  method Equals(b: Bitset, c: Bitset) returns (r: bool)
    ensures r <==> |b| == |c| && Members(b) == Members(c)
  {
    if |b| != |c| {
      return false;
    }
    if Members(b) == Members(c) {
      SameMembers(b, c);
    }
    for i := 0 to |b|
      invariant b[..i] == c[..i]
    {
      if b[i] != c[i] {
        return false;
      }
    }
    return true;
  }
}
