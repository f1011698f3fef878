/** Sequence helpers shared by the models: distinct elements, the last `n`
    elements (`array.slice(-n)`), removal of one value, and lookups in a
    map that fall back to an empty list (`map.get(k) || []`). */
module Seqs {

  datatype Option<T> = None | Some(value: T)

  function Min(a: int, b: int): int
  {
    if a <= b then a else b
  }

  function Max(a: int, b: int): int
  {
    if a >= b then a else b
  }

  predicate NoDups<T(==)>(s: seq<T>)
  {
    forall i, j :: 0 <= i < j < |s| ==> s[i] != s[j]
  }

  /** A sequence without repeats has as many distinct elements as entries. */
  lemma {:induction false} NoDupsCard<T>(s: seq<T>)
    requires NoDups(s)
    ensures |set x | x in s| == |s|
  {
    if |s| > 0 {
      var t := s[..|s| - 1];
      assert NoDups(t);
      NoDupsCard(t);
      assert (set x | x in s) == (set x | x in t) + {s[|s| - 1]};
      assert s[|s| - 1] !in t;
    }
  }

  /** An element of a non-empty sequence is its last element or an
      element of the rest. */
  lemma LastOrInit<T>(s: seq<T>, x: T)
    requires x in s
    ensures x == s[|s| - 1] || x in s[..|s| - 1]
  {
    var k :| 0 <= k < |s| && s[k] == x;
    if k < |s| - 1 {
      assert s[..|s| - 1][k] == x;
    }
  }

  /** `s.slice(-n)` for n > 0: the last min(n, |s|) elements, in order. */
  function Last<T>(s: seq<T>, n: nat): (r: seq<T>)
    ensures |r| == Min(n, |s|)
    ensures s == s[..|s| - |r|] + r
  {
    s[|s| - Min(n, |s|)..]
  }

  /** `a` is `b` with some entries left out and the rest in their order. */
  predicate IsSubseq<T(==)>(a: seq<T>, b: seq<T>)
    decreases |b|
  {
    || |a| == 0
    || (&& |b| > 0
        && (|| (a[|a| - 1] == b[|b| - 1] && IsSubseq(a[..|a| - 1], b[..|b| - 1]))
            || IsSubseq(a, b[..|b| - 1])))
  }

  /** A common first entry keeps a subsequence a subsequence. */
  lemma {:induction false} SubseqConsBoth<T>(a: seq<T>, b: seq<T>, x: T)
    requires IsSubseq(a, b)
    ensures IsSubseq([x] + a, [x] + b)
    decreases |b|
  {
    var xa, xb := [x] + a, [x] + b;
    if |b| == 0 {
      assert |a| == 0 && xa == xb == [x];
      assert IsSubseq(xa[..0], xb[..0]);
    } else if |a| == 0 {
      assert IsSubseq(a, b[..|b| - 1]);
      SubseqConsBoth(a, b[..|b| - 1], x);
      assert xb[..|xb| - 1] == [x] + b[..|b| - 1];
    } else {
      assert xa[..|xa| - 1] == [x] + a[..|a| - 1] && xa[|xa| - 1] == a[|a| - 1];
      assert xb[..|xb| - 1] == [x] + b[..|b| - 1] && xb[|xb| - 1] == b[|b| - 1];
      if a[|a| - 1] == b[|b| - 1] && IsSubseq(a[..|a| - 1], b[..|b| - 1]) {
        SubseqConsBoth(a[..|a| - 1], b[..|b| - 1], x);
      } else {
        SubseqConsBoth(a, b[..|b| - 1], x);
      }
    }
  }

  /** An extra first entry of the longer sequence changes nothing. */
  lemma {:induction false} SubseqConsRight<T>(a: seq<T>, b: seq<T>, x: T)
    requires IsSubseq(a, b)
    ensures IsSubseq(a, [x] + b)
    decreases |b|
  {
    var xb := [x] + b;
    if |a| > 0 {
      assert xb[..|xb| - 1] == [x] + b[..|b| - 1] && xb[|xb| - 1] == b[|b| - 1];
      if a[|a| - 1] == b[|b| - 1] && IsSubseq(a[..|a| - 1], b[..|b| - 1]) {
        SubseqConsRight(a[..|a| - 1], b[..|b| - 1], x);
      } else {
        SubseqConsRight(a, b[..|b| - 1], x);
      }
    }
  }

  /** `s.slice(0, n)`. */
  function Take<T>(s: seq<T>, n: nat): (r: seq<T>)
    ensures |r| == Min(n, |s|)
    ensures r == s[..|r|]
  {
    s[..Min(n, |s|)]
  }

  /** The sequence with every occurrence of `x` removed. */
  function Remove<T(==,!new)>(s: seq<T>, x: T): (r: seq<T>)
    ensures forall y :: y in r <==> y in s && y != x
    ensures |r| <= |s|
    ensures x !in s ==> r == s
  {
    if |s| == 0 then []
    else (if s[0] == x then [] else [s[0]]) + Remove(s[1..], x)
  }

  /** In a repeat-free sequence that holds `x`, removal cuts out exactly
      the one entry `x` and keeps the others in their order. */
  lemma {:induction false} RemoveAt<T(!new)>(s: seq<T>, x: T) returns (k: nat)
    requires NoDups(s) && x in s
    ensures k < |s| && s[k] == x && Remove(s, x) == s[..k] + s[k + 1..]
  {
    if s[0] == x {
      assert NoDups(s[1..]) && x !in s[1..];
      k := 0;
    } else {
      assert NoDups(s[1..]) && x in s[1..];
      var j := RemoveAt(s[1..], x);
      k := j + 1;
      assert s[..k] == [s[0]] + s[1..][..j];
      assert s[k + 1..] == s[1..][j + 1..];
    }
  }

  /** Removal keeps a repeat-free sequence repeat-free and is idempotent. */
  lemma {:induction false} RemoveNoDups<T(!new)>(s: seq<T>, x: T)
    requires NoDups(s)
    ensures NoDups(Remove(s, x))
    ensures Remove(Remove(s, x), x) == Remove(s, x)
  {
    if |s| > 0 {
      assert NoDups(s[1..]);
      RemoveNoDups(s[1..], x);
      assert s[0] !in s[1..];
    }
  }

  /** A map whose keys are exactly the entries of a repeat-free list has
      as many keys as the list has entries. */
  lemma KeysCount<K, V>(order: seq<K>, m: map<K, V>)
    requires NoDups(order) && forall k :: k in m <==> k in order
    ensures |m| == |order|
  {
    NoDupsCard(order);
    assert m.Keys == set k | k in order;
  }

  /** The entry stored under `k`, or the empty list when there is none. */
  function LookupOrEmpty<K, V>(m: map<K, seq<V>>, k: K): seq<V>
  {
    if k in m then m[k] else []
  }
}
