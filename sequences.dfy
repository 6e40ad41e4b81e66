/** Sequence relations and the optional value shared by several parts of the model. */
module Sequences {
  /** A value that may be absent (a null pointer, a failed lookup). */
  datatype Option<T> = None | Some(value: T)

  /** r is s with some elements left out, the rest in their order. */
  predicate IsSubsequence<T(==)>(r: seq<T>, s: seq<T>)
  {
    r == [] || (s != [] && ((r[0] == s[0] && IsSubsequence(r[1..], s[1..])) || IsSubsequence(r, s[1..])))
  }

  /** An order in which an unordered map may be iterated: each key exactly once. */
  predicate IsIterationOrder<K, V>(order: seq<K>, m: map<K, V>)
  {
    (forall k | k in order :: k in m)
    && (forall k | k in m :: k in order)
    && (forall i, j :: 0 <= i < j < |order| ==> order[i] != order[j])
  }

  /** Elements appended to the longer sequence can be skipped. */
  lemma {:induction false} SubsequenceAppendRight<T>(r: seq<T>, s: seq<T>, t: seq<T>)
    requires IsSubsequence(r, s)
    ensures IsSubsequence(r, s + t)
  {
    if r != [] {
      assert (s + t)[1..] == s[1..] + t;
      if r[0] == s[0] && IsSubsequence(r[1..], s[1..]) {
        SubsequenceAppendRight(r[1..], s[1..], t);
      } else {
        SubsequenceAppendRight(r, s[1..], t);
      }
    }
  }

  /** Elements prepended to the longer sequence can be skipped. */
  lemma {:induction false} SubsequencePrependLeft<T>(r: seq<T>, s: seq<T>, t: seq<T>)
    requires IsSubsequence(r, t)
    ensures IsSubsequence(r, s + t)
  {
    if s == [] {
      assert s + t == t;
    } else if r != [] {
      assert (s + t)[1..] == s[1..] + t;
      SubsequencePrependLeft(r, s[1..], t);
      assert IsSubsequence(r, (s + t)[1..]);
    }
  }

  /** An element appended to both sides keeps the relation. */
  lemma {:induction false} SubsequenceSnoc<T>(r: seq<T>, s: seq<T>, x: T)
    requires IsSubsequence(r, s)
    ensures IsSubsequence(r + [x], s + [x])
  {
    if r == [] {
      assert IsSubsequence([x], [x]) by { assert [x][1..] == []; }
      SubsequencePrependLeft([x], s, [x]);
      assert r + [x] == [x];
    } else {
      assert (s + [x])[1..] == s[1..] + [x];
      assert (r + [x])[1..] == r[1..] + [x];
      if r[0] == s[0] && IsSubsequence(r[1..], s[1..]) {
        SubsequenceSnoc(r[1..], s[1..], x);
      } else {
        SubsequenceSnoc(r, s[1..], x);
      }
    }
  }

  /** A prefix of a subsequence is a subsequence. */
  lemma {:induction false} SubsequencePrefix<T>(r: seq<T>, s: seq<T>, k: nat)
    requires IsSubsequence(r, s) && k <= |r|
    ensures IsSubsequence(r[..k], s)
  {
    if k > 0 {
      assert r[..k][1..] == r[1..][..k - 1];
      if r[0] == s[0] && IsSubsequence(r[1..], s[1..]) {
        SubsequencePrefix(r[1..], s[1..], k - 1);
      } else {
        SubsequencePrefix(r, s[1..], k);
      }
    }
  }
}
