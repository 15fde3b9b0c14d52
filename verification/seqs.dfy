/** Small sequence vocabulary shared by the wizard's activity list and the
    Hub's file filter: order-preserving subsequences, duplicate-freedom, and
    the "remove every occurrence" filter of `Array.prototype.filter`. */
module Seqs {

  /** `a` can be obtained from `b` by deleting elements, keeping the order. */
  predicate IsSubsequence<T(==)>(a: seq<T>, b: seq<T>)
    decreases |b|
  {
    if |a| == 0 then true
    else if |b| == 0 then false
    else (a[0] == b[0] && IsSubsequence(a[1..], b[1..])) || IsSubsequence(a, b[1..])
  }

  /** No element occurs twice. */
  predicate NoDuplicates<T(==)>(s: seq<T>) {
    forall i, j :: 0 <= i < j < |s| ==> s[i] != s[j]
  }

  /** A subsequence is never longer than the sequence it was taken from. */
  lemma {:induction false} SubsequenceLength<T>(a: seq<T>, b: seq<T>)
    requires IsSubsequence(a, b)
    ensures |a| <= |b|
    decreases |b|
  {
    if |a| > 0 {
      if a[0] == b[0] && IsSubsequence(a[1..], b[1..]) {
        SubsequenceLength(a[1..], b[1..]);
      } else {
        SubsequenceLength(a, b[1..]);
      }
    }
  }

  /** Appending an element not yet present keeps the elements distinct. */
  lemma AppendFreshKeepsNoDuplicates<T>(s: seq<T>, x: T)
    requires NoDuplicates(s) && x !in s
    ensures NoDuplicates(s + [x])
  {
    var r := s + [x];
    forall i, j | 0 <= i < j < |r|
      ensures r[i] != r[j]
    {
      if j == |s| {
        assert r[i] == s[i];
      }
    }
  }

  /** `s` with every occurrence of `x` removed and every copy of anything
      else kept, in order (the source's `list.filter(a => a !== x)`). */
  function RemoveAll<T(==,!new)>(s: seq<T>, x: T): (r: seq<T>)
    ensures forall y :: y in r <==> y in s && y != x
    ensures forall y :: multiset(r)[y] == if y == x then 0 else multiset(s)[y]
    ensures IsSubsequence(r, s)
    ensures x !in s ==> r == s
    ensures NoDuplicates(s) ==> NoDuplicates(r)
    decreases |s|
  {
    if |s| == 0 then []
    else if s[0] == x then
      assert s == [s[0]] + s[1..];
      RemoveAll(s[1..], x)
    else
      var rest := RemoveAll(s[1..], x);
      assert s == [s[0]] + s[1..];
      assert ([s[0]] + rest)[1..] == rest;
      assert NoDuplicates(s) ==> s[0] !in s[1..];
      [s[0]] + rest
  }
}
