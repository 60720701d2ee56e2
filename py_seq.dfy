/**
 The three Python list primitives that the macro profile generator is built
 from, with Python's semantics: `range(n)`, a list comprehension
 `[f(x) for x in xs]`, and the prefix slice `xs[:n]`.
 */
module PySeq {

  /** Python's `range(n)`: the integers 0, 1, ..., n - 1; empty when n <= 0. */
  function Range(n: int): (r: seq<int>)
    ensures |r| == if n > 0 then n else 0
    ensures forall k :: 0 <= k < |r| ==> r[k] == k
  {
    if n <= 0 then [] else Range(n - 1) + [n - 1]
  }

  /**
   The list comprehension `[f(x) for x in xs]`: Python walks `xs` from the left
   and appends `f(x)` for each element.
   */
  function Comprehension<T, U>(f: T -> U, xs: seq<T>): (r: seq<U>)
    ensures |r| == |xs|
    ensures forall k :: 0 <= k < |xs| ==> r[k] == f(xs[k])
  {
    if xs == [] then [] else Comprehension(f, xs[..|xs| - 1]) + [f(xs[|xs| - 1])]
  }

  /**
   The slice `s[:n]`. A non-negative bound past the end keeps the whole list;
   a negative bound counts from the end and never goes below empty.
   */
  function Prefix<T>(s: seq<T>, n: int): (r: seq<T>)
    ensures r <= s
    ensures 0 <= n <= |s| ==> |r| == n
    ensures |s| <= n ==> r == s
    ensures n < 0 ==> |r| == if |s| + n > 0 then |s| + n else 0
  {
    if n >= 0 then
      s[..if n <= |s| then n else |s|]
    else
      s[..if |s| + n > 0 then |s| + n else 0]
  }

  /** Slicing a list that already holds exactly `max(n, 0)` elements to `[:n]` changes nothing. */
  lemma PrefixOfExactLength<T>(s: seq<T>, n: int)
    requires |s| == if n > 0 then n else 0
    ensures Prefix(s, n) == s
  {
  }

  /**
   A comprehension over `range(n)` followed by `[:n]` is just the comprehension:
   the slice is a no-op.
   */
  lemma RangeComprehensionPrefix<U>(f: int -> U, n: int)
    ensures Prefix(Comprehension(f, Range(n)), n) == Comprehension(f, Range(n))
  {
    PrefixOfExactLength(Comprehension(f, Range(n)), n);
  }
}
