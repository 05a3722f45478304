/** Sequence helpers shared by the modules: order-preserving filter, ordered
    sub-list, JavaScript `slice(0, n)` and `slice(-n)`, counting. */
module Seqs {

  /** `sub` is an ordered sub-list of `s`: it is `s` with some elements dropped. */
  predicate IsSubsequence<T(==)>(sub: seq<T>, s: seq<T>)
    decreases |s|
  {
    if sub == [] then true
    else if s == [] then false
    else if sub[0] == s[0] then IsSubsequence(sub[1..], s[1..])
    else IsSubsequence(sub, s[1..])
  }

  /** JavaScript `Array.prototype.filter` with a total predicate. */
  function Filter<T(==)>(s: seq<T>, p: T -> bool): (r: seq<T>)
    ensures |r| <= |s|
    ensures forall i :: 0 <= i < |r| ==> r[i] in s && p(r[i])
    ensures forall i :: 0 <= i < |s| && p(s[i]) ==> s[i] in r
    decreases |s|
  {
    if s == [] then []
    else if p(s[0]) then [s[0]] + Filter(s[1..], p)
    else Filter(s[1..], p)
  }

  /** A filter that every element passes keeps the whole sequence. */
  lemma {:induction false} FilterKeepsAll<T>(s: seq<T>, p: T -> bool)
    requires forall i :: 0 <= i < |s| ==> p(s[i])
    ensures Filter(s, p) == s
    decreases |s|
  {
    if s != [] {
      FilterKeepsAll(s[1..], p);
      assert [s[0]] + s[1..] == s;
    }
  }

  lemma {:induction false} FilterIsSubsequence<T>(s: seq<T>, p: T -> bool)
    ensures IsSubsequence(Filter(s, p), s)
    decreases |s|
  {
    if s != [] {
      FilterIsSubsequence(s[1..], p);
      if !p(s[0]) {
        SubsequenceOfTail(Filter(s[1..], p), s);
      }
    }
  }

  /** Prepending an element to `s` keeps every ordered sub-list of `s` one. */
  lemma {:induction false} SubsequenceOfTail<T>(sub: seq<T>, s: seq<T>)
    requires s != []
    requires IsSubsequence(sub, s[1..])
    ensures IsSubsequence(sub, s)
    decreases |s|, 0
  {
    if sub != [] && sub[0] == s[0] {
      SubsequenceDropHead(sub, s[1..]);
    }
  }

  /** A non-empty ordered sub-list stays one when its head is dropped. */
  lemma {:induction false} SubsequenceDropHead<T>(sub: seq<T>, t: seq<T>)
    requires sub != []
    requires IsSubsequence(sub, t)
    ensures IsSubsequence(sub[1..], t)
    decreases |t|, 1
  {
    if sub[0] != t[0] {
      SubsequenceDropHead(sub, t[1..]);
    }
    if sub[1..] != [] {
      SubsequenceOfTail(sub[1..], t);
    }
  }

  /** JavaScript `s.slice(0, n)` for `n >= 0`. */
  function Take<T>(s: seq<T>, n: nat): (r: seq<T>)
    ensures |r| <= n && |r| <= |s|
    ensures r <= s
    ensures |s| <= n ==> r == s
  {
    if |s| <= n then s else s[..n]
  }

  /** JavaScript `s.slice(-n)` for `n > 0`: the last `n` elements, or all of them. */
  function LastN<T>(s: seq<T>, n: nat): (r: seq<T>)
    requires n > 0
    ensures |r| <= n && |r| <= |s|
    ensures |s| <= n ==> r == s
    ensures |s| > n ==> |r| == n
    ensures forall i :: 0 <= i < |r| ==> r[i] == s[|s| - |r| + i]
  {
    if |s| <= n then s else s[|s| - n..]
  }

  /** Trimming to the last `n` before appending more does not change the
      last `n` of the whole: `LastN` absorbs an earlier `LastN`. */
  lemma LastNAppend<T>(a: seq<T>, b: seq<T>, n: nat)
    requires n > 0
    ensures LastN(LastN(a, n) + b, n) == LastN(a + b, n)
  {
    if |a| > n {
      var j := |a| - n;
      var t := (a + b)[j..];
      assert LastN(a, n) + b == t;
      if b == [] {
        assert a + b == a;
      } else {
        assert |t| > n;
        assert t[|t| - n..] == (a + b)[|a + b| - n..];
      }
    }
  }

  /** Number of elements of `s` satisfying `p`: the source's `filter(p).length`. */
  function Count<T(==)>(s: seq<T>, p: T -> bool): (n: nat)
    ensures n <= |s|
    ensures n == |Filter(s, p)|
    decreases |s|
  {
    if s == [] then 0 else (if p(s[0]) then 1 else 0) + Count(s[1..], p)
  }

  /** Two predicates that never hold together count at most `|s|` elements. */
  lemma {:induction false} DisjointCountsBounded<T>(s: seq<T>, p: T -> bool, q: T -> bool)
    requires forall x :: !(p(x) && q(x))
    ensures Count(s, p) + Count(s, q) <= |s|
    decreases |s|
  {
    if s != [] {
      DisjointCountsBounded(s[1..], p, q);
    }
  }

  /** Counting distributes over concatenation. */
  lemma {:induction false} CountAppend<T>(a: seq<T>, b: seq<T>, p: T -> bool)
    ensures Count(a + b, p) == Count(a, p) + Count(b, p)
    decreases |a|
  {
    if a == [] {
      assert a + b == b;
    } else {
      assert (a + b)[1..] == a[1..] + b;
      CountAppend(a[1..], b, p);
    }
  }

  /** Sum of `f` over the elements of `s`: the source's `reduce((t, x) => t + f(x), 0)`. */
  function SumOf<T>(s: seq<T>, f: T -> int): int
    decreases |s|
  {
    if s == [] then 0 else SumOf(s[..|s| - 1], f) + f(s[|s| - 1])
  }

  /** Summing a bounded function gives a bounded sum. */
  lemma {:induction false} SumOfBounded<T>(s: seq<T>, f: T -> int, lo: int, hi: int)
    requires forall x :: x in s ==> lo <= f(x) <= hi
    ensures lo * |s| <= SumOf(s, f) <= hi * |s|
    decreases |s|
  {
    if s != [] {
      var init := s[..|s| - 1];
      assert forall x :: x in init ==> x in s;
      SumOfBounded(init, f, lo, hi);
      assert s[|s| - 1] in s;
      MulSucc(lo, |init|);
      MulSucc(hi, |init|);
    }
  }

  lemma MulSucc(a: int, n: nat)
    ensures a * (n + 1) == a * n + a
  {
  }

  /** Inserting a new key grows a map by one. */
  lemma MapInsertSize<K, V>(m: map<K, V>, k: K, v: V)
    requires k !in m
    ensures |m[k := v]| == |m| + 1
  {
    assert m[k := v].Keys == m.Keys + {k};
    assert |m.Keys + {k}| == |m.Keys| + 1;
  }
}
