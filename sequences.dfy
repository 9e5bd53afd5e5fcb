/** The order-preserving filter (`Array.prototype.filter`) and what it keeps. */
module Sequences {

  /** `s.filter(p)`: the elements satisfying `p`, in their original order. */
  function Keep<T>(s: seq<T>, p: T -> bool): seq<T>
    decreases |s|
  {
    if s == [] then [] else (if p(s[0]) then [s[0]] else []) + Keep(s[1..], p)
  }

  /** `a` can be obtained from `b` by deleting elements (order kept). */
  predicate IsSubsequence<T(==)>(a: seq<T>, b: seq<T>)
    decreases |b|
  {
    a == [] || (b != [] && ((a[0] == b[0] && IsSubsequence(a[1..], b[1..])) || IsSubsequence(a, b[1..])))
  }

  /** Filtering a concatenation filters each part. */
  lemma {:induction false} KeepAppend<T>(a: seq<T>, b: seq<T>, p: T -> bool)
    ensures Keep(a + b, p) == Keep(a, p) + Keep(b, p)
    decreases |a|
  {
    if a != [] {
      assert (a + b)[1..] == a[1..] + b;
      KeepAppend(a[1..], b, p);
    } else {
      assert a + b == b;
    }
  }

  /** The filter keeps an element iff it is in the input and satisfies `p`. */
  lemma {:induction false} KeepMembers<T>(s: seq<T>, p: T -> bool)
    ensures forall x :: x in Keep(s, p) <==> x in s && p(x)
    decreases |s|
  {
    if s != [] {
      KeepMembers(s[1..], p);
      assert forall x :: x in s <==> x == s[0] || x in s[1..];
    }
  }

  /** The filter's result is a subsequence of its input, hence no longer. */
  lemma {:induction false} KeepIsSubsequence<T>(s: seq<T>, p: T -> bool)
    ensures IsSubsequence(Keep(s, p), s)
    ensures |Keep(s, p)| <= |s|
    decreases |s|
  {
    if s != [] {
      KeepIsSubsequence(s[1..], p);
      var k := Keep(s, p);
      if p(s[0]) {
        assert k[0] == s[0] && k[1..] == Keep(s[1..], p);
      } else {
        assert k == Keep(s[1..], p);
        SubsequenceOfTail(k, s);
      }
    }
  }

  /** A subsequence of the tail is a subsequence of the whole. */
  lemma {:induction false} SubsequenceOfTail<T>(a: seq<T>, b: seq<T>)
    requires b != [] && IsSubsequence(a, b[1..])
    ensures IsSubsequence(a, b)
  {
  }

  /** Every element of the result satisfies `p`. */
  lemma KeepSatisfies<T>(s: seq<T>, p: T -> bool)
    ensures forall k :: 0 <= k < |Keep(s, p)| ==> p(Keep(s, p)[k])
  {
    KeepMembers(s, p);
    forall k | 0 <= k < |Keep(s, p)| ensures p(Keep(s, p)[k]) {
      assert Keep(s, p)[k] in Keep(s, p);
    }
  }

  /** When every element satisfies `p`, the filter returns its input. */
  lemma {:induction false} KeepAll<T>(s: seq<T>, p: T -> bool)
    requires forall k :: 0 <= k < |s| ==> p(s[k])
    ensures Keep(s, p) == s
    decreases |s|
  {
    if s != [] {
      KeepAll(s[1..], p);
    }
  }

  /** Filtering twice with the same predicate is filtering once. */
  lemma KeepIdempotent<T>(s: seq<T>, p: T -> bool)
    ensures Keep(Keep(s, p), p) == Keep(s, p)
  {
    KeepSatisfies(s, p);
    KeepAll(Keep(s, p), p);
  }

  /** The filter is empty iff no element satisfies `p`. */
  lemma KeepEmpty<T>(s: seq<T>, p: T -> bool)
    ensures Keep(s, p) == [] <==> forall k :: 0 <= k < |s| ==> !p(s[k])
  {
    KeepMembers(s, p);
    if Keep(s, p) != [] {
      assert Keep(s, p)[0] in Keep(s, p);
    } else {
      forall k | 0 <= k < |s| ensures !p(s[k]) {
        assert s[k] in s;
      }
    }
  }

  /** The indices of `s` whose element satisfies `p`. */
  function Positions<T>(s: seq<T>, p: T -> bool): set<int> {
    set k | 0 <= k < |s| && p(s[k])
  }

  /** The filter keeps one element per satisfying index. */
  lemma {:induction false} KeepCountsPositions<T>(s: seq<T>, p: T -> bool)
    ensures |Keep(s, p)| == |Positions(s, p)|
    decreases |s|
  {
    if s != [] {
      var init, last := s[..|s| - 1], s[|s| - 1];
      assert s == init + [last];
      KeepAppend(init, [last], p);
      assert Keep([last], p) == if p(last) then [last] else [];
      KeepCountsPositions(init, p);
      var before := Positions(init, p);
      assert |s| - 1 !in before;
      if p(last) {
        assert Positions(s, p) == before + {|s| - 1};
      } else {
        assert Positions(s, p) == before;
      }
    }
  }
}
