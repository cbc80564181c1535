/** Sequence helpers: occurrence counts and reversal. */
module Seqs {

  /** Number of occurrences of `x` in `s`. */
  function Count<T(==)>(s: seq<T>, x: T): nat
  {
    if |s| == 0 then 0
    else Count(s[..|s| - 1], x) + (if s[|s| - 1] == x then 1 else 0)
  }

  lemma {:induction false} CountAppend<T>(a: seq<T>, b: seq<T>, x: T)
    ensures Count(a + b, x) == Count(a, x) + Count(b, x)
  {
    if |b| == 0 {
      assert a + b == a;
    } else {
      assert (a + b)[..|a + b| - 1] == a + b[..|b| - 1];
      CountAppend(a, b[..|b| - 1], x);
    }
  }

  lemma {:induction false} CountPositive<T>(s: seq<T>, x: T)
    ensures Count(s, x) > 0 <==> x in s
  {
    if |s| > 0 {
      CountPositive(s[..|s| - 1], x);
      assert s == s[..|s| - 1] + [s[|s| - 1]];
    }
  }

  /** `s` read back to front. */
  function Reverse<T>(s: seq<T>): (r: seq<T>)
    ensures |r| == |s|
    ensures forall k :: 0 <= k < |s| ==> r[k] == s[|s| - 1 - k]
  {
    if |s| == 0 then [] else [s[|s| - 1]] + Reverse(s[..|s| - 1])
  }

  lemma ReverseAppend<T>(a: seq<T>, b: seq<T>)
    ensures Reverse(a + b) == Reverse(b) + Reverse(a)
  {
  }

  lemma AppendAssoc<T>(a: seq<T>, b: seq<T>, c: seq<T>)
    ensures (a + b) + c == a + (b + c)
  {
  }
}
