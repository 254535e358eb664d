/** Generic facts about sequences, used to re-associate concatenations of
    text pieces without asking the verifier to compare them element-wise. */
module TextFacts {

  /** `p` occurs somewhere in `s`. */
  predicate Contains<T(==)>(s: seq<T>, p: seq<T>) {
    exists k :: 0 <= k <= |s| - |p| && p <= s[k..]
  }

  lemma ConcatAssoc<T>(a: seq<T>, b: seq<T>, c: seq<T>)
    ensures (a + b) + c == a + (b + c)
  {
  }

  lemma DropConcat<T>(a: seq<T>, b: seq<T>)
    ensures (a + b)[|a|..] == b
  {
  }

  lemma TakeConcat<T>(a: seq<T>, b: seq<T>)
    ensures (a + b)[..|a|] == a
  {
  }

  lemma PrefixOfConcat<T>(a: seq<T>, b: seq<T>, c: seq<T>)
    requires a <= b
    ensures a <= b + c
  {
  }

  lemma PrefixUnderConcat<T>(a: seq<T>, b: seq<T>, c: seq<T>)
    requires b <= c
    ensures a + b <= a + c
  {
  }

  /** A piece that starts at a known offset is contained. */
  lemma ContainsAt<T>(a: seq<T>, p: seq<T>, c: seq<T>)
    ensures Contains(a + (p + c), p)
  {
    var s := a + (p + c);
    DropConcat(a, p + c);
    assert p <= s[|a|..];
  }

  /** An occurrence that is not at the front is an occurrence in the tail. */
  lemma ContainsInTail<T>(s: seq<T>, p: seq<T>)
    requires |s| > 0 && !(p <= s)
    ensures Contains(s, p) <==> Contains(s[1..], p)
  {
    if Contains(s, p) {
      var k :| 0 <= k <= |s| - |p| && p <= s[k..];
      assert s[1..][k - 1..] == s[k..];
    }
    if Contains(s[1..], p) {
      var k :| 0 <= k <= |s[1..]| - |p| && p <= s[1..][k..];
      assert s[1..][k..] == s[k + 1..];
    }
  }

  /** `s` ends with `t`. */
  predicate EndsWith<T(==)>(s: seq<T>, t: seq<T>) {
    |t| <= |s| && s[|s| - |t|..] == t
  }

  lemma EndsWithConcat<T>(a: seq<T>, b: seq<T>, t: seq<T>)
    requires EndsWith(b, t)
    ensures EndsWith(a + b, t)
  {
    assert (a + b)[|a + b| - |t|..] == b[|b| - |t|..];
  }

  lemma EndsWithItself<T>(a: seq<T>, t: seq<T>)
    ensures EndsWith(a + t, t)
  {
    DropConcat(a, t);
  }

  /** No element of `s` equals `x`. */
  predicate Lacks<T(==)>(s: seq<T>, x: T) {
    forall i :: 0 <= i < |s| ==> s[i] != x
  }

  lemma LacksConcat<T>(a: seq<T>, b: seq<T>, x: T)
    requires Lacks(a, x) && Lacks(b, x)
    ensures Lacks(a + b, x)
  {
    forall i | 0 <= i < |a + b|
      ensures (a + b)[i] != x
    {
      if i >= |a| {
        assert (a + b)[i] == b[i - |a|];
      }
    }
  }

  /** A sequence without `x` contains no pattern that holds `x`. */
  lemma LacksExcludesContains<T>(s: seq<T>, p: seq<T>, j: nat, x: T)
    requires Lacks(s, x)
    requires j < |p| && p[j] == x
    ensures !Contains(s, p)
  {
    forall k | 0 <= k <= |s| - |p|
      ensures !(p <= s[k..])
    {
      assert s[k..][j] == s[k + j];
    }
  }
}
