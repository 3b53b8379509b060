/** Lists without repetition, and removal of one entry from a list. */
module Seqs {
  predicate Distinct<T(==)>(s: seq<T>) {
    forall i, j :: 0 <= i < j < |s| ==> s[i] != s[j]
  }

  /** s with the first occurrence of x taken out. */
  function Without<T(==)>(s: seq<T>, x: T): seq<T> {
    if s == [] then [] else if s[0] == x then s[1..] else [s[0]] + Without(s[1..], x)
  }

  lemma {:induction false} WithoutAt<T>(s: seq<T>, x: T, i: nat)
    requires i < |s| && s[i] == x && x !in s[..i]
    ensures Without(s, x) == s[..i] + s[i + 1..]
    decreases i
  {
    if i == 0 {
    } else {
      assert s[0] in s[..i];
      assert s[1..][..i - 1] == s[..i][1..];
      forall y | y in s[1..][..i - 1] ensures y in s[..i] {}
      WithoutAt(s[1..], x, i - 1);
      assert s[..i] + s[i + 1..] == [s[0]] + (s[1..][..i - 1] + s[1..][i..]);
    }
  }

  lemma {:induction false} WithoutAbsent<T>(s: seq<T>, x: T)
    requires x !in s
    ensures Without(s, x) == s
  {
    if s == [] {
    } else {
      WithoutAbsent(s[1..], x);
    }
  }

  lemma {:induction false} WithoutKeeps<T>(s: seq<T>, x: T, y: T)
    requires y in s && y != x
    ensures y in Without(s, x)
  {
    if s[0] == x || s[0] == y {
    } else {
      WithoutKeeps(s[1..], x, y);
    }
  }

  lemma {:induction false} WithoutOnly<T>(s: seq<T>, x: T, y: T)
    requires y in Without(s, x)
    ensures y in s && (Distinct(s) ==> y != x)
  {
    if s[0] == x || s[0] == y {
    } else {
      WithoutOnly(s[1..], x, y);
    }
  }

  lemma {:induction false} WithoutDistinct<T>(s: seq<T>, x: T)
    requires Distinct(s)
    ensures Distinct(Without(s, x))
    ensures forall y :: y in Without(s, x) <==> y in s && y != x
  {
    forall y
      ensures y in Without(s, x) <==> y in s && y != x
    {
      if y in Without(s, x) { WithoutOnly(s, x, y); }
      if y in s && y != x { WithoutKeeps(s, x, y); }
    }
    if s != [] && s[0] != x {
      var rest := Without(s[1..], x);
      WithoutDistinct(s[1..], x);
      forall j | 0 <= j < |rest|
        ensures rest[j] != s[0]
      {
        WithoutOnly(s[1..], x, rest[j]);
      }
    }
  }
}
