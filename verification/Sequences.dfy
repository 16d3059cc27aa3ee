/** Searching sequences. */
module Sequences {
  ghost predicate IsFirst<T>(s: seq<T>, x: T, i: int) {
    0 <= i < |s| && s[i] == x && forall k :: 0 <= k < i ==> s[k] != x
  }

  lemma {:induction false} FirstExists<T>(s: seq<T>, x: T)
    requires x in s
    ensures exists i :: IsFirst(s, x, i)
  {
    if s[0] == x {
      assert IsFirst(s, x, 0);
    } else {
      FirstExists(s[1..], x);
      var i :| IsFirst(s[1..], x, i);
      assert IsFirst(s, x, i + 1);
    }
  }

  /** The position of the first `x` in `s`, or |s| when there is none. */
  ghost function IndexOf<T>(s: seq<T>, x: T): (i: nat)
    ensures i < |s| <==> x in s
    ensures i < |s| ==> IsFirst(s, x, i)
    ensures i <= |s|
  {
    if x in s then FirstExists(s, x); var i :| IsFirst(s, x, i); i else |s|
  }

  /** The position of the first `x`, or |s|: what std::find computes. */
  method Find<T(==)>(s: seq<T>, x: T) returns (i: nat)
    ensures i == IndexOf(s, x)
  {
    i := 0;
    while i < |s| && s[i] != x
      invariant i <= IndexOf(s, x)
    {
      i := i + 1;
    }
  }

  ghost predicate NoDuplicates<T>(s: seq<T>) {
    forall i, j :: 0 <= i < j < |s| ==> s[i] != s[j]
  }
}
