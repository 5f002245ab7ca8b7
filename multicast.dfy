/**
  The invocation list of a .NET multicast delegate (an `event` field), as far as
  the extension library relies on it: `+=` appends a handler at the end, and `-=`
  removes the LAST occurrence of an equal handler, leaving the list unchanged when
  there is none.
*/
module Multicast {

  /** Index of the last occurrence of `x` in `s`. */
  function LastIndex<T(==)>(s: seq<T>, x: T): (i: nat)
    requires x in s
    ensures i < |s| && s[i] == x
    ensures x !in s[i + 1..]
    decreases |s|
  {
    var last := |s| - 1;
    if s[last] == x then last
    else
      assert x in s[..last] by {
        var k :| 0 <= k < |s| && s[k] == x;
        assert s[..last][k] == x;
      }
      var i := LastIndex(s[..last], x);
      assert s[i + 1..] == s[..last][i + 1..] + [s[last]];
      i
  }

  /** The invocation list after `-= x`. */
  function RemoveLast<T(==)>(s: seq<T>, x: T): (r: seq<T>)
    ensures x in s ==> |r| == |s| - 1
    ensures x !in s ==> r == s
    decreases |s|
  {
    if s == [] then []
    else
      var last := |s| - 1;
      assert x !in s && s[last] != x ==> x !in s[..last];
      if s[last] == x then s[..last]
      else RemoveLast(s[..last], x) + [s[last]]
  }

  /** `-= x` takes away one copy of `x`, if there is one, and no copy of anything else. */
  lemma {:induction false} RemoveLastCount<T>(s: seq<T>, x: T)
    ensures multiset(RemoveLast(s, x)) == multiset(s) - multiset{x}
    decreases |s|
  {
    if s != [] {
      var last := |s| - 1;
      assert s == s[..last] + [s[last]];
      if s[last] != x {
        RemoveLastCount(s[..last], x);
      }
    }
  }

  /** `-= x` deletes exactly the last occurrence of `x` and keeps the order of the rest. */
  lemma {:induction false} RemoveLastAt<T>(s: seq<T>, x: T)
    requires x in s
    ensures RemoveLast(s, x) == s[..LastIndex(s, x)] + s[LastIndex(s, x) + 1..]
    decreases |s|
  {
    var last := |s| - 1;
    if s[last] == x {
      assert s[last + 1..] == [];
    } else {
      var init := s[..last];
      assert x in init by {
        var k :| 0 <= k < |s| && s[k] == x;
        assert init[k] == x;
      }
      var i := LastIndex(init, x);
      assert LastIndex(s, x) == i;
      var a, b := init[..i], init[i + 1..];
      assert RemoveLast(s, x) == a + b + [s[last]] by {
        RemoveLastAt(init, x);
        assert RemoveLast(s, x) == RemoveLast(init, x) + [s[last]];
      }
      assert s[..i] == a && s[i + 1..] == b + [s[last]];
    }
  }
}
