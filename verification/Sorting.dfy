/** Stable sort by an integer key, as `sorted(..., key=...)` and `list.sort(key=...)` do. */
module Sorting {
  function SortBy<T>(s: seq<T>, key: T -> int): (r: seq<T>)
    ensures multiset(r) == multiset(s)
    ensures Ascending(r, key)
  {
    if s == [] then []
    else
      assert s == [s[0]] + s[1..];
      Insert(s[0], SortBy(s[1..], key), key)
  }

  function Insert<T>(x: T, s: seq<T>, key: T -> int): (r: seq<T>)
    requires Ascending(s, key)
    ensures multiset(r) == multiset{x} + multiset(s)
    ensures Ascending(r, key)
    ensures r != [] && (r[0] == x || (s != [] && r[0] == s[0]))
  {
    if s == [] || key(x) <= key(s[0]) then [x] + s
    else
      assert s == [s[0]] + s[1..];
      [s[0]] + Insert(x, s[1..], key)
  }

  ghost predicate Ascending<T>(s: seq<T>, key: T -> int) {
    s == [] || ((|s| > 1 ==> key(s[0]) <= key(s[1])) && Ascending(s[1..], key))
  }

  lemma {:induction false} AscendingAll<T>(s: seq<T>, key: T -> int, i: nat, j: nat)
    requires Ascending(s, key) && i <= j < |s|
    ensures key(s[i]) <= key(s[j])
  {
    if i > 0 {
      AscendingAll(s[1..], key, i - 1, j - 1);
    } else if j > 0 {
      assert s[1..][0] == s[1];
      AscendingAll(s[1..], key, 0, j - 1);
    }
  }

  lemma SameElements<T>(s: seq<T>, key: T -> int)
    ensures |SortBy(s, key)| == |s|
    ensures forall x :: x in SortBy(s, key) <==> x in s
  {
    var r := SortBy(s, key);
    assert |multiset(r)| == |multiset(s)|;
    forall x ensures x in r <==> x in s {
      assert x in r <==> x in multiset(r);
      assert x in s <==> x in multiset(s);
    }
  }
}
