/** Sorting by a real key, with no promise about the order of equal keys (std::sort, Array.sort). */
module Sorting {

  ghost predicate SortedBy<T>(s: seq<T>, key: T -> real) {
    forall i, j :: 0 <= i < j < |s| ==> key(s[i]) <= key(s[j])
  }

  ghost predicate StrictlyIncreasing(s: seq<real>) {
    forall i, j :: 0 <= i < j < |s| ==> s[i] < s[j]
  }

  function Inserted<T>(s: seq<T>, x: T, k: nat): seq<T>
    requires k <= |s|
  {
    s[..k] + [x] + s[k..]
  }

  lemma InsertedMultiset<T>(s: seq<T>, x: T, k: nat)
    requires k <= |s|
    ensures multiset(Inserted(s, x, k)) == multiset(s) + multiset{x}
  {
    assert s == s[..k] + s[k..];
  }

  lemma InsertedSorted<T>(s: seq<T>, x: T, k: nat, key: T -> real)
    requires k <= |s| && SortedBy(s, key)
    requires k > 0 ==> key(s[k - 1]) <= key(x)
    requires k < |s| ==> key(x) < key(s[k])
    ensures SortedBy(Inserted(s, x, k), key)
  {
  }

  /** Puts x behind the keys that do not exceed its own. */
  method Insert<T>(s: seq<T>, x: T, key: T -> real) returns (r: seq<T>)
    requires SortedBy(s, key)
    ensures SortedBy(r, key)
    ensures multiset(r) == multiset(s) + multiset{x}
  {
    var k := |s|;
    while k > 0 && key(x) < key(s[k - 1])
      invariant 0 <= k <= |s|
      invariant k < |s| ==> key(x) < key(s[k])
    {
      k := k - 1;
    }
    r := Inserted(s, x, k);
    InsertedSorted(s, x, k, key);
    InsertedMultiset(s, x, k);
  }

  method Sort<T>(s: seq<T>, key: T -> real) returns (r: seq<T>)
    ensures SortedBy(r, key)
    ensures multiset(r) == multiset(s)
  {
    r := [];
    var i := 0;
    while i < |s|
      invariant 0 <= i <= |s|
      invariant SortedBy(r, key)
      invariant multiset(r) == multiset(s[..i])
    {
      r := Insert(r, s[i], key);
      assert s[..i + 1] == s[..i] + [s[i]];
      i := i + 1;
    }
    assert s[..i] == s;
  }
}
