/**
 * The parts of `java.util.ArrayList` that the core relies on: `indexOf`,
 * and `remove(Object)`, which drops only the first element equal to its
 * argument and keeps the others in order.
 */
module Lists {

  /** First index of `x` in `s`, or -1 when `x` does not occur. */
  function IndexOf<T(==)>(s: seq<T>, x: T): (i: int)
    ensures -1 <= i < |s|
    ensures i == -1 <==> x !in s
    ensures 0 <= i ==> s[i] == x && x !in s[..i]
  {
    if s == [] then -1
    else if s[0] == x then 0
    else
      var k := IndexOf(s[1..], x);
      if k < 0 then -1
      else
        assert s[..k + 1] == [s[0]] + s[1..][..k];
        k + 1
  }

  /** `s` without its element at position `i`. */
  function RemoveAt<T>(s: seq<T>, i: nat): (r: seq<T>)
    requires i < |s|
    ensures |r| == |s| - 1
    ensures forall k :: 0 <= k < i ==> r[k] == s[k]
    ensures forall k :: i <= k < |r| ==> r[k] == s[k + 1]
  {
    s[..i] + s[i + 1..]
  }

  /** `ArrayList.remove(x)`: the list without the first occurrence of `x`. */
  function RemoveFirst<T(==)>(s: seq<T>, x: T): (r: seq<T>)
    ensures x !in s ==> r == s
    ensures |r| == if x in s then |s| - 1 else |s|
  {
    var i := IndexOf(s, x);
    if i < 0 then s
    else
      assert s == s[..i] + [s[i]] + s[i + 1..];
      RemoveAt(s, i)
  }

  /** `remove(x)` cuts the list at the first `x`. */
  lemma RemoveFirstCuts<T>(s: seq<T>, x: T)
    requires x in s
    ensures exists i :: 0 <= i < |s| && s[i] == x && x !in s[..i] && RemoveFirst(s, x) == s[..i] + s[i + 1..]
  {
    var i := IndexOf(s, x);
    assert RemoveFirst(s, x) == s[..i] + s[i + 1..];
  }

  /** `remove(x)` takes away exactly one `x` when there is one, and nothing else. */
  lemma RemoveFirstMultiset<T>(s: seq<T>, x: T)
    ensures multiset(RemoveFirst(s, x)) == multiset(s) - multiset{x}
  {
    var i := IndexOf(s, x);
    if 0 <= i {
      assert s == s[..i] + [s[i]] + s[i + 1..];
    }
  }

  /** Removing an element just appended, and found nowhere else, restores the list. */
  lemma RemoveAppended<T>(s: seq<T>, x: T)
    requires x !in s
    ensures RemoveFirst(s + [x], x) == s
  {
    assert (s + [x])[|s|] == x && (s + [x])[..|s|] == s;
  }

  /** No element occurs twice. */
  ghost predicate NoDup<T>(s: seq<T>) {
    forall i, j :: 0 <= i < j < |s| ==> s[i] != s[j]
  }

  /** Removing from a list without duplicates removes exactly that element. */
  lemma RemoveFirstNoDup<T>(s: seq<T>, x: T)
    requires NoDup(s)
    ensures NoDup(RemoveFirst(s, x))
    ensures forall y :: y in RemoveFirst(s, x) <==> y in s && y != x
  {
    var i := IndexOf(s, x);
    if 0 <= i {
      var r := RemoveAt(s, i);
      assert RemoveFirst(s, x) == r;
      forall y
        ensures y in r <==> y in s && y != x
      {
        if y in r {
          var k :| 0 <= k < |r| && r[k] == y;
          if k < i { assert s[k] == y; } else { assert s[k + 1] == y; }
        }
        if y in s && y != x {
          var k :| 0 <= k < |s| && s[k] == y;
          if k < i { assert r[k] == y; } else { assert r[k - 1] == y; }
        }
      }
    }
  }
}
