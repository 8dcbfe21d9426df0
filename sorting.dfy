/** `Array.prototype.sort` with a numeric comparator `(a, b) => key(a) - key(b)`
    (ascending) or `key(b) - key(a)` (descending), the only way the pages sort. */
module Sorting {

  datatype Direction = Ascending | Descending

  /** The comparator does not put `a` after `b`. */
  predicate InOrder(a: int, b: int, d: Direction) {
    if d == Ascending then a <= b else a >= b
  }

  ghost predicate SortedBy<T>(s: seq<T>, key: T -> int, d: Direction) {
    forall i, j | 0 <= i < j < |s| :: InOrder(key(s[i]), key(s[j]), d)
  }

  /** Puts `x` in front of the first element it does not come after. */
  function Insert<T>(x: T, s: seq<T>, key: T -> int, d: Direction): (r: seq<T>)
    ensures multiset(r) == multiset(s) + multiset{x}
  {
    if s == [] || InOrder(key(x), key(s[0]), d) then
      [x] + s
    else
      assert s == [s[0]] + s[1..];
      [s[0]] + Insert(x, s[1..], key, d)
  }

  lemma {:induction false} InsertSorted<T>(x: T, s: seq<T>, key: T -> int, d: Direction)
    requires SortedBy(s, key, d)
    ensures SortedBy(Insert(x, s, key, d), key, d)
  {
    if s == [] || InOrder(key(x), key(s[0]), d) {
    } else {
      var rest := Insert(x, s[1..], key, d);
      InsertSorted(x, s[1..], key, d);
      forall k | 0 <= k < |rest|
        ensures InOrder(key(s[0]), key(rest[k]), d)
      {
        assert rest[k] in multiset(rest);
        if rest[k] != x {
          assert rest[k] in multiset(s[1..]);
          var j :| 0 <= j < |s[1..]| && s[1..][j] == rest[k];
          assert s[j + 1] == rest[k];
        }
      }
      assert Insert(x, s, key, d) == [s[0]] + rest;
    }
  }

  /** Insertion sort: a permutation of `s` sorted by `key` in direction `d`. */
  function SortBy<T>(s: seq<T>, key: T -> int, d: Direction): (r: seq<T>)
    ensures multiset(r) == multiset(s)
  {
    if s == [] then []
    else
      assert s == [s[0]] + s[1..];
      Insert(s[0], SortBy(s[1..], key, d), key, d)
  }

  lemma {:induction false} SortBySorted<T>(s: seq<T>, key: T -> int, d: Direction)
    ensures SortedBy(SortBy(s, key, d), key, d)
  {
    if s != [] {
      SortBySorted(s[1..], key, d);
      InsertSorted(s[0], SortBy(s[1..], key, d), key, d);
    }
  }

  /** What every caller needs: the result is sorted and a permutation of the input. */
  lemma SortByCorrect<T>(s: seq<T>, key: T -> int, d: Direction)
    ensures SortedBy(SortBy(s, key, d), key, d)
    ensures multiset(SortBy(s, key, d)) == multiset(s)
    ensures |SortBy(s, key, d)| == |s|
  {
    SortBySorted(s, key, d);
    assert |multiset(SortBy(s, key, d))| == |multiset(s)|;
  }
}
