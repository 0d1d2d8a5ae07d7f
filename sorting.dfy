/** The stable sort behind every `Array.prototype.sort` call of the scheduler
    (ECMAScript 2019 requires that sort to be stable): an insertion sort on an
    integer key, ascending. Callers sort in descending order by negating the key. */
module Sorting {

  predicate SortedBy<T>(s: seq<T>, key: T -> int) {
    forall i, j :: 0 <= i < j < |s| ==> key(s[i]) <= key(s[j])
  }

  /** The elements of `s` whose key is `k`, in their order in `s`. */
  function WithKey<T>(s: seq<T>, key: T -> int, k: int): seq<T> {
    if s == [] then []
    else (if key(s[0]) == k then [s[0]] else []) + WithKey(s[1..], key, k)
  }

  /** Places `x` in front of the first element whose key is not smaller than its own. */
  function InsertBy<T>(x: T, s: seq<T>, key: T -> int): (r: seq<T>)
    ensures |r| == |s| + 1
    ensures multiset(r) == multiset(s) + multiset{x}
  {
    if s == [] || key(x) <= key(s[0]) then [x] + s
    else
      assert s == [s[0]] + s[1..];
      [s[0]] + InsertBy(x, s[1..], key)
  }

  function SortBy<T>(s: seq<T>, key: T -> int): (r: seq<T>)
    ensures |r| == |s|
    ensures multiset(r) == multiset(s)
  {
    if s == [] then []
    else
      assert s == [s[0]] + s[1..];
      InsertBy(s[0], SortBy(s[1..], key), key)
  }

  lemma {:induction false} InsertBySorted<T>(x: T, s: seq<T>, key: T -> int)
    requires SortedBy(s, key)
    ensures SortedBy(InsertBy(x, s, key), key)
    ensures InsertBy(x, s, key)[0] == x || (s != [] && InsertBy(x, s, key)[0] == s[0])
  {
    if s != [] && key(x) > key(s[0]) {
      InsertBySorted(x, s[1..], key);
      var t := InsertBy(x, s[1..], key);
      assert forall j :: 0 <= j < |t| ==> key(s[0]) <= key(t[j]) by {
        forall j | 0 <= j < |t| ensures key(s[0]) <= key(t[j]) {
          assert t[j] in multiset(t);
          assert t[j] == x || t[j] in multiset(s[1..]);
          if t[j] != x {
            var m :| 0 <= m < |s[1..]| && s[1..][m] == t[j];
            assert s[m + 1] == t[j];
          }
        }
      }
    }
  }

  /** The result of SortBy is ordered by key. */
  lemma {:induction false} SortBySorted<T>(s: seq<T>, key: T -> int)
    ensures SortedBy(SortBy(s, key), key)
  {
    if s != [] {
      SortBySorted(s[1..], key);
      InsertBySorted(s[0], SortBy(s[1..], key), key);
    }
  }

  lemma {:induction false} InsertByWithKey<T>(x: T, s: seq<T>, key: T -> int, k: int)
    ensures WithKey(InsertBy(x, s, key), key, k)
         == (if key(x) == k then [x] else []) + WithKey(s, key, k)
    decreases |s|
  {
    var r := InsertBy(x, s, key);
    if s == [] || key(x) <= key(s[0]) {
      assert r[0] == x && r[1..] == s;
    } else {
      InsertByWithKey(x, s[1..], key, k);
      WithKeySwap(x, s, key, k);
    }
  }

  /** One step of the induction above: `x` passes the head of `s`, whose key
      is smaller, so the two never share a key. */
  lemma WithKeySwap<T>(x: T, s: seq<T>, key: T -> int, k: int)
    requires s != [] && key(x) > key(s[0])
    requires WithKey(InsertBy(x, s[1..], key), key, k) == (if key(x) == k then [x] else []) + WithKey(s[1..], key, k)
    ensures WithKey(InsertBy(x, s, key), key, k) == (if key(x) == k then [x] else []) + WithKey(s, key, k)
  {
    var r := InsertBy(x, s, key);
    var rest := WithKey(s[1..], key, k);
    assert r[0] == s[0] && r[1..] == InsertBy(x, s[1..], key);
    if key(x) == k {
      assert key(s[0]) != k;
      assert WithKey(r, key, k) == WithKey(r[1..], key, k) == [x] + rest;
      assert WithKey(s, key, k) == rest;
    } else if key(s[0]) == k {
      assert WithKey(r, key, k) == [s[0]] + WithKey(r[1..], key, k);
      assert WithKey(r[1..], key, k) == rest;
      assert WithKey(s, key, k) == [s[0]] + rest;
    } else {
      assert WithKey(r, key, k) == WithKey(r[1..], key, k) == rest;
      assert WithKey(s, key, k) == rest;
    }
  }

  /** SortBy is stable: the elements sharing a key keep their relative order. */
  lemma {:induction false} SortByStable<T>(s: seq<T>, key: T -> int, k: int)
    ensures WithKey(SortBy(s, key), key, k) == WithKey(s, key, k)
  {
    if s != [] {
      SortByStable(s[1..], key, k);
      InsertByWithKey(s[0], SortBy(s[1..], key), key, k);
    }
  }

  /** The first element of `s` whose key is smallest: a left-to-right scan that
      replaces the current pick only on a strictly smaller key. */
  function FirstMin<T>(s: seq<T>, key: T -> int): T
    requires s != []
  {
    if |s| == 1 then s[0]
    else
      var m := FirstMin(s[1..], key);
      if key(s[0]) <= key(m) then s[0] else m
  }

  lemma {:induction false} FirstMinIsFirstMinimal<T>(s: seq<T>, key: T -> int)
    requires s != []
    ensures forall x :: x in s ==> key(FirstMin(s, key)) <= key(x)
    ensures exists i :: 0 <= i < |s| && s[i] == FirstMin(s, key)
                        && forall j :: 0 <= j < i ==> key(s[j]) > key(s[i])
  {
    if |s| > 1 {
      FirstMinIsFirstMinimal(s[1..], key);
      var m := FirstMin(s[1..], key);
      var i :| 0 <= i < |s[1..]| && s[1..][i] == m && forall j :: 0 <= j < i ==> key(s[1..][j]) > key(s[1..][i]);
      if key(s[0]) > key(m) {
        assert FirstMin(s, key) == m;
        assert s[i + 1] == m;
        forall j | 0 <= j < i + 1 ensures key(s[j]) > key(s[i + 1]) {
          if j > 0 { assert s[j] == s[1..][j - 1]; }
        }
        assert 0 <= i + 1 < |s| && s[i + 1] == FirstMin(s, key)
               && forall j :: 0 <= j < i + 1 ==> key(s[j]) > key(s[i + 1]);
      } else {
        assert FirstMin(s, key) == s[0];
        assert 0 <= 0 < |s| && s[0] == FirstMin(s, key);
      }
      forall x | x in s ensures key(FirstMin(s, key)) <= key(x) {
        if x != s[0] { assert x in s[1..]; }
      }
    } else {
      assert s[0] == FirstMin(s, key);
    }
  }

  /** The head of the stable sort is the first element with the smallest key:
      `s.sort(...)[0]` picks the earliest of the tied minima. */
  lemma {:induction false} SortByHead<T>(s: seq<T>, key: T -> int)
    requires s != []
    ensures SortBy(s, key)[0] == FirstMin(s, key)
  {
    if |s| > 1 {
      SortByHead(s[1..], key);
    } else {
      assert s[1..] == [];
    }
  }
}
