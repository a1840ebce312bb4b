/**
 * Ranking by a numeric key, descending, with ties kept in input order: the
 * stable `Array.prototype.sort((a, b) => key(b) - key(a))` that JavaScript
 * engines have been required to provide since ECMAScript 2019, and the
 * `ORDER BY ... DESC` of the store's queries. `Take` is `slice(0, n)` and
 * SQL `LIMIT n`.
 */
module Ranking {

  predicate SortedDesc<T>(s: seq<T>, key: T -> int)
  {
    forall i, j :: 0 <= i < j < |s| ==> key(s[i]) >= key(s[j])
  }

  /** The elements of `s` whose key is `c`, in their order in `s`. */
  function WithKey<T>(s: seq<T>, key: T -> int, c: int): (r: seq<T>)
    ensures |r| <= |s|
  {
    if s == [] then []
    else (if key(s[0]) == c then [s[0]] else []) + WithKey(s[1..], key, c)
  }

  /** Places `x` before the first element whose key is not above its own. */
  function Insert<T>(x: T, s: seq<T>, key: T -> int): (r: seq<T>)
    ensures multiset(r) == multiset(s) + multiset{x}
    ensures |r| == |s| + 1
  {
    if s == [] || key(s[0]) <= key(x) then
      [x] + s
    else
      assert s == [s[0]] + s[1..];
      [s[0]] + Insert(x, s[1..], key)
  }

  lemma {:induction false} InsertSorted<T>(x: T, s: seq<T>, key: T -> int)
    requires SortedDesc(s, key)
    ensures SortedDesc(Insert(x, s, key), key)
    decreases |s|
  {
    if s != [] && key(s[0]) > key(x) {
      var t := Insert(x, s[1..], key);
      InsertSorted(x, s[1..], key);
      assert t[0] == x || t[0] == s[1];
      forall i | 0 <= i < |t| ensures key(s[0]) >= key(t[i]) {
        assert key(t[0]) >= key(t[i]);
      }
    }
  }

  /** Insertion sort, stable and descending by `key`. */
  function SortDesc<T>(s: seq<T>, key: T -> int): (r: seq<T>)
    ensures multiset(r) == multiset(s)
    ensures |r| == |s|
    ensures SortedDesc(r, key)
  {
    if s == [] then []
    else
      assert s == [s[0]] + s[1..];
      InsertSorted(s[0], SortDesc(s[1..], key), key);
      Insert(s[0], SortDesc(s[1..], key), key)
  }

  /** Ranking a sequence that is already ranked changes nothing. */
  lemma {:induction false} SortDescSorted<T>(s: seq<T>, key: T -> int)
    requires SortedDesc(s, key)
    ensures SortDesc(s, key) == s
  {
    if s != [] {
      SortDescSorted(s[1..], key);
      assert s == [s[0]] + s[1..];
    }
  }

  /** `slice(0, n)` / `LIMIT n`: the first `n` elements, or all of them. */
  function Take<T>(s: seq<T>, n: nat): (r: seq<T>)
    ensures |r| == if n < |s| then n else |s|
    ensures r <= s
  {
    if n < |s| then s[..n] else s
  }

  function KeyPart<T>(x: T, key: T -> int, c: int): seq<T>
  {
    if key(x) == c then [x] else []
  }

  lemma WithKeyCons<T>(x: T, s: seq<T>, key: T -> int, c: int)
    ensures WithKey([x] + s, key, c) == KeyPart(x, key, c) + WithKey(s, key, c)
  {
    assert ([x] + s)[1..] == s;
  }

  /** Two parts of which one is empty can be put in either order. */
  lemma SwapEmpty<T>(a: seq<T>, b: seq<T>, w: seq<T>)
    requires a == [] || b == []
    ensures a + (b + w) == b + (a + w)
  {
  }

  lemma {:induction false} InsertKeepsTies<T>(x: T, s: seq<T>, key: T -> int, c: int)
    ensures WithKey(Insert(x, s, key), key, c) == WithKey([x] + s, key, c)
    decreases |s|
  {
    if s != [] && key(s[0]) > key(x) {
      var t := Insert(x, s[1..], key);
      var a, b := KeyPart(s[0], key, c), KeyPart(x, key, c);
      assert s == [s[0]] + s[1..];
      calc {
        WithKey(Insert(x, s, key), key, c);
        WithKey([s[0]] + t, key, c);
        { WithKeyCons(s[0], t, key, c); }
        a + WithKey(t, key, c);
        { InsertKeepsTies(x, s[1..], key, c); }
        a + WithKey([x] + s[1..], key, c);
        { WithKeyCons(x, s[1..], key, c); }
        a + (b + WithKey(s[1..], key, c));
        { SwapEmpty(a, b, WithKey(s[1..], key, c)); }
        b + (a + WithKey(s[1..], key, c));
        { WithKeyCons(s[0], s[1..], key, c); }
        b + WithKey(s, key, c);
        { WithKeyCons(x, s, key, c); }
        WithKey([x] + s, key, c);
      }
    }
  }

  /**
   * Stability: the elements that share a key appear in the sorted sequence
   * in exactly the order they had in the input.
   */
  lemma {:induction false} SortKeepsTies<T>(s: seq<T>, key: T -> int, c: int)
    ensures WithKey(SortDesc(s, key), key, c) == WithKey(s, key, c)
    decreases |s|
  {
    if s != [] {
      SortKeepsTies(s[1..], key, c);
      InsertKeepsTies(s[0], SortDesc(s[1..], key), key, c);
      WithKeyCons(s[0], SortDesc(s[1..], key), key, c);
      assert s == [s[0]] + s[1..];
      WithKeyCons(s[0], s[1..], key, c);
    }
  }

  /**
   * The first `n` elements of the ranking are a top `n`: no element left out
   * has a key above any element kept.
   */
  lemma TakeIsTop<T>(s: seq<T>, key: T -> int, n: nat, e: T)
    requires e in s && e !in Take(SortDesc(s, key), n)
    ensures forall i :: 0 <= i < |Take(SortDesc(s, key), n)| ==> key(Take(SortDesc(s, key), n)[i]) >= key(e)
  {
    var r := SortDesc(s, key);
    assert e in multiset(s);
    assert e in r;
    var j :| 0 <= j < |r| && r[j] == e;
  }
}
